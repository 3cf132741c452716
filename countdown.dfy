/**
 * The marking screen of the mobile app: the `HH:MM:SS` rendering of the remaining shift
 * time, and the countdown that ticks it locally between refreshes from the server.
 * Network replies, the token store and alerts are parameters and results; one timer tick
 * and one effect run are single steps.
 */
module Countdown {
  import opened Common
  import opened Text
  import Marks

  /** The three fields `formatTime` computes. */
  datatype Clock = Clock(horas: nat, minutos: nat, segundos: nat)

  /** Hours, minutes and seconds of a number of seconds. */
  function SplitTime(t: nat): (c: Clock)
    ensures 3600 * c.horas + 60 * c.minutos + c.segundos == t
    ensures c.minutos < 60 && c.segundos < 60
    ensures t < 360000 ==> c.horas < 100
  {
    Clock(t / 3600, (t % 3600) / 60, t % 60)
  }

  /** `s.padStart(2, "0")`. */
  function PadStart2(s: string): (r: string)
    ensures |r| == if |s| < 2 then 2 else |s|
    ensures r[|r| - |s|..] == s
    ensures forall i :: 0 <= i < |r| - |s| ==> r[i] == '0'
  {
    if |s| >= 2 then s else seq(2 - |s|, _ => '0') + s
  }

  /** `pad(n)`: the decimal spelling of `n`, left-padded with `0` to at least two characters. */
  function Pad(n: nat): string
  {
    PadStart2(NatToString(n))
  }

  /** The three padded fields joined by `:`. */
  function FormatClock(c: Clock): string
  {
    Pad(c.horas) + ":" + Pad(c.minutos) + ":" + Pad(c.segundos)
  }


  /** A number below 100 is padded to exactly its tens digit and its units digit. */
  lemma PadBelow100(n: nat)
    requires n < 100
    ensures Pad(n) == [DigitChar(n / 10), DigitChar(n % 10)]
  {
    if n >= 10 {
      TwoDigitSpelling(n);
    } else {
      assert NatToString(n) == [DigitChar(n)];
      assert PadStart2(NatToString(n)) == PadStart2(['0'] + NatToString(n));
    }
  }

  /** The text has the shape `DD:DD:DD`. */
  predicate IsClockText(s: string)
  {
    |s| == 8 && s[2] == ':' && s[5] == ':'
    && IsDigit(s[0]) && IsDigit(s[1]) && IsDigit(s[3]) && IsDigit(s[4]) && IsDigit(s[6]) && IsDigit(s[7])
  }

  /** Reads a `DD:DD:DD` text back into seconds. */
  function ParseClock(s: string): Option<nat>
  {
    if IsClockText(s) then
      Some(3600 * (10 * DigitValue(s[0]) + DigitValue(s[1]))
           + 60 * (10 * DigitValue(s[3]) + DigitValue(s[4]))
           + 10 * DigitValue(s[6]) + DigitValue(s[7]))
    else None
  }

  /** The two digits of a number below 100. */
  function Digits2(n: nat): (d: string)
    requires n < 100
    ensures |d| == 2 && IsDigit(d[0]) && IsDigit(d[1])
    ensures 10 * DigitValue(d[0]) + DigitValue(d[1]) == n
  {
    [DigitChar(n / 10), DigitChar(n % 10)]
  }

  /** Three two-digit fields joined by `:` read back as the seconds they stand for. */
  lemma ParseClockOfFields(a: string, b: string, c: string)
    requires |a| == 2 && |b| == 2 && |c| == 2
    requires IsDigit(a[0]) && IsDigit(a[1]) && IsDigit(b[0]) && IsDigit(b[1]) && IsDigit(c[0]) && IsDigit(c[1])
    ensures IsClockText(a + ":" + b + ":" + c)
    ensures (a + ":" + b + ":" + c) == [a[0], a[1], ':', b[0], b[1], ':', c[0], c[1]]
    ensures ParseClock(a + ":" + b + ":" + c) == Some(
      3600 * (10 * DigitValue(a[0]) + DigitValue(a[1]))
      + 60 * (10 * DigitValue(b[0]) + DigitValue(b[1]))
      + 10 * DigitValue(c[0]) + DigitValue(c[1]))
  {
    var s := a + ":" + b + ":" + c;
    assert s == [a[0], a[1], ':', b[0], b[1], ':', c[0], c[1]];
  }

  /** The `DD:DD:DD` text shows the hours, the minutes and the seconds of `c`, two digits each. */
  predicate ShowsFields(s: string, c: Clock)
    requires IsClockText(s)
  {
    && 10 * DigitValue(s[0]) + DigitValue(s[1]) == c.horas
    && 10 * DigitValue(s[3]) + DigitValue(s[4]) == c.minutos
    && 10 * DigitValue(s[6]) + DigitValue(s[7]) == c.segundos
  }

  /** Three numbers below 100, padded and joined by `:`, read back as the seconds they stand for. */
  lemma ClockTextOf(c: Clock)
    requires c.horas < 100 && c.minutos < 100 && c.segundos < 100
    ensures IsClockText(FormatClock(c))
    ensures ParseClock(FormatClock(c)) == Some(3600 * c.horas + 60 * c.minutos + c.segundos)
    ensures ShowsFields(FormatClock(c), c)
  {
    var h, m, sec := c.horas, c.minutos, c.segundos;
    PadBelow100(h);
    PadBelow100(m);
    PadBelow100(sec);
    assert Pad(h) == Digits2(h) && Pad(m) == Digits2(m) && Pad(sec) == Digits2(sec);
    ParseClockOfFields(Digits2(h), Digits2(m), Digits2(sec));
  }

  /**
   * `formatTime(totalSegundos)`: hours, minutes and seconds, each padded to two digits, joined by `:`.
   * Minutes and seconds always take two characters; below 100 hours the whole text is `DD:DD:DD`,
   * shows the whole hours, the minutes below 60 and the seconds below 60 of `t`, and reads back as `t`.
   */
  function FormatTime(t: nat): (r: string)
    ensures |r| >= 8 && r[|r| - 6] == ':' && r[|r| - 3] == ':'
    ensures t < 360000 ==> IsClockText(r) && ParseClock(r) == Some(t)
    ensures t < 360000 ==> ShowsFields(r, SplitTime(t))
    ensures t < 360000 ==> DigitValue(r[3]) < 6 && DigitValue(r[6]) < 6
  {
    var c := SplitTime(t);
    if t < 360000 then
      ClockTextOf(c);
      FormatClock(c)
    else
      PadBelow100(c.minutos);
      PadBelow100(c.segundos);
      FormatClock(c)
  }

  /** The value the tick's state updater computes from `prev`. */
  function NextTick(prev: int): (r: nat)
    ensures prev > 0 ==> r == prev - 1
    ensures prev <= 0 ==> r == 0
  {
    if prev <= 1 then 0 else prev - 1
  }

  /** The displayed value after `n` ticks from `t`. */
  function AfterTicks(t: nat, n: nat): nat
    decreases n
  {
    if n == 0 then t else NextTick(AfterTicks(t, n - 1))
  }

  /** Each tick takes one second off until the value reaches 0, where it stays. */
  lemma {:induction false} AfterTicksValue(t: nat, n: nat)
    ensures AfterTicks(t, n) == if n <= t then t - n else 0
    decreases n
  {
    if n > 0 {
      AfterTicksValue(t, n - 1);
    }
  }

  /** `trabajador` of the status reply: both names may be absent. */
  datatype TrabajadorJson = TrabajadorJson(nombre: Option<string>, apellidos: Option<string>)

  /** `turno` of the status reply: either hour may be absent. */
  datatype TurnoJson = TurnoJson(horaEntrada: Option<string>, horaSalida: Option<string>)

  /** The status reply (`GET`), as far as the screen reads it. */
  datatype EstadoBody = EstadoBody(
    tieneEntradaActiva: bool,
    segundosRestantes: Option<nat>,
    trabajador: Option<TrabajadorJson>,
    empresa: Option<Option<string>>,
    turno: Option<TurnoJson>)

  /** The mark reply (`POST`), as far as the screen reads it. */
  datatype MarkBody = MarkBody(detail: Option<string>)

  /** A network call: it threw (network error or a body that is not JSON), or it answered. */
  datatype Reply<T> = Thrown | Answer(ok: bool, body: T)

  /** An `Alert.alert(title, message)` shown to the user. */
  datatype Alert = Alert(title: string, message: string)

  /** JavaScript truthiness of an optional string. */
  predicate Present(s: Option<string>)
  {
    s.Some? && s.value != ""
  }

  /** `x || ""`. */
  function OrEmpty(s: Option<string>): string
  {
    if s.Some? then s.value else ""
  }

  /** The greeting name: the trimmed `"nombre apellidos"`, or `Usuario` when that is empty. */
  function DisplayName(t: TrabajadorJson): (r: string)
    ensures r != [] && !IsSpace(r[0]) && !IsSpace(r[|r| - 1])
    ensures AllSpaces(OrEmpty(t.nombre) + " " + OrEmpty(t.apellidos)) ==> r == "Usuario"
    ensures !AllSpaces(OrEmpty(t.nombre) + " " + OrEmpty(t.apellidos)) ==>
      r == Trim(OrEmpty(t.nombre) + " " + OrEmpty(t.apellidos))
    ensures !AllSpaces(OrEmpty(t.nombre) + " " + OrEmpty(t.apellidos)) ==>
      exists i :: TrimmedAt(OrEmpty(t.nombre) + " " + OrEmpty(t.apellidos), r, i)
  {
    var full := Trim(OrEmpty(t.nombre) + " " + OrEmpty(t.apellidos));
    if full == "" then "Usuario" else full
  }

  /** The shift line: `"entrada - salida"` when both hours are present, else empty. */
  function ShiftText(turno: Option<TurnoJson>): (r: string)
    ensures r == "" <==> !(turno.Some? && Present(turno.value.horaEntrada) && Present(turno.value.horaSalida))
    ensures r != "" ==> r == turno.value.horaEntrada.value + " - " + turno.value.horaSalida.value
  {
    if turno.Some? && Present(turno.value.horaEntrada) && Present(turno.value.horaSalida) then
      turno.value.horaEntrada.value + " - " + turno.value.horaSalida.value
    else ""
  }

  /** The screen's component state other than the timer handle. */
  datatype View = View(
    timeSeconds: nat,
    tieneEntradaActiva: bool,
    nombre: string,
    empresa: string,
    turnoTexto: string)

  /** The setters `fetchEstado` calls on a successful reply. */
  function ApplyEstado(v: View, b: EstadoBody): (w: View)
    ensures w.tieneEntradaActiva == b.tieneEntradaActiva
    ensures w.timeSeconds == if b.segundosRestantes.Some? then b.segundosRestantes.value else 0
    ensures b.trabajador.None? ==> w.nombre == v.nombre
    ensures b.empresa.None? ==> w.empresa == v.empresa
    ensures b.empresa.Some? && !Present(b.empresa.value) ==> w.empresa == "TU EMPRESA"
    ensures b.empresa.Some? && Present(b.empresa.value) ==> w.empresa == b.empresa.value.value
    ensures b.trabajador.Some? ==> w.nombre == DisplayName(b.trabajador.value)
    ensures w.turnoTexto == ShiftText(b.turno)
  {
    View(
      if b.segundosRestantes.Some? then b.segundosRestantes.value else 0,
      b.tieneEntradaActiva,
      if b.trabajador.Some? then DisplayName(b.trabajador.value) else v.nombre,
      if b.empresa.Some? then (if Present(b.empresa.value) then b.empresa.value.value else "TU EMPRESA") else v.empresa,
      ShiftText(b.turno))
  }

  /** The action whose button is enabled is one the server accepts, when the screen's flag matches the server's. */
  lemma EnabledButtonAccepted(today: seq<Marks.Mark>)
    ensures !Marks.EntradaActiva(today) ==> Marks.Refusal(today, Marks.Entrada).None?
    ensures Marks.EntradaActiva(today) ==> Marks.Refusal(today, Marks.Salida).None?
  {
    Marks.EntradaRefusedIffActive(today);
    Marks.SalidaAcceptance(today);
  }

  class MarcasScreen {
    var timeSeconds: nat
    var tieneEntradaActiva: bool
    var nombre: string
    var empresa: string
    var turnoTexto: string
    /** `intervalRef.current`: the last handle stored; clearing a timer does not reset it. */
    var intervalRef: Option<nat>
    /** The timers the runtime is currently running for this screen. */
    var live: set<nat>
    /** The handle the runtime gives the next `setInterval`. */
    var nextHandle: nat

    function ViewState(): View
      reads this
    {
      View(timeSeconds, tieneEntradaActiva, nombre, empresa, turnoTexto)
    }

    /** Every running timer is the one `intervalRef` holds, and handles are never reused. */
    ghost predicate HandlesOk()
      reads this
    {
      && (intervalRef.None? ==> live == {})
      && (intervalRef.Some? ==> (live == {} || live == {intervalRef.value}) && intervalRef.value < nextHandle)
    }

    /** At most one timer runs, and one runs exactly while an entry is open and time remains. */
    ghost predicate Valid()
      reads this
      ensures Valid() ==> |live| <= 1
      ensures Valid() && timeSeconds == 0 ==> live == {}
    {
      && HandlesOk()
      && (live != {} <==> tieneEntradaActiva && timeSeconds > 0)
    }

    /** The state after the first render: the `useState` initial values and no timer. */
    constructor ()
      ensures Valid()
      ensures ViewState() == View(0, false, "Usuario", "TU EMPRESA", "")
      ensures live == {} && intervalRef == None
    {
      timeSeconds := 0;
      tieneEntradaActiva := false;
      nombre := "Usuario";
      empresa := "TU EMPRESA";
      turnoTexto := "";
      intervalRef := None;
      live := {};
      nextHandle := 1;
    }

    /** `clearInterval(intervalRef.current)` when a handle is stored. */
    method ClearCurrent()
      requires HandlesOk()
      modifies this`live
      ensures HandlesOk() && live == {}
    {
      if intervalRef.Some? {
        live := live - {intervalRef.value};
      }
    }

    /**
     * One run of the countdown effect (after the previous run's cleanup): clear the stored
     * timer, then start a new one only when an entry is open and time remains.
     */
    method RunCountdownEffect()
      requires HandlesOk()
      modifies this`live, this`intervalRef, this`nextHandle
      ensures Valid()
      ensures live == if tieneEntradaActiva && timeSeconds > 0 then {old(nextHandle)} else {}
      ensures !(tieneEntradaActiva && timeSeconds > 0) ==> intervalRef == old(intervalRef) && nextHandle == old(nextHandle)
    {
      ClearCurrent();
      if tieneEntradaActiva && timeSeconds > 0 {
        intervalRef := Some(nextHandle);
        live := {nextHandle};
        nextHandle := nextHandle + 1;
      }
    }

    /**
     * One firing of the running timer: the updater takes one second off (to 0 at most, clearing
     * the timer when it gets there), and the changed value re-runs the effect.
     */
    method Tick()
      requires Valid() && live != {}
      modifies this`timeSeconds, this`live, this`intervalRef, this`nextHandle
      ensures Valid()
      ensures timeSeconds == old(timeSeconds) - 1
      ensures timeSeconds == NextTick(old(timeSeconds))
      ensures timeSeconds == 0 ==> live == {}
      ensures timeSeconds > 0 ==> |live| == 1 && live != old(live)
    {
      var prev := timeSeconds;
      if prev <= 1 {
        ClearCurrent();
        timeSeconds := 0;
      } else {
        timeSeconds := prev - 1;
      }
      RunCountdownEffect();
    }

    /**
     * `fetchEstado`: without a token, when the call throws, or on a non-ok reply nothing
     * changes; otherwise the setters apply the reply, and the effect re-runs when the active
     * flag or the seconds changed.
     */
    method FetchEstado(hasToken: bool, reply: Reply<EstadoBody>)
      requires Valid()
      modifies this
      ensures Valid()
      ensures ViewState() ==
        if hasToken && reply.Answer? && reply.ok then ApplyEstado(old(ViewState()), reply.body) else old(ViewState())
      ensures !(hasToken && reply.Answer? && reply.ok) ==> live == old(live) && intervalRef == old(intervalRef)
    {
      if !hasToken || reply.Thrown? || !reply.ok {
        return;
      }
      SetView(ApplyEstado(ViewState(), reply.body));
    }

    /** The setters of one successful refresh, then the effect re-run when its dependencies changed. */
    method SetView(v: View)
      requires Valid()
      modifies this
      ensures Valid() && ViewState() == v
    {
      var changed := v.tieneEntradaActiva != tieneEntradaActiva || v.timeSeconds != timeSeconds;
      timeSeconds, tieneEntradaActiva, nombre, empresa, turnoTexto :=
        v.timeSeconds, v.tieneEntradaActiva, v.nombre, v.empresa, v.turnoTexto;
      if changed {
        RunCountdownEffect();
      }
    }

    /**
     * `marcar(tipo)`: without a token, when the POST throws, or on a non-ok reply it only
     * alerts; on an ok reply it refreshes the state from `estado` and confirms the mark.
     */
    method Marcar(tipo: string, hasToken: bool, post: Reply<MarkBody>, estado: Reply<EstadoBody>) returns (alert: Alert)
      requires Valid()
      modifies this
      ensures Valid()
      ensures !hasToken ==> alert == Alert("Atención", "No hay token, vuelve a iniciar sesión.")
      ensures hasToken && post.Thrown? ==> alert == Alert("Error", "No se pudo registrar la marca.")
      ensures hasToken && post.Answer? && !post.ok ==>
        alert == Alert("Atención", if Present(post.body.detail) then post.body.detail.value else "Error al registrar marca")
      ensures hasToken && post.Answer? && post.ok ==> alert == Alert("OK", "Marca de " + tipo + " registrada")
      ensures !(hasToken && post.Answer? && post.ok) ==>
        ViewState() == old(ViewState()) && live == old(live) && intervalRef == old(intervalRef)
      ensures hasToken && post.Answer? && post.ok ==>
        ViewState() == if estado.Answer? && estado.ok then ApplyEstado(old(ViewState()), estado.body) else old(ViewState())
    {
      if !hasToken {
        return Alert("Atención", "No hay token, vuelve a iniciar sesión.");
      }
      if post.Thrown? {
        return Alert("Error", "No se pudo registrar la marca.");
      }
      if !post.ok {
        var message := if Present(post.body.detail) then post.body.detail.value else "Error al registrar marca";
        return Alert("Atención", message);
      }
      FetchEstado(true, estado);
      alert := Alert("OK", "Marca de " + tipo + " registrada");
    }

    /** The ENTRADA button is disabled while an entry is open, the SALIDA button while none is. */
    function DisabledButtons(): (d: (bool, bool))
      reads this
      ensures d.0 <==> tieneEntradaActiva
      ensures d.0 != d.1
    {
      (tieneEntradaActiva, !tieneEntradaActiva)
    }

    /** Leaving the screen: both effects' cleanups clear the stored timer. */
    method Unmount()
      requires HandlesOk()
      modifies this`live
      ensures live == {}
    {
      ClearCurrent();
    }
  }
}
