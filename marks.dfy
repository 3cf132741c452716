/**
 * The clock-in / clock-out rules of `AsistenciasView`: which of a worker's marks belong
 * to today, whether an entry is open, how many seconds of the shift remain, and when a new
 * `entrada` or `salida` is refused. Instants are integers in microseconds.
 */
module Marks {
  import opened Common

  /** `Marcas.tipo_marca`. */
  datatype MarkType = Entrada | Salida

  /** A row of the `Marcas` table. */
  datatype Mark = Mark(trabajador: int, tipo: MarkType, timestamp: int)

  const MicrosPerSecond: int := 1000000

  /** The worker's marks whose instant lies in `[dayStart, dayEnd]` (`timestamp__range`), in log order. */
  function MarksToday(log: seq<Mark>, trabajador: int, dayStart: int, dayEnd: int): (today: seq<Mark>)
    ensures |today| <= |log|
    ensures forall m :: m in today <==> m in log && m.trabajador == trabajador && dayStart <= m.timestamp <= dayEnd
    decreases |log|
  {
    if log == [] then []
    else
      var rest := MarksToday(log[..|log| - 1], trabajador, dayStart, dayEnd);
      var m := log[|log| - 1];
      assert forall x :: x in log <==> x in log[..|log| - 1] || x == m;
      if m.trabajador == trabajador && dayStart <= m.timestamp <= dayEnd then rest + [m] else rest
  }

  /** Appending a mark extends today's marks by that mark exactly when it is the worker's and lies in today. */
  lemma MarksTodayAppend(log: seq<Mark>, m: Mark, trabajador: int, dayStart: int, dayEnd: int)
    ensures MarksToday(log + [m], trabajador, dayStart, dayEnd) ==
      MarksToday(log, trabajador, dayStart, dayEnd)
      + (if m.trabajador == trabajador && dayStart <= m.timestamp <= dayEnd then [m] else [])
  {
    assert (log + [m])[..|log|] == log;
  }

  /**
   * The instant of the last mark of kind `k`: what `.last()` yields on the marks of that kind
   * ordered by timestamp, that is, the greatest instant among them; `None` when there is none.
   */
  function LastTimestamp(ms: seq<Mark>, k: MarkType): (r: Option<int>)
    ensures r.None? <==> forall m :: m in ms ==> m.tipo != k
    ensures r.Some? ==> exists m :: m in ms && m.tipo == k && m.timestamp == r.value
    ensures r.Some? ==> forall m :: m in ms && m.tipo == k ==> m.timestamp <= r.value
    decreases |ms|
  {
    if ms == [] then None
    else
      var rest := LastTimestamp(ms[..|ms| - 1], k);
      var m := ms[|ms| - 1];
      assert forall x :: x in ms <==> x in ms[..|ms| - 1] || x == m;
      if m.tipo != k then rest
      else if rest.Some? && rest.value > m.timestamp then rest
      else Some(m.timestamp)
  }

  /** An open entry is an `entrada` strictly later than every `salida` of the day. */
  predicate EntryAfterAllExits(today: seq<Mark>, e: Mark)
  {
    e in today && e.tipo == Entrada && forall x :: x in today && x.tipo == Salida ==> x.timestamp < e.timestamp
  }

  /** The last `entrada` is later than the last `salida` (or there is none) exactly when some entry comes after every exit. */
  lemma LastEntryAfterLastExitIff(today: seq<Mark>)
    ensures (var e, s := LastTimestamp(today, Entrada), LastTimestamp(today, Salida);
             e.Some? && (s.None? || e.value > s.value)) <==> exists e :: EntryAfterAllExits(today, e)
  {
    var e := LastTimestamp(today, Entrada);
    var s := LastTimestamp(today, Salida);
    if e.Some? && (s.None? || e.value > s.value) {
      var m :| m in today && m.tipo == Entrada && m.timestamp == e.value;
      assert EntryAfterAllExits(today, m);
    }
    if exists x :: EntryAfterAllExits(today, x) {
      var x :| EntryAfterAllExits(today, x);
      assert e.Some? && x.timestamp <= e.value;
    }
  }

  /**
   * `entrada_activa` of `AsistenciasView.get`: today has an `entrada`, and either no `salida`
   * or the last `entrada` is strictly later than the last `salida`. Read without "last":
   * some entry of the day comes after every exit of the day.
   */
  predicate EntradaActiva(today: seq<Mark>): (b: bool)
    ensures b <==> exists e :: EntryAfterAllExits(today, e)
  {
    LastEntryAfterLastExitIff(today);
    var e := LastTimestamp(today, Entrada);
    var s := LastTimestamp(today, Salida);
    e.Some? && (s.None? || e.value > s.value)
  }

  /**
   * The clamp of `segundos_restantes`: with a shift and an open entry, the whole seconds from
   * `now` to the shift's end today (`max(int(diff.total_seconds()), 0)`); otherwise 0.
   */
  function SegundosRestantes(turnoSalida: Option<nat>, activa: bool, dayStart: int, now: int): (r: nat)
    ensures turnoSalida.None? || !activa ==> r == 0
    ensures turnoSalida.Some? && activa ==>
      var diff := dayStart + turnoSalida.value - now;
      && r * MicrosPerSecond <= (if diff > 0 then diff else 0)
      && (if diff > 0 then diff else 0) < (r + 1) * MicrosPerSecond
  {
    if turnoSalida.Some? && activa then
      var diff := dayStart + turnoSalida.value - now;
      if diff >= 0 then diff / MicrosPerSecond else 0
    else 0
  }

  /** `tipo_marca` of a POST: the two accepted strings, anything else is `None`. */
  function ParseTipo(v: Value): (k: Option<MarkType>)
    ensures k == Some(Entrada) <==> v == Str("entrada")
    ensures k == Some(Salida) <==> v == Str("salida")
  {
    if v == Str("entrada") then Some(Entrada)
    else if v == Str("salida") then Some(Salida)
    else None
  }

  const ErrSinTrabajador := ApiError(400, "El usuario no tiene un trabajador asociado.")
  const ErrTipoInvalido := ApiError(400, "tipo_marca debe ser 'entrada' o 'salida'.")
  const ErrEntradaActiva := ApiError(400, "Ya tienes una entrada activa hoy.")
  const ErrSinEntrada := ApiError(400, "No tienes una entrada registrada hoy.")
  const ErrSalidaPosterior := ApiError(400, "Ya tienes una salida registrada despues de la ultima entrada.")

  /** The guard of a POST `entrada`, written as the view writes it: refused while an entry is open. */
  function EntradaRefusal(today: seq<Mark>): (err: Option<ApiError>)
    ensures err.Some? ==> err == Some(ErrEntradaActiva)
    ensures err.Some? <==> exists e :: EntryAfterAllExits(today, e)
  {
    LastEntryAfterLastExitIff(today);
    var e := LastTimestamp(today, Entrada);
    var s := LastTimestamp(today, Salida);
    if e.Some? && (s.None? || e.value > s.value) then Some(ErrEntradaActiva) else None
  }

  /**
   * The guard of a POST `salida`: refused when today has no `entrada`, or when the last
   * `salida` is strictly later than the last `entrada`.
   */
  function SalidaRefusal(today: seq<Mark>): (err: Option<ApiError>)
    ensures err == Some(ErrSinEntrada) <==> forall m :: m in today ==> m.tipo != Entrada
    ensures err.Some? <==>
      || (forall m :: m in today ==> m.tipo != Entrada)
      || (exists x :: x in today && x.tipo == Salida && forall y :: y in today && y.tipo == Entrada ==> y.timestamp < x.timestamp)
    ensures err.Some? && err != Some(ErrSinEntrada) ==> err == Some(ErrSalidaPosterior)
  {
    var e := LastTimestamp(today, Entrada);
    var s := LastTimestamp(today, Salida);
    if e.None? then Some(ErrSinEntrada)
    else if s.Some? && s.value > e.value then
      var x :| x in today && x.tipo == Salida && x.timestamp == s.value;
      assert forall y :: y in today && y.tipo == Entrada ==> y.timestamp < x.timestamp;
      Some(ErrSalidaPosterior)
    else
      var y :| y in today && y.tipo == Entrada && y.timestamp == e.value;
      assert forall x :: x in today && x.tipo == Salida ==> !(y.timestamp < x.timestamp);
      None
  }

  /** Why a mark of kind `k` is refused against today's marks, if it is. */
  function Refusal(today: seq<Mark>, k: MarkType): Option<ApiError>
  {
    match k
    case Entrada => EntradaRefusal(today)
    case Salida => SalidaRefusal(today)
  }

  /** The POST refuses an `entrada` exactly when the GET reports an open entry. */
  lemma EntradaRefusedIffActive(today: seq<Mark>)
    ensures Refusal(today, Entrada).Some? <==> EntradaActiva(today)
    ensures Refusal(today, Entrada).Some? ==> Refusal(today, Entrada) == Some(ErrEntradaActiva)
  {
  }

  /**
   * A `salida` is accepted whenever an entry is open; when it is accepted without an open
   * entry, the last `entrada` and the last `salida` share the same instant (the one case where
   * the two guards disagree, since both compare with a strict `>`).
   */
  lemma SalidaAcceptance(today: seq<Mark>)
    ensures EntradaActiva(today) ==> Refusal(today, Salida).None?
    ensures Refusal(today, Salida).None? && !EntradaActiva(today) ==>
      LastTimestamp(today, Entrada).Some? && LastTimestamp(today, Salida) == LastTimestamp(today, Entrada)
  {
  }

  /** The last instant of a kind after appending one more mark. */
  lemma LastTimestampAppend(ms: seq<Mark>, m: Mark, k: MarkType)
    ensures LastTimestamp(ms + [m], k) ==
      if m.tipo != k then LastTimestamp(ms, k)
      else if LastTimestamp(ms, k).Some? && LastTimestamp(ms, k).value > m.timestamp then LastTimestamp(ms, k)
      else Some(m.timestamp)
  {
    assert (ms + [m])[..|ms|] == ms;
  }

  /**
   * Marks recorded at increasing instants: after an accepted `entrada` the day has an open
   * entry, and after an accepted `salida` it has none.
   */
  lemma {:induction false} AcceptedMarkSetsStatus(today: seq<Mark>, m: Mark)
    requires forall x :: x in today ==> x.timestamp < m.timestamp
    requires Refusal(today, m.tipo).None?
    ensures EntradaActiva(today + [m]) <==> m.tipo == Entrada
  {
    LastTimestampAppend(today, m, Entrada);
    LastTimestampAppend(today, m, Salida);
    var e := LastTimestamp(today, Entrada);
    if m.tipo == Salida {
      assert e.Some?;
      var x :| x in today && x.tipo == Entrada && x.timestamp == e.value;
    } else {
      var s := LastTimestamp(today, Salida);
      if s.Some? {
        var x :| x in today && x.tipo == Salida && x.timestamp == s.value;
      }
    }
  }

  /**
   * The same on the whole `Marcas` table: a mark accepted for worker `m.trabajador` at an
   * instant of today later than all of that worker's marks of today opens the day's entry
   * when it is an `entrada` and closes it when it is a `salida`.
   */
  lemma {:induction false} AcceptedMarkSetsStatusOfLog(log: seq<Mark>, m: Mark, dayStart: int, dayEnd: int)
    requires dayStart <= m.timestamp <= dayEnd
    requires forall x :: x in MarksToday(log, m.trabajador, dayStart, dayEnd) ==> x.timestamp < m.timestamp
    requires Refusal(MarksToday(log, m.trabajador, dayStart, dayEnd), m.tipo).None?
    ensures EntradaActiva(MarksToday(log + [m], m.trabajador, dayStart, dayEnd)) <==> m.tipo == Entrada
  {
    MarksTodayAppend(log, m, m.trabajador, dayStart, dayEnd);
    AcceptedMarkSetsStatus(MarksToday(log, m.trabajador, dayStart, dayEnd), m);
  }
}
