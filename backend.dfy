/**
 * The backend views that read or change stored state: the attendance status (GET) and the
 * mark (POST) of `AsistenciasView`, the approval of vacation and leave requests, and the
 * audit entries written when a user is created or updated. The database tables these views
 * touch are the fields of one `Backend` object; query results are sequences and maps.
 */
module Backend {
  import opened Common
  import opened Entities
  import opened Access
  import opened Marks

  /** `estado` of a vacation or leave request. */
  datatype Estado = Pendiente | Aceptado | Rechazado

  /** A vacation (`Vacaciones`) or leave (`Licencia`) request as the approval views see it. */
  datatype Solicitud = Solicitud(
    trabajadorEmpresa: Option<int>,
    motivo: Option<string>,
    estado: Estado,
    resueltoPor: Option<int>,
    resueltoEn: Option<int>)

  /** A row of `AuditoriaCambio`, as `log_auditoria` writes it. */
  datatype AuditEntry = AuditEntry(
    usuario: int,
    empresa: Value,
    accion: string,
    modelo: string,
    registro: int,
    motivo: Option<string>)

  /** The answer of `AsistenciasView.get` (the display fields of worker, shift and company left aside). */
  datatype StatusReply = StatusReply(
    tieneEntradaActiva: bool,
    segundosRestantes: nat,
    horaFinJornada: Option<nat>,
    trabajadorId: int)

  /** The answer of an approval view. */
  datatype Resolution = Resolution(detail: string, estado: Estado, resueltoPor: string, resueltoEn: int)

  /** What `serializer.save()` of the user update hands back. */
  datatype UpdateResult = UpdateResult(empresasIds: seq<Value>, motivo: Option<string>)

  const ErrPermisoDenegado := ApiError(403, "Permiso denegado")
  const ErrEmpresaNoAutorizada := ApiError(403, "Empresa no autorizada")
  const ErrAccionInvalida := ApiError(400, "Accion invalida")
  const ErrAccesoDenegado := ApiError(403, "Acceso denegado")
  const ErrUsuarioNoEncontrado := ApiError(404, "Usuario no encontrado")
  /** A serializer's field errors; their text is not modelled. */
  const ErrDatosInvalidos := ApiError(400, "")

  function Lookup(table: map<int, Solicitud>, pk: int): Option<Solicitud>
  {
    if pk in table then Some(table[pk]) else None
  }

  /**
   * The guards of both approval views, in the order they run: the caller's role (403),
   * the request's existence (404), the caller's access to the worker's company (403), the
   * action (400). When all pass, the new state: `aceptado` for `aceptar`, else `rechazado`.
   */
  function ResolveGuard(actor: User, rec: Option<Solicitud>, accion: Value, notFound: string): (r: Result<Estado>)
    ensures actor.rol !in RolesRrhh ==> r == Err(ErrPermisoDenegado)
    ensures actor.rol in RolesRrhh && rec.None? ==> r == Err(ApiError(404, notFound))
    ensures actor.rol in RolesRrhh && rec.Some? && !HasCompanyAccess(actor, rec.value.trabajadorEmpresa, RolesRrhh) ==>
      r == Err(ErrEmpresaNoAutorizada)
    ensures r.Ok? <==>
      && actor.rol in RolesRrhh
      && rec.Some?
      && HasCompanyAccess(actor, rec.value.trabajadorEmpresa, RolesRrhh)
      && (accion == Str("aceptar") || accion == Str("rechazar"))
    ensures (&& actor.rol in RolesRrhh && rec.Some? && HasCompanyAccess(actor, rec.value.trabajadorEmpresa, RolesRrhh)
             && accion != Str("aceptar") && accion != Str("rechazar")) ==> r == Err(ErrAccionInvalida)
    ensures r.Ok? ==> r.value != Pendiente && (r.value == Aceptado <==> accion == Str("aceptar"))
  {
    if actor.rol !in RolesRrhh then Err(ErrPermisoDenegado)
    else if rec.None? then Err(ApiError(404, notFound))
    else if !HasCompanyAccess(actor, rec.value.trabajadorEmpresa, RolesRrhh) then Err(ErrEmpresaNoAutorizada)
    else if accion != Str("aceptar") && accion != Str("rechazar") then Err(ErrAccionInvalida)
    else Ok(if accion == Str("aceptar") then Aceptado else Rechazado)
  }

  /** The request's current state plays no part in the decision: a resolved request can be resolved again. */
  lemma ResolveIgnoresCurrentState(actor: User, rec: Solicitud, e: Estado, accion: Value, notFound: string)
    ensures ResolveGuard(actor, Some(rec), accion, notFound) == ResolveGuard(actor, Some(rec.(estado := e)), accion, notFound)
  {
  }

  /** The resolver's name in the answer: the worker's names, or the e-mail of a user without a worker file. */
  function ResolverName(actor: User): (r: string)
    ensures actor.trabajador.None? ==> r == actor.email
    ensures actor.trabajador.Some? ==>
      var w := actor.trabajador.value;
      && |r| == |w.nombres| + 1 + |w.apellidos|
      && r[..|w.nombres|] == w.nombres && r[|w.nombres|] == ' ' && r[|w.nombres| + 1..] == w.apellidos
  {
    if actor.trabajador.Some? then actor.trabajador.value.nombres + " " + actor.trabajador.value.apellidos
    else actor.email
  }

  /** `empresas_ids or [None]`: the companies one user update is audited under. */
  function AuditTargets(ids: seq<Value>): (targets: seq<Value>)
    ensures |targets| >= 1
  {
    if ids == [] then [Null] else ids
  }

  /** The audit entries of one user update, one per target company, in order. */
  function UpdateEntries(actorId: int, pk: int, ids: seq<Value>, motivo: Option<string>): (es: seq<AuditEntry>)
    ensures |es| == if ids == [] then 1 else |ids|
    ensures forall i :: 0 <= i < |es| ==>
      es[i].usuario == actorId && es[i].accion == "actualizar_usuario" && es[i].modelo == "Usuario"
      && es[i].registro == pk && es[i].motivo == motivo
    ensures ids == [] ==> es[0].empresa == Null
    ensures forall i :: 0 <= i < |ids| ==> es[i].empresa == ids[i]
  {
    var targets := AuditTargets(ids);
    seq(|targets|, i requires 0 <= i < |targets| =>
      AuditEntry(actorId, targets[i], "actualizar_usuario", "Usuario", pk, motivo))
  }

  /**
   * `primera_empresa` of user creation: the first of `empresas_ids` when that list is
   * non-empty, otherwise `empresa_id` when it is truthy, otherwise nothing.
   */
  function FirstCompany(ids: seq<Value>, empresaId: Value): (first: Value)
    ensures ids != [] ==> first == ids[0]
    ensures ids == [] ==> (first.Truthy() <==> empresaId.Truthy())
    ensures ids == [] && first.Truthy() ==> first == empresaId
  {
    if ids != [] then ids[0]
    else if empresaId.Truthy() then empresaId
    else Null
  }

  class Backend {
    /** The `Marcas` table. */
    var marks: seq<Mark>
    /** The `Vacaciones` table, by id. */
    var vacaciones: map<int, Solicitud>
    /** The `Licencia` table, by id. */
    var licencias: map<int, Solicitud>
    /** The ids of the `Usuario` table. */
    var usuarios: set<int>
    /** The `AuditoriaCambio` table, in insertion order. */
    var audit: seq<AuditEntry>

    constructor (marks0: seq<Mark>, vacaciones0: map<int, Solicitud>, licencias0: map<int, Solicitud>,
                 usuarios0: set<int>, audit0: seq<AuditEntry>)
      ensures marks == marks0 && vacaciones == vacaciones0 && licencias == licencias0
      ensures usuarios == usuarios0 && audit == audit0
    {
      marks := marks0;
      vacaciones := vacaciones0;
      licencias := licencias0;
      usuarios := usuarios0;
      audit := audit0;
    }

    /**
     * `AsistenciasView.get` for the day `[dayStart, dayEnd]` at instant `now`: whether an entry
     * is open, and the seconds left until the shift ends today (0 without a shift or an open entry).
     */
    function Estado(user: User, dayStart: int, dayEnd: int, now: int): (r: Result<StatusReply>)
      reads this
      ensures r.Err? <==> user.trabajador.None?
      ensures r.Err? ==> r.error == ErrSinTrabajador
      ensures r.Ok? ==>
        var w := user.trabajador.value;
        && r.value.trabajadorId == w.id
        && r.value.tieneEntradaActiva == EntradaActiva(MarksToday(marks, w.id, dayStart, dayEnd))
        && (r.value.horaFinJornada.Some? <==> w.turno.Some?)
        && (!r.value.tieneEntradaActiva || w.turno.None? ==> r.value.segundosRestantes == 0)
        && r.value.horaFinJornada == (if w.turno.Some? then Some(w.turno.value.horaSalida) else None)
        && r.value.segundosRestantes == SegundosRestantes(r.value.horaFinJornada, r.value.tieneEntradaActiva, dayStart, now)
    {
      if user.trabajador.None? then Err(ErrSinTrabajador)
      else
        var w := user.trabajador.value;
        var activa := EntradaActiva(MarksToday(marks, w.id, dayStart, dayEnd));
        var salida := if w.turno.Some? then Some(w.turno.value.horaSalida) else None;
        Ok(StatusReply(activa, SegundosRestantes(salida, activa, dayStart, now), salida, w.id))
    }

    /**
     * `AsistenciasView.post`: checks the worker file, then `tipo_marca`, then the rule for that
     * kind against today's marks; on success records one mark at `now` and nothing else.
     */
    method Marcar(user: User, tipo: Value, dayStart: int, dayEnd: int, now: int) returns (r: Result<Mark>)
      modifies this`marks
      ensures user.trabajador.None? ==> r == Err(ErrSinTrabajador)
      ensures user.trabajador.Some? && ParseTipo(tipo).None? ==> r == Err(ErrTipoInvalido)
      ensures user.trabajador.Some? && ParseTipo(tipo).Some? ==>
        var w := user.trabajador.value;
        var refusal := Refusal(MarksToday(old(marks), w.id, dayStart, dayEnd), ParseTipo(tipo).value);
        && (refusal.Some? ==> r == Err(refusal.value))
        && (refusal.None? ==> r == Ok(Mark(w.id, ParseTipo(tipo).value, now)))
      ensures r.Ok? ==> marks == old(marks) + [r.value]
      ensures r.Err? ==> marks == old(marks)
    {
      if user.trabajador.None? {
        return Err(ErrSinTrabajador);
      }
      var w := user.trabajador.value;
      var kind := ParseTipo(tipo);
      if kind.None? {
        return Err(ErrTipoInvalido);
      }
      var today := MarksToday(marks, w.id, dayStart, dayEnd);
      var refusal := Refusal(today, kind.value);
      if refusal.Some? {
        return Err(refusal.value);
      }
      var m := Mark(w.id, kind.value, now);
      marks := marks + [m];
      r := Ok(m);
    }

    /** `AprobacionVacacionesView.post`: resolve vacation request `pk` with `accion` at instant `now`. */
    method ResolverVacaciones(actor: User, pk: int, accion: Value, now: int) returns (r: Result<Resolution>)
      modifies this`vacaciones, this`audit
      ensures var g := ResolveGuard(actor, Lookup(old(vacaciones), pk), accion, "Solicitud no encontrada");
        && (r.Ok? <==> g.Ok?)
        && (r.Err? ==> g.Err? && r.error == g.error && vacaciones == old(vacaciones) && audit == old(audit))
        && (r.Ok? ==>
              var rec := old(vacaciones)[pk];
              && accion.Str?
              && vacaciones == old(vacaciones)[pk := rec.(estado := g.value, resueltoPor := Some(actor.id), resueltoEn := Some(now))]
              && audit == old(audit) + [AuditEntry(actor.id, FromOption(rec.trabajadorEmpresa), accion.s + "_vacaciones", "Vacaciones", pk, None)]
              && r.value == Resolution("Vacaciones " + accion.s + " correctamente", g.value, ResolverName(actor), now))
    {
      var g := ResolveGuard(actor, Lookup(vacaciones, pk), accion, "Solicitud no encontrada");
      if g.Err? {
        return Err(g.error);
      }
      var rec := vacaciones[pk];
      vacaciones := vacaciones[pk := rec.(estado := g.value, resueltoPor := Some(actor.id), resueltoEn := Some(now))];
      audit := audit + [AuditEntry(actor.id, FromOption(rec.trabajadorEmpresa), accion.s + "_vacaciones", "Vacaciones", pk, None)];
      r := Ok(Resolution("Vacaciones " + accion.s + " correctamente", g.value, ResolverName(actor), now));
    }

    /** `AprobacionLicenciaView.post`: resolve leave request `pk`; the audit entry carries the request's reason. */
    method ResolverLicencia(actor: User, pk: int, accion: Value, now: int) returns (r: Result<Resolution>)
      modifies this`licencias, this`audit
      ensures var g := ResolveGuard(actor, Lookup(old(licencias), pk), accion, "Licencia no encontrada");
        && (r.Ok? <==> g.Ok?)
        && (r.Err? ==> g.Err? && r.error == g.error && licencias == old(licencias) && audit == old(audit))
        && (r.Ok? ==>
              var rec := old(licencias)[pk];
              && accion.Str?
              && licencias == old(licencias)[pk := rec.(estado := g.value, resueltoPor := Some(actor.id), resueltoEn := Some(now))]
              && audit == old(audit) + [AuditEntry(actor.id, FromOption(rec.trabajadorEmpresa), accion.s + "_licencia", "Licencia", pk, rec.motivo)]
              && r.value == Resolution("Licencia " + accion.s + " correctamente.", g.value, ResolverName(actor), now))
    {
      var g := ResolveGuard(actor, Lookup(licencias, pk), accion, "Licencia no encontrada");
      if g.Err? {
        return Err(g.error);
      }
      var rec := licencias[pk];
      licencias := licencias[pk := rec.(estado := g.value, resueltoPor := Some(actor.id), resueltoEn := Some(now))];
      audit := audit + [AuditEntry(actor.id, FromOption(rec.trabajadorEmpresa), accion.s + "_licencia", "Licencia", pk, rec.motivo)];
      r := Ok(Resolution("Licencia " + accion.s + " correctamente.", g.value, ResolverName(actor), now));
    }

    /**
     * `CrearUsuarioView.post`. `created` is the new user's id when the serializer accepted the
     * data (`None` when it refused it). One audit entry is written, under the first company,
     * only when there is a truthy first company.
     */
    method CrearUsuario(actor: User, created: Option<int>, empresasIds: seq<Value>, empresaId: Value) returns (r: Result<int>)
      modifies this`usuarios, this`audit
      ensures actor.rol != AdminRrhh ==> r == Err(ErrAccesoDenegado)
      ensures actor.rol == AdminRrhh && created.None? ==> r == Err(ErrDatosInvalidos)
      ensures r.Ok? <==> actor.rol == AdminRrhh && created.Some?
      ensures r.Err? ==> usuarios == old(usuarios) && audit == old(audit)
      ensures r.Ok? ==>
        var first := FirstCompany(empresasIds, empresaId);
        && r.value == created.value
        && usuarios == old(usuarios) + {created.value}
        && audit == old(audit) + (if first.Truthy() then [AuditEntry(actor.id, first, "crear_usuario", "Usuario", created.value, None)] else [])
    {
      if actor.rol != AdminRrhh {
        return Err(ErrAccesoDenegado);
      }
      if created.None? {
        return Err(ErrDatosInvalidos);
      }
      usuarios := usuarios + {created.value};
      var first := FirstCompany(empresasIds, empresaId);
      if first.Truthy() {
        audit := audit + [AuditEntry(actor.id, first, "crear_usuario", "Usuario", created.value, None)];
      }
      r := Ok(created.value);
    }

    /**
     * `ActualizarUsuarioView._update`. `saved` is what the serializer saved (`None` when it
     * refused the data). One audit entry is written per company id, or one with no company.
     */
    method ActualizarUsuario(actor: User, pk: int, saved: Option<UpdateResult>) returns (r: Result<int>)
      modifies this`audit
      ensures actor.rol != AdminRrhh ==> r == Err(ErrAccesoDenegado)
      ensures actor.rol == AdminRrhh && pk !in usuarios ==> r == Err(ErrUsuarioNoEncontrado)
      ensures actor.rol == AdminRrhh && pk in usuarios && saved.None? ==> r == Err(ErrDatosInvalidos)
      ensures r.Ok? <==> actor.rol == AdminRrhh && pk in usuarios && saved.Some?
      ensures r.Err? ==> audit == old(audit)
      ensures r.Ok? ==> r.value == pk && audit == old(audit) + UpdateEntries(actor.id, pk, saved.value.empresasIds, saved.value.motivo)
    {
      if actor.rol != AdminRrhh {
        return Err(ErrAccesoDenegado);
      }
      if pk !in usuarios {
        return Err(ErrUsuarioNoEncontrado);
      }
      if saved.None? {
        return Err(ErrDatosInvalidos);
      }
      var targets := AuditTargets(saved.value.empresasIds);
      ghost var entries := UpdateEntries(actor.id, pk, saved.value.empresasIds, saved.value.motivo);
      var i := 0;
      while i < |targets|
        invariant 0 <= i <= |targets| == |entries|
        invariant audit == old(audit) + entries[..i]
      {
        audit := audit + [AuditEntry(actor.id, targets[i], "actualizar_usuario", "Usuario", pk, saved.value.motivo)];
        assert entries[..i + 1] == entries[..i] + [entries[i]];
        i := i + 1;
      }
      assert entries[..i] == entries;
      r := Ok(pk);
    }
  }
}
