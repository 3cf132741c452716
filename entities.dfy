/**
 * The records of the attendance backend that the modelled views read:
 * users, the worker file a user may be linked to, and the shift of a worker.
 * Times of day and instants are integers in microseconds.
 */
module Entities {
  import opened Common

  /** `Usuario.rol`, one of the four choices of the user model. */
  datatype Role = Trabajador | AsistenteRrhh | AdminRrhh | Fiscalizador

  /** `ROLES_RRHH`: the roles that may resolve leave and vacation requests. */
  const RolesRrhh: set<Role> := {AdminRrhh, AsistenteRrhh}

  /** `ROLES_CON_EMPRESAS`: the roles whose companies come from company links. */
  const RolesConEmpresas: set<Role> := {AdminRrhh, AsistenteRrhh, Fiscalizador}

  /** `Turno`: a named shift, with its start and end as times of day. */
  datatype Turno = Turno(nombre: string, horaEntrada: nat, horaSalida: nat)

  /** `Trabajador`: the worker file; its company and its shift are optional. */
  datatype Worker = Worker(
    id: int,
    empresa: Option<int>,
    nombres: string,
    apellidos: string,
    turno: Option<Turno>)
  {
    /** `trabajador.empresa_id` is set and truthy (a Python `0` counts as absent). */
    predicate HasCompany()
    {
      empresa.Some? && empresa.value != 0
    }
  }

  /** A row of the user/company link table: the company and the role held there. */
  datatype Link = Link(empresa: int, rol: Role)

  /** `Usuario`, with its optional worker file and its company links. */
  datatype User = User(
    id: int,
    email: string,
    rol: Role,
    trabajador: Option<Worker>,
    links: seq<Link>)
}
