/**
 * Which companies a user may act on: `empresas_autorizadas_ids`, `empresa_permitida`
 * and the reusable permission `TieneAccesoEmpresaPermission` of the backend views.
 *
 * A role filter is a set of roles; the empty set means "no filter", as
 * `set(roles) if roles else None` makes an empty filter behave like `None`.
 */
module Access {
  import opened Common
  import opened Text
  import opened Entities

  /** The filter lets a role through: it is empty (no filter) or names the role. */
  predicate Admits(roles: set<Role>, r: Role)
  {
    roles == {} || r in roles
  }

  /** The company ids of the links whose role the filter admits, in link order. */
  function LinkedCompanies(links: seq<Link>, roles: set<Role>): (ids: seq<int>)
    ensures |ids| <= |links|
    ensures forall c :: c in ids <==> exists l :: l in links && l.empresa == c && Admits(roles, l.rol)
    decreases |links|
  {
    if links == [] then []
    else
      var rest := LinkedCompanies(links[1..], roles);
      assert forall l :: l in links[1..] ==> l in links;
      assert forall l :: l in links ==> l == links[0] || l in links[1..];
      if Admits(roles, links[0].rol) then [links[0].empresa] + rest else rest
  }

  /**
   * `empresas_autorizadas_ids(user, roles)`. A worker-role user with a worker file gets at most
   * the company of that file, and nothing when the filter leaves out the worker role. Any other
   * user gets the companies of the admitted links, with the company of the user's worker file
   * appended when it is set and not already among them.
   */
  function AuthorizedIds(u: User, roles: set<Role>): (ids: seq<int>)
    ensures u.rol == Trabajador && u.trabajador.Some? ==>
      && |ids| <= 1
      && (!Admits(roles, Trabajador) ==> ids == [])
      && (ids != [] ==> u.trabajador.value.HasCompany() && ids == [u.trabajador.value.empresa.value])
      && (Admits(roles, Trabajador) && u.trabajador.value.HasCompany() ==> ids != [])
    ensures !(u.rol == Trabajador && u.trabajador.Some?) ==>
      var linked := LinkedCompanies(u.links, roles);
      && |ids| == |linked| + (if u.trabajador.Some? && u.trabajador.value.HasCompany()
                                 && u.trabajador.value.empresa.value !in linked then 1 else 0)
      && ids[..|linked|] == linked
      && (forall c :: c in ids <==>
            c in linked || (u.trabajador.Some? && u.trabajador.value.HasCompany() && c == u.trabajador.value.empresa.value))
      && (u.trabajador.Some? && u.trabajador.value.HasCompany() ==>
            var own := u.trabajador.value.empresa.value;
            multiset(ids)[own] == if own in linked then multiset(linked)[own] else 1)
  {
    if u.rol == Trabajador && u.trabajador.Some? then
      var w := u.trabajador.value;
      if !Admits(roles, Trabajador) then []
      else if w.HasCompany() then [w.empresa.value] else []
    else
      var linked := LinkedCompanies(u.links, roles);
      if u.trabajador.Some? && u.trabajador.value.HasCompany() && u.trabajador.value.empresa.value !in linked then
        assert (linked + [u.trabajador.value.empresa.value])[..|linked|] == linked;
        linked + [u.trabajador.value.empresa.value]
      else linked
  }

  /**
   * The user may act on the company. `Usuario.tiene_acceso_empresa` is not part of this model;
   * it is taken to mean that the id is set and among `empresas_autorizadas_ids(user, roles)`.
   */
  predicate HasCompanyAccess(u: User, empresa: Option<int>, roles: set<Role>)
  {
    empresa.Some? && empresa.value in AuthorizedIds(u, roles)
  }

  /** `empresa_permitida`: never for a missing id; otherwise the user's access to that company. */
  function EmpresaPermitida(u: User, empresa: Option<int>, roles: set<Role>): (ok: bool)
    ensures empresa.None? ==> !ok
    ensures ok <==> empresa.Some? && empresa.value in AuthorizedIds(u, roles)
  {
    if empresa.None? then false else HasCompanyAccess(u, empresa, roles)
  }

  /** Python's `int(text)` on a decimal literal with an optional sign. */
  function ParseInt(s: string): (r: Option<int>)
    ensures r.Some? <==> (s != [] && AllDigits(s)) || (|s| >= 2 && (s[0] == '-' || s[0] == '+') && AllDigits(s[1..]))
    ensures r.Some? && s[0] == '-' ==> r.value + DigitsValue(s[1..]) == 0
    ensures r.Some? && s[0] == '+' ==> r.value == DigitsValue(s[1..])
    ensures r.Some? && s[0] != '-' && s[0] != '+' ==> r.value == DigitsValue(s)
  {
    if s != [] && (s[0] == '-' || s[0] == '+') then
      var digits := s[1..];
      if digits != [] && AllDigits(digits) then
        var magnitude: int := DigitsValue(digits);
        Some(if s[0] == '-' then -magnitude else magnitude)
      else None
    else if s != [] && AllDigits(s) then Some(DigitsValue(s))
    else None
  }

  /** `str(n)` for an integer. */
  function IntToString(n: int): (s: string)
    ensures s != []
    ensures s[0] == '-' <==> n < 0
    ensures AllDigits(if n < 0 then s[1..] else s) && (n < 0 ==> |s| >= 2)
  {
    if n < 0 then "-" + NatToString(-n) else NatToString(n)
  }

  /** `int(str(n)) == n`: every id the backend prints is read back as the same id. */
  lemma ParseIntOfIntToString(n: int)
    ensures ParseInt(IntToString(n)) == Some(n)
  {
    var s := IntToString(n);
    if n < 0 {
      var digits := NatToString(-n);
      assert s == "-" + digits;
      assert s[1..] == digits;
      DigitsValueOfNatToString(-n);
    } else {
      assert IsDigit(s[0]);
      DigitsValueOfNatToString(n);
    }
  }

  /** Where the permission found the company id: the query string (text) or the URL (already an int). */
  datatype RawId = QueryText(text: string) | UrlInt(n: int)

  /** `request.query_params.get("empresa_id") or view.kwargs.get("empresa_id")`. */
  function RequestedCompany(query: Option<string>, kwarg: Option<int>): (r: Option<RawId>)
    ensures query.Some? && query.value != "" ==> r == Some(QueryText(query.value))
    ensures (query.None? || query.value == "") ==> (r.Some? <==> kwarg.Some?)
    ensures (query.None? || query.value == "") && kwarg.Some? ==> r == Some(UrlInt(kwarg.value))
  {
    if query.Some? && query.value != "" then Some(QueryText(query.value))
    else if kwarg.Some? then Some(UrlInt(kwarg.value))
    else None
  }

  /** `int(empresa_id)` on the value found: `None` stands for the `ValueError` the view catches. */
  function RawToInt(raw: RawId): Option<int>
  {
    match raw
    case QueryText(t) => ParseInt(t)
    case UrlInt(n) => Some(n)
  }

  /**
   * `TieneAccesoEmpresaPermission.has_permission`. An anonymous request is refused; with no
   * company id the user needs at least one authorized company; an id that is not an integer
   * is refused; otherwise the user needs access to that company under the view's role filter.
   */
  function HasPermission(authenticated: bool, roles: set<Role>, query: Option<string>, kwarg: Option<int>, u: User): (ok: bool)
    ensures !authenticated ==> !ok
    ensures authenticated && RequestedCompany(query, kwarg).None? ==> (ok <==> AuthorizedIds(u, roles) != [])
    ensures query.Some? && query.value != "" && ParseInt(query.value).None? ==> !ok
    ensures (&& authenticated && RequestedCompany(query, kwarg).Some?
             && RawToInt(RequestedCompany(query, kwarg).value).Some?
             && RawToInt(RequestedCompany(query, kwarg).value).value in AuthorizedIds(u, roles)) ==> ok
    ensures ok && RequestedCompany(query, kwarg).Some? ==>
      && RawToInt(RequestedCompany(query, kwarg).value).Some?
      && RawToInt(RequestedCompany(query, kwarg).value).value in AuthorizedIds(u, roles)
  {
    if !authenticated then false
    else
      var raw := RequestedCompany(query, kwarg);
      if raw.None? then |AuthorizedIds(u, roles)| > 0
      else
        var id := RawToInt(raw.value);
        if id.None? then false
        else HasCompanyAccess(u, id, roles)
  }
}
