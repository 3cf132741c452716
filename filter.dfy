/**
 * The attendance history page of the web client: a fixed list of records, a text filter
 * that keeps the records whose worker name (ignoring case) or date contains it, a button
 * that clears the filter, and a placeholder row when nothing matches.
 */
module AttendanceFilter {
  import opened Text

  /** One record of the history table. */
  datatype Row = Row(
    id: int,
    trabajador: string,
    fecha: string,
    hora: string,
    tipo: string,
    ubicacion: string,
    modificadaPor: string)

  /** The records the page starts with. */
  const Initial: seq<Row> := [
    Row(1, "Juan P\U{00E9}rez", "2025-10-13", "08:00", "Entrada", "Planta 1", "-"),
    Row(2, "Mar\U{00ED}a Soto", "2025-10-13", "18:02", "Salida", "Oficina Central", "RRHH"),
    Row(3, "Carlos D\U{00ED}az", "2025-10-12", "08:05", "Entrada", "Sucursal A", "-")
  ]

  /** The row passes the filter: the lower-cased name contains the lower-cased filter, or the date contains the filter as typed. */
  predicate Matches(r: Row, filter: string): (b: bool)
    ensures filter == "" ==> b
    ensures Contains(r.trabajador, filter) || Contains(r.fecha, filter) ==> b
    ensures b ==> |filter| <= |r.trabajador| || |filter| <= |r.fecha|
  {
    ContainsLower(r.trabajador, filter);
    Contains(Lower(r.trabajador), Lower(filter)) || Contains(r.fecha, filter)
  }

  /** `data.filter(...)`: the matching rows, each as often as it occurs, in their original order. */
  function Filtered(data: seq<Row>, filter: string): (out: seq<Row>)
    ensures |out| <= |data|
    ensures forall r :: r in out <==> r in data && Matches(r, filter)
    ensures forall r :: multiset(out)[r] == if Matches(r, filter) then multiset(data)[r] else 0
    decreases |data|
  {
    if data == [] then []
    else
      var rest := Filtered(data[1..], filter);
      assert data == [data[0]] + data[1..];
      assert multiset(data) == multiset{data[0]} + multiset(data[1..]);
      if Matches(data[0], filter) then
        assert multiset([data[0]] + rest) == multiset{data[0]} + multiset(rest);
        [data[0]] + rest
      else rest
  }

  /** Filtering distributes over concatenation, so it keeps the rows' relative order. */
  lemma {:induction false} FilteredAppend(a: seq<Row>, b: seq<Row>, filter: string)
    ensures Filtered(a + b, filter) == Filtered(a, filter) + Filtered(b, filter)
    decreases |a|
  {
    if a == [] {
      assert a + b == b;
    } else {
      assert (a + b)[1..] == a[1..] + b;
      assert (a + b)[0] == a[0];
      FilteredAppend(a[1..], b, filter);
    }
  }

  /** Filtering what was already filtered by the same text changes nothing. */
  lemma {:induction false} FilteredIdempotent(data: seq<Row>, filter: string)
    ensures Filtered(Filtered(data, filter), filter) == Filtered(data, filter)
    decreases |data|
  {
    if data != [] {
      FilteredIdempotent(data[1..], filter);
    }
  }

  /** Every text contains the empty text. */
  lemma ContainsEmpty(s: string)
    ensures Contains(s, [])
  {
  }

  /** The empty filter shows every record. */
  lemma {:induction false} EmptyFilterKeepsAll(data: seq<Row>)
    ensures Filtered(data, "") == data
    decreases |data|
  {
    if data != [] {
      ContainsEmpty(data[0].fecha);
      EmptyFilterKeepsAll(data[1..]);
    }
  }

  /** A longer filter that contains a shorter one shows no more records than it. */
  lemma {:induction false} NarrowerFilterKeepsFewer(data: seq<Row>, f: string, g: string)
    requires Contains(g, f)
    ensures forall r :: r in Filtered(data, g) ==> r in Filtered(data, f)
  {
    ContainsLower(g, f);
    forall r | r in Filtered(data, g)
      ensures r in Filtered(data, f)
    {
      if Contains(Lower(r.trabajador), Lower(g)) {
        ContainsTransitive(Lower(r.trabajador), Lower(g), Lower(f));
      } else {
        ContainsTransitive(r.fecha, g, f);
      }
    }
  }

  /** Containment of texts is transitive. */
  lemma ContainsTransitive(s: string, t: string, u: string)
    requires Contains(s, t) && Contains(t, u)
    ensures Contains(s, u)
  {
    ContainsIffOccurs(s, t);
    ContainsIffOccurs(t, u);
    var i :| OccursAt(s, t, i);
    var j :| OccursAt(t, u, j);
    assert t == s[i..i + |t|] && u == t[j..j + |u|];
    forall k | 0 <= k < |u|
      ensures u[k] == s[i + j..i + j + |u|][k]
    {
      assert u[k] == t[j + k] == s[i + j + k];
    }
    assert OccursAt(s, u, i + j);
    ContainsIffOccurs(s, u);
  }

  /** A text that contains a non-empty text contains its first character. */
  lemma {:induction false} ContainsFirstChar(s: string, t: string)
    requires t != [] && Contains(s, t)
    ensures t[0] in s
    decreases |s|
  {
    if !(t <= s) {
      ContainsFirstChar(s[1..], t);
    }
  }

  /** A record dated `2025-10-12` whose name has no `2` fails the filter `2025-10-13`. */
  lemma OtherDayFails(r: Row)
    requires r.fecha == "2025-10-12"
    requires '2' !in r.trabajador
    ensures !Matches(r, "2025-10-13")
  {
    var f := "2025-10-13";
    assert Lower(f) == f;
    assert r.fecha[9] != f[9];
    assert r.fecha[0..10] == r.fecha;
    assert forall i :: !OccursAt(r.fecha, f, i);
    ContainsIffOccurs(r.fecha, f);
    assert forall k :: 0 <= k < |r.trabajador| ==> LowerChar(r.trabajador[k]) != '2';
    if Contains(Lower(r.trabajador), f) {
      ContainsFirstChar(Lower(r.trabajador), f);
    }
  }

  /** A record dated exactly as the filter passes it. */
  lemma SameDateMatches(r: Row, f: string)
    requires r.fecha == f
    ensures Matches(r, f)
  {
  }

  /** Of three records, filtering keeps the first two exactly when they match and the third does not. */
  lemma KeepFirstTwo(a: Row, b: Row, c: Row, f: string)
    requires Matches(a, f) && Matches(b, f) && !Matches(c, f)
    ensures Filtered([a, b, c], f) == [a, b]
  {
    assert [c][1..] == [];
    assert Filtered([c], f) == [];
    assert [b, c][1..] == [c];
    assert Filtered([b, c], f) == [b];
    assert [a, b, c][1..] == [b, c];
  }

  /** Filtering the initial records by the date `2025-10-13` shows exactly the two records of that day. */
  lemma DateFilterOnInitial()
    ensures Filtered(Initial, "2025-10-13") == Initial[..2]
  {
    var a := Row(1, "Juan P\U{00E9}rez", "2025-10-13", "08:00", "Entrada", "Planta 1", "-");
    var b := Row(2, "Mar\U{00ED}a Soto", "2025-10-13", "18:02", "Salida", "Oficina Central", "RRHH");
    var c := Row(3, "Carlos D\U{00ED}az", "2025-10-12", "08:05", "Entrada", "Sucursal A", "-");
    assert Initial == [a, b, c] && Initial[..2] == [a, b];
    SameDateMatches(a, "2025-10-13");
    SameDateMatches(b, "2025-10-13");
    OtherDayFails(c);
    KeepFirstTwo(a, b, c, "2025-10-13");
  }

  /** The page's state: the records and the filter text. */
  datatype Page = Page(data: seq<Row>, filter: string)

  /** The first render: the initial records and an empty filter. */
  function Mount(): (p: Page)
    ensures p == Page(Initial, "")
    ensures Filtered(p.data, p.filter) == Initial
  {
    EmptyFilterKeepsAll(Initial);
    Page(Initial, "")
  }

  /** Typing in the input sets the filter to the input's value; the records stay. */
  function OnChange(p: Page, value: string): (q: Page)
    ensures q.data == p.data && q.filter == value
  {
    Page(p.data, value)
  }

  /** The `Limpiar` button: the filter becomes empty, so every record shows again. */
  function Clear(p: Page): (q: Page)
    ensures q.data == p.data && q.filter == ""
    ensures Filtered(q.data, q.filter) == p.data
  {
    EmptyFilterKeepsAll(p.data);
    Page(p.data, "")
  }

  const NoRecords := "No hay registros que coincidan."

  /** The body of the table: one line of six cells per shown record, or the single placeholder line. */
  function TableBody(p: Page): (lines: seq<seq<string>>)
    ensures Filtered(p.data, p.filter) == [] <==> lines == [[NoRecords]]
    ensures |lines| == if Filtered(p.data, p.filter) == [] then 1 else |Filtered(p.data, p.filter)|
    ensures Filtered(p.data, p.filter) != [] ==>
      forall k :: 0 <= k < |lines| ==>
        var row := Filtered(p.data, p.filter)[k];
        lines[k] == [row.trabajador, row.fecha, row.hora, row.tipo, row.ubicacion, row.modificadaPor]
  {
    var shown := Filtered(p.data, p.filter);
    if shown == [] then [[NoRecords]]
    else
      var lines := seq(|shown|, k requires 0 <= k < |shown| =>
        [shown[k].trabajador, shown[k].fecha, shown[k].hora, shown[k].tipo, shown[k].ubicacion, shown[k].modificadaPor]);
      assert |lines[0]| == 6;
      lines
  }
}
