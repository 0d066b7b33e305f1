/** parse_attributes(points, vertices, primitives, compound, selector): each
    visible property of a geometry parameter compound that decodes is
    appended to the table of its geometry scope, and every table is sorted
    by key afterwards. */
module SheetBuilder {
  import opened Wrappers
  import opened Failures
  import opened Properties
  import opened Decoder
  import opened SpreadSheet
  import Columns

  /** The three tables a call fills. points is always given; vertices and
      primitives are None where the caller passes nullptr (parse_points). */
  datatype Sheets = Sheets(points: AttributeSpreadSheet, vertices: Option<AttributeSpreadSheet>, primitives: Option<AttributeSpreadSheet>)

  datatype Scope = PointScope | VertexScope | PrimitiveScope | NoScope

  /** Keys that are empty or start with '.' are skipped. */
  predicate Hidden(key: string) {
    key == [] || key[0] == '.'
  }

  /** The table a geoScope names: var and vtx the points, fvr the vertices,
      uni the primitives, each only when the caller provided that table;
      anything else, "" included, is dropped. */
  function Route(geoScope: string, hasVertices: bool, hasPrimitives: bool): (s: Scope)
    ensures s == PointScope <==> geoScope == "var" || geoScope == "vtx"
    ensures s == VertexScope <==> hasVertices && geoScope == "fvr"
    ensures s == PrimitiveScope <==> hasPrimitives && geoScope == "uni"
  {
    if geoScope == "var" || geoScope == "vtx" then PointScope
    else if hasVertices && geoScope == "fvr" then VertexScope
    else if hasPrimitives && geoScope == "uni" then PrimitiveScope
    else NoScope
  }

  /** The entries of the table of a scope; none for an absent table. */
  function SheetOf(sh: Sheets, scope: Scope): seq<Entry> {
    match scope
    case PointScope => sh.points.sheet
    case VertexScope => if sh.vertices.Some? then sh.vertices.value.sheet else []
    case PrimitiveScope => if sh.primitives.Some? then sh.primitives.value.sheet else []
    case NoScope => []
  }

  function Push(t: AttributeSpreadSheet, e: Entry): AttributeSpreadSheet {
    AttributeSpreadSheet(t.sheet + [e])
  }

  /** sheet.emplace_back(key, column) on the table of scope. */
  function AddEntry(sh: Sheets, scope: Scope, e: Entry): Sheets {
    match scope
    case PointScope => sh.(points := Push(sh.points, e))
    case VertexScope => if sh.vertices.Some? then sh.(vertices := Some(Push(sh.vertices.value, e))) else sh
    case PrimitiveScope => if sh.primitives.Some? then sh.(primitives := Some(Push(sh.primitives.value, e))) else sh
    case NoScope => sh
  }

  /** One pass of the loop body for the property p. */
  function Append(sh: Sheets, p: Property): Result<Sheets, Failure> {
    if Hidden(p.name) then Ok(sh)
    else
      var c :- DecodeAttribute(p);
      if c.None? then Ok(sh)
      else Ok(AddEntry(sh, Route(GeoScope(p), sh.vertices.Some?, sh.primitives.Some?), Entry(p.name, c.value)))
  }

  /** The loop over the compound's properties in index order; the first
      exception ends it. */
  function AppendAll(sh: Sheets, ps: seq<Property>): Result<Sheets, Failure> {
    if ps == [] then Ok(sh)
    else
      var s :- AppendAll(sh, ps[..|ps| - 1]);
      Append(s, ps[|ps| - 1])
  }

  function SortSheet(t: AttributeSpreadSheet): AttributeSpreadSheet {
    AttributeSpreadSheet(SortByKey(t.sheet))
  }

  /** The std::sort of every table that was provided. */
  function SortSheets(sh: Sheets): Sheets {
    Sheets(SortSheet(sh.points),
           if sh.vertices.Some? then Some(SortSheet(sh.vertices.value)) else None,
           if sh.primitives.Some? then Some(SortSheet(sh.primitives.value)) else None)
  }

  /** The whole call. */
  function BuildSheets(sh: Sheets, ps: seq<Property>): Result<Sheets, Failure> {
    var s :- AppendAll(sh, ps);
    Ok(SortSheets(s))
  }

  /** The loop of parse_attributes, appending to the tables in place of the
      source's emplace_back, then the sorts. */
  method ParseAttributes(sh: Sheets, ps: seq<Property>) returns (r: Result<Sheets, Failure>)
    ensures r == BuildSheets(sh, ps)
  {
    var cur := sh;
    var i := 0;
    while i < |ps|
      invariant 0 <= i <= |ps|
      invariant AppendAll(sh, ps[..i]) == Ok(cur)
    {
      var p := ps[i];
      assert ps[..i + 1][..i] == ps[..i];
      if p.name != [] && p.name[0] != '.' {
        var decoded := DecodeAttribute(p);
        if decoded.Err? {
          assert AppendAll(sh, ps[..i + 1]).Err?;
          ErrorSticks(sh, ps, i + 1);
          assert ps[..|ps|] == ps;
          return Err(decoded.error);
        }
        if decoded.value.Some? {
          var geoScope := GeoScope(p);
          var e := Entry(p.name, decoded.value.value);
          if geoScope == "var" || geoScope == "vtx" {
            cur := cur.(points := Push(cur.points, e));
          } else if cur.vertices.Some? && geoScope == "fvr" {
            cur := cur.(vertices := Some(Push(cur.vertices.value, e)));
          } else if cur.primitives.Some? && geoScope == "uni" {
            cur := cur.(primitives := Some(Push(cur.primitives.value, e)));
          }
        }
      }
      i := i + 1;
    }
    assert ps[..|ps|] == ps;
    r := Ok(SortSheets(cur));
  }

  /** Once the loop has thrown, no later property changes the outcome. */
  lemma {:induction false} ErrorSticks(sh: Sheets, ps: seq<Property>, n: nat)
    requires n <= |ps|
    requires AppendAll(sh, ps[..n]).Err?
    ensures AppendAll(sh, ps) == AppendAll(sh, ps[..n])
    decreases |ps| - n
  {
    if n < |ps| {
      assert ps[..n + 1][..n] == ps[..n];
      ErrorSticks(sh, ps, n + 1);
    } else {
      assert ps[..n] == ps;
    }
  }

  /** Whether p contributes an entry to the table of scope. */
  predicate Contributes(p: Property, scope: Scope, hasVertices: bool, hasPrimitives: bool) {
    !Hidden(p.name) && DecodeAttribute(p).Ok? && DecodeAttribute(p).value.Some? &&
    Route(GeoScope(p), hasVertices, hasPrimitives) == scope
  }

  /** The entries a compound contributes to the table of scope, in property
      order: a reference definition that reads the properties front to back. */
  function Selected(ps: seq<Property>, scope: Scope, hasVertices: bool, hasPrimitives: bool): seq<Entry> {
    if ps == [] then []
    else
      var rest := Selected(ps[1..], scope, hasVertices, hasPrimitives);
      if Contributes(ps[0], scope, hasVertices, hasPrimitives)
      then [Entry(ps[0].name, DecodeAttribute(ps[0]).value.value)] + rest
      else rest
  }

  lemma {:induction false} SelectedSnoc(ps: seq<Property>, p: Property, scope: Scope, hasVertices: bool, hasPrimitives: bool)
    ensures Selected(ps + [p], scope, hasVertices, hasPrimitives) ==
      Selected(ps, scope, hasVertices, hasPrimitives) +
      (if Contributes(p, scope, hasVertices, hasPrimitives) then [Entry(p.name, DecodeAttribute(p).value.value)] else [])
  {
    if ps != [] {
      assert (ps + [p])[1..] == ps[1..] + [p];
      SelectedSnoc(ps[1..], p, scope, hasVertices, hasPrimitives);
    } else {
      assert [p][1..] == [];
    }
  }

  /** The loop fails exactly when some visible property fails to decode. */
  lemma {:induction false} FailsExactly(sh: Sheets, ps: seq<Property>)
    ensures AppendAll(sh, ps).Err? <==>
      exists i :: 0 <= i < |ps| && !Hidden(ps[i].name) && DecodeAttribute(ps[i]).Err?
  {
    if ps != [] {
      var init := ps[..|ps| - 1];
      FailsExactly(sh, init);
      assert forall i :: 0 <= i < |init| ==> init[i] == ps[i];
    }
  }

  lemma AppendStep(sh: Sheets, p: Property, scope: Scope)
    requires Append(sh, p).Ok? && scope != NoScope
    ensures var r := Append(sh, p).value;
      && r.vertices.Some? == sh.vertices.Some?
      && r.primitives.Some? == sh.primitives.Some?
      && SheetOf(r, scope) == SheetOf(sh, scope) +
           (if Contributes(p, scope, sh.vertices.Some?, sh.primitives.Some?)
            then [Entry(p.name, DecodeAttribute(p).value.value)] else [])
  {
  }

  /** The loop appends, to each table, exactly the entries Selected names,
      and leaves an absent table absent. */
  lemma {:induction false} AppendAllContents(sh: Sheets, ps: seq<Property>, scope: Scope)
    requires AppendAll(sh, ps).Ok? && scope != NoScope
    ensures var r := AppendAll(sh, ps).value;
      && r.vertices.Some? == sh.vertices.Some?
      && r.primitives.Some? == sh.primitives.Some?
      && SheetOf(r, scope) == SheetOf(sh, scope) + Selected(ps, scope, sh.vertices.Some?, sh.primitives.Some?)
  {
    if ps != [] {
      var init, last := ps[..|ps| - 1], ps[|ps| - 1];
      AppendAllContents(sh, init, scope);
      var mid := AppendAll(sh, init).value;
      assert AppendAll(sh, ps) == Append(mid, last);
      AppendStep(mid, last, scope);
      assert ps == init + [last];
      SelectedSnoc(init, last, scope, sh.vertices.Some?, sh.primitives.Some?);
    }
  }

  /** The outcome of the call: an absent table stays absent; every table is
      sorted by key and holds its old entries and the selected ones, no
      more and no fewer; no hidden key was added. */
  lemma BuildSheetsContents(sh: Sheets, ps: seq<Property>, scope: Scope)
    requires BuildSheets(sh, ps).Ok? && scope != NoScope
    ensures var r := BuildSheets(sh, ps).value;
      var added := Selected(ps, scope, sh.vertices.Some?, sh.primitives.Some?);
      && r.vertices.Some? == sh.vertices.Some?
      && r.primitives.Some? == sh.primitives.Some?
      && Sorted(SheetOf(r, scope))
      && multiset(SheetOf(r, scope)) == multiset(SheetOf(sh, scope) + added)
      && (forall e :: e in added ==> !Hidden(e.key))
  {
    var s := AppendAll(sh, ps).value;
    AppendAllContents(sh, ps, scope);
    SortSorted(SheetOf(s, scope));
    SortPermutes(SheetOf(s, scope));
    SelectedVisible(ps, scope, sh.vertices.Some?, sh.primitives.Some?);
  }

  lemma {:induction false} SelectedVisible(ps: seq<Property>, scope: Scope, hasVertices: bool, hasPrimitives: bool)
    ensures forall e :: e in Selected(ps, scope, hasVertices, hasPrimitives) ==> !Hidden(e.key)
  {
    if ps != [] {
      SelectedVisible(ps[1..], scope, hasVertices, hasPrimitives);
    }
  }

  /** Sorting changes no lookup, so get_as on any built table finds the
      column of the first appended entry under each key. */
  lemma BuiltLookup(sh: Sheets, ps: seq<Property>, scope: Scope, key: string)
    requires BuildSheets(sh, ps).Ok?
    ensures Find(SheetOf(BuildSheets(sh, ps).value, scope), key) == Find(SheetOf(AppendAll(sh, ps).value, scope), key)
  {
    FindSorted(SheetOf(AppendAll(sh, ps).value, scope), key);
  }

  predicate AllBacked(s: seq<Entry>) {
    forall i :: 0 <= i < |s| ==> Columns.Backed(s[i].column)
  }

  predicate SheetsBacked(sh: Sheets) {
    AllBacked(SheetOf(sh, PointScope)) && AllBacked(SheetOf(sh, VertexScope)) && AllBacked(SheetOf(sh, PrimitiveScope))
  }

  lemma {:induction false} SelectedBacked(ps: seq<Property>, scope: Scope, hasVertices: bool, hasPrimitives: bool)
    requires forall i :: 0 <= i < |ps| ==> WellFormed(ps[i])
    ensures AllBacked(Selected(ps, scope, hasVertices, hasPrimitives))
  {
    if ps != [] {
      SelectedBacked(ps[1..], scope, hasVertices, hasPrimitives);
      if Contributes(ps[0], scope, hasVertices, hasPrimitives) {
        DecodedIsBacked(ps[0]);
      }
    }
  }

  lemma PermutedBacked(a: seq<Entry>, b: seq<Entry>)
    requires multiset(a) == multiset(b) && AllBacked(b)
    ensures AllBacked(a)
  {
    forall i | 0 <= i < |a| ensures Columns.Backed(a[i].column) {
      assert a[i] in multiset(b);
      var j :| 0 <= j < |b| && b[j] == a[i];
    }
  }

  /** Built from samples the library vouches for, every direct column in
      every table holds a scalar for each of its rows. */
  lemma BuildKeepsBacked(sh: Sheets, ps: seq<Property>)
    requires BuildSheets(sh, ps).Ok? && SheetsBacked(sh)
    requires forall i :: 0 <= i < |ps| ==> WellFormed(ps[i])
    ensures SheetsBacked(BuildSheets(sh, ps).value)
  {
    var r := BuildSheets(sh, ps).value;
    forall scope | scope != NoScope ensures AllBacked(SheetOf(r, scope)) {
      BuildSheetsContents(sh, ps, scope);
      SelectedBacked(ps, scope, sh.vertices.Some?, sh.primitives.Some?);
      var added := Selected(ps, scope, sh.vertices.Some?, sh.primitives.Some?);
      assert AllBacked(SheetOf(sh, scope) + added);
      PermutedBacked(SheetOf(r, scope), SheetOf(sh, scope) + added);
    }
  }
}
