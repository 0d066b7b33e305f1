/** AttributeSpreadSheet: the attribute table of one geometry scope, a
    sequence of (key, column) entries, and the queries on it. */
module SpreadSheet {
  import opened Wrappers
  import opened Failures
  import opened CText
  import Columns

  datatype Entry = Entry(key: string, column: Columns.Column)

  datatype AttributeSpreadSheet = AttributeSpreadSheet(sheet: seq<Entry>)

  /** An empty table, as a freshly built scene object holds. */
  function EmptySheet(): AttributeSpreadSheet {
    AttributeSpreadSheet([])
  }

  predicate HasKey(s: seq<Entry>, key: string) {
    exists i :: 0 <= i < |s| && s[i].key == key
  }

  /** sheet.find(key): the first entry under key. */
  function Find(s: seq<Entry>, key: string): (r: Option<Columns.Column>)
    ensures r.None? <==> !HasKey(s, key)
  {
    if s == [] then None
    else if s[0].key == key then Some(s[0].column)
    else
      assert forall i :: 1 <= i < |s| ==> s[i] == s[1..][i - 1];
      Find(s[1..], key)
  }

  /** What find returns is the column of the first entry under key. */
  lemma {:induction false} FindFirst(s: seq<Entry>, key: string)
    requires HasKey(s, key)
    ensures exists i :: 0 <= i < |s| && s[i] == Entry(key, Find(s, key).value) &&
                        forall j :: 0 <= j < i ==> s[j].key != key
  {
    if s[0].key == key {
      assert s[0] == Entry(key, Find(s, key).value);
    } else {
      FindFirst(s[1..], key);
      var i :| 0 <= i < |s[1..]| && s[1..][i] == Entry(key, Find(s[1..], key).value) &&
               forall j :: 0 <= j < i ==> s[1..][j].key != key;
      assert s[i + 1] == s[1..][i];
      forall j | 0 <= j < i + 1 ensures s[j].key != key {
        if j > 0 {
          assert s[j] == s[1..][j - 1];
        }
      }
    }
  }

  /** get_as<TColumn>(key): the column under key when it is an instance of
      the requested column class; "key not found" when there is no such
      key, "value type mismatch" when the column is of another class. */
  function GetAs(t: AttributeSpreadSheet, key: string, kind: Columns.Kind): (r: Result<Columns.Column, SheetError>)
    ensures r == Err(KeyNotFound) <==> !HasKey(t.sheet, key)
    ensures r == Err(ValueTypeMismatch) <==> HasKey(t.sheet, key) && Columns.KindOf(Find(t.sheet, key).value) != kind
    ensures r.Ok? ==> r.value == Find(t.sheet, key).value && Columns.KindOf(r.value) == kind
  {
    match Find(t.sheet, key)
    case None => Err(KeyNotFound)
    case Some(c) => if Columns.KindOf(c) == kind then Ok(c) else Err(ValueTypeMismatch)
  }

  /** The text of the runtime_error get_as throws. */
  lemma GetAsMessages(t: AttributeSpreadSheet, key: string, kind: Columns.Kind)
    ensures !HasKey(t.sheet, key) ==> SheetMessage(GetAs(t, key, kind).error) == "[SpreadSheet] key not found."
    ensures GetAs(t, key, kind) == Err(ValueTypeMismatch) ==> SheetMessage(GetAs(t, key, kind).error) == "[SpreadSheet] value type mismatch"
  {
  }

  /** get_as_string(index, key), get_as_float(index, key) and
      get_as_int(index, key): get_as(key) and then get(index) on the column.
      Nothing checks the index: the caller must name a readable row. */
  function GetValueAs(t: AttributeSpreadSheet, index: nat, key: string, kind: Columns.Kind): (r: Result<Columns.Value, SheetError>)
    requires kind in {Columns.StringKind, Columns.FloatKind, Columns.IntKind}
    requires GetAs(t, key, kind).Ok? ==> Columns.Readable(GetAs(t, key, kind).value, index)
    ensures r.Err? <==> GetAs(t, key, kind).Err?
    ensures r.Err? ==> r.error == GetAs(t, key, kind).error
    ensures r.Ok? ==> Columns.HasKind(r.value, kind) && r.value == Columns.Get(Find(t.sheet, key).value, index)
  {
    var c :- GetAs(t, key, kind);
    Ok(Columns.Get(c, index))
  }

  /** get_as_vector2/3/4(index, key, xs): get_as(key) and then the column's
      get(index, xs). On failure nothing is written. */
  method GetVectorAs(t: AttributeSpreadSheet, index: nat, key: string, kind: Columns.Kind, xs: array<real>)
    returns (error: Option<SheetError>)
    requires kind in {Columns.Vector2Kind, Columns.Vector3Kind, Columns.Vector4Kind}
    requires GetAs(t, key, kind).Ok? ==> Columns.Readable(GetAs(t, key, kind).value, index)
    requires Columns.Width(kind) <= xs.Length
    modifies xs
    ensures error.None? <==> GetAs(t, key, kind).Ok?
    ensures error.Some? ==> error.value == GetAs(t, key, kind).error && xs[..] == old(xs[..])
    ensures error.None? ==> xs[..Columns.Width(kind)] == Columns.Get(Find(t.sheet, key).value, index).xs
    ensures xs[Columns.Width(kind)..] == old(xs[Columns.Width(kind)..])
  {
    var r := GetAs(t, key, kind);
    if r.Err? {
      return Some(r.error);
    }
    Columns.GetVector(r.value, index, xs);
    return None;
  }

  /** rowCount(): 0 for an empty table, else the row count of its first
      column. No other column is consulted. */
  function RowCount(t: AttributeSpreadSheet): nat {
    if t.sheet == [] then 0 else Columns.RowCount(t.sheet[0].column)
  }

  /** columnCount(): the number of entries. */
  function ColumnCount(t: AttributeSpreadSheet): nat {
    |t.sheet|
  }

  /** sheet.count(key). */
  function Count(s: seq<Entry>, key: string): nat {
    if s == [] then 0 else (if s[0].key == key then 1 else 0) + Count(s[1..], key)
  }

  /** contains_key(key): sheet.count(key) != 0. */
  function ContainsKey(t: AttributeSpreadSheet, key: string): bool {
    Count(t.sheet, key) != 0
  }

  lemma {:induction false} CountZero(s: seq<Entry>, key: string)
    ensures Count(s, key) == 0 <==> !HasKey(s, key)
  {
    if s != [] {
      CountZero(s[1..], key);
      if s[0].key != key {
        assert HasKey(s, key) ==> HasKey(s[1..], key) by {
          if HasKey(s, key) {
            var i :| 0 <= i < |s| && s[i].key == key;
            assert s[1..][i - 1] == s[i];
          }
        }
        assert HasKey(s[1..], key) ==> HasKey(s, key) by {
          if HasKey(s[1..], key) {
            var i :| 0 <= i < |s[1..]| && s[1..][i].key == key;
            assert s[i + 1] == s[1..][i];
          }
        }
      }
    }
  }

  /** contains_key agrees with get_as: a key is contained exactly when
      get_as does not fail with "key not found". */
  lemma ContainsKeyIffFound(t: AttributeSpreadSheet, key: string, kind: Columns.Kind)
    ensures ContainsKey(t, key) <==> HasKey(t.sheet, key)
    ensures ContainsKey(t, key) <==> GetAs(t, key, kind) != Err(KeyNotFound)
  {
    CountZero(t.sheet, key);
  }

  function KeySet(s: seq<Entry>): set<string> {
    set i | 0 <= i < |s| :: s[i].key
  }

  predicate DistinctKeys(s: seq<Entry>) {
    forall i, j :: 0 <= i < j < |s| ==> s[i].key != s[j].key
  }

  /** With one entry per key, as a map has, columnCount is the number of
      keys. */
  lemma {:induction false} ColumnCountOfDistinct(t: AttributeSpreadSheet)
    requires DistinctKeys(t.sheet)
    ensures ColumnCount(t) == |KeySet(t.sheet)|
    decreases |t.sheet|
  {
    var s := t.sheet;
    if s != [] {
      var u := AttributeSpreadSheet(s[1..]);
      ColumnCountOfDistinct(u);
      assert KeySet(s) == {s[0].key} + KeySet(s[1..]) by {
        forall k | k in KeySet(s) ensures k in {s[0].key} + KeySet(s[1..]) {
          var i :| 0 <= i < |s| && s[i].key == k;
          if i > 0 {
            assert s[1..][i - 1] == s[i];
          }
        }
        forall k | k in KeySet(s[1..]) ensures k in KeySet(s) {
          var i :| 0 <= i < |s[1..]| && s[1..][i].key == k;
          assert s[i + 1] == s[1..][i];
        }
      }
      assert s[0].key !in KeySet(s[1..]) by {
        forall i | 0 <= i < |s[1..]| ensures s[1..][i].key != s[0].key {
          assert s[1..][i] == s[i + 1];
        }
      }
    }
  }

  /** Every entry's key is at least k. */
  predicate LeAll(k: string, s: seq<Entry>) {
    forall i :: 0 <= i < |s| ==> KeyLe(k, s[i].key)
  }

  /** Sorted by key, as std::sort leaves the sheet and as a map iterates. */
  predicate Sorted(s: seq<Entry>) {
    forall i, j :: 0 <= i < j < |s| ==> KeyLe(s[i].key, s[j].key)
  }

  /** e placed after every entry whose key is not greater than its own. */
  function InsertByKey(s: seq<Entry>, e: Entry): (r: seq<Entry>)
    ensures |r| == |s| + 1
  {
    if s == [] then [e]
    else if KeyLe(s[0].key, e.key) then [s[0]] + InsertByKey(s[1..], e)
    else [e] + s
  }

  /** The sheet sorted by key; entries under equal keys keep their order. */
  function SortByKey(s: seq<Entry>): (r: seq<Entry>)
    ensures |r| == |s|
  {
    if s == [] then [] else InsertByKey(SortByKey(s[..|s| - 1]), s[|s| - 1])
  }

  lemma {:induction false} InsertPermutes(s: seq<Entry>, e: Entry)
    ensures multiset(InsertByKey(s, e)) == multiset(s) + multiset{e}
  {
    if s != [] && KeyLe(s[0].key, e.key) {
      InsertPermutes(s[1..], e);
      assert s == [s[0]] + s[1..];
    }
  }

  lemma {:induction false} InsertKeepsBound(k: string, s: seq<Entry>, e: Entry)
    requires LeAll(k, s) && KeyLe(k, e.key)
    ensures LeAll(k, InsertByKey(s, e))
  {
    InsertPermutes(s, e);
    var r := InsertByKey(s, e);
    forall i | 0 <= i < |r| ensures KeyLe(k, r[i].key) {
      assert r[i] in multiset(s) + multiset{e};
      if r[i] != e {
        assert r[i] in s;
      }
    }
  }

  lemma {:induction false} InsertSorted(s: seq<Entry>, e: Entry)
    requires Sorted(s)
    ensures Sorted(InsertByKey(s, e))
  {
    if s == [] {
    } else if KeyLe(s[0].key, e.key) {
      var rest := s[1..];
      assert Sorted(rest) by {
        forall i, j | 0 <= i < j < |rest| ensures KeyLe(rest[i].key, rest[j].key) {
          assert rest[i] == s[i + 1] && rest[j] == s[j + 1];
        }
      }
      InsertSorted(rest, e);
      assert LeAll(s[0].key, rest) by {
        forall i | 0 <= i < |rest| ensures KeyLe(s[0].key, rest[i].key) {
          assert rest[i] == s[i + 1];
        }
      }
      InsertKeepsBound(s[0].key, rest, e);
    } else {
      var r := [e] + s;
      KeyLeTotal(s[0].key, e.key);
      forall i, j | 0 <= i < j < |r| ensures KeyLe(r[i].key, r[j].key) {
        if i == 0 {
          if j > 1 {
            KeyLeTransitive(e.key, s[0].key, s[j - 1].key);
          }
        } else {
          assert r[i] == s[i - 1] && r[j] == s[j - 1];
        }
      }
    }
  }

  /** std::sort leaves the sheet sorted by key ... */
  lemma {:induction false} SortSorted(s: seq<Entry>)
    ensures Sorted(SortByKey(s))
  {
    if s != [] {
      SortSorted(s[..|s| - 1]);
      InsertSorted(SortByKey(s[..|s| - 1]), s[|s| - 1]);
    }
  }

  /** ... and holds exactly the entries it held before. */
  lemma {:induction false} SortPermutes(s: seq<Entry>)
    ensures multiset(SortByKey(s)) == multiset(s)
  {
    if s != [] {
      SortPermutes(s[..|s| - 1]);
      InsertPermutes(SortByKey(s[..|s| - 1]), s[|s| - 1]);
      assert s == s[..|s| - 1] + [s[|s| - 1]];
    }
  }

  lemma {:induction false} FindInsert(s: seq<Entry>, e: Entry, key: string)
    requires Sorted(s)
    ensures Find(InsertByKey(s, e), key) ==
      (if Find(s, key).Some? then Find(s, key) else if e.key == key then Some(e.column) else None)
  {
    if s == [] {
    } else if KeyLe(s[0].key, e.key) {
      var rest := s[1..];
      assert Sorted(rest) by {
        forall i, j | 0 <= i < j < |rest| ensures KeyLe(rest[i].key, rest[j].key) {
          assert rest[i] == s[i + 1] && rest[j] == s[j + 1];
        }
      }
      FindInsert(rest, e, key);
      assert ([s[0]] + InsertByKey(rest, e))[1..] == InsertByKey(rest, e);
    } else if e.key == key {
      KeyLeReflexive(e.key);
      assert forall j :: 0 < j < |s| ==> KeyLe(s[0].key, s[j].key);
    } else {
      assert ([e] + s)[1..] == s;
    }
  }

  lemma {:induction false} FindSnoc(s: seq<Entry>, e: Entry, key: string)
    ensures Find(s + [e], key) ==
      (if Find(s, key).Some? then Find(s, key) else if e.key == key then Some(e.column) else None)
  {
    if s != [] {
      assert (s + [e])[1..] == s[1..] + [e];
      FindSnoc(s[1..], e, key);
    }
  }

  /** Sorting changes no lookup: find returns the entry inserted first under
      its key, which is also the one std::map::emplace keeps. */
  lemma {:induction false} FindSorted(s: seq<Entry>, key: string)
    ensures Find(SortByKey(s), key) == Find(s, key)
  {
    if s != [] {
      var init, last := s[..|s| - 1], s[|s| - 1];
      var sorted := SortByKey(init);
      assert SortByKey(s) == InsertByKey(sorted, last);
      FindSorted(init, key);
      assert Find(sorted, key) == Find(init, key);
      SortSorted(init);
      FindInsert(sorted, last, key);
      assert s == init + [last];
      FindSnoc(init, last, key);
    }
  }

  /** In a sorted table the first entry is the one under the least key, so
      rowCount is the row count of the column that the map's begin() would
      give, and it is also what get_as finds under that key. */
  lemma RowCountOfLeastKey(t: AttributeSpreadSheet)
    requires Sorted(t.sheet) && t.sheet != []
    ensures LeAll(t.sheet[0].key, t.sheet)
    ensures RowCount(t) == Columns.RowCount(Find(t.sheet, t.sheet[0].key).value)
  {
    forall i | 0 <= i < |t.sheet| ensures KeyLe(t.sheet[0].key, t.sheet[i].key) {
      if i == 0 {
        KeyLeReflexive(t.sheet[0].key);
      }
    }
  }
}
