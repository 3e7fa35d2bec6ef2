/**
 * The filter-option builder the three list pages share: for every field name that occurs in the
 * loaded rows, the distinct values it takes, in the order they are first met.  A JavaScript `Set`
 * keeps insertion order, so it is modelled as a sequence that a value is appended to only when it
 * is not already there.  The assessments page keeps null values; the other two skip them.
 */
module FilterOptions {
  import opened Api

  type OptionMap = map<string, seq<Value>>

  /** The values field `key` takes in `rows`, in row order, nulls left out when `skipNull`. */
  function Column(rows: seq<Row>, key: string, skipNull: bool): seq<Value> {
    if |rows| == 0 then []
    else
      var last := rows[|rows| - 1];
      Column(rows[..|rows| - 1], key, skipNull) +
        (if key in last && !(skipNull && last[key] == Null) then [last[key]] else [])
  }

  /** `Array.from(new Set(vs))`: each value once, at the place it first occurs. */
  function Distinct(vs: seq<Value>): seq<Value> {
    if |vs| == 0 then []
    else
      var prefix := Distinct(vs[..|vs| - 1]);
      if vs[|vs| - 1] in prefix then prefix else prefix + [vs[|vs| - 1]]
  }

  /** `Distinct` keeps exactly the values of its input, each once. */
  lemma {:induction false} DistinctElements(vs: seq<Value>)
    ensures forall v :: v in Distinct(vs) <==> v in vs
    ensures forall i, j :: 0 <= i < j < |Distinct(vs)| ==> Distinct(vs)[i] != Distinct(vs)[j]
  {
    if |vs| > 0 {
      var n := |vs| - 1;
      DistinctElements(vs[..n]);
      assert vs == vs[..n] + [vs[n]];
    }
  }

  /** `vs.indexOf(v)`, with `|vs|` standing for "not found": the position where `v` first occurs. */
  function FirstIndex(vs: seq<Value>, v: Value): (k: nat)
    ensures k <= |vs| && v !in vs[..k]
    ensures k < |vs| <==> v in vs
    ensures k < |vs| ==> vs[k] == v
  {
    if |vs| == 0 then 0
    else if vs[0] == v then 0
    else
      var k := 1 + FirstIndex(vs[1..], v);
      assert vs[..k] == [vs[0]] + vs[1..][..k - 1];
      assert vs == [vs[0]] + vs[1..];
      k
  }

  /** Every field name that occurs in some row. */
  function KeysOf(rows: seq<Row>): set<string> {
    if |rows| == 0 then {} else KeysOf(rows[..|rows| - 1]) + rows[|rows| - 1].Keys
  }

  /** The option lists a page builds from `rows`. */
  function Options(rows: seq<Row>, skipNull: bool): OptionMap {
    map k | k in KeysOf(rows) :: Distinct(Column(rows, k, skipNull))
  }

  /** `options` holds, for exactly the field names in `rows`, that field's distinct values. */
  ghost predicate Describes(options: OptionMap, rows: seq<Row>, skipNull: bool) {
    && (forall k :: k in options <==> k in KeysOf(rows))
    && (forall k :: k in options ==> options[k] == Distinct(Column(rows, k, skipNull)))
  }

  lemma DescribesOptions(options: OptionMap, rows: seq<Row>, skipNull: bool)
    requires Describes(options, rows, skipNull)
    ensures options == Options(rows, skipNull)
  {
  }

  // ------------------------------------------------------------------ the builder

  /** The nested `forEach` loops of the page's fetch: one row at a time, one field at a time. */
  method CollectOptions(rows: seq<Row>, skipNull: bool) returns (options: OptionMap)
    ensures options == Options(rows, skipNull)
  {
    options := map[];
    var i := 0;
    while i < |rows|
      invariant 0 <= i <= |rows|
      invariant Describes(options, rows[..i], skipNull)
    {
      assert rows[..i + 1] == rows[..i] + [rows[i]];
      options := AddRow(options, rows[..i], rows[i], skipNull);
      i := i + 1;
    }
    assert rows[..i] == rows;
    DescribesOptions(options, rows, skipNull);
  }

  /** The inner loop: every field of one more row added to its option list. */
  method AddRow(options: OptionMap, seen: seq<Row>, row: Row, skipNull: bool) returns (updated: OptionMap)
    requires Describes(options, seen, skipNull)
    ensures Describes(updated, seen + [row], skipNull)
  {
    updated := options;
    var todo := row.Keys;
    ghost var done: set<string> := {};
    while todo != {}
      invariant todo <= row.Keys && done == row.Keys - todo
      invariant forall k :: k in updated <==> k in options || k in done
      invariant forall k :: k in updated && k !in done ==> updated[k] == options[k]
      invariant forall k :: k in done ==> updated[k] == Add(Known(options, k), row[k], skipNull)
      decreases |todo|
    {
      var key :| key in todo;
      var values := if key in updated then updated[key] else [];
      if !(skipNull && row[key] == Null) && row[key] !in values {
        values := values + [row[key]];
      }
      assert values == Add(Known(options, key), row[key], skipNull);
      updated := updated[key := values];
      todo := todo - {key};
      done := done + {key};
    }
    AddRowDescribes(options, updated, seen, row, skipNull);
  }

  /** The list a field already has, or none yet. */
  function Known(options: OptionMap, k: string): seq<Value> {
    if k in options then options[k] else []
  }

  /** One value put into a field's set: skipped nulls and values already there change nothing. */
  function Add(values: seq<Value>, v: Value, skipNull: bool): seq<Value> {
    if !(skipNull && v == Null) && v !in values then values + [v] else values
  }

  /** The option lists after the inner loop describe the rows seen so far plus the new one. */
  lemma AddRowDescribes(options: OptionMap, updated: OptionMap, seen: seq<Row>, row: Row, skipNull: bool)
    requires Describes(options, seen, skipNull)
    requires forall k :: k in updated <==> k in options || k in row
    requires forall k :: k in updated && k !in row ==> updated[k] == options[k]
    requires forall k :: k in row ==> updated[k] == Add(Known(options, k), row[k], skipNull)
    ensures Describes(updated, seen + [row], skipNull)
  {
    var next := seen + [row];
    assert next[..|seen|] == seen;
    assert KeysOf(next) == KeysOf(seen) + row.Keys;
    forall k | k in updated
      ensures updated[k] == Distinct(Column(next, k, skipNull))
    {
      var col := Column(seen, k, skipNull);
      if k !in options {
        ColumnOfAbsentKey(seen, k, skipNull);
      }
      assert Known(options, k) == Distinct(col);
      if k in row && !(skipNull && row[k] == Null) {
        assert Column(next, k, skipNull) == col + [row[k]];
        assert (col + [row[k]])[..|col|] == col;
      } else {
        assert Column(next, k, skipNull) == col;
      }
    }
  }

  /** A field that occurs in no row has no values. */
  lemma {:induction false} ColumnOfAbsentKey(rows: seq<Row>, key: string, skipNull: bool)
    requires key !in KeysOf(rows)
    ensures Column(rows, key, skipNull) == []
  {
    if |rows| > 0 {
      ColumnOfAbsentKey(rows[..|rows| - 1], key, skipNull);
    }
  }

  // ------------------------------------------------------------------ what the option lists promise

  /** A value is in a field's column exactly when some row has that field with that value (and it is not a skipped null). */
  lemma {:induction false} ColumnMembers(rows: seq<Row>, key: string, skipNull: bool, v: Value)
    ensures v in Column(rows, key, skipNull) <==>
      (exists i :: 0 <= i < |rows| && key in rows[i] && rows[i][key] == v) && !(skipNull && v == Null)
  {
    if |rows| > 0 {
      var n := |rows| - 1;
      ColumnMembers(rows[..n], key, skipNull, v);
      assert forall j :: 0 <= j < n ==> rows[..n][j] == rows[j];
      if key in rows[n] && rows[n][key] == v && !(skipNull && v == Null) {
        assert v in Column(rows, key, skipNull) by {
          var col := Column(rows[..n], key, skipNull) + [rows[n][key]];
          assert col[|col| - 1] == v;
        }
      }
    }
  }

  /** There is an option list for exactly the field names that occur in the rows. */
  lemma OptionsCoverKeys(rows: seq<Row>, skipNull: bool, key: string)
    ensures key in Options(rows, skipNull) <==> exists i :: 0 <= i < |rows| && key in rows[i]
  {
    KeysOfMembers(rows, key);
  }

  lemma {:induction false} KeysOfMembers(rows: seq<Row>, key: string)
    ensures key in KeysOf(rows) <==> exists i :: 0 <= i < |rows| && key in rows[i]
  {
    if |rows| > 0 {
      var n := |rows| - 1;
      KeysOfMembers(rows[..n], key);
      assert forall j :: 0 <= j < n ==> rows[..n][j] == rows[j];
    }
  }

  /**
   * A field's option list holds exactly the values that field takes in some row, except that a
   * page that skips nulls never lists null.
   */
  lemma OptionsListValues(rows: seq<Row>, skipNull: bool, key: string, v: Value)
    requires key in Options(rows, skipNull)
    ensures v in Options(rows, skipNull)[key] <==>
      (exists i :: 0 <= i < |rows| && key in rows[i] && rows[i][key] == v) && !(skipNull && v == Null)
  {
    ColumnMembers(rows, key, skipNull, v);
    DistinctElements(Column(rows, key, skipNull));
  }

  /** Option lists hold each value once. */
  lemma OptionsNoDuplicates(rows: seq<Row>, skipNull: bool, key: string, i: int, j: int)
    requires key in Options(rows, skipNull)
    requires 0 <= i < j < |Options(rows, skipNull)[key]|
    ensures Options(rows, skipNull)[key][i] != Options(rows, skipNull)[key][j]
  {
    DistinctElements(Column(rows, key, skipNull));
  }

  /** `Distinct` lists values in the order of their first occurrence. */
  lemma {:induction false} DistinctFirstSeen(vs: seq<Value>, i: int, j: int)
    requires 0 <= i < j < |Distinct(vs)|
    ensures FirstIndex(vs, Distinct(vs)[i]) < FirstIndex(vs, Distinct(vs)[j])
  {
    var n := |vs| - 1;
    var init := vs[..n];
    var prefix := Distinct(init);
    DistinctElements(init);
    DistinctElements(vs);
    if j < |prefix| {
      DistinctFirstSeen(init, i, j);
      FirstIndexOfPrefix(vs, n, prefix[i]);
      FirstIndexOfPrefix(vs, n, prefix[j]);
    } else {
      assert Distinct(vs)[j] == vs[n] && vs[n] !in init;
      FirstIndexOfPrefix(vs, n, prefix[i]);
    }
  }

  /** A value met within the first `n` elements is first met at the same place in the whole sequence. */
  lemma FirstIndexOfPrefix(vs: seq<Value>, n: int, v: Value)
    requires 0 <= n <= |vs| && v in vs[..n]
    ensures FirstIndex(vs, v) == FirstIndex(vs[..n], v) < n
  {
    var k := FirstIndex(vs[..n], v);
    var m := FirstIndex(vs, v);
    assert vs[..n][..k] == vs[..k];
    assert forall x :: 0 <= x < k ==> vs[..k][x] == vs[x];
    assert forall x :: 0 <= x < m ==> vs[..m][x] == vs[x];
  }

  /** Each field's options are in the order their values first occur down the rows. */
  lemma OptionsFirstSeen(rows: seq<Row>, skipNull: bool, key: string, i: int, j: int)
    requires key in Options(rows, skipNull)
    requires 0 <= i < j < |Options(rows, skipNull)[key]|
    ensures var column := Column(rows, key, skipNull);
      FirstIndex(column, Options(rows, skipNull)[key][i]) < FirstIndex(column, Options(rows, skipNull)[key][j])
  {
    DistinctFirstSeen(Column(rows, key, skipNull), i, j);
  }
}
