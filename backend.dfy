/**
 * The dashboard's API over its two tables: column filters for the list endpoints, the pending
 * selection, and the paged Nikeeta lookup of unassigned responses.  A table is a set of column
 * names and a sequence of records; pandas raises KeyError on a missing column and to_datetime
 * raises on text it cannot read, and both surface as `Raised`.
 */
module Backend {
  import opened Api

  /** A pandas timestamp: an instant (milliseconds since the epoch, UTC) or NaT. */
  datatype Moment = At(t: int) | NaT

  /** A table cell: a plain scalar, or a timestamp in a column converted by to_datetime. */
  datatype Cell = Plain(v: Value) | Time(m: Moment)

  type Record = map<string, Cell>

  datatype Frame = Frame(columns: set<string>, rows: seq<Record>)

  datatype Fault = MissingColumn(column: string) | BadDate(text: Value)

  datatype Outcome<+T> = Done(value: T) | Raised(fault: Fault) {
    predicate IsFailure() { Raised? }

    function PropagateFailure<U>(): Outcome<U>
      requires Raised?
    {
      Raised(fault)
    }

    function Extract(): T
      requires Done?
    {
      value
    }
  }

  /** A filter value as posted: one scalar (None included) or a list. */
  datatype RawFilter = Single(v: Value) | Many(vs: seq<Value>)

  /** `pd.to_datetime(v, utc=True)`: the timestamp it denotes, or None where it raises. */
  type Parser = Value -> Option<Moment>

  const StatusColumn := "task_status"
  const FeedbackColumn := "feedback"
  const DeadlineColumn := "deadline"
  const EmailColumn := "email_datetime_est"
  const DayMs := 24 * 60 * 60 * 1000

  predicate IsDateColumn(col: string) {
    col == DeadlineColumn || col == EmailColumn
  }

  /** The cell a record holds for a column (records of a frame hold every column). */
  function CellOf(row: Record, col: string): Cell {
    if col in row then row[col] else Plain(Null)
  }

  /** `isna()`: None in an object column, NaT in a datetime column. */
  predicate IsNa(c: Cell) {
    c == Plain(Null) || c == Time(NaT)
  }

  /** The timestamp a cell holds when compared with one; anything else compares like NaT. */
  function MomentOf(c: Cell): Moment {
    if c.Time? then c.m else NaT
  }

  /** `a <= b` on timestamps: false whenever either side is NaT. */
  predicate NotAfter(a: Moment, b: Moment) {
    a.At? && b.At? && a.t <= b.t
  }

  /** `a` is `b` with some elements left out, the rest in their order. */
  predicate IsSubsequence<T(==)>(a: seq<T>, b: seq<T>)
    decreases |b|
  {
    |a| == 0 || (|b| > 0 && ((a[0] == b[0] && IsSubsequence(a[1..], b[1..])) || IsSubsequence(a, b[1..])))
  }

  // ------------------------------------------------------------------ list normalisation

  predicate Kept(v: Value) {
    v != Null && v != Str("")
  }

  /** The values of a list other than "" and None, in their order. */
  function Clean(vs: seq<Value>): (r: seq<Value>)
    ensures IsSubsequence(r, vs)
    ensures forall v :: v in r <==> v in vs && Kept(v)
  {
    if |vs| == 0 then []
    else
      var rest := Clean(vs[1..]);
      if Kept(vs[0]) then
        assert ([vs[0]] + rest)[1..] == rest;
        [vs[0]] + rest
      else rest
  }

  /** `_normalize_list`: None is no values, a scalar is a one-element list, and "" and None are dropped. */
  function NormalizeList(raw: RawFilter): (r: seq<Value>)
    ensures raw == Single(Null) ==> r == []
    ensures raw.Single? && raw.v != Null ==> r == Clean([raw.v])
    ensures raw.Many? ==> r == Clean(raw.vs)
    ensures forall v :: v in r ==> Kept(v)
  {
    match raw
    case Single(v) => if v == Null then [] else Clean([v])
    case Many(vs) => Clean(vs)
  }

  /** Cleaning a list is cleaning its parts: nothing but "" and None is dropped and the order is kept. */
  lemma {:induction false} CleanAppend(a: seq<Value>, b: seq<Value>)
    ensures Clean(a + b) == Clean(a) + Clean(b)
  {
    if |a| > 0 {
      var ab := a + b;
      assert ab[0] == a[0];
      assert ab[1..] == a[1..] + b;
      CleanAppend(a[1..], b);
      if Kept(a[0]) {
        calc {
          Clean(ab);
          [a[0]] + Clean(a[1..] + b);
          [a[0]] + (Clean(a[1..]) + Clean(b));
          ([a[0]] + Clean(a[1..])) + Clean(b);
        }
      }
    } else {
      assert a + b == b;
    }
  }

  // ------------------------------------------------------------------ the date coercion of load_data

  /** `pd.to_datetime(cell, errors="coerce")`: timestamps stay, text it cannot read becomes NaT. */
  function CoerceCell(parse: Parser, c: Cell): (d: Cell)
    ensures d.Time?
    ensures c.Time? ==> d == c
    ensures c.Plain? && c.v != Null && parse(c.v).Some? ==> d == Time(parse(c.v).value)
    ensures c.Plain? && (c.v == Null || parse(c.v).None?) ==> d == Time(NaT)
  {
    match c
    case Time(_) => c
    case Plain(v) =>
      if v == Null then Time(NaT)
      else match parse(v)
        case Some(m) => Time(m)
        case None => Time(NaT)
  }

  /** One record with its cell in `col`, if it has one, converted. */
  function CoerceRow(row: Record, col: string, parse: Parser): (r: Record)
    ensures r.Keys == row.Keys
    ensures forall k :: k in row ==> r[k] == if k == col then CoerceCell(parse, row[k]) else row[k]
  {
    if col in row then row[col := CoerceCell(parse, row[col])] else row
  }

  /** The column `col` of every record converted to timestamps; every other cell stays. */
  function CoerceColumn(rows: seq<Record>, col: string, parse: Parser): (r: seq<Record>)
    ensures |r| == |rows|
    ensures forall i :: 0 <= i < |rows| ==> r[i].Keys == rows[i].Keys
    ensures forall i, k :: 0 <= i < |rows| && k in rows[i] ==>
      r[i][k] == if k == col then CoerceCell(parse, rows[i][k]) else rows[i][k]
  {
    seq(|rows|, i requires 0 <= i < |rows| => CoerceRow(rows[i], col, parse))
  }

  /** `load_data`'s last step: both date columns, where present, converted with errors coerced to NaT. */
  function LoadDates(frame: Frame, parse: Parser): (loaded: Frame)
    ensures loaded.columns == frame.columns && |loaded.rows| == |frame.rows|
    ensures forall i :: 0 <= i < |frame.rows| ==> loaded.rows[i].Keys == frame.rows[i].Keys
    ensures forall i, k :: 0 <= i < |frame.rows| && k in frame.rows[i] ==>
      loaded.rows[i][k] == if IsDateColumn(k) && k in frame.columns then CoerceCell(parse, frame.rows[i][k]) else frame.rows[i][k]
  {
    var once := if DeadlineColumn in frame.columns then CoerceColumn(frame.rows, DeadlineColumn, parse) else frame.rows;
    Frame(frame.columns, if EmailColumn in frame.columns then CoerceColumn(once, EmailColumn, parse) else once)
  }

  /** Converting a column changes no other column. */
  lemma CoerceKeepsOtherCells(row: Record, col: string, parse: Parser, other: string)
    requires other != col
    ensures CellOf(CoerceRow(row, col, parse), other) == CellOf(row, other)
  {
  }

  /** Converting an already converted column again changes nothing. */
  lemma CoerceIdempotent(rows: seq<Record>, col: string, parse: Parser)
    ensures CoerceColumn(CoerceColumn(rows, col, parse), col, parse) == CoerceColumn(rows, col, parse)
  {
    var once := CoerceColumn(rows, col, parse);
    forall i | 0 <= i < |rows|
      ensures CoerceRow(once[i], col, parse) == once[i]
    {
      if col in rows[i] {
        assert once[i][col] == CoerceCell(parse, rows[i][col]);
        assert once[i][col := once[i][col]] == once[i];
      }
    }
  }

  // ------------------------------------------------------------------ row tests

  /** One boolean mask over a frame's records. */
  datatype Test =
    | Between(col: string, lo: Moment, hi: Moment)
    | OnDate(col: string, at: Moment)
    | AnyOf(col: string, values: seq<Value>)
    | From(col: string, lo: Moment)
    | Until(col: string, hi: Moment)
    | Unassigned
    | Pending

  predicate Passes(test: Test, row: Record) {
    match test
    case Between(col, lo, hi) => NotAfter(lo, MomentOf(CellOf(row, col))) && NotAfter(MomentOf(CellOf(row, col)), hi)
    case OnDate(col, at) => var m := MomentOf(CellOf(row, col)); m.At? && at.At? && m.t == at.t
    case AnyOf(col, values) => var c := CellOf(row, col); c.Plain? && c.v in values
    case From(col, lo) => NotAfter(lo, MomentOf(CellOf(row, col)))
    case Until(col, hi) => NotAfter(MomentOf(CellOf(row, col)), hi)
    case Unassigned =>
      var status := CellOf(row, StatusColumn);
      IsNa(status) || status == Plain(Str(""))
    case Pending =>
      var status := CellOf(row, StatusColumn);
      (IsNa(status) || IsNa(CellOf(row, FeedbackColumn))) && status != Plain(Str("completed"))
  }

  predicate PassesAll(tests: seq<Test>, row: Record) {
    forall i :: 0 <= i < |tests| ==> Passes(tests[i], row)
  }

  /** `df[mask & ...]`: the records that pass every test, in their order. */
  function Keep(rows: seq<Record>, tests: seq<Test>): (r: seq<Record>)
    ensures IsSubsequence(r, rows)
  {
    if |rows| == 0 then []
    else
      var rest := Keep(rows[1..], tests);
      if PassesAll(tests, rows[0]) then
        assert ([rows[0]] + rest)[1..] == rest;
        [rows[0]] + rest
      else rest
  }

  /** A record survives the mask exactly when it was there and passes every test. */
  lemma {:induction false} KeepMember(rows: seq<Record>, tests: seq<Test>, row: Record)
    ensures row in Keep(rows, tests) <==> row in rows && PassesAll(tests, row)
  {
    if |rows| > 0 {
      KeepMember(rows[1..], tests, row);
      assert rows == [rows[0]] + rows[1..];
    }
  }

  lemma PassesAllConcat(a: seq<Test>, b: seq<Test>, row: Record)
    ensures PassesAll(a + b, row) <==> PassesAll(a, row) && PassesAll(b, row)
  {
    if PassesAll(a, row) && PassesAll(b, row) {
      forall i | 0 <= i < |a + b|
        ensures Passes((a + b)[i], row)
      {
        if i >= |a| {
          assert (a + b)[i] == b[i - |a|];
        }
      }
    }
    if PassesAll(a + b, row) {
      forall i | 0 <= i < |a|
        ensures Passes(a[i], row)
      {
        assert (a + b)[i] == a[i];
      }
      forall i | 0 <= i < |b|
        ensures Passes(b[i], row)
      {
        assert (a + b)[|a| + i] == b[i];
      }
    }
  }

  /** Masking twice is masking once with both sets of tests. */
  lemma {:induction false} KeepKeep(rows: seq<Record>, a: seq<Test>, b: seq<Test>)
    ensures Keep(Keep(rows, a), b) == Keep(rows, a + b)
  {
    if |rows| > 0 {
      PassesAllConcat(a, b, rows[0]);
      KeepKeep(rows[1..], a, b);
      var rest := Keep(rows[1..], a);
      if PassesAll(a, rows[0]) {
        var once := [rows[0]] + rest;
        assert once[0] == rows[0] && once[1..] == rest;
      }
    }
  }

  /** No tests keep every record. */
  lemma {:induction false} KeepNone(rows: seq<Record>)
    ensures Keep(rows, []) == rows
  {
    if |rows| > 0 {
      KeepNone(rows[1..]);
      assert rows == [rows[0]] + rows[1..];
    }
  }

  /** A single record is kept exactly when it passes. */
  lemma KeepSingle(row: Record, tests: seq<Test>)
    ensures Keep([row], tests) == if PassesAll(tests, row) then [row] else []
  {
    assert [row][1..] == [];
  }

  /** The mask works record by record: masking a concatenation is concatenating the masked parts. */
  lemma {:induction false} KeepAppend(a: seq<Record>, b: seq<Record>, tests: seq<Test>)
    ensures Keep(a + b, tests) == Keep(a, tests) + Keep(b, tests)
  {
    if |a| == 0 {
      assert a + b == b;
    } else {
      var ab := a + b;
      assert ab[0] == a[0];
      assert ab[1..] == a[1..] + b;
      KeepAppend(a[1..], b, tests);
      if PassesAll(tests, a[0]) {
        calc {
          Keep(ab, tests);
          [a[0]] + Keep(a[1..] + b, tests);
          [a[0]] + (Keep(a[1..], tests) + Keep(b, tests));
          ([a[0]] + Keep(a[1..], tests)) + Keep(b, tests);
        }
      }
    }
  }

  /** Every copy of a passing record is kept, and no copy of a failing one. */
  lemma {:induction false} KeepCount(rows: seq<Record>, tests: seq<Test>, row: Record)
    ensures multiset(Keep(rows, tests))[row] == if PassesAll(tests, row) then multiset(rows)[row] else 0
  {
    if |rows| > 0 {
      KeepCount(rows[1..], tests, row);
      assert rows == [rows[0]] + rows[1..];
    }
  }

  // ------------------------------------------------------------------ apply_filters

  function ParseDate(parse: Parser, v: Value): Outcome<Moment> {
    match parse(v)
    case Some(m) => Done(m)
    case None => Raised(BadDate(v))
  }

  /** The test of a date column: an inclusive range from the first two values, or an exact match on the only one. */
  function DateTest(columns: set<string>, col: string, values: seq<Value>, parse: Parser): (r: Outcome<Option<Test>>)
    requires |values| > 0
    ensures r.Done? ==> col in columns && r.value.Some?
  {
    if |values| >= 2 then
      var lo :- ParseDate(parse, values[0]);
      var hi :- ParseDate(parse, values[1]);
      if col !in columns then Raised(MissingColumn(col)) else Done(Some(Between(col, lo, hi)))
    else
      var at :- ParseDate(parse, values[0]);
      if col !in columns then Raised(MissingColumn(col)) else Done(Some(OnDate(col, at)))
  }

  /**
   * One `(col, raw_value)` item of the filters: no test when its list is empty; on a date column
   * the date test; otherwise membership in the list.  Values are parsed before the column is
   * looked up.
   */
  function Compile(columns: set<string>, item: (string, RawFilter), parse: Parser): (r: Outcome<Option<Test>>)
    ensures |NormalizeList(item.1)| == 0 <==> r == Done(None)
    ensures r.Done? && r.value.Some? ==> item.0 in columns
    ensures item.0 !in columns && |NormalizeList(item.1)| > 0 && !IsDateColumn(item.0) ==> r == Raised(MissingColumn(item.0))
  {
    var (col, raw) := item;
    var values := NormalizeList(raw);
    if |values| == 0 then Done(None)
    else if IsDateColumn(col) then DateTest(columns, col, values, parse)
    else if col !in columns then Raised(MissingColumn(col))
    else Done(Some(AnyOf(col, values)))
  }

  function OptionList(t: Option<Test>): seq<Test> {
    if t.Some? then [t.value] else []
  }

  /** Each item compiled on its own. */
  function Outcomes(columns: set<string>, filters: seq<(string, RawFilter)>, parse: Parser): (outs: seq<Outcome<Option<Test>>>)
    ensures |outs| == |filters|
  {
    seq(|filters|, i requires 0 <= i < |filters| => Compile(columns, filters[i], parse))
  }

  /** The tests of the items in order, or the fault of the first item that raised. */
  function Gather(outs: seq<Outcome<Option<Test>>>): Outcome<seq<Test>> {
    if |outs| == 0 then Done([])
    else
      var tests :- Gather(outs[..|outs| - 1]);
      var t :- outs[|outs| - 1];
      Done(tests + OptionList(t))
  }

  /** The tests of all filter items in order, or the first fault raised. */
  function CompileAll(columns: set<string>, filters: seq<(string, RawFilter)>, parse: Parser): Outcome<seq<Test>> {
    Gather(Outcomes(columns, filters, parse))
  }

  /** A record satisfies one compiled item (an empty item admits everything). */
  predicate Admits(out: Outcome<Option<Test>>, row: Record) {
    out.Done? && (out.value.Some? ==> Passes(out.value.value, row))
  }

  /** Every filter item admits the record. */
  predicate AdmitsAll(columns: set<string>, filters: seq<(string, RawFilter)>, parse: Parser, row: Record) {
    var outs := Outcomes(columns, filters, parse);
    forall i :: 0 <= i < |outs| ==> Admits(outs[i], row)
  }

  /** Gathering succeeds exactly when every single item compiled. */
  lemma {:induction false} GatherSucceeds(outs: seq<Outcome<Option<Test>>>)
    ensures Gather(outs).Done? <==> forall i :: 0 <= i < |outs| ==> outs[i].Done?
  {
    if |outs| > 0 {
      var n := |outs| - 1;
      GatherSucceeds(outs[..n]);
      assert forall i :: 0 <= i < n ==> outs[..n][i] == outs[i];
    }
  }

  /** A failure is the fault of the first item that raised; the items before it all compiled. */
  lemma {:induction false} GatherFirstFault(outs: seq<Outcome<Option<Test>>>)
    requires Gather(outs).Raised?
    ensures exists i :: 0 <= i < |outs| && outs[i] == Raised(Gather(outs).fault) && forall j :: 0 <= j < i ==> outs[j].Done?
  {
    var n := |outs| - 1;
    var init := outs[..n];
    assert forall i :: 0 <= i < n ==> init[i] == outs[i];
    if Gather(init).Raised? {
      GatherFirstFault(init);
    } else {
      GatherSucceeds(init);
    }
  }

  /** The items combine as a conjunction: a record passes the gathered tests exactly when every item admits it. */
  lemma {:induction false} GatherConjunction(outs: seq<Outcome<Option<Test>>>, row: Record)
    requires Gather(outs).Done?
    ensures PassesAll(Gather(outs).value, row) <==> forall i :: 0 <= i < |outs| ==> Admits(outs[i], row)
  {
    if |outs| > 0 {
      var n := |outs| - 1;
      var init := outs[..n];
      GatherConjunction(init, row);
      assert forall i :: 0 <= i < n ==> init[i] == outs[i];
      PassesAllConcat(Gather(init).value, OptionList(outs[n].value), row);
      if outs[n].value.Some? {
        assert OptionList(outs[n].value)[0] == outs[n].value.value;
      }
    }
  }

  /** Gathering one more item: its fault, or its test appended. */
  lemma GatherStep(outs: seq<Outcome<Option<Test>>>, i: nat, tests: seq<Test>)
    requires i < |outs| && Gather(outs[..i]) == Done(tests)
    ensures outs[i].Raised? ==> Gather(outs[..i + 1]) == Raised(outs[i].fault)
    ensures outs[i].Done? ==> Gather(outs[..i + 1]) == Done(tests + OptionList(outs[i].value))
  {
    assert outs[..i + 1][..i] == outs[..i];
  }

  /** Once a prefix of the items raised, so does the whole list, with the same fault. */
  lemma {:induction false} GatherStops(outs: seq<Outcome<Option<Test>>>, k: nat)
    requires k <= |outs| && Gather(outs[..k]).Raised?
    ensures Gather(outs) == Gather(outs[..k])
    decreases |outs| - k
  {
    if k < |outs| {
      assert outs[..k + 1][..k] == outs[..k];
      GatherStops(outs, k + 1);
    } else {
      assert outs[..k] == outs;
    }
  }

  /** Compiling the filters succeeds exactly when every item compiles, and otherwise fails with the first item's fault. */
  lemma CompileAllMeaning(columns: set<string>, filters: seq<(string, RawFilter)>, parse: Parser)
    ensures CompileAll(columns, filters, parse).Done? <==>
      forall i :: 0 <= i < |filters| ==> Outcomes(columns, filters, parse)[i].Done?
    ensures CompileAll(columns, filters, parse).Raised? ==>
      exists i :: 0 <= i < |filters| && Compile(columns, filters[i], parse) == Raised(CompileAll(columns, filters, parse).fault)
    ensures forall row :: CompileAll(columns, filters, parse).Done? ==>
      (PassesAll(CompileAll(columns, filters, parse).value, row) <==> AdmitsAll(columns, filters, parse, row))
  {
    var outs := Outcomes(columns, filters, parse);
    GatherSucceeds(outs);
    if Gather(outs).Raised? {
      GatherFirstFault(outs);
    }
    forall row | Gather(outs).Done?
      ensures PassesAll(Gather(outs).value, row) <==> AdmitsAll(columns, filters, parse, row)
    {
      GatherConjunction(outs, row);
    }
  }

  /** What `apply_filters(df, filters)` returns: the frame masked by every item's test. */
  function FilterFrame(frame: Frame, filters: seq<(string, RawFilter)>, parse: Parser): (r: Outcome<Frame>)
    ensures r.Done? <==> CompileAll(frame.columns, filters, parse).Done?
    ensures r.Raised? ==> r.fault == CompileAll(frame.columns, filters, parse).fault
    ensures r.Done? ==> r.value.columns == frame.columns && IsSubsequence(r.value.rows, frame.rows)
  {
    var tests :- CompileAll(frame.columns, filters, parse);
    Done(Frame(frame.columns, Keep(frame.rows, tests)))
  }

  /** A filtered frame keeps the columns and exactly the records every item admits, in their order. */
  lemma FilterFrameRows(frame: Frame, filters: seq<(string, RawFilter)>, parse: Parser)
    requires FilterFrame(frame, filters, parse).Done?
    ensures var out := FilterFrame(frame, filters, parse).value;
      && out.columns == frame.columns
      && IsSubsequence(out.rows, frame.rows)
      && forall row :: row in out.rows <==> row in frame.rows && AdmitsAll(frame.columns, filters, parse, row)
  {
    var tests := CompileAll(frame.columns, filters, parse).value;
    forall row
      ensures row in Keep(frame.rows, tests) <==> row in frame.rows && AdmitsAll(frame.columns, filters, parse, row)
    {
      GatherConjunction(Outcomes(frame.columns, filters, parse), row);
      KeepMember(frame.rows, tests, row);
    }
  }

  /** `apply_filters`: the items in order, each narrowing the copy of the frame. */
  method ApplyFilters(frame: Frame, filters: seq<(string, RawFilter)>, parse: Parser) returns (r: Outcome<Frame>)
    ensures r == FilterFrame(frame, filters, parse)
  {
    ghost var outs := Outcomes(frame.columns, filters, parse);
    var filtered := frame.rows;
    ghost var tests: seq<Test> := [];
    KeepNone(frame.rows);
    var i := 0;
    while i < |filters|
      invariant 0 <= i <= |filters|
      invariant Gather(outs[..i]) == Done(tests)
      invariant filtered == Keep(frame.rows, tests)
    {
      var compiled := Compile(frame.columns, filters[i], parse);
      assert outs[i] == compiled;
      GatherStep(outs, i, tests);
      if compiled.Raised? {
        GatherStops(outs, i + 1);
        return Raised(compiled.fault);
      }
      if compiled.value.Some? {
        KeepKeep(frame.rows, tests, [compiled.value.value]);
        filtered := Keep(filtered, [compiled.value.value]);
      } else {
        assert tests + OptionList(compiled.value) == tests;
      }
      tests := tests + OptionList(compiled.value);
      i := i + 1;
    }
    assert outs[..i] == outs;
    r := Done(Frame(frame.columns, filtered));
  }

  /** With two or more values, a date range uses the first two and ignores the rest. */
  lemma ExtraDatesIgnored(columns: set<string>, col: string, vs: seq<Value>, extra: seq<Value>, parse: Parser)
    requires IsDateColumn(col) && |Clean(vs)| >= 2
    ensures Compile(columns, (col, Many(vs + extra)), parse) == Compile(columns, (col, Many(vs)), parse)
  {
    CleanAppend(vs, extra);
  }

  /** A date range is inclusive at both ends, and a record whose date is NaT is never in it. */
  lemma DateRangeInclusive(columns: set<string>, col: string, vs: seq<Value>, parse: Parser, lo: int, hi: int, row: Record)
    requires IsDateColumn(col) && col in columns && |Clean(vs)| >= 2
    requires parse(Clean(vs)[0]) == Some(At(lo)) && parse(Clean(vs)[1]) == Some(At(hi))
    ensures Compile(columns, (col, Many(vs)), parse).Done?
    ensures Admits(Compile(columns, (col, Many(vs)), parse), row) <==>
      CellOf(row, col).Time? && CellOf(row, col).m.At? && lo <= CellOf(row, col).m.t <= hi
  {
  }

  /** With one value, a date column keeps the records whose date is exactly that instant. */
  lemma DateExactMatch(columns: set<string>, col: string, raw: RawFilter, v: Value, parse: Parser, at: int, row: Record)
    requires IsDateColumn(col) && col in columns && NormalizeList(raw) == [v]
    requires parse(v) == Some(At(at))
    ensures Compile(columns, (col, raw), parse) == Done(Some(OnDate(col, At(at))))
    ensures Admits(Compile(columns, (col, raw), parse), row) <==>
      CellOf(row, col).Time? && CellOf(row, col).m == At(at)
  {
    assert DateTest(columns, col, [v], parse) == Done(Some(OnDate(col, At(at))));
  }

  /** A list with one date and an empty input, as the date picker posts it, is the one-date filter. */
  lemma OneDateAndBlank(d: string)
    requires d != ""
    ensures NormalizeList(Many([Str(d), Str("")])) == [Str(d)]
  {
    var vs := [Str(d), Str("")];
    assert vs[1..] == [Str("")] && vs[1..][1..] == [];
    assert Clean(vs[1..]) == [];
    assert Kept(vs[0]);
    assert Clean(vs) == [Str(d)] + [];
  }

  /** On any other column a record is kept when its cell holds one of the listed values other than "" and None. */
  lemma ValueInList(columns: set<string>, col: string, raw: RawFilter, values: seq<Value>, parse: Parser, row: Record)
    requires !IsDateColumn(col) && col in columns && NormalizeList(raw) == values && |values| > 0
    ensures Compile(columns, (col, raw), parse) == Done(Some(AnyOf(col, values)))
    ensures Admits(Compile(columns, (col, raw), parse), row) <==>
      CellOf(row, col).Plain? && CellOf(row, col).v in values
    ensures raw.Many? ==> (Admits(Compile(columns, (col, raw), parse), row) <==>
      CellOf(row, col).Plain? && CellOf(row, col).v in raw.vs && Kept(CellOf(row, col).v))
  {
    assert Compile(columns, (col, raw), parse) == Done(Some(AnyOf(col, values)));
  }

  // ------------------------------------------------------------------ /pending

  /** `pending`: the records with no status or no feedback and not completed, then the filters. */
  method PendingResponses(frame: Frame, filters: seq<(string, RawFilter)>, parse: Parser) returns (r: Outcome<Frame>)
    ensures StatusColumn !in frame.columns ==> r == Raised(MissingColumn(StatusColumn))
    ensures StatusColumn in frame.columns && FeedbackColumn !in frame.columns ==> r == Raised(MissingColumn(FeedbackColumn))
    ensures StatusColumn in frame.columns && FeedbackColumn in frame.columns ==>
      r == FilterFrame(Frame(frame.columns, Keep(frame.rows, [Pending])), filters, parse)
    ensures r.Done? ==> IsSubsequence(r.value.rows, Keep(frame.rows, [Pending]))
    ensures r.Done? ==> forall row :: row in r.value.rows <==>
      row in frame.rows && Passes(Pending, row) && AdmitsAll(frame.columns, filters, parse, row)
  {
    if StatusColumn !in frame.columns {
      return Raised(MissingColumn(StatusColumn));
    }
    if FeedbackColumn !in frame.columns {
      return Raised(MissingColumn(FeedbackColumn));
    }
    var pending := Frame(frame.columns, Keep(frame.rows, [Pending]));
    r := ApplyFilters(pending, filters, parse);
    if r.Done? {
      FilterFrameRows(pending, filters, parse);
      forall row
        ensures row in r.value.rows <==>
          row in frame.rows && Passes(Pending, row) && AdmitsAll(frame.columns, filters, parse, row)
      {
        KeepMember(frame.rows, [Pending], row);
        assert PassesAll([Pending], row) <==> Passes(Pending, row) by {
          assert [Pending][0] == Pending;
        }
      }
    }
  }

  // ------------------------------------------------------------------ /nikeeta-lookup

  /** The body of the lookup answer. */
  datatype LookupResponse = LookupResponse(data: seq<Record>, total: int, page: int, pageSize: int)

  /** `NikeetaRequest()` with every field at its default. */
  const DefaultRequest := LookupQuery(None, None, 1, 50)

  /** A date field that Python treats as true: present and not empty. */
  predicate Given(d: Option<string>) {
    d.Some? && d.value != ""
  }

  /** `end + pd.Timedelta(days=1)`; NaT stays NaT. */
  function NextDay(m: Moment): (n: Moment)
    ensures m.At? <==> n.At?
    ensures m.At? ==> n.t - m.t == DayMs
  {
    if m.At? then At(m.t + DayMs) else NaT
  }

  /** Python's index clamping for a slice bound on a sequence of length `n`. */
  function Clamp(i: int, n: nat): (k: nat)
    ensures k <= n
    ensures 0 <= i <= n ==> k == i
  {
    if i < 0 then (if n + i < 0 then 0 else n + i) else if i > n then n else i
  }

  /** `s[i:j]` with Python's rules for negative and out-of-range bounds. */
  function PySlice<T>(s: seq<T>, i: int, j: int): (r: seq<T>)
    ensures forall x :: x in r ==> x in s
  {
    var a, b := Clamp(i, |s|), Clamp(j, |s|);
    if a < b then s[a..b] else []
  }

  /** `iloc[(page - 1) * page_size : (page - 1) * page_size + page_size]`. */
  function Paginate<T>(rows: seq<T>, page: int, size: int): (r: seq<T>)
    ensures size >= 0 ==> |r| <= size
    ensures forall x :: x in r ==> x in rows
  {
    var start := (page - 1) * size;
    PySlice(rows, start, start + size)
  }

  /** The lower date bound, when a start date is given. */
  function StartBound(req: LookupQuery, parse: Parser): Outcome<seq<Test>> {
    if Given(req.startDate) then
      var start :- ParseDate(parse, Str(req.startDate.value));
      Done([From(EmailColumn, start)])
    else Done([])
  }

  /** The upper date bound, one day past the end date, when an end date is given. */
  function EndBound(req: LookupQuery, parse: Parser): Outcome<seq<Test>> {
    if Given(req.endDate) then
      var end :- ParseDate(parse, Str(req.endDate.value));
      Done([Until(EmailColumn, NextDay(end))])
    else Done([])
  }

  /** The date tests of a lookup: the lower bound, then the upper one, each only when its date is given. */
  function DateBounds(req: LookupQuery, parse: Parser): Outcome<seq<Test>> {
    var lower :- StartBound(req, parse);
    var upper :- EndBound(req, parse);
    Done(lower + upper)
  }

  /**
   * The records a lookup pages through: the unassigned ones, with their email date converted and
   * narrowed by the given dates when the table has that column.
   */
  function LookupMatches(frame: Frame, req: LookupQuery, parse: Parser): (r: Outcome<seq<Record>>)
    ensures StatusColumn !in frame.columns ==> r == Raised(MissingColumn(StatusColumn))
    ensures StatusColumn in frame.columns && r.Raised? ==> EmailColumn in frame.columns && r.fault.BadDate?
    ensures StatusColumn in frame.columns && !Given(req.startDate) && !Given(req.endDate) ==> r.Done?
  {
    if StatusColumn !in frame.columns then Raised(MissingColumn(StatusColumn))
    else
      var unassigned := Keep(frame.rows, [Unassigned]);
      if EmailColumn !in frame.columns then Done(unassigned)
      else
        var bounds :- DateBounds(req, parse);
        Done(Keep(CoerceColumn(unassigned, EmailColumn, parse), bounds))
  }

  function Respond(matching: seq<Record>, req: LookupQuery): LookupResponse {
    LookupResponse(Paginate(matching, req.page, req.pageSize), |matching|, req.page, req.pageSize)
  }

  /** What `nikeeta_lookup` answers for a loaded responses table: the count of all matches and one page of them. */
  function LookupResult(frame: Frame, req: LookupQuery, parse: Parser): (r: Outcome<LookupResponse>)
    ensures r.Done? <==> LookupMatches(frame, req, parse).Done?
    ensures r.Raised? ==> r.fault == LookupMatches(frame, req, parse).fault
    ensures r.Done? ==> r.value.total == |LookupMatches(frame, req, parse).value|
    ensures r.Done? ==> r.value.data == Paginate(LookupMatches(frame, req, parse).value, req.page, req.pageSize)
  {
    var matching :- LookupMatches(frame, req, parse);
    Done(Respond(matching, req))
  }

  /** `nikeeta_lookup`: the unassigned records, narrowed by the given dates, counted, then one page cut out. */
  method NikeetaLookup(frame: Frame, req: LookupQuery, parse: Parser) returns (r: Outcome<LookupResponse>)
    ensures r == LookupResult(frame, req, parse)
  {
    if StatusColumn !in frame.columns {
      return Raised(MissingColumn(StatusColumn));
    }
    var filtered := Keep(frame.rows, [Unassigned]);
    if EmailColumn in frame.columns {
      filtered := CoerceColumn(filtered, EmailColumn, parse);
      var narrowed := NarrowByDates(filtered, req, parse);
      if narrowed.Raised? {
        return Raised(narrowed.fault);
      }
      filtered := narrowed.value;
    }
    var totalRecords := |filtered|;
    var startIdx := (req.page - 1) * req.pageSize;
    var endIdx := startIdx + req.pageSize;
    r := Done(LookupResponse(PySlice(filtered, startIdx, endIdx), totalRecords, req.page, req.pageSize));
  }

  /**
   * The date steps of `nikeeta_lookup`: keep the records from the start date on when one is given,
   * then those up to the day after the end date when one is given; a date that cannot be read raises.
   */
  method NarrowByDates(rows: seq<Record>, req: LookupQuery, parse: Parser) returns (r: Outcome<seq<Record>>)
    ensures DateBounds(req, parse).Raised? ==> r == Raised(DateBounds(req, parse).fault)
    ensures DateBounds(req, parse).Done? ==> r == Done(Keep(rows, DateBounds(req, parse).value))
  {
    var filtered := rows;
    ghost var lower: seq<Test> := [];
    KeepNone(rows);
    if Given(req.startDate) {
      var start := parse(Str(req.startDate.value));
      if start.None? {
        return Raised(BadDate(Str(req.startDate.value)));
      }
      lower := [From(EmailColumn, start.value)];
      filtered := Keep(filtered, [From(EmailColumn, start.value)]);
    }
    if Given(req.endDate) {
      var end := parse(Str(req.endDate.value));
      if end.None? {
        return Raised(BadDate(Str(req.endDate.value)));
      }
      KeepKeep(rows, lower, [Until(EmailColumn, NextDay(end.value))]);
      filtered := Keep(filtered, [Until(EmailColumn, NextDay(end.value))]);
    } else {
      assert lower + [] == lower;
    }
    r := Done(filtered);
  }

  /** A slice `[i, i + size)` never holds more than `size` elements, whatever `i` is. */
  lemma SliceBounded<T>(s: seq<T>, i: int, size: int)
    requires size >= 0
    ensures |PySlice(s, i, i + size)| <= size
  {
  }

  /** For a page from 1 on, the page is the window `[(page-1)*size, page*size)` cut at the end of the rows. */
  lemma PageWindow<T>(rows: seq<T>, page: int, size: int)
    requires page >= 1 && size >= 0
    ensures var start := (page - 1) * size;
      var lo := if start < |rows| then start else |rows|;
      var hi := if start + size < |rows| then start + size else |rows|;
      Paginate(rows, page, size) == rows[lo..hi]
  {
    var start := (page - 1) * size;
    assert start >= 0 by {
      NonNegativeProduct(page - 1, size);
    }
  }

  /**
   * Page 0, and a page size of 0, give no records. A negative page gives a window counted back
   * from the end of the rows, as Python's negative slice indices do: it ends `-page * size`
   * records before the end and is cut at the first record.
   */
  lemma NonPositivePageWindow<T>(rows: seq<T>, page: int, size: int)
    requires page <= 0 && size >= 0
    ensures page == 0 || size == 0 ==> Paginate(rows, page, size) == []
    ensures page < 0 && size > 0 ==>
      var hi := |rows| + page * size;
      var lo := hi - size;
      Paginate(rows, page, size) == if hi <= 0 then [] else rows[(if lo < 0 then 0 else lo)..hi]
  {
    var start := (page - 1) * size;
    assert start + size == page * size && start == page * size - size;
    assert page * size <= 0 by {
      NonNegativeProduct(-page, size);
    }
    if page < 0 && size > 0 {
      assert page * size <= -size by {
        NonNegativeProduct(-page - 1, size);
      }
    }
  }

  lemma NonNegativeProduct(a: int, b: int)
    requires a >= 0 && b >= 0
    ensures a * b >= 0
  {
  }

  /** Every record the lookup pages through is unassigned, and there are no more of them than records in the table. */
  lemma MatchesUnassigned(frame: Frame, req: LookupQuery, parse: Parser, row: Record)
    requires LookupMatches(frame, req, parse).Done?
    ensures row in LookupMatches(frame, req, parse).value ==> Passes(Unassigned, row)
    ensures |LookupMatches(frame, req, parse).value| <= |frame.rows|
  {
    var unassigned := Keep(frame.rows, [Unassigned]);
    assert [Unassigned][0] == Unassigned;
    SubsequenceLength(unassigned, frame.rows);
    if EmailColumn !in frame.columns {
      KeepMember(frame.rows, [Unassigned], row);
    } else {
      var coerced := CoerceColumn(unassigned, EmailColumn, parse);
      var bounds := DateBounds(req, parse).value;
      KeepMember(coerced, bounds, row);
      SubsequenceLength(Keep(coerced, bounds), coerced);
      if row in coerced {
        var i :| 0 <= i < |coerced| && coerced[i] == row;
        KeepMember(frame.rows, [Unassigned], unassigned[i]);
        CoerceKeepsOtherCells(unassigned[i], EmailColumn, parse, StatusColumn);
      }
    }
  }

  /** The lookup's answer: only unassigned records, at most a page of them, the total counted before slicing, paging echoed. */
  lemma LookupAnswer(frame: Frame, req: LookupQuery, parse: Parser)
    requires LookupResult(frame, req, parse).Done?
    ensures var resp := LookupResult(frame, req, parse).value;
      && (forall row :: row in resp.data ==> Passes(Unassigned, row))
      && (req.pageSize >= 0 ==> |resp.data| <= req.pageSize)
      && resp.total == |LookupMatches(frame, req, parse).value| <= |frame.rows|
      && resp.page == req.page && resp.pageSize == req.pageSize
  {
    var resp := LookupResult(frame, req, parse).value;
    var matching := LookupMatches(frame, req, parse).value;
    forall row | row in resp.data
      ensures Passes(Unassigned, row)
    {
      MatchesUnassigned(frame, req, parse, row);
    }
    MatchesUnassigned(frame, req, parse, map[]);
    if req.pageSize >= 0 {
      SliceBounded(matching, (req.page - 1) * req.pageSize, req.pageSize);
    }
  }

  lemma {:induction false} SubsequenceLength<T>(a: seq<T>, b: seq<T>)
    requires IsSubsequence(a, b)
    ensures |a| <= |b|
    decreases |b|
  {
    if |a| > 0 {
      if a[0] == b[0] && IsSubsequence(a[1..], b[1..]) {
        SubsequenceLength(a[1..], b[1..]);
      } else {
        SubsequenceLength(a, b[1..]);
      }
    }
  }

  /**
   * The date condition of a lookup on a record's email date: not before the start date when one is
   * given, and not after the day following the end date when one is given.  An absent bound admits
   * every date, NaT included; a given one never admits NaT.
   */
  predicate InDates(req: LookupQuery, parse: Parser, m: Moment) {
    && (Given(req.startDate) ==>
          parse(Str(req.startDate.value)).Some? && NotAfter(parse(Str(req.startDate.value)).value, m))
    && (Given(req.endDate) ==>
          parse(Str(req.endDate.value)).Some? && NotAfter(m, NextDay(parse(Str(req.endDate.value)).value)))
  }

  /** The compiled date bounds admit a record exactly when its email date is within the given dates. */
  lemma BoundsMeaning(req: LookupQuery, parse: Parser, row: Record)
    requires DateBounds(req, parse).Done?
    ensures PassesAll(DateBounds(req, parse).value, row) <==> InDates(req, parse, MomentOf(CellOf(row, EmailColumn)))
  {
    var lower, upper := StartBound(req, parse).value, EndBound(req, parse).value;
    PassesAllConcat(lower, upper, row);
    if Given(req.startDate) {
      assert lower[0] == From(EmailColumn, parse(Str(req.startDate.value)).value);
    }
    if Given(req.endDate) {
      assert upper[0] == Until(EmailColumn, NextDay(parse(Str(req.endDate.value)).value));
    }
  }

  /** Converting a table record by record: the first record's conversion, then the rest's. */
  lemma CoerceColumnCons(rows: seq<Record>, col: string, parse: Parser)
    requires |rows| > 0
    ensures CoerceColumn(rows, col, parse) == [CoerceRow(rows[0], col, parse)] + CoerceColumn(rows[1..], col, parse)
  {
    var coerced := CoerceColumn(rows, col, parse);
    var rest := seq(|rows| - 1, i requires 0 <= i < |rows| - 1 => CoerceRow(rows[1..][i], col, parse));
    assert rest == CoerceColumn(rows[1..], col, parse);
    assert coerced == seq(|rows|, i requires 0 <= i < |rows| => CoerceRow(rows[i], col, parse));
    assert coerced[1..] == rest;
  }

  /** Converting the email column commutes with the unassigned mask, which reads only the status. */
  lemma {:induction false} KeepCoerceCommute(rows: seq<Record>, parse: Parser)
    ensures CoerceColumn(Keep(rows, [Unassigned]), EmailColumn, parse) == Keep(CoerceColumn(rows, EmailColumn, parse), [Unassigned])
  {
    if |rows| > 0 {
      var head, tail := rows[0], rows[1..];
      var converted := CoerceRow(head, EmailColumn, parse);
      KeepCoerceCommute(tail, parse);
      CoerceColumnCons(rows, EmailColumn, parse);
      assert [Unassigned][0] == Unassigned;
      CoerceKeepsUnassigned(head, parse);
      var coerced := CoerceColumn(rows, EmailColumn, parse);
      assert coerced[0] == converted && coerced[1..] == CoerceColumn(tail, EmailColumn, parse);
      if PassesAll([Unassigned], head) {
        var kept := Keep(rows, [Unassigned]);
        assert kept == [head] + Keep(tail, [Unassigned]);
        CoerceColumnCons(kept, EmailColumn, parse);
        assert kept[1..] == Keep(tail, [Unassigned]);
      }
    }
  }

  /** With an email column, the lookup is one mask over the converted table: unassigned, then the date bounds. */
  lemma LookupOneMask(frame: Frame, req: LookupQuery, parse: Parser)
    requires LookupMatches(frame, req, parse).Done? && EmailColumn in frame.columns
    ensures DateBounds(req, parse).Done?
    ensures LookupMatches(frame, req, parse).value ==
      Keep(CoerceColumn(frame.rows, EmailColumn, parse), [Unassigned] + DateBounds(req, parse).value)
  {
    KeepCoerceCommute(frame.rows, parse);
    KeepKeep(CoerceColumn(frame.rows, EmailColumn, parse), [Unassigned], DateBounds(req, parse).value);
  }

  /** A converted table holds exactly the conversions of the table's records. */
  lemma CoercedMember(rows: seq<Record>, col: string, parse: Parser, row: Record)
    ensures row in CoerceColumn(rows, col, parse) <==> exists r :: r in rows && row == CoerceRow(r, col, parse)
  {
    var coerced := CoerceColumn(rows, col, parse);
    if exists r :: r in rows && row == CoerceRow(r, col, parse) {
      var r :| r in rows && row == CoerceRow(r, col, parse);
      var i :| 0 <= i < |rows| && rows[i] == r;
      assert coerced[i] == row;
    }
  }

  /** Whether a record is unassigned does not change when its email date is converted. */
  lemma CoerceKeepsUnassigned(r: Record, parse: Parser)
    ensures Passes(Unassigned, CoerceRow(r, EmailColumn, parse)) <==> Passes(Unassigned, r)
  {
    CoerceKeepsOtherCells(r, EmailColumn, parse, StatusColumn);
  }

  /**
   * A record is among the lookup's matches exactly when it is an unassigned record of the table,
   * with its email date converted, whose date is within the given dates; each bound applies only
   * when its date is given.
   */
  lemma LookupMatchesExactly(frame: Frame, req: LookupQuery, parse: Parser, row: Record)
    requires LookupMatches(frame, req, parse).Done?
    ensures EmailColumn !in frame.columns ==>
      (row in LookupMatches(frame, req, parse).value <==> row in frame.rows && Passes(Unassigned, row))
    ensures EmailColumn in frame.columns ==>
      (row in LookupMatches(frame, req, parse).value <==>
        (exists r :: r in frame.rows && Passes(Unassigned, r) && row == CoerceRow(r, EmailColumn, parse))
        && InDates(req, parse, MomentOf(CellOf(row, EmailColumn))))
  {
    assert [Unassigned][0] == Unassigned;
    if EmailColumn !in frame.columns {
      KeepMember(frame.rows, [Unassigned], row);
    } else {
      var bounds := DateBounds(req, parse).value;
      LookupOneMask(frame, req, parse);
      KeepMember(CoerceColumn(frame.rows, EmailColumn, parse), [Unassigned] + bounds, row);
      PassesAllConcat([Unassigned], bounds, row);
      BoundsMeaning(req, parse, row);
      CoercedMember(frame.rows, EmailColumn, parse, row);
      forall r | row == CoerceRow(r, EmailColumn, parse)
        ensures Passes(Unassigned, row) <==> Passes(Unassigned, r)
      {
        CoerceKeepsUnassigned(r, parse);
      }
    }
  }

  /**
   * The total counts every qualifying record as often as the table holds it: a converted record
   * occurs among the matches as often as in the converted table when it qualifies, and never otherwise.
   */
  lemma LookupCounts(frame: Frame, req: LookupQuery, parse: Parser, row: Record)
    requires LookupMatches(frame, req, parse).Done? && EmailColumn in frame.columns
    ensures multiset(LookupMatches(frame, req, parse).value)[row] ==
      if Passes(Unassigned, row) && InDates(req, parse, MomentOf(CellOf(row, EmailColumn)))
      then multiset(CoerceColumn(frame.rows, EmailColumn, parse))[row] else 0
  {
    var bounds := DateBounds(req, parse).value;
    LookupOneMask(frame, req, parse);
    KeepCount(CoerceColumn(frame.rows, EmailColumn, parse), [Unassigned] + bounds, row);
    PassesAllConcat([Unassigned], bounds, row);
    assert [Unassigned][0] == Unassigned;
    BoundsMeaning(req, parse, row);
  }

  /**
   * An unassigned record whose email date cannot be read (NaT) is matched exactly when neither date
   * is given: an absent bound filters nothing, a given one drops it.
   */
  lemma NaTOnlyWithoutDates(frame: Frame, req: LookupQuery, parse: Parser, r: Record)
    requires LookupMatches(frame, req, parse).Done? && EmailColumn in frame.columns
    requires r in frame.rows && Passes(Unassigned, r)
    requires EmailColumn in r && CoerceCell(parse, r[EmailColumn]) == Time(NaT)
    ensures CoerceRow(r, EmailColumn, parse) in LookupMatches(frame, req, parse).value <==>
      !Given(req.startDate) && !Given(req.endDate)
  {
    var row := CoerceRow(r, EmailColumn, parse);
    LookupMatchesExactly(frame, req, parse, row);
    assert MomentOf(CellOf(row, EmailColumn)) == NaT;
  }

  /** Without dates every unassigned record is matched, whatever its email date. */
  lemma NoDatesKeepsEveryUnassigned(frame: Frame, req: LookupQuery, parse: Parser)
    requires StatusColumn in frame.columns && !Given(req.startDate) && !Given(req.endDate)
    ensures var unassigned := Keep(frame.rows, [Unassigned]);
      LookupMatches(frame, req, parse) ==
        Done(if EmailColumn in frame.columns then CoerceColumn(unassigned, EmailColumn, parse) else unassigned)
  {
    var none: seq<Test> := [];
    assert StartBound(req, parse) == Done(none) && EndBound(req, parse) == Done(none);
    assert none + none == none;
    assert DateBounds(req, parse) == Done(none);
    if EmailColumn in frame.columns {
      KeepNone(CoerceColumn(Keep(frame.rows, [Unassigned]), EmailColumn, parse));
    }
  }

  /** Every returned record falls within the given dates: not before the start, not after the day following the end. */
  lemma LookupWithinDates(frame: Frame, req: LookupQuery, parse: Parser, row: Record)
    requires LookupResult(frame, req, parse).Done? && EmailColumn in frame.columns
    requires row in LookupResult(frame, req, parse).value.data
    ensures var m := MomentOf(CellOf(row, EmailColumn));
      && (Given(req.startDate) ==> m.At? && parse(Str(req.startDate.value)).value.At? && parse(Str(req.startDate.value)).value.t <= m.t)
      && (Given(req.endDate) ==> m.At? && parse(Str(req.endDate.value)).value.At? && m.t <= parse(Str(req.endDate.value)).value.t + DayMs)
  {
    assert row in LookupMatches(frame, req, parse).value;
    LookupMatchesExactly(frame, req, parse, row);
  }

  /** A request with every field defaulted asks for the first 50 unassigned records and applies no date bound. */
  lemma DefaultLookup(frame: Frame, parse: Parser)
    requires StatusColumn in frame.columns
    ensures var unassigned := Keep(frame.rows, [Unassigned]);
      var matching := if EmailColumn in frame.columns then CoerceColumn(unassigned, EmailColumn, parse) else unassigned;
      LookupResult(frame, DefaultRequest, parse) ==
        Done(LookupResponse(matching[..if |matching| < 50 then |matching| else 50], |matching|, 1, 50))
  {
    NoDatesKeepsEveryUnassigned(frame, DefaultRequest, parse);
    assert (DefaultRequest.page - 1) * DefaultRequest.pageSize == 0;
  }
}
