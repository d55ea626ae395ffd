/// Delimited tables: a header naming the columns (or names given by the
/// caller), one column holding each row's time `t1` (or times made up as
/// `idx * step + start`), an optional column holding `t2`, and one tier
/// per remaining column.
module Table {
  import opened Wrappers
  import opened Text
  import opened Labels
  import opened Tiers
  import opened Manager
  import opened Lines
  import Seqs

  /// The arguments of `read_table`: the separator (None splits on
  /// whitespace), whether the names come from the header line, the names
  /// of the time columns (`t1Col` None: times are made up), the
  /// comma-separated names when there is no header line, the lines to skip
  /// first, and the made-up times' start and step.
  datatype TableOptions = TableOptions(
    sep: Option<string>, fieldsInHead: bool, t1Col: Option<string>, t2Col: Option<string>,
    fields: Option<string>, skiplines: nat, t1Start: real, t1Step: real)

  // ---------------------------------------------------------------------
  // The header

  /// The column names: the line after the skipped ones, trailing
  /// whitespace removed, split on the separator; or the given names split
  /// on commas and stripped, an AttributeError when none are given.
  function HeaderFields(lines: seq<string>, o: TableOptions): (r: Result<seq<string>>)
    ensures !o.fieldsInHead ==> (r.Err? <==> o.fields.None?)
    ensures !o.fieldsInHead && r.Err? ==> r.error == AttributeError
    ensures !o.fieldsInHead && r.Ok? ==>
              var parts := SplitOn(o.fields.value, ",");
              && Join(parts, ",") == o.fields.value
              && |r.value| == |parts|
              && forall i :: 0 <= i < |parts| ==> r.value[i] == StripAscii(parts[i])
    ensures o.fieldsInHead ==> (r.Err? <==> o.sep == Some(""))
    ensures o.fieldsInHead && r.Ok? && o.sep.Some? ==>
              Join(r.value, o.sep.value) == RStripBy(ReadLine(lines, o.skiplines), IsSpace)
  {
    if o.fieldsInHead then Split(RStripBy(ReadLine(lines, o.skiplines), IsSpace), o.sep)
    else if o.fields.None? then Err(AttributeError)
    else
      var parts := SplitOn(o.fields.value, ",");
      JoinSplitOn(o.fields.value, ",");
      Ok(seq(|parts|, i requires 0 <= i < |parts| => StripAscii(parts[i])))
  }

  /// The first row: after the skipped lines and the header line, if any.
  function RowStart(o: TableOptions): nat {
    o.skiplines + if o.fieldsInHead then 1 else 0
  }

  /// The time columns and the names of the tiers.
  datatype Columns = Columns(names: seq<string>, t1idx: Option<nat>, t2idx: Option<nat>)

  /// Interval tiers when there is a `t2` column, point tiers otherwise.
  function KindOf(c: Columns): TierKind {
    if c.t2idx.Some? then IntervalTier else PointTier
  }

  /// The names that become tiers: every field but `t1`, and but `t2` when
  /// the tiers are interval tiers.
  function TierNames(fields: seq<string>, interval: bool): (r: seq<string>)
    ensures Seqs.IsSubsequence(r, fields)
    ensures forall i :: 0 <= i < |r| ==> r[i] != "t1" && (interval ==> r[i] != "t2")
    ensures forall f :: f in fields && f != "t1" && (interval ==> f != "t2") ==> f in r
  {
    var r := Seqs.Filter(fields, f => f != "t1" && !(interval && f == "t2"));
    assert forall f :: f in fields && f != "t1" && (interval ==> f != "t2") ==> multiset(r)[f] > 0;
    r
  }

  /// `fields.index(t1_col)`, a ValueError when absent, renamed `t1`; then
  /// `t2_col`, if it names a field once that is done, renamed `t2`.
  function FindColumns(fields: seq<string>, t1Col: Option<string>, t2Col: Option<string>): (r: Result<Columns>)
    ensures r.Err? <==> t1Col.Some? && t1Col.value !in fields
    ensures r.Err? ==> r.error == ValueError
    ensures r.Ok? ==> r.value.t1idx == (if t1Col.Some? then Seqs.IndexOf(fields, t1Col.value) else None)
    ensures r.Ok? && r.value.t2idx.Some? ==> t2Col.Some? && r.value.t2idx.value < |fields|
    ensures r.Ok? && t2Col.None? ==> r.value.t2idx.None?
    ensures r.Ok? ==>
              var f1 := if r.value.t1idx.Some? then fields[r.value.t1idx.value := "t1"] else fields;
              && r.value.t2idx == (if t2Col.Some? then Seqs.IndexOf(f1, t2Col.value) else None)
              && (KindOf(r.value) == IntervalTier <==> t2Col.Some? && t2Col.value in f1)
              && r.value.names == TierNames(if r.value.t2idx.Some? then f1[r.value.t2idx.value := "t2"] else f1,
                                            r.value.t2idx.Some?)
  {
    var t1idx := if t1Col.Some? then Seqs.IndexOf(fields, t1Col.value) else None;
    if t1Col.Some? && t1idx.None? then Err(ValueError)
    else
      var f1 := if t1idx.Some? then fields[t1idx.value := "t1"] else fields;
      var t2idx := if t2Col.Some? then Seqs.IndexOf(f1, t2Col.value) else None;
      var f2 := if t2idx.Some? then f1[t2idx.value := "t2"] else f1;
      Ok(Columns(TierNames(f2, t2idx.Some?), t1idx, t2idx))
  }

  /// The tiers before any row: one per name, of the kind the columns call
  /// for, with the constructor's defaults.
  function NewTiers(c: Columns): (r: seq<TierValue>)
    ensures |r| == |c.names|
    ensures forall k :: 0 <= k < |r| ==> r[k] == EmptyTier(KindOf(c), c.names[k], 0.0, Unbounded, 0)
  {
    seq(|c.names|, k requires 0 <= k < |c.names| => EmptyTier(KindOf(c), c.names[k], 0.0, Unbounded, 0))
  }

  // ---------------------------------------------------------------------
  // The rows

  /// A time as the reader holds it: made up from the row number, or the
  /// text of a cell, converted when a label is made.
  datatype Cell = Computed(x: real) | Written(s: string)

  function CellTime(c: Cell, parse: FloatParser): Option<real> {
    match c
    case Computed(x) => Some(x)
    case Written(s) => ByteFloat(parse, s)
  }

  /// `vals.pop(i)`: the cell and what is left, an IndexError past the end.
  function Pop(vals: seq<string>, i: nat): (r: Result<(string, seq<string>)>)
    ensures r.Err? <==> i >= |vals|
    ensures r.Err? ==> r.error == IndexError
    ensures r.Ok? ==> i <= |r.value.1| && Seqs.InsertAt(r.value.1, i, r.value.0) == vals
    ensures r.Ok? ==> r.value.0 == vals[i]
  {
    if i >= |vals| then Err(IndexError)
    else
      assert Seqs.InsertAt(Seqs.RemoveAt(vals, i), i, vals[i]) == vals;
      Ok((vals[i], Seqs.RemoveAt(vals, i)))
  }

  /// How the `t2` cell is taken once `t1` has been popped: at `t2idx` as
  /// written, or one place to the left when the `t1` cell stood before it.
  datatype PopOrder = AsWritten | Corrected

  function T2Index(t1idx: Option<nat>, t2idx: nat, order: PopOrder): nat {
    if order == Corrected && t1idx.Some? && t1idx.value < t2idx then t2idx - 1 else t2idx
  }

  /// The time cells popped from a row, and the cells left for the tiers.
  datatype Row = Row(t1: Cell, t2: Option<Cell>, vals: seq<string>)

  /// `t1` popped (or made up for row `idx`), then `t2` popped.
  function TakeTimes(vals: seq<string>, idx: nat, o: TableOptions, c: Columns, order: PopOrder): (r: Result<Row>)
    ensures r.Err? ==> r.error == IndexError
    ensures r.Ok? ==> (r.value.t2.Some? <==> c.t2idx.Some?)
    ensures r.Ok? && c.t1idx.None? ==> r.value.t1 == Computed(idx as real * o.t1Step + o.t1Start)
    ensures c.t1idx.Some? && c.t1idx.value >= |vals| ==> r.Err?
    ensures r.Ok? && c.t1idx.Some? ==> c.t1idx.value < |vals| && r.value.t1 == Written(vals[c.t1idx.value])
  {
    var first := if c.t1idx.None? then Ok((Computed(idx as real * o.t1Step + o.t1Start), vals))
                 else
                   var p := Pop(vals, c.t1idx.value);
                   if p.Err? then Err(p.error) else Ok((Written(p.value.0), p.value.1));
    if first.Err? then Err(first.error)
    else if c.t2idx.None? then Ok(Row(first.value.0, None, first.value.1))
    else
      var p := Pop(first.value.1, T2Index(c.t1idx, c.t2idx.value, order));
      if p.Err? then Err(p.error) else Ok(Row(first.value.0, Some(Written(p.value.0)), p.value.1))
  }

  /// Row `idx`: the line without its line ending split on the separator,
  /// then its time cells taken.
  function ParseRow(line: string, idx: nat, o: TableOptions, c: Columns, order: PopOrder): (r: Result<Row>)
    ensures r.Err? ==> r.error == IndexError || (r.error == ValueError && o.sep == Some(""))
  {
    var vals := Split(RStripNewlines(line), o.sep);
    if vals.Err? then Err(vals.error) else TakeTimes(vals.value, idx, o, c, order)
  }

  /// `zip(tiers, vals)`: the `k`-th tier gains the `k`-th cell as a label,
  /// as far as both go.
  function ZipAdd(doc: seq<TierValue>, vals: seq<string>, t1: real, t2: Option<real>): (r: seq<TierValue>)
    ensures |r| == |doc|
    ensures forall k :: 0 <= k < |doc| && k < |vals| ==> r[k] == Added(doc[k], Label(vals[k], t1, t2, None))
    ensures forall k :: |vals| <= k < |doc| ==> r[k] == doc[k]
  {
    seq(|doc|, k requires 0 <= k < |doc| => if k < |vals| then Added(doc[k], Label(vals[k], t1, t2, None)) else doc[k])
  }

  /// The labels of one row. The times are converted when the first label
  /// is made: ValueError if either is not a number. A row that meets no
  /// tier converts nothing.
  function AddRow(doc: seq<TierValue>, row: Row, parse: FloatParser): (r: Result<seq<TierValue>>)
    ensures r.Err? ==> r.error == ValueError
    ensures r.Ok? ==> |r.value| == |doc|
    ensures |doc| == 0 || |row.vals| == 0 ==> r == Ok(doc)
    ensures |doc| > 0 && |row.vals| > 0 ==>
              (r.Err? <==> CellTime(row.t1, parse).None? || (row.t2.Some? && CellTime(row.t2.value, parse).None?))
    ensures r.Ok? && |doc| > 0 && |row.vals| > 0 ==>
              r.value == ZipAdd(doc, row.vals, CellTime(row.t1, parse).value,
                                if row.t2.Some? then CellTime(row.t2.value, parse) else None)
  {
    if |doc| == 0 || |row.vals| == 0 then Ok(doc)
    else
      var t1 := CellTime(row.t1, parse);
      var t2 := if row.t2.Some? then CellTime(row.t2.value, parse) else None;
      if t1.None? || (row.t2.Some? && t2.None?) then Err(ValueError)
      else Ok(ZipAdd(doc, row.vals, t1.value, t2))
  }

  /// The rows from line `pos` on, row `pos - start` first.
  function RowsFrom(lines: seq<string>, pos: nat, start: nat, o: TableOptions, c: Columns, order: PopOrder,
                    parse: FloatParser, doc: seq<TierValue>): (r: Result<seq<TierValue>>)
    requires start <= pos
    ensures r.Ok? ==> |r.value| == |doc|
    decreases |lines| - pos
  {
    if pos >= |lines| then Ok(doc)
    else
      var row := ParseRow(lines[pos], pos - start, o, c, order);
      if row.Err? then Err(row.error)
      else
        var next := AddRow(doc, row.value, parse);
        if next.Err? then next else RowsFrom(lines, pos + 1, start, o, c, order, parse, next.value)
  }

  // ---------------------------------------------------------------------
  // Finishing

  /// The time of the first row's `t1` and of the last row's `t2`, or its
  /// `t1` when there is no `t2` column.
  function FirstTime(lines: seq<string>, o: TableOptions, c: Columns, order: PopOrder): Option<Cell> {
    var s := RowStart(o);
    if s >= |lines| then None
    else
      var first := ParseRow(lines[s], 0, o, c, order);
      if first.Ok? then Some(first.value.t1) else None
  }

  function LastTime(lines: seq<string>, o: TableOptions, c: Columns, order: PopOrder): Option<Cell> {
    LastTimeBefore(lines, |lines|, o, c, order)
  }

  /// The last time of the rows before line `pos`.
  function LastTimeBefore(lines: seq<string>, pos: nat, o: TableOptions, c: Columns, order: PopOrder): Option<Cell> {
    var s := RowStart(o);
    if s >= pos || pos > |lines| then None
    else
      var last := ParseRow(lines[pos - 1], pos - 1 - s, o, c, order);
      if last.Err? then None
      else if last.value.t2.Some? then last.value.t2
      else Some(last.value.t1)
  }

  /// `tier.start = tstart; tier.end = tend`, where the time reads as a
  /// number.
  function Finish(v: TierValue, start: Option<real>, end: Option<real>): (r: TierValue)
    ensures r.labels == v.labels && r.time == v.time && r.kind == v.kind && r.name == v.name
    ensures r.start == (if start.Some? then start.value else v.start)
    ensures r.end == (if end.Some? then Finite(end.value) else v.end)
  {
    v.(start := if start.Some? then start.value else v.start,
       end := if end.Some? then Finite(end.value) else v.end)
  }

  /// Every tier finished.
  function FinishEach(doc: seq<TierValue>, start: Option<real>, end: Option<real>): (r: seq<TierValue>)
    ensures |r| == |doc| && forall k :: 0 <= k < |doc| ==> r[k] == Finish(doc[k], start, end)
  {
    seq(|doc|, k requires 0 <= k < |doc| => Finish(doc[k], start, end))
  }

  function Time(c: Option<Cell>, parse: FloatParser): Option<real> {
    if c.Some? then CellTime(c.value, parse) else None
  }

  /// `read_table`: the tiers it adds to the manager, in column order.
  function ReadTable(lines: seq<string>, o: TableOptions, parse: FloatParser, order: PopOrder): Result<seq<TierValue>> {
    var fields := HeaderFields(lines, o);
    if fields.Err? then Err(fields.error)
    else
      var c := FindColumns(fields.value, o.t1Col, o.t2Col);
      if c.Err? then Err(c.error)
      else
        var doc := RowsFrom(lines, RowStart(o), RowStart(o), o, c.value, order, parse, NewTiers(c.value));
        if doc.Err? then doc
        else
          var start := Time(FirstTime(lines, o, c.value, order), parse);
          var end := Time(LastTime(lines, o, c.value, order), parse);
          Ok(FinishEach(doc.value, start, end))
  }

  // ---------------------------------------------------------------------
  // Properties

  /// Every tier the rows build keeps its name and kind and stays well
  /// formed and sorted.
  predicate Shaped(doc: seq<TierValue>, c: Columns) {
    && |doc| == |c.names|
    && forall k :: 0 <= k < |doc| ==>
         && doc[k].name == c.names[k] && doc[k].kind == KindOf(c)
         && Consistent(doc[k]) && Sorted(doc[k].labels)
  }

  lemma {:induction false} AddRowShaped(doc: seq<TierValue>, row: Row, parse: FloatParser, c: Columns)
    requires Shaped(doc, c)
    ensures AddRow(doc, row, parse).Ok? ==> Shaped(AddRow(doc, row, parse).value, c)
  {
    var r := AddRow(doc, row, parse);
    if r.Ok? && |doc| > 0 && |row.vals| > 0 {
      forall k | 0 <= k < |doc| && k < |row.vals|
        ensures Consistent(r.value[k]) && Sorted(r.value[k].labels)
        ensures r.value[k].name == c.names[k] && r.value[k].kind == KindOf(c)
      {
        var l := Label(row.vals[k], CellTime(row.t1, parse).value,
                       if row.t2.Some? then CellTime(row.t2.value, parse) else None, None);
        AddedConsistent(doc[k], l);
        AddedSorted(doc[k], l);
      }
    }
  }

  lemma {:induction false} RowsFromShaped(lines: seq<string>, pos: nat, start: nat, o: TableOptions, c: Columns,
                                          order: PopOrder, parse: FloatParser, doc: seq<TierValue>)
    requires start <= pos && Shaped(doc, c)
    ensures RowsFrom(lines, pos, start, o, c, order, parse, doc).Ok? ==>
              Shaped(RowsFrom(lines, pos, start, o, c, order, parse, doc).value, c)
    decreases |lines| - pos
  {
    if pos < |lines| {
      var row := ParseRow(lines[pos], pos - start, o, c, order);
      if row.Ok? {
        AddRowShaped(doc, row.value, parse, c);
        var next := AddRow(doc, row.value, parse);
        if next.Ok? {
          RowsFromShaped(lines, pos + 1, start, o, c, order, parse, next.value);
        }
      }
    }
  }

  /// The finished tiers: shaped, starting and ending where the first and
  /// last rows say when their times read as numbers.
  predicate Finished(r: seq<TierValue>, c: Columns, start: Option<real>, end: Option<real>) {
    && Shaped(r, c)
    && forall k :: 0 <= k < |r| ==>
         && (start.Some? ==> r[k].start == start.value)
         && (end.Some? ==> r[k].end == Finite(end.value))
  }

  lemma FinishShaped(doc: seq<TierValue>, c: Columns, start: Option<real>, end: Option<real>)
    requires Shaped(doc, c)
    ensures Finished(FinishEach(doc, start, end), c, start, end)
  {
  }

  /// A table gives one tier per column other than the time columns, in
  /// column order, named after it: interval tiers when there is a `t2`
  /// column, point tiers otherwise; each sorted and well formed, starting
  /// at the first row's `t1` and ending at the last row's `t2` (or `t1`)
  /// when those read as numbers.
  lemma ReadTableShape(lines: seq<string>, o: TableOptions, parse: FloatParser, order: PopOrder)
    ensures var r := ReadTable(lines, o, parse, order);
            r.Ok? ==>
              var c := FindColumns(HeaderFields(lines, o).value, o.t1Col, o.t2Col).value;
              Finished(r.value, c, Time(FirstTime(lines, o, c, order), parse), Time(LastTime(lines, o, c, order), parse))
  {
    var fields := HeaderFields(lines, o);
    if fields.Ok? {
      var c := FindColumns(fields.value, o.t1Col, o.t2Col);
      if c.Ok? {
        var doc := RowsFrom(lines, RowStart(o), RowStart(o), o, c.value, order, parse, NewTiers(c.value));
        RowsFromShaped(lines, RowStart(o), RowStart(o), o, c.value, order, parse, NewTiers(c.value));
        if doc.Ok? {
          FinishShaped(doc.value, c.value, Time(FirstTime(lines, o, c.value, order), parse),
                       Time(LastTime(lines, o, c.value, order), parse));
        }
      }
    }
  }

  // ---------------------------------------------------------------------
  // Taking the time cells

  /// As written, with the `t1` column before the `t2` column, the second
  /// pop reads the column after `t2`, and a row holding only the two time
  /// cells has nothing left to pop.
  lemma {:induction false} PopShiftAsWritten(vals: seq<string>, i: nat, j: nat)
    requires i < j < |vals|
    ensures var p := Pop(vals, i);
            p.Ok? && (j + 1 < |vals| ==> Pop(p.value.1, j) == Ok((vals[j + 1], Seqs.RemoveAt(Seqs.RemoveAt(vals, i), j))))
                  && (j + 1 == |vals| ==> Pop(p.value.1, j) == Err(IndexError))
  {
  }

  /// The header `t1 t2 text` and a row `0.1 0.5 foo`: as written, `t2` is
  /// taken from the text column and the label text from the `t2` column,
  /// so making the label fails on `float('foo')`; corrected, each comes
  /// from its own column.
  lemma {:induction false} TakeTimesScenario(o: TableOptions, parse: FloatParser, doc: seq<TierValue>)
    requires o.t1Col == Some("t1") && o.t2Col == Some("t2")
    requires ByteFloat(parse, "foo").None? && doc != []
    ensures var c := Columns(["text"], Some(0), Some(1));
            && TakeTimes(["0.1", "0.5", "foo"], 0, o, c, AsWritten) == Ok(Row(Written("0.1"), Some(Written("foo")), ["0.5"]))
            && AddRow(doc, Row(Written("0.1"), Some(Written("foo")), ["0.5"]), parse) == Err(ValueError)
            && TakeTimes(["0.1", "0.5", "foo"], 0, o, c, Corrected) == Ok(Row(Written("0.1"), Some(Written("0.5")), ["foo"]))
            && TakeTimes(["0.1", "0.5"], 0, o, Columns([], Some(0), Some(1)), AsWritten) == Err(IndexError)
  {
    var c := Columns(["text"], Some(0), Some(1));
    assert Seqs.RemoveAt(["0.1", "0.5", "foo"], 0) == ["0.5", "foo"];
    assert TakeTimes(["0.1", "0.5", "foo"], 0, o, c, AsWritten) == Ok(Row(Written("0.1"), Some(Written("foo")), ["0.5"])) by {
      assert Seqs.RemoveAt(["0.5", "foo"], 1) == ["0.5"];
    }
    assert TakeTimes(["0.1", "0.5", "foo"], 0, o, c, Corrected) == Ok(Row(Written("0.1"), Some(Written("0.5")), ["foo"])) by {
      assert Seqs.RemoveAt(["0.5", "foo"], 0) == ["foo"];
    }
    TimeColumnText(parse, doc);
  }

  /// A row whose `t2` cell is not a number makes no label: ValueError.
  lemma TimeColumnText(parse: FloatParser, doc: seq<TierValue>)
    requires ByteFloat(parse, "foo").None? && doc != []
    ensures AddRow(doc, Row(Written("0.1"), Some(Written("foo")), ["0.5"]), parse) == Err(ValueError)
  {
  }

  /// With the header `t1 t2 a b` and a row `0.1 0.5 1.0 x`, the cell after
  /// `t2` is a number: as written, the labels are made without an error,
  /// with `t2` 1.0 and the texts `0.5` and `x`.
  lemma {:induction false} WrongTimesSilent(o: TableOptions, parse: FloatParser, doc: seq<TierValue>)
    requires o.t1Col == Some("t1") && o.t2Col == Some("t2")
    requires ByteFloat(parse, "0.1") == Some(0.1) && ByteFloat(parse, "1.0") == Some(1.0) && doc != []
    ensures var c := Columns(["a", "b"], Some(0), Some(1));
            && TakeTimes(["0.1", "0.5", "1.0", "x"], 0, o, c, AsWritten) == Ok(Row(Written("0.1"), Some(Written("1.0")), ["0.5", "x"]))
            && AddRow(doc, Row(Written("0.1"), Some(Written("1.0")), ["0.5", "x"]), parse)
               == Ok(ZipAdd(doc, ["0.5", "x"], 0.1, Some(1.0)))
  {
    var row := Row(Written("0.1"), Some(Written("1.0")), ["0.5", "x"]);
    assert TakeTimes(["0.1", "0.5", "1.0", "x"], 0, o, Columns(["a", "b"], Some(0), Some(1)), AsWritten) == Ok(row) by {
      assert Seqs.RemoveAt(["0.1", "0.5", "1.0", "x"], 0) == ["0.5", "1.0", "x"];
      assert Seqs.RemoveAt(["0.5", "1.0", "x"], 1) == ["0.5", "x"];
    }
    assert CellTime(row.t1, parse) == Some(0.1) && CellTime(row.t2.value, parse) == Some(1.0);
  }

  /// Corrected, the two time cells come from their own columns whatever
  /// their order, and the other cells stay in column order.
  lemma {:induction false} TakeTimesCorrected(vals: seq<string>, idx: nat, o: TableOptions, c: Columns)
    requires c.t1idx.Some? && c.t2idx.Some? && c.t1idx.value != c.t2idx.value
    ensures var r := TakeTimes(vals, idx, o, c, Corrected);
            && (r.Ok? <==> c.t1idx.value < |vals| && c.t2idx.value < |vals|)
            && (r.Ok? ==> r.value.t1 == Written(vals[c.t1idx.value]) && r.value.t2 == Some(Written(vals[c.t2idx.value]))
                          && |r.value.vals| == |vals| - 2
                          && forall k :: 0 <= k < |r.value.vals| ==>
                               r.value.vals[k] == vals[Skip2(k, c.t1idx.value, c.t2idx.value)])
  {
    var i := c.t1idx.value;
    var j := c.t2idx.value;
    var r := TakeTimes(vals, idx, o, c, Corrected);
    if i < |vals| && j < |vals| {
      var rest := Seqs.RemoveAt(vals, i);
      assert Pop(vals, i) == Ok((vals[i], rest));
      var j' := T2Index(Some(i), j, Corrected);
      assert rest[j'] == vals[j];
      assert r.value.vals == Seqs.RemoveAt(rest, j');
    }
  }

  /// The `k`-th cell left once the cells at `i` and `j` are gone.
  function Skip2(k: nat, i: nat, j: nat): nat {
    var lo := if i < j then i else j;
    var hi := if i < j then j else i;
    if k < lo then k else if k + 1 < hi then k + 1 else k + 2
  }

  // ---------------------------------------------------------------------
  // The reader object

  /// One row's labels: the `k`-th tier gains the `k`-th cell, for as many
  /// tiers and cells as there are.
  method AddRowTo(lm: LabelManager, row: Row, parse: FloatParser) returns (err: Option<Error>)
    requires lm.Valid() && lm.Distinct()
    modifies lm.tiers
    ensures lm.tiers == old(lm.tiers) && lm.Valid() && lm.Distinct()
    ensures AddRow(old(lm.Values()), row, parse) == if err.Some? then Err(err.value) else Ok(lm.Values())
  {
    if |lm.tiers| == 0 || |row.vals| == 0 {
      return None;
    }
    var t1 := CellTime(row.t1, parse);
    var t2 := if row.t2.Some? then CellTime(row.t2.value, parse) else None;
    if t1.None? || (row.t2.Some? && t2.None?) {
      return Some(ValueError);
    }
    ghost var doc := lm.Values();
    var k := 0;
    while k < |lm.tiers| && k < |row.vals|
      invariant k <= |lm.tiers| && k <= |row.vals| && lm.tiers == old(lm.tiers) && lm.Valid() && lm.Distinct()
      invariant Zipped(lm.Values(), doc, row.vals, t1.value, t2, k) == true
    {
      ghost var before := lm.Values();
      lm.AddLabelAt(k, Label(row.vals[k], t1.value, t2, None));
      ZippedNext(before, doc, row.vals, t1.value, t2, k, lm.Values());
      k := k + 1;
    }
    ZippedAll(lm.Values(), doc, row.vals, t1.value, t2, k);
    return None;
  }

  /// The tiers once the first `k` cells of a row are added.
  predicate Zipped(now: seq<TierValue>, doc: seq<TierValue>, vals: seq<string>, t1: real, t2: Option<real>, k: nat) {
    && |now| == |doc| && k <= |doc| && k <= |vals|
    && (forall i :: 0 <= i < k ==> now[i] == Added(doc[i], Label(vals[i], t1, t2, None)))
    && (forall i :: k <= i < |doc| ==> now[i] == doc[i])
  }

  lemma ZippedNext(before: seq<TierValue>, doc: seq<TierValue>, vals: seq<string>, t1: real, t2: Option<real>,
                   k: nat, after: seq<TierValue>)
    requires Zipped(before, doc, vals, t1, t2, k) == true && k < |doc| && k < |vals|
    requires after == before[k := Added(before[k], Label(vals[k], t1, t2, None))]
    ensures Zipped(after, doc, vals, t1, t2, k + 1) == true
  {
  }

  lemma ZippedAll(now: seq<TierValue>, doc: seq<TierValue>, vals: seq<string>, t1: real, t2: Option<real>, k: nat)
    requires Zipped(now, doc, vals, t1, t2, k) == true && (k == |doc| || k == |vals|)
    ensures now == ZipAdd(doc, vals, t1, t2)
  {
  }

  /// `tier.start = tstart; tier.end = tend` on every tier.
  method FinishAll(lm: LabelManager, start: Option<real>, end: Option<real>)
    requires lm.Valid() && lm.Distinct()
    modifies lm.tiers
    ensures lm.tiers == old(lm.tiers) && lm.Valid() && lm.Distinct()
    ensures lm.Values() == FinishEach(old(lm.Values()), start, end)
  {
    ghost var doc := lm.Values();
    var k := 0;
    while k < |lm.tiers|
      invariant k <= |lm.tiers| && lm.tiers == old(lm.tiers) && lm.Valid() && lm.Distinct()
      invariant FinishedUpTo(lm.Values(), doc, start, end, k) == true
    {
      ghost var before := lm.Values();
      FinishAt(lm, k, start, end);
      FinishedNext(before, doc, start, end, k, lm.Values());
      k := k + 1;
    }
  }

  /// The bounds of the `k`-th tier set; no other tier changes.
  method FinishAt(lm: LabelManager, k: nat, start: Option<real>, end: Option<real>)
    requires k < |lm.tiers| && lm.Valid() && lm.Distinct()
    modifies lm.tiers[k]
    ensures lm.tiers == old(lm.tiers) && lm.Valid() && lm.Distinct()
    ensures lm.Values() == old(lm.Values())[k := Finish(old(lm.Values())[k], start, end)]
  {
    var t := lm.tiers[k];
    t.start, t.end := (if start.Some? then start.value else t.start), (if end.Some? then Finite(end.value) else t.end);
    assert forall i :: 0 <= i < |lm.tiers| && i != k ==> lm.tiers[i] != t;
  }

  /// The tiers once the first `k` are finished.
  predicate FinishedUpTo(now: seq<TierValue>, doc: seq<TierValue>, start: Option<real>, end: Option<real>, k: nat) {
    && |now| == |doc| && k <= |doc|
    && (forall i :: 0 <= i < k ==> now[i] == Finish(doc[i], start, end))
    && (forall i :: k <= i < |doc| ==> now[i] == doc[i])
  }

  lemma FinishedNext(before: seq<TierValue>, doc: seq<TierValue>, start: Option<real>, end: Option<real>, k: nat,
                     after: seq<TierValue>)
    requires FinishedUpTo(before, doc, start, end, k) == true && k < |doc|
    requires after == before[k := Finish(before[k], start, end)]
    ensures FinishedUpTo(after, doc, start, end, k + 1) == true
  {
  }

  /// The tiers, one per name, each made and added in turn.
  method MakeTiers(c: Columns) returns (lm: LabelManager)
    ensures fresh(lm) && lm.Valid() && lm.Distinct()
    ensures forall i :: 0 <= i < |lm.tiers| ==> fresh(lm.tiers[i])
    ensures lm.Values() == NewTiers(c)
  {
    lm := new LabelManager();
    var k := 0;
    while k < |c.names|
      invariant k <= |c.names| && fresh(lm) && lm.Valid() && lm.Distinct()
      invariant forall i :: 0 <= i < |lm.tiers| ==> fresh(lm.tiers[i])
      invariant lm.Values() == NewTiers(c)[..k]
    {
      var t := new Tier(KindOf(c), 0.0, Unbounded, c.names[k], 0);
      Append(lm, t);
      k := k + 1;
    }
  }

  /// One step of the rows: the row's error, or the tiers after it.
  lemma RowsFromStep(lines: seq<string>, pos: nat, start: nat, o: TableOptions, c: Columns, order: PopOrder,
                     parse: FloatParser, doc: seq<TierValue>, row: Result<Row>)
    requires start <= pos < |lines| && row == ParseRow(lines[pos], pos - start, o, c, order)
    ensures row.Err? ==> RowsFrom(lines, pos, start, o, c, order, parse, doc) == Err(row.error)
    ensures row.Ok? && AddRow(doc, row.value, parse).Err? ==>
              RowsFrom(lines, pos, start, o, c, order, parse, doc) == AddRow(doc, row.value, parse)
    ensures row.Ok? && AddRow(doc, row.value, parse).Ok? ==>
              RowsFrom(lines, pos, start, o, c, order, parse, doc)
              == RowsFrom(lines, pos + 1, start, o, c, order, parse, AddRow(doc, row.value, parse).value)
  {
  }

  /// The first and last rows' times, as the loop sees them.
  lemma RowTimes(lines: seq<string>, pos: nat, o: TableOptions, c: Columns, order: PopOrder, row: Row)
    requires RowStart(o) <= pos < |lines| && ParseRow(lines[pos], pos - RowStart(o), o, c, order) == Ok(row)
    ensures pos == RowStart(o) ==> FirstTime(lines, o, c, order) == Some(row.t1)
    ensures LastTimeBefore(lines, pos + 1, o, c, order) == if row.t2.Some? then row.t2 else Some(row.t1)
  {
  }

  /// The rows from line `s` on, keeping the first row's `t1` and the
  /// last row's `t2` (or `t1`) as the loop goes.
  method ReadRows(lm: LabelManager, lines: seq<string>, o: TableOptions, c: Columns, order: PopOrder,
                  parse: FloatParser) returns (err: Option<Error>, tstart: Option<Cell>, tend: Option<Cell>)
    requires lm.Valid() && lm.Distinct()
    modifies lm.tiers
    ensures lm.tiers == old(lm.tiers) && lm.Valid() && lm.Distinct()
    ensures var s := RowStart(o);
            RowsFrom(lines, s, s, o, c, order, parse, old(lm.Values()))
            == if err.Some? then Err(err.value) else Ok(lm.Values())
    ensures err.None? ==> tstart == FirstTime(lines, o, c, order) && tend == LastTime(lines, o, c, order)
  {
    var s := RowStart(o);
    var pos := s;
    tstart, tend := None, None;
    while pos < |lines|
      invariant s <= pos && (pos > s ==> pos <= |lines|)
      invariant lm.tiers == old(lm.tiers) && lm.Valid() && lm.Distinct()
      invariant RowsFrom(lines, pos, s, o, c, order, parse, lm.Values())
                == RowsFrom(lines, s, s, o, c, order, parse, old(lm.Values()))
      invariant Tracking(lines, pos, o, c, order, tstart, tend) == true
      decreases |lines| - pos
    {
      var next;
      err, tstart, tend, next := ReadRow(lm, lines, pos, o, c, order, parse, tstart, tend);
      if err.Some? {
        return;
      }
      pos := next;
    }
    TrackedToEnd(lines, pos, o, c, order, tstart, tend);
    return None, tstart, tend;
  }

  /// What the loop knows of the times once the rows before `pos` are read.
  predicate Tracking(lines: seq<string>, pos: nat, o: TableOptions, c: Columns, order: PopOrder,
                     tstart: Option<Cell>, tend: Option<Cell>) {
    && tstart == StartBefore(lines, pos, o, c, order) && (pos > RowStart(o) ==> tstart.Some?)
    && tend == LastTimeBefore(lines, pos, o, c, order)
  }

  /// Once every row is read, the times kept are the first and last ones.
  lemma TrackedToEnd(lines: seq<string>, pos: nat, o: TableOptions, c: Columns, order: PopOrder,
                     tstart: Option<Cell>, tend: Option<Cell>)
    requires Tracking(lines, pos, o, c, order, tstart, tend) == true
    requires pos >= |lines| && (pos > RowStart(o) ==> pos <= |lines|)
    ensures tstart == FirstTime(lines, o, c, order) && tend == LastTime(lines, o, c, order)
  {
  }

  /// One row of the loop: its cells split and its times taken (the
  /// first row's `t1` kept as the start, each row's `t2` or `t1` as the
  /// end so far), then its labels added.
  method ReadRow(lm: LabelManager, lines: seq<string>, pos: nat, o: TableOptions, c: Columns, order: PopOrder,
                 parse: FloatParser, tstart: Option<Cell>, tend: Option<Cell>)
    returns (err: Option<Error>, tstart': Option<Cell>, tend': Option<Cell>, next: nat)
    requires RowStart(o) <= pos < |lines| && lm.Valid() && lm.Distinct()
    requires Tracking(lines, pos, o, c, order, tstart, tend) == true
    modifies lm.tiers
    ensures next == pos + 1
    ensures lm.tiers == old(lm.tiers) && lm.Valid() && lm.Distinct()
    ensures err.None? ==> Tracking(lines, next, o, c, order, tstart', tend') == true
    ensures var s := RowStart(o);
            RowsFrom(lines, pos, s, o, c, order, parse, old(lm.Values()))
            == if err.Some? then Err(err.value) else RowsFrom(lines, next, s, o, c, order, parse, lm.Values())
  {
    next := pos + 1;
    var row := ParseRow(lines[pos], pos - RowStart(o), o, c, order);
    RowsFromStep(lines, pos, RowStart(o), o, c, order, parse, lm.Values(), row);
    if row.Err? {
      return Some(row.error), tstart, tend, next;
    }
    tstart' := if tstart.None? then Some(row.value.t1) else tstart;
    tend' := if row.value.t2.Some? then row.value.t2 else Some(row.value.t1);
    TrackedRow(lines, pos, o, c, order, row.value, tstart, tend, next);
    err := AddRowTo(lm, row.value, parse);
  }

  /// Reading one row moves the times the loop keeps on to the next line.
  lemma TrackedRow(lines: seq<string>, pos: nat, o: TableOptions, c: Columns, order: PopOrder, row: Row,
                   tstart: Option<Cell>, tend: Option<Cell>, next: nat)
    requires RowStart(o) <= pos < |lines| && next == pos + 1
    requires ParseRow(lines[pos], pos - RowStart(o), o, c, order) == Ok(row)
    requires Tracking(lines, pos, o, c, order, tstart, tend) == true
    ensures Tracking(lines, next, o, c, order, if tstart.None? then Some(row.t1) else tstart,
                     if row.t2.Some? then row.t2 else Some(row.t1)) == true
  {
    RowTimes(lines, pos, o, c, order, row);
  }

  /// The start the loop keeps once the rows before `pos` are read: none
  /// before the first row, the first row's `t1` after it.
  function StartBefore(lines: seq<string>, pos: nat, o: TableOptions, c: Columns, order: PopOrder): Option<Cell> {
    if pos <= RowStart(o) then None else FirstTime(lines, o, c, order)
  }

  /// `LabelManager(from_file=..., from_type='table', ...)`. The tiers are
  /// added to the manager as they are made rather than once the rows are
  /// read; nothing sees the manager before the read returns.
  method ReadTableFile(lines: seq<string>, o: TableOptions, parse: FloatParser, order: PopOrder)
    returns (r: Result<LabelManager>)
    ensures r.Err? <==> ReadTable(lines, o, parse, order).Err?
    ensures r.Err? ==> r.error == ReadTable(lines, o, parse, order).error
    ensures r.Ok? ==> fresh(r.value) && r.value.Valid() && r.value.Distinct()
                      && r.value.Values() == ReadTable(lines, o, parse, order).value
  {
    var fields := HeaderFields(lines, o);
    if fields.Err? {
      return Err(fields.error);
    }
    var cols := FindColumns(fields.value, o.t1Col, o.t2Col);
    if cols.Err? {
      return Err(cols.error);
    }
    ReadTableAfterColumns(lines, o, parse, order, fields.value, cols.value);
    var lm := MakeTiers(cols.value);
    var err, tstart, tend := ReadRows(lm, lines, o, cols.value, order, parse);
    if err.Some? {
      return Err(err.value);
    }
    FinishAll(lm, Time(tstart, parse), Time(tend, parse));
    return Ok(lm);
  }

  /// `read_table` once the columns are found: the rows, then every tier
  /// finished.
  lemma ReadTableAfterColumns(lines: seq<string>, o: TableOptions, parse: FloatParser, order: PopOrder,
                              fields: seq<string>, c: Columns)
    requires HeaderFields(lines, o) == Ok(fields) && FindColumns(fields, o.t1Col, o.t2Col) == Ok(c)
    ensures var doc := RowsFrom(lines, RowStart(o), RowStart(o), o, c, order, parse, NewTiers(c));
            ReadTable(lines, o, parse, order)
            == if doc.Err? then doc
               else Ok(FinishEach(doc.value, Time(FirstTime(lines, o, c, order), parse),
                                  Time(LastTime(lines, o, c, order), parse)))
  {
  }
}
