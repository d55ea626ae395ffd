/// ESPS label files: a header closed by a line starting with `#`, in which
/// a `separator` line may name the field separator, then one line per
/// time point holding the time, a colour and the label text, whose fields
/// each go to a point tier of their own.
module Esps {
  import opened Wrappers
  import opened Text
  import opened Labels
  import opened Tiers
  import opened Manager
  import opened Patterns
  import opened Lines
  import Seqs

  // ---------------------------------------------------------------------
  // The header

  /// The last `separator` line among `lines[lo..hi]` set `sep`, or there is
  /// none and `sep` is `given`.
  ghost predicate SeparatorFrom(lines: seq<string>, lo: nat, hi: nat, given: Option<string>, sep: Option<string>)
    requires lo <= hi <= |lines|
  {
    || (sep == given && forall i :: lo <= i < hi ==> SeparatorValue(lines[i]).None?)
    || exists i :: lo <= i < hi && sep == SeparatorValue(lines[i])
                   && forall j :: i < j < hi ==> SeparatorValue(lines[j]).None?
  }

  /// The header from line `pos`, with `sep` the separator so far: the
  /// separator in force at the first line that starts with `#`, and the
  /// line after it; ParseError when the file ends first. A `separator`
  /// line overrides both the argument and any earlier such line.
  function EspsHeader(lines: seq<string>, pos: nat, sep: Option<string>): (r: Result<(Option<string>, nat)>)
    ensures r.Err? ==> r.error == ParseError
    ensures r.Ok? ==> pos < r.value.1 <= |lines| && StartsWith(lines[r.value.1 - 1], "#")
    ensures r.Ok? ==> forall i :: pos <= i < r.value.1 - 1 ==> !StartsWith(lines[i], "#")
    decreases Measure(lines, pos)
  {
    var line := ReadLine(lines, pos);
    if line == "" then Err(ParseError)
    else
      var found := SeparatorValue(line);
      var sep' := if found.Some? then found else sep;
      if StartsWith(line, "#") then Ok((sep', pos + 1))
      else
        EspsHeader(lines, pos + 1, sep')
  }

  /// The separator the header leaves in force is the one the last
  /// `separator` line names, or the argument when there is none.
  lemma {:induction false} HeaderSeparator(lines: seq<string>, pos: nat, sep: Option<string>)
    ensures var r := EspsHeader(lines, pos, sep);
            r.Ok? ==> SeparatorFrom(lines, pos, r.value.1, sep, r.value.0)
    decreases Measure(lines, pos)
  {
    var r := EspsHeader(lines, pos, sep);
    var line := ReadLine(lines, pos);
    if r.Ok? && !StartsWith(line, "#") {
      var found := SeparatorValue(line);
      var sep' := if found.Some? then found else sep;
      HeaderSeparator(lines, pos + 1, sep');
      var hi := r.value.1;
      if exists i :: pos + 1 <= i < hi && r.value.0 == SeparatorValue(lines[i])
                     && forall j :: i < j < hi ==> SeparatorValue(lines[j]).None? {
      } else if found.Some? {
        assert pos <= pos < hi && r.value.0 == SeparatorValue(lines[pos]);
      }
    }
  }

  // ---------------------------------------------------------------------
  // The body

  /// `PointTier()`: the tier made for a field seen for the first time.
  function FieldTier(): TierValue {
    EmptyTier(PointTier, "", 0.0, Unbounded, 0)
  }

  /// The tier field `k` goes to: the `k`-th tier, or a new one.
  function TierFor(doc: seq<TierValue>, k: nat): TierValue {
    if k < |doc| then doc[k] else FieldTier()
  }

  /// The label of field `val` at time `t1` with colour `color`.
  function FieldLabel(val: string, t1: real, color: string): Label {
    Label(val, t1, None, Some(color))
  }

  /// One field added: label `l` goes to tier `k`, which is created when
  /// the list is only `k` tiers long.
  function AddField(doc: seq<TierValue>, k: nat, l: Label): (r: seq<TierValue>)
    requires k <= |doc|
    ensures |r| == if k < |doc| then |doc| else k + 1
    ensures r[k] == Added(TierFor(doc, k), l)
    ensures forall i :: 0 <= i < |doc| && i != k ==> r[i] == doc[i]
  {
    if k < |doc| then doc[k := Added(doc[k], l)] else doc + [Added(FieldTier(), l)]
  }

  /// The fields `vals[k..]` of one line added in order, field `i` to tier
  /// `i`.
  function AddFields(doc: seq<TierValue>, vals: seq<string>, k: nat, t1: real, color: string): (r: seq<TierValue>)
    requires k <= |doc| && k <= |vals|
    ensures |r| == if |vals| <= |doc| then |doc| else |vals|
    ensures forall i :: k <= i < |vals| ==> r[i] == Added(TierFor(doc, i), FieldLabel(vals[i], t1, color))
    ensures forall i :: 0 <= i < |doc| && !(k <= i < |vals|) ==> r[i] == doc[i]
    decreases |vals| - k
  {
    if k == |vals| then doc
    else
      var doc' := AddField(doc, k, FieldLabel(vals[k], t1, color));
      assert forall i :: k < i < |vals| ==> TierFor(doc', i) == TierFor(doc, i);
      var rest := AddFields(doc', vals, k + 1, t1, color);
      assert rest[k] == doc'[k];
      rest
  }

  /// What one body line holds: nothing (blank or a comment), or a time, a
  /// colour and the label fields.
  datatype BodyLine = Skip | Entry(t1: string, color: string, vals: seq<string>)

  /// A body line split as `line.strip().split(None, 2)` and unpacked into
  /// three names: fewer than three pieces is a ValueError.
  function EspsLine(line: string, sep: Option<string>): (r: Result<BodyLine>)
    ensures r.Err? ==> r.error == ValueError
    ensures r == Ok(Skip) <==> IsBlankOrComment(line)
    ensures !IsBlankOrComment(line) && |SplitWs(StripAscii(line), Some(2))| < 3 ==> r == Err(ValueError)
    ensures r.Ok? && r.value.Entry? ==>
              var parts := SplitWs(StripAscii(line), Some(2));
              |parts| == 3 && r.value.t1 == parts[0] && r.value.color == parts[1]
              && Split(parts[2], sep) == Ok(r.value.vals)
  {
    if IsBlankOrComment(line) then Ok(Skip)
    else
      var parts := SplitWs(StripAscii(line), Some(2));
      if |parts| != 3 then Err(ValueError)
      else
        var vals := Split(parts[2], sep);
        if vals.Err? then Err(vals.error) else Ok(Entry(parts[0], parts[1], vals.value))
  }

  /// The tiers after one line: unchanged for a blank or comment line,
  /// otherwise each field added to its tier. The time is converted when
  /// the first label is made: ValueError when it is not a number.
  function EspsAddLine(doc: seq<TierValue>, line: string, sep: Option<string>, parse: FloatParser): (r: Result<seq<TierValue>>)
  {
    var e := EspsLine(line, sep);
    if e.Err? then Err(e.error)
    else if e.value.Skip? || e.value.vals == [] then Ok(doc)
    else
      var t1 := ByteFloat(parse, e.value.t1);
      if t1.None? then Err(ValueError)
      else Ok(AddFields(doc, e.value.vals, 0, t1.value, e.value.color))
  }

  /// `read_esps` from body line `pos` on, with `doc` the tiers so far.
  function EspsFrom(lines: seq<string>, pos: nat, sep: Option<string>, parse: FloatParser,
                    doc: seq<TierValue>): Result<seq<TierValue>>
    decreases Measure(lines, pos)
  {
    var line := ReadLine(lines, pos);
    if line == "" then Ok(doc)
    else
      var next := EspsAddLine(doc, line, sep, parse);
      if next.Err? then next else EspsFrom(lines, pos + 1, sep, parse, next.value)
  }

  /// `read_esps(sep)` on a whole file: the header, then the body into a
  /// manager without tiers.
  function ReadEsps(lines: seq<string>, sep: Option<string>, parse: FloatParser): Result<seq<TierValue>> {
    var h := EspsHeader(lines, 0, sep);
    if h.Err? then Err(h.error) else EspsFrom(lines, h.value.1, h.value.0, parse, [])
  }

  // ---------------------------------------------------------------------
  // Properties

  /// The tiers ESPS reading builds stay well formed and sorted.
  predicate AllSorted(doc: seq<TierValue>) {
    forall i :: 0 <= i < |doc| ==> Consistent(doc[i]) && Sorted(doc[i].labels) && doc[i].kind == PointTier
  }

  lemma {:induction false} AddFieldsSorted(doc: seq<TierValue>, vals: seq<string>, t1: real, color: string)
    requires AllSorted(doc)
    ensures AllSorted(AddFields(doc, vals, 0, t1, color))
  {
    var r := AddFields(doc, vals, 0, t1, color);
    forall i | 0 <= i < |r|
      ensures Consistent(r[i]) && Sorted(r[i].labels) && r[i].kind == PointTier
    {
      if i < |vals| {
        var l := FieldLabel(vals[i], t1, color);
        AddedConsistent(TierFor(doc, i), l);
        AddedSorted(TierFor(doc, i), l);
      }
    }
  }

  /// Every tier an ESPS file gives is a consistent point tier, sorted by
  /// time.
  lemma {:induction false} EspsFromSorted(lines: seq<string>, pos: nat, sep: Option<string>, parse: FloatParser,
                                          doc: seq<TierValue>)
    requires AllSorted(doc)
    ensures EspsFrom(lines, pos, sep, parse, doc).Ok? ==> AllSorted(EspsFrom(lines, pos, sep, parse, doc).value)
    decreases Measure(lines, pos)
  {
    var line := ReadLine(lines, pos);
    if line != "" {
      var next := EspsAddLine(doc, line, sep, parse);
      if next.Ok? {
        var e := EspsLine(line, sep).value;
        if !(e.Skip? || e.vals == []) {
          AddFieldsSorted(doc, e.vals, ByteFloat(parse, e.t1).value, e.color);
        }
        EspsFromSorted(lines, pos + 1, sep, parse, next.value);
      }
    }
  }

  lemma ReadEspsSorted(lines: seq<string>, sep: Option<string>, parse: FloatParser)
    ensures ReadEsps(lines, sep, parse).Ok? ==> AllSorted(ReadEsps(lines, sep, parse).value)
  {
    var h := EspsHeader(lines, 0, sep);
    if h.Ok? {
      EspsFromSorted(lines, h.value.1, h.value.0, parse, []);
    }
  }

  // ---------------------------------------------------------------------
  // The reader object

  /// The header loop: lines up to and including the first `#` line, with
  /// the separator the last `separator` line gives.
  method ReadEspsHeader(lines: seq<string>, sep: Option<string>) returns (r: Result<(Option<string>, nat)>)
    ensures r == EspsHeader(lines, 0, sep)
  {
    var pos: nat := 0;
    var s := sep;
    while true
      invariant EspsHeader(lines, pos, s) == EspsHeader(lines, 0, sep)
      decreases Measure(lines, pos)
    {
      var line := ReadLine(lines, pos);
      if line == "" {
        return Err(ParseError);
      }
      var m := SeparatorValue(line);
      if m.Some? {
        s := m;
      }
      pos := pos + 1;
      if StartsWith(line, "#") {
        return Ok((s, pos));
      }
    }
  }

  /// One field: the `k`-th tier gains `l`, made and added to the manager
  /// first when there are only `k` tiers.
  method AddFieldTo(lm: LabelManager, k: nat, l: Label)
    requires lm.Valid() && lm.Distinct() && k <= |lm.tiers|
    modifies lm, lm.tiers
    ensures lm.Valid() && lm.Distinct()
    ensures forall i :: 0 <= i < |lm.tiers| ==> lm.tiers[i] in old(lm.tiers) || fresh(lm.tiers[i])
    ensures lm.Values() == AddField(old(lm.Values()), k, l)
  {
    if k == |lm.tiers| {
      var t := new Tier(PointTier, 0.0, Unbounded, "", 0);
      Append(lm, t);
    }
    lm.AddLabelAt(k, l);
  }

  /// One body line: each field added to its tier, a tier made and added
  /// to the manager for a field seen for the first time.
  method AddEspsLine(lm: LabelManager, line: string, sep: Option<string>, parse: FloatParser) returns (err: Option<Error>)
    requires lm.Valid() && lm.Distinct()
    modifies lm, lm.tiers
    ensures lm.Valid() && lm.Distinct()
    ensures forall i :: 0 <= i < |lm.tiers| ==> lm.tiers[i] in old(lm.tiers) || fresh(lm.tiers[i])
    ensures EspsAddLine(old(lm.Values()), line, sep, parse) == if err.Some? then Err(err.value) else Ok(lm.Values())
  {
    var e := EspsLine(line, sep);
    if e.Err? {
      return Some(e.error);
    }
    if e.value.Skip? || e.value.vals == [] {
      return None;
    }
    var vals := e.value.vals;
    var t1 := ByteFloat(parse, e.value.t1);
    if t1.None? {
      return Some(ValueError);
    }
    AddEntry(lm, vals, t1.value, e.value.color);
    return None;
  }

  /// The fields of one line, each added to its tier in turn.
  method AddEntry(lm: LabelManager, vals: seq<string>, t1: real, color: string)
    requires lm.Valid() && lm.Distinct()
    modifies lm, lm.tiers
    ensures lm.Valid() && lm.Distinct()
    ensures forall i :: 0 <= i < |lm.tiers| ==> lm.tiers[i] in old(lm.tiers) || fresh(lm.tiers[i])
    ensures lm.Values() == AddFields(old(lm.Values()), vals, 0, t1, color)
  {
    var k := 0;
    while k < |vals|
      invariant k <= |vals| && k <= |lm.tiers|
      invariant lm.Valid() && lm.Distinct()
      invariant forall i :: 0 <= i < |lm.tiers| ==> lm.tiers[i] in old(lm.tiers) || fresh(lm.tiers[i])
      invariant AddFields(lm.Values(), vals, k, t1, color) == AddFields(old(lm.Values()), vals, 0, t1, color)
    {
      AddFieldTo(lm, k, FieldLabel(vals[k], t1, color));
      k := k + 1;
    }
  }

  /// The body line `pos` as one step of `EspsFrom`: `more` is false at the
  /// end of the file.
  method ReadBodyLine(lm: LabelManager, lines: seq<string>, pos: nat, sep: Option<string>, parse: FloatParser)
    returns (err: Option<Error>, more: bool)
    requires lm.Valid() && lm.Distinct()
    modifies lm, lm.tiers
    ensures lm.Valid() && lm.Distinct()
    ensures forall i :: 0 <= i < |lm.tiers| ==> lm.tiers[i] in old(lm.tiers) || fresh(lm.tiers[i])
    ensures more ==> err.None? && pos < |lines|
                     && EspsFrom(lines, pos, sep, parse, old(lm.Values())) == EspsFrom(lines, pos + 1, sep, parse, lm.Values())
    ensures !more ==> EspsFrom(lines, pos, sep, parse, old(lm.Values())) == if err.Some? then Err(err.value) else Ok(lm.Values())
  {
    if ReadLine(lines, pos) == "" {
      return None, false;
    }
    err := AddEspsLine(lm, ReadLine(lines, pos), sep, parse);
    more := err.None?;
  }

  /// `LabelManager(from_file=..., from_type='esps')`: reads the file into a
  /// new manager, or fails with the error the reader raises.
  method ReadEspsFile(lines: seq<string>, sep: Option<string>, parse: FloatParser) returns (r: Result<LabelManager>)
    ensures r.Err? <==> ReadEsps(lines, sep, parse).Err?
    ensures r.Err? ==> r.error == ReadEsps(lines, sep, parse).error
    ensures r.Ok? ==> fresh(r.value) && r.value.Valid() && r.value.Distinct()
                      && r.value.Values() == ReadEsps(lines, sep, parse).value
  {
    var h := ReadEspsHeader(lines, sep);
    if h.Err? {
      return Err(h.error);
    }
    r := ReadEspsBody(lines, h.value.1, h.value.0, parse);
  }

  /// The body from line `start` on, into a new manager.
  method ReadEspsBody(lines: seq<string>, start: nat, sep: Option<string>, parse: FloatParser)
    returns (r: Result<LabelManager>)
    ensures r.Err? <==> EspsFrom(lines, start, sep, parse, []).Err?
    ensures r.Err? ==> r.error == EspsFrom(lines, start, sep, parse, []).error
    ensures r.Ok? ==> fresh(r.value) && r.value.Valid() && r.value.Distinct()
                      && r.value.Values() == EspsFrom(lines, start, sep, parse, []).value
  {
    var pos := start;
    var lm := new LabelManager();
    var err: Option<Error> := None;
    var more := true;
    while more
      invariant fresh(lm) && lm.Valid() && lm.Distinct()
      invariant forall i :: 0 <= i < |lm.tiers| ==> fresh(lm.tiers[i])
      invariant more ==> err.None? && EspsFrom(lines, pos, sep, parse, lm.Values()) == EspsFrom(lines, start, sep, parse, [])
      invariant !more ==> EspsFrom(lines, start, sep, parse, []) == if err.Some? then Err(err.value) else Ok(lm.Values())
      decreases more, |lines| - pos
    {
      err, more := ReadBodyLine(lm, lines, pos, sep, parse);
      pos := pos + 1;
    }
    if err.Some? {
      return Err(err.value);
    }
    return Ok(lm);
  }

  // ---------------------------------------------------------------------
  // A small file

  /// A header of the one line `#` ends there and leaves the separator
  /// unset.
  lemma HashLineEndsHeader(lines: seq<string>)
    requires |lines| > 0 && lines[0] == "#\n"
    ensures EspsHeader(lines, 0, None) == Ok((None, 1))
  {
    var s := "#\n";
    assert !LiteralAt(s, 0, "separator") && !LiteralAt(s, 1, "separator") && !LiteralAt(s, 2, "separator");
    assert Patterns.Search(s, 3, Separator) == None;
    assert Patterns.Search(s, 0, Separator) == None;
    assert StartsWith(s, "#");
  }

  /// A word: non-empty, no whitespace.
  predicate IsWord(w: string) {
    w != "" && forall i :: 0 <= i < |w| ==> !IsSpace(w[i])
  }

  /// A line `t1 colour content` with each part a single word splits into
  /// its three parts, the content one field.
  lemma {:induction false} EntryLine(t1: string, color: string, content: string)
    requires IsWord(t1) && IsWord(color) && IsWord(content) && t1[0] != '#'
    ensures EspsLine(t1 + " " + color + " " + content + "\n", None) == Ok(Entry(t1, color, [content]))
  {
    var line := t1 + " " + color + " " + content + "\n";
    assert Indent(line) == 0 && !IsBlankOrComment(line) by {
      assert line[0] == t1[0];
    }
    SplitThree(t1, color, content);
    SplitWsWord(content, IsSpace, None);
  }

  /// An entry line whose time reads as `x` adds its one field at `x` to
  /// the first tier.
  lemma {:induction false} EntryAdds(doc: seq<TierValue>, xs: string, color: string, t: string, x: real,
                                     parse: FloatParser)
    requires IsWord(xs) && IsWord(color) && IsWord(t) && xs[0] != '#'
    requires parse(xs) == Some(x)
    ensures EspsAddLine(doc, xs + " " + color + " " + t + "\n", None, parse)
            == Ok(AddField(doc, 0, FieldLabel(t, x, color)))
  {
    EntryLine(xs, color, t);
    StripAsciiKeepsUnpadded(xs);
    assert AddFields(AddField(doc, 0, FieldLabel(t, x, color)), [t], 1, x, color)
           == AddField(doc, 0, FieldLabel(t, x, color));
  }

  /// A label added to a new field tier is its only label, and the tier
  /// ends at it.
  lemma {:induction false} AddedToNew(l: Label)
    ensures AddField([], 0, l) == [TierValue(PointTier, "", 0.0, Finite(l.t1), [l], [Filled(l.t1)])]
  {
    var v := FieldTier();
    assert v.time == [] && v.labels == [];
    assert SearchSorted(v.time, l.t1) == 0;
    assert AddPosition(v, l) == 0;
    assert Seqs.InsertAt(v.labels, 0, l) == [l];
    assert v.time[..0] + [Filled(l.t1)] + v.time[0..] == [Filled(l.t1)];
  }

  /// A label later than the one label of a field tier goes after it, and
  /// the tier's end moves to it.
  lemma {:induction false} AddedAfter(a: Label, l: Label)
    requires a.t1 < l.t1
    ensures AddField([TierValue(PointTier, "", 0.0, Finite(a.t1), [a], [Filled(a.t1)])], 0, l)
            == [TierValue(PointTier, "", 0.0, Finite(l.t1), [a, l], [Filled(a.t1), Filled(l.t1)])]
  {
    var v := TierValue(PointTier, "", 0.0, Finite(a.t1), [a], [Filled(a.t1)]);
    assert SearchSorted(v.time, l.t1) == 1;
    assert AddPosition(v, l) == 1;
    assert Seqs.InsertAt(v.labels, 1, l) == [a, l];
    assert v.time[..1] + [Filled(l.t1)] + v.time[1..] == [Filled(a.t1), Filled(l.t1)];
  }

  /// The first entry of a file starts a point tier of its own.
  lemma {:induction false} FirstEntry(xs: string, c: string, t: string, x: real, parse: FloatParser)
    requires IsWord(xs) && IsWord(c) && IsWord(t) && xs[0] != '#'
    requires parse(xs) == Some(x)
    ensures EspsAddLine([], xs + " " + c + " " + t + "\n", None, parse)
            == Ok([TierValue(PointTier, "", 0.0, Finite(x), [FieldLabel(t, x, c)], [Filled(x)])])
  {
    EntryAdds([], xs, c, t, x, parse);
    AddedToNew(FieldLabel(t, x, c));
  }

  /// A later entry of a one-field file joins the first tier after what it
  /// holds, and the tier's end moves to it.
  lemma {:induction false} LaterEntry(a: Label, xs: string, c: string, t: string, x: real, parse: FloatParser)
    requires IsWord(xs) && IsWord(c) && IsWord(t) && xs[0] != '#'
    requires parse(xs) == Some(x)
    requires a.t1 < x
    ensures EspsAddLine([TierValue(PointTier, "", 0.0, Finite(a.t1), [a], [Filled(a.t1)])],
                        xs + " " + c + " " + t + "\n", None, parse)
            == Ok([TierValue(PointTier, "", 0.0, Finite(x), [a, FieldLabel(t, x, c)], [Filled(a.t1), Filled(x)])])
  {
    var v1 := TierValue(PointTier, "", 0.0, Finite(a.t1), [a], [Filled(a.t1)]);
    EntryAdds([v1], xs, c, t, x, parse);
    AddedAfter(a, FieldLabel(t, x, c));
  }

  /// A file of a `#` line and two entries in time order, such as
  /// `1.0 black eh` and `1.5 black t`, makes one point tier holding both
  /// labels with their colours, ending at the later time.
  lemma {:induction false} TwoEntryScenario(lines: seq<string>, parse: FloatParser,
                                            xs1: string, c1: string, t1: string, x1: real,
                                            xs2: string, c2: string, t2: string, x2: real)
    requires IsWord(xs1) && IsWord(c1) && IsWord(t1) && xs1[0] != '#'
    requires parse(xs1) == Some(x1)
    requires IsWord(xs2) && IsWord(c2) && IsWord(t2) && xs2[0] != '#'
    requires parse(xs2) == Some(x2)
    requires x1 < x2
    requires lines == ["#\n", xs1 + " " + c1 + " " + t1 + "\n", xs2 + " " + c2 + " " + t2 + "\n"]
    ensures ReadEsps(lines, None, parse)
            == Ok([TierValue(PointTier, "", 0.0, Finite(x2), [FieldLabel(t1, x1, c1), FieldLabel(t2, x2, c2)],
                             [Filled(x1), Filled(x2)])])
  {
    var a := FieldLabel(t1, x1, c1);
    var v1 := TierValue(PointTier, "", 0.0, Finite(x1), [a], [Filled(x1)]);
    var v2 := TierValue(PointTier, "", 0.0, Finite(x2), [a, FieldLabel(t2, x2, c2)], [Filled(x1), Filled(x2)]);
    HashLineEndsHeader(lines);
    FirstEntry(xs1, c1, t1, x1, parse);
    LaterEntry(a, xs2, c2, t2, x2, parse);
    assert EspsFrom(lines, 3, None, parse, [v2]) == Ok([v2]);
    assert EspsFrom(lines, 2, None, parse, [v1]) == Ok([v2]);
  }
}
