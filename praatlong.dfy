/// The long Praat TextGrid format: the header is skipped up to the first
/// `item [n]:` line, each tier opens with five metadata lines, and each
/// label is an entry line, its times and its text, which may run over
/// several lines up to the next entry line or the end of the file.
module PraatLong {
  import opened Wrappers
  import opened Text
  import opened Labels
  import opened Tiers
  import opened Manager
  import opened Patterns
  import opened Lines
  import opened Praat
  import Seqs

  /// The header skip of `read_praat_long` from line `pos`: the position of
  /// the first `item [n]:` line, or the bare exception when the file ends
  /// first.
  function SkipHeader(lines: seq<string>, pos: nat): (r: Result<nat>)
    ensures r.Ok? ==> pos <= r.value < |lines| && IsItemLine(lines[r.value])
    ensures r.Ok? ==> forall i :: pos <= i < r.value ==> !IsItemLine(lines[i])
    ensures r.Err? ==> r.error == ReadError
    decreases Measure(lines, pos)
  {
    var line := ReadLine(lines, pos);
    if IsItemLine(line) then Ok(pos)
    else if line == "" then Err(ReadError)
    else SkipHeader(lines, pos + 1)
  }

  /// `_read_praat_long_tier_metadata` on lines `p` to `p + 4`: class, name,
  /// start, end and label count, each found by its pattern (AttributeError
  /// for the first that does not match); then the tier constructor
  /// converts the times (ValueError). Only the class `IntervalTier` makes an
  /// interval tier.
  function LongMetadata(lines: seq<string>, p: nat, parse: FloatParser): (r: Result<TierHeader>)
    ensures r.Err? ==> r.error == AttributeError || r.error == ValueError
    ensures r.Ok? ==> (r.value.kind == IntervalTier <==> ClassValue(ReadLine(lines, p)) == Some("IntervalTier"))
    ensures r.Ok? ==> NameValue(ReadLine(lines, p + 1)) == Some(r.value.name)
    ensures r.Ok? ==> p < |lines|
    ensures r == Err(AttributeError) <==>
              || ClassValue(ReadLine(lines, p)).None? || NameValue(ReadLine(lines, p + 1)).None?
              || XminValue(ReadLine(lines, p + 2)).None? || XmaxValue(ReadLine(lines, p + 3)).None?
              || SizeValue(ReadLine(lines, p + 4)).None?
    ensures r.Ok? ==>
              && XminValue(ReadLine(lines, p + 2)).Some?
              && Float(parse, XminValue(ReadLine(lines, p + 2)).value) == Some(r.value.start)
              && XmaxValue(ReadLine(lines, p + 3)).Some?
              && FloatExtent(parse, XmaxValue(ReadLine(lines, p + 3)).value) == Some(r.value.end)
              && SizeValue(ReadLine(lines, p + 4)).Some?
              && ParseInt(SizeValue(ReadLine(lines, p + 4)).value) == Some(r.value.count as int)
  {
    var cls := ClassValue(ReadLine(lines, p));
    var name := NameValue(ReadLine(lines, p + 1));
    var xmin := XminValue(ReadLine(lines, p + 2));
    var xmax := XmaxValue(ReadLine(lines, p + 3));
    var size := SizeValue(ReadLine(lines, p + 4));
    if cls.None? || name.None? || xmin.None? || xmax.None? || size.None? then Err(AttributeError)
    else
      var start := Float(parse, xmin.value);
      var end := FloatExtent(parse, xmax.value);
      var n := ParseInt(size.value);
      if start.None? || end.None? || n.None? || n.value < 0 then Err(ValueError)
      else
        var kind := if cls.value == "IntervalTier" then IntervalTier else PointTier;
        Ok(TierHeader(kind, name.value, start.value, end.value, n.value))
  }

  /// Conversely, the five fields, once found and converted, make the
  /// header.
  lemma MetadataOfFields(lines: seq<string>, p: nat, parse: FloatParser, cls: string, xmin: string, xmax: string,
                         size: string, h: TierHeader)
    requires ClassValue(ReadLine(lines, p)) == Some(cls) && NameValue(ReadLine(lines, p + 1)) == Some(h.name)
    requires XminValue(ReadLine(lines, p + 2)) == Some(xmin) && XmaxValue(ReadLine(lines, p + 3)) == Some(xmax)
    requires SizeValue(ReadLine(lines, p + 4)) == Some(size)
    requires Float(parse, xmin) == Some(h.start) && FloatExtent(parse, xmax) == Some(h.end)
    requires ParseInt(size) == Some(h.count as int)
    requires h.kind == IntervalTier <==> cls == "IntervalTier"
    ensures LongMetadata(lines, p, parse) == Ok(h)
  {
  }

  /// The start of a label: its times and the first line of its text, and
  /// where the rest of the text begins.
  datatype LabelHead = LabelHead(text: string, t1: real, t2: Option<real>, next: nat)

  /// The label whose entry line is `pos`: the entry line is skipped, the
  /// next line holds `t1`, an interval tier's following line `t2`, and the
  /// line after that opens the text. A pattern that does not match raises
  /// AttributeError, a time `float` refuses ValueError.
  function ReadLabelHead(lines: seq<string>, pos: nat, parse: FloatParser, interval: bool): (r: Result<LabelHead>)
    ensures r.Err? ==> r.error == AttributeError || r.error == ValueError
    ensures r.Ok? ==> r.value.t2.Some? == interval && r.value.next == pos + (if interval then 4 else 3)
    ensures r.Ok? ==> pos + 1 < |lines| && T1Value(lines[pos + 1]).Some?
  {
    var m1 := T1Value(ReadLine(lines, pos + 1));
    if m1.None? then Err(AttributeError)
    else
      var t1 := Float(parse, m1.value);
      if t1.None? then Err(ValueError)
      else
        var m2 := if interval then T2Value(ReadLine(lines, pos + 2)) else None;
        if interval && m2.None? then Err(AttributeError)
        else
          var t2 := if interval then Float(parse, m2.value) else None;
          if interval && t2.None? then Err(ValueError)
          else
            var textpos := pos + (if interval then 3 else 2);
            var text := TextValue(ReadLine(lines, textpos));
            if text.None? then Err(AttributeError)
            else Ok(LabelHead(text.value, t1.value, t2, textpos + 1))
  }

  /// The rest of a label's text from line `p` on: each line joins the text,
  /// newline included, up to the next entry line or the end of the file,
  /// whose position comes back with the text.
  function GatherFrom(lines: seq<string>, p: nat, text: string): (r: (nat, string))
    ensures p <= r.0 && (IsEntryLine(ReadLine(lines, r.0)) || ReadLine(lines, r.0) == "")
    decreases Measure(lines, p)
  {
    var line := ReadLine(lines, p);
    if IsEntryLine(line) || line == "" then (p, text)
    else GatherFrom(lines, p + 1, text + line)
  }

  /// Gathering appends every line, newline included, from `p` up to the
  /// first entry line or the end of the file.
  lemma {:induction false} GatherJoins(lines: seq<string>, p: nat, text: string)
    requires p <= |lines|
    ensures GatherFrom(lines, p, text).0 <= |lines|
    ensures GatherFrom(lines, p, text).1 == text + Join(lines[p..GatherFrom(lines, p, text).0], "")
    decreases |lines| - p
  {
    var line := ReadLine(lines, p);
    if IsEntryLine(line) || line == "" {
      assert lines[p..p] == [];
      assert text + "" == text;
    } else {
      var next := p + 1;
      var g := GatherFrom(lines, next, text + line);
      assert GatherFrom(lines, p, text) == g;
      GatherJoins(lines, next, text + line);
      JoinedFrom(lines, p, next, g.0, text);
    }
  }

  /// Joining the lines from `p` to `e` onto a text is joining line `p`
  /// onto it, then the lines after.
  lemma JoinedFrom(lines: seq<string>, p: nat, next: nat, e: nat, text: string)
    requires next == p + 1 && next <= e <= |lines|
    ensures text + Join(lines[p..e], "") == (text + lines[p]) + Join(lines[next..e], "")
  {
    var rest := lines[next..e];
    assert lines[p..e] == [lines[p]] + rest;
    JoinPlainCons([lines[p]] + rest);
    assert ([lines[p]] + rest)[1..] == rest;
    Seqs.AppendAssoc(text, lines[p], Join(rest, ""));
  }

  datatype LongProgress = Done(result: Result<seq<TierValue>>)
                        | Going(pos: nat, done: seq<TierValue>, cur: TierValue)

  /// The label a finished text makes: the text cleaned, the times as read.
  function Gathered(text: string, t1: real, t2: Option<real>): Label {
    Label(CleanPraatString(text), t1, t2, None)
  }

  /// A label read from its entry line `pos` and added to `cur`: where its
  /// text ended, and the tier after the addition.
  datatype LabelRead = LabelRead(end: nat, tier: TierValue)

  /// The label at entry line `pos`: its head, the rest of its text, and
  /// `cur` with the label added.
  function LabelFrom(lines: seq<string>, pos: nat, parse: FloatParser, cur: TierValue): (r: Result<LabelRead>)
    ensures r.Ok? ==> pos < r.value.end
    ensures r.Ok? ==> IsEntryLine(ReadLine(lines, r.value.end)) || ReadLine(lines, r.value.end) == ""
  {
    var h := ReadLabelHead(lines, pos, parse, cur.kind == IntervalTier);
    if h.Err? then Err(h.error)
    else
      var g := GatherFrom(lines, h.value.next, h.value.text);
      Ok(LabelRead(g.0, Added(cur, Gathered(g.1, h.value.t1, h.value.t2))))
  }

  /// What the line `q` that ended a label's text makes the reader do, with
  /// `done` the tiers added and `tier` the one being filled: an `item` line
  /// adds `tier` and makes the next tier from the metadata after it, the
  /// end of the file adds `tier` and stops, and any other entry line is read
  /// again as the next label's entry line.
  function AfterLabel(lines: seq<string>, q: nat, parse: FloatParser,
                      done: seq<TierValue>, tier: TierValue): (r: LongProgress)
    ensures r.Going? ==> q <= r.pos
  {
    var line := ReadLine(lines, q);
    if IsItemLine(line) then
      var m := LongMetadata(lines, q + 1, parse);
      if m.Err? then Done(Err(m.error))
      else Going(q + 6, done + [tier], HeaderTier(m.value))
    else if line == "" then Done(Ok(done + [tier]))
    else Going(q, done, tier)
  }

  /// One pass of `read_praat_long`'s outer loop from the entry line `pos`.
  function LongNext(lines: seq<string>, pos: nat, parse: FloatParser,
                    done: seq<TierValue>, cur: TierValue): (r: LongProgress)
    ensures r.Going? ==> Measure(lines, r.pos) < Measure(lines, pos)
  {
    var l := LabelFrom(lines, pos, parse, cur);
    if l.Err? then Done(Err(l.error))
    else AfterLabel(lines, l.value.end, parse, done, l.value.tier)
  }

  /// `read_praat_long` from the entry line `pos` on.
  function LongFrom(lines: seq<string>, pos: nat, parse: FloatParser,
                    done: seq<TierValue>, cur: TierValue): Result<seq<TierValue>>
    decreases Measure(lines, pos)
  {
    var step := LongNext(lines, pos, parse, done, cur);
    if step.Done? then step.result
    else LongFrom(lines, step.pos, parse, step.done, step.cur)
  }

  /// `read_praat_long` on a whole file: the first line is the one the
  /// encoding is guessed from; the header is skipped from the second.
  function ReadLong(lines: seq<string>, parse: FloatParser): Result<seq<TierValue>> {
    var item := SkipHeader(lines, 1);
    if item.Err? then Err(item.error) else ReadLongAt(lines, item.value, parse)
  }

  /// The reading from the first `item` line `p` on: the first tier's
  /// metadata, then the labels and the tiers after.
  function ReadLongAt(lines: seq<string>, p: nat, parse: FloatParser): Result<seq<TierValue>> {
    var m := LongMetadata(lines, p + 1, parse);
    if m.Err? then Err(m.error)
    else LongFrom(lines, p + 6, parse, [], HeaderTier(m.value))
  }

  /// `_read_praat_long_tier_metadata`: a new, empty tier built from the
  /// metadata at line `p`.
  method ReadTierMetadata(lines: seq<string>, p: nat, parse: FloatParser) returns (r: Result<Tier>)
    ensures r.Err? <==> LongMetadata(lines, p, parse).Err?
    ensures r.Err? ==> r.error == LongMetadata(lines, p, parse).error
    ensures r.Ok? ==> fresh(r.value) && r.value.Valid()
                      && r.value.Value() == HeaderTier(LongMetadata(lines, p, parse).value)
  {
    var m := LongMetadata(lines, p, parse);
    if m.Err? {
      return Err(m.error);
    }
    var t := new Tier(m.value.kind, m.value.start, m.value.end, m.value.name, m.value.count);
    return Ok(t);
  }

  /// The header skip: the first `item [n]:` line from the second line on.
  method SkipToFirstItem(lines: seq<string>) returns (r: Result<nat>)
    ensures r == SkipHeader(lines, 1)
  {
    var item: nat := 1;
    while !IsItemLine(ReadLine(lines, item))
      invariant SkipHeader(lines, item) == SkipHeader(lines, 1)
      decreases Measure(lines, item)
    {
      if ReadLine(lines, item) == "" {
        return Err(ReadError);
      }
      item := item + 1;
    }
    return Ok(item);
  }

  /// The inner loop of `read_praat_long`: the rest of a label's text.
  method GatherText(lines: seq<string>, p: nat, text: string) returns (q: nat, full: string)
    ensures (q, full) == GatherFrom(lines, p, text)
  {
    q, full := p, text;
    while !(IsEntryLine(ReadLine(lines, q)) || ReadLine(lines, q) == "")
      invariant GatherFrom(lines, q, full) == GatherFrom(lines, p, text)
      decreases Measure(lines, q)
    {
      full := full + ReadLine(lines, q);
      q := q + 1;
    }
  }

  /// The label at entry line `pos`, added to `cur`; `end` is the line that
  /// ended its text.
  method ReadLongLabel(lm: LabelManager, cur: Tier, lines: seq<string>, pos: nat, parse: FloatParser)
    returns (err: Option<Error>, end: nat)
    requires Building(lm, cur)
    modifies cur
    ensures LabelFrom(lines, pos, parse, old(cur.Value()))
            == if err.Some? then Err(err.value) else Ok(LabelRead(end, cur.Value()))
    ensures Building(lm, cur) && lm.Values() == old(lm.Values())
  {
    var h := ReadLabelHead(lines, pos, parse, cur.kind == IntervalTier);
    if h.Err? {
      return Some(h.error), pos;
    }
    var text;
    end, text := GatherText(lines, h.value.next, h.value.text);
    cur.Add(Gathered(text, h.value.t1, h.value.t2));
    return None, end;
  }

  /// The line `q` that ended a label's text: at an `item` line or the end of
  /// the file the tier is stored, and after an `item` line the next tier is
  /// made. `next` is null when the reader stops or fails, or else the tier
  /// to fill from the entry line `npos`.
  method AfterLongLabel(lm: LabelManager, cur: Tier, lines: seq<string>, q: nat, parse: FloatParser)
    returns (err: Option<Error>, next: Tier?, npos: nat)
    requires Building(lm, cur)
    modifies lm
    ensures var step := AfterLabel(lines, q, parse, old(lm.Values()), cur.Value());
            && (err.Some? ==> step == Done(Err(err.value)))
            && (err.None? && next == null ==> step == Done(Ok(lm.Values())) && Building(lm, null))
            && (next != null ==> err.None? && step == Going(npos, lm.Values(), next.Value())
                                 && Building(lm, next) && (next == cur || fresh(next)))
  {
    var line := ReadLine(lines, q);
    if IsItemLine(line) {
      Append(lm, cur);
      var t := ReadTierMetadata(lines, q + 1, parse);
      if t.Err? {
        return Some(t.error), null, q;
      }
      return None, t.value, q + 6;
    } else if line == "" {
      Append(lm, cur);
      return None, null, q;
    }
    return None, cur, q;
  }

  /// One pass of the outer loop: a label, then what its ending line says.
  method LongPass(lm: LabelManager, cur: Tier, lines: seq<string>, pos: nat, parse: FloatParser)
    returns (err: Option<Error>, next: Tier?, npos: nat)
    requires Building(lm, cur)
    modifies lm, cur
    ensures var step := LongNext(lines, pos, parse, old(lm.Values()), old(cur.Value()));
            && (err.Some? ==> step == Done(Err(err.value)))
            && (err.None? && next == null ==> step == Done(Ok(lm.Values())) && Building(lm, null))
            && (next != null ==> err.None? && step == Going(npos, lm.Values(), next.Value())
                                 && Building(lm, next) && (next == cur || fresh(next)))
  {
    var end;
    err, end := ReadLongLabel(lm, cur, lines, pos, parse);
    if err.Some? {
      return err, null, pos;
    }
    err, next, npos := AfterLongLabel(lm, cur, lines, end, parse);
  }

  /// Once the header is skipped and the first tier's metadata read, the
  /// rest of the reading is the outer loop from the line after the size.
  lemma ReadLongOpening(lines: seq<string>, parse: FloatParser, p: nat, first: TierValue)
    requires SkipHeader(lines, 1) == Ok(p)
    requires LongMetadata(lines, p + 1, parse).Ok? && first == HeaderTier(LongMetadata(lines, p + 1, parse).value)
    ensures ReadLong(lines, parse) == LongFrom(lines, p + 6, parse, [], first)
  {
  }

  /// `LabelManager(from_file=..., from_type='praat_long')`: reads the file
  /// into a new manager, or fails with the error the reader raises.
  method ReadPraatLong(lines: seq<string>, parse: FloatParser) returns (r: Result<LabelManager>)
    ensures r.Err? <==> ReadLong(lines, parse).Err?
    ensures r.Err? ==> r.error == ReadLong(lines, parse).error
    ensures r.Ok? ==> fresh(r.value) && r.value.Valid() && r.value.Distinct()
                      && r.value.Values() == ReadLong(lines, parse).value
  {
    var item := SkipToFirstItem(lines);
    if item.Err? {
      return Err(item.error);
    }
    var first := ReadTierMetadata(lines, item.value + 1, parse);
    if first.Err? {
      return Err(first.error);
    }
    var lm := new LabelManager();
    var tier := first.value;
    var pos := item.value + 6;
    ReadLongOpening(lines, parse, item.value, tier.Value());
    while true
      invariant fresh(lm) && fresh(tier) && Building(lm, tier)
      invariant LongFrom(lines, pos, parse, lm.Values(), tier.Value()) == ReadLong(lines, parse)
      decreases Measure(lines, pos)
    {
      var err, next, npos := LongPass(lm, tier, lines, pos, parse);
      if err.Some? {
        return Err(err.value);
      }
      if next == null {
        return Ok(lm);
      }
      tier, pos := next, npos;
    }
  }
}
