/// Writing a label manager as a Praat TextGrid in the short text format,
/// and what reading the written lines gives back. The output
/// is the sequence of lines that the source joins with newlines; a file
/// read back holds those lines, each ended by its newline but the last.
module PraatWriter {
  import opened Wrappers
  import opened Text
  import opened Labels
  import opened Tiers
  import opened Manager
  import opened Patterns
  import opened Lines
  import opened Praat
  import opened PraatLong
  import opened Seqs

  // ---------------------------------------------------------------------
  // Files and numbers

  /// The lines `readline` returns for the text `'\n'.join(ws)`, when no
  /// written line holds a line break.
  function FileLines(ws: seq<string>): (r: seq<string>)
    ensures |r| == |ws|
  {
    seq(|ws|, i requires 0 <= i < |ws| => if i + 1 < |ws| then ws[i] + "\n" else ws[i])
  }

  /// A line as read: the written line, with or without its newline.
  predicate HoldsLine(line: string, w: string) {
    line == w || line == w + "\n"
  }

  /// The lines from `pos` on hold the written lines `ws`, one by one.
  predicate Written(lines: seq<string>, pos: nat, ws: seq<string>)
    decreases |ws|
  {
    pos + |ws| <= |lines| && (ws != [] ==> HoldsLine(lines[pos], ws[0]) && Written(lines, pos + 1, ws[1..]))
  }

  /// `Written`, line by line.
  predicate HoldsLines(lines: seq<string>, pos: nat, ws: seq<string>) {
    pos + |ws| <= |lines| && forall i :: 0 <= i < |ws| ==> HoldsLine(lines[pos + i], ws[i])
  }

  lemma {:induction false} WrittenHolds(lines: seq<string>, pos: nat, ws: seq<string>)
    requires Written(lines, pos, ws)
    ensures HoldsLines(lines, pos, ws)
    decreases |ws|
  {
    if ws != [] {
      WrittenHolds(lines, pos + 1, ws[1..]);
      forall i | 0 < i < |ws|
        ensures HoldsLine(lines[pos + i], ws[i])
      {
        assert HoldsLine(lines[pos + 1 + (i - 1)], ws[1..][i - 1]);
      }
    }
  }

  lemma {:induction false} HoldsWritten(lines: seq<string>, pos: nat, ws: seq<string>)
    requires HoldsLines(lines, pos, ws)
    ensures Written(lines, pos, ws)
    decreases |ws|
  {
    if ws != [] {
      assert HoldsLine(lines[pos], ws[0]);
      forall i | 0 <= i < |ws| - 1
        ensures HoldsLine(lines[pos + 1 + i], ws[1..][i])
      {
        assert HoldsLine(lines[pos + (i + 1)], ws[i + 1]);
      }
      HoldsWritten(lines, pos + 1, ws[1..]);
    }
  }

  lemma FileLinesWritten(ws: seq<string>)
    ensures Written(FileLines(ws), 0, ws)
  {
    HoldsWritten(FileLines(ws), 0, ws);
  }

  lemma {:induction false} WrittenSplit(lines: seq<string>, pos: nat, a: seq<string>, b: seq<string>)
    requires Written(lines, pos, a + b)
    ensures Written(lines, pos, a) && Written(lines, pos + |a|, b)
    decreases |a|
  {
    if a != [] {
      assert (a + b)[0] == a[0];
      assert (a + b)[1..] == a[1..] + b;
      WrittenSplit(lines, pos + 1, a[1..], b);
    } else {
      assert a + b == b;
    }
  }

  /// `WrittenSplit`, with the line where the second part begins named.
  lemma WrittenSplitAt(lines: seq<string>, pos: nat, a: seq<string>, b: seq<string>, mid: nat)
    requires Written(lines, pos, a + b) && mid == pos + |a|
    ensures Written(lines, pos, a) && Written(lines, mid, b)
  {
    WrittenSplit(lines, pos, a, b);
  }

  lemma {:induction false} WrittenSuffix(lines: seq<string>, pos: nat, ws: seq<string>, k: nat)
    requires Written(lines, pos, ws) && k <= |ws|
    ensures Written(lines, pos + k, ws[k..])
    decreases k
  {
    if k > 0 {
      WrittenSuffix(lines, pos + 1, ws[1..], k - 1);
      assert ws[1..][k - 1..] == ws[k..];
    }
  }

  /// What `'{:0.Nf}'.format(x)` gives for a finite `x`: a minus sign
  /// exactly when `x` is negative, then a digit, then digits and a point.
  predicate IsFixedPoint(s: string, x: real) {
    var b := if x < 0.0 then 1 else 0;
    && b < |s| && (x < 0.0 ==> s[0] == '-') && IsDigit(s[b])
    && forall i :: b < i < |s| ==> IsDecimalChar(s[i])
  }

  /// The formatter writes `x` with `places` decimals in that shape, and the
  /// parser reads that text back as `x`.
  predicate ReadsBack(num: FloatFormatter, parse: FloatParser, places: nat, x: real) {
    IsFixedPoint(num(places, x), x) && parse(num(places, x)) == Some(x)
  }

  /// A line holding a formatted number is not blank, not a class line,
  /// and converts back to the number.
  lemma NumberLine(num: FloatFormatter, parse: FloatParser, places: nat, x: real, line: string)
    requires ReadsBack(num, parse, places, x) && HoldsLine(line, num(places, x))
    ensures line != "" && Strip(line) == num(places, x)
    ensures !IsShortTierLine(Strip(line)) && !IsInfinityText(Strip(line))
    ensures Float(parse, line) == Some(x)
  {
    var s := num(places, x);
    StripNewline(s);
    StripKeepsUnpadded(s);
    assert s[|s| - 1] == '-' || IsDecimalChar(s[|s| - 1]);
    assert !IsShortTierLine(s) by {
      assert s[0] != '"';
    }
    assert s[0] == '-' || IsDigit(s[0]);
    var l := seq(|s|, i requires 0 <= i < |s| => Lower(s[i]));
    assert l[0] == s[0];
  }

  /// A line holding a count converts back to the count.
  lemma CountLine(n: nat, line: string)
    requires HoldsLine(line, NatToString(n))
    ensures ParseInt(line) == Some(n)
  {
    StripNewline(NatToString(n));
    ParseIntNatToString(n);
  }

  /// A line holding a quoted text reads back as the text.
  lemma QuotedLine(text: string, line: string)
    requires HoldsLine(line, Quote(text))
    ensures line != "" && Strip(line) == Quote(text)
    ensures CleanPraatString(line) == text
  {
    StripNewline(Quote(text));
    StripKeepsUnpadded(Quote(text));
    CleanQuote(text);
  }

  // ---------------------------------------------------------------------
  // The short format

  /// The class name a tier is written with.
  function ClassName(kind: TierKind): string {
    if kind == IntervalTier then "IntervalTier" else "TextTier"
  }

  /// How the short writer quotes a label's text: `Verbatim` as the source
  /// writes it, between quotes with the quotes inside left as they are;
  /// `Doubled` with Praat's quoting, inner quotes doubled, as the long
  /// writer already does it.
  datatype Quoting = Verbatim | Doubled

  /// `'"{:s}"'.format(text)`, or the text quoted with its inner quotes
  /// doubled.
  function ShortTextLine(q: Quoting, text: string): (r: string)
    ensures |r| >= 2 && r[0] == '"' && r[|r| - 1] == '"'
  {
    match q
    case Verbatim => "\"" + text + "\""
    case Doubled => Quote(text)
  }

  /// The five lines that open a tier: class, quoted name (not escaped),
  /// start and end with 12 decimals, and the label count.
  function ShortHeaderLines(v: TierValue, num: FloatFormatter): seq<string> {
    ["\"" + ClassName(v.kind) + "\"", "\"" + v.name + "\"", num(12, v.start),
     ExtentText(num, 12, v.end), NatToString(|v.labels|)]
  }

  /// The lines of one label: `t1`, an interval's `t2`, each with 20
  /// decimals, then the text. An interval without `t2` cannot be
  /// formatted: ValueError.
  function ShortLabelLines(kind: TierKind, l: Label, num: FloatFormatter, q: Quoting): (r: Result<seq<string>>)
    ensures r.Err? <==> kind == IntervalTier && l.t2.None?
    ensures r.Err? ==> r.error == ValueError
    ensures r.Ok? ==> |r.value| == ShortLabelSize(kind == IntervalTier)
  {
    if kind.PointTier? then Ok([num(20, l.t1), ShortTextLine(q, l.text)])
    else if l.t2.None? then Err(ValueError)
    else Ok([num(20, l.t1), num(20, l.t2.value), ShortTextLine(q, l.text)])
  }

  /// Every label of a tier can be written.
  predicate Writable(kind: TierKind, labels: seq<Label>) {
    kind == IntervalTier ==> forall i :: 0 <= i < |labels| ==> labels[i].t2.Some?
  }

  /// The lines of a tier's labels, in tier order.
  function ShortLabelsLines(kind: TierKind, labels: seq<Label>, num: FloatFormatter, q: Quoting): (r: Result<seq<string>>)
    ensures r.Ok? <==> Writable(kind, labels)
    ensures r.Err? ==> r.error == ValueError
    decreases |labels|
  {
    if labels == [] then Ok([])
    else
      var h := ShortLabelLines(kind, labels[0], num, q);
      var t := ShortLabelsLines(kind, labels[1..], num, q);
      assert forall i :: 1 <= i < |labels| ==> labels[i] == labels[1..][i - 1];
      if h.Err? then Err(h.error)
      else if t.Err? then Err(t.error)
      else Ok(h.value + t.value)
  }

  /// `_as_string('praat_short')` of a tier.
  function TierShortLines(v: TierValue, num: FloatFormatter, q: Quoting): (r: Result<seq<string>>)
    ensures r.Ok? <==> Writable(v.kind, v.labels)
  {
    var ls := ShortLabelsLines(v.kind, v.labels, num, q);
    if ls.Err? then Err(ls.error) else Ok(ShortHeaderLines(v, num) + ls.value)
  }

  /// The tiers' lines, one tier after the other.
  function TiersShortLines(doc: seq<TierValue>, num: FloatFormatter, q: Quoting): (r: Result<seq<string>>)
    ensures r.Ok? <==> forall i :: 0 <= i < |doc| ==> Writable(doc[i].kind, doc[i].labels)
    ensures r.Err? ==> r.error == ValueError
    decreases |doc|
  {
    if doc == [] then Ok([])
    else
      var h := TierShortLines(doc[0], num, q);
      var t := TiersShortLines(doc[1..], num, q);
      assert forall i :: 1 <= i < |doc| ==> doc[i] == doc[1..][i - 1];
      if h.Err? then Err(h.error)
      else if t.Err? then Err(t.error)
      else Ok(h.value + t.value)
  }

  /// The seven lines that open a file: file type, object class, a blank
  /// line, start and end, the tiers flag and the tier count.
  function FileHeaderLines(start: string, end: string, count: string): seq<string> {
    ["File type = \"ooTextFile\"", "Object class = \"TextGrid\"", "", start, end, "<exists>", count]
  }

  /// `LabelManager._as_string('praat_short')`: the file header, with the
  /// earliest start and latest end over the tiers in 20 decimals, then
  /// each tier. A manager without tiers has no start: ValueError.
  function ManagerShortLines(doc: seq<TierValue>, num: FloatFormatter, q: Quoting): (r: Result<seq<string>>)
    ensures r.Ok? <==> |doc| > 0 && forall i :: 0 <= i < |doc| ==> Writable(doc[i].kind, doc[i].labels)
    ensures r.Err? ==> r.error == ValueError
  {
    var start := DocStart(doc);
    var end := DocEnd(doc);
    if start.Err? then Err(start.error)
    else
      var tiers := TiersShortLines(doc, num, q);
      if tiers.Err? then Err(tiers.error)
      else Ok(FileHeaderLines(num(20, start.value), ExtentText(num, 20, end.value), NatToString(|doc|))
              + tiers.value)
  }

  // ---------------------------------------------------------------------
  // Reading the short format back

  /// A label as the reader makes it: the text and times kept, `t2` only on
  /// an interval tier, no application data.
  function Reread(kind: TierKind, l: Label): Label {
    Label(l.text, l.t1, if kind == IntervalTier then l.t2 else None, None)
  }

  function RereadAll(kind: TierKind, labels: seq<Label>): (r: seq<Label>)
    ensures |r| == |labels|
  {
    seq(|labels|, i requires 0 <= i < |labels| => Reread(kind, labels[i]))
  }

  /// The tier a reader builds from a written tier: one with the written
  /// header, to which the written labels are added one by one.
  function Reloaded(v: TierValue): TierValue {
    AddAll(EmptyTier(v.kind, v.name, v.start, v.end, |v.labels|), RereadAll(v.kind, v.labels))
  }

  /// Every time of a label converts back from its written form.
  predicate LabelReadsBack(num: FloatFormatter, parse: FloatParser, kind: TierKind, l: Label) {
    ReadsBack(num, parse, 20, l.t1) && (kind == IntervalTier && l.t2.Some? ==> ReadsBack(num, parse, 20, l.t2.value))
  }

  /// Every time of a tier converts back from its written form.
  predicate TierReadsBack(num: FloatFormatter, parse: FloatParser, v: TierValue) {
    match v
    case TierValue(kind, _, start, end, labels, _) =>
      && ReadsBack(num, parse, 12, start)
      && (end.Finite? ==> ReadsBack(num, parse, 12, end.t))
      && LabelsReadBack(num, parse, kind, labels)
  }

  /// Every tier's numbers read back.
  predicate DocReadsBack(num: FloatFormatter, parse: FloatParser, doc: seq<TierValue>)
    decreases |doc|
  {
    doc != [] ==> TierReadsBack(num, parse, doc[0]) && DocReadsBack(num, parse, doc[1..])
  }

  lemma AddedKind(v: TierValue, l: Label)
    ensures Added(v, l).kind == v.kind
  {
  }

  /// The short reader takes a written label as one label of the tier being
  /// read.
  lemma ShortLabelReadBack(lines: seq<string>, q: nat, parse: FloatParser, num: FloatFormatter,
                           done: seq<TierValue>, acc: TierValue, l: Label)
    requires ShortLabelLines(acc.kind, l, num, Doubled).Ok?
    requires Written(lines, q, ShortLabelLines(acc.kind, l, num, Doubled).value)
    requires LabelReadsBack(num, parse, acc.kind, l)
    ensures ShortNext(lines, q, parse, done, Some(acc))
            == Continue(q + |ShortLabelLines(acc.kind, l, num, Doubled).value|, done, Some(Added(acc, Reread(acc.kind, l))))
  {
    var ws := ShortLabelLines(acc.kind, l, num, Doubled).value;
    WrittenHolds(lines, q, ws);
    var interval := acc.kind == IntervalTier;
    assert ws == if interval then [num(20, l.t1), num(20, l.t2.value), Quote(l.text)]
                 else [num(20, l.t1), Quote(l.text)];
    assert HoldsLine(lines[q], ws[0]) && HoldsLine(lines[q + 1], ws[1]);
    assert interval ==> HoldsLine(lines[q + 2], ws[2]);
    NumberLine(num, parse, 20, l.t1, lines[q]);
    assert ReadLine(lines, q) == lines[q];
    if interval {
      NumberLine(num, parse, 20, l.t2.value, lines[q + 1]);
      assert ReadLine(lines, q + 1) == lines[q + 1];
      QuotedLine(l.text, lines[q + 2]);
      assert ReadLine(lines, q + 2) == lines[q + 2];
    } else {
      QuotedLine(l.text, lines[q + 1]);
      assert ReadLine(lines, q + 1) == lines[q + 1];
    }
    assert ShortLabel(lines, q, parse, interval) == Ok(Reread(acc.kind, l));
  }

  /// Every label's numbers read back.
  predicate LabelsReadBack(num: FloatFormatter, parse: FloatParser, kind: TierKind, labels: seq<Label>)
    decreases |labels|
  {
    labels != [] ==> LabelReadsBack(num, parse, kind, labels[0]) && LabelsReadBack(num, parse, kind, labels[1..])
  }

  /// The rebuilt labels are the first label rebuilt, then the rest.
  lemma RereadAllCons(kind: TierKind, labels: seq<Label>)
    requires labels != []
    ensures RereadAll(kind, labels)[0] == Reread(kind, labels[0])
    ensures RereadAll(kind, labels)[1..] == RereadAll(kind, labels[1..])
  {
  }

  /// The lines of a non-empty list of labels, written from `q` on, are
  /// those of the first label, then those of the rest.
  lemma ShortLabelsLinesCons(lines: seq<string>, q: nat, kind: TierKind, labels: seq<Label>, num: FloatFormatter,
                             ws: seq<string>) returns (h: seq<string>, t: seq<string>)
    requires labels != [] && ShortLabelsLines(kind, labels, num, Doubled) == Ok(ws) && Written(lines, q, ws)
    ensures ShortLabelLines(kind, labels[0], num, Doubled) == Ok(h) && Written(lines, q, h)
    ensures ShortLabelsLines(kind, labels[1..], num, Doubled) == Ok(t) && Written(lines, q + |h|, t)
    ensures |ws| == |h| + |t|
  {
    h := ShortLabelLines(kind, labels[0], num, Doubled).value;
    t := ShortLabelsLines(kind, labels[1..], num, Doubled).value;
    assert ws == h + t;
    WrittenSplit(lines, q, h, t);
  }

  /// Each label takes the same number of lines.
  lemma {:induction false} ShortLabelsLinesSize(kind: TierKind, labels: seq<Label>, num: FloatFormatter)
    requires ShortLabelsLines(kind, labels, num, Doubled).Ok?
    ensures |ShortLabelsLines(kind, labels, num, Doubled).value| == |labels| * ShortLabelSize(kind == IntervalTier)
    decreases |labels|
  {
    if labels != [] {
      ShortLabelsLinesSize(kind, labels[1..], num);
    }
  }

  /// A tier takes its header lines and then the same number of lines for
  /// each label.
  lemma TierShortLinesSize(v: TierValue, num: FloatFormatter)
    requires TierShortLines(v, num, Doubled).Ok?
    ensures |TierShortLines(v, num, Doubled).value| == TierSize(v)
  {
    ShortLabelsLinesSize(v.kind, v.labels, num);
  }

  // ---------------------------------------------------------------------
  // The reader's steps over written lines

  /// The short reader, at line `q` with the tier `acc` being filled, adds
  /// the labels `rs` one per step, and then is at line `stop`.
  predicate LabelSteps(lines: seq<string>, q: nat, stop: nat, parse: FloatParser,
                       done: seq<TierValue>, acc: TierValue, rs: seq<Label>)
    decreases |rs|
  {
    if rs == [] then q == stop
    else
      var q' := q + ShortLabelSize(acc.kind == IntervalTier);
      && ShortNext(lines, q, parse, done, Some(acc)) == Continue(q', done, Some(Added(acc, rs[0])))
      && LabelSteps(lines, q', stop, parse, done, Added(acc, rs[0]), rs[1..])
  }

  /// The lines a written tier takes: its header, then its labels.
  function TierSize(v: TierValue): nat {
    5 + |v.labels| * ShortLabelSize(v.kind == IntervalTier)
  }

  /// From line `p`, whatever it has stored and is filling, the short
  /// reader takes the tier `v` whole, rebuilt, after storing the tier it
  /// was filling.
  ghost predicate TierStep(lines: seq<string>, p: nat, parse: FloatParser, v: TierValue) {
    forall done: seq<TierValue>, cur: Option<TierValue> ::
      ShortFrom(lines, p, parse, done, cur) == ShortFrom(lines, p + TierSize(v), parse, Flush(done, cur), Some(Reloaded(v)))
  }

  /// From line `p`, the short reader takes each tier of `doc` whole and is
  /// then at the end of the file.
  ghost predicate DocSteps(lines: seq<string>, p: nat, parse: FloatParser, doc: seq<TierValue>)
    decreases |doc|
  {
    if doc == [] then p == |lines|
    else TierStep(lines, p, parse, doc[0]) && DocSteps(lines, p + TierSize(doc[0]), parse, doc[1..])
  }

  /// The short reader goes on from where one step leaves it.
  lemma FromNext(lines: seq<string>, pos: nat, parse: FloatParser, done: seq<TierValue>, cur: Option<TierValue>,
                 pos': nat, done': seq<TierValue>, cur': Option<TierValue>)
    requires ShortNext(lines, pos, parse, done, cur) == Continue(pos', done', cur')
    ensures ShortFrom(lines, pos, parse, done, cur) == ShortFrom(lines, pos', parse, done', cur')
  {
  }

  /// Over label steps, the reader ends with the labels added in order.
  lemma {:induction false} LabelStepsFrom(lines: seq<string>, q: nat, stop: nat, parse: FloatParser,
                                          done: seq<TierValue>, acc: TierValue, rs: seq<Label>, filled: TierValue)
    requires LabelSteps(lines, q, stop, parse, done, acc, rs)
    requires filled == AddAll(acc, rs)
    ensures ShortFrom(lines, q, parse, done, Some(acc)) == ShortFrom(lines, stop, parse, done, Some(filled))
    decreases |rs|
  {
    if rs != [] {
      var q' := q + ShortLabelSize(acc.kind == IntervalTier);
      var acc' := Added(acc, rs[0]);
      AddAllStep(acc, rs);
      LabelStepsFrom(lines, q', stop, parse, done, acc', rs[1..], filled);
      FromNext(lines, q, parse, done, Some(acc), q', done, Some(acc'));
    }
  }

  /// Over the steps of one tier, the reader stores the tier it was reading
  /// and ends with the written tier rebuilt.
  lemma TierStepsFrom(lines: seq<string>, p: nat, stop: nat, parse: FloatParser,
                      done: seq<TierValue>, cur: Option<TierValue>, v: TierValue, empty: TierValue)
    requires empty == EmptyTier(v.kind, v.name, v.start, v.end, |v.labels|)
    requires ShortNext(lines, p, parse, done, cur) == Continue(p + 5, Flush(done, cur), Some(empty))
    requires LabelSteps(lines, p + 5, stop, parse, Flush(done, cur), empty, RereadAll(v.kind, v.labels))
    ensures ShortFrom(lines, p, parse, done, cur) == ShortFrom(lines, stop, parse, Flush(done, cur), Some(Reloaded(v)))
  {
    LabelStepsFrom(lines, p + 5, stop, parse, Flush(done, cur), empty, RereadAll(v.kind, v.labels), Reloaded(v));
    FromNext(lines, p, parse, done, cur, p + 5, Flush(done, cur), Some(empty));
  }

  lemma NothingFlushed(tiers: seq<TierValue>)
    ensures Flush([], None) + tiers == tiers
  {
  }

  /// The tiers a reader builds from written tiers.
  function Reloads(doc: seq<TierValue>): (r: seq<TierValue>)
    ensures |r| == |doc|
    decreases |doc|
  {
    if doc == [] then [] else [Reloaded(doc[0])] + Reloads(doc[1..])
  }

  /// At the end of the file the short reader stores the tier it was
  /// reading and stops.
  lemma ShortAtEnd(lines: seq<string>, p: nat, parse: FloatParser, done: seq<TierValue>, cur: Option<TierValue>)
    requires p == |lines|
    ensures ShortFrom(lines, p, parse, done, cur) == Ok(Flush(done, cur))
  {
    assert ReadLine(lines, p) == "";
  }

  lemma FlushThen(done: seq<TierValue>, v: TierValue, rest: seq<TierValue>)
    ensures Flush(done, Some(v)) + rest == done + ([v] + rest)
  {
  }

  lemma ReloadsCons(done: seq<TierValue>, doc: seq<TierValue>)
    requires doc != []
    ensures Flush(done, Some(Reloaded(doc[0]))) + Reloads(doc[1..]) == done + Reloads(doc)
  {
    var v := Reloaded(doc[0]);
    var rest := Reloads(doc[1..]);
    assert Reloads(doc) == [v] + rest;
    FlushThen(done, v, rest);
  }

  /// Steps over a first tier and then the rest are steps over them all.
  lemma DocStepsCons(lines: seq<string>, p: nat, parse: FloatParser, doc: seq<TierValue>)
    requires doc != [] && TierStep(lines, p, parse, doc[0])
    requires DocSteps(lines, p + TierSize(doc[0]), parse, doc[1..])
    ensures DocSteps(lines, p, parse, doc)
  {
  }

  /// Over the steps of whole tiers, the reader ends with the stored tiers
  /// and then the rebuilt ones.
  lemma {:induction false} DocStepsFrom(lines: seq<string>, p: nat, parse: FloatParser,
                                        done: seq<TierValue>, cur: Option<TierValue>, doc: seq<TierValue>)
    requires DocSteps(lines, p, parse, doc)
    ensures ShortFrom(lines, p, parse, done, cur) == Ok(Flush(done, cur) + Reloads(doc))
    decreases |doc|
  {
    if doc == [] {
      ShortAtEnd(lines, p, parse, done, cur);
      assert Flush(done, cur) + Reloads(doc) == Flush(done, cur);
    } else {
      var done' := Flush(done, cur);
      DocStepsFrom(lines, p + TierSize(doc[0]), parse, done', Some(Reloaded(doc[0])), doc[1..]);
      ReloadsCons(done', doc);
    }
  }

  // ---------------------------------------------------------------------
  // Written lines make those steps

  /// The short reader adds a tier's written labels `ws`, ending at line
  /// `stop`, one per step, rebuilt.
  lemma {:induction false} ShortLabelsSteps(lines: seq<string>, q: nat, stop: nat, parse: FloatParser, num: FloatFormatter,
                                            done: seq<TierValue>, acc: TierValue, labels: seq<Label>, ws: seq<string>)
    requires ShortLabelsLines(acc.kind, labels, num, Doubled) == Ok(ws) && Written(lines, q, ws) && stop == q + |ws|
    requires LabelsReadBack(num, parse, acc.kind, labels)
    ensures LabelSteps(lines, q, stop, parse, done, acc, RereadAll(acc.kind, labels))
    decreases |labels|
  {
    if labels != [] {
      var h, t := ShortLabelsLinesCons(lines, q, acc.kind, labels, num, ws);
      ShortLabelReadBack(lines, q, parse, num, done, acc, labels[0]);
      var acc' := Added(acc, Reread(acc.kind, labels[0]));
      AddedKind(acc, Reread(acc.kind, labels[0]));
      ShortLabelsSteps(lines, q + |h|, stop, parse, num, done, acc', labels[1..], t);
      RereadAllCons(acc.kind, labels);
    } else {
      assert RereadAll(acc.kind, labels) == [];
    }
  }

  /// A class line reads as the class it was written with.
  lemma ClassLine(kind: TierKind, line: string)
    requires HoldsLine(line, "\"" + ClassName(kind) + "\"")
    ensures line != "" && IsShortTierLine(Strip(line))
    ensures Strip(line) == "\"IntervalTier\"" <==> kind == IntervalTier
  {
    var cls := "\"" + ClassName(kind) + "\"";
    StripNewline(cls);
    StripKeepsUnpadded(cls);
  }

  /// A name line reads as the name, quotes inside it kept.
  lemma NameLine(name: string, line: string)
    requires HoldsLine(line, "\"" + name + "\"")
    ensures StripQuotes(StripAscii(line)) == name
  {
    var q := "\"" + name + "\"";
    StripNewline(q);
    assert LStripBy(q, IsSpace) == q;
    assert RStripBy(q, IsSpace) == q;
    assert q[1..] == name + "\"";
  }

  /// An end line reads as the end: a number, or `inf` for an unbounded end.
  lemma ExtentLine(num: FloatFormatter, parse: FloatParser, e: Extent, line: string)
    requires e.Finite? ==> ReadsBack(num, parse, 12, e.t)
    requires HoldsLine(line, ExtentText(num, 12, e))
    ensures FloatExtent(parse, line) == Some(e)
  {
    if e.Finite? {
      NumberLine(num, parse, 12, e.t, line);
    } else {
      StripNewline("inf");
      StripKeepsUnpadded("inf");
      var l := seq(3, i requires 0 <= i < 3 => Lower("inf"[i]));
      assert l == "inf";
    }
  }

  /// The header lines of a written tier convert back to what they say.
  lemma ShortTierHeaderReadBack(lines: seq<string>, p: nat, parse: FloatParser, num: FloatFormatter, v: TierValue)
    requires Written(lines, p, ShortHeaderLines(v, num))
    requires TierReadsBack(num, parse, v)
    ensures ShortTierHeader(lines, p, parse) == Ok(TierHeader(v.kind, v.name, v.start, v.end, |v.labels|))
  {
    var ws := ShortHeaderLines(v, num);
    WrittenHolds(lines, p, ws);
    assert HoldsLine(lines[p], ws[0]) && HoldsLine(lines[p + 1], ws[1]) && HoldsLine(lines[p + 2], ws[2]);
    assert HoldsLine(lines[p + 3], ws[3]) && HoldsLine(lines[p + 4], ws[4]);
    assert ReadLine(lines, p) == lines[p] && ReadLine(lines, p + 1) == lines[p + 1];
    assert ReadLine(lines, p + 2) == lines[p + 2] && ReadLine(lines, p + 3) == lines[p + 3];
    assert ReadLine(lines, p + 4) == lines[p + 4];
    ClassLine(v.kind, lines[p]);
    NameLine(v.name, lines[p + 1]);
    NumberLine(num, parse, 12, v.start, lines[p + 2]);
    ExtentLine(num, parse, v.end, lines[p + 3]);
    CountLine(|v.labels|, lines[p + 4]);
  }

  /// The short reader takes a written tier's header as the empty tier it
  /// describes, after storing the tier it was reading.
  lemma ShortHeaderReadBack(lines: seq<string>, p: nat, parse: FloatParser, num: FloatFormatter,
                            done: seq<TierValue>, cur: Option<TierValue>, v: TierValue)
    requires Written(lines, p, ShortHeaderLines(v, num))
    requires TierReadsBack(num, parse, v)
    ensures ShortNext(lines, p, parse, done, cur)
            == Continue(p + 5, Flush(done, cur), Some(EmptyTier(v.kind, v.name, v.start, v.end, |v.labels|)))
  {
    var ws := ShortHeaderLines(v, num);
    WrittenHolds(lines, p, ws);
    assert HoldsLine(lines[p], ws[0]);
    assert ReadLine(lines, p) == lines[p];
    ClassLine(v.kind, lines[p]);
    ShortTierHeaderReadBack(lines, p, parse, num, v);
  }

  /// The short reader begins a written tier `ws`, ending at line `stop`,
  /// at its header and adds its labels one per step.
  lemma ShortTierSteps(lines: seq<string>, p: nat, stop: nat, parse: FloatParser, num: FloatFormatter,
                       done: seq<TierValue>, cur: Option<TierValue>, v: TierValue, ws: seq<string>)
    requires TierShortLines(v, num, Doubled) == Ok(ws) && Written(lines, p, ws) && stop == p + |ws|
    requires TierReadsBack(num, parse, v)
    ensures stop == p + TierSize(v)
    ensures ShortNext(lines, p, parse, done, cur)
            == Continue(p + 5, Flush(done, cur), Some(EmptyTier(v.kind, v.name, v.start, v.end, |v.labels|)))
    ensures LabelSteps(lines, p + 5, stop, parse, Flush(done, cur), EmptyTier(v.kind, v.name, v.start, v.end, |v.labels|),
                       RereadAll(v.kind, v.labels))
  {
    var hs := ShortHeaderLines(v, num);
    var ls := ShortLabelsLines(v.kind, v.labels, num, Doubled).value;
    assert ws == hs + ls;
    WrittenSplit(lines, p, hs, ls);
    ShortLabelsLinesSize(v.kind, v.labels, num);
    ShortHeaderReadBack(lines, p, parse, num, done, cur, v);
    var empty := EmptyTier(v.kind, v.name, v.start, v.end, |v.labels|);
    ShortLabelsSteps(lines, p + 5, stop, parse, num, Flush(done, cur), empty, v.labels, ls);
  }

  /// The short reader takes a written tier `ws`, ending at line `stop`,
  /// as the tier `Reloaded` gives, after storing the tier it was reading.
  lemma ShortTierFrom(lines: seq<string>, p: nat, stop: nat, parse: FloatParser, num: FloatFormatter,
                      done: seq<TierValue>, cur: Option<TierValue>, v: TierValue, ws: seq<string>)
    requires TierShortLines(v, num, Doubled) == Ok(ws) && Written(lines, p, ws) && stop == p + |ws|
    requires TierReadsBack(num, parse, v)
    ensures stop == p + TierSize(v)
    ensures ShortFrom(lines, p, parse, done, cur) == ShortFrom(lines, stop, parse, Flush(done, cur), Some(Reloaded(v)))
  {
    ShortTierSteps(lines, p, stop, parse, num, done, cur, v, ws);
    TierStepsFrom(lines, p, stop, parse, done, cur, v, EmptyTier(v.kind, v.name, v.start, v.end, |v.labels|));
  }

  /// The lines of a non-empty list of tiers, written from `p` on, are
  /// those of the first tier, then those of the rest; the numbers of each
  /// read back.
  lemma TiersShortLinesCons(lines: seq<string>, p: nat, parse: FloatParser, num: FloatFormatter,
                            doc: seq<TierValue>, ws: seq<string>) returns (h: seq<string>, t: seq<string>)
    requires doc != [] && TiersShortLines(doc, num, Doubled) == Ok(ws) && Written(lines, p, ws)
    requires DocReadsBack(num, parse, doc)
    ensures TierShortLines(doc[0], num, Doubled) == Ok(h) && Written(lines, p, h)
    ensures TiersShortLines(doc[1..], num, Doubled) == Ok(t) && Written(lines, p + |h|, t)
    ensures |ws| == |h| + |t|
    ensures TierReadsBack(num, parse, doc[0]) && DocReadsBack(num, parse, doc[1..])
  {
    h := TierShortLines(doc[0], num, Doubled).value;
    t := TiersShortLines(doc[1..], num, Doubled).value;
    assert ws == h + t;
    WrittenSplit(lines, p, h, t);
  }

  /// The short reader takes a written tier whole, whatever it has read
  /// before.
  lemma ShortTierStep(lines: seq<string>, p: nat, parse: FloatParser, num: FloatFormatter,
                      v: TierValue, ws: seq<string>)
    requires TierShortLines(v, num, Doubled) == Ok(ws) && Written(lines, p, ws)
    requires TierReadsBack(num, parse, v)
    ensures TierStep(lines, p, parse, v)
  {
    forall done: seq<TierValue>, cur: Option<TierValue>
      ensures ShortFrom(lines, p, parse, done, cur) == ShortFrom(lines, p + TierSize(v), parse, Flush(done, cur), Some(Reloaded(v)))
    {
      ShortTierFrom(lines, p, p + |ws|, parse, num, done, cur, v, ws);
    }
  }

  /// A tier is written from line `q` on, and its numbers read back.
  predicate TierWrittenAt(lines: seq<string>, q: nat, v: TierValue, num: FloatFormatter, parse: FloatParser) {
    TierShortLines(v, num, Doubled).Ok? && Written(lines, q, TierShortLines(v, num, Doubled).value) && TierReadsBack(num, parse, v)
  }

  /// The tiers `doc` are written one after the other from line `p` to the
  /// end of the file, and their numbers read back.
  predicate TiersWrittenAt(lines: seq<string>, p: nat, doc: seq<TierValue>, num: FloatFormatter, parse: FloatParser)
    decreases |doc|
  {
    if doc == [] then p == |lines|
    else TierWrittenAt(lines, p, doc[0], num, parse) && TiersWrittenAt(lines, p + TierSize(doc[0]), doc[1..], num, parse)
  }

  /// Written tiers that run to the end of the file are each written where
  /// they begin.
  lemma {:induction false} WrittenTiersAt(lines: seq<string>, p: nat, parse: FloatParser, num: FloatFormatter,
                                          doc: seq<TierValue>, ws: seq<string>)
    requires TiersShortLines(doc, num, Doubled) == Ok(ws) && Written(lines, p, ws) && p + |ws| == |lines|
    requires DocReadsBack(num, parse, doc)
    ensures TiersWrittenAt(lines, p, doc, num, parse)
    decreases |doc|
  {
    if doc != [] {
      var h, t := TiersShortLinesCons(lines, p, parse, num, doc, ws);
      TierShortLinesSize(doc[0], num);
      WrittenTiersAt(lines, p + |h|, parse, num, doc[1..], t);
    }
  }

  /// Tiers each written where they begin are taken whole, one after the
  /// other.
  lemma {:induction false} TiersWrittenSteps(lines: seq<string>, p: nat, parse: FloatParser, num: FloatFormatter,
                                             doc: seq<TierValue>)
    requires TiersWrittenAt(lines, p, doc, num, parse)
    ensures DocSteps(lines, p, parse, doc)
    decreases |doc|
  {
    if doc != [] {
      TiersWrittenSteps(lines, p + TierSize(doc[0]), parse, num, doc[1..]);
      TierWrittenThenSteps(lines, p, parse, num, doc);
    }
  }

  /// A tier written where it begins, followed by tiers taken whole, is
  /// taken whole with them.
  lemma TierWrittenThenSteps(lines: seq<string>, p: nat, parse: FloatParser, num: FloatFormatter, doc: seq<TierValue>)
    requires doc != [] && TierWrittenAt(lines, p, doc[0], num, parse)
    requires DocSteps(lines, p + TierSize(doc[0]), parse, doc[1..])
    ensures DocSteps(lines, p, parse, doc)
  {
    TierShortLinesSize(doc[0], num);
    ShortTierStep(lines, p, parse, num, doc[0], TierShortLines(doc[0], num, Doubled).value);
    DocStepsCons(lines, p, parse, doc);
  }

  /// A written manager is the seven header lines the short reader skips,
  /// then its tiers.
  lemma ManagerShortBody(doc: seq<TierValue>, num: FloatFormatter) returns (tiers: seq<string>)
    requires ManagerShortLines(doc, num, Doubled).Ok?
    ensures TiersShortLines(doc, num, Doubled) == Ok(tiers)
    ensures |ManagerShortLines(doc, num, Doubled).value| == ShortBodyStart + |tiers|
    ensures ManagerShortLines(doc, num, Doubled).value[ShortBodyStart..] == tiers
  {
    tiers := TiersShortLines(doc, num, Doubled).value;
  }

  /// In a file of seven header lines and then written tiers, the short
  /// reader takes the tiers one by one.
  lemma ShortFileSteps(lines: seq<string>, ws: seq<string>, tiers: seq<string>, doc: seq<TierValue>,
                       num: FloatFormatter, parse: FloatParser)
    requires Written(lines, 0, ws) && |lines| == |ws|
    requires TiersShortLines(doc, num, Doubled) == Ok(tiers)
    requires |ws| == ShortBodyStart + |tiers| && ws[ShortBodyStart..] == tiers
    requires DocReadsBack(num, parse, doc)
    ensures DocSteps(lines, ShortBodyStart, parse, doc)
  {
    WrittenSuffix(lines, 0, ws, ShortBodyStart);
    WrittenTiersAt(lines, ShortBodyStart, parse, num, doc, tiers);
    TiersWrittenSteps(lines, ShortBodyStart, parse, num, doc);
  }

  /// No tier name and no label text holds a line break, so that every
  /// written line is one line of the file.
  predicate LineFree(doc: seq<TierValue>) {
    forall i :: 0 <= i < |doc| ==>
      '\n' !in doc[i].name && forall k :: 0 <= k < |doc[i].labels| ==> '\n' !in doc[i].labels[k].text
  }

  /// Writing a manager in the short format and reading the file back gives
  /// its tiers, each rebuilt from its header and labels as `Reloaded` says,
  /// whenever the number formatting reads back exactly and no name or text
  /// breaks a line.
  lemma ShortRoundTrip(doc: seq<TierValue>, num: FloatFormatter, parse: FloatParser)
    requires ManagerShortLines(doc, num, Doubled).Ok?
    requires DocReadsBack(num, parse, doc) && LineFree(doc)
    ensures ReadShort(FileLines(ManagerShortLines(doc, num, Doubled).value), parse) == Ok(Reloads(doc))
  {
    var ws := ManagerShortLines(doc, num, Doubled).value;
    var tiers := ManagerShortBody(doc, num);
    var lines := FileLines(ws);
    FileLinesWritten(ws);
    ShortFileSteps(lines, ws, tiers, doc, num, parse);
    DocStepsFrom(lines, ShortBodyStart, parse, [], None, doc);
    NothingFlushed(Reloads(doc));
  }

  // ---------------------------------------------------------------------
  // When reading back gives the written tiers themselves

  /// A tier as the short reader builds it: no spare slots, start times
  /// strictly increasing, a finite end that no label moves, no application
  /// data, and `t2` exactly on an interval tier's labels.
  predicate AsRead(v: TierValue) {
    && |v.time| == |v.labels| && Consistent(v) && v.end.Finite?
    && (forall i, j :: 0 <= i < j < |v.labels| ==> v.labels[i].t1 < v.labels[j].t1)
    && forall i :: 0 <= i < |v.labels| ==>
         && v.labels[i].appdata.None?
         && (if v.kind == PointTier then v.labels[i].t2.None? && v.labels[i].t1 <= v.end.t
             else v.labels[i].t2.Some? && v.labels[i].t2.value <= v.end.t)
  }

  /// A tier as read so far: its first `k` labels added, the other slots
  /// still unfilled.
  function Partial(v: TierValue, k: nat): TierValue
    requires k <= |v.labels| == |v.time|
  {
    v.(labels := v.labels[..k], time := v.time[..k] + seq(|v.labels| - k, _ => Unfilled))
  }

  /// Adding the next label of a tier as read appends it and fills the next
  /// slot.
  lemma AddedAppends(v: TierValue, k: nat)
    requires AsRead(v) && k < |v.labels|
    ensures Added(Partial(v, k), v.labels[k]) == Partial(v, k + 1)
  {
    var w := Partial(v, k);
    var l := v.labels[k];
    var idx := SearchSorted(w.time, l.t1);
    assert forall i :: 0 <= i < k ==> w.time[i] == Filled(v.labels[i].t1) && Precedes(w.time[i], l.t1);
    assert forall i :: k <= i < |w.time| ==> w.time[i].Unfilled?;
    assert idx == k;
    assert w.time[idx := Filled(l.t1)] == Partial(v, k + 1).time;
    assert InsertAt(w.labels, k, l) == v.labels[..k + 1];
  }

  lemma {:induction false} ReloadedFrom(v: TierValue, k: nat)
    requires AsRead(v) && k <= |v.labels|
    ensures AddAll(Partial(v, k), v.labels[k..]) == v
    decreases |v.labels| - k
  {
    if k < |v.labels| {
      AddedAppends(v, k);
      ReloadedFrom(v, k + 1);
      assert v.labels[k..][1..] == v.labels[k + 1..];
    } else {
      assert Partial(v, k).time == v.time;
      assert Partial(v, k).labels == v.labels;
    }
  }

  /// A tier as the reader builds it reads back as itself.
  lemma ReloadedIdentity(v: TierValue)
    requires AsRead(v)
    ensures Reloaded(v) == v
  {
    assert RereadAll(v.kind, v.labels) == v.labels;
    assert Partial(v, 0) == EmptyTier(v.kind, v.name, v.start, v.end, |v.labels|);
    ReloadedFrom(v, 0);
    assert v.labels[0..] == v.labels;
  }

  /// The `i`-th tier read back is the `i`-th tier rebuilt.
  lemma {:induction false} ReloadsAt(doc: seq<TierValue>, i: nat)
    requires i < |doc|
    ensures Reloads(doc)[i] == Reloaded(doc[i])
    decreases i
  {
    assert Reloads(doc) == [Reloaded(doc[0])] + Reloads(doc[1..]);
    if i > 0 {
      ReloadsAt(doc[1..], i - 1);
      assert doc[1..][i - 1] == doc[i];
    }
  }

  lemma ReloadsIdentity(doc: seq<TierValue>)
    requires forall i :: 0 <= i < |doc| ==> AsRead(doc[i])
    ensures Reloads(doc) == doc
  {
    forall i | 0 <= i < |doc|
      ensures Reloads(doc)[i] == doc[i]
    {
      ReloadsAt(doc, i);
      ReloadedIdentity(doc[i]);
    }
  }

  /// A tier read back keeps its kind, name and start, and holds its
  /// labels as the reader converts them, sorted by start time.
  lemma ReloadedKeeps(v: TierValue)
    ensures Reloaded(v).kind == v.kind && Reloaded(v).name == v.name && Reloaded(v).start == v.start
    ensures Sorted(Reloaded(v).labels)
    ensures multiset(Reloaded(v).labels) == multiset(RereadAll(v.kind, v.labels))
  {
    AddAllSorted(EmptyTier(v.kind, v.name, v.start, v.end, |v.labels|), RereadAll(v.kind, v.labels));
  }

  /// The tiers read back come in the written order: the same names, and
  /// each tier with its kind, its start and its labels.
  lemma ReloadsInOrder(doc: seq<TierValue>)
    ensures Names(Reloads(doc)) == Names(doc)
    ensures forall i :: 0 <= i < |doc| ==>
              && Reloads(doc)[i].kind == doc[i].kind && Reloads(doc)[i].start == doc[i].start
              && multiset(Reloads(doc)[i].labels) == multiset(RereadAll(doc[i].kind, doc[i].labels))
  {
    forall i | 0 <= i < |doc|
      ensures Reloads(doc)[i].name == doc[i].name && Reloads(doc)[i].kind == doc[i].kind
      ensures Reloads(doc)[i].start == doc[i].start
      ensures multiset(Reloads(doc)[i].labels) == multiset(RereadAll(doc[i].kind, doc[i].labels))
    {
      ReloadsAt(doc, i);
      ReloadedKeeps(doc[i]);
    }
  }

  /// Writing tiers as the reader builds them and reading the file back
  /// gives exactly those tiers.
  lemma ShortRoundTripExact(doc: seq<TierValue>, num: FloatFormatter, parse: FloatParser)
    requires ManagerShortLines(doc, num, Doubled).Ok?
    requires DocReadsBack(num, parse, doc) && LineFree(doc)
    requires forall i :: 0 <= i < |doc| ==> AsRead(doc[i])
    ensures ReadShort(FileLines(ManagerShortLines(doc, num, Doubled).value), parse) == Ok(doc)
  {
    ShortRoundTrip(doc, num, parse);
    ReloadsIdentity(doc);
  }

  /// Two labels at the same time come back in the opposite order: the
  /// reader adds each label before those already at its time.
  lemma ReloadedReversesTies()
    ensures var a := Label("a", 0.5, None, None);
            var b := Label("b", 0.5, None, None);
            Reloaded(TierValue(PointTier, "", 0.0, Finite(1.0), [a, b], [Filled(0.5), Filled(0.5)])).labels == [b, a]
  {
    var a := Label("a", 0.5, None, None);
    var b := Label("b", 0.5, None, None);
    var v := TierValue(PointTier, "", 0.0, Finite(1.0), [a, b], [Filled(0.5), Filled(0.5)]);
    var e := EmptyTier(PointTier, "", 0.0, Finite(1.0), 2);
    assert RereadAll(PointTier, [a, b]) == [a, b];
    assert SearchSorted(e.time, 0.5) == 0;
    var e1 := Added(e, a);
    assert e1.labels == [a] && e1.time == [Filled(0.5), Unfilled];
    assert SearchSorted(e1.time, 0.5) == 0;
    assert Added(e1, b).labels == [b, a];
  }

  // ---------------------------------------------------------------------
  // The short writer as written

  /// A label text of two quotes, written between quotes as the source
  /// writes it, reads back as a single quote.
  lemma VerbatimTextLost()
    ensures CleanPraatString(ShortTextLine(Verbatim, "\"\"")) == "\""
    ensures CleanPraatString(ShortTextLine(Doubled, "\"\"")) == "\"\""
  {
    var w := ShortTextLine(Verbatim, "\"\"");
    assert w == "\"\"\"\"";
    StripKeepsUnpadded(w);
    assert StripQuotes(w) == "\"\"";
    assert Unescape("\"\"") == "\"" + Unescape("");
    CleanQuote("\"\"");
  }

  /// No label text holds a quote.
  predicate QuoteFree(doc: seq<TierValue>) {
    forall i :: 0 <= i < |doc| ==> forall k :: 0 <= k < |doc[i].labels| ==> '"' !in doc[i].labels[k].text
  }

  lemma {:induction false} LabelsVerbatim(kind: TierKind, labels: seq<Label>, num: FloatFormatter)
    requires forall k :: 0 <= k < |labels| ==> '"' !in labels[k].text
    ensures ShortLabelsLines(kind, labels, num, Verbatim) == ShortLabelsLines(kind, labels, num, Doubled)
    decreases |labels|
  {
    if labels != [] {
      EscapeQuoteFree(labels[0].text);
      LabelsVerbatim(kind, labels[1..], num);
    }
  }

  lemma {:induction false} TiersVerbatim(doc: seq<TierValue>, num: FloatFormatter)
    requires QuoteFree(doc)
    ensures TiersShortLines(doc, num, Verbatim) == TiersShortLines(doc, num, Doubled)
    decreases |doc|
  {
    if doc != [] {
      LabelsVerbatim(doc[0].kind, doc[0].labels, num);
      assert QuoteFree(doc[1..]) by {
        forall i | 0 <= i < |doc| - 1 ensures doc[1..][i] == doc[i + 1] { }
      }
      TiersVerbatim(doc[1..], num);
    }
  }

  /// The short writer as written writes the same file as the corrected one
  /// when no label text holds a quote, and so reads back the same.
  lemma ShortRoundTripVerbatim(doc: seq<TierValue>, num: FloatFormatter, parse: FloatParser)
    requires ManagerShortLines(doc, num, Verbatim).Ok?
    requires DocReadsBack(num, parse, doc) && LineFree(doc) && QuoteFree(doc)
    ensures ManagerShortLines(doc, num, Verbatim) == ManagerShortLines(doc, num, Doubled)
    ensures ReadShort(FileLines(ManagerShortLines(doc, num, Verbatim).value), parse) == Ok(Reloads(doc))
  {
    TiersVerbatim(doc, num);
    ShortRoundTrip(doc, num, parse);
  }
}
