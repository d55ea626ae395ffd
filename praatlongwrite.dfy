/// Writing a label manager in the long Praat TextGrid format, the header
/// `_get_praat_header` builds, and what the readers make of the written
/// lines. As for the short format, the output is the sequence of lines the
/// source joins with newlines.
module PraatLongWriter {
  import opened Wrappers
  import opened Text
  import opened Labels
  import opened Tiers
  import opened Manager
  import opened Patterns
  import opened Lines
  import opened Praat
  import opened PraatLong
  import opened PraatWriter

  // ---------------------------------------------------------------------
  // The long format

  /// The indentation of a tier's `item` line, of its metadata and entry
  /// lines, and of its labels' lines.
  const ItemIndent := "    "
  const TierIndent := "        "
  const LabelIndent := "            "

  /// How a tier's metadata lines join key and value: `Colons` as the
  /// source's tier writers do (`class: "IntervalTier"`), `Equals` as the
  /// long reader's patterns and the file header have it
  /// (`class = "IntervalTier"`).
  datatype MetaStyle = Colons | Equals

  function Joiner(style: MetaStyle): string {
    match style
    case Colons => ": "
    case Equals => " = "
  }

  /// A metadata line of a tier.
  function MetaLine(style: MetaStyle, key: string, value: string): string {
    TierIndent + key + Joiner(style) + value
  }

  /// A line of a label, `key = value`.
  function LabelLine(key: string, value: string): string {
    LabelIndent + key + " = " + value
  }

  /// An entry line `key [n]:`.
  function EntryLine(indent: string, key: string, n: nat): string {
    indent + key + " [" + NatToString(n) + "]:"
  }

  /// How the size line of a tier opens.
  function SizeLead(kind: TierKind): string {
    if kind == IntervalTier then "intervals: size = " else "points: size = "
  }

  /// The key of a tier's label entry lines.
  function EntryKey(kind: TierKind): string {
    if kind == IntervalTier then "intervals" else "points"
  }

  /// The five metadata lines of a tier: class and name between quotes,
  /// the name not escaped, start and end with 12 decimals, and the label
  /// count.
  function LongTierHeaderLines(v: TierValue, num: FloatFormatter, style: MetaStyle): seq<string> {
    [MetaLine(style, "class", "\"" + ClassName(v.kind) + "\""),
     MetaLine(style, "name", "\"" + v.name + "\""),
     MetaLine(style, "xmin", num(12, v.start)),
     MetaLine(style, "xmax", ExtentText(num, 12, v.end)),
     TierIndent + SizeLead(v.kind) + NatToString(|v.labels|)]
  }

  /// The lines a label takes.
  function LongLabelSize(kind: TierKind): nat {
    if kind == IntervalTier then 4 else 3
  }

  /// The lines of the `n`-th label of a tier, counted from 1: its entry
  /// line, then `xmin`, `xmax` and `text` for an interval, `number` and
  /// `mark` for a point, the times with 20 decimals and the text between
  /// quotes with its inner quotes doubled. An interval without `t2` cannot
  /// be formatted: ValueError.
  function LongLabelLines(kind: TierKind, l: Label, n: nat, num: FloatFormatter): (r: Result<seq<string>>)
    ensures r.Err? <==> kind == IntervalTier && l.t2.None?
    ensures r.Err? ==> r.error == ValueError
    ensures r.Ok? ==> |r.value| == LongLabelSize(kind)
  {
    if kind.PointTier? then
      Ok([EntryLine(TierIndent, "points", n), LabelLine("number", num(20, l.t1)), LabelLine("mark", Quote(l.text))])
    else if l.t2.None? then Err(ValueError)
    else
      Ok([EntryLine(TierIndent, "intervals", n), LabelLine("xmin", num(20, l.t1)),
          LabelLine("xmax", num(20, l.t2.value)), LabelLine("text", Quote(l.text))])
  }

  /// The lines of a tier's labels in tier order, the first numbered `n`.
  function LongLabelsLines(kind: TierKind, labels: seq<Label>, n: nat, num: FloatFormatter): (r: Result<seq<string>>)
    ensures r.Ok? <==> Writable(kind, labels)
    ensures r.Err? ==> r.error == ValueError
    decreases |labels|
  {
    if labels == [] then Ok([])
    else
      var h := LongLabelLines(kind, labels[0], n, num);
      var t := LongLabelsLines(kind, labels[1..], n + 1, num);
      assert forall i :: 1 <= i < |labels| ==> labels[i] == labels[1..][i - 1];
      if h.Err? then Err(h.error)
      else if t.Err? then Err(t.error)
      else Ok(h.value + t.value)
  }

  /// `_as_string('praat_long')` of a tier: its metadata, then its labels
  /// numbered from 1.
  function TierLongLines(v: TierValue, num: FloatFormatter, style: MetaStyle): (r: Result<seq<string>>)
    ensures r.Ok? <==> Writable(v.kind, v.labels)
  {
    var ls := LongLabelsLines(v.kind, v.labels, 1, num);
    if ls.Err? then Err(ls.error) else Ok(LongTierHeaderLines(v, num, style) + ls.value)
  }

  /// The tiers' lines, each opened by its `item [n]:` line, the first
  /// numbered `n`.
  function TiersLongLines(doc: seq<TierValue>, n: nat, num: FloatFormatter, style: MetaStyle): (r: Result<seq<string>>)
    ensures r.Ok? <==> forall i :: 0 <= i < |doc| ==> Writable(doc[i].kind, doc[i].labels)
    ensures r.Err? ==> r.error == ValueError
    decreases |doc|
  {
    if doc == [] then Ok([])
    else
      var h := TierLongLines(doc[0], num, style);
      var t := TiersLongLines(doc[1..], n + 1, num, style);
      assert forall i :: 1 <= i < |doc| ==> doc[i] == doc[1..][i - 1];
      if h.Err? then Err(h.error)
      else if t.Err? then Err(t.error)
      else Ok([EntryLine(ItemIndent, "item", n)] + h.value + t.value)
  }

  /// The eight lines that open a long file: file type, object class, a
  /// blank line, start, end, the tiers flag, the tier count and `item []:`.
  function LongFileHeaderLines(start: string, end: string, count: string): seq<string> {
    ["File type = \"ooTextFile\"", "Object class = \"TextGrid\"", "", "xmin = " + start, "xmax = " + end,
     "tiers? <exists>", "size = " + count, "item []:"]
  }

  /// `LabelManager._as_string('praat_long')`: the file header, with the
  /// earliest start and latest end over the tiers in 20 decimals, then
  /// each tier. A manager without tiers has no start: ValueError.
  function ManagerLongLines(doc: seq<TierValue>, num: FloatFormatter, style: MetaStyle): (r: Result<seq<string>>)
    ensures r.Ok? <==> |doc| > 0 && forall i :: 0 <= i < |doc| ==> Writable(doc[i].kind, doc[i].labels)
    ensures r.Err? ==> r.error == ValueError
  {
    var start := DocStart(doc);
    var end := DocEnd(doc);
    if start.Err? then Err(start.error)
    else
      var tiers := TiersLongLines(doc, 1, num, style);
      if tiers.Err? then Err(tiers.error)
      else Ok(LongFileHeaderLines(num(20, start.value), ExtentText(num, 20, end.value), NatToString(|doc|))
              + tiers.value)
  }

  // ---------------------------------------------------------------------
  // Single written lines, as the long reader's patterns see them

  /// A line as read is the written line and then its end.
  lemma LineTailOf(line: string, w: string) returns (tail: string)
    requires HoldsLine(line, w)
    ensures LineTail(tail) && line == w + tail
  {
    if line == w {
      tail := "";
      assert w + "" == w;
    } else {
      tail := "\n";
    }
  }

  lemma IndentsBlank()
    ensures Blank(ItemIndent) && Blank(TierIndent) && Blank(LabelIndent)
  {
  }

  /// A number formatted with a fixed number of decimals is the numeral the
  /// patterns look for.
  lemma FixedPointNumeral(s: string, x: real)
    requires IsFixedPoint(s, x)
    ensures Numeral(s)
  {
  }

  /// No line break in a text, none in its quoted form.
  lemma {:induction false} EscapeLineFree(s: string)
    requires '\n' !in s
    ensures '\n' !in Escape(s) && '\n' !in Quote(s)
    decreases |s|
  {
    if s != "" {
      assert '\n' !in s[1..] by {
        assert forall i :: 0 <= i < |s| - 1 ==> s[1..][i] == s[i + 1];
      }
      EscapeLineFree(s[1..]);
    }
  }

  /// A written class line gives the class.
  lemma ClassLineRead(kind: TierKind, line: string)
    requires HoldsLine(line, MetaLine(Equals, "class", "\"" + ClassName(kind) + "\""))
    ensures ClassValue(line) == Some(ClassName(kind))
  {
    var tail := LineTailOf(line, MetaLine(Equals, "class", "\"" + ClassName(kind) + "\""));
    IndentsBlank();
    QuotedValueOfWritten(TierIndent, "class", ClassName(kind), tail);
  }

  /// A written name line gives the name, when there is one on one line.
  lemma NameLineRead(name: string, line: string)
    requires name != "" && '\n' !in name
    requires HoldsLine(line, MetaLine(Equals, "name", "\"" + name + "\""))
    ensures NameValue(line) == Some(name)
  {
    var tail := LineTailOf(line, MetaLine(Equals, "name", "\"" + name + "\""));
    IndentsBlank();
    QuotedValueOfWritten(TierIndent, "name", name, tail);
  }

  /// A written `xmin` or `xmax` line of a tier gives the number.
  lemma ExtentLineRead(key: string, x: string, line: string)
    requires (key == "xmin" || key == "xmax") && Numeral(x)
    requires HoldsLine(line, MetaLine(Equals, key, x))
    ensures key == "xmin" ==> XminValue(line) == Some(x)
    ensures key == "xmax" ==> XmaxValue(line) == Some(x)
  {
    var tail := LineTailOf(line, MetaLine(Equals, key, x));
    IndentsBlank();
    SignedDecimalOfWritten(TierIndent, key, x, tail);
  }

  /// A written size line gives the count.
  lemma SizeLineRead(kind: TierKind, n: nat, line: string)
    requires HoldsLine(line, TierIndent + SizeLead(kind) + NatToString(n))
    ensures SizeValue(line) == Some(NatToString(n))
  {
    var tail := LineTailOf(line, TierIndent + SizeLead(kind) + NatToString(n));
    IndentsBlank();
    SizeOfWritten(TierIndent, SizeLead(kind), NatToString(n), tail);
  }

  /// A written entry line ends a label's text, and starts a tier exactly
  /// when it is an `item` line.
  lemma EntryLineRead(indent: string, key: string, n: nat, line: string)
    requires Blank(indent) && (key == "item" || key == "intervals" || key == "points")
    requires HoldsLine(line, EntryLine(indent, key, n))
    ensures line != "" && IsEntryLine(line)
    ensures IsItemLine(line) <==> key == "item"
  {
    var tail := LineTailOf(line, EntryLine(indent, key, n));
    EntryOfWritten(indent, key, NatToString(n), tail);
    LiteralAtChar(line, |indent|, key + " [", 1);
    LiteralAtChar(line, |indent|, "item" + " [", 1);
  }

  /// A written `xmin` or `number` line of a label gives the time.
  lemma T1LineRead(key: string, x: string, line: string)
    requires (key == "xmin" || key == "number") && Numeral(x)
    requires HoldsLine(line, LabelLine(key, x))
    ensures T1Value(line) == Some(x)
  {
    var tail := LineTailOf(line, LabelLine(key, x));
    IndentsBlank();
    T1ValueOfWritten(LabelIndent, key, x, tail);
  }

  /// A written `xmax` line of a label gives the time.
  lemma T2LineRead(x: string, line: string)
    requires Numeral(x) && HoldsLine(line, LabelLine("xmax", x))
    ensures T2Value(line) == Some(x)
  {
    var tail := LineTailOf(line, LabelLine("xmax", x));
    IndentsBlank();
    T2ValueOfWritten(LabelIndent, x, tail);
  }

  /// A written `text` or `mark` line gives the quoted text.
  lemma TextLineRead(key: string, text: string, line: string)
    requires (key == "text" || key == "mark") && '\n' !in text
    requires HoldsLine(line, LabelLine(key, Quote(text)))
    ensures TextValue(line) == Some(Quote(text))
  {
    var tail := LineTailOf(line, LabelLine(key, Quote(text)));
    IndentsBlank();
    EscapeLineFree(text);
    TextValueOfWritten(LabelIndent, key, Quote(text), tail);
  }

  // ---------------------------------------------------------------------
  // A tier's metadata and a label, as the long reader takes them

  /// What the long reader needs of a tier beyond its numbers: a name, one
  /// the `.+` of the name pattern can match, a finite end, which the
  /// `xmax` pattern can match where `inf` cannot, and at least one label.
  predicate LongReadable(doc: seq<TierValue>) {
    forall i :: 0 <= i < |doc| ==> doc[i].name != "" && doc[i].end.Finite? && doc[i].labels != []
  }

  /// Each pattern finds its field on the metadata lines of a written tier.
  lemma MetadataMatched(lines: seq<string>, p: nat, num: FloatFormatter, v: TierValue)
    requires Written(lines, p, LongTierHeaderLines(v, num, Equals))
    requires v.name != "" && '\n' !in v.name && v.end.Finite?
    requires Numeral(num(12, v.start)) && Numeral(num(12, v.end.t))
    ensures ClassValue(ReadLine(lines, p)) == Some(ClassName(v.kind))
    ensures NameValue(ReadLine(lines, p + 1)) == Some(v.name)
    ensures XminValue(ReadLine(lines, p + 2)) == Some(num(12, v.start))
    ensures XmaxValue(ReadLine(lines, p + 3)) == Some(num(12, v.end.t))
    ensures SizeValue(ReadLine(lines, p + 4)) == Some(NatToString(|v.labels|))
  {
    var ws := LongTierHeaderLines(v, num, Equals);
    WrittenHolds(lines, p, ws);
    assert HoldsLine(lines[p], ws[0]) && HoldsLine(lines[p + 1], ws[1]) && HoldsLine(lines[p + 2], ws[2]);
    assert HoldsLine(lines[p + 3], ws[3]) && HoldsLine(lines[p + 4], ws[4]);
    assert ReadLine(lines, p) == lines[p] && ReadLine(lines, p + 1) == lines[p + 1];
    assert ReadLine(lines, p + 2) == lines[p + 2] && ReadLine(lines, p + 3) == lines[p + 3];
    assert ReadLine(lines, p + 4) == lines[p + 4];
    ClassLineRead(v.kind, lines[p]);
    NameLineRead(v.name, lines[p + 1]);
    ExtentLineRead("xmin", num(12, v.start), lines[p + 2]);
    ExtentLineRead("xmax", num(12, v.end.t), lines[p + 3]);
    SizeLineRead(v.kind, |v.labels|, lines[p + 4]);
  }

  /// The metadata lines of a written tier give back its header.
  lemma LongMetadataReadBack(lines: seq<string>, p: nat, parse: FloatParser, num: FloatFormatter, v: TierValue)
    requires Written(lines, p, LongTierHeaderLines(v, num, Equals))
    requires TierReadsBack(num, parse, v) && v.name != "" && '\n' !in v.name && v.end.Finite?
    ensures LongMetadata(lines, p, parse) == Ok(TierHeader(v.kind, v.name, v.start, v.end, |v.labels|))
  {
    var xmin := num(12, v.start);
    var xmax := num(12, v.end.t);
    FixedPointNumeral(xmin, v.start);
    FixedPointNumeral(xmax, v.end.t);
    MetadataMatched(lines, p, num, v);
    NumberLine(num, parse, 12, v.start, xmin);
    ExtentLine(num, parse, v.end, xmax);
    ParseIntNatToString(|v.labels|);
    MetadataOfFields(lines, p, parse, ClassName(v.kind), xmin, xmax, NatToString(|v.labels|),
                     TierHeader(v.kind, v.name, v.start, v.end, |v.labels|));
  }

  /// The lines of a written label give back its times and its quoted text.
  lemma LongLabelHeadReadBack(lines: seq<string>, pos: nat, parse: FloatParser, num: FloatFormatter,
                              kind: TierKind, l: Label, n: nat)
    requires LongLabelLines(kind, l, n, num).Ok? && Written(lines, pos, LongLabelLines(kind, l, n, num).value)
    requires LabelReadsBack(num, parse, kind, l) && '\n' !in l.text
    ensures ReadLabelHead(lines, pos, parse, kind == IntervalTier)
            == Ok(LabelHead(Quote(l.text), l.t1, Reread(kind, l).t2, pos + LongLabelSize(kind)))
  {
    var ws := LongLabelLines(kind, l, n, num).value;
    WrittenHolds(lines, pos, ws);
    assert HoldsLine(lines[pos + 1], ws[1]) && HoldsLine(lines[pos + 2], ws[2]);
    assert ReadLine(lines, pos + 1) == lines[pos + 1] && ReadLine(lines, pos + 2) == lines[pos + 2];
    var x1 := num(20, l.t1);
    FixedPointNumeral(x1, l.t1);
    NumberLine(num, parse, 20, l.t1, x1);
    if kind == IntervalTier {
      assert HoldsLine(lines[pos + 3], ws[3]);
      assert ReadLine(lines, pos + 3) == lines[pos + 3];
      var x2 := num(20, l.t2.value);
      FixedPointNumeral(x2, l.t2.value);
      NumberLine(num, parse, 20, l.t2.value, x2);
      T1LineRead("xmin", x1, lines[pos + 1]);
      T2LineRead(x2, lines[pos + 2]);
      TextLineRead("text", l.text, lines[pos + 3]);
    } else {
      T1LineRead("number", x1, lines[pos + 1]);
      TextLineRead("mark", l.text, lines[pos + 2]);
    }
  }

  /// A line at which a label's text stops: an entry line, or the end of
  /// the file.
  predicate EndsLabel(lines: seq<string>, q: nat) {
    IsEntryLine(ReadLine(lines, q)) || ReadLine(lines, q) == ""
  }

  /// A label whose text line is followed by a line that stops it is the
  /// text cleaned, with the times read.
  lemma LabelFromHead(lines: seq<string>, pos: nat, parse: FloatParser, cur: TierValue, r: Label, next: nat)
    requires r.appdata.None?
    requires ReadLabelHead(lines, pos, parse, cur.kind == IntervalTier) == Ok(LabelHead(Quote(r.text), r.t1, r.t2, next))
    requires EndsLabel(lines, next)
    ensures LabelFrom(lines, pos, parse, cur) == Ok(LabelRead(next, Added(cur, r)))
  {
    assert GatherFrom(lines, next, Quote(r.text)) == (next, Quote(r.text));
    CleanQuote(r.text);
  }

  // ---------------------------------------------------------------------
  // The long reader over written tiers

  /// From the entry line `pos`, the long reader takes the labels `rs` of a
  /// tier of kind `kind` one after the other: each label's lines give it
  /// back, each but the last is followed by the next one's entry line, and
  /// the last by the line `stop`, which stops its text.
  predicate LabelsRead(lines: seq<string>, pos: nat, stop: nat, parse: FloatParser, kind: TierKind, rs: seq<Label>)
    decreases |rs|
  {
    && rs != []
    && var next := pos + LongLabelSize(kind);
       && rs[0].appdata.None?
       && ReadLabelHead(lines, pos, parse, kind == IntervalTier) == Ok(LabelHead(Quote(rs[0].text), rs[0].t1, rs[0].t2, next))
       && EndsLabel(lines, next)
       && if |rs| == 1 then next == stop
          else !IsItemLine(ReadLine(lines, next)) && ReadLine(lines, next) != "" && LabelsRead(lines, next, stop, parse, kind, rs[1..])
  }

  /// What the long reader does once a label's text has stopped at line
  /// `q`, the tiers `done` stored and `tier` being filled.
  function Resume(lines: seq<string>, q: nat, parse: FloatParser, done: seq<TierValue>, tier: TierValue): Result<seq<TierValue>> {
    var step := AfterLabel(lines, q, parse, done, tier);
    if step.Done? then step.result else LongFrom(lines, step.pos, parse, step.done, step.cur)
  }

  /// Over the labels of a tier, the long reader adds each in turn and then
  /// resumes after the last.
  lemma {:induction false} LabelsFrom(lines: seq<string>, pos: nat, stop: nat, parse: FloatParser,
                                      done: seq<TierValue>, cur: TierValue, rs: seq<Label>)
    requires LabelsRead(lines, pos, stop, parse, cur.kind, rs) == true
    ensures LongFrom(lines, pos, parse, done, cur) == Resume(lines, stop, parse, done, AddAll(cur, rs))
    decreases |rs|
  {
    var next := pos + LongLabelSize(cur.kind);
    var cur' := Added(cur, rs[0]);
    LabelFromHead(lines, pos, parse, cur, rs[0], next);
    AddAllStep(cur, rs);
    if |rs| == 1 {
      assert rs[1..] == [];
    } else {
      AddedKind(cur, rs[0]);
      assert AfterLabel(lines, next, parse, done, cur') == Going(next, done, cur');
      LabelsFrom(lines, next, stop, parse, done, cur', rs[1..]);
    }
  }

  /// From its `item` line `q`, the long reader takes the tier `v`: its
  /// metadata give its header and its lines up to `stop` its labels.
  predicate TierRead(lines: seq<string>, q: nat, stop: nat, parse: FloatParser, v: TierValue) {
    && IsItemLine(ReadLine(lines, q))
    && LongMetadata(lines, q + 1, parse) == Ok(TierHeader(v.kind, v.name, v.start, v.end, |v.labels|))
    && LabelsRead(lines, q + 6, stop, parse, v.kind, RereadAll(v.kind, v.labels))
  }

  /// From line `q`, the long reader takes the tiers `doc` one after the
  /// other, the `i`-th ending before line `ends[i]`, and then meets the end
  /// of the file.
  predicate TiersRead(lines: seq<string>, q: nat, parse: FloatParser, doc: seq<TierValue>, ends: seq<nat>)
    decreases |doc|
  {
    && |ends| == |doc|
    && if doc == [] then ReadLine(lines, q) == ""
       else TierRead(lines, q, ends[0], parse, doc[0]) && TiersRead(lines, ends[0], parse, doc[1..], ends[1..])
  }

  /// Resuming at an `item` line followed by a tier's metadata and labels,
  /// the reader stores the tier it was filling, reads the tier from its
  /// header and labels, and resumes after them.
  lemma ResumeAtItem(lines: seq<string>, q: nat, stop: nat, parse: FloatParser,
                     done: seq<TierValue>, tier: TierValue, h: TierHeader, rs: seq<Label>)
    requires IsItemLine(ReadLine(lines, q)) && LongMetadata(lines, q + 1, parse) == Ok(h)
    requires LabelsRead(lines, q + 6, stop, parse, h.kind, rs)
    ensures Resume(lines, q, parse, done, tier) == Resume(lines, stop, parse, done + [tier], AddAll(HeaderTier(h), rs))
  {
    LabelsFrom(lines, q + 6, stop, parse, done + [tier], HeaderTier(h), rs);
  }

  /// Resuming at the `item` line of a tier the reader takes, it stores
  /// the tier it was filling and resumes after that tier's lines with the
  /// tier rebuilt.
  lemma TierStep(lines: seq<string>, q: nat, stop: nat, parse: FloatParser,
                 done: seq<TierValue>, tier: TierValue, v: TierValue, out: Result<seq<TierValue>>)
    requires TierRead(lines, q, stop, parse, v)
    requires Resume(lines, stop, parse, done + [tier], Reloaded(v)) == out
    ensures Resume(lines, q, parse, done, tier) == out
  {
    var h := TierHeader(v.kind, v.name, v.start, v.end, |v.labels|);
    ResumeAtItem(lines, q, stop, parse, done, tier, h, RereadAll(v.kind, v.labels));
  }

  /// The tiers rebuilt after those already stored: the first tier rebuilt,
  /// then the rest.
  lemma ReloadsAfter(done: seq<TierValue>, doc: seq<TierValue>)
    requires doc != []
    ensures done + [Reloaded(doc[0])] + Reloads(doc[1..]) == done + Reloads(doc)
    ensures [] + [Reloaded(doc[0])] + Reloads(doc[1..]) == Reloads(doc)
  {
    assert Reloads(doc) == [Reloaded(doc[0])] + Reloads(doc[1..]);
    assert [] + [Reloaded(doc[0])] == [Reloaded(doc[0])];
  }

  /// Resuming at the end of the file, the reader stores the tier it was
  /// filling and stops.
  lemma ResumeAtEnd(lines: seq<string>, q: nat, parse: FloatParser, done: seq<TierValue>, tier: TierValue)
    requires ReadLine(lines, q) == ""
    ensures Resume(lines, q, parse, done, tier) == Ok(done + [tier])
  {
    assert !IsItemLine(ReadLine(lines, q));
  }

  /// Resuming at the `item` line of tiers the reader takes, it stores the
  /// tier it was filling and then each of them rebuilt, in order.
  lemma {:induction false} ResumeTiers(lines: seq<string>, q: nat, parse: FloatParser,
                                       done: seq<TierValue>, tier: TierValue, doc: seq<TierValue>, ends: seq<nat>)
    requires TiersRead(lines, q, parse, doc, ends)
    ensures Resume(lines, q, parse, done, tier) == Ok(done + [tier] + Reloads(doc))
    decreases |doc|
  {
    if doc == [] {
      ResumeAtEnd(lines, q, parse, done, tier);
      assert done + [tier] + Reloads(doc) == done + [tier];
    } else {
      ResumeTiers(lines, ends[0], parse, done + [tier], Reloaded(doc[0]), doc[1..], ends[1..]);
      TierStep(lines, q, ends[0], parse, done, tier, doc[0], Ok(done + [tier] + [Reloaded(doc[0])] + Reloads(doc[1..])));
      ReloadsAfter(done + [tier], doc);
    }
  }

  /// A file whose header ends at the `item` line `p` of a tier the reader
  /// takes reads as what the reader does after that tier's lines, with the
  /// tier rebuilt.
  lemma ReadLongFirst(lines: seq<string>, p: nat, stop: nat, parse: FloatParser, v: TierValue, out: Result<seq<TierValue>>)
    requires SkipHeader(lines, 1) == Ok(p) && TierRead(lines, p, stop, parse, v)
    requires Resume(lines, stop, parse, [], Reloaded(v)) == out
    ensures ReadLong(lines, parse) == out
  {
    var h := TierHeader(v.kind, v.name, v.start, v.end, |v.labels|);
    LabelsFrom(lines, p + 6, stop, parse, [], HeaderTier(h), RereadAll(v.kind, v.labels));
    ReadLongAfterHeader(lines, p, parse, h, out);
  }

  /// A file whose header ends at the `item` line `p`, followed by tiers
  /// the reader takes, reads as those tiers rebuilt, in order.
  lemma ReadLongTiers(lines: seq<string>, p: nat, parse: FloatParser, doc: seq<TierValue>, ends: seq<nat>)
    requires SkipHeader(lines, 1) == Ok(p)
    requires doc != [] && TiersRead(lines, p, parse, doc, ends)
    ensures ReadLong(lines, parse) == Ok(Reloads(doc))
  {
    ResumeTiers(lines, ends[0], parse, [], Reloaded(doc[0]), doc[1..], ends[1..]);
    ReadLongFirst(lines, p, ends[0], parse, doc[0], Ok([] + [Reloaded(doc[0])] + Reloads(doc[1..])));
    ReloadsAfter([], doc);
  }

  // ---------------------------------------------------------------------
  // Written tiers, as the long reader takes them

  /// The lines of a non-empty list of labels are those of the first label,
  /// opened by its entry line, then those of the rest.
  lemma LongLabelsLinesCons(kind: TierKind, labels: seq<Label>, n: nat, num: FloatFormatter, ws: seq<string>)
    returns (h: seq<string>, t: seq<string>)
    requires labels != [] && LongLabelsLines(kind, labels, n, num) == Ok(ws)
    ensures LongLabelLines(kind, labels[0], n, num) == Ok(h)
    ensures LongLabelsLines(kind, labels[1..], n + 1, num) == Ok(t)
    ensures ws == h + t && h[0] == EntryLine(TierIndent, EntryKey(kind), n)
  {
    h := LongLabelLines(kind, labels[0], n, num).value;
    t := LongLabelsLines(kind, labels[1..], n + 1, num).value;
  }

  /// The labels rebuilt are the first label rebuilt, then the rest.
  lemma RereadAllSplit(kind: TierKind, labels: seq<Label>)
    requires labels != []
    ensures RereadAll(kind, labels) == [Reread(kind, labels[0])] + RereadAll(kind, labels[1..])
  {
    RereadAllCons(kind, labels);
  }

  /// The labels the reader takes from line `pos`: a first label whose
  /// lines it takes, then either the line `stop` or the rest.
  lemma LabelsReadCons(lines: seq<string>, pos: nat, next: nat, stop: nat, parse: FloatParser, kind: TierKind,
                       r: Label, rest: seq<Label>)
    requires r.appdata.None? && next == pos + LongLabelSize(kind)
    requires ReadLabelHead(lines, pos, parse, kind == IntervalTier)
             == Ok(LabelHead(Quote(r.text), r.t1, r.t2, pos + LongLabelSize(kind)))
    requires EndsLabel(lines, next)
    requires rest == [] ==> next == stop
    requires rest != [] ==> && !IsItemLine(ReadLine(lines, next)) && ReadLine(lines, next) != ""
                            && LabelsRead(lines, next, stop, parse, kind, rest)
    ensures LabelsRead(lines, pos, stop, parse, kind, [r] + rest)
  {
    assert ([r] + rest)[0] == r && ([r] + rest)[1..] == rest;
  }

  /// The line that stops a text, under another name.
  lemma EndsLabelAt(lines: seq<string>, a: nat, b: nat)
    requires a == b && EndsLabel(lines, a)
    ensures EndsLabel(lines, b)
  {
  }

  /// The entry line of a written label stops the text before it and does
  /// not start a tier.
  lemma NextLabelEntry(lines: seq<string>, pos: nat, num: FloatFormatter, kind: TierKind, labels: seq<Label>,
                       n: nat, ws: seq<string>)
    requires labels != [] && LongLabelsLines(kind, labels, n, num) == Ok(ws) && Written(lines, pos, ws)
    ensures EndsLabel(lines, pos) && !IsItemLine(ReadLine(lines, pos)) && ReadLine(lines, pos) != ""
  {
    var h, t := LongLabelsLinesCons(kind, labels, n, num, ws);
    assert HoldsLine(lines[pos], ws[0]);
    EntryLineRead(TierIndent, EntryKey(kind), n, lines[pos]);
    assert ReadLine(lines, pos) == lines[pos];
  }

  /// Written labels whose numbers read back and whose texts hold no line
  /// break, followed by the line `stop` that stops a text, are taken one by
  /// one as the labels rebuilt.
  lemma {:induction false} WrittenLabelsRead(lines: seq<string>, pos: nat, stop: nat, parse: FloatParser,
                                             num: FloatFormatter, kind: TierKind, labels: seq<Label>, n: nat,
                                             ws: seq<string>)
    requires labels != [] && LongLabelsLines(kind, labels, n, num) == Ok(ws) && Written(lines, pos, ws)
    requires LabelsReadBack(num, parse, kind, labels)
    requires forall k :: 0 <= k < |labels| ==> '\n' !in labels[k].text
    requires pos + |ws| == stop && EndsLabel(lines, stop)
    ensures LabelsRead(lines, pos, stop, parse, kind, RereadAll(kind, labels))
    decreases |labels|
  {
    var h, t := LongLabelsLinesCons(kind, labels, n, num, ws);
    var next := pos + LongLabelSize(kind);
    WrittenSplitAt(lines, pos, h, t, next);
    if |labels| > 1 {
      assert labels[1..] != [];
      NextLabelEntry(lines, next, num, kind, labels[1..], n + 1, t);
      assert forall k :: 0 <= k < |labels| - 1 ==> labels[1..][k] == labels[k + 1];
      WrittenLabelsRead(lines, next, stop, parse, num, kind, labels[1..], n + 1, t);
    } else {
      EndsLabelAt(lines, stop, next);
    }
    RereadAllSplit(kind, labels);
    LongLabelHeadReadBack(lines, pos, parse, num, kind, labels[0], n);
    LabelsReadCons(lines, pos, next, stop, parse, kind, Reread(kind, labels[0]), RereadAll(kind, labels[1..]));
  }

  /// The first of written tiers, opened by its `item` line and followed
  /// by the line `stop` that stops a text, is taken as its header and its
  /// labels rebuilt, when it is ready: its numbers read back, its name is
  /// on one line and not empty, its end is finite and it has labels, none
  /// with a line break.
  lemma WrittenTierRead(lines: seq<string>, q: nat, parse: FloatParser, num: FloatFormatter,
                        doc: seq<TierValue>, n: nat, h: seq<string>, stop: nat)
    requires FirstTierWritten(lines, q, stop, num, doc, n, h) == true && TierReady(num, parse, doc[0]) == true
    ensures TierRead(lines, q, stop, parse, doc[0]) == true
  {
    var v, ws := doc[0], h;
    var item := EntryLine(ItemIndent, "item", n);
    var hd := LongTierHeaderLines(v, num, Equals);
    var ls := LongLabelsLines(v.kind, v.labels, 1, num).value;
    WrittenSplit(lines, q, [item], ws);
    assert ws == hd + ls;
    WrittenSplit(lines, q + 1, hd, ls);
    assert HoldsLine(lines[q], item);
    IndentsBlank();
    EntryLineRead(ItemIndent, "item", n, lines[q]);
    assert ReadLine(lines, q) == lines[q];
    assert LabelsReadBack(num, parse, v.kind, v.labels);
    WrittenLabelsRead(lines, q + 6, stop, parse, num, v.kind, v.labels, 1, ls);
    LongMetadataReadBack(lines, q + 1, parse, num, v);
  }

  /// The lines of a non-empty list of tiers are the first tier's `item`
  /// line and lines, then those of the rest, which open with the next
  /// `item` line.
  lemma TiersLongLinesCons(doc: seq<TierValue>, n: nat, num: FloatFormatter, style: MetaStyle, ws: seq<string>)
    returns (h: seq<string>, t: seq<string>)
    requires doc != [] && TiersLongLines(doc, n, num, style) == Ok(ws)
    ensures TierLongLines(doc[0], num, style) == Ok(h)
    ensures TiersLongLines(doc[1..], n + 1, num, style) == Ok(t)
    ensures ws == [EntryLine(ItemIndent, "item", n)] + h + t
    ensures doc[1..] != [] ==> t != [] && t[0] == EntryLine(ItemIndent, "item", n + 1)
  {
    h := TierLongLines(doc[0], num, style).value;
    t := TiersLongLines(doc[1..], n + 1, num, style).value;
  }

  /// Tiers the reader takes: a first tier it takes, then the rest.
  lemma TiersReadIntro(lines: seq<string>, q: nat, stop: nat, parse: FloatParser, doc: seq<TierValue>,
                       ends: seq<nat>, all: seq<nat>)
    requires doc != [] && TierRead(lines, q, stop, parse, doc[0]) && TiersRead(lines, stop, parse, doc[1..], ends)
    requires all == [stop] + ends
    ensures TiersRead(lines, q, parse, doc, all)
  {
    assert all[0] == stop && all[1..] == ends;
  }

  /// The line after a written tier stops its last label's text: the next
  /// tier's `item` line, or the end of the file.
  lemma AfterWrittenTier(lines: seq<string>, stop: nat, rest: seq<TierValue>, t: seq<string>, n: nat)
    requires Written(lines, stop, t) && stop + |t| == |lines|
    requires rest == [] ==> t == []
    requires rest != [] ==> t != [] && t[0] == EntryLine(ItemIndent, "item", n)
    ensures EndsLabel(lines, stop)
  {
    if rest != [] {
      assert HoldsLine(lines[stop], t[0]);
      IndentsBlank();
      EntryLineRead(ItemIndent, "item", n, lines[stop]);
      assert ReadLine(lines, stop) == lines[stop];
    }
  }

  /// The remaining tiers keep what is asked of all of them.
  lemma RestReadable(num: FloatFormatter, parse: FloatParser, doc: seq<TierValue>)
    requires doc != [] && DocReadsBack(num, parse, doc) && LineFree(doc) && LongReadable(doc)
    ensures DocReadsBack(num, parse, doc[1..]) && LineFree(doc[1..]) && LongReadable(doc[1..])
    ensures TierReadsBack(num, parse, doc[0]) && '\n' !in doc[0].name
    ensures forall k :: 0 <= k < |doc[0].labels| ==> '\n' !in doc[0].labels[k].text
    ensures doc[0].name != "" && doc[0].end.Finite? && doc[0].labels != []
  {
    assert forall i :: 0 <= i < |doc| - 1 ==> doc[1..][i] == doc[i + 1];
  }

  /// What the writer's lines of a list of tiers need to be read back:
  /// they run to the end of the file from line `q`, and every tier is
  /// one the reader can take.
  predicate TiersWritten(lines: seq<string>, q: nat, parse: FloatParser, num: FloatFormatter,
                         doc: seq<TierValue>, n: nat, ws: seq<string>)
  {
    && TiersLongLines(doc, n, num, Equals) == Ok(ws) && Written(lines, q, ws) && q + |ws| == |lines|
    && TiersReady(num, parse, doc)
  }

  /// A tier the long reader takes back as written: its numbers read back,
  /// it has a name, a finite end and a label, and no name or text breaks
  /// a line.
  predicate TierReady(num: FloatFormatter, parse: FloatParser, v: TierValue) {
    && TierReadsBack(num, parse, v) && v.name != "" && '\n' !in v.name && v.end.Finite? && v.labels != []
    && forall k :: 0 <= k < |v.labels| ==> '\n' !in v.labels[k].text
  }

  /// Every tier ready, tier by tier.
  predicate TiersReady(num: FloatFormatter, parse: FloatParser, doc: seq<TierValue>)
    decreases |doc|
  {
    doc != [] ==> TierReady(num, parse, doc[0]) && TiersReady(num, parse, doc[1..])
  }

  /// The conditions stated over the whole list make every tier ready.
  lemma {:induction false} ReadyFromParts(num: FloatFormatter, parse: FloatParser, doc: seq<TierValue>)
    requires DocReadsBack(num, parse, doc) && LineFree(doc) && LongReadable(doc)
    ensures TiersReady(num, parse, doc)
    decreases |doc|
  {
    if doc != [] {
      RestReadable(num, parse, doc);
      ReadyFromParts(num, parse, doc[1..]);
    }
  }

  /// The first of written tiers: its `item` line and lines, followed by a
  /// line that stops its last text.
  predicate FirstTierWritten(lines: seq<string>, q: nat, stop: nat, num: FloatFormatter, doc: seq<TierValue>, n: nat, h: seq<string>)
  {
    && doc != [] && TierLongLines(doc[0], num, Equals) == Ok(h) && stop == q + 1 + |h|
    && Written(lines, q, [EntryLine(ItemIndent, "item", n)] + h) && EndsLabel(lines, stop)
  }

  /// Written tiers: the first tier's `item` line and lines, followed by
  /// a line that stops its last text, then the rest's lines.
  lemma WrittenFirstTier(lines: seq<string>, q: nat, parse: FloatParser, num: FloatFormatter,
                         doc: seq<TierValue>, n: nat, ws: seq<string>)
    returns (h: seq<string>, stop: nat, t: seq<string>)
    requires doc != [] && TiersWritten(lines, q, parse, num, doc, n, ws) == true
    ensures FirstTierWritten(lines, q, stop, num, doc, n, h) == true && TierReady(num, parse, doc[0]) == true
    ensures TiersWritten(lines, stop, parse, num, doc[1..], n + 1, t) == true
  {
    h, t := TiersLongLinesCons(doc, n, num, Equals, ws);
    stop := q + 1 + |h|;
    WrittenSplitAt(lines, q, [EntryLine(ItemIndent, "item", n)] + h, t, stop);
    AfterWrittenTier(lines, stop, doc[1..], t, n + 1);
  }

  /// Written tiers that run to the end of the file are taken one by one,
  /// and the lemma gives the line after each.
  lemma {:induction false} WrittenTiersRead(lines: seq<string>, q: nat, parse: FloatParser, num: FloatFormatter,
                                            doc: seq<TierValue>, n: nat, ws: seq<string>)
    returns (ends: seq<nat>)
    requires TiersWritten(lines, q, parse, num, doc, n, ws) == true
    ensures TiersRead(lines, q, parse, doc, ends) == true
    decreases |doc|, 1
  {
    if doc == [] {
      ends := [];
      assert TiersRead(lines, q, parse, doc, ends);
    } else {
      var h, stop, t := WrittenFirstTier(lines, q, parse, num, doc, n, ws);
      WrittenTierRead(lines, q, parse, num, doc, n, h, stop);
      ends := WrittenTiersReadCons(lines, q, stop, parse, num, doc, n, t);
    }
  }

  /// A first tier the reader takes, then written tiers, are taken one by
  /// one.
  lemma {:induction false} WrittenTiersReadCons(lines: seq<string>, q: nat, stop: nat, parse: FloatParser, num: FloatFormatter,
                                                doc: seq<TierValue>, n: nat, t: seq<string>)
    returns (ends: seq<nat>)
    requires doc != [] && TierRead(lines, q, stop, parse, doc[0]) == true
    requires TiersWritten(lines, stop, parse, num, doc[1..], n + 1, t) == true
    ensures TiersRead(lines, q, parse, doc, ends) == true
    decreases |doc|, 0
  {
    var rest := WrittenTiersRead(lines, stop, parse, num, doc[1..], n + 1, t);
    ends := [stop] + rest;
    TiersReadIntro(lines, q, stop, parse, doc, rest, ends);
  }

  // ---------------------------------------------------------------------
  // The whole file

  /// A line that opens with neither a space nor an `i` opens no tier.
  lemma NotItemByFirst(s: string)
    requires s != "" && !IsSpace(s[0]) && s[0] != 'i'
    ensures !IsItemLine(s)
  {
    assert Indent(s) == 0;
    LiteralAtChar(s, 0, "item" + " [", 0);
  }

  /// The header's `item []:` line has no number between its brackets, so
  /// it opens no tier.
  lemma ItemsLineNotItem(s: string)
    requires s == "item []:\n"
    ensures !IsItemLine(s)
  {
    assert Indent(s) == 0;
    assert RunEnd(s, 6, IsDigit) == 6;
  }

  /// The header skip passes over lines that open no tier up to the first
  /// one that does.
  lemma {:induction false} SkipHeaderTo(lines: seq<string>, pos: nat, item: nat)
    requires pos <= item && IsItemLine(ReadLine(lines, item))
    requires forall i :: pos <= i < item ==> ReadLine(lines, i) != "" && !IsItemLine(ReadLine(lines, i))
    ensures SkipHeader(lines, pos) == Ok(item)
    decreases item - pos
  {
    if pos < item {
      SkipHeaderTo(lines, pos + 1, item);
    }
  }

  /// In a written long file the header skip stops at the first tier's
  /// `item [1]:` line, the ninth line.
  lemma LongHeaderSkipped(start: string, end: string, count: string, tiers: seq<string>)
    requires tiers != [] && tiers[0] == EntryLine(ItemIndent, "item", 1)
    ensures SkipHeader(FileLines(LongFileHeaderLines(start, end, count) + tiers), 1) == Ok(8)
  {
    var ws := LongFileHeaderLines(start, end, count) + tiers;
    var lines := FileLines(ws);
    forall i | 1 <= i < 8
      ensures ReadLine(lines, i) != "" && !IsItemLine(ReadLine(lines, i))
    {
      assert ReadLine(lines, i) == ws[i] + "\n";
      if i == 2 {
        assert Indent(ws[i] + "\n") == 1;
      } else if i == 7 {
        ItemsLineNotItem(ws[i] + "\n");
      } else {
        NotItemByFirst(ws[i] + "\n");
      }
    }
    assert HoldsLine(lines[8], ws[8]);
    IndentsBlank();
    EntryLineRead(ItemIndent, "item", 1, lines[8]);
    assert ReadLine(lines, 8) == lines[8];
    SkipHeaderTo(lines, 1, 8);
  }

  /// Writing a manager in the long format, with tier metadata joined by
  /// ` = ` as the reader's patterns have it, and reading the file back
  /// gives its tiers, each rebuilt from its header and labels as
  /// `Reloaded` says, whenever the numbers read back exactly, no name or
  /// text breaks a line, and every tier has a name, a finite end and a
  /// label.
  lemma LongRoundTrip(doc: seq<TierValue>, num: FloatFormatter, parse: FloatParser)
    requires ManagerLongLines(doc, num, Equals).Ok?
    requires DocReadsBack(num, parse, doc) && LineFree(doc) && LongReadable(doc)
    ensures ReadLong(FileLines(ManagerLongLines(doc, num, Equals).value), parse) == Ok(Reloads(doc))
  {
    var start := DocStart(doc).value;
    var end := DocEnd(doc).value;
    var hd := LongFileHeaderLines(num(20, start), ExtentText(num, 20, end), NatToString(|doc|));
    var tiers := TiersLongLines(doc, 1, num, Equals).value;
    var ws := hd + tiers;
    assert ManagerLongLines(doc, num, Equals).value == ws;
    var lines := FileLines(ws);
    FileLinesWritten(ws);
    WrittenSplit(lines, 0, hd, tiers);
    var h, t := TiersLongLinesCons(doc, 1, num, Equals, tiers);
    LongHeaderSkipped(num(20, start), ExtentText(num, 20, end), NatToString(|doc|), tiers);
    ReadyFromParts(num, parse, doc);
    assert TiersWritten(lines, 8, parse, num, doc, 1, tiers) == true;
    var ends := WrittenTiersRead(lines, 8, parse, num, doc, 1, tiers);
    ReadLongTiers(lines, 8, parse, doc, ends);
  }

  /// Writing tiers as the reader builds them in the long format and
  /// reading the file back gives exactly those tiers.
  lemma LongRoundTripExact(doc: seq<TierValue>, num: FloatFormatter, parse: FloatParser)
    requires ManagerLongLines(doc, num, Equals).Ok?
    requires DocReadsBack(num, parse, doc) && LineFree(doc) && LongReadable(doc)
    requires forall i :: 0 <= i < |doc| ==> AsRead(doc[i])
    ensures ReadLong(FileLines(ManagerLongLines(doc, num, Equals).value), parse) == Ok(doc)
  {
    LongRoundTrip(doc, num, parse);
    ReloadsIdentity(doc);
  }

  /// The tiers read back from a long file come in the written order: the
  /// same names, and each tier with its kind, its start and its labels.
  lemma LongReadsInOrder(doc: seq<TierValue>, num: FloatFormatter, parse: FloatParser)
    requires ManagerLongLines(doc, num, Equals).Ok?
    requires DocReadsBack(num, parse, doc) && LineFree(doc) && LongReadable(doc)
    ensures var r := ReadLong(FileLines(ManagerLongLines(doc, num, Equals).value), parse);
            && r.Ok? && Names(r.value) == Names(doc)
            && forall i :: 0 <= i < |doc| ==>
                 && r.value[i].kind == doc[i].kind && r.value[i].start == doc[i].start
                 && multiset(r.value[i].labels) == multiset(RereadAll(doc[i].kind, doc[i].labels))
  {
    LongRoundTrip(doc, num, parse);
    ReloadsInOrder(doc);
  }

  /// A file whose header ends at the `item` line `p` and whose first tier's
  /// metadata read as `h` reads as the rest of the file from the first
  /// label's entry line.
  lemma ReadLongAfterHeader(lines: seq<string>, p: nat, parse: FloatParser, h: TierHeader, out: Result<seq<TierValue>>)
    requires SkipHeader(lines, 1) == Ok(p) && LongMetadata(lines, p + 1, parse) == Ok(h)
    requires LongFrom(lines, p + 6, parse, [], HeaderTier(h)) == out
    ensures ReadLong(lines, parse) == out
  {
    assert ReadLongAt(lines, p, parse) == out;
  }

  /// No line after the entry line `pos`: no time to read.
  lemma NoLabelAt(lines: seq<string>, pos: nat, parse: FloatParser, done: seq<TierValue>, cur: TierValue)
    requires |lines| <= pos + 1
    ensures LongFrom(lines, pos, parse, done, cur) == Err(AttributeError)
  {
    assert ReadLine(lines, pos + 1) == "";
    assert T1Value("") == None;
  }

  /// A tier with no labels cannot be read back: after its metadata the
  /// reader looks for a first label's time where there is none and raises
  /// AttributeError.
  lemma LongEmptyTierUnreadable(v: TierValue, num: FloatFormatter, parse: FloatParser)
    requires v.labels == [] && TierReadsBack(num, parse, v)
    requires v.name != "" && '\n' !in v.name && v.end.Finite?
    ensures ManagerLongLines([v], num, Equals).Ok?
    ensures ReadLong(FileLines(ManagerLongLines([v], num, Equals).value), parse) == Err(AttributeError)
  {
    var doc := [v];
    var tiers := TiersLongLines(doc, 1, num, Equals).value;
    var hd := LongFileHeaderLines(num(20, DocStart(doc).value), ExtentText(num, 20, DocEnd(doc).value), NatToString(1));
    var ws := hd + tiers;
    assert ManagerLongLines(doc, num, Equals).value == ws;
    var h, t := TiersLongLinesCons(doc, 1, num, Equals, tiers);
    assert h == LongTierHeaderLines(v, num, Equals) && t == [];
    assert ws == (hd + [EntryLine(ItemIndent, "item", 1)]) + h;
    var lines := FileLines(ws);
    FileLinesWritten(ws);
    WrittenSplitAt(lines, 0, hd + [EntryLine(ItemIndent, "item", 1)], h, 9);
    LongHeaderSkipped(num(20, DocStart(doc).value), ExtentText(num, 20, DocEnd(doc).value), NatToString(1), tiers);
    LongMetadataReadBack(lines, 9, parse, num, v);
    var m := TierHeader(v.kind, v.name, v.start, v.end, 0);
    NoLabelAt(lines, 14, parse, [], HeaderTier(m));
    ReadLongAfterHeader(lines, 8, parse, m, Err(AttributeError));
  }

  /// No `=` in a line, no `key = "..."` in it.
  lemma {:induction false} NoEqualsNoQuoted(s: string, k: nat, key: string)
    requires '=' !in s
    ensures Patterns.Search(s, k, QuotedValue(key)).None?
    decreases |s| + 1 - k
  {
    if k <= |s| {
      LiteralAtChar(s, k, key + " = ", |key| + 1);
      NoEqualsNoQuoted(s, k + 1, key);
    }
  }

  /// A file whose first tier's class line holds no `=`: the reader finds
  /// no class there and raises AttributeError.
  lemma ReadLongNoClass(lines: seq<string>, parse: FloatParser)
    requires SkipHeader(lines, 1) == Ok(8) && '=' !in ReadLine(lines, 9)
    ensures ReadLong(lines, parse) == Err(AttributeError)
  {
    NoEqualsNoQuoted(ReadLine(lines, 9), 0, "class");
  }

  /// The file the source's long writer makes: the usual header, then the
  /// first tier's `item [1]:` line and its class line joined by a colon.
  lemma ColonsFile(doc: seq<TierValue>, num: FloatFormatter)
    requires ManagerLongLines(doc, num, Colons).Ok?
    ensures SkipHeader(FileLines(ManagerLongLines(doc, num, Colons).value), 1) == Ok(8)
    ensures ReadLine(FileLines(ManagerLongLines(doc, num, Colons).value), 9)
            == MetaLine(Colons, "class", "\"" + ClassName(doc[0].kind) + "\"") + "\n"
  {
    var start := DocStart(doc).value;
    var end := DocEnd(doc).value;
    var hd := LongFileHeaderLines(num(20, start), ExtentText(num, 20, end), NatToString(|doc|));
    var tiers := TiersLongLines(doc, 1, num, Colons).value;
    var ws := hd + tiers;
    assert ManagerLongLines(doc, num, Colons).value == ws;
    var h, t := TiersLongLinesCons(doc, 1, num, Colons, tiers);
    assert ws[9] == h[0];
    LongHeaderSkipped(num(20, start), ExtentText(num, 20, end), NatToString(|doc|), tiers);
  }

  lemma ClassLineNoEquals(kind: TierKind)
    ensures '=' !in MetaLine(Colons, "class", "\"" + ClassName(kind) + "\"") + "\n"
  {
  }

  /// The long file as the source writes it, with `class: "..."` and the
  /// other tier metadata joined by colons, cannot be read back: the first
  /// tier's class line does not match `class = "(.+)"`, and the reader
  /// raises AttributeError whatever the tiers.
  lemma ColonsUnreadable(doc: seq<TierValue>, num: FloatFormatter, parse: FloatParser)
    requires ManagerLongLines(doc, num, Colons).Ok?
    ensures ReadLong(FileLines(ManagerLongLines(doc, num, Colons).value), parse) == Err(AttributeError)
  {
    ColonsFile(doc, num);
    ClassLineNoEquals(doc[0].kind);
    ReadLongNoClass(FileLines(ManagerLongLines(doc, num, Colons).value), parse);
  }

  /// A closing line that is not an entry line is appended, without its
  /// break, to the text before it, and the end of the file stops the gathering.
  lemma GatherClosingLine(lines: seq<string>)
    requires |lines| == 2 && lines[1] == "b\"\n"
    ensures GatherFrom(lines, 1, "\"a") == (2, "\"ab\"\n")
  {
    assert !IsEntryLine(lines[1]) by {
      assert Indent(lines[1]) == 0;
      LiteralAtChar(lines[1], 0, "item" + " [", 0);
      LiteralAtChar(lines[1], 0, "intervals" + " [", 0);
      LiteralAtChar(lines[1], 0, "points" + " [", 0);
    }
    assert ReadLine(lines, 2) == "";
    assert GatherFrom(lines, 2, "\"a" + lines[1]) == (2, "\"a" + lines[1]);
    assert GatherFrom(lines, 1, "\"a") == GatherFrom(lines, 2, "\"a" + lines[1]);
    assert "\"a" + lines[1] == "\"ab\"\n";
  }

  /// A label text with a line break, as the long writer writes it, takes
  /// two lines of the file. The reader takes the first line's text without
  /// its newline and appends the next line whole, so the break is lost:
  /// `a\nb` reads back as `ab`.
  lemma MultiLineTextLosesBreak()
    ensures var lines := [LabelLine("text", "\"a") + "\n", "b\"\n"];
            && lines[0] + lines[1] == LabelLine("text", Quote("a\nb")) + "\n"
            && TextValue(lines[0]) == Some("\"a")
            && GatherFrom(lines, 1, "\"a") == (2, "\"ab\"\n")
            && CleanPraatString("\"ab\"\n") == "ab"
  {
    var lines := [LabelLine("text", "\"a") + "\n", "b\"\n"];
    assert lines[0] + lines[1] == LabelLine("text", Quote("a\nb")) + "\n" by {
      assert Quote("a\nb") == "\"a\nb\"";
    }
    assert TextValue(lines[0]) == Some("\"a") by {
      IndentsBlank();
      TextValueOfWritten(LabelIndent, "text", "\"a", "\n");
    }
    GatherClosingLine(lines);
    CleanedJoined();
  }

  /// The gathered text of `MultiLineTextLosesBreak` cleans to `ab`.
  lemma CleanedJoined()
    ensures CleanPraatString("\"ab\"\n") == "ab"
  {
    StripNewline("\"ab\"");
    StripKeepsUnpadded("\"ab\"");
    assert StripQuotes("\"ab\"") == "ab";
    EscapeQuoteFree("ab");
    UnescapeEscape("ab");
  }

  // ---------------------------------------------------------------------
  // The header `_get_praat_header` builds

  /// `_get_praat_header(type)`: file type, object class, a blank line, the
  /// earliest start and the latest end over the tiers with 16 decimals, the
  /// tiers flag and the tier count; for the `long` type the start, end and
  /// count lines carry the keys `xmin = `, `xmax = ` and
  /// `intervals: size = `. A manager without tiers has no start: ValueError.
  function PraatHeader(doc: seq<TierValue>, num: FloatFormatter, long: bool): (r: Result<seq<string>>)
    ensures r.Err? <==> doc == []
    ensures r.Err? ==> r.error == ValueError
    ensures r.Ok? ==> |r.value| == 7
  {
    var start := DocStart(doc);
    var end := DocEnd(doc);
    if start.Err? then Err(start.error)
    else
      var xmin := num(16, start.value);
      var xmax := ExtentText(num, 16, end.value);
      var count := NatToString(|doc|);
      if long then Ok(FileHeaderLines("xmin = " + xmin, "xmax = " + xmax, "intervals: size = " + count))
      else Ok(FileHeaderLines(xmin, xmax, count))
  }

  /// A file opened by either header is taken by `read_praat` for the
  /// format the header is for exactly when the earliest start is not
  /// negative: a leading minus sign matches neither `xmin = \d` nor `\d`,
  /// and the file is refused as not a Praat file.
  lemma HeaderChoosesFormat(doc: seq<TierValue>, num: FloatFormatter, long: bool, rest: seq<string>)
    requires doc != [] && IsFixedPoint(num(16, DocStart(doc).value), DocStart(doc).value)
    ensures var r := ChooseFormat(FileLines(PraatHeader(doc, num, long).value + rest));
            && (r.Ok? <==> DocStart(doc).value >= 0.0)
            && (r.Ok? ==> r.value == if long then LongFormat else ShortFormat)
  {
    var x := DocStart(doc).value;
    var ws := PraatHeader(doc, num, long).value + rest;
    assert ws[3] == (if long then "xmin = " else "") + num(16, x);
    FourthLineRead(ws);
    XminLineChoice(num(16, x), x, long);
  }

  /// The fourth line of a file of at least five lines, as read.
  lemma FourthLineRead(ws: seq<string>)
    requires |ws| >= 5
    ensures ReadLine(FileLines(ws), 3) == ws[3] + "\n"
  {
  }

  /// A start line, with or without its key, opens with `xmin = ` and a
  /// digit, or with a digit, exactly when the key is there, or not, and
  /// the start is not negative.
  lemma XminLineChoice(xmin: string, x: real, long: bool)
    requires IsFixedPoint(xmin, x)
    ensures var line := (if long then "xmin = " else "") + xmin + "\n";
            && (StartsXminDigit(line) <==> long && x >= 0.0)
            && (StartsDigit(line) <==> !long && x >= 0.0)
  {
    var line := (if long then "xmin = " else "") + xmin + "\n";
    if long {
      LiteralThen(line, 0, "xmin = ", xmin + "\n");
      assert line[7] == xmin[0] && line[0] == 'x';
    } else {
      assert line[0] == xmin[0];
      assert !LiteralAt(line, 0, "xmin = ") by {
        if LiteralAt(line, 0, "xmin = ") {
          LiteralAtHead(line, 0, "xmin = ");
        }
      }
    }
  }

  /// The header for the short format, with a start that is not negative,
  /// is taken for a short file; the one for the long format for a long
  /// file.
  lemma HeaderScenario()
    ensures var v := EmptyTier(PointTier, "t", 0.5, Finite(2.0), 0);
            var num := (places: nat, x: real) => if x == 0.5 then "0.5" else "2.0";
            && PraatHeader([v], num, false) == Ok(["File type = \"ooTextFile\"", "Object class = \"TextGrid\"", "",
                                                  "0.5", "2.0", "<exists>", "1"])
            && ChooseFormat(FileLines(PraatHeader([v], num, false).value)) == Ok(ShortFormat)
            && ChooseFormat(FileLines(PraatHeader([v], num, true).value)) == Ok(LongFormat)
  {
    var v := EmptyTier(PointTier, "t", 0.5, Finite(2.0), 0);
    var num := (places: nat, x: real) => if x == 0.5 then "0.5" else "2.0";
    assert DocStart([v]) == Ok(0.5);
    assert NatToString(1) == "1";
    assert IsFixedPoint("0.5", 0.5);
    HeaderChoosesFormat([v], num, false, []);
    HeaderChoosesFormat([v], num, true, []);
    assert PraatHeader([v], num, false).value + [] == PraatHeader([v], num, false).value;
    assert PraatHeader([v], num, true).value + [] == PraatHeader([v], num, true).value;
  }
}
