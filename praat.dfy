/// Praat TextGrid files: byte-order-mark sniffing, the choice between the
/// long and short text formats, the two line-by-line readers and the
/// writers. A file is the sequence of its decoded lines as `readline`
/// returns them, each with its newline; reading past the last line gives
/// "", as `readline` does at end of file.
module Praat {
  import opened Wrappers
  import opened Text
  import opened Labels
  import opened Tiers
  import opened Manager
  import opened Patterns
  import opened Lines

  // ---------------------------------------------------------------------
  // Byte-order marks

  datatype Codec = Utf16Le | Utf16Be | Utf8 | Ascii

  /// The byte-order mark announcing each encoding (section 3.2 of RFC 2781,
  /// section 6 of RFC 3629); ASCII has none.
  function Bom(c: Codec): seq<bv8> {
    match c
    case Utf16Le => [0xFF, 0xFE]
    case Utf16Be => [0xFE, 0xFF]
    case Utf8 => [0xEF, 0xBB, 0xBF]
    case Ascii => []
  }

  predicate HasPrefix(s: seq<bv8>, p: seq<bv8>) {
    |p| <= |s| && s[..|p|] == p
  }

  /// `_guess_praat_encoding`: the encoding whose mark opens the first line,
  /// ASCII when none does.
  function GuessEncoding(firstline: seq<bv8>): (c: Codec)
    ensures c != Ascii ==> HasPrefix(firstline, Bom(c))
    ensures c == Ascii <==> forall k: Codec :: k != Ascii ==> !HasPrefix(firstline, Bom(k))
  {
    if HasPrefix(firstline, Bom(Utf16Le)) then Utf16Le
    else if HasPrefix(firstline, Bom(Utf16Be)) then Utf16Be
    else if HasPrefix(firstline, Bom(Utf8)) then Utf8
    else Ascii
  }

  /// A line opened by an encoding's mark is recognised as that encoding,
  /// whatever follows the mark: no mark is a prefix of another.
  lemma GuessEncodingOfBom(c: Codec, rest: seq<bv8>)
    requires c != Ascii
    ensures GuessEncoding(Bom(c) + rest) == c
  {
    var s := Bom(c) + rest;
    assert s[..|Bom(c)|] == Bom(c);
    assert s[0] == Bom(c)[0];
    if c == Utf8 {
      assert s[1] == 0xBB;
    }
  }

  // ---------------------------------------------------------------------
  // Reading lines and numbers

  function Lower(c: char): char {
    if 'A' <= c <= 'Z' then (c as int + 32) as char else c
  }

  /// The texts `float` reads as positive infinity.
  predicate IsInfinityText(t: string) {
    var l := seq(|t|, i requires 0 <= i < |t| => Lower(t[i]));
    l == "inf" || l == "+inf" || l == "infinity" || l == "+infinity"
  }

  /// `float(s)` for a tier end, where `inf` stands for an unbounded end.
  function FloatExtent(parse: FloatParser, s: string): (r: Option<Extent>)
    ensures IsInfinityText(Strip(s)) ==> r == Some(Unbounded)
    ensures !IsInfinityText(Strip(s)) ==>
              (r.Some? <==> Float(parse, s).Some?)
              && (r.Some? ==> r.value == Finite(Float(parse, s).value))
  {
    if IsInfinityText(Strip(s)) then Some(Unbounded)
    else match Float(parse, s)
      case None => None
      case Some(x) => Some(Finite(x))
  }

  /// `'{:0.Nf}'.format(e)` for a tier end: `inf` for an unbounded one.
  function ExtentText(num: FloatFormatter, places: nat, e: Extent): string {
    match e
    case Finite(t) => num(places, t)
    case Unbounded => "inf"
  }

  /// What a tier's header lines say: the constructor's arguments.
  datatype TierHeader = TierHeader(kind: TierKind, name: string, start: real, end: Extent, count: nat)

  /// The tier a header constructs: empty, with `count` slots preallocated.
  function HeaderTier(h: TierHeader): TierValue {
    EmptyTier(h.kind, h.name, h.start, h.end, h.count)
  }

  /// The tier list after `self.add(tier)` for the tier being read, if any.
  function Flush(done: seq<TierValue>, cur: Option<TierValue>): seq<TierValue> {
    if cur.Some? then done + [cur.value] else done
  }

  // ---------------------------------------------------------------------
  // Choosing the format

  datatype PraatFormat = LongFormat | ShortFormat

  /// `read_praat`: the fourth line decides, `xmin = ` and a digit for the
  /// long format, a leading digit for the short one; anything else is not
  /// a Praat file.
  function ChooseFormat(lines: seq<string>): (r: Result<PraatFormat>)
    ensures r == Ok(LongFormat) <==> StartsXminDigit(ReadLine(lines, 3))
    ensures r == Ok(ShortFormat) <==> !StartsXminDigit(ReadLine(lines, 3)) && StartsDigit(ReadLine(lines, 3))
    ensures r.Err? ==> r.error == ParseError
  {
    var xmin := ReadLine(lines, 3);
    if StartsXminDigit(xmin) then Ok(LongFormat)
    else if StartsDigit(xmin) then Ok(ShortFormat)
    else Err(ParseError)
  }

  // ---------------------------------------------------------------------
  // The short format

  /// Where the short reader starts: after the first line and the six
  /// header lines it skips.
  const ShortBodyStart: nat := 7

  predicate IsShortTierLine(s: string) {
    s == "\"IntervalTier\"" || s == "\"TextTier\""
  }

  /// The four lines after a tier's class line: the name with its quotes
  /// removed (not unescaped), start, end and label count. A count or time
  /// that does not convert, or a negative count, raises ValueError.
  function ShortTierHeader(lines: seq<string>, pos: nat, parse: FloatParser): (r: Result<TierHeader>)
    ensures r.Err? ==> r.error == ValueError
  {
    var kind := if Strip(ReadLine(lines, pos)) == "\"IntervalTier\"" then IntervalTier else PointTier;
    var name := StripQuotes(StripAscii(ReadLine(lines, pos + 1)));
    var n := ParseInt(ReadLine(lines, pos + 4));
    var start := Float(parse, ReadLine(lines, pos + 2));
    var end := FloatExtent(parse, ReadLine(lines, pos + 3));
    if n.None? || start.None? || end.None? || n.value < 0 then Err(ValueError)
    else Ok(TierHeader(kind, name, start.value, end.value, n.value))
  }

  /// A label of the short format starting at `pos`: its time line, the
  /// second time line for an interval tier, then the quoted text.
  function ShortLabel(lines: seq<string>, pos: nat, parse: FloatParser, interval: bool): (r: Result<Label>)
    ensures r.Err? ==> r.error == ValueError
  {
    var t1 := Float(parse, ReadLine(lines, pos));
    var t2 := if interval then Float(parse, ReadLine(lines, pos + 1)) else None;
    var text := CleanPraatString(ReadLine(lines, pos + (if interval then 2 else 1)));
    if t1.None? || (interval && t2.None?) then Err(ValueError)
    else Ok(Label(text, t1.value, t2, None))
  }

  /// Lines consumed by a label of the short format.
  function ShortLabelSize(interval: bool): nat {
    if interval then 3 else 2
  }

  /// `read_praat_short` from line `pos` on, with `done` the tiers added and
  /// `cur` the tier being filled: blank lines are skipped, a class line
  /// adds the current tier and starts the next, anything else is a label
  /// for the current tier (AttributeError when there is none yet). At the
  /// end of the file the current tier is added.
  function ShortFrom(lines: seq<string>, pos: nat, parse: FloatParser,
                     done: seq<TierValue>, cur: Option<TierValue>): Result<seq<TierValue>>
    decreases Measure(lines, pos)
  {
    var step := ShortNext(lines, pos, parse, done, cur);
    if step.Finished? then step.result
    else ShortFrom(lines, step.pos, parse, step.done, step.cur)
  }

  /// Where the reader is after one line: finished with a result, or going
  /// on at `pos` with the tiers `done` and the tier `cur` being filled.
  datatype Progress = Finished(result: Result<seq<TierValue>>)
                    | Continue(pos: nat, done: seq<TierValue>, cur: Option<TierValue>)

  /// One pass of `read_praat_short`'s loop: the end of the file stores the
  /// tier being read; a blank line is skipped; a class line stores it and
  /// starts a tier from the header that follows; any other line is a label
  /// of the tier being read, and there must be one.
  function ShortNext(lines: seq<string>, pos: nat, parse: FloatParser,
                     done: seq<TierValue>, cur: Option<TierValue>): (r: Progress)
    ensures r.Continue? ==> Measure(lines, r.pos) < Measure(lines, pos)
    ensures r.Finished? && r.result.Ok? ==> ReadLine(lines, pos) == "" && r.result.value == Flush(done, cur)
  {
    var line := ReadLine(lines, pos);
    if line == "" then Finished(Ok(Flush(done, cur)))
    else if Strip(line) == "" then Continue(pos + 1, done, cur)
    else if IsShortTierLine(Strip(line)) then
      var h := ShortTierHeader(lines, pos, parse);
      if h.Err? then Finished(Err(h.error))
      else Continue(pos + 5, Flush(done, cur), Some(HeaderTier(h.value)))
    else
      var interval := cur.Some? && cur.value.kind == IntervalTier;
      var l := ShortLabel(lines, pos, parse, interval);
      if l.Err? then Finished(Err(l.error))
      else if cur.None? then Finished(Err(AttributeError))
      else Continue(pos + ShortLabelSize(interval), done, Some(Added(cur.value, l.value)))
  }

  /// `read_praat_short` on a whole file: the tiers read, in file order.
  function ReadShort(lines: seq<string>, parse: FloatParser): Result<seq<TierValue>> {
    ShortFrom(lines, ShortBodyStart, parse, [], None)
  }

  /// A class line at `pos`: the tier being read, if any, is added to the
  /// manager, and a new empty tier is built from the header that follows.
  method StartShortTier(lm: LabelManager, cur: Tier?, lines: seq<string>, pos: nat, parse: FloatParser)
    returns (next: Result<Tier>)
    requires ReadLine(lines, pos) != "" && IsShortTierLine(Strip(ReadLine(lines, pos)))
    requires Building(lm, cur)
    modifies lm
    ensures Building(lm, null)
    ensures lm.Values() == Flush(old(lm.Values()), old(Current(cur)))
    ensures next.Err? ==> ShortNext(lines, pos, parse, old(lm.Values()), old(Current(cur))) == Finished(Err(next.error))
    ensures next.Ok? ==> fresh(next.value) && next.value !in lm.tiers && next.value.Valid()
                         && ShortNext(lines, pos, parse, old(lm.Values()), old(Current(cur)))
                            == Continue(pos + 5, lm.Values(), Some(next.value.Value()))
  {
    if cur != null {
      Append(lm, cur);
    }
    var h := ShortTierHeader(lines, pos, parse);
    if h.Err? {
      return Err(h.error);
    }
    var t := new Tier(h.value.kind, h.value.start, h.value.end, h.value.name, h.value.count);
    return Ok(t);
  }

  /// A line that is neither blank nor a class line is read as a label of
  /// the current tier, which must exist.
  lemma ShortNextLabel(lines: seq<string>, pos: nat, parse: FloatParser,
                       done: seq<TierValue>, cur: Option<TierValue>)
    requires ReadLine(lines, pos) != "" && Strip(ReadLine(lines, pos)) != ""
    requires !IsShortTierLine(Strip(ReadLine(lines, pos)))
    ensures var interval := cur.Some? && cur.value.kind == IntervalTier;
            var l := ShortLabel(lines, pos, parse, interval);
            ShortNext(lines, pos, parse, done, cur)
            == if l.Err? then Finished(Err(l.error))
               else if cur.None? then Finished(Err(AttributeError))
               else Continue(pos + ShortLabelSize(interval), done, Some(Added(cur.value, l.value)))
  {
  }

  /// A label at `pos`, added to the tier being read.
  method AddShortLabel(lm: LabelManager, cur: Tier?, lines: seq<string>, pos: nat, parse: FloatParser)
    returns (err: Option<Error>, next: nat)
    requires ReadLine(lines, pos) != "" && Strip(ReadLine(lines, pos)) != ""
    requires !IsShortTierLine(Strip(ReadLine(lines, pos)))
    requires Building(lm, cur)
    modifies if cur != null then {cur} else {}
    ensures Building(lm, cur) && lm.Values() == old(lm.Values())
    ensures err.Some? ==> ShortNext(lines, pos, parse, old(lm.Values()), old(Current(cur))) == Finished(Err(err.value))
    ensures err.None? ==> ShortNext(lines, pos, parse, old(lm.Values()), old(Current(cur)))
                          == Continue(next, lm.Values(), Current(cur))
  {
    var interval := cur != null && cur.kind == IntervalTier;
    var l := ShortLabel(lines, pos, parse, interval);
    ShortNextLabel(lines, pos, parse, lm.Values(), Current(cur));
    if l.Err? {
      return Some(l.error), pos + 1;
    }
    if cur == null {
      return Some(AttributeError), pos + 1;
    }
    cur.Add(l.value);
    return None, pos + ShortLabelSize(interval);
  }

  /// One pass of the reader's loop over a line that is not the end of the
  /// file: a blank line is skipped, a class line starts a tier, any other
  /// line is a label.
  method ShortStep(lm: LabelManager, cur: Tier?, lines: seq<string>, pos: nat, parse: FloatParser)
    returns (err: Option<Error>, next: Tier?, npos: nat)
    requires ReadLine(lines, pos) != ""
    requires Building(lm, cur)
    modifies lm, if cur != null then {cur} else {}
    ensures err.Some? ==> ShortNext(lines, pos, parse, old(lm.Values()), old(Current(cur))) == Finished(Err(err.value))
    ensures err.None? ==> && Building(lm, next) && (next == cur || fresh(next))
                          && ShortNext(lines, pos, parse, old(lm.Values()), old(Current(cur)))
                             == Continue(npos, lm.Values(), Current(next))
  {
    var s := Strip(ReadLine(lines, pos));
    if s == "" {
      return None, cur, pos + 1;
    } else if IsShortTierLine(s) {
      var t := StartShortTier(lm, cur, lines, pos, parse);
      if t.Err? {
        return Some(t.error), null, pos;
      }
      return None, t.value, pos + 5;
    } else {
      var e, p := AddShortLabel(lm, cur, lines, pos, parse);
      return e, cur, p;
    }
  }

  /// `LabelManager(from_file=..., from_type='praat_short')`: reads the file
  /// into a new manager, or fails with the error the reader raises.
  method ReadPraatShort(lines: seq<string>, parse: FloatParser) returns (r: Result<LabelManager>)
    ensures r.Err? <==> ReadShort(lines, parse).Err?
    ensures r.Err? ==> r.error == ReadShort(lines, parse).error
    ensures r.Ok? ==> fresh(r.value) && r.value.Valid() && r.value.Distinct()
                      && r.value.Values() == ReadShort(lines, parse).value
  {
    var lm := new LabelManager();
    var cur: Tier? := null;
    var pos: nat := ShortBodyStart;
    while ReadLine(lines, pos) != ""
      invariant fresh(lm) && (cur != null ==> fresh(cur)) && Building(lm, cur)
      invariant ShortFrom(lines, pos, parse, lm.Values(), Current(cur)) == ReadShort(lines, parse)
      decreases Measure(lines, pos)
    {
      var err, next, npos := ShortStep(lm, cur, lines, pos, parse);
      if err.Some? {
        return Err(err.value);
      }
      cur, pos := next, npos;
    }
    if cur != null {
      Append(lm, cur);
    }
    return Ok(lm);
  }
}
