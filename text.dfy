/// Text helpers the readers and writers rely on: Python's strip/split
/// semantics, integer formatting and parsing, and Praat's quote escaping.
module Text {
  import opened Wrappers

  /// ASCII whitespace: what `\s` matches in the source's patterns and what
  /// `strip()`/`split()` remove from the undecoded byte lines.
  predicate IsSpace(c: char) {
    c == ' ' || c == '\t' || c == '\n' || c == '\r' || c == '\U{000B}' || c == '\U{000C}'
  }

  /// Whitespace as `unicode.strip()` sees it (Python 2.7's Unicode tables):
  /// used on the decoded lines of the Praat readers.
  predicate IsUnicodeSpace(c: char) {
    || IsSpace(c)
    || ('\U{001C}' <= c <= '\U{001F}')
    || c == '\U{0085}' || c == '\U{00A0}' || c == '\U{1680}' || c == '\U{180E}'
    || ('\U{2000}' <= c <= '\U{200A}')
    || c == '\U{2028}' || c == '\U{2029}' || c == '\U{202F}' || c == '\U{205F}' || c == '\U{3000}'
  }

  predicate StartsWith(s: string, prefix: string) {
    |prefix| <= |s| && s[..|prefix|] == prefix
  }

  /// `s.lstrip()` for the whitespace class `sp`.
  function LStripBy(s: string, sp: char -> bool): (r: string)
    decreases |s|
  {
    if s != "" && sp(s[0]) then LStripBy(s[1..], sp) else s
  }

  /// What `lstrip` leaves is a suffix of the text that does not start with
  /// whitespace.
  lemma {:induction false} LStripByShape(s: string, sp: char -> bool)
    ensures var r := LStripBy(s, sp);
            |r| <= |s| && r == s[|s| - |r|..] && (r == "" || !sp(r[0]))
    decreases |s|
  {
    if s != "" && sp(s[0]) {
      LStripByShape(s[1..], sp);
    }
  }

  /// `s.rstrip()` for the whitespace class `sp`.
  function RStripBy(s: string, sp: char -> bool): (r: string)
    decreases |s|
  {
    if s != "" && sp(s[|s| - 1]) then RStripBy(s[..|s| - 1], sp) else s
  }

  /// `unicode.strip()`, on decoded text.
  function Strip(s: string): string {
    RStripBy(LStripBy(s, IsUnicodeSpace), IsUnicodeSpace)
  }

  /// What `rstrip` leaves is a prefix of the text that does not end with
  /// whitespace.
  lemma {:induction false} RStripByShape(s: string, sp: char -> bool)
    ensures var r := RStripBy(s, sp);
            |r| <= |s| && r == s[..|r|] && (r == "" || !sp(r[|r| - 1]))
    decreases |s|
  {
    if s != "" && sp(s[|s| - 1]) {
      RStripByShape(s[..|s| - 1], sp);
    }
  }

  /// `str.strip()`, on undecoded byte lines: a piece of the line that
  /// neither starts nor ends with whitespace.
  function StripAscii(s: string): (r: string)
    ensures |r| <= |s|
    ensures r == "" || (!IsSpace(r[0]) && !IsSpace(r[|r| - 1]))
  {
    var t := LStripBy(s, IsSpace);
    LStripByShape(s, IsSpace);
    RStripByShape(t, IsSpace);
    RStripBy(t, IsSpace)
  }

  /// `s.rstrip('\r\n')`.
  function RStripNewlines(s: string): string {
    RStripBy(s, c => c == '\r' || c == '\n')
  }

  /// A newline after the text changes nothing once it is stripped, for any
  /// whitespace class that counts the newline.
  lemma {:induction false} StripByNewline(s: string, sp: char -> bool)
    requires sp('\n')
    ensures RStripBy(LStripBy(s + "\n", sp), sp) == RStripBy(LStripBy(s, sp), sp)
    decreases |s|
  {
    var t := s + "\n";
    if s == "" {
      assert LStripBy(t, sp) == LStripBy(t[1..], sp);
      assert t[1..] == "";
    } else if sp(s[0]) {
      assert t[1..] == s[1..] + "\n";
      StripByNewline(s[1..], sp);
    } else {
      assert LStripBy(t, sp) == t;
      assert t[..|t| - 1] == s;
    }
  }

  /// The line a reader sees, newline included, strips to what was written.
  lemma StripNewline(s: string)
    ensures Strip(s + "\n") == Strip(s)
    ensures StripAscii(s + "\n") == StripAscii(s)
  {
    StripByNewline(s, IsUnicodeSpace);
    StripByNewline(s, IsSpace);
  }

  lemma {:induction false} StripKeepsUnpadded(s: string)
    requires s != "" && !IsUnicodeSpace(s[0]) && !IsUnicodeSpace(s[|s| - 1])
    ensures Strip(s) == s
  {
    assert LStripBy(s, IsUnicodeSpace) == s;
  }

  predicate OccursAt(s: string, sep: string, k: nat) {
    k + |sep| <= |s| && s[k..k + |sep|] == sep
  }

  /// The position of the first occurrence of `sep` in `s` at or after `from`.
  function Find(s: string, sep: string, from: nat): (r: Option<nat>)
    requires sep != ""
    ensures r.Some? ==> from <= r.value && OccursAt(s, sep, r.value)
    ensures r.Some? ==> forall k :: from <= k < r.value ==> !OccursAt(s, sep, k)
    ensures r.None? ==> forall k :: from <= k ==> !OccursAt(s, sep, k)
    decreases |s| - from
  {
    if from + |sep| > |s| then None
    else if s[from..from + |sep|] == sep then Some(from)
    else Find(s, sep, from + 1)
  }

  /// `'sep'.join(parts)`.
  function Join(parts: seq<string>, sep: string): string
    decreases |parts|
  {
    if |parts| == 0 then ""
    else if |parts| == 1 then parts[0]
    else parts[0] + sep + Join(parts[1..], sep)
  }

  /// Joining without a separator: the first part, then the others joined.
  lemma JoinPlainCons(parts: seq<string>)
    requires parts != []
    ensures Join(parts, "") == parts[0] + Join(parts[1..], "")
  {
    if |parts| == 1 {
      assert parts[1..] == [];
      assert parts[0] + "" == parts[0];
    }
  }

  /// `s.split(sep)` for a non-empty separator.
  function SplitOn(s: string, sep: string): (r: seq<string>)
    requires sep != ""
    ensures |r| >= 1
    decreases |s|
  {
    match Find(s, sep, 0)
    case None => [s]
    case Some(i) => [s[..i]] + SplitOn(s[i + |sep|..], sep)
  }

  /// A text cut around an occurrence of `sep` is the part before, the
  /// separator and the part after.
  lemma CutAround(s: string, sep: string, i: nat)
    requires OccursAt(s, sep, i)
    ensures s == s[..i] + sep + s[i + |sep|..]
  {
    assert s == s[..i] + s[i..i + |sep|] + s[i + |sep|..];
  }

  /// Joining a first part onto at least one more puts the separator
  /// between it and the rest joined.
  lemma JoinSepCons(head: string, tail: seq<string>, sep: string)
    requires tail != []
    ensures Join([head] + tail, sep) == head + sep + Join(tail, sep)
  {
    assert ([head] + tail)[1..] == tail;
  }

  /// Splitting on `sep` and joining with `sep` gives the text back.
  lemma {:induction false} JoinSplitOn(s: string, sep: string)
    requires sep != ""
    ensures Join(SplitOn(s, sep), sep) == s
    decreases |s|
  {
    match Find(s, sep, 0)
    case None =>
      assert SplitOn(s, sep) == [s];
    case Some(i) =>
      var rest := s[i + |sep|..];
      var tail := SplitOn(rest, sep);
      assert SplitOn(s, sep) == [s[..i]] + tail;
      JoinSplitOn(rest, sep);
      JoinSepCons(s[..i], tail, sep);
      CutAround(s, sep, i);
  }

  /// The leading run of `s` that holds no whitespace.
  function Word(s: string, sp: char -> bool): (r: string)
    ensures |r| <= |s| && r == s[..|r|]
    ensures forall i :: 0 <= i < |r| ==> !sp(r[i])
    ensures |r| == |s| || sp(s[|r|])
    decreases |s|
  {
    if s == "" || sp(s[0]) then "" else [s[0]] + Word(s[1..], sp)
  }

  /// `s.split(None, maxsplit)` for whitespace class `sp` (`maxsplit` None:
  /// no limit): the maximal non-blank runs, the last of them taking the rest
  /// of the text once `maxsplit` pieces are split off.
  function SplitWsBy(s: string, sp: char -> bool, maxsplit: Option<nat>): (r: seq<string>)
    ensures forall k :: 0 <= k < |r| ==> r[k] != "" && !sp(r[k][0])
    ensures maxsplit.Some? ==> |r| <= maxsplit.value + 1
    decreases |s|
  {
    var t := LStripBy(s, sp);
    LStripByShape(s, sp);
    if t == "" then []
    else if maxsplit == Some(0) then [t]
    else
      var w := Word(t, sp);
      [w] + SplitWsBy(t[|w|..], sp, if maxsplit.Some? then Some(maxsplit.value - 1) else None)
  }

  /// `str.split(None, maxsplit)` on undecoded byte lines.
  function SplitWs(s: string, maxsplit: Option<nat>): (r: seq<string>)
    ensures forall k :: 0 <= k < |r| ==> r[k] != "" && !IsSpace(r[k][0])
    ensures maxsplit.Some? ==> |r| <= maxsplit.value + 1
  {
    SplitWsBy(s, IsSpace, maxsplit)
  }

  /// `s.split(sep)`: on whitespace runs when there is no separator, on
  /// the separator otherwise; an empty separator is a ValueError.
  function Split(s: string, sep: Option<string>): (r: Result<seq<string>>)
    ensures r.Err? <==> sep == Some("")
    ensures r.Err? ==> r.error == ValueError
    ensures r.Ok? && sep.Some? ==> Join(r.value, sep.value) == s
  {
    if sep.None? then Ok(SplitWs(s, None))
    else if sep.value == "" then Err(ValueError)
    else
      JoinSplitOn(s, sep.value);
      Ok(SplitOn(s, sep.value))
  }

  /// Leading whitespace is skipped whatever follows it.
  lemma {:induction false} LStripGap(gap: string, rest: string, sp: char -> bool)
    requires forall i :: 0 <= i < |gap| ==> sp(gap[i])
    ensures LStripBy(gap + rest, sp) == LStripBy(rest, sp)
    decreases |gap|
  {
    if gap == "" {
      assert gap + rest == rest;
    } else {
      assert (gap + rest)[1..] == gap[1..] + rest;
      LStripGap(gap[1..], rest, sp);
    }
  }

  /// The leading word is everything up to the first whitespace.
  lemma {:induction false} WordPrefix(w: string, rest: string, sp: char -> bool)
    requires forall i :: 0 <= i < |w| ==> !sp(w[i])
    requires rest == "" || sp(rest[0])
    ensures Word(w + rest, sp) == w
    decreases |w|
  {
    if w == "" {
      assert w + rest == rest;
    } else {
      assert (w + rest)[1..] == w[1..] + rest;
      WordPrefix(w[1..], rest, sp);
    }
  }

  /// `split` takes a word and the whitespace after it, then carries on with
  /// one split fewer.
  lemma {:induction false} SplitWsStep(w: string, gap: string, rest: string, sp: char -> bool, m: Option<nat>)
    requires w != "" && forall i :: 0 <= i < |w| ==> !sp(w[i])
    requires gap != "" && forall i :: 0 <= i < |gap| ==> sp(gap[i])
    requires m != Some(0)
    ensures SplitWsBy(w + gap + rest, sp, m)
            == [w] + SplitWsBy(rest, sp, if m.Some? then Some(m.value - 1) else None)
  {
    var s := w + gap + rest;
    assert LStripBy(s, sp) == s by {
      assert s[0] == w[0];
    }
    assert s == w + (gap + rest);
    WordPrefix(w, gap + rest, sp);
    assert s[|w|..] == gap + rest;
    LStripGap(gap, rest, sp);
  }

  /// A single word splits to itself.
  lemma {:induction false} SplitWsWord(w: string, sp: char -> bool, m: Option<nat>)
    requires w != "" && forall i :: 0 <= i < |w| ==> !sp(w[i])
    ensures SplitWsBy(w, sp, m) == [w]
  {
    assert LStripBy(w, sp) == w;
    WordPrefix(w, "", sp);
    assert w + "" == w;
    assert w[|w|..] == "";
  }

  lemma {:induction false} StripAsciiKeepsUnpadded(s: string)
    requires s != "" && !IsSpace(s[0]) && !IsSpace(s[|s| - 1])
    ensures StripAscii(s) == s
  {
    assert LStripBy(s, IsSpace) == s;
  }

  /// A line that neither starts nor ends with whitespace strips to itself,
  /// its newline dropped.
  lemma StripLine(body: string, first: char, last: char)
    requires body != "" && body[0] == first && body[|body| - 1] == last
    requires !IsSpace(first) && !IsSpace(last)
    ensures StripAscii(body + "\n") == body
  {
    StripNewline(body);
    StripAsciiKeepsUnpadded(body);
  }

  /// A line `a b c`, with `a` and `b` single words and `c` free of
  /// surrounding whitespace, splits with `strip().split(None, 2)` into
  /// those three parts, whatever whitespace `c` holds inside.
  lemma {:induction false} SplitThree(a: string, b: string, c: string)
    requires a != "" && forall i :: 0 <= i < |a| ==> !IsSpace(a[i])
    requires b != "" && forall i :: 0 <= i < |b| ==> !IsSpace(b[i])
    requires c != "" && !IsSpace(c[0]) && !IsSpace(c[|c| - 1])
    ensures SplitWs(StripAscii(a + " " + b + " " + c + "\n"), Some(2)) == [a, b, c]
  {
    var body := a + " " + b + " " + c;
    StripLine(body, a[0], c[|c| - 1]);
    assert body == a + " " + (b + " " + c);
    SplitWsStep(a, " ", b + " " + c, IsSpace, Some(2));
    SplitWsStep(b, " ", c, IsSpace, Some(1));
    assert LStripBy(c, IsSpace) == c;
  }

  /// `re.sub('^"|"$', '', s)`: drop one opening and one closing quote. `$`
  /// also matches just before a final newline.
  function StripQuotes(s: string): string {
    var a := if |s| > 0 && s[0] == '"' then s[1..] else s;
    if |a| > 0 && a[|a| - 1] == '"' then a[..|a| - 1]
    else if |a| > 1 && a[|a| - 1] == '\n' && a[|a| - 2] == '"' then a[..|a| - 2] + "\n"
    else a
  }

  /// `re.sub('""', '"', s)`: each doubled quote, scanning left to right,
  /// becomes one quote.
  function Unescape(s: string): string
    decreases |s|
  {
    if s == "" then ""
    else if |s| >= 2 && s[0] == '"' && s[1] == '"' then "\"" + Unescape(s[2..])
    else [s[0]] + Unescape(s[1..])
  }

  /// `re.sub('"', '""', s)`: Praat's escape for a quote inside a string.
  function Escape(s: string): (r: string)
    ensures |r| >= |s|
    decreases |s|
  {
    if s == "" then ""
    else (if s[0] == '"' then "\"\"" else [s[0]]) + Escape(s[1..])
  }

  /// Unescaping undoes escaping, for every text.
  lemma {:induction false} UnescapeEscape(s: string)
    ensures Unescape(Escape(s)) == s
    decreases |s|
  {
    if s != "" {
      UnescapeEscape(s[1..]);
      var e := Escape(s[1..]);
      if s[0] == '"' {
        assert Escape(s) == "\"\"" + e;
        assert ("\"\"" + e)[2..] == e;
      } else {
        assert Escape(s) == [s[0]] + e;
        assert ([s[0]] + e)[1..] == e;
      }
      assert s == [s[0]] + s[1..];
    }
  }

  /// A text without quotes is its own escape.
  lemma {:induction false} EscapeQuoteFree(s: string)
    requires '"' !in s
    ensures Escape(s) == s
    decreases |s|
  {
    if s != "" {
      assert s[1..] == s[1..] && '"' !in s[1..] by {
        forall c | c in s[1..] ensures c in s { }
      }
      EscapeQuoteFree(s[1..]);
      assert s == [s[0]] + s[1..];
    }
  }

  /// `_clean_praat_string`: strip surrounding whitespace, drop the enclosing
  /// quotes, and undo quote doubling.
  function CleanPraatString(s: string): string {
    Unescape(StripQuotes(Strip(s)))
  }

  /// Praat's quoting of a text: enclosing quotes, inner quotes doubled.
  function Quote(s: string): (r: string)
    ensures |r| >= 2 && r[0] == '"' && r[|r| - 1] == '"'
  {
    "\"" + Escape(s) + "\""
  }

  /// Reading inverts the long format's quoting: cleaning a quoted,
  /// escaped text gives back the text.
  lemma CleanQuote(s: string)
    ensures CleanPraatString(Quote(s)) == s
  {
    var q := Quote(s);
    StripKeepsUnpadded(q);
    assert q[1..] == Escape(s) + "\"";
    assert StripQuotes(q) == Escape(s);
    UnescapeEscape(s);
  }

  predicate IsDigit(c: char) {
    '0' <= c <= '9'
  }

  function DigitChar(d: nat): (c: char)
    requires d < 10
    ensures IsDigit(c) && c as int - '0' as int == d
  {
    ('0' as int + d) as char
  }

  /// `"{:d}".format(n)` for a count.
  function NatToString(n: nat): (r: string)
    ensures r != "" && forall i :: 0 <= i < |r| ==> IsDigit(r[i])
    decreases n
  {
    if n < 10 then [DigitChar(n)] else NatToString(n / 10) + [DigitChar(n % 10)]
  }

  predicate AllDigits(s: string) {
    forall i :: 0 <= i < |s| ==> IsDigit(s[i])
  }

  /// The value of a decimal numeral.
  function DigitsValue(s: string): nat
    requires AllDigits(s)
    decreases |s|
  {
    if s == "" then 0 else DigitsValue(s[..|s| - 1]) * 10 + (s[|s| - 1] as int - '0' as int)
  }

  /// A numeral has no surrounding whitespace to strip.
  lemma StripDigits(s: string)
    ensures s != "" && AllDigits(s) ==> Strip(s) == s
  {
    if s != "" && AllDigits(s) {
      StripKeepsUnpadded(s);
    }
  }

  /// `int(s)`: surrounding whitespace, an optional sign, then at least one
  /// decimal digit.
  function ParseInt(s: string): (r: Option<int>)
    ensures r.Some? ==> Strip(s) != ""
    ensures s != "" && AllDigits(s) ==> r == Some(DigitsValue(s) as int)
  {
    StripDigits(s);
    var t := Strip(s);
    var neg := t != "" && t[0] == '-';
    var digits := if t != "" && (t[0] == '-' || t[0] == '+') then t[1..] else t;
    if digits != "" && AllDigits(digits) then
      Some(if neg then -(DigitsValue(digits) as int) else DigitsValue(digits))
    else None
  }

  /// Reading a formatted count gives the count back.
  lemma {:induction false} DigitsValueOfNat(n: nat)
    ensures DigitsValue(NatToString(n)) == n
    decreases n
  {
    if n >= 10 {
      DigitsValueOfNat(n / 10);
      var s := NatToString(n);
      assert s[..|s| - 1] == NatToString(n / 10);
    }
  }

  lemma ParseIntNatToString(n: nat)
    ensures ParseInt(NatToString(n)) == Some(n)
  {
    var s := NatToString(n);
    StripKeepsUnpadded(s);
    DigitsValueOfNat(n);
  }
}
