/// The fixed regular expressions the readers apply to a line, each written
/// out as the match it performs: `re.search` tries every start position
/// from the left, `re.match` and `^` only the first. In these patterns `\s`
/// is ASCII whitespace and `.` is any character but a newline.
module Patterns {
  import opened Wrappers
  import opened Text
  import opened Seqs

  /// Where a run of `.` starting at `k` stops: the first newline at or
  /// after `k`, or the end.
  function LineEnd(s: string, k: nat): (e: nat)
    requires k <= |s|
    ensures k <= e <= |s| && (e == |s| || s[e] == '\n')
    ensures forall j :: k <= j < e ==> s[j] != '\n'
    decreases |s| - k
  {
    if k == |s| || s[k] == '\n' then k else LineEnd(s, k + 1)
  }

  /// Where the run of characters satisfying `ok` that starts at `k` stops.
  function RunEnd(s: string, k: nat, ok: char -> bool): (e: nat)
    requires k <= |s|
    ensures k <= e <= |s| && (e == |s| || !ok(s[e]))
    ensures forall j :: k <= j < e ==> ok(s[j])
    decreases |s| - k
  {
    if k == |s| || !ok(s[k]) then k else RunEnd(s, k + 1, ok)
  }

  /// The last position in `[lo, hi)` holding `c`.
  function LastIndexOf(s: string, c: char, lo: nat, hi: nat): (r: Option<nat>)
    requires hi <= |s|
    ensures r.Some? ==> lo <= r.value < hi && s[r.value] == c
                        && forall j :: r.value < j < hi ==> s[j] != c
    ensures r.None? ==> forall j :: lo <= j < hi ==> s[j] != c
    decreases hi
  {
    if hi <= lo then None
    else if s[hi - 1] == c then Some(hi - 1)
    else LastIndexOf(s, c, lo, hi - 1)
  }

  predicate LiteralAt(s: string, k: nat, lit: string) {
    k + |lit| <= |s| && s[k..k + |lit|] == lit
  }

  predicate IsDecimalChar(c: char) {
    IsDigit(c) || c == '.'
  }

  predicate IsNotSpace(c: char) {
    !IsSpace(c)
  }

  /// `key = "(.+)"` at `k`: after the opening quote, the longest text that
  /// is followed by a quote on the same line, at least one character long.
  function QuotedValueAt(s: string, k: nat, key: string): (r: Option<string>)
    ensures r.Some? ==> |r.value| >= 1
  {
    var b := k + |key| + 4;
    if !LiteralAt(s, k, key + " = ") || b > |s| || s[b - 1] != '"' then None
    else
      match LastIndexOf(s, '"', b + 1, LineEnd(s, b))
      case None => None
      case Some(q) => Some(s[b..q])
  }

  /// `key = (-?[\d.]+)` at `k`.
  function SignedDecimalAt(s: string, k: nat, key: string): Option<string> {
    var p := key + " = ";
    if !LiteralAt(s, k, p) then None
    else
      var b := k + |p|;
      if b < |s| && s[b] == '-' && RunEnd(s, b + 1, IsDecimalChar) > b + 1 then
        Some(s[b..RunEnd(s, b + 1, IsDecimalChar)])
      else if RunEnd(s, b, IsDecimalChar) > b then Some(s[b..RunEnd(s, b, IsDecimalChar)])
      else None
  }

  /// `key = ([^\s]+)` at `k`.
  function WordAfterAt(s: string, k: nat, key: string): Option<string> {
    var p := key + " = ";
    if !LiteralAt(s, k, p) then None
    else
      var b := k + |p|;
      if RunEnd(s, b, IsNotSpace) > b then Some(s[b..RunEnd(s, b, IsNotSpace)]) else None
  }

  /// `(?:intervals|points): size = (\d+)` at `k`.
  function SizeAt(s: string, k: nat): Option<string> {
    var b := if LiteralAt(s, k, "intervals: size = ") then k + 18
             else if LiteralAt(s, k, "points: size = ") then k + 15
             else |s| + 1;
    if b <= |s| && RunEnd(s, b, IsDigit) > b then Some(s[b..RunEnd(s, b, IsDigit)]) else None
  }

  /// The patterns the readers search for, each with one group.
  datatype Pattern =
    | QuotedValue(key: string)                 // key = "(.+)"
    | SignedDecimal(key: string)               // key = (-?[\d.]+)
    | WordAfter(key: string)                   // key = ([^\s]+)
    | WordAfterEither(first: string, second: string) // (?:first|second) = ([^\s]+)
    | Size                                     // (?:intervals|points): size = (\d+)
    | Separator                                // separator\s+(.+)

  /// The group of `pat` when it matches at `k`; every pattern needs at
  /// least one character.
  function MatchAt(s: string, k: nat, pat: Pattern): (r: Option<string>)
    ensures r.Some? ==> k < |s|
  {
    match pat
    case QuotedValue(key) => QuotedValueAt(s, k, key)
    case SignedDecimal(key) => SignedDecimalAt(s, k, key)
    case WordAfter(key) => WordAfterAt(s, k, key)
    case WordAfterEither(first, second) =>
      if WordAfterAt(s, k, first).Some? then WordAfterAt(s, k, first) else WordAfterAt(s, k, second)
    case Size => SizeAt(s, k)
    case Separator => SeparatorAt(s, k)
  }

  /// What `re.search` promises from position `k` on: no result when `pat`
  /// matches nowhere, otherwise the group of the leftmost position at
  /// which it matches.
  ghost predicate FirstMatch(s: string, k: nat, pat: Pattern, r: Option<string>) {
    && (r.None? ==> forall j: nat :: k <= j ==> MatchAt(s, j, pat).None?)
    && (r.Some? ==> exists j: nat :: k <= j && MatchAt(s, j, pat) == r
                                    && forall i: nat :: k <= i < j ==> MatchAt(s, i, pat).None?)
  }

  /// `re.search`: the group of the leftmost position from `k` on at which
  /// `pat` matches.
  function Search(s: string, k: nat, pat: Pattern): (r: Option<string>)
    ensures r.Some? ==> k < |s|
    decreases |s| + 1 - k
  {
    if k > |s| then None
    else if MatchAt(s, k, pat).Some? then MatchAt(s, k, pat)
    else Search(s, k + 1, pat)
  }

  /// The search finds the leftmost match.
  lemma {:induction false} SearchFirst(s: string, k: nat, pat: Pattern)
    ensures FirstMatch(s, k, pat, Search(s, k, pat))
    decreases |s| + 1 - k
  {
    if k > |s| {
      NoMatchPast(s, k, pat);
    } else if MatchAt(s, k, pat).None? {
      SearchFirst(s, k + 1, pat);
      MatchLater(s, k, pat, Search(s, k + 1, pat));
    }
  }

  /// Past the end of the text nothing matches.
  lemma NoMatchPast(s: string, k: nat, pat: Pattern)
    requires k > |s|
    ensures FirstMatch(s, k, pat, None)
  {
    assert forall j: nat :: k <= j ==> MatchAt(s, j, pat).None?;
  }

  /// A position where nothing matches does not change the leftmost match
  /// of the positions after it.
  lemma MatchLater(s: string, k: nat, pat: Pattern, r: Option<string>)
    requires MatchAt(s, k, pat).None? && FirstMatch(s, k + 1, pat, r)
    ensures FirstMatch(s, k, pat, r)
  {
    if r.Some? {
      var j: nat :| k + 1 <= j && MatchAt(s, j, pat) == r
                    && forall i: nat :: k + 1 <= i < j ==> MatchAt(s, i, pat).None?;
      assert forall i: nat :: k <= i < j ==> MatchAt(s, i, pat).None?;
    }
  }

  /// A search that fails finds no match at any position.
  lemma {:induction false} SearchNone(s: string, k: nat, pat: Pattern, j: nat)
    requires Search(s, k, pat).None? && k <= j
    ensures MatchAt(s, j, pat).None?
    decreases |s| + 1 - k
  {
    if k <= |s| && k < j {
      SearchNone(s, k + 1, pat, j);
    }
  }

  // The tier metadata patterns of the long format.

  /// `class = "(.+)"`: a tier's class.
  function ClassValue(s: string): (r: Option<string>)
    ensures r.Some? ==> r.value != ""
  {
    SearchFirst(s, 0, QuotedValue("class"));
    Search(s, 0, QuotedValue("class"))
  }

  /// `name = "(.+)"`: a tier's name.
  function NameValue(s: string): (r: Option<string>)
    ensures r.Some? ==> r.value != ""
  {
    SearchFirst(s, 0, QuotedValue("name"));
    Search(s, 0, QuotedValue("name"))
  }

  /// `xmin = (-?[\d.]+)`: a tier's start.
  function XminValue(s: string): (r: Option<string>)
    ensures r.Some? ==> r.value != ""
  {
    SearchFirst(s, 0, SignedDecimal("xmin"));
    Search(s, 0, SignedDecimal("xmin"))
  }

  /// `xmax = (-?[\d.]+)`: a tier's end.
  function XmaxValue(s: string): (r: Option<string>)
    ensures r.Some? ==> r.value != ""
  {
    SearchFirst(s, 0, SignedDecimal("xmax"));
    Search(s, 0, SignedDecimal("xmax"))
  }

  /// `(?:intervals|points): size = (\d+)`: a tier's label count.
  function SizeValue(s: string): (r: Option<string>)
    ensures r.Some? ==> r.value != "" && AllDigits(r.value)
  {
    SearchFirst(s, 0, Size);
    Search(s, 0, Size)
  }

  /// `(?:xmin|number) = ([^\s]+)`: a label's first time.
  function T1Value(s: string): (r: Option<string>)
    ensures r.Some? ==> r.value != ""
  {
    SearchFirst(s, 0, WordAfterEither("xmin", "number"));
    Search(s, 0, WordAfterEither("xmin", "number"))
  }

  /// `xmax = ([^\s]+)`: an interval's second time.
  function T2Value(s: string): (r: Option<string>)
    ensures r.Some? ==> r.value != ""
  {
    SearchFirst(s, 0, WordAfter("xmax"));
    Search(s, 0, WordAfter("xmax"))
  }

  /// The end of the leading whitespace: where `^\s*` leaves off.
  function Indent(s: string): (k: nat)
    ensures k <= |s|
  {
    RunEnd(s, 0, IsSpace)
  }

  /// `^\s*(?:text|mark) = (\".*)`: the label text from its opening quote to
  /// the end of the line, the newline left out.
  function TextValue(s: string): (r: Option<string>)
    ensures r.Some? ==> |r.value| >= 1 && r.value[0] == '"' && forall i :: 0 <= i < |r.value| ==> r.value[i] != '\n'
    ensures r.Some? ==> LiteralAt(s, Indent(s), "text = ") || LiteralAt(s, Indent(s), "mark = ")
  {
    var k := Indent(s);
    var b := k + 7;
    if (LiteralAt(s, k, "text" + " = ") || LiteralAt(s, k, "mark" + " = ")) && b < |s| && s[b] == '"' then
      Some(s[b..LineEnd(s, b)])
    else None
  }

  /// `key \[\d+\]:` at `k`.
  predicate EntryAt(s: string, k: nat, key: string) {
    var b := k + |key| + 2;
    && LiteralAt(s, k, key + " [")
    && RunEnd(s, b, IsDigit) > b
    && LiteralAt(s, RunEnd(s, b, IsDigit), "]:")
  }

  /// `^\s*item \[\d+\]:`: the line that opens a tier.
  predicate IsItemLine(s: string) {
    EntryAt(s, Indent(s), "item")
  }

  /// `^\s*(?:item|intervals|points) \[\d+\]:`: a line that ends a label's
  /// text.
  predicate IsEntryLine(s: string) {
    var k := Indent(s);
    EntryAt(s, k, "item") || EntryAt(s, k, "intervals") || EntryAt(s, k, "points")
  }

  /// A line that opens a tier also ends the text of the label before it.
  lemma ItemLineEndsText(s: string)
    requires IsItemLine(s)
    ensures IsEntryLine(s)
  {
  }

  /// `re.match('xmin = \d', s)`.
  predicate StartsXminDigit(s: string)
    ensures StartsXminDigit(s) ==> !StartsDigit(s)
  {
    LiteralAt(s, 0, "xmin = ") && |s| > 7 && IsDigit(s[7])
  }

  /// `re.match('\d', s)`.
  predicate StartsDigit(s: string) {
    |s| > 0 && IsDigit(s[0])
  }

  /// `separator\s+(.+)` at `k`: the whitespace run after the keyword gives
  /// back characters until what follows can start a non-empty `.+`.
  function SeparatorAt(s: string, k: nat): Option<string> {
    if !LiteralAt(s, k, "separator") then None
    else SeparatorGroup(s, k + 9, RunEnd(s, k + 9, IsSpace))
  }

  function SeparatorGroup(s: string, b: nat, c: nat): (r: Option<string>)
    requires b <= c <= |s|
    ensures r.Some? ==> r.value != ""
    decreases c
  {
    if c <= b then None
    else if c < |s| && s[c] != '\n' then Some(s[c..LineEnd(s, c)])
    else SeparatorGroup(s, b, c - 1)
  }

  /// `separator\s+(.+)`: an ESPS header's separator.
  function SeparatorValue(s: string): (r: Option<string>)
    ensures r.Some? ==> r.value != ""
  {
    SearchFirst(s, 0, Separator);
    Search(s, 0, Separator)
  }

  /// `^\s*(#.*)?$`: a blank line or a comment; `$` also matches before a
  /// final newline.
  predicate IsBlankOrComment(s: string)
    ensures s == "" ==> IsBlankOrComment(s)
    ensures s != "" && !IsSpace(s[0]) && s[0] != '#' ==> !IsBlankOrComment(s)
  {
    var a := Indent(s);
    a == |s| || (s[a] == '#' && LineEnd(s, a + 1) + 1 >= |s|)
  }

  /// An indentation made of spaces only.
  predicate Blank(indent: string) {
    forall i :: 0 <= i < |indent| ==> indent[i] == ' '
  }

  /// What ends a line as `readline` returns it: its newline, or nothing
  /// on the last line of a file.
  predicate LineTail(tail: string) {
    tail == "" || tail == "\n"
  }

  /// A number as `'{:0.Nf}'.format` writes a finite value: an optional
  /// minus sign, a digit, then digits and points.
  predicate Numeral(x: string) {
    var b := if x != "" && x[0] == '-' then 1 else 0;
    b < |x| && IsDigit(x[b]) && forall i :: b < i < |x| ==> IsDecimalChar(x[i])
  }

  /// A pattern whose match opens with a keyword that is not whitespace.
  predicate Keyed(pat: Pattern) {
    match pat
    case QuotedValue(key) => key != "" && key[0] != ' '
    case SignedDecimal(key) => key != "" && key[0] != ' '
    case WordAfter(key) => key != "" && key[0] != ' '
    case WordAfterEither(first, second) => first != "" && first[0] != ' ' && second != "" && second[0] != ' '
    case Size => true
    case Separator => true
  }

  lemma LiteralAtHead(s: string, k: nat, lit: string)
    requires LiteralAt(s, k, lit) && lit != ""
    ensures s[k] == lit[0]
  {
    assert s[k..k + |lit|][0] == s[k];
  }

  /// A keyed pattern does not match at a space.
  lemma NoMatchAtSpace(s: string, k: nat, pat: Pattern)
    requires Keyed(pat) && k < |s| && s[k] == ' '
    ensures MatchAt(s, k, pat).None?
  {
    match pat {
      case QuotedValue(key) =>
        if LiteralAt(s, k, key + " = ") { LiteralAtHead(s, k, key + " = "); }
      case SignedDecimal(key) =>
        if LiteralAt(s, k, key + " = ") { LiteralAtHead(s, k, key + " = "); }
      case WordAfter(key) =>
        if LiteralAt(s, k, key + " = ") { LiteralAtHead(s, k, key + " = "); }
      case WordAfterEither(first, second) =>
        if LiteralAt(s, k, first + " = ") { LiteralAtHead(s, k, first + " = "); }
        if LiteralAt(s, k, second + " = ") { LiteralAtHead(s, k, second + " = "); }
      case Size =>
        if LiteralAt(s, k, "intervals: size = ") { LiteralAtHead(s, k, "intervals: size = "); }
        if LiteralAt(s, k, "points: size = ") { LiteralAtHead(s, k, "points: size = "); }
      case Separator =>
        if LiteralAt(s, k, "separator") { LiteralAtHead(s, k, "separator"); }
    }
  }

  /// A search for a keyed pattern passes over leading spaces.
  lemma {:induction false} SearchPastSpaces(s: string, j: nat, k: nat, pat: Pattern)
    requires Keyed(pat) && j <= k <= |s| && forall i :: j <= i < k ==> s[i] == ' '
    ensures Search(s, j, pat) == Search(s, k, pat)
    decreases k - j
  {
    if j < k {
      NoMatchAtSpace(s, j, pat);
      SearchPastSpaces(s, j + 1, k, pat);
    }
  }

  /// A search finds a match where the spaces before it end.
  lemma SearchAfterIndent(s: string, indent: string, pat: Pattern)
    requires Keyed(pat) && Blank(indent) && |indent| <= |s| && s[..|indent|] == indent
    requires MatchAt(s, |indent|, pat).Some?
    ensures Search(s, 0, pat) == MatchAt(s, |indent|, pat)
  {
    assert forall i :: 0 <= i < |indent| ==> s[i] == indent[i];
    SearchPastSpaces(s, 0, |indent|, pat);
  }

  /// The newline that ends a written line, if any, ends the run of `.`
  /// from `b` when nothing before it breaks the line.
  lemma LineEndOfWritten(s: string, b: nat, tail: string)
    requires LineTail(tail) && b + |tail| <= |s| && s[|s| - |tail|..] == tail
    requires forall j :: b <= j < |s| - |tail| ==> s[j] != '\n'
    ensures LineEnd(s, b) == |s| - |tail|
  {
    var e := LineEnd(s, b);
    if tail == "\n" {
      assert s[|s| - 1] == tail[0];
      assert e == |s| || s[e] == '\n';
    }
  }

  /// The pieces of a written `key = value` line, each where it stands.
  lemma Pieces(a: string, b: string, c: string, d: string, e: string)
    ensures var s := a + b + c + d + e;
            var k := |a| + |b| + |c|;
            && |s| == k + |d| + |e|
            && s[..|a|] == a && s[|a|..k] == b + c && s[k..k + |d|] == d && s[k + |d|..] == e
  {
  }

  /// The pieces of a written line that opens with a fixed text.
  lemma Pieces4(a: string, b: string, d: string, e: string)
    ensures var s := a + b + d + e;
            var k := |a| + |b|;
            && |s| == k + |d| + |e|
            && s[..|a|] == a && s[|a|..k] == b && s[k..k + |d|] == d && s[k + |d|..] == e
  {
  }

  /// The pieces of a written entry line `key [n]:`.
  lemma Pieces6(a: string, b: string, c: string, d: string, f: string, e: string)
    ensures var s := a + b + c + d + f + e;
            var k := |a| + |b| + |c|;
            && |s| == k + |d| + |f| + |e|
            && s[..|a|] == a && s[|a|..k] == b + c && s[k..k + |d|] == d && s[k + |d|..] == f + e
  {
  }

  /// From `b` on, the line holds the word `w` and then the line's end.
  predicate WordThen(s: string, b: nat, w: string, tail: string) {
    b + |w| + |tail| == |s| && s[b..b + |w|] == w && s[b + |w|..] == tail
  }

  /// A line whose text from `k` on is `lit` and then `rest` holds `lit`
  /// at `k`, and `rest` after it.
  lemma LiteralThen(s: string, k: nat, lit: string, rest: string)
    requires k <= |s| && s[k..] == lit + rest
    ensures LiteralAt(s, k, lit) && s[k + |lit|..] == rest
  {
    assert s[k..k + |lit|] == s[k..][..|lit|];
    assert s[k + |lit|..] == s[k..][|lit|..];
  }

  /// Matching a literal at `k` fixes the characters from `k` on.
  lemma LiteralAtChar(s: string, k: nat, lit: string, i: nat)
    requires i < |lit|
    ensures LiteralAt(s, k, lit) ==> s[k + i] == lit[i]
  {
    if LiteralAt(s, k, lit) {
      assert s[k..k + |lit|][i] == s[k + i];
    }
  }

  /// The run of characters satisfying `ok` from `b` ends where the first
  /// character that does not satisfy it stands.
  lemma {:induction false} RunEndExact(s: string, b: nat, n: nat, ok: char -> bool)
    requires b + n <= |s| && forall j :: b <= j < b + n ==> ok(s[j])
    requires b + n == |s| || !ok(s[b + n])
    ensures RunEnd(s, b, ok) == b + n
    decreases n
  {
    if n > 0 {
      RunEndExact(s, b + 1, n - 1, ok);
    }
  }

  /// A run of characters from `b` that all satisfy `ok`, followed by the
  /// line's end, is the whole run.
  lemma RunEndOfWord(s: string, b: nat, w: string, tail: string, ok: char -> bool)
    requires LineTail(tail) && !ok('\n') && WordThen(s, b, w, tail)
    requires forall i :: 0 <= i < |w| ==> ok(w[i])
    ensures RunEnd(s, b, ok) == b + |w|
  {
    assert forall j :: b <= j < b + |w| ==> s[j] == s[b..b + |w|][j - b];
    if tail != "" {
      assert s[b + |w|] == s[b + |w|..][0];
    }
    RunEndExact(s, b, |w|, ok);
  }

  /// The indentation of a line that opens with spaces and then something
  /// else.
  lemma IndentAt(s: string, indent: string)
    requires Blank(indent) && |indent| < |s| && s[..|indent|] == indent && !IsSpace(s[|indent|])
    ensures Indent(s) == |indent|
  {
    assert forall j :: 0 <= j < |indent| ==> s[j] == s[..|indent|][j];
    RunEndExact(s, 0, |indent|, IsSpace);
  }

  /// `key = "(.+)"` at the start of `key = "text"` gives the text.
  lemma QuotedValueAtWritten(s: string, k: nat, key: string, text: string, tail: string)
    requires LineTail(tail) && text != "" && '\n' !in text
    requires LiteralAt(s, k, key + " = ") && WordThen(s, k + |key| + 3, "\"" + text + "\"", tail)
    ensures QuotedValueAt(s, k, key) == Some(text)
  {
    var v := "\"" + text + "\"";
    var a := k + |key| + 3;
    var e := |s| - |tail|;
    assert forall j :: a <= j < e ==> s[j] == v[j - a] by {
      forall j | a <= j < e ensures s[j] == v[j - a] {
        assert s[j] == s[a..e][j - a];
      }
    }
    assert forall j :: a < j < e - 1 ==> s[j] == text[j - a - 1];
    assert s[a] == '"' && s[e - 1] == '"';
    assert s[a + 1..e - 1] == text;
    LineEndOfWritten(s, a + 1, tail);
    assert LastIndexOf(s, '"', a + 2, e) == Some(e - 1);
  }

  /// `key = "(.+)"` on a written line `key = "text"` gives the text.
  lemma QuotedValueOfWritten(indent: string, key: string, text: string, tail: string)
    requires Blank(indent) && key != "" && key[0] != ' ' && LineTail(tail)
    requires text != "" && '\n' !in text
    ensures Search(indent + key + " = " + ("\"" + text + "\"") + tail, 0, QuotedValue(key)) == Some(text)
  {
    var s := indent + key + " = " + ("\"" + text + "\"") + tail;
    Pieces(indent, key, " = ", "\"" + text + "\"", tail);
    QuotedValueAtWritten(s, |indent|, key, text, tail);
    SearchAfterIndent(s, indent, QuotedValue(key));
  }

  /// `key = (-?[\d.]+)` at the start of `key = x` gives the number.
  lemma SignedDecimalAtWritten(s: string, k: nat, key: string, x: string, tail: string)
    requires LineTail(tail) && Numeral(x)
    requires LiteralAt(s, k, key + " = ") && WordThen(s, k + |key| + 3, x, tail)
    ensures SignedDecimalAt(s, k, key) == Some(x)
  {
    var b := k + |key| + 3;
    assert s[b] == s[b..b + |x|][0] == x[0];
    if x[0] == '-' {
      assert s[b + 1..b + |x|] == s[b..b + |x|][1..] == x[1..];
      RunEndOfWord(s, b + 1, x[1..], tail, IsDecimalChar);
    } else {
      RunEndOfWord(s, b, x, tail, IsDecimalChar);
    }
  }

  /// `key = (-?[\d.]+)` on a written line `key = x` gives the number.
  lemma SignedDecimalOfWritten(indent: string, key: string, x: string, tail: string)
    requires Blank(indent) && key != "" && key[0] != ' ' && LineTail(tail) && Numeral(x)
    ensures Search(indent + key + " = " + x + tail, 0, SignedDecimal(key)) == Some(x)
  {
    var s := indent + key + " = " + x + tail;
    Pieces(indent, key, " = ", x, tail);
    SignedDecimalAtWritten(s, |indent|, key, x, tail);
    SearchAfterIndent(s, indent, SignedDecimal(key));
  }

  /// `key = ([^\s]+)` at the start of `key = x` gives the number.
  lemma WordAfterAtWritten(s: string, k: nat, key: string, x: string, tail: string)
    requires LineTail(tail) && Numeral(x)
    requires LiteralAt(s, k, key + " = ") && WordThen(s, k + |key| + 3, x, tail)
    ensures WordAfterAt(s, k, key) == Some(x)
  {
    RunEndOfWord(s, k + |key| + 3, x, tail, IsNotSpace);
  }

  /// `(?:xmin|number) = ([^\s]+)` on a written `xmin = x` or `number = x`
  /// line gives the number.
  lemma T1ValueOfWritten(indent: string, key: string, x: string, tail: string)
    requires Blank(indent) && (key == "xmin" || key == "number") && LineTail(tail) && Numeral(x)
    ensures T1Value(indent + key + " = " + x + tail) == Some(x)
  {
    var s := indent + key + " = " + x + tail;
    var k := |indent|;
    Pieces(indent, key, " = ", x, tail);
    WordAfterAtWritten(s, k, key, x, tail);
    LiteralAtChar(s, k, key + " = ", 0);
    LiteralAtChar(s, k, "xmin" + " = ", 0);
    SearchAfterIndent(s, indent, WordAfterEither("xmin", "number"));
  }

  /// `xmax = ([^\s]+)` on a written `xmax = x` line gives the number.
  lemma T2ValueOfWritten(indent: string, x: string, tail: string)
    requires Blank(indent) && LineTail(tail) && Numeral(x)
    ensures T2Value(indent + "xmax" + " = " + x + tail) == Some(x)
  {
    var s := indent + "xmax" + " = " + x + tail;
    Pieces(indent, "xmax", " = ", x, tail);
    WordAfterAtWritten(s, |indent|, "xmax", x, tail);
    SearchAfterIndent(s, indent, WordAfter("xmax"));
  }

  /// `(?:intervals|points): size = (\d+)` on a written size line gives the
  /// count.
  lemma SizeOfWritten(indent: string, lit: string, n: string, tail: string)
    requires Blank(indent) && (lit == "intervals: size = " || lit == "points: size = ") && LineTail(tail)
    requires n != "" && AllDigits(n)
    ensures Search(indent + lit + n + tail, 0, Size) == Some(n)
  {
    var s := indent + lit + n + tail;
    var k := |indent|;
    Pieces4(indent, lit, n, tail);
    LiteralAtChar(s, k, lit, 0);
    LiteralAtChar(s, k, "intervals: size = ", 0);
    RunEndOfWord(s, k + |lit|, n, tail, IsDigit);
    assert SizeAt(s, k) == Some(n);
    SearchAfterIndent(s, indent, Size);
  }

  /// A written entry line `key [n]:` opens with its indentation and is an
  /// entry of that key.
  lemma EntryOfWritten(indent: string, key: string, n: string, tail: string)
    requires Blank(indent) && key != "" && !IsSpace(key[0]) && LineTail(tail)
    requires n != "" && AllDigits(n)
    ensures var s := indent + key + " [" + n + "]:" + tail;
            Indent(s) == |indent| && EntryAt(s, |indent|, key)
  {
    var s := indent + key + " [" + n + "]:" + tail;
    var k := |indent|;
    var b := k + |key| + 2;
    Pieces6(indent, key, " [", n, "]:", tail);
    LiteralAtChar(s, k, key + " [", 0);
    IndentAt(s, indent);
    LiteralThen(s, b + |n|, "]:", tail);
    assert forall j :: b <= j < b + |n| ==> s[j] == s[b..b + |n|][j - b];
    RunEndExact(s, b, |n|, IsDigit);
  }

  /// The text pattern on a written text line: the group is the quoted text
  /// itself.
  lemma TextValueOfWritten(indent: string, key: string, v: string, tail: string)
    requires Blank(indent) && LineTail(tail)
    requires key == "text" || key == "mark"
    requires |v| > 0 && v[0] == '"' && '\n' !in v
    ensures TextValue(indent + key + " = " + v + tail) == Some(v)
  {
    var s := indent + key + " = " + v + tail;
    var k := |indent|;
    Pieces(indent, key, " = ", v, tail);
    LiteralAtChar(s, k, key + " = ", 0);
    IndentAt(s, indent);
    var b := k + 7;
    assert forall j :: b <= j < |s| - |tail| ==> s[j] == s[b..b + |v|][j - b];
    LineEndOfWritten(s, b, tail);
  }
}
