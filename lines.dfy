/// Reading a file line by line as the readers do, converting numbers, and
/// building a fresh label manager tier by tier.
module Lines {
  import opened Wrappers
  import opened Text
  import opened Tiers
  import opened Manager

  /// `f.readline()` at line `i`: "" past the end.
  function ReadLine(lines: seq<string>, i: nat): (s: string)
    ensures s != "" ==> i < |lines| && s == lines[i]
  {
    if i < |lines| then lines[i] else ""
  }

  /// The text-to-number conversion of `float(s)` on a string without
  /// surrounding whitespace: None where it raises ValueError.
  type FloatParser = string -> Option<real>

  /// The number formatting of `'{:0.Nf}'.format(x)`, given N and x.
  type FloatFormatter = (nat, real) -> string

  /// `float(s)`: surrounding whitespace ignored, the empty string refused.
  function Float(parse: FloatParser, s: string): (r: Option<real>)
    ensures Strip(s) == "" ==> r.None?
  {
    var t := Strip(s);
    if t == "" then None else parse(t)
  }

  /// `float(s)` on an undecoded byte string: only ASCII whitespace is
  /// ignored around the number.
  function ByteFloat(parse: FloatParser, s: string): (r: Option<real>)
    ensures StripAscii(s) == "" ==> r.None?
  {
    var t := StripAscii(s);
    if t == "" then None else parse(t)
  }

  /// A control character such as `\x1f` after a number in a byte string is
  /// not whitespace: it reaches the parser, which refuses it as `float`
  /// does, while the decoded lines' `Float` strips it.
  lemma ByteFloatKeepsControl(parse: FloatParser, x: string)
    requires x != "" && !IsSpace(x[0])
    ensures ByteFloat(parse, x + "\U{001F}") == parse(x + "\U{001F}")
  {
    StripAsciiKeepsUnpadded(x + "\U{001F}");
  }

  /// How many more `readline` calls can return a line, end of file
  /// included: what every reader's loop uses up.
  function Measure(lines: seq<string>, pos: nat): nat {
    if pos <= |lines| then |lines| - pos + 1 else 0
  }

  /// The value of the tier being read, if any.
  function Current(t: Tier?): Option<TierValue>
    reads t
  {
    if t == null then None else Some(t.Value())
  }

  /// The tiers a reader has built so far: distinct, consistent tiers,
  /// and a consistent tier being filled that is not yet among them.
  predicate Building(lm: LabelManager, cur: Tier?)
    reads lm, lm.tiers, cur
  {
    && lm.Distinct() && lm.Valid()
    && (cur != null ==> cur !in lm.tiers && cur.Valid())
  }

  /// `self.add(tier)` at the end of the list, as the readers call it.
  method Append(lm: LabelManager, t: Tier)
    requires t !in lm.tiers
    modifies lm
    ensures lm.tiers == old(lm.tiers) + [t]
    ensures lm.Values() == old(lm.Values()) + [t.Value()]
    ensures old(lm.Distinct()) ==> lm.Distinct()
    ensures old(lm.Valid()) && t.Valid() ==> lm.Valid()
  {
    lm.Add(t, None);
    assert lm.tiers == old(lm.tiers) + [t];
    assert lm.Values() == old(lm.Values()) + [t.Value()];
  }
}
