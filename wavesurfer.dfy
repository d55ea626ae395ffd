/// Wavesurfer label files: one interval label per line, `t1 t2 text`, all
/// into a single interval tier.
module Wavesurfer {
  import opened Wrappers
  import opened Text
  import opened Labels
  import opened Tiers
  import opened Manager
  import opened Lines

  /// `IntervalTier()`: the tier the reader fills.
  function WavesurferTier(): TierValue {
    EmptyTier(IntervalTier, "", 0.0, Unbounded, 0)
  }

  /// One line unpacked as `line.strip().split(None, 2)` into `t1`, `t2`
  /// and the text: fewer than three pieces, or a time that is not a
  /// number, is a ValueError.
  function WavesurferLabel(line: string, parse: FloatParser): (r: Result<Label>)
    ensures r.Err? ==> r.error == ValueError
    ensures r.Ok? ==> r.value.t2.Some? && r.value.appdata.None?
  {
    var parts := SplitWs(StripAscii(line), Some(2));
    if |parts| != 3 then Err(ValueError)
    else
      var t1 := ByteFloat(parse, parts[0]);
      var t2 := ByteFloat(parse, parts[1]);
      if t1.None? || t2.None? then Err(ValueError)
      else Ok(Label(parts[2], t1.value, t2, None))
  }

  /// The labels of `lines[i..]`, or the error of the first line that has
  /// none.
  function WavesurferLabels(lines: seq<string>, i: nat, parse: FloatParser): (r: Result<seq<Label>>)
    requires i <= |lines|
    ensures r.Ok? ==> |r.value| == |lines| - i
    ensures r.Ok? ==> forall k :: i <= k < |lines| ==> WavesurferLabel(lines[k], parse) == Ok(r.value[k - i])
    ensures r.Err? ==> exists k :: i <= k < |lines| && WavesurferLabel(lines[k], parse) == Err(r.error)
    decreases |lines| - i
  {
    if i == |lines| then Ok([])
    else
      var l := WavesurferLabel(lines[i], parse);
      if l.Err? then Err(l.error)
      else
        var rest := WavesurferLabels(lines, i + 1, parse);
        if rest.Err? then rest else Ok([l.value] + rest.value)
  }

  /// `read_wavesurfer` from line `i` on, with `v` the tier so far.
  function WavesurferFrom(lines: seq<string>, i: nat, parse: FloatParser, v: TierValue): Result<TierValue>
    requires i <= |lines|
    decreases |lines| - i
  {
    if i == |lines| then Ok(v)
    else
      var l := WavesurferLabel(lines[i], parse);
      if l.Err? then Err(l.error) else WavesurferFrom(lines, i + 1, parse, Added(v, l.value))
  }

  /// `read_wavesurfer` on a whole file: the tier it adds to the manager.
  function ReadWavesurfer(lines: seq<string>, parse: FloatParser): Result<TierValue> {
    WavesurferFrom(lines, 0, parse, WavesurferTier())
  }

  /// Reading line by line is adding every line's label in file order; it
  /// fails exactly when some line has no label.
  lemma {:induction false} WavesurferFromAddAll(lines: seq<string>, i: nat, parse: FloatParser, v: TierValue)
    requires i <= |lines|
    ensures WavesurferFrom(lines, i, parse, v).Ok? <==> WavesurferLabels(lines, i, parse).Ok?
    ensures WavesurferFrom(lines, i, parse, v).Ok? ==>
              WavesurferFrom(lines, i, parse, v).value == AddAll(v, WavesurferLabels(lines, i, parse).value)
    ensures WavesurferFrom(lines, i, parse, v).Err? ==>
              WavesurferFrom(lines, i, parse, v).error == WavesurferLabels(lines, i, parse).error
    decreases |lines| - i
  {
    if i < |lines| {
      var l := WavesurferLabel(lines[i], parse);
      if l.Ok? {
        WavesurferFromAddAll(lines, i + 1, parse, Added(v, l.value));
        var rest := WavesurferLabels(lines, i + 1, parse);
        if rest.Ok? {
          AddAllStep(v, [l.value] + rest.value);
          assert ([l.value] + rest.value)[1..] == rest.value;
        }
      }
    }
  }

  /// A Wavesurfer file gives a consistent interval tier, sorted by start
  /// time, holding exactly the labels of its lines.
  lemma ReadWavesurferSorted(lines: seq<string>, parse: FloatParser)
    ensures ReadWavesurfer(lines, parse).Ok? <==> WavesurferLabels(lines, 0, parse).Ok?
    ensures ReadWavesurfer(lines, parse).Ok? ==>
              var v := ReadWavesurfer(lines, parse).value;
              && Consistent(v) && Sorted(v.labels) && v.kind == IntervalTier
              && multiset(v.labels) == multiset(WavesurferLabels(lines, 0, parse).value)
  {
    WavesurferFromAddAll(lines, 0, parse, WavesurferTier());
    var ls := WavesurferLabels(lines, 0, parse);
    if ls.Ok? {
      AddAllSorted(WavesurferTier(), ls.value);
    }
  }

  /// A line `t1 t2 text`, with two one-word times and a text that starts
  /// and ends with something other than whitespace, gives the label of
  /// that text, inner whitespace kept.
  lemma {:induction false} WavesurferLine(xs1: string, xs2: string, text: string, x1: real, x2: real,
                                          parse: FloatParser)
    requires xs1 != "" && forall i :: 0 <= i < |xs1| ==> !IsSpace(xs1[i])
    requires xs2 != "" && forall i :: 0 <= i < |xs2| ==> !IsSpace(xs2[i])
    requires text != "" && !IsSpace(text[0]) && !IsSpace(text[|text| - 1])
    requires parse(xs1) == Some(x1) && parse(xs2) == Some(x2)
    ensures WavesurferLabel(xs1 + " " + xs2 + " " + text + "\n", parse) == Ok(Label(text, x1, Some(x2), None))
  {
    SplitThree(xs1, xs2, text);
    StripAsciiKeepsUnpadded(xs1);
    StripAsciiKeepsUnpadded(xs2);
  }

  /// `LabelManager(from_file=..., from_type='wavesurfer')`: one tier,
  /// filled line by line and added once every line has been read.
  method ReadWavesurferFile(lines: seq<string>, parse: FloatParser) returns (r: Result<LabelManager>)
    ensures r.Err? <==> ReadWavesurfer(lines, parse).Err?
    ensures r.Err? ==> r.error == ReadWavesurfer(lines, parse).error
    ensures r.Ok? ==> fresh(r.value) && r.value.Valid() && r.value.Distinct()
                      && r.value.Values() == [ReadWavesurfer(lines, parse).value]
  {
    var tier := new Tier(IntervalTier, 0.0, Unbounded, "", 0);
    var i := 0;
    while i < |lines|
      invariant i <= |lines| && fresh(tier) && tier.Valid()
      invariant WavesurferFrom(lines, i, parse, tier.Value()) == ReadWavesurfer(lines, parse)
    {
      var l := WavesurferLabel(lines[i], parse);
      if l.Err? {
        return Err(l.error);
      }
      tier.Add(l.value);
      i := i + 1;
    }
    var lm := new LabelManager();
    Append(lm, tier);
    return Ok(lm);
  }
}
