/// A single annotation: text anchored to one time point (a point label) or
/// to a time span (an interval label).
module Labels {
  import opened Wrappers

  /// `text` at `t1`, up to `t2` for an interval label; `appdata` is the
  /// application data a reader attaches (the ESPS colour field).
  datatype Label = Label(text: string, t1: real, t2: Option<real>, appdata: Option<string>)

  /// `Label(text, t1, t2, appdata)`: refuses a missing `t1`, takes `t2` as
  /// it comes, without comparing it to `t1`.
  function MakeLabel(text: string, t1: Option<real>, t2: Option<real>, appdata: Option<string>): (r: Result<Label>)
    ensures r.Err? <==> t1.None?
    ensures r.Err? ==> r.error == TimeValueError
    ensures r.Ok? ==> r.value.text == text && t1 == Some(r.value.t1) && r.value.t2 == t2 && r.value.appdata == appdata
  {
    if t1.None? then Err(TimeValueError) else Ok(Label(text, t1.value, t2, appdata))
  }

  /// `duration`: `t2 - t1`, absent (NaN in the source) for a point label.
  function Duration(l: Label): (d: Option<real>)
    ensures d.Some? <==> l.t2.Some?
    ensures d.Some? ==> l.t1 + d.value == l.t2.value
  {
    if l.t2.Some? then Some(l.t2.value - l.t1) else None
  }

  /// `center`: the midpoint of an interval label, `t1` for a point label.
  function Center(l: Label): (c: real)
    ensures l.t2.None? ==> c == l.t1
    ensures l.t2.Some? ==> c - l.t1 == l.t2.value - c
    ensures l.t2.Some? && l.t1 <= l.t2.value ==> l.t1 <= c <= l.t2.value
  {
    if l.t2.Some? then (l.t1 + l.t2.value) / 2.0 else l.t1
  }

  /// `_scale_by`: both times multiplied by `factor`; a factor of one
  /// changes nothing.
  function ScaleBy(l: Label, factor: real): (r: Label)
    ensures r.text == l.text && r.appdata == l.appdata && r.t2.Some? == l.t2.Some?
    ensures r.t1 == l.t1 * factor && (r.t2.Some? ==> r.t2.value == l.t2.value * factor)
    ensures factor == 1.0 ==> r == l
  {
    var r := l.(t1 := l.t1 * factor, t2 := if l.t2.Some? then Some(l.t2.value * factor) else None);
    assert factor == 1.0 ==> r.t1 == l.t1 && r.t2 == l.t2;
    r
  }

  /// Scaling a label scales its duration and its center.
  lemma ScaleByMeasures(l: Label, factor: real)
    ensures Center(ScaleBy(l, factor)) == Center(l) * factor
    ensures Duration(ScaleBy(l, factor)).Some? ==>
              Duration(ScaleBy(l, factor)).value == Duration(l).value * factor
  {
    if l.t2.Some? {
      var a := l.t1;
      var b := l.t2.value;
      assert (a * factor + b * factor) / 2.0 == (a + b) / 2.0 * factor;
      assert b * factor - a * factor == (b - a) * factor;
    }
  }

  /// `_shift_by`: both times moved by `offset`; the duration is kept, the
  /// center moves with them, and a zero offset changes nothing.
  function ShiftBy(l: Label, offset: real): (r: Label)
    ensures r.text == l.text && r.appdata == l.appdata && r.t2.Some? == l.t2.Some?
    ensures r.t1 == l.t1 + offset && (r.t2.Some? ==> r.t2.value == l.t2.value + offset)
    ensures Duration(r) == Duration(l)
    ensures Center(r) == Center(l) + offset
    ensures offset == 0.0 ==> r == l
  {
    l.(t1 := l.t1 + offset, t2 := if l.t2.Some? then Some(l.t2.value + offset) else None)
  }

  /// Shifting after scaling moves the already-scaled times; scaling after
  /// shifting scales the offset too, so the two orders differ unless
  /// `offset * (factor - 1) == 0`.
  lemma ScaleThenShift(l: Label, factor: real, offset: real)
    ensures ShiftBy(ScaleBy(l, factor), offset).t1 == l.t1 * factor + offset
    ensures ScaleBy(ShiftBy(l, offset), factor).t1 == (l.t1 + offset) * factor
    ensures ShiftBy(ScaleBy(l, factor), offset) == ScaleBy(ShiftBy(l, offset), factor)
            <==> offset * (factor - 1.0) == 0.0
  {
    var a := ShiftBy(ScaleBy(l, factor), offset);
    var b := ScaleBy(ShiftBy(l, offset), factor);
    assert b.t1 - a.t1 == offset * (factor - 1.0);
    if l.t2.Some? {
      assert b.t2.value - a.t2.value == offset * (factor - 1.0);
    }
  }
}
