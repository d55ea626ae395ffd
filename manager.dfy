/// The label manager: an ordered list of tiers, with lookup by position or
/// name, casting between tier kinds, and operations across all tiers.
module Manager {
  import opened Wrappers
  import opened Labels
  import opened Seqs
  import opened Tiers

  // ---------------------------------------------------------------------
  // Document-level views (no change to anything)

  /// `names`: the tier names, in tier order.
  function Names(doc: seq<TierValue>): (r: seq<string>)
    ensures |r| == |doc| && forall i :: 0 <= i < |doc| ==> r[i] == doc[i].name
  {
    seq(|doc|, i requires 0 <= i < |doc| => doc[i].name)
  }

  /// `_start()`: the earliest tier start; `min` of nothing is a ValueError.
  function DocStart(doc: seq<TierValue>): (r: Result<real>)
    ensures r.Err? <==> |doc| == 0
    ensures r.Err? ==> r.error == ValueError
    ensures r.Ok? ==> (exists i :: 0 <= i < |doc| && doc[i].start == r.value)
                      && forall i :: 0 <= i < |doc| ==> r.value <= doc[i].start
    decreases |doc|
  {
    if |doc| == 0 then Err(ValueError)
    else if |doc| == 1 then Ok(doc[0].start)
    else
      var rest := DocStart(doc[1..]).value;
      assert forall i :: 1 <= i < |doc| ==> doc[i] == doc[1..][i - 1];
      Ok(if doc[0].start <= rest then doc[0].start else rest)
  }

  /// The order on tier ends: every time comes before `inf`.
  predicate ExtentLe(a: Extent, b: Extent) {
    b.Unbounded? || (a.Finite? && a.t <= b.t)
  }

  /// `_end()`: the latest tier end (`inf` if any tier is unbounded); `max`
  /// of nothing is a ValueError.
  function DocEnd(doc: seq<TierValue>): (r: Result<Extent>)
    ensures r.Err? <==> |doc| == 0
    ensures r.Err? ==> r.error == ValueError
    ensures r.Ok? ==> (exists i :: 0 <= i < |doc| && doc[i].end == r.value)
                      && forall i :: 0 <= i < |doc| ==> ExtentLe(doc[i].end, r.value)
    decreases |doc|
  {
    if |doc| == 0 then Err(ValueError)
    else if |doc| == 1 then Ok(doc[0].end)
    else
      var rest := DocEnd(doc[1..]).value;
      assert forall i :: 1 <= i < |doc| ==> doc[i] == doc[1..][i - 1];
      Ok(if ExtentLe(rest, doc[0].end) then doc[0].end else rest)
  }

  /// `labels_at(t, method)`: one `label_at` answer per tier, in tier
  /// order; the first tier that raises decides the error.
  function LabelsAt(doc: seq<TierValue>, t: real, how: string): (r: Result<seq<Option<Label>>>)
    ensures r.Ok? ==> |r.value| == |doc|
                      && forall i :: 0 <= i < |doc| ==> LabelAt(doc[i], t, how) == Ok(r.value[i])
    ensures r.Err? ==> exists i :: 0 <= i < |doc| && LabelAt(doc[i], t, how) == Err(r.error)
                                   && forall k :: 0 <= k < i ==> LabelAt(doc[k], t, how).Ok?
    decreases |doc|
  {
    if |doc| == 0 then Ok([])
    else match LabelAt(doc[0], t, how)
      case Err(e) => Err(e)
      case Ok(x) =>
        match LabelsAt(doc[1..], t, how)
        case Err(e) =>
          assert forall k :: 1 <= k < |doc| ==> doc[k] == doc[1..][k - 1];
          Err(e)
        case Ok(xs) =>
          assert forall k :: 1 <= k < |doc| ==> doc[k] == doc[1..][k - 1];
          Ok([x] + xs)
  }

  /// A tier identifier: a position (negative from the end) or a name.
  datatype TierId = ByIndex(i: int) | ByName(name: string)

  /// The position `tier(id)` looks at: a position in range (Python
  /// indexing), else for a name the first tier so named; IndexError when
  /// there is none. A position never falls back to names.
  function Locate(names: seq<string>, id: TierId): (r: Result<nat>)
    ensures r.Err? ==> r.error == IndexError
    ensures r.Ok? ==> r.value < |names|
    ensures id.ByIndex? ==> (r.Ok? <==> -|names| <= id.i < |names|)
    ensures id.ByIndex? && r.Ok? ==> r.value == if id.i >= 0 then id.i else |names| + id.i
    ensures id.ByName? ==> (r.Ok? <==> id.name in names)
    ensures id.ByName? && r.Ok? ==> names[r.value] == id.name && id.name !in names[..r.value]
  {
    match id
    case ByIndex(i) =>
      if -|names| <= i < |names| then Ok(if i >= 0 then i else |names| + i) else Err(IndexError)
    case ByName(n) =>
      match IndexOf(names, n)
      case None => Err(IndexError)
      case Some(k) => Ok(k)
  }

  /// Where `list.insert(idx, x)` puts `x` in a list of length `n`: negative
  /// positions count from the end, and out-of-range positions clamp.
  function InsertPosition(n: nat, idx: Option<int>): (p: nat)
    ensures p <= n
    ensures idx.None? ==> p == n
    ensures idx.Some? && 0 <= idx.value <= n ==> p == idx.value
    ensures idx.Some? && -(n as int) <= idx.value < 0 ==> p as int == n + idx.value
  {
    if idx.None? then n
    else if idx.value < 0 then (if n + idx.value < 0 then 0 else n + idx.value)
    else if idx.value > n then n
    else idx.value
  }

  /// Two tiers compare equal as Python sets: the same number of labels, and
  /// every label of one found in the other. `list.remove` uses this.
  predicate SetEqual(a: seq<Label>, b: seq<Label>) {
    |a| == |b| && forall x :: x in a ==> x in b
  }

  /// The position `list.remove(tier)` removes: the first tier equal to it
  /// as a set.
  function RemovalIndex(doc: seq<TierValue>, v: TierValue): (r: Option<nat>)
    ensures r.Some? ==> r.value < |doc| && SetEqual(doc[r.value].labels, v.labels)
                        && forall k :: 0 <= k < r.value ==> !SetEqual(doc[k].labels, v.labels)
    ensures r.None? ==> forall k :: 0 <= k < |doc| ==> !SetEqual(doc[k].labels, v.labels)
    decreases |doc|
  {
    if |doc| == 0 then None
    else if SetEqual(doc[0].labels, v.labels) then Some(0)
    else match RemovalIndex(doc[1..], v)
      case None => None
      case Some(k) => Some(k + 1)
  }

  /// A tier holds the same labels as itself, so removing a tier that is in
  /// the list always succeeds, at or before its own position.
  lemma RemovalIndexFindsMember(doc: seq<TierValue>, j: nat)
    requires j < |doc|
    ensures RemovalIndex(doc, doc[j]).Some? && RemovalIndex(doc, doc[j]).value <= j
  {
    assert SetEqual(doc[j].labels, doc[j].labels);
  }

  /// Two different tiers with no labels are equal as sets, so discarding
  /// the second one removes the first.
  lemma RemovalIndexConfusesEmptyTiers(a: TierValue, b: TierValue)
    requires a.labels == [] && b.labels == []
    ensures RemovalIndex([a, b], b) == Some(0)
  {
  }

  /// How label text is attached to times when casting a tier.
  predicate ShiftLeft(shift: string) {
    shift == "left"
  }

  /// A label as `tier(..., cast_to=kind, shift_labels=shift)` copies it. To
  /// a point tier: the time becomes `t2` under 'left' and stays `t1`
  /// otherwise, and `t2` is dropped. To an interval tier: under 'left' `t2`
  /// becomes `t1`; otherwise the label is copied unchanged.
  function CastLabel(l: Label, kind: TierKind, shift: string): (r: Label)
    requires kind == PointTier && ShiftLeft(shift) ==> l.t2.Some?
    ensures r.text == l.text && r.appdata == l.appdata
    ensures kind == PointTier ==> r.t2.None? && r.t1 == (if ShiftLeft(shift) then l.t2.value else l.t1)
    ensures kind == IntervalTier ==> r.t1 == l.t1 && r.t2 == (if ShiftLeft(shift) then Some(l.t1) else l.t2)
  {
    match kind
    case PointTier => Label(l.text, if ShiftLeft(shift) then l.t2.value else l.t1, None, l.appdata)
    case IntervalTier => if ShiftLeft(shift) then l.(t2 := Some(l.t1)) else l
  }

  predicate CastDefined(labels: seq<Label>, kind: TierKind, shift: string) {
    kind == PointTier && ShiftLeft(shift) ==> forall k :: 0 <= k < |labels| ==> labels[k].t2.Some?
  }

  function CastLabels(labels: seq<Label>, kind: TierKind, shift: string): (r: seq<Label>)
    requires CastDefined(labels, kind, shift)
    ensures |r| == |labels| && forall k :: 0 <= k < |labels| ==> r[k] == CastLabel(labels[k], kind, shift)
  {
    seq(|labels|, k requires 0 <= k < |labels| => CastLabel(labels[k], kind, shift))
  }

  /// The tier a cast builds: a new tier of the target kind with the
  /// source's name, start and end, and every label copied and added in the
  /// source's order.
  function Cast(v: TierValue, kind: TierKind, shift: string): TierValue
    requires CastDefined(v.labels, kind, shift)
  {
    AddAll(EmptyTier(kind, v.name, v.start, v.end, 0), CastLabels(v.labels, kind, shift))
  }

  /// A cast tier is well formed and sorted, and holds one copy of each
  /// source label, whatever order the source was in.
  lemma CastSorted(v: TierValue, kind: TierKind, shift: string)
    requires CastDefined(v.labels, kind, shift)
    ensures var c := Cast(v, kind, shift);
            && Consistent(c) && Sorted(c.labels) && c.kind == kind && c.name == v.name
            && multiset(c.labels) == multiset(CastLabels(v.labels, kind, shift))
  {
    AddAllSorted(EmptyTier(kind, v.name, v.start, v.end, 0), CastLabels(v.labels, kind, shift));
  }

  /// `n` successive applications of `scale_by(factor)`.
  function ScaledTimes(v: TierValue, factor: real, n: nat): TierValue
    decreases n
  {
    if n == 0 then v else Scaled(ScaledTimes(v, factor, n - 1), factor)
  }

  /// `n` successive applications of `shift_by(offset)`.
  function ShiftedTimes(v: TierValue, offset: real, n: nat): TierValue
    decreases n
  {
    if n == 0 then v else Shifted(ShiftedTimes(v, offset, n - 1), offset)
  }

  /// How often `x` occurs in `s`.
  function Occurrences<T(==)>(s: seq<T>, x: T): nat {
    multiset(s)[x]
  }

  // ---------------------------------------------------------------------
  // The manager object

  /// A `LabelManager`: the tier list, changed in place by `add` and
  /// `discard`, and, through its tiers, by `scale_by` and `shift_by`.
  class LabelManager {
    var tiers: seq<Tier>

    /// The value of every tier, in order.
    function Values(): (r: seq<TierValue>)
      reads this, tiers
      ensures |r| == |tiers| && forall i :: 0 <= i < |tiers| ==> r[i] == tiers[i].Value()
    {
      seq(|tiers|, i reads this, tiers requires 0 <= i < |tiers| => tiers[i].Value())
    }

    predicate Valid()
      reads this, tiers
    {
      forall i :: 0 <= i < |tiers| ==> tiers[i].Valid()
    }

    /// Every tier occurs once in the list.
    predicate Distinct()
      reads this
    {
      forall i, j :: 0 <= i < j < |tiers| ==> tiers[i] != tiers[j]
    }

    /// `LabelManager()`: no tiers.
    constructor ()
      ensures tiers == []
    {
      tiers := [];
    }

    /// `add(tier, idx)`: append, or `list.insert` at `idx`.
    method Add(t: Tier, idx: Option<int>)
      modifies this
      ensures tiers == InsertAt(old(tiers), InsertPosition(|old(tiers)|, idx), t)
    {
      tiers := InsertAt(tiers, InsertPosition(|tiers|, idx), t);
    }

    /// `self.tier(k).add(l)` as the readers call it: the `k`-th tier gains
    /// `l`, and no other tier changes.
    method AddLabelAt(k: nat, l: Label)
      requires k < |tiers| && Distinct()
      modifies tiers[k]
      ensures tiers == old(tiers) && Distinct()
      ensures Values() == old(Values())[k := Added(old(Values())[k], l)]
      ensures old(Valid()) ==> Valid()
    {
      tiers[k].Add(l);
      assert forall i :: 0 <= i < |tiers| && i != k ==> tiers[i] != tiers[k];
    }

    /// `tier(id)` without a cast: the tier itself.
    function Find(id: TierId): (r: Result<Tier>)
      reads this, tiers
      ensures r.Err? <==> Locate(Names(Values()), id).Err?
      ensures r.Err? ==> r.error == IndexError
      ensures r.Ok? ==> r.value == tiers[Locate(Names(Values()), id).value]
    {
      match Locate(Names(Values()), id)
      case Err(e) => Err(e)
      case Ok(k) => Ok(tiers[k])
    }

    /// `discard(tier)` given the tier object or an identifier: the first
    /// tier equal to it as a set leaves the list; IndexError for an unknown
    /// identifier, ValueError when nothing in the list equals the tier.
    method Discard(t: Option<Tier>, id: TierId) returns (r: Result<()>)
      modifies this
      ensures t.None? && old(Find(id)).Err? ==> r == Err(IndexError) && tiers == old(tiers)
      ensures var target := if t.Some? then Ok(t.value) else old(Find(id));
              target.Ok? ==>
                match RemovalIndex(old(Values()), old(target.value.Value()))
                case None => r == Err(ValueError) && tiers == old(tiers)
                case Some(k) => r == Ok(()) && tiers == RemoveAt(old(tiers), k)
    {
      var target: Tier;
      if t.Some? {
        target := t.value;
      } else {
        var found := Find(id);
        if found.Err? {
          return Err(found.error);
        }
        target := found.value;
      }
      var k := RemovalIndex(Values(), target.Value());
      if k.None? {
        return Err(ValueError);
      }
      tiers := RemoveAt(tiers, k.value);
      r := Ok(());
    }

    /// `tier(id, cast_to, shift_labels)`: the tier found, itself when no
    /// cast is asked for or it already has the target kind; otherwise a new
    /// tier built by copying and adding its labels, the source untouched.
    method GetTier(id: TierId, castTo: Option<TierKind>, shift: string) returns (r: Result<Tier>)
      requires Find(id).Ok? && castTo.Some? && castTo.value != Find(id).value.kind ==>
                 CastDefined(Find(id).value.labels, castTo.value, shift)
      ensures r.Err? <==> old(Find(id)).Err?
      ensures r.Err? ==> r.error == IndexError
      ensures r.Ok? && (castTo.None? || castTo.value == old(Find(id)).value.kind) ==> r == old(Find(id))
      ensures r.Ok? && castTo.Some? && castTo.value != old(Find(id)).value.kind ==>
                fresh(r.value) && r.value.Valid()
                && r.value.Value() == Cast(old(Find(id).value.Value()), castTo.value, shift)
    {
      var found := Find(id);
      if found.Err? {
        return Err(found.error);
      }
      var src := found.value;
      if castTo.None? || castTo.value == src.kind {
        return Ok(src);
      }
      var copy := CastCopy(src, castTo.value, shift);
      r := Ok(copy);
    }

    /// `scale_by(factor)`: each tier in the list scaled in turn, so a tier
    /// listed twice is scaled twice.
    method ScaleBy(factor: real)
      modifies tiers
      ensures tiers == old(tiers)
      ensures forall t :: t in tiers ==> t.Value() == ScaledTimes(old(t.Value()), factor, Occurrences(tiers, t))
    {
      var i := 0;
      while i < |tiers|
        invariant 0 <= i <= |tiers|
        invariant forall t :: t in tiers ==>
                    t.Value() == ScaledTimes(old(t.Value()), factor, Occurrences(tiers[..i], t))
      {
        assert tiers[..i + 1] == tiers[..i] + [tiers[i]];
        tiers[i].ScaleBy(factor);
        i := i + 1;
      }
      assert tiers[..i] == tiers;
    }

    /// `shift_by(offset)`: each tier in the list shifted in turn, so a tier
    /// listed twice is shifted twice.
    method ShiftBy(offset: real)
      modifies tiers
      ensures tiers == old(tiers)
      ensures forall t :: t in tiers ==> t.Value() == ShiftedTimes(old(t.Value()), offset, Occurrences(tiers, t))
    {
      var i := 0;
      while i < |tiers|
        invariant 0 <= i <= |tiers|
        invariant forall t :: t in tiers ==>
                    t.Value() == ShiftedTimes(old(t.Value()), offset, Occurrences(tiers[..i], t))
      {
        assert tiers[..i + 1] == tiers[..i] + [tiers[i]];
        tiers[i].ShiftBy(offset);
        i := i + 1;
      }
      assert tiers[..i] == tiers;
    }
  }

  /// The copying loop of a cast: a new tier of kind `kind` with `src`'s
  /// name, start and end, to which each of `src`'s labels is added, cast,
  /// in order.
  method CastCopy(src: Tier, kind: TierKind, shift: string) returns (copy: Tier)
    requires CastDefined(src.labels, kind, shift)
    ensures fresh(copy) && copy.Valid()
    ensures copy.Value() == Cast(src.Value(), kind, shift)
  {
    copy := new Tier(kind, src.start, src.end, src.name, 0);
    ghost var ls := CastLabels(src.labels, kind, shift);
    ghost var target := Cast(src.Value(), kind, shift);
    var i := 0;
    while i < |src.labels|
      invariant 0 <= i <= |src.labels| == |ls|
      invariant fresh(copy) && copy.Valid()
      invariant AddAll(copy.Value(), ls[i..]) == target
    {
      var x := CastLabel(src.labels[i], kind, shift);
      AddAllStep(copy.Value(), ls[i..]);
      copy.Add(x);
      i := i + 1;
    }
  }

  /// With no tier listed twice, `scale_by` scales every tier exactly once.
  lemma ScaleOnceWhenDistinct(tiers: seq<Tier>, t: Tier)
    requires forall i, j :: 0 <= i < j < |tiers| ==> tiers[i] != tiers[j]
    requires t in tiers
    ensures Occurrences(tiers, t) == 1
  {
    var k :| 0 <= k < |tiers| && tiers[k] == t;
    assert tiers == tiers[..k] + [t] + tiers[k + 1..];
    assert t !in tiers[..k];
    assert t !in tiers[k + 1..];
  }
}
