/// A tier: an ordered collection of labels with a time index that mirrors
/// the labels' start times, as a value (`TierValue`) with the operations on
/// it, and as the mutable `Tier` object whose methods change it in place.
module Tiers {
  import opened Wrappers
  import opened Labels
  import opened Seqs

  /// `PointTier` or `IntervalTier`: they share the state and differ in how
  /// `add` extends the end, and in `tslice` and `label_at`.
  datatype TierKind = PointTier | IntervalTier

  /// The tier's `end`: a time, or `float('inf')`, the default.
  datatype Extent = Finite(t: real) | Unbounded

  /// A slot of the numpy time index: a start time, or NaN (unfilled).
  datatype Slot = Unfilled | Filled(t: real)

  /// Everything a tier holds. `time` is the numpy index of start times:
  /// one slot per label, then any preallocated slots still unfilled.
  datatype TierValue = TierValue(kind: TierKind, name: string, start: real, end: Extent,
                                 labels: seq<Label>, time: seq<Slot>)

  /// The index invariant: the first `|labels|` slots hold the labels' start
  /// times in order, and every later slot is unfilled.
  predicate IndexConsistent(labels: seq<Label>, time: seq<Slot>) {
    && |labels| <= |time|
    && (forall i :: 0 <= i < |labels| ==> time[i] == Filled(labels[i].t1))
    && (forall i :: |labels| <= i < |time| ==> time[i].Unfilled?)
  }

  predicate Consistent(v: TierValue) {
    IndexConsistent(v.labels, v.time)
  }

  /// Labels in ascending order of start time.
  predicate Sorted(labels: seq<Label>) {
    forall i, j :: 0 <= i < j < |labels| ==> labels[i].t1 <= labels[j].t1
  }

  /// A new tier: no labels, and `numlabels` unfilled slots (`np.empty`
  /// filled with NaN; no slots when `numlabels` is not given).
  function EmptyTier(kind: TierKind, name: string, start: real, end: Extent, numlabels: nat): (v: TierValue)
    ensures Consistent(v)
    ensures v.labels == [] && |v.time| == numlabels
    ensures v.kind == kind && v.name == name && v.start == start && v.end == end
  {
    TierValue(kind, name, start, end, [], seq(numlabels, _ => Unfilled))
  }

  // ---------------------------------------------------------------------
  // numpy's searchsorted

  /// numpy's "less than" on a slot: NaN sorts after every number.
  predicate Precedes(slot: Slot, x: real) {
    slot.Filled? && slot.t < x
  }

  /// numpy's binary search over `a[lo..hi]`: the slot before the answer
  /// precedes `x`, the slot at the answer does not.
  function Bisect(a: seq<Slot>, x: real, lo: nat, hi: nat): (r: nat)
    requires lo <= hi <= |a|
    ensures lo <= r <= hi
    ensures r > lo ==> Precedes(a[r - 1], x)
    ensures r < hi ==> !Precedes(a[r], x)
    decreases hi - lo
  {
    if lo == hi then lo
    else
      var mid := lo + (hi - lo) / 2;
      if Precedes(a[mid], x) then Bisect(a, x, mid + 1, hi) else Bisect(a, x, lo, mid)
  }

  /// `np.searchsorted(time, x)` (side 'left').
  function SearchSorted(time: seq<Slot>, x: real): (r: nat)
    ensures r <= |time|
    ensures r > 0 ==> Precedes(time[r - 1], x)
    ensures r < |time| ==> !Precedes(time[r], x)
  {
    Bisect(time, x, 0, |time|)
  }

  /// On a consistent, sorted tier the search finds the lower bound: the
  /// first label whose start is not before `x`.
  lemma {:induction false} SearchSortedLowerBound(v: TierValue, x: real)
    requires Consistent(v) && Sorted(v.labels)
    ensures SearchSorted(v.time, x) <= |v.labels|
    ensures forall i :: 0 <= i < SearchSorted(v.time, x) ==> v.labels[i].t1 < x
    ensures forall i :: SearchSorted(v.time, x) <= i < |v.labels| ==> x <= v.labels[i].t1
  {
    var r := SearchSorted(v.time, x);
    if r > 0 {
      assert v.labels[r - 1].t1 < x;
    }
    if r < |v.labels| {
      assert x <= v.labels[r].t1;
    }
  }

  // ---------------------------------------------------------------------
  // add

  /// Where `add` inserts: the search position, clamped as `list.insert`
  /// clamps it.
  function AddPosition(v: TierValue, l: Label): nat {
    var idx := SearchSorted(v.time, l.t1);
    if idx <= |v.labels| then idx else |v.labels|
  }

  /// The end after adding `l`. A point tier ends at `l.t1` when its end
  /// was unbounded or `l.t1` lies past it; an interval tier compares `l.t2`
  /// but also moves its end to `l.t1` (a missing `t2` never compares
  /// greater, as in Python 2).
  function ExtendedEnd(kind: TierKind, end: Extent, l: Label): (e: Extent)
    ensures kind == PointTier ==>
              (e == Finite(l.t1) <==> end.Unbounded? || l.t1 >= end.t)
              && (e != Finite(l.t1) ==> e == end)
    ensures kind == IntervalTier ==>
              (end.Unbounded? || (l.t2.Some? && l.t2.value > end.t) ==> e == Finite(l.t1))
              && (end.Finite? && (l.t2.None? || l.t2.value <= end.t) ==> e == end)
  {
    match kind
    case PointTier =>
      if end.Unbounded? || l.t1 > end.t then Finite(l.t1) else end
    case IntervalTier =>
      if end.Unbounded? || (l.t2.Some? && l.t2.value > end.t) then Finite(l.t1) else end
  }

  /// The tier after `add(l)`: `l` inserted into the labels at the search
  /// position; in the index, the slot there filled when it is unfilled, or
  /// else `l.t1` spliced in; the end extended.
  function Added(v: TierValue, l: Label): TierValue {
    var idx := SearchSorted(v.time, l.t1);
    var time := if idx < |v.time| && v.time[idx].Unfilled? then v.time[idx := Filled(l.t1)]
                else v.time[..idx] + [Filled(l.t1)] + v.time[idx..];
    v.(labels := InsertAt(v.labels, AddPosition(v, l), l), time := time,
       end := ExtendedEnd(v.kind, v.end, l))
  }

  /// `add` keeps the index invariant, inserts exactly `l`, and leaves name,
  /// start and kind alone.
  lemma {:induction false} AddedConsistent(v: TierValue, l: Label)
    requires Consistent(v)
    ensures Consistent(Added(v, l))
    ensures AddPosition(v, l) == SearchSorted(v.time, l.t1)
    ensures |Added(v, l).labels| == |v.labels| + 1
    ensures multiset(Added(v, l).labels) == multiset(v.labels) + multiset{l}
    ensures Added(v, l).kind == v.kind && Added(v, l).name == v.name && Added(v, l).start == v.start
  {
    var idx := SearchSorted(v.time, l.t1);
    var w := Added(v, l);
    if idx < |v.time| && v.time[idx].Unfilled? {
      assert idx == |v.labels|;
    } else {
      assert idx < |v.labels| || idx == |v.time|;
      forall i | 0 <= i < |w.labels|
        ensures w.time[i] == Filled(w.labels[i].t1)
      {
        if i > idx {
          assert w.time[i] == v.time[i - 1];
        }
      }
      forall i | |w.labels| <= i < |w.time|
        ensures w.time[i].Unfilled?
      {
        assert w.time[i] == v.time[i - 1];
      }
    }
    InsertAtMultiset(v.labels, idx, l);
  }

  /// On a sorted tier, `add` lands `l` after every label that starts
  /// earlier and before every label that starts at the same time or later,
  /// so the labels stay sorted and the others keep their order.
  lemma {:induction false} AddedSorted(v: TierValue, l: Label)
    requires Consistent(v) && Sorted(v.labels)
    ensures var p := AddPosition(v, l);
            && p <= |v.labels|
            && (forall i :: 0 <= i < p ==> v.labels[i].t1 < l.t1)
            && (forall i :: p <= i < |v.labels| ==> l.t1 <= v.labels[i].t1)
            && Added(v, l).labels == v.labels[..p] + [l] + v.labels[p..]
    ensures Sorted(Added(v, l).labels)
  {
    SearchSortedLowerBound(v, l.t1);
    AddedConsistent(v, l);
    var p := AddPosition(v, l);
    var w := Added(v, l).labels;
    forall i, j | 0 <= i < j < |w|
      ensures w[i].t1 <= w[j].t1
    {
      if j < p {
      } else if j == p {
      } else if i < p {
        assert w[j] == v.labels[j - 1];
      } else if i == p {
        assert w[j] == v.labels[j - 1];
      } else {
        assert w[i] == v.labels[i - 1] && w[j] == v.labels[j - 1];
      }
    }
  }

  /// Adding a sequence of labels one at a time, as the readers and `tier`'s
  /// casts do.
  function AddAll(v: TierValue, ls: seq<Label>): TierValue
    decreases |ls|
  {
    if |ls| == 0 then v else AddAll(Added(v, ls[0]), ls[1..])
  }

  lemma AddAllStep(v: TierValue, ls: seq<Label>)
    requires |ls| > 0
    ensures AddAll(v, ls) == AddAll(Added(v, ls[0]), ls[1..])
  {
  }

  /// Adding labels one by one gives a consistent, sorted tier holding
  /// exactly the old labels and the new ones.
  lemma {:induction false} AddAllSorted(v: TierValue, ls: seq<Label>)
    requires Consistent(v) && Sorted(v.labels)
    ensures Consistent(AddAll(v, ls)) && Sorted(AddAll(v, ls).labels)
    ensures multiset(AddAll(v, ls).labels) == multiset(v.labels) + multiset(ls)
    ensures AddAll(v, ls).kind == v.kind && AddAll(v, ls).name == v.name && AddAll(v, ls).start == v.start
    decreases |ls|
  {
    if |ls| > 0 {
      AddedConsistent(v, ls[0]);
      AddedSorted(v, ls[0]);
      AddAllSorted(Added(v, ls[0]), ls[1..]);
      assert ls == [ls[0]] + ls[1..];
    }
  }

  // ---------------------------------------------------------------------
  // discard

  /// The tier after `discard(l)`: the first label equal to `l` removed, and
  /// the index slot at the same position; ValueError when `l` is absent.
  function Discarded(v: TierValue, l: Label): (r: Result<TierValue>)
    ensures r.Err? <==> l !in v.labels
    ensures r.Err? ==> r.error == ValueError
    ensures r.Ok? ==> r.value.kind == v.kind && r.value.name == v.name
                      && r.value.start == v.start && r.value.end == v.end
  {
    match IndexOf(v.labels, l)
    case None => Err(ValueError)
    case Some(i) =>
      Ok(v.(labels := RemoveAt(v.labels, i),
            time := if i < |v.time| then RemoveAt(v.time, i) else v.time))
  }

  /// `discard` removes exactly one copy of `l`, from the labels and the
  /// index alike, so the invariant and the order survive.
  lemma {:induction false} DiscardedConsistent(v: TierValue, l: Label)
    requires Consistent(v) && l in v.labels
    ensures Discarded(v, l).Ok?
    ensures Consistent(Discarded(v, l).value)
    ensures Sorted(v.labels) ==> Sorted(Discarded(v, l).value.labels)
    ensures multiset(Discarded(v, l).value.labels) == multiset(v.labels) - multiset{l}
  {
    var i := IndexOf(v.labels, l).value;
    assert Discarded(v, l).value.labels == RemoveAt(v.labels, i);
    assert Discarded(v, l).value.time == RemoveAt(v.time, i);
    RemoveAtMultiset(v.labels, i);
    RemoveAtConsistent(v.labels, v.time, i);
    if Sorted(v.labels) {
      RemoveAtSorted(v.labels, i);
    }
  }

  /// Removing a label and its slot keeps the index in step.
  lemma RemoveAtConsistent(labels: seq<Label>, time: seq<Slot>, i: nat)
    requires IndexConsistent(labels, time) && i < |labels|
    ensures IndexConsistent(RemoveAt(labels, i), RemoveAt(time, i))
  {
  }

  /// Removing a label keeps the others in order.
  lemma RemoveAtSorted(labels: seq<Label>, i: nat)
    requires Sorted(labels) && i < |labels|
    ensures Sorted(RemoveAt(labels, i))
  {
    var w := RemoveAt(labels, i);
    forall a, b | 0 <= a < b < |w|
      ensures w[a].t1 <= w[b].t1
    {
      var a' := if a < i then a else a + 1;
      var b' := if b < i then b else b + 1;
      assert w[a] == labels[a'] && w[b] == labels[b'];
    }
  }

  // ---------------------------------------------------------------------
  // scale_by, shift_by

  function ScaleSlot(slot: Slot, factor: real): Slot {
    if slot.Filled? then Filled(slot.t * factor) else Unfilled
  }

  function ShiftSlot(slot: Slot, offset: real): Slot {
    if slot.Filled? then Filled(slot.t + offset) else Unfilled
  }

  /// The tier after `scale_by(factor)`: every label and every filled slot
  /// scaled; start and end as they were.
  function Scaled(v: TierValue, factor: real): (r: TierValue)
    ensures |r.labels| == |v.labels| && |r.time| == |v.time|
    ensures forall i :: 0 <= i < |v.labels| ==> r.labels[i] == ScaleBy(v.labels[i], factor)
    ensures r.kind == v.kind && r.name == v.name && r.start == v.start && r.end == v.end
  {
    v.(labels := seq(|v.labels|, i requires 0 <= i < |v.labels| => ScaleBy(v.labels[i], factor)),
       time := seq(|v.time|, i requires 0 <= i < |v.time| => ScaleSlot(v.time[i], factor)))
  }

  /// The tier after `shift_by(offset)`: every label and every filled slot
  /// moved; start and end as they were.
  function Shifted(v: TierValue, offset: real): (r: TierValue)
    ensures |r.labels| == |v.labels| && |r.time| == |v.time|
    ensures forall i :: 0 <= i < |v.labels| ==> r.labels[i] == ShiftBy(v.labels[i], offset)
    ensures r.kind == v.kind && r.name == v.name && r.start == v.start && r.end == v.end
  {
    v.(labels := seq(|v.labels|, i requires 0 <= i < |v.labels| => ShiftBy(v.labels[i], offset)),
       time := seq(|v.time|, i requires 0 <= i < |v.time| => ShiftSlot(v.time[i], offset)))
  }

  /// Scaling keeps the index invariant.
  lemma ScaledConsistent(v: TierValue, factor: real)
    requires Consistent(v)
    ensures Consistent(Scaled(v, factor))
  {
    var s := Scaled(v, factor);
    forall i | 0 <= i < |s.labels|
      ensures s.time[i] == Filled(s.labels[i].t1)
    {
      assert s.time[i] == ScaleSlot(v.time[i], factor);
      assert s.labels[i] == ScaleBy(v.labels[i], factor);
      assert v.time[i] == Filled(v.labels[i].t1);
      assert ScaleSlot(v.time[i], factor) == Filled(v.labels[i].t1 * factor);
      assert s.labels[i].t1 == v.labels[i].t1 * factor;
    }
  }

  /// A factor that is not negative keeps the labels in order.
  lemma ScaledSorted(v: TierValue, factor: real)
    requires factor >= 0.0 && Sorted(v.labels)
    ensures Sorted(Scaled(v, factor).labels)
  {
    var w := Scaled(v, factor).labels;
    forall i, j | 0 <= i < j < |w|
      ensures w[i].t1 <= w[j].t1
    {
      assert w[i] == ScaleBy(v.labels[i], factor) && w[j] == ScaleBy(v.labels[j], factor);
      MulMonotone(v.labels[i].t1, v.labels[j].t1, factor);
    }
  }

  lemma MulMonotone(a: real, b: real, factor: real)
    requires a <= b && factor >= 0.0
    ensures a * factor <= b * factor
  {
    assert b * factor - a * factor == (b - a) * factor;
  }

  lemma MulAntitone(a: real, b: real, factor: real)
    requires a < b && factor < 0.0
    ensures a * factor > b * factor
  {
    assert a * factor - b * factor == (b - a) * (-factor);
  }

  /// A negative factor reverses the order of two labels with different
  /// start times.
  lemma ScaledNegativeReverses(v: TierValue, factor: real, i: nat, j: nat)
    requires i < j < |v.labels| && v.labels[i].t1 < v.labels[j].t1 && factor < 0.0
    ensures Scaled(v, factor).labels[i].t1 > Scaled(v, factor).labels[j].t1
  {
    MulAntitone(v.labels[i].t1, v.labels[j].t1, factor);
    assert Scaled(v, factor).labels[i] == ScaleBy(v.labels[i], factor);
    assert Scaled(v, factor).labels[j] == ScaleBy(v.labels[j], factor);
  }

  /// Shifting keeps the index invariant and the order.
  lemma ShiftedConsistent(v: TierValue, offset: real)
    requires Consistent(v)
    ensures Consistent(Shifted(v, offset))
    ensures Sorted(v.labels) ==> Sorted(Shifted(v, offset).labels)
  {
  }

  // ---------------------------------------------------------------------
  // Lookups (no change to the tier)

  /// `tier[key]`: Python list indexing, negative keys from the end.
  function GetItem(v: TierValue, key: int): (r: Result<Label>)
    ensures r.Err? <==> !(-|v.labels| <= key < |v.labels|)
    ensures r.Err? ==> r.error == IndexError
    ensures r.Ok? ==> r.value in v.labels
    ensures 0 <= key < |v.labels| ==> r == Ok(v.labels[key])
    ensures -|v.labels| <= key < 0 ==> r == Ok(v.labels[|v.labels| + key])
  {
    match PyIndex(v.labels, key)
    case None => Err(IndexError)
    case Some(x) => Ok(x)
  }

  /// `next(l, skip)`: the label `skip + 1` places after the first copy of
  /// `l`; None past the end; ValueError when `l` is absent.
  function Next(v: TierValue, l: Label, skip: int): (r: Result<Option<Label>>)
    ensures r.Err? <==> l !in v.labels
    ensures r.Err? ==> r.error == ValueError
    ensures r.Ok? && skip >= 0 ==>
              var i := IndexOf(v.labels, l).value;
              (r.value.Some? <==> i + skip + 1 < |v.labels|)
              && (r.value.Some? ==> r.value.value == v.labels[i + skip + 1])
  {
    match IndexOf(v.labels, l)
    case None => Err(ValueError)
    case Some(i) => Ok(PyIndex(v.labels, i + skip + 1))
  }

  /// `prev(l, skip)`: the label `skip + 1` places before the first copy of
  /// `l`. Python's negative indexing makes a position just below the start
  /// wrap round to the end; None only below `-len`.
  function Prev(v: TierValue, l: Label, skip: int): (r: Result<Option<Label>>)
    ensures r.Err? <==> l !in v.labels
    ensures r.Err? ==> r.error == ValueError
    ensures r.Ok? && skip >= 0 ==>
              var i := IndexOf(v.labels, l).value;
              var j := i - skip - 1;
              (j >= 0 ==> r.value == Some(v.labels[j]))
              && (-|v.labels| <= j < 0 ==> r.value == Some(v.labels[|v.labels| + j]))
              && (j < -|v.labels| <==> r.value.None?)
  {
    match IndexOf(v.labels, l)
    case None => Err(ValueError)
    case Some(i) => Ok(PyIndex(v.labels, i - skip - 1))
  }

  function Dist(x: real, t: real): real {
    if x >= t then x - t else t - x
  }

  /// `i` is the first position of a smallest distance to `t`.
  predicate FirstClosest(labels: seq<Label>, t: real, i: nat) {
    && i < |labels|
    && (forall k :: 0 <= k < |labels| ==> Dist(labels[i].t1, t) <= Dist(labels[k].t1, t))
    && (forall k :: 0 <= k < i ==> Dist(labels[k].t1, t) > Dist(labels[i].t1, t))
  }

  /// `abs(time - t).argmin()` over the first `n` slots: numpy lets a NaN
  /// win, so the answer is the first unfilled slot if there is one, and
  /// otherwise the first slot of least distance.
  function ArgMin(time: seq<Slot>, t: real, n: nat): (r: nat)
    requires 0 < n <= |time|
    ensures r < n
    ensures (exists k :: 0 <= k < n && time[k].Unfilled?) ==>
              time[r].Unfilled? && forall k :: 0 <= k < r ==> time[k].Filled?
    ensures (forall k :: 0 <= k < n ==> time[k].Filled?) ==>
              && (forall k :: 0 <= k < n ==> Dist(time[r].t, t) <= Dist(time[k].t, t))
              && (forall k :: 0 <= k < r ==> Dist(time[k].t, t) > Dist(time[r].t, t))
    decreases n
  {
    if n == 1 then 0
    else
      var b := ArgMin(time, t, n - 1);
      if time[b].Unfilled? then b
      else if time[n - 1].Unfilled? then n - 1
      else if Dist(time[n - 1].t, t) < Dist(time[b].t, t) then n - 1
      else b
  }

  /// The slot holds a time at or before `t`.
  predicate AtOrBefore(slot: Slot, t: real) {
    slot.Filled? && slot.t <= t
  }

  /// `np.where(t >= time)[0][-1]`: the last slot at or before `t`, among
  /// the first `n`.
  function LastAtOrBefore(time: seq<Slot>, t: real, n: nat): (r: Option<nat>)
    requires n <= |time|
    ensures r.Some? ==> r.value < n && AtOrBefore(time[r.value], t)
                        && forall k :: r.value < k < n ==> !AtOrBefore(time[k], t)
    ensures r.None? ==> forall k :: 0 <= k < n ==> !AtOrBefore(time[k], t)
    decreases n
  {
    if n == 0 then None
    else if AtOrBefore(time[n - 1], t) then Some(n - 1)
    else LastAtOrBefore(time, t, n - 1)
  }

  /// `label_at(t, method)`, with `how` the method: only "closest" looks anything up.
  /// A point tier takes the argmin of the distances (ValueError on an empty
  /// index, IndexError when an unfilled slot wins); an interval tier takes
  /// the last slot at or before `t` (IndexError when there is none).
  function LabelAt(v: TierValue, t: real, how: string): (r: Result<Option<Label>>)
    ensures how != "closest" ==> r == Ok(None)
    ensures how == "closest" && v.kind == PointTier && Consistent(v) ==>
              && (|v.time| == 0 ==> r == Err(ValueError))
              && (|v.labels| < |v.time| ==> r == Err(IndexError))
              && (0 < |v.labels| == |v.time| ==>
                    exists i: nat :: FirstClosest(v.labels, t, i) && r == Ok(Some(v.labels[i])))
    ensures how == "closest" && v.kind == IntervalTier && Consistent(v) ==>
              && (r.Err? <==> forall k :: 0 <= k < |v.labels| ==> v.labels[k].t1 > t)
              && (r.Err? ==> r.error == IndexError)
              && (r.Ok? ==> exists i :: 0 <= i < |v.labels| && r == Ok(Some(v.labels[i]))
                                        && v.labels[i].t1 <= t
                                        && forall k :: i < k < |v.labels| ==> v.labels[k].t1 > t)
  {
    if how != "closest" then Ok(None)
    else match v.kind
      case PointTier =>
        if |v.time| == 0 then Err(ValueError)
        else
          var i := ArgMin(v.time, t, |v.time|);
          if i < |v.labels| then
            assert Consistent(v) && |v.labels| == |v.time| ==> FirstClosest(v.labels, t, i);
            Ok(Some(v.labels[i]))
          else Err(IndexError)
      case IntervalTier =>
        match LastAtOrBefore(v.time, t, |v.time|)
        case None => Err(IndexError)
        case Some(i) =>
          if i < |v.labels| then Ok(Some(v.labels[i])) else Err(IndexError)
  }

  // ---------------------------------------------------------------------
  // tslice, search

  /// What `tslice` returns: a list of labels, or the one label itself when
  /// a single match was asked for and found.
  datatype Slice = Many(labels: seq<Label>) | One(single: Label)

  /// The time window of a `tslice` call.
  datatype Window = Window(t1: real, t2: Option<real>, tol: real, ltol: real, rtol: real,
                           lincl: bool, rincl: bool)

  function WindowLeft(w: Window): real {
    w.t1 - w.tol - w.ltol
  }

  function WindowRight(w: Window): real {
    (if w.t2.Some? then w.t2.value else w.t1) + w.tol + w.rtol
  }

  /// Whether `tslice` keeps `l`: a point tier tests `t1` against both ends,
  /// an interval tier tests `t2` against the left end (never met without a
  /// `t2`) and `t1` against the right end; each end is inclusive or not.
  predicate InWindow(kind: TierKind, w: Window, l: Label) {
    var lo := if kind == PointTier then Some(l.t1) else l.t2;
    && lo.Some?
    && (if w.lincl then lo.value >= WindowLeft(w) else lo.value > WindowLeft(w))
    && (if w.rincl then l.t1 <= WindowRight(w) else l.t1 < WindowRight(w))
  }

  /// `tslice(...)`. With `t2` given: the labels in the window, in tier
  /// order. Without: IndexError for more than one match, the label itself
  /// for one, an empty list for none. The interval tier's `lstrip`/`rstrip`
  /// flags change nothing and are not parameters here.
  function TSlice(v: TierValue, w: Window): (r: Result<Slice>)
    ensures var matches := Filter(v.labels, l => InWindow(v.kind, w, l));
            && (w.t2.Some? ==> r == Ok(Many(matches)))
            && (w.t2.None? ==> (r.Err? <==> |matches| > 1))
            && (r.Err? ==> r.error == IndexError)
            && (w.t2.None? && |matches| == 1 ==> r == Ok(One(matches[0])))
            && (w.t2.None? && |matches| == 0 ==> r == Ok(Many([])))
  {
    var sl := Filter(v.labels, l => InWindow(v.kind, w, l));
    if w.t2.None? && |sl| > 1 then Err(IndexError)
    else if w.t2.None? && |sl| == 1 then Ok(One(sl[0]))
    else Ok(Many(sl))
  }

  /// A label belongs to a window slice exactly when it is one of the tier's
  /// labels and lies in the window.
  lemma TSliceMembers(v: TierValue, w: Window, l: Label)
    requires w.t2.Some?
    ensures TSlice(v, w).Ok? && TSlice(v, w).value.Many?
    ensures l in TSlice(v, w).value.labels <==> l in v.labels && InWindow(v.kind, w, l)
  {
    FilterMembers(v.labels, x => InWindow(v.kind, w, x), l);
  }

  /// `search(pattern, **window)`: the labels whose text `matches`, in tier
  /// order, among all labels or among a window slice. A slice that comes
  /// back as a single label is not iterable: TypeError.
  function Search(v: TierValue, matches: string -> bool, w: Option<Window>): (r: Result<seq<Label>>)
    ensures w.None? ==> r.Ok? && IsSubsequence(r.value, v.labels)
    ensures w.None? ==> forall l :: l in r.value <==> l in v.labels && matches(l.text)
    ensures w.None? ==> r == Ok(Filter(v.labels, (l: Label) => matches(l.text)))
    ensures w.Some? ==> (r.Err? <==> TSlice(v, w.value).Err? || TSlice(v, w.value).value.One?)
    ensures w.Some? && r.Ok? ==> r.value == Filter(TSlice(v, w.value).value.labels, (l: Label) => matches(l.text))
  {
    var pass := (l: Label) => matches(l.text);
    if w.None? then
      assert forall l :: l in Filter(v.labels, pass) <==> l in v.labels && matches(l.text) by {
        forall l ensures l in Filter(v.labels, pass) <==> l in v.labels && matches(l.text) {
          FilterMembers(v.labels, pass, l);
        }
      }
      Ok(Filter(v.labels, pass))
    else match TSlice(v, w.value)
      case Err(e) => Err(e)
      case Ok(One(_)) => Err(TypeError)
      case Ok(Many(sl)) => Ok(Filter(sl, pass))
  }

  // The library's own initialization scenario: three adjacent intervals
  // added to an interval tier, then looked up by time, position and
  // neighbour.

  const First := Label("first", 1.0, Some(2.0), None)
  const Second := Label("second", 2.0, Some(3.0), None)
  const Third := Label("third", 3.0, Some(4.0), None)

  /// The three labels land in order, and the interval tier's end follows
  /// the last start time, not the last end time.
  lemma {:induction false} ScenarioBuilt()
    ensures AddAll(EmptyTier(IntervalTier, "tier1", 0.0, Unbounded, 0), [First, Second, Third])
            == TierValue(IntervalTier, "tier1", 0.0, Finite(3.0), [First, Second, Third],
                         [Filled(1.0), Filled(2.0), Filled(3.0)])
  {
    var v0 := EmptyTier(IntervalTier, "tier1", 0.0, Unbounded, 0);
    var v1 := TierValue(IntervalTier, "tier1", 0.0, Finite(1.0), [First], [Filled(1.0)]);
    var v2 := TierValue(IntervalTier, "tier1", 0.0, Finite(2.0), [First, Second], [Filled(1.0), Filled(2.0)]);
    var v3 := TierValue(IntervalTier, "tier1", 0.0, Finite(3.0), [First, Second, Third],
                        [Filled(1.0), Filled(2.0), Filled(3.0)]);
    assert Added(v0, First) == v1;
    assert SearchSorted(v1.time, 2.0) == 1;
    assert Added(v1, Second) == v2;
    assert SearchSorted(v2.time, 3.0) == 2;
    assert Added(v2, Third) == v3;
    assert [First, Second, Third][1..] == [Second, Third];
    assert [Second, Third][1..] == [Third];
    assert [Third][1..] == [];
    assert AddAll(v2, [Third]) == AddAll(v3, []) == v3;
    assert AddAll(v1, [Second, Third]) == AddAll(v2, [Third]);
  }

  /// `label_at(2.5)` is the second label; `[0]` and `[-1]` are the first and
  /// last; `next` and `prev` step one or two places.
  lemma {:induction false} ScenarioLookups()
    ensures var v := TierValue(IntervalTier, "tier1", 0.0, Finite(3.0), [First, Second, Third],
                               [Filled(1.0), Filled(2.0), Filled(3.0)]);
            && LabelAt(v, 2.5, "closest") == Ok(Some(Second))
            && GetItem(v, 0) == Ok(First) && GetItem(v, -1) == Ok(Third)
            && Next(v, First, 0) == Ok(Some(Second)) && Next(v, First, 1) == Ok(Some(Third))
            && Prev(v, Third, 0) == Ok(Some(Second)) && Prev(v, Third, 1) == Ok(Some(First))
  {
    var v := TierValue(IntervalTier, "tier1", 0.0, Finite(3.0), [First, Second, Third],
                       [Filled(1.0), Filled(2.0), Filled(3.0)]);
    assert LastAtOrBefore(v.time, 2.5, 3) == Some(1);
    assert IndexOf(v.labels, First) == Some(0);
    assert IndexOf(v.labels, Third) == Some(2);
  }

  /// On a point tier, `label_at` picks the nearest label, and of two at
  /// the same distance the earlier one; a method other than "closest"
  /// finds nothing.
  lemma {:induction false} PointLabelAtScenario()
    ensures var a := Label("a", 1.0, None, None);
            var b := Label("b", 2.0, None, None);
            var v := TierValue(PointTier, "", 0.0, Finite(2.0), [a, b], [Filled(1.0), Filled(2.0)]);
            && LabelAt(v, 1.5, "closest") == Ok(Some(a))
            && LabelAt(v, 1.8, "closest") == Ok(Some(b))
            && LabelAt(v, 1.8, "nearest") == Ok(None)
  {
    var time := [Filled(1.0), Filled(2.0)];
    assert ArgMin(time, 1.5, 2) == 0;
    assert ArgMin(time, 1.8, 2) == 1;
  }

  // ---------------------------------------------------------------------
  // The tier object

  /// A `PointTier` or `IntervalTier` object, updated in place by `add`,
  /// `discard`, `scale_by` and `shift_by`.
  class Tier {
    const kind: TierKind
    var name: string
    var start: real
    var end: Extent
    var labels: seq<Label>
    var time: seq<Slot>

    function Value(): TierValue
      reads this
    {
      TierValue(kind, name, start, end, labels, time)
    }

    predicate Valid()
      reads this
    {
      IndexConsistent(labels, time)
    }

    /// `PointTier(start, end, name, numlabels)` / `IntervalTier(...)`.
    constructor (kind: TierKind, start: real, end: Extent, name: string, numlabels: nat)
      ensures Valid()
      ensures Value() == EmptyTier(kind, name, start, end, numlabels)
    {
      this.kind := kind;
      this.name := name;
      this.start := start;
      this.end := end;
      this.labels := [];
      this.time := seq(numlabels, _ => Unfilled);
    }

    /// `add(label)`.
    method Add(l: Label)
      modifies this
      ensures Value() == Added(old(Value()), l)
      ensures old(Valid()) ==> Valid()
    {
      ghost var v := Value();
      var idx := SearchSorted(time, l.t1);
      labels := InsertAt(labels, if idx <= |labels| then idx else |labels|, l);
      if idx < |time| && time[idx].Unfilled? {
        time := time[idx := Filled(l.t1)];
      } else {
        time := time[..idx] + [Filled(l.t1)] + time[idx..];
      }
      if kind == PointTier {
        if end.Unbounded? || l.t1 > end.t {
          end := Finite(l.t1);
        }
      } else {
        if end.Unbounded? || (l.t2.Some? && l.t2.value > end.t) {
          end := Finite(l.t1);
        }
      }
      assert end == ExtendedEnd(v.kind, v.end, l);
      if IndexConsistent(v.labels, v.time) {
        AddedConsistent(v, l);
      }
    }

    /// `discard(label)`: ValueError, and no change, when `l` is absent.
    method Discard(l: Label) returns (r: Result<()>)
      modifies this
      ensures Discarded(old(Value()), l).Err? ==> r == Err(ValueError) && unchanged(this)
      ensures Discarded(old(Value()), l).Ok? ==> r == Ok(()) && Value() == Discarded(old(Value()), l).value
      ensures old(Valid()) ==> Valid()
    {
      ghost var v := Value();
      var idx := IndexOf(labels, l);
      if idx.None? {
        return Err(ValueError);
      }
      var i := idx.value;
      labels := RemoveAt(labels, i);
      if i < |time| {
        time := RemoveAt(time, i);
      }
      if IndexConsistent(v.labels, v.time) {
        DiscardedConsistent(v, l);
      }
      r := Ok(());
    }

    /// `scale_by(factor)`: each label scaled in turn, then the index.
    method ScaleBy(factor: real)
      modifies this
      ensures Value() == Scaled(old(Value()), factor)
      ensures old(Valid()) ==> Valid()
    {
      ghost var v := Value();
      var i := 0;
      while i < |labels|
        invariant 0 <= i <= |labels| == |v.labels|
        invariant forall k :: 0 <= k < i ==> labels[k] == Labels.ScaleBy(v.labels[k], factor)
        invariant forall k :: i <= k < |labels| ==> labels[k] == v.labels[k]
        invariant name == v.name && start == v.start && end == v.end && time == v.time
      {
        labels := labels[i := Labels.ScaleBy(labels[i], factor)];
        i := i + 1;
      }
      var old_time := time;
      time := seq(|old_time|, k requires 0 <= k < |old_time| => ScaleSlot(old_time[k], factor));
      assert labels == Scaled(v, factor).labels;
      if IndexConsistent(v.labels, v.time) {
        ScaledConsistent(v, factor);
      }
    }

    /// `shift_by(offset)`: each label moved in turn, then the index.
    method ShiftBy(offset: real)
      modifies this
      ensures Value() == Shifted(old(Value()), offset)
      ensures old(Valid()) ==> Valid()
    {
      ghost var v := Value();
      var i := 0;
      while i < |labels|
        invariant 0 <= i <= |labels| == |v.labels|
        invariant forall k :: 0 <= k < i ==> labels[k] == Labels.ShiftBy(v.labels[k], offset)
        invariant forall k :: i <= k < |labels| ==> labels[k] == v.labels[k]
        invariant name == v.name && start == v.start && end == v.end && time == v.time
      {
        labels := labels[i := Labels.ShiftBy(labels[i], offset)];
        i := i + 1;
      }
      var old_time := time;
      time := seq(|old_time|, k requires 0 <= k < |old_time| => ShiftSlot(old_time[k], offset));
      assert labels == Shifted(v, offset).labels;
      if IndexConsistent(v.labels, v.time) {
        ShiftedConsistent(v, offset);
      }
    }
  }
}
