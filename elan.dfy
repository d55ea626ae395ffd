/// ELAN .eaf documents: tiers of annotations whose times come from a table
/// of time slots. A time-subdivision tier leaves the slots inside a run of
/// annotations without a value; the reader divides the run's span evenly
/// and writes the times it computes back into those slots, so that tiers
/// depending on them find values there.
module Elan {
  import opened Wrappers
  import opened Labels
  import opened Tiers
  import opened Manager
  import opened Lines
  import Seqs

  // ---------------------------------------------------------------------
  // The document, as its XML holds it

  /// An element under a tier's ANNOTATION: an ALIGNABLE_ANNOTATION with
  /// its two time slots, a REF_ANNOTATION naming another annotation, or an
  /// element of some other tag. `value` is the text of ANNOTATION_VALUE,
  /// None when that element is empty.
  datatype Annotation =
    | Alignable(id: string, ref1: string, ref2: string, value: Option<string>)
    | Reference(id: string, ref: string, value: Option<string>)
    | Unrecognized(tag: string)

  /// A TIER: its TIER_ID, its PARENT_REF and its annotations in order.
  datatype EafTier = EafTier(id: string, parent: Option<string>, annotations: seq<Annotation>)

  /// A document: the TIME_ORDER table, from TIME_SLOT_ID to TIME_VALUE
  /// (None for a slot without one), and the tiers in document order.
  datatype Eaf = Eaf(slots: map<string, Option<real>>, tiers: seq<EafTier>)

  predicate NoDuplicates(s: seq<string>) {
    forall i, j :: 0 <= i < j < |s| ==> s[i] != s[j]
  }

  /// The TIER_IDs of the document.
  function Ids(tiers: seq<EafTier>): set<string> {
    set i | 0 <= i < |tiers| :: tiers[i].id
  }

  // ---------------------------------------------------------------------
  // The order in which tiers are processed

  /// No tier after the `i`-th has its id.
  predicate LastWithId(tiers: seq<EafTier>, i: nat)
    requires i < |tiers|
  {
    forall j :: i < j < |tiers| ==> tiers[j].id != tiers[i].id
  }

  /// `tmap`: each TIER_ID to the PARENT_REF of the last tier with that id
  /// (a later entry of the dict comprehension replaces an earlier one).
  function TierMap(tiers: seq<EafTier>): (m: map<string, Option<string>>)
    ensures m.Keys == Ids(tiers)
    decreases |tiers|
  {
    if |tiers| == 0 then map[]
    else
      IdsSnoc(tiers);
      TierMap(tiers[..|tiers| - 1])[tiers[|tiers| - 1].id := tiers[|tiers| - 1].parent]
  }

  lemma IdsSnoc(tiers: seq<EafTier>)
    requires tiers != []
    ensures Ids(tiers) == Ids(tiers[..|tiers| - 1]) + {tiers[|tiers| - 1].id}
  {
    var init := tiers[..|tiers| - 1];
    assert forall i :: 0 <= i < |init| ==> init[i] == tiers[i];
  }

  /// The map holds the PARENT_REF of the last tier with each id.
  lemma {:induction false} TierMapLast(tiers: seq<EafTier>, i: nat)
    requires i < |tiers| && LastWithId(tiers, i)
    ensures TierMap(tiers)[tiers[i].id] == tiers[i].parent
    decreases |tiers|
  {
    var n := |tiers| - 1;
    if i < n {
      var init := tiers[..n];
      assert tiers[n].id != tiers[i].id;
      assert init[i] == tiers[i];
      assert LastWithId(init, i) by {
        forall j | i < j < |init| ensures init[j].id != init[i].id {
          assert init[j] == tiers[j];
        }
      }
      TierMapLast(init, i);
    }
  }

  /// `tmap.keys()`: every TIER_ID once. Python 2 lists a dict's keys in
  /// hash order; the model lists them in order of first appearance.
  function Keys(tiers: seq<EafTier>): (r: seq<string>)
    ensures NoDuplicates(r)
    ensures forall x :: x in r <==> x in Ids(tiers)
    decreases |tiers|
  {
    if |tiers| == 0 then []
    else
      var init := tiers[..|tiers| - 1];
      var last := tiers[|tiers| - 1];
      assert forall i :: 0 <= i < |init| ==> init[i] == tiers[i];
      assert Ids(tiers) == Ids(init) + {last.id};
      var k := Keys(init);
      if last.id in k then k else k + [last.id]
  }

  /// A tier may be taken once it has no parent or its parent has been
  /// taken.
  predicate Ready(m: map<string, Option<string>>, name: string, sorted: seq<string>)
    requires name in m
  {
    m[name].None? || m[name].value in sorted
  }

  /// One pass of `for name in tkeys`, from the iterator's position `i`,
  /// over a list the loop body removes from: a removal shifts the next
  /// name into position `i`, and the iterator, moving on to `i + 1`,
  /// passes it over. Gives the names left and the order so far.
  function Pass(m: map<string, Option<string>>, keys: seq<string>, i: nat, sorted: seq<string>)
    : (r: (seq<string>, seq<string>))
    requires i <= |keys| + 1
    requires forall x :: x in keys ==> x in m
    ensures forall x :: x in r.0 ==> x in m
    ensures |r.0| <= |keys|
    ensures multiset(r.0) + multiset(r.1) == multiset(keys) + multiset(sorted)
    ensures |sorted| <= |r.1| && r.1[..|sorted|] == sorted
    ensures TakenInOrder(m, r.1, |sorted|)
    ensures |r.0| == |keys| ==> r.1 == sorted
    decreases |keys| + 1 - i
  {
    if i >= |keys| then (keys, sorted)
    else if Ready(m, keys[i], sorted) then
      Seqs.RemoveAtMultiset(keys, i);
      var r := Pass(m, Seqs.RemoveAt(keys, i), i + 1, sorted + [keys[i]]);
      TakenNext(m, r.1, sorted, keys[i]);
      r
    else Pass(m, keys, i + 1, sorted)
  }

  /// From position `lo` on, every name of `s` was ready when taken.
  predicate TakenInOrder(m: map<string, Option<string>>, s: seq<string>, lo: nat) {
    forall p :: lo <= p < |s| ==> s[p] in m && Ready(m, s[p], s[..p])
  }

  lemma TakenNext(m: map<string, Option<string>>, s: seq<string>, sorted: seq<string>, x: string)
    requires |sorted| < |s| && s[..|sorted| + 1] == sorted + [x]
    requires x in m && Ready(m, x, sorted) && TakenInOrder(m, s, |sorted| + 1)
    ensures s[..|sorted|] == sorted && TakenInOrder(m, s, |sorted|)
  {
    assert s[..|sorted|] == (sorted + [x])[..|sorted|];
  }

  lemma TakenPrefix(m: map<string, Option<string>>, r: seq<string>, s: seq<string>, lo: nat)
    requires lo <= |s| <= |r| && r[..|s|] == s
    requires TakenInOrder(m, s, lo) && TakenInOrder(m, r, |s|)
    ensures r[..lo] == s[..lo] && TakenInOrder(m, r, lo)
  {
    forall p | lo <= p < |s|
      ensures r[p] in m && Ready(m, r[p], r[..p])
    {
      assert r[..p] == s[..p];
      assert r[p] == s[p];
    }
  }

  /// `while len(tkeys) > 0`: passes until no name is left. A pass that
  /// takes nothing leaves the state as it found it, so the next pass is the
  /// same and the source loops forever: Diverges.
  function SortFrom(m: map<string, Option<string>>, keys: seq<string>, sorted: seq<string>)
    : (r: Result<seq<string>>)
    requires forall x :: x in keys ==> x in m
    ensures r.Err? ==> r.error == Diverges
    ensures r.Ok? ==> multiset(r.value) == multiset(keys) + multiset(sorted)
    ensures r.Ok? ==> |sorted| <= |r.value| && r.value[..|sorted|] == sorted
    ensures r.Ok? ==> TakenInOrder(m, r.value, |sorted|)
    decreases |keys|
  {
    if |keys| == 0 then Ok(sorted)
    else
      var next := Pass(m, keys, 0, sorted);
      if |next.0| == |keys| then Err(Diverges)
      else
        var r := SortFrom(m, next.0, next.1);
        if r.Err? then r
        else
          TakenPrefix(m, r.value, next.1, |sorted|);
          r
  }

  /// `tiersort`: every tier id exactly once, each after its parent; or
  /// Diverges where the source's loop never ends.
  function TierSort(tiers: seq<EafTier>): (r: Result<seq<string>>)
    ensures r.Err? ==> r.error == Diverges
    ensures r.Ok? ==> multiset(r.value) == multiset(Keys(tiers))
    ensures r.Ok? ==> forall p :: 0 <= p < |r.value| ==> r.value[p] in Ids(tiers)
    ensures r.Ok? ==> forall p :: 0 <= p < |r.value| ==>
                        var parent := TierMap(tiers)[r.value[p]];
                        parent.None? || parent.value in r.value[..p]
  {
    var m := TierMap(tiers);
    var r := SortFrom(m, Keys(tiers), []);
    if r.Err? then r
    else
      SortedAreIds(tiers, r.value);
      r
  }

  lemma SortedAreIds(tiers: seq<EafTier>, r: seq<string>)
    requires multiset(r) == multiset(Keys(tiers))
    ensures forall p :: 0 <= p < |r| ==> r[p] in Ids(tiers)
  {
    forall p | 0 <= p < |r|
      ensures r[p] in Ids(tiers)
    {
      assert r[p] in multiset(Keys(tiers));
    }
  }

  /// A tier whose PARENT_REF names no tier of the document is never
  /// taken: the sort never ends.
  lemma OrphanDiverges(tiers: seq<EafTier>, i: nat)
    requires i < |tiers| && tiers[i].parent.Some? && tiers[i].parent.value !in Ids(tiers)
    requires LastWithId(tiers, i)
    ensures TierSort(tiers) == Err(Diverges)
  {
    assert tiers[i].id in Ids(tiers);
    TierMapLast(tiers, i);
    SortedParentsExist(tiers);
  }

  /// A finished sort has found every parent among the document's tiers.
  lemma SortedParentsExist(tiers: seq<EafTier>)
    ensures TierSort(tiers).Ok? ==>
              forall x :: x in Ids(tiers) && TierMap(tiers)[x].Some? ==> TierMap(tiers)[x].value in Ids(tiers)
  {
    var r := TierSort(tiers);
    if r.Ok? {
      forall x | x in Ids(tiers) && TierMap(tiers)[x].Some?
        ensures TierMap(tiers)[x].value in Ids(tiers)
      {
        assert x in multiset(Keys(tiers));
        var p :| 0 <= p < |r.value| && r.value[p] == x;
        var q :| 0 <= q < p && r.value[q] == TierMap(tiers)[x].value;
      }
    }
  }

  /// Parents rank below their children (the PARENT_REFs form no cycle and
  /// name only tiers of the document).
  predicate Ranked(m: map<string, Option<string>>, rank: string -> nat) {
    forall x :: x in m && m[x].Some? ==> m[x].value in m && rank(m[x].value) < rank(x)
  }

  /// A pass that reaches a name ready to be taken takes something.
  lemma {:induction false} PassProgress(m: map<string, Option<string>>, keys: seq<string>, i: nat,
                                        sorted: seq<string>, j: nat)
    requires forall x :: x in keys ==> x in m
    requires i <= j < |keys| && Ready(m, keys[j], sorted)
    ensures |Pass(m, keys, i, sorted).0| < |keys|
    decreases |keys| - i
  {
    if !Ready(m, keys[i], sorted) {
      PassProgress(m, keys, i + 1, sorted, j);
    }
  }

  /// A position of least rank.
  lemma {:induction false} LeastRanked(keys: seq<string>, rank: string -> nat) returns (j: nat)
    requires |keys| > 0
    ensures j < |keys| && forall k :: 0 <= k < |keys| ==> rank(keys[j]) <= rank(keys[k])
  {
    if |keys| == 1 {
      j := 0;
    } else {
      var j' := LeastRanked(keys[1..], rank);
      assert forall k :: 1 <= k < |keys| ==> keys[k] == keys[1..][k - 1];
      j := if rank(keys[0]) <= rank(keys[1..][j']) then 0 else j' + 1;
    }
  }

  /// With ranked parents the passes never stall: the least-ranked name
  /// left is always ready, since its parent ranks lower and so has been
  /// taken already.
  lemma {:induction false} SortFromTerminates(m: map<string, Option<string>>, keys: seq<string>,
                                              sorted: seq<string>, rank: string -> nat)
    requires forall x :: x in keys ==> x in m
    requires forall x :: x in m ==> x in keys || x in sorted
    requires Ranked(m, rank)
    ensures SortFrom(m, keys, sorted).Ok?
    decreases |keys|
  {
    if |keys| > 0 {
      var j := LeastRanked(keys, rank);
      assert Ready(m, keys[j], sorted);
      PassProgress(m, keys, 0, sorted, j);
      var next := Pass(m, keys, 0, sorted);
      forall x | x in m
        ensures x in next.0 || x in next.1
      {
        assert x in multiset(keys) + multiset(sorted);
      }
      SortFromTerminates(m, next.0, next.1, rank);
    }
  }

  /// The sort ends whenever the parents can be ranked below their
  /// children; with OrphanDiverges, a document's tier order diverges only
  /// on a missing parent or a cycle of parents.
  lemma TierSortTerminates(tiers: seq<EafTier>, rank: string -> nat)
    requires Ranked(TierMap(tiers), rank)
    ensures TierSort(tiers).Ok?
  {
    SortFromTerminates(TierMap(tiers), Keys(tiers), [], rank);
  }

  /// Three tiers without parents, `a`, `b`, `c` in that order, come out as
  /// `a`, `c`, `b`: removing `a` during the first pass makes the loop pass
  /// over `b`.
  lemma {:induction false} SkippedTierScenario(a: string, b: string, c: string)
    requires a != b && b != c && a != c
    ensures TierSort([EafTier(a, None, []), EafTier(b, None, []), EafTier(c, None, [])]) == Ok([a, c, b])
  {
    ThreeRoots(a, b, c);
    ThreeRootsSort(map[a := None, b := None, c := None], a, b, c);
  }

  lemma {:induction false} ThreeRoots(a: string, b: string, c: string)
    requires a != b && b != c && a != c
    ensures var tiers := [EafTier(a, None, []), EafTier(b, None, []), EafTier(c, None, [])];
            Keys(tiers) == [a, b, c] && TierMap(tiers) == map[a := None, b := None, c := None]
  {
    var tiers := [EafTier(a, None, []), EafTier(b, None, []), EafTier(c, None, [])];
    assert tiers[..2] == [EafTier(a, None, []), EafTier(b, None, [])];
    assert tiers[..2][..1] == [EafTier(a, None, [])];
    assert tiers[..2][..1][..0] == [];
    assert Keys(tiers[..2][..1]) == [a];
    assert Keys(tiers[..2]) == [a, b];
    assert TierMap(tiers[..2][..1]) == map[a := None];
    assert TierMap(tiers[..2]) == map[a := None, b := None];
  }

  lemma {:induction false} FirstPassSkips(m: map<string, Option<string>>, a: string, b: string, c: string)
    requires a in m && b in m && c in m && m[a].None? && m[c].None?
    ensures Pass(m, [a, b, c], 0, []) == ([b], [a, c])
  {
    var abc, bc, bOnly := [a, b, c], [b, c], [b];
    assert Seqs.RemoveAt(abc, 0) == bc && [] + [abc[0]] == [a];
    assert Seqs.RemoveAt(bc, 1) == bOnly && [a] + [bc[1]] == [a, c];
    PassTakes(m, abc, 0, []);
    PassTakes(m, bc, 1, [a]);
    PassEnds(m, bOnly, 2, [a, c]);
  }

  lemma PassEnds(m: map<string, Option<string>>, keys: seq<string>, i: nat, sorted: seq<string>)
    requires |keys| <= i <= |keys| + 1 && forall x :: x in keys ==> x in m
    ensures Pass(m, keys, i, sorted) == (keys, sorted)
  {
  }

  lemma {:induction false} ThreeRootsSort(m: map<string, Option<string>>, a: string, b: string, c: string)
    requires a in m && b in m && c in m && m[a].None? && m[b].None? && m[c].None?
    ensures SortFrom(m, [a, b, c], []) == Ok([a, c, b])
  {
    var bOnly, ac := [b], [a, c];
    assert Seqs.RemoveAt(bOnly, 0) == [] && ac + [bOnly[0]] == [a, c, b];
    FirstPassSkips(m, a, b, c);
    SortFromStep(m, [a, b, c], []);
    PassTakes(m, bOnly, 0, ac);
    PassEnds(m, [], 1, [a, c, b]);
    SortFromStep(m, bOnly, ac);
  }

  lemma SortFromStep(m: map<string, Option<string>>, keys: seq<string>, sorted: seq<string>)
    requires |keys| > 0 && forall x :: x in keys ==> x in m
    requires |Pass(m, keys, 0, sorted).0| < |keys|
    ensures SortFrom(m, keys, sorted) == SortFrom(m, Pass(m, keys, 0, sorted).0, Pass(m, keys, 0, sorted).1)
  {
  }

  lemma PassTakes(m: map<string, Option<string>>, keys: seq<string>, i: nat, sorted: seq<string>)
    requires i < |keys| && forall x :: x in keys ==> x in m
    requires m[keys[i]].None?
    ensures Pass(m, keys, i, sorted) == Pass(m, Seqs.RemoveAt(keys, i), i + 1, sorted + [keys[i]])
  {
  }

  // ---------------------------------------------------------------------
  // Where an annotation's times come from

  /// Every annotation of the document, in document order.
  function Flatten(tiers: seq<EafTier>): (r: seq<Annotation>)
    decreases |tiers|
  {
    if |tiers| == 0 then [] else tiers[0].annotations + Flatten(tiers[1..])
  }

  /// The ids of the document's REF_ANNOTATIONs.
  function RefIds(all: seq<Annotation>): set<string> {
    set k | 0 <= k < |all| && all[k].Reference? :: all[k].id
  }

  /// `root.find` of the REF_ANNOTATION with this ANNOTATION_ID: the
  /// position of the first one, in document order, from `j` on.
  function FindReference(all: seq<Annotation>, id: string, j: nat): (r: Option<nat>)
    requires j <= |all|
    ensures r.Some? ==> j <= r.value < |all| && all[r.value].Reference? && all[r.value].id == id
    ensures r.Some? ==> forall k :: j <= k < r.value ==> !(all[k].Reference? && all[k].id == id)
    ensures r.None? ==> forall k :: j <= k < |all| ==> !(all[k].Reference? && all[k].id == id)
    decreases |all| - j
  {
    if j == |all| then None
    else if all[j].Reference? && all[j].id == id then Some(j)
    else FindReference(all, id, j + 1)
  }

  /// `root.find` of the ALIGNABLE_ANNOTATION with this ANNOTATION_ID.
  function FindAlignable(all: seq<Annotation>, id: string, j: nat): (r: Option<nat>)
    requires j <= |all|
    ensures r.Some? ==> j <= r.value < |all| && all[r.value].Alignable? && all[r.value].id == id
    ensures r.Some? ==> forall k :: j <= k < r.value ==> !(all[k].Alignable? && all[k].id == id)
    ensures r.None? ==> forall k :: j <= k < |all| ==> !(all[k].Alignable? && all[k].id == id)
    decreases |all| - j
  {
    if j == |all| then None
    else if all[j].Alignable? && all[j].id == id then Some(j)
    else FindAlignable(all, id, j + 1)
  }

  lemma RemovingMemberShrinks(a: set<string>, x: string)
    requires x in a
    ensures |a - {x}| < |a|
  {
    assert a == (a - {x}) + {x};
  }

  /// The loop that follows ANNOTATION_REFs through REF_ANNOTATIONs to the
  /// ALIGNABLE_ANNOTATION at the top, giving its two time slots.
  /// RuntimeError when the chain ends on an id that no annotation has.
  /// `visited` holds the ids already looked up: meeting one again puts
  /// the loop back where it was, and the source loops forever.
  function Resolve(all: seq<Annotation>, ref: string, visited: set<string>): (r: Result<(string, string)>)
    requires visited <= RefIds(all)
    ensures r.Err? ==> r.error == RuntimeError || r.error == Diverges
    ensures r.Ok? ==> exists k :: 0 <= k < |all| && all[k].Alignable? && r.value == (all[k].ref1, all[k].ref2)
    decreases |RefIds(all) - visited|
  {
    match FindReference(all, ref, 0)
    case Some(k) =>
      if ref in visited then Err(Diverges)
      else
        RemovingMemberShrinks(RefIds(all) - visited, ref);
        assert RefIds(all) - (visited + {ref}) == RefIds(all) - visited - {ref};
        Resolve(all, all[k].ref, visited + {ref})
    case None =>
      match FindAlignable(all, ref, 0)
      case None => Err(RuntimeError)
      case Some(k) => Ok((all[k].ref1, all[k].ref2))
  }

  /// `t_anno`'s TIME_SLOT_REF1 and TIME_SLOT_REF2: an alignable
  /// annotation's own, a reference's through `Resolve`; any other tag is a
  /// RuntimeError.
  function Anchor(all: seq<Annotation>, a: Annotation): (r: Result<(string, string)>)
    ensures a.Alignable? ==> r == Ok((a.ref1, a.ref2))
    ensures a.Unrecognized? ==> r == Err(RuntimeError)
    ensures r.Err? ==> r.error == RuntimeError || r.error == Diverges
  {
    match a
    case Alignable(_, ref1, ref2, _) => Ok((ref1, ref2))
    case Reference(_, ref, _) => Resolve(all, ref, {})
    case Unrecognized(_) => Err(RuntimeError)
  }

  // ---------------------------------------------------------------------
  // Dividing a run of annotations

  /// Python 2's `round`: the nearest integer, halves away from zero.
  function Round(x: real): (r: int)
    ensures x >= 0.0 ==> x - 0.5 < r as real <= x + 0.5
    ensures x < 0.0 ==> x - 0.5 <= r as real < x + 0.5
  {
    if x >= 0.0 then (x + 0.5).Floor else -((0.5 - x).Floor)
  }

  lemma RoundMonotone(x: real, y: real)
    requires x <= y
    ensures Round(x) <= Round(y)
  {
    if 0.0 <= x {
      assert (x + 0.5).Floor as real <= x + 0.5 <= y + 0.5;
    } else if y < 0.0 {
      assert (0.5 - y).Floor as real <= 0.5 - y <= 0.5 - x;
    }
  }

  lemma RoundWhole(k: int)
    ensures Round(k as real) == k
  {
  }

  /// The text a label gets: `''` for an empty ANNOTATION_VALUE.
  function TextOf(value: Option<string>): string {
    if value.None? then "" else value.value
  }

  /// The labels of a closed run of `|values|` annotations from `start` to
  /// `end`: the span cut in equal steps, each boundary rounded to a whole
  /// unit from `start`, and the last label ending exactly at `end`.
  function Subdivide(values: seq<Option<string>>, start: real, end: real): (r: seq<Label>)
    requires |values| > 0
    ensures |r| == |values|
    ensures r[0].t1 == start && r[|r| - 1].t2 == Some(end)
    ensures forall i :: 0 <= i < |r| - 1 ==> r[i].t2 == Some(r[i + 1].t1)
    ensures forall i :: 0 <= i < |r| ==> r[i].text == TextOf(values[i]) && r[i].appdata.None?
  {
    var n := |values|;
    var step := (end - start) / n as real;
    seq(n, i requires 0 <= i < n =>
      Label(TextOf(values[i]), Boundary(start, step, i),
            Some(if i == n - 1 then end else Boundary(start, step, i + 1)), None))
  }

  /// The `i`-th boundary of a run: `start`, moved by `round(i * step)`
  /// when `i > 0`.
  function Boundary(start: real, step: real, i: nat): real {
    if i > 0 then start + Round(i as real * step) as real else start
  }

  predicate Whole(x: real) {
    x == x.Floor as real
  }

  /// Between whole-unit times (ELAN counts milliseconds), the labels of a
  /// run are in order, each ending no earlier than it starts, all within
  /// the span of the run.
  lemma {:induction false} SubdivideOrdered(values: seq<Option<string>>, start: real, end: real)
    requires |values| > 0 && start <= end && Whole(start) && Whole(end)
    ensures var r := Subdivide(values, start, end);
            && Sorted(r)
            && (forall i :: 0 <= i < |r| ==> start <= r[i].t1 <= r[i].t2.value <= end)
  {
    var r := Subdivide(values, start, end);
    var n := |values|;
    var step := (end - start) / n as real;
    BoundariesOrdered(start, end, n);
    forall i | 0 <= i < n
      ensures r[i].t1 == Boundary(start, step, i) && r[i].t2.value == Boundary(start, step, i + 1)
    {
    }
  }

  /// Between whole-unit ends the boundaries of a run climb from `start`
  /// to `end`.
  lemma {:induction false} BoundariesOrdered(start: real, end: real, n: nat)
    requires n > 0 && start <= end && Whole(start) && Whole(end)
    ensures var step := (end - start) / n as real;
            && Boundary(start, step, 0) == start && Boundary(start, step, n) == end
            && forall i, j :: 0 <= i <= j <= n ==> start <= Boundary(start, step, i) <= Boundary(start, step, j) <= end
  {
    var step := (end - start) / n as real;
    LastBoundary(start, end, n);
    forall i, j | 0 <= i <= j <= n
      ensures start <= Boundary(start, step, i) <= Boundary(start, step, j) <= end
    {
      BoundaryMonotone(start, step, i, j);
      BoundaryMonotone(start, step, j, n);
    }
  }

  lemma LastBoundary(start: real, end: real, n: nat)
    requires n > 0 && start <= end && Whole(start) && Whole(end)
    ensures Boundary(start, (end - start) / n as real, n) == end
  {
    var step := (end - start) / n as real;
    var k := end.Floor - start.Floor;
    assert n as real * step == end - start;
    assert end - start == k as real;
    RoundWhole(k);
    assert Round(n as real * step) == k;
    BoundaryPositive(start, step, n);
  }

  lemma BoundaryPositive(start: real, step: real, i: nat)
    requires i > 0
    ensures Boundary(start, step, i) == start + Round(i as real * step) as real
  {
  }

  lemma BoundaryMonotone(start: real, step: real, i: nat, j: nat)
    requires step >= 0.0 && i <= j
    ensures start <= Boundary(start, step, i) <= Boundary(start, step, j)
  {
    MulMonotone(i, j, step);
    RoundMonotone(0.0, i as real * step);
    RoundMonotone(i as real * step, j as real * step);
  }

  lemma MulMonotone(i: nat, j: nat, step: real)
    requires i <= j && step >= 0.0
    ensures 0.0 <= i as real * step <= j as real * step
  {
  }

  /// The slot table after a run closes: from the `j`-th label on, each
  /// label's start is written into the first time slot of its annotation.
  function WriteBack(slots: map<string, Option<real>>, ids: seq<string>, labels: seq<Label>, j: nat)
    : map<string, Option<real>>
    requires |ids| == |labels|
    decreases |labels| - j
  {
    if j >= |labels| then slots
    else WriteBack(slots[ids[j] := Some(labels[j].t1)], ids, labels, j + 1)
  }

  /// After a run closes, the slot of every label but the first holds that
  /// label's start (the last write wins when a slot repeats), and every
  /// other slot is as it was.
  lemma {:induction false} WriteBackSlots(slots: map<string, Option<real>>, ids: seq<string>, labels: seq<Label>, j: nat)
    requires |ids| == |labels| && j <= |labels|
    ensures var w := WriteBack(slots, ids, labels, j);
            && (forall i :: j <= i < |ids| && ids[i] !in ids[i + 1..] ==> ids[i] in w && w[ids[i]] == Some(labels[i].t1))
            && (forall x :: x !in ids[j..] ==> (x in w <==> x in slots) && (x in slots ==> w[x] == slots[x]))
    decreases |labels| - j
  {
    if j < |labels| {
      var s' := slots[ids[j] := Some(labels[j].t1)];
      WriteBackSlots(s', ids, labels, j + 1);
      assert ids[j..] == [ids[j]] + ids[j + 1..];
    }
  }

  // ---------------------------------------------------------------------
  // Reading a tier's annotations

  /// A run of annotations not yet placed in time: their values, the first
  /// time slot of each, and the run's start once it is known.
  datatype Run = Run(values: seq<Option<string>>, slotIds: seq<string>, start: Option<real>)

  function NoRun(): Run {
    Run([], [], None)
  }

  predicate WellFormed(run: Run) {
    |run.values| == |run.slotIds|
  }

  /// What one annotation does: the run grows (its second time slot has no
  /// value), or the run closes, divided into labels.
  datatype Outcome = Open(run: Run) | Close(labels: seq<Label>, slotIds: seq<string>)

  /// The ANNOTATION_VALUE of an annotation.
  function ValueOf(a: Annotation): Option<string> {
    match a
    case Alignable(_, _, _, value) => value
    case Reference(_, _, value) => value
    case Unrecognized(_) => None
  }

  /// One pass of the annotation loop: find the annotation's time slots,
  /// then extend or close the run.
  function Step(all: seq<Annotation>, slots: map<string, Option<real>>, run: Run, a: Annotation)
    : (r: Result<Outcome>)
    requires WellFormed(run)
    ensures r.Err? ==> r.error in {RuntimeError, Diverges, KeyError}
    ensures Anchor(all, a).Err? ==> r == Err(Anchor(all, a).error)
    ensures Anchor(all, a).Ok? ==> r == Extend(slots, run, ValueOf(a), Anchor(all, a).value.0, Anchor(all, a).value.1)
  {
    var anchor := Anchor(all, a);
    if anchor.Err? then Err(anchor.error)
    else Extend(slots, run, ValueOf(a), anchor.value.0, anchor.value.1)
  }

  /// The run after an annotation with time slots `ref1` and `ref2`. The
  /// run's start is read from the first slot of the annotation that opens
  /// it (KeyError for an unknown slot, RuntimeError for one without a
  /// value); the run closes on the first annotation whose second slot has
  /// a value, and its labels end there.
  function Extend(slots: map<string, Option<real>>, run: Run, value: Option<string>, ref1: string, ref2: string)
    : (r: Result<Outcome>)
    requires WellFormed(run)
    ensures r.Err? ==> r.error in {RuntimeError, KeyError}
    ensures run.start.None? && ref1 in slots && slots[ref1].None? ==> r == Err(RuntimeError)
    ensures r.Ok? ==> ref2 in slots && (run.start.None? ==> ref1 in slots && slots[ref1].Some?)
    ensures r.Ok? && r.value.Open? ==>
              && slots[ref2].None?
              && r.value.run.values == run.values + [value]
              && r.value.run.slotIds == run.slotIds + [ref1]
              && r.value.run.start == (if run.start.Some? then run.start else slots[ref1])
    ensures r.Ok? && r.value.Close? ==>
              && |r.value.labels| == |r.value.slotIds| == |run.values| + 1
              && r.value.slotIds == run.slotIds + [ref1]
              && r.value.labels[0].t1 == (if run.start.Some? then run.start.value else slots[ref1].value)
              && r.value.labels[|run.values|].t2 == slots[ref2]
              && slots[ref2].Some?
              && r.value.labels == Subdivide(run.values + [value],
                                             if run.start.Some? then run.start.value else slots[ref1].value,
                                             slots[ref2].value)
  {
    var values := run.values + [value];
    var ids := run.slotIds + [ref1];
    if run.start.None? && ref1 !in slots then Err(KeyError)
    else if run.start.None? && slots[ref1].None? then Err(RuntimeError)
    else
      var start := if run.start.Some? then run.start.value else slots[ref1].value;
      if ref2 !in slots then Err(KeyError)
      else if slots[ref2].None? then Ok(Open(Run(values, ids, Some(start))))
      else Ok(Close(Subdivide(values, start, slots[ref2].value), ids))
  }

  /// The reader's state inside a tier: the slot table, the tiers built so
  /// far, and the open run.
  datatype Reading = Reading(slots: map<string, Option<real>>, doc: seq<TierValue>, run: Run)

  /// An outcome applied to the `k`-th tier: a closed run's labels are
  /// added and their starts written back into the slot table.
  function Apply(st: Reading, k: nat, o: Outcome): (r: Reading)
    requires k < |st.doc|
    requires o.Close? ==> |o.labels| == |o.slotIds|
    ensures |r.doc| == |st.doc|
  {
    match o
    case Open(run) => st.(run := run)
    case Close(labels, ids) =>
      Reading(WriteBack(st.slots, ids, labels, 1), st.doc[k := AddAll(st.doc[k], labels)], NoRun())
  }

  /// The annotation loop of one tier from its `i`-th annotation, adding
  /// to the `k`-th tier.
  function AnnotationsFrom(all: seq<Annotation>, annos: seq<Annotation>, i: nat, k: nat, st: Reading)
    : (r: Result<Reading>)
    requires i <= |annos| && k < |st.doc| && WellFormed(st.run)
    ensures r.Ok? ==> |r.value.doc| == |st.doc|
    decreases |annos| - i
  {
    if i == |annos| then Ok(st)
    else
      var o := Step(all, st.slots, st.run, annos[i]);
      if o.Err? then Err(o.error)
      else AnnotationsFrom(all, annos, i + 1, k, Apply(st, k, o.value))
  }

  /// `root.find` of the TIER with this TIER_ID: the first one.
  function FirstTier(tiers: seq<EafTier>, name: string): (r: Option<EafTier>)
    ensures r.Some? ==> r.value in tiers && r.value.id == name
    decreases |tiers|
  {
    if |tiers| == 0 then None
    else if tiers[0].id == name then Some(tiers[0])
    else FirstTier(tiers[1..], name)
  }

  /// The body of `for name in tiersort`: the annotations of the first
  /// TIER with that id, added to the manager's tier of that name (its
  /// `tier(name)`); a run still open when the tier ends is dropped.
  function TierFrom(tiers: seq<EafTier>, name: string, slots: map<string, Option<real>>, doc: seq<TierValue>)
    : (r: Result<(map<string, Option<real>>, seq<TierValue>)>)
    ensures r.Ok? ==> |r.value.1| == |doc|
  {
    var k := Locate(Names(doc), ByName(name));
    var t := FirstTier(tiers, name);
    if k.Err? then Err(k.error)
    else if t.None? then Err(AttributeError)
    else
      var r := AnnotationsFrom(Flatten(tiers), t.value.annotations, 0, k.value, Reading(slots, doc, NoRun()));
      if r.Err? then Err(r.error) else Ok((r.value.slots, r.value.doc))
  }

  /// The tiers of `order` from its `j`-th on.
  function TiersFrom(tiers: seq<EafTier>, order: seq<string>, j: nat, slots: map<string, Option<real>>,
                     doc: seq<TierValue>): (r: Result<seq<TierValue>>)
    requires j <= |order|
    ensures r.Ok? ==> |r.value| == |doc|
    decreases |order| - j
  {
    if j == |order| then Ok(doc)
    else
      var r := TierFrom(tiers, order[j], slots, doc);
      if r.Err? then Err(r.error) else TiersFrom(tiers, order, j + 1, r.value.0, r.value.1)
  }

  /// One empty interval tier per TIER, in document order, named by its
  /// TIER_ID.
  function NewTiers(tiers: seq<EafTier>): (r: seq<TierValue>)
    ensures |r| == |tiers|
    ensures forall i :: 0 <= i < |tiers| ==> r[i] == EmptyTier(IntervalTier, tiers[i].id, 0.0, Unbounded, 0)
  {
    seq(|tiers|, i requires 0 <= i < |tiers| => EmptyTier(IntervalTier, tiers[i].id, 0.0, Unbounded, 0))
  }

  /// `read_eaf`: the tiers it adds to the manager.
  function ReadEaf(e: Eaf): Result<seq<TierValue>> {
    var order := TierSort(e.tiers);
    if order.Err? then Err(order.error)
    else TiersFrom(e.tiers, order.value, 0, e.slots, NewTiers(e.tiers))
  }

  // ---------------------------------------------------------------------
  // What reading a document gives

  /// One consistent, sorted interval tier per TIER, in document order,
  /// named by its TIER_ID.
  predicate DocShape(doc: seq<TierValue>, tiers: seq<EafTier>) {
    && |doc| == |tiers|
    && forall i :: 0 <= i < |doc| ==>
         doc[i].kind == IntervalTier && doc[i].name == tiers[i].id && Consistent(doc[i]) && Sorted(doc[i].labels)
  }

  lemma {:induction false} AnnotationsFromShape(all: seq<Annotation>, annos: seq<Annotation>, i: nat, k: nat,
                                                st: Reading, tiers: seq<EafTier>)
    requires i <= |annos| && k < |st.doc| && WellFormed(st.run) && DocShape(st.doc, tiers)
    ensures AnnotationsFrom(all, annos, i, k, st).Ok? ==> DocShape(AnnotationsFrom(all, annos, i, k, st).value.doc, tiers)
    decreases |annos| - i
  {
    if i < |annos| {
      var o := Step(all, st.slots, st.run, annos[i]);
      if o.Ok? {
        if o.value.Close? {
          AddAllSorted(st.doc[k], o.value.labels);
        }
        AnnotationsFromShape(all, annos, i + 1, k, Apply(st, k, o.value), tiers);
      }
    }
  }

  lemma {:induction false} TiersFromShape(tiers: seq<EafTier>, order: seq<string>, j: nat,
                                          slots: map<string, Option<real>>, doc: seq<TierValue>)
    requires j <= |order| && DocShape(doc, tiers)
    ensures TiersFrom(tiers, order, j, slots, doc).Ok? ==> DocShape(TiersFrom(tiers, order, j, slots, doc).value, tiers)
    decreases |order| - j
  {
    if j < |order| {
      var k := Locate(Names(doc), ByName(order[j]));
      var t := FirstTier(tiers, order[j]);
      if k.Ok? && t.Some? {
        AnnotationsFromShape(Flatten(tiers), t.value.annotations, 0, k.value, Reading(slots, doc, NoRun()), tiers);
        var r := TierFrom(tiers, order[j], slots, doc);
        if r.Ok? {
          TiersFromShape(tiers, order, j + 1, r.value.0, r.value.1);
        }
      }
    }
  }

  /// Reading a document gives one consistent interval tier per TIER, in
  /// document order and named by its TIER_ID, its labels sorted by start;
  /// the only errors are those of the tier sort and the annotations.
  lemma ReadEafShape(e: Eaf)
    ensures ReadEaf(e).Ok? ==> DocShape(ReadEaf(e).value, e.tiers)
    ensures ReadEaf(e).Err? ==> ReadEaf(e).error in {Diverges, RuntimeError, KeyError, IndexError, AttributeError}
  {
    if TierSort(e.tiers).Ok? {
      TiersFromShape(e.tiers, TierSort(e.tiers).value, 0, e.slots, NewTiers(e.tiers));
      TiersFromErrors(e.tiers, TierSort(e.tiers).value, 0, e.slots, NewTiers(e.tiers));
    }
  }

  lemma {:induction false} TiersFromErrors(tiers: seq<EafTier>, order: seq<string>, j: nat,
                                           slots: map<string, Option<real>>, doc: seq<TierValue>)
    requires j <= |order|
    ensures TiersFrom(tiers, order, j, slots, doc).Err? ==>
              TiersFrom(tiers, order, j, slots, doc).error in {Diverges, RuntimeError, KeyError, IndexError, AttributeError}
    decreases |order| - j
  {
    if j < |order| {
      var k := Locate(Names(doc), ByName(order[j]));
      var t := FirstTier(tiers, order[j]);
      if k.Ok? && t.Some? {
        AnnotationsFromErrors(Flatten(tiers), t.value.annotations, 0, k.value, Reading(slots, doc, NoRun()));
      }
      var r := TierFrom(tiers, order[j], slots, doc);
      if r.Ok? {
        TiersFromErrors(tiers, order, j + 1, r.value.0, r.value.1);
      }
    }
  }

  lemma {:induction false} AnnotationsFromErrors(all: seq<Annotation>, annos: seq<Annotation>, i: nat, k: nat, st: Reading)
    requires i <= |annos| && k < |st.doc| && WellFormed(st.run)
    ensures AnnotationsFrom(all, annos, i, k, st).Err? ==>
              AnnotationsFrom(all, annos, i, k, st).error in {RuntimeError, Diverges, KeyError}
    decreases |annos| - i
  {
    if i < |annos| {
      var o := Step(all, st.slots, st.run, annos[i]);
      if o.Ok? {
        AnnotationsFromErrors(all, annos, i + 1, k, Apply(st, k, o.value));
      }
    }
  }

  // ---------------------------------------------------------------------
  // Scenarios

  /// A REF_ANNOTATION `c` pointing at `b`, itself pointing at the
  /// alignable `a`, takes `a`'s time slots; two REF_ANNOTATIONs pointing
  /// at each other send the source's loop round forever.
  lemma {:induction false} ReferenceChainScenario(a: string, b: string, c: string, s1: string, s2: string,
                                                  v: Option<string>)
    requires a != b && b != c && a != c
    ensures var all := [Alignable(a, s1, s2, v), Reference(b, a, v), Reference(c, b, v)];
            Anchor(all, all[2]) == Ok((s1, s2))
    ensures Resolve([Reference(a, b, v), Reference(b, a, v)], b, {}) == Err(Diverges)
  {
    var all := [Alignable(a, s1, s2, v), Reference(b, a, v), Reference(c, b, v)];
    assert FindReference(all, b, 0) == Some(1);
    assert FindReference(all, a, 0) == None;
    assert FindAlignable(all, a, 0) == Some(0);
    assert Resolve(all, a, {b}) == Ok((s1, s2));
    var none: set<string> := {};
    assert none + {b} == {b};
    assert Resolve(all, b, {}) == Resolve(all, a, {b});
    var loop := [Reference(a, b, v), Reference(b, a, v)];
    assert FindReference(loop, b, 0) == Some(1);
    assert FindReference(loop, a, 0) == Some(0);
    assert RefIds(loop) == {a, b};
    assert Resolve(loop, b, {b, a}) == Err(Diverges);
    assert {b} + {a} == {b, a};
    assert Resolve(loop, a, {b}) == Err(Diverges);
    assert Resolve(loop, b, {}) == Resolve(loop, a, {b});
  }

  /// Three annotations on a subdivision tier, from slot `s0` (at 0) through
  /// the unvalued slots `x` and `y` to `s3` (at 300): one run, divided
  /// into 0-100, 100-200 and 200-300, with 100 and 200 written into `x`
  /// and `y` for the tiers below.
  lemma {:induction false} SubdivisionScenario(all: seq<Annotation>, slots: map<string, Option<real>>,
                                               doc: seq<TierValue>, k: nat,
                                               s0: string, x: string, y: string, s3: string,
                                               v0: Option<string>, v1: Option<string>, v2: Option<string>)
    requires k < |doc|
    requires s0 in slots && x in slots && y in slots && s3 in slots
    requires slots[s0] == Some(0.0) && slots[x].None? && slots[y].None? && slots[s3] == Some(300.0)
    ensures var annos := [Alignable("a0", s0, x, v0), Alignable("a1", x, y, v1), Alignable("a2", y, s3, v2)];
            var labels := [Label(TextOf(v0), 0.0, Some(100.0), None), Label(TextOf(v1), 100.0, Some(200.0), None),
                           Label(TextOf(v2), 200.0, Some(300.0), None)];
            AnnotationsFrom(all, annos, 0, k, Reading(slots, doc, NoRun()))
              == Ok(Reading(slots[x := Some(100.0)][y := Some(200.0)], doc[k := AddAll(doc[k], labels)], NoRun()))
  {
    var annos := [Alignable("a0", s0, x, v0), Alignable("a1", x, y, v1), Alignable("a2", y, s3, v2)];
    var labels := [Label(TextOf(v0), 0.0, Some(100.0), None), Label(TextOf(v1), 100.0, Some(200.0), None),
                   Label(TextOf(v2), 200.0, Some(300.0), None)];
    var run1 := Run([v0], [s0], Some(0.0));
    var run2 := Run([v0, v1], [s0, x], Some(0.0));
    RunOpens(all, slots, s0, x, y, s3, v0, v1);
    RunCloses(all, slots, s0, x, y, s3, v0, v1, v2);
    ThreeLabels(v0, v1, v2);
    ThreeWrites(slots, labels, s0, x, y);
    var st0 := Reading(slots, doc, NoRun());
    var st1 := Reading(slots, doc, run1);
    var st2 := Reading(slots, doc, run2);
    AnnotationsFromStep(all, annos, 0, k, st0);
    AnnotationsFromStep(all, annos, 1, k, st1);
    AnnotationsFromStep(all, annos, 2, k, st2);
  }

  lemma AnnotationsFromStep(all: seq<Annotation>, annos: seq<Annotation>, i: nat, k: nat, st: Reading)
    requires i < |annos| && k < |st.doc| && WellFormed(st.run)
    requires Step(all, st.slots, st.run, annos[i]).Ok?
    ensures AnnotationsFrom(all, annos, i, k, st)
              == AnnotationsFrom(all, annos, i + 1, k, Apply(st, k, Step(all, st.slots, st.run, annos[i]).value))
  {
  }

  lemma RunOpens(all: seq<Annotation>, slots: map<string, Option<real>>, s0: string, x: string, y: string, s3: string,
                 v0: Option<string>, v1: Option<string>)
    requires s0 in slots && x in slots && y in slots
    requires slots[s0] == Some(0.0) && slots[x].None? && slots[y].None?
    ensures Step(all, slots, NoRun(), Alignable("a0", s0, x, v0)) == Ok(Open(Run([v0], [s0], Some(0.0))))
    ensures Step(all, slots, Run([v0], [s0], Some(0.0)), Alignable("a1", x, y, v1))
              == Ok(Open(Run([v0, v1], [s0, x], Some(0.0))))
  {
    assert [] + [v0] == [v0] && [] + [s0] == [s0];
    assert [v0] + [v1] == [v0, v1] && [s0] + [x] == [s0, x];
  }

  lemma RunCloses(all: seq<Annotation>, slots: map<string, Option<real>>, s0: string, x: string, y: string, s3: string,
                  v0: Option<string>, v1: Option<string>, v2: Option<string>)
    requires y in slots && s3 in slots && slots[s3] == Some(300.0)
    ensures Step(all, slots, Run([v0, v1], [s0, x], Some(0.0)), Alignable("a2", y, s3, v2))
              == Ok(Close(Subdivide([v0, v1, v2], 0.0, 300.0), [s0, x, y]))
  {
    assert [v0, v1] + [v2] == [v0, v1, v2] && [s0, x] + [y] == [s0, x, y];
  }

  lemma ThreeLabels(v0: Option<string>, v1: Option<string>, v2: Option<string>)
    ensures Subdivide([v0, v1, v2], 0.0, 300.0)
              == [Label(TextOf(v0), 0.0, Some(100.0), None), Label(TextOf(v1), 100.0, Some(200.0), None),
                  Label(TextOf(v2), 200.0, Some(300.0), None)]
  {
    var r := Subdivide([v0, v1, v2], 0.0, 300.0);
    assert (300.0 - 0.0) / 3 as real == 100.0;
    RoundWhole(100);
    RoundWhole(200);
    assert Boundary(0.0, 100.0, 1) == 100.0;
    assert Boundary(0.0, 100.0, 2) == 200.0;
  }

  lemma ThreeWrites(slots: map<string, Option<real>>, labels: seq<Label>, s0: string, x: string, y: string)
    requires |labels| == 3 && labels[1].t1 == 100.0 && labels[2].t1 == 200.0
    ensures WriteBack(slots, [s0, x, y], labels, 1) == slots[x := Some(100.0)][y := Some(200.0)]
  {
    var ids := [s0, x, y];
    assert WriteBack(slots[x := Some(100.0)][y := Some(200.0)], ids, labels, 3) == slots[x := Some(100.0)][y := Some(200.0)];
  }

  // ---------------------------------------------------------------------
  // The reader

  /// The tier sort as the source runs it: `for name in tkeys` over the
  /// list its body removes from (the names are distinct, so
  /// `tkeys.remove(name)` removes position `i`). A pass that takes nothing
  /// returns Diverges where the source would pass again forever.
  method SortTiers(tiers: seq<EafTier>) returns (r: Result<seq<string>>)
    ensures r == TierSort(tiers)
  {
    var m := TierMap(tiers);
    var keys := Keys(tiers);
    var sorted: seq<string> := [];
    while |keys| > 0
      invariant forall x :: x in keys ==> x in m
      invariant SortFrom(m, keys, sorted) == TierSort(tiers)
      decreases |keys|
    {
      var before := |keys|;
      keys, sorted := SortPass(m, keys, sorted);
      if |keys| == before {
        return Err(Diverges);
      }
    }
    return Ok(sorted);
  }

  /// One pass of `for name in tkeys`.
  method SortPass(m: map<string, Option<string>>, keys0: seq<string>, sorted0: seq<string>)
    returns (keys: seq<string>, sorted: seq<string>)
    requires forall x :: x in keys0 ==> x in m
    ensures (keys, sorted) == Pass(m, keys0, 0, sorted0)
  {
    keys, sorted := keys0, sorted0;
    var i := 0;
    while i < |keys|
      invariant i <= |keys| + 1
      invariant forall x :: x in keys ==> x in m
      invariant Pass(m, keys, i, sorted) == Pass(m, keys0, 0, sorted0)
      decreases |keys| + 1 - i
    {
      var name := keys[i];
      if m[name].None? || m[name].value in sorted {
        sorted := sorted + [name];
        keys := Seqs.RemoveAt(keys, i);
      }
      i := i + 1;
    }
  }

  /// `while t_anno is None`: follow ANNOTATION_REFs up to an alignable
  /// annotation. `seen` stands for the source's endless loop: an id met
  /// twice ends it with Diverges.
  method FollowRefs(all: seq<Annotation>, ref0: string) returns (r: Result<(string, string)>)
    ensures r == Resolve(all, ref0, {})
  {
    var ref := ref0;
    var seen: set<string> := {};
    while true
      invariant seen <= RefIds(all)
      invariant Resolve(all, ref, seen) == Resolve(all, ref0, {})
      decreases |RefIds(all) - seen|
    {
      var found := FindReference(all, ref, 0);
      if found.None? {
        var top := FindAlignable(all, ref, 0);
        if top.None? {
          return Err(RuntimeError);
        }
        return Ok((all[top.value].ref1, all[top.value].ref2));
      }
      if ref in seen {
        return Err(Diverges);
      }
      RemovingMemberShrinks(RefIds(all) - seen, ref);
      assert RefIds(all) - (seen + {ref}) == RefIds(all) - seen - {ref};
      seen := seen + {ref};
      ref := all[found.value].ref;
    }
  }

  /// `for idx, label in enumerate(anno_run)`: each label of a closed run
  /// added to the `k`-th tier, and each start after the first written back
  /// into its slot.
  method CloseRun(lm: LabelManager, k: nat, values: seq<Option<string>>, ids: seq<string>, start: real, end: real,
                  slots: map<string, Option<real>>) returns (slots': map<string, Option<real>>)
    requires 0 < |values| == |ids| && k < |lm.tiers| && lm.Distinct()
    modifies lm.tiers[k]
    ensures lm.tiers == old(lm.tiers) && lm.Distinct() && (old(lm.Valid()) ==> lm.Valid())
    ensures lm.Values() == old(lm.Values())[k := AddAll(old(lm.Values())[k], Subdivide(values, start, end))]
    ensures slots' == WriteBack(slots, ids, Subdivide(values, start, end), 1)
  {
    ghost var labels := Subdivide(values, start, end);
    ghost var doc0 := lm.Values();
    var n := |values|;
    var step := (end - start) / n as real;
    slots' := slots;
    var idx := 0;
    while idx < n
      invariant idx <= n && lm.tiers == old(lm.tiers) && lm.Distinct() && (old(lm.Valid()) ==> lm.Valid())
      invariant RunPlaced(lm.Values(), doc0, k, labels, idx) == true
      invariant idx == 0 ==> slots' == slots
      invariant idx > 0 ==> WriteBack(slots', ids, labels, idx) == WriteBack(slots, ids, labels, 1)
    {
      var t1 := PlaceLabel(lm, k, values, start, end, step, idx, doc0);
      if idx > 0 {
        WriteBackNext(slots', ids, labels, idx);
        slots' := slots'[ids[idx] := Some(t1)];
      }
      idx := idx + 1;
    }
    PlacedAll(lm.Values(), doc0, k, labels);
    assert WriteBack(slots', ids, labels, idx) == slots';
  }

  /// The tiers while a run is placed: only the `k`-th has changed, and
  /// adding the labels from `idx` on to it gives the tier the whole run
  /// makes.
  predicate RunPlaced(now: seq<TierValue>, doc0: seq<TierValue>, k: nat, labels: seq<Label>, idx: nat) {
    && k < |doc0| && idx <= |labels| && |now| == |doc0| && now == doc0[k := now[k]]
    && AddAll(now[k], labels[idx..]) == AddAll(doc0[k], labels)
  }

  lemma PlacedNext(before: seq<TierValue>, doc0: seq<TierValue>, k: nat, labels: seq<Label>, idx: nat,
                   after: seq<TierValue>)
    requires RunPlaced(before, doc0, k, labels, idx) == true && idx < |labels|
    requires after == before[k := Added(before[k], labels[idx])]
    ensures RunPlaced(after, doc0, k, labels, idx + 1) == true
  {
    AddNext(before[k], labels, idx);
    assert after[k] == Added(before[k], labels[idx]);
    assert after == doc0[k := after[k]];
  }

  lemma PlacedAll(now: seq<TierValue>, doc0: seq<TierValue>, k: nat, labels: seq<Label>)
    requires RunPlaced(now, doc0, k, labels, |labels|) == true
    ensures now == doc0[k := AddAll(doc0[k], labels)]
  {
    assert labels[|labels|..] == [];
  }

  lemma WriteBackNext(slots: map<string, Option<real>>, ids: seq<string>, labels: seq<Label>, j: nat)
    requires |ids| == |labels| && j < |labels|
    ensures WriteBack(slots[ids[j] := Some(labels[j].t1)], ids, labels, j + 1) == WriteBack(slots, ids, labels, j)
  {
  }

  /// One pass of the `enumerate` loop: the `idx`-th label of the run
  /// added (with `doc0` the tiers before the run); its start is returned
  /// for the write-back.
  method PlaceLabel(lm: LabelManager, k: nat, values: seq<Option<string>>, start: real, end: real,
                    step: real, idx: nat, ghost doc0: seq<TierValue>) returns (t1: real)
    requires idx < |values| && step == (end - start) / |values| as real
    requires k < |lm.tiers| && lm.Distinct()
    requires RunPlaced(lm.Values(), doc0, k, Subdivide(values, start, end), idx) == true
    modifies lm.tiers[k]
    ensures lm.tiers == old(lm.tiers) && lm.Distinct() && (old(lm.Valid()) ==> lm.Valid())
    ensures RunPlaced(lm.Values(), doc0, k, Subdivide(values, start, end), idx + 1) == true
    ensures t1 == Subdivide(values, start, end)[idx].t1
  {
    ghost var before := lm.Values();
    var t2;
    t1, t2 := LabelTimes(start, end, step, idx, |values|);
    RunLabel(values, start, end, idx);
    var l := Label(TextOf(values[idx]), t1, Some(t2), None);
    assert Subdivide(values, start, end)[idx] == l;
    lm.AddLabelAt(k, l);
    PlacedNext(before, doc0, k, Subdivide(values, start, end), idx, lm.Values());
  }

  lemma AddNext(cur: TierValue, labels: seq<Label>, idx: nat)
    requires idx < |labels|
    ensures AddAll(Added(cur, labels[idx]), labels[idx + 1..]) == AddAll(cur, labels[idx..])
  {
    AddAllStep(cur, labels[idx..]);
    assert labels[idx..][1..] == labels[idx + 1..];
  }

  /// The times of the `idx`-th of `n` labels of a run.
  method LabelTimes(start: real, end: real, step: real, idx: nat, n: nat) returns (t1: real, t2: real)
    ensures t1 == Boundary(start, step, idx)
    ensures t2 == if idx == n - 1 then end else Boundary(start, step, idx + 1)
  {
    t1 := start;
    t2 := start + Round((idx + 1) as real * step) as real;
    if idx > 0 {
      t1 := t1 + Round(idx as real * step) as real;
    }
    if idx == n - 1 {
      t2 := end;
    }
  }

  lemma RunLabel(values: seq<Option<string>>, start: real, end: real, idx: nat)
    requires idx < |values|
    ensures var step := (end - start) / |values| as real;
            var l := Subdivide(values, start, end)[idx];
            && l.text == TextOf(values[idx]) && l.appdata.None? && l.t1 == Boundary(start, step, idx)
            && l.t2 == Some(if idx == |values| - 1 then end else Boundary(start, step, idx + 1))
  {
  }

  /// The body of `for anno in eaftier.findall('ANNOTATION/*')`.
  method ReadAnnotation(lm: LabelManager, k: nat, all: seq<Annotation>, a: Annotation,
                        slots: map<string, Option<real>>, run: Run)
    returns (err: Option<Error>, slots': map<string, Option<real>>, run': Run)
    requires k < |lm.tiers| && lm.Distinct() && WellFormed(run)
    modifies lm.tiers[k]
    ensures lm.tiers == old(lm.tiers) && lm.Distinct() && (old(lm.Valid()) ==> lm.Valid())
    ensures var o := Step(all, slots, run, a);
            && (err.Some? <==> o.Err?)
            && (o.Err? ==> err.value == o.error)
            && (o.Ok? ==> Reading(slots', lm.Values(), run') == Apply(Reading(slots, old(lm.Values()), run), k, o.value))
    ensures WellFormed(run')
  {
    var anchor: Result<(string, string)>;
    match a {
      case Alignable(_, ref1, ref2, _) =>
        anchor := Ok((ref1, ref2));
      case Reference(_, ref, _) =>
        anchor := FollowRefs(all, ref);
      case Unrecognized(_) =>
        return Some(RuntimeError), slots, run;
    }
    if anchor.Err? {
      return Some(anchor.error), slots, run;
    }
    err, slots', run' := ExtendRun(lm, k, ValueOf(a), anchor.value.0, anchor.value.1, slots, run);
  }

  /// The rest of the annotation loop's body, once `t_anno` is known.
  method ExtendRun(lm: LabelManager, k: nat, value: Option<string>, ref1: string, ref2: string,
                   slots: map<string, Option<real>>, run: Run)
    returns (err: Option<Error>, slots': map<string, Option<real>>, run': Run)
    requires k < |lm.tiers| && lm.Distinct() && WellFormed(run)
    modifies lm.tiers[k]
    ensures lm.tiers == old(lm.tiers) && lm.Distinct() && (old(lm.Valid()) ==> lm.Valid())
    ensures var o := Extend(slots, run, value, ref1, ref2);
            && (err.Some? <==> o.Err?)
            && (o.Err? ==> err.value == o.error)
            && (o.Ok? ==> Reading(slots', lm.Values(), run') == Apply(Reading(slots, old(lm.Values()), run), k, o.value))
    ensures WellFormed(run')
  {
    var values := run.values + [value];
    var ids := run.slotIds + [ref1];
    var start := run.start;
    if start.None? {
      if ref1 !in slots {
        return Some(KeyError), slots, run;
      }
      if slots[ref1].None? {
        return Some(RuntimeError), slots, run;
      }
      start := slots[ref1];
    }
    if ref2 !in slots {
      return Some(KeyError), slots, run;
    }
    if slots[ref2].None? {
      return None, slots, Run(values, ids, start);
    }
    slots' := CloseRun(lm, k, values, ids, start.value, slots[ref2].value, slots);
    return None, slots', NoRun();
  }

  /// The body of `for name in tiersort`: `tier(name)`, the first TIER so
  /// named, and its annotations in order.
  method ReadTier(lm: LabelManager, tiers: seq<EafTier>, name: string, slots: map<string, Option<real>>)
    returns (err: Option<Error>, slots': map<string, Option<real>>)
    requires lm.Distinct()
    modifies lm.tiers
    ensures lm.tiers == old(lm.tiers) && lm.Distinct() && (old(lm.Valid()) ==> lm.Valid())
    ensures var r := TierFrom(tiers, name, slots, old(lm.Values()));
            && (err.Some? <==> r.Err?)
            && (r.Err? ==> err.value == r.error)
            && (r.Ok? ==> slots' == r.value.0 && lm.Values() == r.value.1)
  {
    ghost var doc0 := lm.Values();
    var k := Locate(Names(lm.Values()), ByName(name));
    if k.Err? {
      return Some(k.error), slots;
    }
    var t := FirstTier(tiers, name);
    if t.None? {
      return Some(AttributeError), slots;
    }
    var all := Flatten(tiers);
    var annos := t.value.annotations;
    var run := NoRun();
    slots' := slots;
    var i := 0;
    while i < |annos|
      invariant i <= |annos| && WellFormed(run)
      invariant lm.tiers == old(lm.tiers) && lm.Distinct() && (old(lm.Valid()) ==> lm.Valid())
      invariant AnnotationsFrom(all, annos, i, k.value, Reading(slots', lm.Values(), run))
                  == AnnotationsFrom(all, annos, 0, k.value, Reading(slots, doc0, NoRun()))
    {
      ghost var before := Reading(slots', lm.Values(), run);
      var e;
      e, slots', run := ReadAnnotation(lm, k.value, all, annos[i], slots', run);
      if e.Some? {
        return e, slots';
      }
      AnnotationsFromStep(all, annos, i, k.value, before);
      i := i + 1;
    }
    err := None;
  }

  /// `LabelManager(from_file=..., from_type='eaf')`: the tiers sorted, one
  /// interval tier added per TIER in document order, then each tier's
  /// annotations read in the sorted order.
  method ReadEafFile(e: Eaf) returns (r: Result<LabelManager>)
    ensures r.Err? <==> ReadEaf(e).Err?
    ensures r.Err? ==> r.error == ReadEaf(e).error
    ensures r.Ok? ==> fresh(r.value) && r.value.Valid() && r.value.Distinct() && r.value.Values() == ReadEaf(e).value
  {
    var order := SortTiers(e.tiers);
    if order.Err? {
      return Err(order.error);
    }
    var lm := NewManager(e.tiers);
    var slots := e.slots;
    var j := 0;
    while j < |order.value|
      invariant j <= |order.value| && fresh(lm) && lm.Valid() && lm.Distinct()
      invariant forall j :: 0 <= j < |lm.tiers| ==> fresh(lm.tiers[j])
      invariant TiersFrom(e.tiers, order.value, j, slots, lm.Values()) == ReadEaf(e)
    {
      var err;
      err, slots := ReadTier(lm, e.tiers, order.value[j], slots);
      if err.Some? {
        return Err(err.value);
      }
      j := j + 1;
    }
    return Ok(lm);
  }

  /// `for idx, eaftier in enumerate(root.findall('./TIER'))`: one empty
  /// interval tier per TIER, added in document order.
  method NewManager(tiers: seq<EafTier>) returns (lm: LabelManager)
    ensures fresh(lm) && lm.Valid() && lm.Distinct()
    ensures forall j :: 0 <= j < |lm.tiers| ==> fresh(lm.tiers[j])
    ensures lm.Values() == NewTiers(tiers)
  {
    lm := new LabelManager();
    var i := 0;
    while i < |tiers|
      invariant i <= |tiers| && fresh(lm) && lm.Valid() && lm.Distinct()
      invariant |lm.tiers| == i && forall j :: 0 <= j < i ==> fresh(lm.tiers[j])
      invariant lm.Values() == NewTiers(tiers)[..i]
    {
      var t := new Tier(IntervalTier, 0.0, Unbounded, tiers[i].id, 0);
      Append(lm, t);
      i := i + 1;
    }
  }
}
