/**
 * The documented order of a rollout, zones in ascending order and ordinals descending within each, and its cut into
 * batches; and why sorting by ordinal and grouping by zone finds the head of it.
 */
module RolloutOrder {
  import opened Seqs
  import opened Sorting
  import opened Pods
  import opened ZauController

  function ZoneName(zoneOf: map<PodName, Zone>, p: Pod): Zone {
    if p.name in zoneOf then zoneOf[p.name] else ""
  }

  function InSequence(zoneOf: map<PodName, Zone>): (Pod, Pod) -> bool {
    (p: Pod, q: Pod) =>
      Less(ZoneName(zoneOf, p), ZoneName(zoneOf, q))
      || (ZoneName(zoneOf, p) == ZoneName(zoneOf, q) && p.ordinal > q.ordinal)
  }

  /** The documented order. */
  function Canon(pods: seq<Pod>, zoneOf: map<PodName, Zone>): seq<Pod> {
    Sort(pods, InSequence(zoneOf))
  }

  function Lead(s: seq<Pod>, zoneOf: map<PodName, Zone>, z: Zone): nat {
    if s == [] || ZoneName(zoneOf, s[0]) != z then 0 else 1 + Lead(s[1..], zoneOf, z)
  }

  lemma {:induction false} LeadBounds(s: seq<Pod>, zoneOf: map<PodName, Zone>, z: Zone)
    ensures Lead(s, zoneOf, z) <= |s|
    ensures forall i :: 0 <= i < Lead(s, zoneOf, z) ==> ZoneName(zoneOf, s[i]) == z
    ensures Lead(s, zoneOf, z) < |s| ==> ZoneName(zoneOf, s[Lead(s, zoneOf, z)]) != z
  {
    if s != [] && ZoneName(zoneOf, s[0]) == z {
      LeadBounds(s[1..], zoneOf, z);
    }
  }

  /** Limits for the batches of a rollout, by step. */
  type Caps = nat -> int

  ghost predicate Positive(caps: Caps) {
    forall step :: caps(step) >= 1
  }

  /** The size of the batch that the documented sequence starts with. */
  function HeadSize(s: seq<Pod>, zoneOf: map<PodName, Zone>, cap: int): (n: nat)
    requires s != [] && cap >= 1
    ensures 1 <= n <= |s|
  {
    LeadBounds(s, zoneOf, ZoneName(zoneOf, s[0]));
    Min(Lead(s, zoneOf, ZoneName(zoneOf, s[0])), cap)
  }

  /** The documented sequence cut into batches: each stays in one zone and takes as much of it as the ramp allows. */
  ghost function Cut(s: seq<Pod>, zoneOf: map<PodName, Zone>, caps: Caps, step: nat): seq<seq<Pod>>
    requires Positive(caps)
    decreases |s|
  {
    if s == [] then []
    else
      var n := HeadSize(s, zoneOf, caps(step));
      [s[..n]] + Cut(s[n..], zoneOf, caps, step + 1)
  }

  function Flatten<T>(batches: seq<seq<T>>): seq<T> {
    if batches == [] then [] else batches[0] + Flatten(batches[1..])
  }

  /** The batches are the sequence, cut: nothing is lost, repeated or moved. */
  lemma {:induction false} CutIsWhole(s: seq<Pod>, zoneOf: map<PodName, Zone>, caps: Caps, step: nat)
    requires Positive(caps)
    ensures Flatten(Cut(s, zoneOf, caps, step)) == s
    decreases |s|
  {
    if s != [] {
      var n := HeadSize(s, zoneOf, caps(step));
      CutIsWhole(s[n..], zoneOf, caps, step + 1);
      assert Cut(s, zoneOf, caps, step)[1..] == Cut(s[n..], zoneOf, caps, step + 1);
      assert s == s[..n] + s[n..];
    }
  }

  /** A batch lies in one zone, within the limit, and falls short of the limit only by finishing its zone. */
  ghost predicate IsBatch(batch: seq<Pod>, after: seq<Pod>, zoneOf: map<PodName, Zone>, cap: int) {
    && 1 <= |batch| <= cap
    && (forall p :: p in batch ==> ZoneName(zoneOf, p) == ZoneName(zoneOf, batch[0]))
    && (|batch| < cap && after != [] ==> ZoneName(zoneOf, after[0]) != ZoneName(zoneOf, batch[0]))
  }

  lemma HeadIsBatch(s: seq<Pod>, zoneOf: map<PodName, Zone>, cap: int)
    requires s != [] && cap >= 1
    ensures var n := HeadSize(s, zoneOf, cap); IsBatch(s[..n], s[n..], zoneOf, cap)
  {
    LeadBounds(s, zoneOf, ZoneName(zoneOf, s[0]));
  }

  lemma HeadOfCut(s: seq<Pod>, zoneOf: map<PodName, Zone>, caps: Caps, step: nat)
    requires Positive(caps) && s != []
    ensures var n, cut := HeadSize(s, zoneOf, caps(step)), Cut(s, zoneOf, caps, step);
            && cut == [s[..n]] + Cut(s[n..], zoneOf, caps, step + 1)
            && Flatten(cut[1..]) == s[n..]
  {
    var n := HeadSize(s, zoneOf, caps(step));
    CutIsWhole(s[n..], zoneOf, caps, step + 1);
    assert Cut(s, zoneOf, caps, step)[1..] == Cut(s[n..], zoneOf, caps, step + 1);
  }

  lemma {:induction false} BatchInCut(s: seq<Pod>, zoneOf: map<PodName, Zone>, caps: Caps, step: nat, i: nat,
                                      batch: seq<Pod>, after: seq<Pod>)
    requires Positive(caps) && i < |Cut(s, zoneOf, caps, step)|
    requires batch == Cut(s, zoneOf, caps, step)[i] && after == Flatten(Cut(s, zoneOf, caps, step)[i + 1..])
    ensures IsBatch(batch, after, zoneOf, caps(step + i))
    decreases |s|
  {
    var n := HeadSize(s, zoneOf, caps(step));
    HeadOfCut(s, zoneOf, caps, step);
    if i == 0 {
      HeadIsBatch(s, zoneOf, caps(step));
    } else {
      var cut, tail := Cut(s, zoneOf, caps, step), Cut(s[n..], zoneOf, caps, step + 1);
      assert cut[i + 1..] == tail[i..];
      BatchInCut(s[n..], zoneOf, caps, step + 1, i - 1, batch, after);
    }
  }

  /** So it is for every batch of the cut, with the limit of its own step. */
  lemma CutBatch(s: seq<Pod>, zoneOf: map<PodName, Zone>, caps: Caps, step: nat, i: nat)
    requires Positive(caps) && i < |Cut(s, zoneOf, caps, step)|
    ensures var cut := Cut(s, zoneOf, caps, step);
            IsBatch(cut[i], Flatten(cut[i + 1..]), zoneOf, caps(step + i))
  {
    var cut := Cut(s, zoneOf, caps, step);
    BatchInCut(s, zoneOf, caps, step, i, cut[i], Flatten(cut[i + 1..]));
  }

  // ---------- the order is total ----------

  ghost predicate DistinctOrdinals(pods: seq<Pod>) {
    forall i, j :: 0 <= i < j < |pods| ==> pods[i].ordinal != pods[j].ordinal
  }

  lemma SequenceIsWeakOrder(zoneOf: map<PodName, Zone>)
    ensures WeakOrder(InSequence(zoneOf))
  {
    var before := InSequence(zoneOf);
    forall x, y ensures before(x, y) ==> !before(y, x) {
      LessIsStrict(ZoneName(zoneOf, x), ZoneName(zoneOf, y));
    }
    forall x, y, z | !before(y, x) && !before(z, y) ensures !before(z, x) {
      SequenceTransitive(ZoneName(zoneOf, x), ZoneName(zoneOf, y), ZoneName(zoneOf, z));
    }
  }

  lemma SequenceTransitive(a: string, b: string, c: string)
    requires !Less(b, a) && !Less(c, b)
    ensures !Less(c, a) && (a == c ==> a == b)
  {}

  lemma OrdinalIsWeakOrder()
    ensures WeakOrder(HigherOrdinal)
  {}

  lemma SequenceIsTotal(pods: seq<Pod>, zoneOf: map<PodName, Zone>, x: Pod, y: Pod)
    requires DistinctOrdinals(pods) && x in pods && y in pods && x != y
    ensures InSequence(zoneOf)(x, y) || InSequence(zoneOf)(y, x)
    ensures x.ordinal != y.ordinal
  {
    var i :| 0 <= i < |pods| && pods[i] == x;
    var j :| 0 <= j < |pods| && pods[j] == y;
    LessIsStrict(ZoneName(zoneOf, x), ZoneName(zoneOf, y));
  }

  /** Any orderly arrangement of the pods is the canonical one. */
  lemma CanonIsUnique(pods: seq<Pod>, zoneOf: map<PodName, Zone>, s: seq<Pod>)
    requires DistinctOrdinals(pods) && multiset(s) == multiset(pods) && Ordered(s, InSequence(zoneOf))
    ensures s == Canon(pods, zoneOf)
  {
    SequenceIsWeakOrder(zoneOf);
    SortSorts(pods, InSequence(zoneOf));
    forall x, y | x in s && y in s && x != y ensures InSequence(zoneOf)(x, y) || InSequence(zoneOf)(y, x) {
      assert x in multiset(pods) && y in multiset(pods);
      SequenceIsTotal(pods, zoneOf, x, y);
    }
    OrderIsUnique(s, Canon(pods, zoneOf), InSequence(zoneOf));
  }

  lemma CanonIsOrdered(pods: seq<Pod>, zoneOf: map<PodName, Zone>)
    ensures Ordered(Canon(pods, zoneOf), InSequence(zoneOf))
    ensures multiset(Canon(pods, zoneOf)) == multiset(pods) && |Canon(pods, zoneOf)| == |pods|
    ensures forall p :: p in Canon(pods, zoneOf) <==> p in pods
  {
    SequenceIsWeakOrder(zoneOf);
    SortSorts(pods, InSequence(zoneOf));
  }

  /** The documented order: zones in lexical order, and within a zone from the highest ordinal down. */
  lemma CanonAscends(pods: seq<Pod>, zoneOf: map<PodName, Zone>, i: nat, j: nat)
    requires (forall p :: p in pods ==> p.name in zoneOf) && i < j < |Canon(pods, zoneOf)|
    ensures var p, q := Canon(pods, zoneOf)[i], Canon(pods, zoneOf)[j];
            && p in pods && q in pods
            && (Precedes(zoneOf[p.name], zoneOf[q.name])
                || (zoneOf[p.name] == zoneOf[q.name] && p.ordinal >= q.ordinal))
  {
    CanonIsOrdered(pods, zoneOf);
    var p, q := Canon(pods, zoneOf)[i], Canon(pods, zoneOf)[j];
    assert p in Canon(pods, zoneOf) && q in Canon(pods, zoneOf);
    assert !InSequence(zoneOf)(q, p);
    LessIsStrict(zoneOf[p.name], zoneOf[q.name]);
    LessIsLexical(zoneOf[p.name], zoneOf[q.name]);
  }

  lemma SameFilter<T(!new)>(s: seq<T>, t: seq<T>, keep: T -> bool)
    requires multiset(s) == multiset(t)
    ensures multiset(Filter(s, keep)) == multiset(Filter(t, keep))
  {
    forall x ensures multiset(Filter(s, keep))[x] == multiset(Filter(t, keep))[x] {
      FilterCounts(s, keep, x);
      FilterCounts(t, keep, x);
    }
  }

  function Elsewhere(zoneOf: map<PodName, Zone>, z: Zone): Pod -> bool {
    (p: Pod) => !(p.name in zoneOf && zoneOf[p.name] == z)
  }

  lemma SameZones(pods: seq<Pod>, zoneOf: map<PodName, Zone>)
    requires pods != [] && forall p :: p in pods ==> p.name in zoneOf
    ensures ZonesOf(Sort(pods, HigherOrdinal), zoneOf) == ZonesOf(pods, zoneOf) != {}
  {
    OrdinalIsWeakOrder();
    SortSorts(pods, HigherOrdinal);
    assert pods[0] in pods;
    assert zoneOf[pods[0].name] in ZonesOf(pods, zoneOf);
  }

  lemma CanonSplits(pods: seq<Pod>, zoneOf: map<PodName, Zone>, first: Zone)
    requires DistinctOrdinals(pods) && forall p :: p in pods ==> p.name in zoneOf
    requires IsFirstZone(first, ZonesOf(Sort(pods, HigherOrdinal), zoneOf))
    ensures var sorted := Sort(pods, HigherOrdinal);
            Canon(pods, zoneOf) == Filter(sorted, InZone(zoneOf, first))
              + Canon(Filter(sorted, Elsewhere(zoneOf, first)), zoneOf)
  {
    OrdinalIsWeakOrder();
    SortSorts(pods, HigherOrdinal);
    var sorted := Sort(pods, HigherOrdinal);
    PoolThenRest(sorted, zoneOf, first);
    FilterSplits(sorted, InZone(zoneOf, first), Elsewhere(zoneOf, first));
    CanonIsOrdered(Filter(sorted, Elsewhere(zoneOf, first)), zoneOf);
    CanonIsUnique(pods, zoneOf, Filter(sorted, InZone(zoneOf, first))
                  + Canon(Filter(sorted, Elsewhere(zoneOf, first)), zoneOf));
  }

  lemma LeadIsPool(sorted: seq<Pod>, zoneOf: map<PodName, Zone>, first: Zone)
    requires forall p :: p in sorted ==> p.name in zoneOf
    ensures var pool := Filter(sorted, InZone(zoneOf, first));
            Lead(pool + Canon(Filter(sorted, Elsewhere(zoneOf, first)), zoneOf), zoneOf, first) == |pool|
  {
    var pool, rest := Filter(sorted, InZone(zoneOf, first)), Filter(sorted, Elsewhere(zoneOf, first));
    FilterMembers(sorted, InZone(zoneOf, first));
    FilterMembers(sorted, Elsewhere(zoneOf, first));
    CanonIsOrdered(rest, zoneOf);
    var s := pool + Canon(rest, zoneOf);
    forall i | 0 <= i < |pool| ensures ZoneName(zoneOf, s[i]) == first { assert pool[i] in pool; }
    if |pool| < |s| {
      assert s[|pool|] in Canon(rest, zoneOf);
    }
    LeadIs(s, zoneOf, first, |pool|);
  }

  /**
   * Sorting the old pods by ordinal and grouping them by zone yields the head of the canonical order: the pool of the
   * first zone is exactly its pods, highest ordinal first, and everything else comes after it.
   */
  lemma FirstPoolLeads(oldPods: seq<Pod>, zoneOf: map<PodName, Zone>)
    requires DistinctOrdinals(oldPods) && oldPods != [] && forall p :: p in oldPods ==> p.name in zoneOf
    ensures ZonesOf(Sort(oldPods, HigherOrdinal), zoneOf) != {}
    ensures var sorted := Sort(oldPods, HigherOrdinal);
            var pool := Group(sorted, zoneOf)[FirstZone(ZonesOf(sorted, zoneOf))];
            var canon := Canon(oldPods, zoneOf);
            pool <= canon && pool != [] && Lead(canon, zoneOf, ZoneName(zoneOf, canon[0])) == |pool|
  {
    SameZones(oldPods, zoneOf);
    OrdinalIsWeakOrder();
    SortSorts(oldPods, HigherOrdinal);
    var sorted := Sort(oldPods, HigherOrdinal);
    var first := FirstZone(ZonesOf(sorted, zoneOf));
    CanonSplits(oldPods, zoneOf, first);
    LeadIsPool(sorted, zoneOf, first);
    GroupsPartition(sorted, zoneOf);
    assert Group(sorted, zoneOf)[first][0] in Group(sorted, zoneOf)[first];
  }

  lemma {:induction false} LeadIs(s: seq<Pod>, zoneOf: map<PodName, Zone>, z: Zone, n: nat)
    requires n <= |s|
    requires forall i :: 0 <= i < n ==> ZoneName(zoneOf, s[i]) == z
    requires n < |s| ==> ZoneName(zoneOf, s[n]) != z
    ensures Lead(s, zoneOf, z) == n
  {
    if n > 0 {
      LeadIs(s[1..], zoneOf, z, n - 1);
    }
  }

  lemma PoolThenRest(sorted: seq<Pod>, zoneOf: map<PodName, Zone>, first: Zone)
    requires Ordered(sorted, HigherOrdinal) && IsFirstZone(first, ZonesOf(sorted, zoneOf))
    requires forall p :: p in sorted ==> p.name in zoneOf
    ensures Ordered(Filter(sorted, InZone(zoneOf, first)) + Canon(Filter(sorted, Elsewhere(zoneOf, first)), zoneOf),
                    InSequence(zoneOf))
  {
    var pool, rest := Filter(sorted, InZone(zoneOf, first)), Filter(sorted, Elsewhere(zoneOf, first));
    var tail, before := Canon(rest, zoneOf), InSequence(zoneOf);
    FilterMembers(sorted, InZone(zoneOf, first));
    FilterMembers(sorted, Elsewhere(zoneOf, first));
    FilterKeepsOrder(sorted, InZone(zoneOf, first), (p: Pod, q: Pod) => !HigherOrdinal(q, p));
    CanonIsOrdered(rest, zoneOf);
    LessIsStrict(first, first);
    forall p, q | p in pool && q in pool && !HigherOrdinal(q, p) ensures !before(q, p) {}
    forall p, q | p in pool && q in tail ensures !before(q, p) {
      assert q in sorted && zoneOf[q.name] in ZonesOf(sorted, zoneOf);
    }
    var s := pool + tail;
    forall i, j | 0 <= i < j < |s| ensures !before(s[j], s[i]) {
      if j < |pool| {
        assert s[i] == pool[i] && s[j] == pool[j] && pool[i] in pool && pool[j] in pool;
      } else if i < |pool| {
        assert s[i] in pool && s[j] in tail;
      } else {
        assert s[i] == tail[i - |pool|] && s[j] == tail[j - |pool|];
      }
    }
  }
}
