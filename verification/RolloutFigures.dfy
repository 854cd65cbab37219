/** The two figures of the README: ten pods in each of two zones, at most four at a time, with the ordinals drawn. */
module RolloutFigures {
  import opened Seqs
  import opened Sorting
  import opened Pods
  import opened ZauController
  import opened RampArithmetic
  import opened RolloutOrder
  import opened CleanRollout
  import ExpectedPods

  // ---------- the pods drawn ----------

  /** The ordinals found in a zone are these. */
  ghost predicate HasOrdinals(pods: seq<Pod>, zoneOf: map<PodName, Zone>, z: Zone, ordinals: seq<int>) {
    && (forall n :: n in ordinals ==> exists p :: p in pods && ZoneName(zoneOf, p) == z && p.ordinal == n)
    && forall p :: p in pods && ZoneName(zoneOf, p) == z ==> p.ordinal in ordinals
  }

  /** All pods are in the two zones of the figures, with these ordinals. */
  ghost predicate Drawn(pods: seq<Pod>, zoneOf: map<PodName, Zone>, first: seq<int>, second: seq<int>) {
    && (forall p :: p in pods ==> ZoneName(zoneOf, p) == "zone-1" || ZoneName(zoneOf, p) == "zone-2")
    && HasOrdinals(pods, zoneOf, "zone-1", first) && HasOrdinals(pods, zoneOf, "zone-2", second)
  }

  function Ordinals(pods: seq<Pod>): seq<int> {
    seq(|pods|, i requires 0 <= i < |pods| => pods[i].ordinal)
  }

  function AllOrdinals(batches: seq<seq<Pod>>): seq<seq<int>> {
    seq(|batches|, i requires 0 <= i < |batches| => Ordinals(batches[i]))
  }

  /** The pods of a zone, listed by the given ordinals. */
  lemma {:induction false} ListPods(pods: seq<Pod>, zoneOf: map<PodName, Zone>, z: Zone, ordinals: seq<int>)
    returns (a: seq<Pod>)
    requires forall n :: n in ordinals ==> exists p :: p in pods && ZoneName(zoneOf, p) == z && p.ordinal == n
    ensures Ordinals(a) == ordinals && AllIn(a, zoneOf, z) && forall p :: p in a ==> p in pods
  {
    if ordinals == [] {
      a := [];
    } else {
      assert forall n :: n in ordinals[1..] ==> n in ordinals;
      var rest := ListPods(pods, zoneOf, z, ordinals[1..]);
      assert ordinals[0] in ordinals;
      var p :| p in pods && ZoneName(zoneOf, p) == z && p.ordinal == ordinals[0];
      a := [p] + rest;
      assert Ordinals(a) == [p.ordinal] + Ordinals(rest);
    }
  }

  ghost predicate Falls(ordinals: seq<int>) {
    forall i, j :: 0 <= i < j < |ordinals| ==> ordinals[i] > ordinals[j]
  }

  lemma ZoneNamesAscend()
    ensures Less("zone-1", "zone-2") && !Less("zone-2", "zone-1")
  {
    assert "zone-1"[..5] == "zone-2"[..5] && "zone-1"[5] < "zone-2"[5];
    LessIsLexical("zone-1", "zone-2");
    LessIsStrict("zone-1", "zone-2");
  }

  /** Listed from the highest ordinal down, zone-1 before zone-2, pods are in the documented order. */
  lemma ListedInSequence(a: seq<Pod>, b: seq<Pod>, zoneOf: map<PodName, Zone>)
    requires AllIn(a, zoneOf, "zone-1") && AllIn(b, zoneOf, "zone-2") && Falls(Ordinals(a)) && Falls(Ordinals(b))
    ensures Ordered(a + b, InSequence(zoneOf)) && Distinct(a + b)
  {
    ZoneNamesAscend();
    LessIsStrict("zone-1", "zone-1");
    LessIsStrict("zone-2", "zone-2");
    var s := a + b;
    forall i, j | 0 <= i < j < |s| ensures !InSequence(zoneOf)(s[j], s[i]) && s[i] != s[j] {
      if j < |a| {
        assert Ordinals(a)[i] > Ordinals(a)[j];
      } else if i >= |a| {
        assert Ordinals(b)[i - |a|] > Ordinals(b)[j - |a|];
      }
    }
  }

  lemma IsListed(pods: seq<Pod>, zoneOf: map<PodName, Zone>, z: Zone, a: seq<Pod>, p: Pod)
    requires HasOrdinals(pods, zoneOf, z, Ordinals(a)) && DistinctOrdinals(pods) && forall q :: q in a ==> q in pods
    requires p in pods && ZoneName(zoneOf, p) == z
    ensures p in a
  {
    var i :| 0 <= i < |a| && Ordinals(a)[i] == p.ordinal;
    assert a[i] in a;
    SameOrdinal(pods, p, a[i]);
  }

  lemma AllListed(pods: seq<Pod>, zoneOf: map<PodName, Zone>, a: seq<Pod>, b: seq<Pod>)
    requires Drawn(pods, zoneOf, Ordinals(a), Ordinals(b)) && DistinctOrdinals(pods) && Distinct(pods)
    requires Distinct(a + b) && forall p :: p in a + b ==> p in pods
    ensures multiset(a + b) == multiset(pods)
  {
    forall p | p in pods ensures p in a + b {
      if ZoneName(zoneOf, p) == "zone-1" {
        IsListed(pods, zoneOf, "zone-1", a, p);
      } else {
        IsListed(pods, zoneOf, "zone-2", b, p);
      }
    }
    forall p ensures multiset(a + b)[p] == multiset(pods)[p] {
      DistinctMultiplicity(a + b, p);
      DistinctMultiplicity(pods, p);
    }
  }

  lemma SameOrdinal(pods: seq<Pod>, p: Pod, q: Pod)
    requires DistinctOrdinals(pods) && p in pods && q in pods && p.ordinal == q.ordinal
    ensures p == q
  {
    var i :| 0 <= i < |pods| && pods[i] == p;
    var j :| 0 <= j < |pods| && pods[j] == q;
  }

  /** The documented order of the pods drawn is the one drawn. */
  lemma DrawnOrder(s: System, first: seq<int>, second: seq<int>) returns (a: seq<Pod>, b: seq<Pod>)
    requires Clean(s) && Drawn(OldPods(s), s.zoneOf, first, second) && Falls(first) && Falls(second)
    ensures Canon(OldPods(s), s.zoneOf) == a + b && Ordinals(a) == first && Ordinals(b) == second
    ensures AllIn(a, s.zoneOf, "zone-1") && AllIn(b, s.zoneOf, "zone-2")
  {
    OldPodsAreClean(s);
    a, b := OrderOf(OldPods(s), s.zoneOf, first, second);
  }

  lemma OrderOf(pods: seq<Pod>, zoneOf: map<PodName, Zone>, first: seq<int>, second: seq<int>)
    returns (a: seq<Pod>, b: seq<Pod>)
    requires DistinctOrdinals(pods) && Distinct(pods) && Drawn(pods, zoneOf, first, second)
    requires Falls(first) && Falls(second)
    ensures Canon(pods, zoneOf) == a + b && Ordinals(a) == first && Ordinals(b) == second
    ensures AllIn(a, zoneOf, "zone-1") && AllIn(b, zoneOf, "zone-2")
  {
    a := ListPods(pods, zoneOf, "zone-1", first);
    b := ListPods(pods, zoneOf, "zone-2", second);
    ListedInSequence(a, b, zoneOf);
    AllListed(pods, zoneOf, a, b);
    CanonIsUnique(pods, zoneOf, a + b);
  }

  // ---------- the cut ----------

  /** s taken apart into pieces of the given sizes. */
  function Chop<T>(s: seq<T>, sizes: seq<nat>): seq<seq<T>> {
    if sizes == [] then []
    else
      var n := Min(|s|, sizes[0]);
      [s[..n]] + Chop(s[n..], sizes[1..])
  }

  /** The sizes of the batches that a ramp makes of n pods of one zone, from a step on. */
  ghost predicate Fits(n: nat, caps: Caps, step: nat, sizes: seq<nat>) {
    if n == 0 then sizes == []
    else sizes != [] && 1 <= sizes[0] == Min(n, caps(step)) && Fits(n - sizes[0], caps, step + 1, sizes[1..])
  }

  ghost predicate AllIn(pods: seq<Pod>, zoneOf: map<PodName, Zone>, z: Zone) {
    forall i :: 0 <= i < |pods| ==> ZoneName(zoneOf, pods[i]) == z
  }

  lemma NextBatch(pool: seq<Pod>, rest: seq<Pod>, zoneOf: map<PodName, Zone>, z: Zone, caps: Caps, step: nat)
    requires Positive(caps) && pool != [] && AllIn(pool, zoneOf, z)
    requires rest != [] ==> ZoneName(zoneOf, rest[0]) != z
    ensures var n := Min(|pool|, caps(step));
            Cut(pool + rest, zoneOf, caps, step) == [pool[..n]] + Cut(pool[n..] + rest, zoneOf, caps, step + 1)
  {
    LeadIs(pool + rest, zoneOf, z, |pool|);
    var n := Min(|pool|, caps(step));
    assert (pool + rest)[..n] == pool[..n];
    assert (pool + rest)[n..] == pool[n..] + rest;
  }

  /** The pods of a zone are cut into batches of these sizes before those of the next, whose batches are more. */
  lemma {:induction false} PoolIsChopped(pool: seq<Pod>, rest: seq<Pod>, zoneOf: map<PodName, Zone>, z: Zone,
                                         caps: Caps, step: nat, end: nat, sizes: seq<nat>,
                                         cut: seq<seq<Pod>>, more: seq<seq<Pod>>)
    requires Positive(caps) && AllIn(pool, zoneOf, z) && Fits(|pool|, caps, step, sizes) && end == step + |sizes|
    requires rest != [] ==> ZoneName(zoneOf, rest[0]) != z
    requires cut == Cut(pool + rest, zoneOf, caps, step) && more == Cut(rest, zoneOf, caps, end)
    ensures cut == Chop(pool, sizes) + more
    decreases |sizes|
  {
    if pool == [] {
      assert pool + rest == rest;
    } else {
      var n := sizes[0];
      NextBatch(pool, rest, zoneOf, z, caps, step);
      PoolIsChopped(pool[n..], rest, zoneOf, z, caps, step + 1, end, sizes[1..],
                    Cut(pool[n..] + rest, zoneOf, caps, step + 1), more);
      ChopStep(pool, sizes, n);
      Join([pool[..n]], Chop(pool[n..], sizes[1..]), more);
    }
  }

  lemma ChopStep(s: seq<Pod>, sizes: seq<nat>, n: nat)
    requires sizes != [] && n == sizes[0] <= |s|
    ensures Chop(s, sizes) == [s[..n]] + Chop(s[n..], sizes[1..])
  {}

  lemma Join<T>(a: seq<T>, b: seq<T>, c: seq<T>)
    ensures a + (b + c) == a + b + c
  {}

  lemma TwoPools(a: seq<Pod>, b: seq<Pod>, zoneOf: map<PodName, Zone>, y: Zone, z: Zone, caps: Caps,
                 first: seq<nat>, second: seq<nat>)
    requires Positive(caps) && AllIn(a, zoneOf, y) && AllIn(b, zoneOf, z) && y != z
    requires Fits(|a|, caps, 0, first) && Fits(|b|, caps, |first|, second)
    ensures Cut(a + b, zoneOf, caps, 0) == Chop(a, first) + Chop(b, second)
  {
    var cut, more := Cut(a + b, zoneOf, caps, 0), Cut(b, zoneOf, caps, |first|);
    PoolIsChopped(a, b, zoneOf, y, caps, 0, |first|, first, cut, more);
    assert b + [] == b;
    PoolIsChopped(b, [], zoneOf, z, caps, |first|, |first| + |second|, second, more, []);
  }

  lemma FlatSizes(caps: Caps, step: nat)
    requires caps(step) == caps(step + 1) == caps(step + 2) == 4
    ensures Fits(10, caps, step, [4, 4, 2])
  {
    assert [4, 4, 2][1..] == [4, 2] && [4, 2][1..] == [2] && [2][1..] == [];
    assert Fits(2, caps, step + 2, [2]);
    assert Fits(6, caps, step + 1, [4, 2]);
  }

  lemma DoublingSizes(caps: Caps)
    requires caps(0) == 1 && caps(1) == 2 && caps(2) == caps(3) == 4
    ensures Fits(10, caps, 0, [1, 2, 4, 3])
  {
    assert [1, 2, 4, 3][1..] == [2, 4, 3] && [2, 4, 3][1..] == [4, 3] && [4, 3][1..] == [3] && [3][1..] == [];
    assert Fits(3, caps, 3, [3]);
    assert Fits(7, caps, 2, [4, 3]);
    assert Fits(9, caps, 1, [2, 4, 3]);
  }

  lemma DoublingLimits()
    ensures Cap(4, 0, 2.0) == 1 && Cap(4, 1, 2.0) == 2
    ensures forall k: nat :: k >= 2 ==> Cap(4, k, 2.0) == 4
  {
    assert Pow(2.0, 0) == 1.0;
    assert Pow(2.0, 1) == 2.0 * Pow(2.0, 0);
    forall k: nat | k >= 2 ensures Cap(4, k, 2.0) == 4 {
      assert CeilLog2(2) == 1 + CeilLog2(1);
      DoublingIsShort(4, k);
    }
  }

  lemma {:induction false} ChoppedOrdinals(a: seq<Pod>, sizes: seq<nat>)
    ensures AllOrdinals(Chop(a, sizes)) == Chop(Ordinals(a), sizes)
  {
    if sizes != [] {
      var n := Min(|a|, sizes[0]);
      ChoppedOrdinals(a[n..], sizes[1..]);
      assert Ordinals(a[..n]) == Ordinals(a)[..n] && Ordinals(a[n..]) == Ordinals(a)[n..];
      OrdinalsOfNext(a[..n], Chop(a[n..], sizes[1..]));
    }
  }

  lemma OrdinalsOfNext(head: seq<Pod>, tail: seq<seq<Pod>>)
    ensures AllOrdinals([head] + tail) == [Ordinals(head)] + AllOrdinals(tail)
  {}

  function Sizes<T>(parts: seq<seq<T>>): seq<nat> {
    seq(|parts|, i requires 0 <= i < |parts| => |parts[i]|)
  }

  /** Parts put together are taken apart again. */
  lemma {:induction false} ChopFlattened(parts: seq<seq<int>>, whole: seq<int>, sizes: seq<nat>)
    requires whole == Flatten(parts) && sizes == Sizes(parts)
    ensures Chop(whole, sizes) == parts
  {
    if parts != [] {
      assert whole[..|parts[0]|] == parts[0] && whole[|parts[0]|..] == Flatten(parts[1..]);
      ChopFlattened(parts[1..], Flatten(parts[1..]), sizes[1..]);
    }
  }

  lemma RunIsChopped(s: System, a: seq<Pod>, b: seq<Pod>, first: seq<nat>, second: seq<nat>)
    requires Clean(s) && Step(s) == 0 && Canon(OldPods(s), s.zoneOf) == a + b && Positive(Ramp(s))
    requires AllIn(a, s.zoneOf, "zone-1") && AllIn(b, s.zoneOf, "zone-2")
    requires Fits(|a|, Ramp(s), 0, first) && Fits(|b|, Ramp(s), |first|, second)
    ensures Run(s) == Chop(a, first) + Chop(b, second)
  {
    RunIsRampCut(s);
    TwoPools(a, b, s.zoneOf, "zone-1", "zone-2", Ramp(s), first, second);
  }

  lemma BothRows(a: seq<Pod>, b: seq<Pod>, run: seq<seq<Pod>>, first: seq<seq<int>>, second: seq<seq<int>>)
    requires Ordinals(a) == Flatten(first) && Ordinals(b) == Flatten(second)
    requires run == Chop(a, Sizes(first)) + Chop(b, Sizes(second))
    ensures AllOrdinals(run) == first + second
  {
    OneRow(a, first);
    OneRow(b, second);
    OrdinalsOfJoin(Chop(a, Sizes(first)), Chop(b, Sizes(second)));
  }

  lemma OneRow(a: seq<Pod>, row: seq<seq<int>>)
    requires Ordinals(a) == Flatten(row)
    ensures AllOrdinals(Chop(a, Sizes(row))) == row
  {
    ChoppedOrdinals(a, Sizes(row));
    ChopFlattened(row, Flatten(row), Sizes(row));
  }

  lemma OrdinalsOfJoin(x: seq<seq<Pod>>, y: seq<seq<Pod>>)
    ensures AllOrdinals(x + y) == AllOrdinals(x) + AllOrdinals(y)
  {}

  /** A rollout whose ramp fits the rows goes as these are drawn. */
  lemma GoesAsDrawn(s: System, first: seq<seq<int>>, second: seq<seq<int>>, all: seq<int>, all': seq<int>)
    requires all == Flatten(first) && all' == Flatten(second) && Falls(all) && Falls(all')
    requires Clean(s) && Step(s) == 0 && Drawn(OldPods(s), s.zoneOf, all, all') && Positive(Ramp(s))
    requires Fits(|all|, Ramp(s), 0, Sizes(first)) && Fits(|all'|, Ramp(s), |first|, Sizes(second))
    ensures AllOrdinals(Run(s)) == first + second
  {
    var a, b := DrawnOrder(s, all, all');
    assert |Ordinals(a)| == |a| && |Ordinals(b)| == |b|;
    RunIsChopped(s, a, b, Sizes(first), Sizes(second));
    BothRows(a, b, Run(s), first, second);
  }

  lemma FlatRow(a: seq<int>, b: seq<int>, c: seq<int>)
    ensures Flatten([a, b, c]) == a + b + c && Sizes([a, b, c]) == [|a|, |b|, |c|]
  {
    assert [a, b, c][1..] == [b, c] && [b, c][1..] == [c] && [c][1..] == [];
    assert Flatten([c]) == c && Flatten([b, c]) == b + c;
  }

  lemma DoublingRow(a: seq<int>, b: seq<int>, c: seq<int>, d: seq<int>)
    ensures Flatten([a, b, c, d]) == a + b + c + d && Sizes([a, b, c, d]) == [|a|, |b|, |c|, |d|]
  {
    assert [a, b, c, d][1..] == [b, c, d];
    FlatRow(b, c, d);
  }

  lemma FlatRows(row: seq<seq<int>>, a: seq<int>, b: seq<int>, c: seq<int>)
    requires row == [a, b, c] && Falls(a + b + c) && |a| == |b| == 4 && |c| == 2
    ensures Falls(Flatten(row)) && |Flatten(row)| == 10 && Sizes(row) == [4, 4, 2]
  {
    FlatRow(a, b, c);
  }

  lemma DoublingRows(row: seq<seq<int>>, a: seq<int>, b: seq<int>, c: seq<int>, d: seq<int>)
    requires row == [a, b, c, d] && Falls(a + b + c + d) && |a| == 1 && |b| == 2 && |c| == 4 && |d| == 3
    ensures Falls(Flatten(row)) && |Flatten(row)| == 10 && Sizes(row) == [1, 2, 4, 3]
  {
    DoublingRow(a, b, c, d);
  }

  lemma DoublingFits(s: System)
    requires Clean(s) && s.spec.factor == Some(2.0) && s.spec.maxUnavailable == ExpectedPods.Amount(4)
    ensures Positive(Ramp(s)) && Fits(10, Ramp(s), 0, [1, 2, 4, 3]) && Fits(10, Ramp(s), 4, [4, 4, 2])
  {
    RampIsPositive(s);
    DoublingLimits();
    DoublingSizes(Ramp(s));
    FlatSizes(Ramp(s), 4);
  }

  lemma FlatFits(s: System)
    requires Clean(s) && s.spec.factor == Some(0.0) && s.spec.maxUnavailable == ExpectedPods.Amount(4)
    ensures Positive(Ramp(s)) && Fits(10, Ramp(s), 0, [4, 4, 2]) && Fits(10, Ramp(s), 3, [4, 4, 2])
  {
    RampIsPositive(s);
    FlatSizes(Ramp(s), 0);
    FlatSizes(Ramp(s), 3);
  }

  /** A rollout that doubles goes as drawn, pod by pod. */
  lemma FirstFigure(s: System, first: seq<seq<int>>, second: seq<seq<int>>)
    requires first == [[28], [27, 22], [19, 17, 15, 10], [8, 6, 1]]
    requires second == [[29, 26, 23, 20], [16, 14, 11, 7], [5, 2]]
    requires Clean(s) && Step(s) == 0 && Drawn(OldPods(s), s.zoneOf, Flatten(first), Flatten(second))
    requires s.spec.factor == Some(2.0) && s.spec.maxUnavailable == ExpectedPods.Amount(4)
    ensures AllOrdinals(Run(s)) == first + second
  {
    DoublingFits(s);
    DoublingRows(first, [28], [27, 22], [19, 17, 15, 10], [8, 6, 1]);
    FlatRows(second, [29, 26, 23, 20], [16, 14, 11, 7], [5, 2]);
    GoesAsDrawn(s, first, second, Flatten(first), Flatten(second));
  }

  /** And so does one without growth. */
  lemma SecondFigure(s: System, first: seq<seq<int>>, second: seq<seq<int>>)
    requires first == [[28, 27, 22, 19], [17, 15, 10, 8], [6, 1]]
    requires second == [[29, 26, 23, 20], [16, 14, 11, 7], [5, 2]]
    requires Clean(s) && Step(s) == 0 && Drawn(OldPods(s), s.zoneOf, Flatten(first), Flatten(second))
    requires s.spec.factor == Some(0.0) && s.spec.maxUnavailable == ExpectedPods.Amount(4)
    ensures AllOrdinals(Run(s)) == first + second
  {
    FlatFits(s);
    FlatRows(first, [28, 27, 22, 19], [17, 15, 10, 8], [6, 1]);
    FlatRows(second, [29, 26, 23, 20], [16, 14, 11, 7], [5, 2]);
    GoesAsDrawn(s, first, second, Flatten(first), Flatten(second));
  }
}
