/**
 * A rollout without trouble is one of the runs with trouble: a clean reconcile and the return of its pods are a legal
 * sequence of single events, deletes, removals, re-creations and recoveries, and end in the same pods.
 */
module RolloutCycle {
  import opened Seqs
  import opened Pods
  import opened ExpectedPods
  import opened ZauController
  import opened CleanRollout
  import RolloutOrder
  import RolloutSafety

  type World = RolloutSafety.World
  type Event = RolloutSafety.Event

  /** The pod at the given revision, as it is right after its creation and once it is ready again. */
  function Created(p: Pod, revision: string): Pod {
    p.(revision := Some(revision), phase := Pending, ready := false)
  }

  function Back(p: Pod, revision: string): Pod {
    p.(revision := Some(revision))
  }

  lemma FindPod(pods: seq<Pod>, p: Pod) returns (i: nat)
    requires p in pods
    ensures i < |pods| && pods[i] == p
  {
    i :| 0 <= i < |pods| && pods[i] == p;
  }

  /** The pods without the one at i, and with another at the end. */
  function Moved(pods: seq<Pod>, i: nat, pod: Pod): seq<Pod>
    requires i < |pods|
  {
    pods[..i] + pods[i + 1..] + [pod]
  }

  /** One pod goes and comes back: deleted, removed, created, ready. */
  lemma OneCycle(w: World, p: Pod, i: nat, revision: string, limit: int, d: World) returns (events: seq<Event>)
    requires DistinctNames(w.pods) && i < |w.pods| && w.pods[i] == p && Up(p) && w.failed == {} && p.name in w.members
    requires w.queue != [] && w.queue[0] == p.name && p.name !in w.queue[1..]
    requires d == w.(pods := Moved(w.pods, i, Back(p, revision)), queue := w.queue[1..])
    ensures RolloutSafety.Legal(w, events, limit) && RolloutSafety.After(w, events, limit) == d
  {
    var e1, e2, e3, e4 := RolloutSafety.DeleteNext, RolloutSafety.Remove(i), RolloutSafety.Create(Created(p, revision)),
                          RolloutSafety.BecomeReady(|w.pods| - 1);
    var w1, w2, w3 := Deleted(w, i, p), Removed(w, i), Returned(w, i, Created(p, revision));
    DeleteStep(w, i, p);
    RemoveStep(w, i, p);
    CreateStep(w, i, p, revision);
    ReadyStep(w, i, p, revision, d);
    events := [e1, e2, e3, e4];
    Four(w, w1, w2, w3, d, e1, e2, e3, e4, limit);
  }

  ghost function Deleted(w: World, i: nat, p: Pod): World
    requires i < |w.pods| && w.queue != []
  {
    w.(pods := w.pods[i := p.(terminating := true)], queue := w.queue[1..])
  }

  ghost function Removed(w: World, i: nat): World
    requires i < |w.pods| && w.queue != []
  {
    w.(pods := w.pods[..i] + w.pods[i + 1..], queue := w.queue[1..])
  }

  ghost function Returned(w: World, i: nat, pod: Pod): World
    requires i < |w.pods| && w.queue != []
  {
    w.(pods := Moved(w.pods, i, pod), queue := w.queue[1..])
  }

  lemma DeleteStep(w: World, i: nat, p: Pod)
    requires DistinctNames(w.pods) && i < |w.pods| && w.pods[i] == p && w.queue != [] && w.queue[0] == p.name
    ensures RolloutSafety.Possible(w, RolloutSafety.DeleteNext)
    ensures RolloutSafety.Next(w, RolloutSafety.DeleteNext) == Deleted(w, i, p)
  {
    assert RolloutSafety.Terminated(w.pods, p.name) == w.pods[i := p.(terminating := true)];
  }

  lemma RemoveStep(w: World, i: nat, p: Pod)
    requires i < |w.pods| && w.queue != []
    ensures RolloutSafety.Possible(Deleted(w, i, p), RolloutSafety.Remove(i))
    ensures RolloutSafety.Next(Deleted(w, i, p), RolloutSafety.Remove(i)) == Removed(w, i)
  {
    var pods := w.pods[i := p.(terminating := true)];
    assert pods[..i] + pods[i + 1..] == w.pods[..i] + w.pods[i + 1..];
  }

  lemma CreateStep(w: World, i: nat, p: Pod, revision: string)
    requires DistinctNames(w.pods) && i < |w.pods| && w.pods[i] == p && Up(p) && w.queue != [] && p.name in w.members
    ensures RolloutSafety.Possible(Removed(w, i), RolloutSafety.Create(Created(p, revision)))
    ensures RolloutSafety.Next(Removed(w, i), RolloutSafety.Create(Created(p, revision)))
            == Returned(w, i, Created(p, revision))
  {
    forall q | q in w.pods[..i] + w.pods[i + 1..] ensures q.name != p.name {
      if q in w.pods[..i] {
        var j := FindPod(w.pods[..i], q);
        assert w.pods[j] == q;
      } else {
        var j := FindPod(w.pods[i + 1..], q);
        assert w.pods[i + 1 + j] == q;
      }
    }
  }

  lemma ReadyStep(w: World, i: nat, p: Pod, revision: string, d: World)
    requires i < |w.pods| && Up(p) && w.queue != [] && p.name !in w.queue[1..] && w.failed == {}
    requires d == w.(pods := Moved(w.pods, i, Back(p, revision)), queue := w.queue[1..])
    ensures RolloutSafety.Possible(Returned(w, i, Created(p, revision)), RolloutSafety.BecomeReady(|w.pods| - 1))
    ensures RolloutSafety.Next(Returned(w, i, Created(p, revision)), RolloutSafety.BecomeReady(|w.pods| - 1)) == d
  {
    var pods := Moved(w.pods, i, Created(p, revision));
    assert pods[|pods| - 1] == Created(p, revision);
    assert pods[|pods| - 1 := Back(p, revision)] == Moved(w.pods, i, Back(p, revision));
  }

  /** Events other than reconciles need no room. */
  lemma Four(w: World, w1: World, w2: World, w3: World, w4: World, e1: Event, e2: Event, e3: Event, e4: Event,
             limit: int)
    requires !e1.Reconcile? && !e2.Reconcile? && !e3.Reconcile? && !e4.Reconcile?
    requires RolloutSafety.Possible(w, e1) && RolloutSafety.Next(w, e1) == w1
    requires RolloutSafety.Possible(w1, e2) && RolloutSafety.Next(w1, e2) == w2
    requires RolloutSafety.Possible(w2, e3) && RolloutSafety.Next(w2, e3) == w3
    requires RolloutSafety.Possible(w3, e4) && RolloutSafety.Next(w3, e4) == w4
    ensures RolloutSafety.Legal(w, [e1, e2, e3, e4], limit)
    ensures RolloutSafety.After(w, [e1, e2, e3, e4], limit) == w4
  {
    var none: seq<Event> := [];
    assert RolloutSafety.Legal(w4, none, limit) && RolloutSafety.After(w4, none, limit) == w4;
    Before(w3, e4, w4, none, limit);
    Before(w2, e3, w3, [e4], limit);
    Before(w1, e2, w2, [e3, e4], limit);
    Before(w, e1, w1, [e2, e3, e4], limit);
    assert [e4] + none == [e4] && [e3] + [e4] == [e3, e4] && [e2] + [e3, e4] == [e2, e3, e4];
    assert [e1] + [e2, e3, e4] == [e1, e2, e3, e4];
  }

  lemma Before(w: World, e: Event, d: World, rest: seq<Event>, limit: int)
    requires RolloutSafety.Enabled(w, e, limit) && RolloutSafety.Next(w, e) == d && RolloutSafety.Legal(d, rest, limit)
    ensures RolloutSafety.Legal(w, [e] + rest, limit)
    ensures RolloutSafety.After(w, [e] + rest, limit) == RolloutSafety.After(d, rest, limit)
  {
    assert ([e] + rest)[1..] == rest;
  }

  lemma {:induction false} Joined(w: World, a: seq<Event>, b: seq<Event>, limit: int)
    requires RolloutSafety.Legal(w, a, limit) && RolloutSafety.Legal(RolloutSafety.After(w, a, limit), b, limit)
    ensures RolloutSafety.Legal(w, a + b, limit)
    ensures RolloutSafety.After(w, a + b, limit) == RolloutSafety.After(RolloutSafety.After(w, a, limit), b, limit)
    decreases a
  {
    if a == [] {
      assert a + b == b;
    } else {
      assert (a + b)[1..] == a[1..] + b;
      Joined(RolloutSafety.Next(w, a[0]), a[1..], b, limit);
    }
  }

  // ---------- a whole batch ----------

  function AllBack(batch: seq<Pod>, revision: string): seq<Pod> {
    seq(|batch|, i requires 0 <= i < |batch| => Back(batch[i], revision))
  }

  /** The pods of the batch are up and about to be deleted, and no pod has failed. */
  ghost predicate Waiting(w: World, batch: seq<Pod>) {
    && DistinctNames(w.pods) && w.failed == {} && w.queue == RolloutSafety.NamesOf(batch) && DistinctNames(batch)
    && forall p :: p in batch ==> p in w.pods && Up(p) && p.name in w.members
  }

  lemma FirstWaits(w: World, batch: seq<Pod>)
    requires Waiting(w, batch) && batch != []
    ensures var p := batch[0];
            p in w.pods && Up(p) && p.name in w.members && w.queue != [] && w.queue[0] == p.name
            && p.name !in w.queue[1..]
  {
    assert batch[0] in batch;
    QueueAfter(w.queue, batch);
  }

  lemma RestWaits(w: World, batch: seq<Pod>, i: nat, revision: string, next: World)
    requires Waiting(w, batch) && batch != [] && w.queue != [] && i < |w.pods| && w.pods[i] == batch[0]
    requires next == w.(pods := Moved(w.pods, i, Back(batch[0], revision)), queue := w.queue[1..])
    ensures Waiting(next, batch[1..])
    ensures multiset(next.pods) + multiset{batch[0]} == multiset(w.pods) + multiset{Back(batch[0], revision)}
  {
    QueueAfter(w.queue, batch);
    forall q | q in batch[1..] ensures q in batch && q.name != batch[0].name {
      var j := FindPod(batch[1..], q);
      assert batch[1 + j] == q;
    }
    MovedPods(w.pods, i, batch[0], Back(batch[0], revision), next.pods, batch[1..]);
  }

  /** What is true of the first and of the rest is true of all. */
  lemma Tally(batch: seq<Pod>, revision: string, before: seq<Pod>, middle: seq<Pod>, after: seq<Pod>)
    requires batch != []
    requires multiset(middle) + multiset{batch[0]} == multiset(before) + multiset{Back(batch[0], revision)}
    requires multiset(after) + multiset(batch[1..]) == multiset(middle) + multiset(AllBack(batch[1..], revision))
    ensures multiset(after) + multiset(batch) == multiset(before) + multiset(AllBack(batch, revision))
  {
    var first, back := multiset{batch[0]}, multiset{Back(batch[0], revision)};
    assert multiset(batch) == first + multiset(batch[1..]) by {
      assert batch == [batch[0]] + batch[1..];
    }
    assert multiset(AllBack(batch, revision)) == back + multiset(AllBack(batch[1..], revision)) by {
      assert AllBack(batch, revision) == [Back(batch[0], revision)] + AllBack(batch[1..], revision);
    }
    Combine(multiset(before), multiset(middle), multiset(after), first, multiset(batch[1..]), back,
            multiset(AllBack(batch[1..], revision)));
  }

  lemma Combine<T(!new)>(before: multiset<T>, middle: multiset<T>, after: multiset<T>, first: multiset<T>,
                         rest: multiset<T>, back: multiset<T>, restBack: multiset<T>)
    requires middle + first == before + back && after + rest == middle + restBack
    ensures after + (first + rest) == before + (back + restBack)
  {
    forall x ensures (after + (first + rest))[x] == (before + (back + restBack))[x] {
      assert (middle + first)[x] == (before + back)[x] && (after + rest)[x] == (middle + restBack)[x];
    }
  }

  /** The pods of the batch go and come back, one after the other. */
  lemma {:induction false} BatchCycles(w: World, batch: seq<Pod>, revision: string, limit: int)
    returns (events: seq<Event>, d: World)
    requires Waiting(w, batch)
    ensures RolloutSafety.Legal(w, events, limit) && RolloutSafety.After(w, events, limit) == d
    ensures d == w.(pods := d.pods, queue := [])
    ensures multiset(d.pods) + multiset(batch) == multiset(w.pods) + multiset(AllBack(batch, revision))
    decreases |batch|, 1
  {
    if batch == [] {
      events, d := [], w;
    } else {
      FirstWaits(w, batch);
      var i := FindPod(w.pods, batch[0]);
      var next := w.(pods := Moved(w.pods, i, Back(batch[0], revision)), queue := w.queue[1..]);
      RestWaits(w, batch, i, revision, next);
      events, d := CycleThenRest(w, batch, i, revision, limit, next);
      Tally(batch, revision, w.pods, next.pods, d.pods);
    }
  }

  lemma {:induction false} CycleThenRest(w: World, batch: seq<Pod>, i: nat, revision: string, limit: int, next: World)
    returns (events: seq<Event>, d: World)
    requires Waiting(w, batch) && batch != [] && i < |w.pods| && w.pods[i] == batch[0] && Up(batch[0])
    requires batch[0].name in w.members && w.queue != [] && w.queue[0] == batch[0].name
    requires batch[0].name !in w.queue[1..] && Waiting(next, batch[1..])
    requires next == w.(pods := Moved(w.pods, i, Back(batch[0], revision)), queue := w.queue[1..])
    ensures RolloutSafety.Legal(w, events, limit) && RolloutSafety.After(w, events, limit) == d
    ensures d == next.(pods := d.pods, queue := [])
    ensures multiset(d.pods) + multiset(batch[1..])
            == multiset(next.pods) + multiset(AllBack(batch[1..], revision))
    decreases |batch|, 0
  {
    var first := OneCycle(w, batch[0], i, revision, limit, next);
    var rest;
    rest, d := BatchCycles(next, batch[1..], revision, limit);
    Joined(w, first, rest, limit);
    events := first + rest;
  }

  lemma QueueAfter(queue: seq<PodName>, batch: seq<Pod>)
    requires queue == RolloutSafety.NamesOf(batch) && batch != [] && DistinctNames(batch)
    ensures queue != [] && queue[0] == batch[0].name && queue[1..] == RolloutSafety.NamesOf(batch[1..])
    ensures batch[0].name !in queue[1..] && DistinctNames(batch[1..])
  {}

  lemma MovedPods(pods: seq<Pod>, i: nat, p: Pod, back: Pod, after: seq<Pod>, rest: seq<Pod>)
    requires DistinctNames(pods) && i < |pods| && pods[i] == p && back.name == p.name && after == Moved(pods, i, back)
    requires forall q :: q in rest ==> q in pods && q.name != p.name
    ensures DistinctNames(after) && multiset(after) + multiset{p} == multiset(pods) + multiset{back}
    ensures forall q :: q in rest ==> q in after
  {
    assert pods == pods[..i] + [p] + pods[i + 1..];
  }

  // ---------- a clean round ----------

  /** The world shows the pods of the clean system, in any order, all there and none about to be deleted. */
  ghost predicate Mirrors(w: World, s: System) {
    && DistinctNames(w.pods) && multiset(w.pods) == multiset(s.pods) && w.zoneOf == s.zoneOf && w.queue == []
    && w.failed == {} && w.members == RolloutSafety.PodNames(w.pods)
  }

  ghost function CleanEvent(s: System): Event {
    RolloutSafety.Reconcile(s.sts, s.spec, s.status, s.alarm)
  }

  lemma NothingMissing(w: World, s: System, limit: int)
    requires Clean(s) && Mirrors(w, s) && w.pods == s.pods
    requires Scaled(s.spec.maxUnavailable, s.sts.replicas).value <= limit
    ensures RolloutSafety.Enabled(w, CleanEvent(s), limit)
    ensures RolloutSafety.Next(w, CleanEvent(s)) == w.(queue := RolloutSafety.NamesOf(Reconcile(s).deleted))
  {
    assert RolloutSafety.Missing(w) == {};
    RolloutSafety.NobodyMissing(w, CleanEvent(s), limit);
  }

  lemma BatchWaits(w: World, s: System, batch: seq<Pod>)
    requires Clean(s) && Mirrors(w, s) && w.pods == s.pods && OldPods(s) != [] && batch == Reconcile(s).deleted
    ensures Waiting(w.(queue := RolloutSafety.NamesOf(batch)), batch) && Distinct(batch)
  {
    var canon := RolloutOrder.Canon(OldPods(s), s.zoneOf);
    ReconcileDeletesHead(s);
    RolloutOrder.CanonIsOrdered(OldPods(s), s.zoneOf);
    OldPodsAreClean(s);
    PermutedIsDistinct(OldPods(s), canon);
    assert batch <= canon;
    forall p | p in batch ensures p in s.pods {
      var i := FindPod(batch, p);
      assert canon[i] == p;
    }
    DistinctNamed(s.pods, batch);
  }

  lemma DistinctNamed(pods: seq<Pod>, batch: seq<Pod>)
    requires DistinctNames(pods) && Distinct(batch) && forall p :: p in batch ==> p in pods
    ensures DistinctNames(batch)
  {
    forall i, j | 0 <= i < j < |batch| ensures batch[i].name != batch[j].name {
      assert batch[i] in batch && batch[j] in batch;
      var k := FindPod(pods, batch[i]);
      var l := FindPod(pods, batch[j]);
    }
  }

  lemma AllBackAdds(x: seq<Pod>, p: Pod, revision: string)
    ensures AllBack(x + [p], revision) == AllBack(x, revision) + [Back(p, revision)]
  {}

  lemma {:induction false} RenewedSplits(pods: seq<Pod>, batch: seq<Pod>, revision: string)
    ensures multiset(Renewed(pods, batch, revision))
            == multiset(Filter(pods, NotIn(batch))) + multiset(AllBack(Filter(pods, In(batch)), revision))
  {
    if pods != [] {
      var front, last := pods[..|pods| - 1], pods[|pods| - 1];
      RenewedSplits(front, batch, revision);
      assert Renewed(pods, batch, revision)
             == Renewed(front, batch, revision) + [if last in batch then Back(last, revision) else last];
      if last in batch {
        AllBackAdds(Filter(front, In(batch)), last, revision);
      }
    }
  }

  lemma {:induction false} PermutedBack(x: seq<Pod>, y: seq<Pod>, revision: string)
    requires multiset(x) == multiset(y)
    ensures multiset(AllBack(x, revision)) == multiset(AllBack(y, revision))
    decreases |x|
  {
    if x == [] {
      assert |y| == |multiset(y)| == 0;
    } else {
      var front, last := x[..|x| - 1], x[|x| - 1];
      assert x == front + [last];
      assert last in multiset(y);
      var i := FindPod(y, last);
      assert y == y[..i] + [last] + y[i + 1..];
      assert multiset(front) == multiset(x) - multiset{last} == multiset(y[..i] + y[i + 1..]);
      PermutedBack(front, y[..i] + y[i + 1..], revision);
      AllBackAdds(front, last, revision);
      BackAt(y, i, revision);
    }
  }

  lemma BackAt(y: seq<Pod>, i: nat, revision: string)
    requires i < |y|
    ensures multiset(AllBack(y, revision))
            == multiset(AllBack(y[..i] + y[i + 1..], revision)) + multiset{Back(y[i], revision)}
  {
    var all := AllBack(y, revision);
    assert all == all[..i] + [Back(y[i], revision)] + all[i + 1..];
    assert AllBack(y[..i] + y[i + 1..], revision) == all[..i] + all[i + 1..];
  }

  /** Renewing pods in place is, up to their order, taking them out and putting them back. */
  lemma RenewedIsBack(pods: seq<Pod>, batch: seq<Pod>, revision: string, after: seq<Pod>)
    requires Distinct(pods) && Distinct(batch) && forall p :: p in batch ==> p in pods
    requires multiset(after) + multiset(batch) == multiset(pods) + multiset(AllBack(batch, revision))
    ensures multiset(after) == multiset(Renewed(pods, batch, revision))
  {
    var out, rest := Filter(pods, In(batch)), Filter(pods, NotIn(batch));
    RenewedSplits(pods, batch, revision);
    BatchRemoved(pods, batch);
    FilterSplits(pods, In(batch), NotIn(batch));
    assert multiset(out) == multiset(batch) by {
      assert multiset(rest) + multiset(out) == multiset(pods) == multiset(batch) + multiset(rest);
      Cancel(multiset(rest), multiset(out), multiset(batch));
    }
    PermutedBack(out, batch, revision);
    assert multiset(pods) == multiset(rest) + multiset(batch);
    Settle(multiset(after), multiset(batch), multiset(rest), multiset(AllBack(batch, revision)));
  }

  lemma Settle(after: multiset<Pod>, batch: multiset<Pod>, rest: multiset<Pod>, back: multiset<Pod>)
    requires after + batch == rest + batch + back
    ensures after == rest + back
  {
    assert after == (after + batch) - batch;
    assert rest + back == (rest + batch + back) - batch;
  }

  lemma NamesAreDistinct(pods: seq<Pod>)
    requires DistinctNames(pods)
    ensures Distinct(pods)
  {}

  /**
   * A clean round is a run: from a world that shows the pods of a clean system, its reconcile and the return of the
   * pods deleted are legal events, and lead to a world that shows the pods of the next system.
   */
  lemma CleanRoundIsRun(w: World, s: System, limit: int) returns (events: seq<Event>, d: World)
    requires Clean(s) && OldPods(s) != [] && Mirrors(w, s) && w.pods == s.pods
    requires Scaled(s.spec.maxUnavailable, s.sts.replicas).value <= limit
    ensures RolloutSafety.Legal(w, events, limit) && RolloutSafety.After(w, events, limit) == d
    ensures d == w.(pods := d.pods) && multiset(d.pods) == multiset(Next(s).pods)
  {
    var batch := Reconcile(s).deleted;
    var planned := w.(queue := RolloutSafety.NamesOf(batch));
    NothingMissing(w, s, limit);
    BatchWaits(w, s, batch);
    NamesAreDistinct(s.pods);
    var cycles;
    cycles, d := BatchCycles(planned, batch, s.sts.updateRevision, limit);
    Before(w, CleanEvent(s), planned, cycles, limit);
    events := [CleanEvent(s)] + cycles;
    RenewedIsBack(s.pods, batch, s.sts.updateRevision, d.pods);
  }

  // ---------- a whole rollout ----------

  lemma PermutedIsClean(s: System, d: System)
    requires Clean(s) && d == s.(pods := d.pods) && multiset(d.pods) == multiset(s.pods)
    ensures Clean(d) && |OldPods(d)| == |OldPods(s)|
  {
    NamesAreDistinct(s.pods);
    PermutedIsDistinct(s.pods, d.pods);
    forall i, j | 0 <= i < j < |d.pods|
      ensures d.pods[i].name != d.pods[j].name && d.pods[i].ordinal != d.pods[j].ordinal
    {
      InPermuted(d.pods, s.pods, d.pods[i]);
      InPermuted(d.pods, s.pods, d.pods[j]);
      var k := FindPod(s.pods, d.pods[i]);
      var l := FindPod(s.pods, d.pods[j]);
    }
    forall p | p in d.pods ensures Up(p) && p.name in d.zoneOf {
      InPermuted(d.pods, s.pods, p);
    }
    RolloutOrder.SameFilter(d.pods, s.pods, IsOld(s.sts.updateRevision));
    assert |OldPods(d)| == |multiset(OldPods(d))| && |OldPods(s)| == |multiset(OldPods(s))|;
  }

  lemma InPermuted(x: seq<Pod>, y: seq<Pod>, p: Pod)
    requires multiset(x) == multiset(y) && p in x
    ensures p in y
  {
    assert p in multiset(x);
  }

  lemma SameNames(x: seq<Pod>, y: seq<Pod>)
    requires |x| == |y| && forall i :: 0 <= i < |x| ==> x[i].name == y[i].name
    ensures RolloutSafety.PodNames(x) == RolloutSafety.PodNames(y)
  {
    RolloutSafety.SamePodNames(x, y);
  }

  lemma NamesRemain(s: System, d: seq<Pod>)
    requires multiset(d) == multiset(Next(s).pods)
    ensures RolloutSafety.PodNames(d) == RolloutSafety.PodNames(s.pods)
  {
    SameNames(s.pods, Next(s).pods);
    forall p ensures p in d <==> p in Next(s).pods {
      assert p in multiset(d) <==> p in d;
      assert p in multiset(Next(s).pods) <==> p in Next(s).pods;
    }
  }

  /** The system one round on, with its pods in the order in which they have come back. */
  lemma NextRound(w: World, s: System, limit: int) returns (events: seq<Event>, d: World, next: System)
    requires Clean(s) && OldPods(s) != [] && Mirrors(w, s) && w.pods == s.pods
    requires Scaled(s.spec.maxUnavailable, s.sts.replicas).value <= limit
    ensures RolloutSafety.Legal(w, events, limit) && RolloutSafety.After(w, events, limit) == d
    ensures d == w.(pods := d.pods) && next == Next(s).(pods := d.pods) && Mirrors(d, next)
    ensures Clean(next) && |OldPods(next)| < |OldPods(s)|
  {
    events, d := CleanRoundIsRun(w, s, limit);
    next := Next(s).(pods := d.pods);
    NextIsTail(s);
    PermutedIsClean(Next(s), next);
    NamesRemain(s, d.pods);
  }

  /**
   * A clean rollout is a run: from a world that shows the pods of a clean system there is a legal run of single events
   * to one in which all pods are up and no labelled one is at another revision.
   */
  lemma {:induction false} CleanRolloutIsRun(w: World, s: System, limit: int) returns (events: seq<Event>, d: World)
    requires Clean(s) && Mirrors(w, s) && w.pods == s.pods
    requires Scaled(s.spec.maxUnavailable, s.sts.replicas).value <= limit
    ensures RolloutSafety.Legal(w, events, limit) && RolloutSafety.After(w, events, limit) == d
    ensures d == w.(pods := d.pods) && RolloutSafety.PodNames(d.pods) == w.members
    ensures forall p :: p in d.pods ==> Up(p) && (p.revision.None? || p.revision.value == s.sts.updateRevision)
    decreases |OldPods(s)|
  {
    if OldPods(s) == [] {
      events, d := [], w;
      FilterMembers(s.pods, IsOld(s.sts.updateRevision));
      forall p | p in s.pods ensures p.revision.None? || p.revision.value == s.sts.updateRevision {
        assert p !in OldPods(s);
      }
    } else {
      var first, middle, next := NextRound(w, s, limit);
      var rest;
      rest, d := CleanRolloutIsRun(middle, next, limit);
      Joined(w, first, rest, limit);
      events := first + rest;
    }
  }
}
