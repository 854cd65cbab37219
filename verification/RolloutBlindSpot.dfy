/** What a rollout does not see: a pod that has been removed and is not back yet is in no list and in no count. */
module RolloutBlindSpot {
  import opened Seqs
  import opened Sorting
  import opened Pods
  import opened ExpectedPods
  import opened ZauController
  import opened RolloutOrder
  import opened RolloutSafety

  /** A StatefulSet all of whose listed pods count as ready, and a limit of one pod. */
  ghost predicate OneAtATime(sts: Sts, spec: ZauSpec) {
    && sts.onDelete && sts.replicas == sts.readyReplicas
    && spec.maxUnavailable == Amount(1) && spec.factor == Some(0.0) && spec.alarm == "" && !spec.dryRun
  }

  ghost predicate AllOldAndUp(pods: seq<Pod>, zoneOf: map<PodName, Zone>, revision: string) {
    forall p :: p in pods ==> Up(p) && IsOld(revision)(p) && p.name in zoneOf
  }

  /** While all listed pods are old and up, the plan is to delete from the first zone. */
  lemma PlanIsFirst(pods: seq<Pod>, sorted: seq<Pod>, zoneOf: map<PodName, Zone>, sts: Sts, spec: ZauSpec,
                    alarm: Alarm, z: Zone)
    requires OneAtATime(sts, spec) && AllOldAndUp(pods, zoneOf, sts.updateRevision) && pods != []
    requires sorted == Sort(pods, HigherOrdinal) && ZonesOf(sorted, zoneOf) != {}
             && FirstZone(ZonesOf(sorted, zoneOf)) == z
    ensures sorted != [] ==> PlanFor(pods, zoneOf, sts, spec, alarm) == Delete(Filter(sorted, InZone(zoneOf, z)))
  {
    var revision := sts.updateRevision;
    FilterAll(pods, IsOld(revision));
    FilterNone(pods, IsOldNotReady(revision));
    forall i | 0 <= i < |pods| ensures !Blocks(pods[i], revision) {
      assert pods[i] in pods;
    }
    assert !Blocked(pods, revision);
  }

  /** It takes just one pod if there is only one in that zone. */
  lemma PlanIsPod(pods: seq<Pod>, zoneOf: map<PodName, Zone>, sts: Sts, spec: ZauSpec, alarm: Alarm, p: Pod)
    requires OneAtATime(sts, spec) && AllOldAndUp(pods, zoneOf, sts.updateRevision) && p in pods
    requires forall q :: q in pods && q != p ==> Less(zoneOf[p.name], zoneOf[q.name])
    requires multiset(pods)[p] == 1
    ensures PlanFor(pods, zoneOf, sts, spec, alarm) == Delete([p])
  {
    var sorted := Sort(pods, HigherOrdinal);
    OrdinalIsWeakOrder();
    SortSorts(pods, HigherOrdinal);
    FirstIs(sorted, zoneOf, p);
    FirstPool(pods, sorted, zoneOf, p);
    PlanIsFirst(pods, sorted, zoneOf, sts, spec, alarm, zoneOf[p.name]);
  }

  lemma NextPod(pods: seq<Pod>, zoneOf: map<PodName, Zone>, sts: Sts, spec: ZauSpec, status: ZauStatus, alarm: Alarm,
                p: Pod, batch: seq<Pod>)
    requires OneAtATime(sts, spec) && PlanFor(pods, zoneOf, sts, spec, alarm) == Delete([p])
    requires batch == Batch(pods, zoneOf, sts, spec, status, alarm)
    ensures batch == [p]
  {
    OneDeleted(spec, status, sts, p, FreshCounts(pods, zoneOf, sts.updateRevision));
  }

  lemma FirstIs(pods: seq<Pod>, zoneOf: map<PodName, Zone>, p: Pod)
    requires p in pods && forall q :: q in pods ==> q.name in zoneOf
    requires forall q :: q in pods && q != p ==> Less(zoneOf[p.name], zoneOf[q.name])
    ensures ZonesOf(pods, zoneOf) != {} && FirstZone(ZonesOf(pods, zoneOf)) == zoneOf[p.name]
  {
    assert zoneOf[p.name] in ZonesOf(pods, zoneOf);
    var first := FirstZone(ZonesOf(pods, zoneOf));
    var q :| q in pods && q.name in zoneOf && zoneOf[q.name] == first;
  }

  /** The pool of the first zone is that one pod. */
  lemma FirstPool(pods: seq<Pod>, sorted: seq<Pod>, zoneOf: map<PodName, Zone>, p: Pod)
    requires multiset(sorted) == multiset(pods) && multiset(pods)[p] == 1 && p in pods
    requires forall q :: q in pods ==> q.name in zoneOf
    requires forall q :: q in pods && q != p ==> Less(zoneOf[p.name], zoneOf[q.name])
    ensures Filter(sorted, InZone(zoneOf, zoneOf[p.name])) == [p]
  {
    var inFirst := InZone(zoneOf, zoneOf[p.name]);
    var pool := Filter(sorted, inFirst);
    FilterMembers(sorted, inFirst);
    LessIsStrict(zoneOf[p.name], zoneOf[p.name]);
    forall q | q in pool ensures q == p {
      assert q in multiset(sorted);
    }
    FilterCounts(sorted, inFirst, p);
    AllTheSame(pool, p);
  }

  lemma {:induction false} AllTheSame(s: seq<Pod>, p: Pod)
    requires forall q :: q in s ==> q == p
    ensures multiset(s)[p] == |s|
    ensures |s| == 1 ==> s == [p]
  {
    if s != [] {
      var front := s[..|s| - 1];
      assert s == front + [s[|s| - 1]] && s[|s| - 1] in s;
      assert forall q :: q in front ==> q in s;
      AllTheSame(front, p);
    }
  }

  lemma OneDeleted(spec: ZauSpec, status: ZauStatus, sts: Sts, p: Pod, counts: map<Zone, int>)
    requires OneAtATime(sts, spec)
    ensures DeleteEffect(spec, status, sts, [p], counts, Server(None, true, true)).deleted == [p]
  {
    assert BatchSize(spec, status, sts, 1) == Ok(1);
  }

  ghost function BatchOf(w: World, e: Event): seq<Pod>
    requires e.Reconcile?
  {
    Batch(w.pods, w.zoneOf, e.sts, e.spec, e.status, e.alarm)
  }

  lemma ReconcileTakes(w: World, e: Event, p: Pod, d: World)
    requires e.Reconcile? && w.queue == [] && OneAtATime(e.sts, e.spec)
    requires PlanFor(w.pods, w.zoneOf, e.sts, e.spec, e.alarm) == Delete([p]) && d == w.(queue := [p.name])
    ensures BatchOf(w, e) == [p] && Possible(w, e) && Next(w, e) == d
  {
    NextPod(w.pods, w.zoneOf, e.sts, e.spec, e.status, e.alarm, p, BatchOf(w, e));
    assert NamesOf([p]) == [p.name];
  }

  /** The first pod of the set is planned, with room for it. */
  lemma FirstPodPlanned(w: World, a: Pod, b: Pod, e: Event, w1: World)
    requires w.pods == [a, b] && w.members == {a.name, b.name} && a.name != b.name && w.queue == [] && w.failed == {}
    requires e.Reconcile? && OneAtATime(e.sts, e.spec) && AllOldAndUp(w.pods, w.zoneOf, e.sts.updateRevision)
    requires a in w.pods && b in w.pods && Less(w.zoneOf[a.name], w.zoneOf[b.name]) && w1 == w.(queue := [a.name])
    ensures Safe(w, 1) && Enabled(w, e, 1) && Next(w, e) == w1
  {
    PlanIsPod(w.pods, w.zoneOf, e.sts, e.spec, e.alarm, a);
    ReconcileTakes(w, e, a, w1);
    assert Absent(w) == {};
    InitiallySafe(w, 1);
    NobodyMissing(w, e, 1);
  }

  /** It is deleted and vanishes. */
  lemma FirstPodGoes(w1: World, a: Pod, b: Pod, w2: World, w3: World)
    requires w1.pods == [a, b] && a.name != b.name && w1.queue == [a.name]
    requires w2 == w1.(pods := [a.(terminating := true), b], queue := []) && w3 == w2.(pods := [b])
    ensures Possible(w1, DeleteNext) && Next(w1, DeleteNext) == w2
    ensures Possible(w2, Remove(0)) && Next(w2, Remove(0)) == w3
  {
    assert Terminated(w1.pods, a.name) == w2.pods;
  }

  /** The next reconcile takes the first pod left, for which there is no room. */
  lemma SecondPodPlanned(w: World, a: Pod, b: Pod, e: Event, w4: World)
    requires w.pods == [b] && w.members == {a.name, b.name} && a.name != b.name && w.queue == [] && w.failed == {}
    requires e.Reconcile? && OneAtATime(e.sts, e.spec) && AllOldAndUp(w.pods, w.zoneOf, e.sts.updateRevision)
    requires b in w.pods && a.name in w.zoneOf && w.zoneOf[a.name] != w.zoneOf[b.name] && w4 == w.(queue := [b.name])
    ensures Safe(w, 1) && Possible(w, e) && !Enabled(w, e, 1) && Next(w, e) == w4
  {
    PlanIsPod(w.pods, w.zoneOf, e.sts, e.spec, e.alarm, b);
    ReconcileTakes(w, e, b, w4);
    AfterRemoval(w, a, b);
    NoRoomForBoth(w, a, b, w4);
    ReconcileIsSafeIff(w, e, 1);
  }

  lemma SecondPodGoes(w4: World, a: Pod, b: Pod, w5: World)
    requires w4.pods == [b] && w4.members == {a.name, b.name} && a.name != b.name && w4.queue == [b.name]
    requires w5 == w4.(pods := [b.(terminating := true)], queue := [])
    requires w4.failed == {} && a.name in w4.zoneOf && b.name in w4.zoneOf && w4.zoneOf[a.name] != w4.zoneOf[b.name]
    ensures Possible(w4, DeleteNext) && Next(w4, DeleteNext) == w5 && Taken(w5) == {a.name, b.name} && !Safe(w5, 1)
  {
    assert Terminated(w4.pods, b.name) == w5.pods;
    assert w5.pods[0] in w5.pods;
    assert Taken(w5) == {a.name, b.name};
    assert a.name in Taken(w5) && b.name in Taken(w5);
  }

  lemma AfterRemoval(w: World, a: Pod, b: Pod)
    requires w.pods == [b] && w.members == {a.name, b.name} && a.name != b.name && w.queue == [] && w.failed == {}
    requires Up(b) && a.name in w.zoneOf
    ensures Safe(w, 1) && Taken(w) == {a.name}
  {
    assert b in w.pods;
    assert Taken(w) == {a.name};
  }

  lemma NoRoomForBoth(w: World, a: Pod, b: Pod, d: World)
    requires w.pods == [b] && w.members == {a.name, b.name} && a.name != b.name && w.failed == {}
    requires a.name in w.zoneOf && b.name in w.zoneOf && w.zoneOf[a.name] != w.zoneOf[b.name]
    requires d == w.(queue := [b.name])
    ensures !Safe(d, 1)
  {
    assert b in w.pods && b.name in d.queue;
    assert a.name in Taken(d) && b.name in Taken(d);
  }

  /**
   * Two zones disturbed: a pod of the first zone is deleted and removed; before it is back, a reconcile finds the rest
   * of the set ready and deletes a pod of the next zone. Every step is one the controller or the cluster may take, and
   * all of them have room but the second reconcile.
   */
  lemma TwoZonesDisturbed(w: World, a: Pod, b: Pod, e: Event)
    returns (w1: World, w2: World, w3: World, w4: World, w5: World)
    requires w.pods == [a, b] && w.members == {a.name, b.name} && a.name != b.name && w.queue == [] && w.failed == {}
    requires e.Reconcile? && OneAtATime(e.sts, e.spec) && AllOldAndUp(w.pods, w.zoneOf, e.sts.updateRevision)
    requires a in w.pods && b in w.pods && Less(w.zoneOf[a.name], w.zoneOf[b.name])
    ensures Safe(w, 1) && Enabled(w, e, 1) && w1 == Next(w, e)
    ensures Possible(w1, DeleteNext) && w2 == Next(w1, DeleteNext)
    ensures Possible(w2, Remove(0)) && w3 == Next(w2, Remove(0))
    ensures Safe(w3, 1) && Possible(w3, e) && !Enabled(w3, e, 1) && w4 == Next(w3, e)
    ensures Possible(w4, DeleteNext) && w5 == Next(w4, DeleteNext)
    ensures Taken(w5) == {a.name, b.name} && w5.zoneOf[a.name] != w5.zoneOf[b.name] && !Safe(w5, 1)
  {
    LessIsStrict(w.zoneOf[a.name], w.zoneOf[b.name]);
    w1, w2, w3 := w.(queue := [a.name]), w.(pods := [a.(terminating := true), b]), w.(pods := [b]);
    w4, w5 := w3.(queue := [b.name]), w3.(pods := [b.(terminating := true)]);
    FirstPodPlanned(w, a, b, e, w1);
    FirstPodGoes(w1, a, b, w2, w3);
    SecondPodPlanned(w3, a, b, e, w4);
    SecondPodGoes(w4, a, b, w5);
  }
}
