/**
 * Exactly when one reconcile panics, deletes beside pods that are not ready, and moves the step; and what it counts.
 */
module RolloutDecisions {
  import opened Seqs
  import opened Sorting
  import opened Pods
  import opened PodZone
  import opened ExpectedPods
  import opened ZauController
  import opened RolloutOrder
  import opened RolloutStatus

  // ---------- the decision ----------

  function OldOnes(pods: seq<Pod>, sts: Sts): seq<Pod> {
    Filter(pods, IsOld(sts.updateRevision))
  }

  function OldOnesNotReady(pods: seq<Pod>, sts: Sts): seq<Pod> {
    Filter(pods, IsOldNotReady(sts.updateRevision))
  }

  lemma SortedZones(pods: seq<Pod>, zoneOf: map<PodName, Zone>)
    ensures ZonesOf(Sort(pods, HigherOrdinal), zoneOf) == ZonesOf(pods, zoneOf)
    ensures Sort(pods, HigherOrdinal) == [] <==> pods == []
    ensures forall p :: p in Sort(pods, HigherOrdinal) <==> p in pods
    ensures multiset(Sort(pods, HigherOrdinal)) == multiset(pods)
  {
    OrdinalIsWeakOrder();
    SortSorts(pods, HigherOrdinal);
    forall p ensures p in Sort(pods, HigherOrdinal) <==> p in pods {
      assert p in multiset(pods) <==> p in pods;
      assert p in multiset(Sort(pods, HigherOrdinal)) <==> p in Sort(pods, HigherOrdinal);
    }
  }

  /** Where nothing blocks, the labelled pods that are not up are the old ones that are not ready. */
  lemma NotUpIsOld(pods: seq<Pod>, sts: Sts)
    requires !Blocked(pods, sts.updateRevision)
    ensures (exists p :: p in pods && p.revision.Some? && !Up(p)) <==> OldOnesNotReady(pods, sts) != []
  {
    FilterMembers(pods, IsOldNotReady(sts.updateRevision));
    forall p | p in pods ensures !Blocks(p, sts.updateRevision) {
      var i :| 0 <= i < |pods| && pods[i] == p;
      assert !Blocks(pods[i], sts.updateRevision);
    }
    if p :| p in pods && p.revision.Some? && !Up(p) {
      assert p in OldOnesNotReady(pods, sts);
    } else if OldOnesNotReady(pods, sts) != [] {
      assert OldOnesNotReady(pods, sts)[0] in OldOnesNotReady(pods, sts);
    }
  }

  lemma SomeZone(pods: seq<Pod>, zoneOf: map<PodName, Zone>)
    ensures ZonesOf(pods, zoneOf) == {} <==> forall p :: p in pods ==> p.name !in zoneOf
  {
    if p :| p in pods && p.name in zoneOf {
      assert zoneOf[p.name] in ZonesOf(pods, zoneOf);
    }
  }

  /** A reconcile panics if and only if it gets as far as the zones of the old pods and knows none of them. */
  lemma CrashIff(pods: seq<Pod>, zoneOf: map<PodName, Zone>, sts: Sts, spec: ZauSpec, alarm: Alarm)
    ensures PlanFor(pods, zoneOf, sts, spec, alarm).Crash?
            <==> (spec.dryRun || sts.onDelete) && !Blocked(pods, sts.updateRevision)
                 && (exists p :: p in pods && IsOld(sts.updateRevision)(p))
                 && forall p :: p in pods && IsOld(sts.updateRevision)(p) ==> p.name !in zoneOf
  {
    var oldPods := OldOnes(pods, sts);
    SortedZones(oldPods, zoneOf);
    SomeZone(oldPods, zoneOf);
    FilterMembers(pods, IsOld(sts.updateRevision));
    assert oldPods != [] ==> oldPods[0] in oldPods;
  }

  /**
   * For instance: the only old pod of a set has not been scheduled, so its node is not known, and the cache has not
   * seen it either.
   */
  lemma UnscheduledPodCrashes(pods: seq<Pod>, p: Pod, nodes: Nodes, cache: map<PodName, Zone>, sts: Sts, spec: ZauSpec,
                              alarm: Alarm)
    requires pods == [p] && p.phase == Pending && !p.terminating && IsOld(sts.updateRevision)(p) && sts.onDelete
    requires p.node !in nodes && p.name !in cache
    ensures PlanFor(pods, CacheAfter(Sort(OldOnes(pods, sts), HigherOrdinal), nodes, cache), sts, spec, alarm).Crash?
  {
    var zoneOf := CacheAfter(Sort(OldOnes(pods, sts), HigherOrdinal), nodes, cache);
    assert p in pods;
    FilterAll(pods, IsOld(sts.updateRevision));
    assert Sort([p], HigherOrdinal) == [p] by {
      assert [p][..0] == [];
    }
    assert CacheAfter([p], nodes, cache) == cache by {
      assert [p][..0] == [];
    }
    CrashIff(pods, zoneOf, sts, spec, alarm);
  }

  /**
   * A reconcile sets out to delete while some labelled pod is not up if and only if the old pods that are not ready
   * have one known zone between them, which is the first of all old pods; those of unknown zone do not matter.
   */
  lemma DeletesWhileNotReadyIff(pods: seq<Pod>, zoneOf: map<PodName, Zone>, sts: Sts, spec: ZauSpec, alarm: Alarm)
    ensures PlanFor(pods, zoneOf, sts, spec, alarm).Delete? && (exists p :: p in pods && p.revision.Some? && !Up(p))
            <==> (spec.dryRun || sts.onDelete) && !Blocked(pods, sts.updateRevision)
                 && ZonesOf(OldOnes(pods, sts), zoneOf) != {}
                 && ZonesOf(OldOnesNotReady(pods, sts), zoneOf) == {FirstZone(ZonesOf(OldOnes(pods, sts), zoneOf))}
  {
    SortedZones(OldOnes(pods, sts), zoneOf);
    SortedZones(OldOnesNotReady(pods, sts), zoneOf);
    if !Blocked(pods, sts.updateRevision) {
      NotUpIsOld(pods, sts);
    }
  }

  /** Nothing blocks, every old pod is ready, the replicas are all ready, no alarm stands in the way. */
  ghost predicate AllReady(pods: seq<Pod>, zoneOf: map<PodName, Zone>, sts: Sts, spec: ZauSpec, alarm: Alarm) {
    && (spec.dryRun || sts.onDelete) && !Blocked(pods, sts.updateRevision) && ZonesOf(OldOnes(pods, sts), zoneOf) != {}
    && OldOnesNotReady(pods, sts) == [] && sts.replicas == sts.readyReplicas
    && (spec.alarm == "" || spec.ignoreAlarm || alarm == NotInAlarm)
  }

  ghost function Pool(pods: seq<Pod>, zoneOf: map<PodName, Zone>, sts: Sts, z: Zone): seq<Pod> {
    Filter(Sort(OldOnes(pods, sts), HigherOrdinal), InZone(zoneOf, z))
  }

  lemma PoolMembers(pods: seq<Pod>, zoneOf: map<PodName, Zone>, sts: Sts, z: Zone)
    ensures forall p :: p in Pool(pods, zoneOf, sts, z) <==> p in OldOnes(pods, sts) && InZone(zoneOf, z)(p)
    ensures |Pool(pods, zoneOf, sts, z)| == |Filter(OldOnes(pods, sts), InZone(zoneOf, z))|
  {
    var oldPods, inZone := OldOnes(pods, sts), InZone(zoneOf, z);
    SortedZones(oldPods, zoneOf);
    SameFilter(Sort(oldPods, HigherOrdinal), oldPods, inZone);
    SameSize(Pool(pods, zoneOf, sts, z), Filter(oldPods, inZone));
    FilterMembers(Sort(oldPods, HigherOrdinal), inZone);
  }

  lemma SameSize(s: seq<Pod>, t: seq<Pod>)
    requires multiset(s) == multiset(t)
    ensures |s| == |t|
  {
    assert |s| == |multiset(s)| && |t| == |multiset(t)|;
  }

  /**
   * A reconcile sets out to delete a ready pod if and only if all is ready; the pool is then that of the first zone,
   * and all of it is ready. Any other pool holds no ready pod.
   */
  lemma DeletesReadyIff(pods: seq<Pod>, zoneOf: map<PodName, Zone>, sts: Sts, spec: ZauSpec, alarm: Alarm, plan: Plan)
    requires plan == PlanFor(pods, zoneOf, sts, spec, alarm)
    ensures plan.Delete? && (exists p :: p in plan.pool && RunningAndReady(p))
            <==> AllReady(pods, zoneOf, sts, spec, alarm)
    ensures AllReady(pods, zoneOf, sts, spec, alarm)
            ==> plan == Delete(Pool(pods, zoneOf, sts, FirstZone(ZonesOf(OldOnes(pods, sts), zoneOf))))
                && forall p :: p in plan.pool ==> RunningAndReady(p)
  {
    SortedZones(OldOnes(pods, sts), zoneOf);
    SortedZones(OldOnesNotReady(pods, sts), zoneOf);
    if AllReady(pods, zoneOf, sts, spec, alarm) {
      ReadyPool(pods, zoneOf, sts, FirstZone(ZonesOf(OldOnes(pods, sts), zoneOf)));
    } else if plan.Delete? {
      NotReadyPool(pods, zoneOf, sts, FirstZone(ZonesOf(OldOnes(pods, sts), zoneOf)));
    }
  }

  lemma ReadyPool(pods: seq<Pod>, zoneOf: map<PodName, Zone>, sts: Sts, z: Zone)
    requires OldOnesNotReady(pods, sts) == [] && z in ZonesOf(OldOnes(pods, sts), zoneOf)
    ensures Pool(pods, zoneOf, sts, z) != [] && Pool(pods, zoneOf, sts, z)[0] in Pool(pods, zoneOf, sts, z)
    ensures forall p :: p in Pool(pods, zoneOf, sts, z) ==> RunningAndReady(p)
  {
    PoolMembers(pods, zoneOf, sts, z);
    FilterMembers(pods, IsOld(sts.updateRevision));
    FilterMembers(pods, IsOldNotReady(sts.updateRevision));
    var p :| p in OldOnes(pods, sts) && InZone(zoneOf, z)(p);
    assert p in Pool(pods, zoneOf, sts, z);
    forall q | q in Pool(pods, zoneOf, sts, z) ensures RunningAndReady(q) {
      assert q !in OldOnesNotReady(pods, sts);
    }
  }

  lemma NotReadyPool(pods: seq<Pod>, zoneOf: map<PodName, Zone>, sts: Sts, z: Zone)
    ensures forall p :: p in Filter(Sort(OldOnesNotReady(pods, sts), HigherOrdinal), InZone(zoneOf, z))
                        ==> p in pods && InZone(zoneOf, z)(p) && IsOldNotReady(sts.updateRevision)(p)
  {
    SortedZones(OldOnesNotReady(pods, sts), zoneOf);
    FilterMembers(Sort(OldOnesNotReady(pods, sts), HigherOrdinal), InZone(zoneOf, z));
    FilterMembers(pods, IsOldNotReady(sts.updateRevision));
  }

  /** For instance: of two old pods that are not ready the one of known zone is deleted at once. */
  lemma NotReadyPodIsDeleted(pods: seq<Pod>, a: Pod, b: Pod, zoneOf: map<PodName, Zone>, sts: Sts, spec: ZauSpec,
                             alarm: Alarm)
    requires pods == [a, b] && (forall p :: p in pods ==> IsOldNotReady(sts.updateRevision)(p) && !p.terminating)
    requires sts.onDelete && a.name in zoneOf && b.name !in zoneOf
    ensures PlanFor(pods, zoneOf, sts, spec, alarm) == Delete([a])
  {
    assert a in pods && b in pods;
    FilterAll(pods, IsOld(sts.updateRevision));
    FilterAll(pods, IsOldNotReady(sts.updateRevision));
    AllNotReady(pods, zoneOf, sts, spec, alarm, zoneOf[a.name]);
    PoolOfOne(pods, Sort(pods, HigherOrdinal), a, b, zoneOf);
  }

  lemma AllNotReady(pods: seq<Pod>, zoneOf: map<PodName, Zone>, sts: Sts, spec: ZauSpec, alarm: Alarm, z: Zone)
    requires OldOnes(pods, sts) == pods && OldOnesNotReady(pods, sts) == pods && ZonesOf(pods, zoneOf) == {z}
    requires sts.onDelete && !Blocked(pods, sts.updateRevision)
    ensures PlanFor(pods, zoneOf, sts, spec, alarm) == Delete(Filter(Sort(pods, HigherOrdinal), InZone(zoneOf, z)))
  {
    SortedZones(pods, zoneOf);
    assert FirstZone({z}) == z;
  }

  lemma PoolOfOne(pods: seq<Pod>, sorted: seq<Pod>, a: Pod, b: Pod, zoneOf: map<PodName, Zone>)
    requires pods == [a, b] && sorted == Sort(pods, HigherOrdinal) && a.name in zoneOf && b.name !in zoneOf
    ensures Filter(sorted, InZone(zoneOf, zoneOf[a.name])) == [a]
  {
    OrdinalIsWeakOrder();
    SortSorts(pods, HigherOrdinal);
    SameFilter(sorted, pods, InZone(zoneOf, zoneOf[a.name]));
    FilterPair(a, b, InZone(zoneOf, zoneOf[a.name]));
    OnlyOne(Filter(sorted, InZone(zoneOf, zoneOf[a.name])), a);
  }

  lemma OnlyOne(pods: seq<Pod>, a: Pod)
    requires multiset(pods) == multiset{a}
    ensures pods == [a]
  {
    assert |pods| == |multiset(pods)|;
    assert pods[0] in multiset(pods);
  }

  lemma FilterPair(a: Pod, b: Pod, keep: Pod -> bool)
    ensures Filter([a, b], keep) == (if keep(a) then [a] else []) + if keep(b) then [b] else []
  {
    assert [a, b][..1] == [a] && Filter([a], keep) == if keep(a) then [a] else [];
  }

  // ---------- the step ----------

  /**
   * A batch moves the step by one if and only if all its deletes go through and the update is saved; and it deletes
   * pods without moving the step if and only if a later delete than the first is refused, or all go through and the
   * update is not saved.
   */
  lemma StepMovesIff(spec: ZauSpec, status: ZauStatus, turn: Turn, n: int)
    requires PlanOf(spec, turn).Delete? && SizeOf(spec, status, turn) == Ok(n)
    requires EffectiveStep(status, turn.sts.updateRevision) == status.step
    ensures Stored(spec, status, turn).step == status.step + 1
            <==> turn.server.savesStatus && GoesThrough(spec, turn.server, n)
    ensures Take(spec, status, turn).deleted != [] && Stored(spec, status, turn).step == status.step
            <==> !spec.dryRun && n > 0 && turn.server.refusesDelete != Some(0)
                 && !(turn.server.savesStatus && GoesThrough(spec, turn.server, n))
  {
    EffectsAreEntries(spec, status, turn);
    var pool := PlanOf(spec, turn).pool;
    var effect := DeleteEffect(spec, status, turn.sts, pool, CountsOf(turn), turn.server);
    assert n <= |pool| && effect.deleted == pool[..Carried(turn.server, spec.dryRun, n)];
  }

  /** For instance: of a batch of two the second delete is refused; one pod is gone, and the step is where it was. */
  lemma OneOfTwoDeleted(spec: ZauSpec, status: ZauStatus, turn: Turn)
    requires PlanOf(spec, turn).Delete? && |PlanOf(spec, turn).pool| == 2
    requires spec.maxUnavailable == Amount(2) && spec.factor == Some(0.0) && !spec.dryRun
    requires turn.server == Server(Some(1), true, true)
    ensures Take(spec, status, turn).deleted == PlanOf(spec, turn).pool[..1]
    ensures Stored(spec, status, turn) == status
  {
    assert BatchSize(spec, status, turn.sts, 2) == Ok(2);
  }

  // ---------- the counts ----------

  function IsAt(revision: string): Pod -> bool {
    (p: Pod) => p.revision == Some(revision)
  }

  function IsNeither(sts: Sts): Pod -> bool {
    (p: Pod) => p.revision.Some? && p.revision.value != sts.updateRevision && p.revision.value != sts.currentRevision
  }

  /** Pods of the current revision per zone, which is what the API comment promises. */
  function CurrentCounts(pods: seq<Pod>, zoneOf: map<PodName, Zone>, sts: Sts): map<Zone, int> {
    Counts(Group(Filter(pods, IsAt(sts.currentRevision)), zoneOf))
  }

  lemma CountIs(pods: seq<Pod>, zoneOf: map<PodName, Zone>, z: Zone)
    ensures Count(Counts(Group(pods, zoneOf)), z) == |Filter(pods, InZone(zoneOf, z))|
  {
    if z !in ZonesOf(pods, zoneOf) {
      NoneInZone(pods, zoneOf, z);
    }
  }

  lemma FreshCountIs(pods: seq<Pod>, zoneOf: map<PodName, Zone>, sts: Sts, z: Zone)
    ensures Count(FreshCounts(pods, zoneOf, sts.updateRevision), z) == |Filter(OldOnes(pods, sts), InZone(zoneOf, z))|
    ensures FreshCounts(pods, zoneOf, sts.updateRevision).Keys == ZonesOf(OldOnes(pods, sts), zoneOf)
  {
    var oldPods := OldOnes(pods, sts);
    SortedZones(oldPods, zoneOf);
    CountIs(Sort(oldPods, HigherOrdinal), zoneOf, z);
    OrdinalIsWeakOrder();
    SortSorts(oldPods, HigherOrdinal);
    SameFilter(Sort(oldPods, HigherOrdinal), oldPods, InZone(zoneOf, z));
    assert |multiset(Filter(Sort(oldPods, HigherOrdinal), InZone(zoneOf, z)))|
           == |multiset(Filter(oldPods, InZone(zoneOf, z)))|;
  }

  lemma {:induction false} CountsSplit(pods: seq<Pod>, all: Pod -> bool, some: Pod -> bool, others: Pod -> bool,
                                       keep: Pod -> bool)
    requires forall p :: some(p) ==> all(p)
    requires forall p :: others(p) <==> all(p) && !some(p)
    ensures |Filter(Filter(pods, all), keep)|
            == |Filter(Filter(pods, some), keep)| + |Filter(Filter(pods, others), keep)|
  {
    if pods != [] {
      var front, last := pods[..|pods| - 1], pods[|pods| - 1];
      CountsSplit(front, all, some, others, keep);
      AppendFilter(Filter(front, all), last, keep);
      AppendFilter(Filter(front, some), last, keep);
      AppendFilter(Filter(front, others), last, keep);
    }
  }

  lemma AppendFilter(pods: seq<Pod>, last: Pod, keep: Pod -> bool)
    ensures Filter(pods + [last], keep) == Filter(pods, keep) + if keep(last) then [last] else []
  {
    assert (pods + [last])[..|pods|] == pods;
  }

  /**
   * A reconcile counts in every zone the pods of any revision but the update revision: those of the current one, unless
   * the set goes back to it, and those of any third.
   */
  lemma CountsAllOldPods(pods: seq<Pod>, zoneOf: map<PodName, Zone>, sts: Sts, z: Zone)
    ensures Count(FreshCounts(pods, zoneOf, sts.updateRevision), z)
            == (if sts.currentRevision == sts.updateRevision then 0 else Count(CurrentCounts(pods, zoneOf, sts), z))
               + |Filter(Filter(pods, IsNeither(sts)), InZone(zoneOf, z))|
  {
    FreshCountIs(pods, zoneOf, sts, z);
    CountIs(Filter(pods, IsAt(sts.currentRevision)), zoneOf, z);
    if sts.currentRevision == sts.updateRevision {
      var none := (p: Pod) => false;
      FilterNone(pods, none);
      CountsSplit(pods, IsOld(sts.updateRevision), none, IsNeither(sts), InZone(zoneOf, z));
    } else {
      CountsSplit(pods, IsOld(sts.updateRevision), IsAt(sts.currentRevision), IsNeither(sts), InZone(zoneOf, z));
    }
  }

  /**
   * So, while there is a new one, they are those of the current revision if and only if all old pods of known zone are.
   */
  lemma CountsCurrentIff(pods: seq<Pod>, zoneOf: map<PodName, Zone>, sts: Sts)
    requires sts.currentRevision != sts.updateRevision
    ensures FreshCounts(pods, zoneOf, sts.updateRevision) == CurrentCounts(pods, zoneOf, sts)
            <==> forall p :: p in pods && IsOld(sts.updateRevision)(p) && p.name in zoneOf
                             ==> p.revision == Some(sts.currentRevision)
  {
    FilterMembers(pods, IsNeither(sts));
    if p :| p in pods && IsNeither(sts)(p) && p.name in zoneOf {
      FilterMembers(Filter(pods, IsNeither(sts)), InZone(zoneOf, zoneOf[p.name]));
      assert p in Filter(Filter(pods, IsNeither(sts)), InZone(zoneOf, zoneOf[p.name]));
      CountsAllOldPods(pods, zoneOf, sts, zoneOf[p.name]);
    } else {
      OnlyCurrent(pods, zoneOf, sts);
    }
  }

  lemma OnlyCurrent(pods: seq<Pod>, zoneOf: map<PodName, Zone>, sts: Sts)
    requires sts.currentRevision != sts.updateRevision
    requires forall p :: p in pods && p.name in zoneOf ==> !IsNeither(sts)(p)
    ensures FreshCounts(pods, zoneOf, sts.updateRevision) == CurrentCounts(pods, zoneOf, sts)
  {
    var counts, current := FreshCounts(pods, zoneOf, sts.updateRevision), CurrentCounts(pods, zoneOf, sts);
    FilterMembers(pods, IsOld(sts.updateRevision));
    FilterMembers(pods, IsAt(sts.currentRevision));
    FilterMembers(pods, IsNeither(sts));
    forall z ensures Count(counts, z) == Count(current, z) && (z in counts <==> z in current) {
      CountsAllOldPods(pods, zoneOf, sts, z);
      FilterNone(Filter(pods, IsNeither(sts)), InZone(zoneOf, z));
      FreshCountIs(pods, zoneOf, sts, z);
    }
    assert counts.Keys == current.Keys;
    forall z | z in counts ensures counts[z] == current[z] {
      assert Count(counts, z) == Count(current, z);
    }
  }

  /** For instance: with one pod at the current revision and one at a third in the same zone, both are counted. */
  lemma ThirdRevisionIsCounted(pods: seq<Pod>, a: Pod, b: Pod, zoneOf: map<PodName, Zone>, sts: Sts, third: string,
                               z: Zone)
    requires pods == [a, b] && InZone(zoneOf, z)(a) && InZone(zoneOf, z)(b)
    requires sts.currentRevision != sts.updateRevision && third != sts.currentRevision && third != sts.updateRevision
    requires a.revision == Some(sts.currentRevision) && b.revision == Some(third)
    ensures Count(FreshCounts(pods, zoneOf, sts.updateRevision), z) == 2
    ensures Count(CurrentCounts(pods, zoneOf, sts), z) == 1
  {
    FilterPair(a, b, IsNeither(sts));
    FilterPair(a, b, IsAt(sts.currentRevision));
    assert IsAt(sts.currentRevision)(a) && !IsAt(sts.currentRevision)(b) && !IsNeither(sts)(a) && IsNeither(sts)(b);
    OneOfEach(pods, a, b, zoneOf, sts, z);
  }

  lemma OneOfEach(pods: seq<Pod>, a: Pod, b: Pod, zoneOf: map<PodName, Zone>, sts: Sts, z: Zone)
    requires Filter(pods, IsAt(sts.currentRevision)) == [a] && Filter(pods, IsNeither(sts)) == [b]
    requires InZone(zoneOf, z)(a) && InZone(zoneOf, z)(b) && sts.currentRevision != sts.updateRevision
    ensures Count(FreshCounts(pods, zoneOf, sts.updateRevision), z) == 2
    ensures Count(CurrentCounts(pods, zoneOf, sts), z) == 1
  {
    FilterAll([a], InZone(zoneOf, z));
    FilterAll([b], InZone(zoneOf, z));
    CountIs([a], zoneOf, z);
    CountsAllOldPods(pods, zoneOf, sts, z);
  }
}
