/**
 * The decision of a rollout reconcile, outcome by outcome, in terms of the pods it has listed; and what each outcome
 * answers, deletes and leaves in the status.
 */
module RolloutOutcomes {
  import opened Seqs
  import opened Sorting
  import opened Pods
  import opened ExpectedPods
  import opened ZauController
  import opened RolloutOrder
  import opened RolloutStatus
  import opened RolloutDecisions

  // ---------- what a reconcile looks at ----------

  predicate Serves(p: Pod) {
    p.phase == Running && p.ready
  }

  predicate AtAnother(p: Pod, turn: Turn) {
    p.revision.Some? && p.revision.value != turn.sts.updateRevision
  }

  /** A pod is on its way out, or an updated one does not serve yet. */
  ghost predicate Stuck(turn: Turn) {
    exists p :: p in turn.pods && (p.terminating || (p.revision == Some(turn.sts.updateRevision) && !Serves(p)))
  }

  ghost predicate Proceeds(spec: ZauSpec, turn: Turn) {
    (spec.dryRun || turn.sts.onDelete) && !Stuck(turn)
  }

  ghost predicate AnyLeft(turn: Turn) {
    exists p :: p in turn.pods && AtAnother(p, turn)
  }

  ghost predicate LeftIn(turn: Turn, z: Zone) {
    exists p :: p in turn.pods && AtAnother(p, turn) && p.name in turn.zoneOf && turn.zoneOf[p.name] == z
  }

  ghost predicate DownIn(turn: Turn, z: Zone) {
    exists p :: p in turn.pods && AtAnother(p, turn) && !Serves(p) && p.name in turn.zoneOf && turn.zoneOf[p.name] == z
  }

  /** The zone with pods left that comes before all others. */
  ghost predicate IsNext(turn: Turn, z: Zone) {
    LeftIn(turn, z) && forall y :: LeftIn(turn, y) && y != z ==> Precedes(z, y)
  }

  ghost predicate AllServe(turn: Turn) {
    turn.sts.replicas == turn.sts.readyReplicas && forall p :: p in turn.pods && AtAnother(p, turn) ==> Serves(p)
  }

  /** The known zones of the pods left that do not serve are just the next one. */
  ghost predicate DownInNext(turn: Turn) {
    exists z :: IsNext(turn, z) && DownIn(turn, z) && forall y :: DownIn(turn, y) ==> y == z
  }

  predicate Heeds(spec: ZauSpec) {
    spec.alarm != "" && !spec.ignoreAlarm
  }

  // ---------- the same, as the code computes it ----------

  lemma StuckIsBlocked(turn: Turn)
    ensures Stuck(turn) <==> Blocked(turn.pods, turn.sts.updateRevision)
  {
    if p :| p in turn.pods && (p.terminating || (p.revision == Some(turn.sts.updateRevision) && !Serves(p))) {
      var i :| 0 <= i < |turn.pods| && turn.pods[i] == p;
      assert Blocks(turn.pods[i], turn.sts.updateRevision);
    }
    if i :| 0 <= i < |turn.pods| && Blocks(turn.pods[i], turn.sts.updateRevision) {
      assert turn.pods[i] in turn.pods;
    }
  }

  lemma LeftAre(turn: Turn)
    ensures forall p :: p in OldOnes(turn.pods, turn.sts) <==> p in turn.pods && AtAnother(p, turn)
    ensures forall p :: p in OldOnesNotReady(turn.pods, turn.sts)
                        <==> p in turn.pods && AtAnother(p, turn) && !Serves(p)
    ensures AnyLeft(turn) <==> OldOnes(turn.pods, turn.sts) != []
    ensures OldOnesNotReady(turn.pods, turn.sts) == []
            <==> forall p :: p in turn.pods && AtAnother(p, turn) ==> Serves(p)
  {
    FilterMembers(turn.pods, IsOld(turn.sts.updateRevision));
    FilterMembers(turn.pods, IsOldNotReady(turn.sts.updateRevision));
    var oldPods, down := OldOnes(turn.pods, turn.sts), OldOnesNotReady(turn.pods, turn.sts);
    assert oldPods != [] ==> oldPods[0] in oldPods;
    assert down != [] ==> down[0] in down;
  }

  lemma ZonesAre(turn: Turn)
    ensures forall z :: LeftIn(turn, z) <==> z in ZonesOf(OldOnes(turn.pods, turn.sts), turn.zoneOf)
    ensures forall z :: DownIn(turn, z) <==> z in ZonesOf(OldOnesNotReady(turn.pods, turn.sts), turn.zoneOf)
  {
    LeftAre(turn);
  }

  lemma NextIsFirst(turn: Turn, zones: set<Zone>, z: Zone)
    requires zones == ZonesOf(OldOnes(turn.pods, turn.sts), turn.zoneOf) && zones != {}
    ensures IsNext(turn, z) <==> z == FirstZone(zones)
  {
    ZonesAre(turn);
    FirstZonePrecedes(zones, z);
  }

  lemma DownInNextIs(turn: Turn, zones: set<Zone>, down: set<Zone>)
    requires zones == ZonesOf(OldOnes(turn.pods, turn.sts), turn.zoneOf) && zones != {}
    requires down == ZonesOf(OldOnesNotReady(turn.pods, turn.sts), turn.zoneOf)
    ensures DownInNext(turn) <==> down == {FirstZone(zones)}
  {
    ZonesAre(turn);
    var first := FirstZone(zones);
    NextIsFirst(turn, zones, first);
    if DownInNext(turn) {
      var z :| IsNext(turn, z) && DownIn(turn, z) && forall y :: DownIn(turn, y) ==> y == z;
      NextIsFirst(turn, zones, z);
    }
    if down == {first} {
      assert DownIn(turn, first) && forall y :: DownIn(turn, y) ==> y == first;
    }
  }

  /** The plan by the zones of the pods left, known to the reconcile as sets. */
  lemma PlanBy(spec: ZauSpec, turn: Turn, zones: set<Zone>, down: set<Zone>)
    requires zones == ZonesOf(OldOnes(turn.pods, turn.sts), turn.zoneOf)
    requires down == ZonesOf(OldOnesNotReady(turn.pods, turn.sts), turn.zoneOf)
    ensures PlanOf(spec, turn).Stop? <==> !spec.dryRun && !turn.sts.onDelete
    ensures PlanOf(spec, turn).Complete? <==> Proceeds(spec, turn) && !AnyLeft(turn)
    ensures PlanOf(spec, turn).Crash? <==> Proceeds(spec, turn) && AnyLeft(turn) && zones == {}
    ensures PlanOf(spec, turn).Wait?
            <==> (spec.dryRun || turn.sts.onDelete)
                 && (Stuck(turn) || (zones != {} && !AllServe(turn) && down != {FirstZone(zones)}))
    ensures PlanOf(spec, turn).Pause?
            <==> Proceeds(spec, turn) && zones != {} && AllServe(turn) && Heeds(spec) && turn.alarm == InAlarm
    ensures PlanOf(spec, turn).AlarmFailure?
            <==> Proceeds(spec, turn) && zones != {} && AllServe(turn) && Heeds(spec) && turn.alarm == Unreadable
  {
    StuckIsBlocked(turn);
    LeftAre(turn);
    SortedZones(OldOnes(turn.pods, turn.sts), turn.zoneOf);
    SortedZones(OldOnesNotReady(turn.pods, turn.sts), turn.zoneOf);
  }

  // ---------- when ----------

  ghost predicate KnowsZone(turn: Turn) {
    exists z :: LeftIn(turn, z)
  }

  lemma KnowsZoneIs(turn: Turn)
    ensures KnowsZone(turn) <==> ZonesOf(OldOnes(turn.pods, turn.sts), turn.zoneOf) != {}
  {
    ZonesAre(turn);
    var zones := ZonesOf(OldOnes(turn.pods, turn.sts), turn.zoneOf);
    if zones != {} {
      var z :| z in zones;
      assert LeftIn(turn, z);
    }
  }

  /** The set is left alone exactly when its update strategy is not OnDelete, dry run aside. */
  lemma StopIff(spec: ZauSpec, turn: Turn)
    ensures PlanOf(spec, turn).Stop? <==> !spec.dryRun && !turn.sts.onDelete
  {
    PlanBy(spec, turn, ZonesOf(OldOnes(turn.pods, turn.sts), turn.zoneOf),
           ZonesOf(OldOnesNotReady(turn.pods, turn.sts), turn.zoneOf));
  }

  /** A reconcile waits for a pod on its way out, an updated pod, or pods left that do not serve and are not first. */
  lemma WaitIff(spec: ZauSpec, turn: Turn)
    ensures PlanOf(spec, turn).Wait?
            <==> (spec.dryRun || turn.sts.onDelete)
                 && (Stuck(turn) || (KnowsZone(turn) && !AllServe(turn) && !DownInNext(turn)))
  {
    var zones := ZonesOf(OldOnes(turn.pods, turn.sts), turn.zoneOf);
    var down := ZonesOf(OldOnesNotReady(turn.pods, turn.sts), turn.zoneOf);
    PlanBy(spec, turn, zones, down);
    KnowsZoneIs(turn);
    if zones != {} {
      DownInNextIs(turn, zones, down);
    }
  }

  /** A rollout is complete exactly when nothing holds it up and no labelled pod is at another revision. */
  lemma CompleteIff(spec: ZauSpec, turn: Turn)
    ensures PlanOf(spec, turn).Complete? <==> Proceeds(spec, turn) && !AnyLeft(turn)
  {
    PlanBy(spec, turn, ZonesOf(OldOnes(turn.pods, turn.sts), turn.zoneOf),
           ZonesOf(OldOnesNotReady(turn.pods, turn.sts), turn.zoneOf));
  }

  /** A reconcile pauses if and only if it could go on with all pods ready and the alarm it heeds is in alarm. */
  lemma PauseIff(spec: ZauSpec, turn: Turn)
    ensures PlanOf(spec, turn).Pause?
            <==> Proceeds(spec, turn) && KnowsZone(turn) && AllServe(turn) && Heeds(spec) && turn.alarm == InAlarm
  {
    PlanBy(spec, turn, ZonesOf(OldOnes(turn.pods, turn.sts), turn.zoneOf),
           ZonesOf(OldOnesNotReady(turn.pods, turn.sts), turn.zoneOf));
    KnowsZoneIs(turn);
  }

  /** And it fails over the alarm if and only if it could go on and the alarm it heeds cannot be read. */
  lemma AlarmFailureIff(spec: ZauSpec, turn: Turn)
    ensures PlanOf(spec, turn).AlarmFailure?
            <==> Proceeds(spec, turn) && KnowsZone(turn) && AllServe(turn) && Heeds(spec) && turn.alarm == Unreadable
  {
    PlanBy(spec, turn, ZonesOf(OldOnes(turn.pods, turn.sts), turn.zoneOf),
           ZonesOf(OldOnesNotReady(turn.pods, turn.sts), turn.zoneOf));
    KnowsZoneIs(turn);
  }

  /** What is to be deleted, from the highest ordinal down: all pods left in a zone, or those of them that are down. */
  ghost predicate IsPool(turn: Turn, pool: seq<Pod>, z: Zone) {
    && (forall i, j :: 0 <= i < j < |pool| ==> pool[i].ordinal >= pool[j].ordinal)
    && forall p :: multiset(pool)[p]
                   == if AtAnother(p, turn) && p.name in turn.zoneOf && turn.zoneOf[p.name] == z
                         && (AllServe(turn) || !Serves(p))
                      then multiset(turn.pods)[p] else 0
  }

  lemma PoolIs(turn: Turn, pods: seq<Pod>, pool: seq<Pod>, left: Pod -> bool, z: Zone)
    requires pods == Filter(turn.pods, left) && pool == Filter(Sort(pods, HigherOrdinal), InZone(turn.zoneOf, z))
    ensures forall i, j :: 0 <= i < j < |pool| ==> pool[i].ordinal >= pool[j].ordinal
    ensures forall p :: multiset(pool)[p] == if left(p) && InZone(turn.zoneOf, z)(p) then multiset(turn.pods)[p] else 0
  {
    OrdinalIsWeakOrder();
    SortSorts(pods, HigherOrdinal);
    var sorted := Sort(pods, HigherOrdinal);
    FilterKeepsOrder(sorted, InZone(turn.zoneOf, z), (p: Pod, q: Pod) => !HigherOrdinal(q, p));
    forall p
      ensures multiset(pool)[p] == if left(p) && InZone(turn.zoneOf, z)(p) then multiset(turn.pods)[p] else 0
    {
      FilterCounts(sorted, InZone(turn.zoneOf, z), p);
      FilterCounts(turn.pods, left, p);
    }
  }

  /** A reconcile deletes in all other cases, and always from the next zone. */
  lemma DeleteIff(spec: ZauSpec, turn: Turn)
    ensures PlanOf(spec, turn).Delete?
            <==> Proceeds(spec, turn) && KnowsZone(turn)
                 && if AllServe(turn) then !Heeds(spec) || turn.alarm == NotInAlarm else DownInNext(turn)
    ensures PlanOf(spec, turn).Delete?
            ==> exists z :: IsNext(turn, z) && IsPool(turn, PlanOf(spec, turn).pool, z)
  {
    var zones := ZonesOf(OldOnes(turn.pods, turn.sts), turn.zoneOf);
    var down := ZonesOf(OldOnesNotReady(turn.pods, turn.sts), turn.zoneOf);
    PlanBy(spec, turn, zones, down);
    KnowsZoneIs(turn);
    if zones != {} {
      DownInNextIs(turn, zones, down);
    }
    if PlanOf(spec, turn).Delete? {
      var first := FirstZone(zones);
      NextIsFirst(turn, zones, first);
      PoolOfPlan(spec, turn, first, PlanOf(spec, turn).pool);
      assert IsNext(turn, first);
    }
  }

  lemma PoolOn(oldPods: seq<Pod>, down: seq<Pod>, spec: ZauSpec, turn: Turn, pool: seq<Pod>)
    requires ZonesOf(oldPods, turn.zoneOf) != {}
    requires PlanOn(oldPods, down, turn.zoneOf, turn.sts, spec, turn.alarm) == Delete(pool)
    ensures var pods := if turn.sts.replicas == turn.sts.readyReplicas && down == [] then oldPods else down;
            pool == Filter(pods, InZone(turn.zoneOf, FirstZone(ZonesOf(oldPods, turn.zoneOf))))
  {}

  lemma PoolIsTaken(spec: ZauSpec, turn: Turn, first: Zone, pool: seq<Pod>)
    requires ZonesOf(OldOnes(turn.pods, turn.sts), turn.zoneOf) != {} && PlanOf(spec, turn) == Delete(pool)
    requires first == FirstZone(ZonesOf(OldOnes(turn.pods, turn.sts), turn.zoneOf))
    ensures var pods := if AllServe(turn) then OldOnes(turn.pods, turn.sts) else OldOnesNotReady(turn.pods, turn.sts);
            pool == Filter(Sort(pods, HigherOrdinal), InZone(turn.zoneOf, first))
  {
    var oldPods, down := OldOnes(turn.pods, turn.sts), OldOnesNotReady(turn.pods, turn.sts);
    SortedZones(oldPods, turn.zoneOf);
    SortedZones(down, turn.zoneOf);
    PoolOn(Sort(oldPods, HigherOrdinal), Sort(down, HigherOrdinal), spec, turn, pool);
    assert AllServe(turn) <==> turn.sts.replicas == turn.sts.readyReplicas && down == [] by {
      LeftAre(turn);
    }
  }

  lemma PoolOfPlan(spec: ZauSpec, turn: Turn, first: Zone, pool: seq<Pod>)
    requires ZonesOf(OldOnes(turn.pods, turn.sts), turn.zoneOf) != {} && PlanOf(spec, turn) == Delete(pool)
    requires first == FirstZone(ZonesOf(OldOnes(turn.pods, turn.sts), turn.zoneOf))
    ensures IsPool(turn, pool, first)
  {
    PoolIsTaken(spec, turn, first, pool);
    TakenIsPool(turn, pool, first);
  }

  lemma TakenIsPool(turn: Turn, pool: seq<Pod>, z: Zone)
    requires var pods := if AllServe(turn) then OldOnes(turn.pods, turn.sts) else OldOnesNotReady(turn.pods, turn.sts);
             pool == Filter(Sort(pods, HigherOrdinal), InZone(turn.zoneOf, z))
    ensures IsPool(turn, pool, z)
  {
    if AllServe(turn) {
      PoolIs(turn, OldOnes(turn.pods, turn.sts), pool, IsOld(turn.sts.updateRevision), z);
    } else {
      PoolIs(turn, OldOnesNotReady(turn.pods, turn.sts), pool, IsOldNotReady(turn.sts.updateRevision), z);
    }
  }

  // ---------- what then ----------

  /** The record shows these revisions and counts. */
  ghost predicate Shows(status: ZauStatus, sts: Sts, counts: map<Zone, int>) {
    && status.currentRevision == sts.currentRevision && status.updateRevision == sts.updateRevision
    && forall z :: Count(status.oldReplicas, z) == Count(counts, z)
  }

  /** A pause deletes nothing, asks to be called again, and reads paused with the step and the last batch as before. */
  lemma PauseEffect(spec: ZauSpec, status: ZauStatus, turn: Turn)
    requires PlanOf(spec, turn).Pause?
    ensures var effect := Take(spec, status, turn);
            && effect.outcome == Recheck && effect.deleted == []
            && effect.status.paused && effect.status.step == status.step && effect.status.deleted == status.deleted
            && Shows(effect.status, turn.sts, CountsOf(turn))
  {}

  /** Only a pause asks to be called again, and only a crash panics. */
  lemma RecheckIffPause(spec: ZauSpec, status: ZauStatus, turn: Turn)
    ensures Take(spec, status, turn).outcome == Recheck <==> PlanOf(spec, turn).Pause?
    ensures Take(spec, status, turn).outcome == Panic <==> PlanOf(spec, turn).Crash?
  {}

  /** An unreadable alarm fails the reconcile without a trace. */
  lemma AlarmFailureEffect(spec: ZauSpec, status: ZauStatus, turn: Turn)
    requires PlanOf(spec, turn).AlarmFailure?
    ensures Take(spec, status, turn) == Effect(Failure, [], status)
  {}

  /** Nothing to do, or nothing to be done yet: no trace, and no failure. */
  lemma IdleEffect(spec: ZauSpec, status: ZauStatus, turn: Turn)
    requires PlanOf(spec, turn).Stop? || PlanOf(spec, turn).Wait?
    ensures Take(spec, status, turn) == Effect(Done, [], status)
  {}

  /** The end of a rollout: the current revision moves on first, then the status, and either may be refused. */
  lemma CompleteEffect(spec: ZauSpec, status: ZauStatus, turn: Turn)
    requires PlanOf(spec, turn).Complete?
    ensures var effect, sts := Take(spec, status, turn), turn.sts;
            var moved := turn.server.savesRevision || sts.currentRevision == sts.updateRevision;
            && effect.deleted == []
            && (!moved ==> effect == Effect(Failure, [], status))
            && (moved ==>
                  && effect.status.step == 0 && effect.status.deleted == 0 && !effect.status.paused
                  && Shows(effect.status, sts.(currentRevision := sts.updateRevision), map[])
                  && (effect.outcome == Done
                      <==> turn.server.savesStatus || (status == effect.status && status.oldReplicas == map[]))
                  && (effect.outcome == Failure <==> effect.outcome != Done))
  {}

  lemma BatchCarried(spec: ZauSpec, status: ZauStatus, sts: Sts, pool: seq<Pod>, counts: map<Zone, int>,
                     server: Server, n: int)
    requires BatchSize(spec, status, sts, |pool|) == Ok(n)
    ensures n <= |pool|
    ensures DeleteEffect(spec, status, sts, pool, counts, server).deleted
            == if spec.dryRun || n <= 0 then []
               else pool[..if server.refusesDelete.Some? && server.refusesDelete.value < n
                           then server.refusesDelete.value else n]
  {}

  lemma BatchRecorded(spec: ZauSpec, status: ZauStatus, sts: Sts, pool: seq<Pod>, counts: map<Zone, int>,
                      server: Server, n: int, effect: Effect)
    requires BatchSize(spec, status, sts, |pool|) == Ok(n)
    requires effect == DeleteEffect(spec, status, sts, pool, counts, server)
    ensures !GoesThrough(spec, server, n) ==> effect.status == status && effect.outcome == Failure
    ensures GoesThrough(spec, server, n) ==>
              && effect.status.step == EffectiveStep(status, sts.updateRevision) + 1
              && effect.status.deleted == n && !effect.status.paused && Shows(effect.status, sts, counts)
              && effect.outcome
                 == if server.savesStatus || (status == effect.status && status.oldReplicas == counts)
                    then Done else Failure
  {}

  /** A batch deletes no more than the ramp allows of the pool, in its order, up to the first refusal. */
  lemma BatchDeletes(spec: ZauSpec, status: ZauStatus, turn: Turn, n: int)
    requires PlanOf(spec, turn).Delete? && SizeOf(spec, status, turn) == Ok(n)
    ensures n <= |PlanOf(spec, turn).pool|
    ensures Take(spec, status, turn).deleted
            == if spec.dryRun || n <= 0 then []
               else PlanOf(spec, turn).pool[..if turn.server.refusesDelete.Some? && turn.server.refusesDelete.value < n
                                              then turn.server.refusesDelete.value else n]
  {
    BatchCarried(spec, status, turn.sts, PlanOf(spec, turn).pool, CountsOf(turn), turn.server, n);
  }

  /** Unless a delete is refused it is recorded, with the step moved on and any pause over. */
  lemma BatchEffect(spec: ZauSpec, status: ZauStatus, turn: Turn, n: int, effect: Effect)
    requires PlanOf(spec, turn).Delete? && SizeOf(spec, status, turn) == Ok(n) && effect == Take(spec, status, turn)
    ensures !spec.dryRun && turn.server.refusesDelete.Some? && turn.server.refusesDelete.value < n
            ==> effect.status == status && effect.outcome == Failure
    ensures spec.dryRun || turn.server.refusesDelete.None? || turn.server.refusesDelete.value >= n ==>
              && effect.status.step
                 == 1 + (if status.updateRevision == turn.sts.updateRevision then status.step else 0)
              && effect.status.deleted == n && !effect.status.paused && Shows(effect.status, turn.sts, CountsOf(turn))
              && effect.outcome
                 == if turn.server.savesStatus || (status == effect.status && status.oldReplicas == CountsOf(turn))
                    then Done else Failure
  {
    BatchRecorded(spec, status, turn.sts, PlanOf(spec, turn).pool, CountsOf(turn), turn.server, n, effect);
  }

  /** A limit or a factor that cannot be read fails the batch without a trace. */
  lemma NoSizeEffect(spec: ZauSpec, status: ZauStatus, turn: Turn)
    requires PlanOf(spec, turn).Delete?
    ensures SizeOf(spec, status, turn).Err? <==> spec.maxUnavailable.Missing? || spec.maxUnavailable.Malformed?
                                                 || spec.factor.None?
    ensures SizeOf(spec, status, turn).Err? ==> Take(spec, status, turn) == Effect(Failure, [], status)
  {}
}
