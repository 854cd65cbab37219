/**
 * The rollout as it runs: deletes are issued one at a time and may stop anywhere, pods vanish once terminated, come
 * back at any revision, become ready at any time and fail at any time, and every reconcile may read any revision,
 * replica counts, status, spec and alarm.
 */
module RolloutSafety {
  import opened Seqs
  import opened Sorting
  import opened Pods
  import opened ExpectedPods
  import opened ZauController
  import opened RolloutDecisions

  /**
   * members names the pods of the set, of which pods lists those there are, and queue holds the deletes the current
   * reconcile has yet to issue. failed is bookkeeping: the pods that have stopped serving on their own, until they
   * serve again without being up for deletion.
   */
  datatype World = World(zoneOf: map<PodName, Zone>, members: set<PodName>, pods: seq<Pod>, queue: seq<PodName>,
                         failed: set<PodName>)

  /** Fail puts a pod that does not serve in the place of one that does: it may be crashed, not ready or evicted. */
  datatype Event =
    | Reconcile(sts: Sts, spec: ZauSpec, status: ZauStatus, alarm: Alarm)
    | DeleteNext
    | DeleteFails
    | Remove(i: nat)
    | Create(pod: Pod)
    | BecomeReady(i: nat)
    | Fail(i: nat, pod: Pod)

  /** The batch a reconcile goes on to delete, if any. */
  ghost function Batch(pods: seq<Pod>, zoneOf: map<PodName, Zone>, sts: Sts, spec: ZauSpec, status: ZauStatus,
                       alarm: Alarm): seq<Pod>
  {
    EffectOf(PlanFor(pods, zoneOf, sts, spec, alarm), spec, status, sts, FreshCounts(pods, zoneOf, sts.updateRevision),
             Server(None, true, true)).deleted
  }

  function NamesOf(pods: seq<Pod>): seq<PodName> {
    seq(|pods|, i requires 0 <= i < |pods| => pods[i].name)
  }

  function Terminated(pods: seq<Pod>, name: PodName): seq<Pod> {
    seq(|pods|, i requires 0 <= i < |pods| => if pods[i].name == name then pods[i].(terminating := true) else pods[i])
  }

  function PodNames(pods: seq<Pod>): set<PodName> {
    set p | p in pods :: p.name
  }

  /** The pods between their removal and their return, which no list shows. */
  function Absent(w: World): set<PodName> {
    w.members - PodNames(w.pods)
  }

  /** Those of them that the rollout has removed. */
  function Missing(w: World): set<PodName> {
    Absent(w) - w.failed
  }

  ghost predicate ReadsReady(w: World, e: Event)
    requires e.Reconcile?
  {
    !e.spec.dryRun && AllReady(w.pods, w.zoneOf, e.sts, e.spec, e.alarm)
  }

  ghost function FirstZoneRead(w: World, e: Event): Zone
    requires e.Reconcile? && ReadsReady(w, e)
  {
    FirstZone(ZonesOf(OldOnes(w.pods, e.sts), w.zoneOf))
  }

  /** How many ready pods a reconcile takes: with all ready, as many old pods of the first zone as the ramp allows. */
  ghost function ReadyTaken(w: World, e: Event): nat
    requires e.Reconcile?
  {
    if !ReadsReady(w, e) then 0
    else
      match BatchSize(e.spec, e.status, e.sts, |Filter(OldOnes(w.pods, e.sts), InZone(w.zoneOf, FirstZoneRead(w, e)))|)
      case Ok(n) => Max(0, n)
      case Err => 0
  }

  /**
   * There is room for what a reconcile takes beside the pods that are missing: unless it takes no ready pod, they are
   * in the first zone, and together the two keep within the limit.
   */
  ghost predicate RoomFor(w: World, e: Event, limit: int)
    requires e.Reconcile?
  {
    ReadyTaken(w, e) > 0 ==>
      && (forall n :: n in Missing(w) ==> n in w.zoneOf && w.zoneOf[n] == FirstZoneRead(w, e))
      && |Missing(w)| + ReadyTaken(w, e) <= Max(0, limit)
  }

  /** There is room for what a reconcile sets out to delete. */
  ghost predicate Enabled(w: World, e: Event, limit: int) {
    Possible(w, e) && (e.Reconcile? ==> RoomFor(w, e, limit))
  }

  predicate Possible(w: World, e: Event) {
    match e
    case Reconcile(_, _, _, _) => w.queue == []
    case DeleteNext => w.queue != []
    case DeleteFails => w.queue != []
    case Remove(i) => i < |w.pods| && w.pods[i].terminating
    case Create(pod) => pod.name in Absent(w) && !pod.terminating && pod.revision.Some? && !RunningAndReady(pod)
    case BecomeReady(i) => i < |w.pods| && !w.pods[i].terminating
    case Fail(i, pod) =>
      i < |w.pods| && Up(w.pods[i]) && !Up(pod) && pod.name == w.pods[i].name && pod.revision == w.pods[i].revision
  }

  ghost function Next(w: World, e: Event): World
    requires Possible(w, e)
  {
    match e
    case Reconcile(sts, spec, status, alarm) =>
      w.(queue := NamesOf(Batch(w.pods, w.zoneOf, sts, spec, status, alarm)))
    case DeleteNext => w.(pods := Terminated(w.pods, w.queue[0]), queue := w.queue[1..])
    case DeleteFails => w.(queue := [], failed := w.failed - (PodNames(w.pods) - Down(w.pods)))
    case Remove(i) => w.(pods := w.pods[..i] + w.pods[i + 1..])
    case Create(pod) => w.(pods := w.pods + [pod])
    case BecomeReady(i) =>
      w.(pods := w.pods[i := w.pods[i].(phase := Running, ready := true)],
         failed := if w.pods[i].name in w.queue then w.failed else w.failed - {w.pods[i].name})
    case Fail(i, pod) =>
      w.(pods := w.pods[i := pod], failed := if pod.name in w.queue then w.failed else w.failed + {pod.name})
  }

  /** Pods that do not serve. */
  function Down(pods: seq<Pod>): set<PodName> {
    set p | p in pods && !Up(p) :: p.name
  }

  /** Pods that do not serve, are missing, or are about to be deleted. */
  function Disturbed(w: World): set<PodName> {
    Down(w.pods) + Absent(w) + set n | n in w.queue
  }

  /** Those of them that have not failed on their own. */
  function Taken(w: World): set<PodName> {
    Disturbed(w) - w.failed
  }

  /** Pods about to be deleted, and those taken that are still there, are labelled; failed pods do not serve. */
  ghost predicate Accounted(w: World) {
    forall p :: p in w.pods ==>
      && (p.name in w.queue || (!Up(p) && !p.terminating && p.name !in w.failed) ==> p.revision.Some?)
      && (p.name in w.failed && Up(p) ==> p.name in w.queue)
  }

  ghost predicate Safe(w: World, limit: int) {
    && DistinctNames(w.pods) && Accounted(w)
    && OneZone(Taken(w), w.zoneOf)
    && |Taken(w)| <= Max(0, limit)
  }

  // ---------- one reconcile ----------

  /** The batch is a prefix of the pool and no larger than the limit. */
  lemma BatchIsBounded(pods: seq<Pod>, zoneOf: map<PodName, Zone>, sts: Sts, spec: ZauSpec, status: ZauStatus,
                       alarm: Alarm)
    ensures var plan := PlanFor(pods, zoneOf, sts, spec, alarm);
            var batch := Batch(pods, zoneOf, sts, spec, status, alarm);
            && (!plan.Delete? ==> batch == [])
            && (plan.Delete? ==> batch <= plan.pool)
            && (batch != [] ==> Scaled(spec.maxUnavailable, sts.replicas).Ok?
                                && |batch| <= Scaled(spec.maxUnavailable, sts.replicas).value)
  {}

  /** Where the pool of a plan comes from: one zone of the old pods, or of the old pods that are not ready. */
  lemma PoolOrigin(pods: seq<Pod>, zoneOf: map<PodName, Zone>, sts: Sts, spec: ZauSpec, alarm: Alarm)
    returns (source: seq<Pod>, z: Zone)
    requires PlanFor(pods, zoneOf, sts, spec, alarm).Delete?
    ensures var notReady := Sort(Filter(pods, IsOldNotReady(sts.updateRevision)), HigherOrdinal);
            && PlanFor(pods, zoneOf, sts, spec, alarm).pool == Filter(source, InZone(zoneOf, z))
            && !Blocked(pods, sts.updateRevision)
            && (source == notReady
                || (notReady == [] && source == Sort(Filter(pods, IsOld(sts.updateRevision)), HigherOrdinal)))
  {
    var oldPods := Sort(Filter(pods, IsOld(sts.updateRevision)), HigherOrdinal);
    var notReady := Sort(Filter(pods, IsOldNotReady(sts.updateRevision)), HigherOrdinal);
    z := FirstZone(ZonesOf(oldPods, zoneOf));
    source := if sts.replicas != sts.readyReplicas || notReady != [] then notReady else oldPods;
  }

  /** All that a reconcile may delete lies in one zone, among the pods there are. */
  lemma PoolFacts(pods: seq<Pod>, zoneOf: map<PodName, Zone>, sts: Sts, spec: ZauSpec, alarm: Alarm) returns (z: Zone)
    requires DistinctNames(pods) && PlanFor(pods, zoneOf, sts, spec, alarm).Delete?
    ensures DistinctNames(PlanFor(pods, zoneOf, sts, spec, alarm).pool)
    ensures forall p :: p in PlanFor(pods, zoneOf, sts, spec, alarm).pool ==>
              p in pods && p.revision.Some? && p.name in zoneOf && zoneOf[p.name] == z
  {
    var source;
    source, z := PoolOrigin(pods, zoneOf, sts, spec, alarm);
    SortKeepsNames(pods, IsOld(sts.updateRevision));
    SortKeepsNames(pods, IsOldNotReady(sts.updateRevision));
    FilterMembers(source, InZone(zoneOf, z));
    FilterKeepsOrder(source, InZone(zoneOf, z), (p: Pod, q: Pod) => p.name != q.name);
  }

  /**
   * A reconcile sets out to delete a ready pod only if no pod is terminating and every labelled one is up; otherwise it
   * deletes pods that are down anyway.
   */
  lemma ReadyPodsNeedAllReady(pods: seq<Pod>, zoneOf: map<PodName, Zone>, sts: Sts, spec: ZauSpec, alarm: Alarm,
                              plan: Plan)
    requires plan == PlanFor(pods, zoneOf, sts, spec, alarm) && plan.Delete?
    ensures forall p :: p in pods ==> !p.terminating
    ensures if AllReady(pods, zoneOf, sts, spec, alarm) then forall p :: p in pods && p.revision.Some? ==> Up(p)
            else forall p :: p in plan.pool ==> !RunningAndReady(p)
  {
    DeletesReadyIff(pods, zoneOf, sts, spec, alarm, plan);
    FilterMembers(pods, IsOldNotReady(sts.updateRevision));
    forall p | p in pods ensures !Blocks(p, sts.updateRevision) {
      var i :| 0 <= i < |pods| && pods[i] == p;
      assert !Blocks(pods[i], sts.updateRevision);
    }
    if AllReady(pods, zoneOf, sts, spec, alarm) {
      forall p | p in pods && p.revision.Some? ensures Up(p) {
        assert p !in OldOnesNotReady(pods, sts);
      }
    }
  }

  // ---------- every run ----------

  lemma SmallerIsSafe(w: World, d: World, limit: int)
    requires Safe(w, limit) && d.zoneOf == w.zoneOf && DistinctNames(d.pods) && Accounted(d) && Taken(d) <= Taken(w)
    ensures Safe(d, limit)
  {
    Subset(Taken(d), Taken(w));
  }

  lemma NamesAre(pods: seq<Pod>)
    ensures (set n | n in NamesOf(pods)) == PodNames(pods)
  {
    var names := NamesOf(pods);
    forall p | p in pods ensures p.name in names {
      var i :| 0 <= i < |pods| && pods[i] == p;
      assert names[i] == p.name;
    }
    forall n | n in names ensures n in PodNames(pods) {
      var i :| 0 <= i < |pods| && names[i] == n;
      assert pods[i] in pods;
    }
  }

  lemma {:induction false} NamesCount(pods: seq<Pod>)
    requires DistinctNames(pods)
    ensures |PodNames(pods)| == |pods|
  {
    if pods == [] {
      assert PodNames(pods) == {};
    } else {
      var front, last := pods[..|pods| - 1], pods[|pods| - 1];
      NamesCount(front);
      assert pods == front + [last];
      assert PodNames(pods) == PodNames(front) + {last.name};
      assert last.name !in PodNames(front);
    }
  }

  /** What a reconcile has planned, seen from a world in which it may delete something. */
  ghost predicate IsPlanned(w: World, batch: seq<Pod>, z: Zone) {
    && batch != [] && DistinctNames(batch)
    && (forall p :: p in w.pods ==> !p.terminating)
    && (forall p :: p in batch ==> p in w.pods && p.revision.Some? && InZone(w.zoneOf, z)(p))
  }

  lemma InPrefix(batch: seq<Pod>, pool: seq<Pod>)
    requires batch <= pool
    ensures forall p :: p in batch ==> p in pool
    ensures DistinctNames(pool) ==> DistinctNames(batch)
  {
    forall p | p in batch ensures p in pool {
      var i :| 0 <= i < |batch| && batch[i] == p;
      assert pool[i] == p;
    }
  }

  lemma BatchIsPlanned(w: World, e: Event, batch: seq<Pod>) returns (z: Zone)
    requires DistinctNames(w.pods) && e.Reconcile? && batch == Batch(w.pods, w.zoneOf, e.sts, e.spec, e.status, e.alarm)
    requires batch != []
    ensures IsPlanned(w, batch, z)
  {
    BatchIsBounded(w.pods, w.zoneOf, e.sts, e.spec, e.status, e.alarm);
    z := PoolFacts(w.pods, w.zoneOf, e.sts, e.spec, e.alarm);
    ReadyPodsNeedAllReady(w.pods, w.zoneOf, e.sts, e.spec, e.alarm, PlanFor(w.pods, w.zoneOf, e.sts, e.spec, e.alarm));
    InPrefix(batch, PlanFor(w.pods, w.zoneOf, e.sts, e.spec, e.alarm).pool);
  }

  lemma NoReadyTaken(w: World, e: Event, batch: seq<Pod>)
    requires e.Reconcile? && batch == Batch(w.pods, w.zoneOf, e.sts, e.spec, e.status, e.alarm) && !ReadsReady(w, e)
    ensures forall p :: p in batch ==> !RunningAndReady(p)
  {
    var plan := PlanFor(w.pods, w.zoneOf, e.sts, e.spec, e.alarm);
    DeletesReadyIff(w.pods, w.zoneOf, e.sts, e.spec, e.alarm, plan);
    BatchIsBounded(w.pods, w.zoneOf, e.sts, e.spec, e.status, e.alarm);
    if plan.Delete? && batch != [] {
      InPrefix(batch, plan.pool);
    }
  }

  /** With all ready, the batch is so large, and all of it from the first zone. */
  lemma AllReadyTaken(w: World, e: Event, batch: seq<Pod>, first: Zone)
    requires e.Reconcile? && batch == Batch(w.pods, w.zoneOf, e.sts, e.spec, e.status, e.alarm)
    requires ReadsReady(w, e) && first == FirstZoneRead(w, e)
    ensures |batch| == ReadyTaken(w, e) && forall p :: p in batch ==> InZone(w.zoneOf, first)(p)
    ensures forall p :: p in w.pods && p.revision.Some? ==> Up(p)
  {
    var plan := PlanFor(w.pods, w.zoneOf, e.sts, e.spec, e.alarm);
    DeletesReadyIff(w.pods, w.zoneOf, e.sts, e.spec, e.alarm, plan);
    PoolMembers(w.pods, w.zoneOf, e.sts, first);
    ReadyPodsNeedAllReady(w.pods, w.zoneOf, e.sts, e.spec, e.alarm, plan);
    BatchIsHead(e, plan.pool, batch, FreshCounts(w.pods, w.zoneOf, e.sts.updateRevision));
    InPrefix(batch, plan.pool);
  }

  lemma BatchIsHead(e: Event, pool: seq<Pod>, batch: seq<Pod>, counts: map<Zone, int>)
    requires e.Reconcile? && !e.spec.dryRun
    requires batch == DeleteEffect(e.spec, e.status, e.sts, pool, counts, Server(None, true, true)).deleted
    ensures batch <= pool
    ensures |batch| == match BatchSize(e.spec, e.status, e.sts, |pool|) case Ok(n) => Max(0, n) case Err => 0
  {}

  /** A batch of pods that are down anyway disturbs nothing more. */
  lemma DownBatchIsSafe(w: World, d: World, batch: seq<Pod>, z: Zone, limit: int)
    requires Safe(w, limit) && w.queue == [] && d == w.(queue := NamesOf(batch)) && IsPlanned(w, batch, z)
    requires forall p :: p in batch ==> !RunningAndReady(p)
    ensures Safe(d, limit)
  {
    NamesAre(batch);
    PlannedIsAccounted(w, d, batch, z);
    assert PodNames(batch) <= Down(w.pods);
    assert Disturbed(d) == Disturbed(w);
  }

  lemma PlannedIsAccounted(w: World, d: World, batch: seq<Pod>, z: Zone)
    requires DistinctNames(w.pods) && Accounted(w) && w.queue == [] && d == w.(queue := NamesOf(batch))
    requires IsPlanned(w, batch, z)
    ensures Accounted(d)
  {
    NamesAre(batch);
    forall p | p in w.pods && p.name in PodNames(batch) ensures p in batch {
      var q :| q in batch && q.name == p.name;
      var i :| 0 <= i < |w.pods| && w.pods[i] == p;
      var j :| 0 <= j < |w.pods| && w.pods[j] == q;
    }
    forall p | p in d.pods ensures p.name in d.queue ==> p.name in PodNames(batch) {}
  }

  /**
   * A batch of ready pods is planned only while none but failed pods are down, so it comes on top of what is missing.
   */
  lemma ReadyBatchDisturbs(w: World, d: World, batch: seq<Pod>, z: Zone)
    requires Accounted(w) && w.queue == [] && d == w.(queue := NamesOf(batch)) && IsPlanned(w, batch, z)
    requires forall p :: p in w.pods && p.revision.Some? ==> Up(p)
    ensures Taken(w) == Missing(w) && Taken(d) == Missing(w) + PodNames(batch) && Missing(w) !! PodNames(batch)
  {
    assert Down(w.pods) <= w.failed;
    assert PodNames(batch) <= PodNames(w.pods) && PodNames(batch) !! w.failed;
    QueueDisturbs(w, d, batch);
  }

  lemma QueueDisturbs(w: World, d: World, batch: seq<Pod>)
    requires w.queue == [] && d == w.(queue := NamesOf(batch)) && Down(w.pods) <= w.failed
    requires PodNames(batch) <= PodNames(w.pods) && PodNames(batch) !! w.failed
    ensures Taken(w) == Missing(w) && Taken(d) == Missing(w) + PodNames(batch) && Missing(w) !! PodNames(batch)
  {
    NamesAre(batch);
  }

  lemma OnTop(missing: set<PodName>, batch: seq<Pod>, zoneOf: map<PodName, Zone>, z: Zone)
    requires missing !! PodNames(batch) && batch != [] && DistinctNames(batch)
    requires forall p :: p in batch ==> InZone(zoneOf, z)(p)
    ensures |missing + PodNames(batch)| == |missing| + |batch|
    ensures OneZone(missing + PodNames(batch), zoneOf) <==> forall n :: n in missing ==> n in zoneOf && zoneOf[n] == z
  {
    NamesCount(batch);
    assert batch[0] in batch;
    assert batch[0].name in PodNames(batch);
  }

  /** From a safe world, a reconcile leads to a safe one if and only if there is room for what it takes. */
  lemma ReconcileIsSafeIff(w: World, e: Event, limit: int)
    requires Safe(w, limit) && e.Reconcile? && Possible(w, e)
    ensures Safe(Next(w, e), limit) <==> RoomFor(w, e, limit)
  {
    var batch := Batch(w.pods, w.zoneOf, e.sts, e.spec, e.status, e.alarm);
    if ReadsReady(w, e) {
      AllReadyIsSafeIff(w, e, batch, Next(w, e), FirstZoneRead(w, e), limit);
    } else {
      NotReadyIsSafe(w, e, batch, Next(w, e), limit);
    }
  }

  lemma NotReadyIsSafe(w: World, e: Event, batch: seq<Pod>, d: World, limit: int)
    requires e.Reconcile? && batch == Batch(w.pods, w.zoneOf, e.sts, e.spec, e.status, e.alarm)
    requires Safe(w, limit) && w.queue == [] && d == w.(queue := NamesOf(batch)) && !ReadsReady(w, e)
    ensures Safe(d, limit)
  {
    NoReadyTaken(w, e, batch);
    if batch == [] {
      assert d == w;
    } else {
      var z := BatchIsPlanned(w, e, batch);
      DownBatchIsSafe(w, d, batch, z, limit);
    }
  }

  lemma AllReadyIsSafeIff(w: World, e: Event, batch: seq<Pod>, d: World, first: Zone, limit: int)
    requires e.Reconcile? && batch == Batch(w.pods, w.zoneOf, e.sts, e.spec, e.status, e.alarm)
    requires Safe(w, limit) && w.queue == [] && d == w.(queue := NamesOf(batch))
    requires ReadsReady(w, e) && first == FirstZoneRead(w, e)
    ensures Safe(d, limit) <==> RoomFor(w, e, limit)
  {
    AllReadyTaken(w, e, batch, first);
    if batch == [] {
      assert d == w;
    } else {
      var z := BatchIsPlanned(w, e, batch);
      ReadyBatchIsSafeIff(w, d, batch, z, first, limit);
    }
  }

  lemma ReadyBatchIsSafeIff(w: World, d: World, batch: seq<Pod>, z: Zone, first: Zone, limit: int)
    requires Safe(w, limit) && w.queue == [] && d == w.(queue := NamesOf(batch)) && IsPlanned(w, batch, z)
    requires forall p :: p in w.pods && p.revision.Some? ==> Up(p)
    requires forall p :: p in batch ==> InZone(w.zoneOf, first)(p)
    ensures Safe(d, limit) <==> (forall n :: n in Missing(w) ==> n in w.zoneOf && w.zoneOf[n] == first)
                                && |Missing(w)| + |batch| <= Max(0, limit)
  {
    ReadyBatchDisturbs(w, d, batch, z);
    PlannedIsAccounted(w, d, batch, z);
    OnTop(Missing(w), batch, w.zoneOf, first);
  }

  /** While no pod is missing there is always room within the maxUnavailable of the reconcile. */
  lemma NobodyMissing(w: World, e: Event, limit: int)
    requires Missing(w) == {} && e.Reconcile?
    requires var bound := Scaled(e.spec.maxUnavailable, e.sts.replicas); bound.Ok? ==> bound.value <= limit
    ensures RoomFor(w, e, limit)
  {}

  lemma TerminatedPods(pods: seq<Pod>, name: PodName, after: seq<Pod>)
    requires DistinctNames(pods) && after == Terminated(pods, name)
    ensures DistinctNames(after) && PodNames(after) == PodNames(pods) && Down(after) <= Down(pods) + {name}
    ensures forall p :: p in after && !p.terminating ==> p in pods
  {
    SamePodNames(pods, after);
    forall p | p in after ensures p in pods || (p.terminating && p.name == name) {
      var i :| 0 <= i < |after| && after[i] == p;
      assert pods[i] in pods;
    }
  }

  lemma DeleteIsAccounted(w: World, d: World)
    requires DistinctNames(w.pods) && Accounted(w) && w.queue != []
    requires d == w.(pods := Terminated(w.pods, w.queue[0]), queue := w.queue[1..])
    ensures Accounted(d)
  {
    assert forall n :: n in w.queue <==> n == w.queue[0] || n in d.queue;
    forall i | 0 <= i < |d.pods|
      ensures d.pods[i].revision == w.pods[i].revision && d.pods[i].name == w.pods[i].name && w.pods[i] in w.pods
      ensures d.pods[i].terminating || (d.pods[i] == w.pods[i] && d.pods[i].name != w.queue[0])
    {}
  }

  lemma DeleteTakes(w: World, d: World)
    requires DistinctNames(w.pods) && w.queue != []
    requires d == w.(pods := Terminated(w.pods, w.queue[0]), queue := w.queue[1..])
    ensures DistinctNames(d.pods) && Taken(d) <= Taken(w)
  {
    TerminatedPods(w.pods, w.queue[0], d.pods);
    assert forall n :: n in w.queue <==> n == w.queue[0] || n in d.queue;
  }

  lemma DeleteIsSafe(w: World, d: World, limit: int)
    requires Safe(w, limit) && w.queue != []
    requires d == w.(pods := Terminated(w.pods, w.queue[0]), queue := w.queue[1..])
    ensures Safe(d, limit)
  {
    DeleteIsAccounted(w, d);
    DeleteTakes(w, d);
    SmallerIsSafe(w, d, limit);
  }

  lemma DeletesStop(w: World, d: World, limit: int)
    requires Safe(w, limit) && w.queue != [] && d == Next(w, DeleteFails)
    ensures Safe(d, limit)
  {
    forall p | p in d.pods && !Up(p) ensures p.name in Down(w.pods) {}
    forall p | p in d.pods && Up(p) ensures p.name !in Down(w.pods) {
      OneOfName(w.pods, p);
    }
    SmallerIsSafe(w, d, limit);
  }

  lemma OneOfName(pods: seq<Pod>, p: Pod)
    requires DistinctNames(pods) && p in pods
    ensures forall q :: q in pods && q.name == p.name ==> q == p
  {
    forall q | q in pods && q.name == p.name ensures q == p {
      var i :| 0 <= i < |pods| && pods[i] == p;
      var j :| 0 <= j < |pods| && pods[j] == q;
    }
  }

  lemma SamePodNames(before: seq<Pod>, after: seq<Pod>)
    requires |before| == |after| && forall i :: 0 <= i < |before| ==> before[i].name == after[i].name
    ensures PodNames(before) == PodNames(after)
  {
    forall n | n in PodNames(before) ensures n in PodNames(after) {
      var i :| 0 <= i < |before| && before[i].name == n;
      assert after[i] in after;
    }
    forall n | n in PodNames(after) ensures n in PodNames(before) {
      var i :| 0 <= i < |after| && after[i].name == n;
      assert before[i] in before;
    }
  }

  lemma Without(pods: seq<Pod>, i: nat, rest: seq<Pod>)
    requires DistinctNames(pods) && i < |pods| && rest == pods[..i] + pods[i + 1..]
    ensures DistinctNames(rest) && forall p :: p in rest ==> p in pods
    ensures PodNames(pods) == PodNames(rest) + {pods[i].name}
  {
    assert pods == pods[..i] + [pods[i]] + pods[i + 1..];
    assert forall p :: p in pods <==> p in rest || p == pods[i];
  }

  /** A terminated pod that vanishes was down before and is missing, if anything, after. */
  lemma RemoveIsSafe(w: World, i: nat, d: World, limit: int)
    requires Safe(w, limit) && Possible(w, Remove(i)) && d == Next(w, Remove(i))
    ensures Safe(d, limit)
  {
    Without(w.pods, i, d.pods);
    assert w.pods[i] in w.pods;
    assert w.pods[i].name in Down(w.pods);
    assert Down(d.pods) <= Down(w.pods) && Absent(d) <= Absent(w) + {w.pods[i].name};
    SmallerIsSafe(w, d, limit);
  }

  lemma With(pods: seq<Pod>, pod: Pod, more: seq<Pod>)
    requires DistinctNames(pods) && pod.name !in PodNames(pods) && !Up(pod) && more == pods + [pod]
    ensures DistinctNames(more) && forall p :: p in more <==> p in pods || p == pod
    ensures PodNames(more) == PodNames(pods) + {pod.name} && Down(more) == Down(pods) + {pod.name}
  {
    forall i | 0 <= i < |pods| ensures pods[i].name in PodNames(pods) {}
  }

  /** A pod that comes back was missing before and is down after. */
  lemma CreateDisturbsNothing(w: World, pod: Pod, d: World)
    requires DistinctNames(w.pods) && pod.name in Absent(w) && !Up(pod) && d == w.(pods := w.pods + [pod])
    ensures DistinctNames(d.pods) && forall p :: p in d.pods <==> p in w.pods || p == pod
    ensures Disturbed(d) == Disturbed(w)
  {
    With(w.pods, pod, d.pods);
    assert Absent(d) + {pod.name} == Absent(w);
  }

  lemma CreateIsSafe(w: World, pod: Pod, d: World, limit: int)
    requires Safe(w, limit) && Possible(w, Create(pod)) && d == w.(pods := w.pods + [pod])
    ensures Safe(d, limit)
  {
    CreateDisturbsNothing(w, pod, d);
    SmallerIsSafe(w, d, limit);
  }

  lemma ReplacedPod(pods: seq<Pod>, i: nat, pod: Pod, after: seq<Pod>)
    requires DistinctNames(pods) && i < |pods| && pod.name == pods[i].name && after == pods[i := pod]
    ensures DistinctNames(after) && PodNames(after) == PodNames(pods)
    ensures forall p :: p in after ==> p == pod || (p in pods && p.name != pod.name)
    ensures Down(after) == Down(pods) - {pod.name} + if Up(pod) then {} else {pod.name}
  {
    SamePodNames(pods, after);
    forall p | p in after ensures p == pod || (p in pods && p.name != pod.name) {
      var j :| 0 <= j < |after| && after[j] == p;
    }
    forall p | p in pods && p.name != pod.name ensures p in after {
      var j :| 0 <= j < |pods| && pods[j] == p;
      assert after[j] == p;
    }
    assert after[i] == pod;
  }

  /** A pod gets ready or fails: who is charged for it, if anyone. */
  predicate Recharged(w: World, pod: Pod, failed: set<PodName>) {
    failed == if pod.name in w.queue then w.failed
              else if Up(pod) then w.failed - {pod.name}
              else w.failed + {pod.name}
  }

  lemma ReplacedIsAccounted(w: World, i: nat, pod: Pod, d: World)
    requires DistinctNames(w.pods) && Accounted(w) && i < |w.pods| && !w.pods[i].terminating
             && Recharged(w, pod, d.failed)
    requires pod.name == w.pods[i].name && pod.revision == w.pods[i].revision
             && d == w.(pods := w.pods[i := pod], failed := d.failed)
    ensures Accounted(d)
  {
    ReplacedPod(w.pods, i, pod, d.pods);
    assert w.pods[i] in w.pods;
  }

  lemma ReplacedTakes(w: World, i: nat, pod: Pod, d: World)
    requires DistinctNames(w.pods) && i < |w.pods| && Recharged(w, pod, d.failed)
    requires pod.name == w.pods[i].name && d == w.(pods := w.pods[i := pod], failed := d.failed)
    ensures DistinctNames(d.pods) && Taken(d) <= Taken(w)
  {
    ReplacedPod(w.pods, i, pod, d.pods);
    assert w.pods[i] in w.pods;
  }

  /** A pod that fails is charged to itself, unless the rollout is about to delete it anyway. */
  lemma ReplacedIsSafe(w: World, i: nat, pod: Pod, d: World, limit: int)
    requires Safe(w, limit) && i < |w.pods| && !w.pods[i].terminating && Recharged(w, pod, d.failed)
    requires pod.name == w.pods[i].name && pod.revision == w.pods[i].revision
             && d == w.(pods := w.pods[i := pod], failed := d.failed)
    ensures Safe(d, limit)
  {
    ReplacedIsAccounted(w, i, pod, d);
    ReplacedTakes(w, i, pod, d);
    SmallerIsSafe(w, d, limit);
  }

  lemma StepIsSafe(w: World, e: Event, limit: int, d: World)
    requires Safe(w, limit) && Enabled(w, e, limit) && d == Next(w, e)
    ensures Safe(d, limit)
  {
    match e
    case Reconcile(_, _, _, _) => ReconcileIsSafeIff(w, e, limit);
    case DeleteNext => DeleteIsSafe(w, d, limit);
    case DeleteFails => DeletesStop(w, d, limit);
    case Remove(i) => RemoveIsSafe(w, i, d, limit);
    case Create(pod) => CreateIsSafe(w, pod, d, limit);
    case BecomeReady(i) => ReplacedIsSafe(w, i, w.pods[i].(phase := Running, ready := true), d, limit);
    case Fail(i, pod) => ReplacedIsSafe(w, i, pod, d, limit);
  }

  ghost predicate Legal(w: World, events: seq<Event>, limit: int)
    decreases events
  {
    events == [] || (Enabled(w, events[0], limit) && Legal(Next(w, events[0]), events[1..], limit))
  }

  ghost function After(w: World, events: seq<Event>, limit: int): World
    requires Legal(w, events, limit)
    decreases events
  {
    if events == [] then w else After(Next(w, events[0]), events[1..], limit)
  }

  /**
   * Rollout safety, for every run: whatever revisions come and go, whatever reconciles read besides the pods, wherever
   * their deletes stop and whichever pods fail meanwhile, the pods the rollout has taken or is about to delete lie in
   * one zone and number at most the limit.
   */
  lemma {:induction false} RolloutSafety(w: World, events: seq<Event>, limit: int)
    requires Safe(w, limit) && Legal(w, events, limit)
    ensures Safe(After(w, events, limit), limit)
    decreases events
  {
    if events != [] {
      StepIsSafe(w, events[0], limit, Next(w, events[0]));
      RolloutSafety(Next(w, events[0]), events[1..], limit);
    }
  }

  /** Any delete may be refused, and any pod that is up may fail: it is then charged to itself. */
  lemma TroubleHappens(w: World, i: nat, pod: Pod, limit: int)
    requires w.queue != [] && i < |w.pods| && Up(w.pods[i])
    requires !Up(pod) && pod.name == w.pods[i].name && pod.revision == w.pods[i].revision
    ensures Legal(w, [DeleteFails, Fail(i, pod)], limit)
    ensures var d := After(w, [DeleteFails, Fail(i, pod)], limit);
            d.queue == [] && d.pods == w.pods[i := pod] && pod.name in d.failed
  {
    var stopped, events: seq<Event> := Next(w, DeleteFails), [DeleteFails, Fail(i, pod)];
    assert Possible(stopped, Fail(i, pod));
    var d, none: seq<Event> := Next(stopped, Fail(i, pod)), [];
    assert events[1..] == [Fail(i, pod)] && [Fail(i, pod)][1..] == none;
    assert Legal(d, none, limit) && After(d, none, limit) == d;
    assert Legal(stopped, [Fail(i, pod)], limit) && After(stopped, [Fail(i, pod)], limit) == d;
    assert Legal(w, events, limit) && After(w, events, limit) == d;
  }

  lemma InitiallySafe(w: World, limit: int)
    requires DistinctNames(w.pods) && w.queue == [] && Absent(w) == {} && w.failed == {}
    requires forall p :: p in w.pods ==> Up(p)
    ensures Safe(w, limit)
  {}
}
