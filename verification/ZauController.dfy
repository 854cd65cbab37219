/** The rollout controller: which pods one reconcile deletes, and what it records (controllers/zau_controller.go). */
module ZauController {
  import opened Seqs
  import opened Sorting
  import opened Pods
  import opened PodZone
  import opened ExpectedPods

  const MAX_INT32 := 0x7fff_ffff

  /** factor is None when the exponentialFactor string does not parse. */
  datatype ZauSpec = ZauSpec(maxUnavailable: IntOrPercent, factor: Option<real>, alarm: string, ignoreAlarm: bool,
                             dryRun: bool)

  datatype ZauStatus = ZauStatus(currentRevision: string, updateRevision: string, oldReplicas: map<Zone, int>,
                                 step: nat, deleted: int, paused: bool)

  datatype Sts = Sts(onDelete: bool, currentRevision: string, updateRevision: string, replicas: int, readyReplicas: int)

  datatype Alarm = InAlarm | NotInAlarm | Unreadable

  // ---------- how many pods ----------

  function Pow(factor: real, n: nat): real {
    if n == 0 then 1.0 else factor * Pow(factor, n - 1)
  }

  /** Conversion of a float to an integer drops the fraction. */
  function Trunc(x: real): int {
    if x < 0.0 then -((-x).Floor) else x.Floor
  }

  /** The most pods one batch may delete at a step of the ramp. */
  function Cap(maxUnavailable: int, step: nat, factor: real): int {
    if factor == 0.0 then maxUnavailable
    else
      var power := Pow(factor, step);
      Min(Trunc(if power > MAX_INT32 as real then MAX_INT32 as real else power), maxUnavailable)
  }

  function MaxPodsToDelete(maxUnavailable: int, step: nat, factor: Option<real>): Result<int> {
    if factor.None? then Err else Ok(Cap(maxUnavailable, step, factor.value))
  }

  /** The step counter starts over when the recorded revision is not the one being rolled out. */
  function EffectiveStep(status: ZauStatus, revision: string): nat {
    if status.step > 0 && status.updateRevision != revision then 0 else status.step
  }

  /** The size of the next batch, given the pods to choose from. */
  function BatchSize(spec: ZauSpec, status: ZauStatus, sts: Sts, pool: int): Result<int> {
    match Scaled(spec.maxUnavailable, sts.replicas)
    case Err => Err
    case Ok(limit) =>
      match MaxPodsToDelete(limit, EffectiveStep(status, sts.updateRevision), spec.factor)
      case Err => Err
      case Ok(cap) => Ok(Min(pool, cap))
  }

  // ---------- which pods ----------

  predicate HigherOrdinal(p: Pod, q: Pod) {
    p.ordinal > q.ordinal
  }

  function IsOld(revision: string): Pod -> bool {
    (p: Pod) => p.revision.Some? && p.revision.value != revision
  }

  function IsOldNotReady(revision: string): Pod -> bool {
    (p: Pod) => p.revision.Some? && p.revision.value != revision && !RunningAndReady(p)
  }

  /** A pod that stops all progress: one being deleted, or an updated one that is not ready. */
  predicate Blocks(p: Pod, revision: string) {
    p.terminating || (p.revision == Some(revision) && !RunningAndReady(p))
  }

  ghost predicate Blocked(pods: seq<Pod>, revision: string) {
    exists i :: 0 <= i < |pods| && Blocks(pods[i], revision)
  }

  ghost predicate IsFirstZone(z: Zone, zones: set<Zone>) {
    z in zones && forall y :: y in zones ==> !Less(y, z)
  }

  lemma {:induction false} FirstZoneExists(zones: set<Zone>)
    requires zones != {}
    ensures exists z :: IsFirstZone(z, zones)
    decreases zones
  {
    var x :| x in zones;
    if zones - {x} == {} {
      assert zones == {x};
      LessIsStrict(x, x);
      assert IsFirstZone(x, zones);
    } else {
      FirstZoneExists(zones - {x});
      var y :| IsFirstZone(y, zones - {x});
      LessIsStrict(x, y);
      LessIsStrict(x, x);
      if Less(x, y) {
        forall w | w in zones ensures !Less(w, x) {
          LessIsTransitive(x, y, w);
        }
        assert IsFirstZone(x, zones);
      } else {
        assert IsFirstZone(y, zones);
      }
    }
  }

  ghost function FirstZone(zones: set<Zone>): (z: Zone)
    requires zones != {}
    ensures IsFirstZone(z, zones)
  {
    FirstZoneExists(zones);
    var z :| IsFirstZone(z, zones);
    z
  }

  /** In lexical order the first zone precedes all others. */
  lemma FirstZonePrecedes(zones: set<Zone>, z: Zone)
    requires zones != {}
    ensures z == FirstZone(zones) <==> z in zones && forall y :: y in zones && y != z ==> Precedes(z, y)
  {
    var first := FirstZone(zones);
    forall y | y in zones && y != first ensures Precedes(first, y) && !Precedes(y, first) {
      LessIsStrict(first, y);
      LessIsLexical(first, y);
      LessIsLexical(y, first);
    }
  }

  datatype Plan = Stop | Wait | Complete | Crash | Pause | AlarmFailure | Delete(pool: seq<Pod>)

  /** What one reconcile sets out to do. Crash is the index into an empty list of zones. */
  ghost function PlanFor(pods: seq<Pod>, zoneOf: map<PodName, Zone>, sts: Sts, spec: ZauSpec, alarm: Alarm): Plan {
    var revision := sts.updateRevision;
    var oldPods := Sort(Filter(pods, IsOld(revision)), HigherOrdinal);
    var notReady := Sort(Filter(pods, IsOldNotReady(revision)), HigherOrdinal);
    if !spec.dryRun && !sts.onDelete then Stop
    else if Blocked(pods, revision) then Wait
    else if oldPods == [] then Complete
    else PlanOn(oldPods, notReady, zoneOf, sts, spec, alarm)
  }

  /** The part of the plan that looks at zones and readiness. */
  ghost function PlanOn(oldPods: seq<Pod>, notReady: seq<Pod>, zoneOf: map<PodName, Zone>, sts: Sts, spec: ZauSpec,
                        alarm: Alarm): Plan
  {
    if ZonesOf(oldPods, zoneOf) == {} then Crash
    else
      var first := FirstZone(ZonesOf(oldPods, zoneOf));
      if sts.replicas != sts.readyReplicas || notReady != [] then
        if ZonesOf(notReady, zoneOf) == {first} then Delete(Group(notReady, zoneOf)[first]) else Wait
      else if spec.alarm != "" && !spec.ignoreAlarm && alarm == Unreadable then AlarmFailure
      else if spec.alarm != "" && !spec.ignoreAlarm && alarm == InAlarm then Pause
      else Delete(Group(oldPods, zoneOf)[first])
  }

  // ---------- the status ----------

  /** The old replicas of every zone ever seen: the new count, or zero for a zone without old pods. */
  function MergeReplicas(recorded: map<Zone, int>, counts: map<Zone, int>): map<Zone, int> {
    map z | z in recorded.Keys + counts.Keys :: if z in counts then counts[z] else 0
  }

  function Recorded(status: ZauStatus, sts: Sts, step: nat, deleted: int, counts: map<Zone, int>,
                    paused: bool): ZauStatus
  {
    ZauStatus(sts.currentRevision, sts.updateRevision, MergeReplicas(status.oldReplicas, counts), step, deleted, paused)
  }

  /** An update that changes nothing is not sent; any other succeeds if the API server saves it. */
  predicate Takes(saves: bool, before: ZauStatus, after: ZauStatus, counts: map<Zone, int>) {
    saves || (before == after && before.oldReplicas == counts)
  }

  class ZoneAwareUpdate {
    const spec: ZauSpec
    var status: ZauStatus

    constructor (spec: ZauSpec, status: ZauStatus)
      ensures this.spec == spec && this.status == status
    {
      this.spec, this.status := spec, status;
    }

    /** saved is whether the API server takes the update; the fields change either way. */
    method UpdateZauStatus(sts: Sts, step: nat, deleted: int, counts: map<Zone, int>, paused: bool, saves: bool)
      returns (ok: bool)
      modifies this
      ensures status == Recorded(old(status), sts, step, deleted, counts, paused)
      ensures ok == Takes(saves, old(status), status, counts)
    {
      if status.currentRevision == sts.currentRevision && status.updateRevision == sts.updateRevision
         && status.step == step && status.deleted == deleted && status.oldReplicas == counts
            && status.paused == paused {
        assert MergeReplicas(status.oldReplicas, counts) == counts;
        return true;
      }
      ghost var recorded := status.oldReplicas;
      status := status.(currentRevision := sts.currentRevision, updateRevision := sts.updateRevision,
                        step := step, deleted := deleted, paused := paused);
      if status.oldReplicas == map[] {
        status := status.(oldReplicas := counts);
        assert MergeReplicas(recorded, counts) == counts;
      } else {
        var merged := MergeLoops(status.oldReplicas, counts);
        status := status.(oldReplicas := merged);
      }
      return saves;
    }

    method MergeLoops(recorded: map<Zone, int>, counts: map<Zone, int>) returns (merged: map<Zone, int>)
      ensures merged == MergeReplicas(recorded, counts)
    {
      merged := recorded;
      var rest := recorded.Keys;
      while rest != {}
        invariant rest <= recorded.Keys && merged.Keys == recorded.Keys
        invariant forall z :: z in merged && z !in rest ==> merged[z] == if z in counts then counts[z] else 0
        decreases rest
      {
        var zone :| zone in rest;
        if zone in counts {
          merged := merged[zone := counts[zone]];
        } else {
          merged := merged[zone := 0];
        }
        rest := rest - {zone};
      }
      rest := counts.Keys;
      while rest != {}
        invariant rest <= counts.Keys && merged.Keys == recorded.Keys + (counts.Keys - rest)
        invariant forall z :: z in merged ==> merged[z] == if z in counts then counts[z] else 0
        decreases rest
      {
        var zone :| zone in rest;
        if zone !in merged {
          merged := merged[zone := counts[zone]];
        }
        rest := rest - {zone};
      }
    }
  }

  /**
   * What the API server does with the calls of one reconcile: the first delete it refuses, and the status updates it
   * takes.
   */
  datatype Server = Server(refusesDelete: Option<nat>, savesRevision: bool, savesStatus: bool)

  /** How many of n deletes are carried out. */
  function Carried(server: Server, dryRun: bool, n: int): nat {
    if dryRun || n <= 0 then 0
    else if server.refusesDelete.Some? && server.refusesDelete.value < n then server.refusesDelete.value
    else n
  }

  datatype Outcome = Done | Recheck | Failure | Panic

  datatype Effect = Effect(outcome: Outcome, deleted: seq<Pod>, status: ZauStatus)

  function Answer(ok: bool): Outcome {
    if ok then Done else Failure
  }

  /**
   * The effect of the deletions: a prefix of the pool, and the new status when all deletes went through. A size of zero
   * or less deletes nothing but is recorded.
   */
  function DeleteEffect(spec: ZauSpec, status: ZauStatus, sts: Sts, pool: seq<Pod>, counts: map<Zone, int>,
                        server: Server): Effect
  {
    match BatchSize(spec, status, sts, |pool|)
    case Err => Effect(Failure, [], status)
    case Ok(n) =>
      var carried := Carried(server, spec.dryRun, n);
      if spec.dryRun || n <= 0 || carried == n then
        var status' := Recorded(status, sts, EffectiveStep(status, sts.updateRevision) + 1, n, counts, false);
        Effect(Answer(Takes(server.savesStatus, status, status', counts)), pool[..carried], status')
      else Effect(Failure, pool[..carried], status)
  }

  method DeletePods(zau: ZoneAwareUpdate, sts: Sts, pods: seq<Pod>, counts: map<Zone, int>, server: Server)
    returns (ok: bool, deleted: seq<Pod>)
    modifies zau
    ensures Effect(Answer(ok), deleted, zau.status)
            == DeleteEffect(zau.spec, old(zau.status), sts, pods, counts, server)
  {
    deleted := [];
    var maxUnavailable := Scaled(zau.spec.maxUnavailable, sts.replicas);
    if maxUnavailable.Err? {
      return false, deleted;
    }
    var updateStep := zau.status.step;
    if updateStep > 0 && zau.status.updateRevision != sts.updateRevision {
      updateStep := 0;
    }
    var maxToDelete := MaxPodsToDelete(maxUnavailable.value, updateStep, zau.spec.factor);
    if maxToDelete.Err? {
      return false, deleted;
    }
    var numPodsToDelete := Min(|pods|, maxToDelete.value);
    var i := 0;
    while i < numPodsToDelete
      invariant 0 <= i <= Max(0, numPodsToDelete)
      invariant deleted == if zau.spec.dryRun then [] else pods[..i]
      invariant zau.spec.dryRun || server.refusesDelete.None? || i <= server.refusesDelete.value
    {
      var pod := pods[i];
      if !zau.spec.dryRun {
        if server.refusesDelete == Some(i) {
          return false, deleted;
        }
        deleted := deleted + [pod];
      }
      i := i + 1;
    }
    ok := zau.UpdateZauStatus(sts, updateStep + 1, numPodsToDelete, counts, false, server.savesStatus);
  }

  // ---------- one reconcile ----------

  method SortPods(pods: seq<Pod>) returns (sorted: seq<Pod>)
    ensures sorted == Sort(pods, HigherOrdinal)
  {
    var a := new Pod[|pods|](i requires 0 <= i < |pods| => pods[i]);
    assert a[..] == pods;
    SortInPlace(a, HigherOrdinal);
    sorted := a[..];
  }

  /** The scan that opens a reconcile. */
  method Scan(pods: seq<Pod>, revision: string) returns (blocked: bool, oldPods: seq<Pod>, oldNotReadyPods: seq<Pod>)
    ensures blocked <==> Blocked(pods, revision)
    ensures !blocked ==> oldPods == Filter(pods, IsOld(revision))
    ensures !blocked ==> oldNotReadyPods == Filter(pods, IsOldNotReady(revision))
  {
    blocked, oldPods, oldNotReadyPods := false, [], [];
    var i := 0;
    while i < |pods|
      invariant 0 <= i <= |pods|
      invariant forall j :: 0 <= j < i ==> !Blocks(pods[j], revision)
      invariant oldPods == Filter(pods[..i], IsOld(revision))
      invariant oldNotReadyPods == Filter(pods[..i], IsOldNotReady(revision))
    {
      var pod := pods[i];
      FilterStep(pods, i, IsOld(revision));
      FilterStep(pods, i, IsOldNotReady(revision));
      if pod.terminating {
        return true, [], [];
      }
      i := i + 1;
      if pod.revision.None? {
        continue;
      }
      if pod.revision.value == revision && !RunningAndReady(pod) {
        return true, [], [];
      }
      if pod.revision.value != revision {
        oldPods := oldPods + [pod];
        if !RunningAndReady(pod) {
          oldNotReadyPods := oldNotReadyPods + [pod];
        }
      }
    }
    assert pods[..i] == pods;
  }

  function Counts(groups: map<Zone, seq<Pod>>): map<Zone, int> {
    map z | z in groups :: |groups[z]|
  }

  /** Old pods per zone, as one reconcile sees them. */
  ghost function FreshCounts(pods: seq<Pod>, zoneOf: map<PodName, Zone>, revision: string): map<Zone, int> {
    Counts(Group(Sort(Filter(pods, IsOld(revision)), HigherOrdinal), zoneOf))
  }

  class StatefulSet {
    var status: Sts

    constructor (status: Sts)
      ensures this.status == status
    {
      this.status := status;
    }

    method UpdateStatefulSetRevision(saves: bool) returns (ok: bool)
      modifies this
      ensures status == old(status).(currentRevision := old(status.updateRevision))
      ensures ok <==> saves || old(status.currentRevision) == old(status.updateRevision)
    {
      if status.currentRevision != status.updateRevision {
        status := status.(currentRevision := status.updateRevision);
        return saves;
      }
      return true;
    }
  }

  /** The effect of carrying out a plan, apart from the revision of the set itself. */
  function EffectOf(plan: Plan, spec: ZauSpec, status: ZauStatus, sts: Sts, counts: map<Zone, int>,
                    server: Server): Effect
  {
    match plan
    case Stop => Effect(Done, [], status)
    case Wait => Effect(Done, [], status)
    case Crash => Effect(Panic, [], status)
    case AlarmFailure => Effect(Failure, [], status)
    case Complete =>
      if server.savesRevision || sts.currentRevision == sts.updateRevision then
        var status' := Recorded(status, sts.(currentRevision := sts.updateRevision), 0, 0, map[], false);
        Effect(Answer(Takes(server.savesStatus, status, status', map[])), [], status')
      else Effect(Failure, [], status)
    case Pause => Effect(Recheck, [], Recorded(status, sts, status.step, status.deleted, counts, true))
    case Delete(pool) => DeleteEffect(spec, status, sts, pool, counts, server)
  }

  /** The decisions that look at zones, readiness and the alarm, for pods already scanned and sorted. */
  method ChooseZone(sts: Sts, spec: ZauSpec, oldPods: seq<Pod>, oldNotReadyPods: seq<Pod>, helper: Helper,
                    nodes: Nodes, alarm: Alarm)
    returns (plan: Plan, counts: map<Zone, int>)
    requires DistinctNames(oldPods) && DistinctNames(oldNotReadyPods)
    requires forall i :: 0 <= i < |oldNotReadyPods| ==> oldNotReadyPods[i] in oldPods
    modifies helper
    ensures var zoneOf := CacheAfter(oldPods, nodes, old(helper.cache));
            && plan == PlanOn(oldPods, oldNotReadyPods, zoneOf, sts, spec, alarm)
            && counts == Counts(Group(oldPods, zoneOf))
  {
    var groups := helper.GetZonePodsMap(oldPods, nodes);
    var zones := helper.GetSortedZonesFromMap(groups);
    ghost var zoneOf := helper.cache;
    counts := Counts(groups);
    assert groups.Keys == ZonesOf(oldPods, zoneOf);
    if |zones| == 0 {
      return Crash, counts;
    }
    var firstZone := zones[0];
    HeadIsFirst(zones, groups.Keys);
    if sts.replicas != sts.readyReplicas || |oldNotReadyPods| > 0 {
      CacheIsSettled(oldPods, nodes, old(helper.cache), oldNotReadyPods);
      var notReadyMap := helper.GetZonePodsMap(oldNotReadyPods, nodes);
      assert notReadyMap.Keys == ZonesOf(oldNotReadyPods, zoneOf);
      Singleton(notReadyMap.Keys, firstZone);
      if |notReadyMap| > 1 {
        return Wait, counts;
      }
      if firstZone !in notReadyMap {
        return Wait, counts;
      }
      return Delete(notReadyMap[firstZone]), counts;
    }
    if spec.alarm != "" && !spec.ignoreAlarm {
      if alarm == Unreadable {
        return AlarmFailure, counts;
      }
      if alarm == InAlarm {
        return Pause, counts;
      }
    }
    return Delete(groups[firstZone]), counts;
  }

  method MakePlan(pods: seq<Pod>, sts: Sts, spec: ZauSpec, helper: Helper, nodes: Nodes, alarm: Alarm)
    returns (plan: Plan, counts: map<Zone, int>)
    requires DistinctNames(pods)
    modifies helper
    ensures var zoneOf := CacheAfter(Sort(Filter(pods, IsOld(sts.updateRevision)), HigherOrdinal), nodes,
                                     old(helper.cache));
            && plan == PlanFor(pods, zoneOf, sts, spec, alarm)
            && (plan.Pause? || plan.Delete? ==> counts == FreshCounts(pods, zoneOf, sts.updateRevision))
  {
    counts := map[];
    if !spec.dryRun && !sts.onDelete {
      return Stop, counts;
    }
    var blocked, oldPods, oldNotReadyPods := Scan(pods, sts.updateRevision);
    if blocked {
      return Wait, counts;
    }
    SortedOldPods(pods, sts.updateRevision);
    oldPods := SortPods(oldPods);
    oldNotReadyPods := SortPods(oldNotReadyPods);
    if |oldPods| == 0 {
      return Complete, counts;
    }
    plan, counts := ChooseZone(sts, spec, oldPods, oldNotReadyPods, helper, nodes, alarm);
  }

  method CarryOut(plan: Plan, zau: ZoneAwareUpdate, sts: StatefulSet, counts: map<Zone, int>, server: Server)
    returns (outcome: Outcome, deleted: seq<Pod>)
    modifies zau, sts
    ensures Effect(outcome, deleted, zau.status)
            == EffectOf(plan, zau.spec, old(zau.status), old(sts.status), counts, server)
    ensures sts.status == if plan.Complete? then old(sts.status).(currentRevision := old(sts.status.updateRevision))
                          else old(sts.status)
  {
    deleted := [];
    match plan
    case Stop => outcome := Done;
    case Wait => outcome := Done;
    case Crash => outcome := Panic;
    case AlarmFailure => outcome := Failure;
    case Complete =>
      var ok := sts.UpdateStatefulSetRevision(server.savesRevision);
      if ok {
        ok := zau.UpdateZauStatus(sts.status, 0, 0, map[], false, server.savesStatus);
      }
      outcome := Answer(ok);
    case Pause =>
      var _ := zau.UpdateZauStatus(sts.status, zau.status.step, zau.status.deleted, counts, true, server.savesStatus);
      outcome := Recheck;
    case Delete(pool) =>
      var ok;
      ok, deleted := DeletePods(zau, sts.status, pool, counts, server);
      outcome := Answer(ok);
  }

  /**
   * One reconcile: what it decides and what it does. deleted lists the pods whose deletion the server has accepted, in
   * order.
   */
  method UpdateStatefulSet(zau: ZoneAwareUpdate, sts: StatefulSet, pods: seq<Pod>, helper: Helper, nodes: Nodes,
                           alarm: Alarm, server: Server)
    returns (outcome: Outcome, deleted: seq<Pod>)
    requires DistinctNames(pods)
    modifies zau, sts, helper
    ensures var revision := old(sts.status.updateRevision);
            var zoneOf := CacheAfter(Sort(Filter(pods, IsOld(revision)), HigherOrdinal), nodes, old(helper.cache));
            var plan := PlanFor(pods, zoneOf, old(sts.status), zau.spec, alarm);
            && Effect(outcome, deleted, zau.status)
               == EffectOf(plan, zau.spec, old(zau.status), old(sts.status), FreshCounts(pods, zoneOf, revision),
                           server)
            && sts.status == if plan.Complete? then old(sts.status).(currentRevision := revision) else old(sts.status)
  {
    var plan, counts := MakePlan(pods, sts.status, zau.spec, helper, nodes, alarm);
    outcome, deleted := CarryOut(plan, zau, sts, counts, server);
  }

  lemma SortKeepsNames(pods: seq<Pod>, keep: Pod -> bool)
    requires DistinctNames(pods)
    ensures var sorted := Sort(Filter(pods, keep), HigherOrdinal);
            && DistinctNames(sorted) && Ordered(sorted, HigherOrdinal)
            && multiset(sorted) == multiset(Filter(pods, keep))
            && (forall p :: p in sorted <==> p in pods && keep(p))
  {
    var kept := Filter(pods, keep);
    FilterMembers(pods, keep);
    FilterKeepsOrder(pods, keep, (p: Pod, q: Pod) => p.name != q.name);
    SortSorts(kept, HigherOrdinal);
    var sorted := Sort(kept, HigherOrdinal);
    PermutedIsDistinct(kept, sorted);
    forall i, j | 0 <= i < j < |sorted| ensures sorted[i].name != sorted[j].name {
      assert sorted[i] in kept && sorted[j] in kept && sorted[i] != sorted[j];
    }
  }

  lemma SortedOldPods(pods: seq<Pod>, revision: string)
    requires DistinctNames(pods)
    ensures var oldPods := Sort(Filter(pods, IsOld(revision)), HigherOrdinal);
            var notReady := Sort(Filter(pods, IsOldNotReady(revision)), HigherOrdinal);
            && DistinctNames(oldPods) && DistinctNames(notReady)
            && forall i :: 0 <= i < |notReady| ==> notReady[i] in oldPods
  {
    SortKeepsNames(pods, IsOld(revision));
    SortKeepsNames(pods, IsOldNotReady(revision));
    var notReady := Sort(Filter(pods, IsOldNotReady(revision)), HigherOrdinal);
    forall i | 0 <= i < |notReady| ensures notReady[i] in Sort(Filter(pods, IsOld(revision)), HigherOrdinal) {
      assert notReady[i] in notReady;
    }
  }

  lemma HeadIsFirst(zones: seq<Zone>, keys: set<Zone>)
    requires Enumerates(zones, keys) && zones != []
    requires forall i, j :: 0 <= i < j < |zones| ==> Less(zones[i], zones[j])
    ensures keys != {} && zones[0] == FirstZone(keys)
  {}

  lemma Singleton(zones: set<Zone>, z: Zone)
    ensures zones == {z} <==> |zones| <= 1 && z in zones
  {
    if |zones| <= 1 && z in zones {
      assert zones == {z} + (zones - {z});
      assert |zones - {z}| == 0;
    }
  }
}
