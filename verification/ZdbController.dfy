/** The reconciler half of the budget: who is healthy, and how much disruption each zone may still take. */
module ZdbController {
  import opened Seqs
  import opened Pods
  import opened PodZone
  import opened SortMap
  import opened ExpectedPods
  import opened ZdbStore

  const SECOND: Time := 1_000_000_000
  const DELETION_TIMEOUT: Time := 2 * 60 * SECOND

  // ---------- pods whose eviction is on record ----------

  function Deadline(disrupted: map<PodName, Time>, name: PodName): Time
    requires name in disrupted
  {
    disrupted[name] + DELETION_TIMEOUT
  }

  /** The record of a pod stays while the pod is there, is not being deleted, and its deadline has not passed. */
  predicate Retained(pod: Pod, disrupted: map<PodName, Time>, now: Time) {
    !pod.terminating && pod.name in disrupted && Deadline(disrupted, pod.name) >= now
  }

  function RetainedDisruptions(pods: seq<Pod>, disrupted: map<PodName, Time>, now: Time): map<PodName, Time> {
    map name | name in (set p | p in pods && Retained(p, disrupted, now) :: p.name) :: disrupted[name]
  }

  ghost predicate IsEarliest(time: Time, disrupted: map<PodName, Time>) {
    && (exists name :: name in disrupted && Deadline(disrupted, name) == time)
    && forall name :: name in disrupted ==> time <= Deadline(disrupted, name)
  }

  method BuildDisruptedPodMap(pods: seq<Pod>, disrupted: map<PodName, Time>, now: Time)
    returns (result: map<PodName, Time>, recheck: Option<Time>)
    ensures result == RetainedDisruptions(pods, disrupted, now)
    ensures recheck.None? <==> result == map[]
    ensures recheck.Some? ==> IsEarliest(recheck.value, result)
  {
    result, recheck := map[], None;
    var i := 0;
    while i < |pods|
      invariant 0 <= i <= |pods|
      invariant result == RetainedDisruptions(pods[..i], disrupted, now)
      invariant recheck.None? <==> result == map[]
      invariant recheck.Some? ==> IsEarliest(recheck.value, result)
    {
      var pod := pods[i];
      RetainedStep(pods, i, disrupted, now);
      i := i + 1;
      if pod.terminating {
        continue;
      }
      if pod.name !in disrupted {
        continue;
      }
      var expectedDeletion := Deadline(disrupted, pod.name);
      if expectedDeletion < now {
      } else {
        if recheck.None? || expectedDeletion < recheck.value {
          recheck := Some(expectedDeletion);
        }
        result := result[pod.name := disrupted[pod.name]];
        assert pod.name in result && (recheck.value == Deadline(result, pod.name) || recheck.value <= expectedDeletion);
      }
    }
    assert pods[..i] == pods;
  }

  lemma RetainedStep(pods: seq<Pod>, i: nat, disrupted: map<PodName, Time>, now: Time)
    requires i < |pods|
    ensures var before := RetainedDisruptions(pods[..i], disrupted, now);
            RetainedDisruptions(pods[..i + 1], disrupted, now)
            == if Retained(pods[i], disrupted, now) then before[pods[i].name := disrupted[pods[i].name]] else before
  {}

  // ---------- healthy and unhealthy ----------

  /** Not being deleted, not expected to be deleted soon, and serving. */
  predicate CountsHealthy(pod: Pod, disrupted: map<PodName, Time>, now: Time) {
    && !pod.terminating
    && !(pod.name in disrupted && Deadline(disrupted, pod.name) > now)
    && RunningAndReady(pod)
  }

  function HealthyAt(disrupted: map<PodName, Time>, now: Time): Pod -> bool {
    (p: Pod) => CountsHealthy(p, disrupted, now)
  }

  function ZoneHealthy(pods: seq<Pod>, disrupted: map<PodName, Time>, now: Time): nat {
    |Filter(pods, HealthyAt(disrupted, now))|
  }

  function HealthyCounts(groups: map<Zone, seq<Pod>>, disrupted: map<PodName, Time>, now: Time): map<Zone, int> {
    map z | z in groups :: ZoneHealthy(groups[z], disrupted, now)
  }

  function UnhealthyCounts(groups: map<Zone, seq<Pod>>, disrupted: map<PodName, Time>, now: Time): map<Zone, int> {
    map z | z in groups :: |groups[z]| - ZoneHealthy(groups[z], disrupted, now)
  }

  method CountHealthyPods(groups: map<Zone, seq<Pod>>, disrupted: map<PodName, Time>, now: Time)
    returns (currentHealthy: map<Zone, int>, currentUnhealthy: map<Zone, int>)
    ensures currentHealthy == HealthyCounts(groups, disrupted, now)
    ensures currentUnhealthy == UnhealthyCounts(groups, disrupted, now)
  {
    currentHealthy, currentUnhealthy := map[], map[];
    var rest := groups.Keys;
    while rest != {}
      invariant rest <= groups.Keys
      invariant currentHealthy.Keys == groups.Keys - rest && currentUnhealthy.Keys == groups.Keys - rest
      invariant forall z :: z in currentHealthy ==> currentHealthy[z] == ZoneHealthy(groups[z], disrupted, now)
      invariant forall z :: z in currentUnhealthy ==>
                  currentUnhealthy[z] == |groups[z]| - ZoneHealthy(groups[z], disrupted, now)
      decreases rest
    {
      var zone :| zone in rest;
      var healthy, unhealthy := CountZone(groups[zone], disrupted, now);
      currentHealthy := currentHealthy[zone := healthy];
      currentUnhealthy := currentUnhealthy[zone := unhealthy];
      rest := rest - {zone};
    }
  }

  /** The inner loop, over the pods of one zone. */
  method CountZone(pods: seq<Pod>, disrupted: map<PodName, Time>, now: Time) returns (healthy: int, unhealthy: int)
    ensures healthy == ZoneHealthy(pods, disrupted, now)
    ensures unhealthy == |pods| - ZoneHealthy(pods, disrupted, now)
  {
    healthy, unhealthy := 0, 0;
    var i := 0;
    while i < |pods|
      invariant 0 <= i <= |pods|
      invariant healthy == ZoneHealthy(pods[..i], disrupted, now) && unhealthy == i - healthy
    {
      FilterStep(pods, i, HealthyAt(disrupted, now));
      var pod := pods[i];
      i := i + 1;
      if pod.terminating {
        unhealthy := unhealthy + 1;
        continue;
      }
      if pod.name in disrupted && Deadline(disrupted, pod.name) > now {
        unhealthy := unhealthy + 1;
        continue;
      }
      if RunningAndReady(pod) {
        healthy := healthy + 1;
      } else {
        unhealthy := unhealthy + 1;
      }
    }
    assert pods[..i] == pods;
  }

  // ---------- the status ----------

  function DisruptedZones(unhealthy: map<Zone, int>): set<Zone> {
    set z | z in unhealthy && unhealthy[z] > 0
  }

  function Get(m: map<Zone, int>, z: Zone): int {
    if z in m then m[z] else 0
  }

  /** A zone may be disrupted only while no other zone is, and only down to its desired count. */
  function Allowances(healthy: map<Zone, int>, unhealthy: map<Zone, int>, desired: map<Zone, int>): map<Zone, int> {
    map z | z in desired ::
      if DisruptedZones(unhealthy) <= {z} then Max(0, Get(healthy, z) - desired[z]) else 0
  }

  method AllowDisruptions(healthy: map<Zone, int>, unhealthy: map<Zone, int>, desired: map<Zone, int>)
    returns (disruptionsAllowed: map<Zone, int>)
    ensures disruptionsAllowed == Allowances(healthy, unhealthy, desired)
  {
    var disruptedZones: seq<Zone> := [];
    var rest := unhealthy.Keys;
    while rest != {}
      invariant rest <= unhealthy.Keys
      invariant Enumerates(disruptedZones, DisruptedZones(unhealthy) - rest)
      decreases rest
    {
      var zone :| zone in rest;
      if unhealthy[zone] > 0 {
        disruptedZones := disruptedZones + [zone];
      }
      rest := rest - {zone};
    }
    assert Enumerates(disruptedZones, DisruptedZones(unhealthy));

    disruptionsAllowed := map[];
    var disruptedZoneCount := |disruptedZones|;
    rest := desired.Keys;
    while rest != {}
      invariant rest <= desired.Keys
      invariant disruptionsAllowed.Keys == desired.Keys - rest
      invariant forall z :: z in disruptionsAllowed ==>
                  disruptionsAllowed[z] == Allowances(healthy, unhealthy, desired)[z]
      decreases rest
    {
      var zone :| zone in rest;
      ListedWithin(disruptedZones, DisruptedZones(unhealthy), zone);
      if disruptedZoneCount > 1 {
        disruptionsAllowed := disruptionsAllowed[zone := 0];
      } else if disruptedZoneCount == 1 {
        if disruptedZones[0] == zone {
          disruptionsAllowed := disruptionsAllowed[zone := Get(healthy, zone) - desired[zone]];
        } else {
          disruptionsAllowed := disruptionsAllowed[zone := 0];
        }
      } else {
        disruptionsAllowed := disruptionsAllowed[zone := Get(healthy, zone) - desired[zone]];
      }
      if disruptionsAllowed[zone] < 0 {
        disruptionsAllowed := disruptionsAllowed[zone := 0];
      }
      rest := rest - {zone};
    }
  }

  lemma ListedWithin(zones: seq<Zone>, keys: set<Zone>, z: Zone)
    requires Enumerates(zones, keys)
    ensures keys <= {z} <==> |zones| == 0 || (|zones| == 1 && zones[0] == z)
  {
    if |zones| > 1 {
      assert zones[0] in keys && zones[1] in keys && zones[0] != zones[1];
    } else if |zones| == 1 {
      assert zones[0] in keys;
    }
  }

  function NewStatus(generation: int, healthy: map<Zone, int>, unhealthy: map<Zone, int>, desired: map<Zone, int>,
                     expected: map<Zone, int>, disrupted: map<PodName, Time>): Status
  {
    Status(generation, disrupted, Allowances(healthy, unhealthy, desired), healthy, unhealthy, desired, expected)
  }

  /** The status a sync computes from a list of pods and one reading of the clock. */
  function StatusFrom(zdb: Zdb, pods: seq<Pod>, zoneOf: map<PodName, Zone>,
                      expected: map<Zone, int>, desired: map<Zone, int>, now: Time): Status
  {
    var groups := Group(pods, zoneOf);
    var disrupted := RetainedDisruptions(pods, zdb.status.disrupted, now);
    var healthy, unhealthy := HealthyCounts(groups, disrupted, now), UnhealthyCounts(groups, disrupted, now);
    NewStatus(zdb.generation, healthy, unhealthy, desired, expected, disrupted)
  }

  /** The status of one reconcile, for one ascending order of the zones. */
  ghost function ComputedStatus(zdb: Zdb, pods: seq<Pod>, zoneOf: map<PodName, Zone>, find: Finder,
                                order: seq<Zone>, now: Time): Result<Status>
    requires Ascending(order, Observed(Group(pods, zoneOf)))
  {
    match Expectation(pods, find, zdb.spec.maxUnavailable, Group(pods, zoneOf), order)
    case Err => Err
    case Ok((expected, desired)) => Ok(StatusFrom(zdb, pods, zoneOf, expected, desired, now))
  }

  datatype Outcome = Aborted | Unchanged | Conflict | Updated

  method UpdateStatus(zdb: Copy, store: Store, healthy: map<Zone, int>, unhealthy: map<Zone, int>,
                      desired: map<Zone, int>, expected: map<Zone, int>, disrupted: map<PodName, Time>)
    returns (outcome: Outcome)
    requires store.Valid()
    modifies zdb, store
    ensures store.Valid()
    ensures zdb.status == NewStatus(old(zdb.generation), healthy, unhealthy, desired, expected, disrupted)
    ensures outcome.Unchanged? <==> old(zdb.status) == zdb.status
    ensures outcome.Updated? <==> old(zdb.status) != zdb.status && old(zdb.version) == old(store.Latest())
    ensures store.history == if outcome.Updated?
                             then old(store.history) + [old(store.history[store.Latest()]).(status := zdb.status)]
                             else old(store.history)
    ensures !outcome.Aborted?
  {
    var disruptionsAllowed := AllowDisruptions(healthy, unhealthy, desired);
    if zdb.status.healthy == healthy && zdb.status.unhealthy == unhealthy && zdb.status.desired == desired
       && zdb.status.expected == expected && zdb.status.disrupted == disrupted
       && zdb.status.allowed == disruptionsAllowed && zdb.status.observedGeneration == zdb.generation {
      return Unchanged;
    }
    zdb.status := zdb.status.(healthy := healthy, unhealthy := unhealthy, desired := desired, expected := expected,
                              disrupted := disrupted, allowed := disruptionsAllowed,
                              observedGeneration := zdb.generation);
    var ok := store.UpdateStatus(zdb);
    return if ok then Updated else Conflict;
  }

  /** One reconcile: at most one new version, holding the status computed from this list of pods and this copy. */
  method Sync(zdb: Copy, store: Store, pods: seq<Pod>, find: Finder, helper: Helper, nodes: Nodes, now: Time)
    returns (outcome: Outcome, recheck: Option<Time>, ghost order: seq<Zone>)
    requires store.Valid() && DistinctNames(pods)
    modifies zdb, store, helper
    ensures store.Valid()
    ensures outcome.Aborted? ==> store.history == old(store.history) && zdb.Value() == old(zdb.Value()) && recheck.None?
    ensures outcome.Aborted? <==>
            (ControllerScales(pods, find).Err?
             || Scaled(old(zdb.spec.maxUnavailable), Sum(ControllerScales(pods, find).value)).Err?)
    ensures !outcome.Aborted? ==>
              var zoneOf := CacheAfter(pods, nodes, old(helper.cache));
              && Ascending(order, Observed(Group(pods, zoneOf)))
              && ComputedStatus(old(zdb.Value()), pods, zoneOf, find, order, now) == Ok(zdb.status)
              && (recheck.None? <==> zdb.status.disrupted == map[])
              && (recheck.Some? ==> IsEarliest(recheck.value, zdb.status.disrupted))
    ensures outcome.Unchanged? ==> old(zdb.status) == zdb.status
    ensures outcome.Updated? ==> old(zdb.status) != zdb.status && old(zdb.version) == old(store.Latest())
    ensures outcome.Conflict? ==> old(zdb.status) != zdb.status && old(zdb.version) != old(store.Latest())
    ensures store.history == if outcome.Updated?
                             then old(store.history) + [old(store.history[store.Latest()]).(status := zdb.status)]
                             else old(store.history)
  {
    recheck := None;
    var counts, groups;
    counts, groups, order := GetExpectedPodCount(pods, find, zdb.spec.maxUnavailable, helper, nodes);
    if counts.Err? {
      return Aborted, recheck, order;
    }
    var disrupted;
    disrupted, recheck := BuildDisruptedPodMap(pods, zdb.status.disrupted, now);
    var healthy, unhealthy := CountHealthyPods(groups, disrupted, now);
    outcome := UpdateStatus(zdb, store, healthy, unhealthy, counts.value.1, counts.value.0, disrupted);
  }
}
