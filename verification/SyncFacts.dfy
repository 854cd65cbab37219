/** What every status a sync writes says of the pods it has listed, field by field. */
module SyncFacts {
  import opened Seqs
  import opened Pods
  import opened SortMap
  import opened TopUpFacts
  import opened ExpectedPods
  import opened ZdbStore
  import opened ZdbController
  import opened BudgetFacts
  import opened BudgetRuns

  function OfKnownZone(zoneOf: map<PodName, Zone>): Pod -> bool {
    (p: Pod) => p.name in zoneOf
  }

  // ---------- expected and desired ----------

  lemma {:induction false} SumOfGroups(pods: seq<Pod>, zoneOf: map<PodName, Zone>)
    ensures Sum(Observed(Group(pods, zoneOf))) == |Filter(pods, OfKnownZone(zoneOf))|
  {
    if pods == [] {
      assert Observed(Group(pods, zoneOf)) == map[];
    } else {
      var front := pods[..|pods| - 1];
      SumOfGroups(front, zoneOf);
      SumStep(pods, front, zoneOf, Group(front, zoneOf), Group(pods, zoneOf));
    }
  }

  lemma SumStep(pods: seq<Pod>, front: seq<Pod>, zoneOf: map<PodName, Zone>, before: map<Zone, seq<Pod>>,
                after: map<Zone, seq<Pod>>)
    requires pods != [] && front == pods[..|pods| - 1]
    requires before == Group(front, zoneOf) && after == Group(pods, zoneOf)
    ensures Sum(Observed(after))
            == Sum(Observed(before)) + if pods[|pods| - 1].name in zoneOf then 1 else 0
  {
    var last := pods[|pods| - 1];
    GroupStep(pods, |pods| - 1, zoneOf);
    assert pods[..|pods| - 1 + 1] == pods;
    if last.name in zoneOf {
      OneMore(before, after, zoneOf[last.name]);
    }
  }

  /** One more pod in a group is one more pod in all. */
  lemma OneMore(before: map<Zone, seq<Pod>>, after: map<Zone, seq<Pod>>, z: Zone)
    requires after.Keys == before.Keys + {z} && forall y :: y in before && y != z ==> after[y] == before[y]
    requires |after[z]| == 1 + if z in before then |before[z]| else 0
    ensures Sum(Observed(after)) == Sum(Observed(before)) + 1
  {
    SumRemove(Observed(after), z);
    if z in before {
      SumRemove(Observed(before), z);
    }
    assert Observed(after) - {z} == Observed(before) - {z};
    assert z !in before ==> Observed(before) - {z} == Observed(before);
  }

  /** Pods listed per zone. */
  function Listed(pods: seq<Pod>, zoneOf: map<PodName, Zone>): map<Zone, int> {
    map z | z in (set p | p in pods && p.name in zoneOf :: zoneOf[p.name]) :: |Filter(pods, InZone(zoneOf, z))|
  }

  lemma ListedAdds(pods: seq<Pod>, zoneOf: map<PodName, Zone>)
    ensures Sum(Listed(pods, zoneOf)) == |Filter(pods, OfKnownZone(zoneOf))|
    ensures Listed(pods, zoneOf) == map z | z in Group(pods, zoneOf) :: |Group(pods, zoneOf)[z]|
  {
    SumOfGroups(pods, zoneOf);
    assert Listed(pods, zoneOf) == Observed(Group(pods, zoneOf));
  }

  lemma CountsForListed(pods: seq<Pod>, zoneOf: map<PodName, Zone>, scale: int, limit: int, expected: map<Zone, int>,
                        desired: map<Zone, int>)
    requires CountsFor(Group(pods, zoneOf), scale, limit, expected, desired)
    ensures SharedOut(expected, Listed(pods, zoneOf), scale) && desired.Keys == Listed(pods, zoneOf).Keys
    ensures forall z :: z in desired ==> desired[z] == Max(0, expected[z] - limit)
  {
    ListedAdds(pods, zoneOf);
    assert Group(pods, zoneOf).Keys == Listed(pods, zoneOf).Keys;
  }

  /**
   * The expected counts of a sync: for every zone it knows, together the scale of the controllers or, if there are
   * more, the pods listed, shared out evenly over what the zones have; the desired ones are less by the limit.
   */
  lemma SyncExpects(zoneOf: map<PodName, Zone>, zdb: Zdb, pods: seq<Pod>, find: Finder, now: Time, status: Status)
    returns (scale: int, limit: int)
    requires IsSync(zoneOf, zdb, pods, find, now, status)
    ensures ControllerScales(pods, find).Ok? && scale == Sum(ControllerScales(pods, find).value)
    ensures Scaled(zdb.spec.maxUnavailable, scale) == Ok(limit)
    ensures SharedOut(status.expected, Listed(pods, zoneOf), scale)
    ensures status.desired.Keys == Listed(pods, zoneOf).Keys
    ensures forall z :: z in status.desired ==> status.desired[z] == Max(0, status.expected[z] - limit)
  {
    var order := OrderOf(zoneOf, zdb, pods, find, now, status);
    scale, limit := ComputedExpects(zoneOf, zdb, pods, find, order, now, status, Group(pods, zoneOf));
    CountsForListed(pods, zoneOf, scale, limit, status.expected, status.desired);
  }

  lemma ComputedExpects(zoneOf: map<PodName, Zone>, zdb: Zdb, pods: seq<Pod>, find: Finder, order: seq<Zone>, now: Time,
                        status: Status, groups: map<Zone, seq<Pod>>)
    returns (scale: int, limit: int)
    requires groups == Group(pods, zoneOf) && Ascending(order, Observed(groups))
    requires ComputedStatus(zdb, pods, zoneOf, find, order, now) == Ok(status)
    ensures ControllerScales(pods, find).Ok? && scale == Sum(ControllerScales(pods, find).value)
    ensures Scaled(zdb.spec.maxUnavailable, scale) == Ok(limit)
    ensures CountsFor(groups, scale, limit, status.expected, status.desired)
  {
    ComputedExpectation(zdb, pods, zoneOf, find, order, now, status);
    scale, limit := ExpectationShares(pods, find, zdb.spec.maxUnavailable, groups, order, status.expected,
                                      status.desired);
  }

  /** All pods of known zone that are listed are counted once. */
  lemma SyncExpectsAll(zoneOf: map<PodName, Zone>, zdb: Zdb, pods: seq<Pod>, find: Finder, now: Time, status: Status)
    requires IsSync(zoneOf, zdb, pods, find, now, status) && exists p :: p in pods && p.name in zoneOf
    ensures ControllerScales(pods, find).Ok?
    ensures Sum(status.expected)
            == Max(Sum(ControllerScales(pods, find).value), |Filter(pods, OfKnownZone(zoneOf))|)
  {
    var scale, limit := SyncExpects(zoneOf, zdb, pods, find, now, status);
    ListedAdds(pods, zoneOf);
    var p :| p in pods && p.name in zoneOf;
    assert zoneOf[p.name] in Listed(pods, zoneOf);
  }

  // ---------- records ----------

  /** A record is kept for two minutes while its pod is listed and not terminating, and no other is. */
  lemma SyncRecords(zoneOf: map<PodName, Zone>, zdb: Zdb, pods: seq<Pod>, find: Finder, now: Time, status: Status,
                    name: PodName)
    requires IsSync(zoneOf, zdb, pods, find, now, status)
    ensures name in status.disrupted
            <==> (exists p :: p in pods && p.name == name && !p.terminating)
                 && name in zdb.status.disrupted && now <= zdb.status.disrupted[name] + 120_000_000_000
    ensures name in status.disrupted ==> status.disrupted[name] == zdb.status.disrupted[name]
  {
    SyncedFields(zoneOf, zdb, pods, find, now, status);
    if p :| p in pods && p.name == name && !p.terminating {
      assert name in zdb.status.disrupted && now <= zdb.status.disrupted[name] + 120_000_000_000
             <==> Retained(p, zdb.status.disrupted, now);
    }
  }

  /**
   * The recheck comes in time and not for nothing: with the same pods, a later look keeps all the records if and only
   * if it is not after the recheck.
   */
  lemma RecheckIff(pods: seq<Pod>, disrupted: map<PodName, Time>, now: Time, result: map<PodName, Time>, recheck: Time,
                   later: Time)
    requires result == RetainedDisruptions(pods, disrupted, now) && IsEarliest(recheck, result)
    ensures RetainedDisruptions(pods, result, later) == result <==> later <= recheck
  {
    var kept := RetainedDisruptions(pods, result, later);
    if later <= recheck {
      forall name | name in result ensures name in kept {
        var p :| p in pods && p.name == name && Retained(p, disrupted, now);
        assert Retained(p, result, later);
      }
      assert kept.Keys == result.Keys;
    } else {
      var name :| name in result && Deadline(result, name) == recheck;
      assert name !in kept;
    }
  }

  // ---------- healthy and unhealthy ----------

  /** Running and ready, not terminating, and not on record for the two minutes before now. */
  function Healthy(pods: seq<Pod>, zoneOf: map<PodName, Zone>, disrupted: map<PodName, Time>, now: Time,
                   z: Zone): set<PodName>
  {
    set p | p in pods && p.name in zoneOf && zoneOf[p.name] == z && p.phase == Running && p.ready && !p.terminating
            && !(p.name in disrupted && now < disrupted[p.name] + 120_000_000_000) :: p.name
  }

  function AllNames(pods: seq<Pod>, zoneOf: map<PodName, Zone>, z: Zone): set<PodName> {
    set p | p in pods && p.name in zoneOf && zoneOf[p.name] == z :: p.name
  }

  /** What the counts of one zone say. */
  ghost predicate Tallied(pods: seq<Pod>, zoneOf: map<PodName, Zone>, now: Time, status: Status, z: Zone) {
    var healthy, all := Healthy(pods, zoneOf, status.disrupted, now, z), AllNames(pods, zoneOf, z);
    && (z in status.healthy <==> all != {}) && (z in status.unhealthy <==> all != {})
    && (all != {} ==> status.healthy[z] == |healthy| && status.healthy[z] + status.unhealthy[z] == |all|)
    && (all != {} ==> (status.unhealthy[z] > 0 <==> healthy != all))
  }

  lemma ZoneCounts(pods: seq<Pod>, zoneOf: map<PodName, Zone>, disrupted: map<PodName, Time>, now: Time, z: Zone,
                   healthy: set<PodName>, all: set<PodName>)
    requires DistinctNames(pods) && z in ZonesOf(pods, zoneOf)
    requires healthy == Healthy(pods, zoneOf, disrupted, now, z) && all == AllNames(pods, zoneOf, z)
    ensures HealthyCounts(Group(pods, zoneOf), disrupted, now)[z] == |healthy|
    ensures UnhealthyCounts(Group(pods, zoneOf), disrupted, now)[z] == |all| - |healthy|
  {
    HealthyIsCounted(pods, zoneOf, disrupted, now, z);
    assert Counted(pods, zoneOf, disrupted, now, z) == healthy;
    CountIsSize(pods, InZone(zoneOf, z));
    assert NamesWhere(pods, InZone(zoneOf, z)) == all;
  }

  lemma ZonesCounted(pods: seq<Pod>, zoneOf: map<PodName, Zone>, disrupted: map<PodName, Time>, now: Time)
    ensures HealthyCounts(Group(pods, zoneOf), disrupted, now).Keys == ZonesOf(pods, zoneOf)
    ensures UnhealthyCounts(Group(pods, zoneOf), disrupted, now).Keys == ZonesOf(pods, zoneOf)
  {}

  lemma CountsAre(pods: seq<Pod>, zoneOf: map<PodName, Zone>, now: Time, status: Status, z: Zone,
                  healthy: map<Zone, int>, unhealthy: map<Zone, int>)
    requires DistinctNames(pods) && status.healthy == healthy && status.unhealthy == unhealthy
    requires healthy == HealthyCounts(Group(pods, zoneOf), status.disrupted, now)
    requires unhealthy == UnhealthyCounts(Group(pods, zoneOf), status.disrupted, now)
    ensures Tallied(pods, zoneOf, now, status, z)
  {
    ZonesCounted(pods, zoneOf, status.disrupted, now);
    SomeName(pods, zoneOf, z);
    if z in ZonesOf(pods, zoneOf) {
      ZoneCounts(pods, zoneOf, status.disrupted, now, z, Healthy(pods, zoneOf, status.disrupted, now, z),
                 AllNames(pods, zoneOf, z));
    }
    TalliedIf(pods, zoneOf, now, status, z, Healthy(pods, zoneOf, status.disrupted, now, z), AllNames(pods, zoneOf, z));
  }

  lemma TalliedIf(pods: seq<Pod>, zoneOf: map<PodName, Zone>, now: Time, status: Status, z: Zone,
                  healthy: set<PodName>, all: set<PodName>)
    requires healthy == Healthy(pods, zoneOf, status.disrupted, now, z) && all == AllNames(pods, zoneOf, z)
    requires (z in status.healthy <==> all != {}) && (z in status.unhealthy <==> all != {})
    requires all != {} ==> status.healthy[z] == |healthy| && status.unhealthy[z] == |all| - |healthy|
    ensures Tallied(pods, zoneOf, now, status, z)
  {
    SameIfSameSize(healthy, all);
    Subset(healthy, all);
  }

  /** The counts of a sync, zone by zone: the pods that are healthy, and the rest. */
  lemma SyncCounts(zoneOf: map<PodName, Zone>, zdb: Zdb, pods: seq<Pod>, find: Finder, now: Time, status: Status,
                   z: Zone)
    requires IsSync(zoneOf, zdb, pods, find, now, status)
    ensures Tallied(pods, zoneOf, now, status, z)
  {
    SyncedFields(zoneOf, zdb, pods, find, now, status);
    CountsAre(pods, zoneOf, now, status, z, status.healthy, status.unhealthy);
  }

  lemma SomeName(pods: seq<Pod>, zoneOf: map<PodName, Zone>, z: Zone)
    ensures z in ZonesOf(pods, zoneOf) <==> AllNames(pods, zoneOf, z) != {}
  {
    if p :| p in pods && p.name in zoneOf && zoneOf[p.name] == z {
      assert p.name in AllNames(pods, zoneOf, z);
    }
  }

  lemma SameIfSameSize<T>(a: set<T>, b: set<T>)
    requires a <= b
    ensures |a| == |b| <==> a == b
  {
    Subset(a, b);
    if a != b {
      assert b == a + (b - a);
    }
  }

  // ---------- allowances ----------

  /** Every pod of another zone is healthy. */
  ghost predicate OthersHealthy(pods: seq<Pod>, zoneOf: map<PodName, Zone>, now: Time, status: Status, z: Zone) {
    forall y :: y != z ==> Healthy(pods, zoneOf, status.disrupted, now, y) == AllNames(pods, zoneOf, y)
  }

  lemma AllowedAre(pods: seq<Pod>, zoneOf: map<PodName, Zone>, now: Time, status: Status, z: Zone)
    requires forall y :: Tallied(pods, zoneOf, now, status, y)
    requires status.allowed == Allowances(status.healthy, status.unhealthy, status.desired) && z in status.desired
    requires AllNames(pods, zoneOf, z) != {}
    ensures status.allowed[z]
            == if OthersHealthy(pods, zoneOf, now, status, z)
               then Max(0, |Healthy(pods, zoneOf, status.disrupted, now, z)| - status.desired[z])
               else 0
  {
    assert Tallied(pods, zoneOf, now, status, z);
    if OthersHealthy(pods, zoneOf, now, status, z) {
      forall y | y in DisruptedZones(status.unhealthy) ensures y == z {
        assert Tallied(pods, zoneOf, now, status, y);
      }
    } else {
      var y :| y != z && Healthy(pods, zoneOf, status.disrupted, now, y) != AllNames(pods, zoneOf, y);
      assert Tallied(pods, zoneOf, now, status, y);
      assert y in DisruptedZones(status.unhealthy);
    }
  }

  /**
   * A zone is allowed all its room above the desired count if every pod of any other zone is healthy, and nothing
   * otherwise.
   */
  lemma SyncAllows(zoneOf: map<PodName, Zone>, zdb: Zdb, pods: seq<Pod>, find: Finder, now: Time, status: Status,
                   z: Zone)
    requires IsSync(zoneOf, zdb, pods, find, now, status) && AllNames(pods, zoneOf, z) != {}
    ensures z in status.desired && status.allowed.Keys == status.desired.Keys
    ensures status.allowed[z]
            == if OthersHealthy(pods, zoneOf, now, status, z)
               then Max(0, |Healthy(pods, zoneOf, status.disrupted, now, z)| - status.desired[z])
               else 0
  {
    forall y ensures Tallied(pods, zoneOf, now, status, y) {
      SyncCounts(zoneOf, zdb, pods, find, now, status, y);
    }
    SyncedFields(zoneOf, zdb, pods, find, now, status);
    SyncedZones(zoneOf, zdb, pods, find, now, status);
    SomeName(pods, zoneOf, z);
    AllowedAre(pods, zoneOf, now, status, z);
  }
}
