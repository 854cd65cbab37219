/** What one sync hands over to the next grants: who is counted, by whom, and what the allowances promise. */
module BudgetFacts {
  import opened Seqs
  import opened Pods
  import opened ZdbController

  /** Names of the pods of a zone that serve and are not on record: what a budget protects. */
  function Available(pods: seq<Pod>, zoneOf: map<PodName, Zone>, disrupted: map<PodName, Time>, z: Zone): set<PodName> {
    set p | p in pods && InZone(zoneOf, z)(p) && Up(p) && p.name !in disrupted :: p.name
  }

  /** Names of the serving pods whose record expires at this very instant: kept on record, yet counted as healthy. */
  function Expiring(pods: seq<Pod>, disrupted: map<PodName, Time>, now: Time): set<PodName> {
    set p | p in pods && Up(p) && p.name in disrupted && Deadline(disrupted, p.name) == now :: p.name
  }

  function Within(names: set<PodName>, zoneOf: map<PodName, Zone>, z: Zone): set<PodName> {
    set n | n in names && n in zoneOf && zoneOf[n] == z
  }

  function NamesWhere(pods: seq<Pod>, keep: Pod -> bool): set<PodName> {
    set p | p in pods && keep(p) :: p.name
  }

  lemma NamesStep(front: seq<Pod>, last: Pod, keep: Pod -> bool)
    requires DistinctNames(front + [last])
    ensures NamesWhere(front + [last], keep) == NamesWhere(front, keep) + if keep(last) then {last.name} else {}
    ensures last.name !in NamesWhere(front, keep)
  {
    var pods := front + [last];
    assert forall p :: p in pods <==> p in front || p == last;
    forall p | p in front ensures p.name != last.name {
      var i :| 0 <= i < |front| && front[i] == p;
      assert pods[i] == p && pods[|front|] == last;
    }
  }

  lemma {:induction false} CountIsSize(pods: seq<Pod>, keep: Pod -> bool)
    requires DistinctNames(pods)
    ensures |Filter(pods, keep)| == |NamesWhere(pods, keep)|
  {
    if pods == [] {
      assert NamesWhere(pods, keep) == {};
    } else {
      var front, last := pods[..|pods| - 1], pods[|pods| - 1];
      assert pods == front + [last];
      CountIsSize(front, keep);
      NamesStep(front, last, keep);
    }
  }

  lemma {:induction false} FilterTwice<T(!new)>(s: seq<T>, keep: T -> bool, keep': T -> bool, both: T -> bool)
    requires forall x :: both(x) <==> keep(x) && keep'(x)
    ensures Filter(Filter(s, keep), keep') == Filter(s, both)
  {
    if s != [] {
      var front, last := s[..|s| - 1], s[|s| - 1];
      FilterTwice(front, keep, keep', both);
      if keep(last) {
        var kept := Filter(front, keep);
        assert (kept + [last])[..|kept|] == kept;
      }
    }
  }

  function Counted(pods: seq<Pod>, zoneOf: map<PodName, Zone>, disrupted: map<PodName, Time>, now: Time,
                   z: Zone): set<PodName>
  {
    set p | p in pods && InZone(zoneOf, z)(p) && CountsHealthy(p, disrupted, now) :: p.name
  }

  lemma HealthyIsCounted(pods: seq<Pod>, zoneOf: map<PodName, Zone>, disrupted: map<PodName, Time>, now: Time, z: Zone)
    requires DistinctNames(pods) && z in ZonesOf(pods, zoneOf)
    ensures HealthyCounts(Group(pods, zoneOf), disrupted, now)[z] == |Counted(pods, zoneOf, disrupted, now, z)|
  {
    var both := (p: Pod) => InZone(zoneOf, z)(p) && CountsHealthy(p, disrupted, now);
    FilterTwice(pods, InZone(zoneOf, z), HealthyAt(disrupted, now), both);
    CountIsSize(pods, both);
    assert Counted(pods, zoneOf, disrupted, now, z) == NamesWhere(pods, both);
  }

  lemma CountedSplits(pods: seq<Pod>, zoneOf: map<PodName, Zone>, disrupted: map<PodName, Time>, now: Time, z: Zone)
    requires DistinctNames(pods)
    requires forall n :: n in disrupted ==> Deadline(disrupted, n) >= now
    ensures Counted(pods, zoneOf, disrupted, now, z)
            == Available(pods, zoneOf, disrupted, z) + Within(Expiring(pods, disrupted, now), zoneOf, z)
    ensures Available(pods, zoneOf, disrupted, z) !! Expiring(pods, disrupted, now)
  {}

  /** The healthy count of a zone is the number of its available pods plus the expiring ones. */
  lemma HealthyCount(pods: seq<Pod>, zoneOf: map<PodName, Zone>, disrupted: map<PodName, Time>, now: Time, z: Zone)
    requires DistinctNames(pods) && z in ZonesOf(pods, zoneOf)
    ensures var retained := RetainedDisruptions(pods, disrupted, now);
            && HealthyCounts(Group(pods, zoneOf), retained, now)[z]
               == |Available(pods, zoneOf, retained, z)| + |Within(Expiring(pods, retained, now), zoneOf, z)|
            && HealthyCounts(Group(pods, zoneOf), retained, now)[z]
               == |Available(pods, zoneOf, retained, z) + Within(Expiring(pods, retained, now), zoneOf, z)|
  {
    var retained := RetainedDisruptions(pods, disrupted, now);
    HealthyIsCounted(pods, zoneOf, retained, now, z);
    CountedSplits(pods, zoneOf, retained, now, z);
  }

  /** A serving pod of zone z is on record with its deadline at this very instant. */
  ghost predicate DeadlineIsNow(pods: seq<Pod>, zoneOf: map<PodName, Zone>, disrupted: map<PodName, Time>, now: Time,
                                z: Zone)
  {
    exists p :: p in pods && InZone(zoneOf, z)(p) && Up(p) && p.name in disrupted && Deadline(disrupted, p.name) == now
  }

  lemma ExpiringWhenDeadlineIsNow(pods: seq<Pod>, zoneOf: map<PodName, Zone>, disrupted: map<PodName, Time>, now: Time,
                                  z: Zone)
    ensures var retained := RetainedDisruptions(pods, disrupted, now);
            Within(Expiring(pods, retained, now), zoneOf, z) != {} <==> DeadlineIsNow(pods, zoneOf, disrupted, now, z)
  {
    var retained := RetainedDisruptions(pods, disrupted, now);
    if DeadlineIsNow(pods, zoneOf, disrupted, now, z) {
      var p :| p in pods && InZone(zoneOf, z)(p) && Up(p) && p.name in disrupted && Deadline(disrupted, p.name) == now;
      assert Retained(p, disrupted, now);
      assert p.name in Within(Expiring(pods, retained, now), zoneOf, z);
    }
  }

  /**
   * Hand-off: a zone's healthy count is exactly the number of its serving pods that are not on record, if and only if
   * no serving pod of the zone is on record with a deadline equal to the time of the sync.
   */
  lemma HandOff(pods: seq<Pod>, zoneOf: map<PodName, Zone>, disrupted: map<PodName, Time>, now: Time, z: Zone)
    requires DistinctNames(pods) && z in ZonesOf(pods, zoneOf)
    ensures var retained := RetainedDisruptions(pods, disrupted, now);
            HealthyCounts(Group(pods, zoneOf), retained, now)[z] == |Available(pods, zoneOf, retained, z)|
            <==> !DeadlineIsNow(pods, zoneOf, disrupted, now, z)
  {
    HealthyCount(pods, zoneOf, disrupted, now, z);
    ExpiringWhenDeadlineIsNow(pods, zoneOf, disrupted, now, z);
  }

  /** Nobody is left out or counted twice: healthy and unhealthy add up to the size of the zone. */
  lemma CountsCoverZone(groups: map<Zone, seq<Pod>>, disrupted: map<PodName, Time>, now: Time, z: Zone)
    requires z in groups
    ensures HealthyCounts(groups, disrupted, now)[z] + UnhealthyCounts(groups, disrupted, now)[z] == |groups[z]|
    ensures HealthyCounts(groups, disrupted, now)[z] >= 0 && UnhealthyCounts(groups, disrupted, now)[z] >= 0
    ensures UnhealthyCounts(groups, disrupted, now)[z] == 0
            <==> forall p :: p in groups[z] ==> CountsHealthy(p, disrupted, now)
  {
    FilterMembers(groups[z], HealthyAt(disrupted, now));
    if p :| p in groups[z] && !CountsHealthy(p, disrupted, now) {
      FilterDrops(groups[z], HealthyAt(disrupted, now), p);
    } else {
      FilterAll(groups[z], HealthyAt(disrupted, now));
    }
  }

  /**
   * What becomes of a pod on record that is still there: dropped while it is deleted, kept and unhealthy, or expired
   * and judged again.
   */
  lemma RecordedPodHasOneFate(pods: seq<Pod>, disrupted: map<PodName, Time>, now: Time, pod: Pod)
    requires DistinctNames(pods) && pod in pods && pod.name in disrupted && Deadline(disrupted, pod.name) != now
    ensures var retained := RetainedDisruptions(pods, disrupted, now);
            var dropped := pod.terminating && pod.name !in retained && !CountsHealthy(pod, retained, now);
            var kept := !pod.terminating && pod.name in retained && retained[pod.name] == disrupted[pod.name]
                        && !CountsHealthy(pod, retained, now);
            var expired := !pod.terminating && pod.name !in retained && Deadline(disrupted, pod.name) < now
                           && (CountsHealthy(pod, retained, now) <==> RunningAndReady(pod));
            (dropped || kept || expired) && !(dropped && kept) && !(kept && expired) && !(dropped && expired)
  {}

  lemma {:induction false} FilterDrops<T(!new)>(s: seq<T>, keep: T -> bool, x: T)
    requires x in s && !keep(x)
    ensures |Filter(s, keep)| < |s|
  {
    var front := s[..|s| - 1];
    assert s == front + [s[|s| - 1]];
    if x in front {
      FilterDrops(front, keep, x);
    } else {
      FilterMembers(front, keep);
    }
  }

  /** A pod that does not count as healthy makes its zone a disrupted one. */
  lemma UnhealthyShows(pods: seq<Pod>, zoneOf: map<PodName, Zone>, disrupted: map<PodName, Time>, now: Time, pod: Pod)
    requires pod in pods && pod.name in zoneOf && !CountsHealthy(pod, disrupted, now)
    ensures zoneOf[pod.name] in DisruptedZones(UnhealthyCounts(Group(pods, zoneOf), disrupted, now))
  {
    var z := zoneOf[pod.name];
    GroupsPartition(pods, zoneOf);
    FilterDrops(Group(pods, zoneOf)[z], HealthyAt(disrupted, now), pod);
  }
}
