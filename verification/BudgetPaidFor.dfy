/**
 * What the budget guarantees where every pod that stops serving does so under a grant in time: the promises hold for
 * the pods themselves, with nothing charged to anybody.
 */
module BudgetPaidFor {
  import opened Seqs
  import opened Pods
  import opened ZdbController
  import opened BudgetFacts
  import opened BudgetRuns
  import opened BudgetCluster
  import opened BudgetSafety
  import opened BudgetContinuity
  import opened BudgetExclusivity
  import opened BudgetGrace

  /** Pods of zone z that fail in a run from the beginning. */
  ghost function FailuresIn(c: Cluster, events: seq<Event>, z: Zone): set<PodName>
    requires c.history != [] && Legal(c, events)
  {
    Within(Failures(c, events, map[]), c.zoneOf, z)
  }

  lemma ChargedHaveFailed(c: Cluster, events: seq<Event>)
    requires Initial(c) && Legal(c, events)
    ensures Kept(After(c, events), GrantsAfter(c, events, map[]), Failures(c, events, map[]))
    ensures After(c, events).zoneOf == c.zoneOf
  {
    InitiallyKept(c);
    OnlyFailuresAreCharged(c, events, map[], {});
    assert {} + Failures(c, events, map[]) == Failures(c, events, map[]);
    InitiallySerial(c);
    Serializability(c, events);
  }

  /**
   * Budget safety with failures alone to blame: at every moment of every run, a zone in which the last sync counted at
   * least the desired number of healthy pods has that number of pods that serve and are not on record, and those that
   * may still be granted, short only of pods that stopped serving on their own. Evictions in time are not among them.
   */
  lemma SafetyUnderFailures(c: Cluster, events: seq<Event>, z: Zone)
    requires Initial(c) && Legal(c, events) && Met(After(c, events).Current().status, z)
    ensures var d := After(c, events);
            |Available(d.pods, d.zoneOf, d.Current().status.disrupted, z)| + |FailuresIn(c, events, z)|
            >= Get(d.Current().status.desired, z) + Get(d.Current().status.allowed, z)
  {
    BudgetSafety.BudgetSafety(c, events, z);
    ChargedHaveFailed(c, events);
    Subset(Within(After(c, events).lost, c.zoneOf, z), FailuresIn(c, events, z));
  }

  /** Where no pod of the zone fails, it is short of nothing. */
  lemma SafetyWithoutFailures(c: Cluster, events: seq<Event>, z: Zone)
    requires Initial(c) && Legal(c, events) && FailuresIn(c, events, z) == {}
    requires Met(After(c, events).Current().status, z)
    ensures var d := After(c, events);
            |Available(d.pods, d.zoneOf, d.Current().status.disrupted, z)|
            >= Get(d.Current().status.desired, z) + Get(d.Current().status.allowed, z)
  {
    SafetyUnderFailures(c, events, z);
  }

  /** And then it is within the limit of its expected count. */
  lemma WithinLimitWithoutFailures(c: Cluster, events: seq<Event>, z: Zone)
    requires Initial(c) && Legal(c, events) && FailuresIn(c, events, z) == {}
    requires Met(After(c, events).Current().status, z) && z in After(c, events).Current().status.desired
    ensures var d := After(c, events);
            var s, status := LastSync(d.commits, d.Latest()), d.Current().status;
            && s > 0 && d.commits[s].Synced? && z in status.expected
            && LimitOf(d.history[s - 1].spec, d.commits[s].pods, d.commits[s].find).Ok?
            && |Available(d.pods, d.zoneOf, status.disrupted, z)|
               >= status.expected[z] - LimitOf(d.history[s - 1].spec, d.commits[s].pods, d.commits[s].find).value
  {
    WithinLimit(c, events, z);
    ChargedHaveFailed(c, events);
    assert Within(After(c, events).lost, c.zoneOf, z) <= FailuresIn(c, events, z);
    assert |Within(After(c, events).lost, c.zoneOf, z)| == 0;
  }

  /** In particular from a grant until the next sync, with the limit of the spec in force at the grant. */
  lemma GrantWithinLimitWithoutFailures(c: Cluster, events: seq<Event>, v: nat, z: Zone)
    requires Initial(c) && Legal(c, events) && FailuresIn(c, events, z) == {}
    requires v < |After(c, events).commits| && IsGrantIn(After(c, events).commits[v], c.zoneOf, z)
    requires v > LastSync(After(c, events).commits, After(c, events).Latest())
    ensures var d := After(c, events);
            var sync, status := d.commits[LastSync(d.commits, d.Latest())], d.Current().status;
            && sync.Synced? && z in status.expected && LimitOf(d.history[v].spec, sync.pods, sync.find).Ok?
            && |Available(d.pods, d.zoneOf, status.disrupted, z)|
               >= status.expected[z] - LimitOf(d.history[v].spec, sync.pods, sync.find).value
  {
    ChargedHaveFailed(c, events);
    GrantWithinLimit(c, events, v);
    assert Within(After(c, events).lost, c.zoneOf, z) <= FailuresIn(c, events, z);
    assert |Within(After(c, events).lost, c.zoneOf, z)| == 0;
  }

  // ---------- across syncs ----------

  /** No sync of the run raises the desired count of the zone. */
  ghost predicate NotRaised(c: Cluster, events: seq<Event>, z: Zone)
    requires c.history != [] && Legal(c, events)
    decreases events
  {
    events == [] ||
    (Next(c, events[0]).history != []
     && Get(Next(c, events[0]).Current().status.desired, z) <= Get(c.Current().status.desired, z)
     && NotRaised(Next(c, events[0]), events[1..], z))
  }

  lemma KeptIsUncharged(c: Cluster, grants: Pending, failed: set<PodName>, z: Zone)
    requires Kept(c, grants, failed) && Within(failed, c.zoneOf, z) == {}
    ensures Uncharged(c, z)
  {
    assert Within(c.lost, c.zoneOf, z) <= Within(failed, c.zoneOf, z);
  }

  lemma {:induction false} NoFailuresIsSteady(c: Cluster, events: seq<Event>, grants: Pending, failed: set<PodName>,
                                              z: Zone)
    requires Kept(c, grants, failed) && Legal(c, events) && NotRaised(c, events, z)
    requires Within(failed, c.zoneOf, z) == {} && Within(Failures(c, events, grants), c.zoneOf, z) == {}
    ensures Steady(c, events, z)
    decreases events
  {
    KeptIsUncharged(c, grants, failed, z);
    if events != [] {
      var failing, rest := Failing(c, events[0], grants),
                           Failures(Next(c, events[0]), events[1..], NextGrants(c, events[0], grants));
      KeptStep(c, events[0], grants, failed);
      NextExtends(c, events[0]);
      WithinUnion(failed, failing, rest, c.zoneOf, z);
      NoFailuresIsSteady(Next(c, events[0]), events[1..], NextGrants(c, events[0], grants), failed + failing, z);
    }
  }

  lemma WithinUnion(a: set<PodName>, b: set<PodName>, c: set<PodName>, zoneOf: map<PodName, Zone>, z: Zone)
    requires Within(a, zoneOf, z) == {} && Within(b + c, zoneOf, z) == {}
    ensures Within(a + b, zoneOf, z) == {} && Within(c, zoneOf, z) == {}
  {
    forall n | n in b + c && n in zoneOf ensures zoneOf[n] != z {
      assert n !in Within(b + c, zoneOf, z);
    }
    forall n | n in a && n in zoneOf ensures zoneOf[n] != z {
      assert n !in Within(a, zoneOf, z);
    }
  }

  /**
   * Over whole runs: once a sync has counted at least the desired number of healthy pods in a zone, and while none of
   * its pods stops serving except under a grant in time and no sync raises its desired count, the zone has its desired
   * number of pods that serve and are not on record, through any grants, evictions, replacements and syncs.
   */
  lemma SafetyAcrossSyncsWithoutFailures(c: Cluster, before: seq<Event>, events: seq<Event>, z: Zone)
    requires Initial(c) && Legal(c, before) && Met(After(c, before).Current().status, z)
    requires Legal(After(c, before), events) && NotRaised(After(c, before), events, z)
    requires FailuresIn(c, before, z) == {}
    requires Within(Failures(After(c, before), events, GrantsAfter(c, before, map[])), c.zoneOf, z) == {}
    ensures var d := After(After(c, before), events);
            |Available(d.pods, d.zoneOf, d.Current().status.disrupted, z)|
            >= Get(d.Current().status.desired, z) + Get(d.Current().status.allowed, z)
  {
    ChargedHaveFailed(c, before);
    NoFailuresIsSteady(After(c, before), events, GrantsAfter(c, before, map[]), Failures(c, before, map[]), z);
    SafetyAcrossSyncs(c, before, events, z);
  }

  // ---------- one zone at a time ----------

  /** Pods are replaced under their own name in one step, and no two grants share a sync. */
  ghost predicate ApartRun(c: Cluster, events: seq<Event>)
    requires |c.commits| == |c.history| && c.history != [] && Legal(c, events)
    decreases events
  {
    events == [] || (Apart(c, events[0]) && |Next(c, events[0]).commits| == |Next(c, events[0]).history|
                     && ApartRun(Next(c, events[0]), events[1..]))
  }

  lemma KeptIsQuiet(c: Cluster, grants: Pending)
    requires Kept(c, grants, {})
    ensures Quiet(c)
  {}

  lemma {:induction false} NoFailuresIsOrderly(c: Cluster, events: seq<Event>, grants: Pending)
    requires Kept(c, grants, {}) && Legal(c, events) && ApartRun(c, events) && Failures(c, events, grants) == {}
    ensures OrderlyRun(c, events)
    decreases events
  {
    if events != [] {
      KeptStep(c, events[0], grants, {});
      assert Failing(c, events[0], grants) == {};
      assert {} + Failing(c, events[0], grants) == {};
      KeptIsQuiet(Next(c, events[0]), NextGrants(c, events[0], grants));
      NoFailuresIsOrderly(Next(c, events[0]), events[1..], NextGrants(c, events[0], grants));
    }
  }

  /**
   * Zone exclusivity from the beginning: where a sync separates the grants, pods are replaced in place and stop serving
   * only under a grant in time, and unavailable pods lie in one zone to begin with, they do at every moment.
   */
  lemma ExclusivityWithoutFailures(c: Cluster, events: seq<Event>)
    requires Initial(c) && OneZone(Unavailable(c.pods, c.zoneOf, map[]), c.zoneOf)
    requires Legal(c, events) && ApartRun(c, events) && Failures(c, events, map[]) == {}
    ensures var d := After(c, events);
            OneZone(Unavailable(d.pods, d.zoneOf, d.Current().status.disrupted), d.zoneOf)
  {
    InitiallyExclusive(c);
    InitiallyKept(c);
    NoFailuresIsOrderly(c, events, map[]);
    ZoneExclusivity(c, events);
  }
}
