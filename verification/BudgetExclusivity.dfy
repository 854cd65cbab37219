/** One zone at a time: when unavailable pods are confined to a single zone, and when the budget lets them spread. */
module BudgetExclusivity {
  import opened Seqs
  import opened Pods
  import opened ExpectedPods
  import opened ZdbStore
  import opened ZdbController
  import opened EvictionWebhook
  import opened BudgetFacts
  import opened BudgetRuns
  import opened BudgetCluster
  import opened BudgetSafety

  /** Pods of known zone that do not serve or are about to be evicted. */
  function Unavailable(pods: seq<Pod>, zoneOf: map<PodName, Zone>, disrupted: map<PodName, Time>): set<PodName> {
    set p | p in pods && p.name in zoneOf && (!Up(p) || p.name in disrupted) :: p.name
  }

  /** Whatever is unavailable lies in the zones that may be disrupted further. */
  ghost predicate Confined(pods: seq<Pod>, zoneOf: map<PodName, Zone>, status: Status) {
    forall z, n :: Get(status.allowed, z) > 0 && n in Unavailable(pods, zoneOf, status.disrupted) ==> zoneOf[n] == z
  }

  ghost predicate GrantedSinceSync(c: Cluster)
    requires |c.commits| == |c.history| && c.history != []
  {
    exists v :: LastSync(c.commits, c.Latest()) < v < |c.commits| && c.commits[v].Granted?
  }

  /**
   * Nothing has been charged: neither since the last sync nor since the snapshot of a reconcile that can still write.
   */
  ghost predicate Quiet(c: Cluster)
    requires c.history != []
  {
    && c.lost == {}
    && forall r :: r in c.reconcilers && c.reconcilers[r].version == c.Latest() ==> c.reconcilers[r].lost == {}
  }

  function Names(pods: seq<Pod>): set<PodName> {
    set p | p in pods :: p.name
  }

  /** Pods are replaced under their own name in one step, and no two grants share a sync. */
  ghost predicate Apart(c: Cluster, e: Event)
    requires |c.commits| == |c.history| && c.history != [] && Enabled(c, e)
  {
    && (e.PodsChange? ==> Names(e.pods) == Names(c.pods))
    && (e.TryCommit? && Next(c, e).history != c.history ==> !GrantedSinceSync(c))
  }

  ghost predicate Orderly(c: Cluster, e: Event)
    requires |c.commits| == |c.history| && c.history != [] && Enabled(c, e)
  {
    Apart(c, e) && Quiet(Next(c, e))
  }

  ghost predicate OrderlyRun(c: Cluster, events: seq<Event>)
    requires |c.commits| == |c.history| && c.history != [] && Legal(c, events)
    decreases events
  {
    events == [] || (Orderly(c, events[0]) && |Next(c, events[0]).commits| == |Next(c, events[0]).history|
                     && OrderlyRun(Next(c, events[0]), events[1..]))
  }

  ghost predicate WriterExclusive(c: Cluster, writer: Reconciler) {
    && OneZone(Unavailable(c.pods, c.zoneOf, writer.status.disrupted), c.zoneOf)
    && Confined(c.pods, c.zoneOf, writer.status)
  }

  ghost predicate Exclusive(c: Cluster)
    requires |c.commits| == |c.history| && c.history != []
  {
    && OneZone(Unavailable(c.pods, c.zoneOf, c.Current().status.disrupted), c.zoneOf)
    && (!GrantedSinceSync(c) ==> Confined(c.pods, c.zoneOf, c.Current().status))
    && forall r :: r in c.reconcilers && c.reconcilers[r].version == c.Latest() ==> WriterExclusive(c, c.reconcilers[r])
  }

  /** A sync that leaves no expiring pod uncounted allows disruptions only where all unavailable pods are. */
  lemma FreshSyncConfines(zoneOf: map<PodName, Zone>, zdb: Zdb, pods: seq<Pod>, find: Finder, now: Time, status: Status)
    requires IsSync(zoneOf, zdb, pods, find, now, status) && Expiring(pods, status.disrupted, now) == {}
    ensures Confined(pods, zoneOf, status)
  {
    forall z, n | Get(status.allowed, z) > 0 && n in Unavailable(pods, zoneOf, status.disrupted)
      ensures zoneOf[n] == z
    {
      UnavailableInSync(zoneOf, zdb, pods, find, now, status, n);
      OnlyThisZone(zoneOf, zdb, pods, find, now, status, z);
    }
  }

  lemma OnlyThisZone(zoneOf: map<PodName, Zone>, zdb: Zdb, pods: seq<Pod>, find: Finder, now: Time, status: Status,
                     z: Zone)
    requires IsSync(zoneOf, zdb, pods, find, now, status) && Get(status.allowed, z) > 0
    ensures forall y :: y in DisruptedZones(status.unhealthy) ==> y == z
  {
    SyncedStatus(zoneOf, zdb, pods, find, now, status, z);
  }

  lemma UnavailableInSync(zoneOf: map<PodName, Zone>, zdb: Zdb, pods: seq<Pod>, find: Finder, now: Time, status: Status,
                          n: PodName)
    requires IsSync(zoneOf, zdb, pods, find, now, status) && Expiring(pods, status.disrupted, now) == {}
    requires n in Unavailable(pods, zoneOf, status.disrupted)
    ensures zoneOf[n] in DisruptedZones(status.unhealthy)
  {
    SyncedFields(zoneOf, zdb, pods, find, now, status);
    UnavailableShows(pods, zoneOf, zdb.status.disrupted, now, n);
  }

  lemma UnavailableShows(pods: seq<Pod>, zoneOf: map<PodName, Zone>, disrupted: map<PodName, Time>, now: Time,
                         n: PodName)
    requires Expiring(pods, RetainedDisruptions(pods, disrupted, now), now) == {}
    requires n in Unavailable(pods, zoneOf, RetainedDisruptions(pods, disrupted, now))
    ensures zoneOf[n] in DisruptedZones(UnhealthyCounts(Group(pods, zoneOf), RetainedDisruptions(pods, disrupted, now),
                                                        now))
  {
    var retained := RetainedDisruptions(pods, disrupted, now);
    var p :| p in pods && p.name in zoneOf && (!Up(p) || p.name in retained) && p.name == n;
    RetainedIsUnhealthy(pods, disrupted, now, p);
    UnhealthyShows(pods, zoneOf, retained, now, p);
  }

  lemma RetainedIsUnhealthy(pods: seq<Pod>, disrupted: map<PodName, Time>, now: Time, p: Pod)
    requires var retained := RetainedDisruptions(pods, disrupted, now);
             p in pods && Expiring(pods, retained, now) == {} && (!Up(p) || p.name in retained)
    ensures !CountsHealthy(p, RetainedDisruptions(pods, disrupted, now), now)
  {
    var retained := RetainedDisruptions(pods, disrupted, now);
    if Up(p) {
      assert p.name in retained && Deadline(retained, p.name) >= now;
      assert p.name !in Expiring(pods, retained, now);
    }
  }

  lemma PruningShrinks(pods: seq<Pod>, zoneOf: map<PodName, Zone>, disrupted: map<PodName, Time>, now: Time)
    ensures Unavailable(pods, zoneOf, RetainedDisruptions(pods, disrupted, now)) <= Unavailable(pods, zoneOf, disrupted)
  {}

  /** Replacement in place, with nothing charged, makes no pod unavailable. */
  lemma QuietChangeShrinks(before: seq<Pod>, after: seq<Pod>, zoneOf: map<PodName, Zone>, disrupted: map<PodName, Time>)
    requires DistinctNames(after) && Names(after) == Names(before)
    requires StoppedServing(before, after, disrupted) == {}
    ensures Unavailable(after, zoneOf, disrupted) <= Unavailable(before, zoneOf, disrupted)
  {
    forall n | n in Unavailable(after, zoneOf, disrupted) ensures n in Unavailable(before, zoneOf, disrupted) {
      var q :| q in after && q.name in zoneOf && (!Up(q) || q.name in disrupted) && q.name == n;
      assert n in Names(before);
      var p :| p in before && p.name == n;
      assert n !in StoppedServing(before, after, disrupted);
      assert Up(p) && n !in disrupted ==> n in set x | x in after && Up(x) :: x.name;
      assert forall x :: x in after && x.name == n ==> x == q;
    }
  }

  lemma FreshSyncIsExclusive(zoneOf: map<PodName, Zone>, zdb: Zdb, pods: seq<Pod>, find: Finder, now: Time,
                             status: Status)
    requires IsSync(zoneOf, zdb, pods, find, now, status) && Expiring(pods, status.disrupted, now) == {}
    requires OneZone(Unavailable(pods, zoneOf, zdb.status.disrupted), zoneOf)
    ensures OneZone(Unavailable(pods, zoneOf, status.disrupted), zoneOf)
    ensures Confined(pods, zoneOf, status)
  {
    FreshSyncConfines(zoneOf, zdb, pods, find, now, status);
    SyncedFields(zoneOf, zdb, pods, find, now, status);
    PruningShrinks(pods, zoneOf, zdb.status.disrupted, now);
  }

  lemma ReadMakesWriter(c: Cluster, e: Event)
    requires Sized(c) && e.Read? && Enabled(c, e) && e.version == c.Latest() && Quiet(Next(c, e))
    requires OneZone(Unavailable(c.pods, c.zoneOf, c.Current().status.disrupted), c.zoneOf)
    ensures e.reconciler in Next(c, e).reconcilers ==> WriterExclusive(c, Next(c, e).reconcilers[e.reconciler])
  {
    var status := ComputedStatus(c.history[e.version], c.pods, c.zoneOf, e.find, e.order, c.now).value;
    if e.reconciler in Next(c, e).reconcilers {
      assert IsSync(c.zoneOf, c.history[e.version], c.pods, e.find, c.now, status);
      assert Next(c, e).reconcilers[e.reconciler].lost == {};
      FreshSyncIsExclusive(c.zoneOf, c.Current(), c.pods, e.find, c.now, status);
    }
  }

  lemma ReadStaysExclusive(c: Cluster, e: Event, d: Cluster)
    requires Sized(c) && Exclusive(c) && e.Read? && Enabled(c, e) && d == Next(c, e) && d.history != [] && Quiet(d)
    ensures |d.commits| == |d.history| && Exclusive(d)
  {
    ReadAddsReader(c, e);
    if e.version == c.Latest() {
      ReadMakesWriter(c, e);
    }
    KeptExclusive(c, d);
  }

  lemma KeptExclusive(c: Cluster, d: Cluster)
    requires Sized(c) && Exclusive(c)
    requires d.zoneOf == c.zoneOf && d.pods == c.pods && d.history == c.history && d.commits == c.commits
    requires forall r :: r in d.reconcilers && d.reconcilers[r].version == c.Latest() ==>
               WriterExclusive(c, d.reconcilers[r])
    ensures Exclusive(d)
  {}

  lemma PodsChangeStaysExclusive(c: Cluster, e: Event, d: Cluster)
    requires Sized(c) && Exclusive(c) && e.PodsChange? && Enabled(c, e) && Orderly(c, e)
    requires d == Next(c, e) && |d.commits| == |d.history| && d.history != []
    ensures Exclusive(d)
  {
    QuietChangeShrinks(c.pods, e.pods, c.zoneOf, c.Current().status.disrupted);
    assert GrantedSinceSync(c) <==> GrantedSinceSync(d);
    forall r | r in d.reconcilers && d.reconcilers[r].version == d.Latest()
      ensures WriterExclusive(d, d.reconcilers[r])
    {
      var writer := c.reconcilers[r];
      assert WriterExclusive(c, writer);
      assert d.reconcilers[r].lost == {};
      QuietChangeShrinks(c.pods, e.pods, c.zoneOf, writer.status.disrupted);
    }
  }

  ghost predicate ReadersLag(c: Cluster) {
    forall r :: r in c.reconcilers ==> c.reconcilers[r].version < |c.history|
  }

  lemma WriteExclusive(c: Cluster, d: Cluster, r: Id)
    requires Sized(c) && Exclusive(c) && ReadersLag(c) && r in c.reconcilers && d == Next(c, Write(r))
    ensures Exclusive(d)
  {
    if c.reconcilers[r].version == c.Latest() {
      assert WriterExclusive(c, c.reconcilers[r]);
      assert LastSync(d.commits, d.Latest()) == d.Latest();
    } else {
      KeptExclusive(c, d);
    }
  }

  lemma AttemptStaysExclusive(c: Cluster, h: Id, zone: Option<Zone>, d: Cluster)
    requires Sized(c) && Exclusive(c) && ReadersLag(c)
    requires Enabled(c, TryCommit(h, zone)) && Orderly(c, TryCommit(h, zone)) && d == AfterAttempt(c, h, zone)
    requires d.history != c.history && |d.commits| == |d.history| && d.history != []
    ensures Exclusive(d)
  {
    AttemptFrame(c, h, zone);
    DecideInZone(c, h, zone);
    var name := c.handlers[h].pod.name;
    assert Confined(c.pods, c.zoneOf, c.Current().status);
    assert Unavailable(d.pods, d.zoneOf, d.Current().status.disrupted)
           <= Unavailable(c.pods, c.zoneOf, c.Current().status.disrupted) + {name};
    LastSyncPrefix(c.commits, d.commits, c.Latest());
    assert d.commits[d.Latest()].Granted?;
    assert GrantedSinceSync(d);
  }

  lemma SpecChangeStaysExclusive(c: Cluster, d: Cluster, spec: Spec)
    requires Sized(c) && Exclusive(c) && ReadersLag(c)
    requires d == Append(c, Zdb(c.Current().generation + 1, spec, c.Current().status), SpecChanged)
    ensures Exclusive(d)
  {
    LastSyncPrefix(c.commits, d.commits, c.Latest());
    if GrantedSinceSync(c) {
      var v :| LastSync(c.commits, c.Latest()) < v < |c.commits| && c.commits[v].Granted?;
      assert d.commits[v].Granted?;
      assert GrantedSinceSync(d);
    }
  }

  lemma WritersLag(c: Cluster)
    requires Serial(c)
    ensures Sized(c) && ReadersLag(c)
  {}

  lemma ExclusiveStep(c: Cluster, e: Event)
    requires Sized(c) && ReadersLag(c) && Exclusive(c) && Enabled(c, e) && Orderly(c, e)
    ensures |Next(c, e).commits| == |Next(c, e).history| && Exclusive(Next(c, e))
  {
    NextExtends(c, e);
    ExclusiveByEvent(c, e, Next(c, e));
  }

  lemma ExclusiveByEvent(c: Cluster, e: Event, d: Cluster)
    requires Sized(c) && Exclusive(c) && ReadersLag(c) && Enabled(c, e) && Orderly(c, e)
    requires d == Next(c, e) && |d.commits| == |d.history| && d.history != []
    ensures Exclusive(d)
  {
    match e
    case ChangeSpec(spec) => SpecChangeStaysExclusive(c, d, spec);
    case Read(_, _, _, _) => ReadStaysExclusive(c, e, d);
    case Write(r) => WriteExclusive(c, d, r);
    case TryCommit(h, zone) =>
      if d.history != c.history {
        AttemptStaysExclusive(c, h, zone, d);
      } else {
        AttemptFrame(c, h, zone);
        KeptExclusive(c, d);
      }
    case PodsChange(_) => PodsChangeStaysExclusive(c, e, d);
    case _ => KeptExclusive(c, d);
  }

  /**
   * Zone exclusivity, for every run in which a sync separates the grants, pods are replaced in place and nothing has to
   * be charged: if unavailable pods lie in one zone to begin with, they do at every moment of it.
   */
  lemma {:induction false} ZoneExclusivity(c: Cluster, events: seq<Event>)
    requires c.history != [] && Serial(c) && Exclusive(c) && Legal(c, events) && OrderlyRun(c, events)
    ensures var d := After(c, events);
            Serial(d) && Exclusive(d) && OneZone(Unavailable(d.pods, d.zoneOf, d.Current().status.disrupted), d.zoneOf)
    decreases events
  {
    if events != [] {
      SerialStep(c, events[0]);
      WritersLag(c);
      ExclusiveStep(c, events[0]);
      ZoneExclusivity(Next(c, events[0]), events[1..]);
    }
  }

  lemma InitiallyExclusive(c: Cluster)
    requires Initial(c) && OneZone(Unavailable(c.pods, c.zoneOf, map[]), c.zoneOf)
    ensures Serial(c) && Exclusive(c)
  {}

  // ---------- without a sync in between ----------

  /**
   * Between syncs the budget does not hold grants to one zone: after a grant, another goes through in a different zone
   * exactly when that zone had an allowance too and the records are not too many.
   */
  lemma SecondZoneBeforeSync(zdb: Zdb, a: PodName, x: Zone, b: PodName, y: Zone, now: Time)
    requires x != y && Decide(zdb, a, Some(x), false, now).Proceed?
    ensures var after := zdb.(status := Decide(zdb, a, Some(x), false, now).status);
            Decide(after, b, Some(y), false, now).Proceed?
            <==> Get(zdb.status.allowed, y) > 0 && |after.status.disrupted| <= MAX_DISRUPTED_POD_SIZE
  {}

  /**
   * A sync allows disruptions in one zone at a time if and only if it found an unhealthy pod somewhere or at most one
   * zone with room above its desired count.
   */
  lemma OneZoneAllowed(zoneOf: map<PodName, Zone>, zdb: Zdb, pods: seq<Pod>, find: Finder, now: Time, status: Status)
    requires IsSync(zoneOf, zdb, pods, find, now, status)
    ensures (forall x, y :: Get(status.allowed, x) > 0 && Get(status.allowed, y) > 0 ==> x == y)
            <==> DisruptedZones(status.unhealthy) != {} || AtMostOneRoomy(status)
  {
    SyncedFields(zoneOf, zdb, pods, find, now, status);
    AllowancesAndRoom(status);
  }

  ghost predicate Roomy(status: Status, z: Zone) {
    z in status.desired && Get(status.healthy, z) > status.desired[z]
  }

  ghost predicate AtMostOneRoomy(status: Status) {
    forall x, y :: Roomy(status, x) && Roomy(status, y) ==> x == y
  }

  lemma AllowancesAndRoom(status: Status)
    requires status.allowed == Allowances(status.healthy, status.unhealthy, status.desired)
    ensures (forall x, y :: Get(status.allowed, x) > 0 && Get(status.allowed, y) > 0 ==> x == y)
            <==> DisruptedZones(status.unhealthy) != {} || AtMostOneRoomy(status)
  {
    forall z ensures Get(status.allowed, z) > 0 <==> Roomy(status, z) && DisruptedZones(status.unhealthy) <= {z} {}
    if DisruptedZones(status.unhealthy) != {} {
      var w :| w in DisruptedZones(status.unhealthy);
    }
  }
}
