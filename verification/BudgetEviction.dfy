/**
 * A paid-for eviction from beginning to end: granted, still on record after a sync a minute later, evicted, and charged
 * to nobody.
 */
module BudgetEviction {
  import opened Seqs
  import opened Pods
  import opened SortMap
  import opened ExpectedPods
  import opened ZdbStore
  import opened ZdbController
  import opened BudgetFacts
  import opened BudgetRuns
  import opened BudgetCluster
  import opened BudgetSafety
  import opened BudgetGrace
  import opened BudgetExample

  /** The event leads from c to d, and from the pending grants to the next, without a failure. */
  ghost predicate Leads(c: Cluster, e: Event, d: Cluster, grants: Pending, grants': Pending) {
    && c.history != [] && d.history != [] && Enabled(c, e) && Next(c, e) == d
    && Failing(c, e, grants) == {} && NextGrants(c, e, grants) == grants'
  }

  lemma Before(c: Cluster, e: Event, d: Cluster, rest: seq<Event>, grants: Pending, grants': Pending)
    requires Leads(c, e, d, grants, grants') && Legal(d, rest) && Failures(d, rest, grants') == {}
    ensures Legal(c, [e] + rest) && After(c, [e] + rest) == After(d, rest) && Failures(c, [e] + rest, grants) == {}
  {
    assert ([e] + rest)[1..] == rest;
  }

  /** An event that grants nothing leaves the pending grants as they are while their time lasts. */
  lemma LeadsOn(c: Cluster, e: Event, d: Cluster, grants: Pending)
    requires c.history != [] && d.history != [] && Enabled(c, e) && !e.TryCommit? && Next(c, e) == d
    requires Failing(c, e, grants) == {} && forall n :: n in grants ==> InTime(d, n, grants[n])
    ensures Leads(c, e, d, grants, grants)
  {}

  function Evicted(pods: seq<Pod>, web: Pod): seq<Pod> {
    seq(|pods|, i requires 0 <= i < |pods| => if pods[i] == web then web.(terminating := true) else pods[i])
  }

  lemma EvictedPods(pods: seq<Pod>, web: Pod, after: seq<Pod>)
    requires DistinctNames(pods) && web in pods && after == Evicted(pods, web)
    ensures DistinctNames(after) && UpNames(pods) - UpNames(after) <= {web.name}
    ensures web.name !in UpNames(after)
  {
    assert forall i :: 0 <= i < |pods| ==> after[i].name == pods[i].name;
    forall p | p in pods && Up(p) && p != web ensures p.name in UpNames(after) {
      var i :| 0 <= i < |pods| && pods[i] == p;
      assert after[i] == p;
    }
    forall q | q in after && q.name == web.name ensures !Up(q) {
      var i :| 0 <= i < |after| && after[i] == q;
      var j :| 0 <= j < |pods| && pods[j] == web;
    }
  }

  /** The pod goes, under its grant. */
  lemma EvictLeads(c: Cluster, web: Pod, t: Time, e: Event, d: Cluster)
    requires c.history != [] && DistinctNames(c.pods) && web in c.pods && e == PodsChange(Evicted(c.pods, web))
    requires Enabled(c, e) && d == Next(c, e)
    ensures d.history == c.history && d.commits == c.commits && web.name !in UpNames(d.pods)
    ensures Leads(c, e, d, map[web.name := t], NextGrants(c, e, map[web.name := t]))
  {
    EvictedPods(c.pods, web, Evicted(c.pods, web));
  }

  lemma FromEviction(c: Cluster, web: Pod, t: Time) returns (events: seq<Event>)
    requires c.history != [] && DistinctNames(c.pods) && web in c.pods
    ensures Legal(c, events) && Failures(c, events, map[web.name := t]) == {}
    ensures After(c, events).commits == c.commits && web.name !in UpNames(After(c, events).pods)
  {
    var e := PodsChange(Evicted(c.pods, web));
    EvictedPods(c.pods, web, Evicted(c.pods, web));
    EvictLeads(c, web, t, e, Next(c, e));
    Before(c, e, Next(c, e), [], map[web.name := t], NextGrants(c, e, map[web.name := t]));
    events := [e] + [];
  }

  lemma WriteLeads(c: Cluster, web: Pod, t: Time, writer: Reconciler) returns (d: Cluster)
    requires c.history != [] && c.reconcilers == map[0 := writer] && writer.version == c.Latest()
    requires InTime(c, web.name, t)
    ensures Leads(c, Write(0), d, map[web.name := t], map[web.name := t])
    ensures d.pods == c.pods && d.commits == c.commits + [Synced(writer.pods, writer.find, writer.now)]
  {
    d := Next(c, Write(0));
    assert Listed(d, web.name);
    LeadsOn(c, Write(0), d, map[web.name := t]);
  }

  lemma FromWrite(c: Cluster, web: Pod, t: Time, writer: Reconciler) returns (events: seq<Event>)
    requires c.history != [] && DistinctNames(c.pods) && web in c.pods && InTime(c, web.name, t)
    requires c.reconcilers == map[0 := writer] && writer.version == c.Latest()
    ensures Legal(c, events) && Failures(c, events, map[web.name := t]) == {}
    ensures After(c, events).commits == c.commits + [Synced(writer.pods, writer.find, writer.now)]
    ensures web.name !in UpNames(After(c, events).pods)
  {
    var d := WriteLeads(c, web, t, writer);
    var rest := FromEviction(d, web, t);
    Before(c, Write(0), d, rest, map[web.name := t], map[web.name := t]);
    events := [Write(0)] + rest;
  }

  /** The cluster after the grant: the pod is on record and no other, and the counts are those of the sync before. */
  ghost predicate JustGranted(c: Cluster, order: seq<Zone>, web: Pod, t: Time, limit: int) {
    && c.history != [] && Plain(c.pods, c.zoneOf) && web in c.pods
    && Ascending(order, Observed(Group(c.pods, c.zoneOf)))
    && c.reconcilers == map[] && c.Current().spec.maxUnavailable == Amount(limit)
    && c.Current().status.disrupted == map[web.name := t] && DisruptedZones(c.Current().status.unhealthy) == {}
  }

  /** A minute after the grant a sync finds a new status, with the pod unhealthy, and no record on its deadline. */
  lemma SecondRead(c: Cluster, order: seq<Zone>, web: Pod, t: Time, limit: int) returns (reader: Reconciler)
    requires JustGranted(c, order, web, t, limit) && c.now == t + 60 * SECOND
    ensures Enabled(c, Read(0, c.Latest(), NoFinder(), order))
    ensures reader.version == c.Latest() && reader.pods == c.pods && reader.find == NoFinder() && reader.now == c.now
    ensures Next(c, Read(0, c.Latest(), NoFinder(), order)) == c.(reconcilers := map[0 := reader])
    ensures Failing(c, Read(0, c.Latest(), NoFinder(), order), map[web.name := t]) == {}
  {
    var e := Read(0, c.Latest(), NoFinder(), order);
    PlainExpectation(c.pods, limit, Group(c.pods, c.zoneOf), order);
    assert ComputedStatus(c.Current(), c.pods, c.zoneOf, NoFinder(), order, c.now).Ok?;
    reader := ReaderOf(c, e);
    ReadAddsReader(c, e);
    StatusHasChanged(c.zoneOf, c.Current(), c.pods, order, c.now, reader.status, web, t);
    assert c.reconcilers[0 := reader] == map[0 := reader];
  }

  lemma StatusHasChanged(zoneOf: map<PodName, Zone>, zdb: Zdb, pods: seq<Pod>, order: seq<Zone>, now: Time,
                         status: Status,
                         web: Pod, t: Time)
    requires Plain(pods, zoneOf) && web in pods && now == t + 60 * SECOND
             && Ascending(order, Observed(Group(pods, zoneOf)))
    requires ComputedStatus(zdb, pods, zoneOf, NoFinder(), order, now) == Ok(status)
    requires zdb.status.disrupted == map[web.name := t] && DisruptedZones(zdb.status.unhealthy) == {}
    ensures status != zdb.status
  {
    assert IsSync(zoneOf, zdb, pods, NoFinder(), now, status);
    SyncedFields(zoneOf, zdb, pods, NoFinder(), now, status);
    assert Retained(web, zdb.status.disrupted, now);
    UnhealthyShows(pods, zoneOf, status.disrupted, now, web);
  }

  lemma ReadLeads(c: Cluster, e: Event, reader: Reconciler, d: Cluster, n: PodName, t: Time)
    requires c.history != [] && InTime(c, n, t) && e.Read? && Enabled(c, e) && d == Next(c, e)
    requires d == c.(reconcilers := map[0 := reader]) && Failing(c, e, map[n := t]) == {}
    ensures Leads(c, e, d, map[n := t], map[n := t]) && InTime(d, n, t)
  {
    assert Listed(d, n);
    LeadsOn(c, e, d, map[n := t]);
  }

  lemma FromRead(c: Cluster, order: seq<Zone>, web: Pod, t: Time, limit: int) returns (events: seq<Event>)
    requires JustGranted(c, order, web, t, limit) && c.now == t + 60 * SECOND
    ensures Legal(c, events) && Failures(c, events, map[web.name := t]) == {}
    ensures After(c, events).commits == c.commits + [Synced(c.pods, NoFinder(), c.now)]
    ensures web.name !in UpNames(After(c, events).pods)
  {
    var reader := SecondRead(c, order, web, t, limit);
    var d := c.(reconcilers := map[0 := reader]);
    assert Listed(c, web.name);
    ReadLeads(c, Read(0, c.Latest(), NoFinder(), order), reader, d, web.name, t);
    var rest := FromWrite(d, web, t, reader);
    Before(c, Read(0, c.Latest(), NoFinder(), order), d, rest, map[web.name := t], map[web.name := t]);
    events := [Read(0, c.Latest(), NoFinder(), order)] + rest;
  }

  lemma FromTick(c: Cluster, order: seq<Zone>, web: Pod, limit: int) returns (events: seq<Event>)
    requires JustGranted(c, order, web, c.now, limit)
    ensures Legal(c, events) && Failures(c, events, map[web.name := c.now]) == {}
    ensures After(c, events).commits == c.commits + [Synced(c.pods, NoFinder(), c.now + 60 * SECOND)]
    ensures web.name !in UpNames(After(c, events).pods)
  {
    var e, d := Tick(c.now + 60 * SECOND), c.(now := c.now + 60 * SECOND);
    assert Next(c, e) == d;
    assert Listed(d, web.name) && InTime(d, web.name, c.now);
    LeadsOn(c, e, d, map[web.name := c.now]);
    var rest := FromRead(d, order, web, c.now, limit);
    Before(c, e, d, rest, map[web.name := c.now], map[web.name := c.now]);
    events := [e] + rest;
  }

  // ---------- from the beginning ----------

  ghost function GrantedOnce(c: Cluster, limit: nat, web: Pod, z: Zone): Cluster
    requires c.history != []
  {
    AfterGrant(Synchronized(c, limit), 0, web, z)
  }

  /** A sync and a grant of the pod, from a new budget. */
  lemma GrantReached(c: Cluster, order: seq<Zone>, limit: nat, web: Pod, z: Zone) returns (events: seq<Event>)
    requires Starts(c, order, limit) && web in c.pods && limit >= 1 && c.zoneOf[web.name] == z
    ensures Legal(c, events) && After(c, events) == GrantedOnce(c, limit, web, z)
  {
    var sync := SyncHappens(c, order, limit);
    OpensZone(Synchronized(c, limit).Current(), c.pods, c.zoneOf, limit, web, Observed(Group(c.pods, c.zoneOf)));
    var grant := OneGrant(Synchronized(c, limit), 0, web, z);
    Joined(c, sync, grant);
    events := sync + grant;
  }

  lemma GrantedStatus(c: Cluster, order: seq<Zone>, limit: nat, web: Pod, z: Zone, d: Cluster)
    requires Starts(c, order, limit) && d == GrantedOnce(c, limit, web, z)
    ensures d.commits == [Created, Synced(c.pods, NoFinder(), c.now), Granted(0, web.name, c.now)]
    ensures d.history != [] && d.Current().status.disrupted == map[web.name := c.now]
    ensures d.Current().spec.maxUnavailable == Amount(limit) && DisruptedZones(d.Current().status.unhealthy) == {}
  {
    assert DisruptedZones(Zeros(Observed(Group(c.pods, c.zoneOf)))) == {};
  }

  lemma NowJustGranted(c: Cluster, order: seq<Zone>, limit: nat, web: Pod, z: Zone, d: Cluster)
    requires Starts(c, order, limit) && web in c.pods && d == GrantedOnce(c, limit, web, z)
    ensures JustGranted(d, order, web, c.now, limit) && d.now == c.now && d.pods == c.pods
    ensures d.commits == [Created, Synced(c.pods, NoFinder(), c.now), Granted(0, web.name, c.now)]
  {
    GrantedStatus(c, order, limit, web, z, d);
    assert d.reconcilers == c.reconcilers && d.zoneOf == c.zoneOf;
  }

  /** A sync and a grant of the pod, from a new budget. */
  lemma GrantedFirst(c: Cluster, order: seq<Zone>, limit: nat, web: Pod) returns (events: seq<Event>, d: Cluster)
    requires Starts(c, order, limit) && web in c.pods && limit >= 1
    ensures Legal(c, events) && After(c, events) == d && JustGranted(d, order, web, c.now, limit) && d.now == c.now
    ensures d.pods == c.pods && d.commits == [Created, Synced(c.pods, NoFinder(), c.now), Granted(0, web.name, c.now)]
  {
    d := GrantedOnce(c, limit, web, c.zoneOf[web.name]);
    events := GrantReached(c, order, limit, web, c.zoneOf[web.name]);
    NowJustGranted(c, order, limit, web, c.zoneOf[web.name], d);
  }

  /**
   * From a new budget over any serving pods there is a run in which one of them is granted, a sync follows a minute
   * later, and the pod then goes: it is still on record, and nothing has failed since the grant.
   */
  lemma EvictionInTime(c: Cluster, order: seq<Zone>, limit: nat, web: Pod)
    returns (before: seq<Event>, d: Cluster, events: seq<Event>)
    requires Starts(c, order, limit) && web in c.pods && limit >= 1
    ensures Legal(c, before) && After(c, before) == d && Legal(d, events)
    ensures d.commits == [Created, Synced(c.pods, NoFinder(), c.now), Granted(0, web.name, c.now)]
    ensures d.pods == c.pods && d.now == c.now
    ensures Failures(d, events, map[web.name := c.now]) == {} && web.name !in UpNames(After(d, events).pods)
    ensures After(d, events).commits == d.commits + [Synced(d.pods, NoFinder(), d.now + 60 * SECOND)]
  {
    before, d := GrantedFirst(c, order, limit, web);
    events := FromTick(d, order, web, limit);
  }
}
