/**
 * Runs of the budget from its creation, for any serving pods: an eviction granted, one pod granted twice, and grants in
 * two zones without a sync in between.
 */
module BudgetExample {
  import opened Seqs
  import opened Pods
  import opened SortMap
  import opened TopUpFacts
  import opened ExpectedPods
  import opened ZdbStore
  import opened ZdbController
  import opened EvictionWebhook
  import opened BudgetFacts
  import opened BudgetRuns
  import opened BudgetCluster

  // ---------- the first sync ----------

  /** Serving pods of known zone and without controllers. */
  ghost predicate Plain(pods: seq<Pod>, zoneOf: map<PodName, Zone>) {
    DistinctNames(pods) && forall p :: p in pods ==> Up(p) && p.controller.None? && p.name in zoneOf
  }

  function NoFinder(): Finder { (ref: ControllerRef) => NoController }

  function Fresh(limit: int): Zdb {
    Zdb(1, Spec(Amount(limit), false), NO_STATUS)
  }

  function Zeros(observed: map<Zone, int>): map<Zone, int> {
    map z | z in observed :: 0
  }

  /** All pods healthy and all of them expected. */
  function Opening(observed: map<Zone, int>, limit: int): Status {
    var desired := Desired(observed, limit);
    Status(1, map[], Allowances(observed, Zeros(observed), desired), observed, Zeros(observed), desired, observed)
  }

  lemma OpeningAllows(observed: map<Zone, int>, limit: nat, z: Zone)
    requires z in observed && observed[z] >= 0
    ensures Get(Opening(observed, limit).allowed, z) == Min(observed[z], limit)
  {
    assert DisruptedZones(Zeros(observed)) == {};
  }

  lemma {:induction false} NoScales(pods: seq<Pod>)
    requires forall p :: p in pods ==> p.controller.None?
    ensures ControllerScales(pods, NoFinder()) == Ok(map[])
  {
    if pods != [] {
      NoScales(pods[..|pods| - 1]);
      assert pods[|pods| - 1] in pods;
    }
  }

  lemma {:induction false} SumIsNatural(m: map<Zone, int>)
    requires forall z :: z in m ==> m[z] >= 0
    ensures Sum(m) >= 0
    decreases |m|
  {
    if m != map[] {
      var k :| k in m && Sum(m) == m[k] + Sum(m - {k});
      assert (m - {k}).Keys == m.Keys - {k};
      SumIsNatural(m - {k});
    }
  }

  lemma NothingMissing(observed: map<Zone, int>, order: seq<Zone>)
    requires Enumerates(order, observed.Keys) && forall z :: z in observed ==> observed[z] >= 0
    ensures TopUp(observed, order, 0) == observed
  {
    SumIsNatural(observed);
    forall z | z in observed ensures TopUp(observed, order, 0)[z] == observed[z] {
      assert Share(IndexOf(order, z), 0, |order|) == 0;
    }
  }

  lemma PlainExpectation(pods: seq<Pod>, limit: int, groups: map<Zone, seq<Pod>>, order: seq<Zone>)
    requires (forall p :: p in pods ==> p.controller.None?) && Ascending(order, Observed(groups))
    ensures Expectation(pods, NoFinder(), Amount(limit), groups, order)
            == Ok((Observed(groups), Desired(Observed(groups), limit)))
  {
    NoScales(pods);
    NothingMissing(Observed(groups), order);
  }

  lemma AllHealthy(pods: seq<Pod>, zoneOf: map<PodName, Zone>, now: Time)
    requires Plain(pods, zoneOf)
    ensures var groups := Group(pods, zoneOf);
            && HealthyCounts(groups, map[], now) == Observed(groups)
            && UnhealthyCounts(groups, map[], now) == Zeros(Observed(groups))
    ensures RetainedDisruptions(pods, map[], now) == map[]
  {
    var groups := Group(pods, zoneOf);
    forall z | z in groups ensures Filter(groups[z], HealthyAt(map[], now)) == groups[z] {
      FilterMembers(pods, InZone(zoneOf, z));
      FilterAll(groups[z], HealthyAt(map[], now));
    }
  }

  lemma FirstSync(pods: seq<Pod>, zoneOf: map<PodName, Zone>, order: seq<Zone>, limit: int, now: Time)
    requires Plain(pods, zoneOf) && Ascending(order, Observed(Group(pods, zoneOf)))
    ensures ComputedStatus(Fresh(limit), pods, zoneOf, NoFinder(), order, now)
            == Ok(Opening(Observed(Group(pods, zoneOf)), limit))
  {
    PlainExpectation(pods, limit, Group(pods, zoneOf), order);
    AllHealthy(pods, zoneOf, now);
  }

  // ---------- single events ----------

  lemma One(c: Cluster, e: Event)
    requires c.history != [] && Enabled(c, e) && Next(c, e).history != []
    ensures Legal(c, [e]) && After(c, [e]) == Next(c, e)
  {
    assert [e][1..] == [];
    assert Legal(Next(c, e), []) && After(Next(c, e), []) == Next(c, e);
  }

  lemma {:induction false} Joined(c: Cluster, a: seq<Event>, b: seq<Event>)
    requires c.history != [] && Legal(c, a) && Legal(After(c, a), b)
    ensures Legal(c, a + b) && After(c, a + b) == After(After(c, a), b)
    decreases a
  {
    if a == [] {
      assert a + b == b;
    } else {
      assert (a + b)[1..] == a[1..] + b;
      Joined(Next(c, a[0]), a[1..], b);
    }
  }

  ghost predicate Starts(c: Cluster, order: seq<Zone>, limit: int) {
    && Initial(c) && c.history == [Fresh(limit)] && Plain(c.pods, c.zoneOf)
    && Ascending(order, Observed(Group(c.pods, c.zoneOf)))
  }

  /** The cluster after its first sync. */
  ghost function Synchronized(c: Cluster, limit: int): Cluster
    requires c.history != []
  {
    Append(c, c.Current().(status := Opening(Observed(Group(c.pods, c.zoneOf)), limit)),
           Synced(c.pods, NoFinder(), c.now))
  }

  lemma ReadStep(c: Cluster, order: seq<Zone>, limit: int, reader: Reconciler)
    requires Starts(c, order, limit)
    requires reader == Reconciler(0, c.pods, NoFinder(), c.now, Opening(Observed(Group(c.pods, c.zoneOf)), limit), {})
    ensures Enabled(c, Read(0, 0, NoFinder(), order))
    ensures Next(c, Read(0, 0, NoFinder(), order)) == c.(reconcilers := map[0 := reader])
  {
    FirstSync(c.pods, c.zoneOf, order, limit, c.now);
    assert Expiring(c.pods, map[], c.now) == {};
  }

  lemma WriteStep(c: Cluster, writer: Reconciler)
    requires |c.history| == 1 && c.reconcilers == map[0 := writer] && writer.version == 0
    ensures Enabled(c, Write(0))
    ensures Next(c, Write(0))
            == Append(c.(reconcilers := map[], lost := writer.lost), c.history[0].(status := writer.status),
                      Synced(writer.pods, writer.find, writer.now))
  {
    assert c.reconcilers - {0} == map[];
  }

  lemma SyncHappens(c: Cluster, order: seq<Zone>, limit: int) returns (events: seq<Event>)
    requires Starts(c, order, limit)
    ensures Legal(c, events) && After(c, events) == Synchronized(c, limit)
  {
    var writer := Reconciler(0, c.pods, NoFinder(), c.now, Opening(Observed(Group(c.pods, c.zoneOf)), limit), {});
    var d := c.(reconcilers := map[0 := writer]);
    ReadStep(c, order, limit, writer);
    One(c, Read(0, 0, NoFinder(), order));
    WriteStep(d, writer);
    One(d, Write(0));
    Joined(c, [Read(0, 0, NoFinder(), order)], [Write(0)]);
    events := [Read(0, 0, NoFinder(), order)] + [Write(0)];
  }

  /** The object grants evictions in zone z. */
  ghost predicate Grants(zdb: Zdb, z: Zone) {
    && zdb.status.observedGeneration >= zdb.generation && Get(zdb.status.allowed, z) > 0
    && |zdb.status.disrupted| <= MAX_DISRUPTED_POD_SIZE && !zdb.spec.dryRun
  }

  lemma BeginStep(c: Cluster, h: Id, web: Pod)
    requires c.history != [] && h !in c.handlers && !Bypasses(web, c.Current()) && !c.Current().spec.dryRun
    ensures Legal(c, [Begin(h, web, c.Latest(), false)])
    ensures After(c, [Begin(h, web, c.Latest(), false)])
            == SetHandler(c, h, Handler(web, false, Deciding(c.Latest(), 0)))
  {
    One(c, Begin(h, web, c.Latest(), false));
  }

  ghost function AfterGrant(c: Cluster, h: Id, web: Pod, z: Zone): Cluster
    requires c.history != []
  {
    Append(SetHandler(c, h, Handler(web, false, Closed(GrantedAt(|c.history|)))),
           c.Current().(status := Decremented(c.Current().status, web.name, z, c.now)), Granted(h, web.name, c.now))
  }

  lemma CommitStep(c: Cluster, h: Id, web: Pod, z: Zone, attempt: nat)
    requires c.history != [] && h in c.handlers && c.handlers[h] == Handler(web, false, Deciding(c.Latest(), attempt))
    requires web.name in c.zoneOf && c.zoneOf[web.name] == z && Grants(c.Current(), z)
    ensures Legal(c, [TryCommit(h, Some(z))]) && After(c, [TryCommit(h, Some(z))]) == AfterGrant(c, h, web, z)
  {
    One(c, TryCommit(h, Some(z)));
  }

  /** A handler on an outdated version conflicts, reads again and then commits. */
  lemma RetryStep(c: Cluster, h: Id, web: Pod, z: Zone, v: nat) returns (events: seq<Event>)
    requires c.history != [] && h in c.handlers && c.handlers[h] == Handler(web, false, Deciding(v, 0))
             && v < c.Latest()
    requires web.name in c.zoneOf && c.zoneOf[web.name] == z && Grants(c.history[v], z) && Grants(c.Current(), z)
    ensures Legal(c, events) && After(c, events) == AfterGrant(c, h, web, z)
  {
    var conflicting := SetHandler(c, h, Handler(web, false, Conflicting(1)));
    One(c, TryCommit(h, Some(z)));
    assert After(c, [TryCommit(h, Some(z))]) == conflicting;
    var again := SetHandler(conflicting, h, Handler(web, false, Deciding(c.Latest(), 1)));
    One(conflicting, Reread(h, c.Latest()));
    assert After(conflicting, [Reread(h, c.Latest())]) == again;
    CommitStep(again, h, web, z, 1);
    Joined(conflicting, [Reread(h, c.Latest())], [TryCommit(h, Some(z))]);
    Joined(c, [TryCommit(h, Some(z))], [Reread(h, c.Latest())] + [TryCommit(h, Some(z))]);
    assert AfterGrant(again, h, web, z) == AfterGrant(c, h, web, z);
    events := [TryCommit(h, Some(z))] + ([Reread(h, c.Latest())] + [TryCommit(h, Some(z))]);
  }

  lemma OneGrant(c: Cluster, h: Id, web: Pod, z: Zone) returns (events: seq<Event>)
    requires c.history != [] && h !in c.handlers && !Bypasses(web, c.Current()) && Grants(c.Current(), z)
    requires web.name in c.zoneOf && c.zoneOf[web.name] == z
    ensures Legal(c, events) && After(c, events) == AfterGrant(c, h, web, z)
  {
    var d := SetHandler(c, h, Handler(web, false, Deciding(c.Latest(), 0)));
    BeginStep(c, h, web);
    CommitStep(d, h, web, z, 0);
    Joined(c, [Begin(h, web, c.Latest(), false)], [TryCommit(h, Some(z))]);
    assert AfterGrant(d, h, web, z) == AfterGrant(c, h, web, z);
    events := [Begin(h, web, c.Latest(), false)] + [TryCommit(h, Some(z))];
  }

  /** Any of the pods may be evicted from its zone, as often as the zone and the limit have room. */
  ghost predicate OpenFor(zdb: Zdb, pods: seq<Pod>, zoneOf: map<PodName, Zone>, limit: nat, web: Pod)
    requires web in pods && web.name in zoneOf
  {
    && Grants(zdb, zoneOf[web.name]) && !Bypasses(web, zdb)
    && Get(zdb.status.allowed, zoneOf[web.name]) == Min(|Filter(pods, InZone(zoneOf, zoneOf[web.name]))|, limit)
  }

  lemma GroupSize(pods: seq<Pod>, zoneOf: map<PodName, Zone>, web: Pod, z: Zone)
    requires web in pods && web.name in zoneOf && zoneOf[web.name] == z
    ensures z in Observed(Group(pods, zoneOf))
            && Observed(Group(pods, zoneOf))[z] == |Filter(pods, InZone(zoneOf, z))| >= 1
  {
    FilterMembers(pods, InZone(zoneOf, z));
    assert web in Filter(pods, InZone(zoneOf, z));
    assert z in ZonesOf(pods, zoneOf);
  }

  lemma OpensZone(zdb: Zdb, pods: seq<Pod>, zoneOf: map<PodName, Zone>, limit: nat, web: Pod, observed: map<Zone, int>)
    requires Plain(pods, zoneOf) && web in pods && limit >= 1 && observed == Observed(Group(pods, zoneOf))
    requires zdb == Fresh(limit).(status := Opening(observed, limit))
    ensures OpenFor(zdb, pods, zoneOf, limit, web)
  {
    GroupSize(pods, zoneOf, web, zoneOf[web.name]);
    OpeningAllows(observed, limit, zoneOf[web.name]);
  }

  /** From a new budget to its first sync, after which every pod may be evicted. */
  lemma Opened(c: Cluster, order: seq<Zone>, limit: nat) returns (events: seq<Event>, d: Cluster)
    requires Starts(c, order, limit) && limit >= 1
    ensures Legal(c, events) && After(c, events) == d
    ensures |d.history| == 2 && d.commits == [Created, Synced(c.pods, NoFinder(), c.now)]
    ensures d.zoneOf == c.zoneOf && d.now == c.now && d.handlers == map[] && d.Current().status.disrupted == map[]
    ensures d.Current().status.observedGeneration == d.Current().generation
    ensures forall web :: web in c.pods ==> web.name in c.zoneOf && OpenFor(d.Current(), c.pods, c.zoneOf, limit, web)
  {
    events := SyncHappens(c, order, limit);
    d := Synchronized(c, limit);
    forall web | web in c.pods ensures web.name in c.zoneOf && OpenFor(d.Current(), c.pods, c.zoneOf, limit, web) {
      OpensZone(d.Current(), c.pods, c.zoneOf, limit, web, Observed(Group(c.pods, c.zoneOf)));
    }
  }

  // ---------- the runs ----------

  /** From a new budget, a sync and a handler lead to the grant of any of the pods. */
  lemma GrantHappens(c: Cluster, order: seq<Zone>, limit: nat, web: Pod) returns (events: seq<Event>)
    requires Starts(c, order, limit) && web in c.pods && limit >= 1
    ensures Legal(c, events)
    ensures After(c, events).commits == [Created, Synced(c.pods, NoFinder(), c.now)] + [Granted(0, web.name, c.now)]
    ensures After(c, events).Current().status.disrupted == map[web.name := c.now]
  {
    var sync, d := Opened(c, order, limit);
    var grant := OneGrant(d, 0, web, c.zoneOf[web.name]);
    Joined(c, sync, grant);
    events := sync + grant;
  }

  lemma StillGrants(zdb: Zdb, name: PodName, y: Zone, z: Zone, now: Time)
    requires zdb.status.disrupted == map[] && Grants(zdb, z) && (y == z ==> Get(zdb.status.allowed, z) >= 2)
    ensures Grants(zdb.(status := Decremented(zdb.status, name, y, now)), z)
  {}

  lemma BothGrants(c: Cluster, a: Pod, b: Pod) returns (events: seq<Event>)
    requires c.history != [] && c.handlers == map[] && c.Current().status.disrupted == map[]
    requires a.name in c.zoneOf && Grants(c.Current(), c.zoneOf[a.name]) && !Bypasses(a, c.Current())
    requires b.name in c.zoneOf && Grants(c.Current(), c.zoneOf[b.name]) && !Bypasses(b, c.Current())
    requires c.zoneOf[a.name] != c.zoneOf[b.name]
    ensures Legal(c, events) && After(c, events).zoneOf == c.zoneOf
    ensures After(c, events).commits == c.commits + [Granted(0, a.name, c.now)] + [Granted(1, b.name, c.now)]
    ensures After(c, events).Current().status.disrupted.Keys == {a.name, b.name}
  {
    var first := OneGrant(c, 0, a, c.zoneOf[a.name]);
    StillGrants(c.Current(), a.name, c.zoneOf[a.name], c.zoneOf[b.name], c.now);
    var second := OneGrant(AfterGrant(c, 0, a, c.zoneOf[a.name]), 1, b, c.zoneOf[b.name]);
    Joined(c, first, second);
    events := first + second;
  }

  /**
   * One after the other, without a sync in between, pods of two zones are granted: all it takes is a serving pod in
   * each, so what the API promises of other zones holds only as of the last sync.
   */
  lemma TwoZonesGranted(c: Cluster, order: seq<Zone>, limit: nat, a: Pod, b: Pod) returns (events: seq<Event>)
    requires Starts(c, order, limit) && a in c.pods && b in c.pods && limit >= 1
    requires c.zoneOf[a.name] != c.zoneOf[b.name]
    ensures Legal(c, events) && After(c, events).zoneOf == c.zoneOf
    ensures After(c, events).commits
            == [Created, Synced(c.pods, NoFinder(), c.now)] + [Granted(0, a.name, c.now)] + [Granted(1, b.name, c.now)]
    ensures After(c, events).Current().status.disrupted.Keys == {a.name, b.name}
  {
    var sync, d := Opened(c, order, limit);
    var grants := BothGrants(d, a, b);
    Joined(c, sync, grants);
    events := sync + grants;
  }

  /**
   * Two handlers for one pod begin on the same version; the second loses the race, reads again and is granted as well.
   */
  lemma SecondGrant(c: Cluster, web: Pod, z: Zone) returns (events: seq<Event>)
    requires c.history != [] && c.handlers == map[] && !Bypasses(web, c.Current()) && Grants(c.Current(), z)
    requires web.name in c.zoneOf && c.zoneOf[web.name] == z
    requires c.Current().status.disrupted == map[] && Get(c.Current().status.allowed, z) >= 2
    ensures Legal(c, events)
    ensures After(c, events).history == c.history + [Once(c, web, z)] + [Twice(c, web, z)]
    ensures After(c, events).commits == c.commits + [Granted(0, web.name, c.now)] + [Granted(1, web.name, c.now)]
  {
    var v := c.Latest();
    var c1 := SetHandler(c, 0, Handler(web, false, Deciding(v, 0)));
    var c2 := SetHandler(c1, 1, Handler(web, false, Deciding(v, 0)));
    var c3 := AfterGrant(c2, 0, web, z);
    BeginStep(c, 0, web);
    BeginStep(c1, 1, web);
    CommitStep(c2, 0, web, z, 0);
    StillGrants(c.Current(), web.name, z, z, c.now);
    var retry := RetryStep(c3, 1, web, z, v);
    Joined(c2, [TryCommit(0, Some(z))], retry);
    Joined(c1, [Begin(1, web, v, false)], [TryCommit(0, Some(z))] + retry);
    Joined(c, [Begin(0, web, v, false)], [Begin(1, web, v, false)] + ([TryCommit(0, Some(z))] + retry));
    events := [Begin(0, web, v, false)] + ([Begin(1, web, v, false)] + ([TryCommit(0, Some(z))] + retry));
  }

  ghost function Once(c: Cluster, web: Pod, z: Zone): Zdb
    requires c.history != []
  {
    c.Current().(status := Decremented(c.Current().status, web.name, z, c.now))
  }

  ghost function Twice(c: Cluster, web: Pod, z: Zone): Zdb
    requires c.history != []
  {
    Once(c, web, z).(status := Decremented(Once(c, web, z).status, web.name, z, c.now))
  }

  /** So one pod may be granted twice: two allowances are spent and one record shows for them. */
  lemma OnePodGrantedTwice(c: Cluster, order: seq<Zone>, limit: nat, web: Pod, z: Zone) returns (events: seq<Event>)
    requires Starts(c, order, limit) && web in c.pods && limit >= 2
    requires c.zoneOf[web.name] == z && |Filter(c.pods, InZone(c.zoneOf, z))| >= 2
    ensures Legal(c, events)
    ensures var d := After(c, events);
            && d.commits == [Created, Synced(c.pods, NoFinder(), c.now)] + [Granted(0, web.name, c.now)]
                            + [Granted(1, web.name, c.now)]
            && |d.history| == 4 && !EachOnce(c.zoneOf, d.history, d.commits, 1, 3, z)
            && GrantsIn(d.commits, c.zoneOf, 1, 3, z) == 2 && NewlyRecorded(d.history, c.zoneOf, 1, 3, z) == {web.name}
            && Get(d.history[3].status.allowed, z) == Get(d.history[1].status.allowed, z) - 2
  {
    var sync, d := Opened(c, order, limit);
    var grants := SecondGrant(d, web, z);
    Joined(c, sync, grants);
    events := sync + grants;
    CountTwice(d, web, z, After(c, events).history, After(c, events).commits);
  }

  lemma CountTwice(c: Cluster, web: Pod, z: Zone, history: seq<Zdb>, commits: seq<Commit>)
    requires |c.history| == |c.commits| == 2 && c.Current().status.disrupted == map[]
    requires web.name in c.zoneOf && c.zoneOf[web.name] == z
    requires history == c.history + [Once(c, web, z)] + [Twice(c, web, z)]
    requires commits == c.commits + [Granted(0, web.name, c.now)] + [Granted(1, web.name, c.now)]
    ensures !EachOnce(c.zoneOf, history, commits, 1, 3, z)
    ensures GrantsIn(commits, c.zoneOf, 1, 3, z) == 2 && NewlyRecorded(history, c.zoneOf, 1, 3, z) == {web.name}
    ensures Get(history[3].status.allowed, z) == Get(history[1].status.allowed, z) - 2
  {
    assert GrantsIn(commits, c.zoneOf, 1, 1, z) == 0 && GrantsIn(commits, c.zoneOf, 1, 2, z) == 1;
    assert IsGrantIn(commits[3], c.zoneOf, z) && web.name in history[2].status.disrupted;
  }
}
