/** Runs in which handlers lose: to a change of the spec, and to one another with re-reads that are outdated or fail. */
module BudgetRaces {
  import opened Seqs
  import opened Pods
  import opened SortMap
  import opened ExpectedPods
  import opened ZdbStore
  import opened ZdbController
  import opened EvictionWebhook
  import opened BudgetRuns
  import opened BudgetCluster
  import opened BudgetExample

  lemma Before(c: Cluster, e: Event, d: Cluster, rest: seq<Event>)
    requires c.history != [] && Enabled(c, e) && Next(c, e) == d && d.history != [] && Legal(d, rest)
    ensures Legal(c, [e] + rest) && After(c, [e] + rest) == After(d, rest)
  {
    assert ([e] + rest)[1..] == rest;
  }

  lemma Last(c: Cluster, e: Event, d: Cluster)
    requires c.history != [] && Enabled(c, e) && Next(c, e) == d && d.history != []
    ensures Legal(c, [e]) && After(c, [e]) == d
  {
    One(c, e);
  }

  // ---------- a change of the spec ----------

  /** A handler on the version of a spec change is refused whatever allowances that still shows. */
  lemma StaleIsRefused(c: Cluster, h: Id, web: Pod, z: Zone, d: Cluster)
    requires c.history != [] && h in c.handlers && c.handlers[h] == Handler(web, false, Deciding(c.Latest(), 0))
    requires web.name in c.zoneOf && c.zoneOf[web.name] == z
    requires c.Current().status.observedGeneration < c.Current().generation
    requires d == SetHandler(c, h, Handler(web, false, Closed(Refusal)))
    ensures Enabled(c, TryCommit(h, Some(z))) && Next(c, TryCommit(h, Some(z))) == d
  {}

  lemma FencedOff(c: Cluster, web: Pod, z: Zone, spec: Spec) returns (events: seq<Event>)
    requires c.history != [] && c.handlers == map[] && !Bypasses(web, c.Current()) && !spec.dryRun
    requires web.name in c.zoneOf && c.zoneOf[web.name] == z
    requires c.Current().status.observedGeneration <= c.Current().generation
    ensures Legal(c, events) && After(c, events).commits == c.commits + [SpecChanged]
    ensures After(c, events).handlers == map[0 := Handler(web, false, Closed(Refusal))]
  {
    var d := Append(c, Zdb(c.Current().generation + 1, spec, c.Current().status), SpecChanged);
    var begun := SetHandler(d, 0, Handler(web, false, Deciding(d.Latest(), 0)));
    var refused := SetHandler(d, 0, Handler(web, false, Closed(Refusal)));
    assert refused == SetHandler(begun, 0, Handler(web, false, Closed(Refusal)));
    StaleIsRefused(begun, 0, web, z, refused);
    Last(begun, TryCommit(0, Some(z)), refused);
    Before(d, Begin(0, web, d.Latest(), false), begun, [TryCommit(0, Some(z))]);
    Before(c, ChangeSpec(spec), d, [Begin(0, web, d.Latest(), false)] + [TryCommit(0, Some(z))]);
    events := [ChangeSpec(spec)] + ([Begin(0, web, d.Latest(), false)] + [TryCommit(0, Some(z))]);
  }

  /**
   * From a new budget: after a sync any of the pods may be evicted, but once the spec has changed, to whatever it may
   * be, a handler that has read that is refused.
   */
  lemma SpecChangeRefuses(c: Cluster, order: seq<Zone>, limit: nat, web: Pod, spec: Spec) returns (events: seq<Event>)
    requires Starts(c, order, limit) && web in c.pods && limit >= 1 && !spec.dryRun
    ensures Legal(c, events)
    ensures After(c, events).commits == [Created, Synced(c.pods, NoFinder(), c.now)] + [SpecChanged]
    ensures After(c, events).handlers == map[0 := Handler(web, false, Closed(Refusal))]
  {
    var sync, d := Opened(c, order, limit);
    assert OpenFor(d.Current(), c.pods, c.zoneOf, limit, web);
    var fenced := FencedOff(d, web, c.zoneOf[web.name], spec);
    Joined(c, sync, fenced);
    events := sync + fenced;
  }

  // ---------- a lost race ----------

  /** A handler on an outdated version of a payable object conflicts. */
  lemma OutdatedConflicts(c: Cluster, h: Id, web: Pod, z: Zone, v: nat, attempt: nat, d: Cluster)
    requires c.history != [] && h in c.handlers && c.handlers[h] == Handler(web, false, Deciding(v, attempt))
    requires v < c.Latest() && attempt + 1 < 20 && Grants(c.history[v], z)
    requires web.name in c.zoneOf && c.zoneOf[web.name] == z
    requires d == SetHandler(c, h, Handler(web, false, Conflicting(attempt + 1)))
    ensures Enabled(c, TryCommit(h, Some(z))) && Next(c, TryCommit(h, Some(z))) == d
  {}

  /** It may read the same outdated version again, conflict again, and then fail to read at all. */
  lemma GivesUp(c: Cluster, h: Id, web: Pod, z: Zone, v: nat, d: Cluster) returns (events: seq<Event>)
    requires c.history != [] && h in c.handlers && c.handlers[h] == Handler(web, false, Deciding(v, 0))
    requires v < c.Latest() && Grants(c.history[v], z) && web.name in c.zoneOf && c.zoneOf[web.name] == z
    requires d == SetHandler(c, h, Handler(web, false, Closed(Refusal)))
    ensures Legal(c, events) && After(c, events) == d
  {
    var c1 := SetHandler(c, h, Handler(web, false, Conflicting(1)));
    var c2 := SetHandler(c1, h, Handler(web, false, Deciding(v, 1)));
    var c3 := SetHandler(c2, h, Handler(web, false, Conflicting(2)));
    OutdatedConflicts(c, h, web, z, v, 0, c1);
    OutdatedConflicts(c2, h, web, z, v, 1, c3);
    assert SetHandler(c3, h, Handler(web, false, Closed(Refusal))) == d;
    Last(c3, RereadFails(h), d);
    Before(c2, TryCommit(h, Some(z)), c3, [RereadFails(h)]);
    Before(c1, Reread(h, v), c2, [TryCommit(h, Some(z))] + [RereadFails(h)]);
    Before(c, TryCommit(h, Some(z)), c1, [Reread(h, v)] + ([TryCommit(h, Some(z))] + [RereadFails(h)]));
    events := [TryCommit(h, Some(z))] + ([Reread(h, v)] + ([TryCommit(h, Some(z))] + [RereadFails(h)]));
  }

  lemma BothBegin(c: Cluster, a: Pod, b: Pod) returns (events: seq<Event>)
    requires c.history != [] && c.handlers == map[] && !Bypasses(a, c.Current()) && !Bypasses(b, c.Current())
    requires !c.Current().spec.dryRun
    ensures Legal(c, events)
    ensures After(c, events) == c.(handlers := map[0 := Handler(a, false, Deciding(c.Latest(), 0)),
                                                   1 := Handler(b, false, Deciding(c.Latest(), 0))])
  {
    var c1 := SetHandler(c, 0, Handler(a, false, Deciding(c.Latest(), 0)));
    BeginStep(c, 0, a);
    BeginStep(c1, 1, b);
    Joined(c, [Begin(0, a, c.Latest(), false)], [Begin(1, b, c.Latest(), false)]);
    events := [Begin(0, a, c.Latest(), false)] + [Begin(1, b, c.Latest(), false)];
  }

  lemma FirstWins(c: Cluster, a: Pod, b: Pod, y: Zone, z: Zone) returns (events: seq<Event>)
    requires c.history != []
    requires c.handlers == map[0 := Handler(a, false, Deciding(c.Latest(), 0)),
                               1 := Handler(b, false, Deciding(c.Latest(), 0))]
    requires Grants(c.Current(), y) && a.name in c.zoneOf && c.zoneOf[a.name] == y
    requires Grants(c.Current(), z) && b.name in c.zoneOf && c.zoneOf[b.name] == z
    ensures Legal(c, events) && After(c, events).commits == c.commits + [Granted(0, a.name, c.now)]
    ensures After(c, events).handlers == map[0 := Handler(a, false, Closed(GrantedAt(|c.history|))),
                                             1 := Handler(b, false, Closed(Refusal))]
  {
    var v, c3 := c.Latest(), AfterGrant(c, 0, a, y);
    CommitStep(c, 0, a, y, 0);
    assert c3.history[v] == c.Current();
    var lost := GivesUp(c3, 1, b, z, v, SetHandler(c3, 1, Handler(b, false, Closed(Refusal))));
    Joined(c, [TryCommit(0, Some(y))], lost);
    events := [TryCommit(0, Some(y))] + lost;
  }

  lemma Loses(c: Cluster, a: Pod, b: Pod, y: Zone, z: Zone) returns (events: seq<Event>)
    requires c.history != [] && c.handlers == map[]
    requires !Bypasses(a, c.Current()) && Grants(c.Current(), y) && a.name in c.zoneOf && c.zoneOf[a.name] == y
    requires !Bypasses(b, c.Current()) && Grants(c.Current(), z) && b.name in c.zoneOf && c.zoneOf[b.name] == z
    ensures Legal(c, events) && After(c, events).commits == c.commits + [Granted(0, a.name, c.now)]
    ensures After(c, events).handlers == map[0 := Handler(a, false, Closed(GrantedAt(|c.history|))),
                                             1 := Handler(b, false, Closed(Refusal))]
  {
    var begin := BothBegin(c, a, b);
    var race := FirstWins(After(c, begin), a, b, y, z);
    Joined(c, begin, race);
    events := begin + race;
  }

  /**
   * From a new budget: of two handlers on the same version one commits; the other conflicts, is handed the outdated
   * version again, conflicts again, and is refused when the object cannot be read.
   */
  lemma LostRaceRefuses(c: Cluster, order: seq<Zone>, limit: nat, a: Pod, b: Pod) returns (events: seq<Event>)
    requires Starts(c, order, limit) && a in c.pods && b in c.pods && limit >= 1
    ensures Legal(c, events)
    ensures After(c, events).commits == [Created, Synced(c.pods, NoFinder(), c.now)] + [Granted(0, a.name, c.now)]
    ensures After(c, events).handlers == map[0 := Handler(a, false, Closed(GrantedAt(2))),
                                             1 := Handler(b, false, Closed(Refusal))]
  {
    var sync, d := Opened(c, order, limit);
    assert OpenFor(d.Current(), c.pods, c.zoneOf, limit, a) && OpenFor(d.Current(), c.pods, c.zoneOf, limit, b);
    var race := Loses(d, a, b, c.zoneOf[a.name], c.zoneOf[b.name]);
    Joined(c, sync, race);
    events := sync + race;
  }
}
