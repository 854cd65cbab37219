/**
 * What every run of the budget keeps: serializability, one commit per grant, and enough serving pods behind every
 * grant.
 */
module BudgetSafety {
  import opened Seqs
  import opened Pods
  import opened ExpectedPods
  import opened ZdbStore
  import opened ZdbController
  import opened EvictionWebhook
  import opened BudgetFacts
  import opened BudgetRuns
  import opened BudgetCluster

  // ---------- serializability ----------

  /**
   * The versions in the store are a run of the atomic specification, and writers hold whole syncs of versions they have
   * read.
   */
  ghost predicate Serial(c: Cluster) {
    && AtomicRun(c.zoneOf, c.history, c.commits)
    && DistinctNames(c.pods)
    && forall r :: r in c.reconcilers ==> ReadIt(c, c.reconcilers[r])
  }

  ghost predicate ReadIt(c: Cluster, writer: Reconciler) {
    writer.version < |c.history|
      && IsSync(c.zoneOf, c.history[writer.version], writer.pods, writer.find, writer.now, writer.status)
  }

  /** A handler that has granted an eviction made one commit, and every grant committed is that of one such handler. */
  ghost predicate GrantsMatch(c: Cluster) {
    && |c.commits| == |c.history|
    && (forall h :: h in c.handlers && c.handlers[h].state.Closed? && c.handlers[h].state.verdict.GrantedAt? ==>
          var v := c.handlers[h].state.verdict.version;
          && v < |c.commits| && c.commits[v].Granted?
          && c.commits[v].handler == h && c.commits[v].pod == c.handlers[h].pod.name && !c.handlers[h].dryRun)
    && (forall v :: 0 <= v < |c.commits| && c.commits[v].Granted? ==>
          var h := c.commits[v].handler;
          h in c.handlers && c.handlers[h].state == Closed(GrantedAt(v)))
  }

  lemma VersionAdded(c: Cluster, d: Cluster, zdb: Zdb, commit: Commit)
    requires Serial(c) && AtomicStep(c.zoneOf, c.Current(), commit, zdb)
    requires d.zoneOf == c.zoneOf && d.pods == c.pods
    requires d.history == c.history + [zdb] && d.commits == c.commits + [commit]
    requires forall r :: r in d.reconcilers ==> r in c.reconcilers && d.reconcilers[r] == c.reconcilers[r]
    ensures Serial(d)
  {}

  lemma WriteIsSync(c: Cluster, r: Id)
    requires Serial(c) && r in c.reconcilers && c.reconcilers[r].version == c.Latest()
    ensures var writer := c.reconcilers[r];
            AtomicStep(c.zoneOf, c.Current(), Synced(writer.pods, writer.find, writer.now),
                       c.Current().(status := writer.status))
  {}

  /** What a reconcile that reads now has in hand. */
  ghost function ReaderOf(c: Cluster, e: Event): Reconciler
    requires c.history != [] && e.Read? && Enabled(c, e)
  {
    var status := ComputedStatus(c.history[e.version], c.pods, c.zoneOf, e.find, e.order, c.now).value;
    Reconciler(e.version, c.pods, e.find, c.now, status, Expiring(c.pods, status.disrupted, c.now))
  }

  lemma ReadAddsReader(c: Cluster, e: Event)
    requires c.history != [] && e.Read? && Enabled(c, e)
    ensures Next(c, e) == c || Next(c, e) == c.(reconcilers := c.reconcilers[e.reconciler := ReaderOf(c, e)])
  {}

  lemma ReaderJoinsSerial(c: Cluster, id: Id, reader: Reconciler, d: Cluster)
    requires Serial(c) && ReadIt(c, reader) && d == c.(reconcilers := c.reconcilers[id := reader])
    ensures Serial(d)
  {
    forall r | r in d.reconcilers ensures ReadIt(d, d.reconcilers[r]) {
      assert d.reconcilers[r] == reader || (r in c.reconcilers && ReadIt(c, c.reconcilers[r]));
    }
  }

  lemma ReadStaysSerial(c: Cluster, e: Event, d: Cluster)
    requires c.history != [] && Serial(c) && e.Read? && Enabled(c, e) && d == Next(c, e)
    ensures Serial(d)
  {
    ReadAddsReader(c, e);
    ReaderIsSync(c, e, ReaderOf(c, e));
    ReaderJoinsSerial(c, e.reconciler, ReaderOf(c, e),
                      c.(reconcilers := c.reconcilers[e.reconciler := ReaderOf(c, e)]));
  }

  lemma ReaderIsSync(c: Cluster, e: Event, reader: Reconciler)
    requires c.history != [] && DistinctNames(c.pods) && e.Read? && Enabled(c, e) && reader == ReaderOf(c, e)
    ensures ReadIt(c, reader)
  {
    assert IsSync(c.zoneOf, c.history[e.version], c.pods, e.find, c.now, reader.status);
  }

  lemma PodsChangeStaysSerial(c: Cluster, pods: seq<Pod>)
    requires c.history != [] && Serial(c) && DistinctNames(pods)
    ensures Serial(Next(c, PodsChange(pods)))
  {}

  lemma UnrelatedStaysSerial(c: Cluster, d: Cluster)
    requires Serial(c)
    requires d.zoneOf == c.zoneOf && d.pods == c.pods && d.history == c.history && d.commits == c.commits
    requires forall r :: r in d.reconcilers ==> r in c.reconcilers && d.reconcilers[r] == c.reconcilers[r]
    ensures Serial(d)
  {}

  lemma WriteFrame(c: Cluster, r: Id, d: Cluster)
    requires c.history != [] && r in c.reconcilers && d == Next(c, Write(r)) && d.history != []
    ensures d.reconcilers == c.reconcilers - {r}
    ensures c.reconcilers[r].version == c.Latest() ==>
              |d.history| == |c.history| + 1 && d.Current().status == c.reconcilers[r].status
              && d.lost == c.reconcilers[r].lost
    ensures c.reconcilers[r].version != c.Latest() ==> d.history == c.history && d.lost == c.lost
  {}

  lemma WriteCommits(c: Cluster, r: Id, d: Cluster)
    requires c.history != [] && Serial(c) && r in c.reconcilers && c.reconcilers[r].version == c.Latest()
    requires var writer := c.reconcilers[r];
             d == Append(c.(reconcilers := c.reconcilers - {r}, lost := writer.lost),
                         c.Current().(status := writer.status),
                         Synced(writer.pods, writer.find, writer.now))
    ensures Serial(d)
  {
    var writer := c.reconcilers[r];
    WriteIsSync(c, r);
    VersionAdded(c, d, c.Current().(status := writer.status), Synced(writer.pods, writer.find, writer.now));
  }

  lemma WriteStaysSerial(c: Cluster, r: Id, d: Cluster)
    requires c.history != [] && Serial(c) && r in c.reconcilers && d == Next(c, Write(r))
    ensures Serial(d)
  {
    if c.reconcilers[r].version == c.Latest() {
      WriteCommits(c, r, d);
    } else {
      UnrelatedStaysSerial(c, d);
    }
  }

  lemma AttemptFrame(c: Cluster, h: Id, zone: Option<Zone>)
    requires c.history != [] && Enabled(c, TryCommit(h, zone))
    ensures var d := AfterAttempt(c, h, zone);
            && d.zoneOf == c.zoneOf && d.pods == c.pods && d.reconcilers == c.reconcilers && d.lost == c.lost
            && (d.history == c.history ==> d.commits == c.commits)
  {}

  lemma AttemptStaysSerial(c: Cluster, h: Id, zone: Option<Zone>, d: Cluster)
    requires c.history != [] && Serial(c) && Enabled(c, TryCommit(h, zone)) && d == AfterAttempt(c, h, zone)
    ensures Serial(d)
  {
    AttemptFrame(c, h, zone);
    if d.history != c.history {
      DecideInZone(c, h, zone);
      VersionAdded(c, d, d.Current(), Granted(h, c.handlers[h].pod.name, c.now));
    } else {
      UnrelatedStaysSerial(c, d);
    }
  }

  lemma SpecChangeStaysSerial(c: Cluster, spec: Spec)
    requires c.history != [] && Serial(c)
    ensures Serial(Next(c, ChangeSpec(spec)))
  {}

  lemma SerialStep(c: Cluster, e: Event)
    requires c.history != [] && Serial(c) && Enabled(c, e)
    ensures Serial(Next(c, e))
  {
    match e
    case ChangeSpec(spec) => SpecChangeStaysSerial(c, spec);
    case Read(_, _, _, _) => ReadStaysSerial(c, e, Next(c, e));
    case Write(r) => WriteStaysSerial(c, r, Next(c, e));
    case TryCommit(h, zone) => AttemptStaysSerial(c, h, zone, Next(c, e));
    case PodsChange(pods) => PodsChangeStaysSerial(c, pods);
    case _ => UnrelatedStaysSerial(c, Next(c, e));
  }

  lemma NextExtends(c: Cluster, e: Event)
    requires c.history != [] && |c.commits| == |c.history| && Enabled(c, e)
    ensures c.history <= Next(c, e).history && c.commits <= Next(c, e).commits
    ensures |Next(c, e).commits| == |Next(c, e).history| <= |c.history| + 1
    ensures Next(c, e).zoneOf == c.zoneOf
  {}

  lemma DecideInZone(c: Cluster, h: Id, zone: Option<Zone>)
    requires c.history != [] && Enabled(c, TryCommit(h, zone))
    requires AfterAttempt(c, h, zone).history != c.history
    ensures zone.Some? && c.handlers[h].pod.name in c.zoneOf && zone.value == c.zoneOf[c.handlers[h].pod.name]
    ensures !c.handlers[h].dryRun && c.handlers[h].state.version == c.Latest()
    ensures var name := c.handlers[h].pod.name;
            && AtomicStep(c.zoneOf, c.Current(), Granted(h, name, c.now), AfterAttempt(c, h, zone).Current())
            && AfterAttempt(c, h, zone).Current().status == Decremented(c.Current().status, name, zone.value, c.now)
            && Get(c.Current().status.allowed, zone.value) > 0
  {}

  ghost predicate Ungranted(h: Handler) {
    !(h.state.Closed? && h.state.verdict.GrantedAt?)
  }

  /** A handler moves on without a grant. */
  lemma HandlerMoves(c: Cluster, d: Cluster, id: Id)
    requires GrantsMatch(c) && d.history == c.history && d.commits == c.commits
    requires id in d.handlers && d.handlers == c.handlers[id := d.handlers[id]] && Ungranted(d.handlers[id])
    requires id in c.handlers ==> Ungranted(c.handlers[id])
    ensures GrantsMatch(d)
  {}

  /** A version that is no grant concerns no handler. */
  lemma VersionKeepsGrants(c: Cluster, d: Cluster, zdb: Zdb, commit: Commit)
    requires GrantsMatch(c) && !commit.Granted? && d.handlers == c.handlers
    requires d.history == c.history + [zdb] && d.commits == c.commits + [commit]
    ensures GrantsMatch(d)
  {}

  /** A grant and its version come together. */
  lemma GrantIsMatched(c: Cluster, d: Cluster, zdb: Zdb, commit: Commit, id: Id)
    requires GrantsMatch(c) && id in c.handlers && Ungranted(c.handlers[id]) && !c.handlers[id].dryRun
    requires commit.Granted? && commit.handler == id && commit.pod == c.handlers[id].pod.name
    requires d.handlers == c.handlers[id := c.handlers[id].(state := Closed(GrantedAt(|c.history|)))]
    requires d.history == c.history + [zdb] && d.commits == c.commits + [commit]
    ensures GrantsMatch(d)
  {}

  lemma GrantsMatchStep(c: Cluster, e: Event)
    requires c.history != [] && GrantsMatch(c) && Enabled(c, e)
    ensures GrantsMatch(Next(c, e))
  {
    var d := Next(c, e);
    match e
    case ChangeSpec(_) => VersionKeepsGrants(c, d, d.Current(), SpecChanged);
    case Write(r) =>
      if c.reconcilers[r].version == c.Latest() {
        VersionKeepsGrants(c, d, d.Current(),
                           Synced(c.reconcilers[r].pods, c.reconcilers[r].find, c.reconcilers[r].now));
      }
    case Begin(h, _, _, _) => HandlerMoves(c, d, h);
    case Reread(h, _) => HandlerMoves(c, d, h);
    case RereadFails(h) => HandlerMoves(c, d, h);
    case TryCommit(h, zone) =>
      if d.history != c.history {
        DecideInZone(c, h, zone);
        GrantIsMatched(c, d, d.Current(), Granted(h, c.handlers[h].pod.name, c.now), h);
      } else {
        HandlerMoves(c, d, h);
      }
    case _ =>
  }

  /**
   * Serializability, for every run: the versions in the store are a run of the atomic specification although handlers
   * and reconcilers act on stale copies, and handlers that granted an eviction correspond one to one to grants
   * committed.
   */
  lemma {:induction false} Serializability(c: Cluster, events: seq<Event>)
    requires c.history != [] && Serial(c) && GrantsMatch(c) && Legal(c, events)
    ensures Serial(After(c, events)) && GrantsMatch(After(c, events))
    ensures c.history <= After(c, events).history && After(c, events).zoneOf == c.zoneOf
    decreases events
  {
    if events != [] {
      SerialStep(c, events[0]);
      NextExtends(c, events[0]);
      GrantsMatchStep(c, events[0]);
      Serializability(Next(c, events[0]), events[1..]);
    }
  }

  lemma InitiallySerial(c: Cluster)
    requires Initial(c)
    ensures Serial(c) && GrantsMatch(c)
  {}

  // ---------- pods behind the grants ----------

  /**
   * Serving pods of zone z that are not on record, together with those charged, cover the desired count and what may
   * still be granted.
   */
  ghost predicate Backed(pods: seq<Pod>, zoneOf: map<PodName, Zone>, status: Status, lost: set<PodName>, z: Zone) {
    |Available(pods, zoneOf, status.disrupted, z) + Within(lost, zoneOf, z)|
      >= Get(status.desired, z) + Get(status.allowed, z)
  }

  /** The sync that wrote this status counted at least the desired number of healthy pods in the zone. */
  predicate Met(status: Status, z: Zone) {
    Get(status.healthy, z) >= Get(status.desired, z)
  }

  ghost predicate WriterBacked(c: Cluster, writer: Reconciler) {
    forall z :: Met(writer.status, z) ==> Backed(c.pods, c.zoneOf, writer.status, writer.lost, z)
  }

  ghost predicate AllBacked(c: Cluster)
    requires c.history != []
  {
    && (forall z :: Met(c.Current().status, z) ==> Backed(c.pods, c.zoneOf, c.Current().status, c.lost, z))
    && forall r :: r in c.reconcilers ==> WriterBacked(c, c.reconcilers[r])
  }

  /** A zone without pods has no desired count and no allowance. */
  lemma NothingElsewhere(zoneOf: map<PodName, Zone>, zdb: Zdb, pods: seq<Pod>, find: Finder, now: Time, status: Status,
                         z: Zone)
    requires IsSync(zoneOf, zdb, pods, find, now, status) && z !in ZonesOf(pods, zoneOf)
    ensures Get(status.desired, z) == 0 && Get(status.allowed, z) == 0
  {
    SyncedZones(zoneOf, zdb, pods, find, now, status);
    SyncedFields(zoneOf, zdb, pods, find, now, status);
  }

  /** The healthy count of a fresh sync is made of available and expiring pods. */
  lemma FreshCount(zoneOf: map<PodName, Zone>, zdb: Zdb, pods: seq<Pod>, find: Finder, now: Time, status: Status,
                   z: Zone)
    requires IsSync(zoneOf, zdb, pods, find, now, status) && z in ZonesOf(pods, zoneOf)
    ensures Get(status.healthy, z) == |Available(pods, zoneOf, status.disrupted, z)
                                       + Within(Expiring(pods, status.disrupted, now), zoneOf, z)|
  {
    SyncedFields(zoneOf, zdb, pods, find, now, status);
    HealthyCount(pods, zoneOf, zdb.status.disrupted, now, z);
  }

  /** A fresh sync backs the desired count of every zone that meets it, and the allowance it writes. */
  lemma FreshSyncIsBacked(zoneOf: map<PodName, Zone>, zdb: Zdb, pods: seq<Pod>, find: Finder, now: Time,
                          status: Status, z: Zone)
    requires IsSync(zoneOf, zdb, pods, find, now, status) && Met(status, z)
    ensures Backed(pods, zoneOf, status, Expiring(pods, status.disrupted, now), z)
  {
    if z in ZonesOf(pods, zoneOf) {
      FreshCount(zoneOf, zdb, pods, find, now, status, z);
      SyncedStatus(zoneOf, zdb, pods, find, now, status, z);
    } else {
      NothingElsewhere(zoneOf, zdb, pods, find, now, status, z);
    }
  }

  /** A change of the pods takes nothing from a zone that is not charged. */
  lemma ChangeStaysBacked(before: seq<Pod>, after: seq<Pod>, zoneOf: map<PodName, Zone>, status: Status,
                          lost: set<PodName>, z: Zone)
    requires Backed(before, zoneOf, status, lost, z)
    ensures Backed(after, zoneOf, status, lost + StoppedServing(before, after, status.disrupted), z)
  {
    var lost' := lost + StoppedServing(before, after, status.disrupted);
    var had := Available(before, zoneOf, status.disrupted, z) + Within(lost, zoneOf, z);
    var has := Available(after, zoneOf, status.disrupted, z) + Within(lost', zoneOf, z);
    forall n | n in had ensures n in has {
      if n !in Within(lost, zoneOf, z) && n !in lost' {
        var p :| p in before && InZone(zoneOf, z)(p) && Up(p) && p.name !in status.disrupted && p.name == n;
        assert n in set p | p in before && Up(p) && p.name !in status.disrupted :: p.name;
        var q :| q in after && Up(q) && q.name == n;
        assert InZone(zoneOf, z)(q);
      }
    }
    Subset(had, has);
  }

  /** A grant takes at most one pod from its zone and none from any other. */
  lemma GrantStaysBacked(pods: seq<Pod>, zoneOf: map<PodName, Zone>, status: Status, lost: set<PodName>, z: Zone,
                         name: PodName, now: Time)
    requires Backed(pods, zoneOf, status, lost, z) && name in zoneOf
    ensures Backed(pods, zoneOf, Decremented(status, name, zoneOf[name], now), lost, z)
  {
    var status' := Decremented(status, name, zoneOf[name], now);
    var had := Available(pods, zoneOf, status.disrupted, z) + Within(lost, zoneOf, z);
    var has := Available(pods, zoneOf, status'.disrupted, z) + Within(lost, zoneOf, z);
    if z == zoneOf[name] {
      assert had <= has + {name};
      AtMost(had, has, {name});
    } else {
      assert had <= has;
      Subset(had, has);
    }
  }

  ghost predicate Sized(c: Cluster) {
    |c.commits| == |c.history| && c.history != [] && DistinctNames(c.pods)
  }

  lemma {:induction false} LastSyncPrefix(commits: seq<Commit>, commits': seq<Commit>, v: nat)
    requires v < |commits| && commits <= commits'
    ensures LastSync(commits, v) == LastSync(commits', v)
  {}

  lemma ReaderIsBacked(c: Cluster, zdb: Zdb, writer: Reconciler)
    requires IsSync(c.zoneOf, zdb, c.pods, writer.find, c.now, writer.status)
    requires writer.lost == Expiring(c.pods, writer.status.disrupted, c.now)
    ensures WriterBacked(c, writer)
  {
    forall z | Met(writer.status, z) ensures Backed(c.pods, c.zoneOf, writer.status, writer.lost, z) {
      FreshSyncIsBacked(c.zoneOf, zdb, c.pods, writer.find, c.now, writer.status, z);
    }
  }

  lemma ReaderJoins(c: Cluster, r: Id, writer: Reconciler)
    requires Sized(c) && AllBacked(c) && WriterBacked(c, writer)
    ensures AllBacked(c.(reconcilers := c.reconcilers[r := writer]))
  {
    OthersStayBacked(c, c.(reconcilers := c.reconcilers[r := writer]));
  }

  lemma ReadIsBacked(c: Cluster, e: Event, d: Cluster)
    requires Sized(c) && AllBacked(c) && e.Read? && Enabled(c, e) && d == Next(c, e)
    ensures AllBacked(d)
  {
    ReaderIsSync(c, e, ReaderOf(c, e));
    ReaderIsBacked(c, c.history[e.version], ReaderOf(c, e));
    ReaderJoins(c, e.reconciler, ReaderOf(c, e));
    ReadAddsReader(c, e);
  }

  /** Nothing the zones depend on has changed. */
  lemma OthersStayBacked(c: Cluster, d: Cluster)
    requires Sized(c) && AllBacked(c)
    requires d.zoneOf == c.zoneOf && d.pods == c.pods && d.history == c.history && d.lost == c.lost
    requires forall id :: id in d.reconcilers ==> WriterBacked(c, d.reconcilers[id])
    ensures AllBacked(d)
  {
    forall z | Met(d.Current().status, z) ensures Backed(d.pods, d.zoneOf, d.Current().status, d.lost, z) {
      assert Met(c.Current().status, z);
    }
    WritersStayBacked(c, d);
  }

  lemma WritersStayBacked(c: Cluster, d: Cluster)
    requires d.zoneOf == c.zoneOf && d.pods == c.pods
    requires forall id :: id in d.reconcilers ==> WriterBacked(c, d.reconcilers[id])
    ensures forall id :: id in d.reconcilers ==> WriterBacked(d, d.reconcilers[id])
  {
    forall id | id in d.reconcilers ensures WriterBacked(d, d.reconcilers[id]) {
      assert WriterBacked(c, d.reconcilers[id]);
    }
  }

  lemma WriteStaysBacked(c: Cluster, d: Cluster, r: Id, commit: Commit)
    requires Sized(c) && AllBacked(c) && r in c.reconcilers
    requires d == Append(c.(reconcilers := c.reconcilers - {r}, lost := c.reconcilers[r].lost),
                         c.Current().(status := c.reconcilers[r].status), commit)
    ensures AllBacked(d)
  {
    assert WriterBacked(c, c.reconcilers[r]);
    forall id | id in d.reconcilers ensures WriterBacked(d, d.reconcilers[id]) {
      assert WriterBacked(c, c.reconcilers[id]);
    }
  }

  lemma SpecChangeStaysBacked(c: Cluster, d: Cluster, spec: Spec)
    requires Sized(c) && AllBacked(c)
    requires d == Append(c, Zdb(c.Current().generation + 1, spec, c.Current().status), SpecChanged)
    ensures AllBacked(d)
  {
    forall id | id in d.reconcilers ensures WriterBacked(d, d.reconcilers[id]) {
      assert WriterBacked(c, c.reconcilers[id]);
    }
  }

  lemma AttemptStaysBacked(c: Cluster, h: Id, zone: Option<Zone>, d: Cluster)
    requires Sized(c) && AllBacked(c) && Enabled(c, TryCommit(h, zone)) && d == AfterAttempt(c, h, zone)
    requires d.history != c.history
    ensures AllBacked(d)
  {
    DecideInZone(c, h, zone);
    AttemptFrame(c, h, zone);
    forall z | Met(d.Current().status, z) ensures Backed(d.pods, d.zoneOf, d.Current().status, d.lost, z) {
      assert Met(c.Current().status, z);
      GrantStaysBacked(c.pods, c.zoneOf, c.Current().status, c.lost, z, c.handlers[h].pod.name, c.now);
    }
    forall id | id in d.reconcilers ensures WriterBacked(d, d.reconcilers[id]) {
      assert WriterBacked(c, c.reconcilers[id]);
    }
  }

  lemma PodsChangeStaysBacked(c: Cluster, pods: seq<Pod>, d: Cluster)
    requires Sized(c) && AllBacked(c) && DistinctNames(pods) && d == Next(c, PodsChange(pods))
    ensures AllBacked(d)
  {
    forall z | Met(d.Current().status, z) ensures Backed(d.pods, d.zoneOf, d.Current().status, d.lost, z) {
      ChangeStaysBacked(c.pods, pods, c.zoneOf, c.Current().status, c.lost, z);
    }
    forall r | r in d.reconcilers ensures WriterBacked(d, d.reconcilers[r]) {
      WriterStaysBacked(c, c.reconcilers[r], d, d.reconcilers[r]);
    }
  }

  lemma WriterStaysBacked(c: Cluster, writer: Reconciler, d: Cluster, writer': Reconciler)
    requires WriterBacked(c, writer) && d.zoneOf == c.zoneOf
    requires writer' == writer.(lost := writer.lost + StoppedServing(c.pods, d.pods, writer.status.disrupted))
    ensures WriterBacked(d, writer')
  {
    forall z | Met(writer.status, z) ensures Backed(d.pods, d.zoneOf, writer.status, writer'.lost, z) {
      ChangeStaysBacked(c.pods, d.pods, c.zoneOf, writer.status, writer.lost, z);
    }
  }

  lemma BackedStep(c: Cluster, e: Event, d: Cluster)
    requires Sized(c) && AllBacked(c) && Enabled(c, e) && d == Next(c, e)
    ensures AllBacked(d)
  {
    match e
    case ChangeSpec(spec) => SpecChangeStaysBacked(c, d, spec);
    case Read(_, _, _, _) => ReadIsBacked(c, e, d);
    case Write(r) =>
      if c.reconcilers[r].version == c.Latest() {
        WriteStaysBacked(c, d, r, d.commits[|c.commits|]);
      } else {
        OthersStayBacked(c, d);
      }
    case TryCommit(h, zone) =>
      if d.history != c.history {
        AttemptStaysBacked(c, h, zone, d);
      } else {
        AttemptFrame(c, h, zone);
        OthersStayBacked(c, d);
      }
    case PodsChange(pods) => PodsChangeStaysBacked(c, pods, d);
    case _ => OthersStayBacked(c, d);
  }

  lemma SizedStep(c: Cluster, e: Event)
    requires Sized(c) && Enabled(c, e)
    ensures Sized(Next(c, e))
  {
    NextExtends(c, e);
  }

  lemma {:induction false} RunsStayBacked(c: Cluster, events: seq<Event>)
    requires Sized(c) && AllBacked(c) && Legal(c, events)
    ensures Sized(After(c, events)) && AllBacked(After(c, events))
    decreases events
  {
    if events != [] {
      SizedStep(c, events[0]);
      BackedStep(c, events[0], Next(c, events[0]));
      RunsStayBacked(Next(c, events[0]), events[1..]);
    }
  }

  lemma InitiallyBacked(c: Cluster)
    requires Initial(c)
    ensures Sized(c) && AllBacked(c)
  {}

  /**
   * Budget safety, for every run and every moment of it: a zone in which the last sync counted at least the desired
   * number of healthy pods has that number of pods that serve and are not on record, and as many more as may still be
   * granted, short only of the pods charged. It makes no difference how many grants there have been, or when.
   */
  lemma BudgetSafety(c: Cluster, events: seq<Event>, z: Zone)
    requires Initial(c) && Legal(c, events)
    ensures var d := After(c, events);
            var status := d.Current().status;
            Met(status, z) ==>
              |Available(d.pods, d.zoneOf, status.disrupted, z)| + |Within(d.lost, d.zoneOf, z)|
              >= Get(status.desired, z) + Get(status.allowed, z)
  {
    InitiallyBacked(c);
    RunsStayBacked(c, events);
    var d := After(c, events);
    if Met(d.Current().status, z) {
      AtMost(Available(d.pods, d.zoneOf, d.Current().status.disrupted, z) + Within(d.lost, d.zoneOf, z),
             Available(d.pods, d.zoneOf, d.Current().status.disrupted, z), Within(d.lost, d.zoneOf, z));
    }
  }

  /** What a sync has counted stays on the object until the next one. */
  lemma MetSinceSync(zoneOf: map<PodName, Zone>, history: seq<Zdb>, commits: seq<Commit>, w: nat, z: Zone)
    requires AtomicRun(zoneOf, history, commits) && w < |history|
    ensures Met(history[w].status, z) <==> Met(history[LastSync(commits, w)].status, z)
  {
    Ledger(zoneOf, history, commits, LastSync(commits, w), w, z);
  }

  /** A zone that has been granted an eviction is one of those, from the grant until the next sync. */
  lemma GrantedZoneIsMet(d: Cluster, v: nat)
    requires Serial(d) && v < |d.commits| && d.commits[v].Granted? && v > LastSync(d.commits, d.Latest())
    ensures d.commits[v].pod in d.zoneOf && Met(d.Current().status, d.zoneOf[d.commits[v].pod])
  {
    AllowanceAtSync(d.zoneOf, d.history, d.commits, v);
    LastSyncSkips(d.commits, v, d.Latest());
    MetSinceSync(d.zoneOf, d.history, d.commits, d.Latest(), d.zoneOf[d.commits[v].pod]);
  }

  /**
   * Within the limit: at every moment of every run such a zone is short of its expected count by at most the limit that
   * the last sync has derived from its spec, at the scale of the controllers it has found, and the pods charged.
   */
  lemma WithinLimit(c: Cluster, events: seq<Event>, z: Zone)
    requires Initial(c) && Legal(c, events)
    requires Met(After(c, events).Current().status, z) && z in After(c, events).Current().status.desired
    ensures var d := After(c, events);
            var s, status := LastSync(d.commits, d.Latest()), d.Current().status;
            && s > 0 && d.commits[s].Synced? && z in status.expected
            && LimitOf(d.history[s - 1].spec, d.commits[s].pods, d.commits[s].find).Ok?
            && |Available(d.pods, d.zoneOf, status.disrupted, z)| + |Within(d.lost, d.zoneOf, z)|
               >= status.expected[z] - LimitOf(d.history[s - 1].spec, d.commits[s].pods, d.commits[s].find).value
  {
    BudgetSafety(c, events, z);
    InitiallySerial(c);
    Serializability(c, events);
    var d := After(c, events);
    LimitAtSync(d.zoneOf, d.history, d.commits, d.Latest(), z);
    AllowancesStayNatural(d.zoneOf, d.history, d.commits, d.Latest(), z);
  }

  /** In particular from a grant until the next sync, with the limit of the spec in force at the grant. */
  lemma GrantWithinLimit(c: Cluster, events: seq<Event>, v: nat)
    requires Initial(c) && Legal(c, events)
    requires v < |After(c, events).commits| && After(c, events).commits[v].Granted?
    requires v > LastSync(After(c, events).commits, After(c, events).Latest())
    ensures var d := After(c, events);
            var sync, status := d.commits[LastSync(d.commits, d.Latest())], d.Current().status;
            && sync.Synced? && d.commits[v].pod in d.zoneOf && d.zoneOf[d.commits[v].pod] in status.expected
            && LimitOf(d.history[v].spec, sync.pods, sync.find).Ok?
            && var z := d.zoneOf[d.commits[v].pod];
               |Available(d.pods, d.zoneOf, status.disrupted, z)| + |Within(d.lost, d.zoneOf, z)|
               >= status.expected[z] - LimitOf(d.history[v].spec, sync.pods, sync.find).value
  {
    InitiallySerial(c);
    Serializability(c, events);
    var d := After(c, events);
    GrantedZoneIsMet(d, v);
    LastSyncSkips(d.commits, v, d.Latest());
    LimitInForce(d.zoneOf, d.history, d.commits, v, d.Latest());
    WithinLimit(c, events, d.zoneOf[d.commits[v].pod]);
    GenerationFence(d.zoneOf, d.history, d.commits, v);
  }
}
