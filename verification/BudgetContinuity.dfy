/**
 * Budget safety across syncs: a zone that has met its desired count keeps meeting it, whoever syncs and whatever is
 * granted.
 */
module BudgetContinuity {
  import opened Seqs
  import opened Pods
  import opened ExpectedPods
  import opened ZdbStore
  import opened ZdbController
  import opened BudgetFacts
  import opened BudgetRuns
  import opened BudgetCluster
  import opened BudgetSafety

  /** No pod of the zone is charged. */
  ghost predicate Uncharged(c: Cluster, z: Zone) {
    Within(c.lost, c.zoneOf, z) == {}
  }

  /** A reconcile about to write finds the desired count met, too, unless it has raised it. */
  ghost predicate Inherits(c: Cluster, z: Zone)
    requires c.history != []
  {
    Met(c.Current().status, z) && Uncharged(c, z) ==>
      forall r :: r in c.reconcilers && c.reconcilers[r].version == c.Latest()
                  && Get(c.reconcilers[r].status.desired, z) <= Get(c.Current().status.desired, z)
                  ==> Met(c.reconcilers[r].status, z)
  }

  ghost predicate Sound(c: Cluster, z: Zone) {
    Sized(c) && Serial(c) && AllBacked(c) && Inherits(c, z)
  }

  /** A zone that is met and uncharged has its desired number of pods, and those that may still be granted. */
  lemma MetMeansAvailable(c: Cluster, z: Zone)
    requires Sized(c) && AllBacked(c) && Met(c.Current().status, z) && Uncharged(c, z)
    ensures |Available(c.pods, c.zoneOf, c.Current().status.disrupted, z)|
            >= Get(c.Current().status.desired, z) + Get(c.Current().status.allowed, z)
  {
    var available := Available(c.pods, c.zoneOf, c.Current().status.disrupted, z);
    assert available + Within(c.lost, c.zoneOf, z) == available;
  }

  /** A sync counts every pod that was available before it: pruning the record frees pods and takes none. */
  lemma SyncCountsAvailable(zoneOf: map<PodName, Zone>, zdb: Zdb, pods: seq<Pod>, find: Finder, now: Time,
                            status: Status, z: Zone)
    requires IsSync(zoneOf, zdb, pods, find, now, status)
    ensures Get(status.healthy, z) >= |Available(pods, zoneOf, zdb.status.disrupted, z)|
                                   || (Get(status.healthy, z) == 0 == Get(status.desired, z))
  {
    SyncedFields(zoneOf, zdb, pods, find, now, status);
    if z in ZonesOf(pods, zoneOf) {
      FreshCount(zoneOf, zdb, pods, find, now, status, z);
      Subset(Available(pods, zoneOf, zdb.status.disrupted, z),
             Available(pods, zoneOf, status.disrupted, z) + Within(Expiring(pods, status.disrupted, now), zoneOf, z));
    } else {
      NothingElsewhere(zoneOf, zdb, pods, find, now, status, z);
    }
  }

  lemma ReaderInherits(c: Cluster, reader: Reconciler, z: Zone)
    requires Sized(c) && Serial(c) && AllBacked(c) && Met(c.Current().status, z) && Uncharged(c, z)
    requires IsSync(c.zoneOf, c.Current(), c.pods, reader.find, reader.now, reader.status)
    requires Get(reader.status.desired, z) <= Get(c.Current().status.desired, z)
    ensures Met(reader.status, z)
  {
    MetMeansAvailable(c, z);
    AllowancesStayNatural(c.zoneOf, c.history, c.commits, c.Latest(), z);
    SyncCountsAvailable(c.zoneOf, c.Current(), c.pods, reader.find, reader.now, reader.status, z);
  }

  lemma ReaderJoinsInherits(c: Cluster, id: Id, reader: Reconciler, d: Cluster, z: Zone)
    requires c.history != [] && Inherits(c, z) && d == c.(reconcilers := c.reconcilers[id := reader])
    requires (Met(c.Current().status, z) && Uncharged(c, z) && reader.version == c.Latest()
              && Get(reader.status.desired, z) <= Get(c.Current().status.desired, z)) ==> Met(reader.status, z)
    ensures Inherits(d, z)
  {
    assert d.Current() == c.Current() && (Uncharged(d, z) <==> Uncharged(c, z));
    forall r | r in d.reconcilers
      ensures d.reconcilers[r] == reader || (r in c.reconcilers && d.reconcilers[r] == c.reconcilers[r]) {}
  }

  lemma ReadInherits(c: Cluster, e: Event, d: Cluster, z: Zone)
    requires Sound(c, z) && e.Read? && Enabled(c, e) && d == Next(c, e)
    ensures Inherits(d, z)
  {
    var reader := ReaderOf(c, e);
    ReadAddsReader(c, e);
    ReaderIsSync(c, e, reader);
    if Met(c.Current().status, z) && Uncharged(c, z) && reader.version == c.Latest()
       && Get(reader.status.desired, z) <= Get(c.Current().status.desired, z) {
      ReaderInherits(c, reader, z);
    }
    ReaderJoinsInherits(c, e.reconciler, reader, c.(reconcilers := c.reconcilers[e.reconciler := reader]), z);
  }

  /** Once there is a new version, every status in hand is out of date. */
  lemma NewVersionInherits(c: Cluster, d: Cluster, z: Zone)
    requires Serial(c) && |d.history| > |c.history|
    requires forall r :: r in d.reconcilers ==>
               r in c.reconcilers && d.reconcilers[r].version == c.reconcilers[r].version
    ensures Inherits(d, z)
  {
    forall r | r in d.reconcilers ensures d.reconcilers[r].version < d.Latest() {
      assert ReadIt(c, c.reconcilers[r]);
    }
  }

  lemma SameVersionInherits(c: Cluster, d: Cluster, z: Zone)
    requires c.history != [] && Inherits(c, z) && d.history == c.history && (Uncharged(d, z) ==> Uncharged(c, z))
    requires forall r :: r in d.reconcilers ==>
               r in c.reconcilers && d.reconcilers[r].version == c.reconcilers[r].version
                                                && d.reconcilers[r].status == c.reconcilers[r].status
    ensures Inherits(d, z)
  {}

  lemma ChangeInherits(c: Cluster, pods: seq<Pod>, d: Cluster, z: Zone)
    requires c.history != [] && Inherits(c, z) && DistinctNames(pods) && d == Next(c, PodsChange(pods))
    ensures Inherits(d, z)
  {
    assert Within(c.lost, c.zoneOf, z) <= Within(d.lost, d.zoneOf, z);
    SameVersionInherits(c, d, z);
  }

  lemma InheritsStep(c: Cluster, e: Event, d: Cluster, z: Zone)
    requires Sound(c, z) && Enabled(c, e) && d == Next(c, e) && d.history != []
    ensures Inherits(d, z)
  {
    match e
    case Read(_, _, _, _) => ReadInherits(c, e, d, z);
    case PodsChange(pods) => ChangeInherits(c, pods, d, z);
    case TryCommit(h, zone) =>
      AttemptFrame(c, h, zone);
      NextExtends(c, e);
      if d.history == c.history { SameVersionInherits(c, d, z); } else { NewVersionInherits(c, d, z); }
    case Write(r) =>
      if c.reconcilers[r].version == c.Latest() { NewVersionInherits(c, d, z); } else { SameVersionInherits(c, d, z); }
    case ChangeSpec(_) => NewVersionInherits(c, d, z);
    case _ => SameVersionInherits(c, d, z);
  }

  lemma SoundStep(c: Cluster, e: Event, z: Zone)
    requires Sound(c, z) && Enabled(c, e)
    ensures Sound(Next(c, e), z)
  {
    var d := Next(c, e);
    SizedStep(c, e);
    SerialStep(c, e);
    NextExtends(c, e);
    BackedStep(c, e, d);
    InheritsStep(c, e, d, z);
  }

  lemma {:induction false} RunsAreSound(c: Cluster, events: seq<Event>, z: Zone)
    requires Sound(c, z) && Legal(c, events)
    ensures Sound(After(c, events), z)
    decreases events
  {
    if events != [] {
      SoundStep(c, events[0], z);
      RunsAreSound(Next(c, events[0]), events[1..], z);
    }
  }

  lemma InitiallySound(c: Cluster, z: Zone)
    requires Initial(c)
    ensures Sound(c, z)
  {
    InitiallySerial(c);
    InitiallyBacked(c);
  }

  // ---------- across syncs ----------

  /** At no moment of the run is a pod of the zone charged, and no sync raises its desired count. */
  ghost predicate Steady(c: Cluster, events: seq<Event>, z: Zone)
    requires c.history != [] && Legal(c, events)
    decreases events
  {
    && Uncharged(c, z)
    && (events == [] ||
        (Get(Next(c, events[0]).Current().status.desired, z) <= Get(c.Current().status.desired, z)
         && Steady(Next(c, events[0]), events[1..], z)))
  }

  /** Only a sync changes what has been counted. */
  lemma CountsChangeBySync(c: Cluster, e: Event, d: Cluster)
    requires c.history != [] && Enabled(c, e) && d == Next(c, e) && d.history != []
    ensures || (d.Current().status.healthy == c.Current().status.healthy
                && d.Current().status.desired == c.Current().status.desired)
            || (e.Write? && c.reconcilers[e.reconciler].version == c.Latest()
                && d.Current().status == c.reconcilers[e.reconciler].status)
  {
    match e
    case TryCommit(h, zone) => AttemptKeepsCounts(c, h, zone, d);
    case _ =>
  }

  lemma AttemptKeepsCounts(c: Cluster, h: Id, zone: Option<Zone>, d: Cluster)
    requires c.history != [] && Enabled(c, TryCommit(h, zone)) && d == AfterAttempt(c, h, zone) && d.history != []
    ensures d.Current().status.healthy == c.Current().status.healthy
            && d.Current().status.desired == c.Current().status.desired
  {
    AttemptFrame(c, h, zone);
    if d.history != c.history {
      DecideInZone(c, h, zone);
    }
  }

  lemma MetStep(c: Cluster, e: Event, d: Cluster, z: Zone)
    requires Sound(c, z) && Met(c.Current().status, z) && Uncharged(c, z) && Enabled(c, e)
    requires d == Next(c, e) && d.history != []
    requires Get(d.Current().status.desired, z) <= Get(c.Current().status.desired, z)
    ensures Met(d.Current().status, z)
  {
    CountsChangeBySync(c, e, d);
  }

  lemma {:induction false} StaysMet(c: Cluster, events: seq<Event>, z: Zone)
    requires Sound(c, z) && Met(c.Current().status, z) && Legal(c, events) && Steady(c, events, z)
    ensures var d := After(c, events);
            Sound(d, z) && Met(d.Current().status, z) && Uncharged(d, z)
    decreases events
  {
    if events != [] {
      NextExtends(c, events[0]);
      MetStep(c, events[0], Next(c, events[0]), z);
      SoundStep(c, events[0], z);
      StaysMet(Next(c, events[0]), events[1..], z);
    }
  }

  /**
   * Budget safety over whole runs: once a sync has counted at least the desired number of healthy pods in a zone, and
   * for as long as none of its pods is charged and no sync raises the desired count, the zone has that number of pods
   * that serve and are not on record, and those that may still be granted: through any grants, terminations,
   * replacements, timeouts and syncs.
   */
  lemma SafetyAcrossSyncs(c: Cluster, before: seq<Event>, events: seq<Event>, z: Zone)
    requires Initial(c) && Legal(c, before)
    requires Met(After(c, before).Current().status, z)
    requires Legal(After(c, before), events) && Steady(After(c, before), events, z)
    ensures var d := After(After(c, before), events);
            |Available(d.pods, d.zoneOf, d.Current().status.disrupted, z)|
            >= Get(d.Current().status.desired, z) + Get(d.Current().status.allowed, z)
  {
    InitiallySound(c, z);
    RunsAreSound(c, before, z);
    StaysMet(After(c, before), events, z);
    MetMeansAvailable(After(After(c, before), events), z);
  }
}
