/**
 * Evictions that are paid for: from its grant a pod stays on record, through any syncs, for as long as it is listed, is
 * not terminating and the timeout has not passed; and a pod that stops serving within that time is charged to nobody.
 */
module BudgetGrace {
  import opened Seqs
  import opened Pods
  import opened ZdbStore
  import opened ZdbController
  import opened BudgetFacts
  import opened BudgetRuns
  import opened BudgetCluster
  import opened BudgetSafety

  ghost predicate Listed(c: Cluster, n: PodName) {
    exists p :: p in c.pods && p.name == n && !p.terminating
  }

  /** A pod granted at time t may still be evicted under that grant. */
  ghost predicate InTime(c: Cluster, n: PodName, t: Time) {
    t <= c.now <= t + DELETION_TIMEOUT && Listed(c, n)
  }

  predicate RecordedSince(status: Status, n: PodName, t: Time) {
    n in status.disrupted && status.disrupted[n] >= t
  }

  /** The pod is on record on the object and in every status that may still be written. */
  ghost predicate OnRecord(c: Cluster, n: PodName, t: Time)
    requires c.history != []
  {
    && RecordedSince(c.Current().status, n, t)
    && forall r :: r in c.reconcilers && c.reconcilers[r].version == c.Latest()
                   ==> RecordedSince(c.reconcilers[r].status, n, t)
  }

  // ---------- one event ----------

  /** A sync retains the record of a pod whose time is not up. */
  lemma ReaderRetains(c: Cluster, reader: Reconciler, n: PodName, t: Time)
    requires c.history != [] && InTime(c, n, t) && RecordedSince(c.Current().status, n, t)
    requires IsSync(c.zoneOf, c.Current(), c.pods, reader.find, c.now, reader.status)
    ensures RecordedSince(reader.status, n, t)
  {
    SyncedFields(c.zoneOf, c.Current(), c.pods, reader.find, c.now, reader.status);
    var p :| p in c.pods && p.name == n && !p.terminating;
    assert Retained(p, c.Current().status.disrupted, c.now);
  }

  lemma ReaderJoinsRecord(c: Cluster, id: Id, reader: Reconciler, d: Cluster, n: PodName, t: Time)
    requires c.history != [] && OnRecord(c, n, t) && d == c.(reconcilers := c.reconcilers[id := reader])
    requires reader.version == c.Latest() ==> RecordedSince(reader.status, n, t)
    ensures OnRecord(d, n, t)
  {
    assert d.Current() == c.Current();
    forall r | r in d.reconcilers
      ensures d.reconcilers[r] == reader || (r in c.reconcilers && d.reconcilers[r] == c.reconcilers[r]) {}
  }

  lemma ReadKeepsRecord(c: Cluster, e: Event, d: Cluster, n: PodName, t: Time)
    requires Serial(c) && c.history != [] && OnRecord(c, n, t) && InTime(c, n, t) && e.Read? && Enabled(c, e)
    requires d == Next(c, e) && d.history != []
    ensures OnRecord(d, n, t)
  {
    var reader := ReaderOf(c, e);
    ReadAddsReader(c, e);
    ReaderIsSync(c, e, reader);
    if reader.version == c.Latest() {
      ReaderRetains(c, reader, n, t);
    }
    ReaderJoinsRecord(c, e.reconciler, reader, c.(reconcilers := c.reconcilers[e.reconciler := reader]), n, t);
  }

  /** With a new version every status in hand is out of date, so the object alone matters. */
  lemma NewVersionRecords(c: Cluster, d: Cluster, n: PodName, t: Time)
    requires Serial(c) && |d.history| > |c.history| && RecordedSince(d.Current().status, n, t)
    requires forall r :: r in d.reconcilers ==>
               r in c.reconcilers && d.reconcilers[r].version == c.reconcilers[r].version
    ensures OnRecord(d, n, t)
  {
    forall r | r in d.reconcilers ensures d.reconcilers[r].version < d.Latest() {
      assert ReadIt(c, c.reconcilers[r]);
    }
  }

  lemma SameVersionRecords(c: Cluster, d: Cluster, n: PodName, t: Time)
    requires c.history != [] && OnRecord(c, n, t) && d.history == c.history
    requires forall r :: r in d.reconcilers ==>
               r in c.reconcilers && d.reconcilers[r].version == c.reconcilers[r].version
               && d.reconcilers[r].status == c.reconcilers[r].status
    ensures OnRecord(d, n, t)
  {}

  lemma AttemptRecords(c: Cluster, h: Id, zone: Option<Zone>, d: Cluster, n: PodName, t: Time)
    requires Serial(c) && c.history != [] && Enabled(c, TryCommit(h, zone)) && d == AfterAttempt(c, h, zone)
    requires d.history != [] && d.history != c.history && |d.history| > |c.history|
    requires OnRecord(c, n, t) || n == c.handlers[h].pod.name
    requires t <= c.now
    ensures OnRecord(d, n, t)
  {
    AttemptFrame(c, h, zone);
    DecideInZone(c, h, zone);
    NewVersionRecords(c, d, n, t);
  }

  lemma AttemptKeepsRecord(c: Cluster, h: Id, zone: Option<Zone>, d: Cluster, n: PodName, t: Time)
    requires Sized(c) && Serial(c) && OnRecord(c, n, t) && t <= c.now && Enabled(c, TryCommit(h, zone))
    requires d == AfterAttempt(c, h, zone) && d.history != [] && c.history <= d.history
    ensures OnRecord(d, n, t)
  {
    if d.history != c.history {
      AttemptRecords(c, h, zone, d, n, t);
    } else {
      AttemptFrame(c, h, zone);
      SameVersionRecords(c, d, n, t);
    }
  }

  lemma WriteKeepsRecord(c: Cluster, r: Id, d: Cluster, n: PodName, t: Time)
    requires Serial(c) && c.history != [] && OnRecord(c, n, t) && r in c.reconcilers
    requires d == Next(c, Write(r)) && d.history != []
    ensures OnRecord(d, n, t)
  {
    WriteFrame(c, r, d);
    if c.reconcilers[r].version == c.Latest() {
      NewVersionRecords(c, d, n, t);
    } else {
      SameVersionRecords(c, d, n, t);
    }
  }

  lemma OnRecordStep(c: Cluster, e: Event, d: Cluster, n: PodName, t: Time)
    requires Sized(c) && Serial(c) && OnRecord(c, n, t) && InTime(c, n, t) && Enabled(c, e)
    requires d == Next(c, e) && d.history != [] && c.history <= d.history
    ensures OnRecord(d, n, t)
  {
    match e
    case Read(_, _, _, _) => ReadKeepsRecord(c, e, d, n, t);
    case TryCommit(h, zone) => AttemptKeepsRecord(c, h, zone, d, n, t);
    case Write(r) => WriteKeepsRecord(c, r, d, n, t);
    case ChangeSpec(_) => NewVersionRecords(c, d, n, t);
    case _ => SameVersionRecords(c, d, n, t);
  }

  // ---------- from the grant on ----------

  /** At every moment of the run but the last, the pod may still be evicted under its grant. */
  ghost predicate InTimeThroughout(c: Cluster, events: seq<Event>, n: PodName, t: Time)
    requires c.history != [] && Legal(c, events)
    decreases events
  {
    events == [] || (InTime(c, n, t) && InTimeThroughout(Next(c, events[0]), events[1..], n, t))
  }

  lemma {:induction false} StaysOnRecord(c: Cluster, events: seq<Event>, n: PodName, t: Time)
    requires Sized(c) && Serial(c) && OnRecord(c, n, t) && Legal(c, events) && InTimeThroughout(c, events, n, t)
    ensures OnRecord(After(c, events), n, t)
    decreases events
  {
    if events != [] {
      NextExtends(c, events[0]);
      SizedStep(c, events[0]);
      SerialStep(c, events[0]);
      OnRecordStep(c, events[0], Next(c, events[0]), n, t);
      StaysOnRecord(Next(c, events[0]), events[1..], n, t);
    }
  }

  ghost predicate GrantsAt(c: Cluster, e: Event)
    requires c.history != [] && Enabled(c, e)
  {
    e.TryCommit? && Next(c, e).history != c.history
  }

  lemma GrantRecords(c: Cluster, e: Event, d: Cluster)
    requires Sized(c) && Serial(c) && Enabled(c, e) && GrantsAt(c, e) && d == Next(c, e) && d.history != []
    ensures OnRecord(d, c.handlers[e.handler].pod.name, c.now)
  {
    NextExtends(c, e);
    AttemptRecords(c, e.handler, e.zone, d, c.handlers[e.handler].pod.name, c.now);
  }

  /**
   * A granted pod stays on record, on the object and in every status that may still be written, through any events and
   * any number of syncs, for as long as it is listed, not terminating, and its deadline has not passed.
   */
  lemma GrantedStaysOnRecord(c: Cluster, before: seq<Event>, grant: Event, events: seq<Event>)
    requires Initial(c) && Legal(c, before) && Enabled(After(c, before), grant) && GrantsAt(After(c, before), grant)
    requires Next(After(c, before), grant).history != [] && Legal(Next(After(c, before), grant), events)
    requires InTimeThroughout(Next(After(c, before), grant), events,
                              After(c, before).handlers[grant.handler].pod.name, After(c, before).now)
    ensures OnRecord(After(Next(After(c, before), grant), events),
                     After(c, before).handlers[grant.handler].pod.name, After(c, before).now)
  {
    InitiallySerial(c);
    InitiallyBacked(c);
    RunsStayBacked(c, before);
    Serializability(c, before);
    var granting := After(c, before);
    GrantRecords(granting, grant, Next(granting, grant));
    SizedStep(granting, grant);
    SerialStep(granting, grant);
    StaysOnRecord(Next(granting, grant), events, granting.handlers[grant.handler].pod.name, granting.now);
  }

  /**
   * A change of the pods charges no pod that is on record: not on the object, nor to a reconcile that may still write.
   */
  lemma NotCharged(c: Cluster, pods: seq<Pod>, d: Cluster, n: PodName, t: Time)
    requires c.history != [] && OnRecord(c, n, t) && DistinctNames(pods) && d == Next(c, PodsChange(pods))
    ensures n in d.lost ==> n in c.lost
    ensures forall r :: r in d.reconcilers && d.reconcilers[r].version == c.Latest() ==>
              r in c.reconcilers && (n in d.reconcilers[r].lost ==> n in c.reconcilers[r].lost)
  {}

  // ---------- whole runs ----------

  /** The pods that may still be evicted under a grant, with the time of the latest: the bookkeeping of a run. */
  type Pending = map<PodName, Time>

  ghost function NextGrants(c: Cluster, e: Event, grants: Pending): Pending
    requires c.history != [] && Enabled(c, e)
  {
    var more := if GrantsAt(c, e) then grants[c.handlers[e.handler].pod.name := c.now] else grants;
    map n | n in more && InTime(Next(c, e), n, more[n]) :: more[n]
  }

  function UpNames(pods: seq<Pod>): set<PodName> {
    set p | p in pods && Up(p) :: p.name
  }

  /**
   * What one event takes from a zone without a grant: pods that stop serving on their own, or records read on their
   * deadline.
   */
  ghost function Failing(c: Cluster, e: Event, grants: Pending): set<PodName>
    requires c.history != [] && Enabled(c, e)
  {
    match e
    case PodsChange(pods) => UpNames(c.pods) - UpNames(pods) - grants.Keys
    case Read(_, v, _, _) => if v == c.Latest() then Expiring(c.pods, c.Current().status.disrupted, c.now) else {}
    case _ => {}
  }

  /**
   * All pods that have failed in a run: those that stopped serving without a grant in time, and those read on their
   * deadline.
   */
  ghost function Failures(c: Cluster, events: seq<Event>, grants: Pending): set<PodName>
    requires c.history != [] && Legal(c, events)
    decreases events
  {
    if events == [] then {}
    else Failing(c, events[0], grants) + Failures(Next(c, events[0]), events[1..], NextGrants(c, events[0], grants))
  }

  ghost function GrantsAfter(c: Cluster, events: seq<Event>, grants: Pending): Pending
    requires c.history != [] && Legal(c, events)
    decreases events
  {
    if events == [] then grants else GrantsAfter(Next(c, events[0]), events[1..], NextGrants(c, events[0], grants))
  }

  /** Only failed pods are charged, on the object or to a reconcile that may still write. */
  ghost predicate ChargesFailures(c: Cluster, failed: set<PodName>)
    requires c.history != []
  {
    && c.lost <= failed
    && forall r :: r in c.reconcilers && c.reconcilers[r].version == c.Latest() ==> c.reconcilers[r].lost <= failed
  }

  ghost predicate AllOnRecord(c: Cluster, grants: Pending)
    requires c.history != []
  {
    forall n :: n in grants ==> OnRecord(c, n, grants[n]) && InTime(c, n, grants[n])
  }

  lemma GrantsStayOnRecord(c: Cluster, e: Event, d: Cluster, grants: Pending)
    requires Sized(c) && Serial(c) && AllOnRecord(c, grants) && Enabled(c, e)
    requires d == Next(c, e) && d.history != [] && c.history <= d.history
    ensures AllOnRecord(d, NextGrants(c, e, grants))
  {
    var next := NextGrants(c, e, grants);
    forall n | n in next ensures OnRecord(d, n, next[n]) && InTime(d, n, next[n]) {
      if GrantsAt(c, e) && n == c.handlers[e.handler].pod.name {
        GrantRecords(c, e, d);
      } else {
        OnRecordStep(c, e, d, n, grants[n]);
      }
    }
  }

  // ---------- who is charged ----------

  lemma ReaderCharges(c: Cluster, e: Event, reader: Reconciler)
    requires c.history != [] && Serial(c) && e.Read? && Enabled(c, e) && reader == ReaderOf(c, e)
    ensures reader.lost <= Expiring(c.pods, c.history[e.version].status.disrupted, c.now)
  {
    ReaderIsSync(c, e, reader);
    SyncedFields(c.zoneOf, c.history[e.version], c.pods, e.find, c.now, reader.status);
  }

  lemma ReaderJoinsCharges(c: Cluster, id: Id, reader: Reconciler, d: Cluster, failed: set<PodName>)
    requires c.history != [] && ChargesFailures(c, failed) && d == c.(reconcilers := c.reconcilers[id := reader])
    requires reader.version == c.Latest() ==> reader.lost <= failed
    ensures ChargesFailures(d, failed)
  {
    assert d.Latest() == c.Latest();
    forall r | r in d.reconcilers
      ensures d.reconcilers[r] == reader || (r in c.reconcilers && d.reconcilers[r] == c.reconcilers[r]) {}
  }

  lemma MoreFailures(c: Cluster, failed: set<PodName>, more: set<PodName>)
    requires c.history != [] && ChargesFailures(c, failed)
    ensures ChargesFailures(c, failed + more)
  {}

  lemma ReadCharges(c: Cluster, e: Event, d: Cluster, grants: Pending, failed: set<PodName>)
    requires c.history != [] && Serial(c) && ChargesFailures(c, failed) && e.Read? && Enabled(c, e)
    requires d == Next(c, e) && d.history != []
    ensures ChargesFailures(d, failed + Failing(c, e, grants))
  {
    var reader := ReaderOf(c, e);
    ReadAddsReader(c, e);
    ReaderCharges(c, e, reader);
    MoreFailures(c, failed, Failing(c, e, grants));
    ReaderJoinsCharges(c, e.reconciler, reader, c.(reconcilers := c.reconcilers[e.reconciler := reader]),
                       failed + Failing(c, e, grants));
  }

  /** A pod that stops serving while granted is on record, and so is not charged. */
  lemma StoppedIsFailing(before: seq<Pod>, after: seq<Pod>, disrupted: map<PodName, Time>, grants: Pending)
    requires forall n :: n in grants ==> n in disrupted
    ensures StoppedServing(before, after, disrupted) <= UpNames(before) - UpNames(after) - grants.Keys
  {}

  lemma ChangeCharges(c: Cluster, pods: seq<Pod>, d: Cluster, grants: Pending, failed: set<PodName>)
    requires c.history != [] && ChargesFailures(c, failed) && AllOnRecord(c, grants) && DistinctNames(pods)
    requires d == Next(c, PodsChange(pods)) && d.history == c.history
    ensures ChargesFailures(d, failed + Failing(c, PodsChange(pods), grants))
  {
    StoppedIsFailing(c.pods, pods, c.Current().status.disrupted, grants);
    forall r | r in d.reconcilers && d.reconcilers[r].version == d.Latest()
      ensures d.reconcilers[r].lost <= failed + Failing(c, PodsChange(pods), grants)
    {
      StoppedIsFailing(c.pods, pods, c.reconcilers[r].status.disrupted, grants);
    }
  }

  lemma SameCharges(c: Cluster, d: Cluster, failed: set<PodName>)
    requires c.history != [] && ChargesFailures(c, failed) && d.history == c.history && d.lost == c.lost
    requires forall r :: r in d.reconcilers ==> r in c.reconcilers && d.reconcilers[r] == c.reconcilers[r]
    ensures ChargesFailures(d, failed)
  {}

  lemma NewVersionCharges(c: Cluster, d: Cluster, failed: set<PodName>)
    requires Serial(c) && |d.history| > |c.history| && d.lost <= failed
    requires forall r :: r in d.reconcilers ==> r in c.reconcilers && d.reconcilers[r] == c.reconcilers[r]
    ensures ChargesFailures(d, failed)
  {
    forall r | r in d.reconcilers ensures d.reconcilers[r].version < d.Latest() {
      assert ReadIt(c, c.reconcilers[r]);
    }
  }

  lemma WriteCharges(c: Cluster, r: Id, d: Cluster, failed: set<PodName>)
    requires c.history != [] && Serial(c) && ChargesFailures(c, failed) && r in c.reconcilers
    requires d == Next(c, Write(r)) && d.history != []
    ensures ChargesFailures(d, failed)
  {
    WriteFrame(c, r, d);
    if c.reconcilers[r].version == c.Latest() {
      NewVersionCharges(c, d, failed);
    } else {
      SameCharges(c, d, failed);
    }
  }

  lemma AttemptCharges(c: Cluster, h: Id, zone: Option<Zone>, d: Cluster, failed: set<PodName>)
    requires c.history != [] && Serial(c) && ChargesFailures(c, failed) && Enabled(c, TryCommit(h, zone))
    requires d == AfterAttempt(c, h, zone) && c.history <= d.history
    ensures ChargesFailures(d, failed)
  {
    AttemptFrame(c, h, zone);
    if d.history != c.history {
      NewVersionCharges(c, d, failed);
    } else {
      SameCharges(c, d, failed);
    }
  }

  lemma ChargesStep(c: Cluster, e: Event, d: Cluster, grants: Pending, failed: set<PodName>)
    requires Sized(c) && Serial(c) && ChargesFailures(c, failed) && AllOnRecord(c, grants) && Enabled(c, e)
    requires d == Next(c, e) && d.history != [] && c.history <= d.history
    ensures ChargesFailures(d, failed + Failing(c, e, grants))
  {
    match e
    case Read(_, _, _, _) => ReadCharges(c, e, d, grants, failed);
    case PodsChange(pods) => ChangeCharges(c, pods, d, grants, failed);
    case Write(r) => WriteCharges(c, r, d, failed);
    case TryCommit(h, zone) => AttemptCharges(c, h, zone, d, failed);
    case ChangeSpec(_) => NewVersionCharges(c, d, failed);
    case _ => SameCharges(c, d, failed);
  }

  /** The state of a run: its grants are on record, and none but its failures are charged. */
  ghost predicate Kept(c: Cluster, grants: Pending, failed: set<PodName>) {
    Sized(c) && Serial(c) && AllOnRecord(c, grants) && ChargesFailures(c, failed)
  }

  lemma KeptStep(c: Cluster, e: Event, grants: Pending, failed: set<PodName>)
    requires Kept(c, grants, failed) && Enabled(c, e)
    ensures Kept(Next(c, e), NextGrants(c, e, grants), failed + Failing(c, e, grants))
  {
    NextExtends(c, e);
    SizedStep(c, e);
    SerialStep(c, e);
    GrantsStayOnRecord(c, e, Next(c, e), grants);
    ChargesStep(c, e, Next(c, e), grants, failed);
  }

  /**
   * For every run: whatever is charged has failed, so no pod that stops serving within the time of its grant is
   * charged.
   */
  lemma {:induction false} OnlyFailuresAreCharged(c: Cluster, events: seq<Event>, grants: Pending, failed: set<PodName>)
    requires Kept(c, grants, failed) && Legal(c, events)
    ensures Kept(After(c, events), GrantsAfter(c, events, grants), failed + Failures(c, events, grants))
    decreases events
  {
    if events == [] {
      assert failed + {} == failed;
    } else {
      var failing := Failing(c, events[0], grants);
      KeptStep(c, events[0], grants, failed);
      OnlyFailuresAreCharged(Next(c, events[0]), events[1..], NextGrants(c, events[0], grants), failed + failing);
      SameUnion(failed, failing, Failures(Next(c, events[0]), events[1..], NextGrants(c, events[0], grants)));
    }
  }

  lemma SameUnion(a: set<PodName>, b: set<PodName>, c: set<PodName>)
    ensures a + b + c == a + (b + c)
  {}

  lemma InitiallyKept(c: Cluster)
    requires Initial(c)
    ensures Kept(c, map[], {})
  {
    InitiallySerial(c);
    InitiallyBacked(c);
  }
}
