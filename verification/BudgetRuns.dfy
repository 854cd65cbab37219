/**
 * The atomic specification of a budget: its history of versions, where every version after the first is a change of the
 * spec, one whole sync, or one grant. These are facts about every such history.
 */
module BudgetRuns {
  import opened Seqs
  import opened Pods
  import opened SortMap
  import opened ExpectedPods
  import opened ZdbStore
  import opened ZdbController
  import opened EvictionWebhook

  type Id = nat

  datatype Commit = Created | SpecChanged | Synced(pods: seq<Pod>, find: Finder, now: Time)
    | Granted(handler: Id, pod: PodName, now: Time)

  /**
   * status is what one reconcile computes from this object, these pods, their controllers and this reading of the
   * clock.
   */
  ghost predicate IsSync(zoneOf: map<PodName, Zone>, zdb: Zdb, pods: seq<Pod>, find: Finder, now: Time,
                         status: Status)
  {
    && DistinctNames(pods)
    && exists order :: Ascending(order, Observed(Group(pods, zoneOf)))
                       && ComputedStatus(zdb, pods, zoneOf, find, order, now) == Ok(status)
  }

  ghost predicate AtomicStep(zoneOf: map<PodName, Zone>, before: Zdb, commit: Commit, after: Zdb) {
    match commit
    case Created => false
    case SpecChanged => after == Zdb(before.generation + 1, after.spec, before.status)
    case Synced(pods, find, now) =>
      IsSync(zoneOf, before, pods, find, now, after.status) && after == before.(status := after.status)
    case Granted(_, pod, now) =>
      && pod in zoneOf
      && Decide(before, pod, Some(zoneOf[pod]), false, now) == Proceed(after.status)
      && after == before.(status := after.status)
  }

  ghost predicate AtomicRun(zoneOf: map<PodName, Zone>, history: seq<Zdb>, commits: seq<Commit>) {
    && |history| == |commits| && history != []
    && commits[0] == Created && history[0].status == NO_STATUS && history[0].generation >= 1
    && forall v :: 0 < v < |history| ==> AtomicStep(zoneOf, history[v - 1], commits[v], history[v])
  }

  /** The newest sync up to version v, or the creation of the object when there is none. */
  function LastSync(commits: seq<Commit>, v: nat): (s: nat)
    requires v < |commits|
    ensures s <= v && (s == 0 || commits[s].Synced?) && forall u :: s < u <= v ==> !commits[u].Synced?
  {
    if v == 0 || commits[v].Synced? then v else LastSync(commits, v - 1)
  }

  predicate IsGrantIn(commit: Commit, zoneOf: map<PodName, Zone>, z: Zone) {
    commit.Granted? && commit.pod in zoneOf && zoneOf[commit.pod] == z
  }

  /** Grants to zone z in versions s + 1 to w. */
  function GrantsIn(commits: seq<Commit>, zoneOf: map<PodName, Zone>, s: nat, w: nat, z: Zone): nat
    requires s <= w < |commits|
  {
    if w == s then 0
    else GrantsIn(commits, zoneOf, s, w - 1, z) + if IsGrantIn(commits[w], zoneOf, z) then 1 else 0
  }

  /** Pods of zone z on record at version w and not at version s. */
  function NewlyRecorded(history: seq<Zdb>, zoneOf: map<PodName, Zone>, s: nat, w: nat, z: Zone): set<PodName>
    requires s <= w < |history|
  {
    set n | n in history[w].status.disrupted && n !in history[s].status.disrupted && n in zoneOf && zoneOf[n] == z
  }

  /** A zone that is allowed disruptions is the only disrupted one, and has that much room above its desired count. */
  lemma PositiveAllowance(healthy: map<Zone, int>, unhealthy: map<Zone, int>, desired: map<Zone, int>, z: Zone)
    ensures var allowed := Get(Allowances(healthy, unhealthy, desired), z);
            && allowed >= 0
            && (allowed > 0 ==> z in desired && DisruptedZones(unhealthy) <= {z}
                                && allowed == Get(healthy, z) - Get(desired, z))
  {}

  lemma SyncedFields(zoneOf: map<PodName, Zone>, zdb: Zdb, pods: seq<Pod>, find: Finder, now: Time, status: Status)
    requires IsSync(zoneOf, zdb, pods, find, now, status)
    ensures status.observedGeneration == zdb.generation
    ensures status.allowed == Allowances(status.healthy, status.unhealthy, status.desired)
    ensures status.disrupted == RetainedDisruptions(pods, zdb.status.disrupted, now)
    ensures status.healthy == HealthyCounts(Group(pods, zoneOf), status.disrupted, now)
    ensures status.unhealthy == UnhealthyCounts(Group(pods, zoneOf), status.disrupted, now)
  {}

  /** maxUnavailable as a number of pods, at the scale of the controllers of these pods. */
  ghost function LimitOf(spec: Spec, pods: seq<Pod>, find: Finder): Result<int> {
    match ControllerScales(pods, find)
    case Err => Err
    case Ok(scales) => Scaled(spec.maxUnavailable, Sum(scales))
  }

  /** The desired counts are the expected ones less this limit. */
  ghost predicate Derived(status: Status, limit: Result<int>) {
    limit.Ok? && status.desired == Desired(status.expected, limit.value)
  }

  lemma DesiredIsClose(status: Status, limit: Result<int>, z: Zone)
    requires Derived(status, limit) && z in status.desired
    ensures z in status.expected && status.desired[z] >= status.expected[z] - limit.value
  {}

  lemma ExpectationUsesLimit(spec: Spec, pods: seq<Pod>, find: Finder, groups: map<Zone, seq<Pod>>, order: seq<Zone>,
                             status: Status)
    requires Ascending(order, Observed(groups))
    requires Expectation(pods, find, spec.maxUnavailable, groups, order) == Ok((status.expected, status.desired))
    ensures Derived(status, LimitOf(spec, pods, find))
  {}

  lemma ComputedExpectation(zdb: Zdb, pods: seq<Pod>, zoneOf: map<PodName, Zone>, find: Finder, order: seq<Zone>,
                            now: Time, status: Status)
    requires Ascending(order, Observed(Group(pods, zoneOf)))
    requires ComputedStatus(zdb, pods, zoneOf, find, order, now) == Ok(status)
    ensures Expectation(pods, find, zdb.spec.maxUnavailable, Group(pods, zoneOf), order)
            == Ok((status.expected, status.desired))
  {}

  /** The desired counts of a sync are the expected ones less the limit of its own spec, pods and controllers. */
  lemma SyncedLimit(zoneOf: map<PodName, Zone>, zdb: Zdb, pods: seq<Pod>, find: Finder, now: Time, status: Status,
                    limit: Result<int>)
    requires IsSync(zoneOf, zdb, pods, find, now, status) && limit == LimitOf(zdb.spec, pods, find)
    ensures Derived(status, limit)
  {
    var order := OrderOf(zoneOf, zdb, pods, find, now, status);
    ComputedLimit(zdb, pods, zoneOf, find, order, now, status, Group(pods, zoneOf), limit);
  }

  lemma SyncedZones(zoneOf: map<PodName, Zone>, zdb: Zdb, pods: seq<Pod>, find: Finder, now: Time, status: Status)
    requires IsSync(zoneOf, zdb, pods, find, now, status)
    ensures status.desired.Keys == ZonesOf(pods, zoneOf)
  {
    var order := OrderOf(zoneOf, zdb, pods, find, now, status);
    ComputedExpectation(zdb, pods, zoneOf, find, order, now, status);
    ExpectationKeys(pods, find, zdb.spec.maxUnavailable, Group(pods, zoneOf), order, status);
  }

  lemma ExpectationKeys(pods: seq<Pod>, find: Finder, maxUnavailable: IntOrPercent, groups: map<Zone, seq<Pod>>,
                        order: seq<Zone>, status: Status)
    requires Ascending(order, Observed(groups))
    requires Expectation(pods, find, maxUnavailable, groups, order) == Ok((status.expected, status.desired))
    ensures status.desired.Keys == groups.Keys
  {}

  lemma OrderOf(zoneOf: map<PodName, Zone>, zdb: Zdb, pods: seq<Pod>, find: Finder, now: Time, status: Status)
    returns (order: seq<Zone>)
    requires IsSync(zoneOf, zdb, pods, find, now, status)
    ensures Ascending(order, Observed(Group(pods, zoneOf)))
    ensures ComputedStatus(zdb, pods, zoneOf, find, order, now) == Ok(status)
  {
    order :| Ascending(order, Observed(Group(pods, zoneOf)))
             && ComputedStatus(zdb, pods, zoneOf, find, order, now) == Ok(status);
  }

  lemma ComputedLimit(zdb: Zdb, pods: seq<Pod>, zoneOf: map<PodName, Zone>, find: Finder, order: seq<Zone>, now: Time,
                      status: Status, groups: map<Zone, seq<Pod>>, limit: Result<int>)
    requires groups == Group(pods, zoneOf) && limit == LimitOf(zdb.spec, pods, find)
             && Ascending(order, Observed(groups))
    requires ComputedStatus(zdb, pods, zoneOf, find, order, now) == Ok(status)
    ensures Derived(status, limit)
  {
    ComputedExpectation(zdb, pods, zoneOf, find, order, now, status);
    ExpectationUsesLimit(zdb.spec, pods, find, groups, order, status);
  }

  /** What every status a sync writes promises of its allowances. */
  lemma SyncedStatus(zoneOf: map<PodName, Zone>, zdb: Zdb, pods: seq<Pod>, find: Finder, now: Time, status: Status,
                     z: Zone)
    requires IsSync(zoneOf, zdb, pods, find, now, status)
    ensures status.observedGeneration == zdb.generation
    ensures Get(status.allowed, z) >= 0
    ensures Get(status.allowed, z) > 0 ==> DisruptedZones(status.unhealthy) <= {z}
    ensures Get(status.allowed, z) > 0 ==> z in status.desired
                                           && Get(status.allowed, z) == Get(status.healthy, z) - Get(status.desired, z)
  {
    SyncedFields(zoneOf, zdb, pods, find, now, status);
    PositiveAllowance(status.healthy, status.unhealthy, status.desired, z);
  }

  lemma {:induction false} AllowancesStayNatural(zoneOf: map<PodName, Zone>, history: seq<Zdb>, commits: seq<Commit>,
                                                 v: nat, z: Zone)
    requires AtomicRun(zoneOf, history, commits) && v < |history|
    ensures Get(history[v].status.allowed, z) >= 0
  {
    if v > 0 {
      AllowancesStayNatural(zoneOf, history, commits, v - 1, z);
      assert AtomicStep(zoneOf, history[v - 1], commits[v], history[v]);
      if commits[v].Synced? {
        SyncedStatus(zoneOf, history[v - 1], commits[v].pods, commits[v].find, commits[v].now, history[v].status, z);
      }
    }
  }

  /**
   * The ledger between syncs: the allowance left and the grants made account for the allowance written, so the pods
   * newly put on record never outnumber what has been spent; and apart from allowances, records and the spec, nothing
   * moves.
   */
  lemma {:induction false} Ledger(zoneOf: map<PodName, Zone>, history: seq<Zdb>, commits: seq<Commit>, s: nat, w: nat,
                                  z: Zone)
    requires AtomicRun(zoneOf, history, commits) && s <= w < |history|
    requires forall u :: s < u <= w ==> !commits[u].Synced?
    ensures Get(history[w].status.allowed, z) + GrantsIn(commits, zoneOf, s, w, z) == Get(history[s].status.allowed, z)
    ensures |NewlyRecorded(history, zoneOf, s, w, z)| <= GrantsIn(commits, zoneOf, s, w, z)
    ensures Get(history[w].status.allowed, z)
            + |NewlyRecorded(history, zoneOf, s, w, z)| <= Get(history[s].status.allowed, z)
    ensures history[w].status == history[s].status.(allowed := history[w].status.allowed,
                                                    disrupted := history[w].status.disrupted)
    ensures history[s].status.allowed.Keys == history[w].status.allowed.Keys
    ensures history[s].status.disrupted.Keys <= history[w].status.disrupted.Keys
    decreases w
  {
    if s == w {
      assert NewlyRecorded(history, zoneOf, s, w, z) == {};
    } else {
      Ledger(zoneOf, history, commits, s, w - 1, z);
      assert AtomicStep(zoneOf, history[w - 1], commits[w], history[w]);
      var before, after := NewlyRecorded(history, zoneOf, s, w - 1, z), NewlyRecorded(history, zoneOf, s, w, z);
      if commits[w].Granted? {
        var more := if IsGrantIn(commits[w], zoneOf, z) then {commits[w].pod} else {};
        assert after <= before + more;
        AtMost(after, before, more);
      } else {
        assert after == before;
      }
    }
  }

  lemma AtMost<T>(a: set<T>, b: set<T>, c: set<T>)
    requires a <= b + c
    ensures |a| <= |b| + |c|
  {
    Subset(a, b + c);
    assert |b + c| <= |b| + |c| by { assert b + c == b + (c - b); Subset(c - b, c); }
  }

  /** The generation a status claims to have observed is never ahead of the object's. */
  lemma {:induction false} ObservedNeverAhead(zoneOf: map<PodName, Zone>, history: seq<Zdb>, commits: seq<Commit>,
                                              v: nat)
    requires AtomicRun(zoneOf, history, commits) && v < |history|
    ensures history[v].status.observedGeneration <= history[v].generation
  {
    if v > 0 {
      ObservedNeverAhead(zoneOf, history, commits, v - 1);
      assert AtomicStep(zoneOf, history[v - 1], commits[v], history[v]);
    }
  }

  /** While the observed generation is current, the spec is the one the last sync was computed from. */
  lemma {:induction false} CurrentMeansUnchanged(zoneOf: map<PodName, Zone>, history: seq<Zdb>, commits: seq<Commit>,
                                                 v: nat)
    requires AtomicRun(zoneOf, history, commits) && v < |history|
    ensures var s := LastSync(commits, v);
            && history[s].generation <= history[v].generation
            && (history[s].generation == history[v].generation ==>
                  history[s].spec == history[v].spec && forall u :: s < u <= v ==> commits[u].Granted?)
            && (s > 0 ==> history[v].status.observedGeneration == history[s].generation)
            && (s == 0 ==> history[v].status.observedGeneration == 0)
  {
    if v > 0 {
      assert AtomicStep(zoneOf, history[v - 1], commits[v], history[v]);
      if !commits[v].Synced? {
        CurrentMeansUnchanged(zoneOf, history, commits, v - 1);
      }
    }
  }

  lemma {:induction false} GenerationsArePositive(zoneOf: map<PodName, Zone>, history: seq<Zdb>, commits: seq<Commit>,
                                                  v: nat)
    requires AtomicRun(zoneOf, history, commits) && v < |history|
    ensures history[v].generation >= 1
  {
    if v > 0 {
      GenerationsArePositive(zoneOf, history, commits, v - 1);
      assert AtomicStep(zoneOf, history[v - 1], commits[v], history[v]);
    }
  }

  /**
   * The generation fence: between a grant and the sync whose allowances it spends there are only other grants, so the
   * limit in force at the grant is the one those allowances were computed from.
   */
  lemma GenerationFence(zoneOf: map<PodName, Zone>, history: seq<Zdb>, commits: seq<Commit>, v: nat)
    requires AtomicRun(zoneOf, history, commits) && v < |history| && commits[v].Granted?
    ensures var s := LastSync(commits, v);
            && 0 < s < v && commits[s].Synced?
            && IsSync(zoneOf, history[s - 1], commits[s].pods, commits[s].find, commits[s].now, history[s].status)
            && history[s - 1].spec == history[v].spec
            && history[v].status.observedGeneration == history[v].generation
            && forall u :: s < u <= v ==> commits[u].Granted?
  {
    SpendingIsPositive(zoneOf, history, commits, v);
    var s := LastSync(commits, v - 1);
    assert s == LastSync(commits, v);
    assert 0 < s && history[s].spec == history[v].spec && forall u :: s < u <= v ==> commits[u].Granted? by {
      CurrentStatusIsFresh(zoneOf, history, commits, v - 1);
    }
    assert history[v].status.observedGeneration == history[v].generation by {
      ObservedNeverAhead(zoneOf, history, commits, v);
    }
    SyncedVersion(zoneOf, history, commits, s);
  }

  lemma CurrentStatusIsFresh(zoneOf: map<PodName, Zone>, history: seq<Zdb>, commits: seq<Commit>, w: nat)
    requires AtomicRun(zoneOf, history, commits) && w < |history|
    requires history[w].status.observedGeneration >= history[w].generation
    ensures var s := LastSync(commits, w);
            0 < s && history[s].spec == history[w].spec && forall u :: s < u <= w ==> commits[u].Granted?
  {
    CurrentMeansUnchanged(zoneOf, history, commits, w);
    GenerationsArePositive(zoneOf, history, commits, w);
    ObservedNeverAhead(zoneOf, history, commits, w);
  }

  lemma SyncedVersion(zoneOf: map<PodName, Zone>, history: seq<Zdb>, commits: seq<Commit>, s: nat)
    requires AtomicRun(zoneOf, history, commits) && 0 < s < |history| && commits[s].Synced?
    ensures IsSync(zoneOf, history[s - 1], commits[s].pods, commits[s].find, commits[s].now, history[s].status)
    ensures history[s - 1].spec == history[s].spec
  {}

  /**
   * A grant goes to a zone only if the sync it spends from saw no unhealthy pod in any other: none at all once two
   * zones were hit.
   */
  lemma GrantsFollowTheDisruptedZone(zoneOf: map<PodName, Zone>, history: seq<Zdb>, commits: seq<Commit>, v: nat)
    requires AtomicRun(zoneOf, history, commits) && v < |history| && commits[v].Granted?
    ensures var s := LastSync(commits, v);
            && commits[v].pod in zoneOf
            && DisruptedZones(history[s].status.unhealthy) <= {zoneOf[commits[v].pod]}
  {
    AllowanceAtSync(zoneOf, history, commits, v);
  }

  lemma SpendingIsPositive(zoneOf: map<PodName, Zone>, history: seq<Zdb>, commits: seq<Commit>, v: nat)
    requires AtomicRun(zoneOf, history, commits) && v < |history| && commits[v].Granted?
    ensures v > 0 && commits[v].pod in zoneOf
    ensures Get(history[v - 1].status.allowed, zoneOf[commits[v].pod]) > 0
    ensures history[v - 1].status.observedGeneration >= history[v - 1].generation
    ensures history[v].generation == history[v - 1].generation && history[v].spec == history[v - 1].spec
    ensures history[v].status.observedGeneration == history[v - 1].status.observedGeneration
  {
    assert AtomicStep(zoneOf, history[v - 1], commits[v], history[v]);
  }

  /**
   * A grant is paid from a positive allowance of its zone, which the sync computed as the room above the desired count.
   */
  lemma GrantsArePaidFor(zoneOf: map<PodName, Zone>, history: seq<Zdb>, commits: seq<Commit>, v: nat)
    requires AtomicRun(zoneOf, history, commits) && v < |history| && commits[v].Granted?
    ensures commits[v].pod in zoneOf
    ensures var s, z := LastSync(commits, v), zoneOf[commits[v].pod];
            Get(history[s].status.healthy, z) - GrantsIn(commits, zoneOf, s, v, z) >= Get(history[s].status.desired, z)
  {
    SpendingIsPositive(zoneOf, history, commits, v);
    var s, z := LastSync(commits, v), zoneOf[commits[v].pod];
    AllowanceAtSync(zoneOf, history, commits, v);
    Ledger(zoneOf, history, commits, s, v, z);
    AllowancesStayNatural(zoneOf, history, commits, v, z);
  }

  /** The sync that a grant spends from had allowed disruptions in its zone: the room above the desired count. */
  lemma AllowanceAtSync(zoneOf: map<PodName, Zone>, history: seq<Zdb>, commits: seq<Commit>, v: nat)
    requires AtomicRun(zoneOf, history, commits) && v < |history| && commits[v].Granted?
    ensures commits[v].pod in zoneOf
    ensures var status, z := history[LastSync(commits, v)].status, zoneOf[commits[v].pod];
            && 0 < Get(status.allowed, z) == Get(status.healthy, z) - Get(status.desired, z)
            && z in status.desired && DisruptedZones(status.unhealthy) <= {z}
  {
    SpendingIsPositive(zoneOf, history, commits, v);
    var s, z := LastSync(commits, v), zoneOf[commits[v].pod];
    assert 0 < s < v && commits[s].Synced?
           && IsSync(zoneOf, history[s - 1], commits[s].pods, commits[s].find, commits[s].now, history[s].status) by {
      GenerationFence(zoneOf, history, commits, v);
    }
    assert Get(history[s].status.allowed, z) > 0 by {
      Ledger(zoneOf, history, commits, s, v - 1, z);
    }
    PositiveAtSync(zoneOf, history[s - 1], commits[s], history[s].status, z);
  }

  lemma PositiveAtSync(zoneOf: map<PodName, Zone>, zdb: Zdb, commit: Commit, status: Status, z: Zone)
    requires commit.Synced? && IsSync(zoneOf, zdb, commit.pods, commit.find, commit.now, status)
             && Get(status.allowed, z) > 0
    ensures Get(status.allowed, z) == Get(status.healthy, z) - Get(status.desired, z)
    ensures z in status.desired && DisruptedZones(status.unhealthy) <= {z}
  {
    SyncedStatus(zoneOf, zdb, commit.pods, commit.find, commit.now, status, z);
  }

  /**
   * The limit in force: from a sync to the next, the desired count of every zone is short of the expected one by at
   * most the limit that the sync has derived from its spec, at the scale of the controllers it has found.
   */
  lemma LimitAtSync(zoneOf: map<PodName, Zone>, history: seq<Zdb>, commits: seq<Commit>, w: nat, z: Zone)
    requires AtomicRun(zoneOf, history, commits) && w < |history|
    requires z in history[w].status.desired
    ensures var s, status := LastSync(commits, w), history[w].status;
            && s > 0 && commits[s].Synced? && z in status.expected
            && LimitOf(history[s - 1].spec, commits[s].pods, commits[s].find).Ok?
            && status.desired[z] >= status.expected[z] - LimitOf(history[s - 1].spec, commits[s].pods,
                                                                 commits[s].find).value
  {
    var s := LastSync(commits, w);
    assert history[w].status.desired == history[s].status.desired
           && history[w].status.expected == history[s].status.expected by {
      Ledger(zoneOf, history, commits, s, w, z);
    }
    assert s > 0;
    var limit := LimitOf(history[s - 1].spec, commits[s].pods, commits[s].find);
    assert Derived(history[s].status, limit) by {
      SyncedVersion(zoneOf, history, commits, s);
      SyncedLimit(zoneOf, history[s - 1], commits[s].pods, commits[s].find, commits[s].now, history[s].status, limit);
    }
    DesiredIsClose(history[s].status, limit, z);
  }

  /** At a grant, and from then until the next sync, that limit is the one of the spec in force at the grant. */
  lemma LimitInForce(zoneOf: map<PodName, Zone>, history: seq<Zdb>, commits: seq<Commit>, v: nat, w: nat)
    requires AtomicRun(zoneOf, history, commits) && v <= w < |history| && commits[v].Granted?
    requires forall u :: v < u <= w ==> !commits[u].Synced?
    ensures commits[v].pod in zoneOf && commits[LastSync(commits, v)].Synced?
    ensures var sync, status, z := commits[LastSync(commits, v)], history[w].status, zoneOf[commits[v].pod];
            && z in status.desired && z in status.expected
            && LimitOf(history[v].spec, sync.pods, sync.find).Ok?
            && status.desired[z] >= status.expected[z] - LimitOf(history[v].spec, sync.pods, sync.find).value
  {
    GenerationFence(zoneOf, history, commits, v);
    AllowanceAtSync(zoneOf, history, commits, v);
    Ledger(zoneOf, history, commits, LastSync(commits, v), w, zoneOf[commits[v].pod]);
    LastSyncSkips(commits, v, w);
    LimitAtSync(zoneOf, history, commits, w, zoneOf[commits[v].pod]);
  }

  lemma {:induction false} LastSyncSkips(commits: seq<Commit>, v: nat, w: nat)
    requires v <= w < |commits| && forall u :: v < u <= w ==> !commits[u].Synced?
    ensures LastSync(commits, v) == LastSync(commits, w)
  {
    if v < w {
      LastSyncSkips(commits, v, w - 1);
    }
  }

  // ---------- one pod granted twice ----------

  /** Every grant to the zone in versions s + 1 to w was of a pod not on record in the version it was decided on. */
  ghost predicate EachOnce(zoneOf: map<PodName, Zone>, history: seq<Zdb>, commits: seq<Commit>, s: nat, w: nat, z: Zone)
    requires |history| == |commits| && s <= w < |history|
  {
    forall u :: s < u <= w && IsGrantIn(commits[u], zoneOf, z) ==> commits[u].pod !in history[u - 1].status.disrupted
  }

  lemma EachOnceStep(zoneOf: map<PodName, Zone>, history: seq<Zdb>, commits: seq<Commit>, s: nat, w: nat, z: Zone)
    requires |history| == |commits| && s < w < |history|
    ensures EachOnce(zoneOf, history, commits, s, w, z)
            <==> EachOnce(zoneOf, history, commits, s, w - 1, z)
                 && (IsGrantIn(commits[w], zoneOf, z) ==> commits[w].pod !in history[w - 1].status.disrupted)
  {}

  lemma StepRecords(zoneOf: map<PodName, Zone>, before: Zdb, commit: Commit, after: Zdb)
    requires AtomicStep(zoneOf, before, commit, after) && !commit.Synced?
    ensures after.status.disrupted.Keys == before.status.disrupted.Keys + if commit.Granted? then {commit.pod} else {}
  {}

  /** A version adds its pod to those newly on record exactly when it grants, in this zone, a pod not yet on record. */
  lemma RecordGrows(zoneOf: map<PodName, Zone>, history: seq<Zdb>, commits: seq<Commit>, s: nat, w: nat, z: Zone)
    requires |history| == |commits| && s < w < |history|
    requires history[s].status.disrupted.Keys <= history[w - 1].status.disrupted.Keys
    requires history[w].status.disrupted.Keys
             == history[w - 1].status.disrupted.Keys + if commits[w].Granted? then {commits[w].pod} else {}
    ensures |NewlyRecorded(history, zoneOf, s, w, z)| == |NewlyRecorded(history, zoneOf, s, w - 1, z)|
            + if IsGrantIn(commits[w], zoneOf, z) && commits[w].pod !in history[w - 1].status.disrupted then 1 else 0
  {
    var before, after := NewlyRecorded(history, zoneOf, s, w - 1, z), NewlyRecorded(history, zoneOf, s, w, z);
    if IsGrantIn(commits[w], zoneOf, z) && commits[w].pod !in history[w - 1].status.disrupted {
      assert commits[w].pod !in before;
      assert after == before + {commits[w].pod};
    } else {
      assert after == before;
    }
  }

  lemma {:induction false} RecordsShowGrants(zoneOf: map<PodName, Zone>, history: seq<Zdb>, commits: seq<Commit>,
                                             s: nat, w: nat, z: Zone)
    requires AtomicRun(zoneOf, history, commits) && s <= w < |history|
    requires forall u :: s < u <= w ==> !commits[u].Synced?
    ensures history[s].status.disrupted.Keys <= history[w].status.disrupted.Keys
    ensures |NewlyRecorded(history, zoneOf, s, w, z)| <= GrantsIn(commits, zoneOf, s, w, z)
    ensures |NewlyRecorded(history, zoneOf, s, w, z)| == GrantsIn(commits, zoneOf, s, w, z)
            <==> EachOnce(zoneOf, history, commits, s, w, z)
    decreases w
  {
    if s == w {
      assert NewlyRecorded(history, zoneOf, s, w, z) == {};
    } else {
      RecordsShowGrants(zoneOf, history, commits, s, w - 1, z);
      StepRecords(zoneOf, history[w - 1], commits[w], history[w]);
      RecordGrows(zoneOf, history, commits, s, w, z);
      EachOnceStep(zoneOf, history, commits, s, w, z);
    }
  }

  /**
   * The ledger is exact, between syncs, if and only if no pod is granted while it is on record: then, and only then,
   * every allowance spent shows as a pod newly on record.
   */
  lemma LedgerIsExact(zoneOf: map<PodName, Zone>, history: seq<Zdb>, commits: seq<Commit>, s: nat, w: nat, z: Zone)
    requires AtomicRun(zoneOf, history, commits) && s <= w < |history|
    requires forall u :: s < u <= w ==> !commits[u].Synced?
    ensures |NewlyRecorded(history, zoneOf, s, w, z)| == GrantsIn(commits, zoneOf, s, w, z)
            <==> EachOnce(zoneOf, history, commits, s, w, z)
    ensures Get(history[w].status.allowed, z) + |NewlyRecorded(history, zoneOf, s, w, z)|
            == Get(history[s].status.allowed, z)
            <==> EachOnce(zoneOf, history, commits, s, w, z)
  {
    Ledger(zoneOf, history, commits, s, w, z);
    RecordsShowGrants(zoneOf, history, commits, s, w, z);
  }
}
