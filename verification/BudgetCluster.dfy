/**
 * The budget as it runs: any number of eviction handlers and reconcilers, each holding a copy of some version of the
 * object, old ones included, while pods come and go under them.
 */
module BudgetCluster {
  import opened Seqs
  import opened Pods
  import opened SortMap
  import opened ExpectedPods
  import opened ZdbStore
  import opened ZdbController
  import opened EvictionWebhook
  import opened BudgetFacts
  import opened BudgetRuns

  datatype Verdict = GrantedAt(version: nat) | LetThrough | Refusal

  datatype HandlerState = Deciding(version: nat, attempt: nat) | Conflicting(attempt: nat) | Closed(verdict: Verdict)

  /** pod is the handler's own, possibly outdated, copy of the pod. */
  datatype Handler = Handler(pod: Pod, dryRun: bool, state: HandlerState)

  /** A reconcile about to write status. lost is bookkeeping: see Cluster. */
  datatype Reconciler = Reconciler(version: nat, pods: seq<Pod>, find: Finder, now: Time, status: Status,
                                   lost: set<PodName>)

  /**
   * history[v] is the object at version v and commits[v] what made it; both, like lost, are bookkeeping except for the
   * last version. lost holds the pods charged to nobody since the snapshot of the last sync: those that stopped serving
   * without being on record, and those on record whose deadline fell on the very instant of the sync.
   */
  datatype Cluster = Cluster(zoneOf: map<PodName, Zone>, history: seq<Zdb>, commits: seq<Commit>, pods: seq<Pod>,
                             now: Time, handlers: map<Id, Handler>, reconcilers: map<Id, Reconciler>,
                               lost: set<PodName>)
  {
    function Latest(): nat
      requires history != []
    {
      |history| - 1
    }

    function Current(): Zdb
      requires history != []
    {
      history[|history| - 1]
    }
  }

  datatype Event =
    | ChangeSpec(spec: Spec)
    | Read(reconciler: Id, version: nat, find: Finder, order: seq<Zone>)
    | Write(reconciler: Id)
    | Begin(handler: Id, pod: Pod, version: nat, dryRun: bool)
    | TryCommit(handler: Id, zone: Option<Zone>)
    | Reread(handler: Id, version: nat)
    | RereadFails(handler: Id)
    | PodsChange(pods: seq<Pod>)
    | Tick(now: Time)

  /** Pods that served, were not on record, and do not serve any more. */
  function StoppedServing(before: seq<Pod>, after: seq<Pod>, disrupted: map<PodName, Time>): set<PodName> {
    (set p | p in before && Up(p) && p.name !in disrupted :: p.name) - (set p | p in after && Up(p) :: p.name)
  }

  ghost predicate Initial(c: Cluster) {
    && |c.history| == 1 && c.commits == [Created] && c.history[0].status == NO_STATUS && c.history[0].generation >= 1
    && DistinctNames(c.pods) && c.handlers == map[] && c.reconcilers == map[] && c.lost == {}
  }

  ghost predicate Enabled(c: Cluster, e: Event)
    requires c.history != []
  {
    match e
    case ChangeSpec(_) => true
    case Read(r, v, find, order) =>
      && r !in c.reconcilers && v < |c.history|
      && Ascending(order, Observed(Group(c.pods, c.zoneOf)))
      && ComputedStatus(c.history[v], c.pods, c.zoneOf, find, order, c.now).Ok?
    case Write(r) => r in c.reconcilers
    case Begin(h, pod, v, _) => h !in c.handlers && v < |c.history|
    case TryCommit(h, zone) =>
      && h in c.handlers && c.handlers[h].state.Deciding? && c.handlers[h].state.version < |c.history|
      && (zone.Some? ==> var name := c.handlers[h].pod.name; name in c.zoneOf && c.zoneOf[name] == zone.value)
    case Reread(h, v) => h in c.handlers && c.handlers[h].state.Conflicting? && v < |c.history|
    case RereadFails(h) => h in c.handlers && c.handlers[h].state.Conflicting?
    case PodsChange(pods) => DistinctNames(pods)
    case Tick(now) => c.now <= now
  }

  /** A new version; the copies others hold are now out of date. */
  function Append(c: Cluster, zdb: Zdb, commit: Commit): Cluster {
    c.(history := c.history + [zdb], commits := c.commits + [commit])
  }

  function SetHandler(c: Cluster, id: Id, handler: Handler): Cluster {
    c.(handlers := c.handlers[id := handler])
  }

  /** What a handler answers when checkAndDecrement or the re-read fails for good. */
  function Refused(h: Handler): Handler {
    h.(state := Closed(if h.dryRun then LetThrough else Refusal))
  }

  function AfterAttempt(c: Cluster, id: Id, zone: Option<Zone>): Cluster
    requires c.history != [] && id in c.handlers && c.handlers[id].state.Deciding?
    requires c.handlers[id].state.version < |c.history|
  {
    var h := c.handlers[id];
    var zdb := c.history[h.state.version];
    match Decide(zdb, h.pod.name, zone, h.dryRun, c.now)
    case Forbid => SetHandler(c, id, Refused(h))
    case Permit => SetHandler(c, id, h.(state := Closed(LetThrough)))
    case Proceed(status) =>
      if h.state.version == c.Latest() then
        Append(SetHandler(c, id, h.(state := Closed(GrantedAt(|c.history|)))),
               zdb.(status := status), Granted(id, h.pod.name, c.now))
      else if h.state.attempt + 1 >= EVICTION_STEPS then SetHandler(c, id, Refused(h))
      else SetHandler(c, id, h.(state := Conflicting(h.state.attempt + 1)))
  }

  ghost function Next(c: Cluster, e: Event): Cluster
    requires c.history != [] && Enabled(c, e)
  {
    match e
    case ChangeSpec(spec) =>
      Append(c, Zdb(c.Current().generation + 1, spec, c.Current().status), SpecChanged)
    case Read(r, v, find, order) =>
      var status := ComputedStatus(c.history[v], c.pods, c.zoneOf, find, order, c.now).value;
      if status == c.history[v].status then c
      else c.(reconcilers := c.reconcilers[r := Reconciler(v, c.pods, find, c.now, status,
                                                                Expiring(c.pods, status.disrupted, c.now))])
    case Write(r) =>
      var writer := c.reconcilers[r];
      var done := c.(reconcilers := c.reconcilers - {r});
      if writer.version == c.Latest()
      then Append(done.(lost := writer.lost), c.Current().(status := writer.status),
                  Synced(writer.pods, writer.find, writer.now))
      else done
    case Begin(h, pod, v, dryRun) =>
      var answer := if Bypasses(pod, c.history[v]) then Closed(LetThrough) else Deciding(v, 0);
      SetHandler(c, h, Handler(pod, dryRun || c.history[v].spec.dryRun, answer))
    case TryCommit(h, zone) => AfterAttempt(c, h, zone)
    case Reread(h, v) =>
      SetHandler(c, h, c.handlers[h].(state := Deciding(v, c.handlers[h].state.attempt)))
    case RereadFails(h) => SetHandler(c, h, Refused(c.handlers[h]))
    case PodsChange(pods) =>
      c.(pods := pods, lost := c.lost + StoppedServing(c.pods, pods, c.Current().status.disrupted),
         reconcilers := map r | r in c.reconcilers ::
           var writer := c.reconcilers[r];
           writer.(lost := writer.lost + StoppedServing(c.pods, pods, writer.status.disrupted)))
    case Tick(now) => c.(now := now)
  }

  ghost predicate Legal(c: Cluster, events: seq<Event>)
    requires c.history != []
    decreases events
  {
    events == [] || (Enabled(c, events[0]) && Legal(Next(c, events[0]), events[1..]))
  }

  ghost function After(c: Cluster, events: seq<Event>): (d: Cluster)
    requires c.history != [] && Legal(c, events)
    ensures d.history != [] && (|c.commits| == |c.history| ==> |d.commits| == |d.history|)
    decreases events
  {
    if events == [] then c else After(Next(c, events[0]), events[1..])
  }
}
