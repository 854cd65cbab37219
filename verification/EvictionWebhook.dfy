/** The admission half of the budget: which evictions pass, and the retrying compare-and-commit that pays for one. */
module EvictionWebhook {
  import opened Seqs
  import opened Pods
  import opened ZdbStore
  import opened ZdbController

  const MAX_DISRUPTED_POD_SIZE := 2000
  const EVICTION_STEPS := 20

  // ---------- one attempt ----------

  datatype Decision = Forbid | Permit | Proceed(status: Status)

  /** checkAndDecrement up to its commit. zone is what the pod's node says, if it can be read. */
  function Decide(zdb: Zdb, name: PodName, zone: Option<Zone>, dryRun: bool, now: Time): Decision {
    var status := zdb.status;
    if status.observedGeneration < zdb.generation || zone.None? then Forbid
    else if Get(status.allowed, zone.value) < 0 then Forbid
    else if |status.disrupted| > MAX_DISRUPTED_POD_SIZE then Forbid
    else if Get(status.allowed, zone.value) == 0 then Forbid
    else if dryRun then Permit
    else Proceed(Decremented(status, name, zone.value, now))
  }

  /** One disruption fewer in the zone, and the pod on record. */
  function Decremented(status: Status, name: PodName, zone: Zone, now: Time): Status {
    status.(allowed := status.allowed[zone := Get(status.allowed, zone) - 1],
            disrupted := status.disrupted[name := now])
  }

  /** The zone has an allowance that is up to date, and the records waiting for a sync are not too many. */
  predicate Payable(zdb: Zdb, zone: Option<Zone>) {
    && zdb.status.observedGeneration >= zdb.generation && |zdb.status.disrupted| <= 2000
    && zone.Some? && zone.value in zdb.status.allowed && zdb.status.allowed[zone.value] > 0
  }

  /**
   * The object with one allowance less in the zone and the pod put on record at this time; nothing else has changed.
   */
  ghost predicate IsPaid(before: Zdb, after: Zdb, name: PodName, zone: Zone, now: Time) {
    && after.generation == before.generation && after.spec == before.spec
    && zone in before.status.allowed && after.status.allowed.Keys == before.status.allowed.Keys
    && (forall z :: z in before.status.allowed ==>
          after.status.allowed[z] == before.status.allowed[z] - if z == zone then 1 else 0)
    && after.status.disrupted.Keys == before.status.disrupted.Keys + {name}
    && (forall n :: n in after.status.disrupted ==>
          after.status.disrupted[n] == if n == name then now else before.status.disrupted[n])
    && after.status == before.status.(allowed := after.status.allowed, disrupted := after.status.disrupted)
  }

  /** An attempt goes on exactly when the object is payable; in dry run that is all, otherwise it pays. */
  lemma DecideIff(zdb: Zdb, name: PodName, zone: Option<Zone>, dryRun: bool, now: Time)
    ensures Decide(zdb, name, zone, dryRun, now).Forbid? <==> !Payable(zdb, zone)
    ensures Decide(zdb, name, zone, dryRun, now).Permit? <==> Payable(zdb, zone) && dryRun
    ensures Decide(zdb, name, zone, dryRun, now).Proceed? ==>
              IsPaid(zdb, zdb.(status := Decide(zdb, name, zone, dryRun, now).status), name, zone.value, now)
  {}

  datatype AttemptResult = Refused | Passed | Conflicted | Committed

  method CheckAndDecrement(name: PodName, zdb: Copy, store: Store, zone: Option<Zone>, dryRun: bool, now: Time)
    returns (result: AttemptResult)
    requires store.Valid()
    modifies zdb, store
    ensures store.Valid()
    ensures match Decide(old(zdb.Value()), name, zone, dryRun, now) {
              case Forbid => result == Refused && zdb.Value() == old(zdb.Value()) && store.history == old(store.history)
              case Permit => result == Passed && zdb.Value() == old(zdb.Value()) && store.history == old(store.history)
              case Proceed(status) =>
                && zdb.Value() == old(zdb.Value()).(status := status)
                && result == (if old(zdb.version) == old(store.Latest()) then Committed else Conflicted)
                && store.history == old(store.history)
                   + if result == Committed then [old(store.history[store.Latest()]).(status := status)] else []
            }
  {
    if zdb.status.observedGeneration < zdb.generation {
      return Refused;
    }
    if zone.None? {
      return Refused;
    }
    if Get(zdb.status.allowed, zone.value) < 0 {
      return Refused;
    }
    if |zdb.status.disrupted| > MAX_DISRUPTED_POD_SIZE {
      return Refused;
    }
    if Get(zdb.status.allowed, zone.value) == 0 {
      return Refused;
    }
    if dryRun {
      return Passed;
    }
    zdb.status := zdb.status.(allowed := zdb.status.allowed[zone.value := Get(zdb.status.allowed, zone.value) - 1]);
    zdb.status := zdb.status.(disrupted := zdb.status.disrupted[name := now]);
    var ok := store.UpdateStatus(zdb);
    return if ok then Committed else Conflicted;
  }

  // ---------- the handler ----------

  predicate CanIgnoreZdb(pod: Pod) {
    pod.phase == Succeeded || pod.phase == Failed || pod.phase == Pending || pod.terminating
  }

  predicate IsDisruptedPod(name: PodName, zdb: Zdb) {
    name in zdb.status.disrupted
  }

  /** Evictions of a budgeted pod that the handler lets through without asking for an allowance. */
  predicate Bypasses(pod: Pod, zdb: Zdb) {
    CanIgnoreZdb(pod) || !pod.ready || IsDisruptedPod(pod.name, zdb)
  }

  /**
   * A pod that bypasses the budget is one the reconciler counts as unhealthy, unless it is up and on record only past
   * its deadline: the handler does not look at deadlines.
   */
  lemma BypassAgreement(pod: Pod, zdb: Zdb, now: Time)
    requires Bypasses(pod, zdb)
    ensures CountsHealthy(pod, zdb.status.disrupted, now)
            <==> Up(pod) && pod.name in zdb.status.disrupted && Deadline(zdb.status.disrupted, pod.name) <= now
  {}

  /** Such a pod: up, with a record that is past its deadline and not yet pruned. */
  lemma ExpiredRecordBypasses(pod: Pod, zdb: Zdb, now: Time)
    requires pod == Pod("web-0", "node", 0, Running, true, false, None, None)
    requires zdb == Zdb(1, Spec(ExpectedPods.Amount(1), false),
                        NO_STATUS.(observedGeneration := 1, disrupted := map["web-0" := 0]))
    requires now == DELETION_TIMEOUT + 1
    ensures Bypasses(pod, zdb) && CountsHealthy(pod, zdb.status.disrupted, now)
  {}

  /** A pod whose eviction is held against a budget: ready, not on its way out, and not over. */
  predicate Protected(pod: Pod) {
    pod.ready && !pod.terminating && (pod.phase == Running || pod.phase == Unknown)
  }

  /** A budgeted pod asks for an allowance exactly when its eviction counts and it is not on record. */
  lemma AsksIff(pod: Pod, zdb: Zdb)
    ensures !Bypasses(pod, zdb) <==> Protected(pod) && pod.name !in zdb.status.disrupted
  {}

  datatype Request = Request(create: bool, eviction: bool, dryRun: Result<bool>)

  datatype Reason = NotCreate | NotEviction | DryRun | Ignored | NotReady | NoZdb | AlreadyDisrupted | DisruptionAllowed

  datatype Response = Allow(reason: Reason) | Deny | Error

  datatype Screening = Answer(response: Response) | Contest(dryRun: bool)

  /** What the list of budgets returns: an error, no budget for the pod, or the first that matches. */
  datatype Found = Unlisted | Unbudgeted | Budget(zdb: Zdb)

  /** The part of the handler before its retry loop. */
  function Screen(request: Request, pod: Option<Pod>, found: Found): Screening {
    if !request.create then Answer(Allow(NotCreate))
    else if !request.eviction then Answer(Allow(NotEviction))
    else if request.dryRun.Err? then Answer(Error)
    else if pod.None? then Answer(if request.dryRun.value then Allow(DryRun) else Error)
    else if CanIgnoreZdb(pod.value) then Answer(Allow(Ignored))
    else if !pod.value.ready then Answer(Allow(NotReady))
    else if found.Unlisted? then Answer(if request.dryRun.value then Allow(DryRun) else Error)
    else if found.Unbudgeted? then Answer(Allow(NoZdb))
    else if IsDisruptedPod(pod.value.name, found.zdb) then Answer(Allow(AlreadyDisrupted))
    else Contest(request.dryRun.value || found.zdb.spec.dryRun)
  }

  /** Without dry run, a budgeted pod is allowed before the retry loop exactly when it bypasses the budget. */
  lemma ScreenedOrBypassed(request: Request, pod: Pod, zdb: Zdb)
    requires request.create && request.eviction && request.dryRun == Ok(false)
    ensures Screen(request, Some(pod), Budget(zdb)).Answer? <==> Bypasses(pod, zdb)
    ensures Bypasses(pod, zdb) ==> Screen(request, Some(pod), Budget(zdb)).response.Allow?
  {}

  /**
   * What one attempt meets: whether the object can be read again, and then how many versions the cache it is read from
   * is behind, what other clients commit in between, the zone, the time.
   */
  datatype Round = Round(readable: bool, behind: nat, others: seq<Zdb>, zone: Option<Zone>, now: Time)

  /** The version a cache hands out that is so many behind the latest. */
  function Cached(latest: nat, behind: nat): nat {
    if behind <= latest then latest - behind else 0
  }

  ghost function Others(rounds: seq<Round>): seq<Zdb> {
    if rounds == [] then [] else Others(rounds[..|rounds| - 1]) + rounds[|rounds| - 1].others
  }

  lemma OthersNext(history: seq<Zdb>, rounds: seq<Round>, k: nat)
    requires k < |rounds|
    ensures history + Others(rounds[..k + 1]) == history + Others(rounds[..k]) + rounds[k].others
  {
    assert rounds[..k + 1][..k] == rounds[..k];
  }

  /** The version of the handler's copy in round k: the one it was given, and after that the one in the cache. */
  ghost function VersionAt(history: seq<Zdb>, version: nat, rounds: seq<Round>, k: nat): nat
    requires version < |history| && k < |rounds|
  {
    if k == 0 then version else Cached(|history + Others(rounds[..k])| - 1, rounds[k].behind)
  }

  ghost function CopyAt(history: seq<Zdb>, version: nat, rounds: seq<Round>, k: nat): Zdb
    requires version < |history| && k < |rounds|
  {
    (history + Others(rounds[..k]))[VersionAt(history, version, rounds, k)]
  }

  /**
   * How a round ends: with another round, for lack of the object, by refusal, by passing in dry run, or with a commit.
   */
  datatype RoundEnd = Again | Unread | Forbidden | DryPass | Commit(status: Status)

  ghost function RoundEndOf(history: seq<Zdb>, version: nat, name: PodName, dryRun: bool, rounds: seq<Round>,
                            k: nat): RoundEnd
    requires version < |history| && k < |rounds|
  {
    if k > 0 && !rounds[k].readable then Unread
    else
      match Decide(CopyAt(history, version, rounds, k), name, rounds[k].zone, dryRun, rounds[k].now)
      case Forbid => Forbidden
      case Permit => DryPass
      case Proceed(status) =>
        if VersionAt(history, version, rounds, k) == |history + Others(rounds[..k + 1])| - 1
        then Commit(status)
        else Again
  }

  /**
   * A round takes the copy the handler was given or, from the second on, what the cache holds at that moment. It ends
   * for lack of the object, by refusal if the copy is not payable, and otherwise by passing in dry run, with a commit
   * if nobody has written since that version, or with another round.
   */
  lemma RoundEndIff(history: seq<Zdb>, version: nat, name: PodName, dryRun: bool, rounds: seq<Round>, k: nat,
                    read: seq<Zdb>, at: nat)
    requires version < |history| && k < |rounds| && read == history + Others(rounds[..k])
    requires at == if k == 0 then version
                   else if rounds[k].behind < |read| then |read| - 1 - rounds[k].behind else 0
    ensures at < |read|
    ensures var end, lost := RoundEndOf(history, version, name, dryRun, rounds, k), k > 0 && !rounds[k].readable;
            && (end.Unread? <==> lost)
            && (end.Forbidden? <==> !lost && !Payable(read[at], rounds[k].zone))
            && (end.DryPass? <==> !lost && Payable(read[at], rounds[k].zone) && dryRun)
            && (end.Commit? <==> !lost && Payable(read[at], rounds[k].zone) && !dryRun
                                 && at == |read| - 1 && rounds[k].others == [])
            && (end.Again? <==> !lost && Payable(read[at], rounds[k].zone) && !dryRun
                                && (at < |read| - 1 || rounds[k].others != []))
  {
    OthersNext(history, rounds, k);
    DecideIff(read[at], name, rounds[k].zone, dryRun, rounds[k].now);
  }

  function Refuse(dryRun: bool): Response {
    if dryRun then Allow(DryRun) else Deny
  }

  ghost predicate AllConflict(history: seq<Zdb>, version: nat, name: PodName, dryRun: bool, rounds: seq<Round>, k: nat)
    requires version < |history| && k <= |rounds|
  {
    forall j :: 0 <= j < k ==> RoundEndOf(history, version, name, dryRun, rounds, j).Again?
  }

  /** The outcome of the retry loop when it ends in round k, or after the last when k is the number of rounds. */
  ghost predicate Contended(history: seq<Zdb>, history': seq<Zdb>, version: nat, name: PodName, dryRun: bool,
                            rounds: seq<Round>, k: nat, response: Response)
    requires version < |history| && k <= |rounds|
  {
    && AllConflict(history, version, name, dryRun, rounds, k)
    && if k == |rounds| then response == Refuse(dryRun) && history' == history + Others(rounds[..k])
       else
         var newest := history + Others(rounds[..k + 1]);
         match RoundEndOf(history, version, name, dryRun, rounds, k)
         case Again => false
         case Unread => response == Refuse(dryRun) && history' == history + Others(rounds[..k])
         case Forbidden => response == Refuse(dryRun) && history' == newest
         case DryPass => response == Allow(DisruptionAllowed) && history' == newest
         case Commit(status) =>
           response == Allow(DisruptionAllowed) && history' == newest + [newest[|newest| - 1].(status := status)]
  }

  /** The handler granted the eviction in round k, on the newest version there was, with a commit of its own. */
  ghost predicate GrantedInRound(history: seq<Zdb>, history': seq<Zdb>, name: PodName, rounds: seq<Round>, k: nat)
    requires history != []
  {
    && k < |rounds|
    && var base := history + Others(rounds[..k + 1]);
       && Payable(base[|base| - 1], rounds[k].zone) && |history'| == |base| + 1 && history'[..|base|] == base
       && IsPaid(base[|base| - 1], history'[|base|], name, rounds[k].zone.value, rounds[k].now)
  }

  /** Nothing but what others have committed. */
  ghost predicate NothingOfItsOwn(history: seq<Zdb>, history': seq<Zdb>, rounds: seq<Round>) {
    exists n :: 0 <= n <= |rounds| && history' == history + Others(rounds[..n])
  }

  lemma CommitIsGrant(history: seq<Zdb>, history': seq<Zdb>, version: nat, name: PodName, rounds: seq<Round>, k: nat,
                      status: Status)
    requires version < |history| && k < |rounds|
    requires RoundEndOf(history, version, name, false, rounds, k) == Commit(status)
    requires var newest := history + Others(rounds[..k + 1]);
             history' == newest + [newest[|newest| - 1].(status := status)]
    ensures GrantedInRound(history, history', name, rounds, k)
  {
    OthersNext(history, rounds, k);
    DecideIff(CopyAt(history, version, rounds, k), name, rounds[k].zone, false, rounds[k].now);
  }

  /**
   * The answer and the store go together: without dry run an eviction is allowed if and only if the handler has made
   * one commit, decided on the newest version, and it is denied otherwise; in dry run it is allowed and there is none.
   */
  lemma AllowedMeansCommitted(history: seq<Zdb>, history': seq<Zdb>, version: nat, name: PodName, dryRun: bool,
                              rounds: seq<Round>, k: nat, response: Response)
    requires version < |history| && k <= |rounds|
    requires Contended(history, history', version, name, dryRun, rounds, k, response)
    ensures !dryRun ==> (response == Allow(DisruptionAllowed) <==> GrantedInRound(history, history', name, rounds, k))
    ensures !dryRun ==> (response == Deny <==> !GrantedInRound(history, history', name, rounds, k))
    ensures dryRun ==> response == Allow(DryRun) || response == Allow(DisruptionAllowed)
    ensures dryRun || response == Deny ==> NothingOfItsOwn(history, history', rounds)
  {
    if k < |rounds| {
      OthersNext(history, rounds, k);
      var end := RoundEndOf(history, version, name, dryRun, rounds, k);
      if end.Commit? {
        DecideIff(CopyAt(history, version, rounds, k), name, rounds[k].zone, dryRun, rounds[k].now);
        CommitIsGrant(history, history', version, name, rounds, k, end.status);
      }
    }
  }

  /**
   * A handler that is denied has met a refusal or an unreadable object, or lost every round to a commit of somebody
   * else, made before it read a copy already out of date or between its read and its own commit.
   */
  lemma DeniedForAReason(history: seq<Zdb>, history': seq<Zdb>, version: nat, name: PodName, rounds: seq<Round>, k: nat)
    requires version < |history| && k <= |rounds|
    requires Contended(history, history', version, name, false, rounds, k, Deny)
    ensures k < |rounds| ==> (k > 0 && !rounds[k].readable)
                             || Decide(CopyAt(history, version, rounds, k), name, rounds[k].zone, false,
                                       rounds[k].now) == Forbid
    ensures forall j :: 0 <= j < k ==>
              VersionAt(history, version, rounds, j) < |history + Others(rounds[..j])| - 1 || rounds[j].others != []
  {
    forall j | 0 <= j < k
      ensures VersionAt(history, version, rounds, j) < |history + Others(rounds[..j])| - 1 || rounds[j].others != []
    {
      assert RoundEndOf(history, version, name, false, rounds, j).Again?;
      OthersNext(history, rounds, j);
      assert rounds[..0] == [];
    }
  }

  /** The function that is retried. Other clients write between the read of the object and the commit. */
  method TryOnce(name: PodName, zdb: Copy, store: Store, refresh: bool, dryRun: bool, round: Round)
    returns (result: AttemptResult)
    requires store.Valid()
    modifies zdb, store
    ensures store.Valid()
    ensures refresh && !round.readable ==> result == Refused && store.history == old(store.history)
    ensures !(refresh && !round.readable) ==>
              var cached := Cached(old(store.Latest()), round.behind);
              var at, copy := if refresh then cached else old(zdb.version),
                              if refresh then old(store.history)[cached] else old(zdb.Value());
              var newest := old(store.history) + round.others;
              match Decide(copy, name, round.zone, dryRun, round.now)
              case Forbid => result == Refused && store.history == newest
              case Permit => result == Passed && store.history == newest
              case Proceed(status) =>
                if at == |newest| - 1
                then result == Committed && store.history == newest + [newest[|newest| - 1].(status := status)]
                else result == Conflicted && store.history == newest
  {
    if refresh {
      if !round.readable {
        return Refused;
      }
      var cached := Cached(store.Latest(), round.behind);
      zdb.Refresh(cached, store.history[cached]);
    }
    store.history := store.history + round.others;
    result := CheckAndDecrement(name, zdb, store, round.zone, dryRun, round.now);
  }

  /** The retry loop: what it answers and leaves in the store, whatever other clients do meanwhile. */
  method Contend(name: PodName, zdb: Copy, store: Store, dryRun: bool, rounds: seq<Round>)
    returns (response: Response, ghost k: nat)
    requires store.Valid() && zdb.version < |store.history| && zdb.Value() == store.history[zdb.version]
    requires |rounds| == 20
    modifies zdb, store
    ensures store.Valid() && k <= 20
    ensures Contended(old(store.history), store.history, old(zdb.version), name, dryRun, rounds, k, response)
    ensures !dryRun ==> response == if GrantedInRound(old(store.history), store.history, name, rounds, k)
                                    then Allow(DisruptionAllowed) else Deny
    ensures dryRun ==> response.Allow?
    ensures dryRun || response == Deny ==> NothingOfItsOwn(old(store.history), store.history, rounds)
  {
    ghost var history, version := store.history, zdb.version;
    var refresh := false;
    var step := 0;
    while step < EVICTION_STEPS
      invariant 0 <= step <= EVICTION_STEPS
      invariant store.Valid() && store.history == history + Others(rounds[..step])
      invariant refresh <==> step > 0
      invariant !refresh ==> zdb.version == version && zdb.Value() == history[version]
      invariant AllConflict(history, version, name, dryRun, rounds, step)
    {
      OthersNext(history, rounds, step);
      var result := TryOnce(name, zdb, store, refresh, dryRun, rounds[step]);
      if result == Committed || result == Passed {
        response, k := Allow(DisruptionAllowed), step;
        AllowedMeansCommitted(history, store.history, version, name, dryRun, rounds, k, response);
        return;
      }
      if result == Refused {
        response, k := if dryRun then Allow(DryRun) else Deny, step;
        AllowedMeansCommitted(history, store.history, version, name, dryRun, rounds, k, response);
        return;
      }
      refresh := true;
      step := step + 1;
    }
    response, k := if dryRun then Allow(DryRun) else Deny, step;
    AllowedMeansCommitted(history, store.history, version, name, dryRun, rounds, k, response);
  }

  predicate IsEviction(request: Request) {
    request.create && request.eviction && request.dryRun.Ok?
  }

  method Handle(request: Request, pod: Option<Pod>, found: Found, version: nat, store: Store, rounds: seq<Round>)
    returns (response: Response, ghost k: nat)
    requires store.Valid() && |rounds| == 20
    requires found.Budget? ==> version < |store.history| && store.history[version] == found.zdb
    modifies store
    ensures store.Valid() && k <= 20
    ensures !request.create ==> response == Allow(NotCreate) && store.history == old(store.history)
    ensures request.create && !request.eviction
            ==> response == Allow(NotEviction) && store.history == old(store.history)
    ensures request.create && request.eviction && request.dryRun.Err?
            ==> response == Error && store.history == old(store.history)
    ensures IsEviction(request) && (pod.None? || (Protected(pod.value) && found.Unlisted?))
            ==> response == (if request.dryRun.value then Allow(DryRun) else Error)
                && store.history == old(store.history)
    ensures IsEviction(request) && pod.Some? && !Protected(pod.value)
            ==> response == Allow(if pod.value.terminating || pod.value.phase !in {Running, Unknown} then Ignored
                                  else NotReady)
                && store.history == old(store.history)
    ensures IsEviction(request) && pod.Some? && Protected(pod.value) && found.Unbudgeted?
            ==> response == Allow(NoZdb) && store.history == old(store.history)
    ensures IsEviction(request) && pod.Some? && Protected(pod.value) && found.Budget?
            && pod.value.name in found.zdb.status.disrupted
            ==> response == Allow(AlreadyDisrupted) && store.history == old(store.history)
    ensures request.dryRun == Ok(true) || (IsEviction(request) && pod.Some? && found.Budget? && found.zdb.spec.dryRun)
            ==> response.Allow? && NothingOfItsOwn(old(store.history), store.history, rounds)
    ensures IsEviction(request) && pod.Some? && Protected(pod.value) && found.Budget?
            && pod.value.name !in found.zdb.status.disrupted && !request.dryRun.value && !found.zdb.spec.dryRun
            ==> response == if GrantedInRound(old(store.history), store.history, pod.value.name, rounds, k)
                            then Allow(DisruptionAllowed) else Deny
    ensures response == Deny || response == Error ==> NothingOfItsOwn(old(store.history), store.history, rounds)
    ensures match Screen(request, pod, found) {
              case Answer(answer) => response == answer && store.history == old(store.history)
              case Contest(dryRun) =>
                Contended(old(store.history), store.history, version, pod.value.name, dryRun, rounds, k, response)
            }
  {
    k := 0;
    assert store.history == old(store.history) + Others(rounds[..0]);
    if !request.create {
      return Allow(NotCreate), k;
    }
    if !request.eviction {
      return Allow(NotEviction), k;
    }
    if request.dryRun.Err? {
      return Error, k;
    }
    var dryRun := request.dryRun.value;
    if pod.None? {
      return (if dryRun then Allow(DryRun) else Error), k;
    }
    if CanIgnoreZdb(pod.value) {
      return Allow(Ignored), k;
    }
    if !pod.value.ready {
      return Allow(NotReady), k;
    }
    match found {
      case Unlisted =>
        return (if dryRun then Allow(DryRun) else Error), k;
      case Unbudgeted =>
        return Allow(NoZdb), k;
      case Budget(zdb) =>
        dryRun := dryRun || zdb.spec.dryRun;
        if IsDisruptedPod(pod.value.name, zdb) {
          return Allow(AlreadyDisrupted), k;
        }
        var copy := new Copy(version, zdb);
        response, k := Contend(pod.value.name, copy, store, dryRun, rounds);
    }
  }
}
