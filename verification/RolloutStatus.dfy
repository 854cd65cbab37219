/** What the recorded status means over a sequence of reconciles: old replicas per zone, and the step of the ramp. */
module RolloutStatus {
  import opened Seqs
  import opened Pods
  import opened ExpectedPods
  import opened ZauController

  // ---------- old replicas ----------

  /** One call of updateZauStatus. */
  datatype Call = Call(sts: Sts, step: nat, deleted: int, counts: map<Zone, int>, paused: bool)

  function Replay(status: ZauStatus, calls: seq<Call>): ZauStatus {
    if calls == [] then status
    else
      var call := calls[|calls| - 1];
      Recorded(Replay(status, calls[..|calls| - 1]), call.sts, call.step, call.deleted, call.counts, call.paused)
  }

  function Count(m: map<Zone, int>, z: Zone): int {
    if z in m then m[z] else 0
  }

  function ZonesSeen(calls: seq<Call>): set<Zone> {
    if calls == [] then {} else ZonesSeen(calls[..|calls| - 1]) + calls[|calls| - 1].counts.Keys
  }

  /**
   * After any calls the record shows the latest count of every zone, zero for zones without old pods, and forgets no
   * zone.
   */
  lemma {:induction false} RecordShowsLatest(status: ZauStatus, calls: seq<Call>)
    requires calls != []
    ensures forall z :: Count(Replay(status, calls).oldReplicas, z) == Count(calls[|calls| - 1].counts, z)
    ensures Replay(status, calls).oldReplicas.Keys == status.oldReplicas.Keys + ZonesSeen(calls)
  {
    var front := calls[..|calls| - 1];
    if front != [] {
      RecordShowsLatest(status, front);
    } else {
      assert ZonesSeen(calls) == ZonesSeen(front) + calls[|calls| - 1].counts.Keys;
    }
  }

  /** Repeating a call changes nothing. */
  lemma RepeatIsIdle(status: ZauStatus, call: Call)
    ensures Replay(status, [call, call]) == Replay(status, [call])
  {}

  // ---------- the ramp ----------

  /** What a reconcile may add to the record: a finished batch, the end of a rollout, or a pause. */
  datatype Entry =
    | BatchDone(sts: Sts, size: int, counts: map<Zone, int>)
    | Finished(sts: Sts)
    | PausedFor(sts: Sts, counts: map<Zone, int>)

  function Apply(status: ZauStatus, entry: Entry): ZauStatus {
    match entry
    case BatchDone(sts, size, counts) =>
      Recorded(status, sts, EffectiveStep(status, sts.updateRevision) + 1, size, counts, false)
    case Finished(sts) => Recorded(status, sts, 0, 0, map[], false)
    case PausedFor(sts, counts) => Recorded(status, sts, status.step, status.deleted, counts, true)
  }

  function ApplyAll(status: ZauStatus, log: seq<Entry>): ZauStatus {
    if log == [] then status else Apply(ApplyAll(status, log[..|log| - 1]), log[|log| - 1])
  }

  function RevisionOf(entry: Entry): string {
    entry.sts.updateRevision
  }

  /** Batches finished since the recorded revision last changed or the rollout last ended. */
  function BatchesInRamp(log: seq<Entry>): nat {
    if log == [] then 0
    else
      var front, last := log[..|log| - 1], log[|log| - 1];
      if !last.BatchDone? then 0
      else if front == [] || RevisionOf(front[|front| - 1]) != RevisionOf(last) then 1
      else BatchesInRamp(front) + 1
  }

  ghost predicate NoPause(log: seq<Entry>) {
    forall i :: 0 <= i < |log| ==> !log[i].PausedFor?
  }

  /** Without pauses the step is the number of batches of the ramp in progress. */
  lemma {:induction false} StepCountsBatches(status: ZauStatus, log: seq<Entry>)
    requires NoPause(log) && status.step == 0
    ensures ApplyAll(status, log).step == BatchesInRamp(log)
    ensures log != [] ==> ApplyAll(status, log).updateRevision == RevisionOf(log[|log| - 1])
  {
    if log != [] {
      StepCountsBatches(status, log[..|log| - 1]);
    }
  }

  // ---------- whole runs of reconciles ----------

  /** What one reconcile finds, and how the API server answers it. */
  datatype Turn = Turn(pods: seq<Pod>, zoneOf: map<PodName, Zone>, sts: Sts, alarm: Alarm, server: Server)

  ghost function PlanOf(spec: ZauSpec, turn: Turn): Plan {
    PlanFor(turn.pods, turn.zoneOf, turn.sts, spec, turn.alarm)
  }

  ghost function CountsOf(turn: Turn): map<Zone, int> {
    FreshCounts(turn.pods, turn.zoneOf, turn.sts.updateRevision)
  }

  ghost function Take(spec: ZauSpec, status: ZauStatus, turn: Turn): Effect {
    EffectOf(PlanOf(spec, turn), spec, status, turn.sts, CountsOf(turn), turn.server)
  }

  /** The status the API server holds after a reconcile: an update it refuses is gone with the copy it was made on. */
  ghost function Stored(spec: ZauSpec, status: ZauStatus, turn: Turn): ZauStatus {
    if turn.server.savesStatus then Take(spec, status, turn).status else status
  }

  /** The stored status after a run of reconciles, each of which reads what the one before has left. */
  ghost function StatusAfter(spec: ZauSpec, status: ZauStatus, turns: seq<Turn>): ZauStatus {
    if turns == [] then status
    else Stored(spec, StatusAfter(spec, status, turns[..|turns| - 1]), turns[|turns| - 1])
  }

  ghost predicate Cleared(status: ZauStatus, revision: string) {
    && status.step == 0 && status.updateRevision == revision && status.currentRevision == revision
    && forall z :: Count(status.oldReplicas, z) == 0
  }

  /**
   * A reconcile that finds no old pod either succeeds, and then the stored record reads zero everywhere, for the same
   * zones and any new ones, with the ramp back at its start; or it fails, and then nothing has been stored.
   */
  lemma CompletionClears(spec: ZauSpec, status: ZauStatus, turn: Turn)
    requires PlanOf(spec, turn).Complete?
    ensures Take(spec, status, turn).outcome == Done || Take(spec, status, turn).outcome == Failure
    ensures Take(spec, status, turn).outcome == Done
            ==> Cleared(Stored(spec, status, turn), turn.sts.updateRevision)
                && Stored(spec, status, turn).oldReplicas.Keys == status.oldReplicas.Keys
    ensures Take(spec, status, turn).outcome == Failure ==> Stored(spec, status, turn) == status
  {}

  /** All deletes of a batch of n go through, if there are any to issue. */
  predicate GoesThrough(spec: ZauSpec, server: Server, n: int) {
    spec.dryRun || server.refusesDelete.None? || server.refusesDelete.value >= n
  }

  ghost function SizeOf(spec: ZauSpec, status: ZauStatus, turn: Turn): Result<int>
    requires PlanOf(spec, turn).Delete?
  {
    BatchSize(spec, status, turn.sts, |PlanOf(spec, turn).pool|)
  }

  /** The reconcile has come to its end, and its update is saved. */
  ghost predicate IsRecorded(spec: ZauSpec, status: ZauStatus, turn: Turn) {
    turn.server.savesStatus
    && match PlanOf(spec, turn)
       case Delete(_) =>
         SizeOf(spec, status, turn).Ok? && GoesThrough(spec, turn.server, SizeOf(spec, status, turn).value)
       case Complete => turn.server.savesRevision || turn.sts.currentRevision == turn.sts.updateRevision
       case Pause => true
       case _ => false
  }

  ghost function EntryOf(spec: ZauSpec, status: ZauStatus, turn: Turn): Entry
    requires IsRecorded(spec, status, turn)
  {
    match PlanOf(spec, turn)
    case Delete(_) => BatchDone(turn.sts, SizeOf(spec, status, turn).value, CountsOf(turn))
    case Pause => PausedFor(turn.sts, CountsOf(turn))
    case _ => Finished(turn.sts.(currentRevision := turn.sts.updateRevision))
  }

  lemma DeletionIsEntry(spec: ZauSpec, status: ZauStatus, sts: Sts, pool: seq<Pod>, counts: map<Zone, int>,
                        server: Server, size: Result<int>)
    requires size == BatchSize(spec, status, sts, |pool|)
    ensures DeleteEffect(spec, status, sts, pool, counts, server).status
            == if size.Ok? && GoesThrough(spec, server, size.value) then
                 Apply(status, BatchDone(sts, size.value, counts))
               else status
  {}

  /**
   * A reconcile changes the stored status by a batch all of whose deletes have gone through, by the end of the rollout
   * once the revision of the set is up to date, or by a pause, each if the update is saved; otherwise not at all.
   */
  lemma EffectsAreEntries(spec: ZauSpec, status: ZauStatus, turn: Turn)
    ensures Stored(spec, status, turn)
            == if IsRecorded(spec, status, turn) then Apply(status, EntryOf(spec, status, turn)) else status
  {
    var plan := PlanOf(spec, turn);
    if plan.Delete? {
      DeletionIsEntry(spec, status, turn.sts, plan.pool, CountsOf(turn), turn.server, SizeOf(spec, status, turn));
    }
  }

  /** What a reconcile adds to the log: nothing unless it changes the stored status. */
  ghost function Logged(spec: ZauSpec, status: ZauStatus, turn: Turn): seq<Entry> {
    var after := Stored(spec, status, turn);
    if after == status then []
    else
      match PlanOf(spec, turn)
      case Delete(_) => [BatchDone(turn.sts, after.deleted, CountsOf(turn))]
      case Complete => [Finished(turn.sts.(currentRevision := turn.sts.updateRevision))]
      case Pause => [PausedFor(turn.sts, CountsOf(turn))]
      case _ => []
  }

  ghost function Log(spec: ZauSpec, status: ZauStatus, turns: seq<Turn>): seq<Entry> {
    if turns == [] then []
    else
      var front := turns[..|turns| - 1];
      Log(spec, status, front) + Logged(spec, StatusAfter(spec, status, front), turns[|turns| - 1])
  }

  ghost predicate SavesPause(spec: ZauSpec, turn: Turn) {
    PlanOf(spec, turn).Pause? && turn.server.savesStatus
  }

  ghost predicate NoSavedPause(spec: ZauSpec, turns: seq<Turn>) {
    forall i :: 0 <= i < |turns| ==> !SavesPause(spec, turns[i])
  }

  lemma TurnIsLogged(spec: ZauSpec, status: ZauStatus, turn: Turn)
    ensures var more := Logged(spec, status, turn);
            && Stored(spec, status, turn) == (if more == [] then status else Apply(status, more[0]))
            && |more| <= 1 && (!SavesPause(spec, turn) ==> NoPause(more))
  {
    EffectsAreEntries(spec, status, turn);
  }

  /** The log of a run of reconciles accounts for the status they leave in the store. */
  lemma {:induction false} RunIsLogged(spec: ZauSpec, status: ZauStatus, turns: seq<Turn>)
    ensures StatusAfter(spec, status, turns) == ApplyAll(status, Log(spec, status, turns))
    ensures NoSavedPause(spec, turns) ==> NoPause(Log(spec, status, turns))
  {
    if turns != [] {
      var front, last := turns[..|turns| - 1], turns[|turns| - 1];
      RunIsLogged(spec, status, front);
      TurnIsLogged(spec, StatusAfter(spec, status, front), last);
      var before, log := Log(spec, status, front), Log(spec, status, turns);
      assert log == before || log[..|log| - 1] == before;
    }
  }

  // ---------- the ramp over whole runs ----------

  /** Batches of the given revision in the ramp in progress. */
  function BatchesAt(log: seq<Entry>, revision: string): nat {
    if log != [] && RevisionOf(log[|log| - 1]) == revision then BatchesInRamp(log) else 0
  }

  lemma StepIsBatchesAt(status: ZauStatus, log: seq<Entry>, revision: string)
    requires NoPause(log) && status.step == 0
    ensures EffectiveStep(ApplyAll(status, log), revision) == BatchesAt(log, revision)
  {
    StepCountsBatches(status, log);
  }

  lemma StepAfter(spec: ZauSpec, status: ZauStatus, turns: seq<Turn>, log: seq<Entry>, revision: string)
    requires status.step == 0 && NoSavedPause(spec, turns) && log == Log(spec, status, turns)
    ensures EffectiveStep(StatusAfter(spec, status, turns), revision) == BatchesAt(log, revision)
  {
    RunIsLogged(spec, status, turns);
    StepIsBatchesAt(status, log, revision);
  }

  /**
   * Deletions stay within the limit for the step, whether they all go through or not, and so does the size recorded.
   */
  lemma DeletionsAreCapped(spec: ZauSpec, status: ZauStatus, sts: Sts, pool: seq<Pod>, counts: map<Zone, int>,
                           server: Server, limit: int, factor: real)
    requires spec.factor == Some(factor) && Scaled(spec.maxUnavailable, sts.replicas) == Ok(limit)
    ensures var effect := DeleteEffect(spec, status, sts, pool, counts, server);
            var cap := Cap(limit, EffectiveStep(status, sts.updateRevision), factor);
            && |effect.deleted| <= Max(0, cap)
            && (effect.status != status ==> effect.status.deleted <= cap)
  {
    var cap := Cap(limit, EffectiveStep(status, sts.updateRevision), factor);
    assert BatchSize(spec, status, sts, |pool|) == Ok(Min(|pool|, cap));
  }

  lemma TurnIsCapped(spec: ZauSpec, status: ZauStatus, turn: Turn, limit: int, factor: real)
    requires spec.factor == Some(factor) && Scaled(spec.maxUnavailable, turn.sts.replicas) == Ok(limit)
    ensures |Take(spec, status, turn).deleted|
            <= Max(0, Cap(limit, EffectiveStep(status, turn.sts.updateRevision), factor))
  {
    var plan := PlanOf(spec, turn);
    if plan.Delete? {
      DeletionsAreCapped(spec, status, turn.sts, plan.pool, CountsOf(turn), turn.server, limit, factor);
    }
  }

  lemma EntryIsCapped(spec: ZauSpec, status: ZauStatus, turn: Turn, entry: Entry, factor: real)
    requires spec.factor == Some(factor) && Logged(spec, status, turn) == [entry] && entry.BatchDone?
    ensures entry.sts == turn.sts && Scaled(spec.maxUnavailable, turn.sts.replicas).Ok?
    ensures entry.size <= Cap(Scaled(spec.maxUnavailable, turn.sts.replicas).value,
                              EffectiveStep(status, turn.sts.updateRevision), factor)
  {
    EffectsAreEntries(spec, status, turn);
  }

  /**
   * The ramp, for every run of reconciles that saves no pause: whatever revisions they find, whichever of their deletes
   * and updates are refused, each deletes at most the limit for as many batches as have been recorded for its revision
   * since that was recorded, so the first at most one pod.
   */
  lemma RampOverRuns(spec: ZauSpec, status: ZauStatus, turns: seq<Turn>, turn: Turn, limit: int, factor: real)
    requires status.step == 0 && NoSavedPause(spec, turns)
    requires spec.factor == Some(factor) && Scaled(spec.maxUnavailable, turn.sts.replicas) == Ok(limit)
    ensures var recorded := BatchesAt(Log(spec, status, turns), turn.sts.updateRevision);
            var deleted := Take(spec, StatusAfter(spec, status, turns), turn).deleted;
            && |deleted| <= Max(0, Cap(limit, recorded, factor))
            && (recorded == 0 && factor != 0.0 ==> |deleted| <= 1)
  {
    StepAfter(spec, status, turns, Log(spec, status, turns), turn.sts.updateRevision);
    TurnIsCapped(spec, StatusAfter(spec, status, turns), turn, limit, factor);
    assert Pow(factor, 0) == 1.0;
  }

  /** The reconcile that an entry of the log comes from, and the status it has found. */
  lemma {:induction false} TurnOf(spec: ZauSpec, status: ZauStatus, turns: seq<Turn>, log: seq<Entry>, i: nat,
                                  revision: string)
    returns (j: nat, found: ZauStatus)
    requires status.step == 0 && NoSavedPause(spec, turns) && log == Log(spec, status, turns) && i < |log|
    ensures j < |turns| && Logged(spec, found, turns[j]) == [log[i]]
    ensures EffectiveStep(found, revision) == BatchesAt(log[..i], revision)
    decreases turns
  {
    var front, last := turns[..|turns| - 1], turns[|turns| - 1];
    var before := Log(spec, status, front);
    assert NoSavedPause(spec, front);
    if i < |before| {
      j, found := TurnOf(spec, status, front, before, i, revision);
      assert before[..i] == log[..i];
    } else {
      j, found := |turns| - 1, StatusAfter(spec, status, front);
      TurnIsLogged(spec, found, last);
      StepAfter(spec, status, front, before, revision);
      assert log[..i] == before;
    }
  }

  lemma BatchFollows(log: seq<Entry>, i: nat)
    requires i < |log| && log[i].BatchDone?
    ensures BatchesInRamp(log[..i + 1]) == BatchesAt(log[..i], RevisionOf(log[i])) + 1
  {
    assert log[..i + 1][..i] == log[..i];
  }

  /**
   * In the same runs, the k-th batch recorded since the recorded revision changed is within the k-th limit of the ramp,
   * for the replicas its own reconcile has found.
   */
  lemma RampRestarts(spec: ZauSpec, status: ZauStatus, turns: seq<Turn>, factor: real, log: seq<Entry>, i: nat, k: nat)
    requires status.step == 0 && NoSavedPause(spec, turns) && spec.factor == Some(factor)
    requires log == Log(spec, status, turns) && i < |log| && log[i].BatchDone? && k == BatchesInRamp(log[..i + 1])
    ensures k >= 1 && Scaled(spec.maxUnavailable, log[i].sts.replicas).Ok?
    ensures log[i].size <= Cap(Scaled(spec.maxUnavailable, log[i].sts.replicas).value, k - 1, factor)
  {
    var j, found := TurnOf(spec, status, turns, log, i, RevisionOf(log[i]));
    BatchFollows(log, i);
    EntryIsCapped(spec, found, turns[j], log[i], factor);
  }

  // ---------- pauses ----------

  /** Reconciles that find the given revision and record neither a batch nor the end of a rollout. */
  ghost predicate Idle(spec: ZauSpec, turns: seq<Turn>, revision: string) {
    forall i :: 0 <= i < |turns| ==>
      && turns[i].sts.updateRevision == revision
      && (turns[i].server.savesStatus ==> !PlanOf(spec, turns[i]).Delete? && !PlanOf(spec, turns[i]).Complete?)
  }

  /**
   * With pauses it is different. In the middle of a ramp, when a new revision appears, the next batch starts the ramp
   * over if and only if no pause has been saved since: a saved pause puts the new revision next to the old step.
   */
  lemma {:induction false} RampRestartsUnlessPaused(spec: ZauSpec, status: ZauStatus, turns: seq<Turn>,
                                                    revision: string)
    requires status.step > 0 && status.updateRevision != revision && Idle(spec, turns, revision)
    ensures EffectiveStep(StatusAfter(spec, status, turns), revision)
            == (if NoSavedPause(spec, turns) then 0 else status.step)
    ensures EffectiveStep(StatusAfter(spec, status, turns), revision) == 0 <==> NoSavedPause(spec, turns)
    ensures StatusAfter(spec, status, turns).step == status.step
    ensures NoSavedPause(spec, turns) ==> StatusAfter(spec, status, turns) == status
  {
    if turns != [] {
      var front, last := turns[..|turns| - 1], turns[|turns| - 1];
      RampRestartsUnlessPaused(spec, status, front, revision);
      assert NoSavedPause(spec, turns) <==> NoSavedPause(spec, front) && !SavesPause(spec, last) by {
        assert turns == front + [last];
      }
      IdleTurn(spec, StatusAfter(spec, status, front), last);
    }
  }

  lemma IdleTurn(spec: ZauSpec, status: ZauStatus, turn: Turn)
    requires turn.server.savesStatus ==> !PlanOf(spec, turn).Delete? && !PlanOf(spec, turn).Complete?
    ensures !SavesPause(spec, turn) ==> Stored(spec, status, turn) == status
    ensures SavesPause(spec, turn) ==> Stored(spec, status, turn).step == status.step
                                       && Stored(spec, status, turn).updateRevision == turn.sts.updateRevision
  {}

  /**
   * For instance: four steps into a ramp, one saved pause lets the first batch of a new revision delete sixteen pods.
   */
  lemma PausedRampJumps(spec: ZauSpec, status: ZauStatus, turn: Turn)
    requires status == ZauStatus("a", "b", map[], 4, 8, false) && turn.sts == Sts(true, "a", "c", 99, 99)
    requires SavesPause(spec, turn)
    ensures Cap(20, EffectiveStep(status, "c"), 2.0) == 1
    ensures Cap(20, EffectiveStep(Stored(spec, status, turn), "c"), 2.0) == 16
  {
    IdleTurn(spec, status, turn);
    PowersOfTwo();
  }

  lemma {:induction false} LogRevisions(spec: ZauSpec, status: ZauStatus, turns: seq<Turn>, log: seq<Entry>,
                                        revision: string)
    requires log == Log(spec, status, turns) && forall i :: 0 <= i < |turns| ==> turns[i].sts.updateRevision == revision
    ensures forall i :: 0 <= i < |log| ==> RevisionOf(log[i]) == revision
  {
    if turns != [] {
      var front := turns[..|turns| - 1];
      LogRevisions(spec, status, front, Log(spec, status, front), revision);
    }
  }

  /**
   * And an update that is refused is forgotten. When a ramp is left for another revision and then gone back to, it goes
   * on where it was if and only if nothing saved has changed the status meanwhile, however many pods were deleted;
   * otherwise it starts over.
   */
  lemma RampGoesOnIffNothingSaved(spec: ZauSpec, status: ZauStatus, turns: seq<Turn>, other: string)
    requires status.step > 0 && status.updateRevision != other
    requires forall i :: 0 <= i < |turns| ==> turns[i].sts.updateRevision == other
    ensures EffectiveStep(StatusAfter(spec, status, turns), status.updateRevision)
            == if Log(spec, status, turns) == [] then status.step else 0
  {
    var log := Log(spec, status, turns);
    RunIsLogged(spec, status, turns);
    LogRevisions(spec, status, turns, log, other);
    if log != [] {
      assert RevisionOf(log[|log| - 1]) == other;
    }
  }

  /** For instance: a batch of a new revision deletes its one pod, and then the revision goes back. */
  lemma RefusedUpdateIsForgotten(spec: ZauSpec, status: ZauStatus, turn: Turn)
    requires status == ZauStatus("a", "b", map[], 4, 8, false) && turn.sts == Sts(true, "a", "c", 99, 99)
    requires !turn.server.savesStatus
    ensures Cap(20, EffectiveStep(status, turn.sts.updateRevision), 2.0) == 1
    ensures Cap(20, EffectiveStep(Stored(spec, status, turn), "b"), 2.0) == 16
  {
    PowersOfTwo();
  }

  lemma PowersOfTwo()
    ensures Pow(2.0, 0) == 1.0 && Pow(2.0, 4) == 16.0
  {
    assert Pow(2.0, 1) == 2.0 * Pow(2.0, 0);
    assert Pow(2.0, 2) == 2.0 * Pow(2.0, 1);
    assert Pow(2.0, 3) == 2.0 * Pow(2.0, 2);
    assert Pow(2.0, 4) == 2.0 * Pow(2.0, 3);
  }
}
