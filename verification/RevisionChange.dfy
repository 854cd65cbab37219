/** Changing the revision in the middle of a rollout, any number of times: the pods updated last go first. */
module RevisionChange {
  import opened Seqs
  import opened Pods
  import opened ZauController
  import opened RolloutOrder
  import opened CleanRollout

  ghost predicate AllAt(pods: seq<Pod>, revision: string) {
    forall p :: p in pods ==> p.revision == Some(revision)
  }

  /** d is the system after n rounds, that is n reconciles that found old pods. */
  ghost predicate Reaches(s: System, n: nat, d: System)
    decreases n
  {
    if n == 0 then s == d else OldPods(s) != [] && Reaches(Next(s), n - 1, d)
  }

  function Redirected(s: System, revision: string): System {
    s.(sts := s.sts.(updateRevision := revision))
  }

  /** How late the pod's revision has appeared. */
  function Rank(revs: seq<string>, p: Pod): int {
    if p.revision.Some? && p.revision.value in revs then IndexOf(revs, p.revision.value) else -1
  }

  /** All pods are at some of these revisions, and those at later ones come first in the documented order. */
  ghost predicate Layered(s: System, revs: seq<string>) {
    && Distinct(revs)
    && (forall p :: p in s.pods ==> p.revision.Some? && p.revision.value in revs)
    && forall p, q :: p in s.pods && q in s.pods && Rank(revs, p) > Rank(revs, q) ==> InSequence(s.zoneOf)(p, q)
  }

  /** In a total order whatever is in the head comes before whatever is not. */
  lemma HeadBefore(pods: seq<Pod>, zoneOf: map<PodName, Zone>, n: nat, p: Pod, q: Pod)
    requires DistinctOrdinals(pods) && n <= |Canon(pods, zoneOf)|
    requires p in Canon(pods, zoneOf)[..n] && q in pods && q !in Canon(pods, zoneOf)[..n]
    ensures InSequence(zoneOf)(p, q)
  {
    var canon := Canon(pods, zoneOf);
    CanonIsOrdered(pods, zoneOf);
    var i :| 0 <= i < n && canon[i] == p;
    assert q in canon;
    var j := IndexOf(canon, q);
    assert forall l :: 0 <= l < n ==> canon[l] in canon[..n];
    assert j >= n;
    assert !InSequence(zoneOf)(canon[j], canon[i]);
    assert p in canon[..n] && p != q;
    assert canon[i] in canon;
    SequenceIsTotal(pods, zoneOf, p, q);
  }

  /** The order looks only at names and ordinals. */
  lemma SameSequence(zoneOf: map<PodName, Zone>, p: Pod, q: Pod, p': Pod, q': Pod)
    requires p.name == p'.name && p.ordinal == p'.ordinal && q.name == q'.name && q.ordinal == q'.ordinal
    ensures InSequence(zoneOf)(p, q) == InSequence(zoneOf)(p', q')
  {}

  lemma {:induction false} IndexIs(revs: seq<string>, i: nat)
    requires Distinct(revs) && i < |revs|
    ensures revs[i] in revs && IndexOf(revs, revs[i]) == i
  {}

  /** A round puts the head of the old pods at the newest revision, and so behind none that is older. */
  lemma RoundKeepsLayers(s: System, revs: seq<string>, d: System)
    requires Clean(s) && OldPods(s) != [] && Layered(s, revs) && revs != []
    requires s.sts.updateRevision == revs[|revs| - 1] && d == Next(s)
    ensures Layered(d, revs)
  {
    var newest, canon := |revs| - 1, Canon(OldPods(s), s.zoneOf);
    ReconcileDeletesHead(s);
    OldPodsAreClean(s);
    FilterMembers(s.pods, IsOld(s.sts.updateRevision));
    IndexIs(revs, newest);
    var n := HeadSize(canon, s.zoneOf, Ramp(s)(Step(s)));
    RenewedRevisions(s.pods, canon[..n], revs, d.pods);
    RenewedLayers(s.pods, OldPods(s), s.zoneOf, revs, n, d.pods);
  }

  lemma RenewedRevisions(pods: seq<Pod>, batch: seq<Pod>, revs: seq<string>, after: seq<Pod>)
    requires revs != [] && forall p :: p in pods ==> p.revision.Some? && p.revision.value in revs
    requires after == Renewed(pods, batch, revs[|revs| - 1])
    ensures forall p :: p in after ==> p.revision.Some? && p.revision.value in revs
  {
    forall p | p in after ensures p.revision.Some? && p.revision.value in revs {
      var i :| 0 <= i < |after| && after[i] == p;
      assert pods[i] in pods;
    }
  }

  /** The same, for the pods alone: the first n of the old ones are renewed. */
  lemma RenewedLayers(pods: seq<Pod>, oldPods: seq<Pod>, zoneOf: map<PodName, Zone>, revs: seq<string>, n: nat,
                      after: seq<Pod>)
    requires Distinct(revs) && revs != [] && IndexOf(revs, revs[|revs| - 1]) == |revs| - 1
    requires forall p :: p in pods ==> p.revision.Some? && p.revision.value in revs
    requires forall p, q :: p in pods && q in pods && Rank(revs, p) > Rank(revs, q) ==> InSequence(zoneOf)(p, q)
    requires forall p :: p in oldPods <==> p in pods && IsOld(revs[|revs| - 1])(p)
    requires DistinctOrdinals(oldPods) && n <= |Canon(oldPods, zoneOf)|
    requires after == Renewed(pods, Canon(oldPods, zoneOf)[..n], revs[|revs| - 1])
    ensures forall p, q :: p in after && q in after && Rank(revs, p) > Rank(revs, q) ==> InSequence(zoneOf)(p, q)
  {
    forall i, j | 0 <= i < |after| && 0 <= j < |after| && Rank(revs, after[i]) > Rank(revs, after[j])
      ensures InSequence(zoneOf)(after[i], after[j])
    {
      assert pods[i] in pods && pods[j] in pods;
      RenewedPair(pods[i], pods[j], after[i], after[j], oldPods, zoneOf, revs, n);
    }
  }

  lemma RenewedPair(p: Pod, q: Pod, p': Pod, q': Pod, oldPods: seq<Pod>, zoneOf: map<PodName, Zone>, revs: seq<string>,
                    n: nat)
    requires Distinct(revs) && revs != [] && IndexOf(revs, revs[|revs| - 1]) == |revs| - 1
    requires DistinctOrdinals(oldPods) && n <= |Canon(oldPods, zoneOf)|
    requires q.revision.Some? && q.revision.value in revs && (IsOld(revs[|revs| - 1])(q) ==> q in oldPods)
    requires Rank(revs, p) > Rank(revs, q) ==> InSequence(zoneOf)(p, q)
    requires var batch, newest := Canon(oldPods, zoneOf)[..n], revs[|revs| - 1];
             && p' == (if p in batch then p.(revision := Some(newest)) else p)
             && q' == (if q in batch then q.(revision := Some(newest)) else q)
    requires Rank(revs, p') > Rank(revs, q')
    ensures InSequence(zoneOf)(p', q')
  {
    var batch := Canon(oldPods, zoneOf)[..n];
    assert q !in batch;
    if p in batch {
      HeadBefore(oldPods, zoneOf, n, p, q);
    }
    SameSequence(zoneOf, p, q, p', q');
  }

  /** Whatever every round keeps holds after any number of them. */
  lemma {:induction false} RoundsKeep(s: System, k: nat, n: nat, d: System, keeps: (nat, System) -> bool)
    requires Reaches(s, n, d) && keeps(k, s)
    requires forall i: nat, e :: keeps(i, e) && OldPods(e) != [] ==> keeps(i + 1, Next(e))
    ensures keeps(k + n, d)
    decreases n
  {
    if n > 0 {
      RoundsKeep(Next(s), k + 1, n - 1, d, keeps);
    }
  }

  lemma RoundsKeepLayers(s: System, n: nat, d: System, revs: seq<string>)
    requires Clean(s) && Reaches(s, n, d) && Layered(s, revs) && revs != [] && s.sts.updateRevision == revs[|revs| - 1]
    ensures Layered(d, revs) && d.sts == s.sts && d.zoneOf == s.zoneOf
  {
    var layered := (i: nat, e: System) => Clean(e) && Layered(e, revs) && e.sts == s.sts && e.zoneOf == s.zoneOf;
    forall i: nat, e | layered(i, e) && OldPods(e) != [] ensures layered(i + 1, Next(e)) {
      NextIsTail(e);
      RoundKeepsLayers(e, revs, Next(e));
    }
    RoundsKeep(s, 0, n, d, layered);
  }

  lemma RunGoesOn(s: System)
    requires Clean(s) && OldPods(s) != []
    ensures Clean(Next(s)) && Run(s) != [] && Run(Next(s)) == Run(s)[1..]
  {
    NextIsTail(s);
  }

  lemma ResumeStep(s: System, run: seq<seq<Pod>>, i: nat)
    requires Clean(s) && OldPods(s) != [] && i <= |run| && Run(s) == run[i..]
    ensures Clean(Next(s)) && i + 1 <= |run| && Run(Next(s)) == run[i + 1..]
  {
    RunGoesOn(s);
    assert run[i + 1..] == run[i..][1..];
  }

  /** A rollout resumed after some rounds goes on as it would have. */
  lemma RunResumes(s: System, n: nat, d: System)
    requires Clean(s) && Reaches(s, n, d)
    ensures Clean(d) && n <= |Run(s)| && Run(d) == Run(s)[n..]
  {
    var run := Run(s);
    var resumes := (i: nat, e: System) => Clean(e) && i <= |run| && Run(e) == run[i..];
    forall i: nat, e | resumes(i, e) && OldPods(e) != [] ensures resumes(i + 1, Next(e)) {
      ResumeStep(e, run, i);
    }
    RoundsKeep(s, 0, n, d, resumes);
  }

  /** After any number of rounds the layers are kept, and what remains is the rest of the sequence. */
  lemma RoundsGoOn(s: System, n: nat, d: System, revs: seq<string>)
    requires Clean(s) && Reaches(s, n, d) && Layered(s, revs) && revs != [] && s.sts.updateRevision == revs[|revs| - 1]
    ensures Clean(d) && Layered(d, revs) && d.sts == s.sts
    ensures n <= |Run(s)| && Canon(OldPods(d), d.zoneOf) == Flatten(Run(s)[n..])
  {
    RoundsKeepLayers(s, n, d, revs);
    RunResumes(s, n, d);
    RolloutFollowsSequence(d);
  }

  // ---------- any number of revisions ----------

  /** A course of rollouts: at every stop but the first, a new revision has appeared and some rounds have gone by. */
  ghost predicate Course(stops: seq<System>, revs: seq<string>, rounds: seq<nat>) {
    && |stops| == |revs| == |rounds| > 0 && Distinct(revs)
    && Clean(stops[0]) && AllAt(stops[0].pods, revs[0])
    && forall k :: 0 < k < |stops| ==> Reaches(Redirected(stops[k - 1], revs[k]), rounds[k], stops[k])
  }

  lemma NewTargetIsClean(s: System, revision: string)
    requires Clean(s)
    ensures Clean(Redirected(s, revision))
  {}

  lemma {:induction false} IndexInLonger(revs: seq<string>, revision: string, x: string)
    requires x in revs
    ensures x in revs + [revision] && IndexOf(revs + [revision], x) == IndexOf(revs, x)
  {
    if revs[0] != x {
      assert (revs + [revision])[1..] == revs[1..] + [revision];
      IndexInLonger(revs[1..], revision, x);
    }
  }

  lemma NewTargetKeepsLayers(s: System, revs: seq<string>, revision: string)
    requires Layered(s, revs) && revision !in revs
    ensures Layered(Redirected(s, revision), revs + [revision])
  {
    forall p | p in s.pods ensures Rank(revs + [revision], p) == Rank(revs, p) {
      IndexInLonger(revs, revision, p.revision.value);
    }
  }

  lemma StartIsLayered(s: System, revision: string)
    requires AllAt(s.pods, revision)
    ensures Layered(s, [revision])
  {}

  /**
   * At every stop of every course the later a pod's revision has appeared the earlier the pod comes in the documented
   * order.
   */
  lemma {:induction false} CourseIsLayered(stops: seq<System>, revs: seq<string>, rounds: seq<nat>, k: nat)
    requires Course(stops, revs, rounds) && k < |stops|
    ensures Clean(stops[k]) && Layered(stops[k], revs[..k + 1])
  {
    if k == 0 {
      StartIsLayered(stops[0], revs[0]);
      assert revs[..1] == [revs[0]];
    } else {
      CourseIsLayered(stops, revs, rounds, k - 1);
      var start := Redirected(stops[k - 1], revs[k]);
      NewTargetIsClean(stops[k - 1], revs[k]);
      NewTargetKeepsLayers(stops[k - 1], revs[..k], revs[k]);
      assert revs[..k] + [revs[k]] == revs[..k + 1];
      RoundsGoOn(start, rounds[k], stops[k], revs[..k + 1]);
    }
  }

  /** In the order in which pods are replaced their revisions never get newer. */
  ghost predicate NewestFirst(order: seq<Pod>, revs: seq<string>) {
    forall i, j :: 0 <= i < j < |order| ==> Rank(revs, order[i]) >= Rank(revs, order[j])
  }

  lemma NextRevisionIsClean(stops: seq<System>, revs: seq<string>, rounds: seq<nat>, k: nat, revision: string)
    requires Course(stops, revs, rounds) && k < |stops|
    ensures Clean(Redirected(stops[k], revision))
  {
    CourseIsLayered(stops, revs, rounds, k);
    NewTargetIsClean(stops[k], revision);
  }

  /**
   * The next revision, wherever a course has got to: every pod that is not at it is replaced, once, and the later its
   * revision has appeared the sooner; whether the revision is a new one, so that all pods go, or one of those before.
   */
  lemma NextRevision(stops: seq<System>, revs: seq<string>, rounds: seq<nat>, k: nat, d: System)
    returns (replaced: seq<Pod>)
    requires Course(stops, revs, rounds) && k < |stops| && d == Redirected(stops[k], d.sts.updateRevision)
    ensures Clean(d) && replaced == Flatten(Run(d))
    ensures Distinct(replaced) && NewestFirst(replaced, revs[..k + 1])
    ensures forall p :: p in replaced <==> p in d.pods && p.revision != Some(d.sts.updateRevision)
  {
    NextRevisionIsClean(stops, revs, rounds, k, d.sts.updateRevision);
    replaced := Flatten(Run(d));
    CourseIsLayered(stops, revs, rounds, k);
    RolloutFollowsSequence(d);
    OldestLast(d, revs[..k + 1], OldPods(d), replaced);
    CanonIsOrdered(OldPods(d), d.zoneOf);
    FilterMembers(d.pods, IsOld(d.sts.updateRevision));
    assert forall p :: p in d.pods ==> p.revision.Some?;
  }

  lemma OldestLast(d: System, revs: seq<string>, oldPods: seq<Pod>, order: seq<Pod>)
    requires Layered(d, revs) && oldPods == OldPods(d) && order == Canon(oldPods, d.zoneOf)
    ensures NewestFirst(order, revs)
  {
    CanonIsOrdered(oldPods, d.zoneOf);
    FilterMembers(d.pods, IsOld(d.sts.updateRevision));
    forall i, j | 0 <= i < j < |order| ensures Rank(revs, order[i]) >= Rank(revs, order[j]) {
      assert order[i] in order && order[j] in order;
      assert !InSequence(d.zoneOf)(order[j], order[i]);
    }
  }

  /** Later batches hold later pods. */
  lemma {:induction false} PositionOf(batches: seq<seq<Pod>>, m: nat, i: nat) returns (at: nat)
    requires m < |batches| && i < |batches[m]|
    ensures at < |Flatten(batches)| && Flatten(batches)[at] == batches[m][i]
    ensures |Flatten(batches[..m])| <= at < |Flatten(batches[..m])| + |batches[m]|
    decreases m
  {
    if m == 0 {
      at := i;
    } else {
      var tail := batches[1..];
      var rest := PositionOf(tail, m - 1, i);
      at := |batches[0]| + rest;
      assert batches[..m][1..] == tail[..m - 1];
    }
  }

  lemma {:induction false} FlattenGrows(batches: seq<seq<Pod>>, m: nat, n: nat)
    requires m < n <= |batches|
    ensures |Flatten(batches[..m])| + |batches[m]| <= |Flatten(batches[..n])|
  {
    var tail := batches[1..];
    assert batches[..n][1..] == tail[..n - 1];
    if m > 0 {
      assert batches[..m][1..] == tail[..m - 1];
      FlattenGrows(tail, m - 1, n - 1);
    }
  }

  /** So once a batch touches a pod of some revision, no later batch holds one of a newer revision. */
  lemma NewerIsGone(stops: seq<System>, revs: seq<string>, rounds: seq<nat>, k: nat, d: System)
    returns (batches: seq<seq<Pod>>)
    requires Course(stops, revs, rounds) && k < |stops| && d == Redirected(stops[k], d.sts.updateRevision)
    ensures Clean(d) && batches == Run(d)
    ensures forall m, i, n, j :: 0 <= m < n < |batches| && 0 <= i < |batches[m]| && 0 <= j < |batches[n]|
              ==> Rank(revs[..k + 1], batches[n][j]) <= Rank(revs[..k + 1], batches[m][i])
  {
    var replaced := NextRevision(stops, revs, rounds, k, d);
    batches := Run(d);
    BatchesInOrder(batches, replaced, revs[..k + 1]);
  }

  lemma BatchesInOrder(batches: seq<seq<Pod>>, order: seq<Pod>, revs: seq<string>)
    requires order == Flatten(batches) && NewestFirst(order, revs)
    ensures forall m, i, n, j :: 0 <= m < n < |batches| && 0 <= i < |batches[m]| && 0 <= j < |batches[n]|
              ==> Rank(revs, batches[n][j]) <= Rank(revs, batches[m][i])
  {
    forall m, i, n, j | 0 <= m < n < |batches| && 0 <= i < |batches[m]| && 0 <= j < |batches[n]|
      ensures Rank(revs, batches[n][j]) <= Rank(revs, batches[m][i])
    {
      var x := PositionOf(batches, m, i);
      var y := PositionOf(batches, n, j);
      FlattenGrows(batches, m, n);
    }
  }

  lemma NotTheFirst(stops: seq<System>, revs: seq<string>, rounds: seq<nat>, p: Pod)
    requires Course(stops, revs, rounds) && |stops| == 2 && p in stops[1].pods
    ensures p.revision == Some(revs[0]) || p.revision == Some(revs[1])
  {
    CourseIsLayered(stops, revs, rounds, 1);
    assert revs[..2] == revs == [revs[0], revs[1]];
  }

  /**
   * A rollback: going back to the first revision in the middle of the second rollout replaces exactly the pods updated.
   */
  lemma Rollback(stops: seq<System>, revs: seq<string>, rounds: seq<nat>, d: System) returns (replaced: seq<Pod>)
    requires Course(stops, revs, rounds) && |stops| == 2 && d == Redirected(stops[1], revs[0])
    ensures Clean(d) && replaced == Flatten(Run(d))
    ensures Distinct(replaced) && forall p :: p in replaced <==> p in stops[1].pods && p.revision == Some(revs[1])
  {
    replaced := NextRevision(stops, revs, rounds, 1, d);
    assert d.pods == stops[1].pods && d.sts.updateRevision == revs[0] && revs[0] != revs[1];
    forall p | p in stops[1].pods ensures p.revision == Some(revs[0]) || p.revision == Some(revs[1]) {
      NotTheFirst(stops, revs, rounds, p);
    }
  }
}
