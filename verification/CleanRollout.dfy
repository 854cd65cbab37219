/**
 * Rollouts without trouble: every reconcile finds all pods ready, and the pods it deletes come back ready and updated
 * before the next one. Pods may start from any mixture of revisions.
 */
module CleanRollout {
  import opened Seqs
  import opened Sorting
  import opened Pods
  import opened ExpectedPods
  import opened ZauController
  import opened RampArithmetic
  import opened RolloutOrder

  datatype System = System(pods: seq<Pod>, zoneOf: map<PodName, Zone>, sts: Sts, spec: ZauSpec, status: ZauStatus,
                           alarm: Alarm)

  function OldPods(s: System): seq<Pod> {
    Filter(s.pods, IsOld(s.sts.updateRevision))
  }

  ghost predicate Clean(s: System) {
    && (forall p :: p in s.pods ==> Up(p) && p.name in s.zoneOf)
    && DistinctNames(s.pods) && DistinctOrdinals(s.pods)
    && s.sts.onDelete && s.sts.replicas == s.sts.readyReplicas && !s.spec.dryRun
    && (s.spec.alarm == "" || s.spec.ignoreAlarm || s.alarm == NotInAlarm)
    && s.spec.factor.Some? && Scaled(s.spec.maxUnavailable, s.sts.replicas).Ok?
    && Progressive(Scaled(s.spec.maxUnavailable, s.sts.replicas).value, s.spec.factor.value)
  }

  function Ramp(s: System): Caps
    requires s.spec.factor.Some? && Scaled(s.spec.maxUnavailable, s.sts.replicas).Ok?
  {
    var limit, factor := Scaled(s.spec.maxUnavailable, s.sts.replicas).value, s.spec.factor.value;
    (step: nat) => Cap(limit, step, factor)
  }

  function Step(s: System): nat {
    EffectiveStep(s.status, s.sts.updateRevision)
  }

  /** One reconcile by an API server that refuses nothing. */
  ghost function Reconcile(s: System): Effect {
    EffectOf(PlanFor(s.pods, s.zoneOf, s.sts, s.spec, s.alarm), s.spec, s.status, s.sts,
             FreshCounts(s.pods, s.zoneOf, s.sts.updateRevision), Server(None, true, true))
  }

  /** The deleted pods are back, ready and at the given revision. */
  function Renewed(pods: seq<Pod>, batch: seq<Pod>, revision: string): seq<Pod> {
    seq(|pods|, i requires 0 <= i < |pods| =>
      if pods[i] in batch then pods[i].(revision := Some(revision)) else pods[i])
  }

  /** The system as the reconcile after the next one finds it. */
  ghost function Next(s: System): System {
    s.(pods := Renewed(s.pods, Reconcile(s).deleted, s.sts.updateRevision), status := Reconcile(s).status)
  }

  lemma RampIsPositive(s: System)
    requires Clean(s)
    ensures Positive(Ramp(s))
  {
    forall step ensures Ramp(s)(step) >= 1 {
      CapBounds(Scaled(s.spec.maxUnavailable, s.sts.replicas).value, step, s.spec.factor.value);
    }
  }

  lemma OldPodsAreClean(s: System)
    requires Clean(s)
    ensures DistinctOrdinals(OldPods(s)) && Distinct(OldPods(s))
    ensures forall p :: p in OldPods(s) ==> p in s.pods && p.name in s.zoneOf
  {
    FilterMembers(s.pods, IsOld(s.sts.updateRevision));
    FilterKeepsOrder(s.pods, IsOld(s.sts.updateRevision), (p: Pod, q: Pod) => p.ordinal != q.ordinal);
  }

  lemma NothingBlocks(s: System)
    requires Clean(s)
    ensures !Blocked(s.pods, s.sts.updateRevision)
    ensures Filter(s.pods, IsOldNotReady(s.sts.updateRevision)) == []
  {
    FilterNone(s.pods, IsOldNotReady(s.sts.updateRevision));
    forall i | 0 <= i < |s.pods| ensures !Blocks(s.pods[i], s.sts.updateRevision) {
      assert s.pods[i] in s.pods;
    }
  }

  lemma PlanOnReady(sorted: seq<Pod>, zoneOf: map<PodName, Zone>, sts: Sts, spec: ZauSpec, alarm: Alarm)
    requires ZonesOf(sorted, zoneOf) != {} && sts.replicas == sts.readyReplicas
    requires spec.alarm == "" || spec.ignoreAlarm || alarm == NotInAlarm
    ensures PlanOn(sorted, [], zoneOf, sts, spec, alarm)
            == Delete(Group(sorted, zoneOf)[FirstZone(ZonesOf(sorted, zoneOf))])
  {}

  /** Where all is ready, the plan is to delete from the pool of the first zone. */
  lemma PlanIsPool(s: System, sorted: seq<Pod>)
    requires Clean(s) && OldPods(s) != [] && sorted == Sort(OldPods(s), HigherOrdinal)
             && ZonesOf(sorted, s.zoneOf) != {}
    ensures PlanFor(s.pods, s.zoneOf, s.sts, s.spec, s.alarm)
            == Delete(Group(sorted, s.zoneOf)[FirstZone(ZonesOf(sorted, s.zoneOf))])
  {
    NothingBlocks(s);
    PlanOnReady(sorted, s.zoneOf, s.sts, s.spec, s.alarm);
    assert PlanFor(s.pods, s.zoneOf, s.sts, s.spec, s.alarm)
           == PlanOn(sorted, [], s.zoneOf, s.sts, s.spec, s.alarm) by {
      assert Sort([], HigherOrdinal) == [];
      assert sorted != [];
    }
  }

  /** What a reconcile deletes is the head of the canonical order, cut by the ramp. */
  lemma ReconcileDeletesHead(s: System)
    requires Clean(s) && OldPods(s) != []
    ensures var canon := Canon(OldPods(s), s.zoneOf);
            && canon != [] && Ramp(s)(Step(s)) >= 1
            && Reconcile(s).deleted == canon[..HeadSize(canon, s.zoneOf, Ramp(s)(Step(s)))]
    ensures Reconcile(s).status.step == Step(s) + 1 && Reconcile(s).status.updateRevision == s.sts.updateRevision
  {
    RampIsPositive(s);
    OldPodsAreClean(s);
    FirstPoolLeads(OldPods(s), s.zoneOf);
    var sorted := Sort(OldPods(s), HigherOrdinal);
    PlanIsPool(s, sorted);
    var pool := Group(sorted, s.zoneOf)[FirstZone(ZonesOf(sorted, s.zoneOf))];
    DeletesFromPool(s, pool);
    PoolIsHead(pool, Canon(OldPods(s), s.zoneOf), s.zoneOf, Ramp(s)(Step(s)));
  }

  lemma PoolIsHead(pool: seq<Pod>, canon: seq<Pod>, zoneOf: map<PodName, Zone>, cap: int)
    requires pool <= canon && pool != [] && cap >= 1 && Lead(canon, zoneOf, ZoneName(zoneOf, canon[0])) == |pool|
    ensures pool[..Min(|pool|, cap)] == canon[..HeadSize(canon, zoneOf, cap)]
  {}

  lemma DeletesFromPool(s: System, pool: seq<Pod>)
    requires Clean(s) && PlanFor(s.pods, s.zoneOf, s.sts, s.spec, s.alarm) == Delete(pool)
    requires pool != [] && Ramp(s)(Step(s)) >= 1
    ensures Reconcile(s).deleted == pool[..Min(|pool|, Ramp(s)(Step(s)))]
    ensures Reconcile(s).status.step == Step(s) + 1 && Reconcile(s).status.updateRevision == s.sts.updateRevision
  {
    assert BatchSize(s.spec, s.status, s.sts, |pool|) == Ok(Min(|pool|, Ramp(s)(Step(s))));
  }

  // ---------- the pods after a batch ----------

  function In(batch: seq<Pod>): Pod -> bool { (p: Pod) => p in batch }

  function NotIn(batch: seq<Pod>): Pod -> bool { (p: Pod) => p !in batch }

  lemma {:induction false} RenewedOldPods(pods: seq<Pod>, batch: seq<Pod>, revision: string)
    ensures Filter(Renewed(pods, batch, revision), IsOld(revision))
            == Filter(Filter(pods, IsOld(revision)), NotIn(batch))
  {
    if pods != [] {
      var front, last := pods[..|pods| - 1], pods[|pods| - 1];
      RenewedOldPods(front, batch, revision);
      var renewed := Renewed(pods, batch, revision);
      assert renewed[..|pods| - 1] == Renewed(front, batch, revision);
      if IsOld(revision)(last) {
        var kept := Filter(front, IsOld(revision));
        assert (kept + [last])[..|kept|] == kept;
      }
    }
  }

  lemma BatchRemoved(pods: seq<Pod>, batch: seq<Pod>)
    requires Distinct(pods) && Distinct(batch) && forall p :: p in batch ==> p in pods
    ensures multiset(pods) == multiset(Filter(pods, NotIn(batch))) + multiset(batch)
  {
    FilterSplits(pods, In(batch), NotIn(batch));
    forall p ensures multiset(Filter(pods, In(batch)))[p] == multiset(batch)[p] {
      FilterCounts(pods, In(batch), p);
      DistinctMultiplicity(pods, p);
      DistinctMultiplicity(batch, p);
    }
  }

  lemma Cancel<T>(a: multiset<T>, b: multiset<T>, c: multiset<T>)
    requires a + b == c + a
    ensures b == c
  {
    assert b == (a + b) - a;
    assert c == (c + a) - a;
  }

  /** After a batch of canonical head, what is left to do is the canonical tail. */
  lemma TailRemains(pods: seq<Pod>, zoneOf: map<PodName, Zone>, n: nat)
    requires DistinctOrdinals(pods) && Distinct(pods) && n <= |Canon(pods, zoneOf)|
    requires DistinctOrdinals(Filter(pods, NotIn(Canon(pods, zoneOf)[..n])))
    ensures Canon(Filter(pods, NotIn(Canon(pods, zoneOf)[..n])), zoneOf) == Canon(pods, zoneOf)[n..]
  {
    var canon := Canon(pods, zoneOf);
    CanonIsOrdered(pods, zoneOf);
    PermutedIsDistinct(pods, canon);
    BatchRemoved(pods, canon[..n]);
    assert canon == canon[..n] + canon[n..];
    Cancel(multiset(canon[..n]), multiset(canon[n..]), multiset(Filter(pods, NotIn(canon[..n]))));
    CanonIsUnique(Filter(pods, NotIn(canon[..n])), zoneOf, canon[n..]);
  }

  lemma RenewedPods(pods: seq<Pod>, batch: seq<Pod>, revision: string, after: seq<Pod>, zoneOf: map<PodName, Zone>)
    requires after == Renewed(pods, batch, revision) && forall p :: p in pods ==> Up(p) && p.name in zoneOf
    ensures forall p :: p in after ==> Up(p) && p.name in zoneOf
    ensures DistinctNames(pods) ==> DistinctNames(after)
    ensures DistinctOrdinals(pods) ==> DistinctOrdinals(after)
  {
    forall p | p in after ensures Up(p) && p.name in zoneOf {
      var i :| 0 <= i < |after| && after[i] == p;
      assert pods[i] in pods;
    }
    assert forall i :: 0 <= i < |pods| ==> after[i].name == pods[i].name && after[i].ordinal == pods[i].ordinal;
  }

  lemma RenewedIsClean(s: System, d: System)
    requires Clean(s) && d.pods == Renewed(s.pods, Reconcile(s).deleted, s.sts.updateRevision)
    requires d == s.(pods := d.pods, status := d.status)
    ensures Clean(d)
  {
    RenewedPods(s.pods, Reconcile(s).deleted, s.sts.updateRevision, d.pods, s.zoneOf);
  }

  lemma NextIsTail(s: System)
    requires Clean(s) && OldPods(s) != []
    ensures Clean(Next(s)) && Step(Next(s)) == Step(s) + 1
    ensures var canon := Canon(OldPods(s), s.zoneOf);
            && canon != [] && Ramp(s)(Step(s)) >= 1
            && Canon(OldPods(Next(s)), s.zoneOf) == canon[HeadSize(canon, s.zoneOf, Ramp(s)(Step(s)))..]
            && |OldPods(Next(s))| < |OldPods(s)|
  {
    var canon := Canon(OldPods(s), s.zoneOf);
    ReconcileDeletesHead(s);
    RenewedIsClean(s, Next(s));
    OldPodsAreClean(s);
    OldPodsAreClean(Next(s));
    RenewedOldPods(s.pods, Reconcile(s).deleted, s.sts.updateRevision);
    var n := HeadSize(canon, s.zoneOf, Ramp(s)(Step(s)));
    TailRemains(OldPods(s), s.zoneOf, n);
    CanonIsOrdered(OldPods(s), s.zoneOf);
    CanonIsOrdered(OldPods(Next(s)), s.zoneOf);
  }

  /** The batches of a rollout, reconcile after reconcile, until no old pod is left. */
  ghost function Run(s: System): seq<seq<Pod>>
    requires Clean(s)
    decreases |OldPods(s)|
  {
    if OldPods(s) == [] then []
    else
      NextIsTail(s);
      [Reconcile(s).deleted] + Run(Next(s))
  }

  /** The rollout carries out the documented sequence, batch by batch. */
  lemma {:induction false} RunIsCut(s: System)
    requires Clean(s) && Positive(Ramp(s))
    ensures Run(s) == Cut(Canon(OldPods(s), s.zoneOf), s.zoneOf, Ramp(s), Step(s))
    decreases |OldPods(s)|
  {
    CanonIsOrdered(OldPods(s), s.zoneOf);
    if OldPods(s) != [] {
      NextIsTail(s);
      ReconcileDeletesHead(s);
      assert Ramp(Next(s)) == Ramp(s);
      RunIsCut(Next(s));
    }
  }

  lemma RunIsRampCut(s: System)
    requires Clean(s)
    ensures Positive(Ramp(s)) && Run(s) == Cut(Canon(OldPods(s), s.zoneOf), s.zoneOf, Ramp(s), Step(s))
  {
    RampIsPositive(s);
    RunIsCut(s);
  }

  lemma RampBatch(s: System, cut: seq<seq<Pod>>, i: nat)
    requires s.spec.factor.Some? && Scaled(s.spec.maxUnavailable, s.sts.replicas).Ok? && Positive(Ramp(s))
    requires cut == Cut(Canon(OldPods(s), s.zoneOf), s.zoneOf, Ramp(s), Step(s)) && i < |cut|
    ensures IsBatch(cut[i], Flatten(cut[i + 1..]), s.zoneOf, Ramp(s)(Step(s) + i))
  {
    CutBatch(Canon(OldPods(s), s.zoneOf), s.zoneOf, Ramp(s), Step(s), i);
  }

  /** Each reconcile deletes pods of one zone: as many as the ramp allows at its step, or all that the zone has left. */
  lemma RunBatch(s: System, i: nat)
    requires Clean(s) && i < |Run(s)|
    ensures IsBatch(Run(s)[i], Flatten(Run(s)[i + 1..]), s.zoneOf, Ramp(s)(Step(s) + i))
  {
    RunIsRampCut(s);
    RampBatch(s, Run(s), i);
  }

  /** Every old pod is deleted exactly once, in the documented order, and nothing else is. */
  lemma RolloutFollowsSequence(s: System)
    requires Clean(s)
    ensures Flatten(Run(s)) == Canon(OldPods(s), s.zoneOf)
    ensures multiset(Flatten(Run(s))) == multiset(OldPods(s)) && Distinct(Flatten(Run(s)))
  {
    RampIsPositive(s);
    RunIsCut(s);
    CutIsWhole(Canon(OldPods(s), s.zoneOf), s.zoneOf, Ramp(s), Step(s));
    CanonIsOrdered(OldPods(s), s.zoneOf);
    OldPodsAreClean(s);
    PermutedIsDistinct(OldPods(s), Flatten(Run(s)));
  }
}
