/** How many reconciles a rollout takes. */
module RolloutBounds {
  import opened Seqs
  import opened Sorting
  import opened Pods
  import opened ExpectedPods
  import opened ZauController
  import opened RampArithmetic
  import opened RolloutOrder
  import opened CleanRollout

  /** How many batches n pods take, m at a time. */
  function Ceil(n: nat, m: nat): nat
    requires m > 0
  {
    if n == 0 then 0 else if n <= m then 1 else 1 + Ceil(n - m, m)
  }

  /** It is the quotient, rounded up. */
  lemma {:induction false} CeilRoundsUp(n: nat, m: nat)
    requires m > 0
    ensures (Ceil(n, m) - 1) * m < n <= Ceil(n, m) * m
  {
    if n > m {
      CeilRoundsUp(n - m, m);
      var q := Ceil(n - m, m);
      assert (q + 1) * m == q * m + m && (q - 1) * m == q * m - m;
    }
  }

  lemma {:induction false} CeilMonotone(n: nat, k: nat, m: nat)
    requires m > 0 && n <= k
    ensures Ceil(n, m) <= Ceil(k, m)
    decreases k
  {
    if n > m {
      CeilMonotone(n - m, k - m, m);
    }
  }

  /** Full batches needed for a sequence, zone run by zone run. */
  function FullBatches(s: seq<Pod>, zoneOf: map<PodName, Zone>, m: nat): nat
    requires m > 0
    decreases |s|
  {
    if s == [] then 0
    else
      LeadBounds(s, zoneOf, ZoneName(zoneOf, s[0]));
      var lead := Lead(s, zoneOf, ZoneName(zoneOf, s[0]));
      Ceil(lead, m) + FullBatches(s[lead..], zoneOf, m)
  }

  lemma {:induction false} LeadAfter(s: seq<Pod>, zoneOf: map<PodName, Zone>, z: Zone, n: nat)
    requires n <= Lead(s, zoneOf, z) && n <= |s|
    ensures Lead(s[n..], zoneOf, z) == Lead(s, zoneOf, z) - n
  {
    if n > 0 {
      LeadAfter(s[1..], zoneOf, z, n - 1);
      assert s[n..] == s[1..][n - 1..];
    }
  }

  /** Taking part of a zone lowers its share of the count, and only that. */
  lemma FullBatchesAfter(s: seq<Pod>, zoneOf: map<PodName, Zone>, m: nat, n: nat)
    requires m > 0 && s != []
    requires 1 <= n <= Lead(s, zoneOf, ZoneName(zoneOf, s[0]))
    ensures n <= |s|
    ensures var lead := Lead(s, zoneOf, ZoneName(zoneOf, s[0]));
            FullBatches(s, zoneOf, m) - FullBatches(s[n..], zoneOf, m) == Ceil(lead, m) - Ceil(lead - n, m)
  {
    var z := ZoneName(zoneOf, s[0]);
    var lead := Lead(s, zoneOf, z);
    WithinLead(s, zoneOf, z, n);
    var tail := s[n..];
    LeadAfter(s, zoneOf, z, n);
    assert tail[lead - n..] == s[lead..];
    if n < lead {
      FullBatchesUnfold(tail, zoneOf, m, z, lead - n);
    }
    FullBatchesUnfold(s, zoneOf, m, z, lead);
  }

  lemma WithinLead(s: seq<Pod>, zoneOf: map<PodName, Zone>, z: Zone, n: nat)
    requires n <= Lead(s, zoneOf, z)
    ensures n <= Lead(s, zoneOf, z) <= |s|
    ensures n < Lead(s, zoneOf, z) ==> ZoneName(zoneOf, s[n..][0]) == z
  {
    LeadBounds(s, zoneOf, z);
  }

  lemma FullBatchesUnfold(s: seq<Pod>, zoneOf: map<PodName, Zone>, m: nat, z: Zone, lead: nat)
    requires m > 0 && s != [] && z == ZoneName(zoneOf, s[0]) && lead == Lead(s, zoneOf, z) && lead <= |s|
    ensures FullBatches(s, zoneOf, m) == Ceil(lead, m) + FullBatches(s[lead..], zoneOf, m)
  {}

  /**
   * If the ramp has reached its limit m after l steps, a rollout that starts at a step takes at most the steps left
   * until then and the full batches of its zones; exactly those full batches when the limit holds from the start.
   */
  lemma {:induction false} CutLength(s: seq<Pod>, zoneOf: map<PodName, Zone>, caps: Caps, step: nat, m: nat, l: nat)
    requires Positive(caps) && m > 0
    requires forall k: nat :: k >= l ==> caps(k) == m
    ensures |Cut(s, zoneOf, caps, step)| <= Max(0, l - step) + FullBatches(s, zoneOf, m)
    ensures step >= l ==> |Cut(s, zoneOf, caps, step)| == FullBatches(s, zoneOf, m)
    decreases |s|
  {
    if s != [] {
      var n := HeadSize(s, zoneOf, caps(step));
      CutLength(s[n..], zoneOf, caps, step + 1, m, l);
      HeadSaves(s, zoneOf, caps(step), m);
      assert |Cut(s, zoneOf, caps, step)| == 1 + |Cut(s[n..], zoneOf, caps, step + 1)|;
    }
  }

  /** A batch never raises the count of full batches still needed, and a full one lowers it by exactly one. */
  lemma HeadSaves(s: seq<Pod>, zoneOf: map<PodName, Zone>, cap: int, m: nat)
    requires s != [] && cap >= 1 && m > 0
    ensures var n := HeadSize(s, zoneOf, cap);
            && FullBatches(s[n..], zoneOf, m) <= FullBatches(s, zoneOf, m)
            && (cap == m ==> FullBatches(s[n..], zoneOf, m) == FullBatches(s, zoneOf, m) - 1)
  {
    var lead := Lead(s, zoneOf, ZoneName(zoneOf, s[0]));
    var n := HeadSize(s, zoneOf, cap);
    assert 1 <= lead;
    FullBatchesAfter(s, zoneOf, m, n);
    CeilMonotone(lead - n, lead, m);
  }

  lemma {:induction false} CutOneByOne(s: seq<Pod>, zoneOf: map<PodName, Zone>, caps: Caps, step: nat)
    requires Positive(caps) && forall k: nat :: k >= step ==> caps(k) == 1
    ensures |Cut(s, zoneOf, caps, step)| == |s|
    decreases |s|
  {
    if s != [] {
      LeadBounds(s, zoneOf, ZoneName(zoneOf, s[0]));
      CutOneByOne(s[1..], zoneOf, caps, step + 1);
    }
  }

  /** A batch within the limit m spares at most one full batch. */
  lemma HeadSavesOne(s: seq<Pod>, zoneOf: map<PodName, Zone>, cap: int, m: nat)
    requires s != [] && 1 <= cap <= m
    ensures FullBatches(s, zoneOf, m) <= 1 + FullBatches(s[HeadSize(s, zoneOf, cap)..], zoneOf, m)
  {
    var lead := Lead(s, zoneOf, ZoneName(zoneOf, s[0]));
    var n := HeadSize(s, zoneOf, cap);
    FullBatchesAfter(s, zoneOf, m, n);
    if lead > m {
      CeilMonotone(lead - m, lead - n, m);
    }
  }

  lemma {:induction false} CutLengthRange(s: seq<Pod>, zoneOf: map<PodName, Zone>, caps: Caps, step: nat, m: nat)
    requires Positive(caps) && m > 0 && forall k: nat :: caps(k) <= m
    ensures FullBatches(s, zoneOf, m) <= |Cut(s, zoneOf, caps, step)| <= |s|
    decreases |s|
  {
    if s != [] {
      var n := HeadSize(s, zoneOf, caps(step));
      CutLengthRange(s[n..], zoneOf, caps, step + 1, m);
      HeadSavesOne(s, zoneOf, caps(step), m);
      assert |Cut(s, zoneOf, caps, step)| == 1 + |Cut(s[n..], zoneOf, caps, step + 1)|;
    }
  }

  // ---------- the count by zones ----------

  function At(zoneOf: map<PodName, Zone>, z: Zone): Pod -> bool {
    (p: Pod) => ZoneName(zoneOf, p) == z
  }

  function ZoneNames(s: seq<Pod>, zoneOf: map<PodName, Zone>): set<Zone> {
    set p | p in s :: ZoneName(zoneOf, p)
  }

  function BatchesByZone(s: seq<Pod>, zoneOf: map<PodName, Zone>, m: nat): map<Zone, int>
    requires m > 0
  {
    map z | z in ZoneNames(s, zoneOf) :: Ceil(|Filter(s, At(zoneOf, z))|, m)
  }

  /** In canonical order the leading run of a zone holds all of its pods. */
  lemma LeadIsWholeZone(s: seq<Pod>, zoneOf: map<PodName, Zone>)
    requires s != [] && Ordered(s, InSequence(zoneOf))
    ensures var z := ZoneName(zoneOf, s[0]);
            var lead := Lead(s, zoneOf, z);
            && 0 < lead <= |s|
            && (forall p :: p in s[..lead] ==> ZoneName(zoneOf, p) == z)
            && (forall p :: p in s[lead..] ==> ZoneName(zoneOf, p) != z)
  {
    var z := ZoneName(zoneOf, s[0]);
    var lead := Lead(s, zoneOf, z);
    LeadBounds(s, zoneOf, z);
    forall p | p in s[lead..] ensures ZoneName(zoneOf, p) != z {
      var j :| lead <= j < |s| && s[j] == p;
      assert !InSequence(zoneOf)(s[lead], s[0]);
      assert lead < j ==> !InSequence(zoneOf)(s[j], s[lead]);
      LessIsStrict(z, ZoneName(zoneOf, s[lead]));
    }
  }

  lemma OnlyInTail(head: seq<Pod>, tail: seq<Pod>, zoneOf: map<PodName, Zone>, y: Zone)
    requires forall p :: p in head ==> ZoneName(zoneOf, p) != y
    ensures Filter(head + tail, At(zoneOf, y)) == Filter(tail, At(zoneOf, y))
  {
    FilterNone(head, At(zoneOf, y));
    FilterConcat(head, tail, At(zoneOf, y));
  }

  lemma OnlyInHead(head: seq<Pod>, tail: seq<Pod>, zoneOf: map<PodName, Zone>, z: Zone)
    requires forall p :: p in head ==> ZoneName(zoneOf, p) == z
    requires forall p :: p in tail ==> ZoneName(zoneOf, p) != z
    ensures Filter(head + tail, At(zoneOf, z)) == head
  {
    FilterAll(head, At(zoneOf, z));
    FilterNone(tail, At(zoneOf, z));
    FilterConcat(head, tail, At(zoneOf, z));
  }

  /** The zones of the whole are those of the tail and the one of the head. */
  lemma TailZones(head: seq<Pod>, tail: seq<Pod>, zoneOf: map<PodName, Zone>, z: Zone)
    requires head != [] && forall p :: p in head ==> ZoneName(zoneOf, p) == z
    requires forall p :: p in tail ==> ZoneName(zoneOf, p) != z
    ensures ZoneNames(head + tail, zoneOf) == ZoneNames(tail, zoneOf) + {z} && z !in ZoneNames(tail, zoneOf)
  {
    assert forall p :: p in head + tail <==> p in head || p in tail;
    assert head[0] in head;
  }

  lemma HeadBatches(s: seq<Pod>, head: seq<Pod>, tail: seq<Pod>, zoneOf: map<PodName, Zone>, m: nat, z: Zone)
    requires m > 0 && s == head + tail && head != [] && forall p :: p in head ==> ZoneName(zoneOf, p) == z
    requires forall p :: p in tail ==> ZoneName(zoneOf, p) != z
    ensures z in BatchesByZone(s, zoneOf, m) && BatchesByZone(s, zoneOf, m)[z] == Ceil(|head|, m)
  {
    TailZones(head, tail, zoneOf, z);
    OnlyInHead(head, tail, zoneOf, z);
  }

  lemma TailBatches(s: seq<Pod>, head: seq<Pod>, tail: seq<Pod>, zoneOf: map<PodName, Zone>, m: nat, z: Zone)
    requires m > 0 && s == head + tail && head != [] && forall p :: p in head ==> ZoneName(zoneOf, p) == z
    requires forall p :: p in tail ==> ZoneName(zoneOf, p) != z
    ensures BatchesByZone(s, zoneOf, m) - {z} == BatchesByZone(tail, zoneOf, m)
  {
    var whole, rest := BatchesByZone(s, zoneOf, m) - {z}, BatchesByZone(tail, zoneOf, m);
    TailZones(head, tail, zoneOf, z);
    assert whole.Keys == rest.Keys;
    forall y | y in rest ensures whole[y] == rest[y] {
      OnlyInTail(head, tail, zoneOf, y);
    }
  }

  lemma ZoneBatchesStep(s: seq<Pod>, zoneOf: map<PodName, Zone>, m: nat, z: Zone, lead: nat)
    requires m > 0 && s != [] && Ordered(s, InSequence(zoneOf)) && z == ZoneName(zoneOf, s[0])
             && lead == Lead(s, zoneOf, z)
    ensures lead <= |s| && z in BatchesByZone(s, zoneOf, m)
    ensures BatchesByZone(s, zoneOf, m)[z] == Ceil(lead, m)
    ensures BatchesByZone(s, zoneOf, m) - {z} == BatchesByZone(s[lead..], zoneOf, m)
  {
    LeadIsWholeZone(s, zoneOf);
    assert s == s[..lead] + s[lead..];
    HeadBatches(s, s[..lead], s[lead..], zoneOf, m, z);
    TailBatches(s, s[..lead], s[lead..], zoneOf, m, z);
  }

  /** Full batches are counted zone by zone: each zone needs its number of pods divided by the limit, rounded up. */
  lemma {:induction false} FullBatchesByZone(s: seq<Pod>, zoneOf: map<PodName, Zone>, m: nat)
    requires m > 0 && Ordered(s, InSequence(zoneOf))
    ensures FullBatches(s, zoneOf, m) == Sum(BatchesByZone(s, zoneOf, m))
    decreases |s|
  {
    if s == [] {
      assert BatchesByZone(s, zoneOf, m) == map[];
    } else {
      var z := ZoneName(zoneOf, s[0]);
      ZoneBatchesStep(s, zoneOf, m, z, Lead(s, zoneOf, z));
      LeadIsWholeZone(s, zoneOf);
      FullBatchesByZone(s[Lead(s, zoneOf, z)..], zoneOf, m);
      SumRemove(BatchesByZone(s, zoneOf, m), z);
    }
  }

  lemma SameBatchesByZone(s: seq<Pod>, t: seq<Pod>, zoneOf: map<PodName, Zone>, m: nat)
    requires m > 0 && multiset(s) == multiset(t)
    ensures BatchesByZone(s, zoneOf, m) == BatchesByZone(t, zoneOf, m)
  {
    forall p ensures p in s <==> p in t {
      assert p in s <==> p in multiset(s);
      assert p in t <==> p in multiset(t);
    }
    forall z | z in ZoneNames(s, zoneOf) ensures |Filter(s, At(zoneOf, z))| == |Filter(t, At(zoneOf, z))| {
      SameFilter(s, t, At(zoneOf, z));
      assert |multiset(Filter(s, At(zoneOf, z)))| == |multiset(Filter(t, At(zoneOf, z)))|;
    }
  }

  /** Reconciles a rollout needs at the full limit: for every zone, its old pods divided by the limit, rounded up. */
  ghost function NeededAtLimit(s: System, m: nat): int
    requires m > 0
  {
    Sum(BatchesByZone(OldPods(s), s.zoneOf, m))
  }

  lemma CanonNeeds(s: System, m: nat)
    requires Clean(s) && m > 0
    ensures FullBatches(Canon(OldPods(s), s.zoneOf), s.zoneOf, m) == NeededAtLimit(s, m)
  {
    CanonIsOrdered(OldPods(s), s.zoneOf);
    FullBatchesByZone(Canon(OldPods(s), s.zoneOf), s.zoneOf, m);
    SameBatchesByZone(Canon(OldPods(s), s.zoneOf), OldPods(s), s.zoneOf, m);
  }

  /** Without exponential growth a rollout takes exactly the batches its zones need at the limit. */
  lemma StepsWithoutGrowth(s: System)
    requires Clean(s) && s.spec.factor == Some(0.0)
    ensures |Run(s)| == NeededAtLimit(s, Scaled(s.spec.maxUnavailable, s.sts.replicas).value)
  {
    var m := Scaled(s.spec.maxUnavailable, s.sts.replicas).value;
    RampIsPositive(s);
    RunIsCut(s);
    CutLength(Canon(OldPods(s), s.zoneOf), s.zoneOf, Ramp(s), Step(s), m, 0);
    CanonNeeds(s, m);
  }

  /** With a factor of one it takes as many reconciles as there are old pods. */
  lemma StepsWithFactorOne(s: System)
    requires Clean(s) && s.spec.factor == Some(1.0)
    ensures |Run(s)| == |OldPods(s)|
  {
    RampIsPositive(s);
    RunIsCut(s);
    forall k: nat ensures Ramp(s)(k) == 1 {
      FactorOneIsFlat(Scaled(s.spec.maxUnavailable, s.sts.replicas).value, k);
    }
    CutOneByOne(Canon(OldPods(s), s.zoneOf), s.zoneOf, Ramp(s), Step(s));
    CanonIsOrdered(OldPods(s), s.zoneOf);
  }

  /**
   * Once the ramp is at the limit from some step on, the steps until then come at most on top of the batches the zones
   * need at the limit, less those already taken.
   */
  lemma StepsOnceAtLimit(s: System, m: nat, top: nat)
    requires Clean(s) && m == Scaled(s.spec.maxUnavailable, s.sts.replicas).value && Ramp(s)(top) == m
    ensures |Run(s)| <= Max(0, top - Step(s)) + NeededAtLimit(s, m)
    ensures Step(s) >= top ==> |Run(s)| == NeededAtLimit(s, m)
  {
    RampIsPositive(s);
    RunIsCut(s);
    forall k: nat ensures Ramp(s)(k) <= m && (k >= top ==> Ramp(s)(k) == m) {
      CapBounds(m, k, s.spec.factor.value);
      if k >= top {
        CapMonotone(m, top, k, s.spec.factor.value);
      }
    }
    CutLength(Canon(OldPods(s), s.zoneOf), s.zoneOf, Ramp(s), Step(s), m, top);
    CanonNeeds(s, m);
  }

  /** Doubling adds at most the rounded-up logarithm of the limit, less the steps already taken. */
  lemma StepsWithDoubling(s: System)
    requires Clean(s) && s.spec.factor == Some(2.0)
    requires Scaled(s.spec.maxUnavailable, s.sts.replicas).value <= MAX_INT32
    ensures var m := Scaled(s.spec.maxUnavailable, s.sts.replicas).value;
            |Run(s)| <= Max(0, CeilLog2(m) - Step(s)) + NeededAtLimit(s, m)
  {
    var m := Scaled(s.spec.maxUnavailable, s.sts.replicas).value;
    DoublingIsShort(m, CeilLog2(m));
    StepsOnceAtLimit(s, m, CeilLog2(m));
  }

  /** Any factor above one by some growth takes no more steps than the limit divided by that growth, rounded up. */
  lemma StepsWithGrowth(s: System, m: nat, growth: real, top: nat)
    requires Clean(s) && m == Scaled(s.spec.maxUnavailable, s.sts.replicas).value && m <= MAX_INT32
    requires growth > 0.0 && s.spec.factor == Some(1.0 + growth) && top as real * growth >= m as real
    ensures |Run(s)| <= Max(0, top - Step(s)) + NeededAtLimit(s, m)
  {
    GrowthReaches(m, growth, top);
    StepsOnceAtLimit(s, m, top);
  }

  /**
   * Whatever the factor, a rollout takes no fewer reconciles than its zones need at the limit and no more than one a
   * pod.
   */
  lemma StepsWithAnyGrowth(s: System)
    requires Clean(s)
    ensures NeededAtLimit(s, Scaled(s.spec.maxUnavailable, s.sts.replicas).value) <= |Run(s)| <= |OldPods(s)|
  {
    var m := Scaled(s.spec.maxUnavailable, s.sts.replicas).value;
    RampIsPositive(s);
    RunIsCut(s);
    forall k: nat ensures Ramp(s)(k) <= m {
      CapBounds(m, k, s.spec.factor.value);
    }
    CutLengthRange(Canon(OldPods(s), s.zoneOf), s.zoneOf, Ramp(s), Step(s), m);
    CanonNeeds(s, m);
    CanonIsOrdered(OldPods(s), s.zoneOf);
  }
}
