/** How many pods a budget expects in every zone (getExpectedScale and getExpectedPodCount). */
module ExpectedPods {
  import opened Seqs
  import opened Pods
  import opened PodZone
  import opened SortMap
  import opened TopUpFacts

  datatype IntOrPercent = Missing | Amount(n: int) | Percent(percent: int) | Malformed

  /** GetScaledValueFromIntOrPercent, rounding up. */
  function Scaled(v: IntOrPercent, total: int): (r: Result<int>)
    ensures r.Err? <==> v.Missing? || v.Malformed?
    ensures v.Amount? ==> r.value == v.n
    ensures v.Percent? ==> 100 * (r.value - 1) < v.percent * total <= 100 * r.value
  {
    match v
    case Missing => Err
    case Malformed => Err
    case Amount(n) => Ok(n)
    case Percent(p) => Ok((p * total + 99) / 100)
  }

  // ---------- the scale of the controllers ----------

  datatype Lookup = ReadError | NoController | Scale(n: int)

  type Finder = ControllerRef -> Lookup

  /** The scale of every controller met so far, by uid. */
  function ControllerScales(pods: seq<Pod>, find: Finder): Result<map<string, int>> {
    if pods == [] then Ok(map[])
    else
      var front := ControllerScales(pods[..|pods| - 1], find);
      var ref := pods[|pods| - 1].controller;
      if front.Err? || ref.None? || ref.value.uid in front.value then front
      else if find(ref.value).Scale? then Ok(front.value[ref.value.uid := find(ref.value).n])
      else Err
  }

  /** Pods of one controller refer to it in the same way. */
  ghost predicate UidsIdentify(pods: seq<Pod>) {
    forall p, q :: p in pods && q in pods && p.controller.Some? && q.controller.Some? ==>
                     p.controller.value.uid == q.controller.value.uid ==> p.controller == q.controller
  }

  /** Each controller counts once however many pods it has, and one that cannot be found fails the whole count. */
  lemma {:induction false} EachControllerCountsOnce(pods: seq<Pod>, find: Finder)
    requires UidsIdentify(pods)
    ensures ControllerScales(pods, find).Ok? <==>
            forall p :: p in pods && p.controller.Some? ==> find(p.controller.value).Scale?
    ensures ControllerScales(pods, find).Ok? ==>
              && (forall p :: p in pods && p.controller.Some? ==>
                    var uid := p.controller.value.uid;
                    && uid in ControllerScales(pods, find).value
                    && find(p.controller.value) == Scale(ControllerScales(pods, find).value[uid]))
              && (forall uid :: uid in ControllerScales(pods, find).value ==>
                    exists p :: p in pods && p.controller.Some? && p.controller.value.uid == uid)
  {
    if pods != [] {
      var front, last := pods[..|pods| - 1], pods[|pods| - 1];
      assert pods == front + [last];
      assert forall p :: p in pods <==> p in front || p == last;
      EachControllerCountsOnce(front, find);
    }
  }

  method GetExpectedScale(pods: seq<Pod>, find: Finder) returns (r: Result<int>, unmanaged: seq<PodName>)
    ensures r == match ControllerScales(pods, find) { case Ok(scales) => Ok(Sum(scales)) case Err => Err }
    ensures r.Ok? ==> |unmanaged| == |Filter(pods, Unmanaged)|
                      && forall i :: 0 <= i < |unmanaged| ==> unmanaged[i] == Filter(pods, Unmanaged)[i].name
    ensures r.Ok? ==>
              forall name :: name in unmanaged <==> exists p :: p in pods && p.controller.None? && p.name == name
  {
    var scales: map<string, int> := map[];
    unmanaged := [];
    var i := 0;
    while i < |pods|
      invariant 0 <= i <= |pods|
      invariant ControllerScales(pods[..i], find) == Ok(scales)
      invariant |unmanaged| == |Filter(pods[..i], Unmanaged)|
      invariant forall j :: 0 <= j < |unmanaged| ==> unmanaged[j] == Filter(pods[..i], Unmanaged)[j].name
    {
      assert pods[..i + 1][..i] == pods[..i];
      FilterStep(pods, i, Unmanaged);
      var pod := pods[i];
      if pod.controller.None? {
        unmanaged := unmanaged + [pod.name];
      } else if pod.controller.value.uid !in scales {
        var found := find(pod.controller.value);
        if !found.Scale? {
          ErrorsPersist(pods, find, i + 1);
          return Err, unmanaged;
        }
        scales := scales[pod.controller.value.uid := found.n];
      }
      i := i + 1;
    }
    assert pods[..i] == pods;
    NamesOfUnmanaged(pods, unmanaged);
    var total, rest := 0, scales;
    while rest != map[]
      invariant total + Sum(rest) == Sum(scales)
      decreases |rest|
    {
      var uid :| uid in rest;
      SumRemove(rest, uid);
      assert (rest - {uid}).Keys == rest.Keys - {uid};
      total, rest := total + rest[uid], rest - {uid};
    }
    r := Ok(total);
  }

  lemma NamesOfUnmanaged(pods: seq<Pod>, unmanaged: seq<PodName>)
    requires |unmanaged| == |Filter(pods, Unmanaged)|
    requires forall i :: 0 <= i < |unmanaged| ==> unmanaged[i] == Filter(pods, Unmanaged)[i].name
    ensures forall name :: name in unmanaged <==> exists p :: p in pods && p.controller.None? && p.name == name
  {
    FilterMembers(pods, Unmanaged);
    var kept := Filter(pods, Unmanaged);
    forall p | p in pods && p.controller.None? ensures p.name in unmanaged {
      assert p in kept;
      var i :| 0 <= i < |kept| && kept[i] == p;
      assert unmanaged[i] == p.name;
    }
    forall name | name in unmanaged ensures exists p :: p in pods && p.controller.None? && p.name == name {
      var i :| 0 <= i < |unmanaged| && unmanaged[i] == name;
      assert kept[i] in kept;
    }
  }

  predicate Unmanaged(pod: Pod) {
    pod.controller.None?
  }

  lemma {:induction false} ErrorsPersist(pods: seq<Pod>, find: Finder, i: nat)
    requires i <= |pods| && ControllerScales(pods[..i], find).Err?
    ensures ControllerScales(pods, find).Err?
  {
    if i < |pods| {
      assert pods[..|pods| - 1][..i] == pods[..i];
      ErrorsPersist(pods[..|pods| - 1], find, i);
    } else {
      assert pods[..i] == pods;
    }
  }

  // ---------- the round-robin top-up ----------

  function Observed(groups: map<Zone, seq<Pod>>): map<Zone, int> {
    map z | z in groups :: |groups[z]|
  }

  function Desired(expected: map<Zone, int>, maxUnavailable: int): map<Zone, int> {
    map z | z in expected :: Max(0, expected[z] - maxUnavailable)
  }

  lemma MultipleInRange(a: int, n: int)
    requires -n < a * n < n
    ensures a == 0
  {
    assert a >= 1 ==> (a - 1) * n >= 0;
    assert a <= -1 ==> (-a - 1) * n >= 0;
  }

  lemma DivUnique(k: nat, n: nat, q: nat, r: nat)
    requires r < n && k == q * n + r
    ensures k / n == q && k % n == r
  {
    assert (q - k / n) * n == k % n - r;
    MultipleInRange(q - k / n, n);
  }

  /** A further, possibly partial, pass over the n zones raises the share of the first m of them by one. */
  lemma PassShares(dealt: nat, n: nat, m: nat)
    requires n > 0 && dealt % n == 0 && m <= n
    ensures forall i: nat :: i < n ==> Share(i, dealt + m, n) == Share(i, dealt, n) + if i < m then 1 else 0
    ensures m == n ==> (dealt + m) % n == 0
  {
    var q := dealt / n;
    assert dealt == q * n;
    if m == n {
      assert dealt + m == (q + 1) * n;
      DivUnique(dealt + m, n, q + 1, 0);
    } else {
      DivUnique(dealt + m, n, q, m);
    }
  }

  /** The expected and desired counts of a list of pods, for one ascending order of the zones. */
  ghost function Expectation(pods: seq<Pod>, find: Finder, maxUnavailable: IntOrPercent,
                             groups: map<Zone, seq<Pod>>, order: seq<Zone>): Result<(map<Zone, int>, map<Zone, int>)>
    requires Ascending(order, Observed(groups))
  {
    match ControllerScales(pods, find)
    case Err => Err
    case Ok(scales) =>
      match Scaled(maxUnavailable, Sum(scales))
      case Err => Err
      case Ok(limit) =>
        var expected := TopUp(Observed(groups), order, Sum(scales));
        Ok((expected, Desired(expected, limit)))
  }

  /** Expected counts share out the scale over the pods listed; desired ones are less by the limit. */
  ghost predicate CountsFor(groups: map<Zone, seq<Pod>>, scale: int, limit: int, expected: map<Zone, int>,
                            desired: map<Zone, int>)
  {
    && SharedOut(expected, map z | z in groups :: |groups[z]|, scale)
    && desired.Keys == groups.Keys && forall z :: z in groups ==> desired[z] == Max(0, expected[z] - limit)
  }

  lemma TopUpCounts(groups: map<Zone, seq<Pod>>, observed: map<Zone, int>, order: seq<Zone>, scale: int, limit: int,
                    expected: map<Zone, int>, desired: map<Zone, int>)
    requires observed == Observed(groups) && Ascending(order, observed)
    requires expected == TopUp(observed, order, scale) && desired == Desired(expected, limit)
    ensures CountsFor(groups, scale, limit, expected, desired)
  {
    TopUpIsSharedOut(observed, order, scale);
    assert observed == map z | z in groups :: |groups[z]|;
  }

  lemma ExpectationShares(pods: seq<Pod>, find: Finder, maxUnavailable: IntOrPercent, groups: map<Zone, seq<Pod>>,
                          order: seq<Zone>, expected: map<Zone, int>, desired: map<Zone, int>)
    returns (scale: int, limit: int)
    requires Ascending(order, Observed(groups))
    requires Expectation(pods, find, maxUnavailable, groups, order) == Ok((expected, desired))
    ensures ControllerScales(pods, find).Ok? && scale == Sum(ControllerScales(pods, find).value)
    ensures Scaled(maxUnavailable, scale) == Ok(limit) && CountsFor(groups, scale, limit, expected, desired)
  {
    scale := Sum(ControllerScales(pods, find).value);
    limit := Scaled(maxUnavailable, scale).value;
    TopUpCounts(groups, Observed(groups), order, scale, limit, expected, desired);
  }

  /**
   * getExpectedPodCount: the nested loops compute the closed form, for whatever ascending order the sort has chosen.
   */
  method GetExpectedPodCount(pods: seq<Pod>, find: Finder, maxUnavailable: IntOrPercent, helper: Helper, nodes: Nodes)
    returns (r: Result<(map<Zone, int>, map<Zone, int>)>, groups: map<Zone, seq<Pod>>, ghost order: seq<Zone>)
    modifies helper
    ensures r.Ok? ==> helper.cache == CacheAfter(pods, nodes, old(helper.cache))
    ensures r.Ok? && DistinctNames(pods) ==> groups == Group(pods, helper.cache)
    ensures r.Ok? ==> Ascending(order, Observed(groups)) && r == Expectation(pods, find, maxUnavailable, groups, order)
    ensures r.Ok? ==> CountsFor(groups, Sum(ControllerScales(pods, find).value),
                                Scaled(maxUnavailable, Sum(ControllerScales(pods, find).value)).value,
                                r.value.0, r.value.1)
    ensures r.Err? ==> helper.cache == old(helper.cache)
    ensures r.Err? <==> ControllerScales(pods, find).Err?
                        || Scaled(maxUnavailable, Sum(ControllerScales(pods, find).value)).Err?
  {
    groups, order := map[], [];
    var scale, _ := GetExpectedScale(pods, find);
    if scale.Err? {
      return Err, groups, order;
    }
    var limit := Scaled(maxUnavailable, scale.value);
    if limit.Err? {
      return Err, groups, order;
    }
    groups := helper.GetZonePodsMap(pods, nodes);
    var expected, totalPods := CountObserved(groups);
    var pairs := SortMapByValue(expected);
    order := Keys(pairs);
    expected := DealMissing(expected, pairs, totalPods, scale.value);
    var desired := LowerBounds(expected, limit.value);
    r := Ok((expected, desired));
    TopUpCounts(groups, Observed(groups), order, scale.value, limit.value, expected, desired);
  }

  method CountObserved(groups: map<Zone, seq<Pod>>) returns (expected: map<Zone, int>, totalPods: int)
    ensures expected == Observed(groups) && totalPods == Sum(expected)
  {
    expected, totalPods := map[], 0;
    var rest := groups.Keys;
    while rest != {}
      invariant rest <= groups.Keys
      invariant expected.Keys == groups.Keys - rest
      invariant forall z :: z in expected ==> expected[z] == |groups[z]|
      invariant totalPods == Sum(expected)
      decreases rest
    {
      var zone :| zone in rest;
      ghost var grown := expected[zone := |groups[zone]|];
      SumRemove(grown, zone);
      assert grown - {zone} == expected;
      expected := expected[zone := |groups[zone]|];
      totalPods := totalPods + |groups[zone]|;
      rest := rest - {zone};
    }
  }

  method LowerBounds(expected: map<Zone, int>, maxUnavailable: int) returns (desired: map<Zone, int>)
    ensures desired == Desired(expected, maxUnavailable)
  {
    desired := map[];
    var rest := expected.Keys;
    while rest != {}
      invariant rest <= expected.Keys
      invariant desired.Keys == expected.Keys - rest
      invariant forall z :: z in desired ==> desired[z] == Max(0, expected[z] - maxUnavailable)
      decreases rest
    {
      var zone :| zone in rest;
      desired := desired[zone := expected[zone] - maxUnavailable];
      if desired[zone] < 0 {
        desired := desired[zone := 0];
      }
      rest := rest - {zone};
    }
  }

  /** d pods have been dealt out along order. */
  ghost predicate DealtOut(expected: map<Zone, int>, observed: map<Zone, int>, order: seq<Zone>, d: nat)
    requires Enumerates(order, observed.Keys)
  {
    && expected.Keys == observed.Keys
    && forall i: nat :: i < |order| ==> expected[order[i]] == observed[order[i]] + Share(i, d, |order|)
  }

  /** expected is given with one more pod in each of the first m zones of order. */
  ghost predicate Raised(expected: map<Zone, int>, given: map<Zone, int>, order: seq<Zone>, m: nat)
    requires Enumerates(order, given.Keys)
  {
    && expected.Keys == given.Keys
    && forall i: nat :: i < |order| ==> expected[order[i]] == given[order[i]] + if i < m then 1 else 0
  }

  lemma DealtAfterPass(expected: map<Zone, int>, given: map<Zone, int>, observed: map<Zone, int>, order: seq<Zone>,
                       d: nat, m: nat)
    requires Enumerates(order, observed.Keys) && order != [] && m <= |order|
    requires DealtOut(given, observed, order, d) && d % |order| == 0 && Raised(expected, given, order, m)
    ensures DealtOut(expected, observed, order, d + m)
    ensures m == |order| ==> (d + m) % |order| == 0
  {
    PassShares(d, |order|, m);
    var e := d + m;
    forall i: nat | i < |order| ensures expected[order[i]] == observed[order[i]] + Share(i, e, |order|) {
      assert given[order[i]] == observed[order[i]] + Share(i, d, |order|);
    }
    assert DealtOut(expected, observed, order, e);
  }

  lemma DealtIsTopUp(expected: map<Zone, int>, observed: map<Zone, int>, order: seq<Zone>, total: int)
    requires Enumerates(order, observed.Keys)
    requires order == [] || DealtOut(expected, observed, order, Shortfall(observed, total))
    requires expected.Keys == observed.Keys
    ensures expected == TopUp(observed, order, total)
  {}

  lemma NothingDealt(observed: map<Zone, int>, order: seq<Zone>)
    requires Enumerates(order, observed.Keys)
    ensures DealtOut(observed, observed, order, 0)
  {}

  /** The outer loop of the top-up: passes over the sorted zones until the total is reached. */
  method DealMissing(observed: map<Zone, int>, pairs: seq<Pair>, observedPods: int, total: int)
    returns (expected: map<Zone, int>)
    requires Ascending(Keys(pairs), observed) && observedPods == Sum(observed)
    ensures expected == TopUp(observed, Keys(pairs), total)
  {
    ghost var order := Keys(pairs);
    ghost var dealt: nat := 0;
    expected := observed;
    var totalPods := observedPods;
    NothingDealt(observed, order);
    while total > totalPods && |pairs| > 0
      invariant totalPods == observedPods + dealt
      invariant dealt <= Shortfall(observed, total)
      invariant |pairs| > 0 && total > totalPods ==> dealt % |pairs| == 0
      invariant DealtOut(expected, observed, order, dealt)
      decreases total - totalPods
    {
      ghost var m, given := Min(|pairs|, total - totalPods), expected;
      expected, totalPods := DealPass(expected, pairs, totalPods, total);
      DealtAfterPass(expected, given, observed, order, dealt, m);
      dealt := dealt + m;
    }
    DealtIsTopUp(expected, observed, order, total);
  }

  /** One pass of the inner loop, which stops as soon as the total is reached. */
  method DealPass(given: map<Zone, int>, pairs: seq<Pair>, podsBefore: int, total: int)
    returns (expected: map<Zone, int>, totalPods: int)
    requires Enumerates(Keys(pairs), given.Keys) && podsBefore < total
    ensures totalPods == podsBefore + Min(|pairs|, total - podsBefore)
    ensures Raised(expected, given, Keys(pairs), Min(|pairs|, total - podsBefore))
  {
    ghost var order := Keys(pairs);
    expected, totalPods := given, podsBefore;
    var j := 0;
    while j < |pairs|
      invariant 0 <= j <= |pairs|
      invariant totalPods == podsBefore + j && totalPods < total
      invariant expected.Keys == given.Keys
      invariant forall i :: 0 <= i < |pairs| ==> expected[order[i]] == given[order[i]] + if i < j then 1 else 0
    {
      var key := pairs[j].key;
      assert key == order[j];
      expected := expected[key := expected[key] + 1];
      totalPods := totalPods + 1;
      j := j + 1;
      if totalPods >= total {
        break;
      }
    }
  }
}
