/** What the top-up means: how much is dealt out, how evenly, and that the choice among tied zones does not matter. */
module TopUpFacts {
  import opened Seqs
  import opened Pods
  import opened SortMap

  ghost function Shortfall(observed: map<Zone, int>, total: int): nat {
    Max(0, total - Sum(observed))
  }

  /** What the zone of rank i receives when d missing pods are dealt out to n zones. */
  function Share(i: nat, d: nat, n: nat): nat
    requires n > 0
  {
    d / n + if i < d % n then 1 else 0
  }

  /** The closed form of the top-up: every zone gains its share of the shortfall, by rank. */
  ghost function TopUp(observed: map<Zone, int>, order: seq<Zone>, total: int): map<Zone, int>
    requires Enumerates(order, observed.Keys)
  {
    map z | z in observed :: observed[z] + Share(IndexOf(order, z), Shortfall(observed, total), |order|)
  }

  lemma TopUpAt(observed: map<Zone, int>, order: seq<Zone>, total: int, i: nat)
    requires Enumerates(order, observed.Keys) && i < |order|
    ensures order[i] in observed
    ensures TopUp(observed, order, total)[order[i]]
            == observed[order[i]] + Share(i, Shortfall(observed, total), |order|)
  {}

  /** The first m ranks together receive m full rounds plus the part of the remainder that falls among them. */
  lemma {:induction false} SharesSum(observed: map<Zone, int>, expected: map<Zone, int>, order: seq<Zone>, q: nat,
                                     r: nat)
    requires forall i :: 0 <= i < |order| ==> order[i] in observed && order[i] in expected
    requires forall i :: 0 <= i < |order| ==>
               expected[order[i]] == observed[order[i]] + q + if i < r then 1 else 0
    ensures SumAlong(order, expected) == SumAlong(order, observed) + |order| * q + Min(|order|, r)
  {
    if order != [] {
      SharesSum(observed, expected, order[..|order| - 1], q, r);
      assert |order| * q == (|order| - 1) * q + q;
    }
  }

  /**
   * With a zone to deal to, the expected counts add up to the larger of the controllers' scale and the observed pods.
   */
  lemma TopUpReachesTotal(observed: map<Zone, int>, order: seq<Zone>, total: int)
    requires Enumerates(order, observed.Keys)
    ensures Sum(TopUp(observed, order, total)) == if observed == map[] then 0 else Max(total, Sum(observed))
  {
    var expected := TopUp(observed, order, total);
    assert expected.Keys == observed.Keys;
    if order == [] {
      assert observed.Keys == {};
      assert expected == map[];
    } else {
      SumAlongKeys(order, expected);
      SumAlongKeys(order, observed);
      TopUpAlong(observed, order, total);
    }
  }

  lemma Recompose(d: nat, n: nat)
    requires n > 0
    ensures n * (d / n) + Min(n, d % n) == d
  {}

  lemma TopUpTerms(observed: map<Zone, int>, order: seq<Zone>, total: int, q: nat, r: nat)
    requires Enumerates(order, observed.Keys) && order != []
    requires q == Shortfall(observed, total) / |order| && r == Shortfall(observed, total) % |order|
    ensures forall i :: 0 <= i < |order| ==> order[i] in observed && order[i] in TopUp(observed, order, total)
    ensures forall i :: 0 <= i < |order| ==>
              TopUp(observed, order, total)[order[i]] == observed[order[i]] + q + if i < r then 1 else 0
  {}

  lemma TopUpAlong(observed: map<Zone, int>, order: seq<Zone>, total: int)
    requires Enumerates(order, observed.Keys) && order != []
    ensures forall i :: 0 <= i < |order| ==> order[i] in TopUp(observed, order, total)
    ensures SumAlong(order, TopUp(observed, order, total)) == SumAlong(order, observed) + Shortfall(observed, total)
  {
    var q, r := Shortfall(observed, total) / |order|, Shortfall(observed, total) % |order|;
    TopUpTerms(observed, order, total, q, r);
    SharesSum(observed, TopUp(observed, order, total), order, q, r);
    Recompose(Shortfall(observed, total), |order|);
  }

  /** No pair of zones ends further apart than it was, or than one pod. */
  lemma TopUpKeepsBalance(observed: map<Zone, int>, order: seq<Zone>, total: int, a: Zone, b: Zone)
    requires Ascending(order, observed) && a in observed && b in observed
    ensures var expected := TopUp(observed, order, total);
            expected[a] - expected[b] <= Max(1, observed[a] - observed[b])
  {}

  /**
   * What is missing is shared out: every zone keeps what it has, gains differ by at most one pod and the zones with
   * fewer pods gain no less, and with a zone to deal to the total is reached.
   */
  ghost predicate SharedOut(expected: map<Zone, int>, observed: map<Zone, int>, total: int) {
    && expected.Keys == observed.Keys
    && Sum(expected) == (if observed == map[] then 0 else Max(total, Sum(observed)))
    && (forall z :: z in observed ==> expected[z] >= observed[z])
    && (forall y, z :: y in observed && z in observed ==>
          expected[y] - expected[z] <= Max(1, observed[y] - observed[z]))
    && forall y, z :: y in observed && z in observed ==>
         && expected[y] - observed[y] <= expected[z] - observed[z] + 1
         && (observed[y] < observed[z] ==> expected[y] - observed[y] >= expected[z] - observed[z])
  }

  lemma TopUpGains(observed: map<Zone, int>, order: seq<Zone>, total: int, y: Zone, z: Zone)
    requires Ascending(order, observed) && y in observed && z in observed
    ensures var expected := TopUp(observed, order, total);
            && expected[y] >= observed[y] && expected[y] - observed[y] <= expected[z] - observed[z] + 1
            && (observed[y] < observed[z] ==> expected[y] - observed[y] >= expected[z] - observed[z])
  {
    var i, j := IndexOf(order, y), IndexOf(order, z);
    assert observed[y] < observed[z] ==> i < j;
  }

  lemma TopUpIsSharedOut(observed: map<Zone, int>, order: seq<Zone>, total: int)
    requires Ascending(order, observed)
    ensures SharedOut(TopUp(observed, order, total), observed, total)
  {
    TopUpReachesTotal(observed, order, total);
    forall y, z | y in observed && z in observed
      ensures var expected := TopUp(observed, order, total);
              && expected[y] >= observed[y] && expected[y] - expected[z] <= Max(1, observed[y] - observed[z])
              && expected[y] - observed[y] <= expected[z] - observed[z] + 1
              && (observed[y] < observed[z] ==> expected[y] - observed[y] >= expected[z] - observed[z])
    {
      TopUpKeepsBalance(observed, order, total, y, z);
      TopUpGains(observed, order, total, y, z);
    }
    assert TopUp(observed, order, total).Keys == observed.Keys;
  }

  lemma {:induction false} FewValues(s: seq<Zone>) returns (values: set<Zone>)
    ensures forall z :: z in s <==> z in values
    ensures |values| <= |s|
  {
    if s == [] {
      values := {};
    } else {
      var rest := FewValues(s[1..]);
      values := rest + {s[0]};
      assert s == [s[0]] + s[1..];
    }
  }

  lemma SomeOutside(zones: seq<Zone>, low: set<Zone>) returns (k: nat)
    requires Distinct(zones) && |low| < |zones|
    ensures k < |zones| && zones[k] !in low
  {
    if z :| z in zones && z !in low {
      k := IndexOf(zones, z);
    } else {
      DistinctSize(zones, low);
    }
  }

  /** The i + 1 zones that lead order' cannot all be among the i that lead order. */
  lemma RankedValueAtMost(m: map<Zone, int>, order: seq<Zone>, order': seq<Zone>, i: nat)
    requires Ascending(order, m) && Ascending(order', m) && i < |order| && i < |order'|
    ensures m[order[i]] <= m[order'[i]]
  {
    var low := FewValues(order[..i]);
    var k := SomeOutside(order'[..i + 1], low);
    var z := order'[k];
    assert z in m.Keys;
    var r := IndexOf(order, z);
    assert forall j :: 0 <= j < i ==> order[j] in order[..i];
    assert r >= i;
    calc {
      m[order[i]];
      <=
      m[order[r]];
      ==
      m[order'[k]];
      <=
      m[order'[i]];
    }
  }

  /** Who gets the remainder depends on how ties are broken, but what the zone of each rank gets does not. */
  lemma TiesDoNotMatter(observed: map<Zone, int>, order: seq<Zone>, order': seq<Zone>, total: int, i: nat)
    requires Ascending(order, observed) && Ascending(order', observed) && i < |order|
    ensures |order| == |order'|
    ensures TopUp(observed, order, total)[order[i]] == TopUp(observed, order', total)[order'[i]]
  {
    DistinctSize(order, observed.Keys);
    DistinctSize(order', observed.Keys);
    RankedValueAtMost(observed, order, order', i);
    RankedValueAtMost(observed, order', order, i);
    TopUpAt(observed, order, total, i);
    TopUpAt(observed, order', total, i);
  }

  /** How many zones are expected to hold exactly v pods. */
  ghost function ZonesHolding(expected: map<Zone, int>, v: int): nat {
    |set z | z in expected && expected[z] == v|
  }

  ghost function Values(order: seq<Zone>, m: map<Zone, int>): seq<int>
    requires forall i :: 0 <= i < |order| ==> order[i] in m
  {
    seq(|order|, i requires 0 <= i < |order| => m[order[i]])
  }

  lemma HoldersWithout(m: map<Zone, int>, k: Zone, v: int)
    requires k in m
    ensures ZonesHolding(m, v) == ZonesHolding(m - {k}, v) + if m[k] == v then 1 else 0
  {
    var m' := m - {k};
    var holders, holders' := set z | z in m && m[z] == v, set z | z in m' && m'[z] == v;
    assert k !in holders';
    assert holders == holders' + if m[k] == v then {k} else {};
  }

  lemma ValuesWithout(order: seq<Zone>, m: map<Zone, int>)
    requires order != [] && Enumerates(order, m.Keys)
    ensures var front, last := order[..|order| - 1], order[|order| - 1];
            && Enumerates(front, (m - {last}).Keys)
            && Values(order, m) == Values(front, m - {last}) + [m[last]]
  {}

  lemma {:induction false} HoldersByRank(m: map<Zone, int>, order: seq<Zone>, v: int)
    requires Enumerates(order, m.Keys)
    ensures ZonesHolding(m, v) == multiset(Values(order, m))[v]
    decreases |order|
  {
    if order == [] {
      assert m.Keys == {};
      assert m == map[];
    } else {
      var front, last := order[..|order| - 1], order[|order| - 1];
      ValuesWithout(order, m);
      HoldersByRank(m - {last}, front, v);
      HoldersWithout(m, last, v);
    }
  }

  lemma SameValuesSameHolders(order: seq<Zone>, order': seq<Zone>, e: map<Zone, int>, e': map<Zone, int>, v: int)
    requires Enumerates(order, e.Keys) && Enumerates(order', e'.Keys) && |order| == |order'|
    requires forall i: nat :: i < |order| ==> e[order[i]] == e'[order'[i]]
    ensures ZonesHolding(e, v) == ZonesHolding(e', v)
  {
    HoldersByRank(e, order, v);
    HoldersByRank(e', order', v);
    assert Values(order, e) == Values(order', e');
  }

  /** The multiset of expected counts is the same for every order an unstable sort may choose among ties. */
  lemma TopUpCountsAreFixed(observed: map<Zone, int>, order: seq<Zone>, order': seq<Zone>, total: int, v: int)
    requires Ascending(order, observed) && Ascending(order', observed)
    ensures ZonesHolding(TopUp(observed, order, total), v) == ZonesHolding(TopUp(observed, order', total), v)
  {
    DistinctSize(order, observed.Keys);
    DistinctSize(order', observed.Keys);
    var e, e' := TopUp(observed, order, total), TopUp(observed, order', total);
    assert e.Keys == observed.Keys && e'.Keys == observed.Keys;
    forall i: nat | i < |order| ensures e[order[i]] == e'[order'[i]] {
      TiesDoNotMatter(observed, order, order', total, i);
    }
    SameValuesSameHolders(order, order', e, e', v);
  }
}
