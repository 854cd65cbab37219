/** The pod-to-zone helper and its cache (pkg/podzone). */
module PodZone {
  import opened Seqs
  import opened Pods
  import opened Sorting

  /**
   * What a read of the node objects finds: no entry for a node that cannot be read, None for one without a zone label.
   */
  type Nodes = map<NodeName, Option<Zone>>

  function Lookup(pod: Pod, nodes: Nodes, cache: map<PodName, Zone>): Option<Zone> {
    if pod.node in nodes && nodes[pod.node].Some? then nodes[pod.node]
    else if pod.name in cache then Some(cache[pod.name])
    else None
  }

  function Remember(pod: Pod, nodes: Nodes, cache: map<PodName, Zone>): map<PodName, Zone> {
    if pod.node in nodes && nodes[pod.node].Some? then cache[pod.name := nodes[pod.node].value] else cache
  }

  /** The cache once every pod of the list has been looked up. */
  function CacheAfter(pods: seq<Pod>, nodes: Nodes, cache: map<PodName, Zone>): map<PodName, Zone> {
    if pods == [] then cache
    else Remember(pods[|pods| - 1], nodes, CacheAfter(pods[..|pods| - 1], nodes, cache))
  }

  lemma {:induction false} CacheAfterOthers(pods: seq<Pod>, nodes: Nodes, cache: map<PodName, Zone>, name: PodName)
    requires forall p :: p in pods ==> p.name != name
    ensures name in CacheAfter(pods, nodes, cache) <==> name in cache
    ensures name in cache ==> CacheAfter(pods, nodes, cache)[name] == cache[name]
  {
    if pods != [] {
      CacheAfterOthers(pods[..|pods| - 1], nodes, cache, name);
    }
  }

  /** For pods with names of their own, the cache ends up holding exactly the zone each pod was given. */
  lemma {:induction false} CacheHoldsLookups(pods: seq<Pod>, nodes: Nodes, cache: map<PodName, Zone>, i: nat)
    requires DistinctNames(pods) && i < |pods|
    ensures Lookup(pods[i], nodes, CacheAfter(pods[..i], nodes, cache)) == Lookup(pods[i], nodes, cache)
    ensures var final := CacheAfter(pods, nodes, cache);
            Lookup(pods[i], nodes, cache)
            == if pods[i].name in final then Some(final[pods[i].name]) else None
  {
    var front := pods[..|pods| - 1];
    if i == |pods| - 1 {
      CacheAfterOthers(front, nodes, cache, pods[i].name);
    } else {
      CacheHoldsLookups(front, nodes, cache, i);
      assert front[..i] == pods[..i];
    }
  }

  function Place(groups: map<Zone, seq<Pod>>, pod: Pod, zone: Option<Zone>): map<Zone, seq<Pod>> {
    if zone.None? then groups
    else if zone.value in groups then groups[zone.value := groups[zone.value] + [pod]]
    else groups[zone.value := [pod]]
  }

  /** The groups as the loop builds them: each pod appended to its zone by what its lookup finds at that moment. */
  function Placed(pods: seq<Pod>, nodes: Nodes, cache: map<PodName, Zone>): map<Zone, seq<Pod>> {
    if pods == [] then map[]
    else
      var front, last := pods[..|pods| - 1], pods[|pods| - 1];
      Place(Placed(front, nodes, cache), last, Lookup(last, nodes, CacheAfter(front, nodes, cache)))
  }

  /** The next pod is placed where the cache will have it in the end. */
  lemma PlaceNext(pods: seq<Pod>, nodes: Nodes, cache: map<PodName, Zone>, i: nat, final: map<PodName, Zone>)
    requires DistinctNames(pods) && i < |pods| && final == CacheAfter(pods, nodes, cache)
    ensures Group(pods[..i + 1], final)
            == Place(Group(pods[..i], final), pods[i], Lookup(pods[i], nodes, CacheAfter(pods[..i], nodes, cache)))
  {
    CacheHoldsLookups(pods, nodes, cache, i);
    GroupStep(pods, i, final);
    assert [] + [pods[i]] == [pods[i]];
  }

  /** For pods with names of their own, that is the grouping by the zones the cache holds in the end. */
  lemma {:induction false} PlacedIsGroup(pods: seq<Pod>, nodes: Nodes, cache: map<PodName, Zone>, n: nat,
                                         final: map<PodName, Zone>)
    requires DistinctNames(pods) && n <= |pods| && final == CacheAfter(pods, nodes, cache)
    ensures Placed(pods[..n], nodes, cache) == Group(pods[..n], final)
  {
    if n > 0 {
      PlacedIsGroup(pods, nodes, cache, n - 1, final);
      PlaceNext(pods, nodes, cache, n - 1, final);
      assert pods[..n][..n - 1] == pods[..n - 1];
    }
  }

  /** Looking up some of the pods again teaches the cache nothing. */
  lemma {:induction false} CacheIsSettled(pods: seq<Pod>, nodes: Nodes, cache: map<PodName, Zone>, again: seq<Pod>)
    requires DistinctNames(pods) && forall i :: 0 <= i < |again| ==> again[i] in pods
    ensures var final := CacheAfter(pods, nodes, cache); CacheAfter(again, nodes, final) == final
  {
    if again != [] {
      CacheIsSettled(pods, nodes, cache, again[..|again| - 1]);
      assert again[|again| - 1] in pods;
      var i :| 0 <= i < |pods| && pods[i] == again[|again| - 1];
      CacheHoldsLookups(pods, nodes, cache, i);
    }
  }

  /** A pod that has been placed keeps its zone when its node can no longer be read. */
  lemma ZoneSurvivesNodeLoss(pods: seq<Pod>, nodes: Nodes, cache: map<PodName, Zone>, i: nat, later: Nodes)
    requires DistinctNames(pods) && i < |pods|
    requires pods[i].node !in later
    ensures Lookup(pods[i], later, CacheAfter(pods, nodes, cache)) == Lookup(pods[i], nodes, cache)
  {
    CacheHoldsLookups(pods, nodes, cache, i);
  }

  class Helper {
    var cache: map<PodName, Zone>

    constructor ()
      ensures cache == map[]
    {
      cache := map[];
    }

    method GetZoneFromCache(name: PodName) returns (zone: Option<Zone>)
      ensures zone == if name in cache then Some(cache[name]) else None
    {
      if name in cache {
        return Some(cache[name]);
      }
      return None;
    }

    method GetPodZone(pod: Pod, nodes: Nodes) returns (zone: Option<Zone>)
      modifies this
      ensures zone == Lookup(pod, nodes, old(cache)) && cache == Remember(pod, nodes, old(cache))
      ensures pod.node in nodes && nodes[pod.node].Some? ==> zone == nodes[pod.node]
      ensures pod.node !in nodes || nodes[pod.node].None? ==> cache == old(cache)
      ensures match zone
              case Some(z) => pod.name in cache && cache[pod.name] == z
              case None => pod.name !in cache
      ensures forall n :: n in cache && n != pod.name ==> n in old(cache) && cache[n] == old(cache)[n]
      ensures forall n :: n in old(cache) ==> n in cache
    {
      if pod.node !in nodes {
        zone := GetZoneFromCache(pod.name);
        return;
      }
      if nodes[pod.node].None? {
        zone := GetZoneFromCache(pod.name);
        return;
      }
      cache := cache[pod.name := nodes[pod.node].value];
      return nodes[pod.node];
    }

    method GetZonePodsMap(pods: seq<Pod>, nodes: Nodes) returns (podZoneMap: map<Zone, seq<Pod>>)
      modifies this
      ensures cache == CacheAfter(pods, nodes, old(cache))
      ensures podZoneMap == Placed(pods, nodes, old(cache))
      ensures DistinctNames(pods) ==> podZoneMap == Group(pods, cache)
    {
      podZoneMap := map[];
      var i := 0;
      while i < |pods|
        invariant 0 <= i <= |pods|
        invariant cache == CacheAfter(pods[..i], nodes, old(cache))
        invariant podZoneMap == Placed(pods[..i], nodes, old(cache))
      {
        var pod := pods[i];
        assert pods[..i + 1][..i] == pods[..i];
        var zone := GetPodZone(pod, nodes);
        if zone.Some? {
          if zone.value in podZoneMap {
            podZoneMap := podZoneMap[zone.value := podZoneMap[zone.value] + [pod]];
          } else {
            podZoneMap := podZoneMap[zone.value := [pod]];
          }
        }
        i := i + 1;
      }
      assert pods[..i] == pods;
      if DistinctNames(pods) {
        PlacedIsGroup(pods, nodes, old(cache), |pods|, cache);
      }
    }

    method GetSortedZonesFromMap(zonePodsMap: map<Zone, seq<Pod>>) returns (zones: seq<Zone>)
      ensures Enumerates(zones, zonePodsMap.Keys)
      ensures forall i, j :: 0 <= i < j < |zones| ==> Less(zones[i], zones[j]) && Precedes(zones[i], zones[j])
    {
      var unsorted := ListZones(zonePodsMap);
      var a := new Zone[|unsorted|](i requires 0 <= i < |unsorted| => unsorted[i]);
      assert a[..] == unsorted;
      SortInPlace(a, Less);
      zones := a[..];
      SortedZonesAscend(unsorted, zonePodsMap.Keys);
    }

    method ListZones(zonePodsMap: map<Zone, seq<Pod>>) returns (zones: seq<Zone>)
      ensures Enumerates(zones, zonePodsMap.Keys)
    {
      zones := [];
      var rest := zonePodsMap.Keys;
      while rest != {}
        invariant rest <= zonePodsMap.Keys
        invariant Enumerates(zones, zonePodsMap.Keys - rest)
        decreases rest
      {
        var zone :| zone in rest;
        zones := zones + [zone];
        rest := rest - {zone};
      }
    }
  }

  lemma SortedZonesAscend(zones: seq<Zone>, keys: set<Zone>)
    requires Enumerates(zones, keys)
    ensures var sorted := Sort(zones, Less);
            && Enumerates(sorted, keys)
            && forall i, j :: 0 <= i < j < |sorted| ==> Less(sorted[i], sorted[j]) && Precedes(sorted[i], sorted[j])
  {
    LessIsWeakOrder();
    SortSorts(zones, Less);
    var sorted := Sort(zones, Less);
    PermutedIsDistinct(zones, sorted);
    forall i | 0 <= i < |sorted| ensures sorted[i] in keys { assert sorted[i] in zones; }
    forall i, j | 0 <= i < j < |sorted| ensures Less(sorted[i], sorted[j]) && Precedes(sorted[i], sorted[j]) {
      LessIsStrict(sorted[i], sorted[j]);
      LessIsLexical(sorted[i], sorted[j]);
    }
  }

  lemma LessIsWeakOrder()
    ensures WeakOrder(Less)
  {
    forall x, y ensures Less(x, y) ==> !Less(y, x) { LessIsStrict(x, y); }
    forall x, y, z | !Less(y, x) && !Less(z, y) ensures !Less(z, x) { LessIsTransitive(x, y, z); }
  }
}
