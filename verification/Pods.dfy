/** Pods as both controllers read them, and their order-preserving partition by zone. */
module Pods {
  import opened Seqs

  type Zone = string
  type PodName = string
  type NodeName = string
  type Time = int

  datatype Phase = Pending | Running | Succeeded | Failed | Unknown

  datatype ControllerRef = ControllerRef(kind: string, name: string, uid: string)

  /** ordinal is the number that ends the name of a StatefulSet's pod. */
  datatype Pod = Pod(name: PodName, node: NodeName, ordinal: int, phase: Phase, ready: bool, terminating: bool,
                     revision: Option<string>, controller: Option<ControllerRef>)

  predicate RunningAndReady(pod: Pod) {
    pod.phase == Running && pod.ready
  }

  /** Serving, and not on its way out. */
  predicate Up(pod: Pod) {
    !pod.terminating && RunningAndReady(pod)
  }

  ghost predicate DistinctNames(pods: seq<Pod>) {
    forall i, j :: 0 <= i < j < |pods| ==> pods[i].name != pods[j].name
  }

  function InZone(zoneOf: map<PodName, Zone>, z: Zone): Pod -> bool {
    (p: Pod) => p.name in zoneOf && zoneOf[p.name] == z
  }

  /** All names are of known zone, and that is the same for all. */
  ghost predicate OneZone(names: set<PodName>, zoneOf: map<PodName, Zone>) {
    && (forall n :: n in names ==> n in zoneOf)
    && forall m, n :: m in names && n in names ==> zoneOf[m] == zoneOf[n]
  }

  function ZonesOf(pods: seq<Pod>, zoneOf: map<PodName, Zone>): set<Zone> {
    set p | p in pods && p.name in zoneOf :: zoneOf[p.name]
  }

  /** The pods of every zone, in the order of the list; pods of unknown zone are dropped. */
  function Group(pods: seq<Pod>, zoneOf: map<PodName, Zone>): map<Zone, seq<Pod>> {
    map z | z in ZonesOf(pods, zoneOf) :: Filter(pods, InZone(zoneOf, z))
  }

  lemma {:induction false} NoneInZone(pods: seq<Pod>, zoneOf: map<PodName, Zone>, z: Zone)
    requires z !in ZonesOf(pods, zoneOf)
    ensures Filter(pods, InZone(zoneOf, z)) == []
  {
    if pods != [] {
      var front := pods[..|pods| - 1];
      assert forall p :: p in front ==> p in pods;
      NoneInZone(front, zoneOf, z);
      assert pods[|pods| - 1] in pods;
    }
  }

  /** A pod of unknown zone changes no group. */
  lemma GroupSkips(pods: seq<Pod>, i: nat, zoneOf: map<PodName, Zone>)
    requires i < |pods| && pods[i].name !in zoneOf
    ensures Group(pods[..i + 1], zoneOf) == Group(pods[..i], zoneOf)
  {
    ZonesStep(pods, i, zoneOf);
    forall z | z in ZonesOf(pods[..i], zoneOf)
      ensures Filter(pods[..i + 1], InZone(zoneOf, z)) == Filter(pods[..i], InZone(zoneOf, z))
    {
      FilterStep(pods, i, InZone(zoneOf, z));
    }
  }

  /** Another pod of zone z comes last in its group. */
  lemma OwnGroup(pods: seq<Pod>, i: nat, zoneOf: map<PodName, Zone>, z: Zone)
    requires i < |pods| && InZone(zoneOf, z)(pods[i])
    ensures var before := Group(pods[..i], zoneOf);
            Filter(pods[..i + 1], InZone(zoneOf, z)) == (if z in before then before[z] else []) + [pods[i]]
  {
    FilterStep(pods, i, InZone(zoneOf, z));
    if z !in ZonesOf(pods[..i], zoneOf) {
      NoneInZone(pods[..i], zoneOf, z);
    }
  }

  lemma GroupStep(pods: seq<Pod>, i: nat, zoneOf: map<PodName, Zone>)
    requires i < |pods|
    ensures pods[i].name !in zoneOf ==> Group(pods[..i + 1], zoneOf) == Group(pods[..i], zoneOf)
    ensures pods[i].name in zoneOf ==>
              var z, before := zoneOf[pods[i].name], Group(pods[..i], zoneOf);
              Group(pods[..i + 1], zoneOf) == before[z := (if z in before then before[z] else []) + [pods[i]]]
  {
    if pods[i].name in zoneOf {
      var z, before, after := zoneOf[pods[i].name], Group(pods[..i], zoneOf), Group(pods[..i + 1], zoneOf);
      var updated := before[z := (if z in before then before[z] else []) + [pods[i]]];
      ZonesStep(pods, i, zoneOf);
      OwnGroup(pods, i, zoneOf, z);
      forall y | y in before && y != z ensures after[y] == before[y] {
        FilterStep(pods, i, InZone(zoneOf, y));
      }
      assert after.Keys == updated.Keys && forall y :: y in after ==> after[y] == updated[y];
    } else {
      GroupSkips(pods, i, zoneOf);
    }
  }

  lemma ZonesStep(pods: seq<Pod>, i: nat, zoneOf: map<PodName, Zone>)
    requires i < |pods|
    ensures ZonesOf(pods[..i + 1], zoneOf)
            == ZonesOf(pods[..i], zoneOf) + if pods[i].name in zoneOf then {zoneOf[pods[i].name]} else {}
  {}

  /** The groups split the pods of known zone: every one is in the group of its zone and in no other. */
  lemma GroupsPartition(pods: seq<Pod>, zoneOf: map<PodName, Zone>)
    ensures forall z, p :: z in Group(pods, zoneOf) && p in Group(pods, zoneOf)[z] ==>
              p in pods && p.name in zoneOf && zoneOf[p.name] == z
    ensures forall p :: p in pods && p.name in zoneOf ==>
              zoneOf[p.name] in Group(pods, zoneOf) && p in Group(pods, zoneOf)[zoneOf[p.name]]
    ensures forall z :: z in Group(pods, zoneOf) ==> Group(pods, zoneOf)[z] != []
  {
    forall z ensures forall p :: p in Filter(pods, InZone(zoneOf, z)) <==> p in pods && InZone(zoneOf, z)(p) {
      FilterMembers(pods, InZone(zoneOf, z));
    }
    forall z | z in Group(pods, zoneOf) ensures Group(pods, zoneOf)[z] != [] {
      var p :| p in pods && p.name in zoneOf && zoneOf[p.name] == z;
      assert p in Filter(pods, InZone(zoneOf, z));
    }
  }
}
