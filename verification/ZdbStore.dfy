/** The ZoneDisruptionBudget object, the private copies clients hold of it, and the versioned store they share. */
module ZdbStore {
  import opened Pods
  import opened ExpectedPods

  datatype Spec = Spec(maxUnavailable: IntOrPercent, dryRun: bool)

  datatype Status = Status(observedGeneration: int, disrupted: map<PodName, Time>, allowed: map<Zone, int>,
                           healthy: map<Zone, int>, unhealthy: map<Zone, int>,
                           desired: map<Zone, int>, expected: map<Zone, int>)

  datatype Zdb = Zdb(generation: int, spec: Spec, status: Status)

  const NO_STATUS := Status(0, map[], map[], map[], map[], map[], map[])

  /** A client's copy: the version it was read at, and fields the client is free to overwrite. */
  class Copy {
    var version: nat
    var generation: int
    var spec: Spec
    var status: Status

    constructor (version: nat, zdb: Zdb)
      ensures this.version == version && Value() == zdb
    {
      this.version := version;
      generation, spec, status := zdb.generation, zdb.spec, zdb.status;
    }

    function Value(): Zdb
      reads this
    {
      Zdb(generation, spec, status)
    }

    /** Get into an existing copy overwrites all of it. */
    method Refresh(version: nat, zdb: Zdb)
      modifies this
      ensures this.version == version && Value() == zdb
    {
      this.version := version;
      generation, spec, status := zdb.generation, zdb.spec, zdb.status;
    }
  }

  /** Every version of the object, oldest first. */
  class Store {
    var history: seq<Zdb>

    ghost predicate Valid()
      reads this
    {
      history != []
    }

    function Latest(): nat
      requires Valid()
      reads this
    {
      |history| - 1
    }

    constructor (zdb: Zdb)
      ensures Valid() && history == [zdb]
    {
      history := [zdb];
    }

    /** A status update succeeds only on the version it was read at; a conflict leaves the store as it was. */
    method UpdateStatus(copy: Copy) returns (ok: bool)
      requires Valid()
      modifies this, copy`version
      ensures Valid()
      ensures ok <==> old(copy.version) == old(Latest())
      ensures ok ==> history == old(history) + [old(history[Latest()]).(status := copy.status)]
      ensures ok ==> copy.version == Latest()
      ensures !ok ==> history == old(history) && copy.version == old(copy.version)
    {
      if copy.version != Latest() {
        return false;
      }
      history := history + [history[Latest()].(status := copy.status)];
      copy.version := Latest();
      return true;
    }
  }
}
