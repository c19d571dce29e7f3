/** The swarm pool controller's manager: one worker pool per swarm, keyed
    `namespace/name`. A processed swarm replaces whatever pool its key held;
    a size change is forwarded to the swarm's pool and the pool's
    assignment is then dumped to the swarm's configmap; a deleted swarm's
    pool is dropped. */
module Manager {
  import opened Wrappers
  import Config
  import SwarmApi
  import SelectorStore

  /** The pool `Process` stores: `newWorkerPool(version, newState(jobs,
      key), delegated)`, as the version, the converted jobs and the key
      the balancer names its workers after. */
  datatype Entry = Entry(version: int, jobs: seq<Config.Job>, setName: string)

  /** The manager's key for a swarm, the same `namespace/name` the
      selector store uses. */
  function PoolKey(namespace: string, name: string): string
  {
    SelectorStore.Key(namespace, name)
  }

  /** The jobs of the resource converted one by one, as `Process` does it. */
  method ConvertJobs(workloads: seq<SwarmApi.Job>) returns (jobs: seq<Config.Job>)
    ensures jobs == SwarmApi.JobsFromAlpha(workloads)
  {
    jobs := [];
    var i := 0;
    while i < |workloads|
      invariant 0 <= i <= |workloads|
      invariant jobs == SwarmApi.JobsFromAlpha(workloads[..i])
    {
      assert workloads[..i + 1][..i] == workloads[..i];
      jobs := jobs + [workloads[i].name];
      i := i + 1;
    }
    assert workloads[..i] == workloads;
  }

  class Manager {
    var index: map<string, Entry>
    /** `Pool.UpdateSize(ctx, size)` of a stored pool: the version it
        reports and its error. */
    const resize: (Entry, int) -> (int, Option<string>)
    /** The swarm lister's `Swarms(namespace).Get(name)`. */
    const swarms: (string, string) -> Result<SwarmApi.Swarm, string>
    /** `Pool.Dump(ctx, namespace, configMapName)` of a stored pool. */
    const dump: (Entry, string, string) -> Option<string>

    /** `NewManager(delegated, lister)`: no pools. */
    constructor (resize: (Entry, int) -> (int, Option<string>),
                 swarms: (string, string) -> Result<SwarmApi.Swarm, string>,
                 dump: (Entry, string, string) -> Option<string>)
      ensures index == map[]
      ensures this.resize == resize && this.swarms == swarms && this.dump == dump
    {
      index := map[];
      this.resize := resize;
      this.swarms := swarms;
      this.dump := dump;
    }

    /** `Process`: a fresh pool for the swarm, holding its version and its
        jobs in order, replaces any pool stored under its key; no other key
        changes. */
    method Process(namespace: string, name: string, version: int, workloads: seq<SwarmApi.Job>)
      modifies this
      ensures index == old(index)[PoolKey(namespace, name) :=
        Entry(version, SwarmApi.JobsFromAlpha(workloads), PoolKey(namespace, name))]
    {
      var k := PoolKey(namespace, name);
      var wp := ConvertJobs(workloads);
      index := index[k := Entry(version, wp, k)];
    }

    /** `UpdateSize`: the version the swarm's pool reports and the first
        error among an unregistered key, the pool's own error, the swarm
        lookup and the configmap dump. Only the lookup failure and the
        unregistered key report version 0. */
    function UpdateSize(namespace: string, name: string, size: int): (r: (int, Option<string>))
      reads this
      ensures PoolKey(namespace, name) !in index ==>
        r == (0, Some("no " + namespace + " " + name + " regustered"))
      ensures PoolKey(namespace, name) in index && resize(index[PoolKey(namespace, name)], size).1.Some? ==>
        r == resize(index[PoolKey(namespace, name)], size)
    {
      var k := PoolKey(namespace, name);
      if k !in index then (0, Some("no " + namespace + " " + name + " regustered"))
      else
        var (v, err) := resize(index[k], size);
        if err.Some? then (v, err)
        else match swarms(namespace, name)
          case Err(e) => (0, Some("unable to find swarm " + name + " error " + e))
          case Ok(sw) =>
            match dump(index[k], namespace, sw.spec.configMapName)
            case Some(e) => (v, Some("unable to dump swarm " + name + " error " + e))
            case None => (v, None)
    }

    /** `Delete`: the swarm's pool is dropped if there is one; other pools
        stay. */
    method Delete(namespace: string, name: string)
      modifies this
      ensures index == old(index) - {PoolKey(namespace, name)}
    {
      var k := PoolKey(namespace, name);
      if k !in index {
        return;
      }
      index := index - {k};
    }
  }

  /** A size update succeeds exactly when the swarm has a pool, the pool
      accepts the size, the swarm is found and the dump to its configmap
      works; it then reports the pool's version. */
  lemma UpdateSizeSucceeds(m: Manager, namespace: string, name: string, size: int)
    ensures var k := PoolKey(namespace, name);
      m.UpdateSize(namespace, name, size).1.None? <==>
        k in m.index && m.resize(m.index[k], size).1.None? && m.swarms(namespace, name).Ok? &&
        m.dump(m.index[k], namespace, m.swarms(namespace, name).value.spec.configMapName).None?
    ensures var k := PoolKey(namespace, name);
      m.UpdateSize(namespace, name, size).1.None? ==>
        m.UpdateSize(namespace, name, size).0 == m.resize(m.index[k], size).0
  {
  }

  /** A processed swarm can be resized, without error when its pool, the
      lookup and the dump succeed; once deleted, resizing it reports it
      unregistered; deleting an absent swarm changes nothing. */
  method ProcessResizeDelete(m: Manager, namespace: string, name: string, version: int,
                             jobs: seq<SwarmApi.Job>, size: int)
      returns (first: Option<string>, second: Option<string>)
    modifies m
    ensures var e := Entry(version, SwarmApi.JobsFromAlpha(jobs), PoolKey(namespace, name));
      m.resize(e, size).1.None? && m.swarms(namespace, name).Ok? &&
      m.dump(e, namespace, m.swarms(namespace, name).value.spec.configMapName).None? ==>
        first.None?
    ensures second == Some("no " + namespace + " " + name + " regustered")
    ensures m.index == old(m.index) - {PoolKey(namespace, name)}
  {
    m.Process(namespace, name, version, jobs);
    first := m.UpdateSize(namespace, name, size).1;
    m.Delete(namespace, name);
    m.Delete(namespace, name);
    second := m.UpdateSize(namespace, name, size).1;
  }
}
