/** The swarm controller: it queues one command per swarm notification
    and handles the commands one at a time. Processing a swarm looks up
    the swarm and its statefulset, registers the statefulset's selector,
    lists the serving pods, stores a fresh pool for the swarm and then
    resizes it to the statefulset's replicas; a resize finds the owning
    swarm, resizes its pool and writes the new size and version back to
    the swarm resource. Each step returns the first error it meets.

    Processing registers the selector under the statefulset's name, while
    deletion un-registers the swarm's own name. */
module SwarmController {
  import opened Wrappers
  import opened Kube
  import SwarmApi
  import SwarmEvent
  import SelectorStore
  import Manager
  import SwarmProvider
  import Runner
  import Queue

  /** What the controller queues: the `processSwarm` command `Create` and
      `Update` build with `newProcessSwarm`, or one of the swarm events. */
  datatype Command = ProcessSwarm(namespace: string, name: string) | Event(event: SwarmEvent.Event)

  /** The swarm as `updateSwarm` sends it: a copy with the new size and
      version and everything else as it was. */
  function Revised(sw: SwarmApi.Swarm, version: int, size: int): (r: SwarmApi.Swarm)
    ensures r.meta == sw.meta && r.status == sw.status
    ensures r.spec.size == size && r.spec.version == version
    ensures r.spec.(size := sw.spec.size, version := sw.spec.version) == sw.spec
  {
    sw.(spec := sw.spec.(size := size, version := version))
  }

  class Controller {
    const runner: Runner.Runner<Command>
    const store: SelectorStore.Store
    const manager: Manager.Manager
    const provider: SwarmProvider.Provider
    /** `selectorStore.Register(namespace, name, selector)`, a call the
        selector store does not offer, as the error it answers. */
    const register: (string, string, LabelSelector) -> Outcome<string>
    /** The swarm client's `Update`. */
    const update: SwarmApi.Swarm -> Result<SwarmApi.Swarm, string>

    /** `NewSwarmController(client, store, manager, provider, runner)`. */
    constructor (runner: Runner.Runner<Command>, store: SelectorStore.Store, manager: Manager.Manager,
                 provider: SwarmProvider.Provider, register: (string, string, LabelSelector) -> Outcome<string>,
                 update: SwarmApi.Swarm -> Result<SwarmApi.Swarm, string>)
      ensures this.runner == runner && this.store == store && this.manager == manager
      ensures this.provider == provider && this.register == register && this.update == update
    {
      this.runner := runner;
      this.store := store;
      this.manager := manager;
      this.provider := provider;
      this.register := register;
      this.update := update;
    }

    /** `Create`: a process command is queued; the answer is nil. */
    method Create(namespace: string, name: string) returns (err: Outcome<string>)
      modifies runner.queue
      ensures runner.queue.State() == Queue.Added(old(runner.queue.State()), ProcessSwarm(namespace, name))
      ensures err == Pass
    {
      runner.Process(ProcessSwarm(namespace, name));
      return Pass;
    }

    /** `Update`: the same process command as `Create`. */
    method Update(namespace: string, name: string) returns (err: Outcome<string>)
      modifies runner.queue
      ensures runner.queue.State() == Queue.Added(old(runner.queue.State()), ProcessSwarm(namespace, name))
      ensures err == Pass
    {
      runner.Process(ProcessSwarm(namespace, name));
      return Pass;
    }

    /** `UpdatePoolSize`: a size event carrying the new size is queued. */
    method UpdatePoolSize(namespace: string, name: string, size: int) returns (err: Outcome<string>)
      modifies runner.queue
      ensures runner.queue.State() ==
        Queue.Added(old(runner.queue.State()), Event(SwarmEvent.UpdateSwarmSize(namespace, name, size)))
      ensures err == Pass
    {
      runner.Process(Event(SwarmEvent.UpdateSwarmSize(namespace, name, size)));
      return Pass;
    }

    /** `Delete`: a delete event is queued. */
    method Delete(namespace: string, name: string) returns (err: Outcome<string>)
      modifies runner.queue
      ensures runner.queue.State() ==
        Queue.Added(old(runner.queue.State()), Event(SwarmEvent.DeleteSwarm(namespace, name)))
      ensures err == Pass
    {
      runner.Process(Event(SwarmEvent.DeleteSwarm(namespace, name)));
      return Pass;
    }

    /** `updateSwarm`: the swarm is fetched again and sent back with the new
        size and version; either failure is reported. */
    function UpdateSwarm(namespace: string, name: string, version: int, size: int): (r: Result<SwarmApi.Swarm, string>)
      ensures r.Ok? <==>
        provider.swarms(namespace, name).Ok? && update(Revised(provider.swarms(namespace, name).value, version, size)).Ok?
      ensures r.Ok? ==> r == update(Revised(provider.swarms(namespace, name).value, version, size))
    {
      match provider.LookupSwarm(namespace, name)
      case Err(_) => Err("unable to get swarm namespace " + namespace + " name " + name)
      case Ok(sw) =>
        match update(Revised(sw, version, size))
        case Err(e) => Err("unable to update swarm " + sw.meta.name + " error " + e)
        case Ok(swu) => Ok(swu)
    }

    /** What `updatePool` answers: the first failure among finding the
        owning swarm, resizing its pool and updating the swarm resource. */
    function PoolOutcome(namespace: string, name: string, size: int): (r: Outcome<string>)
      reads manager
      ensures provider.Owner(namespace, name).Err? ==>
        r == Fail("unable to get swarm error " + provider.Owner(namespace, name).error)
      ensures provider.Owner(namespace, name).Ok? ==>
        var swarmName := provider.Owner(namespace, name).value;
        var (version, e) := manager.UpdateSize(namespace, swarmName, size);
        (e.Some? ==> r == Fail("unable to update swarm " + swarmName + " size error " + e.value)) &&
        (r == Pass <==> e.None? && UpdateSwarm(namespace, swarmName, version, size).Ok?)
    {
      match provider.Owner(namespace, name)
      case Err(e) => Fail("unable to get swarm error " + e)
      case Ok(swarmName) =>
        var (version, e) := manager.UpdateSize(namespace, swarmName, size);
        if e.Some? then Fail("unable to update swarm " + swarmName + " size error " + e.value)
        else match UpdateSwarm(namespace, swarmName, version, size)
          case Err(e) => Fail("unable to update swarm " + name + " error " + e)
          case Ok(_) => Pass
    }

    /** `updatePool`: resizes the owning swarm's pool and records the size
        and the pool's version on the swarm; the pools stay as they are. */
    method UpdatePool(namespace: string, name: string, size: int) returns (err: Outcome<string>)
      ensures err == PoolOutcome(namespace, name, size)
    {
      var swarmName := provider.SwarmNameFromStatefulSetName(namespace, name);
      if swarmName.Err? {
        return Fail("unable to get swarm error " + swarmName.error);
      }
      var (version, e) := manager.UpdateSize(namespace, swarmName.value, size);
      if e.Some? {
        return Fail("unable to update swarm " + swarmName.value + " size error " + e.value);
      }
      var updated := UpdateSwarm(namespace, swarmName.value, version, size);
      if updated.Err? {
        return Fail("unable to update swarm " + name + " error " + updated.error);
      }
      return Pass;
    }

    /** The steps of `process` before the pool is stored: the swarm, its
        statefulset, the selector registration and the pod listing, the
        first failure deciding the error. */
    ghost function Plan(namespace: string, name: string): Result<(SwarmApi.Swarm, StatefulSet), string>
    {
      match provider.LookupSwarm(namespace, name)
      case Err(e) => Err(e)
      case Ok(sw) =>
        match provider.LookupStatefulSet(sw.meta.namespace, sw.spec.statefulSetName)
        case Err(e) =>
          Err("unable to get statefulset from swarm " + name + " on namespace " + namespace + " error " + e)
        case Ok(sts) =>
          match register(namespace, sts.meta.name, sts.selector)
          case Fail(e) => Err("unable to register key " + namespace + " " + sts.meta.name + " error " + e)
          case Pass =>
            match provider.PodNames(namespace, sts.selector)
            case Err(e) => Err("unable to get pods from selector, error " + e)
            case Ok(_) => Ok((sw, sts))
    }

    /** `process`: when a step before the pool fails, its error is
        returned and no pool changes; otherwise the swarm's pool is stored
        with the swarm's version and jobs, and the pool is resized to the
        statefulset's replicas. */
    method Process(namespace: string, name: string) returns (err: Outcome<string>)
      modifies manager
      ensures Plan(namespace, name).Err? ==>
        err == Fail(Plan(namespace, name).error) && manager.index == old(manager.index)
      ensures Plan(namespace, name).Ok? ==>
        var (sw, sts) := Plan(namespace, name).value;
        manager.index == old(manager.index)[Manager.PoolKey(namespace, name) :=
          Manager.Entry(sw.spec.version, SwarmApi.JobsFromAlpha(sw.spec.workload), Manager.PoolKey(namespace, name))] &&
        err == PoolOutcome(namespace, sts.meta.name, sts.replicas)
    {
      var sw := provider.LookupSwarm(namespace, name);
      if sw.Err? {
        return Fail(sw.error);
      }
      var sts := provider.LookupStatefulSet(sw.value.meta.namespace, sw.value.spec.statefulSetName);
      if sts.Err? {
        return Fail("unable to get statefulset from swarm " + name + " on namespace " + namespace + " error " + sts.error);
      }
      var registered := register(namespace, sts.value.meta.name, sts.value.selector);
      if registered.Fail? {
        return Fail("unable to register key " + namespace + " " + sts.value.meta.name + " error " + registered.error);
      }
      var names := provider.PodNamesFromSelector(namespace, sts.value.selector);
      if names.Err? {
        return Fail("unable to get pods from selector, error " + names.error);
      }
      manager.Process(namespace, name, sw.value.spec.version, sw.value.spec.workload);
      err := UpdatePool(namespace, sts.value.meta.name, sts.value.replicas);
    }

    /** `delete`: the selector under the swarm's name is un-registered,
        then its pool is dropped; the answer is nil. */
    method DeleteSwarm(namespace: string, name: string) returns (err: Outcome<string>)
      modifies store, manager
      ensures store.index == old(store.index) - {SelectorStore.Key(namespace, name)}
      ensures manager.index == old(manager.index) - {Manager.PoolKey(namespace, name)}
      ensures err == Pass
    {
      store.UnRegister(namespace, name);
      manager.Delete(namespace, name);
      return Pass;
    }

    /** `handle`: a process command goes to `process`, a size event to
        `updatePool`, a delete event to `delete`; the create and update
        events of the event set have no case and are refused. */
    method Handle(c: Command) returns (err: Outcome<string>)
      modifies store, manager
      ensures c.ProcessSwarm? && Plan(c.namespace, c.name).Err? ==>
        err == Fail(Plan(c.namespace, c.name).error) && manager.index == old(manager.index)
      ensures c.ProcessSwarm? && Plan(c.namespace, c.name).Ok? ==>
        var (sw, sts) := Plan(c.namespace, c.name).value;
        manager.index == old(manager.index)[Manager.PoolKey(c.namespace, c.name) :=
          Manager.Entry(sw.spec.version, SwarmApi.JobsFromAlpha(sw.spec.workload), Manager.PoolKey(c.namespace, c.name))] &&
        err == PoolOutcome(c.namespace, sts.meta.name, sts.replicas)
      ensures c.Event? && c.event.UpdateSwarmSize? ==>
        err == PoolOutcome(c.event.namespace, c.event.name, c.event.size) && manager.index == old(manager.index)
      ensures c.Event? && c.event.DeleteSwarm? ==>
        store.index == old(store.index) - {SelectorStore.Key(c.event.namespace, c.event.name)} &&
        manager.index == old(manager.index) - {Manager.PoolKey(c.event.namespace, c.event.name)} && err == Pass
      ensures c.Event? && (c.event.CreateSwarm? || c.event.UpdateSwarm?) ==>
        err == Fail("action " + c.event.TypeName() + " not handled") && manager.index == old(manager.index)
      ensures !(c.Event? && c.event.DeleteSwarm?) ==> store.index == old(store.index)
    {
      if c.ProcessSwarm? {
        err := Process(c.namespace, c.name);
      } else if c.event.UpdateSwarmSize? {
        err := UpdatePool(c.event.namespace, c.event.name, c.event.size);
      } else if c.event.DeleteSwarm? {
        err := DeleteSwarm(c.event.namespace, c.event.name);
      } else {
        err := Fail("action " + c.event.TypeName() + " not handled");
      }
    }
  }

  /** `process` gets past its early returns exactly when the swarm and its
      statefulset are found, the registration succeeds and the pods can be
      listed. */
  lemma PlanSucceeds(c: Controller, namespace: string, name: string)
    ensures c.Plan(namespace, name).Ok? <==>
      c.provider.swarms(namespace, name).Ok? &&
      var sw := c.provider.swarms(namespace, name).value;
      c.provider.statefulSets(sw.meta.namespace, sw.spec.statefulSetName).Ok? &&
      var sts := c.provider.statefulSets(sw.meta.namespace, sw.spec.statefulSetName).value;
      c.register(namespace, sts.meta.name, sts.selector).Pass? &&
      c.provider.PodNames(namespace, sts.selector).Ok?
    ensures c.Plan(namespace, name).Ok? ==>
      c.Plan(namespace, name).value.0 == c.provider.swarms(namespace, name).value
  {
  }
}
