/** The pod handler of the swarm pool controller: pod notifications keep
    the worker pool's registry in step with the statefulset's pods. A pod
    that can serve joins under its name with the ordinal its name carries;
    a pod that is going away, or gone, leaves. The handler's readiness and
    naming helpers repeat those of `pkg/operator/pod` word for word, so
    they are the `PodState` ones here. */
module PodHandler {
  import opened Wrappers
  import opened Kube
  import opened PodState
  import Text
  import W = Worker
  import Pool

  /** A pod the pool registers: ready, and named with an ordinal. */
  predicate Joins(p: Pod)
  {
    IsReadyPod(p) && StatefulSetIndex(p.meta.name).Ok?
  }

  class Handler {
    const pool: Pool.Pool
    /** `net.ParseIP`, the address the pool stores for a pod IP. */
    const parseIP: string -> W.IP

    /** `NewHandler(st)`. */
    constructor (pool: Pool.Pool, parseIP: string -> W.IP)
      ensures this.pool == pool && this.parseIP == parseIP
    {
      this.pool := pool;
      this.parseIP := parseIP;
    }

    /** `Created(ctx, obj)`: a pod that joins is added under its name
        unless a worker of that name is registered; any other pod leaves
        the registry as it was. */
    method Created(p: Pod)
      requires pool.Valid()
      modifies pool
      ensures pool.Valid()
      ensures !Joins(p) || p.meta.name in old(pool.index) ==> pool.index == old(pool.index)
      ensures Joins(p) ==> p.meta.name in pool.index
      ensures Joins(p) && p.meta.name !in old(pool.index) ==>
        var w := pool.index[p.meta.name];
        pool.index == old(pool.index)[p.meta.name := w] &&
        w.index == StatefulSetIndex(p.meta.name).value && w.name == p.meta.name &&
        w.state == W.WaitingAssignation
      ensures pool.version == old(pool.version) && pool.expectedSize == old(pool.expectedSize)
    {
      if !IsReadyPod(p) {
        return;
      }
      match StatefulSetIndex(p.meta.name)
      case Err(_) =>
      case Ok(idx) =>
        var added := pool.AddWorkerIfNotExists(idx, p.meta.name, parseIP(p.podIP));
    }

    /** `Updated(ctx, new, old)`: a new pod state with a deletion timestamp
        or a terminated container removes the worker; otherwise the new
        state is handled as a creation. The old state is not read. */
    method Updated(newPod: Pod, oldPod: Pod)
      requires pool.Valid()
      modifies pool
      ensures pool.Valid()
      ensures HasDeletionTimestamp(newPod) || SomeContainerTerminated(newPod) ==>
        pool.index == old(pool.index) - {newPod.meta.name}
      ensures !HasDeletionTimestamp(newPod) && !SomeContainerTerminated(newPod) ==>
        (!Joins(newPod) || newPod.meta.name in old(pool.index) ==> pool.index == old(pool.index)) &&
        (Joins(newPod) ==> newPod.meta.name in pool.index) &&
        (Joins(newPod) && newPod.meta.name !in old(pool.index) ==>
           var w := pool.index[newPod.meta.name];
           pool.index == old(pool.index)[newPod.meta.name := w] &&
           w.index == StatefulSetIndex(newPod.meta.name).value && w.name == newPod.meta.name &&
           w.state == W.WaitingAssignation)
      ensures pool.version == old(pool.version) && pool.expectedSize == old(pool.expectedSize)
    {
      var terminated := IsTerminated(newPod);
      if HasDeletionTimestamp(newPod) || terminated {
        Deleted(newPod);
        return;
      }
      Created(newPod);
    }

    /** `Deleted(ctx, obj)`: the worker of the pod's name is removed,
        registered or not. */
    method Deleted(p: Pod)
      requires pool.Valid()
      modifies pool
      ensures pool.Valid()
      ensures pool.index == old(pool.index) - {p.meta.name}
      ensures pool.version == old(pool.version) && pool.expectedSize == old(pool.expectedSize)
    {
      pool.RemoveWorkerByName(p.meta.name);
    }
  }

  /** A running pod named by its statefulset, `<set>-<i>`, with an address
      and a node, joins the pool as worker `i`. */
  lemma StatefulSetPodJoins(p: Pod, setName: string, i: nat)
    requires i <= Text.MaxInt64
    requires p.meta.name == setName + "-" + Text.Decimal(i)
    requires !p.hostNetwork && p.podIP != "" && p.nodeName != "" && p.phase == "Running"
    ensures Joins(p) && StatefulSetIndex(p.meta.name) == Ok(i)
  {
    OrdinalRoundTrip(setName, i);
  }
}
