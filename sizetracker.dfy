/** The statefulset handler of the swarm pool controller: it passes a
    statefulset's replica count on to the pool controller only when the
    statefulset belongs to a registered swarm and the count differs from
    the last one seen, which it records per `namespace/name`. */
module SizeTracker {
  import opened Wrappers
  import opened Kube
  import SelectorStore

  /** A call of `UpdatePoolSize(ctx, namespace, name, size)`. */
  datatype SizeCall = SizeCall(namespace: string, name: string, size: int)

  /** `hasLastSizeVariation` on values: whether `replicas` differs from
      the size last recorded under `k` (0 when none is), and the table
      with `replicas` recorded. */
  function Variation(lastSize: map<string, int>, k: string, replicas: int): (r: (bool, map<string, int>))
    ensures r.1 == lastSize[k := replicas]
    ensures r.0 <==> replicas != (if k in lastSize then lastSize[k] else 0)
  {
    var last := if k in lastSize then lastSize[k] else 0;
    (replicas != last, lastSize[k := replicas])
  }

  /** A count seen a second time is no variation, and leaves the table as
      the first sighting left it. */
  lemma VariationIdempotent(lastSize: map<string, int>, k: string, replicas: int)
    ensures var t := Variation(lastSize, k, replicas).1;
      Variation(t, k, replicas) == (false, t)
  {
    var t := Variation(lastSize, k, replicas).1;
    assert t[k := replicas] == t;
  }

  /** A statefulset first seen with no replicas is no variation. */
  lemma FirstEmptySightingSilent(lastSize: map<string, int>, k: string)
    requires k !in lastSize
    ensures !Variation(lastSize, k, 0).0
  {
  }

  class Handler {
    const selector: SelectorStore.Store
    /** The pool controller's answer to `UpdatePoolSize`. */
    const updatePoolSize: (string, string, int) -> Outcome<string>
    var lastSizeIndex: map<string, int>

    /** `NewHandler(c, s)`: an empty last-size table. */
    constructor (updatePoolSize: (string, string, int) -> Outcome<string>, selector: SelectorStore.Store)
      ensures this.selector == selector && this.updatePoolSize == updatePoolSize
      ensures lastSizeIndex == map[]
    {
      this.selector := selector;
      this.updatePoolSize := updatePoolSize;
      lastSizeIndex := map[];
    }

    /** `hasLastSizeVariation(ss)`. */
    method HasLastSizeVariation(ss: StatefulSet) returns (changed: bool)
      modifies this
      ensures (changed, lastSizeIndex) ==
        Variation(old(lastSizeIndex), ss.meta.namespace + "/" + ss.meta.name, ss.replicas)
    {
      var k := ss.meta.namespace + "/" + ss.meta.name;
      ghost var before := lastSizeIndex;
      if k !in lastSizeIndex {
        lastSizeIndex := lastSizeIndex[k := 0];
      }
      assert lastSizeIndex[k := ss.replicas] == before[k := ss.replicas];
      changed := ss.replicas != lastSizeIndex[k];
      lastSizeIndex := lastSizeIndex[k := ss.replicas];
    }

    /** `Handle(ctx, o)`: nothing for a statefulset the store does not
        match; otherwise the size is recorded, and passed on, with the pool
        controller's answer returned, only when it changed. */
    method Handle(ss: StatefulSet) returns (err: Outcome<string>, call: Option<SizeCall>)
      modifies this
      ensures var k := ss.meta.namespace + "/" + ss.meta.name;
        if !selector.Matches(ss.meta.namespace, ss.meta.name, ss.meta.labels) then
          err == Pass && call == None && lastSizeIndex == old(lastSizeIndex)
        else
          var v := Variation(old(lastSizeIndex), k, ss.replicas);
          lastSizeIndex == v.1 &&
          (v.0 ==> call == Some(SizeCall(ss.meta.namespace, ss.meta.name, ss.replicas)) &&
                   err == updatePoolSize(ss.meta.namespace, ss.meta.name, ss.replicas)) &&
          (!v.0 ==> call == None && err == Pass)
    {
      if !selector.Matches(ss.meta.namespace, ss.meta.name, ss.meta.labels) {
        return Pass, None;
      }
      var changed := HasLastSizeVariation(ss);
      if !changed {
        return Pass, None;
      }
      call := Some(SizeCall(ss.meta.namespace, ss.meta.name, ss.replicas));
      err := updatePoolSize(ss.meta.namespace, ss.meta.name, ss.replicas);
    }

    /** `Delete(ctx, namespace, name)`, given whether the selector store
        reports the statefulset registered: nothing for an unregistered
        one; otherwise the pool size goes to 0 and the recorded size is
        dropped, whatever the pool controller answers. */
    method Delete(namespace: string, name: string, registered: bool) returns (err: Outcome<string>, call: Option<SizeCall>)
      modifies this
      ensures !registered ==> err == Pass && call == None && lastSizeIndex == old(lastSizeIndex)
      ensures registered ==>
        call == Some(SizeCall(namespace, name, 0)) && err == updatePoolSize(namespace, name, 0) &&
        lastSizeIndex == old(lastSizeIndex) - {namespace + "/" + name}
    {
      if !registered {
        return Pass, None;
      }
      call := Some(SizeCall(namespace, name, 0));
      err := updatePoolSize(namespace, name, 0);
      CleanLastSize(namespace, name);
    }

    /** `cleanLastSize(namespace, name)`. */
    method CleanLastSize(namespace: string, name: string)
      modifies this
      ensures lastSizeIndex == old(lastSizeIndex) - {namespace + "/" + name}
    {
      lastSizeIndex := lastSizeIndex - {namespace + "/" + name};
    }
  }

  /** The same statefulset handled twice with the same replica count
      reaches the pool controller at most once. */
  method RepeatedSizeForwardedOnce(h: Handler, ss: StatefulSet) returns (first: Option<SizeCall>, second: Option<SizeCall>)
    modifies h
    ensures second == None
    ensures var unseen := (ss.meta.namespace + "/" + ss.meta.name) !in old(h.lastSizeIndex);
      h.selector.Matches(ss.meta.namespace, ss.meta.name, ss.meta.labels) && unseen && ss.replicas != 0 ==>
        first == Some(SizeCall(ss.meta.namespace, ss.meta.name, ss.replicas))
  {
    var err1, err2;
    err1, first := h.Handle(ss);
    err2, second := h.Handle(ss);
  }
}
