/** The statefulset handler of `pkg/operator`: every callback makes the
    pool's `UpdateExpectedSize` call exactly once, with the replica count of
    the statefulset it was given (the new one on an update), or 0 on a
    deletion. */
module ExpectedSize {
  import opened Wrappers
  import opened Kube
  import opened Events
  import opened Processor

  /** The callback carries the statefulsets the handler asserts: the
      object of a creation or deletion, the new object of an update. */
  predicate OnStatefulSet(c: Callback)
  {
    match c
    case Created(o) => o.StatefulSetObject?
    case Updated(n, _) => n.StatefulSetObject?
    case Deleted(o) => o.StatefulSetObject?
  }

  /** The size the callback passes to `UpdateExpectedSize`. */
  function Size(c: Callback): (size: int)
    requires OnStatefulSet(c)
  {
    match c
    case Created(o) => o.statefulSet.replicas
    case Updated(n, _) => n.statefulSet.replicas
    case Deleted(_) => 0
  }

  /** A statefulset update whose key is still stored sets the expected size
      to the new object's replica count, whatever the old one's was. */
  lemma UpdateSizesFromNewObject(key: string, oldS: StatefulSet, newS: StatefulSet)
    ensures var r := Processor.Handle(UpdateEvent(key, StatefulSetObject(oldS), StatefulSetObject(newS)), Ok(true));
      r.0 == Pass && OnStatefulSet(r.1[0]) && Size(r.1[0]) == newS.replicas
  {
  }

  /** A creation whose key has already left the store sets the expected
      size to 0: the processor turns it into a deletion. */
  lemma VanishedCreationSizesZero(key: string, s: StatefulSet)
    ensures var r := Processor.Handle(CreateEvent(key, StatefulSetObject(s)), Ok(false));
      r.0 == Pass && OnStatefulSet(r.1[0]) && Size(r.1[0]) == 0
  {
  }

  /** Any event on statefulsets with a successful lookup makes exactly one
      size call, and the size is one of the event's replica counts or 0. */
  lemma OneSizeCallPerEvent(ev: Event, stored: bool)
    requires ev.CreateEvent? ==> ev.obj.StatefulSetObject?
    requires ev.UpdateEvent? ==> ev.oldObj.StatefulSetObject? && ev.newObj.StatefulSetObject?
    ensures var r := Processor.Handle(ev, Ok(stored));
      |r.1| == 1 && OnStatefulSet(r.1[0]) &&
      (ev.CreateEvent? ==> Size(r.1[0]) == if stored then ev.obj.statefulSet.replicas else 0) &&
      (ev.UpdateEvent? ==> Size(r.1[0]) == if stored then ev.newObj.statefulSet.replicas else 0)
  {
  }
}
