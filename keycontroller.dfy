/** The informer-driven controller of `pkg/operator/controller`: informer
    callbacks queue object keys, and the worker looks each key up and calls
    `Set` for a stored object or `Remove` for a vanished one, settling the
    key by the shared retry rule, where an error caused by a terminating
    namespace counts as success. */
module KeyController {
  import opened Wrappers
  import opened Kube
  import opened Cache
  import opened Informer
  import opened Queue
  import opened Retry

  /** `v1.NamespaceTerminatingCause`. */
  const NamespaceTerminating := "NamespaceTerminating"

  /** An error: its text and the API status causes it carries, which
      `errors.HasStatusCause` inspects. */
  datatype Error = Error(message: string, causes: set<string>)

  /** The `Handler` the controller calls, as the answers its two
      operations give. */
  datatype Handler = Handler(setObject: Object -> Outcome<Error>, remove: (string, string) -> Outcome<Error>)

  /** `handle(ctx, key)`: a routing failure becomes a formatted error that
      carries no status cause; otherwise the handler's answer for the
      stored object (`Set`) or for the namespace and name the key splits
      into (`Remove`). */
  function Handle(key: string, indexer: Indexer, h: Handler): (r: Outcome<Error>)
    ensures Route(key, indexer).Err? ==> r == Fail(Error(Describe(Route(key, indexer).error), {}))
    ensures Route(key, indexer).Ok? && Route(key, indexer).value.Present? ==>
      r == h.setObject(Route(key, indexer).value.obj)
    ensures Route(key, indexer).Ok? && Route(key, indexer).value.Absent? ==>
      r == h.remove(Route(key, indexer).value.namespace, Route(key, indexer).value.name)
  {
    match Route(key, indexer)
    case Err(e) => Fail(Error(Describe(e), {}))
    case Ok(Present(o)) => h.setObject(o)
    case Ok(Absent(ns, name)) => h.remove(ns, name)
  }

  /** A nil error and an error caused by a terminating namespace end the
      round like a success; any other error is a failure. */
  function Classify(r: Outcome<Error>): (v: Verdict)
    ensures v == Succeeded <==> r.Pass? || NamespaceTerminating in r.error.causes
    ensures v != Skipped
  {
    if r.Pass? || NamespaceTerminating in r.error.causes then Succeeded else Failed
  }

  /** How the worker judges a key. */
  function Judge(indexer: Indexer, h: Handler): string -> Verdict
  {
    key => Classify(Handle(key, indexer, h))
  }

  /** A routing failure is never forgiven: the key is retried. */
  lemma RoutingFailureRetried(key: string, indexer: Indexer, h: Handler)
    requires Route(key, indexer).Err?
    ensures Judge(indexer, h)(key) == Failed
  {
  }

  /** A handler error caused by a terminating namespace forgets the key
      and does not re-add it, however often it was retried before. */
  lemma TerminatingNamespaceForgiven(s: Snapshot<string>, key: string, indexer: Indexer, h: Handler)
    requires Route(key, indexer).Ok?
    requires var r := Handle(key, indexer, h); r.Fail? && NamespaceTerminating in r.error.causes
    ensures var t := Settled(s, key, Judge(indexer, h)(key));
      Count(t.forgottenTimes, key) == Count(s.forgottenTimes, key) + 1 && t.queuedTimes == s.queuedTimes
  {
    SuccessForgets(s, key);
  }

  /** An object whose deletion was seen and that the indexer no longer
      holds reaches `Remove` with its own namespace and name, once its
      queued key is handled. */
  lemma DeletedObjectRemoved(o: Object, indexer: Indexer, h: Handler)
    requires Accessor(o).Some?
    requires var m := Accessor(o).value; '/' !in m.namespace && '/' !in m.name
    requires indexer(MetaNamespaceKey(Accessor(o).value)) == Ok(None)
    ensures var m := Accessor(o).value;
      DeletionHandlingMetaNamespaceKeyFunc(Obj(o)) == Ok(MetaNamespaceKey(m)) &&
      Handle(MetaNamespaceKey(m), indexer, h) == h.remove(m.namespace, m.name)
  {
    VanishedObjectDeleted(Accessor(o).value, indexer);
  }

  class Controller {
    const queue: FakeQueue<string>
    const indexer: Indexer
    const handler: Handler
    /** How this controller's worker judges a key. */
    const judge: string -> Verdict

    /** The judge rates every handled key as `Classify` rates its handling. */
    ghost predicate Valid()
    {
      forall key {:trigger Handle(key, indexer, handler)} :: judge(key) == Classify(Handle(key, indexer, handler))
    }

    /** `New(eventHandler, informer, resourceType)`: a new queue over the
        informer's indexer. */
    constructor (indexer: Indexer, handler: Handler)
      ensures fresh(queue) && queue.State() == Empty()
      ensures this.indexer == indexer && this.handler == handler
      ensures Valid()
    {
      queue := new FakeQueue<string>("");
      this.indexer := indexer;
      this.handler := handler;
      this.judge := Judge(indexer, handler);
    }

    /** `enqueue(obj)`: queues the object's `namespace/name` key; nothing
        when the value has no key. */
    method Enqueue(obj: Value)
      modifies queue
      ensures MetaNamespaceKeyFunc(obj).Ok? ==> queue.State() == Added(old(queue.State()), MetaNamespaceKeyFunc(obj).value)
      ensures MetaNamespaceKeyFunc(obj).Err? ==> queue.State() == old(queue.State())
    {
      match MetaNamespaceKeyFunc(obj)
      case Err(_) =>
      case Ok(key) => queue.Add(key);
    }

    /** The informer's add callback. */
    method OnAdd(obj: Value)
      modifies queue
      ensures MetaNamespaceKeyFunc(obj).Ok? ==> queue.State() == Added(old(queue.State()), MetaNamespaceKeyFunc(obj).value)
      ensures MetaNamespaceKeyFunc(obj).Err? ==> queue.State() == old(queue.State())
    {
      Enqueue(obj);
    }

    /** The informer's update callback: the new object's key. */
    method OnUpdate(oldObj: Value, newObj: Value)
      modifies queue
      ensures MetaNamespaceKeyFunc(newObj).Ok? ==> queue.State() == Added(old(queue.State()), MetaNamespaceKeyFunc(newObj).value)
      ensures MetaNamespaceKeyFunc(newObj).Err? ==> queue.State() == old(queue.State())
    {
      Enqueue(newObj);
    }

    /** The informer's delete callback: the deletion-handling key (a
        tombstone's own key included), queued directly; nothing when the
        value has no key. */
    method OnDelete(obj: Value)
      modifies queue
      ensures DeletionHandlingMetaNamespaceKeyFunc(obj).Ok? ==> queue.State() == Added(old(queue.State()), DeletionHandlingMetaNamespaceKeyFunc(obj).value)
      ensures DeletionHandlingMetaNamespaceKeyFunc(obj).Err? ==> queue.State() == old(queue.State())
    {
      match DeletionHandlingMetaNamespaceKeyFunc(obj)
      case Err(_) =>
      case Ok(key) => queue.Add(key);
    }

    /** `processNextItem`: false iff the queue reports the shut-down;
        otherwise the front key is handled and settled by the retry rule
        with the terminating-namespace exception. `Get` waits on an empty
        queue that is not shut down, so the call is only made when a key is
        there or the queue is shut down. */
    method ProcessNextItem() returns (more: bool, handled: Option<string>)
      requires Valid()
      requires queue.queue != [] || queue.done
      modifies queue
      ensures more <==> !old(queue.done)
      ensures !more ==> handled == None && queue.State() == old(queue.State())
      ensures more ==>
        handled.Some? && Stepped(old(queue.State()), handled.value, queue.State(), judge)
    {
      var k, quit := queue.Get();
      if quit {
        return false, None;
      }
      var err := Handle(k, indexer, handler);
      if err.Pass? || NamespaceTerminating in err.error.causes {
        queue.Forget(k);
      } else if queue.NumRequeues(k) < MaxRetries {
        queue.AddRateLimited(k);
      } else {
        queue.Forget(k);
      }
      queue.Done(k);
      more, handled := true, Some(k);
    }

    /** One round of `worker`: the front key is handled, and the worker
        stays on course. */
    method WorkerRound(left: nat, handled: seq<string>, ghost total: (Snapshot<string>, seq<string>))
        returns (next: seq<string>)
      requires Valid() && left > 0 && !queue.done && queue.queue != []
      requires OnTrack(queue.State(), queue.nil, judge, left, handled, total)
      modifies queue
      ensures OnTrack(queue.State(), queue.nil, judge, left - 1, next, total)
    {
      ghost var s := queue.State();
      var more, k := ProcessNextItem();
      OnTrackStep(s, k.value, queue.State(), queue.nil, judge, left, handled, total);
      next := handled + [k.value];
    }

    /** `worker`: `processNextItem` until it reports false, here for up to
        `rounds` keys (the ticks until the context ends), stopping where
        `Get` would wait on an empty queue. Returns the keys handled. */
    method Worker(rounds: nat) returns (handled: seq<string>)
      requires Valid()
      modifies queue
      ensures var r := Rounds(old(queue.State()), queue.nil, judge, rounds);
        queue.State() == r.0 && handled == r.1
    {
      ghost var total := Rounds(queue.State(), queue.nil, judge, rounds);
      OnTrackStart(queue.State(), queue.nil, judge, rounds);
      handled := [];
      var left := rounds;
      while left > 0 && !queue.done && queue.queue != []
        invariant OnTrack(queue.State(), queue.nil, judge, left, handled, total)
      {
        handled := WorkerRound(left, handled, total);
        left := left - 1;
      }
      OnTrackEnd(queue.State(), queue.nil, judge, left, handled, total);
    }

    /** `Run(ctx)`: when the cache never syncs nothing is processed;
        otherwise the worker runs. Either way the deferred shut-down
        follows. */
    method Run(synced: bool, rounds: nat) returns (handled: seq<string>)
      requires Valid()
      modifies queue
      ensures !synced ==> handled == [] && queue.State() == old(queue.State()).(done := true)
      ensures synced ==> var r := Rounds(old(queue.State()), queue.nil, judge, rounds);
        queue.State() == r.0.(done := true) && handled == r.1
    {
      handled := [];
      if synced {
        handled := Worker(rounds);
      }
      queue.ShutDown();
    }
  }
}
