/** The runner-driven controller of `pkg/operator`: informer callbacks hand
    object keys to a `Runner`, and once the cache has synced the runner's
    worker looks each key up and calls `Handle` for a stored object or
    `Delete` for a vanished one. Unlike the queue-owning controller it has
    no exception for terminating namespaces: every handler error is
    retried up to the runner's limit. */
module OperatorController {
  import opened Wrappers
  import opened Kube
  import opened Cache
  import opened Informer
  import opened Retry
  import Runner
  import Queue

  /** The `Handler` the controller calls, as the answers its two
      operations give. */
  datatype Handler = Handler(handle: Object -> Outcome<string>, delete: (string, string) -> Outcome<string>)

  /** `handle(ctx, k)`: a routing failure becomes a formatted error;
      otherwise the handler's answer for the stored object (`Handle`) or
      for the namespace and name the key splits into (`Delete`). */
  function Handle(key: string, indexer: Indexer, h: Handler): (r: Outcome<string>)
    ensures Route(key, indexer).Err? ==> r == Fail(Describe(Route(key, indexer).error))
    ensures Route(key, indexer).Ok? && Route(key, indexer).value.Present? ==>
      r == h.handle(Route(key, indexer).value.obj)
    ensures Route(key, indexer).Ok? && Route(key, indexer).value.Absent? ==>
      r == h.delete(Route(key, indexer).value.namespace, Route(key, indexer).value.name)
  {
    match Route(key, indexer)
    case Err(e) => Fail(Describe(e))
    case Ok(Present(o)) => h.handle(o)
    case Ok(Absent(ns, name)) => h.delete(ns, name)
  }

  /** The method value `c.handle` the controller gives its runner. */
  function HandleFunc(indexer: Indexer, h: Handler): string -> Outcome<string>
  {
    key => Handle(key, indexer, h)
  }

  /** Any failure of `Handle`, whatever its cause, is a failed round for
      the runner. */
  lemma EveryErrorRetried(key: string, indexer: Indexer, h: Handler)
    requires Handle(key, indexer, h).Fail?
    ensures Runner.Judge(HandleFunc(indexer, h))(key) == Failed
  {
  }

  /** An object whose deletion was seen and that the indexer no longer
      holds reaches `Delete` with its own namespace and name, once its
      queued key is handled. */
  lemma DeletedObjectDeleted(o: Object, indexer: Indexer, h: Handler)
    requires Accessor(o).Some?
    requires var m := Accessor(o).value; '/' !in m.namespace && '/' !in m.name
    requires indexer(MetaNamespaceKey(Accessor(o).value)) == Ok(None)
    ensures var m := Accessor(o).value;
      DeletionHandlingMetaNamespaceKeyFunc(Obj(o)) == Ok(MetaNamespaceKey(m)) &&
      HandleFunc(indexer, h)(MetaNamespaceKey(m)) == h.delete(m.namespace, m.name)
  {
    VanishedObjectDeleted(Accessor(o).value, indexer);
  }

  class Controller {
    const runner: Runner.Runner<string>
    const indexer: Indexer
    const handler: Handler

    /** `New(eventHandler, informer, runner, resourceType)`: the controller
        over the informer's indexer and the given runner. */
    constructor (indexer: Indexer, handler: Handler, runner: Runner.Runner<string>)
      ensures this.indexer == indexer && this.handler == handler && this.runner == runner
    {
      this.indexer := indexer;
      this.handler := handler;
      this.runner := runner;
    }

    /** `enqueue(obj)`: the deletion-handling key goes to the runner;
        nothing when the value has no key. */
    method Enqueue(obj: Value)
      modifies runner.queue
      ensures DeletionHandlingMetaNamespaceKeyFunc(obj).Ok? ==>
        runner.queue.State() == Queue.Added(old(runner.queue.State()), DeletionHandlingMetaNamespaceKeyFunc(obj).value)
      ensures DeletionHandlingMetaNamespaceKeyFunc(obj).Err? ==> runner.queue.State() == old(runner.queue.State())
    {
      match DeletionHandlingMetaNamespaceKeyFunc(obj)
      case Err(_) =>
      case Ok(key) => runner.Process(key);
    }

    /** The informer's add callback. */
    method OnAdd(obj: Value)
      modifies runner.queue
      ensures DeletionHandlingMetaNamespaceKeyFunc(obj).Ok? ==>
        runner.queue.State() == Queue.Added(old(runner.queue.State()), DeletionHandlingMetaNamespaceKeyFunc(obj).value)
      ensures DeletionHandlingMetaNamespaceKeyFunc(obj).Err? ==> runner.queue.State() == old(runner.queue.State())
    {
      Enqueue(obj);
    }

    /** The informer's update callback: the new object's key. */
    method OnUpdate(oldObj: Value, newObj: Value)
      modifies runner.queue
      ensures DeletionHandlingMetaNamespaceKeyFunc(newObj).Ok? ==>
        runner.queue.State() == Queue.Added(old(runner.queue.State()), DeletionHandlingMetaNamespaceKeyFunc(newObj).value)
      ensures DeletionHandlingMetaNamespaceKeyFunc(newObj).Err? ==> runner.queue.State() == old(runner.queue.State())
    {
      Enqueue(newObj);
    }

    /** The informer's delete callback. */
    method OnDelete(obj: Value)
      modifies runner.queue
      ensures DeletionHandlingMetaNamespaceKeyFunc(obj).Ok? ==>
        runner.queue.State() == Queue.Added(old(runner.queue.State()), DeletionHandlingMetaNamespaceKeyFunc(obj).value)
      ensures DeletionHandlingMetaNamespaceKeyFunc(obj).Err? ==> runner.queue.State() == old(runner.queue.State())
    {
      Enqueue(obj);
    }

    /** `Run(ctx)`: when the cache never syncs it returns at once, leaving
        the runner untouched and its queue running; otherwise the runner
        runs with `handle` as its handler. */
    method Run(synced: bool, rounds: nat) returns (handled: seq<string>)
      modifies runner, runner.queue
      ensures !synced ==>
        handled == [] && runner.queue.State() == old(runner.queue.State()) && runner.handle == old(runner.handle)
      ensures synced ==> runner.handle == Some(HandleFunc(indexer, handler))
      ensures synced ==>
        var r := Rounds(old(runner.queue.State()), runner.queue.nil, Runner.Judge(HandleFunc(indexer, handler)), rounds);
        runner.queue.State() == r.0.(done := true) && handled == r.1
    {
      handled := [];
      if synced {
        handled := runner.Run(HandleFunc(indexer, handler), rounds);
      }
    }
  }
}
