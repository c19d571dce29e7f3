/** The cache lookup both key-driven controllers make before calling their
    handler: the informer's indexer is asked for the key, a key it does not
    hold is split into namespace and name for a deletion, and a value it
    does hold must be a `runtime.Object`. The indexer's contents belong to
    the informer and are a parameter here. */
module Informer {
  import opened Wrappers
  import opened Kube
  import opened Cache

  /** The indexer's `GetByKey`: an error, nothing stored, or the value. */
  type Indexer = string -> Result<Option<Value>, string>

  /** Where a key leads: the stored object, or the deletion of the object
      the key names. */
  datatype Target = Present(obj: Object) | Absent(namespace: string, name: string)

  /** Why a key leads nowhere; each becomes a plain formatted error. */
  datatype RouteError =
    | LookupFailed(key: string, cause: string)
    | SplitFailed(key: string, cause: string)
    | NotAnObject(key: string, typeName: string)

  /** Go's `%T` of a stored value that is not a `runtime.Object`. */
  function TypeName(v: Value): string
  {
    match v
    case Nil => "<nil>"
    case Obj(_) => "runtime.Object"
    case Tombstone(_, _) => "cache.DeletedFinalStateUnknown"
    case Foreign(kind) => kind
  }

  /** The lookup and the case split of the controllers' `handle`. */
  function Route(key: string, indexer: Indexer): (r: Result<Target, RouteError>)
    ensures indexer(key).Err? ==> r == Err(LookupFailed(key, indexer(key).error))
    ensures indexer(key) == Ok(None) ==>
      (r.Ok? <==> SplitMetaNamespaceKey(key).Ok?) &&
      (r.Ok? ==> r.value == Absent(SplitMetaNamespaceKey(key).value.0, SplitMetaNamespaceKey(key).value.1)) &&
      (r.Err? ==> r.error == SplitFailed(key, SplitMetaNamespaceKey(key).error))
    ensures indexer(key).Ok? && indexer(key).value.Some? ==>
      (r.Ok? <==> indexer(key).value.value.Obj?) &&
      (r.Ok? ==> r.value == Present(indexer(key).value.value.obj))
  {
    match indexer(key)
    case Err(cause) => Err(LookupFailed(key, cause))
    case Ok(None) =>
      (match SplitMetaNamespaceKey(key)
       case Err(cause) => Err(SplitFailed(key, cause))
       case Ok(parts) => Ok(Absent(parts.0, parts.1)))
    case Ok(Some(v)) =>
      if v.Obj? then Ok(Present(v.obj)) else Err(NotAnObject(key, TypeName(v)))
  }

  /** The texts of the formatted routing errors. */
  function Describe(e: RouteError): string
  {
    match e
    case LookupFailed(key, cause) => "unable to fetching object with key " + key + " from store: " + cause
    case SplitFailed(key, cause) => "unable to split  object with key " + key + " from store: " + cause
    case NotAnObject(_, typeName) => "unexpected object type on handler, expected runtime object got " + typeName
  }

  /** A key whose object the indexer holds leads to that object, never to
      a deletion. */
  lemma StoredObjectNeverDeleted(key: string, indexer: Indexer, o: Object)
    requires indexer(key) == Ok(Some(Obj(o)))
    ensures Route(key, indexer) == Ok(Present(o))
  {
  }

  /** The key an object was queued under, once the indexer no longer holds
      it, leads to the deletion of exactly that object's namespace and
      name. */
  lemma VanishedObjectDeleted(m: ObjectMeta, indexer: Indexer)
    requires '/' !in m.namespace && '/' !in m.name
    requires indexer(MetaNamespaceKey(m)) == Ok(None)
    ensures Route(MetaNamespaceKey(m), indexer) == Ok(Absent(m.namespace, m.name))
  {
    SplitKeyRoundTrip(m);
  }
}
