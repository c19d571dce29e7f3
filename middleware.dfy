/** The label-selector middleware of `pkg/operator`: it stands before an
    event handler and forwards an informer notification only when the
    object is a `runtime.Object` whose `app` label is the watched one. Each
    callback is modelled by the call it forwards, if any. */
module Middleware {
  import opened Wrappers
  import opened Kube
  import opened Selector

  /** A call on the wrapped event handler. */
  datatype Forward = AddCall(obj: Object) | UpdateCall(oldObj: Object, newObj: Object) | DeleteCall(obj: Object)

  /** `isMatched(obj)`: the `app` label is the watched one; a label error
      counts as no match. */
  predicate IsMatched(watched: string, o: Object)
  {
    match HasWatchedLabel(watched, o)
    case Err(_) => false
    case Ok(v) => v
  }

  /** The middleware and the selector accept the same objects. */
  lemma MatchedIffValid(watched: string, o: Object)
    ensures IsMatched(watched, o) <==> Validate(watched, o).Pass?
    ensures IsMatched(watched, o) <==> AppLabel(o) == Ok(watched)
  {
    ValidatePassesWatched(watched, o);
  }

  /** `Add(obj)`. */
  function Add(watched: string, v: Value): (r: Option<Forward>)
    ensures r.Some? <==> v.Obj? && AppLabel(v.obj) == Ok(watched)
    ensures r.Some? ==> r.value == AddCall(v.obj)
  {
    if !v.Obj? then None
    else if !IsMatched(watched, v.obj) then None
    else Some(AddCall(v.obj))
  }

  /** `Update(oldObj, newObj)`: both must be objects; only the old one's
      label is checked. */
  function Update(watched: string, oldV: Value, newV: Value): (r: Option<Forward>)
    ensures r.Some? <==> oldV.Obj? && newV.Obj? && AppLabel(oldV.obj) == Ok(watched)
    ensures r.Some? ==> r.value == UpdateCall(oldV.obj, newV.obj)
  {
    if !oldV.Obj? then None
    else if !newV.Obj? then None
    else if !IsMatched(watched, oldV.obj) then None
    else Some(UpdateCall(oldV.obj, newV.obj))
  }

  /** `Delete(obj)`. */
  function Delete(watched: string, v: Value): (r: Option<Forward>)
    ensures r.Some? <==> v.Obj? && AppLabel(v.obj) == Ok(watched)
    ensures r.Some? ==> r.value == DeleteCall(v.obj)
  {
    if !v.Obj? then None
    else if !IsMatched(watched, v.obj) then None
    else Some(DeleteCall(v.obj))
  }

  /** An update that moves an object out of the watched label is still
      forwarded, and one that moves it in is not: only the old object
      decides. */
  lemma UpdateFollowsOldLabel(watched: string, oldO: Object, newO: Object)
    requires AppLabel(newO) != Ok(watched)
    ensures AppLabel(oldO) == Ok(watched) ==> Update(watched, Obj(oldO), Obj(newO)) == Some(UpdateCall(oldO, newO))
    ensures Update(watched, Obj(newO), Obj(oldO)) == None
  {
  }
}
