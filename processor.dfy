/** `eventProcessor.Handle`: looks the event's key up in the informer's
    indexer and decides which `ResourceHandler` callback fires. */
module Processor {
  import opened Wrappers
  import opened Kube
  import opened Events

  /** A `ResourceHandler` callback and the objects passed to it, in the
      order they are passed. */
  datatype Callback =
    | Created(obj: Object)
    | Updated(first: Object, second: Object)
    | Deleted(obj: Object)

  /** `Handle(ctx, ev)` given the indexer's answer for the event's key (an
      error, or whether the key exists): the error returned and the
      callbacks fired, in order. An absent key fires `Deleted` on the
      event's object if it is an `*event` and on its old object if it is an
      `*updateEvent`; a present key fires `Created` on an `*event`'s object
      and `Updated` with the new object first on an `*updateEvent`. */
  function Handle(ev: Event, lookup: Result<bool, string>): (r: (Outcome<string>, seq<Callback>))
    ensures lookup.Err? ==> r == (Fail(lookup.error), [])
    ensures lookup.Ok? ==> r.0 == Pass && |r.1| == 1
    ensures lookup == Ok(false) ==>
      r.1[0] == Deleted(if ev.CreateEvent? then ev.obj else ev.oldObj)
    ensures lookup == Ok(true) ==>
      (ev.CreateEvent? ==> r.1[0] == Created(ev.obj)) &&
      (ev.UpdateEvent? ==> r.1[0] == Updated(ev.newObj, ev.oldObj))
  {
    if lookup.Err? then (Fail(lookup.error), [])
    else if !lookup.value then
      var fromCreate := if ev.CreateEvent? then [Deleted(ev.obj)] else [];
      var fromUpdate := if ev.UpdateEvent? then [Deleted(ev.oldObj)] else [];
      (Pass, fromCreate + fromUpdate)
    else
      match ev
      case CreateEvent(_, obj) => (Pass, [Created(obj)])
      case UpdateEvent(_, oldObj, newObj) => (Pass, [Updated(newObj, oldObj)])
  }
}
