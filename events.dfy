/** The events the resource handler queues for the consumer. */
module Events {
  import opened Kube

  /** `Event`: an `*event` carrying one object, or an `*updateEvent`
      carrying the object before and after the change; both carry the key
      `GetKey` returns. */
  datatype Event =
    | CreateEvent(key: string, obj: Object)
    | UpdateEvent(key: string, oldObj: Object, newObj: Object)
}
