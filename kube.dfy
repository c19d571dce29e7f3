/** The Kubernetes API values the controllers look at, reduced to the
    fields they read: object metadata, pods, statefulsets, and the untyped
    values informers hand to their callbacks. */
module Kube {
  import opened Wrappers

  /** `metav1.ObjectMeta`; a deletion timestamp is present or nil. */
  datatype ObjectMeta = ObjectMeta(
    namespace: string,
    name: string,
    labels: map<string, string>,
    deletionTimestamp: Option<int>)

  /** A pod condition: its `Type` and its `Status`. */
  datatype PodCondition = PodCondition(kind: string, status: string)

  /** A container status; only whether `State.Terminated` is set matters. */
  datatype ContainerStatus = ContainerStatus(name: string, terminated: bool)

  /** `core/v1.Pod`: metadata, the spec fields `NodeName` and
      `HostNetwork`, and the status fields `Phase`, `PodIP`, `Conditions`
      and `ContainerStatuses`. */
  datatype Pod = Pod(
    meta: ObjectMeta,
    nodeName: string,
    hostNetwork: bool,
    phase: string,
    podIP: string,
    conditions: seq<PodCondition>,
    containerStatuses: seq<ContainerStatus>)

  /** `metav1.LabelSelector`, reduced to its `MatchLabels`. */
  datatype LabelSelector = LabelSelector(matchLabels: map<string, string>)

  /** `apps/v1.StatefulSet`: metadata, `Spec.Replicas` and `Spec.Selector`. */
  datatype StatefulSet = StatefulSet(meta: ObjectMeta, replicas: int, selector: LabelSelector)

  /** A `runtime.Object`: a pod, a statefulset, another kind that carries
      object metadata, or a kind without (a list, say), on which the
      metadata accessor fails. */
  datatype Object =
    | PodObject(pod: Pod)
    | StatefulSetObject(statefulSet: StatefulSet)
    | OtherObject(kind: string, meta: ObjectMeta)
    | Unnamed(kind: string)

  /** A value of Go's empty interface as informers deliver it: nil, a
      `runtime.Object`, the `cache.DeletedFinalStateUnknown` tombstone a
      delete callback receives when the final state of a deleted object was
      missed, or something else. */
  datatype Value = Nil | Obj(obj: Object) | Tombstone(key: string, last: Value) | Foreign(kind: string)

  /** `meta.Accessor(obj)`: the object's metadata, when it has any. */
  function Accessor(o: Object): Option<ObjectMeta>
  {
    match o
    case PodObject(p) => Some(p.meta)
    case StatefulSetObject(s) => Some(s.meta)
    case OtherObject(_, m) => Some(m)
    case Unnamed(_) => None
  }
}
