/** The commands the swarm controller queues for itself: each event names
    a swarm by namespace and name, the size event also carries the new
    size, and each reports one of four action names. */
module SwarmEvent {
  const CreateSwarmAction := "createSwarmAction"
  const UpdateSwarmAction := "updateSwarmAction"
  const UpdateSwarmSizeAction := "updateSwarmSizeAction"
  const DeleteSwarmAction := "deleteSwarmAction"

  /** The four action names differ. */
  lemma ActionsDistinct()
    ensures CreateSwarmAction != UpdateSwarmAction && CreateSwarmAction != UpdateSwarmSizeAction
    ensures CreateSwarmAction != DeleteSwarmAction && UpdateSwarmAction != UpdateSwarmSizeAction
    ensures UpdateSwarmAction != DeleteSwarmAction && UpdateSwarmSizeAction != DeleteSwarmAction
  {
    assert CreateSwarmAction[0] != UpdateSwarmAction[0];
    assert CreateSwarmAction[0] != DeleteSwarmAction[0];
    assert UpdateSwarmAction[0] != DeleteSwarmAction[0];
    assert |UpdateSwarmSizeAction| != |CreateSwarmAction|;
    assert |UpdateSwarmSizeAction| != |UpdateSwarmAction|;
    assert |UpdateSwarmSizeAction| != |DeleteSwarmAction|;
  }

  /** `createSwarm`, `updateSwarm`, `updateSwarmSize` and `deleteSwarm`;
      the constructors `newCreateSwarm` and the others store their
      arguments as they are. */
  datatype Event =
    | CreateSwarm(namespace: string, name: string)
    | UpdateSwarm(namespace: string, name: string)
    | UpdateSwarmSize(namespace: string, name: string, size: int)
    | DeleteSwarm(namespace: string, name: string)
  {
    /** `Type()`: the action of the event's kind; since the actions differ,
        the action tells the kind. */
    function Type(): (a: string)
      ensures a == CreateSwarmAction <==> this.CreateSwarm?
      ensures a == UpdateSwarmAction <==> this.UpdateSwarm?
      ensures a == UpdateSwarmSizeAction <==> this.UpdateSwarmSize?
      ensures a == DeleteSwarmAction <==> this.DeleteSwarm?
    {
      ActionsDistinct();
      match this
      case CreateSwarm(_, _) => CreateSwarmAction
      case UpdateSwarm(_, _) => UpdateSwarmAction
      case UpdateSwarmSize(_, _, _) => UpdateSwarmSizeAction
      case DeleteSwarm(_, _) => DeleteSwarmAction
    }

    /** The Go type name `%T` prints for the event. */
    function TypeName(): string
    {
      match this
      case CreateSwarm(_, _) => "app.createSwarm"
      case UpdateSwarm(_, _) => "app.updateSwarm"
      case UpdateSwarmSize(_, _, _) => "app.updateSwarmSize"
      case DeleteSwarm(_, _) => "app.deleteSwarm"
    }
  }

  /** Two events report the same action exactly when they are of the same
      kind. */
  lemma SameActionSameKind(e: Event, f: Event)
    ensures e.Type() == f.Type() <==>
      (e.CreateSwarm? && f.CreateSwarm?) || (e.UpdateSwarm? && f.UpdateSwarm?) ||
      (e.UpdateSwarmSize? && f.UpdateSwarmSize?) || (e.DeleteSwarm? && f.DeleteSwarm?)
  {
    ActionsDistinct();
  }
}
