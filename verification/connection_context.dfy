/** The connection provider: the object that owns the edge list and the
    pending gesture and replaces them on each of the four gesture calls.
    Each method is proved to move the object from one state to the next as
    the matching function of module ConnectionGraph says, and to keep the
    graph invariant. */
module ConnectionContext {
  import opened Values
  import opened ConnectionGraph

  class ConnectionProvider {
    var connections: seq<Connection>
    var tempConnection: Option<Temp>

    /** The object invariant: the edge list is well-formed. */
    ghost predicate Valid()
      reads this
    {
      WellFormed(connections)
    }

    /** The provider's state as a value. */
    function State(): GraphState
      reads this
    {
      GraphState(connections, tempConnection)
    }

    constructor ()
      ensures Valid()
      ensures State() == Initial
    {
      connections := [];
      tempConnection := None;
    }

    /** Drop every edge touching (fromId, fromPort) and begin a gesture there. */
    method StartConnection(fromId: NodeId, fromPort: Port)
      requires Valid()
      modifies this
      ensures Valid()
      ensures connections == Evict(old(connections), AtEndpoint(fromId, fromPort))
      ensures tempConnection == Some(Temp(fromId, fromPort, 0.0, 0.0))
      ensures State() == Start(old(State()), fromId, fromPort)
    {
      EvictKeepsWellFormed(connections, AtEndpoint(fromId, fromPort));
      connections := Evict(connections, AtEndpoint(fromId, fromPort));
      tempConnection := Some(Temp(fromId, fromPort, 0.0, 0.0));
    }

    /** Move the cursor of the pending gesture; without one, do nothing. */
    method UpdateTempConnection(mouseX: real, mouseY: real)
      requires Valid()
      modifies this
      ensures Valid()
      ensures connections == old(connections)
      ensures old(tempConnection).None? ==> tempConnection == None
      ensures old(tempConnection).Some? ==>
        tempConnection == Some(Temp(old(tempConnection).value.fromId, old(tempConnection).value.fromPort, mouseX, mouseY))
      ensures State() == UpdateTemp(old(State()), mouseX, mouseY)
    {
      if tempConnection.Some? {
        tempConnection := Some(tempConnection.value.(mouseX := mouseX, mouseY := mouseY));
      }
    }

    /** End the gesture on (toId, toPort). If it is accepted, store the edge,
        oriented from the right circle to the left one, under `freshId`,
        after dropping the edges that share one of its ends. */
    method CompleteConnection(toId: NodeId, toPort: Port, freshId: string)
      requires Valid()
      modifies this
      ensures Valid()
      ensures tempConnection == None
      ensures !Accepts(old(State()), toId, toPort) ==> connections == old(connections)
      ensures Accepts(old(State()), toId, toPort) ==>
        var e := Oriented(old(tempConnection).value, toId, toPort, freshId);
        connections == Evict(old(connections), SharingEnds(e)) + [e]
      ensures State() == Complete(old(State()), toId, toPort, freshId)
    {
      CompleteKeepsWellFormed(State(), toId, toPort, freshId);
      if tempConnection.None? || tempConnection.value.fromId == toId {
        tempConnection := None;
        return;
      }
      var fromPort := tempConnection.value.fromPort;
      if fromPort == toPort {
        tempConnection := None;
        return;
      }
      var finalFromId := tempConnection.value.fromId;
      var finalFromPort := fromPort;
      var finalToId := toId;
      var finalToPort := toPort;
      if fromPort == Left {
        finalFromId := toId;
        finalFromPort := toPort;
        finalToId := tempConnection.value.fromId;
        finalToPort := fromPort;
      }
      var newConnection := Connection(freshId, finalFromId, finalToId, finalFromPort, finalToPort);
      var filteredConnections := Evict(connections, SharingEnds(newConnection));
      connections := filteredConnections + [newConnection];
      tempConnection := None;
    }

    /** Abandon the gesture; the edges stay as they are. */
    method CancelConnection()
      requires Valid()
      modifies this
      ensures Valid()
      ensures connections == old(connections) && tempConnection == None
      ensures State() == Cancel(old(State()))
    {
      tempConnection := None;
    }
  }

  /** A client's view: dragging from a right circle to another card's left
      circle stores exactly that edge; dragging back from its left circle
      removes it again. */
  method ConnectThenRewire(a: NodeId, b: NodeId, id: string)
    requires a != b
  {
    var p := new ConnectionProvider();
    p.StartConnection(a, Right);
    p.CompleteConnection(b, Left, id);
    assert p.connections == [Connection(id, a, b, Right, Left)];
    p.StartConnection(b, Left);
    assert p.connections == [];
    assert p.tempConnection == Some(Temp(b, Left, 0.0, 0.0));
    p.CompleteConnection(b, Right, id);
    assert p.connections == [] && p.tempConnection == None;
  }
}
