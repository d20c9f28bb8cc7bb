/** The connection graph of the editor and its pending-gesture state machine,
    as values: the records the provider stores, the two filters it applies,
    one function per gesture operation, and the invariant every reachable
    state keeps. The provider class in module ConnectionContext is proved
    against these functions. */
module ConnectionGraph {
  import opened Values

  type NodeId = string

  /** The two connection circles of a card: `Left` is an input, `Right` the output. */
  datatype Port = Left | Right

  /** A stored edge. */
  datatype Connection = Connection(id: string, fromId: NodeId, toId: NodeId, fromPort: Port, toPort: Port)

  /** The gesture in progress: where it started and where the cursor is. */
  datatype Temp = Temp(fromId: NodeId, fromPort: Port, mouseX: real, mouseY: real)

  /** Everything the provider holds. */
  datatype GraphState = GraphState(connections: seq<Connection>, tempConnection: Option<Temp>)

  /** The provider's initial state: no edges, no gesture. */
  const Initial := GraphState([], None)

  // ---------------------------------------------------------------------------
  // The two filters

  /** What a filter drops: `AtEndpoint` is the filter of startConnection (an
      edge whose `from` end or whose `to` end is the given circle),
      `SharingEnds` that of completeConnection (an edge with the new edge's
      `from` end or with its `to` end). */
  datatype Eviction = AtEndpoint(id: NodeId, port: Port) | SharingEnds(edge: Connection)

  predicate Evicts(v: Eviction, c: Connection)
  {
    match v
    case AtEndpoint(id, port) =>
      (c.fromId == id && c.fromPort == port) || (c.toId == id && c.toPort == port)
    case SharingEnds(e) =>
      (c.fromId == e.fromId && c.fromPort == e.fromPort) || (c.toId == e.toId && c.toPort == e.toPort)
  }

  /** `cs.filter(c => !evicted(c))`. */
  function Evict(cs: seq<Connection>, v: Eviction): (r: seq<Connection>)
    ensures |r| <= |cs|
    ensures forall c :: c in r <==> c in cs && !Evicts(v, c)
  {
    if cs == [] then []
    else
      assert cs == [cs[0]] + cs[1..];
      (if Evicts(v, cs[0]) then [] else [cs[0]]) + Evict(cs[1..], v)
  }

  /** Filtering a concatenation filters each part and keeps their order. */
  lemma {:induction false} EvictAppend(a: seq<Connection>, b: seq<Connection>, v: Eviction)
    ensures Evict(a + b, v) == Evict(a, v) + Evict(b, v)
  {
    if a == [] {
      assert a + b == b;
    } else {
      assert (a + b)[0] == a[0];
      assert (a + b)[1..] == a[1..] + b;
      EvictAppend(a[1..], b, v);
    }
  }

  /** An evicted edge loses every copy; any other edge keeps every copy. */
  lemma {:induction false} EvictMultiplicity(cs: seq<Connection>, v: Eviction, c: Connection)
    ensures multiset(Evict(cs, v))[c] == if Evicts(v, c) then 0 else multiset(cs)[c]
  {
    if cs != [] {
      assert cs == [cs[0]] + cs[1..];
      EvictMultiplicity(cs[1..], v, c);
    }
  }

  /** A filter that matches no edge returns the list as it was. */
  lemma {:induction false} EvictNothing(cs: seq<Connection>, v: Eviction)
    requires forall j :: 0 <= j < |cs| ==> !Evicts(v, cs[j])
    ensures Evict(cs, v) == cs
  {
    if cs != [] {
      var tail := cs[1..];
      forall j | 0 <= j < |tail| ensures !Evicts(v, tail[j]) {
        assert tail[j] == cs[j + 1];
      }
      EvictNothing(tail, v);
      assert Evict(cs, v) == [cs[0]] + Evict(tail, v);
      assert cs == [cs[0]] + tail;
    }
  }

  /** A filter that matches exactly the edge at index `i` removes that edge
      and leaves the others in place and in order. */
  lemma {:induction false} EvictOnly(cs: seq<Connection>, v: Eviction, i: nat)
    requires i < |cs| && Evicts(v, cs[i])
    requires forall j :: 0 <= j < |cs| && j != i ==> !Evicts(v, cs[j])
    ensures Evict(cs, v) == cs[..i] + cs[i + 1..]
  {
    var tail := cs[1..];
    if i == 0 {
      forall j | 0 <= j < |tail| ensures !Evicts(v, tail[j]) {
        assert tail[j] == cs[j + 1];
      }
      EvictNothing(tail, v);
      assert Evict(cs, v) == Evict(tail, v);
      assert cs[..0] + cs[1..] == tail;
    } else {
      forall j | 0 <= j < |tail| && j != i - 1 ensures !Evicts(v, tail[j]) {
        assert tail[j] == cs[j + 1];
      }
      EvictOnly(tail, v, i - 1);
      assert Evict(cs, v) == [cs[0]] + Evict(tail, v);
      DropShift(cs, i);
    }
  }

  /** Removing index `i > 0` commutes with splitting off the first element. */
  lemma DropShift(cs: seq<Connection>, i: nat)
    requires 0 < i < |cs|
    ensures cs[..i] + cs[i + 1..] == [cs[0]] + (cs[1..][..i - 1] + cs[1..][i..])
  {
    assert cs[..i] == [cs[0]] + cs[1..][..i - 1];
    assert cs[i + 1..] == cs[1..][i..];
  }

  // ---------------------------------------------------------------------------
  // The graph invariant

  /** An edge runs from an output circle to an input circle. */
  predicate Normalised(c: Connection)
  {
    c.fromPort == Right && c.toPort == Left
  }

  /** Every edge is normalised and no self-loop, and no two edges share a
      `from` end or a `to` end: each circle is the endpoint of at most one edge. */
  predicate WellFormed(cs: seq<Connection>)
  {
    (forall i :: 0 <= i < |cs| ==> Normalised(cs[i]) && cs[i].fromId != cs[i].toId) &&
    (forall i, j :: 0 <= i < j < |cs| ==> cs[i].fromId != cs[j].fromId && cs[i].toId != cs[j].toId)
  }

  /** In a well-formed list a circle is the endpoint of at most one edge. */
  lemma EndpointUnique(cs: seq<Connection>, id: NodeId, port: Port, i: nat, j: nat)
    requires WellFormed(cs)
    requires i < |cs| && j < |cs|
    requires Evicts(AtEndpoint(id, port), cs[i]) && Evicts(AtEndpoint(id, port), cs[j])
    ensures i == j
  {
  }

  lemma ConsWellFormed(c: Connection, cs: seq<Connection>)
    requires Normalised(c) && c.fromId != c.toId && WellFormed(cs)
    requires forall d :: d in cs ==> d.fromId != c.fromId && d.toId != c.toId
    ensures WellFormed([c] + cs)
  {
    var r := [c] + cs;
    forall i, j | 0 <= i < j < |r| ensures r[i].fromId != r[j].fromId && r[i].toId != r[j].toId {
      assert r[j] == cs[j - 1];
      if i > 0 {
        assert r[i] == cs[i - 1];
      } else {
        assert cs[j - 1] in cs;
      }
    }
  }

  lemma SnocWellFormed(cs: seq<Connection>, c: Connection)
    requires Normalised(c) && c.fromId != c.toId && WellFormed(cs)
    requires forall d :: d in cs ==> d.fromId != c.fromId && d.toId != c.toId
    ensures WellFormed(cs + [c])
  {
    var r := cs + [c];
    forall i, j | 0 <= i < j < |r| ensures r[i].fromId != r[j].fromId && r[i].toId != r[j].toId {
      assert r[i] == cs[i];
      if j < |cs| {
        assert r[j] == cs[j];
      } else {
        assert cs[i] in cs;
      }
    }
  }

  /** Dropping edges keeps a list well-formed. */
  lemma {:induction false} EvictKeepsWellFormed(cs: seq<Connection>, v: Eviction)
    requires WellFormed(cs)
    ensures WellFormed(Evict(cs, v))
  {
    if cs != [] {
      assert WellFormed(cs[1..]) by {
        forall i, j | 0 <= i < j < |cs[1..]|
          ensures cs[1..][i].fromId != cs[1..][j].fromId && cs[1..][i].toId != cs[1..][j].toId
        {
          assert cs[1..][i] == cs[i + 1] && cs[1..][j] == cs[j + 1];
        }
      }
      EvictKeepsWellFormed(cs[1..], v);
      var rest := Evict(cs[1..], v);
      if !Evicts(v, cs[0]) {
        forall d | d in rest ensures d.fromId != cs[0].fromId && d.toId != cs[0].toId {
          var k :| 0 <= k < |cs[1..]| && cs[1..][k] == d;
          assert cs[k + 1] == d;
        }
        ConsWellFormed(cs[0], rest);
      }
    }
  }

  /** In a well-formed list startConnection's filter removes at most one edge. */
  lemma {:induction false} EvictEndpointAtMostOne(cs: seq<Connection>, id: NodeId, port: Port)
    requires WellFormed(cs)
    ensures |Evict(cs, AtEndpoint(id, port))| >= |cs| - 1
  {
    var v := AtEndpoint(id, port);
    if cs != [] {
      assert WellFormed(cs[1..]) by {
        forall i, j | 0 <= i < j < |cs[1..]|
          ensures cs[1..][i].fromId != cs[1..][j].fromId && cs[1..][i].toId != cs[1..][j].toId
        {
          assert cs[1..][i] == cs[i + 1] && cs[1..][j] == cs[j + 1];
        }
      }
      if Evicts(v, cs[0]) {
        forall k | 0 <= k < |cs[1..]| ensures !Evicts(v, cs[1..][k]) {
          assert cs[1..][k] == cs[k + 1];
          assert cs[0].fromId != cs[k + 1].fromId && cs[0].toId != cs[k + 1].toId;
        }
        EvictNothing(cs[1..], v);
      } else {
        EvictEndpointAtMostOne(cs[1..], id, port);
      }
    }
  }

  // ---------------------------------------------------------------------------
  // The four operations

  /** startConnection: drop every edge touching the circle, begin a gesture
      there with the cursor at (0, 0). */
  function Start(s: GraphState, fromId: NodeId, fromPort: Port): (r: GraphState)
    ensures |r.connections| <= |s.connections|
    ensures forall c :: c in r.connections <==> c in s.connections && !Evicts(AtEndpoint(fromId, fromPort), c)
    ensures r.tempConnection.Some? && r.tempConnection.value.fromId == fromId && r.tempConnection.value.fromPort == fromPort
    ensures r.tempConnection.value.mouseX == 0.0 && r.tempConnection.value.mouseY == 0.0
  {
    GraphState(Evict(s.connections, AtEndpoint(fromId, fromPort)), Some(Temp(fromId, fromPort, 0.0, 0.0)))
  }

  /** updateTempConnection: move the cursor of the gesture, if there is one. */
  function UpdateTemp(s: GraphState, mouseX: real, mouseY: real): (r: GraphState)
    ensures r.connections == s.connections
    ensures s.tempConnection.None? ==> r == s
    ensures s.tempConnection.Some? ==>
      r.tempConnection == Some(Temp(s.tempConnection.value.fromId, s.tempConnection.value.fromPort, mouseX, mouseY))
  {
    match s.tempConnection
    case None => s
    case Some(t) => s.(tempConnection := Some(t.(mouseX := mouseX, mouseY := mouseY)))
  }

  /** cancelConnection: end the gesture without touching the edges. */
  function Cancel(s: GraphState): (r: GraphState)
    ensures r.connections == s.connections && r.tempConnection.None?
  {
    s.(tempConnection := None)
  }

  /** A gesture ending on (toId, toPort) creates an edge: one is in progress,
      it started on another card, and on the other kind of circle. */
  predicate Accepts(s: GraphState, toId: NodeId, toPort: Port): (ok: bool)
    ensures ok <==> (s.tempConnection.Some? && s.tempConnection.value.fromId != toId &&
                     {s.tempConnection.value.fromPort, toPort} == {Left, Right})
  {
    s.tempConnection.Some? && s.tempConnection.value.fromId != toId && s.tempConnection.value.fromPort != toPort
  }

  /** The edge a gesture from `t` to (toId, toPort) stores: a gesture started
      on the left circle has its ends swapped. */
  function Oriented(t: Temp, toId: NodeId, toPort: Port, id: string): (e: Connection)
    ensures e.id == id
    ensures t.fromPort != toPort ==> Normalised(e)
    ensures {e.fromId, e.toId} == {t.fromId, toId}
    ensures t.fromPort == Left ==> e.fromId == toId && e.toId == t.fromId
    ensures t.fromPort == Right ==> e.fromId == t.fromId && e.toId == toId
  {
    if t.fromPort == Left then Connection(id, toId, t.fromId, toPort, t.fromPort)
    else Connection(id, t.fromId, toId, t.fromPort, toPort)
  }

  /** completeConnection; `freshId` is the id the source builds from the clock. */
  function Complete(s: GraphState, toId: NodeId, toPort: Port, freshId: string): (r: GraphState)
    ensures r.tempConnection.None?
    ensures !Accepts(s, toId, toPort) ==> r.connections == s.connections
    ensures Accepts(s, toId, toPort) ==>
      |r.connections| >= 1 && Normalised(r.connections[|r.connections| - 1]) &&
      r.connections[|r.connections| - 1].fromId != r.connections[|r.connections| - 1].toId &&
      r.connections[|r.connections| - 1].id == freshId
  {
    if s.tempConnection.None? || s.tempConnection.value.fromId == toId then s.(tempConnection := None)
    else if s.tempConnection.value.fromPort == toPort then s.(tempConnection := None)
    else
      var e := Oriented(s.tempConnection.value, toId, toPort, freshId);
      GraphState(Evict(s.connections, SharingEnds(e)) + [e], None)
  }

  // ---------------------------------------------------------------------------
  // What the operations do

  /** startConnection removes exactly the edges touching the circle, keeps
      every other edge with its multiplicity, and begins the gesture at (0, 0). */
  lemma StartRemovesTouching(s: GraphState, fromId: NodeId, fromPort: Port, c: Connection)
    ensures var r := Start(s, fromId, fromPort);
      r.tempConnection == Some(Temp(fromId, fromPort, 0.0, 0.0)) &&
      (c in r.connections <==> c in s.connections && !Evicts(AtEndpoint(fromId, fromPort), c)) &&
      multiset(r.connections)[c] == if Evicts(AtEndpoint(fromId, fromPort), c) then 0 else multiset(s.connections)[c]
  {
    EvictMultiplicity(s.connections, AtEndpoint(fromId, fromPort), c);
  }

  /** Re-dragging from a circle that is the end of exactly one edge removes
      that edge and leaves every other edge in place and in order. */
  lemma StartRewiresOne(s: GraphState, fromId: NodeId, fromPort: Port, i: nat)
    requires i < |s.connections| && Evicts(AtEndpoint(fromId, fromPort), s.connections[i])
    requires forall j :: 0 <= j < |s.connections| && j != i ==> !Evicts(AtEndpoint(fromId, fromPort), s.connections[j])
    ensures Start(s, fromId, fromPort).connections == s.connections[..i] + s.connections[i + 1..]
  {
    EvictOnly(s.connections, AtEndpoint(fromId, fromPort), i);
  }

  /** Dragging from a free circle leaves the edges as they were. */
  lemma StartFromFreePort(s: GraphState, fromId: NodeId, fromPort: Port)
    requires forall c :: c in s.connections ==> !Evicts(AtEndpoint(fromId, fromPort), c)
    ensures Start(s, fromId, fromPort).connections == s.connections
  {
    forall j | 0 <= j < |s.connections| ensures !Evicts(AtEndpoint(fromId, fromPort), s.connections[j]) {
      assert s.connections[j] in s.connections;
    }
    EvictNothing(s.connections, AtEndpoint(fromId, fromPort));
  }

  /** In a well-formed state startConnection removes at most one edge. */
  lemma StartRemovesAtMostOne(s: GraphState, fromId: NodeId, fromPort: Port)
    requires WellFormed(s.connections)
    ensures |Start(s, fromId, fromPort).connections| >= |s.connections| - 1
  {
    EvictEndpointAtMostOne(s.connections, fromId, fromPort);
  }

  /** A completion without a gesture, onto the gesture's own card, or onto the
      same kind of circle clears the gesture and changes no edge. */
  lemma CompleteRejected(s: GraphState, toId: NodeId, toPort: Port, freshId: string)
    requires !Accepts(s, toId, toPort)
    ensures Complete(s, toId, toPort, freshId) == GraphState(s.connections, None)
  {
  }

  /** An accepted completion stores an edge from the output circle to the
      input circle, between the gesture's card and the target card, swapped
      when the gesture began on the left circle. */
  lemma CompleteOrients(s: GraphState, toId: NodeId, toPort: Port, freshId: string)
    requires Accepts(s, toId, toPort)
    ensures var t := s.tempConnection.value;
      var e := Oriented(t, toId, toPort, freshId);
      Normalised(e) && e.fromId != e.toId && e.id == freshId &&
      (t.fromPort == Right ==> e.fromId == t.fromId && e.toId == toId) &&
      (t.fromPort == Left ==> e.fromId == toId && e.toId == t.fromId)
  {
  }

  /** After an accepted completion the new edge is last, it is the only edge
      with its `from` end and the only one with its `to` end, every earlier
      edge that shares neither end is kept in order, and the gesture is over. */
  lemma CompleteAppends(s: GraphState, toId: NodeId, toPort: Port, freshId: string)
    requires Accepts(s, toId, toPort)
    ensures var e := Oriented(s.tempConnection.value, toId, toPort, freshId);
      var r := Complete(s, toId, toPort, freshId);
      var n := |r.connections|;
      n >= 1 && r.connections[n - 1] == e && r.tempConnection.None? &&
      r.connections[..n - 1] == Evict(s.connections, SharingEnds(e)) &&
      (forall i :: 0 <= i < n - 1 ==>
        !(r.connections[i].fromId == e.fromId && r.connections[i].fromPort == e.fromPort) &&
        !(r.connections[i].toId == e.toId && r.connections[i].toPort == e.toPort)) &&
      (forall c :: c in s.connections && !Evicts(SharingEnds(e), c) ==> c in r.connections)
  {
    var e := Oriented(s.tempConnection.value, toId, toPort, freshId);
    var kept := Evict(s.connections, SharingEnds(e));
    var r := Complete(s, toId, toPort, freshId);
    assert r.connections == kept + [e];
    assert r.connections[..|r.connections| - 1] == kept;
    forall i | 0 <= i < |kept| ensures !Evicts(SharingEnds(e), r.connections[i]) {
      assert r.connections[i] == kept[i] && kept[i] in kept;
    }
  }

  /** A completion keeps the edge list well-formed. */
  lemma CompleteKeepsWellFormed(s: GraphState, toId: NodeId, toPort: Port, freshId: string)
    requires WellFormed(s.connections)
    ensures WellFormed(Complete(s, toId, toPort, freshId).connections)
  {
    if Accepts(s, toId, toPort) {
      var e := Oriented(s.tempConnection.value, toId, toPort, freshId);
      var kept := Evict(s.connections, SharingEnds(e));
      EvictKeepsWellFormed(s.connections, SharingEnds(e));
      forall d | d in kept ensures d.fromId != e.fromId && d.toId != e.toId {
        var k :| 0 <= k < |kept| && kept[k] == d;
        assert Normalised(kept[k]);
      }
      SnocWellFormed(kept, e);
    }
  }

  // ---------------------------------------------------------------------------
  // Reachable states

  /** One call on the provider. */
  datatype Gesture =
    | StartAt(fromId: NodeId, fromPort: Port)
    | MoveTo(mouseX: real, mouseY: real)
    | CompleteAt(toId: NodeId, toPort: Port, freshId: string)
    | CancelGesture

  function Step(s: GraphState, g: Gesture): GraphState
  {
    match g
    case StartAt(id, port) => Start(s, id, port)
    case MoveTo(x, y) => UpdateTemp(s, x, y)
    case CompleteAt(id, port, freshId) => Complete(s, id, port, freshId)
    case CancelGesture => Cancel(s)
  }

  /** The state after a sequence of calls, each seeing the latest state. */
  function Run(s: GraphState, gs: seq<Gesture>): GraphState
    decreases |gs|
  {
    if gs == [] then s else Run(Step(s, gs[0]), gs[1..])
  }

  /** Every operation keeps the edge list well-formed. */
  lemma StepKeepsWellFormed(s: GraphState, g: Gesture)
    requires WellFormed(s.connections)
    ensures WellFormed(Step(s, g).connections)
  {
    match g
    case StartAt(id, port) => EvictKeepsWellFormed(s.connections, AtEndpoint(id, port));
    case MoveTo(x, y) =>
    case CompleteAt(id, port, freshId) => CompleteKeepsWellFormed(s, id, port, freshId);
    case CancelGesture =>
  }

  lemma {:induction false} RunKeepsWellFormed(s: GraphState, gs: seq<Gesture>)
    requires WellFormed(s.connections)
    ensures WellFormed(Run(s, gs).connections)
    decreases |gs|
  {
    if gs != [] {
      StepKeepsWellFormed(s, gs[0]);
      RunKeepsWellFormed(Step(s, gs[0]), gs[1..]);
    }
  }

  /** In every state reachable from the empty graph, edges are normalised,
      there is no self-loop, and no two edges share a `from` or a `to` end. */
  lemma ReachableWellFormed(gs: seq<Gesture>)
    ensures WellFormed(Run(Initial, gs).connections)
  {
    RunKeepsWellFormed(Initial, gs);
  }
}
