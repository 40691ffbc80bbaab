/**
 * The server's connection table, backend/services/websocket_manager.py:
 * `active_connections` maps a client id to its accepted socket, and a
 * failed send removes the client. Python dicts iterate in insertion order
 * (an overwrite keeps the key's place), which `broadcast` follows, so the
 * class keeps that order next to the map. What was written to each socket
 * is the `sent` log; whether a send raises is an input.
 */
module WsManager {
  import opened Types

  /** An accepted WebSocket, by identity. */
  type Socket = nat

  /** One frame written to one socket. */
  datatype Delivery = Delivery(socket: Socket, frame: WebSocketMessage)

  /** The table's contents: key order, the map itself, and everything sent so far. */
  datatype Table = Table(order: seq<string>, connections: map<string, Socket>, sent: seq<Delivery>)

  predicate Distinct(s: seq<string>)
  {
    forall i, j :: 0 <= i < j < |s| ==> s[i] != s[j]
  }

  /** The order lists each key of the map exactly once. */
  ghost predicate WellFormed(t: Table)
  {
    Distinct(t.order) && forall k :: k in t.order <==> k in t.connections
  }

  const Empty := Table([], map[], [])

  /** The set of a sequence's elements. */
  function SetOf(s: seq<string>): (r: set<string>)
    ensures forall x :: x in r <==> x in s
  {
    set x | x in s
  }

  /** `s` with the elements of `drop` taken out, order kept. */
  function Without(s: seq<string>, drop: set<string>): (r: seq<string>)
    ensures forall x :: x in r <==> x in s && x !in drop
    ensures Distinct(s) ==> Distinct(r)
    ensures (forall x :: x in s ==> x !in drop) ==> r == s
  {
    if s == [] then []
    else
      var rest := Without(s[1..], drop);
      if s[0] in drop then rest else [s[0]] + rest
  }

  /** The elements of `s` that are in `pick`, order kept. */
  function Only(s: seq<string>, pick: set<string>): seq<string>
  {
    if s == [] then []
    else
      var rest := Only(s[1..], pick);
      if s[0] in pick then [s[0]] + rest else rest
  }

  /** `Only` keeps exactly the picked elements, and no duplicates are made. */
  lemma {:induction false} OnlyMembers(s: seq<string>, pick: set<string>)
    ensures forall x :: x in Only(s, pick) <==> x in s && x in pick
    ensures Distinct(s) ==> Distinct(Only(s, pick))
  {
    if s != [] {
      OnlyMembers(s[1..], pick);
      assert forall x :: x in s <==> x == s[0] || x in s[1..];
    }
  }

  /** The map without the keys in `drop`. */
  function Restrict(m: map<string, Socket>, drop: set<string>): (r: map<string, Socket>)
    ensures forall k :: k in r <==> k in m && k !in drop
    ensures forall k :: k in r ==> r[k] == m[k]
  {
    map k | k in m && k !in drop :: m[k]
  }

  /** Dropping some keys and then some more is dropping both at once. */
  lemma {:induction false} WithoutWithout(s: seq<string>, a: set<string>, b: set<string>)
    ensures Without(Without(s, a), b) == Without(s, a + b)
  {
    if s != [] {
      WithoutWithout(s[1..], a, b);
    }
  }

  /** Only the members of `s` matter to what `Without` drops. */
  lemma {:induction false} WithoutAgrees(s: seq<string>, a: set<string>, b: set<string>)
    requires forall x :: x in s ==> (x in a <==> x in b)
    ensures Without(s, a) == Without(s, b)
  {
    if s != [] {
      WithoutAgrees(s[1..], a, b);
    }
  }

  lemma OnlyExtend(s: seq<string>, x: string, pick: set<string>)
    ensures Only(s + [x], pick) == Only(s, pick) + (if x in pick then [x] else [])
  {
    if s == [] {
      assert [] + [x] == [x];
    } else {
      assert (s + [x])[1..] == s[1..] + [x];
      OnlyExtend(s[1..], x, pick);
    }
  }

  /** `connect`: insert or overwrite; a new key goes last, an existing one keeps its place. */
  function Connected(t: Table, clientId: string, socket: Socket): Table
  {
    Table(if clientId in t.connections then t.order else t.order + [clientId],
          t.connections[clientId := socket], t.sent)
  }

  /** `disconnect`: drop the key if present. */
  function Disconnected(t: Table, clientId: string): Table
  {
    if clientId in t.connections
    then Table(Without(t.order, {clientId}), Restrict(t.connections, {clientId}), t.sent)
    else t
  }

  /** `send_personal_message`: write to the client's socket, or drop the client if the write raised. */
  function Personal(t: Table, frame: WebSocketMessage, clientId: string, sendOk: bool): Table
  {
    if clientId !in t.connections then t
    else if sendOk then t.(sent := t.sent + [Delivery(t.connections[clientId], frame)])
    else Disconnected(t, clientId)
  }

  /** What `broadcast` writes: one delivery per client in `order` that is not failing, in order. */
  function DeliveriesTo(order: seq<string>, connections: map<string, Socket>, frame: WebSocketMessage, failing: set<string>): seq<Delivery>
    requires forall k :: k in order ==> k in connections
  {
    if order == [] then []
    else
      var last := order[|order| - 1];
      DeliveriesTo(order[..|order| - 1], connections, frame, failing)
        + (if last in failing then [] else [Delivery(connections[last], frame)])
  }

  lemma DeliveriesStep(order: seq<string>, connections: map<string, Socket>, frame: WebSocketMessage, failing: set<string>, i: nat)
    requires i < |order| && forall k :: k in order ==> k in connections
    ensures DeliveriesTo(order[..i + 1], connections, frame, failing)
      == DeliveriesTo(order[..i], connections, frame, failing) + (if order[i] in failing then [] else [Delivery(connections[order[i]], frame)])
  {
    assert order[..i + 1][..i] == order[..i];
  }

  /** `broadcast`: every client is written to, then the ones whose write raised are removed. */
  function Broadcasted(t: Table, frame: WebSocketMessage, failing: set<string>): Table
    requires WellFormed(t)
  {
    Table(Without(t.order, failing), Restrict(t.connections, failing),
          t.sent + DeliveriesTo(t.order, t.connections, frame, failing))
  }

  /** Every table operation keeps the order and the map in step. */
  lemma ConnectedWellFormed(t: Table, clientId: string, socket: Socket)
    requires WellFormed(t)
    ensures WellFormed(Connected(t, clientId, socket))
  {
  }

  lemma DisconnectedWellFormed(t: Table, clientId: string)
    requires WellFormed(t)
    ensures WellFormed(Disconnected(t, clientId))
  {
  }

  lemma PersonalWellFormed(t: Table, frame: WebSocketMessage, clientId: string, ok: bool)
    requires WellFormed(t)
    ensures WellFormed(Personal(t, frame, clientId, ok))
  {
    DisconnectedWellFormed(t, clientId);
  }

  lemma BroadcastedWellFormed(t: Table, frame: WebSocketMessage, failing: set<string>)
    requires WellFormed(t)
    ensures WellFormed(Broadcasted(t, frame, failing))
  {
  }

  /**
   * Connecting inserts or overwrites only `clientId`; disconnecting removes
   * only `clientId`, and an absent key is a no-op.
   */
  lemma ConnectDisconnect(t: Table, clientId: string, socket: Socket)
    ensures Connected(t, clientId, socket).connections == t.connections[clientId := socket]
    ensures clientId in t.connections ==> Connected(t, clientId, socket).order == t.order
    ensures Disconnected(t, clientId).connections == t.connections - {clientId}
    ensures clientId !in t.connections ==> Disconnected(t, clientId) == t
    ensures Disconnected(Connected(t, clientId, socket), clientId).connections == t.connections - {clientId}
  {
  }

  /**
   * A personal message to an unregistered client does nothing; a successful
   * one writes one frame to that client's socket and keeps the table; a
   * failed one removes exactly that client and writes nothing.
   */
  lemma PersonalOutcomes(t: Table, frame: WebSocketMessage, clientId: string, ok: bool)
    ensures clientId !in t.connections ==> Personal(t, frame, clientId, ok) == t
    ensures clientId in t.connections && ok ==>
      Personal(t, frame, clientId, ok) == t.(sent := t.sent + [Delivery(t.connections[clientId], frame)])
    ensures clientId in t.connections && !ok ==>
      && Personal(t, frame, clientId, ok).connections == t.connections - {clientId}
      && Personal(t, frame, clientId, ok).order == Without(t.order, {clientId})
      && Personal(t, frame, clientId, ok).sent == t.sent
  {
  }

  lemma {:induction false} DeliveriesCount(order: seq<string>, connections: map<string, Socket>, frame: WebSocketMessage)
    requires forall k :: k in order ==> k in connections
    ensures |DeliveriesTo(order, connections, frame, {})| == |order|
    ensures forall i :: 0 <= i < |order| ==> DeliveriesTo(order, connections, frame, {})[i] == Delivery(connections[order[i]], frame)
  {
    if order != [] {
      var init := order[..|order| - 1];
      DeliveriesCount(init, connections, frame);
      assert forall i :: 0 <= i < |init| ==> init[i] == order[i];
    }
  }

  /**
   * A broadcast in which no write raises reaches every client once, in the
   * table's order, and leaves the table as it was.
   */
  lemma BroadcastAllSucceed(t: Table, frame: WebSocketMessage)
    requires WellFormed(t)
    ensures Broadcasted(t, frame, {}).order == t.order
    ensures Broadcasted(t, frame, {}).connections == t.connections
    ensures |Broadcasted(t, frame, {}).sent| == |t.sent| + |t.order|
    ensures forall i :: 0 <= i < |t.order| ==> Broadcasted(t, frame, {}).sent[|t.sent| + i] == Delivery(t.connections[t.order[i]], frame)
  {
    var d := DeliveriesTo(t.order, t.connections, frame, {});
    DeliveriesCount(t.order, t.connections, frame);
    AppendedDeliveries(t.sent, d, t.order, t.connections, frame);
    DropNothing(t.order, t.connections);
    assert Broadcasted(t, frame, {}) == Table(t.order, t.connections, t.sent + d);
  }

  lemma DropNothing(order: seq<string>, connections: map<string, Socket>)
    ensures Without(order, {}) == order && Restrict(connections, {}) == connections
  {
  }

  lemma AppendedDeliveries(sent: seq<Delivery>, d: seq<Delivery>, order: seq<string>, connections: map<string, Socket>, frame: WebSocketMessage)
    requires forall k :: k in order ==> k in connections
    requires |d| == |order| && forall i :: 0 <= i < |order| ==> d[i] == Delivery(connections[order[i]], frame)
    ensures |sent + d| == |sent| + |order|
    ensures forall i :: 0 <= i < |order| ==> (sent + d)[|sent| + i] == Delivery(connections[order[i]], frame)
  {
  }

  /** Exactly the failing clients leave the table; the others keep their sockets. */
  lemma BroadcastRemovesExactlyTheFailing(t: Table, frame: WebSocketMessage, failing: set<string>)
    requires WellFormed(t)
    ensures forall k :: k in Broadcasted(t, frame, failing).connections <==> k in t.connections && k !in failing
    ensures forall k :: k in Broadcasted(t, frame, failing).connections ==> Broadcasted(t, frame, failing).connections[k] == t.connections[k]
  {
  }

  class WebSocketManager {
    var order: seq<string>
    var activeConnections: map<string, Socket>
    var sent: seq<Delivery>

    function Snapshot(): Table
      reads this
    {
      Table(order, activeConnections, sent)
    }

    ghost predicate Valid()
      reads this
    {
      WellFormed(Snapshot())
    }

    constructor ()
      ensures Snapshot() == Empty && Valid()
    {
      order, activeConnections, sent := [], map[], [];
    }

    /** `connect` once the socket has been accepted. */
    method Connect(socket: Socket, clientId: string)
      requires Valid()
      modifies this
      ensures Snapshot() == Connected(old(Snapshot()), clientId, socket) && Valid()
    {
      if clientId !in activeConnections {
        order := order + [clientId];
      }
      activeConnections := activeConnections[clientId := socket];
    }

    method Disconnect(clientId: string)
      requires Valid()
      modifies this
      ensures Snapshot() == Disconnected(old(Snapshot()), clientId) && Valid()
    {
      DisconnectedWellFormed(Snapshot(), clientId);
      if clientId in activeConnections {
        order := Without(order, {clientId});
        activeConnections := Restrict(activeConnections, {clientId});
      }
    }

    /** `send_personal_message`; `sendOk` says whether `send_text` returned. */
    method SendPersonalMessage(frame: WebSocketMessage, clientId: string, sendOk: bool)
      requires Valid()
      modifies this
      ensures Snapshot() == Personal(old(Snapshot()), frame, clientId, sendOk) && Valid()
    {
      if clientId in activeConnections {
        if sendOk {
          sent := sent + [Delivery(activeConnections[clientId], frame)];
        } else {
          Disconnect(clientId);
        }
      }
    }

    /**
     * `broadcast`; `failing` holds the clients whose `send_text` raises.
     * Returns `disconnected_clients`: the failing clients, in table order.
     */
    method Broadcast(frame: WebSocketMessage, failing: set<string>) returns (dropped: seq<string>)
      requires Valid()
      modifies this
      ensures Snapshot() == Broadcasted(old(Snapshot()), frame, failing) && Valid()
      ensures dropped == Only(old(order), failing)
    {
      ghost var t0 := Snapshot();
      dropped := SendToAll(frame, failing);
      DisconnectAll(dropped);
      OnlyMembers(t0.order, failing);
      WithoutAgrees(t0.order, SetOf(dropped), failing);
      assert Restrict(t0.connections, SetOf(dropped)) == Restrict(t0.connections, failing);
    }

    /** The first loop of `broadcast`: write to every client in order, collecting the failures. */
    method SendToAll(frame: WebSocketMessage, failing: set<string>) returns (dropped: seq<string>)
      requires Valid()
      modifies this
      ensures order == old(order) && activeConnections == old(activeConnections)
      ensures sent == old(sent) + DeliveriesTo(old(order), old(activeConnections), frame, failing)
      ensures dropped == Only(old(order), failing) && Valid()
    {
      ghost var t0 := Snapshot();
      dropped := [];
      var i := 0;
      while i < |order|
        invariant 0 <= i <= |t0.order|
        invariant order == t0.order && activeConnections == t0.connections
        invariant sent == t0.sent + DeliveriesTo(t0.order[..i], t0.connections, frame, failing)
        invariant dropped == Only(t0.order[..i], failing)
      {
        var clientId := order[i];
        assert clientId in t0.order;
        ScanStep(t0, frame, failing, i);
        if clientId in failing {
          dropped := dropped + [clientId];
        } else {
          sent := sent + [Delivery(activeConnections[clientId], frame)];
        }
        i := i + 1;
      }
      assert t0.order[..i] == t0.order;
      SentIrrelevant(t0, sent);
    }

    /** The second loop of `broadcast`: disconnect each collected client. */
    method DisconnectAll(clients: seq<string>)
      requires Valid()
      modifies this
      ensures Snapshot() == Table(Without(old(order), SetOf(clients)), Restrict(old(activeConnections), SetOf(clients)), old(sent))
      ensures Valid()
    {
      ghost var t0 := Snapshot();
      var j := 0;
      assert SetOf(clients[..0]) == {};
      assert Restrict(t0.connections, {}) == t0.connections;
      while j < |clients|
        invariant 0 <= j <= |clients| && Valid()
        invariant order == Without(t0.order, SetOf(clients[..j]))
        invariant activeConnections == Restrict(t0.connections, SetOf(clients[..j]))
        invariant sent == t0.sent
      {
        RemovalStep(t0, clients, j);
        Disconnect(clients[j]);
        j := j + 1;
      }
      assert clients[..j] == clients;
    }
  }

  /** Writes never affect whether a table is consistent. */
  lemma SentIrrelevant(t: Table, sent: seq<Delivery>)
    requires WellFormed(t)
    ensures WellFormed(t.(sent := sent))
  {
  }

  /** One client further through the first loop of `broadcast`. */
  lemma ScanStep(t: Table, frame: WebSocketMessage, failing: set<string>, i: nat)
    requires WellFormed(t) && i < |t.order|
    ensures DeliveriesTo(t.order[..i + 1], t.connections, frame, failing)
      == DeliveriesTo(t.order[..i], t.connections, frame, failing) + (if t.order[i] in failing then [] else [Delivery(t.connections[t.order[i]], frame)])
    ensures Only(t.order[..i + 1], failing) == Only(t.order[..i], failing) + (if t.order[i] in failing then [t.order[i]] else [])
  {
    DeliveriesStep(t.order, t.connections, frame, failing, i);
    assert t.order[..i + 1] == t.order[..i] + [t.order[i]];
    OnlyExtend(t.order[..i], t.order[i], failing);
  }

  /** One client further through the second loop of `broadcast`. */
  lemma RemovalStep(t: Table, clients: seq<string>, j: nat)
    requires WellFormed(t) && j < |clients|
    ensures Disconnected(Table(Without(t.order, SetOf(clients[..j])), Restrict(t.connections, SetOf(clients[..j])), t.sent), clients[j])
      == Table(Without(t.order, SetOf(clients[..j + 1])), Restrict(t.connections, SetOf(clients[..j + 1])), t.sent)
  {
    assert clients[..j + 1] == clients[..j] + [clients[j]];
    assert SetOf(clients[..j + 1]) == SetOf(clients[..j]) + {clients[j]};
    DroppingOneMore(t, SetOf(clients[..j]), clients[j]);
  }

  lemma RestrictRestrict(m: map<string, Socket>, a: set<string>, b: set<string>)
    ensures Restrict(Restrict(m, a), b) == Restrict(m, a + b)
  {
    assert forall k :: k in Restrict(Restrict(m, a), b) <==> k in Restrict(m, a + b);
  }

  /** One disconnect on top of a set of removals. */
  lemma DroppingOneMore(t: Table, gone: set<string>, clientId: string)
    requires WellFormed(t)
    ensures Disconnected(Table(Without(t.order, gone), Restrict(t.connections, gone), t.sent), clientId)
      == Table(Without(t.order, gone + {clientId}), Restrict(t.connections, gone + {clientId}), t.sent)
  {
    WithoutWithout(t.order, gone, {clientId});
    RestrictRestrict(t.connections, gone, {clientId});
    var m := Restrict(t.connections, gone);
    if clientId !in m {
      assert forall x :: x in Without(t.order, gone) ==> x !in {clientId};
      assert Restrict(m, {clientId}) == m;
    }
  }
}
