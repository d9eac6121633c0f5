/** The relay server (game/server.py): a table of the last entry each
    connection sent, keyed by the connection's remote port, and the set of
    open connections every accepted change is fanned out to.

    The steps of `handle_client` and `broadcast_positions` are first given
    as functions on a `Relay` record (the table, the connection set and the
    log of broadcasts so far); class RelayServer holds the same state in
    fields and performs the steps in the source's order, each method proved
    to land on the state the corresponding function describes. */
module Server {
  import opened Wire

  type Id = int

  /** A websocket connection object. The set of connections compares
      these objects by identity, which `conn` stands for; two connections
      from the same remote address are still two sockets. */
  datatype Socket = Socket(conn: nat, host: string, port: int)

  /** The player id is the remote port of the connection. */
  function PlayerId(ws: Socket): Id { ws.port }

  const PlayerMoved: string := "player_moved"
  const PlayerDisconnected: string := "player_disconnected"

  /** A table entry: the four fields copied from the client's message,
      kept as whatever JSON values the client sent. */
  datatype Entry = Entry(x: Value, y: Value, name: Value, tag: Value)

  type Table = map<Id, Entry>

  /** One call of `asyncio.gather` over `client.send(message)`: the sockets
      it sends to and the table it serialises. */
  datatype Broadcast = Broadcast(recipients: set<Socket>, payload: Table)

  /** What the handler can raise. */
  datatype Failure =
    | InvalidJson                 // json.loads fails
    | NotSubscriptable            // the JSON is not an object
    | MissingField(field: string) // KeyError on data[field]
    | UnknownPlayer(id: Id)       // KeyError on all_players[player_id]
    | UnknownSocket(ws: Socket)   // KeyError on connected_clients.remove

  /** The keys the handler reads from a message, in the order it reads them. */
  const RequiredFields: seq<string> := ["x", "y", "name", "type"]

  /** The first of `names` that is not a key of `fields`. */
  function FirstMissing(fields: map<string, Value>, names: seq<string>): (r: Option<string>)
    ensures r.None? <==> forall i :: 0 <= i < |names| ==> names[i] in fields
    ensures r.Some? ==> r.value in names && r.value !in fields
    decreases |names|
  {
    if names == [] then None
    else if names[0] !in fields then Some(names[0])
    else FirstMissing(fields, names[1..])
  }

  /** The field `FirstMissing` names is the earliest absent one: every name
      listed before it is present. */
  lemma {:induction false} FirstMissingIsFirst(fields: map<string, Value>, names: seq<string>)
    ensures FirstMissing(fields, names).Some? ==>
      exists k :: 0 <= k < |names| && names[k] == FirstMissing(fields, names).value &&
        forall i :: 0 <= i < k ==> names[i] in fields
    decreases |names|
  {
    if names != [] && names[0] in fields {
      var rest := names[1..];
      FirstMissingIsFirst(fields, rest);
      if FirstMissing(fields, rest).Some? {
        var k :| 0 <= k < |rest| && rest[k] == FirstMissing(fields, rest).value &&
          forall i :: 0 <= i < k ==> rest[i] in fields;
        forall i | 0 <= i < k + 1 ensures names[i] in fields {
          if i > 0 {
            assert names[i] == rest[i - 1];
          }
        }
        assert names[k + 1] == rest[k];
      }
    }
  }

  /** The entry the handler builds from a message, or what it raises. */
  function DecodeEntry(msg: Payload): (r: Result<Entry, Failure>)
    ensures msg.Unparsable? ==> r == Failure(InvalidJson)
    ensures msg.NotObject? ==> r == Failure(NotSubscriptable)
    ensures msg.Object? ==> (r.Success? <==> FirstMissing(msg.fields, RequiredFields).None?)
    ensures msg.Object? && r.Failure? ==> r.error == MissingField(FirstMissing(msg.fields, RequiredFields).value)
  {
    match msg
    case Unparsable => Failure(InvalidJson)
    case NotObject => Failure(NotSubscriptable)
    case Object(f) =>
      if "x" !in f then Failure(MissingField("x"))
      else if "y" !in f then Failure(MissingField("y"))
      else if "name" !in f then Failure(MissingField("name"))
      else if "type" !in f then Failure(MissingField("type"))
      else Success(Entry(f["x"], f["y"], f["name"], f["type"]))
  }

  /** An entry as the JSON object it is stored and serialised as. */
  function EncodeEntry(e: Entry): Payload
  {
    Object(map["x" := e.x, "y" := e.y, "name" := e.name, "type" := e.tag])
  }

  /** The handler accepts every well-formed entry and stores it unchanged. */
  lemma DecodeEncode(e: Entry)
    ensures DecodeEntry(EncodeEntry(e)) == Success(e)
  {
  }

  /** The handler reads nothing but the four required fields: extra fields
      are dropped, and two messages that agree on those four decode alike. */
  lemma DecodeReadsOnlyRequired(f1: map<string, Value>, f2: map<string, Value>)
    requires forall k :: k in RequiredFields ==> (k in f1 <==> k in f2)
    requires forall k :: k in RequiredFields && k in f1 ==> f1[k] == f2[k]
    ensures DecodeEntry(Object(f1)) == DecodeEntry(Object(f2))
  {
    assert "x" in RequiredFields && "y" in RequiredFields;
    assert "name" in RequiredFields && "type" in RequiredFields;
  }

  /** The tombstone: the entry retagged "player_disconnected". */
  function Tombstone(e: Entry): Entry
  {
    e.(tag := Str(PlayerDisconnected))
  }

  /** The server's state: the `all_players` table, the `connected_clients`
      set, and every broadcast performed so far. */
  datatype Relay = Relay(table: Table, clients: set<Socket>, log: seq<Broadcast>)

  /** A state after a step, and whether the step raised. */
  datatype Step = Step(state: Relay, outcome: Outcome<Failure>)

  const Initial: Relay := Relay(map[], {}, [])

  /** The tables a socket has been sent, in order. */
  function Received(log: seq<Broadcast>, ws: Socket): seq<Table>
    decreases |log|
  {
    if log == [] then []
    else
      var last := log[|log| - 1];
      Received(log[..|log| - 1], ws) + (if ws in last.recipients then [last.payload] else [])
  }

  lemma ReceivedAppend(log: seq<Broadcast>, b: Broadcast)
    ensures forall ws ::
              Received(log + [b], ws) == Received(log, ws) + (if ws in b.recipients then [b.payload] else [])
  {
    assert (log + [b])[..|log|] == log;
  }

  /** `broadcast_positions`: nothing is sent when the table or the set of
      connections is empty; otherwise every connection, the sender
      included, is sent the same whole table. */
  function AfterBroadcast(s: Relay): (r: Relay)
    ensures r.table == s.table && r.clients == s.clients
    ensures r.log == s.log + (if s.table != map[] && s.clients != {} then [Broadcast(s.clients, s.table)] else [])
    ensures forall ws ::
              Received(r.log, ws) == Received(s.log, ws) + (if ws in s.clients && s.table != map[] then [s.table] else [])
  {
    if s.table != map[] && s.clients != {} then
      var b := Broadcast(s.clients, s.table);
      ReceivedAppend(s.log, b);
      s.(log := s.log + [b])
    else s
  }

  /** `connected_clients.add(websocket)`. */
  function AfterConnect(s: Relay, ws: Socket): Relay
  {
    s.(clients := s.clients + {ws})
  }

  /** One message of the `async for` loop: a message that fails to decode
      raises before anything changes; an accepted one replaces the sender's
      entry and is followed by one broadcast of the whole table. */
  function AfterMessage(s: Relay, ws: Socket, msg: Payload): (r: Step)
    ensures r.outcome.Pass? <==> DecodeEntry(msg).Success?
    ensures r.outcome.Fail? ==> r.state == s && r.outcome.error == DecodeEntry(msg).error
    ensures r.outcome.Pass? ==>
      && r.state.clients == s.clients
      && r.state.table == s.table[PlayerId(ws) := DecodeEntry(msg).value]
      && r.state.log == s.log + (if s.clients != {} then [Broadcast(s.clients, r.state.table)] else [])
      && forall c :: Received(r.state.log, c) ==
           Received(s.log, c) + (if c in s.clients then [r.state.table] else [])
  {
    match DecodeEntry(msg)
    case Failure(e) => Step(s, Fail(e))
    case Success(entry) =>
      var updated := s.table[PlayerId(ws) := entry];
      assert PlayerId(ws) in updated;
      Step(AfterBroadcast(s.(table := updated)), Pass)
  }

  /** The `finally` block: tag the sender's entry, forget the socket,
      broadcast once so that only the others see the tombstone, then delete
      the entry. Without an entry for the sender the first step raises and
      nothing changes; without the socket registered the second step raises
      after the entry has been tagged. */
  function AfterDisconnect(s: Relay, ws: Socket): (r: Step)
    ensures PlayerId(ws) !in s.table ==> r == Step(s, Fail(UnknownPlayer(PlayerId(ws))))
    ensures PlayerId(ws) in s.table && ws !in s.clients ==>
      r.outcome == Fail(UnknownSocket(ws)) && r.state.clients == s.clients && r.state.log == s.log &&
      r.state.table == s.table[PlayerId(ws) := Tombstone(s.table[PlayerId(ws)])]
    ensures PlayerId(ws) in s.table && ws in s.clients ==>
      && r.outcome == Pass
      && r.state.table == s.table - {PlayerId(ws)}
      && r.state.clients == s.clients - {ws}
      && r.state.log == s.log +
           (if s.clients - {ws} != {}
            then [Broadcast(s.clients - {ws}, s.table[PlayerId(ws) := Tombstone(s.table[PlayerId(ws)])])] else [])
      && forall c :: Received(r.state.log, c) ==
           Received(s.log, c) +
           (if c in s.clients && c != ws
            then [s.table[PlayerId(ws) := Tombstone(s.table[PlayerId(ws)])]] else [])
  {
    var id := PlayerId(ws);
    if id !in s.table then Step(s, Fail(UnknownPlayer(id)))
    else
      var tagged := s.(table := s.table[id := Tombstone(s.table[id])]);
      if ws !in tagged.clients then Step(tagged, Fail(UnknownSocket(ws)))
      else
        var sent := AfterBroadcast(tagged.(clients := tagged.clients - {ws}));
        Step(sent.(table := sent.table - {id}), Pass)
  }

  /** The `async for` loop over a connection's messages: it stops at the
      first message that raises. */
  function AfterMessages(s: Relay, ws: Socket, msgs: seq<Payload>): Step
    decreases |msgs|
  {
    if msgs == [] then Step(s, Pass)
    else
      var first := AfterMessage(s, ws, msgs[0]);
      if first.outcome.Fail? then first else AfterMessages(first.state, ws, msgs[1..])
  }

  /** A whole connection handled alone: connect, the message loop, then the
      `finally` block. An exception raised in `finally` replaces the one
      that ended the loop. */
  function AfterSession(s: Relay, ws: Socket, msgs: seq<Payload>): Step
  {
    var served := AfterMessages(AfterConnect(s, ws), ws, msgs);
    var closed := AfterDisconnect(served.state, ws);
    Step(closed.state, if closed.outcome.Fail? then closed.outcome else served.outcome)
  }

  /** The message loop touches only the sender's entry and never the set of
      connections; an entry once present stays present. */
  lemma {:induction false} AfterMessagesFrame(s: Relay, ws: Socket, msgs: seq<Payload>)
    ensures AfterMessages(s, ws, msgs).state.clients == s.clients
    ensures AfterMessages(s, ws, msgs).state.table - {PlayerId(ws)} == s.table - {PlayerId(ws)}
    ensures PlayerId(ws) in s.table ==> PlayerId(ws) in AfterMessages(s, ws, msgs).state.table
    ensures msgs != [] && DecodeEntry(msgs[0]).Success? ==> PlayerId(ws) in AfterMessages(s, ws, msgs).state.table
    decreases |msgs|
  {
    if msgs != [] {
      var first := AfterMessage(s, ws, msgs[0]);
      if first.outcome.Pass? {
        AfterMessagesFrame(first.state, ws, msgs[1..]);
      }
    }
  }

  /** When every message is accepted, the sender's entry is the one built
      from the last message, other entries are as before, and every
      connection receives one broadcast per message. */
  lemma AcceptedMessagesLastWins(s: Relay, ws: Socket, msgs: seq<Payload>)
    requires msgs != []
    requires forall i :: 0 <= i < |msgs| ==> DecodeEntry(msgs[i]).Success?
    ensures AfterMessages(s, ws, msgs).outcome == Pass
    ensures AfterMessages(s, ws, msgs).state.table ==
      s.table[PlayerId(ws) := DecodeEntry(msgs[|msgs| - 1]).value]
    ensures AfterMessages(s, ws, msgs).state.clients == s.clients
    ensures forall c :: c in s.clients ==>
      |Received(AfterMessages(s, ws, msgs).state.log, c)| == |Received(s.log, c)| + |msgs|
  {
    AcceptedMessagesTable(s, ws, msgs);
    AcceptedMessagesBroadcasts(s, ws, msgs);
  }

  /** The table and connection-set half of `AcceptedMessagesLastWins`. */
  lemma {:induction false} AcceptedMessagesTable(s: Relay, ws: Socket, msgs: seq<Payload>)
    requires msgs != []
    requires forall i :: 0 <= i < |msgs| ==> DecodeEntry(msgs[i]).Success?
    ensures AfterMessages(s, ws, msgs).outcome == Pass
    ensures AfterMessages(s, ws, msgs).state.table ==
      s.table[PlayerId(ws) := DecodeEntry(msgs[|msgs| - 1]).value]
    ensures AfterMessages(s, ws, msgs).state.clients == s.clients
    decreases |msgs|
  {
    var id, last := PlayerId(ws), DecodeEntry(msgs[|msgs| - 1]).value;
    var first := AfterMessage(s, ws, msgs[0]);
    var rest := msgs[1..];
    if rest != [] {
      forall i | 0 <= i < |rest| ensures DecodeEntry(rest[i]).Success? {
        assert rest[i] == msgs[i + 1];
      }
      AcceptedMessagesTable(first.state, ws, rest);
      assert rest[|rest| - 1] == msgs[|msgs| - 1];
      UpdateTwice(s.table, id, DecodeEntry(msgs[0]).value, last);
    }
  }

  /** A second write to the same key hides the first. */
  lemma UpdateTwice(t: Table, k: Id, v: Entry, w: Entry)
    ensures t[k := v][k := w] == t[k := w]
  {
  }

  /** The broadcast half of `AcceptedMessagesLastWins`. */
  lemma {:induction false} AcceptedMessagesBroadcasts(s: Relay, ws: Socket, msgs: seq<Payload>)
    requires forall i :: 0 <= i < |msgs| ==> DecodeEntry(msgs[i]).Success?
    ensures forall c :: c in s.clients ==>
      |Received(AfterMessages(s, ws, msgs).state.log, c)| == |Received(s.log, c)| + |msgs|
    decreases |msgs|
  {
    if msgs != [] {
      var first := AfterMessage(s, ws, msgs[0]);
      var rest := msgs[1..];
      assert first.outcome == Pass;
      forall i | 0 <= i < |rest| ensures DecodeEntry(rest[i]).Success? {
        assert rest[i] == msgs[i + 1];
      }
      AcceptedMessagesBroadcasts(first.state, ws, rest);
    }
  }

  /** A connection that sends nothing acceptable dies on the KeyError of the
      `finally` block: no entry, no broadcast, and its socket stays in the
      set of connections for good. */
  lemma SessionWithoutEntryLeaksSocket(s: Relay, ws: Socket, msgs: seq<Payload>)
    requires PlayerId(ws) !in s.table
    requires msgs == [] || DecodeEntry(msgs[0]).Failure?
    ensures AfterSession(s, ws, msgs) == Step(AfterConnect(s, ws), Fail(UnknownPlayer(PlayerId(ws))))
  {
  }

  /** A new connection whose first message is accepted leaves no trace once
      it is closed: its socket and its id are gone and the other entries
      are as they were before it connected. */
  lemma SessionCleansUp(s: Relay, ws: Socket, msgs: seq<Payload>)
    requires ws !in s.clients
    requires msgs != [] && DecodeEntry(msgs[0]).Success?
    ensures AfterSession(s, ws, msgs).state.clients == s.clients
    ensures AfterSession(s, ws, msgs).state.table == s.table - {PlayerId(ws)}
    ensures AfterSession(s, ws, msgs).outcome == AfterMessages(AfterConnect(s, ws), ws, msgs).outcome
  {
    var connected := AfterConnect(s, ws);
    AfterMessagesFrame(connected, ws, msgs);
  }

  /** A connection whose socket leaked stays registered when a later
      connection reuses its remote port: the two share a table entry, but
      closing the newcomer removes only the newcomer's socket. */
  lemma LeakedSocketSurvivesPortReuse(s: Relay, leaked: Socket, ws: Socket, msgs: seq<Payload>)
    requires leaked in s.clients && ws != leaked
    ensures leaked in AfterSession(s, ws, msgs).state.clients
  {
    AfterMessagesFrame(AfterConnect(s, ws), ws, msgs);
  }

  /** The first half of the scenario below: A and B join and send one
      well-formed update each; A is sent both tables, B only the second. */
  lemma TwoPlayersJoin(a: Socket, b: Socket, ea: Entry, eb: Entry)
    requires PlayerId(a) != PlayerId(b)
    ensures
      var s1 := AfterMessage(AfterConnect(Initial, a), a, EncodeEntry(ea)).state;
      var s2 := AfterMessage(AfterConnect(s1, b), b, EncodeEntry(eb)).state;
      s2 == Relay(map[a.port := ea, b.port := eb], {a, b},
                  [Broadcast({a}, map[a.port := ea]),
                   Broadcast({a, b}, map[a.port := ea, b.port := eb])])
  {
    DecodeEncode(ea);
    DecodeEncode(eb);
    var s0 := AfterConnect(Initial, a);
    assert s0 == Relay(map[], {a}, []);
    var s1 := AfterMessage(s0, a, EncodeEntry(ea)).state;
    assert s1 == Relay(map[a.port := ea], {a}, [Broadcast({a}, map[a.port := ea])]);
    var c1 := AfterConnect(s1, b);
    assert c1.clients == {a, b} && c1.clients != {};
    var s2 := AfterMessage(c1, b, EncodeEntry(eb)).state;
    assert s2.table == map[a.port := ea, b.port := eb];
  }

  /** Two clients connect and send one well-formed update each, then the
      first one leaves: each update is fanned out to everyone connected, the
      departure reaches only the one who stays, as a tombstone, and the
      table ends up holding the one who stays. */
  lemma TwoPlayersOneLeaves(a: Socket, b: Socket)
    requires PlayerId(a) != PlayerId(b)
    ensures
      var ea := Entry(Num(10.0), Num(20.0), Str("a"), Str(PlayerMoved));
      var eb := Entry(Num(5.0), Num(5.0), Str("b"), Str(PlayerMoved));
      var s1 := AfterMessage(AfterConnect(Initial, a), a, EncodeEntry(ea)).state;
      var s2 := AfterMessage(AfterConnect(s1, b), b, EncodeEntry(eb)).state;
      var s3 := AfterDisconnect(s2, a);
      && Received(s2.log, a) == [map[a.port := ea], map[a.port := ea, b.port := eb]]
      && Received(s2.log, b) == [map[a.port := ea, b.port := eb]]
      && s3.outcome == Pass
      && s3.state.table == map[b.port := eb]
      && s3.state.clients == {b}
      && Received(s3.state.log, a) == Received(s2.log, a)
      && Received(s3.state.log, b) == Received(s2.log, b) + [map[a.port := Tombstone(ea), b.port := eb]]
  {
    var ea := Entry(Num(10.0), Num(20.0), Str("a"), Str(PlayerMoved));
    var eb := Entry(Num(5.0), Num(5.0), Str("b"), Str(PlayerMoved));
    TwoPlayersJoin(a, b, ea, eb);
    var s1 := AfterMessage(AfterConnect(Initial, a), a, EncodeEntry(ea)).state;
    var s2 := AfterMessage(AfterConnect(s1, b), b, EncodeEntry(eb)).state;
    FirstOfTwoLeaves(s2, a, b, ea, eb);
  }

  /** The second half of the scenario: from the state the two joins leave,
      A's departure is sent, as a tombstone, to B alone. */
  lemma FirstOfTwoLeaves(s2: Relay, a: Socket, b: Socket, ea: Entry, eb: Entry)
    requires PlayerId(a) != PlayerId(b)
    requires s2 == Relay(map[a.port := ea, b.port := eb], {a, b},
                         [Broadcast({a}, map[a.port := ea]),
                          Broadcast({a, b}, map[a.port := ea, b.port := eb])])
    ensures Received(s2.log, a) == [map[a.port := ea], map[a.port := ea, b.port := eb]]
    ensures Received(s2.log, b) == [map[a.port := ea, b.port := eb]]
    ensures AfterDisconnect(s2, a).outcome == Pass
    ensures AfterDisconnect(s2, a).state.table == map[b.port := eb]
    ensures AfterDisconnect(s2, a).state.clients == {b}
    ensures Received(AfterDisconnect(s2, a).state.log, a) == Received(s2.log, a)
    ensures Received(AfterDisconnect(s2, a).state.log, b) ==
      Received(s2.log, b) + [map[a.port := Tombstone(ea), b.port := eb]]
  {
    var t1 := map[a.port := ea];
    var t2 := map[a.port := ea, b.port := eb];
    var tomb := map[a.port := Tombstone(ea), b.port := eb];
    TwoBroadcastsReceived(a, b, t1, t2);
    assert PlayerId(a) in s2.table && a in s2.clients;
    assert s2.table[a.port := Tombstone(ea)] == tomb;
    var s3 := AfterDisconnect(s2, a);
    assert s3.state.clients == {b} by {
      assert s2.clients - {a} == {b};
    }
    assert s3.state.table == map[b.port := eb] by {
      assert s2.table - {a.port} == map[b.port := eb];
    }
  }

  /** What each of two connections has received after a broadcast to the
      first alone and then one to both. */
  lemma TwoBroadcastsReceived(a: Socket, b: Socket, t1: Table, t2: Table)
    requires a != b
    ensures Received([Broadcast({a}, t1), Broadcast({a, b}, t2)], a) == [t1, t2]
    ensures Received([Broadcast({a}, t1), Broadcast({a, b}, t2)], b) == [t2]
  {
    var b1, b2 := Broadcast({a}, t1), Broadcast({a, b}, t2);
    ReceivedAppend([], b1);
    ReceivedAppend([b1], b2);
    assert [b1] + [b2] == [b1, b2];
  }

  /** The server's module-level state. */
  class RelayServer {
    var allPlayers: Table
    var connectedClients: set<Socket>
    ghost var log: seq<Broadcast>

    ghost function State(): Relay
      reads this
    {
      Relay(allPlayers, connectedClients, log)
    }

    constructor ()
      ensures State() == Initial
    {
      allPlayers, connectedClients, log := map[], {}, [];
    }

    /** `broadcast_positions`. */
    method BroadcastPositions()
      modifies this`log
      ensures State() == AfterBroadcast(old(State()))
    {
      if allPlayers != map[] {
        if connectedClients != {} {
          log := log + [Broadcast(connectedClients, allPlayers)];
        }
      }
    }

    /** The start of `handle_client`: the connection is registered, and no
        table entry is created for it. */
    method Connect(ws: Socket)
      modifies this`connectedClients
      ensures connectedClients == old(connectedClients) + {ws}
      ensures State() == AfterConnect(old(State()), ws)
    {
      connectedClients := connectedClients + {ws};
    }

    /** The body of the `async for` loop for one message. */
    method HandleMessage(ws: Socket, msg: Payload) returns (outcome: Outcome<Failure>)
      modifies this
      ensures Step(State(), outcome) == AfterMessage(old(State()), ws, msg)
    {
      var decoded := DecodeEntry(msg);
      if decoded.Failure? {
        return Fail(decoded.error);
      }
      allPlayers := allPlayers[PlayerId(ws) := decoded.value];
      BroadcastPositions();
      outcome := Pass;
    }

    /** The `finally` block of `handle_client`. */
    method HandleDisconnect(ws: Socket) returns (outcome: Outcome<Failure>)
      modifies this
      ensures Step(State(), outcome) == AfterDisconnect(old(State()), ws)
    {
      var id := PlayerId(ws);
      if id !in allPlayers {
        return Fail(UnknownPlayer(id));
      }
      allPlayers := allPlayers[id := Tombstone(allPlayers[id])];
      if ws !in connectedClients {
        return Fail(UnknownSocket(ws));
      }
      connectedClients := connectedClients - {ws};
      BroadcastPositions();
      allPlayers := allPlayers - {id};
      outcome := Pass;
    }

    /** `handle_client` for one connection whose messages are `msgs`; the
        loop ends when they run out (the connection closes) or one raises. */
    method HandleClient(ws: Socket, msgs: seq<Payload>) returns (outcome: Outcome<Failure>)
      modifies this
      ensures Step(State(), outcome) == AfterSession(old(State()), ws, msgs)
    {
      Connect(ws);
      ghost var connected := State();
      var served: Outcome<Failure> := Pass;
      var i := 0;
      while i < |msgs| && served.Pass?
        invariant 0 <= i <= |msgs|
        invariant served.Pass? ==> AfterMessages(State(), ws, msgs[i..]) == AfterMessages(connected, ws, msgs)
        invariant served.Fail? ==> Step(State(), served) == AfterMessages(connected, ws, msgs)
      {
        assert msgs[i..][1..] == msgs[i + 1..];
        served := HandleMessage(ws, msgs[i]);
        i := i + 1;
      }
      var closed := HandleDisconnect(ws);
      outcome := if closed.Fail? then closed else served;
    }
  }
}
