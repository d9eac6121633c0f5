/** The client and the relay server put together. */
module Protocol {
  import opened Wire
  import Game
  import opened Server

  /** The frames a client sends for a run of (name, x, y) positions. */
  function PositionMessages(updates: seq<(string, real, real)>): seq<Payload>
  {
    seq(|updates|, i requires 0 <= i < |updates| => Game.PositionMessage(updates[i].0, updates[i].1, updates[i].2))
  }

  /** The client never sends "type", which the server reads unconditionally:
      every position update is refused with a KeyError on that field. */
  lemma PositionMessageRejected(name: string, x: real, y: real)
    ensures DecodeEntry(Game.PositionMessage(name, x, y)) == Failure(MissingField("type"))
  {
    var f := Game.PositionMessage(name, x, y).fields;
    assert "x" in f && "y" in f && "name" in f && "type" !in f;
  }

  /** Hence a session of this client never reaches the table: its first
      update ends the message loop, the `finally` block then raises on the
      missing entry, and the socket is left registered. */
  lemma ClientSessionLeaksSocket(s: Relay, ws: Socket, updates: seq<(string, real, real)>)
    requires PlayerId(ws) !in s.table
    ensures AfterSession(s, ws, PositionMessages(updates)) ==
      Step(AfterConnect(s, ws), Fail(UnknownPlayer(PlayerId(ws))))
  {
    var msgs := PositionMessages(updates);
    if updates != [] {
      PositionMessageRejected(updates[0].0, updates[0].1, updates[0].2);
    }
    SessionWithoutEntryLeaksSocket(s, ws, msgs);
  }
}
