/** The game client (game/main.py): local movement of the player's square,
    the publisher's per-iteration send decision, and the merge of one server
    snapshot into the registry of known players.

    The module-level globals of the client (LAST_POSITION, particles,
    local_player, all_players) are the fields of class Client; a Player is an
    object because the merge updates it in place and the local player is the
    very object stored under its own name in the registry. */
module Game {
  import opened Wire

  const ScreenWidth: real := 800.0
  const ScreenHeight: real := 600.0
  const PlayerSize: real := 50.0
  const PlayerSpeed: real := 5.0
  const LocalName: string := "test"
  const StartX: real := 400.0
  const StartY: real := 300.0

  type Pos = (real, real)

  /** The arrow keys that `pygame.key.get_pressed()` reports as held. */
  datatype Keys = Keys(left: bool, right: bool, up: bool, down: bool)

  const NoKeys: Keys := Keys(false, false, false, false)

  /** A trail particle, reduced to the point where it is spawned; its size,
      velocity and lifetime are random and are not modelled. */
  datatype Particle = Particle(x: real, y: real)

  function Max(a: real, b: real): real { if a >= b then a else b }

  function Min(a: real, b: real): real { if a <= b then a else b }

  /** Where one coordinate ends up after one frame: the key towards 0 is
      handled first and clamps at 0, then the key away from 0 clamps at
      `limit` (the screen extent minus the square's size). */
  function AxisStep(p: real, toward0: bool, away: bool, limit: real): real
  {
    var q := if toward0 then Max(0.0, p - PlayerSpeed) else p;
    if away then Min(q + PlayerSpeed, limit) else q
  }

  /** The position after one call of `move` with the given keys. */
  function Moved(p: Pos, keys: Keys): Pos
  {
    (AxisStep(p.0, keys.left, keys.right, ScreenWidth - PlayerSize),
     AxisStep(p.1, keys.up, keys.down, ScreenHeight - PlayerSize))
  }

  /** The whole square is inside the 800x600 window. */
  predicate OnScreen(p: Pos)
  {
    0.0 <= p.0 <= ScreenWidth - PlayerSize && 0.0 <= p.1 <= ScreenHeight - PlayerSize
  }

  /** The position after one `move` per frame, for a run of frames. */
  function Walk(p: Pos, frames: seq<Keys>): Pos
    decreases |frames|
  {
    if frames == [] then p else Walk(Moved(p, frames[0]), frames[1..])
  }

  /** The particle `move` spawns below the centre of the square at `p`. */
  function TrailParticle(p: Pos): Particle
  {
    Particle(p.0 + PlayerSize / 2.0, p.1 + PlayerSize)
  }

  /** The JSON object `send_position` transmits. */
  function PositionMessage(name: string, x: real, y: real): Payload
  {
    Object(map["name" := Str(name), "x" := Num(x), "y" := Num(y)])
  }

  lemma NoKeysNoMove(p: Pos)
    ensures Moved(p, NoKeys) == p
  {
  }

  /** A single key moves by `speed` and clamps at the near edge. */
  lemma SingleKeyMoves(p: Pos)
    ensures Moved(p, Keys(true, false, false, false)) == (Max(0.0, p.0 - PlayerSpeed), p.1)
    ensures Moved(p, Keys(false, true, false, false)) == (Min(p.0 + PlayerSpeed, ScreenWidth - PlayerSize), p.1)
    ensures Moved(p, Keys(false, false, true, false)) == (p.0, Max(0.0, p.1 - PlayerSpeed))
    ensures Moved(p, Keys(false, false, false, true)) == (p.0, Min(p.1 + PlayerSpeed, ScreenHeight - PlayerSize))
  {
  }

  /** Any key combination keeps an on-screen square on screen. */
  lemma MovedStaysOnScreen(p: Pos, keys: Keys)
    requires OnScreen(p)
    ensures OnScreen(Moved(p, keys))
  {
  }

  /** However long the keys are held, the square never leaves the window. */
  lemma {:induction false} WalkStaysOnScreen(p: Pos, frames: seq<Keys>)
    requires OnScreen(p)
    ensures OnScreen(Walk(p, frames))
    decreases |frames|
  {
    if frames != [] {
      MovedStaysOnScreen(p, frames[0]);
      WalkStaysOnScreen(Moved(p, frames[0]), frames[1..]);
    }
  }

  class Player {
    var posX: real
    var posY: real
    const name: string
    const size: real := PlayerSize
    const speed: real := PlayerSpeed

    constructor (x: real, y: real, name: string)
      ensures posX == x && posY == y && this.name == name
    {
      posX, posY := x, y;
      this.name := name;
    }

    /** One frame of local movement. Before moving, records the entry
        position in LAST_POSITION and drops a trail particle when that
        position differs from the previous LAST_POSITION. */
    method Move(keys: Keys, client: Client)
      modifies this`posX, this`posY, client`lastPosition, client`particles
      ensures (posX, posY) == Moved(old((posX, posY)), keys)
      ensures client.lastPosition == old((posX, posY))
      ensures client.particles == old(client.particles) +
        (if old(client.lastPosition) != old((posX, posY)) then [TrailParticle(old((posX, posY)))] else [])
    {
      if client.lastPosition != (posX, posY) {
        client.particles := client.particles + [Particle(posX + size / 2.0, posY + size)];
      }
      client.lastPosition := (posX, posY);
      if keys.left {
        if posX > speed {
          posX := posX - speed;
        } else {
          posX := posX - posX;
        }
      }
      if keys.right {
        if posX + size + speed < ScreenWidth {
          posX := posX + speed;
        } else {
          posX := ScreenWidth - size;
        }
      }
      if keys.up {
        if posY > speed {
          posY := posY - speed;
        } else {
          posY := posY - posY;
        }
      }
      if keys.down {
        if posY + size + speed < ScreenHeight {
          posY := posY + speed;
        } else {
          posY := ScreenHeight - size;
        }
      }
    }
  }

  /** One entry of a server snapshot as the client reads it. */
  datatype SnapshotEntry = SnapshotEntry(x: real, y: real, name: string, tag: string)

  /** A server snapshot in the order the decoded dict iterates: pairs of the
      server's key (a player id) and the entry stored under it. */
  type Snapshot = seq<(string, SnapshotEntry)>

  /** The names a snapshot mentions. */
  function Names(snap: Snapshot): set<string>
  {
    set i | 0 <= i < |snap| :: snap[i].1.name
  }

  /** Positions of the registry after a snapshot is applied, entry after
      entry, to a registry whose positions were `view`. Registry keys are
      player names; the server id and the tag of each entry are not read. */
  function Merge(view: map<string, Pos>, snap: Snapshot): map<string, Pos>
    decreases |snap|
  {
    if snap == [] then view
    else
      var e := snap[|snap| - 1].1;
      Merge(view, snap[..|snap| - 1])[e.name := (e.x, e.y)]
  }

  /** Applying a snapshot adds exactly the names it mentions; none is removed. */
  lemma {:induction false} MergeKeys(view: map<string, Pos>, snap: Snapshot)
    ensures Merge(view, snap).Keys == view.Keys + Names(snap)
    decreases |snap|
  {
    if snap != [] {
      var init := snap[..|snap| - 1];
      MergeKeys(view, init);
      assert Names(snap) == Names(init) + {snap[|snap| - 1].1.name} by {
        forall n | n in Names(snap) ensures n in Names(init) + {snap[|snap| - 1].1.name} {
          var i :| 0 <= i < |snap| && snap[i].1.name == n;
          if i < |snap| - 1 { assert init[i] == snap[i]; }
        }
        forall n | n in Names(init) ensures n in Names(snap) {
          var i :| 0 <= i < |init| && init[i].1.name == n;
          assert snap[i] == init[i];
        }
      }
    }
  }

  /** The last entry bearing a name decides that player's position. */
  lemma {:induction false} MergeLastEntryWins(view: map<string, Pos>, snap: Snapshot, j: nat)
    requires j < |snap|
    requires forall k :: j < k < |snap| ==> snap[k].1.name != snap[j].1.name
    ensures snap[j].1.name in Merge(view, snap)
    ensures Merge(view, snap)[snap[j].1.name] == (snap[j].1.x, snap[j].1.y)
    decreases |snap|
  {
    if j < |snap| - 1 {
      var init := snap[..|snap| - 1];
      assert init[j] == snap[j];
      forall k | j < k < |init| ensures init[k].1.name != init[j].1.name {
        assert init[k] == snap[k];
      }
      MergeLastEntryWins(view, init, j);
    }
  }

  /** Players the snapshot does not mention keep their position, and no
      player appears or disappears unless the snapshot names it. */
  lemma {:induction false} MergeLeavesOthers(view: map<string, Pos>, snap: Snapshot, n: string)
    requires n !in Names(snap)
    ensures n in Merge(view, snap) <==> n in view
    ensures n in view ==> Merge(view, snap)[n] == view[n]
    decreases |snap|
  {
    if snap != [] {
      var init := snap[..|snap| - 1];
      assert snap[|snap| - 1].1.name in Names(snap);
      forall i | 0 <= i < |init| ensures init[i].1.name != n {
        assert init[i] == snap[i];
        assert snap[i].1.name in Names(snap);
      }
      MergeLeavesOthers(view, init, n);
    }
  }

  /** Only the name and coordinates of each entry matter: the server id it is
      filed under and its tag ("player_disconnected" included) are ignored. */
  lemma {:induction false} MergeIgnoresIdAndTag(view: map<string, Pos>, s1: Snapshot, s2: Snapshot)
    requires |s1| == |s2|
    requires forall i :: 0 <= i < |s1| ==>
      s1[i].1.name == s2[i].1.name && s1[i].1.x == s2[i].1.x && s1[i].1.y == s2[i].1.y
    ensures Merge(view, s1) == Merge(view, s2)
    decreases |s1|
  {
    if s1 != [] {
      var n := |s1| - 1;
      forall i | 0 <= i < n
        ensures s1[..n][i].1.name == s2[..n][i].1.name && s1[..n][i].1.x == s2[..n][i].1.x && s1[..n][i].1.y == s2[..n][i].1.y
      {
        assert s1[..n][i] == s1[i] && s2[..n][i] == s2[i];
      }
      MergeIgnoresIdAndTag(view, s1[..n], s2[..n]);
    }
  }

  /** The client's module-level state. */
  class Client {
    var lastPosition: Pos
    var particles: seq<Particle>
    var localPlayer: Player
    var allPlayers: map<string, Player>

    /** Every player is filed under its own name, and the local player is
        the object filed under "test". */
    ghost predicate Valid()
      reads this
    {
      && LocalName in allPlayers
      && allPlayers[LocalName] == localPlayer
      && forall n :: n in allPlayers ==> allPlayers[n].name == n
    }

    /** The position of every known player, by name. */
    ghost function Positions(): map<string, Pos>
      reads this, allPlayers.Values
    {
      map n | n in allPlayers :: (allPlayers[n].posX, allPlayers[n].posY)
    }

    constructor ()
      ensures Valid() && fresh(localPlayer)
      ensures allPlayers == map[LocalName := localPlayer]
      ensures (localPlayer.posX, localPlayer.posY) == (StartX, StartY)
      ensures lastPosition == (0.0, 0.0) && particles == []
    {
      lastPosition := (0.0, 0.0);
      particles := [];
      var p := new Player(StartX, StartY, LocalName);
      localPlayer := p;
      allPlayers := map[LocalName := p];
    }

    /** One iteration of the publisher loop: the local position is sent,
        as name, x and y, exactly when it differs from LAST_POSITION. */
    method SendTick() returns (sent: Option<Payload>)
      ensures sent.Some? <==> lastPosition != (localPlayer.posX, localPlayer.posY)
      ensures sent.Some? ==> sent.value == PositionMessage(localPlayer.name, localPlayer.posX, localPlayer.posY)
    {
      if lastPosition == (localPlayer.posX, localPlayer.posY) {
        sent := None;
      } else {
        sent := Some(PositionMessage(localPlayer.name, localPlayer.posX, localPlayer.posY));
      }
    }

    /** The main loop's `local_player.move(keys)`, once per frame. */
    method RunFrames(frames: seq<Keys>)
      modifies localPlayer`posX, localPlayer`posY, this`lastPosition, this`particles
      ensures (localPlayer.posX, localPlayer.posY) == Walk(old((localPlayer.posX, localPlayer.posY)), frames)
      ensures frames != [] ==> lastPosition == Walk(old((localPlayer.posX, localPlayer.posY)), frames[..|frames| - 1])
      ensures old(particles) <= particles && |particles| <= |old(particles)| + |frames|
    {
      ghost var start := (localPlayer.posX, localPlayer.posY);
      var i := 0;
      while i < |frames|
        invariant 0 <= i <= |frames|
        invariant (localPlayer.posX, localPlayer.posY) == Walk(start, frames[..i])
        invariant i > 0 ==> lastPosition == Walk(start, frames[..i - 1])
        invariant old(particles) <= particles && |particles| <= |old(particles)| + i
      {
        WalkSnoc(start, frames[..i], frames[i]);
        assert frames[..i + 1] == frames[..i] + [frames[i]];
        localPlayer.Move(frames[i], this);
        i := i + 1;
      }
      assert frames[..|frames|] == frames;
    }

    /** Applies one snapshot entry (one iteration of the receive loop): an
        unknown name gets a new Player, a known one has its coordinates
        overwritten in place. */
    method ApplyEntry(entry: SnapshotEntry)
      requires Valid()
      modifies this, allPlayers.Values
      ensures Valid()
      ensures localPlayer == old(localPlayer)
      ensures lastPosition == old(lastPosition) && particles == old(particles)
      ensures forall n :: n in old(allPlayers) ==> n in allPlayers && allPlayers[n] == old(allPlayers[n])
      ensures forall n :: n in allPlayers && n !in old(allPlayers) ==> fresh(allPlayers[n])
      ensures Positions() == old(Positions())[entry.name := (entry.x, entry.y)]
    {
      if entry.name !in allPlayers {
        var p := new Player(entry.x, entry.y, entry.name);
        allPlayers := allPlayers[entry.name := p];
      } else {
        var p := allPlayers[entry.name];
        p.posX := entry.x;
        p.posY := entry.y;
      }
    }

    /** Applies one server snapshot (the body of the receive thread's loop):
        its entries in order, the local player under "test" included. */
    method ReceiveSnapshot(snap: Snapshot)
      requires Valid()
      modifies this, allPlayers.Values
      ensures Valid()
      ensures localPlayer == old(localPlayer)
      ensures lastPosition == old(lastPosition) && particles == old(particles)
      ensures forall n :: n in old(allPlayers) ==> n in allPlayers && allPlayers[n] == old(allPlayers[n])
      ensures forall n :: n in allPlayers && n !in old(allPlayers) ==> fresh(allPlayers[n])
      ensures Positions() == Merge(old(Positions()), snap)
      ensures (localPlayer.posX, localPlayer.posY) == Merge(old(Positions()), snap)[LocalName]
    {
      var i := 0;
      while i < |snap|
        invariant 0 <= i <= |snap|
        invariant Valid()
        invariant localPlayer == old(localPlayer)
        invariant lastPosition == old(lastPosition) && particles == old(particles)
        invariant forall n :: n in old(allPlayers) ==> n in allPlayers && allPlayers[n] == old(allPlayers[n])
        invariant forall n :: n in allPlayers && n !in old(allPlayers) ==> fresh(allPlayers[n])
        invariant Positions() == Merge(old(Positions()), snap[..i])
      {
        ApplyEntry(snap[i].1);
        assert snap[..i + 1][..i] == snap[..i];
        i := i + 1;
      }
      assert snap[..|snap|] == snap;
    }
  }

  /** Walking one more frame is one more `Moved`. */
  lemma {:induction false} WalkSnoc(p: Pos, frames: seq<Keys>, keys: Keys)
    ensures Walk(p, frames + [keys]) == Moved(Walk(p, frames), keys)
    decreases |frames|
  {
    if frames != [] {
      assert (frames + [keys])[1..] == frames[1..] + [keys];
      WalkSnoc(Moved(p, frames[0]), frames[1..], keys);
    }
  }
}
