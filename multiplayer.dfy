/**
 * The multiplayer merge: a client applies the host's snapshot to its game, and a host admits
 * clients to its peer list and folds each client's packet (its ship and its bullets) into the
 * roster of remote ships.
 */
module MultiplayerGameUpdaters {
  import opened Wrappers
  import opened Modes
  import opened GameObjects
  import opened Bullets
  import opened Spaceships
  import opened Sequences
  import opened Games

  /** What a client sends: its ship and its bullets, either of which may be missing. */
  datatype ClientPacket = ClientPacket(player: Option<Ship>, bulletList: Option<seq<Bullet>>)

  /** The outcome of folding a client packet in: whether it ran to the end, and the new state. */
  datatype Acceptance = Acceptance(completed: bool, state: GameState)

  /** The test "this ship is not the one with identity `id`". */
  function NotId(id: int): Ship -> bool
  {
    (s: Ship) => s.obj.multiplayerId != id
  }

  /** The test "this ship is the one with identity `id`". */
  function IsId(id: int): Ship -> bool
  {
    (s: Ship) => s.obj.multiplayerId == id
  }

  /** The ships of `ss` other than the one with identity `id`, in their order. */
  function OthersOf(ss: seq<Ship>, id: int): (r: seq<Ship>)
    ensures |r| <= |ss|
    ensures forall k :: 0 <= k < |r| ==> r[k].obj.multiplayerId != id
    ensures forall s :: s in r ==> s in ss
    ensures forall k :: 0 <= k < |ss| && ss[k].obj.multiplayerId != id ==> ss[k] in r
    ensures (forall k :: 0 <= k < |ss| ==> ss[k].obj.multiplayerId != id) ==> r == ss
  {
    FilterMembers(ss, NotId(id));
    Filter(ss, NotId(id))
  }

  /** What `Filter` keeps comes from its input. */
  lemma {:induction false} FilterMembers<T>(s: seq<T>, keep: T -> bool)
    ensures forall x :: x in Filter(s, keep) ==> x in s
    decreases |s|
  {
    if |s| > 0 {
      FilterMembers(s[..|s| - 1], keep);
      forall x | x in Filter(s, keep)
        ensures x in s
      {
        if x in Filter(s[..|s| - 1], keep) {
          assert x in s[..|s| - 1];
        }
      }
    }
  }

  /**
   * A client's game after the host's snapshot `snap` arrives: outside a deathmatch the host's
   * asteroids replace the local ones; every host bullet is merged in; the remote ships become
   * the host's roster without the local ship, then the host's own ship; and in COOP the local
   * ship takes the host ship's shared score.
   */
  function ApplySnapshot(w: GameState, mode: GameMode, snap: GameState): GameState
  {
    GameState(
      if mode == COOP then w.ship.(player := w.ship.player.(coopScore := snap.ship.player.coopScore)) else w.ship,
      MergeBullets(w.bullets, snap.bullets),
      if mode != Deathmatch then snap.asteroids else w.asteroids,
      OthersOf(snap.spaceships, w.ship.obj.multiplayerId) + [snap.ship])
  }

  /**
   * What a snapshot does, field by field: the asteroid rule by mode; a roster whose last entry is
   * the host's ship and whose other entries are host entries other than the local ship; the local
   * ship unchanged except for the COOP shared score; and, when the host's bullets have distinct
   * identities, each of them reflected in the bullet list.
   */
  lemma SnapshotEffects(w: GameState, mode: GameMode, snap: GameState)
    ensures var r := ApplySnapshot(w, mode, snap);
      && (mode != Deathmatch ==> r.asteroids == snap.asteroids)
      && (mode == Deathmatch ==> r.asteroids == w.asteroids)
      && |r.spaceships| >= 1 && r.spaceships[|r.spaceships| - 1] == snap.ship
      && r.spaceships[..|r.spaceships| - 1] == OthersOf(snap.spaceships, w.ship.obj.multiplayerId)
      && (forall k :: 0 <= k < |r.spaceships| - 1 ==>
            r.spaceships[k] in snap.spaceships && r.spaceships[k].obj.multiplayerId != w.ship.obj.multiplayerId)
      && r.ship == w.ship.(player := r.ship.player)
      && r.ship.player == w.ship.player.(coopScore := r.ship.player.coopScore)
      && r.ship.player.coopScore == (if mode == COOP then snap.ship.player.coopScore else w.ship.player.coopScore)
      && (DistinctBulletIds(snap.bullets) ==>
            forall k :: 0 <= k < |snap.bullets| ==> Reflects(r.bullets, snap.bullets[k]))
  {
    var r := ApplySnapshot(w, mode, snap);
    var others := OthersOf(snap.spaceships, w.ship.obj.multiplayerId);
    assert r.spaceships == others + [snap.ship];
    assert r.spaceships[..|r.spaceships| - 1] == others;
    forall k | 0 <= k < |r.spaceships| - 1
      ensures r.spaceships[k] in snap.spaceships && r.spaceships[k].obj.multiplayerId != w.ship.obj.multiplayerId
    {
      assert r.spaceships[k] == others[k];
      assert others[k] in others;
    }
    if DistinctBulletIds(snap.bullets) {
      MergeBulletsReflectsAll(w.bullets, snap.bullets);
    }
  }

  /** Applying the same snapshot twice is applying it once. */
  lemma SnapshotIdempotent(w: GameState, mode: GameMode, snap: GameState)
    ensures ApplySnapshot(ApplySnapshot(w, mode, snap), mode, snap) == ApplySnapshot(w, mode, snap)
  {
    MergeBulletsIdempotent(w.bullets, snap.bullets);
  }

  /**
   * A dead client's ship: with no mode the source's `switch` fails (None); a COOP ship becomes a
   * spectator, the `switch` falling through to the deathmatch case, which does nothing; a ship in
   * any other mode is unchanged.
   */
  function HandleClientDeath(s: Ship): (r: Option<Ship>)
    ensures r.None? <==> s.player.mode == NoMode
    ensures r.Some? ==> r.value == s.(player := s.player.(mode := r.value.player.mode))
    ensures r.Some? && s.player.mode == COOP ==> r.value.player.mode == Spectate
    ensures r.Some? && s.player.mode != COOP ==> r.value == s
  {
    match s.player.mode
    case NoMode => None
    case COOP => Some(s.(player := s.player.(mode := Spectate)))
    case _ => Some(s)
  }

  /** Handling a death twice is handling it once: a spectator stays as it is. */
  lemma HandleClientDeathIdempotent(s: Ship)
    requires s.player.mode != NoMode
    ensures HandleClientDeath(s).Some?
    ensures HandleClientDeath(HandleClientDeath(s).value) == HandleClientDeath(s)
  {
  }

  /** Where the scan of the roster stops: a destroyed ship with no mode, which the death handling cannot take. */
  predicate Aborts(s: Ship)
  {
    s.obj.destroyed && s.player.mode == NoMode
  }

  /** A roster entry once the scan has passed it: destroyed entries are death-handled. */
  function Scanned(s: Ship): (r: Ship)
    requires !Aborts(s)
    ensures s.obj.destroyed ==> Some(r) == HandleClientDeath(s)
    ensures !s.obj.destroyed ==> r == s
  {
    if s.obj.destroyed then HandleClientDeath(s).value else s
  }

  /**
   * The index at which the scan from `i` stops: the first entry that aborts the death handling
   * or carries identity `id`, or the end of the roster.
   */
  function StopIndex(ss: seq<Ship>, id: int, i: int): (r: int)
    requires 0 <= i <= |ss|
    ensures i <= r <= |ss|
    ensures forall k :: i <= k < r ==> !Aborts(ss[k]) && ss[k].obj.multiplayerId != id
    ensures r < |ss| ==> Aborts(ss[r]) || ss[r].obj.multiplayerId == id
    decreases |ss| - i
  {
    if i == |ss| || Aborts(ss[i]) || ss[i].obj.multiplayerId == id then i
    else StopIndex(ss, id, i + 1)
  }

  /** Entry `e` after its client's ship `n` arrived: only location, velocity and direction are copied. */
  function Adopt(e: Ship, n: Ship): (r: Ship)
    ensures r.obj.location == n.obj.location && r.obj.velocity == n.obj.velocity && r.direction == n.direction
    ensures r.obj.(location := e.obj.location, velocity := e.obj.velocity) == e.obj
    ensures r.(obj := e.obj, direction := e.direction) == e
  {
    e.(obj := SetLocation(SetVelocity(e.obj, n.obj.velocity), n.obj.location), direction := n.direction)
  }

  /**
   * The roster after the non-spectating client ship `n` arrives: it is scanned from the front,
   * destroyed entries being death-handled, up to the stop index. A destroyed entry with no mode
   * aborts the scan, the entries before it keeping their death handling; the first entry with
   * `n`'s identity, death-handled, adopts `n`'s motion; with neither, `n` is appended.
   */
  function RosterAfter(ss: seq<Ship>, n: Ship): seq<Ship>
  {
    var stop := StopIndex(ss, n.obj.multiplayerId, 0);
    var handled := seq(stop, k requires 0 <= k < stop => Scanned(ss[k]));
    if stop == |ss| then handled + [n]
    else if Aborts(ss[stop]) then handled + ss[stop..]
    else handled + [Adopt(Scanned(ss[stop]), n)] + ss[stop + 1..]
  }

  /**
   * The host's state after the client ship `n` arrives, in game mode `mode`. A spectator changes
   * nothing. Otherwise the roster becomes `RosterAfter`, the call completing unless the scan
   * aborted, and when an entry matched in COOP the host's shared score becomes its own score plus
   * that entry's stored score.
   */
  function AcceptPlayer(w: GameState, mode: GameMode, n: Ship): Acceptance
  {
    if n.player.mode == Spectate then Acceptance(true, w)
    else
      var ss := w.spaceships;
      var stop := StopIndex(ss, n.obj.multiplayerId, 0);
      var completed := stop == |ss| || !Aborts(ss[stop]);
      var ship := if stop < |ss| && completed && mode == COOP
                  then w.ship.(player := w.ship.player.(coopScore := w.ship.score + ss[stop].score))
                  else w.ship;
      Acceptance(completed, w.(ship := ship, spaceships := RosterAfter(ss, n)))
  }

  /**
   * The host's state after a client packet `p`: nothing happens without a ship; otherwise the
   * ship is folded in, and, unless that aborted, the packet's bullets are merged.
   */
  function AcceptClientPacket(w: GameState, mode: GameMode, p: ClientPacket): Acceptance
  {
    if p.player.None? then Acceptance(true, w)
    else
      var a := AcceptPlayer(w, mode, p.player.value);
      if a.completed && p.bulletList.Some? then a.(state := a.state.(bullets := MergeBullets(a.state.bullets, p.bulletList.value)))
      else a
  }

  /**
   * A spectating client's ship never enters or changes the roster, and nothing but the bullets
   * changes: they are those of the packet merged in.
   */
  lemma SpectatorLeavesRoster(w: GameState, mode: GameMode, p: ClientPacket)
    requires p.player.Some? && p.player.value.player.mode == Spectate
    ensures var a := AcceptClientPacket(w, mode, p);
      && a.completed
      && a.state.spaceships == w.spaceships && a.state.ship == w.ship && a.state.asteroids == w.asteroids
      && a.state.bullets == (if p.bulletList.Some? then MergeBullets(w.bullets, p.bulletList.value) else w.bullets)
  {
  }

  /**
   * A non-spectating client ship whose identity no roster entry carries, folded into a roster the
   * death handling can take, is appended itself after the death-handled entries; the call
   * completes, and the host's ship and everything else stay as they were.
   */
  lemma UnknownShipIsAppended(w: GameState, mode: GameMode, n: Ship)
    requires n.player.mode != Spectate
    requires forall k :: 0 <= k < |w.spaceships| ==>
      w.spaceships[k].obj.multiplayerId != n.obj.multiplayerId && !Aborts(w.spaceships[k])
    ensures var a := AcceptPlayer(w, mode, n);
      && a.completed
      && a.state.spaceships == seq(|w.spaceships|, k requires 0 <= k < |w.spaceships| => Scanned(w.spaceships[k])) + [n]
      && a.state == w.(spaceships := a.state.spaceships)
  {
  }

  /**
   * A packet without a ship changes nothing, even when it carries bullets; and asteroids never
   * change.
   */
  lemma PacketWithoutShipIgnored(w: GameState, mode: GameMode, p: ClientPacket)
    ensures p.player.None? ==> AcceptClientPacket(w, mode, p) == Acceptance(true, w)
    ensures AcceptClientPacket(w, mode, p).state.asteroids == w.asteroids
  {
  }

  /** Two rosters whose entries carry the same identities, position by position, count an identity alike. */
  lemma {:induction false} CountSameIds(a: seq<Ship>, b: seq<Ship>, id: int)
    requires |a| == |b|
    requires forall k :: 0 <= k < |a| ==> a[k].obj.multiplayerId == b[k].obj.multiplayerId
    ensures Count(a, IsId(id)) == Count(b, IsId(id))
    decreases |a|
  {
    if |a| > 0 {
      CountSameIds(a[..|a| - 1], b[..|b| - 1], id);
    }
  }

  /**
   * Folding a non-spectating client ship in: when it completes, the roster holds as many entries
   * with the ship's identity as before, or one if there were none; when it aborts, the roster
   * keeps its length and nothing is appended.
   */
  lemma AcceptKeepsOneEntryPerId(w: GameState, mode: GameMode, n: Ship)
    requires n.player.mode != Spectate
    ensures var a := AcceptPlayer(w, mode, n);
      var before := Count(w.spaceships, IsId(n.obj.multiplayerId));
      var after := Count(a.state.spaceships, IsId(n.obj.multiplayerId));
      && (a.completed ==> after == if before == 0 then 1 else before)
      && (!a.completed ==> |a.state.spaceships| == |w.spaceships| && after == before)
  {
    var ss := w.spaceships;
    var id := n.obj.multiplayerId;
    var stop := StopIndex(ss, id, 0);
    var handled := seq(stop, k requires 0 <= k < stop => Scanned(ss[k]));
    var r := AcceptPlayer(w, mode, n).state.spaceships;
    if stop == |ss| {
      CountSameIds(handled, ss, id);
      assert r == handled + [n];
      assert r[..|handled|] == handled;
    } else {
      CountSameIds(r, ss, id);
      if !Aborts(ss[stop]) {
        assert IsId(id)(ss[stop]);
      }
    }
  }

  /** Two packets carrying ships with the same identity, into a roster without it, leave exactly one entry for it. */
  lemma SameIdTwiceLeavesOneEntry(w: GameState, mode: GameMode, n1: Ship, n2: Ship)
    requires n1.player.mode != Spectate && n2.player.mode != Spectate
    requires n1.obj.multiplayerId == n2.obj.multiplayerId
    requires forall k :: 0 <= k < |w.spaceships| ==> w.spaceships[k].obj.multiplayerId != n1.obj.multiplayerId
    requires AcceptPlayer(w, mode, n1).completed
    ensures var a := AcceptPlayer(AcceptPlayer(w, mode, n1).state, mode, n2);
      a.completed ==> Count(a.state.spaceships, IsId(n1.obj.multiplayerId)) == 1
  {
    var id := n1.obj.multiplayerId;
    assert Count(w.spaceships, IsId(id)) == 0 by {
      forall k | 0 <= k < |w.spaceships|
        ensures !IsId(id)(w.spaceships[k])
      {
      }
    }
    AcceptKeepsOneEntryPerId(w, mode, n1);
    AcceptKeepsOneEntryPerId(AcceptPlayer(w, mode, n1).state, mode, n2);
  }

  /**
   * Where a non-spectating client ship meets its entry: that entry, death-handled, takes only
   * the ship's location, velocity and direction, keeping its score, health, destroyed flag and
   * identity; in COOP the host's shared score becomes its score plus the entry's stored score,
   * and outside COOP the host's ship is untouched. The entries scanned before it are only
   * death-handled, and those behind it are untouched; nothing but the host's ship and the
   * roster changes.
   */
  lemma MatchCopiesOnlyMotion(w: GameState, mode: GameMode, n: Ship)
    requires n.player.mode != Spectate
    ensures var ss := w.spaceships;
      var stop := StopIndex(ss, n.obj.multiplayerId, 0);
      var a := AcceptPlayer(w, mode, n);
      stop < |ss| && !Aborts(ss[stop]) ==>
        var e := a.state.spaceships[stop];
        && a.completed && |a.state.spaceships| == |ss|
        && e.obj.location == n.obj.location && e.obj.velocity == n.obj.velocity && e.direction == n.direction
        && e.score == ss[stop].score && e.health == ss[stop].health && e.energy == ss[stop].energy
        && e.obj.destroyed == ss[stop].obj.destroyed && e.obj.multiplayerId == ss[stop].obj.multiplayerId
        && e.player == Scanned(ss[stop]).player
        && (forall k :: 0 <= k < stop ==> a.state.spaceships[k] == Scanned(ss[k]))
        && (forall k :: stop < k < |ss| ==> a.state.spaceships[k] == ss[k])
        && a.state.ship.player.coopScore == (if mode == COOP then w.ship.score + ss[stop].score else w.ship.player.coopScore)
        && a.state.ship == w.ship.(player := a.state.ship.player)
        && a.state.ship.player == w.ship.player.(coopScore := a.state.ship.player.coopScore)
        && a.state.bullets == w.bullets && a.state.asteroids == w.asteroids
  {
  }

  /**
   * The death transition on the roster: an entry the scan reaches changes at most its mode, a
   * destroyed COOP entry becoming a spectator; entries in every other mode, deathmatch among
   * them, keep their mode.
   */
  lemma DeathOnlyTurnsCoopToSpectate(w: GameState, mode: GameMode, n: Ship, k: int)
    requires n.player.mode != Spectate
    requires 0 <= k < |w.spaceships| && k < |AcceptPlayer(w, mode, n).state.spaceships|
    ensures var s := w.spaceships[k];
      var e := AcceptPlayer(w, mode, n).state.spaceships[k];
      && e.player == s.player.(mode := e.player.mode)
      && (e.player.mode != s.player.mode ==> s.obj.destroyed && s.player.mode == COOP && e.player.mode == Spectate)
  {
  }

  /** When the scan aborts on a mode-less destroyed entry, nothing is appended and the packet's bullets are not merged. */
  lemma AbortMergesNothing(w: GameState, mode: GameMode, p: ClientPacket)
    requires p.player.Some?
    requires !AcceptClientPacket(w, mode, p).completed
    ensures var a := AcceptClientPacket(w, mode, p);
      && |a.state.spaceships| == |w.spaceships|
      && a.state.bullets == w.bullets && a.state.ship == w.ship
  {
  }

  /**
   * The roster scan for a non-spectating client ship `n`: destroyed entries are death-handled
   * until the entry with `n`'s identity, which adopts `n`'s motion, or a destroyed entry with no
   * mode, which ends the scan; `n` is appended when neither occurs. `i` is where the scan stopped.
   */
  method ScanRoster(ss: seq<Ship>, n: Ship) returns (roster: seq<Ship>, i: int)
    ensures i == StopIndex(ss, n.obj.multiplayerId, 0)
    ensures roster == RosterAfter(ss, n)
  {
    roster := ss;
    ghost var stop := StopIndex(ss, n.obj.multiplayerId, 0);
    i := 0;
    // Stops at an entry whose death handling fails or that carries `n`'s identity.
    while i < |roster| && !Aborts(roster[i]) && roster[i].obj.multiplayerId != n.obj.multiplayerId
      invariant |roster| == |ss| && 0 <= i <= stop
      invariant forall k :: 0 <= k < i ==> roster[k] == Scanned(ss[k])
      invariant forall k :: i <= k < |ss| ==> roster[k] == ss[k]
    {
      if roster[i].obj.destroyed {
        roster := roster[i := HandleClientDeath(roster[i]).value];
      }
      i := i + 1;
    }
    ghost var handled := seq(i, k requires 0 <= k < i => Scanned(ss[k]));
    assert roster[..i] == handled;
    if i == |roster| {
      assert roster == handled;
      roster := roster + [n];
    } else if !Aborts(roster[i]) {
      var s := roster[i];
      if s.obj.destroyed {
        s := HandleClientDeath(s).value;
      }
      roster := roster[i := Adopt(s, n)];
      assert roster == handled + [Adopt(Scanned(ss[i]), n)] + ss[i + 1..];
    } else {
      assert roster == handled + ss[i..];
    }
  }

  /**
   * The final score the game loop reports once the game stops running, as written: the `switch`
   * has no `break`, so the single-player case falls through to the COOP case and reports the
   * coop score; a deathmatch or spectating game reports 0, and with no mode the `switch` fails.
   */
  function FinalScoreAsWritten(mode: GameMode, s: Ship): (r: Option<int>)
    ensures r.None? <==> mode == NoMode
    ensures mode == Singleplayer || mode == COOP ==> r == Some(s.player.coopScore)
    ensures mode == Deathmatch || mode == Spectate ==> r == Some(0)
  {
    match mode
    case NoMode => None
    case Singleplayer => Some(s.player.coopScore)
    case COOP => Some(s.player.coopScore)
    case _ => Some(0)
  }

  /** The final score as intended: the ship's own score in single-player and the coop score in COOP. */
  function FinalScore(mode: GameMode, s: Ship): (r: Option<int>)
    ensures r.None? <==> mode == NoMode
    ensures mode == Singleplayer ==> r == Some(s.score)
    ensures mode == COOP ==> r == Some(s.player.coopScore)
    ensures mode == Deathmatch || mode == Spectate ==> r == Some(0)
  {
    match mode
    case NoMode => None
    case Singleplayer => Some(s.score)
    case COOP => Some(s.player.coopScore)
    case _ => Some(0)
  }

  /**
   * The two differ exactly in single-player games whose score differs from the coop score; a
   * single-player game never sets the coop score, so a fresh ship that scored 7 points reports 0.
   */
  lemma FinalScoreFallThrough(mode: GameMode, s: Ship)
    ensures FinalScoreAsWritten(mode, s) != FinalScore(mode, s) <==> mode == Singleplayer && s.score != s.player.coopScore
    ensures var t := NewShip(0).(score := 7);
      FinalScoreAsWritten(Singleplayer, t) == Some(0) && FinalScore(Singleplayer, t) == Some(7)
  {
  }

  class MultiplayerGameUpdater {
    const currentGame: Game

    /** An updater over `game`; its networking threads are not part of this model. */
    constructor (game: Game)
      ensures currentGame == game
    {
      currentGame := game;
    }

    /** The client side of the merge: applies the host's snapshot `snap` to the local game. */
    method UpdateGameSnapshot(snap: GameState)
      modifies currentGame`asteroids, currentGame`bullets, currentGame`spaceships, currentGame`ship
      ensures currentGame.State() == ApplySnapshot(old(currentGame.State()), currentGame.currentGameMode, snap)
    {
      ghost var w := currentGame.State();
      if currentGame.currentGameMode != Deathmatch {
        currentGame.SetAsteroids(snap.asteroids);
      }
      MergeBulletList(snap.bullets);
      RebuildRoster(snap.spaceships);
      currentGame.AddSpaceship(snap.ship);
      if currentGame.currentGameMode == COOP {
        currentGame.ship := currentGame.ship.(player := currentGame.ship.player.(coopScore := snap.ship.player.coopScore));
      }
    }

    /** Replaces the remote ships by those of `list` other than the local ship, in their order. */
    method RebuildRoster(list: seq<Ship>)
      modifies currentGame`spaceships
      ensures currentGame.spaceships == OthersOf(list, currentGame.ship.obj.multiplayerId)
    {
      currentGame.SetSpaceships([]);
      var localId := currentGame.ship.obj.multiplayerId;
      var j := 0;
      while j < |list|
        invariant 0 <= j <= |list|
        invariant currentGame.spaceships == Filter(list[..j], NotId(localId))
      {
        FilterExtend(list, j, NotId(localId));
        if list[j].obj.multiplayerId != localId {
          currentGame.AddSpaceship(list[j]);
        }
        j := j + 1;
      }
      assert list[..j] == list;
    }

    /**
     * The host's admission of a client at address `ip`: only a spectator or a client in the
     * host's own mode enters the peer list; any other leaves it untouched.
     */
    method AddClient(clientMode: GameMode, ip: InetAddress)
      requires currentGame.Valid()
      modifies currentGame`clientList
      ensures currentGame.Valid()
      ensures clientMode == Spectate || clientMode == currentGame.currentGameMode ==>
        currentGame.clientList == WithClient(old(currentGame.clientList), ip)
      ensures !(clientMode == Spectate || clientMode == currentGame.currentGameMode) ==>
        currentGame.clientList == old(currentGame.clientList)
    {
      if clientMode == Spectate || clientMode == currentGame.currentGameMode {
        currentGame.AddClient(ip);
      }
    }

    /**
     * The host side of the merge: folds the client packet `p` into the game. `completed` is false
     * when the death handling met a destroyed entry with no mode, which ends the call early.
     */
    method AcceptClientInfo(p: ClientPacket) returns (completed: bool)
      modifies currentGame`bullets, currentGame`spaceships, currentGame`ship
      ensures var a := AcceptClientPacket(old(currentGame.State()), currentGame.currentGameMode, p);
        completed == a.completed && currentGame.State() == a.state
    {
      completed := true;
      if p.player.None? {
        return;
      }
      var n := p.player.value;
      if n.player.mode != Spectate {
        completed := FoldInShip(n);
      }
      if completed && p.bulletList.Some? {
        MergeBulletList(p.bulletList.value);
      }
    }

    /** Merges `bulletList` into the game's bullets, one `addBullet` at a time. */
    method MergeBulletList(bulletList: seq<Bullet>)
      modifies currentGame`bullets
      ensures currentGame.bullets == MergeBullets(old(currentGame.bullets), bulletList)
    {
      var i := 0;
      while i < |bulletList|
        invariant 0 <= i <= |bulletList|
        invariant currentGame.bullets == MergeBullets(old(currentGame.bullets), bulletList[..i])
      {
        assert bulletList[..i + 1][..i] == bulletList[..i];
        currentGame.AddBullet(bulletList[i]);
        i := i + 1;
      }
      assert bulletList[..i] == bulletList;
    }

    /** The roster scan for a non-spectating client ship `n`, with its early exit and its abort. */
    method FoldInShip(n: Ship) returns (completed: bool)
      requires n.player.mode != Spectate
      modifies currentGame`spaceships, currentGame`ship
      ensures var a := AcceptPlayer(old(currentGame.State()), currentGame.currentGameMode, n);
        completed == a.completed && currentGame.State() == a.state
    {
      var ss := currentGame.spaceships;
      var roster, i := ScanRoster(ss, n);
      if i < |ss| && Aborts(ss[i]) {
        currentGame.spaceships := roster;
        return false;
      }
      if i < |ss| && currentGame.currentGameMode == COOP {
        currentGame.ship := currentGame.ship.(player := currentGame.ship.player.(coopScore := currentGame.ship.score + ss[i].score));
      }
      currentGame.spaceships := roster;
      completed := true;
    }
  }
}
