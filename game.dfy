/**
 * The game model: the player's ship, the bullets, the asteroids, the other players' ships and the
 * addresses of connected clients, with the operations that reset, merge and replace them.
 */
module Games {
  import opened Modes
  import opened GameObjects
  import opened Bullets
  import opened Asteroids
  import opened Spaceships
  import opened Sequences

  /** A network peer, known by its address. */
  datatype InetAddress = InetAddress(host: string)

  /**
   * The entity collections of a game at one moment: what a tick transforms and what a host sends
   * its clients as a snapshot.
   */
  datatype GameState = GameState(ship: Ship, bullets: seq<Bullet>, asteroids: seq<Asteroid>, spaceships: seq<Ship>)

  /** Bullet `t` moved to where `b` is and given `b`'s velocity; the velocity is set first, as in the source. */
  function Retarget(t: Bullet, b: Bullet): (r: Bullet)
    ensures r.obj.location == b.obj.location && r.obj.velocity == b.obj.velocity
    ensures r.stepsLeft == t.stepsLeft && r.obj.destroyed == t.obj.destroyed && r.obj.radius == t.obj.radius
    ensures r.obj.stepsUntilCollisionPossible == t.obj.stepsUntilCollisionPossible
    ensures r.obj.multiplayerId == t.obj.multiplayerId
  {
    t.(obj := SetLocation(SetVelocity(t.obj, b.obj.velocity), b.obj.location))
  }

  /** Retargets `t` to `b` when they share an identity, and leaves it alone otherwise. */
  function Overwrite(t: Bullet, b: Bullet): Bullet
  {
    if t.obj.multiplayerId == b.obj.multiplayerId then Retarget(t, b) else t
  }

  predicate HasBulletId(bs: seq<Bullet>, id: int)
  {
    exists k :: 0 <= k < |bs| && bs[k].obj.multiplayerId == id
  }

  /**
   * The bullet list after a received bullet `b` is merged in: when some bullet already has `b`'s
   * identity, every such bullet takes `b`'s location and velocity and the list keeps its length;
   * otherwise `b` is appended. Bullets with other identities never change.
   */
  function MergeBullet(bs: seq<Bullet>, b: Bullet): (r: seq<Bullet>)
    ensures HasBulletId(bs, b.obj.multiplayerId) ==> |r| == |bs|
    ensures !HasBulletId(bs, b.obj.multiplayerId) ==> r == bs + [b]
    ensures forall k :: 0 <= k < |bs| && bs[k].obj.multiplayerId != b.obj.multiplayerId ==> r[k] == bs[k]
    ensures forall k :: 0 <= k < |bs| && bs[k].obj.multiplayerId == b.obj.multiplayerId ==> r[k] == Retarget(bs[k], b)
    ensures HasBulletId(r, b.obj.multiplayerId)
  {
    if HasBulletId(bs, b.obj.multiplayerId) then
      seq(|bs|, k requires 0 <= k < |bs| => Overwrite(bs[k], b))
    else
      assert (bs + [b])[|bs|] == b;
      bs + [b]
  }

  /**
   * `bs` already reflects `b`: some bullet has `b`'s identity, and every bullet with it is at
   * `b`'s location with `b`'s velocity.
   */
  predicate Reflects(bs: seq<Bullet>, b: Bullet)
  {
    && HasBulletId(bs, b.obj.multiplayerId)
    && forall k :: 0 <= k < |bs| && bs[k].obj.multiplayerId == b.obj.multiplayerId ==>
         bs[k].obj.location == b.obj.location && bs[k].obj.velocity == b.obj.velocity
  }

  /** Merging a bullet makes the list reflect it. */
  lemma MergeBulletReflects(bs: seq<Bullet>, b: Bullet)
    ensures Reflects(MergeBullet(bs, b), b)
  {
  }

  /** A list that already reflects `b` is left exactly as it is by merging `b`. */
  lemma {:induction false} MergeReflectedIsIdentity(bs: seq<Bullet>, b: Bullet)
    requires Reflects(bs, b)
    ensures MergeBullet(bs, b) == bs
  {
    var r := MergeBullet(bs, b);
    forall k | 0 <= k < |bs|
      ensures r[k] == bs[k]
    {
      if bs[k].obj.multiplayerId == b.obj.multiplayerId {
        assert r[k] == Retarget(bs[k], b);
      }
    }
  }

  /** Merging the same bullet twice is merging it once. */
  lemma MergeBulletIdempotent(bs: seq<Bullet>, b: Bullet)
    ensures MergeBullet(MergeBullet(bs, b), b) == MergeBullet(bs, b)
  {
    MergeBulletReflects(bs, b);
    MergeReflectedIsIdentity(MergeBullet(bs, b), b);
  }

  /** Merging a bullet with another identity keeps the list reflecting `b`. */
  lemma MergeOtherPreservesReflects(bs: seq<Bullet>, b: Bullet, c: Bullet)
    requires Reflects(bs, b) && c.obj.multiplayerId != b.obj.multiplayerId
    ensures Reflects(MergeBullet(bs, c), b)
  {
    var r := MergeBullet(bs, c);
    var k :| 0 <= k < |bs| && bs[k].obj.multiplayerId == b.obj.multiplayerId;
    assert r[k] == bs[k];
  }

  /** The bullet list after every bullet of `incoming` has been merged in, front to back. */
  function MergeBullets(bs: seq<Bullet>, incoming: seq<Bullet>): seq<Bullet>
    decreases |incoming|
  {
    if |incoming| == 0 then bs
    else MergeBullet(MergeBullets(bs, incoming[..|incoming| - 1]), incoming[|incoming| - 1])
  }

  predicate DistinctBulletIds(bs: seq<Bullet>)
  {
    forall i, j :: 0 <= i < j < |bs| ==> bs[i].obj.multiplayerId != bs[j].obj.multiplayerId
  }

  /** After merging bullets with distinct identities, the list reflects each of them. */
  lemma {:induction false} MergeBulletsReflectsAll(bs: seq<Bullet>, incoming: seq<Bullet>)
    requires DistinctBulletIds(incoming)
    ensures forall k :: 0 <= k < |incoming| ==> Reflects(MergeBullets(bs, incoming), incoming[k])
    decreases |incoming|
  {
    if |incoming| > 0 {
      var n := |incoming| - 1;
      var front := incoming[..n];
      MergeBulletsReflectsAll(bs, front);
      var before := MergeBullets(bs, front);
      forall k | 0 <= k < |incoming|
        ensures Reflects(MergeBullets(bs, incoming), incoming[k])
      {
        if k == n {
          MergeBulletReflects(before, incoming[n]);
        } else {
          assert incoming[k] == front[k];
          MergeOtherPreservesReflects(before, incoming[k], incoming[n]);
        }
      }
    }
  }

  /** Merging bullets that a list already reflects leaves it as it is. */
  lemma {:induction false} MergeReflectedAllIsIdentity(bs: seq<Bullet>, incoming: seq<Bullet>)
    requires forall k :: 0 <= k < |incoming| ==> Reflects(bs, incoming[k])
    ensures MergeBullets(bs, incoming) == bs
    decreases |incoming|
  {
    if |incoming| > 0 {
      var n := |incoming| - 1;
      MergeReflectedAllIsIdentity(bs, incoming[..n]);
      MergeReflectedIsIdentity(bs, incoming[n]);
    }
  }

  /** `s` and `t` are the same bullet except perhaps for where it is and how it moves. */
  predicate SameButMotion(s: Bullet, t: Bullet)
  {
    && s.stepsLeft == t.stepsLeft && s.obj.destroyed == t.obj.destroyed && s.obj.radius == t.obj.radius
    && s.obj.stepsUntilCollisionPossible == t.obj.stepsUntilCollisionPossible
    && s.obj.multiplayerId == t.obj.multiplayerId
  }

  /** Retargeting overwrites the whole motion, so it cannot tell apart bullets that differ only in motion. */
  lemma RetargetForgetsMotion(s: Bullet, t: Bullet, b: Bullet)
    requires SameButMotion(s, t)
    ensures Retarget(s, b) == Retarget(t, b)
  {
  }

  /**
   * What a bullet already in the list becomes once every bullet of `incoming` has been merged
   * in: each incoming bullet with its identity retargets it, so it ends where the last of them
   * is; with no incoming bullet of its identity it is left exactly as it was.
   */
  function AfterMerges(t: Bullet, incoming: seq<Bullet>): (r: Bullet)
    ensures SameButMotion(t, r)
    ensures (forall k :: 0 <= k < |incoming| ==> incoming[k].obj.multiplayerId != t.obj.multiplayerId) ==> r == t
    ensures |incoming| > 0 && incoming[|incoming| - 1].obj.multiplayerId == t.obj.multiplayerId ==>
      r == Retarget(t, incoming[|incoming| - 1])
    decreases |incoming|
  {
    if |incoming| == 0 then t
    else
      var n := |incoming| - 1;
      var before := AfterMerges(t, incoming[..n]);
      RetargetForgetsMotion(before, t, incoming[n]);
      Overwrite(before, incoming[n])
  }

  /** Merging a list of bullets never drops or reorders the bullets already there; each becomes its `AfterMerges`. */
  lemma {:induction false} MergeBulletsPrefix(bs: seq<Bullet>, incoming: seq<Bullet>)
    ensures |bs| <= |MergeBullets(bs, incoming)|
    ensures forall k :: 0 <= k < |bs| ==> MergeBullets(bs, incoming)[k] == AfterMerges(bs[k], incoming)
    decreases |incoming|
  {
    if |incoming| > 0 {
      var n := |incoming| - 1;
      MergeBulletsPrefix(bs, incoming[..n]);
    }
  }

  /** After a merge the list holds a bullet of every incoming identity, and of every identity it held before. */
  lemma {:induction false} MergeBulletsCoversIds(bs: seq<Bullet>, incoming: seq<Bullet>)
    ensures forall k :: 0 <= k < |incoming| ==> HasBulletId(MergeBullets(bs, incoming), incoming[k].obj.multiplayerId)
    ensures forall k :: 0 <= k < |bs| ==> HasBulletId(MergeBullets(bs, incoming), bs[k].obj.multiplayerId)
    decreases |incoming|
  {
    MergeBulletsPrefix(bs, incoming);
    forall k | 0 <= k < |bs|
      ensures HasBulletId(MergeBullets(bs, incoming), bs[k].obj.multiplayerId)
    {
      assert MergeBullets(bs, incoming)[k].obj.multiplayerId == bs[k].obj.multiplayerId;
    }
    if |incoming| > 0 {
      var n := |incoming| - 1;
      var front := incoming[..n];
      var before := MergeBullets(bs, front);
      MergeBulletsCoversIds(bs, front);
      MergeBulletsPrefix(before, [incoming[n]]);
      assert MergeBullets(before, [incoming[n]]) == MergeBullets(bs, incoming) by {
        assert [incoming[n]][..0] == [];
      }
      forall k | 0 <= k < n
        ensures HasBulletId(MergeBullets(bs, incoming), incoming[k].obj.multiplayerId)
      {
        assert incoming[k] == front[k];
        var j :| 0 <= j < |before| && before[j].obj.multiplayerId == incoming[k].obj.multiplayerId;
        assert MergeBullets(bs, incoming)[j].obj.multiplayerId == before[j].obj.multiplayerId;
      }
    }
  }

  /** Merging bullets whose identities are all in the list already appends nothing. */
  lemma {:induction false} MergePresentKeepsLength(bs: seq<Bullet>, incoming: seq<Bullet>)
    requires forall k :: 0 <= k < |incoming| ==> HasBulletId(bs, incoming[k].obj.multiplayerId)
    ensures |MergeBullets(bs, incoming)| == |bs|
    decreases |incoming|
  {
    if |incoming| > 0 {
      var n := |incoming| - 1;
      var front := incoming[..n];
      var before := MergeBullets(bs, front);
      forall k | 0 <= k < |front|
        ensures HasBulletId(bs, front[k].obj.multiplayerId)
      {
        assert front[k] == incoming[k];
      }
      MergePresentKeepsLength(bs, front);
      MergeBulletsPrefix(bs, front);
      var j :| 0 <= j < |bs| && bs[j].obj.multiplayerId == incoming[n].obj.multiplayerId;
      assert before[j].obj.multiplayerId == bs[j].obj.multiplayerId;
    }
  }

  /** Every bullet of a merged list is already where merging the same bullets again would put it. */
  lemma {:induction false} MergeBulletsSettled(bs: seq<Bullet>, incoming: seq<Bullet>)
    ensures forall k :: 0 <= k < |MergeBullets(bs, incoming)| ==>
      AfterMerges(MergeBullets(bs, incoming)[k], incoming) == MergeBullets(bs, incoming)[k]
    decreases |incoming|
  {
    if |incoming| > 0 {
      var n := |incoming| - 1;
      var front := incoming[..n];
      var b := incoming[n];
      var before := MergeBullets(bs, front);
      var r := MergeBullets(bs, incoming);
      MergeBulletsSettled(bs, front);
      forall k | 0 <= k < |r|
        ensures AfterMerges(r[k], incoming) == r[k]
      {
        var e := r[k];
        var mid := AfterMerges(e, front);
        assert AfterMerges(e, incoming) == Overwrite(mid, b);
        if e.obj.multiplayerId == b.obj.multiplayerId {
          RetargetForgetsMotion(mid, e, b);
          if k < |before| {
            assert e == Retarget(before[k], b);
            RetargetForgetsMotion(e, before[k], b);
          } else {
            assert e == b;
            assert Retarget(b, b) == b;
          }
        } else {
          assert k < |before| && e == before[k];
          assert mid == e;
        }
      }
    }
  }

  /** Merging the same bullets twice is merging them once, whatever their identities. */
  lemma MergeBulletsIdempotent(bs: seq<Bullet>, incoming: seq<Bullet>)
    ensures MergeBullets(MergeBullets(bs, incoming), incoming) == MergeBullets(bs, incoming)
  {
    var r := MergeBullets(bs, incoming);
    MergeBulletsCoversIds(bs, incoming);
    MergePresentKeepsLength(r, incoming);
    MergeBulletsPrefix(r, incoming);
    MergeBulletsSettled(bs, incoming);
  }

  /** The colour picked by menu choice `i`: 1 to 4 are red, green, magenta and cyan; any other choice keeps `current`. */
  function ChosenColour(i: int, current: Colour): (c: Colour)
    ensures 1 <= i <= 4 ==> c == [Red, Green, Magenta, Cyan][i - 1]
    ensures !(1 <= i <= 4) ==> c == current
  {
    if i == 1 then Red
    else if i == 2 then Green
    else if i == 3 then Magenta
    else if i == 4 then Cyan
    else current
  }

  /** The peer list after `ip` connects: unchanged when `ip` is already there, otherwise with `ip` at the end. */
  function WithClient(clients: seq<InetAddress>, ip: InetAddress): (r: seq<InetAddress>)
    ensures ip in r && forall x :: x in r <==> x in clients || x == ip
    ensures NoDuplicates(clients) ==> NoDuplicates(r)
    ensures |clients| <= |r| <= |clients| + 1 && r[..|clients|] == clients
    ensures ip in clients ==> r == clients
  {
    if ip in clients then clients else clients + [ip]
  }

  /** Adding a peer twice is adding it once. */
  lemma WithClientIdempotent(clients: seq<InetAddress>, ip: InetAddress)
    ensures WithClient(WithClient(clients, ip), ip) == WithClient(clients, ip)
  {
  }

  class Game {
    /** The ship the local player controls. */
    var ship: Ship
    var bullets: seq<Bullet>
    var asteroids: seq<Asteroid>
    /** The other players' ships. */
    var spaceships: seq<Ship>
    /** The addresses of the clients a host relays to. */
    var clientList: seq<InetAddress>
    var currentGameMode: GameMode
    var hosting: bool
    var isMultiplayer: bool
    var running: bool

    /** The peer list never holds an address twice. */
    predicate Valid()
      reads this`clientList
    {
      NoDuplicates(clientList)
    }

    /** The entity collections, as one value. */
    function State(): GameState
      reads this`ship, this`bullets, this`asteroids, this`spaceships
    {
      GameState(ship, bullets, asteroids, spaceships)
    }

    /**
     * A new game: a fresh ship with identity `shipId`, empty collections and no peers, no game
     * mode yet, not hosting, single-player and not running.
     */
    constructor (shipId: int)
      requires 0 <= shipId < IdBound
      ensures ship == NewShip(shipId)
      ensures bullets == [] && asteroids == [] && spaceships == [] && clientList == []
      ensures currentGameMode == NoMode && !hosting && !isMultiplayer && !running
      ensures Valid()
    {
      ship := NewShip(shipId);
      clientList := [];
      currentGameMode := NoMode;
      hosting := false;
      isMultiplayer := false;
      running := false;
      new;
      InitializeGameData();
    }

    /**
     * Back to the starting state: no bullets, asteroids or other ships, and the ship reset and
     * set to play the current game mode.
     */
    method InitializeGameData()
      modifies this`bullets, this`asteroids, this`ship, this`spaceships
      ensures bullets == [] && asteroids == [] && spaceships == []
      ensures ship == Reset(old(ship)).(player := Reset(old(ship)).player.(mode := currentGameMode))
    {
      bullets := [];
      asteroids := [];
      ship := Reset(ship);
      ship := ship.(player := ship.player.(mode := currentGameMode));
      spaceships := [];
    }

    /** Fixes the kind of game, then initializes the game data for it. */
    method InitializeGameDataFor(multiplayer: bool, isHost: bool, gameMode: GameMode)
      modifies this`currentGameMode, this`isMultiplayer, this`hosting
      modifies this`bullets, this`asteroids, this`ship, this`spaceships
      ensures currentGameMode == gameMode && isMultiplayer == multiplayer && hosting == isHost
      ensures bullets == [] && asteroids == [] && spaceships == []
      ensures ship == Reset(old(ship)).(player := Reset(old(ship)).player.(mode := gameMode))
    {
      currentGameMode := gameMode;
      isMultiplayer := multiplayer;
      hosting := isHost;
      InitializeGameData();
    }

    /** Stops the game; afterwards it is not running, whether or not it was. */
    method Quit()
      modifies this`running
      ensures !running
    {
      if running {
        running := false;
      }
    }

    /** The game is over when the player's ship is destroyed; in single-player that also quits the game. */
    method IsGameOver() returns (over: bool)
      modifies this`running
      ensures over == ship.obj.destroyed
      ensures running == (old(running) && !(currentGameMode == Singleplayer && over))
    {
      over := ship.obj.destroyed;
      if currentGameMode == Singleplayer && over {
        Quit();
      }
    }

    method AddSpaceship(s: Ship)
      modifies this`spaceships
      ensures spaceships == old(spaceships) + [s]
    {
      spaceships := spaceships + [s];
    }

    /** The other players' ships become exactly `list`. */
    method SetSpaceships(list: seq<Ship>)
      modifies this`spaceships
      ensures spaceships == list
    {
      spaceships := list;
    }

    /** The asteroids become exactly `list`. */
    method SetAsteroids(list: seq<Asteroid>)
      modifies this`asteroids
      ensures asteroids == list
    {
      asteroids := list;
    }

    /**
     * Merges a received bullet: every bullet with its identity is retargeted in place, and when
     * there is none the bullet is appended.
     */
    method AddBullet(b: Bullet)
      modifies this`bullets
      ensures bullets == MergeBullet(old(bullets), b)
    {
      var i := 0;
      var found := false;
      while i < |bullets|
        invariant 0 <= i <= |bullets| == |old(bullets)|
        invariant forall k :: 0 <= k < i ==> bullets[k] == Overwrite(old(bullets)[k], b)
        invariant forall k :: i <= k < |bullets| ==> bullets[k] == old(bullets)[k]
        invariant found <==> exists k :: 0 <= k < i && old(bullets)[k].obj.multiplayerId == b.obj.multiplayerId
      {
        if bullets[i].obj.multiplayerId == b.obj.multiplayerId {
          bullets := bullets[i := Retarget(bullets[i], b)];
          found := true;
        }
        i := i + 1;
      }
      if !found {
        bullets := bullets + [b];
      }
    }

    /** Records a connected client's address unless it is already known; the list stays duplicate-free. */
    method AddClient(ip: InetAddress)
      requires Valid()
      modifies this`clientList
      ensures clientList == WithClient(old(clientList), ip)
      ensures Valid()
    {
      if ip !in clientList {
        clientList := clientList + [ip];
      }
    }

    /** Colours the player's ship by menu choice `i`. */
    method SetColour(i: int)
      modifies this`ship
      ensures ship == old(ship).(player := old(ship).player.(colour := ChosenColour(i, old(ship).player.colour)))
    {
      if i == 1 {
        ship := ship.(player := ship.player.(colour := Red));
      } else if i == 2 {
        ship := ship.(player := ship.player.(colour := Green));
      } else if i == 3 {
        ship := ship.(player := ship.player.(colour := Magenta));
      } else if i == 4 {
        ship := ship.(player := ship.player.(colour := Cyan));
      }
    }
  }
}
