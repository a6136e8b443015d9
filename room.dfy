/**
 * The authoritative room: a map from session id to Player, a lock flag and the log of
 * broadcasts. The pure functions On... give each handler's effect on a RoomState; the class
 * MyRoom updates its fields in place and is proved against them.
 */
module Room {

  import opened Schema
  import opened Decimal
  import opened Wrappers

  /** `maxClients`: the framework admits no more than this many sessions. */
  const MaxClients: nat := 4

  /** Server-to-client broadcasts; the room only ever broadcasts `startGame`. */
  datatype ServerEvent = StartGame

  datatype RoomState = RoomState(players: map<string, Player>, locked: bool, broadcasts: seq<ServerEvent>)

  /** The number the room code denotes: `floor(1000 + r * 9000)` for `r = Math.random()`. */
  function RoomCode(r: real): (code: nat)
    requires 0.0 <= r < 1.0
    ensures 1000 <= code <= 9999
    ensures code as real <= 1000.0 + r * 9000.0 < code as real + 1.0
  {
    (1000.0 + r * 9000.0).Floor
  }

  /** The room id, the room code as a decimal string. */
  function RoomId(r: real): (id: string)
    requires 0.0 <= r < 1.0
    ensures |id| == 4 && AllDigits(id)
    ensures ParseDecimal(id) == Some(RoomCode(r))
  {
    FourDigits(RoomCode(r));
    ParseIsInverse(RoomCode(r), "");
    ToDecimal(RoomCode(r))
  }

  /** Capacity is never exceeded and every player is keyed by its own session id. */
  predicate Valid(s: RoomState) {
    |s.players| <= MaxClients &&
    forall k :: k in s.players ==> s.players[k].sessionId == k
  }

  /** The framework's admission rule: a join reaches `onJoin` only when this holds. */
  predicate CanJoin(s: RoomState) {
    !s.locked && |s.players| < MaxClients
  }

  /** The ready aggregate's loop: no player in the map is unready. */
  predicate AllReady(players: map<string, Player>) {
    forall k :: k in players ==> players[k].isReady
  }

  /** The guard of the `startGame` broadcast. */
  predicate StartsGame(players: map<string, Player>) {
    AllReady(players) && |players| > 0
  }

  /** The `playerUpdate` writes: the 13 message fields and the server time. */
  function ApplyMotion(p: Player, m: UpdateMessage, now: real): (q: Player)
    ensures MotionOf(q) == m && q.timestamp == now
    ensures q.sessionId == p.sessionId && q.isReady == p.isReady && q.skinIndex == p.skinIndex
  {
    p.(x := m.x, y := m.y, z := m.z, rotationY := m.rotationY,
       velocityX := m.velocityX, velocityY := m.velocityY, velocityZ := m.velocityZ,
       animInputX := m.animInputX, animInputY := m.animInputY,
       isGrounded := m.isGrounded, isJumping := m.isJumping,
       cameraRotationX := m.cameraRotationX, cameraRotationY := m.cameraRotationY,
       timestamp := now)
  }

  /** The player `onJoin` creates for session `sid`, from two `Math.random()` draws. */
  function SpawnPlayer(sid: string, rx: real, rz: real): (p: Player)
    requires 0.0 <= rx < 1.0 && 0.0 <= rz < 1.0
    ensures p.sessionId == sid && p.y == 0.0
    ensures -5.0 <= p.x < 5.0 && -5.0 <= p.z < 5.0
    ensures !p.isReady && p.skinIndex == 0
    ensures p.(x := 0.0, z := 0.0, sessionId := "") == NewPlayer()
  {
    NewPlayer().(sessionId := sid, x := rx * 10.0 - 5.0, y := 0.0, z := rz * 10.0 - 5.0)
  }

  function OnPlayerUpdate(s: RoomState, sid: string, m: UpdateMessage, now: real): RoomState {
    if sid !in s.players then s
    else s.(players := s.players[sid := ApplyMotion(s.players[sid], m, now)])
  }

  function OnPlayerReady(s: RoomState, sid: string, v: bool): RoomState {
    if sid !in s.players then s
    else
      var players := s.players[sid := s.players[sid].(isReady := v)];
      if StartsGame(players) then RoomState(players, true, s.broadcasts + [StartGame])
      else s.(players := players)
  }

  function OnSetSkin(s: RoomState, sid: string, index: int): RoomState {
    if sid !in s.players then s
    else s.(players := s.players[sid := s.players[sid].(skinIndex := index)])
  }

  function OnJoin(s: RoomState, sid: string, rx: real, rz: real): RoomState
    requires 0.0 <= rx < 1.0 && 0.0 <= rz < 1.0
  {
    s.(players := s.players[sid := SpawnPlayer(sid, rx, rz)])
  }

  function OnLeave(s: RoomState, sid: string): RoomState {
    s.(players := s.players - {sid}, locked := false)
  }

  /** A message from a session that has no player changes nothing at all. */
  lemma StaleMessagesIgnored(s: RoomState, sid: string, m: UpdateMessage, now: real, v: bool, index: int)
    requires sid !in s.players
    ensures OnPlayerUpdate(s, sid, m, now) == s
    ensures OnPlayerReady(s, sid, v) == s
    ensures OnSetSkin(s, sid, index) == s
  {
  }

  /** `playerUpdate` rewrites exactly the sender's motion fields and timestamp. */
  lemma PlayerUpdateEffect(s: RoomState, sid: string, m: UpdateMessage, now: real)
    requires sid in s.players
    ensures var t := OnPlayerUpdate(s, sid, m, now);
      && t.players.Keys == s.players.Keys
      && MotionOf(t.players[sid]) == m && t.players[sid].timestamp == now
      && t.players[sid].sessionId == s.players[sid].sessionId
      && t.players[sid].isReady == s.players[sid].isReady
      && t.players[sid].skinIndex == s.players[sid].skinIndex
      && (forall k :: k in s.players && k != sid ==> t.players[k] == s.players[k])
      && t.locked == s.locked && t.broadcasts == s.broadcasts
  {
  }

  /**
   * After `playerReady(v)` the sender's flag is `v`, and `startGame` is broadcast and the room
   * locked exactly when the map is non-empty and every player in it is ready.
   */
  lemma PlayerReadyEffect(s: RoomState, sid: string, v: bool)
    requires sid in s.players
    ensures var t := OnPlayerReady(s, sid, v);
      && t.players.Keys == s.players.Keys
      && t.players[sid] == s.players[sid].(isReady := v)
      && (forall k :: k in s.players && k != sid ==> t.players[k] == s.players[k])
      && (t.broadcasts == s.broadcasts + [StartGame] <==> StartsGame(t.players))
      && (!StartsGame(t.players) ==> t.broadcasts == s.broadcasts && t.locked == s.locked)
      && (StartsGame(t.players) ==> t.locked)
  {
  }

  /** An unready message never starts the game and never touches the lock. */
  lemma {:induction false} NotReadyNeverStarts(s: RoomState, sid: string)
    ensures OnPlayerReady(s, sid, false).broadcasts == s.broadcasts
    ensures OnPlayerReady(s, sid, false).locked == s.locked
  {
    if sid in s.players {
      var players := s.players[sid := s.players[sid].(isReady := false)];
      assert !players[sid].isReady;
      assert !StartsGame(players);
    }
  }

  /**
   * There is no "already locked" guard: in a locked room whose players are all ready, a
   * repeated `playerReady(true)` broadcasts `startGame` once more.
   */
  lemma StartGameRefires(s: RoomState, sid: string)
    requires s.locked && StartsGame(s.players) && sid in s.players
    ensures OnPlayerReady(s, sid, true).broadcasts == s.broadcasts + [StartGame]
  {
    var players := s.players[sid := s.players[sid].(isReady := true)];
    assert players == s.players;
  }

  /** `setSkin` overwrites only the sender's skin index, whatever its value. */
  lemma SetSkinEffect(s: RoomState, sid: string, index: int)
    requires sid in s.players
    ensures var t := OnSetSkin(s, sid, index);
      && t.players[sid] == s.players[sid].(skinIndex := index)
      && (forall k :: k in s.players && k != sid ==> t.players[k] == s.players[k])
      && t.players.Keys == s.players.Keys && t.locked == s.locked && t.broadcasts == s.broadcasts
  {
  }

  /** `onJoin` adds exactly one entry, keyed by the new session id, holding an unready player. */
  lemma JoinEffect(s: RoomState, sid: string, rx: real, rz: real)
    requires 0.0 <= rx < 1.0 && 0.0 <= rz < 1.0
    requires sid !in s.players
    ensures var t := OnJoin(s, sid, rx, rz);
      && t.players.Keys == s.players.Keys + {sid}
      && |t.players| == |s.players| + 1
      && t.players[sid].sessionId == sid && !t.players[sid].isReady
      && (forall k :: k in s.players ==> t.players[k] == s.players[k])
      && t.locked == s.locked && t.broadcasts == s.broadcasts
  {
  }

  /**
   * `onLeave` removes only the leaving key and always unlocks; the remaining players, ready
   * flags included, are untouched. A leave for an absent key changes only the lock.
   */
  lemma LeaveEffect(s: RoomState, sid: string)
    ensures var t := OnLeave(s, sid);
      && t.players.Keys == s.players.Keys - {sid}
      && (forall k :: k in t.players ==> t.players[k] == s.players[k])
      && !t.locked && t.broadcasts == s.broadcasts
      && (sid !in s.players ==> t == s.(locked := false))
  {
  }

  /** Every handler keeps the room within capacity and keeps each player under its own key. */
  lemma {:induction false} HandlersPreserveValid(s: RoomState, sid: string, m: UpdateMessage, now: real,
                                                 v: bool, index: int, rx: real, rz: real)
    requires Valid(s)
    ensures Valid(OnPlayerUpdate(s, sid, m, now))
    ensures Valid(OnPlayerReady(s, sid, v))
    ensures Valid(OnSetSkin(s, sid, index))
    ensures Valid(OnLeave(s, sid))
    ensures CanJoin(s) && sid !in s.players && 0.0 <= rx < 1.0 && 0.0 <= rz < 1.0 ==>
              Valid(OnJoin(s, sid, rx, rz))
  {
    assert |(s.players - {sid}).Keys| <= |s.players.Keys| by {
      assert (s.players - {sid}).Keys <= s.players.Keys;
    }
  }

  /** A full room admits nobody, whatever its lock. */
  lemma FullRoomRejects(s: RoomState)
    requires Valid(s) && |s.players| == MaxClients
    ensures !CanJoin(s)
  {
  }

  /**
   * The lobby scenario: A and B join; A's ready does not start; B's ready broadcasts one
   * `startGame` and locks; a third join is refused; A leaves, the room reopens and C joins
   * as an unready second member.
   */
  lemma {:induction false} LobbyScenario(a: string, b: string, c: string, r: real)
    requires a != b && b != c && a != c && 0.0 <= r < 1.0
    ensures var s0 := RoomState(map[], false, []);
      var s1 := OnJoin(s0, a, r, r);
      var s2 := OnJoin(s1, b, r, r);
      var s3 := OnPlayerReady(s2, a, true);
      var s4 := OnPlayerReady(s3, b, true);
      var s5 := OnLeave(s4, a);
      var s6 := OnJoin(s5, c, r, r);
      && |s2.players| == 2 && !s2.locked
      && s3.broadcasts == [] && !s3.locked
      && s4.broadcasts == [StartGame] && s4.locked && !CanJoin(s4)
      && CanJoin(s5)
      && s6.players.Keys == {b, c} && !s6.players[c].isReady
  {
    var s0 := RoomState(map[], false, []);
    var s2 := OnJoin(OnJoin(s0, a, r, r), b, r, r);
    assert s2.players.Keys == {a, b};
    var s3 := OnPlayerReady(s2, a, true);
    assert !s3.players[b].isReady;
    var s4 := OnPlayerReady(s3, b, true);
    assert s4.players.Keys == {a, b};
    assert StartsGame(s3.players[b := s3.players[b].(isReady := true)]);
    var s5 := OnLeave(s4, a);
    assert s5.players.Keys == {b};
    var s6 := OnJoin(s5, c, r, r);
    assert s6.players.Keys == {b, c};
  }

  /** The `forEach` loop that accumulates `allReady` over the map. */
  method ComputeAllReady(players: map<string, Player>) returns (allReady: bool)
    ensures allReady == AllReady(players)
  {
    allReady := true;
    var remaining := players.Keys;
    while remaining != {}
      invariant remaining <= players.Keys
      invariant allReady == forall k :: k in players && k !in remaining ==> players[k].isReady
      decreases remaining
    {
      var k :| k in remaining;
      if !players[k].isReady {
        allReady := false;
      }
      remaining := remaining - {k};
    }
  }

  class MyRoom {
    const roomId: string
    var players: map<string, Player>
    var locked: bool
    var broadcasts: seq<ServerEvent>

    function State(): RoomState
      reads this
    {
      RoomState(players, locked, broadcasts)
    }

    /** `onCreate`: the room code from one `Math.random()` draw, an empty and unlocked room. */
    constructor (r: real)
      requires 0.0 <= r < 1.0
      ensures roomId == RoomId(r)
      ensures State() == RoomState(map[], false, []) && Valid(State())
    {
      roomId := RoomId(r);
      players := map[];
      locked := false;
      broadcasts := [];
    }

    /** The `playerUpdate` handler; `now` is `Date.now()`. */
    method PlayerUpdate(sid: string, m: UpdateMessage, now: real)
      modifies this
      ensures State() == OnPlayerUpdate(old(State()), sid, m, now)
    {
      if sid in players {
        var player := players[sid];
        player := ApplyMotion(player, m, now);
        players := players[sid := player];
      }
    }

    /** The `playerReady` handler. */
    method PlayerReady(sid: string, isReady: bool)
      modifies this
      ensures State() == OnPlayerReady(old(State()), sid, isReady)
    {
      if sid in players {
        players := players[sid := players[sid].(isReady := isReady)];
        var allReady := ComputeAllReady(players);
        if allReady && |players| > 0 {
          broadcasts := broadcasts + [StartGame];
          locked := true;
        }
      }
    }

    /** The `setSkin` handler. */
    method SetSkin(sid: string, skinIndex: int)
      modifies this
      ensures State() == OnSetSkin(old(State()), sid, skinIndex)
    {
      if sid in players {
        players := players[sid := players[sid].(skinIndex := skinIndex)];
      }
    }

    /**
     * `onJoin`, reached only through the framework's admission (not locked, below capacity)
     * with a fresh session id; `rx` and `rz` are the two `Math.random()` draws.
     */
    method Join(sid: string, rx: real, rz: real)
      requires CanJoin(State()) && sid !in players
      requires 0.0 <= rx < 1.0 && 0.0 <= rz < 1.0
      modifies this
      ensures State() == OnJoin(old(State()), sid, rx, rz)
    {
      var player := NewPlayer();
      player := player.(sessionId := sid);
      player := player.(x := rx * 10.0 - 5.0, y := 0.0, z := rz * 10.0 - 5.0);
      players := players[sid := player];
    }

    /** `onLeave`: delete the entry and unlock for late comers. */
    method Leave(sid: string)
      modifies this
      ensures State() == OnLeave(old(State()), sid)
    {
      players := players - {sid};
      locked := false;
    }
  }
}
