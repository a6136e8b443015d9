/**
 * The client's network manager: the process-wide singleton rule of `Awake`, the dictionary of
 * spawned player objects kept by the add and remove callbacks, and the outgoing
 * `playerUpdate` message.
 */
module NetManager {

  import opened Wrappers
  import opened Schema

  // ---------------------------------------------------------------- singleton

  /**
   * One `Awake` against the static `Instance`: a different live instance means this object is
   * destroyed and `Instance` is kept; otherwise this object becomes `Instance`.
   */
  datatype AwakeResult<T> = AwakeResult(instance: Option<T>, destroySelf: bool)

  function AwakeStep<T(==)>(instance: Option<T>, self: T): AwakeResult<T> {
    if instance.Some? && instance.value != self then AwakeResult(instance, true)
    else AwakeResult(Some(self), false)
  }

  /** The objects that survive their `Awake`, when `selves` wake in order from `instance`. */
  function Survivors<T(==)>(instance: Option<T>, selves: seq<T>): set<T>
    decreases |selves|
  {
    if selves == [] then {}
    else
      var r := AwakeStep(instance, selves[0]);
      (if r.destroySelf then {} else {selves[0]}) + Survivors(r.instance, selves[1..])
  }

  /** While `Instance` is some object outside `selves`, every one of them is destroyed. */
  lemma {:induction false} LateManagersDestroyed<T>(x: T, selves: seq<T>)
    requires x !in selves
    ensures Survivors(Some(x), selves) == {}
  {
    if selves != [] {
      assert AwakeStep(Some(x), selves[0]) == AwakeResult(Some(x), true);
      LateManagersDestroyed(x, selves[1..]);
    }
  }

  /**
   * Managers that each wake once, starting with no `Instance`: the first survives and every
   * later one is destroyed, so at most one manager survives.
   */
  lemma {:induction false} AtMostOneManager<T>(selves: seq<T>)
    requires forall i, j :: 0 <= i < j < |selves| ==> selves[i] != selves[j]
    ensures Survivors(None, selves) == if selves == [] then {} else {selves[0]}
  {
    if selves != [] {
      assert selves[0] !in selves[1..] by {
        forall i | 0 <= i < |selves[1..]| ensures selves[1..][i] != selves[0] {
          assert selves[1..][i] == selves[i + 1];
        }
      }
      LateManagersDestroyed(selves[0], selves[1..]);
    }
  }

  // ---------------------------------------------------------------- registry

  /** The state callbacks that change the dictionary of spawned players. */
  datatype RegistryEvent = Added(id: string) | Removed(id: string)

  function RegistryAfter(keys: set<string>, e: RegistryEvent): set<string> {
    match e
    case Added(id) => keys + {id}
    case Removed(id) => keys - {id}
  }

  /** The dictionary's keys after a history of callbacks on an empty dictionary. */
  function KeysAfter(history: seq<RegistryEvent>): set<string> {
    if history == [] then {}
    else RegistryAfter(KeysAfter(history[..|history| - 1]), history[|history| - 1])
  }

  /** The last callback of `history` that names `id` is an add. */
  predicate LastAdded(history: seq<RegistryEvent>, id: string) {
    if history == [] then false
    else if history[|history| - 1].id == id then history[|history| - 1].Added?
    else LastAdded(history[..|history| - 1], id)
  }

  /** Over any history of callbacks, an id is a key exactly when its last callback added it. */
  lemma {:induction false} KeysTrackLastCallback(history: seq<RegistryEvent>, id: string)
    ensures id in KeysAfter(history) <==> LastAdded(history, id)
  {
    if history != [] {
      KeysTrackLastCallback(history[..|history| - 1], id);
    }
  }

  /** With every id added once and removed only after its add, the keys are added minus removed. */
  lemma {:induction false} KeysAddedMinusRemoved(history: seq<RegistryEvent>, id: string)
    requires forall i, j :: 0 <= i < j < |history| && history[i].id == history[j].id ==>
               history[i].Added? && history[j].Removed?
    ensures id in KeysAfter(history) <==>
      (exists i :: 0 <= i < |history| && history[i] == Added(id)) &&
      !(exists i :: 0 <= i < |history| && history[i] == Removed(id))
  {
    if history != [] {
      var n := |history| - 1;
      var prefix := history[..n];
      assert forall i :: 0 <= i < n ==> prefix[i] == history[i];
      KeysAddedMinusRemoved(prefix, id);
      if history[n] == Removed(id) {
        assert id !in KeysAfter(history);
      } else if history[n] == Added(id) {
        assert forall i :: 0 <= i < n ==> history[i].id != id;
      }
    }
  }

  // ---------------------------------------------------------------- outgoing message

  /** The anonymous object `SendPlayerUpdate` sends, built from the vector components. */
  function BuildPlayerUpdate(pos: Vec3, rotY: real, vel: Vec3, aX: real, aY: real,
                             g: bool, j: bool, camRot: Vec2): (m: UpdateMessage)
    ensures m.x == pos.x && m.y == pos.y && m.z == pos.z && m.rotationY == rotY
    ensures m.velocityX == vel.x && m.velocityY == vel.y && m.velocityZ == vel.z
    ensures m.animInputX == aX && m.animInputY == aY && m.isGrounded == g && m.isJumping == j
    ensures m.cameraRotationX == camRot.x && m.cameraRotationY == camRot.y
  {
    UpdateMessage(pos.x, pos.y, pos.z, rotY, vel.x, vel.y, vel.z, aX, aY, g, j, camRot.x, camRot.y)
  }

  /** A spawned player object: its name, whether it is the local player, where it appeared. */
  datatype Spawned = Spawned(name: string, isLocal: bool, position: Vec3)

  function SpawnedFor(id: string, player: Player, ownId: string): (o: Spawned)
    ensures o.isLocal <==> id == ownId
    ensures o.position == Vec3(player.x, player.y, player.z)
    ensures o.name == if o.isLocal then "LocalPlayer" else "RemotePlayer_" + id
  {
    var isLocal := id == ownId;
    Spawned(if isLocal then "LocalPlayer" else "RemotePlayer_" + id, isLocal, Vec3(player.x, player.y, player.z))
  }

  // ---------------------------------------------------------------- the component

  /** The static `NetworkManager.Instance`. */
  class ManagerSlot {
    var instance: NetworkManager?

    constructor ()
      ensures instance == null
    {
      instance := null;
    }
  }

  class NetworkManager {
    /** `Destroy(gameObject)` was called on this manager. */
    var destroyed: bool
    /** `room == null`, or the room's `SessionId`. */
    var roomSession: Option<string>
    var players: map<string, Spawned>
    /** The `playerUpdate` messages handed to `room.Send`. */
    var sent: seq<UpdateMessage>
    ghost var history: seq<RegistryEvent>

    ghost predicate Valid()
      reads this
    {
      players.Keys == KeysAfter(history)
    }

    constructor ()
      ensures Valid() && !destroyed && roomSession == None
      ensures players == map[] && sent == [] && history == []
    {
      destroyed := false;
      roomSession := None;
      players := map[];
      sent := [];
      history := [];
    }

    method Awake(slot: ManagerSlot)
      modifies slot, this`destroyed
      ensures var r := AwakeStep(if old(slot.instance) == null then None else Some(old(slot.instance)), this);
        && (if slot.instance == null then None else Some(slot.instance)) == r.instance
        && destroyed == (old(destroyed) || r.destroySelf)
    {
      if slot.instance != null && slot.instance != this {
        destroyed := true;
        return;
      }
      slot.instance := this;
    }

    /** The successful `JoinOrCreate` of `Start`: the room is now set, with our session id. */
    method Connected(sessionId: string)
      modifies this`roomSession
      ensures roomSession == Some(sessionId)
    {
      roomSession := Some(sessionId);
    }

    /**
     * The add callback. The callbacks are registered only once the room is set, and
     * `Dictionary.Add` demands an absent key.
     */
    method OnPlayerAdded(id: string, player: Player)
      requires Valid() && roomSession.Some? && id !in players
      modifies this`players, this`history
      ensures Valid() && history == old(history) + [Added(id)]
      ensures players == old(players)[id := SpawnedFor(id, player, roomSession.value)]
      ensures players.Keys == RegistryAfter(old(players).Keys, Added(id))
    {
      var pos := Vec3(player.x, player.y, player.z);
      var isLocal := id == roomSession.value;
      var name := if isLocal then "LocalPlayer" else "RemotePlayer_" + id;
      players := players[id := Spawned(name, isLocal, pos)];
      history := history + [Added(id)];
      assert history[..|history| - 1] == old(history);
    }

    /** The remove callback: destroy and forget the object when the id is known. */
    method OnPlayerRemoved(id: string)
      requires Valid()
      modifies this`players, this`history
      ensures Valid() && history == old(history) + [Removed(id)]
      ensures players == old(players) - {id}
      ensures players.Keys == RegistryAfter(old(players).Keys, Removed(id))
      ensures id !in old(players) ==> players == old(players)
    {
      if id in players {
        players := players - {id};
      }
      history := history + [Removed(id)];
      assert history[..|history| - 1] == old(history);
    }

    /** Sends the update when a room is set; with no room it sends nothing. */
    method SendPlayerUpdate(pos: Vec3, rotY: real, vel: Vec3, aX: real, aY: real,
                            g: bool, j: bool, camRot: Vec2)
      modifies this`sent
      ensures sent == old(sent) + if roomSession.Some? then [BuildPlayerUpdate(pos, rotY, vel, aX, aY, g, j, camRot)] else []
    {
      if roomSession == None {
        return;
      }
      sent := sent + [UpdateMessage(pos.x, pos.y, pos.z, rotY, vel.x, vel.y, vel.z, aX, aY, g, j, camRot.x, camRot.y)];
    }
  }
}
