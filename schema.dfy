/**
 * The replicated data shared by server and client: the Player record of the room state,
 * the 13-field `playerUpdate` message, the engine's vector types and the skin registry.
 * JavaScript numbers and C# floats are modelled as mathematical reals.
 */
module Schema {

  /** Unity's Vector3 and Vector2, as plain value records. */
  datatype Vec3 = Vec3(x: real, y: real, z: real)
  datatype Vec2 = Vec2(x: real, y: real)

  /** A texture asset; only its identity matters here. */
  datatype Texture = Texture(id: nat)

  /** The skin registry asset is an ordered list of textures. */
  type SkinRegistry = seq<Texture>

  /**
   * One participant's replicated record. `isReady` and `skinIndex` are not declared in the
   * server schema but are assigned by the room's handlers, so they are carried here with the
   * values an unset property behaves as: false and 0.
   */
  datatype Player = Player(
    x: real, y: real, z: real, rotationY: real,
    velocityX: real, velocityY: real, velocityZ: real,
    animInputX: real, animInputY: real, isGrounded: bool, isJumping: bool,
    cameraRotationX: real, cameraRotationY: real,
    sessionId: string, timestamp: real,
    isReady: bool, skinIndex: int)

  /** The payload of a `playerUpdate` message; field names are the wire names. */
  datatype UpdateMessage = UpdateMessage(
    x: real, y: real, z: real, rotationY: real,
    velocityX: real, velocityY: real, velocityZ: real,
    animInputX: real, animInputY: real, isGrounded: bool, isJumping: bool,
    cameraRotationX: real, cameraRotationY: real)

  /** The 13 motion fields of a player, read back as a message. */
  function MotionOf(p: Player): UpdateMessage {
    UpdateMessage(p.x, p.y, p.z, p.rotationY,
                  p.velocityX, p.velocityY, p.velocityZ,
                  p.animInputX, p.animInputY, p.isGrounded, p.isJumping,
                  p.cameraRotationX, p.cameraRotationY)
  }

  /** A Player as constructed with its field initialisers. */
  function NewPlayer(): (p: Player)
    ensures p.x == p.y == p.z == p.rotationY == 0.0
    ensures p.velocityX == p.velocityY == p.velocityZ == 0.0
    ensures p.animInputX == p.animInputY == 0.0 && p.isGrounded && !p.isJumping
    ensures p.cameraRotationX == p.cameraRotationY == 0.0 && p.sessionId == "" && p.timestamp == 0.0
    ensures !p.isReady && p.skinIndex == 0
  {
    Player(0.0, 0.0, 0.0, 0.0,
           0.0, 0.0, 0.0,
           0.0, 0.0, true, false,
           0.0, 0.0,
           "", 0.0,
           false, 0)
  }
}
