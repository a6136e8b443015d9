# A verified model of a Colyseus + Unity lobby-and-movement demo

This project models the small amount of sequential logic in a four-player multiplayer demo, written in Dafny.

The server part is a Colyseus room (`MyRoom.ts`). It does the following:
- keeps a map from session id to a `Player` record;
- copies movement messages onto the sender's record;
- tracks ready flags and broadcasts `startGame` and locks the room when everyone is ready;
- records skin choices;
- adds players on join and removes them on leave.

The client part (Unity, C#) consists of these pieces:
- the network player's send scheduler and jump latch;
- the copy of remote state onto remote avatars;
- the network manager's singleton rule, its dictionary of spawned player objects, and its outgoing message;
- the lobby screen: skin cycling, ready toggle, join guard, roster and count text;
- the player-appearance component, which re-skins renderers when the replicated skin index changes.

Modules:
- `Wrappers` has `Option`.
- `Decimal` is the decimal numeral of a natural number and its parse, with a proved round trip.
- `Schema` holds the `Player` record, its defaults and the `playerUpdate` message.
- `Room` is the room. Its handlers are pure transitions on a `RoomState`. The class `MyRoom` is proved against those transitions, and the `forEach` that accumulates `allReady` is a loop method.
- `NetManager` covers the network manager. Its pure part is the singleton rule, the history of add and remove callbacks, and the message builder. The class `NetworkManager` holds the dictionary and the sent-message log.
- `NetPlayer` covers the network player. `LocalStep` and `Run` specify the per-frame latch and scheduler. The class `NetworkPlayer` is proved against them.
- `Lobby` covers the lobby screen. The class `LobbyUI` models its fields.
- `Appearance` covers the player-appearance component. The renderers are an array updated in place.

Values the program takes from its environment are parameters:
- `Math.random()` becomes `r`, `rx` and `rz` in [0,1).
- `Date.now()` becomes `now`.
- `Time.time` and `Time.deltaTime` become `time` and `dt`.
- `JumpPressed` becomes `jumpPressed`.
- `PlayerPrefs` becomes an `Option<int>`.
- Whether a room is set becomes `inRoom`.

Broadcasts and `room.Send` calls are appended to logs: `broadcasts`, `sent` and `calls`. JavaScript numbers and C# floats are modelled as mathematical reals.

Where the program's own description and its code differ, the model follows the code:
- **`startGame` can fire again.** `playerReady` has no "already locked" guard. In a locked room whose players are all ready, a repeated `playerReady(true)` broadcasts `startGame` again (`Room.StartGameRefires`). This is not idempotent.
- **`isReady` and `skinIndex` are extra fields.** `Player.ts` declares neither, but the handlers assign them. They are modelled as ordinary fields with defaults `false` and `0`. An unset `isReady` is falsy in the `allReady` loop, so a new player counts as not ready.

## Model

| member | source | states |
|---|---|---|
| Schema.NewPlayer | server/src/rooms/schema/Player.ts:5-27 | A fresh player has every coordinate, velocity, animation input and camera rotation 0, `isGrounded` true, `isJumping` false, `sessionId` empty, `timestamp` 0, and is not ready, with skin index 0 |
| Decimal.ParseIsInverse | server/src/rooms/MyRoom.ts:12 | The decimal numeral of a natural number, which is what `toString` gives for the 4-digit room code, is canonical; reading it back gives the number, and the only numeral that reads as `n` is `n`'s own |
| Decimal.FourDigits | server/src/rooms/MyRoom.ts:12 | A number in [1000, 9999] has a 4-character numeral |
| Room.RoomCode | server/src/rooms/MyRoom.ts:12 | `floor(1000 + r*9000)` for `r` in [0,1) is an integer in [1000, 9999] and is the floor of that expression |
| Room.RoomId | server/src/rooms/MyRoom.ts:12 | The room id has exactly 4 decimal digits, and parsing it gives back the room code |
| Room.ApplyMotion | server/src/rooms/MyRoom.ts:20-41 | The updated player carries exactly the 13 message fields with `timestamp = now`; its `sessionId`, `isReady` and `skinIndex` are kept |
| Room.SpawnPlayer | server/src/rooms/MyRoom.ts:79-85 | A joining player has `sessionId` equal to the session id, `y = 0`, `x` and `z` in [-5, 5), is not ready, and in every other field is a fresh `Player` |
| Room.StaleMessagesIgnored | server/src/rooms/MyRoom.ts:16-72 | A `playerUpdate`, `playerReady` or `setSkin` from a session with no player leaves the whole room state unchanged |
| Room.PlayerUpdateEffect | server/src/rooms/MyRoom.ts:16-42 | `playerUpdate` rewrites only the sender's 13 motion fields and timestamp; the keys, every other player, the lock and the broadcasts are unchanged |
| Room.PlayerReadyEffect | server/src/rooms/MyRoom.ts:44-60 | After `playerReady(v)` the sender's `isReady` is `v`, nothing else of any player changes, and `startGame` is appended and the room locked exactly when the map is non-empty and all its players are ready |
| Room.NotReadyNeverStarts | server/src/rooms/MyRoom.ts:50-58 | `playerReady(false)` never broadcasts and never changes the lock |
| Room.StartGameRefires | server/src/rooms/MyRoom.ts:50-58 | In a locked, all-ready room, another `playerReady(true)` broadcasts `startGame` again |
| Room.SetSkinEffect | server/src/rooms/MyRoom.ts:67-72 | `setSkin` overwrites only the sender's `skinIndex`, with any value, no range check |
| Room.JoinEffect | server/src/rooms/MyRoom.ts:75-89 | `onJoin` adds exactly one key, the session id, holding an unready player whose `sessionId` is that key; existing players, lock and broadcasts are unchanged |
| Room.LeaveEffect | server/src/rooms/MyRoom.ts:91-99 | `onLeave` removes only the leaving key, leaves the other players (ready flags included) untouched and always unlocks; for an absent key only the lock changes |
| Room.HandlersPreserveValid | server/src/rooms/MyRoom.ts:6-99 | Every handler keeps at most 4 players and each player stored under its own session id; `onJoin` does so when admission allows it |
| Room.FullRoomRejects | server/src/rooms/MyRoom.ts:6 | A room holding `maxClients = 4` players admits nobody |
| Room.LobbyScenario | server/src/rooms/MyRoom.ts:44-99 | Two joins, two readies: only the second ready broadcasts one `startGame` and locks; a third join is refused; after a leave the room reopens and a new player joins unready |
| Room.ComputeAllReady | server/src/rooms/MyRoom.ts:50-53 | The loop over the map yields true exactly when every player in it is ready |
| Room.MyRoom.constructor | server/src/rooms/MyRoom.ts:9-12 | A new room has an empty map, is unlocked, has broadcast nothing, and its id is the 4-digit room code |
| Room.MyRoom.PlayerUpdate | server/src/rooms/MyRoom.ts:16-42 | The room's new state is `OnPlayerUpdate` of the old one |
| Room.MyRoom.PlayerReady | server/src/rooms/MyRoom.ts:44-60 | The room's new state is `OnPlayerReady` of the old one, the aggregate being computed by the loop |
| Room.MyRoom.SetSkin | server/src/rooms/MyRoom.ts:67-72 | The room's new state is `OnSetSkin` of the old one |
| Room.MyRoom.Join | server/src/rooms/MyRoom.ts:75-89 | For an admitted session the room's new state is `OnJoin` of the old one |
| Room.MyRoom.Leave | server/src/rooms/MyRoom.ts:91-99 | The room's new state is `OnLeave` of the old one |
| NetPlayer.StepSchedule | client/mp-demo/Assets/Scripts/NetworkPlayer.cs:70-80 | A frame sends exactly when `time >= nextSendTime`; a send frame clears the latch and schedules `time + sendInterval`; a quiet frame keeps the schedule and never clears a pending or new jump |
| NetPlayer.FirstFrameSends | client/mp-demo/Assets/Scripts/NetworkPlayer.cs:49 | The first local frame sends, since `nextSendTime` starts at 0 |
| NetPlayer.LatchWindow | client/mp-demo/Assets/Scripts/NetworkPlayer.cs:70-79 | The first send of a run carries a jump exactly when one was pending at the start or pressed in some frame up to and including the send frame |
| NetPlayer.JumpSincePreviousSend | client/mp-demo/Assets/Scripts/NetworkPlayer.cs:70-79 | Between two consecutive send frames, the later one carries a jump exactly when a jump was pressed after the earlier send frame, up to and including the later one |
| NetPlayer.JumpIsCarried | client/mp-demo/Assets/Scripts/NetworkPlayer.cs:70-79 | A jump pressed in any frame is carried as `isJumping = true` by the next send frame, which may be the same frame |
| NetPlayer.NoEarlySend | client/mp-demo/Assets/Scripts/NetworkPlayer.cs:75-79 | From a schedule no earlier than `T + sendInterval`, no frame at or after `T` sends before `T + sendInterval` |
| NetPlayer.SendSpacing | client/mp-demo/Assets/Scripts/NetworkPlayer.cs:75-79 | With non-decreasing time, any two send frames are at least `sendInterval` apart |
| NetPlayer.Lerp | client/mp-demo/Assets/Scripts/NetworkPlayer.cs:125-126 | `Mathf.Lerp` with `t` clamped to [0,1]: the result lies between the old value and the target, is the old value for `t <= 0` and the target for `t >= 1` |
| NetPlayer.NetworkPlayer.Initialize | client/mp-demo/Assets/Scripts/NetworkPlayer.cs:20-57 | A new component has no pending jump, `nextSendTime = 0`, `sendInterval = 0.05` and zero smoothed animation inputs |
| NetPlayer.NetworkPlayer.Update | client/mp-demo/Assets/Scripts/NetworkPlayer.cs:65-87 | A local instance takes exactly one `LocalStep` (its latch and schedule), touches no remote field, and sends one message when the step fires and a room is set, with the latch cleared even when nothing could be sent; a remote instance never sends or touches the latch and takes the remote-state copy |
| NetPlayer.NetworkPlayer.SendLocalState | client/mp-demo/Assets/Scripts/NetworkPlayer.cs:89-109 | With a manager, exactly the sampled fields and the latched jump are sent when a room is set, and nothing else of the manager changes; with none, nothing is sent |
| NetPlayer.NetworkPlayer.UpdateRemoteState | client/mp-demo/Assets/Scripts/NetworkPlayer.cs:111-133 | The target is exactly the state's `(x, y, z)` and yaw; with an animator the inputs are smoothed by `Lerp` and the grounded and jumping flags copied unsmoothed; without one the animator is untouched |
| NetManager.LateManagersDestroyed | client/mp-demo/Assets/Scripts/NetworkManager.cs:21-26 | While `Instance` is some other object, every manager that wakes is destroyed |
| NetManager.AtMostOneManager | client/mp-demo/Assets/Scripts/NetworkManager.cs:21-26 | Of distinct managers waking in order from no instance, exactly the first survives |
| NetManager.KeysTrackLastCallback | client/mp-demo/Assets/Scripts/NetworkManager.cs:78-86 | After any sequence of add and remove callbacks, an id is a key exactly when its last callback was an add |
| NetManager.KeysAddedMinusRemoved | client/mp-demo/Assets/Scripts/NetworkManager.cs:78-86 | When every id is added once and removed only after its add, the keys are the ids added minus the ids removed |
| NetManager.BuildPlayerUpdate | client/mp-demo/Assets/Scripts/NetworkManager.cs:99-106 | The message's 13 fields are exactly the argument components, `x = pos.x` through `cameraRotationY = camRot.y` |
| NetManager.SpawnedFor | client/mp-demo/Assets/Scripts/NetworkManager.cs:52-76 | The spawned object is local exactly when `id` is the room's session id, appears at the player's position, and is named `LocalPlayer` or `RemotePlayer_<id>` |
| NetManager.ManagerSlot.constructor | client/mp-demo/Assets/Scripts/NetworkManager.cs:9 | The static `Instance` starts out null |
| NetManager.NetworkManager.constructor | client/mp-demo/Assets/Scripts/NetworkManager.cs:16-17 | A new manager has no room, an empty `players` dictionary, has sent nothing and is not destroyed |
| NetManager.NetworkManager.Awake | client/mp-demo/Assets/Scripts/NetworkManager.cs:19-28 | A manager facing a different instance is destroyed and the instance kept; otherwise it becomes the instance |
| NetManager.NetworkManager.Connected | client/mp-demo/Assets/Scripts/NetworkManager.cs:35 | After a successful join the room is set, with its session id |
| NetManager.NetworkManager.OnPlayerAdded | client/mp-demo/Assets/Scripts/NetworkManager.cs:49-79 | Exactly one entry, keyed `id`, is added, holding the object `SpawnedFor` describes; the keys keep tracking the callback history |
| NetManager.NetworkManager.OnPlayerRemoved | client/mp-demo/Assets/Scripts/NetworkManager.cs:81-88 | Removes exactly the key `id`, and for an absent id changes nothing; the keys keep tracking the callback history |
| NetManager.NetworkManager.SendPlayerUpdate | client/mp-demo/Assets/Scripts/NetworkManager.cs:95-107 | With no room nothing is sent; otherwise exactly one message, built field by field from the arguments, is sent |
| Lobby.CsRemainder | client/mp-demo/Assets/Scripts/LobbyUI.cs:204 | C#'s `%` by a positive count: `a` minus the quotient rounded toward zero times `n`, so in [0, n) for a non-negative dividend and in (-n, 0] for a negative one |
| Lobby.NextSkinFromNegative | client/mp-demo/Assets/Scripts/LobbyUI.cs:204 | "Next" keeps a negative index negative: from a stored -5 with 3 skins it gives `(-4) % 3 == -1` |
| Lobby.NextSkinInRange | client/mp-demo/Assets/Scripts/LobbyUI.cs:200-206 | "Next" from a non-negative index gives an index in [0, n), the successor within range and 0 after the last skin |
| Lobby.PrevSkinInRange | client/mp-demo/Assets/Scripts/LobbyUI.cs:208-215 | "Prev" from an index up to `n` gives an index in [0, n), wrapping from 0 to `n - 1` |
| Lobby.NextPrevInverse | client/mp-demo/Assets/Scripts/LobbyUI.cs:200-215 | "Next" after "prev", and "prev" after "next", return to `i` for every `i` in [0, n) |
| Lobby.ClampedSkinBelowCount | client/mp-demo/Assets/Scripts/LobbyUI.cs:234 | With a non-empty registry the reset index is below the skin count, stays non-negative if it was, and an in-range index is kept |
| Lobby.ReadyLabel | client/mp-demo/Assets/Scripts/LobbyUI.cs:118 | The button text is "READY!" exactly when the player is ready |
| Lobby.Trim | client/mp-demo/Assets/Scripts/LobbyUI.cs:99 | The trimmed code is a contiguous slice of the input with only white space before and after it, and neither starts nor ends with .NET white space |
| Lobby.TrimEmptyIff | client/mp-demo/Assets/Scripts/LobbyUI.cs:99-100 | The trimmed code is empty exactly when the input is nothing but white space |
| Lobby.RosterLineReadsBack | client/mp-demo/Assets/Scripts/LobbyUI.cs:159-161 | Each roster line reads back as its number, whether it carries " (You)" (exactly when its key is the own session id) and whether it says "[READY]" (exactly when that player is ready) |
| Lobby.BuildRoster | client/mp-demo/Assets/Scripts/LobbyUI.cs:154-164 | The `StringBuilder` loop with counter `i` produces exactly the roster text: every line followed by the line terminator |
| Lobby.CountText | client/mp-demo/Assets/Scripts/LobbyUI.cs:148 | The count text is "Players: ", then the numeral of the player count, which parses back to that count, then "/4" |
| Lobby.LobbyUI.constructor | client/mp-demo/Assets/Scripts/LobbyUI.cs:20-29 | A new screen is not ready, has skin index 0 and has called nothing; it keeps the registry and whether a preview image is assigned |
| Lobby.LobbyUI.Start | client/mp-demo/Assets/Scripts/LobbyUI.cs:53-57 | The stored skin index, if any, replaces the current one, which is then reset if out of range |
| Lobby.LobbyUI.UpdateSkinUI | client/mp-demo/Assets/Scripts/LobbyUI.cs:230-247 | With a non-empty registry an index at or past the count becomes 0, otherwise the index is kept; the preview is shown unless a preview image is assigned and the index left is negative, where the texture read throws |
| Lobby.NextFromNegativeThrows | client/mp-demo/Assets/Scripts/LobbyUI.cs:204-238 | A stored -5 with 3 skins is still negative after "next" and the reset, so the preview read throws |
| Lobby.PrevNeverThrows | client/mp-demo/Assets/Scripts/LobbyUI.cs:208-238 | "Prev" followed by the reset never leaves a negative index, so it never makes the preview read throw |
| Lobby.LobbyUI.SaveAndSyncSkin | client/mp-demo/Assets/Scripts/LobbyUI.cs:217-228 | The pre-reset index is saved, the index is then reset, and the reset index is sent with `setSkin` only when a room is set and the preview read did not throw |
| Lobby.LobbyUI.OnNextSkinClicked | client/mp-demo/Assets/Scripts/LobbyUI.cs:200-206 | With a null or empty registry nothing changes and nothing is sent; otherwise the index becomes `(i+1) % n`, saved then reset, and sent unless the preview read throws on a negative index |
| Lobby.LobbyUI.OnPrevSkinClicked | client/mp-demo/Assets/Scripts/LobbyUI.cs:208-215 | With a null or empty registry nothing changes and nothing is sent; otherwise the index becomes `i - 1`, wrapping below 0 to `n - 1`, saved then reset and synced |
| Lobby.LobbyUI.OnReadyClicked | client/mp-demo/Assets/Scripts/LobbyUI.cs:111-136 | The flag flips and the label matches it; the new value is sent when the network manager exists, and nothing is sent otherwise |
| Lobby.LobbyUI.OnCreateClicked | client/mp-demo/Assets/Scripts/LobbyUI.cs:80-89 | Without a network manager nothing changes; otherwise `CreateGame` is called, then the skin is saved, reset and sent unless the preview read throws |
| Lobby.LobbyUI.OnJoinClicked | client/mp-demo/Assets/Scripts/LobbyUI.cs:91-109 | Already in a room, with a blank code, or without a network manager, nothing changes; otherwise `JoinGame` is called with the trimmed code, then the skin is saved, reset and sent unless the preview read throws |
| Lobby.LobbyUI.UpdateLobbyUI | client/mp-demo/Assets/Scripts/LobbyUI.cs:138-166 | With no room state nothing changes; otherwise the count text and roster text are those of the room's players |
| Lobby.ClickReadyTwice | client/mp-demo/Assets/Scripts/LobbyUI.cs:111-136 | Two ready clicks restore the flag, leave the label matching it, and send the flipped then the original value |
| Appearance.Skinned | client/mp-demo/Assets/Scripts/PlayerAppearance.cs:40-46 | Every non-null renderer gets the skin's texture; null entries stay null |
| Appearance.LastSkinWins | client/mp-demo/Assets/Scripts/PlayerAppearance.cs:34-49 | Applying two skins in turn leaves the last one applied |
| Appearance.AppliedIdempotent | client/mp-demo/Assets/Scripts/PlayerAppearance.cs:34-49 | Applying the same index twice is applying it once |
| Appearance.RoundToInt | client/mp-demo/Assets/Scripts/PlayerAppearance.cs:25 | `Mathf.RoundToInt`: the nearest integer, within 1/2, exact on integers, and even on a half |
| Appearance.TruncateToInt | client/mp-demo/Assets/Scripts/PlayerAppearance.cs:16 | The `(int)` cast of a float: toward zero, within 1, exact on whole numbers |
| Appearance.IntegralConversionsAgree | client/mp-demo/Assets/Scripts/PlayerAppearance.cs:16-25 | On a whole-number skin value the cast in `Initialize` and the rounding in `Update` give the same index |
| Appearance.FractionalConversionsDiffer | client/mp-demo/Assets/Scripts/PlayerAppearance.cs:16-25 | For some fractional values (1.5 and 1.7) the cast in `Initialize` gives index 1 and the rounding in `Update` gives index 2 |
| Appearance.PlayerAppearance.constructor | client/mp-demo/Assets/Scripts/PlayerAppearance.cs:8-19 | A new component has no schema and `_lastSkinIndex = -1` |
| Appearance.PlayerAppearance.Initialize | client/mp-demo/Assets/Scripts/PlayerAppearance.cs:12-17 | The schema is attached and the truncated skin applied, with `_lastSkinIndex` left as it was |
| Appearance.PlayerAppearance.Update | client/mp-demo/Assets/Scripts/PlayerAppearance.cs:21-32 | With no schema nothing changes; otherwise the rounded index is applied only when it differs from `_lastSkinIndex`, and is recorded even when out of range |
| Appearance.PlayerAppearance.SetSkin | client/mp-demo/Assets/Scripts/PlayerAppearance.cs:34-49 | With no registry or an index outside [0, n) no renderer changes; otherwise every non-null renderer gets skin `index`'s texture and null entries are skipped |
| Appearance.PlayerAppearance.OnDestroy | client/mp-demo/Assets/Scripts/PlayerAppearance.cs:51-53 | The schema is detached, so later updates do nothing |
| Appearance.UpdateTwice | client/mp-demo/Assets/Scripts/PlayerAppearance.cs:21-32 | A second `Update` with an unchanged index changes nothing |
| Appearance.InitializeThenUpdate | client/mp-demo/Assets/Scripts/PlayerAppearance.cs:12-32 | `Initialize` then the first `Update` with the same whole-number value leave that skin applied once and recorded, whatever `_lastSkinIndex` was |

## Left out

- `PlayerController.cs`, `PlayerAnimation.cs` and `PlayerState.cs` are not part of this model. They are floating-point physics, animator glue and an enum that never changes.
- `PlayerLocomotionInput.cs` is not part of this model. Its only role here is the per-frame `jumpPressed` flag, which is taken as a parameter.
- `SkinRegistry.cs` is modelled as a sequence of textures (`Option<SkinRegistry>` where it may be null).
- Quaternion and vector interpolation are not modelled:
  - `InterpolateRemotePlayer` moves the transform towards the target; only the targets are modelled;
  - `Quaternion.Euler` is kept as the yaw.
- Camera Euler angles, velocity queries and `transform` reads are one `LocalSample` parameter.
- The Colyseus transport is not modelled:
  - `JoinOrCreate`, the `Callbacks` wiring and `OnStateChange`;
  - schema diffing and replication;
  - `setSimulationInterval`, the empty `update`, and `onDispose`;
  - `async`/`await`.
- Broadcasts and `room.Send` are appends to logs.
- A failed connection is not modelled; `Connected` stands for the successful one.
- `Math.random()`, `Date.now()`, `Time.time` and `Time.deltaTime` are parameters.
- Floating-point rounding is not modelled: numbers are reals.
- Room.RoomCode: does not model the double-precision rounding of `r * 9000`.
- UI side effects are not modelled:
  - panels, camera, cursor, button colour and interactability;
  - `Sprite.Create`, the skin name text and `Debug.Log`;
  - `DontDestroyOnLoad`, `Destroy` of spawned objects and component disabling in `Initialize`;
  - `LobbyUI.Update`'s room-code text, `SwitchToHUD` and `OnGameStarted`.
- `PlayerPrefs` is a single optional stored integer.
- `CreateGame`, `JoinGame`, `SendReadyState`, `currentRoomId` and `Room` of the network manager are used by the lobby but are not part of this model. Calls to the first three are logged. Whether a room is set is a parameter.
- Lobby.LobbyUI.OnReadyClicked: assumes the button label widget is assigned; with a null `readyButtonText` the source skips the label write, which the model always performs.
- Lobby.LobbyUI.UpdateLobbyUI: assumes the count and roster text widgets are assigned; with a null `playerCountText` or `playerListText` the source skips that write, which the model always performs.
- Lobby.LobbyUI.OnJoinClicked: assumes the join-code input field is assigned; a null `joinCodeInput` throws at `joinCodeInput.text.Trim()`, which the model does not represent.
- NetPlayer.NetworkPlayer.SendLocalState: assumes the controller component is assigned; a null `controller` throws inside the send, which would also skip the latch clear and the reschedule of that frame, and the model does not represent that path.
- Appearance.TruncateToInt: does not model the 32-bit range of the `(int)` cast, because the result is an unbounded integer.
- Appearance.RoundToInt: does not model the 32-bit range of `Mathf.RoundToInt`, because the result is an unbounded integer.
- Lobby.LobbyUI.OnCreateClicked: a missing network manager is modelled as the thrown exception ending the handler; the button's interactability, set before the throw, is not modelled.
- NetManager.NetworkManager.Awake: `ManagerSlot` compares with plain reference null; Unity's overloaded `!=`, under which a destroyed `Instance` counts as null, is not modelled.
- Lobby.LobbyUI.UpdateSkinUI: the preview sprite and skin name text are not modelled; only whether the texture read at the reset index throws is.
- Lobby.LobbyUI.OnNextSkinClicked: does not model 32-bit wrap-around of `currentSkinIndex + 1`, because indices are unbounded integers.
- `Environment.NewLine` is modelled as `"\n"`.
- The wire schemas are not reconciled:
  - client `Player.cs` lacks `skinIndex`;
  - `isGrounded` defaults to true on the server but false on the client;
  - the message is a dynamically typed object on the server.
- `isReady` and `skinIndex` are modelled as typed fields.
- NetManager.NetworkManager.OnPlayerAdded: requires the id to be absent, as `Dictionary.Add` throws otherwise; the requirement that the room is set stands for `room.SessionId` being readable.
- Room.MyRoom.Join: admission by Colyseus is its precondition, namely an unlocked room with fewer than 4 players and a fresh session id.
- Appearance.PlayerAppearance.SetSkin: each renderer is modelled by the texture of its own material; the material instance that `renderer.material` creates on first access, and the shared material it detaches from, are not modelled.
