# Slipe Server core, modelled in Dafny

Slipe Server is a C# game server for the Multi Theft Auto (MTA) client. This
project models the sequential policy code of its core: what happens to the
world state and to the outgoing packets when the server receives something.
The model covers:

- **Collision shapes** (`collision_shape.dfy`, module `ColShapes`). A shape
  keeps a membership set of the elements inside it. `CheckElementWithin`
  moves one element between outside and inside. Each move raises an
  entered or left event and subscribes to, or unsubscribes from, the
  element's destruction.
- **Sync queue handlers.**
  - `sync_queue_handler.dfy` (`SyncQueue`): camera sync, key sync and
    player pure sync.
  - `vehicle_pure_sync.dfy` (`VehicleSync`): vehicle pure sync. It echoes
    to the sender, relays a stamped packet, and commits the player's state.
    Only the driver commits the vehicle's state. With trailers it rebuilds
    the tow chain; without, it releases the towed vehicle.
  - `command_queue_handler.dfy` (`CommandQueue`): the command handler.
- **The server** (`mta_server.dfy`, `Server`).
  - The per-net-wrapper client tables, which `EnqueueIncomingPacket` fills
    lazily and empties on quit, timeout and no-socket packets.
  - The running state (`Start`, `Stop`, `AddNetWrapper`).
  - Element association: id generation, the repository add, the
    `ElementCreated` event, and parenting to the root.
  - `HasPassword`, `SetMaxPlayers` and `BroadcastPacket`.
  - The association of the root element, of water and of collision shapes.
- **Tow links** (`towing.dfy`, `Towing`). The towed/towing pair of vehicles,
  and the trailer loop of the vehicle handler.
- **The All-Seeing-Eye query service** (`ase_query.dfy`, `Ase`).
  - The rules table.
  - The full, XFire-light and light server-query replies, including their
    length bytes, clamps and the player-name budget.
  - The version strings.
- **Encoders and tables.**
  - `radar_area_packet.dfy` (`RadarArea`): the radar-area colour RPC packet.
  - `vehicle_constants.dfy` (`VehicleConstants`): the vehicle capability id
    sets.
  - `net_wrapper.dfy` (`Net`): the net wrapper's payload hand-off to native
    memory and its serial/extra/version split.
- **Elements** (`elements.dfy`, `Elements`), packets and the event trace
  (`packets.dfy`, `Packets`), and shared types (`base.dfy`, `Base`).

How things are represented:

- **Elements** are values (`Element`) in the repository's map from id to
  element. References between elements (a player's vehicle, a tow link, a
  camera target, a contact element) are ids resolved through that map.
  Element identity is the id.
- **A client** is a class: the server updates its `Ping` and `IsConnected`
  in place, and "the same client" matters.
- **Sends and raised events** are appended to a `Trace`.
- **State-changing handlers** are methods. Each is proved equal to a pure
  step function over the repository and the trace, and the lemmas are about
  those functions.
- **Defects** listed under "## Findings" are modelled twice. The class
  methods (`CollisionShape.OnElementDestroyed`, `AseQueryService.QueryLight`)
  do what the code does. The corrected definitions sit beside them with
  the intended property proved.

Unseen code enters the model as function-valued parameters. This covers the
packet decoders, the sync middleware that picks a relay's recipients, and
the byte encoding of `WriteWithLength`.

Where the description of the system and the code disagree, the model follows
the code. A quit, timeout or no-socket packet from an address that has no
client yet is described as a no-op. In `MtaServer.cs:272-306` the server
first creates a client for it (player element, `ClientConnected`) and then
disconnects that client. `Server.QuitFromUnknownConnects` and
`Server.DoubleQuitReconnects` state this.

## Model

| member | source | states |
|---|---|---|
| ColShapes.Check | SlipeServer.Server/Elements/ColShapes/CollisionShape.cs:28-47 | afterwards the element is a member iff it is inside; on a change it is subscribed iff inside, and exactly one Entered (inside) or Left (outside) event is appended; with no change the state is unchanged; every other element's membership and subscription are unchanged |
| ColShapes.CheckIdempotent | SlipeServer.Server/Elements/ColShapes/CollisionShape.cs:30-45 | a second check with the same answer changes nothing |
| ColShapes.RunAlternates | SlipeServer.Server/Elements/ColShapes/CollisionShape.cs:30-52 | across any run of checks and destructions on one element, its events strictly alternate, starting with Entered if it began outside and Left if it began inside; afterwards it is a member iff the number of new events is even when it began inside, odd when it began outside |
| ColShapes.Destroyed | SlipeServer.Server/Elements/ColShapes/CollisionShape.cs:49-52 | destroying a member raises Left and removes it from both the membership and the subscriptions; nothing else changes |
| ColShapes.DestroyedAsWritten | SlipeServer.Server/Elements/ColShapes/CollisionShape.cs:49-52 | as written: Left is raised, but the membership and subscription are kept |
| ColShapes.DestroyedAsWrittenLeavesTwice | SlipeServer.Server/Elements/ColShapes/CollisionShape.cs:38-52 | as written, a destroyed member that is then checked outside raises Left a second time |
| ColShapes.SphereCases | SlipeServer.Server.Tests/Unit/CollisionShapes/CollisionSphereTests.cs:10-34 | a sphere at the origin of radius 3 contains (1,0,0), (1,1,0) and (1,1,1) but not (3,3,3); one of radius 0.5 excludes the three unit points |
| ColShapes.CollisionShape.constructor | SlipeServer.Server/Elements/ColShapes/CollisionShape.cs:13-17 | a collision-shape element with no members and no subscriptions; IsEnabled and AutoCallEvent start true |
| ColShapes.CollisionShape.ElementsWithin | SlipeServer.Server/Elements/ColShapes/CollisionShape.cs:16-17 | exactly the members of the state |
| ColShapes.CollisionShape.CheckElementWithin | SlipeServer.Server/Elements/ColShapes/CollisionShape.cs:26-47 | the new state is Check of the old with IsWithin(element.Position); afterwards the element is a member iff its position is within; the two flags are not read and not changed |
| ColShapes.CollisionShape.OnElementDestroyed | SlipeServer.Server/Elements/ColShapes/CollisionShape.cs:49-52 | as written: the new state is DestroyedAsWritten of the old, so Left is raised while the membership and the subscription stay; nothing else changes |
| SyncQueue.WithPlayer | SlipeServer.Server/PacketHandling/QueueHandlers/SyncQueueHandler.cs:55-131 | replaces one player's state and leaves every other element as it was |
| SyncQueue.CameraCommit | SlipeServer.Server/PacketHandling/QueueHandlers/SyncQueueHandler.cs:55-69 | only the sender's camera changes: in fixed mode its position and look-at are set and the target is kept; otherwise the target becomes the resolved target id (none if absent) and position and look-at are kept |
| SyncQueue.KeySyncSend | SlipeServer.Server/PacketHandling/QueueHandlers/SyncQueueHandler.cs:71-75 | a key-sync relay stamped with the sender's player id and carrying the packet's keys, sent to every player whose client is not the sender |
| SyncQueue.PureSyncSends | SlipeServer.Server/PacketHandling/QueueHandlers/SyncQueueHandler.cs:77-87 | first a return-sync packet to the sender alone with the packet's position, then the relay, stamped with the sender's id and latency 0, to all other players |
| SyncQueue.PureSyncCommit | SlipeServer.Server/PacketHandling/QueueHandlers/SyncQueueHandler.cs:89-123 | position, velocity, health, armor, aim, the rebuilt weapon, the sync flags, the camera fields and the resolved contact element are copied onto the sender's player; every other element is unchanged |
| SyncQueue.PureSyncDamage | SlipeServer.Server/PacketHandling/QueueHandlers/SyncQueueHandler.cs:125-129 | one Damaged event iff IsDamageChanged, with the damager resolved through the repository |
| SyncQueue.SyncStepIgnores | SlipeServer.Server/PacketHandling/QueueHandlers/SyncQueueHandler.cs:25-53 | any other packet id, or a packet that fails to decode (caught), leaves the world unchanged |
| SyncQueue.SyncStepEffects | SlipeServer.Server/PacketHandling/QueueHandlers/SyncQueueHandler.cs:25-131 | a step only appends sends and events (at most two sends and one event) and changes only the sender's player; camera and key sync raise no events, key sync changes no element, camera sync sends nothing |
| SyncQueue.SyncQueueHandler.HandlePacket | SlipeServer.Server/PacketHandling/QueueHandlers/SyncQueueHandler.cs:25-53 | the repository and trace afterwards are SyncStep of those before |
| SyncQueue.SyncQueueHandler.HandleCameraSyncPacket | SlipeServer.Server/PacketHandling/QueueHandlers/SyncQueueHandler.cs:55-69 | the repository becomes CameraCommit of the old one |
| SyncQueue.SyncQueueHandler.HandleClientKeySyncPacket | SlipeServer.Server/PacketHandling/QueueHandlers/SyncQueueHandler.cs:71-75 | appends exactly KeySyncSend and raises nothing |
| SyncQueue.SyncQueueHandler.HandleClientPureSyncPacket | SlipeServer.Server/PacketHandling/QueueHandlers/SyncQueueHandler.cs:77-131 | appends PureSyncSends, commits PureSyncCommit and raises PureSyncDamage |
| VehicleSync.RelayPacket | SlipeServer.Server/PacketHandling/Handlers/Vehicle/Sync/VehiclePureSyncPacketHandler.cs:36-43 | the relay carries the sender's player id and the ping cut to 16 bits; its door, wheel, panel and light states come from the vehicle's damage, or are empty without a vehicle; every other field is the packet's |
| VehicleSync.PlayerCommit | SlipeServer.Server/PacketHandling/Handlers/Vehicle/Sync/VehiclePureSyncPacketHandler.cs:47-66 | the player's fields are committed whether or not they drive; the weapon slot only when present; ammo only with a current weapon and both ammo fields present |
| VehicleSync.DamageEvents | SlipeServer.Server/PacketHandling/Handlers/Vehicle/Sync/VehiclePureSyncPacketHandler.cs:68-72 | one Damaged event iff a damager id is present, with weapon type 55 (unidentified) and body part 3 (torso) when absent |
| VehicleSync.VehicleFields | SlipeServer.Server/PacketHandling/Handlers/Vehicle/Sync/VehiclePureSyncPacketHandler.cs:77-89 | position, rotation, velocity, health, turn velocity, turret rotation, adjustable property, siren state and door ratios are copied onto the vehicle; its driver, damage, parent, tow links and every other element are unchanged |
| VehicleSync.NonDriverKeepsVehicles | SlipeServer.Server/PacketHandling/Handlers/Vehicle/Sync/VehiclePureSyncPacketHandler.cs:75-112 | a player who is not the driver changes only their own player element: no vehicle and no tow link changes |
| VehicleSync.DriverMovesVehicle | SlipeServer.Server/PacketHandling/Handlers/Vehicle/Sync/VehiclePureSyncPacketHandler.cs:75-89 | a driver's packet sets the vehicle's health, turn velocity, turret rotation, adjustable property, siren and door ratios and its velocity; the driver and damage stay; the vehicle takes the packet's position and rotation unless it is one of the packet's own trailers; every id is kept and no non-vehicle element other than the player changes |
| VehicleSync.TowCommitFrame | SlipeServer.Server/PacketHandling/Handlers/Vehicle/Sync/VehiclePureSyncPacketHandler.cs:90-110 | the tow part of the commit keeps every id, which ids are vehicles, every non-vehicle element and every velocity; of a vehicle's state it changes only the tow links; without trailers no element moves, with trailers only the named trailers move |
| VehicleSync.ChainStops | SlipeServer.Server/PacketHandling/Handlers/Vehicle/Sync/VehiclePureSyncPacketHandler.cs:90-106 | the trailer loop stops at the first id that is not a vehicle: the rest of the list has no effect |
| VehicleSync.ChainKeepsVehicleState | SlipeServer.Server/PacketHandling/Handlers/Vehicle/Sync/VehiclePureSyncPacketHandler.cs:90-106 | the trailer loop changes no vehicle's state other than its tow links |
| VehicleSync.DriverRebuildsChain | SlipeServer.Server/PacketHandling/Handlers/Vehicle/Sync/VehiclePureSyncPacketHandler.cs:90-106 | with trailers and distinct ids, trailer 0 is towed by the vehicle and trailer i by trailer i-1, each placed as the packet says, up to the first id that is not a vehicle, and the tow relation stays consistent |
| VehicleSync.DriverReleasesTowed | SlipeServer.Server/PacketHandling/Handlers/Vehicle/Sync/VehiclePureSyncPacketHandler.cs:107-110 | without trailers, the vehicle tows nothing afterwards, what it towed is towed by nothing, and the relation stays consistent |
| VehicleSync.VehiclePureSyncPacketHandler.HandlePacket | SlipeServer.Server/PacketHandling/Handlers/Vehicle/Sync/VehiclePureSyncPacketHandler.cs:29-113 | the repository and trace afterwards are VehicleSyncStep of those before |
| VehicleSync.VehiclePureSyncPacketHandler.SendEchoAndRelay | SlipeServer.Server/PacketHandling/Handlers/Vehicle/Sync/VehiclePureSyncPacketHandler.cs:34-45 | a return-sync packet with the packet's position and rotation to the sender alone, then RelayPacket to exactly the players the middleware chooses |
| VehicleSync.VehiclePureSyncPacketHandler.CommitPlayer | SlipeServer.Server/PacketHandling/Handlers/Vehicle/Sync/VehiclePureSyncPacketHandler.cs:47-73 | commits PlayerCommit and raises DamageEvents |
| VehicleSync.VehiclePureSyncPacketHandler.CommitVehicle | SlipeServer.Server/PacketHandling/Handlers/Vehicle/Sync/VehiclePureSyncPacketHandler.cs:77-112 | commits VehicleFields and then the tow commit |
| VehicleSync.VehiclePureSyncPacketHandler.AttachTrailers | SlipeServer.Server/PacketHandling/Handlers/Vehicle/Sync/VehiclePureSyncPacketHandler.cs:90-106 | the loop's result is TrailerChain of the repository before |
| Towing.AttachLinks | SlipeServer.Server/PacketHandling/Handlers/Vehicle/Sync/VehiclePureSyncPacketHandler.cs:95-109 | re-attaching a trailer links exactly the new pair and unhooks the trailer's old tower and the tower's old trailer; every other link is kept |
| Towing.AttachKeepsConsistency | SlipeServer.Server/PacketHandling/Handlers/Vehicle/Sync/VehiclePureSyncPacketHandler.cs:95-109 | attaching keeps "A tows B iff B is towed by A" and links the trailer and its tower both ways |
| Towing.AttachedCount | SlipeServer.Server/PacketHandling/Handlers/Vehicle/Sync/VehiclePureSyncPacketHandler.cs:92-97 | the number of leading trailer ids that are vehicles; the next one, if any, is not |
| Towing.ChainFrame | SlipeServer.Server/PacketHandling/Handlers/Vehicle/Sync/VehiclePureSyncPacketHandler.cs:90-106 | the loop keeps every id, every non-vehicle element and every velocity, and moves only the trailers it names |
| Towing.ChainKeepsOutsideLink | SlipeServer.Server/PacketHandling/Handlers/Vehicle/Sync/VehiclePureSyncPacketHandler.cs:90-106 | a tow link between two vehicles outside the chain survives the loop |
| Towing.ChainLinks | SlipeServer.Server/PacketHandling/Handlers/Vehicle/Sync/VehiclePureSyncPacketHandler.cs:90-106 | with distinct ids, the loop links each reached trailer to the one before and places it, keeping the relation consistent |
| CommandQueue.CommandStep | SlipeServer.Server/PacketHandling/QueueHandlers/CommandQueueHandler.cs:15-25 | another packet id changes nothing; a command raises exactly one Command event on the entry's own player with the decoded command and arguments; a decode failure is an error, not a no-op |
| CommandQueue.CommandQueueHandler.HandlePacket | SlipeServer.Server/PacketHandling/QueueHandlers/CommandQueueHandler.cs:15-25 | sends nothing; the events and outcome are those of CommandStep, and a decode failure propagates as Threw(DecodeFailed) |
| Elements.NewRoot | SlipeServer.Server/Elements/RootElement.cs:5 | an element of type Root with no parent |
| Elements.NewWater | SlipeServer.Server/Elements/Water.cs:8-16 | an element of type Water with the given vertices unchanged, not shallow, with no parent |
| Elements.Resolve | SlipeServer.Server/PacketHandling/QueueHandlers/SyncQueueHandler.cs:66 | a repository lookup: some id iff it is in the repository |
| Elements.ElementRepository.Add | SlipeServer.Server/MtaServer.cs:217 | the repository maps the element's id to it and nothing else changes |
| Packets.OtherPlayers | SlipeServer.Server/PacketHandling/QueueHandlers/SyncQueueHandler.cs:73-74 | exactly the players whose client is not the given one |
| Packets.SenderNotAmongOthers | SlipeServer.Server/PacketHandling/QueueHandlers/SyncQueueHandler.cs:73-74 | the sender's own player is never among them, and every other player of another client is |
| Server.StartCalls | SlipeServer.Server/MtaServer.cs:133-143 | one start per wrapper, in order |
| Server.StopCalls | SlipeServer.Server/MtaServer.cs:145-153 | one stop per wrapper, in order |
| Server.QuitReasonOf | SlipeServer.Server/MtaServer.cs:297-303 | Quit iff a quit packet; Timeout iff a timeout or a no-socket packet |
| Server.Associated | SlipeServer.Server/MtaServer.cs:211-226 | the id is the generated one when a generator exists, otherwise kept; type, kind and transform are kept; the root keeps its parent, every other element gets the root as parent |
| Server.AssociationParents | SlipeServer.Server/MtaServer.cs:222-223 | association never makes the root its own parent |
| Server.NewPlayerElement | SlipeServer.Server/MtaServer.cs:272-276 | the new client's player: a player element owned by that client, with no vehicle |
| Server.Arrive | SlipeServer.Server/MtaServer.cs:270-308 | a packet connects a client iff its address had none; it disconnects iff a quit, timeout or no-socket packet; afterwards the address has a client iff it was not a disconnect; other addresses are unaffected |
| Server.QuitFromUnknownConnects | SlipeServer.Server/MtaServer.cs:272-306 | a quit from an address without a client first connects a client, then disconnects it |
| Server.ArrivalsAlternate | SlipeServer.Server/MtaServer.cs:270-308 | for one address, connects and disconnects strictly alternate over any packet sequence, starting with a connect when it had no client |
| Server.DoubleQuitReconnects | SlipeServer.Server/MtaServer.cs:272-306 | two quits from a new address connect and disconnect twice |
| Server.TableAfterKeys | SlipeServer.Server/MtaServer.cs:272-306 | after a packet the table holds the address iff it was not a disconnect, and every other address as before |
| Server.TableAfterPut | SlipeServer.Server/MtaServer.cs:272-306 | storing the client before the disconnect check does not change the resulting table |
| Server.RegisteredAfterAdd | SlipeServer.Server/MtaServer.cs:272-280 | adding a new element keeps every client's player registered |
| Server.MtaServer.constructor | SlipeServer.Server/MtaServer.cs:100-130 | no wrappers, no clients, not running; game type and map name "unknown"; the root is associated, with no parent |
| Server.MtaServer.AllClients | SlipeServer.Server/MtaServer.cs:206-209 | every client of every wrapper, and nothing else |
| Server.MtaServer.Start | SlipeServer.Server/MtaServer.cs:133-143 | every wrapper is started in order, then the server is running; only the wrapper calls and the running flag change |
| Server.MtaServer.Stop | SlipeServer.Server/MtaServer.cs:145-153 | every wrapper is stopped in order, then the server is not running; only the wrapper calls and the running flag change |
| Server.MtaServer.AddNetWrapper | SlipeServer.Server/MtaServer.cs:155-166 | the wrapper is added, gets an empty client table, and is started iff the server is running; only the wrapper list, the client tables and the wrapper calls change; every client stays registered |
| Server.MtaServer.RegisterNetWrapper | SlipeServer.Server/MtaServer.cs:264-268 | the wrapper gets a fresh, empty client table |
| Server.MtaServer.AssociateElement | SlipeServer.Server/MtaServer.cs:211-226 | the element returned is Associated of the given one; it is added to the repository, subscribed for removal on destruction, and ElementCreated is raised; under an id not yet in use every client stays registered |
| Server.MtaServer.EnqueueIncomingPacket | SlipeServer.Server/MtaServer.cs:270-308 | only this wrapper's table changes, as TableAfter says; a new address creates, associates and announces a client first; the packet is queued with its client before any disconnect; a disconnect marks the client disconnected and raises Disconnected with its reason |
| Server.MtaServer.Receive | SlipeServer.Server/MtaServer.cs:282-306 | the ping is updated only when present; the packet is queued; on a disconnect the client is marked disconnected, removed, and Disconnected raised |
| Server.MtaServer.Admit | SlipeServer.Server/MtaServer.cs:272-280 | an address with a client keeps it; a new address gets a freshly created and connected client |
| Server.MtaServer.UpdatePing | SlipeServer.Server/MtaServer.cs:282-283 | the ping changes only when the packet carries one |
| Server.MtaServer.DisconnectIfPresent | SlipeServer.Server/MtaServer.cs:287-306 | removes the address from the wrapper's table; if it had a client, that client is marked disconnected and Disconnected is raised, otherwise no event |
| Server.MtaServer.Connect | SlipeServer.Server/MtaServer.cs:272-280 | a fresh connected client with ping 0 is stored under the address; its player is associated; ElementCreated then ClientConnected are raised |
| Server.MtaServer.Disconnect | SlipeServer.Server/MtaServer.cs:287-306 | the client is marked disconnected, removed from its table, and Disconnected is raised with the reason |
| Server.MtaServer.BroadcastPacket | SlipeServer.Server/MtaServer.cs:206-209 | one send of the packet to all clients of all wrappers |
| Server.MtaServer.SetMaxPlayers | SlipeServer.Server/MtaServer.cs:313-317 | the slot count is stored and broadcast to every client |
| Server.AssociateRoot | SlipeServer.Server/Elements/RootElement.cs:7-10 | the same root comes back, associated, keeping its type and parent; under an id not yet in use every client stays registered |
| Server.AssociateWater | SlipeServer.Server/Elements/Water.cs:18-21 | the same water comes back, associated, still water with the same vertices, parented to the root; under an id not yet in use every client stays registered |
| Server.AssociateCollisionShape | SlipeServer.Server/Elements/ColShapes/CollisionShape.cs:54-57 | the same shape comes back, associated, parented to the root; under an id not yet in use every client stays registered |
| Ase.Digits | SlipeServer.Server/AllSeeingEye/AseQueryService.cs:61-62 | a non-empty run of decimal digits with no leading zero except for zero itself |
| Ase.DigitsRoundTrip | SlipeServer.Server/AllSeeingEye/AseQueryService.cs:61-62 | reading the digits back gives the number |
| Ase.ToInt32 | SlipeServer.Server/AllSeeingEye/AseQueryService.cs:135 | the C# `(int)` cast: in the 32-bit range, congruent modulo 2^32, and the identity inside the range |
| Ase.TruncDiv | SlipeServer.Server/AllSeeingEye/AseQueryService.cs:135 | C# division, rounding toward zero for either sign |
| Ase.Uptime | SlipeServer.Server/AllSeeingEye/AseQueryService.cs:135 | the whole number of seconds in the tick count |
| Ase.UptimeAsWrittenAgreesBelowWrap | SlipeServer.Server/AllSeeingEye/AseQueryService.cs:135 | the expression as written is right below 2^31 ticks |
| Ase.UptimeAsWrittenWraps | SlipeServer.Server/AllSeeingEye/AseQueryService.cs:135 | at 3,000,000,000 ticks it gives -129 where the uptime is 300 seconds |
| Ase.GetVersion | SlipeServer.Server/AllSeeingEye/AseQueryService.cs:188-196 | "1.5" for v1_5, "1.5n" for v1_5n, NotImplemented for any other version |
| Ase.BuildCode | SlipeServer.Server/AllSeeingEye/AseQueryService.cs:131 | the build type byte: odd, and 9 iff a release |
| Ase.LightVersion | SlipeServer.Server/AllSeeingEye/AseQueryService.cs:128 | the configured version for a release, v1_5n for anything else |
| Ase.Lookup | SlipeServer.Server/AllSeeingEye/AseQueryService.cs:38-42 | a value iff the key is in the table, and then a value stored under it |
| Ase.Put | SlipeServer.Server/AllSeeingEye/AseQueryService.cs:31-34 | an existing key is overwritten in place; a new key is appended |
| Ase.Delete | SlipeServer.Server/AllSeeingEye/AseQueryService.cs:36 | removes exactly the given key |
| Ase.PutKeepsKeysDistinct | SlipeServer.Server/AllSeeingEye/AseQueryService.cs:31-34 | setting keeps keys unique and adds the key |
| Ase.LookupAfterPut | SlipeServer.Server/AllSeeingEye/AseQueryService.cs:31-42 | after setting, the key reads the new value and every other key reads as before |
| Ase.LookupUnique | SlipeServer.Server/AllSeeingEye/AseQueryService.cs:38-42 | with unique keys, a stored pair is what a lookup finds |
| Ase.LookupAfterDelete | SlipeServer.Server/AllSeeingEye/AseQueryService.cs:36-42 | after removing, the key reads nothing and every other key reads as before |
| Ase.DeleteKeepsKeysDistinct | SlipeServer.Server/AllSeeingEye/AseQueryService.cs:36 | removing keeps keys unique |
| Ase.EncodeAppend | SlipeServer.Server/AllSeeingEye/AseQueryService.cs:47-90 | writing two runs of items writes the one after the other |
| Ase.CountTextRoundTrip | SlipeServer.Server/AllSeeingEye/AseQueryService.cs:98 | "count/max" reads back as the count and the maximum |
| Ase.Clamp | SlipeServer.Server/AllSeeingEye/AseQueryService.cs:112-113 | the number below 256, otherwise 255 |
| Ase.RuleItemsLayout | SlipeServer.Server/AllSeeingEye/AseQueryService.cs:63-67 | one key item and one value item per rule, in table order |
| Ase.PlayerItemsLayout | SlipeServer.Server/AllSeeingEye/AseQueryService.cs:78-87 | seven items per player, in order |
| Ase.FullReplyLayout | SlipeServer.Server/AllSeeingEye/AseQueryService.cs:45-91 | "EYE1", nine header fields, a key/value pair per rule, byte 1, then per player: flags 0x3F, the name, team and skin bytes 1, score 1, the ping and time byte 1 |
| Ase.XFireLightReply | SlipeServer.Server/AllSeeingEye/AseQueryService.cs:93-117 | starts with "EYE3"; twelve items; the last two are the player count and the maximum, each clamped to 255 |
| Ase.XFireLengthByteCountsItself | SlipeServer.Server/AllSeeingEye/AseQueryService.cs:105-108 | the length byte is the byte length of the run it starts (itself, the map name, a zero and "count/max"), modulo 256 |
| Ase.EncodeSingle | SlipeServer.Server/AllSeeingEye/AseQueryService.cs:100-113 | raw text writes one byte per character; a single byte writes one byte |
| Ase.Separated | SlipeServer.Server/AllSeeingEye/AseQueryService.cs:148-161 | a zero byte before each field |
| Ase.SeparatedLength | SlipeServer.Server/AllSeeingEye/AseQueryService.cs:137 | the fields with their separators take the field lengths plus one per field |
| Ase.LightHeader | SlipeServer.Server/AllSeeingEye/AseQueryService.cs:139-166 | starts with "EYE2" and has 26 items, for any uptime text |
| Ase.LightLengthByteCountsItself | SlipeServer.Server/AllSeeingEye/AseQueryService.cs:137-161 | the length byte is the byte length of the run it starts (itself, the map name and the seven separated fields), modulo 256 |
| Ase.LightUptimeField | SlipeServer.Server/AllSeeingEye/AseQueryService.cs:135 | the sixth separated field, item 18, is the uptime text given |
| Ase.LightUptimeText | SlipeServer.Server/AllSeeingEye/AseQueryService.cs:135-161 | with the corrected text the uptime field is the whole seconds of uptime; with the text as written, 3,000,000,000 ticks put "-129" in the field |
| Ase.Repeat | SlipeServer.Server/AllSeeingEye/AseQueryService.cs:133-134 | n copies of the character (32 'P' for ping status, 32 'N' for net route) |
| Ase.NameSectionShape | SlipeServer.Server/AllSeeingEye/AseQueryService.cs:168-183 | the first Listed names in order, then "And N more" exactly when a name is left out, with N the starting counter (count + 1) less the names listed |
| Ase.NameSectionWithinBudget | SlipeServer.Server/AllSeeingEye/AseQueryService.cs:168-183 | with the intended test, the names listed cost less than the budget and adding the next would not |
| Ase.NameGuardAsWrittenOverruns | SlipeServer.Server/AllSeeingEye/AseQueryService.cs:172-175 | as written, a 4-character name is listed with 3 bytes left although it is charged 6 |
| Ase.NameGuardAsWrittenBound | SlipeServer.Server/AllSeeingEye/AseQueryService.cs:172-175 | as written, the names listed overrun the budget by at most 3 bytes |
| Ase.NamesOf | SlipeServer.Server/AllSeeingEye/AseQueryService.cs:124-126 | one name per player, in order |
| Ase.AseQueryService.constructor | SlipeServer.Server/AllSeeingEye/AseQueryService.cs:20-29 | version v1_5 and an empty rules table |
| Ase.AseQueryService.SetRule | SlipeServer.Server/AllSeeingEye/AseQueryService.cs:31-34 | the table becomes Put of the old one; keys stay unique |
| Ase.AseQueryService.RemoveRule | SlipeServer.Server/AllSeeingEye/AseQueryService.cs:36 | true iff the key existed; the table becomes Delete of the old one |
| Ase.AseQueryService.GetRule | SlipeServer.Server/AllSeeingEye/AseQueryService.cs:38-42 | the stored value, or none iff the key is absent |
| Ase.AseQueryService.QueryFull | SlipeServer.Server/AllSeeingEye/AseQueryService.cs:45-91 | the reply is FullReply with version "1.5" and the current rules |
| Ase.AseQueryService.QueryXFireLight | SlipeServer.Server/AllSeeingEye/AseQueryService.cs:93-117 | the reply is XFireLightReply with version "1.5" |
| Ase.AseQueryService.QueryLight | SlipeServer.Server/AllSeeingEye/AseQueryService.cs:120-186 | the reply is LightReply as written: "1.5" for a release and "1.5n" otherwise, the signed 32-bit uptime text, and the as-written name test |
| Ase.AseQueryService.WriteNames | SlipeServer.Server/AllSeeingEye/AseQueryService.cs:168-183 | the loop writes NameSection with the given test and the counter starting at count + 1; the service runs it with the as-written test |
| RadarArea.SetRadarAreaColorPacket.Read | SlipeServer.Packets/Definitions/Lua/ElementRpc/RadarArea/SetRadarAreaColorPacket.cs:25-28 | reading always fails with NotSupported |
| RadarArea.SetRadarAreaColorPacket.Write | SlipeServer.Packets/Definitions/Lua/ElementRpc/RadarArea/SetRadarAreaColorPacket.cs:30-38 | three writes, the first the SET_RADAR_AREA_COLOR function byte |
| RadarArea.WriteRoundTrip | SlipeServer.Packets/Definitions/Lua/ElementRpc/RadarArea/SetRadarAreaColorPacket.cs:19-38 | the body carries the element id and the colour with alpha: reading it back gives the packet |
| RadarArea.WriteInjective | SlipeServer.Packets/Definitions/Lua/ElementRpc/RadarArea/SetRadarAreaColorPacket.cs:19-38 | two packets write the same body iff they are equal |
| VehicleConstants.DoorsAreRangeLessDoorless | SlipeServer.Packets/Constants/VehicleConstants.cs:21-35 | a model has doors iff it lies in 400..611 and is not one of the fourteen doorless models |
| VehicleConstants.TurretsHaveDoors | SlipeServer.Packets/Constants/VehicleConstants.cs:8-35 | every turret vehicle has doors |
| VehicleConstants.AdjustableDoors | SlipeServer.Packets/Constants/VehicleConstants.cs:15-35 | of the adjustable-property vehicles exactly 486, 530 and 531 have no doors |
| Net.Substring | MtaServer.Net/NetWrapper.cs:62-66 | the substring iff the range lies inside the string, otherwise ArgumentOutOfRange |
| Net.SplitSerialExtraVersion | MtaServer.Net/NetWrapper.cs:60-68 | succeeds iff the serial and extra sizes fit in the string, otherwise ArgumentOutOfRange; the serial and extra have those sizes; the reported version size is not used |
| Net.SplitConcatenates | MtaServer.Net/NetWrapper.cs:60-68 | serial, extra and version together are the native string |
| Net.SplitJoinRoundTrip | MtaServer.Net/NetWrapper.cs:60-68 | splitting a joined serial, extra and version at their lengths gives them back |
| Net.NetWrapper.SendPayload | MtaServer.Net/NetWrapper.cs:45-58 | an empty payload fails at payload[0] with no native call; otherwise one native send of the whole payload with its length, failing iff the native call throws; the buffer is freed either way |
| Net.NetWrapper.SendPacket | MtaServer.Net/NetWrapper.cs:70-73 | the packet's body is sent under its id cast to a byte |
| Net.NetWrapper.PacketInterceptor | MtaServer.Net/NetWrapper.cs:80-88 | exactly payloadSize bytes are handed on, with the same id and address, iff someone listens |
| Net.CopyInto | MtaServer.Net/NetWrapper.cs:52 | the array afterwards holds exactly the payload |

## Left out

- Concurrency is not modelled: queues, `RunAsSync`, and events that handlers raise on other threads. Each handler is one sequential step.
- Logging, dependency injection, configuration loading, resource serving and the anti-cheat configuration of net wrappers are not modelled.
- The native network module is a parameter. Whether its send throws and the strings it returns are inputs, and its sockets are not modelled.
- The clock is a parameter: the uptime is a tick count, and `StartDatetime` is not modelled.
- `WriteWithLength` and the builder writes of the radar packet have no byte layout here. Their encodings are a parameter, or builder items.
- Raw text is written one byte per character. UTF-8 for characters above 127 is not modelled.
- `StripColorCode` is not modelled: player names reach the ASE model already stripped.
- Positions, rotations and colours are opaque values. Sphere containment is stated on reals for the test cases only, and the collision shape's own `IsWithin(position)` is a parameter.
- Ase.Put: a .NET dictionary enumerates a re-added key in the slot a removal freed. The model appends it at the end instead, so rule order after a removal may differ.
- The numeric values of `VersionType`, the ASE player flags, `WEAPONTYPE_UNIDENTIFIED` (55) and the torso body part (3) are not defined in the modelled files. They are taken from MTA's own numbering.
- `Vehicle.AttachToTower` is not part of this model. It is modelled as a re-link that unhooks both old partners and keeps the tow relation consistent.
- `bytesLeft` in the light reply's name loop is an unbounded integer. A 32-bit overflow needs more than two billion bytes of names.
- Element identity is the element's id, and the root is recognised by its type.
- Server.MtaServer.EnqueueIncomingPacket: the optional `clientCreationMethod` factory (MtaServer.cs:272-273) is not modelled. A new address always gets a plain `Client`.
- SyncQueue.SyncQueueHandler.HandlePacket: it requires that the entry's client has a registered player. The source dereferences `client.Player` without a check. The server's `Valid` invariant guarantees this for every stored client; a player removed from the repository while its packets are queued is not modelled.
- VehicleSync.VehiclePureSyncPacketHandler.HandlePacket: it requires a registered player whose vehicle, if any, is a registered vehicle. The source reads `player.Vehicle` as an object reference, which cannot dangle; ids that name nothing are not modelled.
- SyncQueue.SyncStepIgnores: an exception thrown inside a handler after a successful decode is not modelled. Only decode failures are caught and ignored.

## Findings

| source | as written | input that shows it | evidently intended | confidence | as-written member | corrected member |
|---|---|---|---|---|---|---|
| SlipeServer.Server/Elements/ColShapes/CollisionShape.cs:49-52 | a destroyed member gets ElementLeft but stays in `elementsWithin` and stays subscribed | check an element inside, destroy it, check it outside: Left fires twice | the destroyed element leaves the shape (removed from the membership and unsubscribed) | not executed | ColShapes.DestroyedAsWritten, ColShapes.DestroyedAsWrittenLeavesTwice | ColShapes.Destroyed, ColShapes.RunAlternates |
| SlipeServer.Server/AllSeeingEye/AseQueryService.cs:135 | `(int)Uptime.Ticks / TicksPerSecond` casts the 64-bit tick count to 32 bits before dividing | 3,000,000,000 ticks (5 minutes) gives -129 | uptime in whole seconds, 300 | not executed | Ase.UptimeAsWritten, Ase.UptimeAsWrittenWraps, Ase.LightUptimeText | Ase.Uptime, Ase.LightUptimeText |
| SlipeServer.Server/AllSeeingEye/AseQueryService.cs:172 | `bytesLeft - name.Length + 2 > 0`, while the next line charges `name.Length + 2` | 3 bytes left and the name "abcd": listed, though charged 6 | `bytesLeft - (name.Length + 2) > 0` | not executed | Ase.NameGuardAsWrittenOverruns, Ase.NameGuardAsWrittenBound | Ase.NameSectionWithinBudget, Ase.AseQueryService.WriteNames |
