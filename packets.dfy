/** The decoded packets the handlers act on, the packets they send, and the
    trace of sends and raised events a handler call leaves behind.

    Decoding (`Packet.Read`) and encoding are not modelled: a decoded packet is
    a value, and a decoder is a function from the raw bytes of a queue entry to
    an optional packet, `None` standing for a `Read` that threw. */
module Packets {
  import opened Base
  import opened Elements
  import opened Towing

  /** The packet ids the modelled code tells apart; every other id is `Other`. */
  datatype PacketId =
    | CameraSync
    | PlayerKeySync
    | PlayerPureSync
    | PlayerVehiclePureSync
    | Command
    | PlayerQuit
    | PlayerTimeout
    | PlayerNoSocket
    | LuaElementRpc
    | ServerInfoSync
    | Other(code: nat)

  /** A queued incoming packet: the sending client, the id and the raw payload. */
  datatype PacketQueueEntry = PacketQueueEntry(client: Client, packetId: PacketId, data: Bytes)

  datatype CameraSyncPacket = CameraSyncPacket(isFixed: bool, position: Vector3, lookAt: Vector3, targetId: ElementId)

  /** A key-sync packet: the sender's player id and the key state, relayed untouched. */
  datatype KeySyncPacket = KeySyncPacket(playerId: ElementId, keys: Bytes)

  datatype CameraOrientation = CameraOrientation(cameraPosition: Vector3, cameraForward: Vector3)

  datatype PlayerPureSyncPacket = PlayerPureSyncPacket(
    playerId: ElementId,
    latency: nat,
    position: Vector3,
    velocity: Vector3,
    health: real,
    armor: real,
    aimOrigin: Vector3,
    aimDirection: Vector3,
    contactElementId: ElementId,
    weaponType: nat,
    weaponSlot: nat,
    totalAmmo: nat,
    ammoInClip: nat,
    syncFlags: SyncFlags,
    cameraOrientation: CameraOrientation,
    cameraRotation: real,
    isDamageChanged: bool,
    damagerId: ElementId,
    damageType: nat,
    damageBodypart: nat)

  /** The three vehicle sync flags the handler reads. */
  datatype VehicleSyncFlags = VehicleSyncFlags(isInWater: bool, isWearingGoggles: bool, isSirenOrAlarmActive: bool)

  datatype VehiclePureSyncPacket = VehiclePureSyncPacket(
    playerId: ElementId,
    latency: nat,
    position: Vector3,
    rotation: Vector3,
    velocity: Vector3,
    turnVelocity: Vector3,
    health: real,
    playerHealth: real,
    playerArmor: real,
    aimOrigin: Vector3,
    aimDirection: Vector3,
    weaponSlot: Option<nat>,
    weaponAmmo: Option<nat>,
    weaponAmmoInClip: Option<nat>,
    flags: VehicleSyncFlags,
    damagerId: Option<ElementId>,
    damageWeaponType: Option<nat>,
    damageBodyPart: Option<nat>,
    turretRotation: Vector2,
    adjustableProperty: nat,
    doorOpenRatios: seq<real>,
    hasTrailer: bool,
    trailers: seq<Trailer>,
    doorStates: Bytes,
    wheelStates: Bytes,
    panelStates: Bytes,
    lightStates: Bytes)

  datatype CommandPacket = CommandPacket(command: string, arguments: seq<string>)

  /** The packets the modelled code sends. */
  datatype OutPacket =
    | ReturnSync(position: Vector3, rotation: Option<Vector3>)
    | KeySyncRelay(keySync: KeySyncPacket)
    | PureSyncRelay(pureSync: PlayerPureSyncPacket)
    | VehicleSyncRelay(vehicleSync: VehiclePureSyncPacket)
    | ServerInfo(maxPlayers: nat)

  /** `client.SendPacket`, `packet.SendTo(players)` or `packet.SendTo(clients)`. */
  datatype Destination = ToClient(client: Client) | ToPlayers(players: set<ElementId>) | ToClients(clients: set<Client>)

  datatype Send = Send(destination: Destination, packet: OutPacket)

  datatype QuitReason = Quit | Timeout

  /** The events the modelled code raises. */
  datatype Event =
    | Damaged(player: ElementId, damager: Option<ElementId>, weaponType: nat, bodyPart: nat)
    | CommandTriggered(player: ElementId, command: string, arguments: seq<string>)
    | ClientConnected(client: Client)
    | Disconnected(player: ElementId, reason: QuitReason)
    | ElementCreated(element: ElementId)

  /** What leaves a handler: the packets sent and the events raised, in order. */
  class Trace {
    var sends: seq<Send>
    var events: seq<Event>

    constructor ()
      ensures sends == [] && events == []
    {
      sends := [];
      events := [];
    }

    method Emit(s: Send)
      modifies this
      ensures sends == old(sends) + [s] && events == old(events)
    {
      sends := sends + [s];
    }

    method Raise(e: Event)
      modifies this
      ensures events == old(events) + [e] && sends == old(sends)
    {
      events := events + [e];
    }
  }

  /** The players whose client is not `client`: the relay audience of the sync handlers. */
  function OtherPlayers(elements: Elements, client: Client): (r: set<ElementId>)
    ensures forall id :: id in r <==> IsPlayerIn(elements, id) && elements[id].kind.player.client != client
  {
    set id | id in elements && elements[id].kind.PlayerKind? && elements[id].kind.player.client != client
  }

  /** The sender's own player, when it is registered as the client's player,
      is never among the other players. */
  lemma SenderNotAmongOthers(elements: Elements, client: Client)
    requires IsPlayerIn(elements, client.player) && elements[client.player].kind.player.client == client
    ensures client.player !in OtherPlayers(elements, client)
    ensures forall id :: IsPlayerIn(elements, id) && id != client.player && elements[id].kind.player.client != client ==>
      id in OtherPlayers(elements, client)
  {
  }
}
