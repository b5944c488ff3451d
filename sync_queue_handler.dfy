/** The queue handler for camera, key and player pure-sync packets.

    Each queue entry is decoded and handled in one sequential step. The
    handler echoes and relays packets to clients and commits the decoded
    values onto the sender's player in the element repository. A decode that
    fails is caught and logged, so the handler never lets an exception out. */
module SyncQueue {
  import opened Base
  import opened Elements
  import opened Packets

  /** The player state a client's packets are committed onto. */
  function PlayerOf(elements: Elements, id: ElementId): PlayerState
    requires IsPlayerIn(elements, id)
  {
    elements[id].kind.player
  }

  /** `elements` with the player `id`'s state replaced. */
  function WithPlayer(elements: Elements, id: ElementId, p: PlayerState): (r: Elements)
    requires IsPlayerIn(elements, id)
    ensures IsPlayerIn(r, id) && PlayerOf(r, id) == p
    ensures SameExcept(elements, r, id)
  {
    elements[id := elements[id].(kind := PlayerKind(p))]
  }

  /** The camera-sync commit: a fixed camera takes the packet's position and
      look-at point and keeps its target; a following camera takes the target
      the repository resolves (possibly none) and keeps position and look-at. */
  function CameraCommit(elements: Elements, id: ElementId, packet: CameraSyncPacket): (r: Elements)
    requires IsPlayerIn(elements, id)
    ensures IsPlayerIn(r, id) && SameExcept(elements, r, id)
    ensures r[id].(kind := elements[id].kind) == elements[id]
    ensures PlayerOf(r, id).(camera := PlayerOf(elements, id).camera) == PlayerOf(elements, id)
    ensures var before, after := PlayerOf(elements, id).camera, PlayerOf(r, id).camera;
      if packet.isFixed then
        after.position == packet.position && after.lookAt == packet.lookAt && after.target == before.target
      else
        after.target == Resolve(elements, packet.targetId) &&
        after.position == before.position && after.lookAt == before.lookAt
  {
    var p := PlayerOf(elements, id);
    var camera :=
      if packet.isFixed then p.camera.(position := packet.position, lookAt := packet.lookAt)
      else p.camera.(target := Resolve(elements, packet.targetId));
    WithPlayer(elements, id, p.(camera := camera))
  }

  /** The key-sync relay: stamped with the sender's player id, sent to every
      player whose client is not the sender. */
  function KeySyncSend(elements: Elements, client: Client, packet: KeySyncPacket): (s: Send)
    ensures s.packet.KeySyncRelay? && s.packet.keySync.playerId == client.player
    ensures s.packet.keySync.keys == packet.keys
    ensures s.destination == ToPlayers(OtherPlayers(elements, client))
  {
    Send(ToPlayers(OtherPlayers(elements, client)), KeySyncRelay(packet.(playerId := client.player)))
  }

  /** The two sends of a pure-sync packet: the position echo to the sender
      alone, then the relay stamped with the sender's id and latency 0 to
      every player whose client is not the sender. */
  function PureSyncSends(elements: Elements, client: Client, packet: PlayerPureSyncPacket): (s: seq<Send>)
    ensures |s| == 2
    ensures s[0] == Send(ToClient(client), ReturnSync(packet.position, None))
    ensures s[1].destination == ToPlayers(OtherPlayers(elements, client))
    ensures s[1].packet.PureSyncRelay?
    ensures var relayed := s[1].packet.pureSync;
      relayed.playerId == client.player && relayed.latency == 0 &&
      relayed.(playerId := packet.playerId, latency := packet.latency) == packet
  {
    [ Send(ToClient(client), ReturnSync(packet.position, None)),
      Send(ToPlayers(OtherPlayers(elements, client)), PureSyncRelay(packet.(playerId := client.player, latency := 0))) ]
  }

  /** The pure-sync commit onto the sender's player. */
  function PureSyncCommit(elements: Elements, id: ElementId, packet: PlayerPureSyncPacket): (r: Elements)
    requires IsPlayerIn(elements, id)
    ensures IsPlayerIn(r, id) && SameExcept(elements, r, id)
    ensures r[id].position == packet.position && r[id].velocity == packet.velocity
    ensures r[id].(position := elements[id].position, velocity := elements[id].velocity, kind := elements[id].kind) == elements[id]
    ensures var before, after := PlayerOf(elements, id), PlayerOf(r, id);
      && after.health == packet.health && after.armor == packet.armor
      && after.aimOrigin == packet.aimOrigin && after.aimDirection == packet.aimDirection
      && after.contactElement == Resolve(elements, packet.contactElementId)
      && after.currentWeapon == Some(Weapon(packet.weaponType, packet.weaponSlot, packet.totalAmmo, packet.ammoInClip))
      && after.flags == packet.syncFlags
      && after.cameraPosition == packet.cameraOrientation.cameraPosition
      && after.cameraDirection == packet.cameraOrientation.cameraForward
      && after.cameraRotation == packet.cameraRotation
      // the client, camera, weapon slot and vehicle are not touched
      && after.client == before.client && after.camera == before.camera
      && after.currentWeaponSlot == before.currentWeaponSlot && after.vehicle == before.vehicle
  {
    var p := PlayerOf(elements, id);
    var committed := p.(
      health := packet.health,
      armor := packet.armor,
      aimOrigin := packet.aimOrigin,
      aimDirection := packet.aimDirection,
      contactElement := Resolve(elements, packet.contactElementId),
      currentWeapon := Some(Weapon(packet.weaponType, packet.weaponSlot, packet.totalAmmo, packet.ammoInClip)),
      flags := packet.syncFlags,
      cameraPosition := packet.cameraOrientation.cameraPosition,
      cameraDirection := packet.cameraOrientation.cameraForward,
      cameraRotation := packet.cameraRotation);
    var moved := elements[id := elements[id].(position := packet.position, velocity := packet.velocity)];
    WithPlayer(moved, id, committed)
  }

  /** The damage event of a pure-sync packet: raised iff the packet says the
      damage changed, with the damager resolved through the repository. */
  function PureSyncDamage(elements: Elements, id: ElementId, packet: PlayerPureSyncPacket): (evs: seq<Event>)
    ensures |evs| <= 1
    ensures |evs| == 1 <==> packet.isDamageChanged
    ensures |evs| == 1 ==> evs[0] == Damaged(id, Resolve(elements, packet.damagerId), packet.damageType, packet.damageBodypart)
  {
    if packet.isDamageChanged then [Damaged(id, Resolve(elements, packet.damagerId), packet.damageType, packet.damageBodypart)]
    else []
  }

  /** The part of the server a sync step reads and changes. */
  datatype World = World(elements: Elements, sends: seq<Send>, events: seq<Event>)

  /** The decoders of the three packet kinds the handler acts on. */
  datatype Readers = Readers(
    camera: Bytes -> Option<CameraSyncPacket>,
    keySync: Bytes -> Option<KeySyncPacket>,
    pureSync: Bytes -> Option<PlayerPureSyncPacket>)

  /** One queue entry handled, the sender's player being `id` and `client` its client. */
  function SyncStep(w: World, readers: Readers, entry: PacketQueueEntry, id: ElementId): World
    requires IsPlayerIn(w.elements, id)
  {
    match entry.packetId
    case CameraSync =>
      (match readers.camera(entry.data)
       case Some(packet) => w.(elements := CameraCommit(w.elements, id, packet))
       case None => w)
    case PlayerKeySync =>
      (match readers.keySync(entry.data)
       case Some(packet) =>
         w.(sends := w.sends + [Send(ToPlayers(OtherPlayers(w.elements, entry.client)), KeySyncRelay(packet.(playerId := id)))])
       case None => w)
    case PlayerPureSync =>
      (match readers.pureSync(entry.data)
       case Some(packet) =>
         var relay := packet.(playerId := id, latency := 0);
         World(
           PureSyncCommit(w.elements, id, packet),
           w.sends + [Send(ToClient(entry.client), ReturnSync(packet.position, None)),
                      Send(ToPlayers(OtherPlayers(w.elements, entry.client)), PureSyncRelay(relay))],
           w.events + PureSyncDamage(w.elements, id, packet))
       case None => w)
    case _ => w
  }

  /** Only camera, key and pure sync are acted on; any other packet id, and
      any entry whose payload does not decode, leaves everything as it was. */
  lemma SyncStepIgnores(w: World, readers: Readers, entry: PacketQueueEntry, id: ElementId)
    requires IsPlayerIn(w.elements, id)
    requires
      || (entry.packetId !in {CameraSync, PlayerKeySync, PlayerPureSync})
      || (entry.packetId == CameraSync && readers.camera(entry.data).None?)
      || (entry.packetId == PlayerKeySync && readers.keySync(entry.data).None?)
      || (entry.packetId == PlayerPureSync && readers.pureSync(entry.data).None?)
    ensures SyncStep(w, readers, entry, id) == w
  {
  }

  /** Camera and key sync never raise events; key sync changes no player
      state; only pure sync sends more than one packet. */
  lemma SyncStepEffects(w: World, readers: Readers, entry: PacketQueueEntry, id: ElementId)
    requires IsPlayerIn(w.elements, id)
    ensures var r := SyncStep(w, readers, entry, id);
      && w.elements.Keys == r.elements.Keys
      && (forall k :: k in w.elements && k != id ==> r.elements[k] == w.elements[k])
      && |w.sends| <= |r.sends| <= |w.sends| + 2 && r.sends[..|w.sends|] == w.sends
      && |w.events| <= |r.events| <= |w.events| + 1 && r.events[..|w.events|] == w.events
      && (entry.packetId != PlayerPureSync ==> r.events == w.events)
      && (entry.packetId == PlayerKeySync ==> r.elements == w.elements)
      && (entry.packetId == CameraSync ==> r.sends == w.sends)
  {
  }

  /** The sync queue handler: the element repository it commits to and the
      trace its sends and events go to. */
  class SyncQueueHandler {
    const repository: ElementRepository
    const trace: Trace
    const readers: Readers

    constructor (repository: ElementRepository, trace: Trace, readers: Readers)
      ensures this.repository == repository && this.trace == trace && this.readers == readers
    {
      this.repository := repository;
      this.trace := trace;
      this.readers := readers;
    }

    /** `HandlePacket(queueEntry)`, for a client whose player is registered. */
    method HandlePacket(entry: PacketQueueEntry)
      requires IsPlayerIn(repository.elements, entry.client.player)
      modifies repository, trace
      ensures World(repository.elements, trace.sends, trace.events) ==
        SyncStep(old(World(repository.elements, trace.sends, trace.events)), readers, entry, entry.client.player)
    {
      var client := entry.client;
      var id := client.player;
      match entry.packetId {
        case CameraSync =>
          var decoded := readers.camera(entry.data);
          if decoded.Some? {
            HandleCameraSyncPacket(client, decoded.value);
          }
        case PlayerKeySync =>
          var decoded := readers.keySync(entry.data);
          if decoded.Some? {
            HandleClientKeySyncPacket(client, decoded.value);
          }
        case PlayerPureSync =>
          var decoded := readers.pureSync(entry.data);
          if decoded.Some? {
            HandleClientPureSyncPacket(client, decoded.value);
          }
        case _ =>
      }
    }

    method HandleCameraSyncPacket(client: Client, packet: CameraSyncPacket)
      requires IsPlayerIn(repository.elements, client.player)
      modifies repository
      ensures repository.elements == CameraCommit(old(repository.elements), client.player, packet)
    {
      repository.elements := CameraCommit(repository.elements, client.player, packet);
    }

    method HandleClientKeySyncPacket(client: Client, packet: KeySyncPacket)
      modifies trace
      ensures trace.sends == old(trace.sends) + [KeySyncSend(repository.elements, client, packet)]
      ensures trace.events == old(trace.events)
    {
      var stamped := packet.(playerId := client.player);
      trace.Emit(Send(ToPlayers(OtherPlayers(repository.elements, client)), KeySyncRelay(stamped)));
    }

    method HandleClientPureSyncPacket(client: Client, packet: PlayerPureSyncPacket)
      requires IsPlayerIn(repository.elements, client.player)
      modifies repository, trace
      ensures trace.sends == old(trace.sends) + PureSyncSends(old(repository.elements), client, packet)
      ensures repository.elements == PureSyncCommit(old(repository.elements), client.player, packet)
      ensures trace.events == old(trace.events) + PureSyncDamage(old(repository.elements), client.player, packet)
    {
      trace.Emit(Send(ToClient(client), ReturnSync(packet.position, None)));
      var relay := packet.(playerId := client.player, latency := 0);
      trace.Emit(Send(ToPlayers(OtherPlayers(repository.elements, client)), PureSyncRelay(relay)));
      repository.elements := PureSyncCommit(repository.elements, client.player, packet);
      if packet.isDamageChanged {
        var damager := Resolve(repository.elements, packet.damagerId);
        trace.Raise(Damaged(client.player, damager, packet.damageType, packet.damageBodypart));
      }
    }
  }
}
