/** The vehicle pure-sync handler.

    A vehicle sync packet is echoed to its sender, stamped and relayed to the
    players the sync middleware selects, and committed: the player's own
    state always, the vehicle's state and its tow chain only when the sender
    is the vehicle's driver. */
module VehicleSync {
  import opened Base
  import opened Elements
  import opened Towing
  import opened Packets
  import opened SyncQueue

  /** `WeaponType.WEAPONTYPE_UNIDENTIFIED` and `BodyPart.Torso`, the defaults
      of a damage report that leaves them out. */
  const WeaponTypeUnidentified: nat := 55
  const BodyPartTorso: nat := 3

  function VehicleOf(elements: Elements, id: ElementId): VehicleState
    requires IsVehicleIn(elements, id)
  {
    elements[id].kind.vehicle
  }

  /** The player's vehicle, when it has one, is a registered vehicle. */
  predicate VehicleResolves(elements: Elements, id: ElementId)
    requires IsPlayerIn(elements, id)
  {
    PlayerOf(elements, id).vehicle.Some? ==> IsVehicleIn(elements, PlayerOf(elements, id).vehicle.value)
  }

  /** The relay copy of the packet: the sender's id, the sender's ping cut to
      16 bits as latency, and the damage states of the sender's vehicle (empty
      without one) in place of whatever the client sent. */
  function RelayPacket(packet: VehiclePureSyncPacket, playerId: ElementId, ping: nat, damage: Option<VehicleDamage>): (r: VehiclePureSyncPacket)
    ensures r.playerId == playerId
    ensures r.latency < 0x1_0000 && (ping < 0x1_0000 ==> r.latency == ping)
    ensures damage.Some? ==>
      r.doorStates == damage.value.doors && r.wheelStates == damage.value.wheels &&
      r.panelStates == damage.value.panels && r.lightStates == damage.value.lights
    ensures damage.None? ==> r.doorStates == [] && r.wheelStates == [] && r.panelStates == [] && r.lightStates == []
    ensures r.(playerId := packet.playerId, latency := packet.latency, doorStates := packet.doorStates,
               wheelStates := packet.wheelStates, panelStates := packet.panelStates, lightStates := packet.lightStates) == packet
  {
    var d := if damage.Some? then damage.value else VehicleDamage([], [], [], []);
    packet.(playerId := playerId, latency := ToUShort(ping),
            doorStates := d.doors, wheelStates := d.wheels, panelStates := d.panels, lightStates := d.lights)
  }

  /** The damage states the relay carries: those of the player's vehicle, if any. */
  function RelayDamage(elements: Elements, id: ElementId): Option<VehicleDamage>
    requires IsPlayerIn(elements, id) && VehicleResolves(elements, id)
  {
    var vehicle := PlayerOf(elements, id).vehicle;
    if vehicle.Some? then Some(VehicleOf(elements, vehicle.value).damage) else None
  }

  /** The player commit, made whether or not the sender drives. */
  function PlayerCommit(elements: Elements, id: ElementId, packet: VehiclePureSyncPacket): (r: Elements)
    requires IsPlayerIn(elements, id)
    ensures IsPlayerIn(r, id) && SameExcept(elements, r, id)
    ensures r[id].position == packet.position && r[id].velocity == packet.velocity
    ensures r[id].(position := elements[id].position, velocity := elements[id].velocity, kind := elements[id].kind) == elements[id]
    ensures var before, after := PlayerOf(elements, id), PlayerOf(r, id);
      && after.health == packet.playerHealth && after.armor == packet.playerArmor
      && after.aimOrigin == packet.aimOrigin && after.aimDirection == packet.aimDirection
      // the slot is set only when the packet has one
      && after.currentWeaponSlot == (if packet.weaponSlot.Some? then packet.weaponSlot.value else before.currentWeaponSlot)
      // the ammo counts change only with a current weapon and both counts present
      && (if before.currentWeapon.Some? && packet.weaponAmmo.Some? && packet.weaponAmmoInClip.Some?
          then after.currentWeapon == Some(before.currentWeapon.value.(ammo := packet.weaponAmmo.value, ammoInClip := packet.weaponAmmoInClip.value))
          else after.currentWeapon == before.currentWeapon)
      // of the movement flags only these two are taken from the packet
      && after.flags == before.flags.(isInWater := packet.flags.isInWater, wearsGoggles := packet.flags.isWearingGoggles)
      && after.(health := before.health, armor := before.armor, aimOrigin := before.aimOrigin,
                aimDirection := before.aimDirection, currentWeaponSlot := before.currentWeaponSlot,
                currentWeapon := before.currentWeapon, flags := before.flags) == before
  {
    var p := PlayerOf(elements, id);
    var slot := if packet.weaponSlot.Some? then packet.weaponSlot.value else p.currentWeaponSlot;
    var weapon :=
      if p.currentWeapon.Some? && packet.weaponAmmo.Some? && packet.weaponAmmoInClip.Some?
      then Some(p.currentWeapon.value.(ammo := packet.weaponAmmo.value, ammoInClip := packet.weaponAmmoInClip.value))
      else p.currentWeapon;
    var committed := p.(
      health := packet.playerHealth,
      armor := packet.playerArmor,
      aimOrigin := packet.aimOrigin,
      aimDirection := packet.aimDirection,
      currentWeaponSlot := slot,
      currentWeapon := weapon,
      flags := p.flags.(isInWater := packet.flags.isInWater, wearsGoggles := packet.flags.isWearingGoggles));
    var moved := elements[id := elements[id].(position := packet.position, velocity := packet.velocity)];
    WithPlayer(moved, id, committed)
  }

  /** The damage event: raised iff the packet names a damager, resolved
      through the repository; a missing weapon type or body part takes its default. */
  function DamageEvents(elements: Elements, id: ElementId, packet: VehiclePureSyncPacket): (evs: seq<Event>)
    ensures |evs| <= 1
    ensures |evs| == 1 <==> packet.damagerId.Some?
    ensures |evs| == 1 ==>
      && evs[0].Damaged? && evs[0].player == id
      && evs[0].damager == Resolve(elements, packet.damagerId.value)
      && evs[0].weaponType == (if packet.damageWeaponType.Some? then packet.damageWeaponType.value else WeaponTypeUnidentified)
      && evs[0].bodyPart == (if packet.damageBodyPart.Some? then packet.damageBodyPart.value else BodyPartTorso)
  {
    if packet.damagerId.Some? then
      var weaponType := if packet.damageWeaponType.Some? then packet.damageWeaponType.value else WeaponTypeUnidentified;
      var bodyPart := if packet.damageBodyPart.Some? then packet.damageBodyPart.value else BodyPartTorso;
      [Damaged(id, Resolve(elements, packet.damagerId.value), weaponType, bodyPart)]
    else []
  }

  /** The driver's commit of the vehicle's own fields; its driver, damage and
      tow links are left as they are. */
  function VehicleFields(elements: Elements, v: ElementId, packet: VehiclePureSyncPacket): (r: Elements)
    requires IsVehicleIn(elements, v)
    ensures IsVehicleIn(r, v) && SameExcept(elements, r, v)
    ensures SameLinks(elements, r)
    ensures r[v].position == packet.position && r[v].rotation == packet.rotation && r[v].velocity == packet.velocity
    ensures r[v].parent == elements[v].parent && r[v].id == elements[v].id
    ensures var before, after := VehicleOf(elements, v), VehicleOf(r, v);
      && after.health == packet.health && after.turnVelocity == packet.turnVelocity
      && after.turretRotation == packet.turretRotation && after.adjustableProperty == packet.adjustableProperty
      && after.isSirenActive == packet.flags.isSirenOrAlarmActive && after.doorRatios == packet.doorOpenRatios
      && after.driver == before.driver && after.damage == before.damage
      && after.towedVehicle == before.towedVehicle && after.towingVehicle == before.towingVehicle
  {
    var e := elements[v];
    var state := e.kind.vehicle.(
      health := packet.health,
      turnVelocity := packet.turnVelocity,
      turretRotation := packet.turretRotation,
      adjustableProperty := packet.adjustableProperty,
      isSirenActive := packet.flags.isSirenOrAlarmActive,
      doorRatios := packet.doorOpenRatios);
    elements[v := e.(position := packet.position, rotation := packet.rotation, velocity := packet.velocity,
                     kind := VehicleKind(state))]
  }

  /** The driver's commit of the tow links: with trailers, the trailer chain;
      without, the release of whatever the vehicle towed. */
  function TowCommit(elements: Elements, v: ElementId, packet: VehiclePureSyncPacket): Elements
    requires IsVehicleIn(elements, v)
  {
    if packet.hasTrailer then TrailerChain(elements, v, packet.trailers)
    else
      var towed := TowedOf(elements, v);
      if towed.Some? && IsVehicleIn(elements, towed.value) then AttachToTower(elements, towed.value, None)
      else elements
  }

  /** Whether the player drives its vehicle. */
  predicate IsDriving(elements: Elements, id: ElementId)
    requires IsPlayerIn(elements, id) && VehicleResolves(elements, id)
  {
    var vehicle := PlayerOf(elements, id).vehicle;
    vehicle.Some? && VehicleOf(elements, vehicle.value).driver == Some(id)
  }

  /** Everything a vehicle sync packet does to the repository. */
  function VehicleSyncCommit(elements: Elements, id: ElementId, packet: VehiclePureSyncPacket): Elements
    requires IsPlayerIn(elements, id) && VehicleResolves(elements, id)
  {
    var committed := PlayerCommit(elements, id, packet);
    if IsDriving(elements, id) then
      var v := PlayerOf(elements, id).vehicle.value;
      TowCommit(VehicleFields(committed, v, packet), v, packet)
    else committed
  }

  /** Everything a vehicle sync packet does: the echo and the relay sent, the
      repository committed to and the damage event raised. */
  function VehicleSyncStep(
    w: World, client: Client, id: ElementId, ping: nat,
    playersToSyncTo: (ElementId, VehiclePureSyncPacket) -> set<ElementId>,
    packet: VehiclePureSyncPacket): World
    requires IsPlayerIn(w.elements, id) && VehicleResolves(w.elements, id)
  {
    var relay := RelayPacket(packet, id, ping, RelayDamage(w.elements, id));
    World(
      VehicleSyncCommit(w.elements, id, packet),
      w.sends + [Send(ToClient(client), ReturnSync(packet.position, Some(packet.rotation))),
                 Send(ToPlayers(playersToSyncTo(id, relay)), VehicleSyncRelay(relay))],
      w.events + DamageEvents(w.elements, id, packet))
  }

  /** A sender that does not drive its vehicle changes nothing but its own
      player: no vehicle and no tow link moves. */
  lemma NonDriverKeepsVehicles(elements: Elements, id: ElementId, packet: VehiclePureSyncPacket)
    requires IsPlayerIn(elements, id) && VehicleResolves(elements, id)
    requires !IsDriving(elements, id)
    ensures var r := VehicleSyncCommit(elements, id, packet);
      SameExcept(elements, r, id) && IsPlayerIn(r, id)
  {
  }

  /** The tow commit keeps every id, every vehicle a vehicle, every other
      element as it was, and of a vehicle's state changes only its tow links;
      without trailers it moves nothing. */
  lemma TowCommitFrame(elements: Elements, v: ElementId, packet: VehiclePureSyncPacket, x: ElementId)
    requires IsVehicleIn(elements, v)
    ensures var r := TowCommit(elements, v, packet);
      && r.Keys == elements.Keys
      && (forall k :: k in elements ==> r[k].kind.VehicleKind? == elements[k].kind.VehicleKind?)
      && (forall k :: k in elements && !elements[k].kind.VehicleKind? ==> r[k] == elements[k])
      && (!packet.hasTrailer ==> forall k :: k in elements ==>
            r[k].position == elements[k].position && r[k].rotation == elements[k].rotation)
      && (packet.hasTrailer ==> forall k :: k in elements && k !in TrailerIds(packet.trailers) ==>
            r[k].position == elements[k].position && r[k].rotation == elements[k].rotation)
      && (forall k :: k in elements ==> r[k].velocity == elements[k].velocity)
      && (IsVehicleIn(elements, x) ==>
            IsVehicleIn(r, x) &&
            VehicleOf(r, x).(towedVehicle := VehicleOf(elements, x).towedVehicle, towingVehicle := VehicleOf(elements, x).towingVehicle)
              == VehicleOf(elements, x))
  {
    if packet.hasTrailer {
      ChainFrame(elements, v, packet.trailers);
      if IsVehicleIn(elements, x) {
        ChainKeepsVehicleState(elements, v, packet.trailers, x);
      }
    } else {
      var towed := TowedOf(elements, v);
      if towed.Some? && IsVehicleIn(elements, towed.value) {
        assert SameShape(elements, AttachToTower(elements, towed.value, None));
        if IsVehicleIn(elements, x) {
          AttachKeepsVehicleState(elements, towed.value, None, x);
        }
      }
    }
  }

  /** A driver's packet sets the vehicle's own fields, its velocity and,
      unless the vehicle is among its own trailers, its transform; the
      driver and damage stay; no element other than the player and
      vehicles changes. */
  lemma DriverMovesVehicle(elements: Elements, id: ElementId, packet: VehiclePureSyncPacket)
    requires IsPlayerIn(elements, id) && VehicleResolves(elements, id)
    requires IsDriving(elements, id)
    ensures var v := PlayerOf(elements, id).vehicle.value;
      var r := VehicleSyncCommit(elements, id, packet);
      && IsVehicleIn(r, v) && r.Keys == elements.Keys
      && (forall k :: k in elements && !elements[k].kind.VehicleKind? && k != id ==> r[k] == elements[k])
      && VehicleOf(r, v).health == packet.health
      && VehicleOf(r, v).turnVelocity == packet.turnVelocity
      && VehicleOf(r, v).turretRotation == packet.turretRotation
      && VehicleOf(r, v).adjustableProperty == packet.adjustableProperty
      && VehicleOf(r, v).isSirenActive == packet.flags.isSirenOrAlarmActive
      && VehicleOf(r, v).doorRatios == packet.doorOpenRatios
      && VehicleOf(r, v).driver == Some(id)
      && VehicleOf(r, v).damage == VehicleOf(elements, v).damage
      && r[v].velocity == packet.velocity
      && (!packet.hasTrailer || v !in TrailerIds(packet.trailers) ==>
            r[v].position == packet.position && r[v].rotation == packet.rotation)
  {
    var v := PlayerOf(elements, id).vehicle.value;
    var committed := PlayerCommit(elements, id, packet);
    var fields := VehicleFields(committed, v, packet);
    TowCommitFrame(fields, v, packet, v);
  }

  /** The trailer chain changes only tow links, positions and rotations: a
      vehicle's other state is untouched. */
  lemma {:induction false} ChainKeepsVehicleState(elements: Elements, previous: ElementId, trailers: seq<Trailer>, x: ElementId)
    requires IsVehicleIn(elements, x)
    ensures var r := TrailerChain(elements, previous, trailers);
      && IsVehicleIn(r, x)
      && VehicleOf(r, x).(towedVehicle := VehicleOf(elements, x).towedVehicle, towingVehicle := VehicleOf(elements, x).towingVehicle)
         == VehicleOf(elements, x)
    decreases |trailers|
  {
    if trailers != [] && IsVehicleIn(elements, trailers[0].id) {
      var t := trailers[0];
      var linked := AttachToTower(elements, t.id, Some(previous));
      AttachKeepsVehicleState(elements, t.id, Some(previous), x);
      var next := AttachTrailer(elements, previous, t);
      assert IsVehicleIn(next, x);
      assert VehicleOf(next, x).(towedVehicle := VehicleOf(elements, x).towedVehicle, towingVehicle := VehicleOf(elements, x).towingVehicle)
        == VehicleOf(elements, x);
      ChainKeepsVehicleState(next, t.id, trailers[1..], x);
    }
  }

  /** Attaching changes a vehicle's tow links and nothing else of its state. */
  lemma AttachKeepsVehicleState(elements: Elements, trailer: ElementId, tower: Option<ElementId>, x: ElementId)
    requires IsVehicleIn(elements, trailer) && IsVehicleIn(elements, x)
    ensures var r := AttachToTower(elements, trailer, tower);
      && IsVehicleIn(r, x)
      && VehicleOf(r, x).(towedVehicle := VehicleOf(elements, x).towedVehicle, towingVehicle := VehicleOf(elements, x).towingVehicle)
         == VehicleOf(elements, x)
  {
    var former := TowingOf(elements, trailer);
    var e1 := if former.Some? then SetTowed(elements, former.value, None) else elements;
    if former.Some? { SetTowedKeepsUnlinked(elements, former.value, None, x); }
    var released := FormerTowed(elements, trailer, tower);
    var e2 := if released.Some? then SetTowing(e1, released.value, None) else e1;
    if released.Some? { SetTowingKeepsUnlinked(e1, released.value, None, x); }
    var e3 := SetTowing(e2, trailer, tower);
    SetTowingKeepsUnlinked(e2, trailer, tower, x);
    var r := if tower.Some? then SetTowed(e3, tower.value, Some(trailer)) else e3;
    if tower.Some? { SetTowedKeepsUnlinked(e3, tower.value, Some(trailer), x); }
    assert Unlinked(VehicleOf(r, x)) == Unlinked(VehicleOf(elements, x));
  }

  /** A vehicle's state without its tow links. */
  function Unlinked(v: VehicleState): VehicleState
  {
    v.(towedVehicle := None, towingVehicle := None)
  }

  lemma SetTowedKeepsUnlinked(elements: Elements, id: ElementId, towed: Option<ElementId>, x: ElementId)
    requires IsVehicleIn(elements, x)
    ensures var r := SetTowed(elements, id, towed);
      IsVehicleIn(r, x) && Unlinked(VehicleOf(r, x)) == Unlinked(VehicleOf(elements, x))
  {
  }

  lemma SetTowingKeepsUnlinked(elements: Elements, id: ElementId, tower: Option<ElementId>, x: ElementId)
    requires IsVehicleIn(elements, x)
    ensures var r := SetTowing(elements, id, tower);
      IsVehicleIn(r, x) && Unlinked(VehicleOf(r, x)) == Unlinked(VehicleOf(elements, x))
  {
  }

  /** The trailer loop stops at the first id that is not a vehicle: the
      trailers after it have no effect at all. */
  lemma {:induction false} ChainStops(elements: Elements, previous: ElementId, trailers: seq<Trailer>)
    ensures TrailerChain(elements, previous, trailers) ==
            TrailerChain(elements, previous, trailers[..AttachedCount(elements, trailers)])
    decreases |trailers|
  {
    var n := AttachedCount(elements, trailers);
    if trailers == [] || !IsVehicleIn(elements, trailers[0].id) {
      assert trailers[..n] == [];
    } else {
      var t, rest := trailers[0], trailers[1..];
      var next := AttachTrailer(elements, previous, t);
      AttachKeepsVehicleIds(elements, previous, t);
      AttachedCountSameVehicles(elements, next, rest);
      assert n == 1 + AttachedCount(elements, rest);
      var m := AttachedCount(next, rest);
      assert m == n - 1;
      var prefix := trailers[..n];
      assert prefix[0] == t;
      assert prefix[1..] == rest[..m];
      calc {
        TrailerChain(elements, previous, prefix);
        TrailerChain(next, t.id, prefix[1..]);
        TrailerChain(next, t.id, rest[..m]);
        { ChainStops(next, t.id, rest); }
        TrailerChain(next, t.id, rest);
      }
    }
  }

  /** One attach step keeps the ids and which of them are vehicles. */
  lemma AttachKeepsVehicleIds(elements: Elements, previous: ElementId, t: Trailer)
    requires IsVehicleIn(elements, t.id)
    ensures var r := AttachTrailer(elements, previous, t);
      && r.Keys == elements.Keys
      && forall k :: k in elements ==> r[k].kind.VehicleKind? == elements[k].kind.VehicleKind?
  {
    AttachTrailerFacts(elements, previous, t);
  }

  /** With trailers, a driver's packet rebuilds the tow chain behind the
      vehicle: each trailer reached is towed by the one before it (the first
      by the vehicle) and placed as the packet says, and the tow relation
      stays consistent. */
  lemma DriverRebuildsChain(elements: Elements, id: ElementId, packet: VehiclePureSyncPacket)
    requires IsPlayerIn(elements, id) && VehicleResolves(elements, id)
    requires IsDriving(elements, id) && packet.hasTrailer
    requires TowConsistent(elements)
    requires Distinct([PlayerOf(elements, id).vehicle.value] + TrailerIds(packet.trailers))
    ensures var v := PlayerOf(elements, id).vehicle.value;
      var r := VehicleSyncCommit(elements, id, packet);
      && TowConsistent(r)
      && ChainLinked(r, v, packet.trailers, AttachedCount(elements, packet.trailers))
  {
    var v := PlayerOf(elements, id).vehicle.value;
    var committed := PlayerCommit(elements, id, packet);
    var fields := VehicleFields(committed, v, packet);
    assert SameLinks(elements, committed) by {
      assert forall k :: IsVehicleIn(elements, k) ==> k != id && committed[k] == elements[k];
    }
    SameLinksConsistent(elements, committed);
    SameLinksConsistent(committed, fields);
    AttachedCountSameVehicles(elements, fields, packet.trailers);
    ChainLinks(fields, v, packet.trailers);
  }

  /** Without trailers, a driver's packet releases the vehicle it towed: both
      ends of the link are cleared and the relation stays consistent. */
  lemma DriverReleasesTowed(elements: Elements, id: ElementId, packet: VehiclePureSyncPacket)
    requires IsPlayerIn(elements, id) && VehicleResolves(elements, id)
    requires IsDriving(elements, id) && !packet.hasTrailer
    requires TowConsistent(elements)
    ensures var v := PlayerOf(elements, id).vehicle.value;
      var r := VehicleSyncCommit(elements, id, packet);
      && TowConsistent(r)
      && IsVehicleIn(r, v) && TowedOf(r, v) == None
      && (TowedOf(elements, v).Some? ==> TowingOf(r, TowedOf(elements, v).value) == None)
  {
    var v := PlayerOf(elements, id).vehicle.value;
    var committed := PlayerCommit(elements, id, packet);
    var fields := VehicleFields(committed, v, packet);
    assert SameLinks(elements, committed) by {
      assert forall k :: IsVehicleIn(elements, k) ==> k != id && committed[k] == elements[k];
    }
    SameLinksConsistent(elements, committed);
    SameLinksConsistent(committed, fields);
    var towed := TowedOf(fields, v);
    if towed.Some? {
      AttachKeepsConsistency(fields, towed.value, None);
      AttachLinks(fields, towed.value, None, v);
    }
  }

  /** The vehicle pure-sync handler. */
  class VehiclePureSyncPacketHandler {
    const repository: ElementRepository
    const trace: Trace
    /** The sync middleware's `GetPlayersToSyncTo(player, packet)`. */
    const playersToSyncTo: (ElementId, VehiclePureSyncPacket) -> set<ElementId>

    constructor (repository: ElementRepository, trace: Trace, playersToSyncTo: (ElementId, VehiclePureSyncPacket) -> set<ElementId>)
      ensures this.repository == repository && this.trace == trace && this.playersToSyncTo == playersToSyncTo
    {
      this.repository := repository;
      this.trace := trace;
      this.playersToSyncTo := playersToSyncTo;
    }

    /** `HandlePacket(client, packet)`, for a client whose player is registered. */
    method HandlePacket(client: Client, packet: VehiclePureSyncPacket)
      requires IsPlayerIn(repository.elements, client.player) && VehicleResolves(repository.elements, client.player)
      modifies repository, trace
      ensures World(repository.elements, trace.sends, trace.events) ==
        VehicleSyncStep(old(World(repository.elements, trace.sends, trace.events)), client, client.player,
                        client.ping, playersToSyncTo, packet)
    {
      var id := client.player;
      var vehicle := PlayerOf(repository.elements, id).vehicle;
      SendEchoAndRelay(client, packet);
      var before := repository.elements;
      CommitPlayer(id, packet);
      if vehicle.Some? && VehicleOf(before, vehicle.value).driver == Some(id) {
        CommitVehicle(vehicle.value, packet);
      }
    }

    /** The echo to the sender and the stamped relay to the middleware's players. */
    method SendEchoAndRelay(client: Client, packet: VehiclePureSyncPacket)
      requires IsPlayerIn(repository.elements, client.player) && VehicleResolves(repository.elements, client.player)
      modifies trace
      ensures trace.events == old(trace.events)
      ensures var relay := RelayPacket(packet, client.player, client.ping, RelayDamage(repository.elements, client.player));
        trace.sends == old(trace.sends) + [Send(ToClient(client), ReturnSync(packet.position, Some(packet.rotation))),
                                           Send(ToPlayers(playersToSyncTo(client.player, relay)), VehicleSyncRelay(relay))]
    {
      var id := client.player;
      var vehicle := PlayerOf(repository.elements, id).vehicle;
      trace.Emit(Send(ToClient(client), ReturnSync(packet.position, Some(packet.rotation))));
      var damage := if vehicle.Some? then Some(VehicleOf(repository.elements, vehicle.value).damage) else None;
      var relay := packet.(playerId := id, latency := ToUShort(client.ping));
      relay := relay.(
        doorStates := if damage.Some? then damage.value.doors else [],
        wheelStates := if damage.Some? then damage.value.wheels else [],
        panelStates := if damage.Some? then damage.value.panels else [],
        lightStates := if damage.Some? then damage.value.lights else []);
      trace.Emit(Send(ToPlayers(playersToSyncTo(id, relay)), VehicleSyncRelay(relay)));
    }

    /** The player's part of the commit, with its damage event. */
    method CommitPlayer(id: ElementId, packet: VehiclePureSyncPacket)
      requires IsPlayerIn(repository.elements, id)
      modifies repository, trace
      ensures repository.elements == PlayerCommit(old(repository.elements), id, packet)
      ensures trace.events == old(trace.events) + DamageEvents(old(repository.elements), id, packet)
      ensures trace.sends == old(trace.sends)
    {
      repository.elements := PlayerCommit(repository.elements, id, packet);
      if packet.damagerId.Some? {
        var weaponType := if packet.damageWeaponType.Some? then packet.damageWeaponType.value else WeaponTypeUnidentified;
        var bodyPart := if packet.damageBodyPart.Some? then packet.damageBodyPart.value else BodyPartTorso;
        trace.Raise(Damaged(id, Resolve(repository.elements, packet.damagerId.value), weaponType, bodyPart));
      }
    }

    /** The driver's part of the commit: the vehicle's fields, then its tow links. */
    method CommitVehicle(v: ElementId, packet: VehiclePureSyncPacket)
      requires IsVehicleIn(repository.elements, v)
      modifies repository
      ensures repository.elements == TowCommit(VehicleFields(old(repository.elements), v, packet), v, packet)
    {
      repository.elements := VehicleFields(repository.elements, v, packet);
      if packet.hasTrailer {
        AttachTrailers(v, packet.trailers);
      } else {
        var towed := TowedOf(repository.elements, v);
        if towed.Some? && IsVehicleIn(repository.elements, towed.value) {
          repository.elements := AttachToTower(repository.elements, towed.value, None);
        }
      }
    }

    /** The trailer loop: each trailer is attached to the previous one and
        placed; the loop breaks at the first id that is not a vehicle. */
    method AttachTrailers(v: ElementId, trailers: seq<Trailer>)
      modifies repository
      ensures repository.elements == TrailerChain(old(repository.elements), v, trailers)
    {
      var previous := v;
      var i := 0;
      while i < |trailers|
        invariant 0 <= i <= |trailers|
        invariant TrailerChain(old(repository.elements), v, trailers) == TrailerChain(repository.elements, previous, trailers[i..])
      {
        var trailer := trailers[i];
        if !IsVehicleIn(repository.elements, trailer.id) {
          break;
        }
        assert trailers[i..][1..] == trailers[i + 1..];
        repository.elements := AttachToTower(repository.elements, trailer.id, Some(previous));
        repository.elements := SetTransform(repository.elements, trailer.id, trailer.position, trailer.rotation);
        previous := trailer.id;
        i := i + 1;
      }
    }
  }
}
