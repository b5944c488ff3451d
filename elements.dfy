/** Connected peers and the world's elements.

    A Client is an object the server updates in place (its ping and its
    liveness flag), so it is a class. Elements are values kept in the element
    repository under their id; every reference from one element to another
    (a player's vehicle, a vehicle's driver and tow partners, a camera target)
    is an id resolved through the repository when it is used. */
module Elements {
  import opened Base

  /** One connected peer: a binary address on one net wrapper, with its player. */
  class Client {
    const address: Address
    const wrapper: WrapperId
    const player: ElementId
    var ping: nat
    var isConnected: bool

    constructor (address: Address, wrapper: WrapperId, player: ElementId)
      ensures this.address == address && this.wrapper == wrapper && this.player == player
      ensures ping == 0 && isConnected
    {
      this.address := address;
      this.wrapper := wrapper;
      this.player := player;
      ping := 0;
      isConnected := true;
    }
  }

  /** The closed set of element type tags the modelled code mentions. */
  datatype ElementType = Root | Player | Vehicle | Colshape | Water

  datatype Weapon = Weapon(weaponType: nat, slot: nat, ammo: nat, ammoInClip: nat)

  datatype Camera = Camera(position: Vector3, lookAt: Vector3, target: Option<ElementId>)

  /** The eleven movement flags a player pure-sync packet carries. */
  datatype SyncFlags = SyncFlags(
    isInWater: bool, isOnGround: bool, hasJetpack: bool, isDucked: bool,
    wearsGoggles: bool, hasContact: bool, isChoking: bool, akimboTargetUp: bool,
    isOnFire: bool, isSyncingVelocity: bool, isStealthAiming: bool)

  datatype PlayerState = PlayerState(
    client: Client,
    camera: Camera,
    health: real,
    armor: real,
    aimOrigin: Vector3,
    aimDirection: Vector3,
    contactElement: Option<ElementId>,
    currentWeapon: Option<Weapon>,
    currentWeaponSlot: nat,
    flags: SyncFlags,
    cameraPosition: Vector3,
    cameraDirection: Vector3,
    cameraRotation: real,
    vehicle: Option<ElementId>)

  /** Per-component damage states of a vehicle, the source of truth for relays. */
  datatype VehicleDamage = VehicleDamage(doors: Bytes, wheels: Bytes, panels: Bytes, lights: Bytes)

  datatype VehicleState = VehicleState(
    driver: Option<ElementId>,
    health: real,
    turnVelocity: Vector3,
    turretRotation: Vector2,
    adjustableProperty: nat,
    isSirenActive: bool,
    doorRatios: seq<real>,
    damage: VehicleDamage,
    towedVehicle: Option<ElementId>,
    towingVehicle: Option<ElementId>)

  /** What distinguishes one kind of element from another. */
  datatype Kind =
    | RootKind
    | PlayerKind(player: PlayerState)
    | VehicleKind(vehicle: VehicleState)
    | ColshapeKind
    | WaterKind(vertices: seq<Vector3>, isShallow: bool)

  datatype Element = Element(
    id: ElementId,
    parent: Option<ElementId>,
    position: Vector3,
    rotation: Vector3,
    velocity: Vector3,
    kind: Kind)
  {
    /** The `ElementType` each element class overrides. */
    function ElementType(): ElementType
    {
      match kind
      case RootKind => Root
      case PlayerKind(_) => Player
      case VehicleKind(_) => Vehicle
      case ColshapeKind => Colshape
      case WaterKind(_, _) => Water
    }
  }

  const Origin := Vector3(0.0, 0.0, 0.0)

  /** `new RootElement()`: a fresh, unassociated root. */
  function NewRoot(): (e: Element)
    ensures e.ElementType() == Root && e.parent == None
  {
    Element(0, None, Origin, Origin, Origin, RootKind)
  }

  /** `new Water(vertices)`: the vertices are stored as given, not shallow. */
  function NewWater(vertices: seq<Vector3>): (e: Element)
    ensures e.ElementType() == Water
    ensures e.kind.vertices == vertices && !e.kind.isShallow
    ensures e.parent == None
  {
    Element(0, None, Origin, Origin, Origin, WaterKind(vertices, false))
  }

  /** The repository's view of the world: every registered element by id. */
  type Elements = map<ElementId, Element>

  predicate IsPlayerIn(elements: Elements, id: ElementId)
  {
    id in elements && elements[id].kind.PlayerKind?
  }

  predicate IsVehicleIn(elements: Elements, id: ElementId)
  {
    id in elements && elements[id].kind.VehicleKind?
  }

  /** `elementRepository.Get(id)`: the id of the element found, or null. */
  function Resolve(elements: Elements, id: ElementId): (r: Option<ElementId>)
    ensures r.Some? <==> id in elements
    ensures r.Some? ==> r.value == id
  {
    if id in elements then Some(id) else None
  }

  /** Whether two element maps agree on every id except `id`. */
  predicate SameExcept(a: Elements, b: Elements, id: ElementId)
  {
    a.Keys == b.Keys && forall k :: k in a && k != id ==> a[k] == b[k]
  }

  /** The element repository: the canonical set of world entities by id. */
  class ElementRepository {
    var elements: Elements

    constructor ()
      ensures elements == map[]
    {
      elements := map[];
    }

    /** `Add(element)`: the element is stored under its id. */
    method Add(e: Element)
      modifies this
      ensures elements == old(elements)[e.id := e]
    {
      elements := elements[e.id := e];
    }
  }
}
