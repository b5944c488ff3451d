/** The server object: its net wrappers, its clients per wrapper, its running
    state, and the association of elements with the world.

    The native net wrappers are outside the model: a wrapper is an id, and
    the calls the server makes on wrappers are recorded in order. Element ids
    handed out by the id generator, and the ids of newly created players, are
    parameters. */
module Server {
  import opened Base
  import opened Elements
  import opened Packets

  /** A call the server makes on a net wrapper. */
  datatype WrapperCall = Started(wrapper: WrapperId) | Stopped(wrapper: WrapperId)

  /** The `Start()` calls of a start loop over `wrappers`, in order. */
  function StartCalls(wrappers: seq<WrapperId>): (r: seq<WrapperCall>)
    ensures |r| == |wrappers|
    ensures forall i :: 0 <= i < |wrappers| ==> r[i] == Started(wrappers[i])
  {
    seq(|wrappers|, i requires 0 <= i < |wrappers| => Started(wrappers[i]))
  }

  /** The `Stop()` calls of a stop loop over `wrappers`, in order. */
  function StopCalls(wrappers: seq<WrapperId>): (r: seq<WrapperCall>)
    ensures |r| == |wrappers|
    ensures forall i :: 0 <= i < |wrappers| ==> r[i] == Stopped(wrappers[i])
  {
    seq(|wrappers|, i requires 0 <= i < |wrappers| => Stopped(wrappers[i]))
  }

  /** The three transport signals that end a client. */
  predicate IsDisconnect(id: PacketId)
  {
    id == PlayerQuit || id == PlayerTimeout || id == PlayerNoSocket
  }

  /** The quit reason a disconnect signal reports: a quit is a quit, and both
      a timeout and a lost socket are reported as a timeout. */
  function QuitReasonOf(id: PacketId): (r: QuitReason)
    requires IsDisconnect(id)
    ensures r == Quit <==> id == PlayerQuit
    ensures r == Timeout <==> id == PlayerTimeout || id == PlayerNoSocket
  {
    if id == PlayerQuit then Quit else Timeout
  }

  /** `element` as `AssociateElement` leaves it: its id the generated one when
      there is a generator, and its parent the root unless it is the root. */
  function Associated(e: Element, hasIdGenerator: bool, generatedId: ElementId, root: ElementId): (r: Element)
    ensures r.id == (if hasIdGenerator then generatedId else e.id)
    ensures r.ElementType() == e.ElementType() && r.kind == e.kind
    ensures r.position == e.position && r.rotation == e.rotation && r.velocity == e.velocity
    ensures e.ElementType() == Root ==> r.parent == e.parent
    ensures e.ElementType() != Root ==> r.parent == Some(root)
  {
    var withId := if hasIdGenerator then e.(id := generatedId) else e;
    if e.ElementType() != Root then withId.(parent := Some(root)) else withId
  }

  /** Association never makes the root its own parent, and every other
      element hangs directly under the root. */
  lemma AssociationParents(e: Element, hasIdGenerator: bool, generatedId: ElementId, root: ElementId)
    requires e.ElementType() == Root ==> e.parent == None
    ensures var r := Associated(e, hasIdGenerator, generatedId, root);
      && (r.parent == Some(r.id) ==> r.ElementType() != Root && r.id == root)
      && (r.ElementType() == Root <==> r.parent == None)
      && (r.ElementType() != Root ==> r.parent == Some(root))
  {
  }

  /** The player element a new client brings with it: unassociated, at the
      origin, with default state. The default state is not modelled. */
  function NewPlayerElement(client: Client, id: ElementId): (e: Element)
    ensures e.id == id && e.ElementType() == Player && e.kind.player.client == client
    ensures e.parent == None && e.kind.player.vehicle == None
  {
    var camera := Camera(Origin, Origin, None);
    var flags := SyncFlags(false, false, false, false, false, false, false, false, false, false, false);
    var state := PlayerState(client, camera, 0.0, 0.0, Origin, Origin, None, None, 0, flags, Origin, Origin, 0.0, None);
    Element(id, None, Origin, Origin, Origin, PlayerKind(state))
  }

  /** What one incoming packet does to the addresses with a client on its
      wrapper: whether it connects a client, whether it disconnects one, and
      the addresses known afterwards. */
  datatype Arrival = Arrival(connects: bool, disconnects: bool, known: set<Address>)

  function Arrive(known: set<Address>, address: Address, packetId: PacketId): (r: Arrival)
    // an unseen address connects, whatever the packet
    ensures r.connects <==> address !in known
    // a disconnect signal disconnects, the client having just been created if need be
    ensures r.disconnects <==> IsDisconnect(packetId)
    ensures address in r.known <==> !IsDisconnect(packetId)
    ensures forall a :: a != address ==> (a in r.known <==> a in known)
  {
    if IsDisconnect(packetId) then Arrival(address !in known, true, known - {address})
    else Arrival(address !in known, false, known + {address})
  }

  /** A disconnect signal from an address with no client is not ignored: it
      connects a client and disconnects it at once, and leaves no client. */
  lemma QuitFromUnknownConnects(known: set<Address>, address: Address, packetId: PacketId)
    requires address !in known && IsDisconnect(packetId)
    ensures var r := Arrive(known, address, packetId);
      r.connects && r.disconnects && r.known == known
  {
  }

  /** The connect (true) and disconnect (false) events one packet raises, in order. */
  function ArrivalEventsOf(a: Arrival): seq<bool>
  {
    (if a.connects then [true] else []) + (if a.disconnects then [false] else [])
  }

  /** The connect and disconnect events a run of packets from one address
      raises, in order. */
  function ArrivalEvents(known: set<Address>, address: Address, ids: seq<PacketId>): seq<bool>
    decreases |ids|
  {
    if ids == [] then []
    else
      var r := Arrive(known, address, ids[0]);
      ArrivalEventsOf(r) + ArrivalEvents(r.known, address, ids[1..])
  }

  /** `evs` alternates, its first entry being `first`. */
  predicate Alternates(evs: seq<bool>, first: bool)
    decreases |evs|
  {
    evs == [] || (evs[0] == first && (|evs| == 1 || (evs[1] != first && Alternates(evs[1..], evs[1]))))
  }

  /** Connects and disconnects of one address strictly alternate over any run
      of packets, starting with a connect when the address has no client. */
  lemma {:induction false} ArrivalsAlternate(known: set<Address>, address: Address, ids: seq<PacketId>)
    ensures Alternates(ArrivalEvents(known, address, ids), address !in known)
    decreases |ids|
  {
    if ids != [] {
      var r := Arrive(known, address, ids[0]);
      ArrivalsAlternate(r.known, address, ids[1..]);
      ArrivalStep(known, address, r, ArrivalEvents(r.known, address, ids[1..]));
    }
  }

  /** One packet's events, followed by events that alternate from the
      address's new state, alternate from its old state. */
  lemma {:induction false} ArrivalStep(known: set<Address>, address: Address, r: Arrival, rest: seq<bool>)
    requires r.connects <==> address !in known
    requires address in r.known <==> !r.disconnects
    requires Alternates(rest, address !in r.known)
    ensures Alternates(ArrivalEventsOf(r) + rest, address !in known)
  {
    var evs := ArrivalEventsOf(r) + rest;
    if r.connects && r.disconnects {
      assert evs == [true] + ([false] + rest);
      assert evs[1..] == [false] + rest && evs[1..][1..] == rest;
    } else if r.connects {
      assert evs == [true] + rest && evs[1..] == rest;
    } else if r.disconnects {
      assert evs == [false] + rest && evs[1..] == rest;
    } else {
      assert evs == rest;
    }
  }

  /** Two quits from an address with no client raise connect, disconnect,
      connect, disconnect: each quit brings a client to life and ends it. */
  lemma DoubleQuitReconnects()
    ensures ArrivalEvents({}, 9, [PlayerQuit, PlayerQuit]) == [true, false, true, false]
  {
    var a := Arrive({}, 9, PlayerQuit);
    assert a.known == {};
    assert ArrivalEvents(a.known, 9, [PlayerQuit]) == [true, false] + ArrivalEvents(a.known, 9, []);
    assert [PlayerQuit, PlayerQuit][1..] == [PlayerQuit];
  }

  /** A wrapper's client table after a packet from `address`, whose client
      (found or created) is `client`: the address is dropped on a disconnect
      signal and maps to the client otherwise. */
  function TableAfter(table: map<Address, Client>, address: Address, client: Client, packetId: PacketId): (r: map<Address, Client>)
  {
    if IsDisconnect(packetId) then table - {address} else table[address := client]
  }

  /** The table after a packet knows exactly the addresses the arrival
      leaves known, and maps each to the packet's client or its old one. */
  lemma TableAfterKeys(table: map<Address, Client>, address: Address, client: Client, packetId: PacketId)
    ensures var r := TableAfter(table, address, client, packetId);
      && r.Keys == Arrive(table.Keys, address, packetId).known
      && (forall a :: a in r ==> r[a] == if a == address then client else table[a])
  {
  }

  /** A packet from an address already holding `client` leaves the table as
      if the address had been unseen. */
  lemma TableAfterPut(table: map<Address, Client>, address: Address, client: Client, packetId: PacketId)
    ensures TableAfter(table[address := client], address, client, packetId) == TableAfter(table, address, client, packetId)
  {
    if IsDisconnect(packetId) {
      assert table[address := client] - {address} == table - {address};
    }
  }

  /** The client tables `after` differ from `before` at most in the table of `wrapper`. */
  predicate OnlyTableChanged(before: map<WrapperId, map<Address, Client>>, after: map<WrapperId, map<Address, Client>>, wrapper: WrapperId)
  {
    && wrapper in after
    && before.Keys == after.Keys
    && forall w :: w in after && w != wrapper ==> after[w] == before[w]
  }

  /** `client` is stored under its own wrapper and address, and its player is
      a registered player that refers back to it. */
  predicate Registered(elements: Elements, client: Client, wrapper: WrapperId, address: Address)
  {
    && client.wrapper == wrapper && client.address == address
    && IsPlayerIn(elements, client.player)
    && elements[client.player].kind.player.client == client
  }

  /** Adding an element under a fresh id keeps every registration. */
  lemma RegisteredAfterAdd(elements: Elements, client: Client, wrapper: WrapperId, address: Address, e: Element)
    requires Registered(elements, client, wrapper, address) && e.id !in elements
    ensures Registered(elements[e.id := e], client, wrapper, address)
  {
  }

  class MtaServer {
    const repository: ElementRepository
    const trace: Trace
    const hasIdGenerator: bool
    var root: ElementId
    var netWrappers: seq<WrapperId>
    var clients: map<WrapperId, map<Address, Client>>
    var isRunning: bool
    var password: Option<string>
    var gameType: string
    var mapName: string
    var maxPlayerCount: nat
    /** The packet reducer's queue: every incoming packet with its client. */
    var queue: seq<PacketQueueEntry>
    var wrapperCalls: seq<WrapperCall>
    /** Elements whose destruction removes them from the repository. */
    var removedOnDestroy: set<ElementId>

    /** Every client is stored under its own wrapper and address, and its
        player is a registered player that refers back to it. */
    ghost predicate Valid()
      reads this, repository
    {
      forall w, a :: w in clients && a in clients[w] ==> Registered(repository.elements, clients[w][a], w, a)
    }

    /** The constructor: no wrappers, no clients, game type and map name
        "unknown", and the root element associated. */
    constructor (repository: ElementRepository, trace: Trace, hasIdGenerator: bool, password: Option<string>,
                 maxPlayerCount: nat, rootId: ElementId)
      modifies repository, trace
      ensures this.repository == repository && this.trace == trace && this.hasIdGenerator == hasIdGenerator
      ensures this.password == password && this.maxPlayerCount == maxPlayerCount
      ensures gameType == "unknown" && mapName == "unknown"
      ensures netWrappers == [] && clients == map[] && !isRunning && queue == [] && wrapperCalls == []
      ensures root in repository.elements && repository.elements[root].ElementType() == Root
      ensures repository.elements[root].parent == None
      ensures repository.elements == old(repository.elements)[root := repository.elements[root]]
      ensures Valid()
    {
      this.repository := repository;
      this.trace := trace;
      this.hasIdGenerator := hasIdGenerator;
      this.password := password;
      this.maxPlayerCount := maxPlayerCount;
      gameType := "unknown";
      mapName := "unknown";
      netWrappers := [];
      clients := map[];
      isRunning := false;
      queue := [];
      wrapperCalls := [];
      removedOnDestroy := {};
      root := 0;
      new;
      var r := AssociateElement(NewRoot(), rootId);
      root := r.id;
    }

    /** `HasPassword`: whether a password is set. */
    function HasPassword(): bool
      reads this
    {
      password.Some?
    }

    /** Every client of every wrapper. */
    function AllClients(): (r: set<Client>)
      reads this
      ensures forall w, a :: w in clients && a in clients[w] ==> clients[w][a] in r
      ensures forall c :: c in r ==> exists w, a :: w in clients && a in clients[w] && clients[w][a] == c
    {
      set w, a | w in clients && a in clients[w] :: clients[w][a]
    }

    /** `Start()`: every wrapper is started in order, then the server runs. */
    method Start()
      modifies this`wrapperCalls, this`isRunning
      ensures isRunning
      ensures wrapperCalls == old(wrapperCalls) + StartCalls(netWrappers)
      ensures netWrappers == old(netWrappers) && clients == old(clients) && queue == old(queue)
      ensures root == old(root) && removedOnDestroy == old(removedOnDestroy)
    {
      var i := 0;
      while i < |netWrappers|
        invariant 0 <= i <= |netWrappers|
        invariant wrapperCalls == old(wrapperCalls) + StartCalls(netWrappers[..i])
      {
        wrapperCalls := wrapperCalls + [Started(netWrappers[i])];
        i := i + 1;
      }
      assert netWrappers[..i] == netWrappers;
      isRunning := true;
    }

    /** `Stop()`: every wrapper is stopped in order, then the server no longer runs. */
    method Stop()
      modifies this`wrapperCalls, this`isRunning
      ensures !isRunning
      ensures wrapperCalls == old(wrapperCalls) + StopCalls(netWrappers)
      ensures netWrappers == old(netWrappers) && clients == old(clients) && queue == old(queue)
      ensures root == old(root) && removedOnDestroy == old(removedOnDestroy)
    {
      var i := 0;
      while i < |netWrappers|
        invariant 0 <= i <= |netWrappers|
        invariant wrapperCalls == old(wrapperCalls) + StopCalls(netWrappers[..i])
      {
        wrapperCalls := wrapperCalls + [Stopped(netWrappers[i])];
        i := i + 1;
      }
      assert netWrappers[..i] == netWrappers;
      isRunning := false;
    }

    /** `AddNetWrapper`: the new wrapper is registered with an empty client
        table, appended, and started at once iff the server is running. */
    method AddNetWrapper(wrapper: WrapperId) returns (r: WrapperId)
      requires wrapper !in clients
      requires Valid()
      modifies this`clients, this`netWrappers, this`wrapperCalls
      ensures r == wrapper
      ensures netWrappers == old(netWrappers) + [wrapper]
      ensures clients == old(clients)[wrapper := map[]]
      ensures wrapperCalls == old(wrapperCalls) + (if isRunning then [Started(wrapper)] else [])
      ensures isRunning == old(isRunning) && queue == old(queue) && root == old(root)
      ensures removedOnDestroy == old(removedOnDestroy)
      ensures Valid()
    {
      RegisterNetWrapper(wrapper);
      netWrappers := netWrappers + [wrapper];
      if isRunning {
        wrapperCalls := wrapperCalls + [Started(wrapper)];
      }
      r := wrapper;
    }

    /** `RegisterNetWrapper`: the wrapper gets its own, empty client table. */
    method RegisterNetWrapper(wrapper: WrapperId)
      requires Valid()
      modifies this`clients
      ensures clients == old(clients)[wrapper := map[]]
      ensures Valid()
    {
      clients := clients[wrapper := map[]];
    }

    /** `AssociateElement(element)`: the id from the generator (if any), the
        repository entry with removal on destroy, the creation event, and the
        root as parent unless the element is the root. Returns the element. */
    method AssociateElement(e: Element, generatedId: ElementId) returns (r: Element)
      modifies repository, trace, this`removedOnDestroy
      ensures r == Associated(e, hasIdGenerator, generatedId, root)
      ensures repository.elements == old(repository.elements)[r.id := r]
      ensures removedOnDestroy == old(removedOnDestroy) + {r.id}
      ensures trace.events == old(trace.events) + [ElementCreated(r.id)]
      ensures trace.sends == old(trace.sends)
      // an element under an id not yet in use keeps every client registered
      ensures old(Valid()) && r.id !in old(repository.elements) ==> Valid()
    {
      ghost var before := repository.elements;
      r := e;
      if hasIdGenerator {
        r := r.(id := generatedId);
      }
      if r.ElementType() != Root {
        r := r.(parent := Some(root));
      }
      repository.Add(r);
      removedOnDestroy := removedOnDestroy + {r.id};
      trace.Raise(ElementCreated(r.id));
      if old(Valid()) && r.id !in before {
        forall w, a | w in clients && a in clients[w]
          ensures Registered(repository.elements, clients[w][a], w, a)
        {
          RegisteredAfterAdd(before, clients[w][a], w, a, r);
        }
      }
    }

    /** The client registered under (wrapper, address), if any, as a set of objects. */
    function ClientAt(wrapper: WrapperId, address: Address): set<Client>
      reads this
    {
      if wrapper in clients && address in clients[wrapper] then {clients[wrapper][address]} else {}
    }

    /** `EnqueueIncomingPacket`: an unseen (wrapper, address) gets a new client
        whose player is associated; the ping is updated when given; the packet
        is queued with its client; a disconnect signal then marks the client
        disconnected, reports the reason and removes it. `playerId` is the id
        the new client's player ends up with. */
    method EnqueueIncomingPacket(wrapper: WrapperId, address: Address, packetId: PacketId, data: Bytes,
                                 ping: Option<nat>, playerId: ElementId) returns (client: Client)
      requires wrapper in clients && Valid()
      requires address !in clients[wrapper] ==> playerId !in repository.elements
      modifies this`clients, this`queue, this`removedOnDestroy, repository, trace, ClientAt(wrapper, address)
      ensures OnlyTableChanged(old(clients), clients, wrapper)
      ensures clients[wrapper] == TableAfter(old(clients[wrapper]), address, client, packetId)
      ensures queue == old(queue) + [PacketQueueEntry(client, packetId, data)]
      ensures trace.sends == old(trace.sends)
      // an unseen address: a new client and player, connected, then disconnected on a disconnect signal
      ensures address !in old(clients[wrapper]) ==>
        && fresh(client) && client.wrapper == wrapper && client.address == address && client.player == playerId
        && client.isConnected == !IsDisconnect(packetId)
        && client.ping == (if ping.Some? then ping.value else 0)
        && trace.events == old(trace.events) + [ElementCreated(playerId), ClientConnected(client)]
             + (if IsDisconnect(packetId) then [Disconnected(playerId, QuitReasonOf(packetId))] else [])
        && repository.elements == old(repository.elements)[playerId := Associated(NewPlayerElement(client, playerId), hasIdGenerator, playerId, root)]
      // a known address: its client, disconnected on a disconnect signal
      ensures address in old(clients[wrapper]) ==>
        && client == old(clients[wrapper][address])
        && client.isConnected == (!IsDisconnect(packetId) && old(client.isConnected))
        && client.ping == (if ping.Some? then ping.value else old(client.ping))
        && trace.events == old(trace.events) + (if IsDisconnect(packetId) then [Disconnected(client.player, QuitReasonOf(packetId))] else [])
        && repository.elements == old(repository.elements)
      ensures Valid()
    {
      ghost var before, queued := clients[wrapper], queue;
      client := Admit(wrapper, address, playerId);
      assert queue == queued;
      TableAfterPut(before, address, client, packetId);
      Receive(wrapper, address, client, packetId, data, ping);
    }

    /** What follows once the packet's client is stored: the ping update,
        the queueing, and the disconnect branch. */
    method Receive(wrapper: WrapperId, address: Address, client: Client, packetId: PacketId, data: Bytes, ping: Option<nat>)
      requires wrapper in clients && address in clients[wrapper] && clients[wrapper][address] == client && Valid()
      modifies this`clients, this`queue, trace, client
      ensures wrapper in clients && OnlyTableChanged(old(clients), clients, wrapper)
      ensures clients[wrapper] == TableAfter(old(clients[wrapper]), address, client, packetId)
      ensures client.isConnected == (!IsDisconnect(packetId) && old(client.isConnected))
      ensures client.ping == if ping.Some? then ping.value else old(client.ping)
      ensures queue == old(queue) + [PacketQueueEntry(client, packetId, data)]
      ensures trace.events == old(trace.events) + (if IsDisconnect(packetId) then [Disconnected(client.player, QuitReasonOf(packetId))] else [])
      ensures trace.sends == old(trace.sends)
      ensures Valid()
    {
      UpdatePing(client, ping);
      queue := queue + [PacketQueueEntry(client, packetId, data)];
      if IsDisconnect(packetId) {
        DisconnectIfPresent(wrapper, address, QuitReasonOf(packetId));
      } else {
        assert clients[wrapper][address := client] == clients[wrapper];
      }
    }

    /** The client of (wrapper, address): the stored one, or a new one
        connected for an unseen address. */
    method Admit(wrapper: WrapperId, address: Address, playerId: ElementId) returns (client: Client)
      requires wrapper in clients && Valid()
      requires address !in clients[wrapper] ==> playerId !in repository.elements
      modifies this`clients, this`removedOnDestroy, repository, trace
      ensures wrapper in clients && OnlyTableChanged(old(clients), clients, wrapper)
      ensures clients[wrapper] == TableAfter(old(clients[wrapper]), address, client, PlayerKeySync)
      ensures address !in old(clients[wrapper]) ==>
        && fresh(client) && client.wrapper == wrapper && client.address == address && client.player == playerId
        && client.ping == 0 && client.isConnected
        && trace.events == old(trace.events) + [ElementCreated(playerId), ClientConnected(client)]
        && repository.elements == old(repository.elements)[playerId := Associated(NewPlayerElement(client, playerId), hasIdGenerator, playerId, root)]
      ensures address in old(clients[wrapper]) ==>
        client == old(clients[wrapper][address]) && trace.events == old(trace.events) && repository.elements == old(repository.elements)
      ensures trace.sends == old(trace.sends)
      ensures Valid()
    {
      if address !in clients[wrapper] {
        client := Connect(wrapper, address, playerId);
      } else {
        client := clients[wrapper][address];
      }
    }

    /** The ping is overwritten only when the packet carries one. */
    static method UpdatePing(client: Client, ping: Option<nat>)
      modifies client`ping
      ensures client.ping == if ping.Some? then ping.value else old(client.ping)
    {
      if ping.Some? {
        client.ping := ping.value;
      }
    }

    /** The disconnect branch: it acts only when the address has a client. */
    method DisconnectIfPresent(wrapper: WrapperId, address: Address, reason: QuitReason)
      requires wrapper in clients && Valid()
      modifies this`clients, trace, ClientAt(wrapper, address)`isConnected
      ensures wrapper in clients && OnlyTableChanged(old(clients), clients, wrapper)
      ensures clients[wrapper] == old(clients[wrapper]) - {address}
      ensures address in old(clients[wrapper]) ==> old(clients[wrapper][address]).isConnected == false
      ensures address in old(clients[wrapper]) ==>
        trace.events == old(trace.events) + [Disconnected(old(clients[wrapper][address]).player, reason)]
      ensures address !in old(clients[wrapper]) ==> trace.events == old(trace.events)
      ensures trace.sends == old(trace.sends)
      ensures Valid()
    {
      if address in clients[wrapper] {
        Disconnect(wrapper, address, reason);
      }
    }

    /** A client for an unseen (wrapper, address): created, its player
        associated, stored, and announced. */
    method Connect(wrapper: WrapperId, address: Address, playerId: ElementId) returns (created: Client)
      requires wrapper in clients && address !in clients[wrapper] && Valid()
      requires playerId !in repository.elements
      modifies this`clients, this`removedOnDestroy, repository, trace
      ensures fresh(created) && created.wrapper == wrapper && created.address == address && created.player == playerId
      ensures created.ping == 0 && created.isConnected
      ensures wrapper in clients && OnlyTableChanged(old(clients), clients, wrapper)
      ensures var table: map<Address, Client> := old(clients[wrapper]); clients[wrapper] == table[address := created]
      ensures trace.events == old(trace.events) + [ElementCreated(playerId), ClientConnected(created)]
      ensures trace.sends == old(trace.sends)
      ensures repository.elements == old(repository.elements)[playerId := Associated(NewPlayerElement(created, playerId), hasIdGenerator, playerId, root)]
      ensures Valid()
    {
      created := new Client(address, wrapper, playerId);
      ghost var before := repository.elements;
      var player := AssociateElement(NewPlayerElement(created, playerId), playerId);
      assert repository.elements == before[playerId := player];
      var table: map<Address, Client> := clients[wrapper][address := created];
      clients := clients[wrapper := table];
      trace.Raise(ClientConnected(created));
      forall w, a | w in clients && a in clients[w]
        ensures Registered(repository.elements, clients[w][a], w, a)
      {
        if w != wrapper || a != address {
          RegisteredAfterAdd(before, clients[w][a], w, a, player);
        }
      }
    }

    /** A disconnect signal for a stored client: marked disconnected, its
        player told why, and removed from its wrapper's table. */
    method Disconnect(wrapper: WrapperId, address: Address, reason: QuitReason)
      requires wrapper in clients && address in clients[wrapper] && Valid()
      modifies this`clients, trace, ClientAt(wrapper, address)`isConnected
      ensures old(clients[wrapper][address]).isConnected == false
      ensures wrapper in clients && OnlyTableChanged(old(clients), clients, wrapper)
      ensures clients[wrapper] == old(clients[wrapper]) - {address}
      ensures trace.events == old(trace.events) + [Disconnected(old(clients[wrapper][address]).player, reason)]
      ensures trace.sends == old(trace.sends)
      ensures Valid()
    {
      var client := clients[wrapper][address];
      client.isConnected := false;
      trace.Raise(Disconnected(client.player, reason));
      var table: map<Address, Client> := clients[wrapper] - {address};
      clients := clients[wrapper := table];
    }

    /** `BroadcastPacket(packet)`: one send to every client of every wrapper. */
    method BroadcastPacket(packet: OutPacket)
      modifies trace
      ensures trace.sends == old(trace.sends) + [Send(ToClients(AllClients()), packet)]
      ensures trace.events == old(trace.events)
    {
      trace.Emit(Send(ToClients(AllClients()), packet));
    }

    /** `SetMaxPlayers(slots)`: the configured maximum changes and every
        client is told. */
    method SetMaxPlayers(slots: nat)
      requires slots < 0x1_0000
      modifies this`maxPlayerCount, trace
      ensures maxPlayerCount == slots
      ensures trace.sends == old(trace.sends) + [Send(ToClients(AllClients()), ServerInfo(slots))]
      ensures trace.events == old(trace.events)
    {
      maxPlayerCount := slots;
      BroadcastPacket(ServerInfo(slots));
    }
  }

  /** `RootElement.AssociateWith(server)`: the server's association of it. */
  method AssociateRoot(root: Element, server: MtaServer, generatedId: ElementId) returns (r: Element)
    requires root.ElementType() == Root
    modifies server.repository, server.trace, server`removedOnDestroy
    ensures r == Associated(root, server.hasIdGenerator, generatedId, server.root)
    ensures r.ElementType() == Root && r.parent == root.parent
    ensures server.repository.elements == old(server.repository.elements)[r.id := r]
    ensures old(server.Valid()) && r.id !in old(server.repository.elements) ==> server.Valid()
  {
    r := server.AssociateElement(root, generatedId);
  }

  /** `Water.AssociateWith(server)`: the same water, now under the root. */
  method AssociateWater(water: Element, server: MtaServer, generatedId: ElementId) returns (r: Element)
    requires water.ElementType() == Water
    modifies server.repository, server.trace, server`removedOnDestroy
    ensures r == Associated(water, server.hasIdGenerator, generatedId, server.root)
    ensures r.ElementType() == Water && r.kind == water.kind && r.parent == Some(server.root)
    ensures server.repository.elements == old(server.repository.elements)[r.id := r]
    ensures old(server.Valid()) && r.id !in old(server.repository.elements) ==> server.Valid()
  {
    r := server.AssociateElement(water, generatedId);
  }

  /** `CollisionShape.AssociateWith(server)`: the same shape, now under the root. */
  method AssociateCollisionShape(shape: Element, server: MtaServer, generatedId: ElementId) returns (r: Element)
    requires shape.ElementType() == Colshape
    modifies server.repository, server.trace, server`removedOnDestroy
    ensures r == Associated(shape, server.hasIdGenerator, generatedId, server.root)
    ensures r.ElementType() == Colshape && r.parent == Some(server.root)
    ensures server.repository.elements == old(server.repository.elements)[r.id := r]
    ensures old(server.Valid()) && r.id !in old(server.repository.elements) ==> server.Valid()
  {
    r := server.AssociateElement(shape, generatedId);
  }
}
