/** The loops of `run` that build the nodes from the filled tables: the drones
    through the registered factories, then the clients, then the servers,
    while the neighbour map for the controller is filled in the same order.
    Each loop takes the tables as they are handed to it, so every lookup that
    can fail is modelled with the abort it raises; which of those aborts can
    actually happen once the tables come from the filling loops is proved in
    module NetworkInitializer. */
module Construction {
  import opened Topology
  import opened Maps
  import opened Channels
  import opened Partition
  import opened Nodes
  import opened DroneFactory
  import opened Wiring

  // ---------------------------------------------------------------------
  // The checks each construction step runs, in the order it runs them

  /** The drone at position `k`: a factory must be registered for position
      `k`; the factory then needs the drone's packet receiver and command
      receiver; after it returns, the controller's directory needs the
      drone's packet sender and command sender. */
  function DroneCheck(k: nat, d: DroneConfig, t: Tables): Option<Abort> {
    if k >= |Factories| then Some(NoFactoryDefined(d.id))
    else if d.id !in t.packetRecv then Some(PacketReceiverNotFound(d.id))
    else if d.id !in t.droneCommandRecv then Some(CommandReceiverNotFound(d.id))
    else if d.id !in t.packetSend then Some(PacketSenderNotFound(d.id))
    else if d.id !in t.droneCommandSend then Some(CommandSenderNotFound(d.id))
    else None
  }

  /** The abort the drone loop raises from position `k` on, if any: the
      first failing check in declaration order. */
  function DroneAbortFrom(ds: seq<DroneConfig>, t: Tables, k: nat): Option<Abort>
    requires k <= |ds|
    decreases |ds| - k
  {
    if k == |ds| then None
    else if DroneCheck(k, ds[k], t).Some? then DroneCheck(k, ds[k], t)
    else DroneAbortFrom(ds, t, k + 1)
  }

  /** The abort for an unresolvable neighbour, if any. */
  function MissingSender(m: Option<NodeId>): Option<Abort> {
    match m
    case Some(x) => Some(MissingPacketSender(x))
    case None => None
  }

  /** A client of kind `k`: every declared neighbour needs a packet sender;
      then the client's command receiver, then its packet receiver, are
      unwrapped, in the order the constructor's arguments are evaluated. */
  function ClientCheck(c: ClientConfig, k: ClientKind, t: Tables): Option<Abort> {
    if FirstMissing(c.connectedDroneIds, t.packetSend.Keys).Some? then
      MissingSender(FirstMissing(c.connectedDroneIds, t.packetSend.Keys))
    else if c.id !in ClientTables(t, k).recv then Some(MissingCommandReceiver(c.id))
    else if c.id !in t.packetRecv then Some(MissingPacketReceiver(c.id))
    else None
  }

  /** The abort the client loop raises from position `i` on, if any. */
  function ClientAbortFrom(cs: seq<ClientConfig>, t: Tables, i: nat): Option<Abort>
    requires i <= |cs|
    decreases |cs| - i
  {
    if i == |cs| then None
    else if ClientCheck(cs[i], ClientKindAt(|cs|, i), t).Some? then ClientCheck(cs[i], ClientKindAt(|cs|, i), t)
    else ClientAbortFrom(cs, t, i + 1)
  }

  /** A server of kind `k`: every declared neighbour needs a packet sender;
      then the server's packet receiver, then its command receiver, are
      unwrapped, in the order the constructor's arguments are evaluated. */
  function ServerCheck(s: ServerConfig, k: ServerKind, t: Tables): Option<Abort> {
    if FirstMissing(s.connectedDroneIds, t.packetSend.Keys).Some? then
      MissingSender(FirstMissing(s.connectedDroneIds, t.packetSend.Keys))
    else if s.id !in t.packetRecv then Some(MissingPacketReceiver(s.id))
    else if s.id !in ServerTables(t, k).recv then Some(MissingCommandReceiver(s.id))
    else None
  }

  /** The abort the server loop raises from position `i` on, if any. */
  function ServerAbortFrom(ss: seq<ServerConfig>, t: Tables, i: nat): Option<Abort>
    requires i <= |ss|
    decreases |ss| - i
  {
    if i == |ss| then None
    else if ServerCheck(ss[i], ServerKindAt(|ss|, i), t).Some? then ServerCheck(ss[i], ServerKindAt(|ss|, i), t)
    else ServerAbortFrom(ss, t, i + 1)
  }

  // ---------------------------------------------------------------------
  // What a successful construction loop leaves behind

  datatype DroneBuild = DroneBuild(drones: seq<Node>, directory: map<NodeId, (Channel, Channel)>)

  datatype ClientBuild = ClientBuild(chat: seq<Node>, media: seq<Node>, neighbours: map<NodeId, seq<NodeId>>)

  datatype ServerBuild = ServerBuild(
    text: seq<Node>, media: seq<Node>, communication: seq<Node>,
    neighbours: map<NodeId, seq<NodeId>>)

  /** Drone `k` was built by factory `k` from its own table entries. */
  predicate DroneWired(n: Node, k: nat, d: DroneConfig, t: Tables) {
    && k < |Factories|
    && Wired(n, d.id, Drone(Factories[k], d.pdr), DroneEvents,
             t.droneCommandRecv, t.packetRecv, t.packetSend, d.connectedNodeIds)
  }

  /** Every drone was built, in declaration order, and the directory holds
      exactly the drone ids, each with its command sender and packet sender. */
  predicate DronesBuilt(b: DroneBuild, ds: seq<DroneConfig>, t: Tables) {
    && |b.drones| == |ds|
    && (forall k :: 0 <= k < |ds| ==> DroneWired(b.drones[k], k, ds[k], t))
    && b.directory.Keys == (set k | 0 <= k < |ds| :: ds[k].id)
    && forall x :: x in b.directory ==>
         x in t.droneCommandSend && x in t.packetSend && b.directory[x] == (t.droneCommandSend[x], t.packetSend[x])
  }

  predicate ClientWired(n: Node, c: ClientConfig, k: ClientKind, t: Tables) {
    Wired(n, c.id, Client(k), ClientEvents(k), ClientTables(t, k).recv, t.packetRecv, t.packetSend, c.connectedDroneIds)
  }

  /** The first `n / 2` clients became chat clients and the rest media
      clients, each list in declaration order; the neighbour map gained one
      entry per client. */
  predicate ClientsBuilt(b: ClientBuild, cs: seq<ClientConfig>, t: Tables, neighbours0: map<NodeId, seq<NodeId>>) {
    var half := |cs| / 2;
    && |b.chat| == half && |b.media| == |cs| - half
    && (forall j :: 0 <= j < half ==> ClientWired(b.chat[j], cs[j], ChatClient, t))
    && (forall j :: 0 <= j < |cs| - half ==> ClientWired(b.media[j], cs[half + j], MediaClient, t))
    && b.neighbours == neighbours0 + Filled(ClientIds(cs), Everyone(|cs|), ClientAdjacency(cs))
  }

  predicate ServerWired(n: Node, s: ServerConfig, k: ServerKind, t: Tables) {
    Wired(n, s.id, Server(k), ServerEvents(k), ServerTables(t, k).recv, t.packetRecv, t.packetSend, s.connectedDroneIds)
  }

  /** The first `n - 2 * (n / 3)` servers became text content servers, the
      next `n / 3` media content servers and the last `n / 3` communication
      servers, each list in declaration order; the neighbour map gained one
      entry per server. */
  predicate ServersBuilt(b: ServerBuild, ss: seq<ServerConfig>, t: Tables, neighbours0: map<NodeId, seq<NodeId>>) {
    var third := |ss| / 3;
    var texts := |ss| - 2 * third;
    && |b.text| == texts && |b.media| == third && |b.communication| == third
    && (forall j :: 0 <= j < texts ==> ServerWired(b.text[j], ss[j], TextServer, t))
    && (forall j :: 0 <= j < third ==> ServerWired(b.media[j], ss[texts + j], MediaServer, t))
    && (forall j :: 0 <= j < third ==> ServerWired(b.communication[j], ss[texts + third + j], CommunicationServer, t))
    && b.neighbours == neighbours0 + Filled(ServerIds(ss), Everyone(|ss|), ServerAdjacency(ss))
  }

  // ---------------------------------------------------------------------
  // The node lists part way through a construction loop

  /** After the first `k` drones: each was built by the factory at its
      position, and the directory holds exactly their ids, each with its
      command sender and packet sender. */
  predicate DronesSoFar(drones: seq<Node>, directory: map<NodeId, (Channel, Channel)>, ds: seq<DroneConfig>, t: Tables, k: nat)
    requires k <= |ds|
  {
    && |drones| == k
    && (forall j :: 0 <= j < k ==> DroneWired(drones[j], j, ds[j], t))
    && directory.Keys == (set j | 0 <= j < k :: ds[j].id)
    && forall x :: x in directory ==>
         x in t.droneCommandSend && x in t.packetSend && directory[x] == (t.droneCommandSend[x], t.packetSend[x])
  }

  lemma DronesSoFarStep(drones: seq<Node>, directory: map<NodeId, (Channel, Channel)>, ds: seq<DroneConfig>, t: Tables, k: nat, node: Node)
    requires k < |ds| && DronesSoFar(drones, directory, ds, t, k)
    requires DroneWired(node, k, ds[k], t) && ds[k].id in t.droneCommandSend && ds[k].id in t.packetSend
    ensures DronesSoFar(drones + [node], directory[ds[k].id := (t.droneCommandSend[ds[k].id], t.packetSend[ds[k].id])], ds, t, k + 1)
  {
    assert (set j | 0 <= j < k + 1 :: ds[j].id) == (set j | 0 <= j < k :: ds[j].id) + {ds[k].id};
  }

  /** After the first `i` clients: the first
      `min(i, n / 2)` are the chat clients built so far and the rest the media
      clients. */
  predicate ClientsSoFar(chat: seq<Node>, media: seq<Node>, cs: seq<ClientConfig>, t: Tables, i: nat)
    requires i <= |cs|
  {
    var half := |cs| / 2;
    && |chat| == (if i < half then i else half) && |media| == i - |chat|
    && (forall j :: 0 <= j < |chat| ==> ClientWired(chat[j], cs[j], ChatClient, t))
    && (forall j :: 0 <= j < |media| ==> ClientWired(media[j], cs[half + j], MediaClient, t))
  }

  /** Client `i`, having passed its checks and been built with the kind
      `ClientKindAt` selects, joins the end of that kind's list. */
  lemma ClientsSoFarStep(chat: seq<Node>, media: seq<Node>, cs: seq<ClientConfig>, t: Tables, i: nat, node: Node)
    requires i < |cs| && ClientsSoFar(chat, media, cs, t, i)
    requires ClientWired(node, cs[i], ClientKindAt(|cs|, i), t)
    ensures ClientKindAt(|cs|, i) == ChatClient ==> ClientsSoFar(chat + [node], media, cs, t, i + 1)
    ensures ClientKindAt(|cs|, i) == MediaClient ==> ClientsSoFar(chat, media + [node], cs, t, i + 1)
  {
  }

  lemma ClientsSoFarComplete(b: ClientBuild, cs: seq<ClientConfig>, t: Tables, neighbours0: map<NodeId, seq<NodeId>>)
    requires ClientsSoFar(b.chat, b.media, cs, t, |cs|)
    requires b.neighbours == neighbours0 + Filled(ClientIds(cs), Everyone(|cs|), ClientAdjacency(cs))
    ensures ClientsBuilt(b, cs, t, neighbours0)
  {
  }

  /** After the first `i` servers: the text,
      media and communication servers built so far fill the three blocks in
      declaration order. */
  predicate ServersSoFar(text: seq<Node>, media: seq<Node>, communication: seq<Node>, ss: seq<ServerConfig>, t: Tables, i: nat)
    requires i <= |ss|
  {
    var third := |ss| / 3;
    var texts := |ss| - 2 * third;
    && (i <= texts ==> |text| == i && |media| == 0 && |communication| == 0)
    && (texts <= i <= texts + third ==> |text| == texts && |media| == i - texts && |communication| == 0)
    && (texts + third <= i ==> |text| == texts && |media| == third && |communication| == i - texts - third)
    && (forall j :: 0 <= j < |text| ==> ServerWired(text[j], ss[j], TextServer, t))
    && (forall j :: 0 <= j < |media| ==> ServerWired(media[j], ss[texts + j], MediaServer, t))
    && (forall j :: 0 <= j < |communication| ==> ServerWired(communication[j], ss[texts + third + j], CommunicationServer, t))
  }

  /** Server `i`, built as the kind `ServerKindAt` selects, joins the end of
      that kind's list. */
  lemma TextServerStep(text: seq<Node>, media: seq<Node>, communication: seq<Node>, ss: seq<ServerConfig>, t: Tables, i: nat, node: Node)
    requires i < |ss| && ServerKindAt(|ss|, i) == TextServer
    requires ServersSoFar(text, media, communication, ss, t, i) && ServerWired(node, ss[i], TextServer, t)
    ensures ServersSoFar(text + [node], media, communication, ss, t, i + 1)
  {
  }

  lemma MediaServerStep(text: seq<Node>, media: seq<Node>, communication: seq<Node>, ss: seq<ServerConfig>, t: Tables, i: nat, node: Node)
    requires i < |ss| && ServerKindAt(|ss|, i) == MediaServer
    requires ServersSoFar(text, media, communication, ss, t, i) && ServerWired(node, ss[i], MediaServer, t)
    ensures ServersSoFar(text, media + [node], communication, ss, t, i + 1)
  {
  }

  lemma CommunicationServerStep(text: seq<Node>, media: seq<Node>, communication: seq<Node>, ss: seq<ServerConfig>, t: Tables, i: nat, node: Node)
    requires i < |ss| && ServerKindAt(|ss|, i) == CommunicationServer
    requires ServersSoFar(text, media, communication, ss, t, i) && ServerWired(node, ss[i], CommunicationServer, t)
    ensures ServersSoFar(text, media, communication + [node], ss, t, i + 1)
  {
  }

  lemma ServersSoFarComplete(b: ServerBuild, ss: seq<ServerConfig>, t: Tables, neighbours0: map<NodeId, seq<NodeId>>)
    requires ServersSoFar(b.text, b.media, b.communication, ss, t, |ss|)
    requires b.neighbours == neighbours0 + Filled(ServerIds(ss), Everyone(|ss|), ServerAdjacency(ss))
    ensures ServersBuilt(b, ss, t, neighbours0)
  {
  }

  // ---------------------------------------------------------------------
  // The construction loops

  /** Build every drone with the factory registered at its position, and
      record its command sender and packet sender in the controller's
      directory. The first failing check, in declaration order, aborts. */
  method CreateDrones(ds: seq<DroneConfig>, t: Tables) returns (r: Result<DroneBuild>)
    ensures DroneAbortFrom(ds, t, 0).Some? ==> r == Err(DroneAbortFrom(ds, t, 0).value)
    ensures DroneAbortFrom(ds, t, 0).None? ==> r.Ok? && DronesBuilt(r.value, ds, t)
  {
    var drones: seq<Node> := [];
    var directory: map<NodeId, (Channel, Channel)> := map[];
    var k := 0;
    while k < |ds|
      invariant k <= |ds|
      invariant DroneAbortFrom(ds, t, 0) == DroneAbortFrom(ds, t, k)
      invariant DronesSoFar(drones, directory, ds, t, k)
    {
      var d := ds[k];
      if k >= |Factories| {
        return Err(NoFactoryDefined(d.id));
      }
      var built := BuildDrone(Factories[k], d, t.droneCommandRecv, t.packetSend, t.packetRecv);
      if built.Err? {
        return Err(built.error);
      }
      ghost var before := drones;
      drones := drones + [built.value];
      if d.id !in t.packetSend {
        return Err(PacketSenderNotFound(d.id));
      }
      if d.id !in t.droneCommandSend {
        return Err(CommandSenderNotFound(d.id));
      }
      DronesSoFarStep(before, directory, ds, t, k, built.value);
      directory := directory[d.id := (t.droneCommandSend[d.id], t.packetSend[d.id])];
      k := k + 1;
    }
    r := Ok(DroneBuild(drones, directory));
  }

  /** The drone part of the neighbour map: each drone's id mapped to its
      declared neighbours, a later drone with the same id replacing an
      earlier one. */
  method DroneNeighbours(ds: seq<DroneConfig>) returns (neighbours: map<NodeId, seq<NodeId>>)
    ensures neighbours == Filled(DroneIds(ds), Everyone(|ds|), DroneAdjacency(ds))
  {
    ghost var ids, adjacency := DroneIds(ds), DroneAdjacency(ds);
    neighbours := map[];
    var k := 0;
    while k < |ds|
      invariant k <= |ds|
      invariant neighbours == Extended(map[], ids, adjacency, k)
    {
      ExtendedStep(map[], ids, adjacency, k);
      neighbours := neighbours[ds[k].id := ds[k].connectedNodeIds];
      k := k + 1;
    }
    ExtendedComplete(map[], ids, adjacency);
    assert map[] + Filled(ids, Everyone(|ds|), adjacency) == Filled(ids, Everyone(|ds|), adjacency);
  }

  /** Look up the packet sender of every declared neighbour; the first one
      without an entry aborts. */
  method CollectSenders(declared: seq<NodeId>, packetSend: map<NodeId, Channel>) returns (r: Result<map<NodeId, Channel>>)
    ensures FirstMissing(declared, packetSend.Keys).Some? ==>
              r == Err(MissingPacketSender(FirstMissing(declared, packetSend.Keys).value))
    ensures FirstMissing(declared, packetSend.Keys).None? ==>
              r.Ok? && r.value == Outbound(declared, packetSend)
  {
    var out: map<NodeId, Channel> := map[];
    var k := 0;
    while k < |declared|
      invariant k <= |declared|
      invariant forall j :: 0 <= j < k ==> declared[j] in packetSend
      invariant out == Outbound(declared[..k], packetSend)
    {
      if declared[k] !in packetSend {
        FirstMissingAt(declared, packetSend.Keys, k);
        return Err(MissingPacketSender(declared[k]));
      }
      OutboundStep(declared, packetSend, k);
      out := out[declared[k] := packetSend[declared[k]]];
      k := k + 1;
    }
    assert declared[..k] == declared;
    r := Ok(out);
  }

  /** One client as the client loop builds it: the packet senders of its
      declared neighbours are collected, then the constructor of kind `k` is
      called, which unwraps the client's command receiver and then its packet
      receiver. */
  method BuildClient(c: ClientConfig, k: ClientKind, t: Tables) returns (r: Result<Node>)
    ensures ClientCheck(c, k, t).Some? ==> r == Err(ClientCheck(c, k, t).value)
    ensures ClientCheck(c, k, t).None? ==> r.Ok? && ClientWired(r.value, c, k, t)
  {
    var senders := CollectSenders(c.connectedDroneIds, t.packetSend);
    if senders.Err? {
      return Err(senders.error);
    }
    var commandRecv := ClientTables(t, k).recv;
    if c.id !in commandRecv {
      return Err(MissingCommandReceiver(c.id));
    }
    if c.id !in t.packetRecv {
      return Err(MissingPacketReceiver(c.id));
    }
    r := Ok(Node(c.id, Client(k), ClientEvents(k), commandRecv[c.id], t.packetRecv[c.id], senders.value));
  }

  /** One server as the server loop builds it: the packet senders of its
      declared neighbours are collected, then the constructor of kind `k` is
      called, which unwraps the server's packet receiver and then its command
      receiver. */
  method BuildServer(s: ServerConfig, k: ServerKind, t: Tables) returns (r: Result<Node>)
    ensures ServerCheck(s, k, t).Some? ==> r == Err(ServerCheck(s, k, t).value)
    ensures ServerCheck(s, k, t).None? ==> r.Ok? && ServerWired(r.value, s, k, t)
  {
    var senders := CollectSenders(s.connectedDroneIds, t.packetSend);
    if senders.Err? {
      return Err(senders.error);
    }
    if s.id !in t.packetRecv {
      return Err(MissingPacketReceiver(s.id));
    }
    var commandRecv := ServerTables(t, k).recv;
    if s.id !in commandRecv {
      return Err(MissingCommandReceiver(s.id));
    }
    r := Ok(Node(s.id, Server(k), ServerEvents(k), commandRecv[s.id], t.packetRecv[s.id], senders.value));
  }

  /** Build every client: the first half (rounded down) as chat clients, the
      rest as media clients, adding each to the neighbour map. The first
      failing check, in declaration order, aborts. */
  method CreateClients(cs: seq<ClientConfig>, t: Tables, neighbours0: map<NodeId, seq<NodeId>>)
    returns (r: Result<ClientBuild>)
    ensures ClientAbortFrom(cs, t, 0).Some? ==> r == Err(ClientAbortFrom(cs, t, 0).value)
    ensures ClientAbortFrom(cs, t, 0).None? ==> r.Ok? && ClientsBuilt(r.value, cs, t, neighbours0)
  {
    var n := |cs|;
    ghost var ids, adjacency := ClientIds(cs), ClientAdjacency(cs);
    var chat: seq<Node> := [];
    var media: seq<Node> := [];
    var neighbours := neighbours0;
    var half := n / 2;
    var count := 0;
    var i := 0;
    while i < n
      invariant i <= n && count == i && half == n / 2
      invariant ClientAbortFrom(cs, t, 0) == ClientAbortFrom(cs, t, i)
      invariant ClientsSoFar(chat, media, cs, t, i)
      invariant neighbours == Extended(neighbours0, ids, adjacency, i)
    {
      var c := cs[i];
      if count < half {
        assert ClientKindAt(n, i) == ChatClient;
        var client := BuildClient(c, ChatClient, t);
        if client.Err? {
          return Err(client.error);
        }
        ClientsSoFarStep(chat, media, cs, t, i, client.value);
        chat := chat + [client.value];
      } else {
        assert ClientKindAt(n, i) == MediaClient;
        var client := BuildClient(c, MediaClient, t);
        if client.Err? {
          return Err(client.error);
        }
        ClientsSoFarStep(chat, media, cs, t, i, client.value);
        media := media + [client.value];
      }
      ExtendedStep(neighbours0, ids, adjacency, i);
      neighbours := neighbours[c.id := c.connectedDroneIds];
      count := count + 1;
      i := i + 1;
    }
    ExtendedComplete(neighbours0, ids, adjacency);
    r := Ok(ClientBuild(chat, media, neighbours));
    ClientsSoFarComplete(r.value, cs, t, neighbours0);
  }

  /** Build every server: with a counter running down from the number of
      servers, the first kind the counter selects is text content, then media
      content, then communication, adding each server to the neighbour map.
      The first failing check, in declaration order, aborts. */
  method CreateServers(ss: seq<ServerConfig>, t: Tables, neighbours0: map<NodeId, seq<NodeId>>)
    returns (r: Result<ServerBuild>)
    ensures ServerAbortFrom(ss, t, 0).Some? ==> r == Err(ServerAbortFrom(ss, t, 0).value)
    ensures ServerAbortFrom(ss, t, 0).None? ==> r.Ok? && ServersBuilt(r.value, ss, t, neighbours0)
  {
    var n := |ss|;
    ghost var ids, adjacency := ServerIds(ss), ServerAdjacency(ss);
    var text: seq<Node> := [];
    var media: seq<Node> := [];
    var communication: seq<Node> := [];
    var neighbours := neighbours0;
    var third := n / 3;
    var count := n;
    var i := 0;
    while i < n
      invariant i <= n && count == n - i && third == n / 3
      invariant ServerAbortFrom(ss, t, 0) == ServerAbortFrom(ss, t, i)
      invariant ServersSoFar(text, media, communication, ss, t, i)
      invariant neighbours == Extended(neighbours0, ids, adjacency, i)
    {
      var s := ss[i];
      if count > third * 2 {
        assert ServerKindAt(n, i) == TextServer;
        var server := BuildServer(s, TextServer, t);
        if server.Err? {
          return Err(server.error);
        }
        TextServerStep(text, media, communication, ss, t, i, server.value);
        text := text + [server.value];
      } else if count > third {
        assert ServerKindAt(n, i) == MediaServer;
        var server := BuildServer(s, MediaServer, t);
        if server.Err? {
          return Err(server.error);
        }
        MediaServerStep(text, media, communication, ss, t, i, server.value);
        media := media + [server.value];
      } else {
        assert ServerKindAt(n, i) == CommunicationServer;
        var server := BuildServer(s, CommunicationServer, t);
        if server.Err? {
          return Err(server.error);
        }
        CommunicationServerStep(text, media, communication, ss, t, i, server.value);
        communication := communication + [server.value];
      }
      ExtendedStep(neighbours0, ids, adjacency, i);
      neighbours := neighbours[s.id := s.connectedDroneIds];
      count := count - 1;
      i := i + 1;
    }
    ExtendedComplete(neighbours0, ids, adjacency);
    r := Ok(ServerBuild(text, media, communication, neighbours));
    ServersSoFarComplete(r.value, ss, t, neighbours0);
  }
}
