/** The wiring stage of the initializer's `run` as one operation: fill the
    channel tables, build the drones, the clients and the servers, and fill
    the neighbour map, stopping at the first panic. Once the tables come
    from the filling loops, only two of the panics the construction loops
    contain can actually happen: a drone beyond the registered factories,
    and a client or server that declares a neighbour id no record of the
    topology carries. */
module NetworkInitializer {
  import opened Topology
  import opened Maps
  import opened Channels
  import opened Partition
  import opened Nodes
  import opened Wiring
  import opened Construction

  /** Everything the wiring stage hands on to the controller and to the
      threads it spawns. */
  datatype Network = Network(
    tables: Tables,
    drones: seq<Node>,
    directory: map<NodeId, (Channel, Channel)>,
    chatClients: seq<Node>,
    mediaClients: seq<Node>,
    textServers: seq<Node>,
    mediaServers: seq<Node>,
    communicationServers: seq<Node>,
    neighbours: map<NodeId, seq<NodeId>>)

  function DroneNeighbourTable(cfg: Config): map<NodeId, seq<NodeId>> {
    Filled(DroneIds(cfg.drones), Everyone(|cfg.drones|), DroneAdjacency(cfg.drones))
  }

  function ClientNeighbourTable(cfg: Config): map<NodeId, seq<NodeId>> {
    Filled(ClientIds(cfg.clients), Everyone(|cfg.clients|), ClientAdjacency(cfg.clients))
  }

  /** The network a wiring stage that does not panic leaves behind: the tables
      of the filling loops, every drone, client and server built from them in
      its category and in declaration order, and the neighbour map filled
      with the drones, then the clients, then the servers. */
  predicate NetworkBuilt(net: Network, cfg: Config) {
    var t := WiredTables(cfg);
    var droneNb := DroneNeighbourTable(cfg);
    var clientNb := droneNb + ClientNeighbourTable(cfg);
    && net.tables == t
    && DronesBuilt(DroneBuild(net.drones, net.directory), cfg.drones, t)
    && ClientsBuilt(ClientBuild(net.chatClients, net.mediaClients, clientNb), cfg.clients, t, droneNb)
    && ServersBuilt(ServerBuild(net.textServers, net.mediaServers, net.communicationServers, net.neighbours), cfg.servers, t, clientNb)
  }

  /** The wiring stage of `run`: the filling loops, the drone loop, the drone
      part of the neighbour map, the client loop and the server loop, in that
      order. With more drones than registered factories it panics at the
      first drone without one; otherwise it panics at the first neighbour id,
      clients before servers and each list in declaration order, that no
      record of the topology carries; otherwise it builds the network. */
  method Wire(cfg: Config) returns (r: Result<Network>)
    ensures |cfg.drones| > |Factories| ==> r == Err(NoFactoryDefined(cfg.drones[|Factories|].id))
    ensures |cfg.drones| <= |Factories| && FirstMissing(EdgeEndpoints(cfg), AllIds(cfg)).Some? ==>
              r == Err(MissingPacketSender(FirstMissing(EdgeEndpoints(cfg), AllIds(cfg)).value))
    ensures |cfg.drones| <= |Factories| && FirstMissing(EdgeEndpoints(cfg), AllIds(cfg)).None? ==>
              r.Ok? && NetworkBuilt(r.value, cfg)
  {
    var t := FillChannels(cfg);
    WireAborts(cfg);
    var drones := CreateDrones(cfg.drones, t);
    if drones.Err? {
      return Err(drones.error);
    }
    var neighbours := DroneNeighbours(cfg.drones);
    var clients := CreateClients(cfg.clients, t, neighbours);
    if clients.Err? {
      return Err(clients.error);
    }
    var servers := CreateServers(cfg.servers, t, clients.value.neighbours);
    if servers.Err? {
      return Err(servers.error);
    }
    r := Ok(Network(
      t, drones.value.drones, drones.value.directory,
      clients.value.chat, clients.value.media,
      servers.value.text, servers.value.media, servers.value.communication,
      servers.value.neighbours));
  }

  // ---------------------------------------------------------------------
  // Which panics can happen once the tables come from the filling loops

  /** The packet tables hold an entry for every id of the topology, and only
      for those. */
  lemma PacketTableKeys(cfg: Config)
    ensures PacketTable(cfg).Keys == AllIds(cfg)
  {
    AllocationSpec(Packet, Drones, DroneIds(cfg.drones), Everyone(|cfg.drones|));
    AllocationSpec(Packet, Servers, ServerIds(cfg.servers), Everyone(|cfg.servers|));
    AllocationSpec(Packet, Clients, ClientIds(cfg.clients), Everyone(|cfg.clients|));
    DroneIdsSelected(cfg.drones);
    ServerIdsSelected(cfg.servers);
    ClientIdsSelected(cfg.clients);
  }

  /** The drone command tables hold an entry for every drone id. */
  lemma DroneCommandKeys(ds: seq<DroneConfig>)
    ensures DroneCommands(ds).Keys == set k | 0 <= k < |ds| :: ds[k].id
  {
    AllocationSpec(DroneCommand, Drones, DroneIds(ds), Everyone(|ds|));
    DroneIdsSelected(ds);
  }

  lemma DroneIdsSelected(ds: seq<DroneConfig>)
    ensures Selected(DroneIds(ds), Everyone(|ds|)) == set k | 0 <= k < |ds| :: ds[k].id
  {
    assert forall k :: 0 <= k < |ds| ==> DroneIds(ds)[k] == ds[k].id;
  }

  lemma ServerIdsSelected(ss: seq<ServerConfig>)
    ensures Selected(ServerIds(ss), Everyone(|ss|)) == set k | 0 <= k < |ss| :: ss[k].id
  {
    assert forall k :: 0 <= k < |ss| ==> ServerIds(ss)[k] == ss[k].id;
  }

  lemma ClientIdsSelected(cs: seq<ClientConfig>)
    ensures Selected(ClientIds(cs), Everyone(|cs|)) == set k | 0 <= k < |cs| :: cs[k].id
  {
    assert forall k :: 0 <= k < |cs| ==> ClientIds(cs)[k] == cs[k].id;
  }

  /** Every server's id is in the command-receiver table of the kind the
      server loop builds it as: both loops apply the same partition rule. */
  lemma ServerHasCommandReceiver(ss: seq<ServerConfig>, i: nat)
    requires i < |ss|
    ensures ss[i].id in ServerCommands(ss, ServerKindAt(|ss|, i))
  {
    var k := ServerKindAt(|ss|, i);
    AllocationSpec(ServerFamily(k), Servers, ServerIds(ss), KindMask(ServerKinds(|ss|), k));
    assert ServerIds(ss)[i] == ss[i].id && KindMask(ServerKinds(|ss|), k)[i];
  }

  /** Every client's id is in the command-receiver table of the kind the
      client loop builds it as. */
  lemma ClientHasCommandReceiver(cs: seq<ClientConfig>, i: nat)
    requires i < |cs|
    ensures cs[i].id in ClientCommands(cs, ClientKindAt(|cs|, i))
  {
    var k := ClientKindAt(|cs|, i);
    AllocationSpec(ClientFamily(k), Clients, ClientIds(cs), KindMask(ClientKinds(|cs|), k));
    assert ClientIds(cs)[i] == cs[i].id && KindMask(ClientKinds(|cs|), k)[i];
  }

  /** Over the filled tables, a drone with a registered factory passes
      every check of the drone loop. */
  lemma DroneChecks(cfg: Config, k: nat)
    requires k < |cfg.drones| && k < |Factories|
    ensures DroneCheck(k, cfg.drones[k], WiredTables(cfg)) == None
  {
    PacketTableKeys(cfg);
    DroneCommandKeys(cfg.drones);
    assert cfg.drones[k].id in AllIds(cfg);
  }

  /** Over the filled tables, a client fails only the lookup of a declared
      neighbour that no record of the topology carries. */
  lemma ClientChecks(cfg: Config, i: nat)
    requires i < |cfg.clients|
    ensures ClientCheck(cfg.clients[i], ClientKindAt(|cfg.clients|, i), WiredTables(cfg))
         == MissingSender(FirstMissing(cfg.clients[i].connectedDroneIds, AllIds(cfg)))
  {
    PacketTableKeys(cfg);
    ClientHasCommandReceiver(cfg.clients, i);
    assert cfg.clients[i].id in AllIds(cfg);
  }

  /** The same for a server. */
  lemma ServerChecks(cfg: Config, i: nat)
    requires i < |cfg.servers|
    ensures ServerCheck(cfg.servers[i], ServerKindAt(|cfg.servers|, i), WiredTables(cfg))
         == MissingSender(FirstMissing(cfg.servers[i].connectedDroneIds, AllIds(cfg)))
  {
    PacketTableKeys(cfg);
    ServerHasCommandReceiver(cfg.servers, i);
    assert cfg.servers[i].id in AllIds(cfg);
  }

  /** Over the filled tables, the drone loop from position `k` on panics
      only at the first drone without a registered factory. */
  lemma {:induction false} DroneAborts(cfg: Config, k: nat)
    requires k <= |cfg.drones| && k <= |Factories|
    ensures DroneAbortFrom(cfg.drones, WiredTables(cfg), k)
         == if |cfg.drones| > |Factories| then Some(NoFactoryDefined(cfg.drones[|Factories|].id)) else None
    decreases |cfg.drones| - k
  {
    if k < |cfg.drones| && k < |Factories| {
      DroneChecks(cfg, k);
      DroneAborts(cfg, k + 1);
    }
  }

  /** Splitting off the first of the remaining neighbour lists. */
  lemma FlattenFrom(lists: seq<seq<NodeId>>, i: nat)
    requires i < |lists|
    ensures Flatten(lists[i..]) == lists[i] + Flatten(lists[i + 1..])
  {
    assert lists[i..][1..] == lists[i + 1..];
  }

  /** Over the filled tables, the client loop from position `i` on panics
      only at the first declared neighbour, in declaration order, that no
      record of the topology carries. */
  lemma {:induction false} ClientAborts(cfg: Config, i: nat)
    requires i <= |cfg.clients|
    ensures ClientAbortFrom(cfg.clients, WiredTables(cfg), i)
         == MissingSender(FirstMissing(Flatten(ClientAdjacency(cfg.clients)[i..]), AllIds(cfg)))
    decreases |cfg.clients| - i
  {
    var adjacency := ClientAdjacency(cfg.clients);
    if i == |cfg.clients| {
      assert adjacency[i..] == [];
    } else {
      FlattenFrom(adjacency, i);
      FirstMissingAppend(adjacency[i], Flatten(adjacency[i + 1..]), AllIds(cfg));
      ClientChecks(cfg, i);
      ClientAborts(cfg, i + 1);
    }
  }

  /** The same for the server loop. */
  lemma {:induction false} ServerAborts(cfg: Config, i: nat)
    requires i <= |cfg.servers|
    ensures ServerAbortFrom(cfg.servers, WiredTables(cfg), i)
         == MissingSender(FirstMissing(Flatten(ServerAdjacency(cfg.servers)[i..]), AllIds(cfg)))
    decreases |cfg.servers| - i
  {
    var adjacency := ServerAdjacency(cfg.servers);
    if i == |cfg.servers| {
      assert adjacency[i..] == [];
    } else {
      FlattenFrom(adjacency, i);
      FirstMissingAppend(adjacency[i], Flatten(adjacency[i + 1..]), AllIds(cfg));
      ServerChecks(cfg, i);
      ServerAborts(cfg, i + 1);
    }
  }

  /** The panics of the three construction loops, taken together, in terms
      of the topology alone. */
  lemma WireAborts(cfg: Config)
    ensures DroneAbortFrom(cfg.drones, WiredTables(cfg), 0)
         == if |cfg.drones| > |Factories| then Some(NoFactoryDefined(cfg.drones[|Factories|].id)) else None
    ensures (if ClientAbortFrom(cfg.clients, WiredTables(cfg), 0).Some? then ClientAbortFrom(cfg.clients, WiredTables(cfg), 0)
             else ServerAbortFrom(cfg.servers, WiredTables(cfg), 0))
         == MissingSender(FirstMissing(EdgeEndpoints(cfg), AllIds(cfg)))
  {
    DroneAborts(cfg, 0);
    ClientAborts(cfg, 0);
    ServerAborts(cfg, 0);
    var ca, sa := ClientAdjacency(cfg.clients), ServerAdjacency(cfg.servers);
    assert ca[0..] == ca && sa[0..] == sa;
    FirstMissingAppend(Flatten(ca), Flatten(sa), AllIds(cfg));
  }
}
