/** What the wiring stage guarantees about the network it builds: which node
    holds which channel end, the key sets of the tables and of the neighbour
    map, and, when no two records share an id, that every node listens on the
    channels created for it and that the controller reaches every node. */
module Connectivity {
  import opened Topology
  import opened Maps
  import opened Channels
  import opened Partition
  import opened Nodes
  import opened Wiring
  import opened Construction
  import opened NetworkInitializer

  /** The clients in declaration order: the chat clients are the first half. */
  function ClientNodes(net: Network): seq<Node> {
    net.chatClients + net.mediaClients
  }

  /** The servers in declaration order: text, then media, then communication. */
  function ServerNodes(net: Network): seq<Node> {
    net.textServers + net.mediaServers + net.communicationServers
  }

  function AllNodes(net: Network): seq<Node> {
    net.drones + ClientNodes(net) + ServerNodes(net)
  }

  // ---------------------------------------------------------------------
  // Tables

  /** The command-receiver table of a server kind holds exactly the ids of the
      servers the partition rule gives that kind. */
  lemma ServerCommandKeys(ss: seq<ServerConfig>, k: ServerKind)
    ensures ServerCommands(ss, k).Keys == set i | 0 <= i < |ss| && ServerKindAt(|ss|, i) == k :: ss[i].id
  {
    AllocationSpec(ServerFamily(k), Servers, ServerIds(ss), KindMask(ServerKinds(|ss|), k));
    assert forall i :: 0 <= i < |ss| ==> ServerIds(ss)[i] == ss[i].id;
  }

  /** The command-receiver table of a client kind holds exactly the ids of the
      clients the partition rule gives that kind. */
  lemma ClientCommandKeys(cs: seq<ClientConfig>, k: ClientKind)
    ensures ClientCommands(cs, k).Keys == set i | 0 <= i < |cs| && ClientKindAt(|cs|, i) == k :: cs[i].id
  {
    AllocationSpec(ClientFamily(k), Clients, ClientIds(cs), KindMask(ClientKinds(|cs|), k));
    assert forall i :: 0 <= i < |cs| ==> ClientIds(cs)[i] == cs[i].id;
  }

  /** The neighbour map holds an entry for every id of the topology. */
  lemma NeighbourTableKeys(cfg: Config)
    ensures NeighbourTable(cfg).Keys == AllIds(cfg)
  {
    FilledSpec(DroneIds(cfg.drones), Everyone(|cfg.drones|), DroneAdjacency(cfg.drones));
    FilledSpec(ClientIds(cfg.clients), Everyone(|cfg.clients|), ClientAdjacency(cfg.clients));
    FilledSpec(ServerIds(cfg.servers), Everyone(|cfg.servers|), ServerAdjacency(cfg.servers));
    DroneIdsSelected(cfg.drones);
    ClientIdsSelected(cfg.clients);
    ServerIdsSelected(cfg.servers);
  }

  // ---------------------------------------------------------------------
  // Unique ids

  /** No two records share an id: within each category, and across them. */
  lemma DistinctIdsApart(cfg: Config)
    requires DistinctIds(cfg)
    ensures Unique(DroneIds(cfg.drones)) && Unique(ServerIds(cfg.servers)) && Unique(ClientIds(cfg.clients))
    ensures forall a, b :: 0 <= a < |cfg.drones| && 0 <= b < |cfg.servers| ==> cfg.drones[a].id != cfg.servers[b].id
    ensures forall a, b :: 0 <= a < |cfg.drones| && 0 <= b < |cfg.clients| ==> cfg.drones[a].id != cfg.clients[b].id
    ensures forall a, b :: 0 <= a < |cfg.servers| && 0 <= b < |cfg.clients| ==> cfg.servers[a].id != cfg.clients[b].id
  {
    var d, s, c := DroneIds(cfg.drones), ServerIds(cfg.servers), ClientIds(cfg.clients);
    var ids := d + s + c;
    assert forall a :: 0 <= a < |d| ==> ids[a] == d[a];
    assert forall a :: 0 <= a < |s| ==> ids[|d| + a] == s[a];
    assert forall a :: 0 <= a < |c| ==> ids[|d| + |s| + a] == c[a];
    forall a, b | 0 <= a < |d| && 0 <= b < |s|
      ensures cfg.drones[a].id != cfg.servers[b].id
    {
      assert ids[a] == d[a] && ids[|d| + b] == s[b];
    }
    forall a, b | 0 <= a < |d| && 0 <= b < |c|
      ensures cfg.drones[a].id != cfg.clients[b].id
    {
      assert ids[a] == d[a] && ids[|d| + |s| + b] == c[b];
    }
    forall a, b | 0 <= a < |s| && 0 <= b < |c|
      ensures cfg.servers[a].id != cfg.clients[b].id
    {
      assert ids[|d| + a] == s[a] && ids[|d| + |s| + b] == c[b];
    }
  }

  /** With unique ids, the packet channel and the command channel a drone
      receives on are the ones created in that drone's own iteration. */
  lemma DroneOwnChannels(cfg: Config, k: nat)
    requires DistinctIds(cfg) && k < |cfg.drones|
    ensures var x := cfg.drones[k].id;
            && x in PacketTable(cfg) && PacketTable(cfg)[x] == Channel(Packet, x, Drones, k)
            && x in DroneCommands(cfg.drones) && DroneCommands(cfg.drones)[x] == Channel(DroneCommand, x, Drones, k)
  {
    var ds := cfg.drones;
    DistinctIdsApart(cfg);
    FilledAt(DroneIds(ds), Everyone(|ds|), Created(Packet, Drones, DroneIds(ds)), k);
    FilledAt(DroneIds(ds), Everyone(|ds|), Created(DroneCommand, Drones, DroneIds(ds)), k);
    PacketKeys(cfg);
  }

  /** With unique ids, a client's packet channel and command channel are the
      ones created in that client's own iteration, the command channel being
      of the kind the partition rule gives it. */
  lemma ClientOwnChannels(cfg: Config, i: nat)
    requires DistinctIds(cfg) && i < |cfg.clients|
    ensures var x, k := cfg.clients[i].id, ClientKindAt(|cfg.clients|, i);
            && x in PacketTable(cfg) && PacketTable(cfg)[x] == Channel(Packet, x, Clients, i)
            && x in ClientCommands(cfg.clients, k)
            && ClientCommands(cfg.clients, k)[x] == Channel(ClientFamily(k), x, Clients, i)
  {
    var cs, k := cfg.clients, ClientKindAt(|cfg.clients|, i);
    DistinctIdsApart(cfg);
    FilledAt(ClientIds(cs), Everyone(|cs|), Created(Packet, Clients, ClientIds(cs)), i);
    FilledAt(ClientIds(cs), KindMask(ClientKinds(|cs|), k), Created(ClientFamily(k), Clients, ClientIds(cs)), i);
  }

  /** The same for a server. */
  lemma ServerOwnChannels(cfg: Config, i: nat)
    requires DistinctIds(cfg) && i < |cfg.servers|
    ensures var x, k := cfg.servers[i].id, ServerKindAt(|cfg.servers|, i);
            && x in PacketTable(cfg) && PacketTable(cfg)[x] == Channel(Packet, x, Servers, i)
            && x in ServerCommands(cfg.servers, k)
            && ServerCommands(cfg.servers, k)[x] == Channel(ServerFamily(k), x, Servers, i)
  {
    var ss, k := cfg.servers, ServerKindAt(|cfg.servers|, i);
    DistinctIdsApart(cfg);
    FilledAt(ServerIds(ss), Everyone(|ss|), Created(Packet, Servers, ServerIds(ss)), i);
    FilledAt(ServerIds(ss), KindMask(ServerKinds(|ss|), k), Created(ServerFamily(k), Servers, ServerIds(ss)), i);
    PacketKeys(cfg);
  }

  /** The key sets of the three parts of the packet table. */
  lemma PacketKeys(cfg: Config)
    ensures ServerPackets(cfg.servers).Keys == set k | 0 <= k < |cfg.servers| :: cfg.servers[k].id
    ensures ClientPackets(cfg.clients).Keys == set k | 0 <= k < |cfg.clients| :: cfg.clients[k].id
  {
    AllocationSpec(Packet, Servers, ServerIds(cfg.servers), Everyone(|cfg.servers|));
    AllocationSpec(Packet, Clients, ClientIds(cfg.clients), Everyone(|cfg.clients|));
    ServerIdsSelected(cfg.servers);
    ClientIdsSelected(cfg.clients);
  }

  /** With unique ids, the neighbour map holds every record's own declared
      adjacency list. */
  lemma NeighbourTableValues(cfg: Config)
    requires DistinctIds(cfg)
    ensures forall k :: 0 <= k < |cfg.drones| ==>
              cfg.drones[k].id in NeighbourTable(cfg) && NeighbourTable(cfg)[cfg.drones[k].id] == cfg.drones[k].connectedNodeIds
    ensures forall i :: 0 <= i < |cfg.clients| ==>
              cfg.clients[i].id in NeighbourTable(cfg) && NeighbourTable(cfg)[cfg.clients[i].id] == cfg.clients[i].connectedDroneIds
    ensures forall i :: 0 <= i < |cfg.servers| ==>
              cfg.servers[i].id in NeighbourTable(cfg) && NeighbourTable(cfg)[cfg.servers[i].id] == cfg.servers[i].connectedDroneIds
  {
    var ds, cs, ss := cfg.drones, cfg.clients, cfg.servers;
    DistinctIdsApart(cfg);
    FilledSpec(ClientIds(cs), Everyone(|cs|), ClientAdjacency(cs));
    FilledSpec(ServerIds(ss), Everyone(|ss|), ServerAdjacency(ss));
    ClientIdsSelected(cs);
    ServerIdsSelected(ss);
    forall k | 0 <= k < |ds|
      ensures ds[k].id in NeighbourTable(cfg) && NeighbourTable(cfg)[ds[k].id] == ds[k].connectedNodeIds
    {
      FilledAt(DroneIds(ds), Everyone(|ds|), DroneAdjacency(ds), k);
    }
    forall i | 0 <= i < |cs|
      ensures cs[i].id in NeighbourTable(cfg) && NeighbourTable(cfg)[cs[i].id] == cs[i].connectedDroneIds
    {
      FilledAt(ClientIds(cs), Everyone(|cs|), ClientAdjacency(cs), i);
    }
    forall i | 0 <= i < |ss|
      ensures ss[i].id in NeighbourTable(cfg) && NeighbourTable(cfg)[ss[i].id] == ss[i].connectedDroneIds
    {
      FilledAt(ServerIds(ss), Everyone(|ss|), ServerAdjacency(ss), i);
    }
  }

  // ---------------------------------------------------------------------
  // The node lists a construction loop builds, over any tables

  /** The client loop builds client `i` as the kind the partition rule gives
      position `i`. */
  lemma ClientsInOrder(b: ClientBuild, cs: seq<ClientConfig>, t: Tables, neighbours0: map<NodeId, seq<NodeId>>)
    requires ClientsBuilt(b, cs, t, neighbours0)
    ensures |b.chat + b.media| == |cs|
    ensures forall i :: 0 <= i < |cs| ==> ClientWired((b.chat + b.media)[i], cs[i], ClientKindAt(|cs|, i), t)
  {
    var half := |cs| / 2;
    forall i | 0 <= i < |cs|
      ensures ClientWired((b.chat + b.media)[i], cs[i], ClientKindAt(|cs|, i), t)
    {
      if i >= half {
        assert (b.chat + b.media)[i] == b.media[i - half];
        assert cs[half + (i - half)] == cs[i];
      }
    }
  }

  /** The server loop builds server `i` as the kind the partition rule gives
      position `i`. */
  lemma ServersInOrder(b: ServerBuild, ss: seq<ServerConfig>, t: Tables, neighbours0: map<NodeId, seq<NodeId>>)
    requires ServersBuilt(b, ss, t, neighbours0)
    ensures |b.text + b.media + b.communication| == |ss|
    ensures forall i :: 0 <= i < |ss| ==>
              ServerWired((b.text + b.media + b.communication)[i], ss[i], ServerKindAt(|ss|, i), t)
  {
    var nodes := b.text + b.media + b.communication;
    var third := |ss| / 3;
    var texts := |ss| - 2 * third;
    forall i | 0 <= i < |ss|
      ensures ServerWired(nodes[i], ss[i], ServerKindAt(|ss|, i), t)
    {
      if i < texts {
        assert nodes[i] == b.text[i];
      } else if i < texts + third {
        assert nodes[i] == b.media[i - texts];
        assert ss[texts + (i - texts)] == ss[i];
      } else {
        assert nodes[i] == b.communication[i - texts - third];
        assert ss[texts + third + (i - texts - third)] == ss[i];
      }
    }
  }

  /** A node receives on the packet-table entry for its own id and sends only
      on packet-table entries. */
  predicate OnPacketTable(n: Node, table: map<NodeId, Channel>) {
    && n.id in table && n.packetRecv == table[n.id]
    && forall y :: y in n.packetSend ==> y in table && n.packetSend[y] == table[y]
  }

  /** The nodes of a network each built by the loop of its category. */
  predicate NodesWired(net: Network, cfg: Config, t: Tables) {
    && |net.drones| == |cfg.drones|
    && |ClientNodes(net)| == |cfg.clients|
    && |ServerNodes(net)| == |cfg.servers|
    && (forall k :: 0 <= k < |cfg.drones| ==> DroneWired(net.drones[k], k, cfg.drones[k], t))
    && (forall i :: 0 <= i < |cfg.clients| ==>
          ClientWired(ClientNodes(net)[i], cfg.clients[i], ClientKindAt(|cfg.clients|, i), t))
    && (forall i :: 0 <= i < |cfg.servers| ==>
          ServerWired(ServerNodes(net)[i], cfg.servers[i], ServerKindAt(|cfg.servers|, i), t))
  }

  /** A node built from a packet table takes its packet channel ends from it. */
  lemma WiredOn(
    n: Node, id: NodeId, role: Role, events: EventStream,
    commandRecv: map<NodeId, Channel>, table: map<NodeId, Channel>, declared: seq<NodeId>)
    requires Wired(n, id, role, events, commandRecv, table, table, declared)
    ensures OnPacketTable(n, table)
  {
  }

  /** Every node of the list takes its packet channel ends from `table`. */
  predicate ListOn(nodes: seq<Node>, table: map<NodeId, Channel>) {
    forall j :: 0 <= j < |nodes| ==> OnPacketTable(nodes[j], table)
  }

  lemma ListOnConcat(a: seq<Node>, b: seq<Node>, table: map<NodeId, Channel>)
    requires ListOn(a, table) && ListOn(b, table)
    ensures ListOn(a + b, table)
  {
    forall j | 0 <= j < |a + b|
      ensures OnPacketTable((a + b)[j], table)
    {
      if j >= |a| {
        assert (a + b)[j] == b[j - |a|];
      }
    }
  }

  lemma DronesOn(net: Network, cfg: Config, t: Tables)
    requires NodesWired(net, cfg, t) && t.packetSend == t.packetRecv
    ensures ListOn(net.drones, t.packetRecv)
  {
    var ds := cfg.drones;
    forall k | 0 <= k < |ds|
      ensures OnPacketTable(net.drones[k], t.packetRecv)
    {
      WiredOn(net.drones[k], ds[k].id, Drone(Factories[k], ds[k].pdr), DroneEvents,
              t.droneCommandRecv, t.packetRecv, ds[k].connectedNodeIds);
    }
  }

  lemma ClientsOn(net: Network, cfg: Config, t: Tables)
    requires NodesWired(net, cfg, t) && t.packetSend == t.packetRecv
    ensures ListOn(ClientNodes(net), t.packetRecv)
  {
    var cs := cfg.clients;
    forall i | 0 <= i < |cs|
      ensures OnPacketTable(ClientNodes(net)[i], t.packetRecv)
    {
      var k := ClientKindAt(|cs|, i);
      WiredOn(ClientNodes(net)[i], cs[i].id, Client(k), ClientEvents(k),
              ClientTables(t, k).recv, t.packetRecv, cs[i].connectedDroneIds);
    }
  }

  lemma ServersOn(net: Network, cfg: Config, t: Tables)
    requires NodesWired(net, cfg, t) && t.packetSend == t.packetRecv
    ensures ListOn(ServerNodes(net), t.packetRecv)
  {
    var ss := cfg.servers;
    forall i | 0 <= i < |ss|
      ensures OnPacketTable(ServerNodes(net)[i], t.packetRecv)
    {
      var k := ServerKindAt(|ss|, i);
      WiredOn(ServerNodes(net)[i], ss[i].id, Server(k), ServerEvents(k),
              ServerTables(t, k).recv, t.packetRecv, ss[i].connectedDroneIds);
    }
  }

  /** Nodes built from tables whose two packet tables agree take all their
      packet channel ends from that one table. */
  lemma WiredOnPacketTable(net: Network, cfg: Config, t: Tables)
    requires NodesWired(net, cfg, t) && t.packetSend == t.packetRecv
    ensures forall n :: n in AllNodes(net) ==> OnPacketTable(n, t.packetRecv)
  {
    DronesOn(net, cfg, t);
    ClientsOn(net, cfg, t);
    ServersOn(net, cfg, t);
    ListOnConcat(net.drones, ClientNodes(net), t.packetRecv);
    ListOnConcat(net.drones + ClientNodes(net), ServerNodes(net), t.packetRecv);
  }

  // ---------------------------------------------------------------------
  // The network a wiring stage that does not panic builds

  /** Each node was built by the loop of its category, from the filled
      tables, and every client and server as the kind the partition rule
      gives its position: the rule the filling loops used for its command
      channel. */
  lemma BuiltNodesWired(net: Network, cfg: Config)
    requires NetworkBuilt(net, cfg)
    ensures NodesWired(net, cfg, WiredTables(cfg))
  {
    var droneNb := DroneNeighbourTable(cfg);
    var clientNb := droneNb + ClientNeighbourTable(cfg);
    ClientsInOrder(ClientBuild(net.chatClients, net.mediaClients, clientNb), cfg.clients, WiredTables(cfg), droneNb);
    ServersInOrder(ServerBuild(net.textServers, net.mediaServers, net.communicationServers, net.neighbours),
                   cfg.servers, WiredTables(cfg), clientNb);
  }

  /** Whenever a node holds a sender for the id of another node, that sender
      is the other node's packet receiver: a packet sent to a neighbour
      arrives where that neighbour listens. */
  lemma SendersReachReceivers(net: Network, cfg: Config)
    requires NetworkBuilt(net, cfg)
    ensures forall a, b :: a in AllNodes(net) && b in AllNodes(net) && b.id in a.packetSend ==>
              a.packetSend[b.id] == b.packetRecv
  {
    BuiltNodesWired(net, cfg);
    WiredOnPacketTable(net, cfg, WiredTables(cfg));
  }
  /** A drone holds senders for exactly those declared neighbours that some
      record of the topology carries; an unknown neighbour is dropped without
      a panic. */
  lemma DroneOutbound(net: Network, cfg: Config)
    requires NetworkBuilt(net, cfg)
    ensures |net.drones| == |cfg.drones|
    ensures forall k, y :: 0 <= k < |net.drones| ==>
              (y in net.drones[k].packetSend <==> y in cfg.drones[k].connectedNodeIds && y in AllIds(cfg))
  {
    PacketTableKeys(cfg);
  }

  /** A neighbour list's entries all occur in the flattened lists. */
  lemma {:induction false} FlattenContains(lists: seq<seq<NodeId>>, j: nat, y: NodeId)
    requires j < |lists| && y in lists[j]
    ensures y in Flatten(lists)
    decreases j
  {
    if j > 0 {
      assert lists[1..][j - 1] == lists[j];
      FlattenContains(lists[1..], j - 1, y);
    }
  }

  /** Clients and servers whose declared neighbours all have a packet sender
      hold a sender for exactly their declared neighbours. */
  lemma DeclaredOutbound(net: Network, cfg: Config, t: Tables)
    requires NodesWired(net, cfg, t)
    requires forall i, y :: 0 <= i < |cfg.clients| && y in cfg.clients[i].connectedDroneIds ==> y in t.packetSend
    requires forall i, y :: 0 <= i < |cfg.servers| && y in cfg.servers[i].connectedDroneIds ==> y in t.packetSend
    ensures forall i, y :: 0 <= i < |cfg.clients| ==>
              (y in ClientNodes(net)[i].packetSend <==> y in cfg.clients[i].connectedDroneIds)
    ensures forall i, y :: 0 <= i < |cfg.servers| ==>
              (y in ServerNodes(net)[i].packetSend <==> y in cfg.servers[i].connectedDroneIds)
  {
  }

  /** When no neighbour lookup panics, every neighbour a client or a server
      declares is the id of some record of the topology. */
  lemma DeclaredKnown(cfg: Config)
    requires FirstMissing(EdgeEndpoints(cfg), AllIds(cfg)).None?
    ensures forall i, y :: 0 <= i < |cfg.clients| && y in cfg.clients[i].connectedDroneIds ==> y in AllIds(cfg)
    ensures forall i, y :: 0 <= i < |cfg.servers| && y in cfg.servers[i].connectedDroneIds ==> y in AllIds(cfg)
  {
    var ca, sa := ClientAdjacency(cfg.clients), ServerAdjacency(cfg.servers);
    forall i, y | 0 <= i < |cfg.clients| && y in cfg.clients[i].connectedDroneIds
      ensures y in AllIds(cfg)
    {
      assert ca[i] == cfg.clients[i].connectedDroneIds;
      FlattenContains(ca, i, y);
      assert y in EdgeEndpoints(cfg);
    }
    forall i, y | 0 <= i < |cfg.servers| && y in cfg.servers[i].connectedDroneIds
      ensures y in AllIds(cfg)
    {
      assert sa[i] == cfg.servers[i].connectedDroneIds;
      FlattenContains(sa, i, y);
      assert y in EdgeEndpoints(cfg);
    }
  }

  /** When no neighbour lookup panics, every client and every server holds a
      sender for exactly its declared neighbours. */
  lemma ClientServerOutbound(net: Network, cfg: Config)
    requires NetworkBuilt(net, cfg) && FirstMissing(EdgeEndpoints(cfg), AllIds(cfg)).None?
    ensures |ClientNodes(net)| == |cfg.clients| && |ServerNodes(net)| == |cfg.servers|
    ensures forall i, y :: 0 <= i < |cfg.clients| ==>
              (y in ClientNodes(net)[i].packetSend <==> y in cfg.clients[i].connectedDroneIds)
    ensures forall i, y :: 0 <= i < |cfg.servers| ==>
              (y in ServerNodes(net)[i].packetSend <==> y in cfg.servers[i].connectedDroneIds)
  {
    BuiltNodesWired(net, cfg);
    PacketTableKeys(cfg);
    DeclaredKnown(cfg);
    DeclaredOutbound(net, cfg, WiredTables(cfg));
  }

  /** A directory filled by the drone loop, from tables whose sender and
      receiver tables agree, pairs each drone's id with the senders of the
      channels that drone receives on. */
  lemma DirectoryPairs(b: DroneBuild, ds: seq<DroneConfig>, t: Tables)
    requires DronesBuilt(b, ds, t)
    requires t.droneCommandSend == t.droneCommandRecv && t.packetSend == t.packetRecv
    ensures b.directory.Keys == set k | 0 <= k < |b.drones| :: b.drones[k].id
    ensures forall n :: n in b.drones ==>
              n.id in b.directory && b.directory[n.id] == (n.commandRecv, n.packetRecv)
  {
    assert forall k :: 0 <= k < |b.drones| ==> b.drones[k].id == ds[k].id;
  }

  /** The controller's drone directory holds exactly the drone ids, and for
      each drone the command sender and packet sender of the channels that
      drone receives on. */
  lemma DirectoryReachesDrones(net: Network, cfg: Config)
    requires NetworkBuilt(net, cfg)
    ensures net.directory.Keys == set k | 0 <= k < |net.drones| :: net.drones[k].id
    ensures forall n :: n in net.drones ==>
              n.id in net.directory && net.directory[n.id] == (n.commandRecv, n.packetRecv)
  {
    DirectoryPairs(DroneBuild(net.drones, net.directory), cfg.drones, WiredTables(cfg));
  }

  /** The neighbour map handed to the controller holds an entry for every id
      of the topology. */
  lemma BuiltNeighbours(net: Network, cfg: Config)
    requires NetworkBuilt(net, cfg)
    ensures net.neighbours == NeighbourTable(cfg)
    ensures net.neighbours.Keys == AllIds(cfg)
  {
    NeighbourTableKeys(cfg);
  }

  /** Tables in which every record's receivers are the channels created in
      that record's own iteration of the filling loops. */
  predicate OwnTables(cfg: Config, t: Tables) {
    OwnDroneTables(cfg, t) && OwnClientTables(cfg, t) && OwnServerTables(cfg, t)
  }

  predicate OwnDroneTables(cfg: Config, t: Tables) {
    forall k :: 0 <= k < |cfg.drones| ==>
      var x := cfg.drones[k].id;
      && x in t.packetRecv && t.packetRecv[x] == Channel(Packet, x, Drones, k)
      && x in t.droneCommandRecv && t.droneCommandRecv[x] == Channel(DroneCommand, x, Drones, k)
  }

  predicate OwnClientTables(cfg: Config, t: Tables) {
    forall i :: 0 <= i < |cfg.clients| ==>
      var x, k := cfg.clients[i].id, ClientKindAt(|cfg.clients|, i);
      && x in t.packetRecv && t.packetRecv[x] == Channel(Packet, x, Clients, i)
      && x in ClientTables(t, k).recv && ClientTables(t, k).recv[x] == Channel(ClientFamily(k), x, Clients, i)
  }

  predicate OwnServerTables(cfg: Config, t: Tables) {
    forall i :: 0 <= i < |cfg.servers| ==>
      var x, k := cfg.servers[i].id, ServerKindAt(|cfg.servers|, i);
      && x in t.packetRecv && t.packetRecv[x] == Channel(Packet, x, Servers, i)
      && x in ServerTables(t, k).recv && ServerTables(t, k).recv[x] == Channel(ServerFamily(k), x, Servers, i)
  }

  /** With unique ids, the filled tables give every record the channels
      created in its own iteration. */
  lemma WiredTablesOwn(cfg: Config)
    requires DistinctIds(cfg)
    ensures OwnTables(cfg, WiredTables(cfg))
  {
    WiredDroneTablesOwn(cfg);
    WiredClientTablesOwn(cfg);
    WiredServerTablesOwn(cfg);
  }

  lemma WiredDroneTablesOwn(cfg: Config)
    requires DistinctIds(cfg)
    ensures OwnDroneTables(cfg, WiredTables(cfg))
  {
    forall k | 0 <= k < |cfg.drones| {
      DroneOwnChannels(cfg, k);
    }
  }

  lemma WiredClientTablesOwn(cfg: Config)
    requires DistinctIds(cfg)
    ensures OwnClientTables(cfg, WiredTables(cfg))
  {
    forall i | 0 <= i < |cfg.clients| {
      ClientOwnChannels(cfg, i);
    }
  }

  lemma WiredServerTablesOwn(cfg: Config)
    requires DistinctIds(cfg)
    ensures OwnServerTables(cfg, WiredTables(cfg))
  {
    var t := WiredTables(cfg);
    forall i | 0 <= i < |cfg.servers|
      ensures var x, k := cfg.servers[i].id, ServerKindAt(|cfg.servers|, i);
              && x in t.packetRecv && t.packetRecv[x] == Channel(Packet, x, Servers, i)
              && x in ServerTables(t, k).recv && ServerTables(t, k).recv[x] == Channel(ServerFamily(k), x, Servers, i)
    {
      ServerOwnChannels(cfg, i);
      WiredServerTables(cfg, ServerKindAt(|cfg.servers|, i));
    }
  }

  lemma WiredServerTables(cfg: Config, k: ServerKind)
    ensures ServerTables(WiredTables(cfg), k).recv == ServerCommands(cfg.servers, k)
  {
  }

  /** Nodes built from such tables receive on their own channels. */
  lemma OwnChannelsFrom(net: Network, cfg: Config, t: Tables)
    requires NodesWired(net, cfg, t) && OwnTables(cfg, t)
    ensures forall k :: 0 <= k < |cfg.drones| ==>
              && net.drones[k].packetRecv == Channel(Packet, cfg.drones[k].id, Drones, k)
              && net.drones[k].commandRecv == Channel(DroneCommand, cfg.drones[k].id, Drones, k)
    ensures forall i :: 0 <= i < |cfg.clients| ==>
              && ClientNodes(net)[i].packetRecv == Channel(Packet, cfg.clients[i].id, Clients, i)
              && ClientNodes(net)[i].commandRecv
                 == Channel(ClientFamily(ClientKindAt(|cfg.clients|, i)), cfg.clients[i].id, Clients, i)
    ensures forall i :: 0 <= i < |cfg.servers| ==>
              && ServerNodes(net)[i].packetRecv == Channel(Packet, cfg.servers[i].id, Servers, i)
              && ServerNodes(net)[i].commandRecv
                 == Channel(ServerFamily(ServerKindAt(|cfg.servers|, i)), cfg.servers[i].id, Servers, i)
  {
  }

  /** With unique ids, every node receives on the packet channel and the
      command channel created in its own iteration of the filling loops, so
      no two nodes share a receiver. */
  lemma NodesOwnChannels(net: Network, cfg: Config)
    requires NetworkBuilt(net, cfg) && DistinctIds(cfg)
    ensures |net.drones| == |cfg.drones| && |ClientNodes(net)| == |cfg.clients| && |ServerNodes(net)| == |cfg.servers|
    ensures forall k :: 0 <= k < |cfg.drones| ==>
              && net.drones[k].packetRecv == Channel(Packet, cfg.drones[k].id, Drones, k)
              && net.drones[k].commandRecv == Channel(DroneCommand, cfg.drones[k].id, Drones, k)
    ensures forall i :: 0 <= i < |cfg.clients| ==>
              && ClientNodes(net)[i].packetRecv == Channel(Packet, cfg.clients[i].id, Clients, i)
              && ClientNodes(net)[i].commandRecv
                 == Channel(ClientFamily(ClientKindAt(|cfg.clients|, i)), cfg.clients[i].id, Clients, i)
    ensures forall i :: 0 <= i < |cfg.servers| ==>
              && ServerNodes(net)[i].packetRecv == Channel(Packet, cfg.servers[i].id, Servers, i)
              && ServerNodes(net)[i].commandRecv
                 == Channel(ServerFamily(ServerKindAt(|cfg.servers|, i)), cfg.servers[i].id, Servers, i)
  {
    BuiltNodesWired(net, cfg);
    WiredTablesOwn(cfg);
    OwnChannelsFrom(net, cfg, WiredTables(cfg));
  }

  /** Under each client's id, a controller table built alongside the command
      receivers pairs the sender of that client's command receiver with the
      packet twin of that receiver. */
  lemma ClientPairs(net: Network, cfg: Config, t: Tables)
    requires NodesWired(net, cfg, t)
    requires forall k: ClientKind :: ClientTables(t, k).send == Twins(ClientTables(t, k).recv)
    ensures forall i :: 0 <= i < |cfg.clients| ==>
              var n, k := ClientNodes(net)[i], ClientKindAt(|cfg.clients|, i);
              n.id in ClientTables(t, k).send && ClientTables(t, k).send[n.id] == (n.commandRecv, PacketTwin(n.commandRecv))
  {
  }

  /** The same for the servers. */
  lemma ServerPairs(net: Network, cfg: Config, t: Tables)
    requires NodesWired(net, cfg, t)
    requires forall k: ServerKind :: ServerTables(t, k).send == Twins(ServerTables(t, k).recv)
    ensures forall i :: 0 <= i < |cfg.servers| ==>
              var n, k := ServerNodes(net)[i], ServerKindAt(|cfg.servers|, i);
              n.id in ServerTables(t, k).send && ServerTables(t, k).send[n.id] == (n.commandRecv, PacketTwin(n.commandRecv))
  {
  }

  /** The controller's table for each client kind pairs, under each client's
      id, the sender of the channel that client receives commands on with the
      packet sender created in the same iteration; when ids are unique, that
      is the sender of the client's own packet receiver. */
  lemma ControllerReachesClients(net: Network, cfg: Config)
    requires NetworkBuilt(net, cfg)
    ensures |ClientNodes(net)| == |cfg.clients|
    ensures forall i :: 0 <= i < |cfg.clients| ==>
              var n, k := ClientNodes(net)[i], ClientKindAt(|cfg.clients|, i);
              n.id in ClientTables(net.tables, k).send
              && ClientTables(net.tables, k).send[n.id] == (n.commandRecv, PacketTwin(n.commandRecv))
    ensures DistinctIds(cfg) ==> forall i :: 0 <= i < |cfg.clients| ==>
              PacketTwin(ClientNodes(net)[i].commandRecv) == ClientNodes(net)[i].packetRecv
  {
    BuiltNodesWired(net, cfg);
    ClientPairs(net, cfg, WiredTables(cfg));
    if DistinctIds(cfg) {
      NodesOwnChannels(net, cfg);
    }
  }

  /** The same for the controller's table of each server kind. */
  lemma ControllerReachesServers(net: Network, cfg: Config)
    requires NetworkBuilt(net, cfg)
    ensures |ServerNodes(net)| == |cfg.servers|
    ensures forall i :: 0 <= i < |cfg.servers| ==>
              var n, k := ServerNodes(net)[i], ServerKindAt(|cfg.servers|, i);
              n.id in ServerTables(net.tables, k).send
              && ServerTables(net.tables, k).send[n.id] == (n.commandRecv, PacketTwin(n.commandRecv))
    ensures DistinctIds(cfg) ==> forall i :: 0 <= i < |cfg.servers| ==>
              PacketTwin(ServerNodes(net)[i].commandRecv) == ServerNodes(net)[i].packetRecv
  {
    BuiltNodesWired(net, cfg);
    ServerPairs(net, cfg, WiredTables(cfg));
    if DistinctIds(cfg) {
      NodesOwnChannels(net, cfg);
    }
  }
}
