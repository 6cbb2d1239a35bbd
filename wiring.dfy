/** The loops of the initializer's `run` up to the point where the controller
    is created: three loops that create the channels and fill the tables, then
    the loops that build the drones, the clients and the servers from those
    tables, and the neighbour map handed to the controller. Each loop is a
    method over the tables it reads and the values it builds, proved against
    the reference description of its result. */
module Wiring {
  import opened Topology
  import opened Maps
  import opened Channels
  import opened Partition
  import opened Nodes
  import opened DroneFactory

  /** The two tables of one client or server category: under each id, the
      controller's pair (command sender, packet sender) and the command
      receiver the node is built with. */
  datatype CategoryTables = CategoryTables(send: map<NodeId, (Channel, Channel)>, recv: map<NodeId, Channel>)

  /** All the tables the filling loops produce. */
  datatype Tables = Tables(
    packetSend: map<NodeId, Channel>,
    packetRecv: map<NodeId, Channel>,
    droneCommandSend: map<NodeId, Channel>,
    droneCommandRecv: map<NodeId, Channel>,
    textServers: CategoryTables,
    mediaServers: CategoryTables,
    communicationServers: CategoryTables,
    chatClients: CategoryTables,
    mediaClients: CategoryTables)

  function ServerTables(t: Tables, k: ServerKind): CategoryTables {
    match k
    case TextServer => t.textServers
    case MediaServer => t.mediaServers
    case CommunicationServer => t.communicationServers
  }

  function ClientTables(t: Tables, k: ClientKind): CategoryTables {
    match k
    case ChatClient => t.chatClients
    case MediaClient => t.mediaClients
  }

  function ServerFamily(k: ServerKind): Family {
    match k
    case TextServer => TextServerCommand
    case MediaServer => MediaServerCommand
    case CommunicationServer => CommunicationServerCommand
  }

  function ClientFamily(k: ClientKind): Family {
    match k
    case ChatClient => ChatClientCommand
    case MediaClient => MediaClientCommand
  }

  function ServerEvents(k: ServerKind): EventStream {
    match k
    case TextServer => TextServerEvents
    case MediaServer => MediaServerEvents
    case CommunicationServer => CommunicationServerEvents
  }

  function ClientEvents(k: ClientKind): EventStream {
    match k
    case ChatClient => ChatClientEvents
    case MediaClient => MediaClientEvents
  }

  // ---------------------------------------------------------------------
  // Reference description of the tables after the filling loops

  function DronePackets(ds: seq<DroneConfig>): map<NodeId, Channel> {
    Allocation(Packet, Drones, DroneIds(ds), Everyone(|ds|))
  }

  function ServerPackets(ss: seq<ServerConfig>): map<NodeId, Channel> {
    Allocation(Packet, Servers, ServerIds(ss), Everyone(|ss|))
  }

  function ClientPackets(cs: seq<ClientConfig>): map<NodeId, Channel> {
    Allocation(Packet, Clients, ClientIds(cs), Everyone(|cs|))
  }

  /** The inbound packet channels: one per id, the drone loop first, then the
      server loop, then the client loop, a later insertion replacing an
      earlier one. */
  function PacketTable(cfg: Config): map<NodeId, Channel> {
    DronePackets(cfg.drones) + ServerPackets(cfg.servers) + ClientPackets(cfg.clients)
  }

  function DroneCommands(ds: seq<DroneConfig>): map<NodeId, Channel> {
    Allocation(DroneCommand, Drones, DroneIds(ds), Everyone(|ds|))
  }

  /** The command receivers of the servers of kind `k`. */
  function ServerCommands(ss: seq<ServerConfig>, k: ServerKind): map<NodeId, Channel> {
    Allocation(ServerFamily(k), Servers, ServerIds(ss), KindMask(ServerKinds(|ss|), k))
  }

  /** The command receivers of the clients of kind `k`. */
  function ClientCommands(cs: seq<ClientConfig>, k: ClientKind): map<NodeId, Channel> {
    Allocation(ClientFamily(k), Clients, ClientIds(cs), KindMask(ClientKinds(|cs|), k))
  }

  function ServerCategory(ss: seq<ServerConfig>, k: ServerKind): CategoryTables {
    CategoryTables(Twins(ServerCommands(ss, k)), ServerCommands(ss, k))
  }

  function ClientCategory(cs: seq<ClientConfig>, k: ClientKind): CategoryTables {
    CategoryTables(Twins(ClientCommands(cs, k)), ClientCommands(cs, k))
  }

  /** All tables as the three filling loops leave them. */
  function WiredTables(cfg: Config): Tables {
    Tables(
      PacketTable(cfg), PacketTable(cfg),
      DroneCommands(cfg.drones), DroneCommands(cfg.drones),
      ServerCategory(cfg.servers, TextServer),
      ServerCategory(cfg.servers, MediaServer),
      ServerCategory(cfg.servers, CommunicationServer),
      ClientCategory(cfg.clients, ChatClient),
      ClientCategory(cfg.clients, MediaClient))
  }

  /** The neighbour map handed to the controller: drones inserted first, then
      clients, then servers, a later insertion replacing an earlier one. */
  function NeighbourTable(cfg: Config): map<NodeId, seq<NodeId>> {
    Filled(DroneIds(cfg.drones), Everyone(|cfg.drones|), DroneAdjacency(cfg.drones))
    + Filled(ClientIds(cfg.clients), Everyone(|cfg.clients|), ClientAdjacency(cfg.clients))
    + Filled(ServerIds(cfg.servers), Everyone(|cfg.servers|), ServerAdjacency(cfg.servers))
  }

  // ---------------------------------------------------------------------
  // The tables part way through a filling loop

  /** Insert a command channel into a category's receiver table, and pair it
      with the packet sender `pkt` in the controller-side table. */
  function Insert(c: CategoryTables, cmd: Channel, pkt: Channel): CategoryTables {
    CategoryTables(c.send[cmd.owner := (cmd, pkt)], c.recv[cmd.owner := cmd])
  }

  /** The packet table `base` after the first `i` iterations of a loop at
      `place` over `ids`, each of which inserts a fresh packet channel. */
  function PacketsUpTo(base: map<NodeId, Channel>, place: Place, ids: seq<NodeId>, i: nat): map<NodeId, Channel>
    requires i <= |ids|
  {
    Extended(base, ids, Created(Packet, place, ids), i)
  }

  lemma PacketsUpToStep(base: map<NodeId, Channel>, place: Place, ids: seq<NodeId>, i: nat)
    requires i < |ids|
    ensures PacketsUpTo(base, place, ids, i)[ids[i] := Channel(Packet, ids[i], place, i)]
         == PacketsUpTo(base, place, ids, i + 1)
  {
    ExtendedStep(base, ids, Created(Packet, place, ids), i);
  }

  lemma PacketsUpToComplete(base: map<NodeId, Channel>, place: Place, ids: seq<NodeId>)
    ensures PacketsUpTo(base, place, ids, |ids|) == base + Allocation(Packet, place, ids, Everyone(|ids|))
  {
    ExtendedComplete(base, ids, Created(Packet, place, ids));
  }

  /** A category's tables after the first `i` iterations over `ids`: the
      receivers are the channels of the kept positions, the senders pair each
      with its packet twin. */
  function CategoryUpTo(family: Family, place: Place, ids: seq<NodeId>, sel: seq<bool>, i: nat): CategoryTables
    requires |sel| == |ids| && i <= |ids|
  {
    var recv := Filled(ids[..i], sel[..i], Created(family, place, ids)[..i]);
    CategoryTables(Twins(recv), recv)
  }

  lemma CategoryUpToStep(family: Family, place: Place, ids: seq<NodeId>, sel: seq<bool>, i: nat)
    requires |sel| == |ids| && i < |ids|
    ensures CategoryUpTo(family, place, ids, sel, i + 1)
         == if sel[i] then Insert(CategoryUpTo(family, place, ids, sel, i), Channel(family, ids[i], place, i), Channel(Packet, ids[i], place, i))
            else CategoryUpTo(family, place, ids, sel, i)
  {
    var chans := Created(family, place, ids);
    FilledStep(ids, sel, chans, i);
    assert chans[i] == Channel(family, ids[i], place, i);
    if sel[i] {
      TwinsInsert(Filled(ids[..i], sel[..i], chans[..i]), ids[i], chans[i]);
    }
  }

  lemma CategoryUpToComplete(family: Family, place: Place, ids: seq<NodeId>, sel: seq<bool>)
    requires |sel| == |ids|
    ensures CategoryUpTo(family, place, ids, sel, |ids|)
         == CategoryTables(Twins(Allocation(family, place, ids, sel)), Allocation(family, place, ids, sel))
  {
    FilledComplete(ids, sel, Created(family, place, ids));
  }

  /** The server tables of kind `k` after the first `i` servers. */
  function ServersUpTo(ss: seq<ServerConfig>, k: ServerKind, i: nat): CategoryTables
    requires i <= |ss|
  {
    CategoryUpTo(ServerFamily(k), Servers, ServerIds(ss), KindMask(ServerKinds(|ss|), k), i)
  }

  /** One server iteration inserts into the tables of the kind `ServerKindAt`
      selects and leaves the other two alone. */
  lemma ServersUpToStep(ss: seq<ServerConfig>, k: ServerKind, i: nat)
    requires i < |ss|
    ensures ServersUpTo(ss, k, i + 1)
         == if ServerKindAt(|ss|, i) == k then Insert(ServersUpTo(ss, k, i), Channel(ServerFamily(k), ss[i].id, Servers, i), Channel(Packet, ss[i].id, Servers, i))
            else ServersUpTo(ss, k, i)
  {
    assert ServerKinds(|ss|)[i] == ServerKindAt(|ss|, i);
    CategoryUpToStep(ServerFamily(k), Servers, ServerIds(ss), KindMask(ServerKinds(|ss|), k), i);
  }

  lemma ServersUpToComplete(ss: seq<ServerConfig>, k: ServerKind)
    ensures ServersUpTo(ss, k, |ss|) == ServerCategory(ss, k)
  {
    CategoryUpToComplete(ServerFamily(k), Servers, ServerIds(ss), KindMask(ServerKinds(|ss|), k));
  }

  /** The client tables of kind `k` after the first `i` clients. */
  function ClientsUpTo(cs: seq<ClientConfig>, k: ClientKind, i: nat): CategoryTables
    requires i <= |cs|
  {
    CategoryUpTo(ClientFamily(k), Clients, ClientIds(cs), KindMask(ClientKinds(|cs|), k), i)
  }

  lemma ClientsUpToStep(cs: seq<ClientConfig>, k: ClientKind, i: nat)
    requires i < |cs|
    ensures ClientsUpTo(cs, k, i + 1)
         == if ClientKindAt(|cs|, i) == k then Insert(ClientsUpTo(cs, k, i), Channel(ClientFamily(k), cs[i].id, Clients, i), Channel(Packet, cs[i].id, Clients, i))
            else ClientsUpTo(cs, k, i)
  {
    assert ClientKinds(|cs|)[i] == ClientKindAt(|cs|, i);
    CategoryUpToStep(ClientFamily(k), Clients, ClientIds(cs), KindMask(ClientKinds(|cs|), k), i);
  }

  lemma ClientsUpToComplete(cs: seq<ClientConfig>, k: ClientKind)
    ensures ClientsUpTo(cs, k, |cs|) == ClientCategory(cs, k)
  {
    CategoryUpToComplete(ClientFamily(k), Clients, ClientIds(cs), KindMask(ClientKinds(|cs|), k));
  }

  // ---------------------------------------------------------------------
  // The filling loops

  /** The drone loop: one packet channel and one command channel per drone,
      inserted under its id into both the sender and the receiver table. */
  method FillDroneChannels(ds: seq<DroneConfig>)
    returns (packetSend: map<NodeId, Channel>, packetRecv: map<NodeId, Channel>,
             commandSend: map<NodeId, Channel>, commandRecv: map<NodeId, Channel>)
    ensures packetSend == packetRecv == DronePackets(ds)
    ensures commandSend == commandRecv == DroneCommands(ds)
  {
    ghost var ids, all := DroneIds(ds), Everyone(|ds|);
    ghost var packets, commands := Created(Packet, Drones, ids), Created(DroneCommand, Drones, ids);
    packetSend, packetRecv, commandSend, commandRecv := map[], map[], map[], map[];
    var i := 0;
    while i < |ds|
      invariant i <= |ds|
      invariant packetSend == packetRecv == Filled(ids[..i], all[..i], packets[..i])
      invariant commandSend == commandRecv == Filled(ids[..i], all[..i], commands[..i])
    {
      FilledStep(ids, all, packets, i);
      FilledStep(ids, all, commands, i);
      var id := ds[i].id;
      packetSend := packetSend[id := Channel(Packet, id, Drones, i)];
      packetRecv := packetRecv[id := Channel(Packet, id, Drones, i)];
      commandSend := commandSend[id := Channel(DroneCommand, id, Drones, i)];
      commandRecv := commandRecv[id := Channel(DroneCommand, id, Drones, i)];
      i := i + 1;
    }
    FilledComplete(ids, all, packets);
    FilledComplete(ids, all, commands);
  }

  /** The server loop: with a counter running down from the number of
      servers, each server gets a packet channel, inserted under its id into
      the packet tables, and a command channel of the kind the counter
      selects, inserted into that kind's tables. */
  method FillServerChannels(ss: seq<ServerConfig>, packetSend0: map<NodeId, Channel>, packetRecv0: map<NodeId, Channel>)
    returns (packetSend: map<NodeId, Channel>, packetRecv: map<NodeId, Channel>,
             text: CategoryTables, media: CategoryTables, communication: CategoryTables)
    ensures packetSend == packetSend0 + ServerPackets(ss)
    ensures packetRecv == packetRecv0 + ServerPackets(ss)
    ensures text == ServerCategory(ss, TextServer)
    ensures media == ServerCategory(ss, MediaServer)
    ensures communication == ServerCategory(ss, CommunicationServer)
  {
    var n := |ss|;
    ghost var ids := ServerIds(ss);
    packetSend, packetRecv := packetSend0, packetRecv0;
    text, media, communication := CategoryTables(map[], map[]), CategoryTables(map[], map[]), CategoryTables(map[], map[]);
    var third := n / 3;
    var count := n;
    var i := 0;
    while i < n
      invariant i <= n && count == n - i
      invariant packetSend == PacketsUpTo(packetSend0, Servers, ids, i)
      invariant packetRecv == PacketsUpTo(packetRecv0, Servers, ids, i)
      invariant text == ServersUpTo(ss, TextServer, i)
      invariant media == ServersUpTo(ss, MediaServer, i)
      invariant communication == ServersUpTo(ss, CommunicationServer, i)
    {
      PacketsUpToStep(packetSend0, Servers, ids, i);
      PacketsUpToStep(packetRecv0, Servers, ids, i);
      var id := ss[i].id;
      var pkt := Channel(Packet, id, Servers, i);
      packetSend := packetSend[id := pkt];
      packetRecv := packetRecv[id := pkt];
      if count > third * 2 {
        assert ServerKindAt(n, i) == TextServer;
        ServersUpToStep(ss, TextServer, i);
        ServersUpToStep(ss, MediaServer, i);
        ServersUpToStep(ss, CommunicationServer, i);
        text := Insert(text, Channel(TextServerCommand, id, Servers, i), pkt);
      } else if count > third {
        assert ServerKindAt(n, i) == MediaServer;
        ServersUpToStep(ss, TextServer, i);
        ServersUpToStep(ss, MediaServer, i);
        ServersUpToStep(ss, CommunicationServer, i);
        media := Insert(media, Channel(MediaServerCommand, id, Servers, i), pkt);
      } else {
        assert ServerKindAt(n, i) == CommunicationServer;
        ServersUpToStep(ss, TextServer, i);
        ServersUpToStep(ss, MediaServer, i);
        ServersUpToStep(ss, CommunicationServer, i);
        communication := Insert(communication, Channel(CommunicationServerCommand, id, Servers, i), pkt);
      }
      count := count - 1;
      i := i + 1;
    }
    PacketsUpToComplete(packetSend0, Servers, ids);
    PacketsUpToComplete(packetRecv0, Servers, ids);
    ServersUpToComplete(ss, TextServer);
    ServersUpToComplete(ss, MediaServer);
    ServersUpToComplete(ss, CommunicationServer);
  }

  /** The client loop: with a counter running up from zero, each client gets
      a packet channel, inserted under its id into the packet tables, and a
      command channel of the kind the counter selects. */
  method FillClientChannels(cs: seq<ClientConfig>, packetSend0: map<NodeId, Channel>, packetRecv0: map<NodeId, Channel>)
    returns (packetSend: map<NodeId, Channel>, packetRecv: map<NodeId, Channel>,
             chat: CategoryTables, media: CategoryTables)
    ensures packetSend == packetSend0 + ClientPackets(cs)
    ensures packetRecv == packetRecv0 + ClientPackets(cs)
    ensures chat == ClientCategory(cs, ChatClient)
    ensures media == ClientCategory(cs, MediaClient)
  {
    var n := |cs|;
    ghost var ids := ClientIds(cs);
    packetSend, packetRecv := packetSend0, packetRecv0;
    chat, media := CategoryTables(map[], map[]), CategoryTables(map[], map[]);
    var half := n / 2;
    var count := 0;
    var i := 0;
    while i < n
      invariant i <= n && count == i
      invariant packetSend == PacketsUpTo(packetSend0, Clients, ids, i)
      invariant packetRecv == PacketsUpTo(packetRecv0, Clients, ids, i)
      invariant chat == ClientsUpTo(cs, ChatClient, i)
      invariant media == ClientsUpTo(cs, MediaClient, i)
    {
      PacketsUpToStep(packetSend0, Clients, ids, i);
      PacketsUpToStep(packetRecv0, Clients, ids, i);
      ClientsUpToStep(cs, ChatClient, i);
      ClientsUpToStep(cs, MediaClient, i);
      var id := cs[i].id;
      var pkt := Channel(Packet, id, Clients, i);
      packetSend := packetSend[id := pkt];
      packetRecv := packetRecv[id := pkt];
      if count < half {
        assert ClientKindAt(n, i) == ChatClient;
        chat := Insert(chat, Channel(ChatClientCommand, id, Clients, i), pkt);
      } else {
        assert ClientKindAt(n, i) == MediaClient;
        media := Insert(media, Channel(MediaClientCommand, id, Clients, i), pkt);
      }
      count := count + 1;
      i := i + 1;
    }
    PacketsUpToComplete(packetSend0, Clients, ids);
    PacketsUpToComplete(packetRecv0, Clients, ids);
    ClientsUpToComplete(cs, ChatClient);
    ClientsUpToComplete(cs, MediaClient);
  }

  /** The three filling loops in the order `run` executes them. */
  method FillChannels(cfg: Config) returns (t: Tables)
    ensures t == WiredTables(cfg)
  {
    var packetSend, packetRecv, commandSend, commandRecv := FillDroneChannels(cfg.drones);
    var text, media, communication;
    packetSend, packetRecv, text, media, communication := FillServerChannels(cfg.servers, packetSend, packetRecv);
    var chat, mediaClients;
    packetSend, packetRecv, chat, mediaClients := FillClientChannels(cfg.clients, packetSend, packetRecv);
    t := Tables(packetSend, packetRecv, commandSend, commandRecv, text, media, communication, chat, mediaClients);
  }
}
