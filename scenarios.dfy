/** Concrete topologies run through the wiring stage's contract: a ring of
    ten drones with one client and one server, which boots; the same ring
    with a client neighbour no record carries, which panics on the missing
    sender; and the ring with an eleventh drone, which panics for want of a
    factory. */
module Scenarios {
  import opened Topology
  import opened Partition
  import opened Nodes
  import opened Wiring
  import opened Construction
  import opened NetworkInitializer

  /** Ten drones in a ring, drone `i` adjacent to `i - 1` and `i + 1` modulo
      10; client 10 attached to drone 0, server 11 attached to drone 5. */
  function Ring(): Config {
    Config(
      seq(10, i requires 0 <= i < 10 => DroneConfig(i, [(i + 9) % 10, (i + 1) % 10], 0)),
      [ClientConfig(10, [0])],
      [ServerConfig(11, [5])])
  }

  /** The ring with an eleventh drone, adjacent to drone 0. */
  function CrowdedRing(): Config {
    Config(Ring().drones + [DroneConfig(12, [0], 0)], Ring().clients, Ring().servers)
  }

  /** The ring boots: every drone has a factory and every neighbour a client
      or server declares is a node of the topology. Its ids are unique, its
      only server is a text content server, and its only client is a media
      client, since half of one client rounds down to none. */
  lemma RingBoots()
    ensures |Ring().drones| <= |Factories|
    ensures FirstMissing(EdgeEndpoints(Ring()), AllIds(Ring())).None?
    ensures DistinctIds(Ring())
    ensures ServerKindAt(|Ring().servers|, 0) == TextServer
    ensures ClientKindAt(|Ring().clients|, 0) == MediaClient
  {
    var cfg := Ring();
    assert cfg.drones[0].id == 0 && cfg.drones[5].id == 5;
    assert Flatten(ClientAdjacency(cfg.clients)) == [0] by {
      assert ClientAdjacency(cfg.clients) == [[0]];
    }
    assert Flatten(ServerAdjacency(cfg.servers)) == [5] by {
      assert ServerAdjacency(cfg.servers) == [[5]];
    }
    assert EdgeEndpoints(cfg) == [0, 5];
    var ids := DroneIds(cfg.drones) + ServerIds(cfg.servers) + ClientIds(cfg.clients);
    assert forall i :: 0 <= i < |ids| ==> ids[i] == if i < 10 then i else if i == 10 then 11 else 10;
  }

  /** The sizes of the node lists of a built network, and the ids of its
      media clients and text content servers. */
  lemma BuiltShape(net: Network, cfg: Config)
    requires NetworkBuilt(net, cfg)
    ensures |net.drones| == |cfg.drones|
    ensures |net.chatClients| == |cfg.clients| / 2 && |net.mediaClients| == |cfg.clients| - |cfg.clients| / 2
    ensures forall j :: 0 <= j < |net.mediaClients| ==> net.mediaClients[j].id == cfg.clients[|cfg.clients| / 2 + j].id
    ensures |net.mediaServers| == |cfg.servers| / 3 && |net.communicationServers| == |cfg.servers| / 3
    ensures |net.textServers| == |cfg.servers| - 2 * (|cfg.servers| / 3)
    ensures forall j :: 0 <= j < |net.textServers| ==> net.textServers[j].id == cfg.servers[j].id
  {
  }

  /** The ring run through the wiring stage: it builds ten drones, no chat
      client, one media client (id 10) and one text content server (id 11),
      and no media content or communication server. */
  method BootRing() returns (net: Network)
    ensures |net.drones| == 10
    ensures |net.chatClients| == 0 && |net.mediaClients| == 1 && net.mediaClients[0].id == 10
    ensures |net.textServers| == 1 && net.textServers[0].id == 11
    ensures |net.mediaServers| == 0 && |net.communicationServers| == 0
  {
    var cfg := Ring();
    assert |cfg.drones| == 10 && |cfg.clients| == 1 && |cfg.servers| == 1;
    assert cfg.clients[0].id == 10 && cfg.servers[0].id == 11;
    RingBoots();
    var r := Wire(cfg);
    net := r.value;
    BuiltShape(net, cfg);
  }

  /** The ring with client 10 also declaring neighbour 99, which no record
      carries. */
  function StrayNeighbour(): Config {
    Config(Ring().drones, [ClientConfig(10, [0, 99])], Ring().servers)
  }

  /** The first neighbour id of the stray-neighbour topology that no record
      carries is 99. */
  lemma StrayNeighbourMissing()
    ensures |StrayNeighbour().drones| <= |Factories|
    ensures FirstMissing(EdgeEndpoints(StrayNeighbour()), AllIds(StrayNeighbour())) == Some(99)
  {
    var cfg := StrayNeighbour();
    assert forall i :: 0 <= i < |cfg.drones| ==> cfg.drones[i].id == i;
    assert 99 !in AllIds(cfg);
    assert cfg.drones[0].id == 0;
    assert Flatten(ClientAdjacency(cfg.clients)) == [0, 99] by {
      assert ClientAdjacency(cfg.clients) == [[0, 99]];
    }
    assert Flatten(ServerAdjacency(cfg.servers)) == [5] by {
      assert ServerAdjacency(cfg.servers) == [[5]];
    }
    assert EdgeEndpoints(cfg) == [0, 99, 5];
  }

  /** The wiring stage panics on the stray neighbour while building client
      10, after every drone was built. */
  method WireStrayNeighbour() returns (r: Result<Network>)
    ensures r == Err(MissingPacketSender(99))
  {
    StrayNeighbourMissing();
    r := Wire(StrayNeighbour());
  }

  /** The wiring stage panics on the crowded ring for want of a factory for
      its eleventh drone, drone 12. */
  method WireCrowdedRing() returns (r: Result<Network>)
    ensures r == Err(NoFactoryDefined(12))
  {
    assert |CrowdedRing().drones| == 11;
    r := Wire(CrowdedRing());
  }

  /** The crowded ring panics at its eleventh drone, after the ten before it
      passed every check of the drone loop. */
  lemma CrowdedRingPanics()
    ensures DroneAbortFrom(CrowdedRing().drones, WiredTables(CrowdedRing()), 0) == Some(NoFactoryDefined(12))
  {
    DroneAborts(CrowdedRing(), 0);
  }
}
