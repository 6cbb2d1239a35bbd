/** The parsed network topology that the initializer wires up: one record per
    drone, client and server, each with its id and its declared neighbours.
    Reading and parsing the configuration file is not part of this model; the
    records arrive already parsed, in declaration order. */
module Topology {

  /** A node id is an 8-bit unsigned integer, shared by drones, clients and
      servers alike. */
  type NodeId = n: nat | n < 256

  /** The drone's packet drop rate is a 32-bit float that the initializer only
      passes on to the drone constructor; it is kept as its bit pattern. */
  type Pdr = bv32

  datatype DroneConfig = DroneConfig(id: NodeId, connectedNodeIds: seq<NodeId>, pdr: Pdr)

  datatype ClientConfig = ClientConfig(id: NodeId, connectedDroneIds: seq<NodeId>)

  datatype ServerConfig = ServerConfig(id: NodeId, connectedDroneIds: seq<NodeId>)

  datatype Config = Config(drones: seq<DroneConfig>, clients: seq<ClientConfig>, servers: seq<ServerConfig>)

  function DroneIds(ds: seq<DroneConfig>): seq<NodeId> {
    seq(|ds|, i requires 0 <= i < |ds| => ds[i].id)
  }

  function ClientIds(cs: seq<ClientConfig>): seq<NodeId> {
    seq(|cs|, i requires 0 <= i < |cs| => cs[i].id)
  }

  function ServerIds(ss: seq<ServerConfig>): seq<NodeId> {
    seq(|ss|, i requires 0 <= i < |ss| => ss[i].id)
  }

  function DroneAdjacency(ds: seq<DroneConfig>): seq<seq<NodeId>> {
    seq(|ds|, i requires 0 <= i < |ds| => ds[i].connectedNodeIds)
  }

  function ClientAdjacency(cs: seq<ClientConfig>): seq<seq<NodeId>> {
    seq(|cs|, i requires 0 <= i < |cs| => cs[i].connectedDroneIds)
  }

  function ServerAdjacency(ss: seq<ServerConfig>): seq<seq<NodeId>> {
    seq(|ss|, i requires 0 <= i < |ss| => ss[i].connectedDroneIds)
  }

  /** Every id the topology declares, whatever the node's category. */
  function AllIds(cfg: Config): set<NodeId> {
    (set i | 0 <= i < |cfg.drones| :: cfg.drones[i].id)
    + (set i | 0 <= i < |cfg.servers| :: cfg.servers[i].id)
    + (set i | 0 <= i < |cfg.clients| :: cfg.clients[i].id)
  }

  /** No two records of the topology, of any category, share an id. */
  predicate DistinctIds(cfg: Config) {
    var ids := DroneIds(cfg.drones) + ServerIds(cfg.servers) + ClientIds(cfg.clients);
    forall i, j :: 0 <= i < j < |ids| ==> ids[i] != ids[j]
  }

  /** The neighbour lists of all clients, in declaration order, followed by
      those of all servers: the order in which the initializer looks their
      entries up in the packet-sender table. */
  function EdgeEndpoints(cfg: Config): seq<NodeId> {
    Flatten(ClientAdjacency(cfg.clients)) + Flatten(ServerAdjacency(cfg.servers))
  }

  function Flatten(lists: seq<seq<NodeId>>): seq<NodeId> {
    if |lists| == 0 then [] else lists[0] + Flatten(lists[1..])
  }
}
