/** The closure that every registered drone factory returns: given a drone
    record and the initializer's tables, it collects the drone's channel ends
    and calls the implementation's constructor. */
module DroneFactory {
  import opened Topology
  import opened Channels
  import opened Nodes

  /** Build the drone `drone` with implementation `impl`. Its inbound packet
      receiver and its command receiver are the entries for its own id; a
      missing entry aborts, the packet receiver being checked first. Its
      outbound map holds, for each declared neighbour that has an entry in
      `packetSend`, that entry; a declared neighbour without one is skipped
      without any report. */
  method BuildDrone(
    impl: DroneImpl, drone: DroneConfig,
    commandRecv: map<NodeId, Channel>, packetSend: map<NodeId, Channel>, packetRecv: map<NodeId, Channel>)
    returns (r: Result<Node>)
    ensures drone.id !in packetRecv ==> r == Err(PacketReceiverNotFound(drone.id))
    ensures drone.id in packetRecv && drone.id !in commandRecv ==> r == Err(CommandReceiverNotFound(drone.id))
    ensures drone.id in packetRecv && drone.id in commandRecv ==>
              && r.Ok?
              && Wired(r.value, drone.id, Drone(impl, drone.pdr), DroneEvents,
                       commandRecv, packetRecv, packetSend, drone.connectedNodeIds)
  {
    if drone.id !in packetRecv {
      return Err(PacketReceiverNotFound(drone.id));
    }
    var neighbours := drone.connectedNodeIds;
    var out: map<NodeId, Channel> := map[];
    var k := 0;
    while k < |neighbours|
      invariant k <= |neighbours|
      invariant out == Outbound(neighbours[..k], packetSend)
    {
      OutboundStep(neighbours, packetSend, k);
      if neighbours[k] in packetSend {
        out := out[neighbours[k] := packetSend[neighbours[k]]];
      }
      k := k + 1;
    }
    assert neighbours[..k] == neighbours;
    if drone.id !in commandRecv {
      return Err(CommandReceiverNotFound(drone.id));
    }
    r := Ok(Node(drone.id, Drone(impl, drone.pdr), DroneEvents, commandRecv[drone.id], packetRecv[drone.id], out));
  }
}
