# Network initializer wiring, modelled in Dafny

This project models the wiring stage of the Rustastic network initializer
(`src/network_initializer.rs`). The wiring stage turns a parsed topology into
channel tables and node lists. The topology is three sequences of records:
drones, clients and servers, each record with an id and a list of neighbour
ids. The stage does not start any thread. It consists of:

- **`drone_factory`**: the closure every registered drone implementation
  returns. It looks up the drone's packet receiver, its outbound packet
  senders (filtered by the drone's declared neighbours) and its command
  receiver. A missing receiver panics.
- **The three filling loops of `run`**:
  - one inbound packet channel per id, shared by all categories;
  - one command channel per drone;
  - one command channel per server, of the kind the counting-down rule on
    thirds gives it (text content, media content or communication);
  - one command channel per client, chat for the first half and media for
    the rest.
  Each client and server category also gets a controller-side table of
  (command sender, packet sender) pairs.
- **The construction loops of `run`**:
  - drone `k` is built by registered factory `k`;
  - the controller's drone directory is filled;
  - every client and server is built with the senders of its declared
    neighbours, its command receiver and its packet receiver;
  - the neighbour map for the controller is filled: drones, then clients,
    then servers.

Channels are tokens, not queues. `Channel(family, owner, place, index)` names
the call to `unbounded()` that created a channel by:

- what it carries;
- the id it was created for;
- the filling loop and the iteration it was created in.

Both ends of a channel carry the same token. "Node `a` sends on the channel
node `b` listens on" is therefore an equality of tokens. Because the token
records the iteration, the effect of a repeated id, where a later map
insertion replaces an earlier one, can be observed.

Every loop of the source is a method with loop invariants. Each method is
proved against a reference function of its inputs:

- `Maps.Filled`, for a map filled by insertion in a loop, where the last
  insertion wins;
- `Partition.ServerKindAt` and `Partition.ClientKindAt`, for the partition
  rules;
- `Construction.DroneAbortFrom`, `ClientAbortFrom` and `ServerAbortFrom`, for
  the first panic of a construction loop.

A panic is an `Err` carrying an `Abort` value that names the panic. The five
drone-loop panics carry the drone id their message reports. The other three
(`MissingPacketSender`, `MissingCommandReceiver`, `MissingPacketReceiver`)
stand for an `unwrap` that fails, and carry the id that was looked up.
`NetworkInitializer.Wire` runs the whole stage. Its contract says,
in terms of the topology alone, when the stage panics, with which panic, and
what network it builds otherwise. The modules `Connectivity` and `Scenarios`
prove what the built network guarantees.

Modules, in dependency order:

| file | module | contents |
|---|---|---|
| topology.dfy | Topology | topology records, ids, declared adjacency |
| maps.dfy | Maps | tables filled by insertion: `Filled`, last-insertion-wins lemmas |
| channels.dfy | Channels | channel tokens, per-loop allocation tables |
| partition.dfy | Partition | server and client partition rules and their block form |
| nodes.dfy | Nodes | node constructor arguments, panics, outbound maps |
| drone_factory.dfy | DroneFactory | the factory closure |
| wiring.dfy | Wiring | the three filling loops |
| construction.dfy | Construction | the drone, client and server construction loops |
| initializer.dfy | NetworkInitializer | the whole stage and which panics can occur |
| connectivity.dfy | Connectivity | what the built network guarantees |
| scenarios.dfy | Scenarios | a ten-drone ring that boots, the same ring with a stray neighbour or an eleventh drone, which panic |

## Model

| member | source | states |
|---|---|---|
| DroneFactory.BuildDrone | src/network_initializer.rs:53-86 | If the drone's id has no packet receiver, it panics "packet receiver not found". Otherwise, if the id has no command receiver, it panics "command receiver not found". Otherwise it builds the drone with its own receivers and with outbound senders for exactly those declared neighbours that have a packet sender, each being that neighbour's sender. A declared neighbour without a sender is skipped silently. |
| Maps.FilledSpec | src/network_initializer.rs:116-127 | A table filled by insertion in a loop holds exactly the ids the loop inserted. Each id holds the value of the last position that inserted it. |
| Maps.FilledStep | src/network_initializer.rs:121-122 | One iteration of a filling loop inserts its value under its id and changes nothing else. |
| Maps.FilledAt | src/network_initializer.rs:121-122 | When no id repeats, every inserted id holds the value of its own position. |
| Channels.AllocationSpec | src/network_initializer.rs:116-127 | A table of fresh channels holds exactly the ids of the kept positions. Each holds the channel created for that id at the last kept position that declared it. |
| Partition.ServerKindsAreBlocks | src/network_initializer.rs:154-192 | The counting-down rule on thirds makes the first `n - 2*(n/3)` servers text content servers, the next `n/3` media content servers and the last `n/3` communication servers. |
| Partition.ServerKindCounts | src/network_initializer.rs:154-192 | The server kinds occur `n - 2*(n/3)`, `n/3` and `n/3` times. |
| Partition.ClientKindsAreBlocks | src/network_initializer.rs:210-236 | The first `n/2` clients are chat clients and the rest media clients. |
| Partition.ClientKindCounts | src/network_initializer.rs:210-236 | There are `n/2` chat clients and `n - n/2` media clients. |
| Nodes.FirstMissing | src/network_initializer.rs:298-301 | The neighbour-sender lookup reports no miss exactly when every declared neighbour has a sender. Otherwise it reports the first neighbour, in declaration order, without one. |
| Nodes.FirstMissingAppend | src/network_initializer.rs:294-381 | Looking up the neighbours of the clients and then of the servers reports the first miss of the first group that has one. |
| Wiring.FillDroneChannels | src/network_initializer.rs:116-127 | The drone filling loop leaves one packet channel and one command channel per drone id. The sender and receiver tables hold the same channel, the one created at the last position declaring that id. |
| Wiring.FillServerChannels | src/network_initializer.rs:153-193 | The server filling loop adds one packet channel per server id to both packet tables, and a later insertion replaces an earlier one. It fills each kind's command-receiver table with the servers the partition rule gives that kind. Each kind's controller table pairs that command channel with the packet channel of the same iteration. |
| Wiring.FillClientChannels | src/network_initializer.rs:209-236 | The same for the client filling loop: chat for the first half, media for the rest. |
| Wiring.FillChannels | src/network_initializer.rs:105-236 | The three filling loops, run in source order, leave the reference tables. In the packet tables, client entries override server entries, which override drone entries. |
| Construction.CreateDrones | src/network_initializer.rs:253-280 | The drone loop panics at the first drone, in declaration order, that has no factory at its position, no receiver or no sender, with that panic. Otherwise every drone `k` is built by factory `k`. The directory holds exactly the drone ids, each with its command sender and packet sender. |
| Construction.DroneNeighbours | src/network_initializer.rs:282-286 | The drone part of the neighbour map holds every drone id with the declared list of the last drone that has that id. |
| Construction.CollectSenders | src/network_initializer.rs:298-301 | Collecting a node's neighbour senders panics at the first declared neighbour without a sender. Otherwise it yields a sender for exactly the declared neighbours. |
| Construction.BuildClient | src/network_initializer.rs:296-321 | One client: first the neighbour senders, then the command receiver of its kind, then its packet receiver. The first missing one panics. Otherwise the client is built from them. |
| Construction.BuildServer | src/network_initializer.rs:339-375 | One server: first the neighbour senders, then its packet receiver, then the command receiver of its kind. The first missing one panics. Otherwise the server is built from them. |
| Construction.CreateClients | src/network_initializer.rs:293-328 | The client loop panics with the first failing client check, in declaration order. Otherwise the first `n/2` clients become chat clients and the rest media clients, in order. The neighbour map gains every client. |
| Construction.CreateServers | src/network_initializer.rs:335-381 | The server loop panics with the first failing server check, in declaration order. Otherwise the three consecutive blocks of the counting-down rule become text content, media content and communication servers, in order. The neighbour map gains every server. |
| NetworkInitializer.Wire | src/network_initializer.rs:105-381 | The whole wiring stage has three outcomes. With more than ten drones, it panics "no factory defined" for the eleventh drone. Otherwise, if some client or server neighbour id is carried by no record (clients first, declaration order), it panics for the first such id. Otherwise it builds every node from the filled tables, and the neighbour map is drones, then clients, then servers. |
| NetworkInitializer.PacketTableKeys | src/network_initializer.rs:105-236 | After the filling loops, both packet tables hold an entry for every id of the topology, and only for those. |
| NetworkInitializer.DroneCommandKeys | src/network_initializer.rs:116-127 | The drone command tables hold exactly the drone ids. |
| NetworkInitializer.ServerHasCommandReceiver | src/network_initializer.rs:336-381 | The server loop recomputes the filling loop's rule. So every server's id is in the command-receiver table of the kind it is built as. |
| NetworkInitializer.ClientHasCommandReceiver | src/network_initializer.rs:294-328 | The same for every client. |
| NetworkInitializer.DroneChecks | src/network_initializer.rs:253-280 | Over the filled tables, a drone that has a factory passes every lookup of the drone loop. |
| NetworkInitializer.ClientChecks | src/network_initializer.rs:294-328 | Over the filled tables, a client can panic only on a declared neighbour that is carried by no record. |
| NetworkInitializer.ServerChecks | src/network_initializer.rs:336-381 | The same for a server. |
| NetworkInitializer.DroneAborts | src/network_initializer.rs:242-280 | Over the filled tables, the drone loop panics only with "no factory defined", and only at the eleventh drone. |
| NetworkInitializer.ClientAborts | src/network_initializer.rs:294-328 | Over the filled tables, the client loop panics only at the first neighbour id carried by no record, in declaration order. |
| NetworkInitializer.ServerAborts | src/network_initializer.rs:336-381 | The same for the server loop. |
| NetworkInitializer.WireAborts | src/network_initializer.rs:239-381 | Combined, the client and server loops panic at the first unknown neighbour id of all client lists and then all server lists. |
| Connectivity.ServerCommandKeys | src/network_initializer.rs:153-193 | Each server kind's command table holds exactly the ids of the servers the partition rule gives that kind. |
| Connectivity.ClientCommandKeys | src/network_initializer.rs:209-236 | Each client kind's command table holds exactly the ids of the clients the partition rule gives that kind. |
| Connectivity.NeighbourTableKeys | src/network_initializer.rs:282-381 | The neighbour map holds an entry for every id of the topology. |
| Connectivity.NeighbourTableValues | src/network_initializer.rs:282-381 | With unique ids, the neighbour map holds each record's own declared adjacency list. |
| Connectivity.DroneOwnChannels | src/network_initializer.rs:117-127 | With unique ids, a drone's packet and command channels are the ones created in its own iteration. |
| Connectivity.ClientOwnChannels | src/network_initializer.rs:212-236 | With unique ids, a client's packet channel and its command channel (of its kind) are the ones created in its own iteration. |
| Connectivity.ServerOwnChannels | src/network_initializer.rs:156-193 | The same for a server. |
| Connectivity.BuiltNodesWired | src/network_initializer.rs:294-381 | In a built network, client `i` and server `i` are built as the kind the partition rule gives position `i`, which is the kind whose command table received their id. |
| Connectivity.SendersReachReceivers | src/network_initializer.rs:120-122 | In a built network, whenever a node holds a sender for another node's id, that sender is the other node's packet receiver. |
| Connectivity.DroneOutbound | src/network_initializer.rs:58-67 | A drone holds senders for exactly those declared neighbours that are ids of the topology. Unknown neighbours are dropped without a panic. |
| Connectivity.ClientServerOutbound | src/network_initializer.rs:296-301 | When no lookup panics, every client and server holds a sender for exactly its declared neighbours. |
| Connectivity.DirectoryReachesDrones | src/network_initializer.rs:265-276 | The controller's drone directory holds exactly the drone ids. Each entry pairs the senders of the command channel and the packet channel that drone receives on. |
| Connectivity.BuiltNeighbours | src/network_initializer.rs:282-286 | The network's neighbour map is the reference neighbour table: drones, then clients, then servers. It holds every id. |
| Connectivity.NodesOwnChannels | src/network_initializer.rs:116-236 | With unique ids, every built node receives on the packet and command channels created in its own iteration, so no two nodes share a receiver. |
| Connectivity.ControllerReachesClients | src/network_initializer.rs:215-232 | The controller's table for a client kind pairs each client's command sender with the packet sender of the same iteration. With unique ids, that packet sender reaches the client's own receiver. |
| Connectivity.ControllerReachesServers | src/network_initializer.rs:159-189 | The same for each server kind. |
| Scenarios.RingBoots | src/network_initializer.rs:154-213 | A ring of ten drones plus one client and one server has unique ids and no unknown neighbour, so it boots. Its only server is a text content server. Its only client is a media client, because half of one rounds down to zero. |
| Scenarios.BootRing | src/network_initializer.rs:105-381 | Running the whole wiring stage on the ring succeeds. It builds ten drones, one media client with id 10 and one text content server with id 11, and no other client or server. |
| Scenarios.StrayNeighbourMissing | src/network_initializer.rs:298-301 | In the ring whose client also declares neighbour 99, every drone has a factory, and 99 is the first declared neighbour that no record carries. |
| Scenarios.WireStrayNeighbour | src/network_initializer.rs:296-301 | Running the whole wiring stage on that topology panics on the missing sender for neighbour 99. |
| Scenarios.CrowdedRingPanics | src/network_initializer.rs:242-279 | Over the filled tables of the ring with an eleventh drone, the drone loop panics "no factory defined" at that drone, after the ten before it passed every check. |
| Scenarios.WireCrowdedRing | src/network_initializer.rs:105-279 | Running the whole wiring stage on the ring with an eleventh drone panics "no factory defined" for drone 12. |

## Left out

- Reading and parsing the configuration file (`open`) is left out: it is file I/O and a foreign TOML parser. The model takes the parsed records as input.
- `src/main.rs` only starts `run`. Logging (`info!`, colours) has no effect on the wiring.
- Everything from the GUI channels on (line 383 on) is not modelled: creating the simulation controller, spawning and joining threads, and the GUI. These are concurrency and UI.
- The internals of the node constructors (`T::new`, `ChatClient::new`, `MediaClient::new`, `ContentServer::new`, `CommunicationServer::new`) are foreign code. A node is modelled as the arguments its constructor receives.
- Crossbeam channels are modelled as tokens. Sending, receiving, cloning and the queue itself are not modelled. Each event channel is a tag shared by all the nodes of its category.
- The drone drop rate `pdr` is an `f32`. It is carried through as its 32-bit pattern, with no arithmetic on it.
- Node ids are `u8` in the source. They are a subset type of `nat` below 256, and no arithmetic is done on them.
- `drone_factory` filters the packet-sender map by iterating over it. Keys are unique, so at most one entry matches, and the model collapses the filter to a membership test. The model has no hash-map iteration order.
- In the drone loop the source pushes the drone before the sender checks. After a panic that list is never used, so the model returns the panic alone.
- The source performs the per-node lookups of a client or server inline in its construction loop. The model groups them in `Construction.BuildClient` and `Construction.BuildServer`, with the same order of lookups.
- The code has no separate validation pass. Repeated ids are not rejected. A neighbour outside the topology is caught only by a failing lookup: it panics for clients and servers and is silently dropped for drones. No minimum size is checked; the only limit is the ten registered drone factories.
  - Repeated ids are overwritten by map insertion. The model follows the code, and the lemmas that need unique ids take them as a hypothesis.
- The controller's drone directory holds only the drones; clients and servers get one controller table per kind (see `Connectivity.DirectoryReachesDrones`).
- `MissingPacketSender`, `MissingCommandReceiver` and `MissingPacketReceiver` carry an id that the source's `unwrap` panic does not report: that panic reports only a code location. The id is kept so that contracts can say which lookup failed.
