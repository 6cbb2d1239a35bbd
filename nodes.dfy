/** What the initializer hands to each node constructor, the ways the wiring
    aborts, and the order in which aborts are reported. */
module Nodes {
  import opened Topology
  import opened Channels
  import opened Partition

  /** The ten drone implementations whose factories are registered. */
  datatype DroneImpl =
    | RustyDrone
    | LeDronJames
    | DrOnes
    | SkyLinkDrone
    | RustBustersDrone
    | RustRoveri
    | RustDoIt
    | RustDrone
    | NullPointerDrone
    | LockheedRustin

  /** The drone factories in registration order; the drone declared at
      position k is built by factory k. */
  const Factories: seq<DroneImpl> := [
    RustyDrone, LeDronJames, DrOnes, SkyLinkDrone, RustBustersDrone,
    RustRoveri, RustDoIt, RustDrone, NullPointerDrone, LockheedRustin
  ]

  datatype Role =
    | Drone(impl: DroneImpl, pdr: Pdr)
    | Client(clientKind: ClientKind)
    | Server(serverKind: ServerKind)

  /** The arguments a node constructor receives: its id, its role (for a
      content server, the server type; for a drone, the implementation and the
      drop rate), the event stream it reports to, the receiver ends of its
      command and inbound packet channels, and its outbound packet senders
      keyed by neighbour id. */
  datatype Node = Node(
    id: NodeId,
    role: Role,
    events: EventStream,
    commandRecv: Channel,
    packetRecv: Channel,
    packetSend: map<NodeId, Channel>)

  /** The panics of the wiring stage, each with the id it concerns; the
      three `Missing` cases stand for an `unwrap` whose panic reports no
      id. */
  datatype Abort =
    | PacketReceiverNotFound(drone: NodeId)
    | CommandReceiverNotFound(drone: NodeId)
    | NoFactoryDefined(drone: NodeId)
    | PacketSenderNotFound(drone: NodeId)
    | CommandSenderNotFound(drone: NodeId)
    | MissingPacketSender(neighbour: NodeId)
    | MissingCommandReceiver(node: NodeId)
    | MissingPacketReceiver(node: NodeId)

  datatype Option<T> = None | Some(value: T)

  datatype Result<T> = Ok(value: T) | Err(error: Abort)

  /** The outbound packet senders of a node that declares `declared`: for
      exactly those declared neighbours that have an entry in `table`, that
      entry. */
  function Outbound(declared: seq<NodeId>, table: map<NodeId, Channel>): map<NodeId, Channel> {
    map x | x in declared && x in table :: table[x]
  }

  /** Looking at one more declared neighbour adds its entry, if it has one. */
  lemma OutboundStep(declared: seq<NodeId>, table: map<NodeId, Channel>, k: nat)
    requires k < |declared|
    ensures Outbound(declared[..k + 1], table)
         == if declared[k] in table then Outbound(declared[..k], table)[declared[k] := table[declared[k]]]
            else Outbound(declared[..k], table)
  {
    assert declared[..k + 1] == declared[..k] + [declared[k]];
  }

  /** Node `n` was built for `id` with `role` and `events`, took its command
      and inbound packet receivers from the entries for `id` in `commandRecv`
      and `packetRecv`, and its outbound senders from `packetSend`, filtered by
      its declared neighbours. */
  predicate Wired(
    n: Node, id: NodeId, role: Role, events: EventStream,
    commandRecv: map<NodeId, Channel>, packetRecv: map<NodeId, Channel>, packetSend: map<NodeId, Channel>,
    declared: seq<NodeId>)
  {
    && id in commandRecv && id in packetRecv
    && n == Node(id, role, events, commandRecv[id], packetRecv[id], Outbound(declared, packetSend))
  }

  /** The first element of `s` that is not in `present`, if any. */
  function FirstMissing(s: seq<NodeId>, present: set<NodeId>): (r: Option<NodeId>)
    ensures r.None? <==> forall j :: 0 <= j < |s| ==> s[j] in present
    ensures r.Some? ==> r.value !in present && exists i :: 0 <= i < |s| && s[i] == r.value && forall j :: 0 <= j < i ==> s[j] in present
  {
    if |s| == 0 then None
    else if s[0] !in present then Some(s[0])
    else
      var r := FirstMissing(s[1..], present);
      assert forall j :: 1 <= j < |s| ==> s[j] == s[1..][j - 1];
      r
  }

  /** A miss at position `i` after `i` hits is the first miss. */
  lemma FirstMissingAt(s: seq<NodeId>, present: set<NodeId>, i: nat)
    requires i < |s| && s[i] !in present
    requires forall j :: 0 <= j < i ==> s[j] in present
    ensures FirstMissing(s, present) == Some(s[i])
  {
    assert FirstMissing(s, present).Some?;
  }

  /** Looking up a concatenation of lists reports the first miss of the first
      list that has one. */
  lemma {:induction false} FirstMissingAppend(a: seq<NodeId>, b: seq<NodeId>, present: set<NodeId>)
    ensures FirstMissing(a + b, present) == if FirstMissing(a, present).Some? then FirstMissing(a, present) else FirstMissing(b, present)
  {
    if |a| > 0 {
      assert (a + b)[0] == a[0];
      assert (a + b)[1..] == a[1..] + b;
      if a[0] in present {
        FirstMissingAppend(a[1..], b, present);
      }
    } else {
      assert a + b == b;
    }
  }
}
