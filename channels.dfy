/** Channels as opaque tokens. Every call to `unbounded()` in the initializer
    creates one channel; a token names it by what it carries, the id it was
    created for, and the loop iteration that created it (which loop, which
    index). Both ends of a channel carry the same token, so "a node holds the
    sender of channel c" and "a node holds the receiver of channel c" are
    stated with one value. Tables are maps from node id to token, filled by
    map insertion, so a later insertion under the same id replaces an earlier
    one. */
module Channels {
  import opened Topology
  import opened Maps

  /** The filling loop that created a channel. */
  datatype Place = Drones | Servers | Clients

  /** What a channel carries. */
  datatype Family =
    | Packet
    | DroneCommand
    | TextServerCommand
    | MediaServerCommand
    | CommunicationServerCommand
    | ChatClientCommand
    | MediaClientCommand

  datatype Channel = Channel(family: Family, owner: NodeId, place: Place, index: nat)

  /** The event channels, one per node category, created once each before the
      filling loops; every node of a category gets a clone of its sender. */
  datatype EventStream =
    | DroneEvents
    | TextServerEvents
    | MediaServerEvents
    | CommunicationServerEvents
    | ChatClientEvents
    | MediaClientEvents

  /** The channels a filling loop creates, one per position of `ids`. */
  function Created(family: Family, place: Place, ids: seq<NodeId>): (cs: seq<Channel>)
    ensures |cs| == |ids|
  {
    seq(|ids|, i requires 0 <= i < |ids| => Channel(family, ids[i], place, i))
  }

  /** The table left behind by a loop that, at each position `i` of `ids` the
      mask keeps, creates a fresh channel of `family` and inserts it under
      `ids[i]`. */
  function Allocation(family: Family, place: Place, ids: seq<NodeId>, sel: seq<bool>): map<NodeId, Channel>
    requires |sel| == |ids|
  {
    Filled(ids, sel, Created(family, place, ids))
  }

  /** The keys of such a table are the kept ids, and each id holds the
      channel created for it at the last kept position that declared it. */
  lemma AllocationSpec(family: Family, place: Place, ids: seq<NodeId>, sel: seq<bool>)
    requires |sel| == |ids|
    ensures Allocation(family, place, ids, sel).Keys == Selected(ids, sel)
    ensures forall x :: x in Allocation(family, place, ids, sel) ==>
              var c := Allocation(family, place, ids, sel)[x];
              && c.family == family && c.owner == x && c.place == place
              && c.index < |ids| && ids[c.index] == x && sel[c.index]
              && forall j :: c.index < j < |ids| && ids[j] == x ==> !sel[j]
  {
    FilledSpec(ids, sel, Created(family, place, ids));
  }

  /** The packet channel created in the same iteration as command channel `c`. */
  function PacketTwin(c: Channel): Channel {
    Channel(Packet, c.owner, c.place, c.index)
  }

  /** The controller-side table of a client or server category: under each
      id, the command sender from the receiver table `recv` paired with the
      packet sender created in the same iteration. */
  function Twins(recv: map<NodeId, Channel>): (send: map<NodeId, (Channel, Channel)>)
    ensures send.Keys == recv.Keys
    ensures forall x :: x in send ==> send[x].0 == recv[x] && send[x].1 == PacketTwin(recv[x])
  {
    map x | x in recv :: (recv[x], PacketTwin(recv[x]))
  }

  /** Inserting a receiver inserts its pair into the controller-side table. */
  lemma TwinsInsert(recv: map<NodeId, Channel>, x: NodeId, c: Channel)
    ensures Twins(recv[x := c]) == Twins(recv)[x := (c, PacketTwin(c))]
  {
  }
}
