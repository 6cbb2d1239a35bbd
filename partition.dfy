/** The order-based rules that split the declared servers into three kinds
    and the declared clients into two. Both the channel-filling loops and the
    node-construction loops of the initializer drive these rules with a
    running counter; here each rule is a function of the position and the
    number of records, and the loops in module Wiring are proved to follow
    them. */
module Partition {

  datatype ServerKind = TextServer | MediaServer | CommunicationServer

  datatype ClientKind = ChatClient | MediaClient

  /** The kind of the server at position `i` of `n`: with `third = n / 3` and
      the counter at `n - i`, a counter above `2 * third` gives a text content
      server, one above `third` a media content server, and the rest become
      communication servers. */
  function ServerKindAt(n: nat, i: nat): ServerKind
    requires i < n
  {
    var third := n / 3;
    var count := n - i;
    if count > third * 2 then TextServer
    else if count > third then MediaServer
    else CommunicationServer
  }

  /** The kind of the client at position `i` of `n`: the first half (rounded
      down) are chat clients, the rest media clients. */
  function ClientKindAt(n: nat, i: nat): ClientKind
    requires i < n
  {
    if i < n / 2 then ChatClient else MediaClient
  }

  function ServerKinds(n: nat): seq<ServerKind> {
    seq(n, i requires 0 <= i < n => ServerKindAt(n, i))
  }

  function ClientKinds(n: nat): seq<ClientKind> {
    seq(n, i requires 0 <= i < n => ClientKindAt(n, i))
  }

  function Repeat<K>(k: K, m: nat): (s: seq<K>)
    ensures |s| == m && forall i :: 0 <= i < m ==> s[i] == k
  {
    seq(m, _ => k)
  }

  /** The mask of the positions whose kind is `k`. */
  function KindMask<K(==)>(kinds: seq<K>, k: K): (sel: seq<bool>)
    ensures |sel| == |kinds| && forall i :: 0 <= i < |kinds| ==> (sel[i] <==> kinds[i] == k)
  {
    seq(|kinds|, i requires 0 <= i < |kinds| => kinds[i] == k)
  }

  /** The servers split into three consecutive blocks in declaration order:
      `n - 2 * (n / 3)` text servers, then `n / 3` media servers, then `n / 3`
      communication servers. */
  lemma ServerKindsAreBlocks(n: nat)
    ensures ServerKinds(n)
         == Repeat(TextServer, n - 2 * (n / 3)) + Repeat(MediaServer, n / 3) + Repeat(CommunicationServer, n / 3)
  {
    var blocks := Repeat(TextServer, n - 2 * (n / 3)) + Repeat(MediaServer, n / 3) + Repeat(CommunicationServer, n / 3);
    forall i | 0 <= i < n
      ensures ServerKinds(n)[i] == blocks[i]
    {
      if i < n - 2 * (n / 3) {
        assert blocks[i] == TextServer;
      } else if i < n - n / 3 {
        assert blocks[i] == MediaServer;
      } else {
        assert blocks[i] == CommunicationServer;
      }
    }
  }

  /** The clients split into two consecutive blocks in declaration order:
      `n / 2` chat clients, then `n - n / 2` media clients. */
  lemma ClientKindsAreBlocks(n: nat)
    ensures ClientKinds(n) == Repeat(ChatClient, n / 2) + Repeat(MediaClient, n - n / 2)
  {
    var blocks := Repeat(ChatClient, n / 2) + Repeat(MediaClient, n - n / 2);
    forall i | 0 <= i < n
      ensures ClientKinds(n)[i] == blocks[i]
    {
      if i < n / 2 {
        assert blocks[i] == ChatClient;
      } else {
        assert blocks[i] == MediaClient;
      }
    }
  }

  lemma {:induction false} RepeatCount<K>(k: K, m: nat, other: K)
    ensures multiset(Repeat(k, m))[k] == m
    ensures other != k ==> multiset(Repeat(k, m))[other] == 0
  {
    if m > 0 {
      assert Repeat(k, m) == Repeat(k, m - 1) + [k];
      RepeatCount(k, m - 1, other);
    } else {
      assert Repeat(k, m) == [];
    }
  }

  /** How many servers of each kind: `n - 2 * (n / 3)` text, `n / 3` media and
      `n / 3` communication servers. */
  lemma ServerKindCounts(n: nat)
    ensures multiset(ServerKinds(n))[TextServer] == n - 2 * (n / 3)
    ensures multiset(ServerKinds(n))[MediaServer] == n / 3
    ensures multiset(ServerKinds(n))[CommunicationServer] == n / 3
  {
    ServerKindsAreBlocks(n);
    RepeatCount(TextServer, n - 2 * (n / 3), MediaServer);
    RepeatCount(TextServer, n - 2 * (n / 3), CommunicationServer);
    RepeatCount(MediaServer, n / 3, TextServer);
    RepeatCount(MediaServer, n / 3, CommunicationServer);
    RepeatCount(CommunicationServer, n / 3, TextServer);
    RepeatCount(CommunicationServer, n / 3, MediaServer);
  }

  /** How many clients of each kind: `n / 2` chat and `n - n / 2` media. */
  lemma ClientKindCounts(n: nat)
    ensures multiset(ClientKinds(n))[ChatClient] == n / 2
    ensures multiset(ClientKinds(n))[MediaClient] == n - n / 2
  {
    ClientKindsAreBlocks(n);
    RepeatCount(ChatClient, n / 2, MediaClient);
    RepeatCount(MediaClient, n - n / 2, ChatClient);
  }
}
