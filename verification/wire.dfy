/** The client side of a TCP connection, seen through `recv` and `sendall`:
    the chunks the peer has sent and that are still to be received, in order,
    and every byte this side has sent. Once the chunks are exhausted the peer
    has closed the connection and `recv` returns no bytes. */
module Wire {
  import opened Base

  /** The bytes of a sequence of chunks, in order. */
  function Flatten(chunks: seq<seq<byte>>): seq<byte>
  {
    if chunks == [] then [] else chunks[0] + Flatten(chunks[1..])
  }

  class Socket {
    var incoming: seq<seq<byte>>
    var sent: seq<byte>

    /** A chunk delivered by the network is never empty: an empty read means
        the connection was closed. */
    ghost predicate Valid()
      reads this
    {
      forall k :: 0 <= k < |incoming| ==> incoming[k] != []
    }

    /** The bytes still to be received. */
    function Pending(): seq<byte>
      reads this
    {
      Flatten(incoming)
    }

    constructor (chunks: seq<seq<byte>>)
      requires forall k :: 0 <= k < |chunks| ==> chunks[k] != []
      ensures Valid() && incoming == chunks && sent == []
    {
      incoming := chunks;
      sent := [];
    }

    /** `recv(n)`: at most n of the next bytes, taken from the chunk at the head
        of the queue; no bytes only when n is 0 or the connection is closed. */
    method Recv(n: nat) returns (data: seq<byte>)
      requires Valid()
      modifies this`incoming
      ensures Valid()
      ensures |data| <= n && |data| <= |old(Pending())|
      ensures data == old(Pending())[..|data|]
      ensures Pending() == old(Pending())[|data|..]
      ensures data == [] <==> n == 0 || old(Pending()) == []
    {
      if n == 0 || incoming == [] {
        data := [];
        assert incoming == [] ==> Pending() == [];
        return;
      }
      var head := incoming[0];
      assert Pending() == head + Flatten(incoming[1..]);
      if |head| <= n {
        data := head;
        incoming := incoming[1..];
      } else {
        data := head[..n];
        incoming := [head[n..]] + incoming[1..];
        assert incoming[1..] == old(incoming)[1..];
        assert Pending() == head[n..] + Flatten(old(incoming)[1..]);
      }
    }

    /** `sendall(data)`. */
    method SendAll(data: seq<byte>)
      modifies this`sent
      ensures sent == old(sent) + data
    {
      sent := sent + data;
    }
  }
}
