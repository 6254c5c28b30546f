/** The relay server's objects: send queues that hold byte arrays, and readers that
    reuse one buffer for every frame they read. */
module RelayServer {
  import opened Numerals
  import opened Frames
  import opened RelayModel

  datatype OutFrame = OutFrame(typ: byte, body: array<byte>)

  /** The frames a queue of arrays stands for right now. */
  ghost function Queued(q: seq<OutFrame>): seq<Frame>
    reads set f | f in q :: f.body
  {
    if q == [] then [] else Queued(q[..|q| - 1]) + [Frame(q[|q| - 1].typ, q[|q| - 1].body[..])]
  }

  class ServerConn {
    const key: Key
    const buf: array<byte>
    var sendq: seq<OutFrame>
    var closed: bool

    constructor (k: Key)
      ensures key == k && fresh(buf) && buf.Length == MAX_FRAME_LEN && sendq == [] && !closed
    {
      key, buf, sendq, closed := k, new byte[MAX_FRAME_LEN], [], false;
    }

    ghost function Contents(): seq<Frame>
      reads this, set f | f in sendq :: f.body
    {
      Queued(sendq)
    }

    /** The non-blocking send: dropped when the queue is full. */
    method Offer(typ: byte, body: array<byte>) returns (ok: bool)
      modifies this`sendq
      ensures ok == (|old(sendq)| < QUEUE_LEN)
      ensures sendq == if ok then old(sendq) + [OutFrame(typ, body)] else old(sendq)
      ensures Contents() == Appended(old(Contents()), Frame(typ, body[..]))
    {
      QueuedLength(sendq);
      ok := |sendq| < QUEUE_LEN;
      if ok {
        sendq := sendq + [OutFrame(typ, body)];
        assert sendq[..|sendq| - 1] == old(sendq);
        SameBodies(old(sendq));
      }
    }
  }

  /** A queue whose arrays did not change stands for the same frames. */
  twostate lemma {:induction false} SameBodies(q: seq<OutFrame>)
    requires forall f :: f in q ==> f.body[..] == old(f.body[..])
    ensures Queued(q) == old(Queued(q))
  {
    if q != [] { SameBodies(q[..|q| - 1]); }
  }

  method CopyBody(src: Key, buf: array<byte>, n: nat) returns (body: array<byte>)
    requires |src| == 32 && 32 <= n <= buf.Length
    ensures fresh(body) && body[..] == src + buf[32..n]
  {
    body := new byte[n];
    forall i | 0 <= i < 32 { body[i] := src[i]; }
    forall i | 32 <= i < n { body[i] := buf[i]; }
  }

  lemma {:induction false} QueuedLength(q: seq<OutFrame>)
    ensures |Queued(q)| == |q|
  {
    if q != [] { QueuedLength(q[..|q| - 1]); }
  }

  class Server {
    var conns: map<Key, ServerConn>
    var framesForwarded: nat
    var bytesForwarded: nat
    var framesDropped: nat
    ghost var all: set<ServerConn>

    /** No queued body is anyone's read buffer, and no two readers share one. */
    ghost predicate Valid()
      reads this, all
    {
      && (forall k :: k in conns ==> conns[k] in all && conns[k].key == k)
      && (forall a :: a in all ==> |a.key| == 32 && a.buf.Length == MAX_FRAME_LEN)
      && (forall a, b :: a in all && b in all && a != b ==> a.buf != b.buf)
      && (forall a, b, f :: a in all && b in all && f in a.sendq ==> f.body != b.buf)
    }

    constructor ()
      ensures Valid() && conns == map[] && all == {}
    {
      conns, framesForwarded, bytesForwarded, framesDropped, all := map[], 0, 0, 0, {};
    }

    /** A client proved it holds the key: newest connection wins. */
    method Accept(key: Key) returns (sc: ServerConn)
      requires Valid() && |key| == 32
      modifies this, all`closed
      ensures Valid() && fresh(sc) && sc.key == key && all == old(all) + {sc} && conns == old(conns)[key := sc]
      ensures key in old(conns) ==> old(conns)[key].closed
      ensures forall a :: a in old(all) && (key in old(conns) ==> a != old(conns)[key]) ==> a.closed == old(a.closed)
    {
      sc := new ServerConn(key);
      if key in conns { conns[key].closed := true; }
      conns := conns[key := sc];
      all := all + {sc};
    }

    /** The deferred cleanup of a connection: the registry changes only if the
        connection is still the registered one. */
    method Leave(sc: ServerConn)
      requires Valid() && sc in all
      modifies this`conns, sc`closed
      ensures Valid() && sc.closed
      ensures conns == if sc.key in old(conns) && old(conns)[sc.key] == sc then old(conns) - {sc.key} else old(conns)
    {
      if sc.key in conns && conns[sc.key] == sc { conns := conns - {sc.key}; }
      sc.closed := true;
    }

    /** payload is buf[32..n], in the sender's read buffer; the queue gets a copy. */
    method Forward(src: Key, dst: Key, buf: array<byte>, n: nat)
      requires Valid() && |src| == 32 && 32 <= n <= buf.Length
      modifies this`framesForwarded, this`bytesForwarded, this`framesDropped, all`sendq
      ensures Valid()
      ensures forall a :: a in all && !(dst in conns && a == conns[dst]) ==> a.sendq == old(a.sendq)
      ensures dst in conns ==>
                conns[dst].Contents() == Appended(old(conns[dst].Contents()), Frame(RECV_FRAME, src + buf[32..n]))
      ensures dst in conns && |old(conns[dst].sendq)| < QUEUE_LEN ==>
                && framesForwarded == old(framesForwarded) + 1 && bytesForwarded == old(bytesForwarded) + n - 32
                && framesDropped == old(framesDropped)
      ensures !(dst in conns && |old(conns[dst].sendq)| < QUEUE_LEN) ==>
                && framesForwarded == old(framesForwarded) && bytesForwarded == old(bytesForwarded)
                && framesDropped == old(framesDropped) + if dst in conns then 1 else 0
    {
      if dst !in conns { return; }
      var target := conns[dst];
      var body := CopyBody(src, buf, n);
      assert target.Contents() == old(target.Contents());
      var ok := target.Offer(RECV_FRAME, body);
      if ok {
        framesForwarded, bytesForwarded := framesForwarded + 1, bytesForwarded + (n - 32);
      } else {
        framesDropped := framesDropped + 1;
      }
    }

    /** What the queue of a holds after sc's reader handled frame f. */
    ghost function After(a: ServerConn, sc: ServerConn, q: seq<Frame>, f: Frame): seq<Frame>
      reads this`conns
    {
      QueueAfter(q, a == sc, |f.body| >= 32 && f.body[..32] in conns && a == conns[f.body[..32]], sc.key, f)
    }

    method Answer(sc: ServerConn)
      requires Valid() && sc in all
      modifies sc`sendq
      ensures Valid() && sc.Contents() == Appended(old(sc.Contents()), Frame(PONG_FRAME, []))
    {
      var empty := new byte[0];
      assert sc.Contents() == old(sc.Contents()) && empty[..] == [];
      var ok := sc.Offer(PONG_FRAME, empty);
    }

    method Handle(sc: ServerConn, typ: byte, n: nat)
      requires Valid() && sc in all && n <= MAX_FRAME_LEN
      modifies this`framesForwarded, this`bytesForwarded, this`framesDropped, all`sendq
      ensures Valid()
      ensures forall a :: a in all ==> a.Contents() == After(a, sc, old(a.Contents()), Frame(typ, sc.buf[..n]))
    {
      if typ == PING_FRAME {
        Answer(sc);
        forall a | a in all && a != sc ensures a.Contents() == old(a.Contents()) { SameBodies(a.sendq); }
      } else if typ == SEND_FRAME && n >= 32 {
        var dst := sc.buf[..32];
        assert sc.buf[..n][..32] == dst && sc.buf[..n][32..] == sc.buf[32..n];
        Forward(sc.key, dst, sc.buf, n);
        forall a | a in all && !(dst in conns && a == conns[dst]) ensures a.Contents() == old(a.Contents()) {
          SameBodies(a.sendq);
        }
      }
    }

    /** One turn of a connection's read loop.  The frame lands in the reader's buffer,
        over the last one; every queue still holds what it held, and grows by exactly
        the copy or the pong this frame calls for. */
    method ServeOne(sc: ServerConn, rd: Reader) returns (more: bool)
      requires Valid() && sc in all
      modifies this`framesForwarded, this`bytesForwarded, this`framesDropped, all`sendq, sc.buf, rd
      ensures Valid() && more == Readable(old(rd.rest))
      ensures forall a :: a in all ==>
                a.Contents() == if more then After(a, sc, old(a.Contents()), First(old(rd.rest))) else old(a.Contents())
    {
      var got := ReadFrame(rd, sc.buf);
      forall a | a in all ensures a.Contents() == old(a.Contents()) { SameBodies(a.sendq); }
      more := got.Got?;
      if more { Handle(sc, got.typ, got.len); }
    }
  }
}
