/** The relay server, internal/relay/server.go, as a transition system: authenticated
    connections, a registry in which the newest connection for a key wins, bounded send
    queues, and readers that look a target up under the lock but enqueue outside it. */
module RelayModel {
  import opened Numerals
  import opened Frames

  const SEND_FRAME: byte := 4
  const RECV_FRAME: byte := 5
  const PING_FRAME: byte := 6
  const PONG_FRAME: byte := 7
  const QUEUE_LEN: nat := 256

  type Key = seq<byte>

  /** A queued frame.  `from` and `at` are history: the connection whose reader queued
      it and the position of the Send frame among the frames read there. */
  datatype Item = Pong | Recv(src: Key, payload: seq<byte>, from: nat, at: nat)

  /** What writeFrame is given for an item. */
  function Wire(x: Item): Frame {
    match x
    case Pong => Frame(PONG_FRAME, [])
    case Recv(src, payload, _, _) => Frame(RECV_FRAME, src + payload)
  }

  datatype Todo = Idle | Forward(target: nat, item: Item)

  /** todo is the forward between its registry lookup and its enqueue. */
  datatype Conn = Conn(key: Key, read: seq<Frame>, todo: Todo, wrote: seq<Item>, queue: seq<Item>, open: bool,
                       gone: bool)

  function Stream(c: Conn): seq<Item> { c.wrote + c.queue }

  datatype State = State(conns: seq<Conn>, registry: map<Key, nat>, frames: nat, bytes: nat, dropped: nat)

  const START: State := State([], map[], 0, 0, 0)

  function Shut(cs: seq<Conn>, c: nat): seq<Conn>
    requires c < |cs|
  {
    cs[c := cs[c].(open := false)]
  }

  /** A client proved it holds `key`: its new connection replaces and closes the old one. */
  function Connect(s: State, key: Key): State {
    var cs := if key in s.registry && s.registry[key] < |s.conns| then Shut(s.conns, s.registry[key]) else s.conns;
    s.(conns := cs + [Conn(key, [], Idle, [], [], true, false)], registry := s.registry[key := |cs|])
  }

  predicate IsSend(f: Frame) { f.typ == SEND_FRAME && |f.body| >= 32 }

  /** The reader of c takes one frame; a Send is looked up in the registry. */
  function Read(s: State, c: nat, f: Frame): State
    requires c < |s.conns|
  {
    var x := s.conns[c];
    var at := |x.read|;
    var x1 := x.(read := x.read + [f]);
    var x2 := if f.typ == PING_FRAME && |x.queue| < QUEUE_LEN then x1.(queue := x.queue + [Pong])
              else if IsSend(f) && f.body[..32] in s.registry
              then x1.(todo := Forward(s.registry[f.body[..32]], Recv(x.key, f.body[32..], c, at)))
              else x1;
    s.(conns := s.conns[c := x2])
  }

  /** The looked-up target gets the frame unless its queue is full. */
  function Enqueue(s: State, c: nat): State
    requires c < |s.conns| && s.conns[c].todo.Forward? && s.conns[c].todo.target < |s.conns|
             && s.conns[c].todo.item.Recv?
  {
    var t, x := s.conns[c].todo.target, s.conns[c].todo.item;
    var cs := s.conns[c := s.conns[c].(todo := Idle)];
    if |cs[t].queue| < QUEUE_LEN then
      s.(conns := cs[t := cs[t].(queue := cs[t].queue + [x])], frames := s.frames + 1, bytes := s.bytes + |x.payload|)
    else s.(conns := cs, dropped := s.dropped + 1)
  }

  /** The writer of c takes the head of the queue; a failed write closes the connection. */
  function Write(s: State, c: nat, ok: bool): State
    requires c < |s.conns| && s.conns[c].queue != []
  {
    var x := s.conns[c];
    s.(conns := s.conns[c := x.(wrote := x.wrote + [x.queue[0]], queue := x.queue[1..], open := x.open && ok)])
  }

  /** The reader's exit: deregister only if still the registered connection. */
  function Cleanup(s: State, c: nat): State
    requires c < |s.conns|
  {
    var key := s.conns[c].key;
    s.(conns := s.conns[c := s.conns[c].(open := false, gone := true)],
       registry := if key in s.registry && s.registry[key] == c then s.registry - {key} else s.registry)
  }

  datatype Step =
    | Connects(key: Key)
    | Reads(c: nat, f: Frame)
    | Enqueues(c: nat)
    | Writes(c: nat, ok: bool)
    | Cleans(c: nat)

  /** A reader takes its next frame, or exits, only when it is done with the last one. */
  predicate Enabled(s: State, e: Step) {
    match e
    case Connects(key) => |key| == 32
    case Reads(c, f) => c < |s.conns| && !s.conns[c].gone && s.conns[c].todo.Idle? && Fits(f)
    case Enqueues(c) =>
      c < |s.conns| && s.conns[c].todo.Forward? && s.conns[c].todo.target < |s.conns| && s.conns[c].todo.item.Recv?
    case Writes(c, _) => c < |s.conns| && s.conns[c].queue != []
    case Cleans(c) => c < |s.conns| && !s.conns[c].gone && s.conns[c].todo.Idle?
  }

  function Apply(s: State, e: Step): State
    requires Enabled(s, e)
  {
    match e
    case Connects(key) => Connect(s, key)
    case Reads(c, f) => Read(s, c, f)
    case Enqueues(c) => Enqueue(s, c)
    case Writes(c, ok) => Write(s, c, ok)
    case Cleans(c) => Cleanup(s, c)
  }

  // ---------------------------------------------------------------- one frame, queue by queue

  function Appended(q: seq<Frame>, f: Frame): seq<Frame> { if |q| < QUEUE_LEN then q + [f] else q }

  /** What a queue holds after the reader of the connection with this key handled f; `own`
      is that connection's queue, `addressed` that of the connection f's body names. */
  function QueueAfter(q: seq<Frame>, own: bool, addressed: bool, key: Key, f: Frame): seq<Frame> {
    if f.typ == PING_FRAME then (if own then Appended(q, Frame(PONG_FRAME, [])) else q)
    else if IsSend(f) && addressed then Appended(q, Frame(RECV_FRAME, key + f.body[32..]))
    else q
  }

  function Wires(xs: seq<Item>): seq<Frame> { seq(|xs|, i requires 0 <= i < |xs| => Wire(xs[i])) }

  lemma WiresNext(xs: seq<Item>, x: Item)
    ensures Wires(xs + [x]) == Wires(xs) + [Wire(x)]
  {
  }

  /** Reading a frame and, if it is to be forwarded, enqueueing it. */
  function Served(s: State, c: nat, f: Frame): State
    requires c < |s.conns| && s.conns[c].todo.Idle? && forall k :: k in s.registry ==> s.registry[k] < |s.conns|
  {
    var s' := Read(s, c, f);
    if s'.conns[c].todo.Forward? then Enqueue(s', c) else s'
  }

  /** The two steps together do to every queue, as the frames it stands for, what the
      server's read loop does. */
  lemma ServedQueues(s: State, c: nat, f: Frame, a: nat)
    requires c < |s.conns| && s.conns[c].todo.Idle? && forall k :: k in s.registry ==> s.registry[k] < |s.conns|
    requires a < |s.conns|
    ensures a < |Served(s, c, f).conns|
    ensures Wires(Served(s, c, f).conns[a].queue)
         == QueueAfter(Wires(s.conns[a].queue), a == c,
                       |f.body| >= 32 && f.body[..32] in s.registry && s.registry[f.body[..32]] == a, s.conns[c].key, f)
  {
    var x := s.conns[c];
    WiresNext(s.conns[a].queue, Pong);
    if IsSend(f) { WiresNext(s.conns[a].queue, Recv(x.key, f.body[32..], c, |x.read|)); }
  }

  // ---------------------------------------------------------------- where frames come from

  /** The item was made from the Send frame at its position: addressed to dst, read on
      the connection authenticated as the stamped source, payload intact. */
  predicate FromSend(cs: seq<Conn>, dst: Key, x: Item) {
    x.Recv? ==>
      && x.from < |cs| && cs[x.from].key == x.src && x.at < |cs[x.from].read|
      && var f := cs[x.from].read[x.at]; Fits(f) && IsSend(f) && f.body == dst + x.payload
  }

  /** The first position whose frame has not been handed on yet. */
  function Done(c: Conn): nat { if c.todo.Forward? && c.todo.item.Recv? then c.todo.item.at else |c.read| }

  /** Per source connection the items are in the order their Sends were read. */
  predicate Fifo(xs: seq<Item>) {
    forall i, j :: 0 <= i < j < |xs| && xs[i].Recv? && xs[j].Recv? && xs[i].from == xs[j].from ==> xs[i].at < xs[j].at
  }

  predicate ItemOk(cs: seq<Conn>, dst: Key, x: Item) {
    FromSend(cs, dst, x) && (x.Recv? ==> x.at < Done(cs[x.from]))
  }

  ghost predicate ConnOk(cs: seq<Conn>, c: nat)
    requires c < |cs|
  {
    && |cs[c].key| == 32 && |cs[c].queue| <= QUEUE_LEN && Fifo(Stream(cs[c]))
    && (forall x :: x in Stream(cs[c]) ==> ItemOk(cs, cs[c].key, x))
  }

  predicate TodoOk(cs: seq<Conn>, c: nat)
    requires c < |cs|
  {
    cs[c].todo.Forward? ==>
      var t, x := cs[c].todo.target, cs[c].todo.item;
      !cs[c].gone && t < |cs| && x.Recv? && x.from == c && FromSend(cs, cs[t].key, x) && x.at == |cs[c].read| - 1
  }

  /** Registered connections are live, under their own key, and the newest for it;
      every other connection is closed. */
  ghost predicate RegistryOk(cs: seq<Conn>, registry: map<Key, nat>) {
    && (forall k :: k in registry ==> registry[k] < |cs| && cs[registry[k]].key == k && !cs[registry[k]].gone)
    && (forall c :: 0 <= c < |cs| && cs[c].key in registry ==> c <= registry[cs[c].key])
    && (forall c :: 0 <= c < |cs| && cs[c].open ==> cs[c].key in registry && registry[cs[c].key] == c)
  }

  ghost predicate ConnsOk(cs: seq<Conn>) {
    forall c :: 0 <= c < |cs| ==> ConnOk(cs, c) && TodoOk(cs, c)
  }

  function RecvCount(xs: seq<Item>): nat {
    if xs == [] then 0 else RecvCount(xs[..|xs| - 1]) + if xs[|xs| - 1].Recv? then 1 else 0
  }

  function RecvBytes(xs: seq<Item>): nat {
    if xs == [] then 0 else RecvBytes(xs[..|xs| - 1]) + if xs[|xs| - 1].Recv? then |xs[|xs| - 1].payload| else 0
  }

  function AllFrames(cs: seq<Conn>): nat {
    if cs == [] then 0 else AllFrames(cs[..|cs| - 1]) + RecvCount(Stream(cs[|cs| - 1]))
  }

  function AllBytes(cs: seq<Conn>): nat {
    if cs == [] then 0 else AllBytes(cs[..|cs| - 1]) + RecvBytes(Stream(cs[|cs| - 1]))
  }

  ghost predicate Inv(s: State) {
    && ConnsOk(s.conns) && RegistryOk(s.conns, s.registry)
    && s.frames == AllFrames(s.conns) && s.bytes == AllBytes(s.conns)
  }

  // ---------------------------------------------------------------- counters

  lemma {:induction false} CountsUpdate(cs: seq<Conn>, c: nat, x: Conn)
    requires c < |cs|
    ensures AllFrames(cs[c := x]) + RecvCount(Stream(cs[c])) == AllFrames(cs) + RecvCount(Stream(x))
    ensures AllBytes(cs[c := x]) + RecvBytes(Stream(cs[c])) == AllBytes(cs) + RecvBytes(Stream(x))
  {
    var m := |cs| - 1;
    if c < m {
      assert cs[c := x][..m] == cs[..m][c := x];
      CountsUpdate(cs[..m], c, x);
    } else {
      assert cs[c := x][..m] == cs[..m];
    }
  }

  lemma CountsAppend(cs: seq<Conn>, x: Conn)
    requires Stream(x) == []
    ensures AllFrames(cs + [x]) == AllFrames(cs) && AllBytes(cs + [x]) == AllBytes(cs)
  {
    assert (cs + [x])[..|cs|] == cs;
  }

  lemma CountsSnoc(xs: seq<Item>, x: Item)
    ensures RecvCount(xs + [x]) == RecvCount(xs) + if x.Recv? then 1 else 0
    ensures RecvBytes(xs + [x]) == RecvBytes(xs) + if x.Recv? then |x.payload| else 0
  {
    assert (xs + [x])[..|xs|] == xs;
  }

  // ---------------------------------------------------------------- every step keeps it

  /** Keys stay, frames read stay, and no position is handed on twice. */
  predicate Grows(cs: seq<Conn>, cs': seq<Conn>) {
    && |cs| <= |cs'|
    && forall c :: 0 <= c < |cs| ==>
         cs'[c].key == cs[c].key && cs[c].read <= cs'[c].read && Done(cs[c]) <= Done(cs'[c])
  }

  lemma ItemGrows(cs: seq<Conn>, cs': seq<Conn>, dst: Key, x: Item)
    requires Grows(cs, cs')
    ensures FromSend(cs, dst, x) ==> FromSend(cs', dst, x)
    ensures ItemOk(cs, dst, x) ==> ItemOk(cs', dst, x)
  {
  }

  /** A connection whose queue changed only at its head. */
  lemma ConnGrows(cs: seq<Conn>, cs': seq<Conn>, c: nat)
    requires Grows(cs, cs') && c < |cs| && ConnOk(cs, c)
    requires Stream(cs'[c]) == Stream(cs[c]) && |cs'[c].queue| <= QUEUE_LEN
    ensures ConnOk(cs', c)
  {
    forall x | x in Stream(cs'[c]) ensures ItemOk(cs', cs'[c].key, x) { ItemGrows(cs, cs', cs[c].key, x); }
  }

  lemma TodoGrows(cs: seq<Conn>, cs': seq<Conn>, c: nat)
    requires Grows(cs, cs') && c < |cs| && TodoOk(cs, c)
    requires cs'[c].todo == cs[c].todo && cs'[c].gone == cs[c].gone && |cs'[c].read| == |cs[c].read|
    ensures TodoOk(cs', c)
  {
    if cs[c].todo.Forward? { ItemGrows(cs, cs', cs[cs[c].todo.target].key, cs[c].todo.item); }
  }

  lemma PushKeeps(cs: seq<Conn>, cs': seq<Conn>, t: nat, x: Item)
    requires Grows(cs, cs') && t < |cs| && ConnOk(cs, t) && ItemOk(cs', cs[t].key, x)
    requires x.Recv? ==> x.from < |cs| && Done(cs[x.from]) <= x.at
    requires Stream(cs'[t]) == Stream(cs[t]) + [x] && |cs'[t].queue| <= QUEUE_LEN
    ensures ConnOk(cs', t)
  {
    var xs := Stream(cs[t]);
    forall y | y in Stream(cs'[t]) ensures ItemOk(cs', cs'[t].key, y) {
      if y in xs { ItemGrows(cs, cs', cs[t].key, y); }
    }
    forall i | 0 <= i < |xs| && xs[i].Recv? && x.Recv? && xs[i].from == x.from ensures xs[i].at < x.at {
      assert ItemOk(cs, cs[t].key, xs[i]);
    }
  }

  lemma ReadKeeps(cs: seq<Conn>, c: nat, x: Conn, f: Frame)
    requires ConnsOk(cs) && c < |cs| && cs[c].todo.Idle? && !cs[c].gone && Fits(f)
    requires x == cs[c].(read := cs[c].read + [f], todo := x.todo, queue := x.queue)
    requires x.queue == cs[c].queue || (x.queue == cs[c].queue + [Pong] && |cs[c].queue| < QUEUE_LEN)
    requires x.todo.Forward? ==>
               && x.todo.target < |cs| && IsSend(f) && cs[x.todo.target].key == f.body[..32]
               && x.todo.item == Recv(cs[c].key, f.body[32..], c, |cs[c].read|)
    ensures ConnsOk(cs[c := x])
  {
    var cs' := cs[c := x];
    assert Grows(cs, cs');
    forall d | 0 <= d < |cs'| ensures ConnOk(cs', d) && TodoOk(cs', d) {
      assert ConnOk(cs, d) && TodoOk(cs, d);
      if d != c {
        ConnGrows(cs, cs', d);
        TodoGrows(cs, cs', d);
      } else if x.queue == cs[c].queue {
        ConnGrows(cs, cs', c);
      } else {
        assert Stream(x) == Stream(cs[c]) + [Pong];
        PushKeeps(cs, cs', c, Pong);
      }
    }
    if IsSend(f) { assert f.body[..32] + f.body[32..] == f.body; }
  }

  lemma EnqueueKeeps(s: State, c: nat)
    requires ConnsOk(s.conns) && Enabled(s, Enqueues(c))
    ensures ConnsOk(Enqueue(s, c).conns)
  {
    var cs, cs' := s.conns, Enqueue(s, c).conns;
    var t, x := cs[c].todo.target, cs[c].todo.item;
    assert TodoOk(cs, c) && Grows(cs, cs');
    forall d | 0 <= d < |cs'| ensures ConnOk(cs', d) && TodoOk(cs', d) {
      assert ConnOk(cs, d) && TodoOk(cs, d);
      if d == t && |cs[t].queue| < QUEUE_LEN {
        assert Stream(cs'[t]) == Stream(cs[t]) + [x];
        ItemGrows(cs, cs', cs[t].key, x);
        PushKeeps(cs, cs', t, x);
      } else {
        ConnGrows(cs, cs', d);
      }
      if d != c { TodoGrows(cs, cs', d); }
    }
  }

  lemma QuietKeeps(cs: seq<Conn>, c: nat, x: Conn)
    requires ConnsOk(cs) && c < |cs| && Stream(x) == Stream(cs[c]) && |x.queue| <= QUEUE_LEN
    requires x == cs[c].(wrote := x.wrote, queue := x.queue, open := x.open, gone := x.gone)
    requires x.gone == cs[c].gone || x.todo.Idle?
    ensures ConnsOk(cs[c := x])
  {
    var cs' := cs[c := x];
    assert Grows(cs, cs');
    forall d | 0 <= d < |cs'| ensures ConnOk(cs', d) && TodoOk(cs', d) {
      assert ConnOk(cs, d) && TodoOk(cs, d);
      ConnGrows(cs, cs', d);
      if d != c || x.gone == cs[c].gone { TodoGrows(cs, cs', d); }
    }
  }

  lemma AppendKeeps(cs: seq<Conn>, key: Key)
    requires ConnsOk(cs) && |key| == 32
    ensures ConnsOk(cs + [Conn(key, [], Idle, [], [], true, false)])
  {
    var cs' := cs + [Conn(key, [], Idle, [], [], true, false)];
    assert Grows(cs, cs');
    forall d | 0 <= d < |cs'| ensures ConnOk(cs', d) && TodoOk(cs', d) {
      if d < |cs| {
        assert ConnOk(cs, d) && TodoOk(cs, d);
        ConnGrows(cs, cs', d);
        TodoGrows(cs, cs', d);
      }
    }
  }

  lemma ConnectRegistry(cs: seq<Conn>, registry: map<Key, nat>, key: Key)
    requires RegistryOk(cs, registry)
    ensures var cs0 := if key in registry then Shut(cs, registry[key]) else cs;
            var cs' := cs0 + [Conn(key, [], Idle, [], [], true, false)];
            RegistryOk(cs', registry[key := |cs|])
  {
  }

  lemma ConnectKeeps(s: State, key: Key)
    requires Inv(s) && |key| == 32
    ensures Inv(Connect(s, key))
  {
    var cs := if key in s.registry then Shut(s.conns, s.registry[key]) else s.conns;
    if key in s.registry {
      var c := s.registry[key];
      assert ConnOk(s.conns, c);
      QuietKeeps(s.conns, c, s.conns[c].(open := false));
      CountsUpdate(s.conns, c, s.conns[c].(open := false));
    }
    AppendKeeps(cs, key);
    ConnectRegistry(s.conns, s.registry, key);
    CountsAppend(cs, Conn(key, [], Idle, [], [], true, false));
  }

  lemma RegistrySame(cs: seq<Conn>, cs': seq<Conn>, registry: map<Key, nat>)
    requires RegistryOk(cs, registry) && |cs'| == |cs|
    requires forall c :: 0 <= c < |cs| ==>
               cs'[c].key == cs[c].key && cs'[c].gone == cs[c].gone && (cs'[c].open ==> cs[c].open)
    ensures RegistryOk(cs', registry)
  {
  }

  lemma ReadsKeep(s: State, c: nat, f: Frame)
    requires Inv(s) && Enabled(s, Reads(c, f))
    ensures Inv(Read(s, c, f))
  {
    var s' := Read(s, c, f);
    ReadKeeps(s.conns, c, s'.conns[c], f);
    RegistrySame(s.conns, s'.conns, s.registry);
    CountsUpdate(s.conns, c, s'.conns[c]);
    if s'.conns[c].queue != s.conns[c].queue {
      assert Stream(s'.conns[c]) == Stream(s.conns[c]) + [Pong];
      CountsSnoc(Stream(s.conns[c]), Pong);
    }
  }

  lemma EnqueuesKeep(s: State, c: nat)
    requires Inv(s) && Enabled(s, Enqueues(c))
    ensures Inv(Enqueue(s, c))
  {
    EnqueueKeeps(s, c);
    RegistrySame(s.conns, Enqueue(s, c).conns, s.registry);
    EnqueueCounts(s, c);
  }

  lemma EnqueueCounts(s: State, c: nat)
    requires Enabled(s, Enqueues(c)) && s.frames == AllFrames(s.conns) && s.bytes == AllBytes(s.conns)
    ensures var s' := Enqueue(s, c); s'.frames == AllFrames(s'.conns) && s'.bytes == AllBytes(s'.conns)
  {
    var idle := s.conns[c].(todo := Idle);
    CountsUpdate(s.conns, c, idle);
    assert Stream(idle) == Stream(s.conns[c]);
    QueueCounts(s.conns[c := idle], s.conns[c].todo.target, s.conns[c].todo.item);
  }

  lemma QueueCounts(cs: seq<Conn>, t: nat, x: Item)
    requires t < |cs| && x.Recv?
    ensures var cs' := cs[t := cs[t].(queue := cs[t].queue + [x])];
            AllFrames(cs') == AllFrames(cs) + 1 && AllBytes(cs') == AllBytes(cs) + |x.payload|
  {
    var c := cs[t].(queue := cs[t].queue + [x]);
    CountsUpdate(cs, t, c);
    assert Stream(c) == Stream(cs[t]) + [x];
    CountsSnoc(Stream(cs[t]), x);
  }

  lemma WritesKeep(s: State, c: nat, ok: bool)
    requires Inv(s) && Enabled(s, Writes(c, ok))
    ensures Inv(Write(s, c, ok))
  {
    var s', q := Write(s, c, ok), s.conns[c].queue;
    assert q == [q[0]] + q[1..];
    assert Stream(s'.conns[c]) == Stream(s.conns[c]);
    assert ConnOk(s.conns, c);
    QuietKeeps(s.conns, c, s'.conns[c]);
    RegistrySame(s.conns, s'.conns, s.registry);
    CountsUpdate(s.conns, c, s'.conns[c]);
  }

  lemma CleansKeep(s: State, c: nat)
    requires Inv(s) && Enabled(s, Cleans(c))
    ensures Inv(Cleanup(s, c))
  {
    var s' := Cleanup(s, c);
    assert ConnOk(s.conns, c);
    QuietKeeps(s.conns, c, s'.conns[c]);
    CountsUpdate(s.conns, c, s'.conns[c]);
  }

  lemma StepKeeps(s: State, e: Step)
    requires Inv(s) && Enabled(s, e)
    ensures Inv(Apply(s, e))
  {
    match e
    case Connects(key) => ConnectKeeps(s, key);
    case Reads(c, f) => ReadsKeep(s, c, f);
    case Enqueues(c) => EnqueuesKeep(s, c);
    case Writes(c, ok) => WritesKeep(s, c, ok);
    case Cleans(c) => CleansKeep(s, c);
  }

  // ---------------------------------------------------------------- all runs

  ghost predicate IsRun(ss: seq<State>, es: seq<Step>) {
    && |ss| == |es| + 1 && ss[0] == START
    && forall i :: 0 <= i < |es| ==> Enabled(ss[i], es[i]) && ss[i + 1] == Apply(ss[i], es[i])
  }

  lemma {:induction false} RunKeeps(ss: seq<State>, es: seq<Step>, k: nat)
    requires IsRun(ss, es) && k <= |es|
    ensures Inv(ss[k])
  {
    if k > 0 {
      RunKeeps(ss, es, k - 1);
      StepKeeps(ss[k - 1], es[k - 1]);
    }
  }

  /** Every frame ever queued for, or written to, a connection fits writeFrame; a Recv
      was made from a Send to that connection's key, read on a connection
      authenticated as the stamped source, with its payload intact. */
  lemma EveryRecvWasSent(ss: seq<State>, es: seq<Step>, k: nat, t: nat, x: Item)
    requires IsRun(ss, es) && k <= |es| && t < |ss[k].conns| && x in Stream(ss[k].conns[t])
    ensures Fits(Wire(x)) && FromSend(ss[k].conns, ss[k].conns[t].key, x)
  {
    RunKeeps(ss, es, k);
    assert ConnOk(ss[k].conns, t) && ItemOk(ss[k].conns, ss[k].conns[t].key, x);
    if x.Recv? { assert ConnOk(ss[k].conns, x.from); }
  }

  /** What one connection sends to another arrives in order and at most once. */
  lemma DeliveryIsFifo(ss: seq<State>, es: seq<Step>, k: nat, t: nat, i: nat, j: nat)
    requires IsRun(ss, es) && k <= |es| && t < |ss[k].conns| && i < j < |Stream(ss[k].conns[t])|
    ensures var x, y := Stream(ss[k].conns[t])[i], Stream(ss[k].conns[t])[j];
            x.Recv? && y.Recv? && x.from == y.from ==> x.at < y.at
  {
    RunKeeps(ss, es, k);
    assert ConnOk(ss[k].conns, t);
  }

  /** The counters are the Recv frames enqueued and their payload bytes. */
  lemma CountersAreExact(ss: seq<State>, es: seq<Step>, k: nat)
    requires IsRun(ss, es) && k <= |es|
    ensures ss[k].frames == AllFrames(ss[k].conns) && ss[k].bytes == AllBytes(ss[k].conns)
  {
    RunKeeps(ss, es, k);
  }

  /** How many forwards there were among the first k steps. */
  function Forwards(es: seq<Step>, k: nat): nat
    requires k <= |es|
  {
    if k == 0 then 0 else Forwards(es, k - 1) + if es[k - 1].Enqueues? then 1 else 0
  }

  /** Every forward is counted once, as delivered or as dropped. */
  lemma {:induction false} EveryForwardIsCounted(ss: seq<State>, es: seq<Step>, k: nat)
    requires IsRun(ss, es) && k <= |es|
    ensures ss[k].frames + ss[k].dropped == Forwards(es, k)
  {
    if k > 0 {
      EveryForwardIsCounted(ss, es, k - 1);
      assert ss[k] == Apply(ss[k - 1], es[k - 1]);
    }
  }

  /** A forward reaches the connection that was looked up, behind all that is queued
      there, and is dropped only if the queue is full. */
  lemma OnlyFullQueuesDrop(ss: seq<State>, es: seq<Step>, k: nat, c: nat, a: nat)
    requires IsRun(ss, es) && k < |es| && es[k] == Enqueues(c) && a < |ss[k].conns|
    ensures var t, x := ss[k].conns[c].todo.target, ss[k].conns[c].todo.item;
            var room := |ss[k].conns[t].queue| < QUEUE_LEN;
            && a < |ss[k + 1].conns|
            && Stream(ss[k + 1].conns[a]) == Stream(ss[k].conns[a]) + (if a == t && room then [x] else [])
            && ss[k + 1].dropped == ss[k].dropped + if room then 0 else 1
  {
    assert Enabled(ss[k], es[k]) && ss[k + 1] == Apply(ss[k], es[k]);
    var x, y := ss[k].conns[c].todo.item, ss[k].conns[a];
    assert y.wrote + (y.queue + [x]) == Stream(y) + [x];
  }

  lemma StaysShut(s: State, e: Step, c: nat)
    requires Enabled(s, e) && c < |s.conns|
    ensures c < |Apply(s, e).conns| && (Apply(s, e).conns[c].open ==> s.conns[c].open)
  {
  }

  /** A connection whose write failed, or whose reader left, is closed for good. */
  lemma {:induction false} ClosedForGood(ss: seq<State>, es: seq<Step>, j: nat, k: nat, c: nat)
    requires IsRun(ss, es) && j < k <= |es| && (es[j] == Writes(c, false) || es[j] == Cleans(c))
    ensures c < |ss[k].conns| && !ss[k].conns[c].open
  {
    assert Enabled(ss[k - 1], es[k - 1]) && ss[k] == Apply(ss[k - 1], es[k - 1]);
    if j < k - 1 {
      ClosedForGood(ss, es, j, k - 1, c);
      StaysShut(ss[k - 1], es[k - 1], c);
    }
  }

  /** The exit of an older connection never evicts the newer one for its key. */
  lemma NewestStaysRegistered(ss: seq<State>, es: seq<Step>, k: nat, older: nat, newer: nat)
    requires IsRun(ss, es) && k < |es| && es[k] == Cleans(older) && older < newer < |ss[k].conns|
    requires ss[k].conns[older].key == ss[k].conns[newer].key
    ensures ss[k + 1].registry == ss[k].registry
  {
    RunKeeps(ss, es, k);
    assert Enabled(ss[k], es[k]) && ss[k + 1] == Apply(ss[k], es[k]);
  }
}
