/** One open stream per node: the subscriber pattern internal/coord/coord.go and
    internal/coord/signal.go share.  Channels are named by numbers; `subs` says which
    one a node holds now.  A Go channel that is closed twice, or sent on once closed,
    panics: here it is marked misused. */
module Hub {

  /** A buffered channel: who it was opened for, what the receiver already took, what
      is queued, and how often it was closed. */
  datatype Chan<T> = Chan(owner: nat, net: nat, taken: seq<T>, queue: seq<T>, closes: nat, misused: bool)

  /** Everything the receiver has seen or will see. */
  function Stream<T>(c: Chan<T>): seq<T> { c.taken + c.queue }

  datatype Hub<T> = Hub(subs: map<nat, nat>, chans: map<nat, Chan<T>>, next: nat)

  function Empty<T>(): Hub<T> { Hub(map[], map[], 0) }

  function Closed<T>(c: Chan<T>): Chan<T> {
    c.(closes := c.closes + 1, misused := c.misused || c.closes > 0)
  }

  /** The non-blocking send: dropped when the buffer is full. */
  function Sent<T>(c: Chan<T>, x: T, cap: nat): Chan<T> {
    if c.closes > 0 then c.(misused := true)
    else if |c.queue| < cap then c.(queue := c.queue + [x])
    else c
  }

  /** A new stream for node id replaces, and closes, the one it has; `prime` is sent
      into the new channel at once. */
  function Open<T>(h: Hub<T>, id: nat, net: nat, prime: seq<T>): Hub<T> {
    var chans := if id in h.subs && h.subs[id] in h.chans then h.chans[h.subs[id] := Closed(h.chans[h.subs[id]])]
                 else h.chans;
    Hub(h.subs[id := h.next], chans[h.next := Chan(id, net, [], prime, 0, false)], h.next + 1)
  }

  /** The unsubscribe closure of channel c: it acts only while c is still the node's
      registered channel. */
  function Leave<T>(h: Hub<T>, c: nat): Hub<T> {
    if Registered(h, c) then h.(subs := h.subs - {h.chans[c].owner}) else h
  }

  predicate Registered<T>(h: Hub<T>, c: nat) {
    c in h.chans && h.chans[c].owner in h.subs && h.subs[h.chans[c].owner] == c
  }

  /** Deleting a node closes its stream. */
  function Kick<T>(h: Hub<T>, id: nat): Hub<T> {
    if id in h.subs && h.subs[id] in h.chans then
      h.(subs := h.subs - {id}, chans := h.chans[h.subs[id] := Closed(h.chans[h.subs[id]])])
    else h
  }

  function Push<T>(h: Hub<T>, id: nat, x: T, cap: nat): Hub<T> {
    if id in h.subs && h.subs[id] in h.chans then
      h.(chans := h.chans[h.subs[id] := Sent(h.chans[h.subs[id]], x, cap)])
    else h
  }

  /** Push to each listed node, in order, the message made for it. */
  function PushEach<T>(h: Hub<T>, ids: seq<nat>, msgs: map<nat, T>, cap: nat): Hub<T> {
    if ids == [] then h
    else
      var id := ids[|ids| - 1];
      var h' := PushEach(h, ids[..|ids| - 1], msgs, cap);
      if id in msgs then Push(h', id, msgs[id], cap) else h'
  }

  /** The receiving end takes the oldest queued element. */
  function Take<T>(h: Hub<T>, c: nat): Hub<T> {
    if c in h.chans && h.chans[c].queue != [] then
      var ch := h.chans[c];
      h.(chans := h.chans[c := ch.(taken := ch.taken + [ch.queue[0]], queue := ch.queue[1..])])
    else h
  }

  /** A server restart: no stream is registered any more. */
  function Reset<T>(h: Hub<T>): Hub<T> { h.(subs := map[]) }

  /** Registered channels exist, belong to the node that holds them and are open; no
      channel was closed twice or sent on after closing; no buffer overflowed. */
  ghost predicate HubOk<T>(h: Hub<T>, cap: nat) {
    && (forall id :: id in h.subs ==>
          h.subs[id] in h.chans && h.chans[h.subs[id]].owner == id && h.chans[h.subs[id]].closes == 0)
    && (forall c :: c in h.chans ==>
          c < h.next && h.chans[c].closes <= 1 && !h.chans[c].misused && |h.chans[c].queue| <= cap)
  }

  lemma OpenKeeps<T>(h: Hub<T>, id: nat, net: nat, prime: seq<T>, cap: nat)
    requires HubOk(h, cap) && |prime| <= cap
    ensures HubOk(Open(h, id, net, prime), cap)
  {
  }

  lemma LeaveKeeps<T>(h: Hub<T>, c: nat, cap: nat)
    requires HubOk(h, cap)
    ensures HubOk(Leave(h, c), cap)
  {
  }

  lemma KickKeeps<T>(h: Hub<T>, id: nat, cap: nat)
    requires HubOk(h, cap)
    ensures HubOk(Kick(h, id), cap) && id !in Kick(h, id).subs
  {
  }

  lemma PushKeeps<T>(h: Hub<T>, id: nat, x: T, cap: nat)
    requires HubOk(h, cap)
    ensures HubOk(Push(h, id, x, cap), cap)
  {
  }

  lemma TakeKeeps<T>(h: Hub<T>, c: nat, cap: nat)
    requires HubOk(h, cap)
    ensures HubOk(Take(h, c), cap)
    ensures forall d :: d in h.chans ==> d in Take(h, c).chans && Stream(Take(h, c).chans[d]) == Stream(h.chans[d])
  {
    if c in h.chans && h.chans[c].queue != [] {
      var q := h.chans[c].queue;
      assert q == [q[0]] + q[1..];
    }
  }

  /** A stream that was replaced or kicked can never affect the one that took its
      place: its late unsubscribe changes nothing. */
  lemma LateLeaveIsNothing<T>(h: Hub<T>, id: nat, net: nat, prime: seq<T>, c: nat, cap: nat)
    requires HubOk(h, cap) && c in h.chans && h.chans[c].owner == id
    ensures Leave(Open(h, id, net, prime), c) == Open(h, id, net, prime)
    ensures Leave(Kick(h, id), c) == Kick(h, id)
  {
  }

  function Delivered<T>(h: Hub<T>, ids: seq<nat>, msgs: map<nat, T>, cap: nat, c: nat): Chan<T>
    requires c in h.chans
  {
    var owner := h.chans[c].owner;
    if Registered(h, c) && owner in ids && owner in msgs then Sent(h.chans[c], msgs[owner], cap) else h.chans[c]
  }

  /** A round over distinct nodes serves each subscribed one exactly once, with its own
      message, and touches no other channel. */
  lemma {:induction false} PushEachServesOnce<T>(h: Hub<T>, ids: seq<nat>, msgs: map<nat, T>, cap: nat)
    requires HubOk(h, cap) && forall i, j :: 0 <= i < j < |ids| ==> ids[i] != ids[j]
    ensures var h' := PushEach(h, ids, msgs, cap);
            && h'.subs == h.subs && h'.next == h.next && h'.chans.Keys == h.chans.Keys
            && forall c :: c in h.chans ==> h'.chans[c] == Delivered(h, ids, msgs, cap, c)
  {
    if ids != [] {
      var m := |ids| - 1;
      PushEachServesOnce(h, ids[..m], msgs, cap);
      assert ids == ids[..m] + [ids[m]];
      assert ids[m] !in ids[..m];
    }
  }

  // ---------------------------------------------------------------- what closes a channel

  /** One step closes channel c if `hit`, and otherwise not; new channels are open. */
  predicate ClosesStep<T>(h: Hub<T>, h': Hub<T>, hit: bool, c: nat) {
    if c in h.chans then c in h'.chans && h'.chans[c].closes == h.chans[c].closes + if hit then 1 else 0
    else !hit && (c in h'.chans ==> h'.chans[c].closes == 0)
  }

  /** A new stream closes the one it replaces and no other; so does a kick. */
  lemma DisplacingCloses<T>(h: Hub<T>, id: nat, net: nat, prime: seq<T>, cap: nat, c: nat)
    requires HubOk(h, cap)
    ensures ClosesStep(h, Open(h, id, net, prime), Registered(h, c) && h.chans[c].owner == id, c)
    ensures ClosesStep(h, Kick(h, id), Registered(h, c) && h.chans[c].owner == id, c)
  {
  }

  /** Along any chain of such steps a channel is closed exactly if one of them hit it. */
  lemma {:induction false} ClosedIfHit<T>(hs: seq<Hub<T>>, hits: seq<bool>, k: nat, c: nat)
    requires |hs| == |hits| + 1 && k <= |hits| && c !in hs[0].chans
    requires forall i :: 0 <= i < |hits| ==> ClosesStep(hs[i], hs[i + 1], hits[i], c)
    ensures c in hs[k].chans ==> (hs[k].chans[c].closes > 0 <==> true in hits[..k])
    ensures c !in hs[k].chans ==> true !in hits[..k]
    decreases k
  {
    if k > 0 {
      ClosedIfHit(hs, hits, k - 1, c);
      assert ClosesStep(hs[k - 1], hs[k - 1 + 1], hits[k - 1], c);
      assert hits[..k] == hits[..k - 1] + [hits[k - 1]];
    }
  }
}
