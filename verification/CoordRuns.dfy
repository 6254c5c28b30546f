/** Whole runs of the coordinator: what holds in every reachable state, and what every
    netmap a subscriber receives says. */
module CoordRuns {
  import opened Prelude
  import opened Numerals
  import opened Net
  import opened Ipam
  import opened Filter
  import opened Store
  import opened Hostnames
  import opened Routes
  import opened Acl
  import opened CoordModel
  import opened CoordSafety
  import opened CoordStreams
  import H = Hub

  ghost predicate Good(s: State) { StoreOk(s) && StreamsOk(s) }

  /** One event; what Apply asks for is part of what is proved, not of what is assumed. */
  ghost predicate Leads(s: State, e: Event, s': State) {
    EventOk(e) && (NetworksOk(s.db.networks) && AllocsValid(s.ipams) ==> s' == Apply(s, e))
  }

  ghost predicate IsRun(ss: seq<State>, es: seq<Event>) {
    |ss| == |es| + 1 && Initial(ss[0]) && Linked(ss, es)
  }

  ghost predicate Linked(ss: seq<State>, es: seq<Event>)
    requires |ss| == |es| + 1
  {
    forall i :: 0 <= i < |es| ==> StepAt(ss, es, i)
  }

  ghost predicate StepAt(ss: seq<State>, es: seq<Event>, i: nat)
    requires |ss| == |es| + 1 && i < |es|
  {
    Leads(ss[i], es[i], ss[i + 1])
  }

  lemma InitialGood(s: State)
    requires Initial(s)
    ensures Good(s)
  {
  }

  lemma LeadsIsApply(s: State, e: Event, s': State)
    requires StoreOk(s) && Leads(s, e, s')
    ensures NetworksOk(s.db.networks) && AllocsValid(s.ipams) && EventOk(e) && s' == Apply(s, e)
  {
    AllocsOkValid(s);
  }

  lemma StepKeeps(s: State, e: Event)
    requires Good(s) && AllocsValid(s.ipams) && EventOk(e)
    ensures Good(Apply(s, e))
  {
    StoreKeeps(s, e);
    StreamsKeep(s, e);
  }

  lemma StreamsKeep(s: State, e: Event)
    requires Good(s) && AllocsValid(s.ipams)
    ensures StreamsOk(Apply(s, e))
  {
    match e
    case Writes(c) => ChangeKeepsStreams(s, c);
    case Streams(t) => TrafficKeepsStreams(s, t);
    case Restarts => RestartKeepsStreams(s);
  }

  /** Every state of every run is good, whatever is registered, deleted, approved,
      subscribed, signalled or restarted, in whatever order. */
  lemma {:induction false} RunKeeps(ss: seq<State>, es: seq<Event>, k: nat)
    requires IsRun(ss, es) && k <= |es|
    ensures Good(ss[k])
  {
    if k == 0 {
      InitialGood(ss[0]);
    } else {
      RunKeeps(ss, es, k - 1);
      assert StepAt(ss, es, k - 1);
      LeadsIsApply(ss[k - 1], es[k - 1], ss[k]);
      StepKeeps(ss[k - 1], es[k - 1]);
    }
  }

  /** Live nodes of one network have distinct IPv4 addresses inside the prefix, none of
      them the network or broadcast address, distinct non-empty names over the hostname
      alphabet, and distinct keys; a loaded allocator knows exactly those addresses. */
  lemma AddressOwnership(ss: seq<State>, es: seq<Event>, k: nat, i: nat, j: nat)
    requires IsRun(ss, es) && k <= |es| && i in ss[k].db.nodes && j in ss[k].db.nodes
    requires ss[k].db.nodes[i].net == ss[k].db.nodes[j].net
    ensures var s := ss[k];
            var n, m := s.db.nodes[i], s.db.nodes[j];
            && n.net in s.db.networks && ValidPrefix(s.db.networks[n.net].v4)
            && Usable(Masked(s.db.networks[n.net].v4), n.ip4) && n.hostname != "" && IsName(n.hostname)
            && (i != j ==> n.ip4 != m.ip4 && n.hostname != m.hostname && n.machineKey != m.machineKey)
            && (n.net in s.ipams ==> s.ipams[n.net].used == UsedBy(s.db.nodes, n.net))
  {
    RunKeeps(ss, es, k);
    var s := ss[k];
    assert RowOk(s.db.networks, s.db.lastId, s.born, i, s.db.nodes[i]);
    if i != j { assert Apart(s.db.nodes[i], s.db.nodes[j]); }
  }

  /** A node is online exactly while it holds a netmap stream, and no channel of either
      kind was ever closed twice, sent on after closing, or overfilled. */
  lemma SubscriptionSafety(ss: seq<State>, es: seq<Event>, k: nat, id: nat)
    requires IsRun(ss, es) && k <= |es|
    ensures IsOnline(ss[k].online, id) <==> id in ss[k].maps.subs
    ensures H.HubOk(ss[k].maps, MAP_BUFFER) && H.HubOk(ss[k].sigs, SIGNAL_BUFFER)
    ensures id in ss[k].maps.subs || id in ss[k].sigs.subs ==> id in ss[k].db.nodes
  {
    RunKeeps(ss, es, k);
  }

  // ---------------------------------------------------------------- snapshots

  ghost predicate IsSnapshot(s: State, id: nat, m: NetMap) {
    id in s.db.nodes && m == BuildNetMap(s.db, s.online, s.seqNo, s.db.nodes[id])
  }

  function StreamOf<T>(h: H.Hub<T>, c: nat): seq<T> { if c in h.chans then H.Stream(h.chans[c]) else [] }

  predicate GrewByOne<T(==)>(t: seq<T>, t': seq<T>) { |t'| == |t| + 1 && t'[..|t|] == t }

  /** In one step a stream keeps what it has and grows by at most the owner's snapshot
      of the new state. */
  ghost predicate GrowsBySnapshot(s: State, s': State, c: nat) {
    var t, t' := StreamOf(s.maps, c), StreamOf(s'.maps, c);
    && (c in s.maps.chans ==> c in s'.maps.chans && s'.maps.chans[c].owner == s.maps.chans[c].owner)
    && (t' == t || (c in s'.maps.chans && GrewByOne(t, t') && IsSnapshot(s', s'.maps.chans[c].owner, t'[|t|])))
  }

  lemma SentGrows(ch: H.Chan<NetMap>, m: NetMap)
    ensures var t, t' := H.Stream(ch), H.Stream(H.Sent(ch, m, MAP_BUFFER));
            t' == t || (GrewByOne(t, t') && t'[|t|] == m)
  {
    assert ch.taken + (ch.queue + [m]) == H.Stream(ch) + [m];
  }

  lemma NotifyGrows(s: State, net: nat, c: nat)
    requires MapsOk(s.maps, s.seqNo, s.born) && StoreOk(s)
    ensures GrowsBySnapshot(s, Notify(s, net), c)
  {
    NotifyShape(s, net);
    if c in s.maps.chans {
      NotifyServes(s, net, c);
      var owner := s.maps.chans[c].owner;
      if owner in s.db.nodes {
        SentGrows(s.maps.chans[c], BuildNetMap(s.db, s.online, Bump(s.seqNo, net), s.db.nodes[owner]));
      }
    }
  }

  lemma OpenGrows(maps: H.Hub<NetMap>, id: nat, net: nat, m: NetMap, c: nat)
    requires H.HubOk(maps, MAP_BUFFER)
    ensures var maps' := H.Open(maps, id, net, [m]);
            && (c in maps.chans ==> c in maps'.chans && maps'.chans[c].owner == maps.chans[c].owner)
            && if c == maps.next then StreamOf(maps, c) == [] && StreamOf(maps', c) == [m] && maps'.chans[c].owner == id
               else StreamOf(maps', c) == StreamOf(maps, c)
  {
  }

  lemma SubscribeGrows(s: State, mkey: string, c: nat)
    requires H.HubOk(s.maps, MAP_BUFFER) && forall id :: id in s.db.nodes ==> s.db.nodes[id].id == id
    ensures GrowsBySnapshot(s, Subscribe(s, mkey), c)
  {
    var found := FindNode(s.db.nodes, mkey, s.db.lastId);
    if found.Some? {
      var n := s.db.nodes[found.value];
      OpenGrows(s.maps, n.id, n.net, BuildNetMap(s.db, s.online[n.id := true], s.seqNo, n), c);
    }
  }

  lemma TrafficGrows(s: State, e: Traffic, c: nat)
    requires Good(s)
    ensures GrowsBySnapshot(s, ApplyTraffic(s, e), c)
  {
    match e
    case Notifies(net) => NotifyGrows(s, net, c);
    case Subscribes(mkey) =>
      forall id | id in s.db.nodes ensures s.db.nodes[id].id == id {
        assert RowOk(s.db.networks, s.db.lastId, s.born, id, s.db.nodes[id]);
      }
      SubscribeGrows(s, mkey, c);
    case _ => QuietTrafficGrows(s, e, c);
  }

  lemma QuietTrafficGrows(s: State, e: Traffic, c: nat)
    requires H.HubOk(s.maps, MAP_BUFFER) && !e.Notifies? && !e.Subscribes?
    ensures GrowsBySnapshot(s, ApplyTraffic(s, e), c)
  {
    if e.TakesMap? { H.TakeKeeps(s.maps, e.c, MAP_BUFFER); }
  }

  lemma KickStreams<T>(h: H.Hub<T>, id: nat, c: nat)
    ensures StreamOf(H.Kick(h, id), c) == StreamOf(h, c)
    ensures c in h.chans ==> c in H.Kick(h, id).chans && H.Kick(h, id).chans[c].owner == h.chans[c].owner
  {
  }

  lemma ChangeGrows(s: State, e: Change, c: nat)
    requires NetworksOk(s.db.networks) && AllocsValid(s.ipams)
    ensures GrowsBySnapshot(s, ApplyChange(s, e), c)
  {
    if e.Deletes? {
      KickStreams(s.maps, e.id, c);
    } else {
      assert ApplyChange(s, e).maps == s.maps;
    }
  }

  lemma StepGrows(s: State, e: Event, c: nat)
    requires Good(s) && AllocsValid(s.ipams)
    ensures GrowsBySnapshot(s, Apply(s, e), c)
  {
    match e
    case Writes(ch) => ChangeGrows(s, ch, c);
    case Streams(t) => TrafficGrows(s, t, c);
    case Restarts =>
  }

  lemma RunGrows(ss: seq<State>, es: seq<Event>, k: nat, c: nat)
    requires IsRun(ss, es) && k < |es|
    ensures GrowsBySnapshot(ss[k], ss[k + 1], c)
  {
    RunKeeps(ss, es, k);
    assert StepAt(ss, es, k);
    LeadsIsApply(ss[k], es[k], ss[k + 1]);
    StepGrows(ss[k], es[k], c);
  }

  ghost predicate GrowsAt<T>(ts: seq<seq<T>>, n: nat)
    requires n + 1 < |ts|
  {
    ts[n + 1] == ts[n] || GrewByOne(ts[n], ts[n + 1])
  }

  ghost predicate Growing<T>(ts: seq<seq<T>>) { forall n :: 0 <= n < |ts| - 1 ==> GrowsAt(ts, n) }

  /** Where element i of the last of a chain of growing streams was added. */
  lemma {:induction false} AddedAt<T>(streams: seq<seq<T>>, i: nat) returns (j: nat)
    requires streams != [] && streams[0] == [] && i < |streams[|streams| - 1]| && Growing(streams)
    ensures j + 1 < |streams| && |streams[j]| == i && GrewByOne(streams[j], streams[j + 1])
    ensures streams[j + 1][i] == streams[|streams| - 1][i]
    decreases |streams|
  {
    var m := |streams| - 2;
    assert GrowsAt(streams, m);
    if i < |streams[m]| {
      var init := streams[..m + 1];
      forall n | 0 <= n < m ensures GrowsAt(init, n) { assert GrowsAt(streams, n); }
      j := AddedAt(init, i);
    } else {
      j := m;
    }
  }

  lemma OwnerKept(ss: seq<State>, es: seq<Event>, k: nat, c: nat)
    requires IsRun(ss, es) && k < |es| && c in ss[k].maps.chans
    ensures c in ss[k + 1].maps.chans && ss[k + 1].maps.chans[c].owner == ss[k].maps.chans[c].owner
  {
    RunGrows(ss, es, k, c);
  }

  lemma {:induction false} OwnerStays(ss: seq<State>, es: seq<Event>, j: nat, k: nat, c: nat)
    requires IsRun(ss, es) && j <= k <= |es| && c in ss[j].maps.chans
    ensures c in ss[k].maps.chans && ss[k].maps.chans[c].owner == ss[j].maps.chans[c].owner
    decreases k
  {
    if j < k {
      OwnerStays(ss, es, j, k - 1, c);
      OwnerKept(ss, es, k - 1, c);
    }
  }

  /** Every netmap a subscriber ever sees is the exact snapshot of some state of the run. */
  lemma EveryMapIsASnapshot(ss: seq<State>, es: seq<Event>, k: nat, c: nat, i: nat) returns (j: nat)
    requires IsRun(ss, es) && k <= |es| && c in ss[k].maps.chans && i < |StreamOf(ss[k].maps, c)|
    ensures j <= k && IsSnapshot(ss[j], ss[k].maps.chans[c].owner, StreamOf(ss[k].maps, c)[i])
  {
    var streams := seq(k + 1, n requires 0 <= n <= k => StreamOf(ss[n].maps, c));
    forall n | 0 <= n < k ensures GrowsAt(streams, n) { RunGrows(ss, es, n, c); }
    j := AddedAt(streams, i);
    RunGrows(ss, es, j, c);
    j := j + 1;
    OwnerStays(ss, es, j, k, c);
  }

  /** Along one stream the sequence numbers strictly increase. */
  lemma SequenceNumbersIncrease(ss: seq<State>, es: seq<Event>, k: nat, c: nat, i: nat, j: nat)
    requires IsRun(ss, es) && k <= |es| && i < j < |StreamOf(ss[k].maps, c)|
    ensures StreamOf(ss[k].maps, c)[i].seqNo < StreamOf(ss[k].maps, c)[j].seqNo
  {
    RunKeeps(ss, es, k);
  }

  /** After a push every subscribed node of the network whose buffer had room ends its
      stream with the snapshot of the current state, under the new sequence number. */
  lemma PushIsCurrent(ss: seq<State>, es: seq<Event>, k: nat, id: nat)
    requires IsRun(ss, es) && k < |es| && id in ss[k].db.nodes && id in ss[k].maps.subs
    requires es[k] == Streams(Notifies(ss[k].db.nodes[id].net))
    ensures EndsCurrent(ss[k], ss[k + 1], id)
  {
    RunKeeps(ss, es, k);
    assert StepAt(ss, es, k);
    LeadsIsApply(ss[k], es[k], ss[k + 1]);
    NotifyIsCurrent(ss[k], id);
  }

  ghost predicate EndsCurrent(s: State, s': State, id: nat)
    requires id in s.db.nodes && id in s.maps.subs
  {
    var c := s.maps.subs[id];
    && c in s.maps.chans && c in s'.maps.chans
    && (|s.maps.chans[c].queue| < MAP_BUFFER ==>
         var q := s'.maps.chans[c].queue;
         && q != [] && IsSnapshot(s', id, q[|q| - 1])
         && q[|q| - 1].seqNo == Get(s.seqNo, s.db.nodes[id].net) + 1)
  }

  lemma NotifyIsCurrent(s: State, id: nat)
    requires Good(s) && id in s.db.nodes && id in s.maps.subs
    ensures EndsCurrent(s, Notify(s, s.db.nodes[id].net), id)
  {
    NotifyShape(s, s.db.nodes[id].net);
    NotifyServes(s, s.db.nodes[id].net, s.maps.subs[id]);
  }

  // ---------------------------------------------------------------- late unsubscribes

  /** The channel exists but is no node's registered stream any more. */
  predicate Left<T>(h: H.Hub<T>, c: nat) { c in h.chans && !H.Registered(h, c) }

  lemma StaysLeftOnTraffic(s: State, e: Traffic, c: nat)
    requires H.HubOk(s.maps, MAP_BUFFER) && Left(s.maps, c)
    ensures Left(ApplyTraffic(s, e).maps, c)
  {
    if e.Notifies? { NotifyShape(s, e.net); }
  }

  lemma StaysLeftOnChange(s: State, e: Change, c: nat)
    requires NetworksOk(s.db.networks) && AllocsValid(s.ipams) && Left(s.maps, c)
    ensures Left(ApplyChange(s, e).maps, c)
  {
    if !e.Deletes? { assert ApplyChange(s, e).maps == s.maps; }
  }

  lemma StaysLeft(ss: seq<State>, es: seq<Event>, k: nat, c: nat)
    requires IsRun(ss, es) && k < |es| && Left(ss[k].maps, c)
    ensures Left(ss[k + 1].maps, c)
  {
    RunKeeps(ss, es, k);
    assert StepAt(ss, es, k);
    LeadsIsApply(ss[k], es[k], ss[k + 1]);
    match es[k]
    case Writes(e) => StaysLeftOnChange(ss[k], e, c);
    case Streams(e) => StaysLeftOnTraffic(ss[k], e, c);
    case Restarts =>
  }

  /** Once a stream has been replaced, kicked or left, its unsubscribe changes nothing,
      however late it comes. */
  lemma {:induction false} LateUnsubscribeIsNothing(ss: seq<State>, es: seq<Event>, j: nat, k: nat, c: nat)
    requires IsRun(ss, es) && j <= k <= |es| && Left(ss[j].maps, c)
    ensures Left(ss[k].maps, c) && Unsubscribe(ss[k], c) == ss[k]
    decreases k
  {
    if j < k {
      LateUnsubscribeIsNothing(ss, es, j, k - 1, c);
      StaysLeft(ss, es, k - 1, c);
    }
  }

  // ---------------------------------------------------------------- what a snapshot says

  function Entry(n: Node, online: map<nat, bool>, routes: Table): PeerInfo
    requires ParseKey(NODE_PREFIX, n.nodeKey).Some?
  {
    PeerInfo(n.id, n.hostname, ParseKey(NODE_PREFIX, n.nodeKey).value, HostCidrs(n), n.endpoints,
             IsOnline(online, n.id), ApprovedRoutes(routes, n.id))
  }

  predicate Ascending(ps: seq<PeerInfo>) { forall i, j :: 0 <= i < j < |ps| ==> ps[i].id < ps[j].id }

  predicate InNet(nodes: map<nat, Node>, net: nat, id: nat) { id in nodes && nodes[id].net == net }

  /** Rows carry their own ID and a key that parses. */
  predicate Keyed(nodes: map<nat, Node>, id: nat) {
    id in nodes ==> nodes[id].id == id && ParseKey(NODE_PREFIX, nodes[id].nodeKey).Some?
  }

  ghost predicate AllKeyed(nodes: map<nat, Node>) { forall id: nat :: Keyed(nodes, id) }

  predicate IsEntry(nodes: map<nat, Node>, online: map<nat, bool>, routes: Table, p: PeerInfo) {
    p.id in nodes && ParseKey(NODE_PREFIX, nodes[p.id].nodeKey).Some? && p == Entry(nodes[p.id], online, routes)
  }

  predicate HasPeer(ps: seq<PeerInfo>, id: nat) { exists p :: p in ps && p.id == id }

  /** ps is the peer list of `self` over the nodes with IDs up to k. */
  ghost predicate IsPeerList(ps: seq<PeerInfo>, nodes: map<nat, Node>, net: nat, k: nat, self: nat,
                             online: map<nat, bool>, routes: Table) {
    && Ascending(ps) && AreEntries(ps, nodes, online, routes)
    && OnlyPeers(ps, nodes, net, k, self) && AllPeers(ps, nodes, net, k, self)
  }

  ghost predicate AreEntries(ps: seq<PeerInfo>, nodes: map<nat, Node>, online: map<nat, bool>, routes: Table) {
    forall p :: p in ps ==> IsEntry(nodes, online, routes, p)
  }

  ghost predicate OnlyPeers(ps: seq<PeerInfo>, nodes: map<nat, Node>, net: nat, k: nat, self: nat) {
    forall p :: p in ps ==> 1 <= p.id <= k && p.id != self && InNet(nodes, net, p.id)
  }

  ghost predicate AllPeers(ps: seq<PeerInfo>, nodes: map<nat, Node>, net: nat, k: nat, self: nat) {
    forall id: nat :: InNet(nodes, net, id) && 1 <= id <= k && id != self ==> HasPeer(ps, id)
  }

  lemma PeerAdded(ps: seq<PeerInfo>, nodes: map<nat, Node>, net: nat, k: nat, self: nat, online: map<nat, bool>,
                  routes: Table, p: PeerInfo)
    requires IsPeerList(ps, nodes, net, k, self, online, routes)
    requires p.id == k + 1 && p.id != self && InNet(nodes, net, k + 1) && IsEntry(nodes, online, routes, p)
    ensures IsPeerList(ps + [p], nodes, net, k + 1, self, online, routes)
  {
    forall i | 0 <= i < |ps| ensures ps[i].id <= k { assert ps[i] in ps; }
    var ps' := ps + [p];
    assert ps'[|ps|] in ps';
    forall id: nat | HasPeer(ps, id) ensures HasPeer(ps', id) {
      var q :| q in ps && q.id == id;
      assert q in ps';
    }
  }

  lemma PeersOfNext(nodes: map<nat, Node>, net: nat, k: nat, self: nat, online: map<nat, bool>, routes: Table)
    requires k > 0 && Keyed(nodes, k)
    ensures PeersOf(NodesIn(nodes, net, k), self, online, routes)
         == PeersOf(NodesIn(nodes, net, k - 1), self, online, routes)
            + if InNet(nodes, net, k) && k != self then [Entry(nodes[k], online, routes)] else []
  {
    var ns, ns0 := NodesIn(nodes, net, k), NodesIn(nodes, net, k - 1);
    if InNet(nodes, net, k) { assert ns[..|ns| - 1] == ns0; } else { assert ns == ns0; }
  }

  lemma PeersStep(ps0: seq<PeerInfo>, ps: seq<PeerInfo>, nodes: map<nat, Node>, net: nat, k: nat, self: nat,
                  online: map<nat, bool>, routes: Table)
    requires k > 0 && Keyed(nodes, k) && IsPeerList(ps0, nodes, net, k - 1, self, online, routes)
    requires ps == ps0 + if InNet(nodes, net, k) && k != self then [Entry(nodes[k], online, routes)] else []
    ensures IsPeerList(ps, nodes, net, k, self, online, routes)
  {
    if InNet(nodes, net, k) && k != self {
      PeerAdded(ps0, nodes, net, k - 1, self, online, routes, Entry(nodes[k], online, routes));
    } else {
      assert ps == ps0;
    }
  }

  lemma {:induction false} PeersListed(nodes: map<nat, Node>, net: nat, k: nat, self: nat, online: map<nat, bool>,
                                       routes: Table)
    requires AllKeyed(nodes)
    ensures IsPeerList(PeersOf(NodesIn(nodes, net, k), self, online, routes), nodes, net, k, self, online, routes)
  {
    if k > 0 {
      PeersListed(nodes, net, k - 1, self, online, routes);
      assert Keyed(nodes, k);
      PeersOfNext(nodes, net, k, self, online, routes);
      PeersStep(PeersOf(NodesIn(nodes, net, k - 1), self, online, routes),
                PeersOf(NodesIn(nodes, net, k), self, online, routes),
                nodes, net, k, self, online, routes);
    }
  }

  /** A snapshot lists every other live node of the receiver's network exactly once and
      nothing else, and each entry depends on the listed node alone, not on who is
      looking: in particular peers see exactly the routes a node itself has approved. */
  lemma SnapshotLists(s: State, a: nat, m: NetMap, id: nat)
    requires StoreOk(s) && IsSnapshot(s, a, m)
    ensures Ascending(m.peers) && m.self.id == a
    ensures m.self.approved == ApprovedRoutes(s.db.routes, a)
    ensures HasPeer(m.peers, id) <==> InNet(s.db.nodes, s.db.nodes[a].net, id) && id != a
    ensures forall p :: p in m.peers ==> IsEntry(s.db.nodes, s.online, s.db.routes, p)
  {
    var nodes := s.db.nodes;
    forall i: nat ensures Keyed(nodes, i) {
      if i in nodes { assert RowOk(s.db.networks, s.db.lastId, s.born, i, nodes[i]); }
    }
    assert RowOk(s.db.networks, s.db.lastId, s.born, a, nodes[a]);
    if id in nodes { assert RowOk(s.db.networks, s.db.lastId, s.born, id, nodes[id]); }
    PeersListed(nodes, nodes[a].net, s.db.lastId, a, s.online, s.db.routes);
  }

  /** Two snapshots of one state: visibility is symmetric, each one's view of the other
      is what the other is told about itself, and both see a third node alike. */
  lemma SnapshotPair(s: State, a: nat, ma: NetMap, b: nat, mb: NetMap, p: PeerInfo, q: PeerInfo)
    requires StoreOk(s) && IsSnapshot(s, a, ma) && IsSnapshot(s, b, mb) && a != b
    requires p in ma.peers
    ensures HasPeer(mb.peers, a) <==> HasPeer(ma.peers, b)
    ensures p.id == b ==> p.routes == mb.self.approved && p.hostname == mb.self.hostname && p.ips == mb.self.ips
    ensures q in mb.peers && q.id == p.id ==> p == q
  {
    SnapshotLists(s, a, ma, b);
    SnapshotLists(s, b, mb, a);
    assert RowOk(s.db.networks, s.db.lastId, s.born, b, s.db.nodes[b]);
    assert IsEntry(s.db.nodes, s.online, s.db.routes, p);
    if q in mb.peers { assert IsEntry(s.db.nodes, s.online, s.db.routes, q); }
  }

  /** In every state of every run a snapshot lists each other live node of the
      receiver's network exactly once, and nothing else. */
  lemma SnapshotsAgree(ss: seq<State>, es: seq<Event>, k: nat, a: nat, m: NetMap, id: nat)
    requires IsRun(ss, es) && k <= |es| && IsSnapshot(ss[k], a, m)
    ensures Ascending(m.peers) && m.self.id == a
    ensures HasPeer(m.peers, id) <==> InNet(ss[k].db.nodes, ss[k].db.nodes[a].net, id) && id != a
    ensures forall p :: p in m.peers ==> IsEntry(ss[k].db.nodes, ss[k].online, ss[k].db.routes, p)
  {
    RunKeeps(ss, es, k);
    SnapshotLists(ss[k], a, m, id);
  }

  /** And two snapshots of one state agree about each other and about everyone else. */
  lemma NetMapsAgree(ss: seq<State>, es: seq<Event>, k: nat, a: nat, ma: NetMap, b: nat, mb: NetMap, p: PeerInfo,
                     q: PeerInfo)
    requires IsRun(ss, es) && k <= |es| && IsSnapshot(ss[k], a, ma) && IsSnapshot(ss[k], b, mb) && a != b
    requires p in ma.peers
    ensures HasPeer(mb.peers, a) <==> HasPeer(ma.peers, b)
    ensures p.id == b ==> p.routes == mb.self.approved && p.hostname == mb.self.hostname && p.ips == mb.self.ips
    ensures q in mb.peers && q.id == p.id ==> p == q
  {
    RunKeeps(ss, es, k);
    SnapshotPair(ss[k], a, ma, b, mb, p, q);
  }

  /** The peers of one snapshot carry distinct names over the hostname alphabet, which is
      what makes the daemon's choice of an exit node by name unambiguous. */
  lemma PeerNamesDiffer(ss: seq<State>, es: seq<Event>, k: nat, a: nat, m: NetMap, p: PeerInfo, q: PeerInfo)
    requires IsRun(ss, es) && k <= |es| && IsSnapshot(ss[k], a, m) && p in m.peers && q in m.peers && p.id != q.id
    ensures p.hostname != q.hostname && IsName(p.hostname)
  {
    RunKeeps(ss, es, k);
    var s := ss[k];
    SnapshotLists(s, a, m, p.id);
    SnapshotLists(s, a, m, q.id);
    assert IsEntry(s.db.nodes, s.online, s.db.routes, p) && IsEntry(s.db.nodes, s.online, s.db.routes, q);
    assert RowOk(s.db.networks, s.db.lastId, s.born, p.id, s.db.nodes[p.id]);
    assert RowOk(s.db.networks, s.db.lastId, s.born, q.id, s.db.nodes[q.id]);
    assert Apart(s.db.nodes[p.id], s.db.nodes[q.id]);
  }

  // ---------------------------------------------------------------- policy end to end

  lemma {:induction false} ByIdIs(nodes: map<nat, Node>, net: nat, k: nat)
    requires AllKeyed(nodes)
    ensures var m := ById(NodesIn(nodes, net, k));
            && (forall id: nat :: id in m <==> InNet(nodes, net, id) && 1 <= id <= k)
            && (forall id :: id in m ==> m[id] == nodes[id])
  {
    if k > 0 {
      ByIdIs(nodes, net, k - 1);
      assert Keyed(nodes, k);
      var ns, ns0 := NodesIn(nodes, net, k), NodesIn(nodes, net, k - 1);
      if InNet(nodes, net, k) { assert ns[..|ns| - 1] == ns0; } else { assert ns == ns0; }
    }
  }

  /** In every good state an address of a live node belongs to that node alone among
      the nodes of its network; for IPv6 this needs a prefix that leaves 64 bits. */
  lemma AddressIdentifies(s: State, a: nat, src: Addr)
    requires StoreOk(s) && a in s.db.nodes
    requires src == s.db.nodes[a].ip4 || src == s.db.nodes[a].ip6
    requires src.V6? ==> s.db.nodes[a].net in s.db.networks && s.db.networks[s.db.nodes[a].net].v6.bits <= 64
    ensures OwnedBy(ById(NodesIn(s.db.nodes, s.db.nodes[a].net, s.db.lastId)), src, a)
  {
    var nodes := s.db.nodes;
    var net := nodes[a].net;
    forall i: nat ensures Keyed(nodes, i) {
      if i in nodes { assert RowOk(s.db.networks, s.db.lastId, s.born, i, nodes[i]); }
    }
    ByIdIs(nodes, net, s.db.lastId);
    assert RowOk(s.db.networks, s.db.lastId, s.born, a, nodes[a]);
    var m := ById(NodesIn(nodes, net, s.db.lastId));
    forall t | t in m ensures m[t].ip4.V4? && (m[t].ip6.V6? || m[t].ip6 == m[t].ip4)
                              && (m[t].ip4 == src || m[t].ip6 == src ==> t == a) {
      assert RowOk(s.db.networks, s.db.lastId, s.born, t, nodes[t]);
      if t != a { assert Apart(nodes[t], nodes[a]); }
    }
  }

  /** The filter a node installs from a netmap. */
  function Installed(m: NetMap): RuleSet { RuleSet(m.filterOn, ConvertAll(m.filter)) }

  /** The rules in force for node d. */
  function RulesAt(s: State, d: nat): seq<AclRule>
    requires d in s.db.nodes
  {
    RulesOf(s.db.acl, s.db.nodes[d].net)
  }

  /** src is an address of node a, which is in the network of node d; for IPv6 the
      network's prefix leaves 64 bits for node IDs. */
  predicate SendsFrom(s: State, a: nat, d: nat, src: Addr)
    requires d in s.db.nodes
  {
    && InNet(s.db.nodes, s.db.nodes[d].net, a) && (src == s.db.nodes[a].ip4 || src == s.db.nodes[a].ip6)
    && (src.V6? ==> s.db.nodes[a].net in s.db.networks && s.db.networks[s.db.nodes[a].net].v6.bits <= 64)
  }

  /** In every state of every run, the filter in node d's netmap gives traffic from an
      address of node a the verdict the stored ID rules give (a, d), for every protocol
      number and port. */
  lemma FilterDecides(ss: seq<State>, es: seq<Event>, k: nat, a: nat, d: nat, m: NetMap, src: Addr, proto: nat,
                      port: nat)
    requires IsRun(ss, es) && k <= |es| && IsSnapshot(ss[k], d, m) && SendsFrom(ss[k], a, d, src)
    requires AllSpecsOk(RulesAt(ss[k], d))
    ensures Installed(m).enabled <==> RulesAt(ss[k], d) != []
    ensures !Installed(m).enabled || Allows(Installed(m).rules, src, proto, port)
       <==> Permits(RulesAt(ss[k], d), a, d, proto, port)
  {
    RunKeeps(ss, es, k);
    var s := ss[k];
    AddressIdentifies(s, a, src);
    assert RowOk(s.db.networks, s.db.lastId, s.born, d, s.db.nodes[d]);
    CompiledMeaning(ById(NodesIn(s.db.nodes, s.db.nodes[d].net, s.db.lastId)), RulesAt(s, d), src, a, d, proto, port);
  }

  /** Hence the dry-run tester answers as the rules do. */
  lemma PolicyHolds(ss: seq<State>, es: seq<Event>, k: nat, a: nat, d: nat, m: NetMap, src: Addr, name: string,
                    port: nat)
    requires IsRun(ss, es) && k <= |es| && IsSnapshot(ss[k], d, m) && SendsFrom(ss[k], a, d, src)
    requires AllSpecsOk(RulesAt(ss[k], d)) && ProtoNumber(name, src).Some?
    ensures Check(Some(Installed(m)), src, name, port)
       <==> Permits(RulesAt(ss[k], d), a, d, ProtoNumber(name, src).value, port)
  {
    FilterDecides(ss, es, k, a, d, m, src, ProtoNumber(name, src).value, port);
  }

  /** What the rules say about a packet: with no rules everything passes; otherwise a
      TCP or UDP payload too short for ports is refused, and everything else is judged
      by protocol number and by the port it carries, which for later fragments is 0. */
  predicate PermitsPacket(rules: seq<AclRule>, a: nat, d: nat, proto: nat, first: bool, payload: seq<byte>) {
    rules == [] || (!(Ported(proto) && |payload| < 4) && Permits(rules, a, d, proto, PortIn(proto, first, payload)))
  }

  /** The same on the wire: every IPv4 header, every protocol, every payload,
      fragments included ... */
  lemma PolicyOnV4Packets(ss: seq<State>, es: seq<Event>, k: nat, a: nat, d: nat, m: NetMap, h: V4Header,
                          payload: seq<byte>)
    requires IsRun(ss, es) && k <= |es| && IsSnapshot(ss[k], d, m) && SendsFrom(ss[k], a, d, V4(h.src))
    requires AllSpecsOk(RulesAt(ss[k], d)) && GoodHeader(h)
    ensures AllowsPacket(Some(Installed(m)), V4HeaderBytes(h) + payload)
       <==> PermitsPacket(RulesAt(ss[k], d), a, d, h.proto, h.frag == 0, payload)
  {
    ParsesAnyV4(h, payload);
    AllowsParsed(Installed(m), V4HeaderBytes(h) + payload, V4(h.src), h.proto, h.frag == 0, payload);
    FilterDecides(ss, es, k, a, d, m, V4(h.src), h.proto, PortIn(h.proto, h.frag == 0, payload));
  }

  /** ... and every IPv6 packet. */
  lemma PolicyOnV6Packets(ss: seq<State>, es: seq<Event>, k: nat, a: nat, d: nat, m: NetMap, h: V6Header,
                          payload: seq<byte>)
    requires IsRun(ss, es) && k <= |es| && IsSnapshot(ss[k], d, m) && SendsFrom(ss[k], a, d, V6(h.src))
    requires AllSpecsOk(RulesAt(ss[k], d)) && h.src < Pow256(16)
    ensures AllowsPacket(Some(Installed(m)), V6HeaderBytes(h) + payload)
       <==> PermitsPacket(RulesAt(ss[k], d), a, d, h.next, true, payload)
  {
    ParsesAnyV6(h, payload);
    AllowsParsed(Installed(m), V6HeaderBytes(h) + payload, V6(h.src), h.next, true, payload);
    FilterDecides(ss, es, k, a, d, m, V6(h.src), h.next, PortIn(h.next, true, payload));
  }

  /** On well-formed segments: the destination port decides, except on later fragments
      and for protocols without ports, where it is 0. */
  lemma PolicyOnSegments(ss: seq<State>, es: seq<Event>, k: nat, a: nat, d: nat, m: NetMap,
                         h: V4Header, h6: V6Header, srcPort: nat, dstPort: nat, rest: seq<byte>)
    requires IsRun(ss, es) && k <= |es| && IsSnapshot(ss[k], d, m) && AllSpecsOk(RulesAt(ss[k], d))
    requires GoodHeader(h) && h6.src < Pow256(16) && dstPort < 0x1_0000
    ensures SendsFrom(ss[k], a, d, V4(h.src)) ==>
              (AllowsPacket(Some(Installed(m)), V4HeaderBytes(h) + Segment(h.proto, srcPort, dstPort, rest))
               <==> Permits(RulesAt(ss[k], d), a, d, h.proto, if Ported(h.proto) && h.frag == 0 then dstPort else 0))
    ensures SendsFrom(ss[k], a, d, V6(h6.src)) ==>
              (AllowsPacket(Some(Installed(m)), V6HeaderBytes(h6) + Segment(h6.next, srcPort, dstPort, rest))
               <==> Permits(RulesAt(ss[k], d), a, d, h6.next, if Ported(h6.next) then dstPort else 0))
  {
    if SendsFrom(ss[k], a, d, V4(h.src)) {
      PolicyOnV4Packets(ss, es, k, a, d, m, h, Segment(h.proto, srcPort, dstPort, rest));
      SegmentPort(h.proto, srcPort, dstPort, rest, h.frag == 0);
    }
    if SendsFrom(ss[k], a, d, V6(h6.src)) {
      PolicyOnV6Packets(ss, es, k, a, d, m, h6, Segment(h6.next, srcPort, dstPort, rest));
      SegmentPort(h6.next, srcPort, dstPort, rest, true);
    }
  }
}
