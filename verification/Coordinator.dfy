/** The Coordinator of internal/coord: its methods, each run under the lock, change the
    fields step by step and are proved against the operations of CoordModel. */
module CoordObject {
  import opened Prelude
  import opened Net
  import opened Ipam
  import opened Store
  import opened Text
  import opened Hostnames
  import opened Routes
  import opened Acl
  import M = CoordModel
  import opened CoordSafety
  import opened CoordStreams
  import opened CoordRuns
  import H = Hub

  /** NodesIn lists the rows of IdsIn, in the same order. */
  lemma {:induction false} NodesAreIds(nodes: map<nat, Node>, net: nat, k: nat)
    ensures var ns, ids := M.NodesIn(nodes, net, k), M.IdsIn(nodes, net, k);
            |ns| == |ids| && forall i :: 0 <= i < |ids| ==> InNet(nodes, net, ids[i]) && ns[i] == nodes[ids[i]]
  {
    if k > 0 { NodesAreIds(nodes, net, k - 1); }
  }

  /** An event under the lock, then the push to the network it touched. */
  lemma EventAndPushKeep(s: M.State, e: M.Event, net: nat)
    requires Good(s) && M.AllocsValid(s.ipams) && EventOk(e)
    ensures Good(M.Apply(s, e)) && Good(M.Notify(M.Apply(s, e), net))
  {
    StepKeeps(s, e);
    AllocsOkValid(M.Apply(s, e));
    StepKeeps(M.Apply(s, e), M.Streams(M.Notifies(net)));
  }

  /** The rows of a network hold exactly its used addresses. */
  lemma SeedsUsed(nodes: map<nat, Node>, net: nat, k: nat)
    requires forall id :: id in nodes ==> 1 <= id <= k && nodes[id].ip4.V4?
    ensures var ns := M.NodesIn(nodes, net, k);
            (set i | 0 <= i < |ns| :: Unmap(ns[i].ip4)) == M.UsedBy(nodes, net)
  {
    var ns, ids := M.NodesIn(nodes, net, k), M.IdsIn(nodes, net, k);
    NodesAreIds(nodes, net, k);
    IdsInSorted(nodes, net, k);
    forall a | a in M.UsedBy(nodes, net) ensures exists i :: 0 <= i < |ns| && Unmap(ns[i].ip4) == a {
      var id :| id in nodes && nodes[id].net == net && nodes[id].ip4 == a;
      var i :| 0 <= i < |ids| && ids[i] == id;
      assert Unmap(ns[i].ip4) == a;
    }
  }

  function Offered(t: Table, id: nat, routes: set<string>): Table {
    if routes == {} then t else Advertise(t, id, routes)
  }

  function Taken(a: Alloc, v4: Option<Addr>): Alloc
    requires ValidAlloc(a)
  {
    if v4.Some? then Take(a, v4.value) else a
  }

  /** Inserting a node with its allocator a loaded and v4 already taken. */
  ghost function Created(s: M.State, a: Alloc, net: nat, name: string, v4: Addr, req: M.Joining): (M.State, Result<nat>)
    requires ValidAlloc(a) && req.routes.Some? && s.db.lastId < M.MAX_ID
  {
    var id := s.db.lastId + 1;
    var v6 := DeriveV6(a.v6, id);
    M.AddNode(s, a, M.NewRow(id, net, name, v4, v6, req), v6, req.routes.value)
  }

  ghost function JoinedVia(s: M.State, net: nat, req: M.Joining): (M.State, Result<nat>)
    requires M.NetworksOk(s.db.networks) && M.AllocsValid(s.ipams) && req.routes.Some?
  {
    var a := M.AllocatorFor(s.db, s.ipams, net);
    M.AllocatorForValid(s.db, s.ipams, net);
    if a.Err? then (s, Err(a.message)) else M.JoinWith(s.(ipams := s.ipams[net := a.value]), a.value, net, req)
  }

  /** Loading the allocator first makes no difference. */
  lemma LoadedFirst(s: M.State, a: Alloc, net: nat, req: M.Joining)
    requires ValidAlloc(a) && req.routes.Some?
    ensures M.JoinWith(s.(ipams := s.ipams[net := a]), a, net, req) == M.JoinWith(s, a, net, req)
  {
    Overwritten(s.ipams, net, a, a);
    var v4 := Allocate(a);
    if v4.Some? {
      var a' := Take(a, v4.value);
      Overwritten(s.ipams, net, a, a');
      Overwritten(s.ipams, net, a, a'.(used := a'.used - {Unmap(v4.value)}));
    }
  }

  lemma JoinedViaIs(s: M.State, net: nat, req: M.Joining)
    requires M.NetworksOk(s.db.networks) && M.AllocsValid(s.ipams) && req.routes.Some?
    ensures var a := M.AllocatorFor(s.db, s.ipams, net);
            && (a.Ok? ==> ValidAlloc(a.value))
            && JoinedVia(s, net, req) == if a.Err? then (s, Err(a.message)) else M.JoinWith(s, a.value, net, req)
  {
    var a := M.AllocatorFor(s.db, s.ipams, net);
    M.AllocatorForValid(s.db, s.ipams, net);
    if a.Ok? { LoadedFirst(s, a.value, net, req); }
  }

  lemma JoinedViaSpares(s: M.State, net: nat, req: M.Joining)
    requires M.NetworksOk(s.db.networks) && M.AllocsValid(s.ipams) && req.routes.Some?
    ensures var s' := JoinedVia(s, net, req).0;
            s'.maps == s.maps && s'.online == s.online && s'.seqNo == s.seqNo && s'.sigs == s.sigs
  {
    var a := M.AllocatorFor(s.db, s.ipams, net);
    M.AllocatorForValid(s.db, s.ipams, net);
    if a.Ok? { M.JoinWithSpares(s.(ipams := s.ipams[net := a.value]), a.value, net, req); }
  }

  /** What InsertRow and FinishRow do together is AddNode. */
  lemma CreatedParts(s: M.State, a: Alloc, net: nat, name: string, v4: Addr, v6: Result<Addr>, req: M.Joining,
                     db: M.Db, r: Result<nat>)
    requires req.routes.Some?
    requires var id := s.db.lastId + 1;
             var row0, routes := M.NewRow(id, net, name, v4, Err(""), req), req.routes.value;
             if v6.Err? then r == Err(v6.message) && db == s.db.(nodes := s.db.nodes[id := row0], lastId := id)
             else r == Ok(id)
                  && db == s.db.(nodes := s.db.nodes[id := row0][id := row0.(ip6 := v6.value)], lastId := id,
                                 routes := Offered(s.db.routes, id, routes))
    ensures var out := M.AddNode(s, a, M.NewRow(s.db.lastId + 1, net, name, v4, v6, req), v6, req.routes.value);
            r == out.1 && db == out.0.db
  {
    var id := s.db.lastId + 1;
    if v6.Ok? {
      var row := M.NewRow(id, net, name, v4, v6, req);
      assert s.db.nodes[id := M.NewRow(id, net, name, v4, Err(""), req)][id := row] == s.db.nodes[id := row];
    }
  }

  /** Inserting the row and finishing it is what Created does. */
  lemma CreatedIs(s: M.State, a: Alloc, net: nat, name: string, v4: Addr, v6: Result<Addr>, req: M.Joining, db1: M.Db,
                  db: M.Db, r: Result<nat>)
    requires ValidAlloc(a) && req.routes.Some? && s.db.lastId < M.MAX_ID && v6 == DeriveV6(a.v6, s.db.lastId + 1)
    requires var id := s.db.lastId + 1;
             db1 == s.db.(nodes := s.db.nodes[id := M.NewRow(id, net, name, v4, Err(""), req)], lastId := id)
    requires v6.Err? ==> r == Err(v6.message) && db == db1
    requires v6.Ok? ==>
               var id := s.db.lastId + 1;
               && r == Ok(id)
               && db == db1.(nodes := db1.nodes[id := db1.nodes[id].(ip6 := v6.value)],
                             routes := Offered(db1.routes, id, req.routes.value))
    ensures var out := Created(s, a, net, name, v4, req);
            r == out.1 && db == out.0.db && out.0.born == s.born[s.db.lastId + 1 := net]
  {
    CreatedParts(s, a, net, name, v4, v6, req, db, r);
  }

  lemma CreatedAfter(s: M.State, s1: M.State, a: Alloc, net: nat, v4: Addr, req: M.Joining)
    requires ValidAlloc(a) && Allocate(a) == Some(v4) && req.routes.Some? && !req.insertFails && s.db.lastId < M.MAX_ID
    requires s1.db == s.db && s1.born == s.born && ValidAlloc(Take(a, v4))
    ensures var out, made := M.JoinWith(s, a, net, req),
                             Created(s1, Take(a, v4), net, M.NewName(s.db.nodes, net, req.name), v4, req);
            && out.1 == made.1 && out.0.db == made.0.db && out.0.born == made.0.born
            && out.0.ipams == s.ipams[net := Take(a, v4)]
  {
    var id, a' := s.db.lastId + 1, Take(a, v4);
    var v6 := DeriveV6(a'.v6, id);
    var row := M.NewRow(id, net, M.NewName(s.db.nodes, net, req.name), v4, v6, req);
    JoinIsAdd(s, a, net, v4, req);
    AddNodeSame(s, s1, a', row, v6, req.routes.value);
  }

  lemma JoinIsAdd(s: M.State, a: Alloc, net: nat, v4: Addr, req: M.Joining)
    requires ValidAlloc(a) && Allocate(a) == Some(v4) && req.routes.Some? && !req.insertFails && s.db.lastId < M.MAX_ID
    requires ValidAlloc(Take(a, v4))
    ensures M.JoinWith(s, a, net, req) == Created(s, Take(a, v4), net, M.NewName(s.db.nodes, net, req.name), v4, req)
  {
  }

  lemma AddNodeSame(s: M.State, s1: M.State, a: Alloc, n: Node, v6: Result<Addr>, routes: set<string>)
    requires s1.db == s.db && s1.born == s.born
    ensures var out, made := M.AddNode(s, a, n, v6, routes), M.AddNode(s1, a, n, v6, routes);
            && out.1 == made.1 && out.0.db == made.0.db && out.0.born == made.0.born
            && out.0.ipams == s.ipams[n.net := a]
  {
  }

  lemma Overwritten(m: map<nat, Alloc>, k: nat, v: Alloc, w: Alloc)
    ensures m[k := v][k := w] == m[k := w]
  {
  }

  // ---------------------------------------------------------------- operations with their push

  ghost function Subscribed(s: M.State, mkey: string): M.State {
    var found := M.FindNode(s.db.nodes, mkey, s.db.lastId);
    if found.None? then s else M.Notify(M.Subscribe(s, mkey), s.db.nodes[found.value].net)
  }

  lemma SubscribedKeeps(s: M.State, mkey: string)
    requires Good(s)
    ensures Good(Subscribed(s, mkey))
  {
    var found := M.FindNode(s.db.nodes, mkey, s.db.lastId);
    if found.Some? { TrafficAndPushKeep(s, M.Subscribes(mkey), M.Subscribe(s, mkey), s.db.nodes[found.value].net); }
  }

  lemma TrafficAndPushKeep(s: M.State, t: M.Traffic, s': M.State, net: nat)
    requires Good(s) && s' == M.ApplyTraffic(s, t)
    ensures Good(s') && Good(M.Notify(s', net))
  {
    AllocsOkValid(s);
    EventAndPushKeep(s, M.Streams(t), net);
  }

  lemma ChangeAndPushKeep(s: M.State, c: M.Change, s': M.State, net: nat)
    requires Good(s) && M.NetworksOk(s.db.networks) && M.AllocsValid(s.ipams) && EventOk(M.Writes(c))
    requires s' == M.ApplyChange(s, c)
    ensures Good(s') && Good(M.Notify(s', net))
  {
    EventAndPushKeep(s, M.Writes(c), net);
  }

  lemma SignalSubscribedKeeps(s: M.State, mkey: string)
    requires Good(s)
    ensures Good(M.SignalSubscribe(s, mkey))
  {
    TrafficAndPushKeep(s, M.SignalSubscribes(mkey), M.SignalSubscribe(s, mkey), 0);
  }

  lemma RoutedKeeps(s: M.State, c: nat, env: M.Signal)
    requires Good(s)
    ensures Good(M.RouteSignal(s, c, env))
  {
    TrafficAndPushKeep(s, M.Signals(c, env), M.RouteSignal(s, c, env), 0);
  }

  ghost function Unsubscribed(s: M.State, c: nat): M.State {
    if H.Registered(s.maps, c) then M.Notify(M.Unsubscribe(s, c), s.maps.chans[c].net) else s
  }

  lemma UnsubscribedKeeps(s: M.State, c: nat)
    requires Good(s)
    ensures Good(Unsubscribed(s, c))
  {
    if H.Registered(s.maps, c) {
      UnsubscribesIs(s, c);
      TrafficAndPushKeep(s, M.Unsubscribes(c), M.Unsubscribe(s, c), s.maps.chans[c].net);
    }
  }

  lemma UnsubscribesIs(s: M.State, c: nat)
    ensures M.ApplyTraffic(s, M.Unsubscribes(c)) == M.Unsubscribe(s, c)
  {
  }

  ghost function Approved(s: M.State, id: nat, route: Option<string>, approved: bool): M.State {
    if id in s.db.nodes && route.Some? && RouteKey(id, route.value) in s.db.routes
    then M.Notify(M.SetApproved(s, id, route, approved), s.db.nodes[id].net) else M.SetApproved(s, id, route, approved)
  }

  lemma ApprovedKeeps(s: M.State, id: nat, route: Option<string>, approved: bool)
    requires Good(s)
    ensures Good(Approved(s, id, route, approved))
  {
    AllocsOkValid(s);
    var net := if id in s.db.nodes then s.db.nodes[id].net else 0;
    ChangeAndPushKeep(s, M.Approves(id, route, approved), M.SetApproved(s, id, route, approved), net);
  }

  /** The decision is on the row of that node and route, and on no other. */
  ghost predicate IsDecided(rs: Table, rs': Table, id: nat, route: Option<string>, approved: bool) {
    && rs'.Keys == rs.Keys
    && forall r :: r in rs ==> rs'[r] == if r.node == id && Some(r.route) == route then approved else rs[r]
  }

  lemma ApprovedDecides(s: M.State, id: nat, route: Option<string>, approved: bool)
    requires Good(s)
    ensures IsDecided(s.db.routes, Approved(s, id, route, approved).db.routes, id, route, approved)
  {
    assert RoutesOwned(s.db.routes, s.db.nodes);
    DecidesInTable(s, id, route, approved);
  }

  lemma DecidesInTable(s: M.State, id: nat, route: Option<string>, approved: bool)
    requires RoutesOwned(s.db.routes, s.db.nodes)
    ensures IsDecided(s.db.routes, Approved(s, id, route, approved).db.routes, id, route, approved)
  {
    var rs := Approved(s, id, route, approved).db.routes;
    assert rs == if id in s.db.nodes && route.Some? then Decide(s.db.routes, id, route.value, approved) else s.db.routes;
    OnlyThatRow(s.db.routes, id, route, approved);
  }

  lemma OnlyThatRow(rs: Table, id: nat, route: Option<string>, approved: bool)
    ensures route.Some? ==> IsDecided(rs, Decide(rs, id, route.value, approved), id, route, approved)
    ensures route.None? || (forall r :: r in rs ==> r.node != id) ==> IsDecided(rs, rs, id, route, approved)
  {
  }

  ghost function Reported(s: M.State, mkey: string, eps: seq<string>, parse: bool): M.State {
    var found := M.FindNode(s.db.nodes, mkey, s.db.lastId);
    if found.None? || !parse then s else M.Notify(M.SetEndpoints(s, found.value, eps), s.db.nodes[found.value].net)
  }

  lemma ReportedKeeps(s: M.State, mkey: string, eps: seq<string>, parse: bool)
    requires Good(s)
    ensures Good(Reported(s, mkey, eps, parse))
  {
    AllocsOkValid(s);
    var found := M.FindNode(s.db.nodes, mkey, s.db.lastId);
    if found.Some? {
      ReportsIs(s, found.value, eps);
      ChangeAndPushKeep(s, M.Reports(found.value, eps), M.SetEndpoints(s, found.value, eps),
                        s.db.nodes[found.value].net);
    }
  }

  lemma ReportsIs(s: M.State, id: nat, eps: seq<string>)
    requires M.NetworksOk(s.db.networks) && M.AllocsValid(s.ipams)
    ensures M.ApplyChange(s, M.Reports(id, eps)) == M.SetEndpoints(s, id, eps)
  {
  }

  lemma DeleteParts(s: M.State, id: nat, db: M.Db, s': M.State)
    requires M.NetworksOk(s.db.networks) && id in s.db.nodes
    requires db == s.db.(nodes := s.db.nodes - {id}, routes := Drop(s.db.routes, id))
    requires s'.db == db && s'.ipams == M.Freed(db, s.ipams, s.db.nodes[id].net, s.db.nodes[id].ip4)
    requires s'.maps == H.Kick(s.maps, id) && s'.sigs == H.Kick(s.sigs, id) && s'.online == s.online - {id}
    requires s'.born == s.born && s'.seqNo == s.seqNo
    ensures s' == M.DeleteNode(s, id)
  {
  }

  ghost function Deleted(s: M.State, id: nat): M.State
    requires M.NetworksOk(s.db.networks)
  {
    if id in s.db.nodes then M.Notify(M.DeleteNode(s, id), s.db.nodes[id].net) else s
  }

  lemma DeletedKeeps(s: M.State, id: nat)
    requires Good(s)
    ensures M.NetworksOk(s.db.networks) && Good(Deleted(s, id))
  {
    AllocsOkValid(s);
    if id in s.db.nodes { ChangeAndPushKeep(s, M.Deletes(id), M.DeleteNode(s, id), s.db.nodes[id].net); }
  }

  ghost function Enrolled(s: M.State, req: M.Request): M.State
    requires M.NetworksOk(s.db.networks) && M.AllocsValid(s.ipams)
  {
    var r := M.Register(s, req);
    if r.1.Ok? && r.1.value in r.0.db.nodes then M.Notify(r.0, r.0.db.nodes[r.1.value].net) else r.0
  }

  lemma EnrolledKeeps(s: M.State, req: M.Request)
    requires Good(s) && M.RequestOk(req)
    ensures M.NetworksOk(s.db.networks) && M.AllocsValid(s.ipams) && Good(Enrolled(s, req))
  {
    AllocsOkValid(s);
    var r := M.Register(s, req);
    ChangeAndPushKeep(s, M.Registers(req), r.0,
                      if r.1.Ok? && r.1.value in r.0.db.nodes then r.0.db.nodes[r.1.value].net else 0);
  }

  class Coordinator {
    var db: M.Db
    var ipams: map<nat, Allocator>
    var subs: map<nat, nat>
    var chans: map<nat, H.Chan<M.NetMap>>
    var nextChan: nat
    var sigSubs: map<nat, nat>
    var sigChans: map<nat, H.Chan<M.Signal>>
    var nextSig: nat
    var online: map<nat, bool>
    var seqNo: map<nat, nat>
    ghost var born: map<nat, nat>

    ghost function Allocs(): map<nat, Alloc>
      reads this`ipams, ipams.Values
    {
      map net | net in ipams :: ipams[net].View()
    }

    ghost function View(): M.State
      reads this, ipams.Values
    {
      M.State(db, Allocs(), Maps(), online, seqNo, Sigs(), born)
    }

    ghost function Maps(): H.Hub<M.NetMap>
      reads this`subs, this`chans, this`nextChan
    {
      H.Hub(subs, chans, nextChan)
    }

    ghost function Sigs(): H.Hub<M.Signal>
      reads this`sigSubs, this`sigChans, this`nextSig
    {
      H.Hub(sigSubs, sigChans, nextSig)
    }

    /** What the methods rely on. */
    ghost predicate Ready()
      reads this`db, this`subs, this`chans, this`sigSubs, this`sigChans
    {
      && (forall id :: id in db.nodes ==> db.nodes[id].id == id)
      && (forall id :: id in subs ==> subs[id] in chans)
      && (forall id :: id in sigSubs ==> sigSubs[id] in sigChans)
    }

    lemma GoodIsReady()
      requires Good(View())
      ensures Ready()
    {
      forall id | id in db.nodes ensures db.nodes[id].id == id {
        assert RowOk(db.networks, db.lastId, born, id, db.nodes[id]);
      }
    }

    /** No two networks share an allocator. */
    ghost predicate Apart()
      reads this`ipams
    {
      forall i, j :: i in ipams && j in ipams && i != j ==> ipams[i] != ipams[j]
    }

    ghost predicate Valid()
      reads this, ipams.Values
    {
      Apart() && Good(View())
    }

    constructor (networks: map<nat, Network>, keys: map<string, SetupKey>, acl: map<nat, seq<AclRule>>)
      requires M.NetworksOk(networks)
      ensures Valid() && M.Initial(View()) && db.networks == networks
    {
      db := M.Db(networks, map[], 0, keys, acl, map[]);
      ipams, online, seqNo := map[], map[], map[];
      subs, chans, nextChan := map[], map[], 0;
      sigSubs, sigChans, nextSig := map[], map[], 0;
      born := map[];
      new;
      InitialGood(View());
    }

    /** New on the database that an earlier server in state s left: everything held in
        memory starts empty; the old channels remain only as what they delivered. */
    constructor Reopen(s: M.State)
      requires Good(s)
      ensures Valid() && View() == M.Restart(s)
    {
      db := s.db;
      ipams, online, seqNo := map[], map[], map[];
      subs, chans, nextChan := map[], s.maps.chans, s.maps.next;
      sigSubs, sigChans, nextSig := map[], s.sigs.chans, s.sigs.next;
      born := s.born;
      new;
      AllocsOkValid(s);
      StepKeeps(s, M.Restarts);
      assert View() == M.Restart(s);
    }

    // -------------------------------------------------------------- netmaps

    method BuildNetMap(n: Node) returns (nm: M.NetMap)
      ensures nm == M.BuildNetMap(db, online, seqNo, n)
    {
      var nodes := M.NodesIn(db.nodes, n.net, db.lastId);
      var filter, enabled := CompileFilterForNode(M.RulesOf(db.acl, n.net), nodes, n.id);
      var peers: seq<M.PeerInfo> := [];
      for i := 0 to |nodes|
        invariant peers == M.PeersOf(nodes[..i], n.id, online, db.routes)
      {
        assert nodes[..i + 1][..i] == nodes[..i];
        var p := nodes[i];
        if p.id != n.id {
          var k := M.ParseKey(M.NODE_PREFIX, p.nodeKey);
          if k.Some? {
            peers := peers + [M.PeerInfo(p.id, p.hostname, k.value, HostCidrs(p), p.endpoints,
                                         M.IsOnline(online, p.id), ApprovedRoutes(db.routes, p.id))];
          }
        }
      }
      assert nodes[..|nodes|] == nodes;
      nm := M.NetMap(M.Get(seqNo, n.net),
                     M.SelfInfo(n.id, n.hostname, HostCidrs(n), ApprovedRoutes(db.routes, n.id)),
                     peers, filter, enabled);
    }

    method Send(n: Node)
      requires Ready() && n.id in subs
      modifies this`chans
      ensures Maps() == H.Push(old(Maps()), n.id, M.BuildNetMap(db, online, seqNo, n), M.MAP_BUFFER)
      ensures chans.Keys == old(chans).Keys
    {
      var nm := BuildNetMap(n);
      var ch := subs[n.id];
      chans := chans[ch := H.Sent(chans[ch], nm, M.MAP_BUFFER)];
    }

    method PushAll(net: nat)
      requires Ready()
      modifies this`chans
      ensures Maps() == H.PushEach(old(Maps()), M.IdsIn(db.nodes, net, db.lastId),
                                   M.AllMaps(db, online, seqNo, net), M.MAP_BUFFER)
    {
      var nodes := M.NodesIn(db.nodes, net, db.lastId);
      ghost var ids, msgs := M.IdsIn(db.nodes, net, db.lastId), M.AllMaps(db, online, seqNo, net);
      NodesAreIds(db.nodes, net, db.lastId);
      for i := 0 to |nodes|
        invariant chans.Keys == old(chans).Keys
        invariant Maps() == H.PushEach(old(Maps()), ids[..i], msgs, M.MAP_BUFFER)
      {
        assert ids[..i + 1][..i] == ids[..i] && ids[i] in msgs;
        if nodes[i].id in subs { Send(nodes[i]); }
      }
      assert ids[..|nodes|] == ids;
    }

    /** notifyNetworkLocked. */
    method NotifyNetwork(net: nat)
      requires Ready()
      modifies this`seqNo, this`chans
      ensures View() == M.Notify(old(View()), net)
    {
      seqNo := seqNo[net := M.Get(seqNo, net) + 1];
      PushAll(net);
      assert Allocs() == old(Allocs());
      assert Sigs() == old(Sigs());
    }

    // -------------------------------------------------------------- netmap streams

    method OpenStream(n: Node)
      requires n.id in subs ==> subs[n.id] in chans
      modifies this`subs, this`chans, this`nextChan, this`online
      ensures online == old(online)[n.id := true]
      ensures Maps() == H.Open(old(Maps()), n.id, n.net, [M.BuildNetMap(db, online, seqNo, n)])
    {
      if n.id in subs { chans := chans[subs[n.id] := H.Closed(chans[subs[n.id]])]; }
      online := online[n.id := true];
      var nm := BuildNetMap(n);
      subs := subs[n.id := nextChan];
      chans := chans[nextChan := H.Chan(n.id, n.net, [], [nm], 0, false)];
      nextChan := nextChan + 1;
    }

    method SubscribeStep(mkey: string) returns (r: Option<Node>)
      requires Ready()
      modifies this`subs, this`chans, this`nextChan, this`online
      ensures Ready() && View() == M.Subscribe(old(View()), mkey)
      ensures var found := M.FindNode(db.nodes, mkey, db.lastId);
              r == if found.None? then None else Some(db.nodes[found.value])
    {
      var found := M.FindNode(db.nodes, mkey, db.lastId);
      if found.None? { return None; }
      r := Some(db.nodes[found.value]);
      OpenStream(r.value);
    }

    method SubscribeLocked(mkey: string) returns (r: Option<nat>)
      requires Ready()
      modifies this`subs, this`chans, this`nextChan, this`online, this`seqNo
      ensures View() == Subscribed(old(View()), mkey)
      ensures r.Some? <==> M.FindNode(db.nodes, mkey, db.lastId).Some?
    {
      var c := nextChan;
      var n := SubscribeStep(mkey);
      if n.None? { return None; }
      NotifyNetwork(n.value.net);
      r := Some(c);
    }

    method Subscribe(mkey: string) returns (r: Option<nat>)
      requires Valid()
      modifies this
      ensures Valid() && View() == Subscribed(old(View()), mkey)
      ensures r.Some? <==> M.FindNode(old(db).nodes, mkey, old(db).lastId).Some?
    {
      SubscribedKeeps(View(), mkey);
      GoodIsReady();
      r := SubscribeLocked(mkey);
    }

    method LeaveStep(c: nat) returns (net: Option<nat>)
      requires Ready()
      modifies this`subs, this`online
      ensures Ready() && View() == M.Unsubscribe(old(View()), c)
      ensures net == if H.Registered(old(Maps()), c) then Some(chans[c].net) else None
    {
      if c in chans && chans[c].owner in subs && subs[chans[c].owner] == c {
        online := online[chans[c].owner := false];
        subs := subs - {chans[c].owner};
        net := Some(chans[c].net);
      } else {
        net := None;
      }
    }

    method UnsubscribeLocked(c: nat)
      requires Ready()
      modifies this`subs, this`chans, this`online, this`seqNo
      ensures View() == Unsubscribed(old(View()), c)
    {
      var net := LeaveStep(c);
      if net.Some? { NotifyNetwork(net.value); }
    }

    /** The unsubscribe closure of channel c. */
    method Unsubscribe(c: nat)
      requires Valid()
      modifies this
      ensures Valid() && View() == Unsubscribed(old(View()), c)
    {
      UnsubscribedKeeps(View(), c);
      GoodIsReady();
      UnsubscribeLocked(c);
    }

    // -------------------------------------------------------------- routes and endpoints

    method ApproveStep(id: nat, route: Option<string>, approved: bool) returns (net: Option<nat>)
      requires Ready()
      modifies this`db
      ensures Ready() && View() == M.SetApproved(old(View()), id, route, approved)
      ensures net == if id in old(db).nodes && route.Some? && RouteKey(id, route.value) in old(db).routes
                     then Some(old(db).nodes[id].net) else None
    {
      if id !in db.nodes || route.None? { return None; }
      net := if RouteKey(id, route.value) in db.routes then Some(db.nodes[id].net) else None;
      db := db.(routes := Decide(db.routes, id, route.value, approved));
    }

    method ApproveLocked(id: nat, route: Option<string>, approved: bool)
      requires Ready()
      modifies this`db, this`chans, this`seqNo
      ensures View() == Approved(old(View()), id, route, approved)
    {
      var net := ApproveStep(id, route, approved);
      if net.Some? { NotifyNetwork(net.value); }
    }

    /** route is None when it does not parse. */
    method SetRouteApproved(id: nat, route: Option<string>, approved: bool)
      requires Valid()
      modifies this
      ensures Valid() && View() == Approved(old(View()), id, route, approved)
      ensures IsDecided(old(db.routes), db.routes, id, route, approved)
    {
      ApprovedKeeps(View(), id, route, approved);
      ApprovedDecides(View(), id, route, approved);
      GoodIsReady();
      ApproveLocked(id, route, approved);
    }

    method EndpointsStep(id: nat, eps: seq<string>)
      requires Ready() && id in db.nodes
      modifies this`db
      ensures Ready() && View() == M.SetEndpoints(old(View()), id, eps)
    {
      db := db.(nodes := db.nodes[id := db.nodes[id].(endpoints := eps)]);
    }

    method EndpointsLocked(mkey: string, eps: seq<string>, parse: bool)
      requires Ready()
      modifies this`db, this`chans, this`seqNo
      ensures View() == Reported(old(View()), mkey, eps, parse)
    {
      var found := M.FindNode(db.nodes, mkey, db.lastId);
      if found.Some? && parse {
        var net := db.nodes[found.value].net;
        EndpointsStep(found.value, eps);
        NotifyNetwork(net);
      }
    }

    /** parse says whether every endpoint is an address and port. */
    method UpdateEndpoints(mkey: string, eps: seq<string>, parse: bool)
      requires Valid()
      modifies this
      ensures Valid() && View() == Reported(old(View()), mkey, eps, parse)
    {
      ReportedKeeps(View(), mkey, eps, parse);
      GoodIsReady();
      EndpointsLocked(mkey, eps, parse);
    }

    // -------------------------------------------------------------- signals

    method SignalSubscribeStep(mkey: string) returns (r: Option<nat>)
      requires Ready()
      modifies this`sigSubs, this`sigChans, this`nextSig
      ensures View() == M.SignalSubscribe(old(View()), mkey)
      ensures r == if M.FindNode(db.nodes, mkey, db.lastId).Some? then Some(old(nextSig)) else None
    {
      var found := M.FindNode(db.nodes, mkey, db.lastId);
      if found.None? { return None; }
      var n := db.nodes[found.value];
      if n.id in sigSubs { sigChans := sigChans[sigSubs[n.id] := H.Closed(sigChans[sigSubs[n.id]])]; }
      r := Some(nextSig);
      sigSubs := sigSubs[n.id := nextSig];
      sigChans := sigChans[nextSig := H.Chan(n.id, n.net, [], [], 0, false)];
      nextSig := nextSig + 1;
    }

    method SignalSubscribe(mkey: string) returns (r: Option<nat>)
      requires Valid()
      modifies this
      ensures Valid() && View() == M.SignalSubscribe(old(View()), mkey)
      ensures r == if M.FindNode(db.nodes, mkey, db.lastId).Some? then Some(old(nextSig)) else None
    {
      SignalSubscribedKeeps(View(), mkey);
      GoodIsReady();
      r := SignalSubscribeStep(mkey);
    }

    method SignalLeaveStep(c: nat)
      modifies this`sigSubs
      ensures View() == old(View()).(sigs := H.Leave(old(View()).sigs, c))
    {
      if c in sigChans && sigChans[c].owner in sigSubs && sigSubs[sigChans[c].owner] == c {
        sigSubs := sigSubs - {sigChans[c].owner};
      }
    }

    method SignalUnsubscribe(c: nat)
      requires Valid()
      modifies this
      ensures Valid() && View() == old(View()).(sigs := H.Leave(old(View()).sigs, c))
    {
      ghost var s := View();
      TrafficAndPushKeep(s, M.SignalUnsubscribes(c), s.(sigs := H.Leave(s.sigs, c)), 0);
      SignalLeaveStep(c);
    }

    method RouteStep(c: nat, env: M.Signal)
      requires c in sigChans && Ready()
      modifies this`sigChans
      ensures View() == M.RouteSignal(old(View()), c, env)
    {
      if env.to > M.MAX_ID || env.to !in db.nodes { return; }
      var from, dst := sigChans[c], db.nodes[env.to];
      if dst.net != from.net || dst.id !in sigSubs { return; }
      var ch := sigSubs[dst.id];
      sigChans := sigChans[ch := H.Sent(sigChans[ch], env.(from := from.owner), M.SIGNAL_BUFFER)];
    }

    /** routeSignal for the node whose signal stream c is. */
    method RouteSignal(c: nat, env: M.Signal)
      requires Valid() && c in sigChans
      modifies this
      ensures Valid() && View() == M.RouteSignal(old(View()), c, env)
    {
      RoutedKeeps(View(), c, env);
      GoodIsReady();
      RouteStep(c, env);
    }

    // -------------------------------------------------------------- addresses

    ghost predicate Pools()
      reads this`db, this`ipams, ipams.Values
    {
      && Apart() && M.NetworksOk(db.networks) && M.AllocsValid(Allocs())
      && forall id :: id in db.nodes ==> 1 <= id <= db.lastId && db.nodes[id].ip4.V4?
    }

    lemma GoodIsPools()
      requires Valid()
      ensures Pools()
    {
      AllocsOkValid(View());
      forall id | id in db.nodes ensures 1 <= id <= db.lastId && db.nodes[id].ip4.V4? {
        assert RowOk(db.networks, db.lastId, born, id, db.nodes[id]);
      }
    }

    method SeedAllocator(a: Alloc, net: nat) returns (r: Allocator)
      requires ValidAlloc(a) && forall id :: id in db.nodes ==> 1 <= id <= db.lastId && db.nodes[id].ip4.V4?
      ensures fresh(r) && r.Valid() && r.View() == a.(used := a.used + M.UsedBy(db.nodes, net))
    {
      r := new Allocator(a);
      var nodes := M.NodesIn(db.nodes, net, db.lastId);
      for i := 0 to |nodes|
        invariant r.Valid() && r.View() == a.(used := a.used + (set j | 0 <= j < i :: Unmap(nodes[j].ip4)))
      {
        var one := [nodes[i].ip4];
        assert (set j | 0 <= j < |one| :: Unmap(one[j])) == {Unmap(nodes[i].ip4)} by { assert one[0] == nodes[i].ip4; }
        r.MarkUsed(one);
      }
      SeedsUsed(db.nodes, net, db.lastId);
    }

    method Load(net: nat, a: Allocator)
      requires Pools() && net !in ipams && a.Valid() && forall k :: k in ipams ==> ipams[k] != a
      modifies this`ipams
      ensures Pools() && ipams == old(ipams)[net := a] && Allocs() == old(Allocs())[net := a.View()]
    {
      ipams := ipams[net := a];
      assert Allocs() == old(Allocs())[net := a.View()];
    }

    /** The network's allocator is loaded, or the prefixes are refused and nothing changes. */
    method AllocatorFor(net: nat) returns (r: Result<()>)
      requires Pools() && net in db.networks
      modifies this`ipams
      ensures Pools() && forall k :: k in ipams ==> ipams[k] in old(ipams).Values || fresh(ipams[k])
      ensures var a := M.AllocatorFor(db, old(Allocs()), net);
              if a.Err? then r == Err(a.message) && Allocs() == old(Allocs())
              else r.Ok? && net in ipams && Allocs() == old(Allocs())[net := a.value]
    {
      if net in ipams { return Ok(()); }
      var nw := db.networks[net];
      var a0 := NewAlloc(Some(nw.v4), Some(nw.v6));
      if a0.Err? { return Err(a0.message); }
      NewAllocValid(Some(nw.v4), Some(nw.v6));
      var a := SeedAllocator(a0.value, net);
      Load(net, a);
      r := Ok(());
    }

    lemma PoolIsValid(net: nat)
      requires M.AllocsValid(Allocs()) && net in ipams
      ensures ipams[net].Valid()
    {
      assert Allocs()[net] == ipams[net].View();
    }

    method ReleaseIn(net: nat, ip: Addr)
      requires Pools() && net in ipams
      modifies ipams[net]
      ensures Allocs() == old(Allocs())[net := old(Allocs())[net].(used := old(Allocs())[net].used - {Unmap(ip)})]
    {
      PoolIsValid(net);
      ipams[net].Release(ip);
    }

    method FreeAddress(net: nat, ip: Addr)
      requires Pools()
      modifies this`ipams, ipams.Values
      ensures Apart() && forall k :: k in ipams ==> ipams[k] in old(ipams).Values || fresh(ipams[k])
      ensures Allocs() == M.Freed(db, old(Allocs()), net, ip)
    {
      if net in db.networks {
        ghost var pools, a := Allocs(), M.AllocatorFor(db, Allocs(), net);
        var r := AllocatorFor(net);
        if r.Ok? {
          ReleaseIn(net, ip);
          ghost var a' := a.value.(used := a.value.used - {Unmap(ip)});
          Overwritten(pools, net, a.value, a');
        }
      }
    }

    // -------------------------------------------------------------- deleting a node

    method Kick(id: nat)
      requires Ready()
      modifies this`subs, this`chans, this`sigSubs, this`sigChans, this`online
      ensures Ready() && online == old(online) - {id}
      ensures Maps() == H.Kick(old(Maps()), id) && Sigs() == H.Kick(old(Sigs()), id)
    {
      if id in subs {
        chans := chans[subs[id] := H.Closed(chans[subs[id]])];
        subs := subs - {id};
      }
      if id in sigSubs {
        sigChans := sigChans[sigSubs[id] := H.Closed(sigChans[sigSubs[id]])];
        sigSubs := sigSubs - {id};
      }
      online := online - {id};
    }

    method RemoveRow(id: nat)
      requires Ready() && Pools() && id in db.nodes
      modifies this`db, this`subs, this`chans, this`sigSubs, this`sigChans, this`online
      ensures Ready() && Pools() && db == old(db).(nodes := old(db).nodes - {id}, routes := Drop(old(db).routes, id))
      ensures online == old(online) - {id}
      ensures Maps() == H.Kick(old(Maps()), id) && Sigs() == H.Kick(old(Sigs()), id) && Allocs() == old(Allocs())
    {
      db := db.(nodes := db.nodes - {id}, routes := Drop(db.routes, id));
      Kick(id);
      assert Allocs() == old(Allocs());
    }

    method DeleteStep(id: nat)
      requires Ready() && Pools() && id in db.nodes
      modifies this`db, this`subs, this`chans, this`sigSubs, this`sigChans, this`online, this`ipams,
               ipams.Values
      ensures Ready() && Apart() && View() == M.DeleteNode(old(View()), id)
    {
      var n := db.nodes[id];
      RemoveRow(id);
      FreeAddress(n.net, n.ip4);
      DeleteParts(old(View()), id, db, View());
    }

    method DeleteLocked(id: nat)
      requires Ready() && Pools()
      modifies this, ipams.Values
      ensures Apart() && View() == Deleted(old(View()), id)
    {
      if id in db.nodes {
        var net := db.nodes[id].net;
        DeleteStep(id);
        NotifyNetwork(net);
      }
    }

    method DeleteNode(id: nat)
      requires Valid()
      modifies this, ipams.Values
      ensures M.NetworksOk(old(db).networks) && Valid() && View() == Deleted(old(View()), id)
    {
      DeletedKeeps(View(), id);
      GoodIsReady();
      GoodIsPools();
      DeleteLocked(id);
    }

    // -------------------------------------------------------------- registration

    method Rejoin(id: nat, req: M.Joining)
      requires Ready() && id in db.nodes && req.routes.Some?
      modifies this`db
      ensures Ready() && View() == M.Rejoin(old(View()), id, req)
    {
      var n := db.nodes[id];
      var name := n.hostname;
      if req.name != "" && req.name != n.hostname && req.name !in M.TakenNames(db.nodes, n.net) { name := req.name; }
      StoreRow(n.(nodeKey := M.KeyText(M.NODE_PREFIX, req.nkey), hostname := name, os := req.os));
      StoreOffer(id, req.routes.value);
    }

    method StoreRow(row: Node)
      requires Ready()
      modifies this`db
      ensures Ready() && db == old(db).(nodes := old(db).nodes[row.id := row]) && Allocs() == old(Allocs())
    {
      db := db.(nodes := db.nodes[row.id := row]);
    }

    method StoreOffer(id: nat, routes: set<string>)
      requires Ready()
      modifies this`db
      ensures Ready() && db == old(db).(routes := Advertise(old(db).routes, id, routes)) && Allocs() == old(Allocs())
    {
      db := db.(routes := Advertise(db.routes, id, routes));
    }

    method InsertRow(row: Node)
      requires Ready()
      modifies this`db, this`born
      ensures Ready() && db == old(db).(nodes := old(db).nodes[row.id := row], lastId := row.id)
      ensures born == old(born)[row.id := row.net] && Allocs() == old(Allocs())
    {
      db := db.(nodes := db.nodes[row.id := row], lastId := row.id);
      born := born[row.id := row.net];
    }

    /** The derived IPv6 address replaces the placeholder, then the offer is stored. */
    method FinishRow(id: nat, v6: Result<Addr>, routes: set<string>) returns (r: Result<nat>)
      requires Ready() && id in db.nodes
      modifies this`db
      ensures Ready() && Allocs() == old(Allocs())
      ensures v6.Err? ==> r == Err(v6.message) && db == old(db)
      ensures v6.Ok? ==>
                && r == Ok(id)
                && db == old(db).(nodes := old(db).nodes[id := old(db).nodes[id].(ip6 := v6.value)],
                                  routes := Offered(old(db).routes, id, routes))
    {
      if v6.Err? { return Err(v6.message); }
      db := db.(nodes := db.nodes[id := db.nodes[id].(ip6 := v6.value)]);
      if routes != {} {
        db := db.(routes := Advertise(db.routes, id, routes));
      }
      r := Ok(id);
    }

    method AllocateIn(net: nat) returns (v4: Option<Addr>)
      requires Pools() && net in ipams
      modifies ipams[net]
      ensures v4 == Allocate(old(Allocs())[net])
      ensures Allocs() == old(Allocs())[net := Taken(old(Allocs())[net], v4)] && Pools()
    {
      PoolIsValid(net);
      v4 := ipams[net].AllocateV4();
      assert Allocs() == old(Allocs())[net := Taken(old(Allocs())[net], v4)];
    }

    /** The fields registration may change are those of the outcome. */
    ghost predicate IsOutcome(out: (M.State, Result<nat>), r: Result<nat>)
      reads this`db, this`born, this`ipams, ipams.Values
    {
      r == out.1 && db == out.0.db && born == out.0.born && Allocs() == out.0.ipams
    }

    /** alloc is the network's allocator. */
    method Create(alloc: Allocator, net: nat, name: string, v4: Addr, req: M.Joining) returns (r: Result<nat>)
      requires Ready() && alloc.Valid() && req.routes.Some? && db.lastId < M.MAX_ID
      modifies this`db, this`born
      ensures Ready() && Allocs() == old(Allocs())
      ensures var out := Created(old(View()), alloc.View(), net, name, v4, req);
              r == out.1 && db == out.0.db && born == out.0.born
    {
      var id := db.lastId + 1;
      InsertRow(M.NewRow(id, net, name, v4, Err(""), req));
      ghost var db1 := db;
      var v6 := alloc.AllocateV6For(id);
      r := FinishRow(id, v6, req.routes.value);
      CreatedIs(old(View()), alloc.View(), net, name, v4, v6, req, db1, db, r);
    }

    method FreeName(net: nat, wanted: string) returns (name: string)
      ensures name == M.NewName(db.nodes, net, wanted)
    {
      var tries;
      name, tries := DedupeHostname(M.TakenNames(db.nodes, net), if wanted == "" then "node" else wanted);
    }

    method CreateNamed(alloc: Allocator, net: nat, v4: Addr, req: M.Joining) returns (r: Result<nat>)
      requires Ready() && alloc.Valid() && req.routes.Some? && db.lastId < M.MAX_ID
      modifies this`db, this`born
      ensures Ready() && Allocs() == old(Allocs())
      ensures var out := Created(old(View()), alloc.View(), net, M.NewName(old(db).nodes, net, req.name), v4, req);
              r == out.1 && db == out.0.db && born == out.0.born
    {
      var name := FreeName(net, req.name);
      r := Create(alloc, net, name, v4, req);
    }

    /** Joining a network whose allocator is loaded. */
    method JoinLoaded(net: nat, req: M.Joining) returns (r: Result<nat>)
      requires Ready() && Pools() && net in ipams && req.routes.Some?
      modifies this`db, this`born, ipams[net]
      ensures Ready() && IsOutcome(M.JoinWith(old(View()), old(Allocs())[net], net, req), r)
    {
      ghost var s, a := View(), Allocs()[net];
      var v4 := AllocateIn(net);
      if v4.None? { return Err("IPv4 prefix exhausted"); }
      if req.insertFails || db.lastId + 1 > M.MAX_ID {
        ReleaseIn(net, v4.value);
        Overwritten(s.ipams, net, Take(a, v4.value), Allocs()[net]);
        return Err("insert failed");
      }
      PoolIsValid(net);
      ghost var s1 := View();
      r := CreateNamed(ipams[net], net, v4.value, req);
      CreatedAfter(s, s1, a, net, v4.value, req);
    }

    method SpendKey(key: string)
      requires Ready() && Pools() && key in db.keys
      modifies this`db
      ensures Ready() && Pools() && View() == M.Spend(old(View()), key)
    {
      db := db.(keys := db.keys[key := db.keys[key].(usedCount := db.keys[key].usedCount + 1)]);
      assert Allocs() == old(Allocs());
    }

    /** A new node joins the network of a setup key that was just spent. */
    method JoinNetwork(net: nat, req: M.Joining) returns (r: Result<nat>)
      requires Ready() && Pools() && net in db.networks && req.routes.Some?
      modifies this`db, this`born, this`ipams, ipams.Values
      ensures Ready() && Apart() && IsOutcome(JoinedVia(old(View()), net, req), r)
    {
      var ok := AllocatorFor(net);
      if ok.Err? { return Err(ok.message); }
      r := JoinLoaded(net, req);
    }

    /** The rest of joining, once the key that names the network is spent. */
    method JoinBySpent(net: nat, req: M.Joining) returns (r: Result<nat>)
      requires Ready() && Pools() && req.routes.Some?
      modifies this`db, this`born, this`ipams, ipams.Values
      ensures Ready() && Apart() && (View(), r) == M.JoinBySpent(old(View()), net, req)
    {
      if net !in db.networks { return Err("not found"); }
      ghost var s := View();
      r := JoinNetwork(net, req);
      JoinedViaIs(s, net, req);
      JoinedViaSpares(s, net, req);
    }

    method JoinStep(req: M.Joining) returns (r: Result<nat>)
      requires Ready() && Pools() && req.routes.Some?
      modifies this`db, this`born, this`ipams, ipams.Values
      ensures Ready() && Apart() && (View(), r) == M.Join(old(View()), req)
    {
      var key := TrimSpace(req.setupKey);
      var use := M.UsableKey(db.keys, key, req.now);
      if use.Err? { return Err(use.message); }
      SpendKey(key);
      r := JoinBySpent(use.value, req);
    }

    method Admit(req: M.Joining) returns (r: Result<nat>)
      requires Ready() && Pools()
      modifies this`db, this`born, this`ipams, ipams.Values
      ensures Ready() && Apart() && (View(), r) == M.Admit(old(View()), req)
    {
      if req.routes.None? { return Err("bad advertised route"); }
      var found := M.FindNode(db.nodes, M.KeyText(M.MACHINE_PREFIX, req.mkey), db.lastId);
      if found.Some? {
        Rejoin(found.value, req);
        return Ok(found.value);
      }
      if req.setupKey == "" { return Err("a setup key is required to join"); }
      r := JoinStep(req);
    }

    method RegisterLocked(req: M.Request) returns (r: Result<nat>)
      requires Ready() && Pools()
      modifies this, ipams.Values
      ensures Apart() && r == M.Register(old(View()), req).1 && View() == Enrolled(old(View()), req)
    {
      r := Admit(M.Cleaned(req));
      if r.Ok? && r.value in db.nodes { NotifyNetwork(db.nodes[r.value].net); }
    }

    /** Register: any host name is accepted and sanitized here. */
    method Register(req: M.Request) returns (r: Result<nat>)
      requires Valid() && M.RequestOk(req)
      modifies this, ipams.Values
      ensures M.NetworksOk(old(db).networks) && M.AllocsValid(old(Allocs()))
      ensures Valid() && r == M.Register(old(View()), req).1 && View() == Enrolled(old(View()), req)
    {
      EnrolledKeeps(View(), req);
      GoodIsReady();
      GoodIsPools();
      r := RegisterLocked(req);
    }
  }
}
