/** What the events of a run bring about at the coordinator: who joins under which name,
    who is subscribed and shown what, which signals arrive, and what a restart loses. */
module CoordEffects {
  import opened Prelude
  import opened Numerals
  import opened Net
  import opened Ipam
  import opened Text
  import opened Hostnames
  import opened Store
  import opened Routes
  import opened CoordModel
  import opened CoordSafety
  import opened CoordRuns
  import opened CoordKeys
  import H = Hub

  /** Event k of the run is e, and what follows is the state after it. */
  ghost predicate Happens(ss: seq<State>, es: seq<Event>, k: nat, e: Event) {
    IsRun(ss, es) && k < |es| && es[k] == e
  }

  lemma AfterEvent(ss: seq<State>, es: seq<Event>, k: nat)
    requires IsRun(ss, es) && k < |es|
    ensures NetworksOk(ss[k].db.networks) && AllocsValid(ss[k].ipams) && ss[k + 1] == Apply(ss[k], es[k])
  {
    RunKeeps(ss, es, k);
    assert StepAt(ss, es, k);
    LeadsIsApply(ss[k], es[k], ss[k + 1]);
  }

  /** The node that holds this machine key. */
  predicate Holds(db: Db, mkey: string, id: nat) { id in db.nodes && db.nodes[id].machineKey == mkey }

  /** Machine keys are unique, so looking one up finds the node that holds it. */
  lemma LookupFinds(ss: seq<State>, es: seq<Event>, k: nat, mkey: string, id: nat)
    requires IsRun(ss, es) && k <= |es| && Holds(ss[k].db, mkey, id)
    ensures FindNode(ss[k].db.nodes, mkey, ss[k].db.lastId) == Some(id) && ss[k].db.nodes[id].id == id
  {
    RunKeeps(ss, es, k);
    OneHolder(ss[k].db, ss[k].born, mkey, id);
  }

  lemma OneHolder(db: Db, born: map<nat, nat>, mkey: string, id: nat)
    requires DbOk(db, born) && Holds(db, mkey, id)
    ensures FindNode(db.nodes, mkey, db.lastId) == Some(id) && db.nodes[id].id == id
  {
    assert RowOk(db.networks, db.lastId, born, id, db.nodes[id]);
    var f := FindNode(db.nodes, mkey, db.lastId);
    assert f.Some? && f.value != id ==> Apart(db.nodes[f.value], db.nodes[id]);
  }

  lemma IdsAgree(ss: seq<State>, es: seq<Event>, k: nat, id: nat)
    requires IsRun(ss, es) && k <= |es| && id in ss[k].db.nodes
    ensures ss[k].db.nodes[id].id == id && id <= MAX_ID
  {
    RunKeeps(ss, es, k);
    assert RowOk(ss[k].db.networks, ss[k].db.lastId, ss[k].born, id, ss[k].db.nodes[id]);
  }

  // ---------------------------------------------------------------- known devices

  /** The name is another live node's, in the same network. */
  predicate TakenByOther(nodes: map<nat, Node>, id: nat, name: string)
    requires id in nodes
  {
    exists j :: j in nodes && j != id && nodes[j].net == nodes[id].net && nodes[j].hostname == name
  }

  lemma NameIsFree(nodes: map<nat, Node>, id: nat, name: string)
    requires id in nodes && name != nodes[id].hostname
    ensures name in TakenNames(nodes, nodes[id].net) <==> TakenByOther(nodes, id, name)
  {
  }

  /** A known device keeps its network, machine key, addresses and endpoints, takes over
      the new node key and system, and goes by the name it asks for unless that is empty
      or another's. */
  predicate Renewed(nodes: map<nat, Node>, id: nat, n': Node, nodeKey: string, os: string, want: string)
    requires id in nodes
  {
    && SameNode(nodes[id], n') && n'.endpoints == nodes[id].endpoints && n'.nodeKey == nodeKey && n'.os == os
    && n'.hostname == if want != "" && !TakenByOther(nodes, id, want) then want else nodes[id].hostname
  }

  lemma RejoinRenews(s: State, id: nat, req: Joining)
    requires id in s.db.nodes && req.routes.Some?
    ensures var db' := Rejoin(s, id, req).db;
            && id in db'.nodes
            && Renewed(s.db.nodes, id, db'.nodes[id], KeyText(NODE_PREFIX, req.nkey), req.os, req.name)
            && db'.nodes == s.db.nodes[id := db'.nodes[id]] && db'.lastId == s.db.lastId
  {
    if req.name != s.db.nodes[id].hostname { NameIsFree(s.db.nodes, id, req.name); }
  }

  lemma KnownIsRejoined(s: State, req: Request, id: nat)
    requires NetworksOk(s.db.networks) && AllocsValid(s.ipams) && req.routes.Some?
    requires id in s.db.nodes
    requires FindNode(s.db.nodes, KeyText(MACHINE_PREFIX, req.mkey), s.db.lastId) == Some(id)
    ensures Apply(s, Writes(Registers(req))) == Rejoin(s, id, Cleaned(req))
  {
  }

  /** A device whose machine key is known registers again under its old row, and no other
      row changes. */
  lemma KnownDevicesRejoin(ss: seq<State>, es: seq<Event>, k: nat, req: Request, id: nat)
    requires Happens(ss, es, k, Writes(Registers(req))) && req.routes.Some?
    requires Holds(ss[k].db, KeyText(MACHINE_PREFIX, req.mkey), id)
    ensures var nodes, nodes' := ss[k].db.nodes, ss[k + 1].db.nodes;
            && id in nodes' && nodes' == nodes[id := nodes'[id]] && ss[k + 1].db.lastId == ss[k].db.lastId
            && Renewed(nodes, id, nodes'[id], KeyText(NODE_PREFIX, req.nkey), req.os, Sanitize(req.hostname, req.lower))
  {
    AfterEvent(ss, es, k);
    LookupFinds(ss, es, k, KeyText(MACHINE_PREFIX, req.mkey), id);
    KnownIsRejoined(ss[k], req, id);
    RejoinRenews(ss[k], id, Cleaned(req));
  }

  // ---------------------------------------------------------------- new devices

  /** No live node of the network holds this host address. */
  predicate IsFree(db: Db, net: nat, ip: Addr)
    requires net in db.networks && ValidPrefix(db.networks[net].v4)
  {
    && Usable(Masked(db.networks[net].v4), ip)
    && forall id :: id in db.nodes && db.nodes[id].net == net ==> db.nodes[id].ip4 != ip
  }

  /** The network exists, can be allocated from, and has an address left. */
  ghost predicate HasRoom(db: Db, net: nat) {
    net in db.networks && GoodNet(db.networks[net]) && exists ip :: IsFree(db, net, ip)
  }

  /** Everything a new device needs to get a row. */
  ghost predicate CanJoin(db: Db, req: Joining) {
    && req.routes.Some? && req.setupKey != "" && !req.insertFails && db.lastId < MAX_ID
    && var key := TrimSpace(req.setupKey);
       key in db.keys && InForce(db.keys[key], req.now) && HasRoom(db, db.keys[key].net)
  }

  /** The row a new device gets: the next ID, the network of its key, a free address, the
      IPv6 address of its ID, and a free name. */
  predicate IsNewRow(db: Db, net: nat, req: Joining, n: Node)
    requires net in db.networks && GoodNet(db.networks[net])
  {
    && n.id == db.lastId + 1 && n.net == net && IsFree(db, net, n.ip4)
    && (db.networks[net].v6.bits <= 64 ==> n.ip6 == V6(Masked(db.networks[net].v6).addr.n + n.id))
    && n.machineKey == KeyText(MACHINE_PREFIX, req.mkey) && n.nodeKey == KeyText(NODE_PREFIX, req.nkey)
    && n.os == req.os && n.endpoints == []
    && n.hostname == Dedupe(TakenNames(db.nodes, net), if req.name == "" then "node" else req.name)
  }

  /** The rows after a new device joined: its own is new, the others stay. */
  ghost predicate Joined(db: Db, net: nat, req: Joining, nodes': map<nat, Node>) {
    && net in db.networks && GoodNet(db.networks[net]) && db.lastId + 1 in nodes'
    && IsNewRow(db, net, req, nodes'[db.lastId + 1]) && nodes' == db.nodes[db.lastId + 1 := nodes'[db.lastId + 1]]
  }

  lemma RoomIsFree(db: Db, net: nat, a: Alloc)
    requires AllocOk(db.networks, db.nodes, net, a)
    ensures Allocate(a).Some? <==> HasRoom(db, net)
    ensures Allocate(a).Some? ==> IsFree(db, net, Allocate(a).value)
  {
    AllocateIsFirstFree(a);
    forall d | Usable(a.v4, d) ensures d !in a.used <==> IsFree(db, net, d) { }
    if Allocate(a).Some? {
      assert IsFree(db, net, Allocate(a).value);
    }
  }

  lemma LoadedJoin(s: State, a: Alloc, net: nat, req: Joining)
    requires AllocOk(s.db.networks, s.db.nodes, net, a) && req.routes.Some?
    ensures var nodes' := JoinWith(s, a, net, req).0.db.nodes;
            if HasRoom(s.db, net) && !req.insertFails && s.db.lastId < MAX_ID then Joined(s.db, net, req, nodes')
            else nodes' == s.db.nodes
  {
    RoomIsFree(s.db, net, a);
    if HasRoom(s.db, net) && !req.insertFails && s.db.lastId < MAX_ID { RoomyJoin(s, a, net, req); }
  }

  lemma AddNodeAdds(s: State, a: Alloc, n: Node, v6: Result<Addr>, routes: set<string>)
    ensures var db' := AddNode(s, a, n, v6, routes).0.db; db'.nodes == s.db.nodes[n.id := n] && db'.acl == s.db.acl
  {
  }

  lemma MaskedV6Fits(p: Prefix)
    requires ValidPrefix(p) && p.addr.V6?
    ensures var m := Masked(p); m.addr.V6? && m.bits == p.bits && IsMasked(m) && m.addr.n < Pow256(16)
  {
    MaskedIsMasked(p);
    MaskedFits(p);
    Pow2OfBytes(16);
  }

  lemma DerivesPlain(nw: Network, id: nat)
    requires GoodNet(nw) && nw.v6.bits <= 64 && 1 <= id <= MAX_ID
    ensures Masked(nw.v6).addr.V6? && DeriveV6(Masked(nw.v6), id) == Ok(V6(Masked(nw.v6).addr.n + id))
  {
    MaskedV6Fits(nw.v6);
    DeriveV6Correct(Masked(nw.v6), id);
  }

  lemma RoomyJoin(s: State, a: Alloc, net: nat, req: Joining)
    requires ValidAlloc(a) && req.routes.Some? && Joins(s, a, req)
    requires net in s.db.networks && GoodNet(s.db.networks[net]) && a.v6 == Masked(s.db.networks[net].v6)
    requires IsFree(s.db, net, Allocate(a).value)
    ensures Joined(s.db, net, req, JoinWith(s, a, net, req).0.db.nodes)
  {
    var a', v6, row := JoinAdds(s, a, net, req);
    AddNodeAdds(s, a', row, v6, req.routes.value);
    if a.v6.bits <= 64 { DerivesPlain(s.db.networks[net], row.id); }
    assert IsNewRow(s.db, net, req, row);
  }

  lemma SpentJoin(s: State, net: nat, req: Joining)
    requires NetworksOk(s.db.networks) && AllocsOk(s.db.networks, s.db.nodes, s.ipams) && AllocsValid(s.ipams)
    requires req.routes.Some?
    ensures var nodes' := JoinBySpent(s, net, req).0.db.nodes;
            if HasRoom(s.db, net) && !req.insertFails && s.db.lastId < MAX_ID then Joined(s.db, net, req, nodes')
            else nodes' == s.db.nodes
  {
    var a := AllocatorFor(s.db, s.ipams, net);
    AllocatorForOk(s.db, s.ipams, net);
    assert a.Ok? <==> net in s.db.networks && GoodNet(s.db.networks[net]);
    if a.Ok? { LoadedJoin(s, a.value, net, req); }
  }

  /** Spending a key leaves networks, rows and IDs as they are. */
  predicate SameRows(db: Db, db': Db) {
    db'.networks == db.networks && db'.nodes == db.nodes && db'.lastId == db.lastId
  }

  lemma SameRoom(db: Db, db': Db, net: nat, req: Joining, nodes': map<nat, Node>)
    requires SameRows(db, db')
    ensures HasRoom(db, net) <==> HasRoom(db', net)
    ensures Joined(db, net, req, nodes') <==> Joined(db', net, req, nodes')
  {
    if net in db.networks && GoodNet(db.networks[net]) {
      forall ip ensures IsFree(db, net, ip) <==> IsFree(db', net, ip) { }
    }
  }

  lemma JoinOutcome(s: State, req: Joining)
    requires NetworksOk(s.db.networks) && AllocsOk(s.db.networks, s.db.nodes, s.ipams) && AllocsValid(s.ipams)
    requires req.routes.Some? && req.setupKey != ""
    ensures var nodes' := Join(s, req).0.db.nodes;
            if CanJoin(s.db, req) then Joined(s.db, s.db.keys[TrimSpace(req.setupKey)].net, req, nodes')
            else nodes' == s.db.nodes
  {
    var key := TrimSpace(req.setupKey);
    if key in s.db.keys && InForce(s.db.keys[key], req.now) {
      UsableIff(s.db.keys, key, req.now, s.db.keys[key].net);
      var s1, net := Spend(s, key), s.db.keys[key].net;
      assert Join(s, req) == JoinBySpent(s1, net, req);
      SpentJoin(s1, net, req);
      SameRoom(s.db, s1.db, net, req, JoinBySpent(s1, net, req).0.db.nodes);
    }
  }

  lemma UnknownIsJoined(s: State, req: Request)
    requires NetworksOk(s.db.networks) && AllocsValid(s.ipams)
    requires forall id :: !Holds(s.db, KeyText(MACHINE_PREFIX, req.mkey), id)
    ensures Apply(s, Writes(Registers(req)))
         == if req.routes.Some? && req.setupKey != "" then Join(s, Cleaned(req)).0 else s
  {
    var found := FindNode(s.db.nodes, KeyText(MACHINE_PREFIX, req.mkey), s.db.lastId);
    assert found.Some? ==> Holds(s.db, KeyText(MACHINE_PREFIX, req.mkey), found.value);
  }

  /** A device that is not known joins if and only if its key lets it in, the key's
      network has a free address, and the database takes the row; otherwise every row
      stays as it was. */
  lemma NewDevicesJoin(ss: seq<State>, es: seq<Event>, k: nat, req: Request)
    requires Happens(ss, es, k, Writes(Registers(req)))
    requires forall id :: !Holds(ss[k].db, KeyText(MACHINE_PREFIX, req.mkey), id)
    ensures var db, nodes' := ss[k].db, ss[k + 1].db.nodes;
            if CanJoin(db, Cleaned(req)) then Joined(db, db.keys[TrimSpace(req.setupKey)].net, Cleaned(req), nodes')
            else nodes' == db.nodes
  {
    AfterEvent(ss, es, k);
    RunKeeps(ss, es, k);
    UnknownIsJoined(ss[k], req);
    if req.routes.Some? && req.setupKey != "" { JoinOutcome(ss[k], Cleaned(req)); }
  }

  // ---------------------------------------------------------------- deletion

  /** A deleted node is gone: its row, its routes, its streams and its presence.  Other
      rows, routes and subscriptions stay. */
  lemma DeletedAreGone(ss: seq<State>, es: seq<Event>, k: nat, id: nat)
    requires Happens(ss, es, k, Writes(Deletes(id))) && id in ss[k].db.nodes
    ensures WithoutNode(ss[k], ss[k + 1], id)
  {
    AfterEvent(ss, es, k);
    HubsAreOk(ss, es, k);
    DropIs(ss[k].db.routes, id);
    KickIs(ss[k].maps, id, MAP_BUFFER);
    KickIs(ss[k].sigs, id, SIGNAL_BUFFER);
  }

  ghost predicate WithoutNode(s: State, s': State, id: nat) {
    && s'.db.nodes == s.db.nodes - {id} && s'.db.lastId == s.db.lastId && WithoutRoutes(s.db.routes, s'.db.routes, id)
    && s'.maps.subs == s.maps.subs - {id} && s'.sigs.subs == s.sigs.subs - {id} && !IsOnline(s'.online, id)
  }

  ghost predicate WithoutRoutes(rs: Table, rs': Table, id: nat) {
    && (forall r :: r in rs' <==> r in rs && r.node != id)
    && (forall r :: r in rs' ==> rs'[r] == rs[r])
  }

  lemma DropIs(rs: Table, id: nat)
    ensures WithoutRoutes(rs, Drop(rs, id), id)
  {
  }

  lemma KickIs<T>(h: H.Hub<T>, id: nat, cap: nat)
    requires H.HubOk(h, cap)
    ensures H.Kick(h, id).subs == h.subs - {id}
  {
  }

  // ---------------------------------------------------------------- endpoints and rules

  /** Endpoints are those the node reported last. */
  lemma EndpointsAreReported(ss: seq<State>, es: seq<Event>, k: nat, id: nat, eps: seq<string>)
    requires Happens(ss, es, k, Writes(Reports(id, eps))) && id in ss[k].db.nodes
    ensures ss[k + 1].db.nodes == ss[k].db.nodes[id := ss[k].db.nodes[id].(endpoints := eps)]
  {
    AfterEvent(ss, es, k);
  }

  /** The rules of a network are those the admin saved last. */
  lemma RulesAreSaved(ss: seq<State>, es: seq<Event>, k: nat, net: nat)
    requires IsRun(ss, es) && k < |es|
    ensures RulesOf(ss[k + 1].db.acl, net)
         == if es[k].Writes? && es[k].change.SetsAcl? && es[k].change.net == net then es[k].change.rules
            else RulesOf(ss[k].db.acl, net)
  {
    AfterEvent(ss, es, k);
    match es[k]
    case Writes(c) => ChangeRules(ss[k], c);
    case Streams(t) => TrafficSparesStore(ss[k], t);
    case Restarts =>
  }

  lemma ChangeRules(s: State, c: Change)
    requires NetworksOk(s.db.networks) && AllocsValid(s.ipams)
    ensures ApplyChange(s, c).db.acl == if c.SetsAcl? then s.db.acl[c.net := c.rules] else s.db.acl
  {
    if c.Registers? { RegisterSparesRules(s, Cleaned(c.req)); }
  }

  lemma RegisterSparesRules(s: State, req: Joining)
    requires NetworksOk(s.db.networks) && AllocsValid(s.ipams)
    ensures Admit(s, req).0.db.acl == s.db.acl
  {
    var found := FindNode(s.db.nodes, KeyText(MACHINE_PREFIX, req.mkey), s.db.lastId);
    if req.routes.Some? && found.None? && req.setupKey != "" { JoinSparesRules(s, req); }
  }

  lemma JoinSparesRules(s: State, req: Joining)
    requires NetworksOk(s.db.networks) && AllocsValid(s.ipams) && req.routes.Some?
    ensures Join(s, req).0.db.acl == s.db.acl
  {
    var key := TrimSpace(req.setupKey);
    var use := UsableKey(s.db.keys, key, req.now);
    if use.Ok? {
      var s1, net := Spend(s, key), use.value;
      var a := AllocatorFor(s1.db, s1.ipams, net);
      AllocatorForValid(s1.db, s1.ipams, net);
      if net in s1.db.networks && a.Ok? { JoinWithSparesRules(s1, a.value, net, req); }
    }
  }

  lemma JoinWithSparesRules(s: State, a: Alloc, net: nat, req: Joining)
    requires ValidAlloc(a) && req.routes.Some?
    ensures JoinWith(s, a, net, req).0.db.acl == s.db.acl
  {
    if Joins(s, a, req) {
      var a', v6, row := JoinAdds(s, a, net, req);
      AddNodeAdds(s, a', row, v6, req.routes.value);
    }
  }

  // ---------------------------------------------------------------- streams

  lemma HubsAreOk(ss: seq<State>, es: seq<Event>, k: nat)
    requires IsRun(ss, es) && k <= |es|
    ensures H.HubOk(ss[k].maps, MAP_BUFFER) && H.HubOk(ss[k].sigs, SIGNAL_BUFFER)
  {
    RunKeeps(ss, es, k);
  }

  /** Node id holds a stream that did not exist before and starts with `prime`; the one
      it held is closed, and every other channel stays. */
  ghost predicate Opened<T>(h: H.Hub<T>, h': H.Hub<T>, id: nat, prime: seq<T>) {
    && id in h'.subs && h'.subs[id] !in h.chans && h'.subs[id] in h'.chans
    && h'.subs == h.subs[id := h'.subs[id]]
    && H.Stream(h'.chans[h'.subs[id]]) == prime && h'.chans[h'.subs[id]].owner == id
    && h'.chans[h'.subs[id]].closes == 0
    && (forall c :: c in h.chans ==>
          && c in h'.chans && H.Stream(h'.chans[c]) == H.Stream(h.chans[c])
          && h'.chans[c].closes == h.chans[c].closes + if id in h.subs && h.subs[id] == c then 1 else 0)
  }

  lemma OpenOpens<T>(h: H.Hub<T>, id: nat, net: nat, prime: seq<T>, cap: nat)
    requires H.HubOk(h, cap)
    ensures Opened(h, H.Open(h, id, net, prime), id, prime)
  {
    assert [] + prime == prime;
  }

  /** Who subscribes is online at once and holds a new stream that starts with the
      snapshot of that moment. */
  lemma SubscribersAreServed(ss: seq<State>, es: seq<Event>, k: nat, mkey: string, id: nat) returns (m: NetMap)
    requires Happens(ss, es, k, Streams(Subscribes(mkey))) && Holds(ss[k].db, mkey, id)
    ensures Opened(ss[k].maps, ss[k + 1].maps, id, [m]) && IsSnapshot(ss[k + 1], id, m)
    ensures ss[k + 1].online == ss[k].online[id := true] && ss[k + 1].db == ss[k].db && ss[k + 1].sigs == ss[k].sigs
  {
    AfterEvent(ss, es, k);
    LookupFinds(ss, es, k, mkey, id);
    HubsAreOk(ss, es, k);
    var n := ss[k].db.nodes[id];
    m := BuildNetMap(ss[k].db, ss[k].online[id := true], ss[k].seqNo, n);
    OpenOpens(ss[k].maps, id, n.net, [m], MAP_BUFFER);
  }

  /** Who leaves the stream it holds is offline and subscribed no more; all channels and
      everybody else's subscription stay. */
  lemma LeaversAreGone(ss: seq<State>, es: seq<Event>, k: nat, c: nat)
    requires Happens(ss, es, k, Streams(Unsubscribes(c))) && H.Registered(ss[k].maps, c)
    ensures var id := ss[k].maps.chans[c].owner;
            && ss[k + 1].maps == ss[k].maps.(subs := ss[k].maps.subs - {id})
            && ss[k + 1].online == ss[k].online[id := false]
            && ss[k + 1].sigs == ss[k].sigs && ss[k + 1].db == ss[k].db
  {
    AfterEvent(ss, es, k);
  }

  /** Leaving a stream that a newer one replaced does nothing. */
  lemma LateLeavesDoNothing(ss: seq<State>, es: seq<Event>, k: nat, c: nat)
    requires Happens(ss, es, k, Streams(Unsubscribes(c))) && !H.Registered(ss[k].maps, c)
    ensures ss[k + 1] == ss[k]
  {
    AfterEvent(ss, es, k);
  }

  /** Who opens a signal stream holds a new and empty inbox. */
  lemma InboxesOpen(ss: seq<State>, es: seq<Event>, k: nat, mkey: string, id: nat)
    requires Happens(ss, es, k, Streams(SignalSubscribes(mkey))) && Holds(ss[k].db, mkey, id)
    ensures Opened(ss[k].sigs, ss[k + 1].sigs, id, [])
    ensures ss[k + 1].db == ss[k].db && ss[k + 1].maps == ss[k].maps && ss[k + 1].online == ss[k].online
  {
    AfterEvent(ss, es, k);
    LookupFinds(ss, es, k, mkey, id);
    HubsAreOk(ss, es, k);
    OpenOpens(ss[k].sigs, id, ss[k].db.nodes[id].net, [], SIGNAL_BUFFER);
  }

  /** The inbox is the one the addressee holds, has room, and both ends are in one network. */
  predicate Reaches(s: State, c: nat, to: nat, d: nat)
    requires c in s.sigs.chans && d in s.sigs.chans
  {
    && to in s.db.nodes && s.db.nodes[to].net == s.sigs.chans[c].net
    && to in s.sigs.subs && s.sigs.subs[to] == d && |s.sigs.chans[d].queue| < SIGNAL_BUFFER
  }

  /** A signal reaches exactly the inbox its addressee holds, if both are in one network
      and the inbox has room, and arrives stamped with its sender. */
  lemma SignalsAreDelivered(ss: seq<State>, es: seq<Event>, k: nat, c: nat, env: Signal, d: nat)
    requires Happens(ss, es, k, Streams(Signals(c, env))) && c in ss[k].sigs.chans && d in ss[k].sigs.chans
    ensures d in ss[k + 1].sigs.chans
    ensures StreamOf(ss[k + 1].sigs, d)
         == StreamOf(ss[k].sigs, d)
            + if Reaches(ss[k], c, env.to, d) then [env.(from := ss[k].sigs.chans[c].owner)] else []
  {
    AfterEvent(ss, es, k);
    HubsAreOk(ss, es, k);
    if env.to in ss[k].db.nodes { IdsAgree(ss, es, k, env.to); }
    Delivery(ss[k], c, env, d);
  }

  lemma Delivery(s: State, c: nat, env: Signal, d: nat)
    requires H.HubOk(s.sigs, SIGNAL_BUFFER) && c in s.sigs.chans && d in s.sigs.chans
    requires env.to in s.db.nodes ==> s.db.nodes[env.to].id == env.to <= MAX_ID
    ensures var h' := RouteSignal(s, c, env).sigs;
            && d in h'.chans
            && StreamOf(h', d)
               == StreamOf(s.sigs, d) + if Reaches(s, c, env.to, d) then [env.(from := s.sigs.chans[c].owner)] else []
  {
    var x, ch := env.(from := s.sigs.chans[c].owner), s.sigs.chans[d];
    assert ch.taken + (ch.queue + [x]) == H.Stream(ch) + [x];
    assert H.Stream(ch) + [] == H.Stream(ch);
  }

  /** Receivers take what was queued first, and taking it loses nothing. */
  ghost predicate TookFirst<T>(h: H.Hub<T>, h': H.Hub<T>, c: nat) {
    && c in h.chans && c in h'.chans && h.chans[c].queue != []
    && h'.chans[c].taken == h.chans[c].taken + [h.chans[c].queue[0]]
    && H.Stream(h'.chans[c]) == H.Stream(h.chans[c])
    && h'.subs == h.subs && forall d :: d in h.chans && d != c ==> d in h'.chans && h'.chans[d] == h.chans[d]
  }

  lemma ReceiversTakeInOrder(ss: seq<State>, es: seq<Event>, k: nat, c: nat)
    requires IsRun(ss, es) && k < |es|
    ensures es[k] == Streams(TakesMap(c)) && c in ss[k].maps.chans && ss[k].maps.chans[c].queue != []
            ==> TookFirst(ss[k].maps, ss[k + 1].maps, c)
    ensures es[k] == Streams(TakesSignal(c)) && c in ss[k].sigs.chans && ss[k].sigs.chans[c].queue != []
            ==> TookFirst(ss[k].sigs, ss[k + 1].sigs, c)
  {
    AfterEvent(ss, es, k);
    TakeTakesFirst(ss[k].maps, c);
    TakeTakesFirst(ss[k].sigs, c);
  }

  lemma TakeTakesFirst<T>(h: H.Hub<T>, c: nat)
    ensures c in h.chans && h.chans[c].queue != [] ==> TookFirst(h, H.Take(h, c), c)
  {
    if c in h.chans && h.chans[c].queue != [] {
      var ch := h.chans[c];
      assert ch.taken + [ch.queue[0]] + ch.queue[1..] == ch.taken + ch.queue;
    }
  }

  /** Leaving a signal stream ends the node's subscription to it, and only that. */
  lemma SignalLeaversAreGone(ss: seq<State>, es: seq<Event>, k: nat, c: nat)
    requires Happens(ss, es, k, Streams(SignalUnsubscribes(c)))
    ensures ss[k + 1].sigs.chans == ss[k].sigs.chans && ss[k + 1].maps == ss[k].maps && ss[k + 1].db == ss[k].db
    ensures forall id :: id in ss[k + 1].sigs.subs <==> id in ss[k].sigs.subs && ss[k].sigs.subs[id] != c
    ensures forall id :: id in ss[k + 1].sigs.subs ==> ss[k + 1].sigs.subs[id] == ss[k].sigs.subs[id]
  {
    AfterEvent(ss, es, k);
    HubsAreOk(ss, es, k);
  }

  // ---------------------------------------------------------------- restart

  /** A restart keeps the database whole; nobody is online or subscribed any more, no
      allocator is loaded, and sequence numbers start over. */
  lemma RestartsKeepTheDatabase(ss: seq<State>, es: seq<Event>, k: nat, id: nat)
    requires Happens(ss, es, k, Restarts)
    ensures ss[k + 1].db == ss[k].db
    ensures id !in ss[k + 1].maps.subs && id !in ss[k + 1].sigs.subs && !IsOnline(ss[k + 1].online, id)
    ensures id !in ss[k + 1].ipams && Get(ss[k + 1].seqNo, id) == 0
  {
    AfterEvent(ss, es, k);
  }
}
