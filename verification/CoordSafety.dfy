/** What every run of the coordinator keeps. */
module CoordSafety {
  import opened Prelude
  import opened Numerals
  import opened Net
  import opened Ipam
  import opened Store
  import opened Text
  import opened Hostnames
  import opened Routes
  import opened CoordModel

  // ---------------------------------------------------------------- addresses, names, keys

  predicate GoodNet(nw: Network) {
    ValidPrefix(nw.v4) && ValidPrefix(nw.v6) && NewAlloc(Some(nw.v4), Some(nw.v6)).Ok?
  }

  /** What the derivation guarantees: an IPv6 address inside the prefix, and for prefixes
      of at most 64 bits the prefix address plus the node ID. */
  predicate DerivedV6(nw: Network, id: nat, ip6: Addr)
    requires ValidPrefix(nw.v6)
  {
    && ip6.V6? && Contains(Masked(nw.v6), ip6)
    && (nw.v6.bits <= 64 ==> ip6.n == Masked(nw.v6).addr.n + id)
  }

  predicate RowOk(networks: map<nat, Network>, lastId: nat, born: map<nat, nat>, id: nat, n: Node) {
    && n.id == id && 1 <= id <= lastId <= MAX_ID
    && id in born && born[id] == n.net
    && n.net in networks && GoodNet(networks[n.net])
    && Usable(Masked(networks[n.net].v4), n.ip4)
    && (n.ip6 == n.ip4 || DerivedV6(networks[n.net], id, n.ip6))
    && n.hostname != "" && IsName(n.hostname)
    && ParseKey(NODE_PREFIX, n.nodeKey).Some?
  }

  predicate Apart(a: Node, b: Node) {
    a.machineKey != b.machineKey && (a.net == b.net ==> a.ip4 != b.ip4 && a.hostname != b.hostname)
  }

  ghost predicate AllApart(nodes: map<nat, Node>) {
    forall i, j :: i in nodes && j in nodes && i != j ==> Apart(nodes[i], nodes[j])
  }

  ghost predicate RowsOk(networks: map<nat, Network>, lastId: nat, born: map<nat, nat>, nodes: map<nat, Node>) {
    forall id :: id in nodes ==> RowOk(networks, lastId, born, id, nodes[id])
  }

  ghost predicate TablesOk(networks: map<nat, Network>, nodes: map<nat, Node>, lastId: nat, born: map<nat, nat>) {
    && NetworksOk(networks) && lastId <= MAX_ID
    && RowsOk(networks, lastId, born, nodes) && AllApart(nodes)
    && (forall id :: id in born ==> id <= lastId)
  }

  ghost predicate DbOk(db: Db, born: map<nat, nat>) {
    TablesOk(db.networks, db.nodes, db.lastId, born)
  }

  /** A loaded allocator covers its network's prefixes and knows exactly the addresses
      of the network's live nodes. */
  ghost predicate AllocOk(networks: map<nat, Network>, nodes: map<nat, Node>, net: nat, a: Alloc) {
    && net in networks && GoodNet(networks[net])
    && ValidAlloc(a) && a.v4 == Masked(networks[net].v4) && a.v6 == Masked(networks[net].v6)
    && a.used == UsedBy(nodes, net)
  }

  ghost predicate AllocsOk(networks: map<nat, Network>, nodes: map<nat, Node>, ipams: map<nat, Alloc>) {
    forall net :: net in ipams ==> AllocOk(networks, nodes, net, ipams[net])
  }

  ghost predicate StoreOk(s: State) {
    && DbOk(s.db, s.born) && AllocsOk(s.db.networks, s.db.nodes, s.ipams)
    && RoutesOwned(s.db.routes, s.db.nodes)
  }

  /** Only nodes that are there offer routes. */
  ghost predicate RoutesOwned(routes: Table, nodes: map<nat, Node>) {
    forall k :: k in routes ==> k.node in nodes
  }

  lemma AllocatorForOk(db: Db, ipams: map<nat, Alloc>, net: nat)
    requires NetworksOk(db.networks) && AllocsOk(db.networks, db.nodes, ipams)
    ensures AllocatorFor(db, ipams, net).Ok? ==> AllocOk(db.networks, db.nodes, net, AllocatorFor(db, ipams, net).value)
  {
    if net !in ipams && net in db.networks {
      NewAllocValid(Some(db.networks[net].v4), Some(db.networks[net].v6));
    }
  }

  /** Writing one row that keeps its network and address. */
  lemma RowReplaced(db: Db, born: map<nat, nat>, ipams: map<nat, Alloc>, id: nat, n: Node)
    requires DbOk(db, born) && AllocsOk(db.networks, db.nodes, ipams) && id in db.nodes
    requires RowOk(db.networks, db.lastId, born, id, n)
    requires n.net == db.nodes[id].net && n.ip4 == db.nodes[id].ip4 && n.machineKey == db.nodes[id].machineKey
    requires n.hostname == db.nodes[id].hostname || n.hostname !in TakenNames(db.nodes, n.net)
    ensures DbOk(db.(nodes := db.nodes[id := n]), born)
    ensures AllocsOk(db.networks, db.nodes[id := n], ipams)
  {
    var nodes := db.nodes[id := n];
    forall i, j | i in nodes && j in nodes && i != j ensures Apart(nodes[i], nodes[j]) {
      assert Apart(db.nodes[i], db.nodes[j]);
      assert nodes[i].net == nodes[j].net ==>
               db.nodes[i].hostname in TakenNames(db.nodes, n.net) || db.nodes[i].net != n.net;
      assert nodes[i].net == nodes[j].net ==>
               db.nodes[j].hostname in TakenNames(db.nodes, n.net) || db.nodes[j].net != n.net;
    }
    forall net | net in ipams ensures AllocOk(db.networks, nodes, net, ipams[net]) {
      assert AllocOk(db.networks, db.nodes, net, ipams[net]);
      SameAddresses(db.nodes, id, n, net);
    }
  }

  lemma SameAddresses(nodes: map<nat, Node>, id: nat, n: Node, net: nat)
    requires id in nodes && n.net == nodes[id].net && n.ip4 == nodes[id].ip4
    ensures UsedBy(nodes[id := n], net) == UsedBy(nodes, net)
  {
    var nodes' := nodes[id := n];
    forall a | a in UsedBy(nodes, net) ensures a in UsedBy(nodes', net) {
      var i :| i in nodes && nodes[i].net == net && nodes[i].ip4 == a;
      assert i in nodes' && nodes'[i].net == net && nodes'[i].ip4 == a;
    }
    forall a | a in UsedBy(nodes', net) ensures a in UsedBy(nodes, net) {
      var i :| i in nodes' && nodes'[i].net == net && nodes'[i].ip4 == a;
      assert i in nodes && nodes[i].net == net && nodes[i].ip4 == a;
    }
  }

  lemma RejoinKeeps(s: State, id: nat, req: Joining)
    requires StoreOk(s) && JoiningOk(req) && req.routes.Some? && id in s.db.nodes
    ensures StoreOk(Rejoin(s, id, req))
  {
    var s' := Rejoin(s, id, req);
    KeyRoundTrip(NODE_PREFIX, req.nkey);
    assert RowOk(s.db.networks, s.db.lastId, s.born, id, s.db.nodes[id]);
    RowReplaced(s.db, s.born, s.ipams, id, s'.db.nodes[id]);
  }

  lemma EndpointsKeep(s: State, id: nat, eps: seq<string>)
    requires StoreOk(s)
    ensures StoreOk(SetEndpoints(s, id, eps))
  {
    if id in s.db.nodes {
      assert RowOk(s.db.networks, s.db.lastId, s.born, id, s.db.nodes[id]);
      RowReplaced(s.db, s.born, s.ipams, id, s.db.nodes[id].(endpoints := eps));
    }
  }

  /** Adding a row with a fresh ID, address, name and machine key. */
  lemma RowAdded(db: Db, born: map<nat, nat>, ipams: map<nat, Alloc>, n: Node, a: Alloc)
    requires DbOk(db, born) && AllocsOk(db.networks, db.nodes, ipams) && n.id == db.lastId + 1 <= MAX_ID
    requires RowOk(db.networks, n.id, born[n.id := n.net], n.id, n)
    requires n.ip4 !in UsedBy(db.nodes, n.net) && n.hostname !in TakenNames(db.nodes, n.net)
    requires forall id :: id in db.nodes ==> db.nodes[id].machineKey != n.machineKey
    requires AllocOk(db.networks, db.nodes, n.net, a.(used := a.used - {n.ip4})) && n.ip4 in a.used
    ensures DbOk(db.(nodes := db.nodes[n.id := n], lastId := n.id), born[n.id := n.net])
    ensures AllocsOk(db.networks, db.nodes[n.id := n], ipams[n.net := a])
  {
    var nodes, born' := db.nodes[n.id := n], born[n.id := n.net];
    forall id | id in db.nodes ensures RowOk(db.networks, n.id, born', id, db.nodes[id]) {
      assert RowOk(db.networks, db.lastId, born, id, db.nodes[id]);
    }
    FreshRowApart(db.nodes, n);
    var ipams' := ipams[n.net := a];
    forall net | net in ipams' ensures AllocOk(db.networks, nodes, net, ipams'[net]) {
      AddressAdded(db.nodes, n, net);
      assert net in ipams ==> AllocOk(db.networks, db.nodes, net, ipams[net]);
    }
  }

  lemma FreshRowApart(nodes: map<nat, Node>, n: Node)
    requires AllApart(nodes) && n.id !in nodes
    requires n.ip4 !in UsedBy(nodes, n.net) && n.hostname !in TakenNames(nodes, n.net)
    requires forall id :: id in nodes ==> nodes[id].machineKey != n.machineKey
    ensures AllApart(nodes[n.id := n])
  {
    forall j | j in nodes ensures Apart(n, nodes[j]) && Apart(nodes[j], n) {
      assert nodes[j].net == n.net ==>
               nodes[j].ip4 in UsedBy(nodes, n.net) && nodes[j].hostname in TakenNames(nodes, n.net);
    }
  }

  lemma AddressAdded(nodes: map<nat, Node>, n: Node, net: nat)
    requires n.id !in nodes
    ensures UsedBy(nodes[n.id := n], net) == UsedBy(nodes, net) + if n.net == net then {n.ip4} else {}
  {
    var nodes' := nodes[n.id := n];
    forall a | a in UsedBy(nodes, net) ensures a in UsedBy(nodes', net) {
      var i :| i in nodes && nodes[i].net == net && nodes[i].ip4 == a;
      assert i in nodes' && nodes'[i].net == net && nodes'[i].ip4 == a;
    }
    if n.net == net { assert n.id in nodes' && nodes'[n.id].net == net && nodes'[n.id].ip4 == n.ip4; }
  }

  lemma AllocSwapped(db: Db, ipams: map<nat, Alloc>, net: nat, a: Alloc)
    requires AllocsOk(db.networks, db.nodes, ipams) && AllocOk(db.networks, db.nodes, net, a)
    ensures AllocsOk(db.networks, db.nodes, ipams[net := a])
  {
  }

  lemma DerivedIsOk(nw: Network, id: nat)
    requires GoodNet(nw) && 1 <= id <= MAX_ID && DeriveV6(Masked(nw.v6), id).Ok?
    ensures DerivedV6(nw, id, DeriveV6(Masked(nw.v6), id).value)
  {
    if nw.v6.bits <= 64 {
      MaskedIsMasked(nw.v6);
      MaskedFits(nw.v6);
      assert Pow2(128) == Pow256(16) by { Pow2OfBytes(16); }
      DeriveV6Correct(Masked(nw.v6), id);
    }
  }

  /** The row a successful join inserts satisfies every row constraint. */
  lemma NewRowOk(db: Db, born: map<nat, nat>, id: nat, net: nat, v4: Addr, v6: Result<Addr>, req: Joining)
    requires net in db.networks && GoodNet(db.networks[net]) && JoiningOk(req) && 1 <= id <= MAX_ID
    requires Usable(Masked(db.networks[net].v4), v4) && (v6.Ok? ==> DerivedV6(db.networks[net], id, v6.value))
    ensures RowOk(db.networks, id, born[id := net], id, NewRow(id, net, NewName(db.nodes, net, req.name), v4, v6, req))
    ensures NewName(db.nodes, net, req.name) !in TakenNames(db.nodes, net)
  {
    KeyRoundTrip(NODE_PREFIX, req.nkey);
    DedupeIsName(TakenNames(db.nodes, net), if req.name == "" then "node" else req.name);
  }

  /** Inserting the row and taking its address keep database and allocators in step. */
  lemma InsertKeeps(db: Db, born: map<nat, nat>, ipams: map<nat, Alloc>, a: Alloc, n: Node)
    requires DbOk(db, born) && AllocsOk(db.networks, db.nodes, ipams) && AllocOk(db.networks, db.nodes, n.net, a)
    requires Allocate(a) == Some(n.ip4) && n.id == db.lastId + 1 <= MAX_ID
    requires RowOk(db.networks, n.id, born[n.id := n.net], n.id, n) && n.hostname !in TakenNames(db.nodes, n.net)
    requires forall id :: id in db.nodes ==> db.nodes[id].machineKey != n.machineKey
    ensures DbOk(db.(nodes := db.nodes[n.id := n], lastId := n.id), born[n.id := n.net])
    ensures AllocsOk(db.networks, db.nodes[n.id := n], ipams[n.net := Take(a, n.ip4)])
  {
    AllocateIsFirstFree(a);
    assert Take(a, n.ip4).used - {n.ip4} == a.used;
    RowAdded(db, born, ipams, n, Take(a, n.ip4));
  }

  lemma AddNodeKeeps(s: State, a: Alloc, n: Node, v6: Result<Addr>, routes: set<string>)
    requires StoreOk(s) && AllocOk(s.db.networks, s.db.nodes, n.net, a)
    requires Allocate(a) == Some(n.ip4) && n.id == s.db.lastId + 1 <= MAX_ID
    requires RowOk(s.db.networks, n.id, s.born[n.id := n.net], n.id, n) && n.hostname !in TakenNames(s.db.nodes, n.net)
    requires forall id :: id in s.db.nodes ==> s.db.nodes[id].machineKey != n.machineKey
    ensures StoreOk(AddNode(s, Take(a, n.ip4), n, v6, routes).0)
  {
    InsertKeeps(s.db, s.born, s.ipams, a, n);
  }

  /** A failed insert gives the address back: only the cursor has moved. */
  lemma GivenBack(db: Db, net: nat, a: Alloc, v4: Addr)
    requires AllocOk(db.networks, db.nodes, net, a) && Allocate(a) == Some(v4)
    ensures AllocOk(db.networks, db.nodes, net, Take(a, v4).(used := Take(a, v4).used - {Unmap(v4)}))
  {
    AllocateIsFirstFree(a);
    assert Take(a, v4).used - {Unmap(v4)} == a.used;
  }

  lemma FailedJoinKeeps(s: State, a: Alloc, net: nat, req: Joining)
    requires StoreOk(s) && AllocOk(s.db.networks, s.db.nodes, net, a) && req.routes.Some?
    requires Allocate(a).None? || req.insertFails || s.db.lastId + 1 > MAX_ID
    ensures StoreOk(JoinWith(s, a, net, req).0)
  {
    var v4 := Allocate(a);
    if v4.None? {
      AllocSwapped(s.db, s.ipams, net, a);
    } else {
      GivenBack(s.db, net, a, v4.value);
      var a' := Take(a, v4.value);
      AllocSwapped(s.db, s.ipams, net, a'.(used := a'.used - {Unmap(v4.value)}));
    }
  }

  lemma JoinWithKeeps(s: State, a: Alloc, net: nat, req: Joining)
    requires StoreOk(s) && AllocOk(s.db.networks, s.db.nodes, net, a) && JoiningOk(req) && req.routes.Some?
    requires forall id :: id in s.db.nodes ==> s.db.nodes[id].machineKey != KeyText(MACHINE_PREFIX, req.mkey)
    ensures StoreOk(JoinWith(s, a, net, req).0)
  {
    var v4, id := Allocate(a), s.db.lastId + 1;
    if v4.None? || req.insertFails || id > MAX_ID {
      FailedJoinKeeps(s, a, net, req);
    } else {
      var v6 := DeriveV6(a.v6, id);
      SuccessfulJoinKeeps(s, a, net, req, v4.value, v6);
      JoinIsInsert(s, a, net, req, v4.value, v6);
    }
  }

  lemma JoinIsInsert(s: State, a: Alloc, net: nat, req: Joining, v4: Addr, v6: Result<Addr>)
    requires ValidAlloc(a) && req.routes.Some? && !req.insertFails
    requires Allocate(a) == Some(v4) && s.db.lastId + 1 <= MAX_ID && v6 == DeriveV6(a.v6, s.db.lastId + 1)
    ensures JoinWith(s, a, net, req)
         == AddNode(s, Take(a, v4), NewRow(s.db.lastId + 1, net, NewName(s.db.nodes, net, req.name), v4, v6, req), v6,
                    req.routes.value)
  {
  }

  lemma SuccessfulJoinKeeps(s: State, a: Alloc, net: nat, req: Joining, v4: Addr, v6: Result<Addr>)
    requires StoreOk(s) && AllocOk(s.db.networks, s.db.nodes, net, a) && JoiningOk(req) && req.routes.Some?
    requires forall id :: id in s.db.nodes ==> s.db.nodes[id].machineKey != KeyText(MACHINE_PREFIX, req.mkey)
    requires Allocate(a) == Some(v4) && s.db.lastId + 1 <= MAX_ID && v6 == DeriveV6(a.v6, s.db.lastId + 1)
    ensures var n := NewRow(s.db.lastId + 1, net, NewName(s.db.nodes, net, req.name), v4, v6, req);
            StoreOk(AddNode(s, Take(a, v4), n, v6, req.routes.value).0)
  {
    var id := s.db.lastId + 1;
    if v6.Ok? { DerivedIsOk(s.db.networks[net], id); }
    assert Usable(a.v4, v4) by { AllocateIsFirstFree(a); }
    NewRowOk(s.db, s.born, id, net, v4, v6, req);
    AddNodeKeeps(s, a, NewRow(id, net, NewName(s.db.nodes, net, req.name), v4, v6, req), v6, req.routes.value);
  }

  lemma AllocsOkValid(s: State)
    requires StoreOk(s)
    ensures AllocsValid(s.ipams) && NetworksOk(s.db.networks)
  {
    forall net | net in s.ipams ensures ValidAlloc(s.ipams[net]) {
      assert AllocOk(s.db.networks, s.db.nodes, net, s.ipams[net]);
    }
  }

  lemma AdmitKeeps(s: State, req: Joining)
    requires StoreOk(s) && JoiningOk(req) && AllocsValid(s.ipams)
    ensures StoreOk(Admit(s, req).0)
  {
    if req.routes.Some? {
      var mkey := KeyText(MACHINE_PREFIX, req.mkey);
      var found := FindNode(s.db.nodes, mkey, s.db.lastId);
      if found.Some? {
        RejoinKeeps(s, found.value, req);
      } else if req.setupKey != "" {
        forall id | id in s.db.nodes ensures s.db.nodes[id].machineKey != mkey {
          assert RowOk(s.db.networks, s.db.lastId, s.born, id, s.db.nodes[id]);
        }
        JoinKeeps(s, req);
      }
    }
  }

  /** Every outcome of registration keeps the store, whatever name the device claims. */
  lemma RegisterKeeps(s: State, req: Request)
    requires StoreOk(s) && RequestOk(req) && AllocsValid(s.ipams)
    ensures StoreOk(Register(s, req).0)
  {
    CleanedOk(req);
    AdmitKeeps(s, Cleaned(req));
  }

  lemma JoinKeeps(s: State, req: Joining)
    requires StoreOk(s) && JoiningOk(req) && req.routes.Some? && AllocsValid(s.ipams)
    requires forall id :: id in s.db.nodes ==> s.db.nodes[id].machineKey != KeyText(MACHINE_PREFIX, req.mkey)
    ensures StoreOk(Join(s, req).0)
  {
    var key := TrimSpace(req.setupKey);
    var use := UsableKey(s.db.keys, key, req.now);
    if use.Ok? {
      var s1 := Spend(s, key);
      AllocatorForOk(s1.db, s1.ipams, use.value);
      var a := AllocatorFor(s1.db, s1.ipams, use.value);
      if use.value in s1.db.networks && a.Ok? { JoinWithKeeps(s1, a.value, use.value, req); }
    }
  }

  lemma AddressRemoved(nodes: map<nat, Node>, id: nat, net: nat)
    requires AllApart(nodes) && id in nodes
    ensures UsedBy(nodes - {id}, net) == UsedBy(nodes, net) - if nodes[id].net == net then {nodes[id].ip4} else {}
  {
    var nodes' := nodes - {id};
    forall a | a in UsedBy(nodes, net) && !(nodes[id].net == net && a == nodes[id].ip4)
      ensures a in UsedBy(nodes', net)
    {
      var i :| i in nodes && nodes[i].net == net && nodes[i].ip4 == a;
      assert i in nodes' && nodes'[i].net == net && nodes'[i].ip4 == a;
    }
    forall a | a in UsedBy(nodes', net)
      ensures a in UsedBy(nodes, net) && !(nodes[id].net == net && a == nodes[id].ip4)
    {
      var i :| i in nodes' && nodes'[i].net == net && nodes'[i].ip4 == a;
      assert Apart(nodes[i], nodes[id]);
    }
  }

  /** The allocator a deletion leaves behind, loaded before or only now. */
  lemma ReleasedAllocOk(db: Db, db': Db, ipams: map<nat, Alloc>, id: nat)
    requires NetworksOk(db.networks) && AllocsOk(db.networks, db.nodes, ipams) && AllApart(db.nodes)
    requires id in db.nodes && db.nodes[id].ip4.V4?
    requires db' == db.(nodes := db.nodes - {id}, routes := Drop(db.routes, id))
    ensures var n := db.nodes[id];
            var a := AllocatorFor(db', ipams, n.net);
            a.Ok? ==> AllocOk(db'.networks, db'.nodes, n.net, a.value.(used := a.value.used - {Unmap(n.ip4)}))
  {
    var n := db.nodes[id];
    AddressRemoved(db.nodes, id, n.net);
    if n.net in ipams {
      assert AllocOk(db.networks, db.nodes, n.net, ipams[n.net]);
    } else {
      AllocatorForOk(db', map[], n.net);
      assert UsedBy(db'.nodes, n.net) - {n.ip4} == UsedBy(db'.nodes, n.net);
    }
  }

  lemma DeletedRows(db: Db, born: map<nat, nat>, id: nat)
    requires DbOk(db, born)
    ensures DbOk(db.(nodes := db.nodes - {id}, routes := Drop(db.routes, id)), born)
  {
  }

  lemma DeletedAllocs(db: Db, db': Db, ipams: map<nat, Alloc>, id: nat)
    requires NetworksOk(db.networks) && AllocsOk(db.networks, db.nodes, ipams) && AllApart(db.nodes)
    requires id in db.nodes && db.nodes[id].ip4.V4? && db.nodes[id].net in db.networks
             && GoodNet(db.networks[db.nodes[id].net])
    requires db' == db.(nodes := db.nodes - {id}, routes := Drop(db.routes, id))
    ensures var n := db.nodes[id];
            var a := AllocatorFor(db', ipams, n.net);
            a.Ok? && AllocsOk(db'.networks, db'.nodes, ipams[n.net := a.value.(used := a.value.used - {Unmap(n.ip4)})])
  {
    var n := db.nodes[id];
    ReleasedAllocOk(db, db', ipams, id);
    forall net | net in ipams && net != n.net ensures AllocOk(db'.networks, db'.nodes, net, ipams[net]) {
      assert AllocOk(db.networks, db.nodes, net, ipams[net]);
      AddressRemoved(db.nodes, id, net);
    }
  }

  lemma DeleteKeeps(s: State, id: nat)
    requires StoreOk(s)
    ensures StoreOk(DeleteNode(s, id))
  {
    if id in s.db.nodes {
      assert RowOk(s.db.networks, s.db.lastId, s.born, id, s.db.nodes[id]);
      DeletedRows(s.db, s.born, id);
      DeletedAllocs(s.db, s.db.(nodes := s.db.nodes - {id}, routes := Drop(s.db.routes, id)), s.ipams, id);
    }
  }

  lemma ChangeKeepsStore(s: State, e: Change)
    requires StoreOk(s) && AllocsValid(s.ipams) && (e.Registers? ==> RequestOk(e.req))
    ensures StoreOk(ApplyChange(s, e))
  {
    match e
    case Registers(req) => RegisterKeeps(s, req);
    case Deletes(id) => DeleteKeeps(s, id);
    case Approves(id, route, approved) => ApproveKeeps(s, id, route, approved);
    case Reports(id, eps) => EndpointsKeep(s, id, eps);
    case SetsAcl(_, _) =>
    case CreatesKey(_, _, _, _) =>
    case RevokesKey(_) =>
  }

  lemma ApproveKeeps(s: State, id: nat, route: Option<string>, approved: bool)
    requires StoreOk(s)
    ensures StoreOk(SetApproved(s, id, route, approved))
  {
  }

  /** Streams come and go without touching nodes, allocators or routes. */
  lemma TrafficSparesStore(s: State, e: Traffic)
    ensures var s' := ApplyTraffic(s, e); s'.db == s.db && s'.ipams == s.ipams && s'.born == s.born
  {
  }

  lemma StoreKeeps(s: State, e: Event)
    requires StoreOk(s) && AllocsValid(s.ipams) && EventOk(e)
    ensures StoreOk(Apply(s, e))
  {
    match e
    case Writes(c) => ChangeKeepsStore(s, c);
    case Streams(t) => TrafficSparesStore(s, t);
    case Restarts =>
  }

  /** Registration requests carry 32-byte keys; the host name is free. */
  predicate EventOk(e: Event) {
    e.Writes? && e.change.Registers? ==> RequestOk(e.change.req)
  }
}
