/** The coordinator's state, the database it keeps and the maps it holds in memory, and
    what every operation of internal/coord does to it.  Operations that end by pushing
    netmaps are split in two events, the change and the Notify after it, so that what
    is proved of all event sequences covers every order the lock allows. */
module CoordModel {
  import opened Prelude
  import opened Numerals
  import opened Net
  import opened Ipam
  import opened Filter
  import opened Store
  import opened Text
  import opened Hostnames
  import opened Routes
  import opened Acl
  import H = Hub

  // ---------------------------------------------------------------- keys as text

  const NODE_PREFIX: string := "nodekey:"
  const MACHINE_PREFIX: string := "mkey:"

  function KeyText(prefix: string, k: seq<byte>): string { prefix + HexEncode(k) }

  function ParseKey(prefix: string, t: string): Option<seq<byte>> {
    if |t| != |prefix| + 64 || t[..|prefix|] != prefix then None else HexDecode(t[|prefix|..])
  }

  /** Stored keys always parse back to the 32 bytes they came from. */
  lemma KeyRoundTrip(prefix: string, k: seq<byte>)
    requires |k| == 32
    ensures ParseKey(prefix, KeyText(prefix, k)) == Some(k)
  {
    HexRoundTrip(k);
    assert KeyText(prefix, k)[|prefix|..] == HexEncode(k);
  }

  lemma KeyLength(prefix: string, t: string)
    requires ParseKey(prefix, t).Some?
    ensures |ParseKey(prefix, t).value| == 32
  {
    HexLength(t[|prefix|..]);
  }

  // ---------------------------------------------------------------- the database

  /** AUTOINCREMENT never reuses an ID and refuses to pass the largest 64-bit one. */
  const MAX_ID: nat := 0x7fff_ffff_ffff_ffff

  datatype Db = Db(networks: map<nat, Network>, nodes: map<nat, Node>, lastId: nat,
                   keys: map<string, SetupKey>, acl: map<nat, seq<AclRule>>, routes: Table)

  /** SELECT ... WHERE machine_key = ?, over IDs up to k. */
  function FindNode(nodes: map<nat, Node>, mkey: string, k: nat): (r: Option<nat>)
    ensures r.Some? ==> r.value in nodes && nodes[r.value].machineKey == mkey
    ensures r.None? ==> forall id :: id in nodes && 1 <= id <= k ==> nodes[id].machineKey != mkey
  {
    if k == 0 then None
    else if k in nodes && nodes[k].machineKey == mkey then Some(k)
    else FindNode(nodes, mkey, k - 1)
  }

  /** SELECT ... WHERE network_id = ? ORDER BY id, over IDs up to k. */
  function NodesIn(nodes: map<nat, Node>, net: nat, k: nat): seq<Node> {
    if k == 0 then []
    else NodesIn(nodes, net, k - 1) + if k in nodes && nodes[k].net == net then [nodes[k]] else []
  }

  function TakenNames(nodes: map<nat, Node>, net: nat): set<string> {
    set id | id in nodes && nodes[id].net == net :: nodes[id].hostname
  }

  function UsedBy(nodes: map<nat, Node>, net: nat): set<Addr> {
    set id | id in nodes && nodes[id].net == net :: nodes[id].ip4
  }

  predicate NetworksOk(networks: map<nat, Network>) {
    forall n :: n in networks ==> ValidPrefix(networks[n].v4) && ValidPrefix(networks[n].v6)
  }

  // ---------------------------------------------------------------- netmaps and signals

  datatype SelfInfo = SelfInfo(id: nat, hostname: string, ips: seq<Cidr>, approved: set<string>)

  datatype PeerInfo = PeerInfo(id: nat, hostname: string, nodeKey: seq<byte>, ips: seq<Cidr>,
                               endpoints: seq<string>, online: bool, routes: set<string>)

  datatype NetMap = NetMap(seqNo: nat, self: SelfInfo, peers: seq<PeerInfo>, filter: seq<WireRule>, filterOn: bool)

  /** Destination and source as the 64-bit numbers they travel as. */
  datatype Signal = Signal(to: nat, from: nat, kind: nat, payload: string, session: nat)

  const MAP_BUFFER: nat := 8
  const SIGNAL_BUFFER: nat := 32

  // ---------------------------------------------------------------- state

  /** born is a history: the network each node ever created belongs to. */
  datatype State = State(
    db: Db,
    ipams: map<nat, Alloc>,
    maps: H.Hub<NetMap>, online: map<nat, bool>, seqNo: map<nat, nat>,
    sigs: H.Hub<Signal>,
    born: map<nat, nat>)

  function Get(m: map<nat, nat>, k: nat): nat { if k in m then m[k] else 0 }

  predicate IsOnline(online: map<nat, bool>, id: nat) { id in online && online[id] }

  // ---------------------------------------------------------------- building a netmap

  function PeersOf(nodes: seq<Node>, self: nat, online: map<nat, bool>, routes: Table): seq<PeerInfo> {
    if nodes == [] then []
    else
      var p := nodes[|nodes| - 1];
      var k := ParseKey(NODE_PREFIX, p.nodeKey);
      PeersOf(nodes[..|nodes| - 1], self, online, routes)
      + if p.id == self || k.None? then []
        else [PeerInfo(p.id, p.hostname, k.value, HostCidrs(p), p.endpoints, IsOnline(online, p.id),
                       ApprovedRoutes(routes, p.id))]
  }

  function RulesOf(acl: map<nat, seq<AclRule>>, net: nat): seq<AclRule> {
    if net in acl then acl[net] else []
  }

  /** The complete netmap for node n, from the database and the online flags. */
  function BuildNetMap(db: Db, online: map<nat, bool>, seqNo: map<nat, nat>, n: Node): NetMap {
    var nodes := NodesIn(db.nodes, n.net, db.lastId);
    var rules := RulesOf(db.acl, n.net);
    NetMap(Get(seqNo, n.net),
           SelfInfo(n.id, n.hostname, HostCidrs(n), ApprovedRoutes(db.routes, n.id)),
           PeersOf(nodes, n.id, online, db.routes),
           CompileRules(ById(nodes), rules, n.id),
           rules != [])
  }

  // ---------------------------------------------------------------- registration

  /** Registration leaves every stream alone, forgets no node and moves none. */
  ghost predicate SparesStreams(s: State, s': State) {
    && s'.maps == s.maps && s'.online == s.online && s'.seqNo == s.seqNo && s'.sigs == s.sigs
    && NodesStay(s.db.nodes, s'.db.nodes) && BornStays(s.born, s'.born, s.db.lastId)
  }

  ghost predicate NodesStay(nodes: map<nat, Node>, nodes': map<nat, Node>) {
    forall id :: id in nodes ==> id in nodes'
  }

  ghost predicate BornStays(born: map<nat, nat>, born': map<nat, nat>, lastId: nat) {
    && (forall id :: id in born ==> id in born')
    && (forall id :: id in born && id <= lastId ==> born'[id] == born[id])
  }

  /** Setup keys are only ever counted up. */
  ghost predicate KeysCountUp(ks: map<string, SetupKey>, ks': map<string, SetupKey>) {
    forall key :: key in ks ==>
      key in ks' && ks[key].usedCount <= ks'[key].usedCount && ks'[key].(usedCount := ks[key].usedCount) == ks[key]
  }

  /** What a node keeps from its registration to its deletion. */
  predicate SameNode(n: Node, n': Node) {
    n.id == n'.id && n.net == n'.net && n.machineKey == n'.machineKey && n.ip4 == n'.ip4 && n.ip6 == n'.ip6
  }

  /** No row goes or changes its identity, and new ones get IDs never given out before. */
  ghost predicate KeepsRows(db: Db, db': Db) {
    db.lastId <= db'.lastId && RowsStay(db.nodes, db'.nodes, db.lastId) && NewRowsAbove(db.nodes, db'.nodes, db.lastId)
  }

  ghost predicate RowsStay(nodes: map<nat, Node>, nodes': map<nat, Node>, lastId: nat) {
    forall id :: id in nodes && id <= lastId ==> id in nodes' && SameNode(nodes[id], nodes'[id])
  }

  ghost predicate NewRowsAbove(nodes: map<nat, Node>, nodes': map<nat, Node>, lastId: nat) {
    forall id :: id in nodes' && id !in nodes ==> id > lastId
  }

  /** A registration as it arrives: any host name, with the case mapping of the text
      library; routes is None when some advertised route does not parse; insertFails
      lets the insert itself fail. */
  datatype Request = Request(mkey: seq<byte>, nkey: seq<byte>, setupKey: string, hostname: string, lower: char -> char,
                             os: string, routes: Option<set<string>>, now: nat, insertFails: bool)

  /** Keys are 32 bytes by their type. */
  predicate RequestOk(req: Request) { |req.mkey| == 32 && |req.nkey| == 32 }

  /** The same registration with its host name sanitized. */
  datatype Joining = Joining(mkey: seq<byte>, nkey: seq<byte>, setupKey: string, name: string, os: string,
                             routes: Option<set<string>>, now: nat, insertFails: bool)

  function Cleaned(req: Request): Joining {
    Joining(req.mkey, req.nkey, req.setupKey, Sanitize(req.hostname, req.lower), req.os, req.routes, req.now,
            req.insertFails)
  }

  predicate JoiningOk(req: Joining) {
    |req.mkey| == 32 && |req.nkey| == 32 && IsName(req.name)
  }

  /** The node answered for holds the keys of the request. */
  predicate Admitted(r: (State, Result<nat>), req: Joining) {
    r.1.Ok? ==>
      && r.1.value in r.0.db.nodes
      && r.0.db.nodes[r.1.value].machineKey == KeyText(MACHINE_PREFIX, req.mkey)
      && r.0.db.nodes[r.1.value].nodeKey == KeyText(NODE_PREFIX, req.nkey)
  }

  lemma CleanedOk(req: Request)
    requires RequestOk(req)
    ensures JoiningOk(Cleaned(req))
  {
    SanitizeIsName(req.hostname, req.lower);
  }

  /** Re-registration keeps the stored hostname unless the new one is free. */
  function Rejoin(s: State, id: nat, req: Joining): State
    requires id in s.db.nodes && req.routes.Some?
  {
    var n := s.db.nodes[id];
    var name := if req.name != "" && req.name != n.hostname && req.name !in TakenNames(s.db.nodes, n.net)
                then req.name else n.hostname;
    var row := n.(nodeKey := KeyText(NODE_PREFIX, req.nkey), hostname := name, os := req.os);
    s.(db := s.db.(nodes := s.db.nodes[id := row],
                   routes := Advertise(s.db.routes, id, req.routes.value)))
  }

  /** UseSetupKey: the network of a usable key; the use is recorded by Spend. */
  function UsableKey(keys: map<string, SetupKey>, key: string, now: nat): Result<nat> {
    if key !in keys then Err("unknown setup key")
    else
      var k := keys[key];
      if k.revoked then Err("setup key has been revoked")
      else if k.expiresAt != 0 && now > k.expiresAt then Err("setup key has expired")
      else if !k.reusable && k.usedCount > 0 then Err("setup key was single-use and is spent")
      else Ok(k.net)
  }

  /** NewSetupKey: the key column is unique, so an insert never overwrites a key. */
  function CreateKey(s: State, key: string, k: SetupKey): State {
    if key in s.db.keys then s else s.(db := s.db.(keys := s.db.keys[key := k]))
  }

  function RevokeKey(s: State, key: string): State {
    if key in s.db.keys then s.(db := s.db.(keys := s.db.keys[key := s.db.keys[key].(revoked := true)])) else s
  }

  function Spend(s: State, key: string): State
    requires key in s.db.keys
  {
    s.(db := s.db.(keys := s.db.keys[key := s.db.keys[key].(usedCount := s.db.keys[key].usedCount + 1)]))
  }

  /** The network's allocator, seeded from the database when it is not loaded. */
  function AllocatorFor(db: Db, ipams: map<nat, Alloc>, net: nat): Result<Alloc>
    requires NetworksOk(db.networks)
  {
    if net in ipams then Ok(ipams[net])
    else if net !in db.networks then Err("not found")
    else
      match NewAlloc(Some(db.networks[net].v4), Some(db.networks[net].v6))
      case Err(m) => Err(m)
      case Ok(a) => Ok(a.(used := a.used + UsedBy(db.nodes, net)))
  }

  /** The row of a new node, with its IPv6 address if one could be derived. */
  function NewRow(id: nat, net: nat, name: string, v4: Addr, v6: Result<Addr>, req: Joining): Node {
    Node(id, net, name, KeyText(MACHINE_PREFIX, req.mkey), KeyText(NODE_PREFIX, req.nkey), v4,
         if v6.Ok? then v6.value else v4, req.os, [])
  }

  /** Insert the row; a node whose IPv6 address cannot be derived stays with the
      placeholder and without routes, and the caller gets the error. */
  function AddNode(s: State, a: Alloc, n: Node, v6: Result<Addr>, routes: set<string>): (State, Result<nat>) {
    var s1 := s.(db := s.db.(nodes := s.db.nodes[n.id := n], lastId := n.id),
                 ipams := s.ipams[n.net := a], born := s.born[n.id := n.net]);
    if v6.Err? then (s1, Err(v6.message))
    else if routes == {} then (s1, Ok(n.id))
    else (s1.(db := s1.db.(routes := Advertise(s1.db.routes, n.id, routes))), Ok(n.id))
  }

  function NewName(nodes: map<nat, Node>, net: nat, name: string): string {
    Dedupe(TakenNames(nodes, net), if name == "" then "node" else name)
  }

  /** Allocate, insert; a failed insert gives the address back. */
  function JoinWith(s: State, a: Alloc, net: nat, req: Joining): (State, Result<nat>)
    requires ValidAlloc(a) && req.routes.Some?
  {
    var v4 := Allocate(a);
    if v4.None? then (s.(ipams := s.ipams[net := a]), Err("IPv4 prefix exhausted"))
    else
      var a' := Take(a, v4.value);
      var id := s.db.lastId + 1;
      if req.insertFails || id > MAX_ID then
        (s.(ipams := s.ipams[net := a'.(used := a'.used - {Unmap(v4.value)})]), Err("insert failed"))
      else
        var v6 := DeriveV6(a'.v6, id);
        AddNode(s, a', NewRow(id, net, NewName(s.db.nodes, net, req.name), v4.value, v6, req), v6, req.routes.value)
  }

  ghost predicate AllocsValid(ipams: map<nat, Alloc>) {
    forall n :: n in ipams ==> ValidAlloc(ipams[n])
  }

  lemma AllocatorForValid(db: Db, ipams: map<nat, Alloc>, net: nat)
    requires NetworksOk(db.networks) && AllocsValid(ipams)
    ensures AllocatorFor(db, ipams, net).Ok? ==> ValidAlloc(AllocatorFor(db, ipams, net).value)
  {
    if net !in ipams && net in db.networks {
      NewAllocValid(Some(db.networks[net].v4), Some(db.networks[net].v6));
    }
  }

  /** The rest of joining, once the key that names the network is spent. */
  ghost function JoinBySpent(s: State, net: nat, req: Joining): (State, Result<nat>)
    requires NetworksOk(s.db.networks) && AllocsValid(s.ipams) && req.routes.Some?
  {
    if net !in s.db.networks then (s, Err("not found"))
    else
      var a := AllocatorFor(s.db, s.ipams, net);
      AllocatorForValid(s.db, s.ipams, net);
      if a.Err? then (s, Err(a.message)) else JoinWith(s, a.value, net, req)
  }

  ghost function Join(s: State, req: Joining): (State, Result<nat>)
    requires NetworksOk(s.db.networks) && AllocsValid(s.ipams) && req.routes.Some?
  {
    var key := TrimSpace(req.setupKey);
    var use := UsableKey(s.db.keys, key, req.now);
    if use.Err? then (s, Err(use.message)) else JoinBySpent(Spend(s, key), use.value, req)
  }

  /** Known machine keys re-register, unknown ones need a setup key. */
  ghost function Admit(s: State, req: Joining): (State, Result<nat>)
    requires NetworksOk(s.db.networks) && AllocsValid(s.ipams)
  {
    if req.routes.None? then (s, Err("bad advertised route"))
    else
      var found := FindNode(s.db.nodes, KeyText(MACHINE_PREFIX, req.mkey), s.db.lastId);
      if found.Some? then (Rejoin(s, found.value, req), Ok(found.value))
      else if req.setupKey == "" then (s, Err("a setup key is required to join"))
      else Join(s, req)
  }

  lemma RowAdded(nodes: map<nat, Node>, born: map<nat, nat>, lastId: nat, n: Node)
    requires n.id == lastId + 1
    ensures NodesStay(nodes, nodes[n.id := n]) && BornStays(born, born[n.id := n.net], lastId)
    ensures RowsStay(nodes, nodes[n.id := n], lastId) && NewRowsAbove(nodes, nodes[n.id := n], lastId)
  {
  }

  lemma AddNodeSpares(s: State, a: Alloc, n: Node, v6: Result<Addr>, routes: set<string>)
    requires n.id == s.db.lastId + 1
    ensures var r := AddNode(s, a, n, v6, routes);
            && SparesStreams(s, r.0) && KeepsRows(s.db, r.0.db) && r.0.db.keys == s.db.keys
            && (r.1.Ok? ==> r.1.value == n.id) && n.id in r.0.db.nodes && r.0.db.nodes[n.id] == n
  {
    RowAdded(s.db.nodes, s.born, s.db.lastId, n);
    var s' := AddNode(s, a, n, v6, routes).0;
    assert s'.db.nodes == s.db.nodes[n.id := n] && s'.born == s.born[n.id := n.net];
  }

  predicate Joins(s: State, a: Alloc, req: Joining)
    requires ValidAlloc(a)
  {
    Allocate(a).Some? && !req.insertFails && s.db.lastId < MAX_ID
  }

  /** A successful join adds one row with the address allocated. */
  lemma JoinAdds(s: State, a: Alloc, net: nat, req: Joining) returns (a': Alloc, v6: Result<Addr>, row: Node)
    requires ValidAlloc(a) && req.routes.Some? && Joins(s, a, req)
    ensures v6 == DeriveV6(a.v6, s.db.lastId + 1)
    ensures row == NewRow(s.db.lastId + 1, net, NewName(s.db.nodes, net, req.name), Allocate(a).value, v6, req)
    ensures JoinWith(s, a, net, req) == AddNode(s, a', row, v6, req.routes.value)
  {
    a' := Take(a, Allocate(a).value);
    v6 := DeriveV6(a'.v6, s.db.lastId + 1);
    row := NewRow(s.db.lastId + 1, net, NewName(s.db.nodes, net, req.name), Allocate(a).value, v6, req);
  }

  /** A failed one changes the allocator at most. */
  lemma FailedJoin(s: State, a: Alloc, net: nat, req: Joining)
    requires ValidAlloc(a) && req.routes.Some? && !Joins(s, a, req)
    ensures var r := JoinWith(s, a, net, req); r.1.Err? && r.0 == s.(ipams := r.0.ipams)
  {
  }

  lemma JoinWithSpares(s: State, a: Alloc, net: nat, req: Joining)
    requires ValidAlloc(a) && req.routes.Some?
    ensures var r := JoinWith(s, a, net, req);
            SparesStreams(s, r.0) && KeepsRows(s.db, r.0.db) && r.0.db.keys == s.db.keys && Admitted(r, req)
  {
    if Joins(s, a, req) {
      var a', v6, row := JoinAdds(s, a, net, req);
      AddNodeSpares(s, a', row, v6, req.routes.value);
    } else {
      FailedJoin(s, a, net, req);
    }
  }

  lemma JoinBySpentSpares(s: State, net: nat, req: Joining)
    requires NetworksOk(s.db.networks) && AllocsValid(s.ipams) && req.routes.Some?
    ensures var r := JoinBySpent(s, net, req);
            SparesStreams(s, r.0) && KeepsRows(s.db, r.0.db) && r.0.db.keys == s.db.keys && Admitted(r, req)
  {
    var a := AllocatorFor(s.db, s.ipams, net);
    AllocatorForValid(s.db, s.ipams, net);
    if net in s.db.networks && a.Ok? { JoinWithSpares(s, a.value, net, req); }
  }

  lemma JoinSpares(s: State, req: Joining)
    requires NetworksOk(s.db.networks) && AllocsValid(s.ipams) && req.routes.Some?
    ensures var r := Join(s, req);
            SparesStreams(s, r.0) && KeepsRows(s.db, r.0.db) && KeysCountUp(s.db.keys, r.0.db.keys) && Admitted(r, req)
  {
    var key := TrimSpace(req.setupKey);
    var use := UsableKey(s.db.keys, key, req.now);
    if use.Ok? { JoinBySpentSpares(Spend(s, key), use.value, req); }
  }

  lemma RejoinSpares(s: State, id: nat, req: Joining)
    requires id in s.db.nodes && req.routes.Some?
    ensures var s' := Rejoin(s, id, req);
            && SparesStreams(s, s') && KeepsRows(s.db, s'.db) && s'.db.keys == s.db.keys
            && id in s'.db.nodes && s'.db.nodes[id].machineKey == s.db.nodes[id].machineKey
            && s'.db.nodes[id].nodeKey == KeyText(NODE_PREFIX, req.nkey)
  {
  }

  lemma AdmitSpares(s: State, req: Joining)
    requires NetworksOk(s.db.networks) && AllocsValid(s.ipams)
    ensures var r := Admit(s, req);
            SparesStreams(s, r.0) && KeepsRows(s.db, r.0.db) && KeysCountUp(s.db.keys, r.0.db.keys) && Admitted(r, req)
  {
    if req.routes.Some? {
      var found := FindNode(s.db.nodes, KeyText(MACHINE_PREFIX, req.mkey), s.db.lastId);
      if found.Some? {
        RejoinSpares(s, found.value, req);
      } else if req.setupKey != "" {
        JoinSpares(s, req);
      }
    }
  }

  /** Register: sanitize the host name, then admit.  Streams, setup keys and the other
      rows stay, and the node answered for holds the keys of the request. */
  ghost function Register(s: State, req: Request): (r: (State, Result<nat>))
    requires NetworksOk(s.db.networks) && AllocsValid(s.ipams)
    ensures SparesStreams(s, r.0) && KeysCountUp(s.db.keys, r.0.db.keys)
    ensures KeepsRows(s.db, r.0.db) && Admitted(r, Cleaned(req))
  {
    AdmitSpares(s, Cleaned(req));
    Admit(s, Cleaned(req))
  }

  // ---------------------------------------------------------------- streams

  function Bump(seqNo: map<nat, nat>, net: nat): map<nat, nat> { seqNo[net := Get(seqNo, net) + 1] }

  /** The IDs of a network's nodes, ascending, up to k. */
  function IdsIn(nodes: map<nat, Node>, net: nat, k: nat): seq<nat> {
    if k == 0 then [] else IdsIn(nodes, net, k - 1) + if k in nodes && nodes[k].net == net then [k] else []
  }

  /** The netmap of every node of a network, all built from one state. */
  function AllMaps(db: Db, online: map<nat, bool>, seqNo: map<nat, nat>, net: nat): map<nat, NetMap> {
    map id | id in db.nodes && db.nodes[id].net == net :: BuildNetMap(db, online, seqNo, db.nodes[id])
  }

  /** notifyNetworkLocked: a new sequence number, then a fresh netmap to every
      subscribed node of the network. */
  function Notify(s: State, net: nat): State {
    var seqNo := Bump(s.seqNo, net);
    s.(seqNo := seqNo,
       maps := H.PushEach(s.maps, IdsIn(s.db.nodes, net, s.db.lastId), AllMaps(s.db, s.online, seqNo, net), MAP_BUFFER))
  }

  /** Subscribe, up to the notify: replace the old stream, go online, prime the new one. */
  function Subscribe(s: State, mkey: string): State {
    var found := FindNode(s.db.nodes, mkey, s.db.lastId);
    if found.None? then s
    else
      var n := s.db.nodes[found.value];
      var online := s.online[n.id := true];
      s.(online := online,
         maps := H.Open(s.maps, n.id, n.net, [BuildNetMap(s.db, online, s.seqNo, n)]))
  }

  function Unsubscribe(s: State, c: nat): State {
    if H.Registered(s.maps, c) then
      s.(maps := H.Leave(s.maps, c), online := s.online[s.maps.chans[c].owner := false])
    else s
  }

  /** The network's allocator, loaded if need be, gives the address back. */
  function Freed(db: Db, ipams: map<nat, Alloc>, net: nat, ip: Addr): map<nat, Alloc>
    requires NetworksOk(db.networks)
  {
    var a := AllocatorFor(db, ipams, net);
    if net in db.networks && a.Ok? then ipams[net := a.value.(used := a.value.used - {Unmap(ip)})] else ipams
  }

  ghost function DeleteNode(s: State, id: nat): State
    requires NetworksOk(s.db.networks)
  {
    if id !in s.db.nodes then s
    else
      var n := s.db.nodes[id];
      var db := s.db.(nodes := s.db.nodes - {id}, routes := Drop(s.db.routes, id));
      s.(db := db, ipams := Freed(db, s.ipams, n.net, n.ip4),
         maps := H.Kick(s.maps, id), sigs := H.Kick(s.sigs, id), online := s.online - {id})
  }

  /** SetRouteApproved; route is None when it does not parse. */
  function SetApproved(s: State, id: nat, route: Option<string>, approved: bool): State {
    if id !in s.db.nodes || route.None? then s
    else s.(db := s.db.(routes := Decide(s.db.routes, id, route.value, approved)))
  }

  function SetEndpoints(s: State, id: nat, eps: seq<string>): State {
    if id in s.db.nodes then s.(db := s.db.(nodes := s.db.nodes[id := s.db.nodes[id].(endpoints := eps)])) else s
  }

  function SignalSubscribe(s: State, mkey: string): State {
    var found := FindNode(s.db.nodes, mkey, s.db.lastId);
    if found.None? then s
    else s.(sigs := H.Open(s.sigs, s.db.nodes[found.value].id, s.db.nodes[found.value].net, []))
  }

  /** routeSignal on behalf of stream c, whose node record was captured when it opened. */
  function RouteSignal(s: State, c: nat, env: Signal): State {
    if c !in s.sigs.chans || env.to > MAX_ID || env.to !in s.db.nodes then s
    else
      var from, dst := s.sigs.chans[c], s.db.nodes[env.to];
      if dst.net != from.net then s
      else s.(sigs := H.Push(s.sigs, dst.id, env.(from := from.owner), SIGNAL_BUFFER))
  }

  // ---------------------------------------------------------------- events and runs

  /** Operations that write the database. */
  datatype Change =
    | Registers(req: Request)
    | Deletes(id: nat)
    | Approves(id: nat, route: Option<string>, approved: bool)
    | Reports(id: nat, endpoints: seq<string>)
    | SetsAcl(net: nat, rules: seq<AclRule>)
    | CreatesKey(key: string, net: nat, reusable: bool, expiresAt: nat)
    | RevokesKey(key: string)

  /** Operations on streams and channels. */
  datatype Traffic =
    | Notifies(net: nat)
    | Subscribes(mkey: string)
    | Unsubscribes(c: nat)
    | SignalSubscribes(mkey: string)
    | SignalUnsubscribes(c: nat)
    | Signals(c: nat, env: Signal)
    | TakesMap(c: nat)
    | TakesSignal(c: nat)

  datatype Event = Writes(change: Change) | Streams(traffic: Traffic) | Restarts

  ghost function ApplyChange(s: State, e: Change): State
    requires NetworksOk(s.db.networks) && AllocsValid(s.ipams)
  {
    match e
    case Registers(req) => Register(s, req).0
    case Deletes(id) => DeleteNode(s, id)
    case Approves(id, route, approved) => SetApproved(s, id, route, approved)
    case Reports(id, eps) => SetEndpoints(s, id, eps)
    case SetsAcl(net, rules) => s.(db := s.db.(acl := s.db.acl[net := rules]))
    case CreatesKey(key, net, reusable, expiresAt) => CreateKey(s, key, SetupKey(net, reusable, false, expiresAt, 0))
    case RevokesKey(key) => RevokeKey(s, key)
  }

  function ApplyTraffic(s: State, e: Traffic): State {
    match e
    case Notifies(net) => Notify(s, net)
    case Subscribes(mkey) => Subscribe(s, mkey)
    case Unsubscribes(c) => Unsubscribe(s, c)
    case SignalSubscribes(mkey) => SignalSubscribe(s, mkey)
    case SignalUnsubscribes(c) => s.(sigs := H.Leave(s.sigs, c))
    case Signals(c, env) => RouteSignal(s, c, env)
    case TakesMap(c) => s.(maps := H.Take(s.maps, c))
    case TakesSignal(c) => s.(sigs := H.Take(s.sigs, c))
  }

  /** A restart keeps the database and loses everything held in memory. */
  function Restart(s: State): State {
    s.(ipams := map[], maps := H.Reset(s.maps), online := map[], seqNo := map[], sigs := H.Reset(s.sigs))
  }

  ghost function Apply(s: State, e: Event): State
    requires NetworksOk(s.db.networks) && AllocsValid(s.ipams)
  {
    match e
    case Writes(c) => ApplyChange(s, c)
    case Streams(t) => ApplyTraffic(s, t)
    case Restarts => Restart(s)
  }

  /** A server on an empty database over some networks. */
  predicate Initial(s: State) {
    && NetworksOk(s.db.networks)
    && s.db.nodes == map[] && s.db.lastId == 0 && s.db.routes == map[]
    && s.ipams == map[] && s.maps == H.Empty() && s.online == map[] && s.seqNo == map[] && s.sigs == H.Empty()
    && s.born == map[]
  }
}
