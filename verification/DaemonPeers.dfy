/** How the daemon keeps its peers, internal/daemon/daemon.go: netmaps are merged into
    long-lived records that also receive path updates, and WireGuard configs are
    rendered from them. */
module DaemonPeers {
  import opened Prelude
  import opened Numerals
  import opened Net
  import opened Hostnames

  /** A peer as a netmap lists it; a CIDR that does not parse is None. */
  datatype WirePeer = WirePeer(id: nat, key: seq<byte>, hostname: string, online: bool, endpoints: seq<Option<string>>,
                               ips: seq<Option<Prefix>>, routes: seq<Option<Prefix>>)

  datatype PathState = Nowhere | Connecting | Direct

  datatype Path = Path(state: PathState, endpoint: Option<string>, rtt: nat)

  const NO_PATH: Path := Path(Nowhere, None, 0)

  /** A record: what the netmap said, and the path found since. */
  datatype Peer = Peer(id: nat, key: seq<byte>, hostname: string, online: bool, endpoints: seq<Option<string>>,
                       allowed: seq<Prefix>, subnets: seq<Prefix>, exits: seq<Prefix>, path: Path)

  predicate IsDefault(p: Prefix) { p.bits == 0 }

  function Parsed(cs: seq<Option<Prefix>>): seq<Prefix> {
    if cs == [] then []
    else Parsed(cs[..|cs| - 1]) + if cs[|cs| - 1].Some? then [cs[|cs| - 1].value] else []
  }

  lemma {:induction false} ParsedIn(cs: seq<Option<Prefix>>, p: Prefix)
    ensures p in Parsed(cs) <==> Some(p) in cs
  {
    if cs != [] {
      ParsedIn(cs[..|cs| - 1], p);
      assert cs == cs[..|cs| - 1] + [cs[|cs| - 1]];
    }
  }

  function Keep(ps: seq<Prefix>, default: bool): seq<Prefix> {
    if ps == [] then []
    else Keep(ps[..|ps| - 1], default) + if IsDefault(ps[|ps| - 1]) == default then [ps[|ps| - 1]] else []
  }

  lemma {:induction false} KeepMember(ps: seq<Prefix>, default: bool, p: Prefix)
    ensures p in Keep(ps, default) <==> p in ps && IsDefault(p) == default
  {
    if ps != [] {
      KeepMember(ps[..|ps| - 1], default, p);
      assert ps == ps[..|ps| - 1] + [ps[|ps| - 1]];
    }
  }

  lemma KeepNext(ps: seq<Prefix>, x: Prefix, default: bool)
    ensures Keep(ps + [x], default) == if IsDefault(x) == default then Keep(ps, default) + [x] else Keep(ps, default)
  {
    assert (ps + [x])[..|ps|] == ps;
  }

  function Loaded(w: WirePeer, path: Path): Peer {
    Peer(w.id, w.key, w.hostname, w.online, w.endpoints, Parsed(w.ips), Keep(Parsed(w.routes), false),
         Keep(Parsed(w.routes), true), path)
  }

  // ---------------------------------------------------------------- merging

  type Table = map<nat, Peer>

  predicate Usable(w: WirePeer) { |w.key| == 32 }

  function Seen(ws: seq<WirePeer>): set<nat> { set w | w in ws && Usable(w) :: w.id }

  /** The entry that counts for id: the last usable one. */
  function LastFor(ws: seq<WirePeer>, id: nat): (w: WirePeer)
    requires id in Seen(ws)
    ensures w in ws && Usable(w) && w.id == id
  {
    var w := ws[|ws| - 1];
    if Usable(w) && w.id == id then w
    else
      assert ws == ws[..|ws| - 1] + [w];
      LastFor(ws[..|ws| - 1], id)
  }

  function PathIn(t: Table, id: nat): Path { if id in t then t[id].path else NO_PATH }

  /** Peers in the netmap keep their path, new ones start without, others go. */
  function Merge(t: Table, ws: seq<WirePeer>): Table {
    map id | id in Seen(ws) :: Loaded(LastFor(ws, id), PathIn(t, id))
  }

  /** The merge loop before peers that are gone are dropped. */
  function Upserted(t: Table, ws: seq<WirePeer>): Table {
    if ws == [] then t
    else
      var t', w := Upserted(t, ws[..|ws| - 1]), ws[|ws| - 1];
      if Usable(w) then t'[w.id := Loaded(w, PathIn(t', w.id))] else t'
  }

  lemma {:induction false} UpsertedIs(t: Table, ws: seq<WirePeer>, id: nat)
    ensures id in Upserted(t, ws) <==> id in t || id in Seen(ws)
    ensures id in Seen(ws) ==> Upserted(t, ws)[id] == Loaded(LastFor(ws, id), PathIn(t, id))
    ensures id in t && id !in Seen(ws) ==> Upserted(t, ws)[id] == t[id]
  {
    if ws != [] {
      UpsertedIs(t, ws[..|ws| - 1], id);
      assert ws == ws[..|ws| - 1] + [ws[|ws| - 1]];
      SeenNext(ws[..|ws| - 1], ws[|ws| - 1]);
    }
  }

  lemma SeenNext(ws: seq<WirePeer>, w: WirePeer)
    ensures Seen(ws + [w]) == Seen(ws) + if Usable(w) then {w.id} else {}
  {
    assert forall v :: v in ws + [w] <==> v in ws || v == w;
  }

  function Only(t: Table, seen: set<nat>): Table { map id | id in t && id in seen :: t[id] }

  /** The two loops together merge. */
  lemma LoopsMerge(t: Table, ws: seq<WirePeer>)
    ensures Only(Upserted(t, ws), Seen(ws)) == Merge(t, ws)
  {
    forall id: nat
      ensures id in Seen(ws) ==> id in Upserted(t, ws) && Upserted(t, ws)[id] == Loaded(LastFor(ws, id), PathIn(t, id))
    {
      UpsertedIs(t, ws, id);
    }
  }

  /** Entering a peer if it is new, then loading it, is one upsert. */
  lemma UpsertSteps(t: Table, t1: Table, t2: Table, w: WirePeer)
    requires t1.Keys == t.Keys + {w.id} && (forall j :: j in t ==> t1[j] == t[j]) && t1[w.id].path == PathIn(t, w.id)
    requires t2 == t1[w.id := Loaded(w, t1[w.id].path)]
    ensures t2 == t[w.id := Loaded(w, PathIn(t, w.id))]
  {
  }

  function SetPath(t: Table, id: nat, path: Path): Table {
    if id in t then t[id := t[id].(path := path)] else t
  }

  datatype Event = Applies(ws: seq<WirePeer>) | Moves(id: nat, path: Path)

  function Happen(t: Table, e: Event): Table {
    match e
    case Applies(ws) => Merge(t, ws)
    case Moves(id, path) => SetPath(t, id, path)
  }

  function Replay(h: seq<Event>): Table {
    if h == [] then map[] else Happen(Replay(h[..|h| - 1]), h[|h| - 1])
  }

  lemma ReplayNext(h: seq<Event>, e: Event, t: Table)
    requires t == Replay(h)
    ensures Replay(h + [e]) == Happen(t, e)
  {
    assert (h + [e])[..|h|] == h;
  }

  // ---------------------------------------------------------------- rebuilding

  function LastNetMap(h: seq<Event>): seq<WirePeer> {
    if h == [] then [] else if h[|h| - 1].Applies? then h[|h| - 1].ws else LastNetMap(h[..|h| - 1])
  }

  predicate Spares(e: Event, id: nat) {
    match e
    case Applies(ws) => id in Seen(ws)
    case Moves(n, _) => n != id
  }

  /** h[i] set the path of id while it was a peer; since then id stayed in every netmap
      and no other path was reported for it. */
  predicate Holds(h: seq<Event>, id: nat, i: nat) {
    && i < |h| && h[i].Moves? && h[i].id == id && id in Seen(LastNetMap(h[..i]))
    && forall j :: i < j < |h| ==> Spares(h[j], id)
  }

  /** path is the latest path of id since it last entered. */
  ghost predicate LatestPath(h: seq<Event>, id: nat, path: Path) {
    if exists i: nat :: Holds(h, id, i) then exists i: nat :: Holds(h, id, i) && h[i].path == path else path == NO_PATH
  }

  lemma HoldsGrows(h: seq<Event>, id: nat, i: nat)
    requires h != []
    ensures var m, e := |h| - 1, h[|h| - 1];
            Holds(h, id, i) <==>
              if i == m then e.Moves? && e.id == id && id in Seen(LastNetMap(h[..m]))
              else Holds(h[..m], id, i) && Spares(e, id)
  {
    var m := |h| - 1;
    if i < m { assert h[..m][..i] == h[..i]; }
    if i < m && Holds(h[..m], id, i) && Spares(h[m], id) {
      forall j | i < j < |h| ensures Spares(h[j], id) { if j < m { assert h[j] == h[..m][j]; } }
    }
    if i < m && Holds(h, id, i) {
      forall j | i < j < m ensures Spares(h[..m][j], id) { assert h[..m][j] == h[j]; }
    }
  }

  lemma {:induction false} HoldersArePresent(h: seq<Event>, id: nat, i: nat)
    requires Holds(h, id, i)
    ensures id in Seen(LastNetMap(h))
  {
    HoldsGrows(h, id, i);
    if i < |h| - 1 { HoldersArePresent(h[..|h| - 1], id, i); }
  }

  lemma LatestAfterMove(h: seq<Event>, id: nat, path: Path)
    requires h != [] && h[|h| - 1] == Moves(id, path) && id in Seen(LastNetMap(h[..|h| - 1]))
    ensures LatestPath(h, id, path)
  {
    HoldsGrows(h, id, |h| - 1);
  }

  lemma LatestAfterOther(h: seq<Event>, id: nat, path: Path)
    requires h != [] && Spares(h[|h| - 1], id) && LatestPath(h[..|h| - 1], id, path)
    ensures LatestPath(h, id, path)
  {
    var m := |h| - 1;
    forall i: nat ensures Holds(h, id, i) <==> Holds(h[..m], id, i) { HoldsGrows(h, id, i); }
    if i: nat :| Holds(h[..m], id, i) && h[..m][i].path == path { assert Holds(h, id, i) && h[i].path == path; }
  }

  lemma LatestOfAbsent(h: seq<Event>, id: nat)
    requires id !in Seen(LastNetMap(h))
    ensures LatestPath(h, id, NO_PATH)
  {
    forall i: nat ensures !Holds(h, id, i) { if Holds(h, id, i) { HoldersArePresent(h, id, i); } }
  }

  /** The merged table is the one rebuilt from the last netmap, each peer with its
      latest path since it last entered. */
  lemma {:induction false} MergeIsRebuild(h: seq<Event>, id: nat)
    ensures id in Replay(h) <==> id in Seen(LastNetMap(h))
    ensures id in Replay(h) ==>
              && LatestPath(h, id, Replay(h)[id].path)
              && Replay(h)[id] == Loaded(LastFor(LastNetMap(h), id), Replay(h)[id].path)
  {
    if h != [] {
      var m := |h| - 1;
      MergeIsRebuild(h[..m], id);
      if id !in Replay(h[..m]) { LatestOfAbsent(h[..m], id); }
      if id in Replay(h) {
        if h[m].Moves? && h[m].id == id {
          LatestAfterMove(h, id, h[m].path);
        } else {
          LatestAfterOther(h, id, PathIn(Replay(h[..m]), id));
        }
      }
    }
  }

  /** A peer has one latest path. */
  lemma LatestPathIsOne(h: seq<Event>, id: nat, p: Path, q: Path)
    requires LatestPath(h, id, p) && LatestPath(h, id, q)
    ensures p == q
  {
    if exists i: nat :: Holds(h, id, i) {
      var i: nat :| Holds(h, id, i) && h[i].path == p;
      var j: nat :| Holds(h, id, j) && h[j].path == q;
      assert i == j;
    }
  }

  /** Place i holds the last entry for id with a whole key. */
  predicate IsLastFor(ws: seq<WirePeer>, id: nat, i: nat) {
    && i < |ws| && ws[i].id == id && |ws[i].key| == 32
    && forall j :: i < j < |ws| ==> ws[j].id != id || |ws[j].key| != 32
  }

  lemma {:induction false} LastForIs(ws: seq<WirePeer>, id: nat) returns (i: nat)
    requires id in Seen(ws)
    ensures IsLastFor(ws, id, i) && LastFor(ws, id) == ws[i]
  {
    i := |ws| - 1;
    if !(Usable(ws[i]) && ws[i].id == id) {
      var front := ws[..i];
      assert ws == front + [ws[i]];
      var k := LastForIs(front, id);
      forall j | k < j < |ws| ensures ws[j].id != id || |ws[j].key| != 32 { assert j < i ==> front[j] == ws[j]; }
      i := k;
    }
  }

  /** The peers are those the last netmap lists with a whole key, and a record says what
      the peer's last entry there says. */
  lemma RecordsFollowNetMap(h: seq<Event>, id: nat) returns (i: nat)
    ensures var ws := LastNetMap(h);
            && (id in Replay(h) <==> exists j :: 0 <= j < |ws| && ws[j].id == id && |ws[j].key| == 32)
            && (id in Replay(h) ==>
                  && IsLastFor(ws, id, i) && LastFor(ws, id) == ws[i]
                  && var p := Replay(h)[id];
                     p.id == id && p.key == ws[i].key && p.hostname == ws[i].hostname && p.online == ws[i].online
                     && p.endpoints == ws[i].endpoints)
  {
    i := 0;
    MergeIsRebuild(h, id);
    var ws := LastNetMap(h);
    if id in Replay(h) { i := LastForIs(ws, id); }
    if j :| 0 <= j < |ws| && ws[j].id == id && |ws[j].key| == 32 { assert ws[j] in ws && Usable(ws[j]); }
  }

  // ---------------------------------------------------------------- the exit peer

  /** strings.EqualFold, over a simple case fold. */
  predicate EqualFold(s: string, t: string, fold: char -> char) {
    |s| == |t| && forall i :: 0 <= i < |s| ==> fold(s[i]) == fold(t[i])
  }

  predicate IsCandidate(t: Table, id: nat, exitNode: string, fold: char -> char) {
    id in t && EqualFold(t[id].hostname, exitNode, fold) && t[id].exits != []
  }

  /** With no desired exit node, or no candidate for it, none is selected. */
  ghost predicate SelectsExit(t: Table, exitPeer: nat, exitNode: string, fold: char -> char) {
    && (exitPeer == 0 || (exitNode != "" && IsCandidate(t, exitPeer, exitNode, fold)))
    && (exitNode != "" && (exists id :: IsCandidate(t, id, exitNode, fold)) ==>
          IsCandidate(t, exitPeer, exitNode, fold))
  }

  /** With the distinct hostnames the coordinator hands out, and a fold that keeps
      hostname characters apart, the exit peer does not depend on the order in which
      the peers are visited. */
  lemma ExitChoiceIsUnique(t: Table, exitNode: string, fold: char -> char, i: nat, j: nat)
    requires forall a, b :: NameChar(a) && NameChar(b) && fold(a) == fold(b) ==> a == b
    requires forall a :: a in t ==> IsName(t[a].hostname)
    requires forall a, b :: a in t && b in t && a != b ==> t[a].hostname != t[b].hostname
    requires IsCandidate(t, i, exitNode, fold) && IsCandidate(t, j, exitNode, fold)
    ensures i == j
  {
    var s, u := t[i].hostname, t[j].hostname;
    forall k | 0 <= k < |s| ensures s[k] == u[k] { assert s[k] in s && u[k] in u; }
    assert s == u;
  }

  /** The entry goes by that name, up to case, and serves a default route. */
  ghost predicate ServesExit(w: WirePeer, exitNode: string, fold: char -> char) {
    EqualFold(w.hostname, exitNode, fold) && exists x :: Some(x) in w.routes && x.bits == 0
  }

  lemma CandidateIff(h: seq<Event>, id: nat, exitNode: string, fold: char -> char)
    requires id in Replay(h)
    ensures id in Seen(LastNetMap(h))
    ensures IsCandidate(Replay(h), id, exitNode, fold) <==> ServesExit(LastFor(LastNetMap(h), id), exitNode, fold)
  {
    MergeIsRebuild(h, id);
    var w, exits := LastFor(LastNetMap(h), id), Replay(h)[id].exits;
    if exits != [] {
      KeepMember(Parsed(w.routes), true, exits[0]);
      ParsedIn(w.routes, exits[0]);
    }
    if x :| Some(x) in w.routes && x.bits == 0 {
      ParsedIn(w.routes, x);
      KeepMember(Parsed(w.routes), true, x);
    }
  }

  /** There is an exit peer exactly if one is wanted and the last netmap has one of that
      name that serves a default route; then it is such a peer. */
  lemma ExitPeerIs(h: seq<Event>, exitPeer: nat, exitNode: string, fold: char -> char)
    requires 0 !in Replay(h) && SelectsExit(Replay(h), exitPeer, exitNode, fold)
    ensures exitPeer != 0 <==>
              && exitNode != ""
              && exists id :: id in Seen(LastNetMap(h)) && ServesExit(LastFor(LastNetMap(h), id), exitNode, fold)
    ensures exitPeer != 0 ==>
              exitPeer in Seen(LastNetMap(h)) && ServesExit(LastFor(LastNetMap(h), exitPeer), exitNode, fold)
  {
    if exitPeer != 0 { CandidateIff(h, exitPeer, exitNode, fold); }
    if id :| id in Seen(LastNetMap(h)) && ServesExit(LastFor(LastNetMap(h), id), exitNode, fold) {
      MergeIsRebuild(h, id);
      CandidateIff(h, id, exitNode, fold);
    }
  }

  // ---------------------------------------------------------------- configs

  datatype Config = Config(key: seq<byte>, allowed: seq<Prefix>, endpoint: Option<string>, relay: bool)

  function FirstParsed(eps: seq<Option<string>>): Option<string> {
    if eps == [] then None else if eps[0].Some? then eps[0] else FirstParsed(eps[1..])
  }

  function AllowedOf(p: Peer, exitPeer: nat): seq<Prefix> {
    p.allowed + p.subnets + if p.id == exitPeer then p.exits else []
  }

  /** The path ladder: a direct path, else the relay, else a static hint. */
  function LadderOf(p: Peer, relayUp: bool): (Option<string>, bool) {
    if p.path.state.Direct? && p.path.endpoint.Some? then (p.path.endpoint, false)
    else if relayUp && p.online then (None, true)
    else (FirstParsed(p.endpoints), false)
  }

  /** A peer with neither endpoint nor relay is left out. */
  function ConfigOf(p: Peer, exitPeer: nat, relayUp: bool): Option<Config> {
    var way := LadderOf(p, relayUp);
    if way.0.None? && !way.1 then None else Some(Config(p.key, AllowedOf(p, exitPeer), way.0, way.1))
  }

  /** The prefixes of a record's config: its parsed overlay addresses, and its parsed
      routes, of which a default route only if the peer is the selected exit. */
  lemma AllowedIff(w: WirePeer, path: Path, exitPeer: nat, x: Prefix)
    ensures x in AllowedOf(Loaded(w, path), exitPeer)
       <==> Some(x) in w.ips || (Some(x) in w.routes && (x.bits != 0 || w.id == exitPeer))
  {
    ParsedIn(w.ips, x);
    ParsedIn(w.routes, x);
    KeepMember(Parsed(w.routes), false, x);
    KeepMember(Parsed(w.routes), true, x);
  }

  /** After any netmaps and path updates a config carries exactly those prefixes of the
      peer's entry in the last netmap, under the entry's key. */
  lemma ConfigIff(h: seq<Event>, id: nat, exitPeer: nat, relayUp: bool, x: Prefix)
    requires id in Replay(h) && ConfigOf(Replay(h)[id], exitPeer, relayUp).Some?
    ensures id in Seen(LastNetMap(h))
    ensures var w, c := LastFor(LastNetMap(h), id), ConfigOf(Replay(h)[id], exitPeer, relayUp).value;
            && c.key == w.key
            && (x in c.allowed <==>
                  Some(x) in w.ips || (Some(x) in w.routes && (x.bits != 0 || id == exitPeer)))
  {
    MergeIsRebuild(h, id);
    AllowedIff(LastFor(LastNetMap(h), id), Replay(h)[id].path, exitPeer, x);
  }

  /** The first static endpoint that parses, if there is one. */
  predicate IsFirstParsed(eps: seq<Option<string>>, e: Option<string>) {
    if e.Some? then exists i :: 0 <= i < |eps| && eps[i] == e && forall j :: 0 <= j < i ==> eps[j].None?
    else forall i :: 0 <= i < |eps| ==> eps[i].None?
  }

  lemma {:induction false} FirstParsedIs(eps: seq<Option<string>>)
    ensures IsFirstParsed(eps, FirstParsed(eps))
  {
    if eps != [] && eps[0].None? {
      FirstParsedIs(eps[1..]);
      var e := FirstParsed(eps[1..]);
      if e.Some? {
        var i :| 0 <= i < |eps[1..]| && eps[1..][i] == e && forall j :: 0 <= j < i ==> eps[1..][j].None?;
        assert eps[i + 1] == e;
        forall j | 0 <= j < i + 1 ensures eps[j].None? { if j > 0 { assert eps[1..][j - 1].None?; } }
      } else {
        forall i | 0 <= i < |eps| ensures eps[i].None? { if i > 0 { assert eps[1..][i - 1].None?; } }
      }
    }
  }

  /** How a peer is reached: a direct path wins over everything, the relay carries an
      online peer that has none, and only a peer beyond both gets a static hint.  A peer
      without any of them has no config. */
  lemma WayOfPeer(p: Peer, exitPeer: nat, relayUp: bool)
    ensures var c := ConfigOf(p, exitPeer, relayUp);
            var direct := p.path.state == Direct && p.path.endpoint.Some?;
            && (direct ==> c.Some? && c.value.endpoint == p.path.endpoint && !c.value.relay)
            && (!direct && relayUp && p.online ==> c.Some? && c.value.relay && c.value.endpoint.None?)
            && (!direct && !(relayUp && p.online) ==>
                  && (c.None? <==> IsFirstParsed(p.endpoints, None))
                  && (c.Some? ==>
                        !c.value.relay && c.value.endpoint.Some? && IsFirstParsed(p.endpoints, c.value.endpoint)))
  {
    FirstParsedIs(p.endpoints);
  }

  predicate HasDefault(ps: seq<Prefix>) { exists p :: p in ps && IsDefault(p) }

  /** The config of a record carries a default route exactly when the peer is the
      selected exit and serves one, or its own overlay addresses contain one. */
  lemma LoadedDefault(w: WirePeer, path: Path, exitPeer: nat)
    ensures HasDefault(AllowedOf(Loaded(w, path), exitPeer))
       <==> HasDefault(Parsed(w.ips)) || (w.id == exitPeer && HasDefault(Parsed(w.routes)))
  {
    var p := Loaded(w, path);
    var all := AllowedOf(p, exitPeer);
    if x :| x in all && IsDefault(x) {
      assert x in p.allowed || x in p.subnets || x in p.exits;
      KeepMember(Parsed(w.routes), false, x);
      KeepMember(Parsed(w.routes), true, x);
    }
    if x :| x in Parsed(w.ips) && IsDefault(x) { assert x in all; }
    if w.id == exitPeer && HasDefault(Parsed(w.routes)) {
      var x :| x in Parsed(w.routes) && IsDefault(x);
      KeepMember(Parsed(w.routes), true, x);
      assert x in p.exits && x in all;
    }
  }

  /** Every overlay address is that of a host. */
  ghost predicate HostsOnly(ws: seq<WirePeer>) { forall w :: w in ws ==> !HasDefault(Parsed(w.ips)) }

  lemma HostsOnlyExit(t: Table, ws: seq<WirePeer>, id: nat, exitPeer: nat)
    requires HostsOnly(ws) && id in Merge(t, ws) && HasDefault(AllowedOf(Merge(t, ws)[id], exitPeer))
    ensures id == exitPeer
  {
    LoadedDefault(LastFor(ws, id), PathIn(t, id), exitPeer);
  }

  /** After any netmaps and path updates, a peer's config carries a default route
      exactly when the peer is the selected exit and its exit route was approved in the
      last netmap, or its own overlay addresses contain one. */
  lemma DefaultRouteIff(h: seq<Event>, id: nat, exitPeer: nat, relayUp: bool)
    requires id in Replay(h) && ConfigOf(Replay(h)[id], exitPeer, relayUp).Some?
    ensures id in Seen(LastNetMap(h))
    ensures var w := LastFor(LastNetMap(h), id);
            HasDefault(ConfigOf(Replay(h)[id], exitPeer, relayUp).value.allowed)
            <==> HasDefault(Parsed(w.ips)) || (id == exitPeer && HasDefault(Parsed(w.routes)))
  {
    MergeIsRebuild(h, id);
    LoadedDefault(LastFor(LastNetMap(h), id), Replay(h)[id].path, exitPeer);
  }

  /** With overlay addresses that are hosts, as the coordinator sends them, at most one
      config carries a default route: the selected exit peer's. */
  lemma OneDefaultRoute(h: seq<Event>, i: nat, j: nat, exitPeer: nat, relayUp: bool)
    requires i in Replay(h) && ConfigOf(Replay(h)[i], exitPeer, relayUp).Some?
    requires j in Replay(h) && ConfigOf(Replay(h)[j], exitPeer, relayUp).Some?
    requires HostsOnly(LastNetMap(h))
    requires HasDefault(ConfigOf(Replay(h)[i], exitPeer, relayUp).value.allowed)
    requires HasDefault(ConfigOf(Replay(h)[j], exitPeer, relayUp).value.allowed)
    ensures i == exitPeer && j == exitPeer
  {
    DefaultRouteIff(h, i, exitPeer, relayUp);
    DefaultRouteIff(h, j, exitPeer, relayUp);
  }

  // ---------------------------------------------------------------- visiting every peer once

  /** ids are the peers visited so far that have a config; `left` are still to visit. */
  ghost predicate Visited(t: Table, ids: seq<nat>, left: set<nat>, exitPeer: nat, relayUp: bool) {
    Distinct(ids) && AreDone(t, ids, left) && AllDone(t, ids, left, exitPeer, relayUp)
  }

  predicate Distinct(ids: seq<nat>) { forall i, j :: 0 <= i < j < |ids| ==> ids[i] != ids[j] }

  predicate AreDone(t: Table, ids: seq<nat>, left: set<nat>) { forall id :: id in ids ==> id in t && id !in left }

  predicate AllDone(t: Table, ids: seq<nat>, left: set<nat>, exitPeer: nat, relayUp: bool) {
    forall id :: id in t && id !in left && ConfigOf(t[id], exitPeer, relayUp).Some? ==> id in ids
  }

  lemma VisitNext(t: Table, ids: seq<nat>, left: set<nat>, exitPeer: nat, relayUp: bool, id: nat)
    requires Visited(t, ids, left, exitPeer, relayUp) && id in left && id in t
    ensures ConfigOf(t[id], exitPeer, relayUp).Some? ==> Visited(t, ids + [id], left - {id}, exitPeer, relayUp)
    ensures ConfigOf(t[id], exitPeer, relayUp).None? ==> Visited(t, ids, left - {id}, exitPeer, relayUp)
  {
    forall i | 0 <= i < |ids| ensures ids[i] != id { assert ids[i] in ids; }
  }
}
