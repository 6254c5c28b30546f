/** The netmaps a coordinator pushes, as a daemon reads them: what the daemon needs of
    host names, addresses and routes is what every snapshot of a run provides. */
module MeshExit {
  import opened Prelude
  import opened Numerals
  import opened Net
  import opened Hostnames
  import opened DaemonPeers
  import opened DaemonObject
  import F = Filter
  import M = CoordModel
  import R = CoordRuns
  import S = CoordSafety
  import CR = CoordRoutes

  /** The order in which the database lists a node's routes, and the daemon's parsers. */
  datatype Reader = Reader(order: set<string> -> seq<string>, route: string -> Option<Prefix>,
                           endpoint: string -> Option<string>)

  ghost predicate Lists(order: set<string> -> seq<string>) {
    forall rs: set<string>, r: string :: r in order(rs) <==> r in rs
  }

  function Wire(p: M.PeerInfo, rd: Reader): WirePeer {
    var rs := rd.order(p.routes);
    WirePeer(p.id, p.nodeKey, p.hostname, p.online,
             seq(|p.endpoints|, i requires 0 <= i < |p.endpoints| => rd.endpoint(p.endpoints[i])),
             seq(|p.ips|, i requires 0 <= i < |p.ips| => F.ParsePrefix(p.ips[i])),
             seq(|rs|, i requires 0 <= i < |rs| => rd.route(rs[i])))
  }

  /** The peers of a netmap on the wire. */
  function WireAll(ps: seq<M.PeerInfo>, rd: Reader): seq<WirePeer> {
    seq(|ps|, i requires 0 <= i < |ps| => Wire(ps[i], rd))
  }

  lemma SeenIs(ps: seq<M.PeerInfo>, rd: Reader, id: nat)
    requires forall p :: p in ps ==> Usable(Wire(p, rd))
    ensures id in Seen(WireAll(ps, rd)) <==> R.HasPeer(ps, id)
  {
    var ws := WireAll(ps, rd);
    if id in Seen(ws) {
      var i :| 0 <= i < |ws| && ws[i] == LastFor(ws, id);
      assert ws[i] == Wire(ps[i], rd) && ps[i] in ps;
    }
    if R.HasPeer(ps, id) {
      var i :| 0 <= i < |ps| && ps[i].id == id;
      assert ws[i] in ws && ws[i].id == id;
    }
  }

  /** A default route of the node that was approved and still stands. */
  ghost predicate ExitStands(ss: seq<M.State>, es: seq<M.Event>, k: nat, id: nat, rd: Reader)
    requires |ss| == |es| + 1 && k <= |es|
  {
    exists r: string :: CR.ApprovalStands(ss, es, k, id, r) && rd.route(r).Some? && IsDefault(rd.route(r).value)
  }

  lemma HostsOnWire(n: F.Cidr, m: F.Cidr, p: M.PeerInfo, rd: Reader)
    requires p.ips == [n, m] && n.bits != 0 && m.bits != 0
    ensures !HasDefault(Parsed(Wire(p, rd).ips))
  {
    var cs := Wire(p, rd).ips;
    forall x | x in Parsed(cs) ensures !IsDefault(x) {
      ParsedIn(cs, x);
      var i :| 0 <= i < |cs| && cs[i] == Some(x);
      assert cs[i] == F.ParsePrefix(p.ips[i]);
    }
  }

  lemma RoutesOnWire(p: M.PeerInfo, rd: Reader)
    requires Lists(rd.order)
    ensures HasDefault(Parsed(Wire(p, rd).routes))
       <==> exists r: string :: r in p.routes && rd.route(r).Some? && IsDefault(rd.route(r).value)
  {
    var rs, cs := rd.order(p.routes), Wire(p, rd).routes;
    if x :| x in Parsed(cs) && IsDefault(x) {
      ParsedIn(cs, x);
      var i :| 0 <= i < |cs| && cs[i] == Some(x);
      assert cs[i] == rd.route(rs[i]) && rs[i] in rs && rs[i] in p.routes;
    }
    if r: string :| r in p.routes && rd.route(r).Some? && IsDefault(rd.route(r).value) {
      assert r in rs;
      var i :| 0 <= i < |rs| && rs[i] == r;
      assert cs[i] == rd.route(r);
      ParsedIn(cs, rd.route(r).value);
    }
  }

  /** What the entry of one peer says, in a snapshot of a run. */
  lemma EntryOnWire(ss: seq<M.State>, es: seq<M.Event>, k: nat, a: nat, m: M.NetMap, rd: Reader, p: M.PeerInfo)
    requires R.IsRun(ss, es) && k <= |es| && R.IsSnapshot(ss[k], a, m) && p in m.peers && Lists(rd.order)
    ensures Usable(Wire(p, rd)) && p.id != 0 && !HasDefault(Parsed(Wire(p, rd).ips))
    ensures HasDefault(Parsed(Wire(p, rd).routes)) <==> ExitStands(ss, es, k, p.id, rd)
    ensures R.InNet(ss[k].db.nodes, ss[k].db.nodes[a].net, p.id) && p.id != a
    ensures p.hostname == ss[k].db.nodes[p.id].hostname && IsName(p.hostname)
  {
    var s := ss[k];
    R.RunKeeps(ss, es, k);
    R.SnapshotLists(s, a, m, p.id);
    assert R.HasPeer(m.peers, p.id) && R.IsEntry(s.db.nodes, s.online, s.db.routes, p);
    assert S.RowOk(s.db.networks, s.db.lastId, s.born, p.id, s.db.nodes[p.id]);
    M.KeyLength(M.NODE_PREFIX, s.db.nodes[p.id].nodeKey);
    HostsOnWire(p.ips[0], p.ips[1], p, rd);
    RoutesOnWire(p, rd);
    forall r: string ensures r in p.routes <==> CR.ApprovalStands(ss, es, k, p.id, r) {
      CR.ApprovedRoutesAreStanding(ss, es, k, a, m, p, r);
    }
  }

  /** All overlay addresses in a snapshot are those of hosts. */
  lemma SnapshotHosts(ss: seq<M.State>, es: seq<M.Event>, k: nat, a: nat, m: M.NetMap, rd: Reader)
    requires R.IsRun(ss, es) && k <= |es| && R.IsSnapshot(ss[k], a, m) && Lists(rd.order)
    ensures HostsOnly(WireAll(m.peers, rd))
  {
    var ws := WireAll(m.peers, rd);
    forall w | w in ws ensures !HasDefault(Parsed(w.ips)) {
      var i :| 0 <= i < |ws| && ws[i] == w;
      EntryOnWire(ss, es, k, a, m, rd, m.peers[i]);
    }
  }

  /** The daemon takes over every other live node of the network and nobody else. */
  lemma SeenOnWire(ss: seq<M.State>, es: seq<M.Event>, k: nat, a: nat, m: M.NetMap, rd: Reader, id: nat)
    requires R.IsRun(ss, es) && k <= |es| && R.IsSnapshot(ss[k], a, m) && Lists(rd.order)
    ensures id in Seen(WireAll(m.peers, rd)) <==> R.InNet(ss[k].db.nodes, ss[k].db.nodes[a].net, id) && id != a
  {
    R.SnapshotsAgree(ss, es, k, a, m, id);
    forall p | p in m.peers ensures Usable(Wire(p, rd)) { EntryOnWire(ss, es, k, a, m, rd, p); }
    SeenIs(m.peers, rd, id);
  }

  /** Under its own name, and with a default route exactly while its approval stands. */
  lemma PeerOnWire(ss: seq<M.State>, es: seq<M.Event>, k: nat, a: nat, m: M.NetMap, rd: Reader, id: nat)
    requires R.IsRun(ss, es) && k <= |es| && R.IsSnapshot(ss[k], a, m) && Lists(rd.order)
    requires id in Seen(WireAll(m.peers, rd))
    ensures var w, nodes := LastFor(WireAll(m.peers, rd), id), ss[k].db.nodes;
            && id != 0 && R.InNet(nodes, nodes[a].net, id)
            && w.hostname == nodes[id].hostname && IsName(w.hostname) && !HasDefault(Parsed(w.ips))
            && (HasDefault(Parsed(w.routes)) <==> ExitStands(ss, es, k, id, rd))
  {
    var ws := WireAll(m.peers, rd);
    var i :| 0 <= i < |ws| && ws[i] == LastFor(ws, id);
    EntryOnWire(ss, es, k, a, m, rd, m.peers[i]);
  }

  /** Whatever the daemon went through before, its exit peer is determined by the name. */
  lemma ExitIsUnique(ss: seq<M.State>, es: seq<M.Event>, k: nat, a: nat, m: M.NetMap, rd: Reader,
                     h: seq<Event>, exitNode: string, fold: char -> char, i: nat, j: nat)
    requires R.IsRun(ss, es) && k <= |es| && R.IsSnapshot(ss[k], a, m) && Lists(rd.order)
    requires LastNetMap(h) == WireAll(m.peers, rd)
    requires forall c, d :: NameChar(c) && NameChar(d) && fold(c) == fold(d) ==> c == d
    requires IsCandidate(Replay(h), i, exitNode, fold) && IsCandidate(Replay(h), j, exitNode, fold)
    ensures i == j
  {
    var s, t := ss[k], Replay(h);
    forall x | x in t ensures x in s.db.nodes && t[x].hostname == s.db.nodes[x].hostname && IsName(t[x].hostname)
                              && s.db.nodes[x].net == s.db.nodes[a].net {
      MergeIsRebuild(h, x);
      PeerOnWire(ss, es, k, a, m, rd, x);
    }
    R.RunKeeps(ss, es, k);
    forall x, y | x in t && y in t && x != y ensures t[x].hostname != t[y].hostname {
      assert S.Apart(s.db.nodes[x], s.db.nodes[y]);
    }
    ExitChoiceIsUnique(t, exitNode, fold, i, j);
  }

  /** And a config carries a default route exactly when it is that of the selected exit
      peer and the approval of one of that node's exit routes stands. */
  lemma DefaultRouteIsStanding(ss: seq<M.State>, es: seq<M.Event>, k: nat, a: nat, m: M.NetMap, rd: Reader,
                               h: seq<Event>, id: nat, exitPeer: nat, relayUp: bool)
    requires R.IsRun(ss, es) && k <= |es| && R.IsSnapshot(ss[k], a, m) && Lists(rd.order)
    requires LastNetMap(h) == WireAll(m.peers, rd)
    requires id in Replay(h) && ConfigOf(Replay(h)[id], exitPeer, relayUp).Some?
    ensures HasDefault(ConfigOf(Replay(h)[id], exitPeer, relayUp).value.allowed)
       <==> id == exitPeer && ExitStands(ss, es, k, id, rd)
  {
    DefaultRouteIff(h, id, exitPeer, relayUp);
    PeerOnWire(ss, es, k, a, m, rd, id);
  }

  // ---------------------------------------------------------------- everything a config says

  /** x is a route of the node whose approval stands. */
  ghost predicate RouteStands(ss: seq<M.State>, es: seq<M.Event>, k: nat, id: nat, rd: Reader, x: Prefix)
    requires |ss| == |es| + 1 && k <= |es|
  {
    exists r: string :: CR.ApprovalStands(ss, es, k, id, r) && rd.route(r) == Some(x)
  }

  /** x is one of the node's own addresses, as a host prefix. */
  predicate IsHost(s: M.State, id: nat, x: Prefix) {
    && id in s.db.nodes
    && var n := s.db.nodes[id]; x == Prefix(n.ip4, 32) || (n.ip6.V6? && x == Prefix(n.ip6, 128))
  }

  lemma AddressesOnWire(s: M.State, p: M.PeerInfo, rd: Reader, x: Prefix)
    requires S.StoreOk(s) && R.IsEntry(s.db.nodes, s.online, s.db.routes, p)
    ensures Some(x) in Wire(p, rd).ips <==> IsHost(s, p.id, x)
  {
    assert S.RowOk(s.db.networks, s.db.lastId, s.born, p.id, s.db.nodes[p.id]);
    PairOnWire(s.db.nodes[p.id].ip4, s.db.nodes[p.id].ip6, p, rd, x);
  }

  lemma PairOnWire(ip4: Addr, ip6: Addr, p: M.PeerInfo, rd: Reader, x: Prefix)
    requires ip4.V4? && p.ips == [F.Cidr(ip4, 32), F.Cidr(ip6, 128)]
    ensures Some(x) in Wire(p, rd).ips <==> x == Prefix(ip4, 32) || (ip6.V6? && x == Prefix(ip6, 128))
  {
    assert Wire(p, rd).ips == [F.ParsePrefix(p.ips[0]), F.ParsePrefix(p.ips[1])];
  }

  lemma RouteOnWire(p: M.PeerInfo, rd: Reader, x: Prefix)
    requires Lists(rd.order)
    ensures Some(x) in Wire(p, rd).routes <==> exists r: string :: r in p.routes && rd.route(r) == Some(x)
  {
    var rs, cs := rd.order(p.routes), Wire(p, rd).routes;
    if Some(x) in cs {
      var i :| 0 <= i < |cs| && cs[i] == Some(x);
      assert rs[i] in rs && rs[i] in p.routes;
    }
    if r: string :| r in p.routes && rd.route(r) == Some(x) {
      assert r in rs;
      var i :| 0 <= i < |rs| && rs[i] == r;
      assert cs[i] == Some(x);
    }
  }

  /** The entry of a peer on the wire carries its key, its presence, its addresses and
      the routes whose approval stands. */
  lemma PrefixesOnWire(ss: seq<M.State>, es: seq<M.Event>, k: nat, a: nat, m: M.NetMap, rd: Reader, p: M.PeerInfo,
                       x: Prefix)
    requires R.IsRun(ss, es) && k <= |es| && R.IsSnapshot(ss[k], a, m) && p in m.peers && Lists(rd.order)
    ensures Some(x) in Wire(p, rd).ips <==> IsHost(ss[k], p.id, x)
    ensures Some(x) in Wire(p, rd).routes <==> RouteStands(ss, es, k, p.id, rd, x)
    ensures p.id in ss[k].db.nodes && M.ParseKey(M.NODE_PREFIX, ss[k].db.nodes[p.id].nodeKey) == Some(p.nodeKey)
    ensures p.online == M.IsOnline(ss[k].online, p.id)
  {
    var s := ss[k];
    R.RunKeeps(ss, es, k);
    R.SnapshotLists(s, a, m, p.id);
    assert R.IsEntry(s.db.nodes, s.online, s.db.routes, p);
    assert S.RowOk(s.db.networks, s.db.lastId, s.born, p.id, s.db.nodes[p.id]);
    AddressesOnWire(s, p, rd, x);
    RouteOnWire(p, rd, x);
    forall r: string ensures r in p.routes <==> CR.ApprovalStands(ss, es, k, p.id, r) {
      CR.ApprovedRoutesAreStanding(ss, es, k, a, m, p, r);
    }
  }

  /** The config is that of node id in state k: its key, and as prefixes its own addresses
      and its standing routes, of which a default route only for the exit peer. */
  ghost predicate Follows(ss: seq<M.State>, es: seq<M.Event>, k: nat, id: nat, rd: Reader, exitPeer: nat,
                          key: seq<byte>, allowed: seq<Prefix>)
    requires |ss| == |es| + 1 && k <= |es|
  {
    && id in ss[k].db.nodes && M.ParseKey(M.NODE_PREFIX, ss[k].db.nodes[id].nodeKey) == Some(key)
    && forall x :: x in allowed <==>
         IsHost(ss[k], id, x) || (RouteStands(ss, es, k, id, rd, x) && (x.bits != 0 || id == exitPeer))
  }

  lemma ConfigFollows(ss: seq<M.State>, es: seq<M.Event>, k: nat, a: nat, m: M.NetMap, rd: Reader,
                      h: seq<Event>, id: nat, exitPeer: nat, relayUp: bool)
    requires R.IsRun(ss, es) && k <= |es| && R.IsSnapshot(ss[k], a, m) && Lists(rd.order)
    requires LastNetMap(h) == WireAll(m.peers, rd)
    requires id in Replay(h) && ConfigOf(Replay(h)[id], exitPeer, relayUp).Some?
    ensures var c := ConfigOf(Replay(h)[id], exitPeer, relayUp).value;
            Follows(ss, es, k, id, rd, exitPeer, c.key, c.allowed)
  {
    var ws, c := WireAll(m.peers, rd), ConfigOf(Replay(h)[id], exitPeer, relayUp).value;
    MergeIsRebuild(h, id);
    var n :| 0 <= n < |ws| && ws[n] == LastFor(ws, id);
    var p := m.peers[n];
    assert ws[n] == Wire(p, rd) && p in m.peers && p.id == id;
    forall x ensures x in c.allowed <==>
              IsHost(ss[k], id, x) || (RouteStands(ss, es, k, id, rd, x) && (x.bits != 0 || id == exitPeer))
    {
      ConfigIff(h, id, exitPeer, relayUp, x);
      PrefixesOnWire(ss, es, k, a, m, rd, p, x);
    }
    ConfigIff(h, id, exitPeer, relayUp, Prefix(V4(0), 0));
    PrefixesOnWire(ss, es, k, a, m, rd, p, Prefix(V4(0), 0));
  }

  /** While the relay is up every other live node of the network that is online has a
      config, whatever paths were found. */
  lemma OnlineIsReachable(ss: seq<M.State>, es: seq<M.Event>, k: nat, a: nat, m: M.NetMap, rd: Reader,
                          h: seq<Event>, id: nat, exitPeer: nat)
    requires R.IsRun(ss, es) && k <= |es| && R.IsSnapshot(ss[k], a, m) && Lists(rd.order)
    requires LastNetMap(h) == WireAll(m.peers, rd)
    requires R.InNet(ss[k].db.nodes, ss[k].db.nodes[a].net, id) && id != a && M.IsOnline(ss[k].online, id)
    ensures id in Replay(h) && ConfigOf(Replay(h)[id], exitPeer, true).Some?
  {
    var ws := WireAll(m.peers, rd);
    SeenOnWire(ss, es, k, a, m, rd, id);
    MergeIsRebuild(h, id);
    var n :| 0 <= n < |ws| && ws[n] == LastFor(ws, id);
    PrefixesOnWire(ss, es, k, a, m, rd, m.peers[n], Prefix(V4(0), 0));
    WayOfPeer(Replay(h)[id], exitPeer, true);
  }

  /** The i-th netmap of any stream of any run, applied by a daemon in any state: it is
      a snapshot of some state j, and what WireGuard is given follows that state. */
  method Receive(d: Daemon, m: M.NetMap, rd: Reader, fold: char -> char,
                 ghost ss: seq<M.State>, ghost es: seq<M.Event>, ghost k: nat, ghost c: nat, ghost i: nat)
    returns (out: seq<PeerConfig>, ghost ids: seq<nat>, ghost j: nat)
    requires d.Valid() && d.Tracks() && Lists(rd.order)
    requires R.IsRun(ss, es) && k <= |es| && c in ss[k].maps.chans && i < |R.StreamOf(ss[k].maps, c)|
    requires m == R.StreamOf(ss[k].maps, c)[i]
    modifies d, d.Repr
    ensures d.Valid() && d.Tracks() && d.HandsOutMore()
    ensures j <= k && R.IsSnapshot(ss[j], ss[k].maps.chans[c].owner, m)
    ensures |ids| == |out| && Distinct(ids)
    ensures forall n :: 0 <= n < |out| ==>
              (HasDefault(out[n].allowed[..]) <==> ids[n] == d.exitPeer && ExitStands(ss, es, j, ids[n], rd))
    ensures forall n :: 0 <= n < |out| ==>
              Follows(ss, es, j, ids[n], rd, d.exitPeer, out[n].key, out[n].allowed[..])
    ensures SelectsExit(d.View(), d.exitPeer, d.exitNode, fold)
    ensures (forall x, y :: NameChar(x) && NameChar(y) && fold(x) == fold(y) ==> x == y) ==>
              forall id :: IsCandidate(d.View(), id, d.exitNode, fold) && d.exitNode != "" ==> id == d.exitPeer
  {
    j := R.EveryMapIsASnapshot(ss, es, k, c, i);
    ghost var a := ss[k].maps.chans[c].owner;
    out, ids := d.ApplyNetMap(WireAll(m.peers, rd), fold);
    ghost var h := d.hist;
    assert LastNetMap(h) == WireAll(m.peers, rd);
    forall n | 0 <= n < |out|
      ensures HasDefault(out[n].allowed[..]) <==> ids[n] == d.exitPeer && ExitStands(ss, es, j, ids[n], rd)
    {
      assert IsConfig(d.View(), ids[n], out[n], d.exitPeer, d.relayUp);
      DefaultRouteIsStanding(ss, es, j, a, m, rd, h, ids[n], d.exitPeer, d.relayUp);
    }
    forall n | 0 <= n < |out| ensures Follows(ss, es, j, ids[n], rd, d.exitPeer, out[n].key, out[n].allowed[..]) {
      assert IsConfig(d.View(), ids[n], out[n], d.exitPeer, d.relayUp);
      ConfigFollows(ss, es, j, a, m, rd, h, ids[n], d.exitPeer, d.relayUp);
    }
    if forall x, y :: NameChar(x) && NameChar(y) && fold(x) == fold(y) ==> x == y {
      forall id | IsCandidate(d.View(), id, d.exitNode, fold) && d.exitNode != "" ensures id == d.exitPeer {
        ExitIsUnique(ss, es, j, a, m, rd, h, d.exitNode, fold, id, d.exitPeer);
      }
    }
  }
}
