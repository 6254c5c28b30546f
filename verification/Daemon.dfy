/** The daemon's objects: peer records whose slices are refilled in place, the merge
    loop, and configs that share no memory with the records. */
module DaemonObject {
  import opened Prelude
  import opened Numerals
  import opened Net
  import opened DaemonPeers

  /** append on a slice of length n: in place while there is room, else a new array. */
  method Append(a: array<Prefix>, n: nat, x: Prefix) returns (b: array<Prefix>)
    requires n <= a.Length
    modifies a
    ensures n + 1 <= b.Length && b[..n + 1] == old(a[..n]) + [x]
    ensures b == a || fresh(b)
  {
    if n < a.Length {
      a[n] := x;
      b := a;
    } else {
      b := new Prefix[2 * n + 1];
      forall i | 0 <= i < n { b[i] := a[i]; }
      b[n] := x;
    }
  }

  /** Refill a slice from its start with the CIDRs that parse. */
  method Refill(a: array<Prefix>, cs: seq<Option<Prefix>>) returns (b: array<Prefix>, n: nat)
    modifies a
    ensures n <= b.Length && b[..n] == Parsed(cs) && (b == a || fresh(b))
  {
    b, n := a, 0;
    for i := 0 to |cs|
      invariant n <= b.Length && b[..n] == Parsed(cs[..i]) && (b == a || fresh(b))
    {
      assert cs[..i + 1][..i] == cs[..i];
      if cs[i].Some? {
        b := Append(b, n, cs[i].value);
        n := n + 1;
      }
    }
    assert cs[..|cs|] == cs;
  }

  /** Routes are told apart by their length: default routes are exit routes. */
  method Split(a: array<Prefix>, e: array<Prefix>, cs: seq<Option<Prefix>>)
    returns (a': array<Prefix>, n: nat, e': array<Prefix>, m: nat)
    requires a != e
    modifies a, e
    ensures n <= a'.Length && a'[..n] == Keep(Parsed(cs), false) && (a' == a || fresh(a'))
    ensures m <= e'.Length && e'[..m] == Keep(Parsed(cs), true) && (e' == e || fresh(e'))
    ensures a' != e'
  {
    a', n, e', m := a, 0, e, 0;
    for i := 0 to |cs|
      invariant n <= a'.Length && a'[..n] == Keep(Parsed(cs[..i]), false) && (a' == a || fresh(a'))
      invariant m <= e'.Length && e'[..m] == Keep(Parsed(cs[..i]), true) && (e' == e || fresh(e'))
      invariant a' != e'
    {
      assert cs[..i + 1][..i] == cs[..i];
      if cs[i].Some? {
        KeepNext(Parsed(cs[..i]), cs[i].value, false);
        KeepNext(Parsed(cs[..i]), cs[i].value, true);
        assert Parsed(cs[..i + 1]) == Parsed(cs[..i]) + [cs[i].value];
        if cs[i].value.bits == 0 {
          e' := Append(e', m, cs[i].value);
          m := m + 1;
        } else {
          a' := Append(a', n, cs[i].value);
          n := n + 1;
        }
      } else {
        assert Parsed(cs[..i + 1]) == Parsed(cs[..i]);
      }
    }
    assert cs[..|cs|] == cs;
  }

  /** A config as it is handed to WireGuard; its prefixes are an array of their own. */
  datatype PeerConfig = PeerConfig(key: seq<byte>, allowed: array<Prefix>, endpoint: Option<string>, relay: bool)

  ghost function Rendered(c: PeerConfig): Config
    reads c.allowed
  {
    Config(c.key, c.allowed[..], c.endpoint, c.relay)
  }

  ghost predicate IsConfig(t: Table, id: nat, c: PeerConfig, exitPeer: nat, relayUp: bool)
    reads c.allowed
  {
    id in t && ConfigOf(t[id], exitPeer, relayUp) == Some(Rendered(c))
  }

  ghost predicate EachConfig(t: Table, ids: seq<nat>, out: seq<PeerConfig>, exitPeer: nat, relayUp: bool)
    requires |ids| == |out|
    reads set c | c in out :: c.allowed
  {
    forall i :: 0 <= i < |out| ==> IsConfig(t, ids[i], out[i], exitPeer, relayUp)
  }

  /** out holds, in order, the configs of the peers listed. */
  ghost predicate AreConfigs(t: Table, ids: seq<nat>, out: seq<PeerConfig>, exitPeer: nat, relayUp: bool)
    reads set c | c in out :: c.allowed
  {
    |ids| == |out| && EachConfig(t, ids, out, exitPeer, relayUp)
  }

  lemma ConfigsNext(t: Table, ids: seq<nat>, out: seq<PeerConfig>, exitPeer: nat, relayUp: bool, id: nat, c: PeerConfig)
    requires AreConfigs(t, ids, out, exitPeer, relayUp) && IsConfig(t, id, c, exitPeer, relayUp)
    ensures AreConfigs(t, ids + [id], out + [c], exitPeer, relayUp)
  {
  }

  lemma OnlyExitHasDefault(t: Table, ws: seq<WirePeer>, ids: seq<nat>, out: seq<PeerConfig>, exitPeer: nat,
                           relayUp: bool)
    requires HostsOnly(ws) && AreConfigs(Merge(t, ws), ids, out, exitPeer, relayUp)
    ensures forall i :: 0 <= i < |out| && HasDefault(out[i].allowed[..]) ==> ids[i] == exitPeer
  {
    forall i | 0 <= i < |out| && HasDefault(out[i].allowed[..]) ensures ids[i] == exitPeer {
      assert IsConfig(Merge(t, ws), ids[i], out[i], exitPeer, relayUp);
      HostsOnlyExit(t, ws, ids[i], exitPeer);
    }
  }

  /** What the arrays of these configs hold. */
  ghost function Contents(out: seq<PeerConfig>): (m: map<array<Prefix>, seq<Prefix>>)
    reads set c | c in out :: c.allowed
    ensures forall a :: a in m ==> m[a] == a[..] && exists c :: c in out && c.allowed == a
    ensures forall c :: c in out ==> c.allowed in m
  {
    map a | a in (set c | c in out :: c.allowed) :: a[..]
  }

  class PeerRecord {
    const id: nat
    var key: seq<byte>
    var hostname: string
    var online: bool
    var endpoints: seq<Option<string>>
    var allowed: array<Prefix>
    var allowedLen: nat
    var subnets: array<Prefix>
    var subnetsLen: nat
    var exits: array<Prefix>
    var exitsLen: nat
    var path: Path
    ghost var repr: set<object>

    /** The record and its three slices, which do not overlap. */
    ghost predicate Valid()
      reads this, repr
    {
      && this in repr && allowed in repr && subnets in repr && exits in repr
      && allowedLen <= allowed.Length && subnetsLen <= subnets.Length && exitsLen <= exits.Length
      && allowed != subnets && allowed != exits && subnets != exits
    }

    ghost function View(): Peer
      requires Valid()
      reads this, repr
    {
      Peer(id, key, hostname, online, endpoints, allowed[..allowedLen], subnets[..subnetsLen], exits[..exitsLen], path)
    }

    constructor (n: nat)
      ensures Valid() && fresh(repr) && id == n && path == NO_PATH
    {
      id, key, hostname, online, endpoints, path := n, [], "", false, [], NO_PATH;
      allowed, allowedLen := new Prefix[0], 0;
      subnets, subnetsLen := new Prefix[0], 0;
      exits, exitsLen := new Prefix[0], 0;
      repr := {this, allowed, subnets, exits};
    }

    /** Overwrite what the netmap says, refilling the slices in place; the path stays. */
    method Refresh(w: WirePeer)
      requires Valid() && w.id == id
      modifies repr
      ensures Valid() && fresh(repr - old(repr)) && View() == Loaded(w, old(path))
    {
      key, hostname, online, endpoints := w.key, w.hostname, w.online, w.endpoints;
      RefreshAllowed(w.ips);
      RefreshRoutes(w.routes);
    }

    method RefreshAllowed(ips: seq<Option<Prefix>>)
      requires Valid()
      modifies this`allowed, this`allowedLen, this`repr, allowed
      ensures Valid() && fresh(repr - old(repr)) && allowed[..allowedLen] == Parsed(ips)
    {
      allowed, allowedLen := Refill(allowed, ips);
      repr := repr + {allowed};
    }

    method RefreshRoutes(routes: seq<Option<Prefix>>)
      requires Valid()
      modifies this`subnets, this`subnetsLen, this`exits, this`exitsLen, this`repr, subnets, exits
      ensures Valid() && fresh(repr - old(repr))
      ensures subnets[..subnetsLen] == Keep(Parsed(routes), false) && exits[..exitsLen] == Keep(Parsed(routes), true)
    {
      subnets, subnetsLen, exits, exitsLen := Split(subnets, exits, routes);
      repr := repr + {subnets, exits};
    }

    method SetPath(p: Path)
      requires Valid()
      modifies this
      ensures Valid() && repr == old(repr) && View() == old(View()).(path := p)
    {
      path := p;
    }

    /** The prefixes of a config are copied into a new array. */
    method Allowed(exitPeer: nat) returns (out: array<Prefix>)
      requires Valid()
      ensures fresh(out) && out[..] == AllowedOf(View(), exitPeer)
    {
      var n := allowedLen + subnetsLen + if id == exitPeer then exitsLen else 0;
      out := new Prefix[n];
      forall i | 0 <= i < allowedLen { out[i] := allowed[i]; }
      forall i | 0 <= i < subnetsLen { out[allowedLen + i] := subnets[i]; }
      if id == exitPeer {
        forall i | 0 <= i < exitsLen { out[allowedLen + subnetsLen + i] := exits[i]; }
      }
    }

    /** The endpoint and whether the relay carries the traffic. */
    method Ladder(relayUp: bool) returns (endpoint: Option<string>, relay: bool)
      requires Valid()
      ensures LadderOf(View(), relayUp) == (endpoint, relay)
    {
      endpoint, relay := None, false;
      if path.state == Direct && path.endpoint.Some? {
        endpoint := path.endpoint;
      } else if relayUp && online {
        relay := true;
      } else {
        var i := 0;
        while i < |endpoints| && endpoints[i].None?
          invariant i <= |endpoints| && FirstParsed(endpoints) == FirstParsed(endpoints[i..])
        {
          assert endpoints[i..][1..] == endpoints[i + 1..];
          i := i + 1;
        }
        if i < |endpoints| { endpoint := endpoints[i]; }
      }
    }

    method Render(exitPeer: nat, relayUp: bool) returns (c: Option<PeerConfig>)
      requires Valid()
      ensures c.Some? <==> ConfigOf(View(), exitPeer, relayUp).Some?
      ensures c.Some? ==>
                && fresh(c.value.allowed)
                && Rendered(c.value) == ConfigOf(View(), exitPeer, relayUp).value
    {
      var ips := Allowed(exitPeer);
      var endpoint, relay := Ladder(relayUp);
      c := if endpoint.Some? || relay then Some(PeerConfig(key, ips, endpoint, relay)) else None;
    }
  }

  class Daemon {
    var peers: map<nat, PeerRecord>
    var exitNode: string
    var exitPeer: nat
    var relayUp: bool
    ghost var Repr: set<object>
    ghost var handed: map<array<Prefix>, seq<Prefix>>
    ghost var hist: seq<Event>

    /** Records share no memory with each other. */
    ghost predicate Shape()
      reads this`peers, this`Repr, Repr, peers.Values
    {
      this !in Repr && Owned() && RecordsValid() && Apart()
    }

    ghost predicate Owned()
      reads this`peers, this`Repr, peers.Values
    {
      forall id :: id in peers ==> peers[id].repr <= Repr && peers[id].id == id
    }

    ghost predicate RecordsValid()
      requires Owned()
      reads this`peers, this`Repr, Repr, peers.Values
    {
      forall id :: id in peers ==> peers[id].Valid()
    }

    ghost predicate Apart()
      reads this`peers, peers.Values
    {
      forall i, j :: i in peers && j in peers && i != j ==> peers[i].repr !! peers[j].repr
    }

    /** No array handed out is part of any record, and each still holds what it held then. */
    ghost predicate Kept()
      reads this`Repr, this`handed, handed.Keys
    {
      forall a :: a in handed ==> a !in Repr && a[..] == handed[a]
    }

    ghost predicate Valid()
      reads this`peers, this`Repr, this`handed, Repr, peers.Values, handed.Keys
    {
      Shape() && Kept()
    }

    ghost function View(): Table
      requires Shape()
      reads this`peers, this`Repr, Repr, peers.Values
    {
      map id | id in peers :: peers[id].View()
    }

    constructor (exit: string)
      ensures Valid() && Tracks() && hist == [] && exitPeer == 0 && exitNode == exit && handed == map[]
    {
      peers, exitNode, exitPeer, relayUp := map[], exit, 0, false;
      Repr, handed, hist := {}, map[], [];
    }

    /** The table is the result of every netmap applied and path reported so far. */
    ghost predicate Tracks()
      requires Shape()
      reads this`peers, this`Repr, this`hist, Repr, peers.Values
    {
      View() == Replay(hist)
    }

    method Enter(id: nat)
      requires Valid() && id !in peers
      modifies this`peers, this`Repr
      ensures Valid() && fresh(Repr - old(Repr)) && id in peers && peers == old(peers)[id := peers[id]]
      ensures peers[id].path == NO_PATH
      ensures forall j :: j in old(peers) ==> peers[j].View() == old(peers[j].View())
    {
      var r := new PeerRecord(id);
      peers := peers[id := r];
      Repr := Repr + r.repr;
      assert Owned() && RecordsValid();
      assert Apart();
    }

    method EnterIfNew(id: nat)
      requires Valid()
      modifies this`peers, this`Repr
      ensures Valid() && fresh(Repr - old(Repr)) && id in View() && View().Keys == old(View()).Keys + {id}
      ensures forall j :: j in old(View()) ==> View()[j] == old(View())[j]
      ensures View()[id].path == PathIn(old(View()), id)
    {
      if id !in peers { Enter(id); }
    }

    method Update(w: WirePeer)
      requires Valid() && w.id in peers
      modifies this`Repr, peers[w.id].repr
      ensures Valid() && fresh(Repr - old(Repr)) && peers[w.id].View() == Loaded(w, old(peers[w.id].path))
      ensures forall j :: j in peers && j != w.id ==> peers[j].View() == old(peers[j].View())
    {
      RefreshAt(w);
      Adopt(w.id);
    }

    /** All is well but that one record has outgrown Repr. */
    ghost predicate Outgrown(id: nat)
      reads this`peers, this`Repr, this`handed, peers.Values, handed.Keys
      reads set j, o | j in peers && o in peers[j].repr :: o
    {
      && id in peers && this !in Repr && Kept() && Apart()
      && (forall j :: j in peers ==> peers[j].Valid() && peers[j].id == j && this !in peers[j].repr)
      && (forall j :: j in peers && j != id ==> peers[j].repr <= Repr)
      && (forall a :: a in handed ==> a !in peers[id].repr)
    }

    ghost method Adopt(id: nat)
      requires Outgrown(id)
      modifies this`Repr
      ensures Valid() && Repr == old(Repr) + peers[id].repr
      ensures forall j :: j in peers ==> peers[j].View() == old(peers[j].View())
    {
      Repr := Repr + peers[id].repr;
      assert Owned() && RecordsValid();
    }

    /** Refreshing one record leaves the others alone, and takes only new memory. */
    method RefreshAt(w: WirePeer)
      requires Valid() && w.id in peers
      modifies peers[w.id].repr
      ensures var r := peers[w.id];
              r.Valid() && fresh(r.repr - old(r.repr)) && r.View() == Loaded(w, old(r.path))
      ensures Outgrown(w.id)
      ensures forall j :: j in peers && j != w.id ==> peers[j].View() == old(peers[j].View())
    {
      var r := peers[w.id];
      r.Refresh(w);
      forall j | j in peers && j != w.id ensures peers[j].repr == old(peers[j].repr) && peers[j].repr !! r.repr {
        assert peers[j] in old(peers[j].repr) && peers[j] !in old(r.repr);
      }
      forall i, j | i in peers && j in peers && i != j ensures peers[i].repr !! peers[j].repr {
        if i != w.id && j != w.id { assert old(peers[i].repr) !! old(peers[j].repr); }
      }
    }

    /** One record changed, the others did not. */
    twostate lemma ViewChanged(id: nat)
      requires old(Shape()) && Shape() && peers == old(peers) && id in peers
      requires forall j :: j in peers && j != id ==> peers[j].View() == old(peers[j].View())
      ensures View() == old(View())[id := peers[id].View()]
    {
    }

    method UpdateView(w: WirePeer)
      requires Valid() && w.id in View()
      modifies this`Repr, Repr
      ensures Valid() && fresh(Repr - old(Repr)) && View() == old(View())[w.id := Loaded(w, old(View())[w.id].path)]
    {
      Update(w);
      ViewChanged(w.id);
    }

    /** One turn of the merge loop. */
    method Upsert(w: WirePeer)
      requires Valid()
      modifies this`peers, this`Repr, Repr
      ensures Valid() && fresh(Repr - old(Repr))
      ensures View() == old(View())[w.id := Loaded(w, PathIn(old(View()), w.id))]
    {
      ghost var t := View();
      EnterIfNew(w.id);
      ghost var t1 := View();
      UpdateView(w);
      UpsertSteps(t, t1, View(), w);
    }

    method MergeLoop(ws: seq<WirePeer>) returns (seen: set<nat>)
      requires Valid()
      modifies this`peers, this`Repr, Repr
      ensures Valid() && fresh(Repr - old(Repr)) && seen == Seen(ws) && View() == Upserted(old(View()), ws)
    {
      seen := {};
      for i := 0 to |ws|
        invariant Valid() && fresh(Repr - old(Repr))
        invariant seen == Seen(ws[..i]) && View() == Upserted(old(View()), ws[..i])
      {
        var w := ws[i];
        assert ws[..i + 1] == ws[..i] + [w] && ws[..i + 1][..i] == ws[..i];
        SeenNext(ws[..i], w);
        if |w.key| == 32 {
          seen := seen + {w.id};
          Upsert(w);
        }
      }
      assert ws[..|ws|] == ws;
    }

    method DropLoop(seen: set<nat>)
      modifies this`peers
      ensures peers.Keys == old(peers).Keys * seen && forall id :: id in peers ==> peers[id] == old(peers)[id]
    {
      ghost var was := peers;
      var left := peers.Keys;
      while left != {}
        invariant left <= peers.Keys <= was.Keys
        invariant forall id :: id in was ==> (id in peers <==> id in left || id in seen)
        invariant forall id :: id in peers ==> peers[id] == was[id]
        decreases |left|
      {
        var id :| id in left;
        left := left - {id};
        if id !in seen { peers := peers - {id}; }
      }
    }

    method DropRecords(seen: set<nat>)
      requires Valid()
      modifies this`peers
      ensures Valid() && peers.Keys == old(peers).Keys * seen
      ensures forall id :: id in peers ==> peers[id].View() == old(peers[id].View())
    {
      DropLoop(seen);
    }

    method DropUnseen(seen: set<nat>)
      requires Valid()
      modifies this`peers
      ensures Valid() && View() == Only(old(View()), seen)
    {
      DropRecords(seen);
    }

    ghost method Record(e: Event)
      requires Valid()
      modifies this`hist
      ensures Valid() && View() == old(View()) && hist == old(hist) + [e]
    {
      hist := hist + [e];
      assert Shape() && View() == old(View());
    }

    method MergeRecords(ws: seq<WirePeer>)
      requires Valid()
      modifies this`peers, this`Repr, Repr
      ensures Valid() && fresh(Repr - old(Repr)) && View() == Merge(old(View()), ws)
    {
      ghost var t := View();
      var seen := MergeLoop(ws);
      DropUnseen(seen);
      LoopsMerge(t, ws);
    }

    /** Merge the listed peers into the records, then drop those not listed.  Nothing
        handed out before changes. */
    method MergePeers(ws: seq<WirePeer>)
      requires Valid() && Tracks()
      modifies this`peers, this`Repr, this`hist, Repr
      ensures Valid() && Tracks() && fresh(Repr - old(Repr)) && hist == old(hist) + [Applies(ws)]
      ensures View() == Merge(old(View()), ws)
    {
      ghost var t, h := View(), hist;
      ReplayNext(h, Applies(ws), t);
      MergeRecords(ws);
      Record(Applies(ws));
    }

    /** A peer that may be the exit, in whatever order the peers are visited. */
    method FindExit(fold: char -> char, ghost t: Table) returns (r: Option<nat>)
      requires Valid() && View() == t
      ensures Valid() && View() == t
      ensures r.Some? <==> exists id :: IsCandidate(t, id, exitNode, fold)
      ensures r.Some? ==> IsCandidate(t, r.value, exitNode, fold)
    {
      var left := peers.Keys;
      while left != {}
        invariant left <= peers.Keys
        invariant forall id :: IsCandidate(t, id, exitNode, fold) ==> id in left
        decreases |left|
      {
        var id :| id in left;
        left := left - {id};
        assert t[id] == peers[id].View();
        if EqualFold(peers[id].hostname, exitNode, fold) && peers[id].exitsLen > 0 {
          assert IsCandidate(t, id, exitNode, fold);
          return Some(id);
        }
      }
      return None;
    }

    method SelectExitPeer(fold: char -> char)
      requires Valid()
      modifies this`exitPeer
      ensures Valid() && View() == old(View()) && SelectsExit(View(), exitPeer, exitNode, fold)
    {
      ghost var t := View();
      var id := ChooseExit(fold, t);
      SetExit(id);
    }

    method ChooseExit(fold: char -> char, ghost t: Table) returns (id: nat)
      requires Valid() && View() == t
      ensures SelectsExit(t, id, exitNode, fold) && Valid() && View() == t
    {
      id := 0;
      if exitNode != "" {
        var r := FindExit(fold, t);
        if r.Some? { id := r.value; }
      }
    }

    method SetExit(id: nat)
      requires Valid()
      modifies this`exitPeer
      ensures Valid() && View() == old(View()) && exitPeer == id
    {
      exitPeer := id;
      assert Shape() && View() == old(View());
    }

    /** Earlier arrays stay handed out with their contents. */
    twostate predicate HandsOutMore()
      reads this`handed
    {
      forall a :: a in old(handed) ==> a in handed && handed[a] == old(handed)[a]
    }

    method RenderAt(id: nat, ghost t: Table) returns (c: Option<PeerConfig>)
      requires Valid() && id in peers && View() == t
      ensures Valid() && View() == t
      ensures c.Some? <==> ConfigOf(t[id], exitPeer, relayUp).Some?
      ensures c.Some? ==> fresh(c.value.allowed) && IsConfig(t, id, c.value, exitPeer, relayUp)
    {
      c := peers[id].Render(exitPeer, relayUp);
    }

    /** The arrays of these configs belong to nobody yet. */
    ghost predicate AllNew(out: seq<PeerConfig>)
      reads this`Repr, this`handed
    {
      forall c :: c in out ==> c.allowed !in Repr && c.allowed !in handed
    }

    ghost predicate AllHanded(out: seq<PeerConfig>)
      reads this`handed
    {
      forall c :: c in out ==> c.allowed in handed
    }

    ghost method HandOut(out: seq<PeerConfig>)
      requires Valid() && AllNew(out)
      modifies this`handed
      ensures Shape() && View() == old(View())
      ensures Kept() && HandsOutMore() && AllHanded(out)
    {
      var was, more := handed, Contents(out);
      handed := was + more;
      assert Shape() && View() == old(View());
      assert forall a :: a in handed ==> (a in was && handed[a] == was[a]) || (a in more && handed[a] == more[a]);
    }

    /** One turn of the loop: the config of a peer, if it has one, joins the list. */
    method VisitOne(id: nat, out: seq<PeerConfig>, ghost ids: seq<nat>, ghost t: Table)
      returns (out': seq<PeerConfig>, ghost ids': seq<nat>)
      requires Valid() && id in peers && View() == t && AreConfigs(t, ids, out, exitPeer, relayUp) && AllNew(out)
      ensures Valid() && View() == t && AreConfigs(t, ids', out', exitPeer, relayUp) && AllNew(out')
      ensures ids' == if ConfigOf(t[id], exitPeer, relayUp).Some? then ids + [id] else ids
    {
      var c := RenderAt(id, t);
      if c.None? { return out, ids; }
      ConfigsNext(t, ids, out, exitPeer, relayUp, id, c.value);
      return out + [c.value], ids + [id];
    }

    /** One config for each peer that can be reached, in some order of the peers. */
    method BuildPeerConfigs() returns (out: seq<PeerConfig>, ghost ids: seq<nat>)
      requires Valid()
      modifies this`handed
      ensures Valid() && HandsOutMore() && View() == old(View())
      ensures Visited(View(), ids, {}, exitPeer, relayUp) && AreConfigs(View(), ids, out, exitPeer, relayUp)
      ensures AllHanded(out)
    {
      out, ids := RenderAll();
      HandOut(out);
    }

    method RenderAll() returns (out: seq<PeerConfig>, ghost ids: seq<nat>)
      requires Valid()
      ensures Valid() && View() == old(View()) && AllNew(out)
      ensures Visited(View(), ids, {}, exitPeer, relayUp) && AreConfigs(View(), ids, out, exitPeer, relayUp)
    {
      out, ids := [], [];
      ghost var t := View();
      var left := peers.Keys;
      while left != {}
        invariant Valid() && View() == t && left <= peers.Keys && AllNew(out)
        invariant Visited(t, ids, left, exitPeer, relayUp) && AreConfigs(t, ids, out, exitPeer, relayUp)
        decreases |left|
      {
        var id :| id in left;
        VisitNext(t, ids, left, exitPeer, relayUp, id);
        out, ids := VisitOne(id, out, ids, t);
        left := left - {id};
      }
    }

    method SetPathAt(id: nat, path: Path)
      requires Valid() && id in peers
      modifies peers[id]
      ensures Valid() && peers[id].View() == old(peers[id].View()).(path := path)
      ensures forall j :: j in peers && j != id ==> peers[j].View() == old(peers[j].View())
    {
      peers[id].SetPath(path);
      assert forall j :: j in peers ==> peers[j].repr == old(peers[j].repr);
      assert Owned() && RecordsValid();
    }

    method SetPathView(id: nat, path: Path)
      requires Valid() && id in peers
      modifies Repr
      ensures Valid() && View() == SetPath(old(View()), id, path)
    {
      SetPathAt(id, path);
      ViewChanged(id);
    }

    /** Records the path of a known peer, and reports a change of state or endpoint. */
    method OnPathUpdate(id: nat, path: Path) returns (changed: bool)
      requires Valid() && Tracks()
      modifies this`hist, Repr
      ensures Valid() && Tracks() && hist == old(hist) + [Moves(id, path)] && View() == SetPath(old(View()), id, path)
      ensures changed <==> id in old(View()) && var was := old(View())[id].path;
                           (was.state, was.endpoint) != (path.state, path.endpoint)
    {
      ReplayNext(hist, Moves(id, path), View());
      changed := false;
      if id in peers {
        changed := peers[id].path.state != path.state || peers[id].path.endpoint != path.endpoint;
        SetPathView(id, path);
      }
      Record(Moves(id, path));
    }

    /** applyNetMap: whatever came before, among the configs handed to WireGuard at most
        one carries a default route, and only the selected exit peer's, when the overlay
        addresses are hosts. */
    method ApplyNetMap(ws: seq<WirePeer>, fold: char -> char) returns (out: seq<PeerConfig>, ghost ids: seq<nat>)
      requires Valid() && Tracks()
      modifies this`peers, this`Repr, this`hist, this`exitPeer, this`handed, Repr
      ensures Valid() && Tracks() && HandsOutMore() && hist == old(hist) + [Applies(ws)]
      ensures View() == Merge(old(View()), ws)
      ensures AreConfigs(View(), ids, out, exitPeer, relayUp) && Visited(View(), ids, {}, exitPeer, relayUp)
      ensures AllHanded(out)
      ensures SelectsExit(View(), exitPeer, exitNode, fold)
      ensures HostsOnly(ws) ==> forall i :: 0 <= i < |out| && HasDefault(out[i].allowed[..]) ==> ids[i] == exitPeer
    {
      ghost var t := View();
      MergePeers(ws);
      out, ids := MakeConfigs(fold);
      if HostsOnly(ws) { OnlyExitHasDefault(t, ws, ids, out, exitPeer, relayUp); }
    }

    method MakeConfigs(fold: char -> char) returns (out: seq<PeerConfig>, ghost ids: seq<nat>)
      requires Valid() && Tracks()
      modifies this`exitPeer, this`handed
      ensures Valid() && Tracks() && HandsOutMore() && View() == old(View())
      ensures AreConfigs(View(), ids, out, exitPeer, relayUp) && Visited(View(), ids, {}, exitPeer, relayUp)
      ensures AllHanded(out)
      ensures SelectsExit(View(), exitPeer, exitNode, fold)
    {
      SelectExitPeer(fold);
      out, ids := BuildPeerConfigs();
    }
  }
}
