/** internal/store/routes.go: routes a node offers and whether an admin approved them. */
module Routes {

  datatype RouteKey = RouteKey(node: nat, route: string)

  /** The node_routes table: every offered route with its approval bit. */
  type Table = map<RouteKey, bool>

  /** Replace a node's offer set; approval survives on routes that stay offered. */
  function Advertise(t: Table, node: nat, routes: set<string>): Table {
    map k | k in t.Keys + (set r | r in routes :: RouteKey(node, r)) && (k.node == node ==> k.route in routes)
      :: if k in t then t[k] else false
  }

  function Decide(t: Table, node: nat, route: string, approved: bool): Table {
    if RouteKey(node, route) in t then t[RouteKey(node, route) := approved] else t
  }

  /** The cascade of deleting a node. */
  function Drop(t: Table, node: nat): Table {
    map k | k in t && k.node != node :: t[k]
  }

  function ApprovedRoutes(t: Table, node: nat): set<string> {
    set k | k in t && k.node == node && t[k] :: k.route
  }

  /** Re-registering replaces the offer exactly, keeps approval exactly on what stays
      offered, and leaves every other node alone. */
  lemma ReplacedOffer(t: Table, node: nat, routes: set<string>, other: nat)
    ensures forall r :: RouteKey(node, r) in Advertise(t, node, routes) <==> r in routes
    ensures ApprovedRoutes(Advertise(t, node, routes), node) == ApprovedRoutes(t, node) * routes
    ensures other != node ==> ApprovedRoutes(Advertise(t, node, routes), other) == ApprovedRoutes(t, other)
  {
    var t' := Advertise(t, node, routes);
    forall n, r ensures r in ApprovedRoutes(t', n) <==> RouteKey(n, r) in t' && t'[RouteKey(n, r)] {
      ApprovedMember(t', n, r);
    }
    forall n, r ensures r in ApprovedRoutes(t, n) <==> RouteKey(n, r) in t && t[RouteKey(n, r)] {
      ApprovedMember(t, n, r);
    }
  }

  lemma ApprovedMember(t: Table, node: nat, r: string)
    ensures r in ApprovedRoutes(t, node) <==> RouteKey(node, r) in t && t[RouteKey(node, r)]
  {
    if RouteKey(node, r) in t && t[RouteKey(node, r)] { assert RouteKey(node, r).route == r; }
  }

  // ---------------------------------------------------------------- approval over whole histories

  datatype RouteEvent =
    | Advertised(node: nat, routes: set<string>)
    | Decided(node: nat, route: string, approved: bool)
    | Removed(node: nat)
    | Unrelated

  function Happen(t: Table, e: RouteEvent): Table {
    match e
    case Advertised(n, rs) => Advertise(t, n, rs)
    case Decided(n, r, a) => Decide(t, n, r, a)
    case Removed(n) => Drop(t, n)
    case Unrelated => t
  }

  function Replay(h: seq<RouteEvent>): Table {
    if h == [] then map[] else Happen(Replay(h[..|h| - 1]), h[|h| - 1])
  }

  lemma ReplaySnoc(h: seq<RouteEvent>, e: RouteEvent)
    ensures Replay(h + [e]) == Happen(Replay(h), e)
  {
    assert (h + [e])[..|h|] == h;
  }

  /** The event takes route r out of node n's offer set. */
  predicate EndsOffer(e: RouteEvent, n: nat, r: string) {
    (e.Advertised? && e.node == n && r !in e.routes) || e == Removed(n)
  }

  predicate Offers(e: RouteEvent, n: nat, r: string) {
    e.Advertised? && e.node == n && r in e.routes
  }

  /** Before event i, node n offers r: some offer names it and nothing since took it out. */
  ghost predicate OfferedAt(h: seq<RouteEvent>, i: nat, n: nat, r: string)
    requires i <= |h|
  {
    exists k :: 0 <= k < i && Offers(h[k], n, r) && forall j :: k < j < i ==> !EndsOffer(h[j], n, r)
  }

  /** Event e neither ends the offer of r nor revokes its approval. */
  predicate Spares(e: RouteEvent, n: nat, r: string) {
    !EndsOffer(e, n, r) && e != Decided(n, r, false)
  }

  /** Event i approved r while it was offered, and everything since spared it. */
  ghost predicate StandsSince(h: seq<RouteEvent>, i: nat, n: nat, r: string) {
    && i < |h| && h[i] == Decided(n, r, true) && OfferedAt(h, i, n, r)
    && forall j :: i < j < |h| ==> Spares(h[j], n, r)
  }

  /** An admin approved r while it was offered, and neither a revocation nor the end of
      the offer came after. */
  ghost predicate Standing(h: seq<RouteEvent>, n: nat, r: string) {
    exists i: nat :: StandsSince(h, i, n, r)
  }

  lemma OfferedGrows(h: seq<RouteEvent>, n: nat, r: string)
    requires h != []
    ensures OfferedAt(h, |h|, n, r) <==>
            (Offers(h[|h| - 1], n, r) || (OfferedAt(h[..|h| - 1], |h| - 1, n, r) && !EndsOffer(h[|h| - 1], n, r)))
  {
    var m := |h| - 1;
    var g := h[..m];
    if OfferedAt(h, |h|, n, r) && !Offers(h[m], n, r) {
      var k :| 0 <= k < |h| && Offers(h[k], n, r) && forall j :: k < j < |h| ==> !EndsOffer(h[j], n, r);
      assert Offers(g[k], n, r);
    }
    if OfferedAt(g, m, n, r) && !EndsOffer(h[m], n, r) {
      var k :| 0 <= k < m && Offers(g[k], n, r) && forall j :: k < j < m ==> !EndsOffer(g[j], n, r);
      assert Offers(h[k], n, r);
      assert forall j :: k < j < m ==> h[j] == g[j];
    }
  }

  lemma OfferedPrefix(h: seq<RouteEvent>, i: nat, n: nat, r: string)
    requires i < |h|
    ensures OfferedAt(h, i, n, r) <==> OfferedAt(h[..|h| - 1], i, n, r)
  {
    var g := h[..|h| - 1];
    assert forall j :: 0 <= j < i ==> h[j] == g[j];
    if OfferedAt(h, i, n, r) {
      var k :| 0 <= k < i && Offers(h[k], n, r) && forall j :: k < j < i ==> !EndsOffer(h[j], n, r);
      assert Offers(g[k], n, r);
    }
    if OfferedAt(g, i, n, r) {
      var k :| 0 <= k < i && Offers(g[k], n, r) && forall j :: k < j < i ==> !EndsOffer(g[j], n, r);
      assert Offers(h[k], n, r);
    }
  }

  lemma StandsSinceGrows(h: seq<RouteEvent>, i: nat, n: nat, r: string)
    requires i + 1 < |h|
    ensures StandsSince(h, i, n, r) <==> StandsSince(h[..|h| - 1], i, n, r) && Spares(h[|h| - 1], n, r)
  {
    var g := h[..|h| - 1];
    OfferedPrefix(h, i, n, r);
    assert forall j :: 0 <= j < |g| ==> h[j] == g[j];
  }

  lemma StandingGrows(h: seq<RouteEvent>, n: nat, r: string)
    requires h != []
    ensures var e, m := h[|h| - 1], |h| - 1;
            Standing(h, n, r) <==>
              || (e == Decided(n, r, true) && OfferedAt(h[..m], m, n, r))
              || (Standing(h[..m], n, r) && Spares(e, n, r))
  {
    var m := |h| - 1;
    var g, e := h[..m], h[m];
    OfferedPrefix(h, m, n, r);
    if Standing(h, n, r) {
      var i: nat :| StandsSince(h, i, n, r);
      if i < m { StandsSinceGrows(h, i, n, r); }
    }
    if e == Decided(n, r, true) && OfferedAt(g, m, n, r) {
      assert StandsSince(h, m, n, r);
    }
    if Standing(g, n, r) && Spares(e, n, r) {
      var i: nat :| StandsSince(g, i, n, r);
      StandsSinceGrows(h, i, n, r);
    }
  }

  /** In every history the table holds exactly the routes still offered, and marks as
      approved exactly those with a standing approval. */
  lemma {:induction false} ApprovalIsStanding(h: seq<RouteEvent>, n: nat, r: string)
    ensures RouteKey(n, r) in Replay(h) <==> OfferedAt(h, |h|, n, r)
    ensures (RouteKey(n, r) in Replay(h) && Replay(h)[RouteKey(n, r)]) <==> Standing(h, n, r)
  {
    if h != [] {
      var m := |h| - 1;
      ApprovalIsStanding(h[..m], n, r);
      OfferedGrows(h, n, r);
      StandingGrows(h, n, r);
      assert h[..m][..m] == h[..m];
    }
  }

  // ---------------------------------------------------------------- the table as the store edits it

  class RouteTable {
    var rows: Table

    constructor ()
      ensures rows == map[]
    {
      rows := map[];
    }

    /** One transaction: insert what is missing, collect what is no longer offered,
        delete it. */
    method SetAdvertisedRoutes(node: nat, routes: seq<string>)
      modifies this
      ensures rows == Advertise(old(rows), node, set r | r in routes)
    {
      var keep: set<string> := {};
      for i := 0 to |routes|
        invariant keep == set r | r in routes[..i]
        invariant forall k :: k in rows <==> k in old(rows) || (k.node == node && k.route in keep)
        invariant forall k :: k in rows ==> rows[k] == if k in old(rows) then old(rows)[k] else false
      {
        assert routes[..i + 1] == routes[..i] + [routes[i]];
        keep := keep + {routes[i]};
        var key := RouteKey(node, routes[i]);
        if key !in rows { rows := rows[key := false]; }
      }
      assert routes[..|routes|] == routes;
      var drop := set k | k in rows && k.node == node && k.route !in keep;
      rows := rows - drop;
      assert rows == Advertise(old(rows), node, keep);
    }

    method SetRouteApproved(node: nat, route: string, approved: bool) returns (found: bool)
      modifies this
      ensures rows == Decide(old(rows), node, route, approved)
      ensures found <==> RouteKey(node, route) in old(rows)
    {
      found := RouteKey(node, route) in rows;
      if found { rows := rows[RouteKey(node, route) := approved]; }
    }
  }
}
