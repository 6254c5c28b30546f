/** Route approval over whole runs of the coordinator, told by the events of the run. */
module CoordRoutes {
  import opened Prelude
  import opened Net
  import opened Ipam
  import opened Text
  import opened Store
  import opened Routes
  import opened CoordModel
  import opened CoordSafety
  import opened CoordRuns

  // ---------------------------------------------------------------- what the events say

  /** The registration is answered for node id. */
  ghost predicate Answers(s: State, e: Event, id: nat) {
    && NetworksOk(s.db.networks) && AllocsValid(s.ipams)
    && e.Writes? && e.change.Registers? && e.change.req.routes.Some? && Register(s, e.change.req).1 == Ok(id)
  }

  /** The node registers with r among its routes. */
  ghost predicate Offering(s: State, e: Event, id: nat, r: string) {
    Answers(s, e, id) && r in e.change.req.routes.value
  }

  /** The node registers without r, or is deleted. */
  ghost predicate Withdrawing(s: State, e: Event, id: nat, r: string) {
    (Answers(s, e, id) && r !in e.change.req.routes.value) || (e == Writes(Deletes(id)) && id in s.db.nodes)
  }

  /** An admin approves or revokes route r of the node. */
  predicate Deciding(s: State, e: Event, id: nat, r: string, approved: bool) {
    e == Writes(Approves(id, Some(r), approved)) && id in s.db.nodes
  }

  /** At state k the node offers r: it registered with r, and since then neither
      registered without r nor was deleted. */
  ghost predicate OfferStands(ss: seq<State>, es: seq<Event>, k: nat, id: nat, r: string)
    requires |ss| == |es| + 1 && k <= |es|
  {
    exists i :: 0 <= i < k && Offering(ss[i], es[i], id, r)
                && forall j :: i < j < k ==> !Withdrawing(ss[j], es[j], id, r)
  }

  /** At state k the approval of r stands: an admin approved r while the node offered it,
      and since then nobody revoked it and the offer never ended. */
  ghost predicate ApprovalStands(ss: seq<State>, es: seq<Event>, k: nat, id: nat, r: string)
    requires |ss| == |es| + 1 && k <= |es|
  {
    exists i :: 0 <= i < k && ApprovedSince(ss, es, k, i, id, r)
  }

  ghost predicate ApprovedSince(ss: seq<State>, es: seq<Event>, k: nat, i: nat, id: nat, r: string)
    requires |ss| == |es| + 1 && i < k <= |es|
  {
    && Deciding(ss[i], es[i], id, r, true) && OfferStands(ss, es, i, id, r)
    && forall j :: i < j < k ==> !Withdrawing(ss[j], es[j], id, r) && !Deciding(ss[j], es[j], id, r, false)
  }

  // ---------------------------------------------------------------- one step

  /** What an event means for the route table. */
  ghost function Note(s: State, e: Event): RouteEvent {
    if !e.Writes? || !NetworksOk(s.db.networks) || !AllocsValid(s.ipams) then Unrelated
    else
      match e.change
      case Registers(req) =>
        var r := Register(s, req).1;
        if r.Ok? && req.routes.Some? then Advertised(r.value, req.routes.value) else Unrelated
      case Deletes(id) => if id in s.db.nodes then Removed(id) else Unrelated
      case Approves(id, route, approved) =>
        if id in s.db.nodes && route.Some? then Decided(id, route.value, approved) else Unrelated
      case _ => Unrelated
  }

  lemma NothingOffered(t: Table, nodes: map<nat, Node>, id: nat)
    requires RoutesOwned(t, nodes) && id !in nodes
    ensures Advertise(t, id, {}) == t
  {
  }

  lemma JoinRoutes(s: State, a: Alloc, net: nat, req: Joining)
    requires ValidAlloc(a) && req.routes.Some? && RoutesOwned(s.db.routes, s.db.nodes)
    requires s.db.lastId + 1 !in s.db.nodes
    ensures var r := JoinWith(s, a, net, req);
            r.0.db.routes == if r.1.Ok? then Advertise(s.db.routes, r.1.value, req.routes.value) else s.db.routes
  {
    if Joins(s, a, req) {
      var a', v6, row := JoinAdds(s, a, net, req);
      NothingOffered(s.db.routes, s.db.nodes, row.id);
      AddNodeRoutes(s, a', row, v6, req.routes.value);
    } else {
      FailedJoin(s, a, net, req);
    }
  }

  lemma AddNodeRoutes(s: State, a: Alloc, n: Node, v6: Result<Addr>, routes: set<string>)
    requires Advertise(s.db.routes, n.id, {}) == s.db.routes
    ensures var r := AddNode(s, a, n, v6, routes);
            && (r.1.Ok? ==> r.1.value == n.id)
            && r.0.db.routes == if r.1.Ok? then Advertise(s.db.routes, n.id, routes) else s.db.routes
  {
  }

  lemma AdmitRoutes(s: State, req: Joining)
    requires NetworksOk(s.db.networks) && AllocsValid(s.ipams) && RoutesOwned(s.db.routes, s.db.nodes)
    requires s.db.lastId + 1 !in s.db.nodes
    ensures var r := Admit(s, req);
            && (r.1.Ok? ==> req.routes.Some?)
            && r.0.db.routes == if r.1.Ok? then Advertise(s.db.routes, r.1.value, req.routes.value) else s.db.routes
  {
    if req.routes.Some? && FindNode(s.db.nodes, KeyText(MACHINE_PREFIX, req.mkey), s.db.lastId).None? {
      var key := TrimSpace(req.setupKey);
      var use := UsableKey(s.db.keys, key, req.now);
      if use.Ok? { SpentRoutes(Spend(s, key), use.value, req); }
    }
  }

  lemma SpentRoutes(s: State, net: nat, req: Joining)
    requires NetworksOk(s.db.networks) && AllocsValid(s.ipams) && RoutesOwned(s.db.routes, s.db.nodes)
    requires s.db.lastId + 1 !in s.db.nodes && req.routes.Some?
    ensures var r := JoinBySpent(s, net, req);
            r.0.db.routes == if r.1.Ok? then Advertise(s.db.routes, r.1.value, req.routes.value) else s.db.routes
  {
    var a := AllocatorFor(s.db, s.ipams, net);
    AllocatorForValid(s.db, s.ipams, net);
    if a.Ok? { JoinRoutes(s, a.value, net, req); }
  }

  lemma NextIsFree(s: State)
    requires StoreOk(s)
    ensures s.db.lastId + 1 !in s.db.nodes
  {
    var id := s.db.lastId + 1;
    assert id in s.db.nodes ==> RowOk(s.db.networks, s.db.lastId, s.born, id, s.db.nodes[id]);
  }

  lemma RegisterRoutes(s: State, req: Request)
    requires StoreOk(s) && AllocsValid(s.ipams)
    ensures Register(s, req).0.db.routes == Happen(s.db.routes, Note(s, Writes(Registers(req))))
  {
    NextIsFree(s);
    AdmitRoutes(s, Cleaned(req));
  }

  lemma DeleteRoutes(s: State, id: nat)
    requires NetworksOk(s.db.networks)
    ensures DeleteNode(s, id).db.routes == if id in s.db.nodes then Drop(s.db.routes, id) else s.db.routes
  {
  }

  lemma ApproveRoutes(s: State, id: nat, route: Option<string>, approved: bool)
    ensures SetApproved(s, id, route, approved).db.routes
         == if id in s.db.nodes && route.Some? then Decide(s.db.routes, id, route.value, approved) else s.db.routes
  {
  }

  lemma OtherRoutes(s: State, e: Change)
    requires NetworksOk(s.db.networks) && AllocsValid(s.ipams) && !e.Registers? && !e.Deletes? && !e.Approves?
    ensures ApplyChange(s, e).db.routes == s.db.routes
  {
  }

  lemma ChangeRoutes(s: State, e: Change)
    requires StoreOk(s) && AllocsValid(s.ipams)
    ensures ApplyChange(s, e).db.routes == Happen(s.db.routes, Note(s, Writes(e)))
  {
    match e
    case Registers(req) => RegisterRoutes(s, req);
    case Deletes(id) => DeleteRoutes(s, id);
    case Approves(id, route, approved) => ApproveRoutes(s, id, route, approved);
    case _ => OtherRoutes(s, e);
  }

  /** Every event changes the table of routes by exactly what it means for it. */
  lemma RoutesStep(s: State, e: Event)
    requires StoreOk(s) && AllocsValid(s.ipams)
    ensures Apply(s, e).db.routes == Happen(s.db.routes, Note(s, e))
  {
    match e
    case Writes(c) => ChangeRoutes(s, c);
    case Streams(t) => TrafficSparesStore(s, t);
    case Restarts =>
  }

  // ---------------------------------------------------------------- whole runs

  ghost function Notes(ss: seq<State>, es: seq<Event>, k: nat): (ns: seq<RouteEvent>)
    requires |ss| == |es| + 1 && k <= |es|
    ensures |ns| == k
  {
    if k == 0 then [] else Notes(ss, es, k - 1) + [Note(ss[k - 1], es[k - 1])]
  }

  lemma {:induction false} NotesAt(ss: seq<State>, es: seq<Event>, k: nat, i: nat)
    requires |ss| == |es| + 1 && i < k <= |es|
    ensures Notes(ss, es, k)[i] == Note(ss[i], es[i])
  {
    if i < k - 1 { NotesAt(ss, es, k - 1, i); }
  }

  lemma RunRoutes(ss: seq<State>, es: seq<Event>, k: nat)
    requires IsRun(ss, es) && k < |es|
    ensures ss[k + 1].db.routes == Happen(ss[k].db.routes, Note(ss[k], es[k]))
  {
    RunKeeps(ss, es, k);
    assert StepAt(ss, es, k);
    LeadsIsApply(ss[k], es[k], ss[k + 1]);
    RoutesStep(ss[k], es[k]);
  }

  lemma {:induction false} RoutesAreNoted(ss: seq<State>, es: seq<Event>, k: nat)
    requires IsRun(ss, es) && k <= |es|
    ensures ss[k].db.routes == Replay(Notes(ss, es, k))
  {
    if k > 0 {
      RoutesAreNoted(ss, es, k - 1);
      RunRoutes(ss, es, k - 1);
      ReplaySnoc(Notes(ss, es, k - 1), Note(ss[k - 1], es[k - 1]));
    }
  }

  ghost predicate Fit(s: State) { NetworksOk(s.db.networks) && AllocsValid(s.ipams) }

  /** A note is an offer, a withdrawal or a decision exactly when its event is. */
  lemma NoteSays(s: State, e: Event, id: nat, r: string)
    requires Fit(s)
    ensures Offers(Note(s, e), id, r) <==> Offering(s, e, id, r)
    ensures EndsOffer(Note(s, e), id, r) <==> Withdrawing(s, e, id, r)
    ensures forall a :: Note(s, e) == Decided(id, r, a) <==> Deciding(s, e, id, r, a)
  {
  }

  ghost predicate Said(ss: seq<State>, es: seq<Event>, ns: seq<RouteEvent>, i: nat, id: nat, r: string)
    requires i < |ss| && i < |es| && i < |ns|
  {
    && (Offers(ns[i], id, r) <==> Offering(ss[i], es[i], id, r))
    && (EndsOffer(ns[i], id, r) <==> Withdrawing(ss[i], es[i], id, r))
    && (ns[i] == Decided(id, r, true) <==> Deciding(ss[i], es[i], id, r, true))
    && (ns[i] == Decided(id, r, false) <==> Deciding(ss[i], es[i], id, r, false))
  }

  ghost predicate AllSaid(ss: seq<State>, es: seq<Event>, ns: seq<RouteEvent>, k: nat, id: nat, r: string)
    requires k <= |ss| && k <= |es| && k <= |ns|
  {
    forall i :: 0 <= i < k ==> Said(ss, es, ns, i, id, r)
  }

  lemma RunSaid(ss: seq<State>, es: seq<Event>, k: nat, id: nat, r: string)
    requires IsRun(ss, es) && k <= |es|
    ensures AllSaid(ss, es, Notes(ss, es, k), k, id, r)
  {
    var ns := Notes(ss, es, k);
    forall i | 0 <= i < k ensures Said(ss, es, ns, i, id, r) {
      RunKeeps(ss, es, i);
      AllocsOkValid(ss[i]);
      NotesAt(ss, es, k, i);
      NoteSays(ss[i], es[i], id, r);
    }
  }

  lemma OfferSaid(ss: seq<State>, es: seq<Event>, ns: seq<RouteEvent>, k: nat, id: nat, r: string)
    requires |ss| == |es| + 1 && k <= |es| && k <= |ns| && AllSaid(ss, es, ns, k, id, r)
    ensures OfferedAt(ns, k, id, r) <==> OfferStands(ss, es, k, id, r)
  {
    assert forall i :: 0 <= i < k ==> Said(ss, es, ns, i, id, r);
    if OfferedAt(ns, k, id, r) {
      var i :| 0 <= i < k && Offers(ns[i], id, r) && forall j :: i < j < k ==> !EndsOffer(ns[j], id, r);
      assert Said(ss, es, ns, i, id, r);
      forall j | i < j < k ensures !Withdrawing(ss[j], es[j], id, r) { assert Said(ss, es, ns, j, id, r); }
    }
    if OfferStands(ss, es, k, id, r) {
      var i :| 0 <= i < k && Offering(ss[i], es[i], id, r)
               && forall j :: i < j < k ==> !Withdrawing(ss[j], es[j], id, r);
      assert Said(ss, es, ns, i, id, r);
      forall j | i < j < k ensures !EndsOffer(ns[j], id, r) { assert Said(ss, es, ns, j, id, r); }
    }
  }

  lemma ApprovalSaid(ss: seq<State>, es: seq<Event>, ns: seq<RouteEvent>, id: nat, r: string)
    requires |ss| == |es| + 1 && |ns| <= |es| && AllSaid(ss, es, ns, |ns|, id, r)
    ensures Standing(ns, id, r) <==> ApprovalStands(ss, es, |ns|, id, r)
  {
    var k := |ns|;
    if Standing(ns, id, r) {
      var i: nat :| StandsSince(ns, i, id, r);
      SinceSaid(ss, es, ns, i, id, r);
    }
    if ApprovalStands(ss, es, k, id, r) {
      var i :| 0 <= i < k && ApprovedSince(ss, es, k, i, id, r);
      SinceSaid(ss, es, ns, i, id, r);
    }
  }

  lemma SinceSaid(ss: seq<State>, es: seq<Event>, ns: seq<RouteEvent>, i: nat, id: nat, r: string)
    requires |ss| == |es| + 1 && i < |ns| <= |es| && AllSaid(ss, es, ns, |ns|, id, r)
    ensures StandsSince(ns, i, id, r) <==> ApprovedSince(ss, es, |ns|, i, id, r)
  {
    assert Said(ss, es, ns, i, id, r);
    OfferSaid(ss, es, ns, i, id, r);
    if StandsSince(ns, i, id, r) {
      forall j | i < j < |ns| ensures !Withdrawing(ss[j], es[j], id, r) && !Deciding(ss[j], es[j], id, r, false) {
        assert Said(ss, es, ns, j, id, r) && Spares(ns[j], id, r);
      }
    }
    if ApprovedSince(ss, es, |ns|, i, id, r) {
      forall j | i < j < |ns| ensures Spares(ns[j], id, r) { assert Said(ss, es, ns, j, id, r); }
    }
  }

  /** In every state of every run the table holds exactly the routes whose offer stands,
      and marks as approved exactly those whose approval stands, by the events so far. */
  lemma TableIsEvents(ss: seq<State>, es: seq<Event>, k: nat, id: nat, r: string)
    requires IsRun(ss, es) && k <= |es|
    ensures RouteKey(id, r) in ss[k].db.routes <==> OfferStands(ss, es, k, id, r)
    ensures r in ApprovedRoutes(ss[k].db.routes, id) <==> ApprovalStands(ss, es, k, id, r)
  {
    var ns := Notes(ss, es, k);
    RoutesAreNoted(ss, es, k);
    ApprovalIsStanding(ns, id, r);
    RunSaid(ss, es, k, id, r);
    OfferSaid(ss, es, ns, k, id, r);
    ApprovalSaid(ss, es, ns, id, r);
    ApprovedMember(ss[k].db.routes, id, r);
  }

  /** A route is shown as approved, to its node or to any peer, exactly when an admin
      approved it while the node offered it, and neither a revocation nor the end of the
      offer came since. */
  lemma ApprovedRoutesAreStanding(ss: seq<State>, es: seq<Event>, k: nat, a: nat, m: NetMap, p: PeerInfo, r: string)
    requires IsRun(ss, es) && k <= |es| && IsSnapshot(ss[k], a, m) && p in m.peers
    ensures r in m.self.approved <==> ApprovalStands(ss, es, k, a, r)
    ensures r in p.routes <==> ApprovalStands(ss, es, k, p.id, r)
  {
    RunKeeps(ss, es, k);
    SnapshotLists(ss[k], a, m, p.id);
    assert IsEntry(ss[k].db.nodes, ss[k].online, ss[k].db.routes, p);
    assert RowOk(ss[k].db.networks, ss[k].db.lastId, ss[k].born, p.id, ss[k].db.nodes[p.id]);
    TableIsEvents(ss, es, k, a, r);
    TableIsEvents(ss, es, k, p.id, r);
  }
}
