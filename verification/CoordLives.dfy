/** The life of a node, from its registration to its deletion, over every run. */
module CoordLives {
  import opened Store
  import opened CoordModel
  import opened CoordSafety
  import opened CoordRuns

  predicate Deletion(e: Event, id: nat) { e == Writes(Deletes(id)) }

  /** In one step IDs are used up, new rows get unused ones, and a row goes exactly if
      it is deleted and otherwise stays the same node. */
  ghost predicate RowStep(db: Db, db': Db, e: Event, id: nat) {
    && db.lastId <= db'.lastId
    && (id in db.nodes ==> (id in db'.nodes <==> !Deletion(e, id)))
    && (id in db.nodes && id in db'.nodes ==> SameNode(db.nodes[id], db'.nodes[id]))
    && (id in db'.nodes && id !in db.nodes ==> id > db.lastId)
    && (id in db'.nodes ==> id <= db'.lastId)
  }

  lemma RegisterRow(s: State, req: Request, id: nat)
    requires NetworksOk(s.db.networks) && AllocsValid(s.ipams) && (id in s.db.nodes ==> id <= s.db.lastId)
    requires var db := Register(s, req).0.db; id in db.nodes ==> id <= db.lastId
    ensures RowStep(s.db, Register(s, req).0.db, Writes(Registers(req)), id)
  {
    var db' := Register(s, req).0.db;
    assert RowsStay(s.db.nodes, db'.nodes, s.db.lastId) && NewRowsAbove(s.db.nodes, db'.nodes, s.db.lastId);
  }

  lemma DeleteRow(s: State, gone: nat, id: nat)
    requires NetworksOk(s.db.networks) && (id in s.db.nodes ==> id <= s.db.lastId)
    ensures RowStep(s.db, DeleteNode(s, gone).db, Writes(Deletes(gone)), id)
  {
  }

  lemma EndpointsChange(nodes: map<nat, Node>, n: nat, eps: seq<string>, id: nat)
    requires n in nodes
    ensures var nodes' := nodes[n := nodes[n].(endpoints := eps)];
            (id in nodes' <==> id in nodes) && (id in nodes ==> SameNode(nodes[id], nodes'[id]))
  {
  }

  lemma ReportRow(s: State, n: nat, eps: seq<string>, id: nat)
    requires id in s.db.nodes ==> id <= s.db.lastId
    ensures RowStep(s.db, SetEndpoints(s, n, eps).db, Writes(Reports(n, eps)), id)
  {
    var db', e := SetEndpoints(s, n, eps).db, Writes(Reports(n, eps));
    if n in s.db.nodes {
      EndpointsChange(s.db.nodes, n, eps, id);
      assert db'.nodes == s.db.nodes[n := s.db.nodes[n].(endpoints := eps)];
    }
    SpareRow(s.db, db', e, id);
  }

  lemma OthersSpareRows(s: State, e: Change)
    requires NetworksOk(s.db.networks) && AllocsValid(s.ipams) && !e.Registers? && !e.Deletes? && !e.Reports?
    ensures ApplyChange(s, e).db.nodes == s.db.nodes && ApplyChange(s, e).db.lastId == s.db.lastId
  {
  }

  lemma SpareRow(db: Db, db': Db, e: Event, id: nat)
    requires (id in db'.nodes <==> id in db.nodes) && (id in db.nodes ==> SameNode(db.nodes[id], db'.nodes[id]))
    requires db'.lastId == db.lastId && !Deletion(e, id) && (id in db.nodes ==> id <= db.lastId)
    ensures RowStep(db, db', e, id)
  {
  }

  lemma ChangeRow(s: State, e: Change, id: nat)
    requires NetworksOk(s.db.networks) && AllocsValid(s.ipams) && (id in s.db.nodes ==> id <= s.db.lastId)
    requires var db := ApplyChange(s, e).db; id in db.nodes ==> id <= db.lastId
    ensures RowStep(s.db, ApplyChange(s, e).db, Writes(e), id)
  {
    match e
    case Registers(req) => RegisterRow(s, req, id);
    case Deletes(gone) => DeleteRow(s, gone, id);
    case Reports(n, eps) => ReportRow(s, n, eps, id);
    case _ =>
      OthersSpareRows(s, e);
      SpareRow(s.db, ApplyChange(s, e).db, Writes(e), id);
  }

  lemma Bounded(ss: seq<State>, es: seq<Event>, k: nat, id: nat)
    requires IsRun(ss, es) && k <= |es| && id in ss[k].db.nodes
    ensures id <= ss[k].db.lastId
  {
    RunKeeps(ss, es, k);
    assert RowOk(ss[k].db.networks, ss[k].db.lastId, ss[k].born, id, ss[k].db.nodes[id]);
  }

  lemma StepRow(s: State, e: Event, id: nat)
    requires NetworksOk(s.db.networks) && AllocsValid(s.ipams) && (id in s.db.nodes ==> id <= s.db.lastId)
    requires var db := Apply(s, e).db; id in db.nodes ==> id <= db.lastId
    ensures RowStep(s.db, Apply(s, e).db, e, id)
  {
    match e
    case Writes(c) => ChangeRow(s, c, id);
    case Streams(t) =>
      TrafficSparesStore(s, t);
      SpareRow(s.db, Apply(s, e).db, e, id);
    case Restarts => SpareRow(s.db, Apply(s, e).db, e, id);
  }

  lemma RunRow(ss: seq<State>, es: seq<Event>, k: nat, id: nat)
    requires IsRun(ss, es) && k < |es|
    ensures RowStep(ss[k].db, ss[k + 1].db, es[k], id)
  {
    if id in ss[k].db.nodes { Bounded(ss, es, k, id); }
    if id in ss[k + 1].db.nodes { Bounded(ss, es, k + 1, id); }
    RunKeeps(ss, es, k);
    assert StepAt(ss, es, k);
    LeadsIsApply(ss[k], es[k], ss[k + 1]);
    StepRow(ss[k], es[k], id);
  }

  /** What is known at k of a node that was there at j. */
  ghost predicate LivesOn(ss: seq<State>, es: seq<Event>, j: nat, k: nat, id: nat)
    requires |ss| == |es| + 1 && j <= k <= |es| && id in ss[j].db.nodes
  {
    && id <= ss[k].db.lastId
    && (id in ss[k].db.nodes <==> forall i :: j <= i < k ==> !Deletion(es[i], id))
    && (id in ss[k].db.nodes ==> SameNode(ss[j].db.nodes[id], ss[k].db.nodes[id]))
  }

  /** A node is there until it is deleted, and as long as it is there it keeps its
      network, its machine key and its addresses. */
  lemma {:induction false} NodesKeepTheirIdentity(ss: seq<State>, es: seq<Event>, j: nat, k: nat, id: nat)
    requires IsRun(ss, es) && j <= k <= |es| && id in ss[j].db.nodes
    ensures LivesOn(ss, es, j, k, id)
    decreases k
  {
    if j == k {
      Bounded(ss, es, j, id);
    } else {
      NodesKeepTheirIdentity(ss, es, j, k - 1, id);
      RunRow(ss, es, k - 1, id);
    }
  }

  /** The step gives the ID to a new node. */
  predicate GivesOut(ss: seq<State>, i: nat, id: nat) {
    i + 1 < |ss| && id !in ss[i].db.nodes && id in ss[i + 1].db.nodes
  }

  /** No ID is given out twice. */
  lemma IdsAreGivenOnce(ss: seq<State>, es: seq<Event>, i: nat, j: nat, id: nat)
    requires IsRun(ss, es) && GivesOut(ss, i, id) && GivesOut(ss, j, id)
    ensures i == j
  {
    if i < j { NotAgain(ss, es, i, j, id); }
    if j < i { NotAgain(ss, es, j, i, id); }
  }

  lemma NotAgain(ss: seq<State>, es: seq<Event>, i: nat, j: nat, id: nat)
    requires IsRun(ss, es) && i < j && GivesOut(ss, i, id) && j < |es| && id !in ss[j].db.nodes
    ensures id !in ss[j + 1].db.nodes
  {
    NodesKeepTheirIdentity(ss, es, i + 1, j, id);
    RunRow(ss, es, j, id);
  }
}
