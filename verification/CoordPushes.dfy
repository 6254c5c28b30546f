/** Every change of the coordinator that a netmap shows is pushed: the nodes of the network
    that are subscribed, and whose buffer has room, end with the snapshot after it. */
module CoordPushes {
  import opened Prelude
  import opened Routes
  import M = CoordModel
  import opened CoordSafety
  import opened CoordStreams
  import opened CoordRuns
  import opened CoordObject
  import H = Hub

  /** Node j of the network is subscribed and its buffer has room. */
  predicate Waits(s: M.State, net: nat, j: nat) {
    && j in s.db.nodes && s.db.nodes[j].net == net
    && j in s.maps.subs && s.maps.subs[j] in s.maps.chans && |s.maps.chans[s.maps.subs[j]].queue| < M.MAP_BUFFER
  }

  /** The last netmap on its way to node j shows the state as it is. */
  ghost predicate Shows(s: M.State, j: nat) {
    && j in s.db.nodes && j in s.maps.subs && s.maps.subs[j] in s.maps.chans
    && var q := s.maps.chans[s.maps.subs[j]].queue;
       q != [] && IsSnapshot(s, j, q[|q| - 1])
  }

  lemma PushShows(s: M.State, net: nat, j: nat)
    requires Good(s) && Waits(s, net, j)
    ensures Shows(M.Notify(s, net), j)
  {
    NotifyIsCurrent(s, j);
    NotifyShape(s, net);
  }

  lemma ApprovesIs(s: M.State, id: nat, route: Option<string>, approved: bool)
    requires M.NetworksOk(s.db.networks) && M.AllocsValid(s.ipams)
    ensures M.ApplyChange(s, M.Approves(id, route, approved)) == M.SetApproved(s, id, route, approved)
    ensures var s' := M.SetApproved(s, id, route, approved);
            s'.maps == s.maps && s'.db.nodes == s.db.nodes
  {
  }

  lemma ApprovalsArePushed(s: M.State, id: nat, route: string, approved: bool, j: nat)
    requires Good(s) && id in s.db.nodes && RouteKey(id, route) in s.db.routes && Waits(s, s.db.nodes[id].net, j)
    ensures Shows(Approved(s, id, Some(route), approved), j)
  {
    AllocsOkValid(s);
    var r, net := Some(route), s.db.nodes[id].net;
    var s' := M.SetApproved(s, id, r, approved);
    ApprovesIs(s, id, r, approved);
    ChangeAndPushKeep(s, M.Approves(id, r, approved), s', net);
    PushShows(s', net, j);
    assert Approved(s, id, r, approved) == M.Notify(s', net);
  }

  lemma ReportsArePushed(s: M.State, mkey: string, eps: seq<string>, id: nat, j: nat)
    requires Good(s) && M.FindNode(s.db.nodes, mkey, s.db.lastId) == Some(id) && Waits(s, s.db.nodes[id].net, j)
    ensures Shows(Reported(s, mkey, eps, true), j)
  {
    AllocsOkValid(s);
    var s' := M.SetEndpoints(s, id, eps);
    ReportsIs(s, id, eps);
    ChangeAndPushKeep(s, M.Reports(id, eps), s', s.db.nodes[id].net);
    PushShows(s', s.db.nodes[id].net, j);
  }

  lemma DeletionsArePushed(s: M.State, id: nat, j: nat)
    requires Good(s) && id in s.db.nodes && j != id && Waits(s, s.db.nodes[id].net, j)
    ensures M.NetworksOk(s.db.networks) && Shows(Deleted(s, id), j)
  {
    AllocsOkValid(s);
    var s' := M.DeleteNode(s, id);
    ChangeAndPushKeep(s, M.Deletes(id), s', s.db.nodes[id].net);
    KickSpares(s.maps, id, j);
    PushShows(s', s.db.nodes[id].net, j);
  }

  lemma KickSpares<T>(h: H.Hub<T>, id: nat, j: nat)
    requires H.HubOk(h, M.MAP_BUFFER) && j != id && j in h.subs
    ensures var h' := H.Kick(h, id);
            j in h'.subs && h'.subs[j] == h.subs[j] && h'.chans[h.subs[j]] == h.chans[h.subs[j]]
  {
  }

  lemma RegistrationsArePushed(s: M.State, req: M.Request, id: nat, j: nat)
    requires Good(s) && M.RequestOk(req) && M.NetworksOk(s.db.networks) && M.AllocsValid(s.ipams)
    requires M.Register(s, req).1 == Ok(id)
    ensures id in M.Register(s, req).0.db.nodes
    ensures Waits(s, M.Register(s, req).0.db.nodes[id].net, j) ==> Shows(Enrolled(s, req), j)
  {
    var s' := M.Register(s, req).0;
    var net := s'.db.nodes[id].net;
    ChangeAndPushKeep(s, M.Registers(req), s', net);
    if Waits(s, net, j) {
      assert RowOk(s.db.networks, s.db.lastId, s.born, j, s.db.nodes[j]);
      assert M.SameNode(s.db.nodes[j], s'.db.nodes[j]);
      PushShows(s', net, j);
    }
  }

  /** The new subscriber itself included. */
  lemma SubscriptionsArePushed(s: M.State, mkey: string, id: nat, j: nat)
    requires Good(s) && M.FindNode(s.db.nodes, mkey, s.db.lastId) == Some(id)
    requires j == id || Waits(s, s.db.nodes[id].net, j)
    ensures Shows(Subscribed(s, mkey), j)
  {
    var s', n := M.Subscribe(s, mkey), s.db.nodes[id];
    TrafficAndPushKeep(s, M.Subscribes(mkey), s', n.net);
    assert RowOk(s.db.networks, s.db.lastId, s.born, id, n);
    OpenSpares(s.maps, id, n.net, [M.BuildNetMap(s.db, s.online[id := true], s.seqNo, n)], j);
    PushShows(s', n.net, j);
  }

  lemma OpenSpares<T>(h: H.Hub<T>, id: nat, net: nat, prime: seq<T>, j: nat)
    requires H.HubOk(h, M.MAP_BUFFER) && (j == id || j in h.subs)
    ensures var h' := H.Open(h, id, net, prime);
            && j in h'.subs && h'.subs[j] in h'.chans
            && h'.chans[h'.subs[j]].queue == if j == id then prime else h.chans[h.subs[j]].queue
  {
  }

  lemma StillWaits(s: M.State, c: nat, net: nat, j: nat)
    requires H.Registered(s.maps, c) && j != s.maps.chans[c].owner && Waits(s, net, j)
    ensures Waits(M.Unsubscribe(s, c), net, j)
  {
  }

  lemma DeparturesArePushed(s: M.State, c: nat, j: nat)
    requires Good(s) && H.Registered(s.maps, c) && j != s.maps.chans[c].owner && Waits(s, s.maps.chans[c].net, j)
    ensures Shows(Unsubscribed(s, c), j)
  {
    var s', net := M.Unsubscribe(s, c), s.maps.chans[c].net;
    UnsubscribesIs(s, c);
    StillWaits(s, c, net, j);
    TrafficAndPushKeep(s, M.Unsubscribes(c), s', net);
    PushShows(s', net, j);
  }
}
