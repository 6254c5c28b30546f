/** Which streams the coordinator closes: over every run exactly those displaced by a
    newer stream of their node or by its deletion, and each of them once. */
module CoordClosing {
  import opened Prelude
  import opened CoordModel
  import opened CoordSafety
  import opened CoordStreams
  import opened CoordRuns
  import H = Hub

  /** The event is the deletion of the node. */
  predicate IsDeletion(s: State, e: Event, id: nat) { e == Writes(Deletes(id)) && id in s.db.nodes }

  predicate Presents(s: State, mkey: string, id: nat) { FindNode(s.db.nodes, mkey, s.db.lastId) == Some(id) }

  /** The node holds netmap stream c, and deletes itself or opens another one. */
  predicate DisplacesMap(s: State, e: Event, c: nat) {
    && H.Registered(s.maps, c)
    && var id := s.maps.chans[c].owner;
       IsDeletion(s, e, id) || (e.Streams? && e.traffic.Subscribes? && Presents(s, e.traffic.mkey, id))
  }

  predicate DisplacesSignal(s: State, e: Event, c: nat) {
    && H.Registered(s.sigs, c)
    && var id := s.sigs.chans[c].owner;
       IsDeletion(s, e, id) || (e.Streams? && e.traffic.SignalSubscribes? && Presents(s, e.traffic.mkey, id))
  }

  /** A row found by its key carries its own ID. */
  predicate Found(s: State, mkey: string) {
    var f := FindNode(s.db.nodes, mkey, s.db.lastId); f.Some? ==> s.db.nodes[f.value].id == f.value
  }

  lemma FoundIs(s: State, mkey: string)
    requires StoreOk(s)
    ensures Found(s, mkey)
  {
    var f := FindNode(s.db.nodes, mkey, s.db.lastId);
    if f.Some? { assert RowOk(s.db.networks, s.db.lastId, s.born, f.value, s.db.nodes[f.value]); }
  }

  // ---------------------------------------------------------------- one step

  lemma NotifyCloses(s: State, net: nat, c: nat)
    requires StoreOk(s) && StreamsOk(s)
    ensures H.ClosesStep(s.maps, Notify(s, net).maps, false, c)
  {
    NotifyShape(s, net);
    if c in s.maps.chans { NotifyChannel(s, net, c); }
  }

  lemma SubscribeCloses(s: State, mkey: string, c: nat)
    requires H.HubOk(s.maps, MAP_BUFFER) && Found(s, mkey)
    ensures H.ClosesStep(s.maps, Subscribe(s, mkey).maps, DisplacesMap(s, Streams(Subscribes(mkey)), c), c)
  {
    var found := FindNode(s.db.nodes, mkey, s.db.lastId);
    if found.Some? {
      var n := s.db.nodes[found.value];
      var m := BuildNetMap(s.db, s.online[n.id := true], s.seqNo, n);
      H.DisplacingCloses(s.maps, n.id, n.net, [m], MAP_BUFFER, c);
    }
  }

  lemma SignalSubscribeCloses(s: State, mkey: string, c: nat)
    requires H.HubOk(s.sigs, SIGNAL_BUFFER) && Found(s, mkey)
    ensures var hit := DisplacesSignal(s, Streams(SignalSubscribes(mkey)), c);
            H.ClosesStep(s.sigs, SignalSubscribe(s, mkey).sigs, hit, c)
  {
    var found := FindNode(s.db.nodes, mkey, s.db.lastId);
    if found.Some? {
      H.DisplacingCloses(s.sigs, s.db.nodes[found.value].id, s.db.nodes[found.value].net, [], SIGNAL_BUFFER, c);
    }
  }

  lemma QuietMapTraffic(s: State, t: Traffic, c: nat)
    requires !t.Notifies? && !t.Subscribes?
    ensures H.ClosesStep(s.maps, ApplyTraffic(s, t).maps, false, c)
  {
  }

  lemma QuietSignalTraffic(s: State, t: Traffic, c: nat)
    requires !t.SignalSubscribes?
    ensures H.ClosesStep(s.sigs, ApplyTraffic(s, t).sigs, false, c)
  {
  }

  lemma DeleteCloses(s: State, id: nat, c: nat)
    requires H.HubOk(s.maps, MAP_BUFFER) && H.HubOk(s.sigs, SIGNAL_BUFFER) && NetworksOk(s.db.networks)
    ensures H.ClosesStep(s.maps, DeleteNode(s, id).maps, DisplacesMap(s, Writes(Deletes(id)), c), c)
    ensures H.ClosesStep(s.sigs, DeleteNode(s, id).sigs, DisplacesSignal(s, Writes(Deletes(id)), c), c)
  {
    if id in s.db.nodes {
      H.DisplacingCloses(s.maps, id, 0, [], MAP_BUFFER, c);
      H.DisplacingCloses(s.sigs, id, 0, [], SIGNAL_BUFFER, c);
    }
  }

  lemma TrafficCloses(s: State, t: Traffic, c: nat)
    requires Good(s)
    ensures H.ClosesStep(s.maps, ApplyTraffic(s, t).maps, DisplacesMap(s, Streams(t), c), c)
    ensures H.ClosesStep(s.sigs, ApplyTraffic(s, t).sigs, DisplacesSignal(s, Streams(t), c), c)
  {
    match t
    case Notifies(net) =>
      NotifyCloses(s, net, c);
      QuietSignalTraffic(s, t, c);
    case Subscribes(mkey) =>
      FoundIs(s, mkey);
      SubscribeCloses(s, mkey, c);
      QuietSignalTraffic(s, t, c);
    case SignalSubscribes(mkey) =>
      FoundIs(s, mkey);
      SignalSubscribeCloses(s, mkey, c);
      QuietMapTraffic(s, t, c);
    case _ =>
      QuietMapTraffic(s, t, c);
      QuietSignalTraffic(s, t, c);
  }

  lemma ChangeCloses(s: State, w: Change, c: nat)
    requires StreamsOk(s) && NetworksOk(s.db.networks) && AllocsValid(s.ipams)
    ensures H.ClosesStep(s.maps, ApplyChange(s, w).maps, DisplacesMap(s, Writes(w), c), c)
    ensures H.ClosesStep(s.sigs, ApplyChange(s, w).sigs, DisplacesSignal(s, Writes(w), c), c)
  {
    if w.Deletes? { DeleteCloses(s, w.id, c); } else { ChangeSparesStreams(s, w); }
  }

  lemma RunStep(ss: seq<State>, es: seq<Event>, k: nat, c: nat)
    requires IsRun(ss, es) && k < |es|
    ensures H.ClosesStep(ss[k].maps, ss[k + 1].maps, DisplacesMap(ss[k], es[k], c), c)
    ensures H.ClosesStep(ss[k].sigs, ss[k + 1].sigs, DisplacesSignal(ss[k], es[k], c), c)
  {
    RunKeeps(ss, es, k);
    assert StepAt(ss, es, k);
    LeadsIsApply(ss[k], es[k], ss[k + 1]);
    match es[k]
    case Writes(w) => ChangeCloses(ss[k], w, c);
    case Streams(t) => TrafficCloses(ss[k], t, c);
    case Restarts =>
  }

  // ---------------------------------------------------------------- whole runs

  /** In every run a netmap stream is closed, once, if it was displaced by a newer stream
      of its node or by the node's deletion, however long ago, and is open otherwise. */
  lemma MapStreamsCloseOnce(ss: seq<State>, es: seq<Event>, k: nat, c: nat)
    requires IsRun(ss, es) && k <= |es| && c in ss[k].maps.chans
    ensures ss[k].maps.chans[c].closes == if exists j :: 0 <= j < k && DisplacesMap(ss[j], es[j], c) then 1 else 0
  {
    var hs := seq(|es| + 1, n requires 0 <= n <= |es| => ss[n].maps);
    var hits := seq(|es|, n requires 0 <= n < |es| => DisplacesMap(ss[n], es[n], c));
    forall n | 0 <= n < |es| ensures H.ClosesStep(hs[n], hs[n + 1], hits[n], c) { RunStep(ss, es, n, c); }
    H.ClosedIfHit(hs, hits, k, c);
    HitsAre(hits, k);
    assert forall j :: 0 <= j < k ==> hits[j] == DisplacesMap(ss[j], es[j], c);
    SubscriptionSafety(ss, es, k, 0);
  }

  /** The same for signal streams. */
  lemma SignalStreamsCloseOnce(ss: seq<State>, es: seq<Event>, k: nat, c: nat)
    requires IsRun(ss, es) && k <= |es| && c in ss[k].sigs.chans
    ensures ss[k].sigs.chans[c].closes == if exists j :: 0 <= j < k && DisplacesSignal(ss[j], es[j], c) then 1 else 0
  {
    var hs := seq(|es| + 1, n requires 0 <= n <= |es| => ss[n].sigs);
    var hits := seq(|es|, n requires 0 <= n < |es| => DisplacesSignal(ss[n], es[n], c));
    forall n | 0 <= n < |es| ensures H.ClosesStep(hs[n], hs[n + 1], hits[n], c) { RunStep(ss, es, n, c); }
    H.ClosedIfHit(hs, hits, k, c);
    HitsAre(hits, k);
    assert forall j :: 0 <= j < k ==> hits[j] == DisplacesSignal(ss[j], es[j], c);
    SubscriptionSafety(ss, es, k, 0);
  }

  lemma HitsAre(hits: seq<bool>, k: nat)
    requires k <= |hits|
    ensures true in hits[..k] <==> exists j :: 0 <= j < k && hits[j]
  {
    if j :| 0 <= j < k && hits[j] { assert hits[..k][j]; }
    if true in hits[..k] {
      var j :| 0 <= j < k && hits[..k][j] == true;
      assert hits[j];
    }
  }
}
