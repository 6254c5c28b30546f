/** Netmap and signal streams over every run: subscription safety, ordering, snapshots. */
module CoordStreams {
  import opened Store
  import opened CoordModel
  import opened CoordSafety
  import H = Hub

  /** Sequence numbers strictly increase along a stream. */
  predicate Increasing(ms: seq<NetMap>) {
    forall i, j :: 0 <= i < j < |ms| ==> ms[i].seqNo < ms[j].seqNo
  }

  predicate Below(ms: seq<NetMap>, bound: nat) {
    forall m :: m in ms ==> m.seqNo <= bound
  }

  /** The channel was opened for a node that once existed, in the network it belongs to. */
  predicate OwnerOk<T>(born: map<nat, nat>, ch: H.Chan<T>) {
    ch.owner in born && born[ch.owner] == ch.net
  }

  ghost predicate MapsOk(maps: H.Hub<NetMap>, seqNo: map<nat, nat>, born: map<nat, nat>) {
    && H.HubOk(maps, MAP_BUFFER)
    && (forall c :: c in maps.chans ==> OwnerOk(born, maps.chans[c]) && Increasing(H.Stream(maps.chans[c])))
    && (forall c :: H.Registered(maps, c) ==> Below(H.Stream(maps.chans[c]), Get(seqNo, maps.chans[c].net)))
  }

  /** Every signal names the inbox's owner as destination, and as source a node that
      authenticated in the same network. */
  predicate SignalOk(born: map<nat, nat>, ch: H.Chan<Signal>, x: Signal) {
    x.to == ch.owner && x.from in born && born[x.from] == ch.net
  }

  ghost predicate InboxOk(born: map<nat, nat>, ch: H.Chan<Signal>) {
    OwnerOk(born, ch) && forall x :: x in H.Stream(ch) ==> SignalOk(born, ch, x)
  }

  ghost predicate SigsOk(sigs: H.Hub<Signal>, born: map<nat, nat>) {
    && H.HubOk(sigs, SIGNAL_BUFFER)
    && (forall c :: c in sigs.chans ==> InboxOk(born, sigs.chans[c]))
  }

  /** A node is online exactly while it holds a netmap stream; streams belong to live nodes. */
  ghost predicate PresenceOk(maps: H.Hub<NetMap>, online: map<nat, bool>, sigs: H.Hub<Signal>, nodes: map<nat, Node>) {
    && (forall id: nat :: IsOnline(online, id) <==> id in maps.subs)
    && (forall id :: id in maps.subs ==> id in nodes)
    && (forall id :: id in sigs.subs ==> id in nodes)
  }

  ghost predicate StreamsOk(s: State) {
    && MapsOk(s.maps, s.seqNo, s.born) && SigsOk(s.sigs, s.born)
    && PresenceOk(s.maps, s.online, s.sigs, s.db.nodes)
  }

  // ---------------------------------------------------------------- one push round

  lemma {:induction false} IdsInSorted(nodes: map<nat, Node>, net: nat, k: nat)
    ensures forall i, j :: 0 <= i < j < |IdsIn(nodes, net, k)| ==> IdsIn(nodes, net, k)[i] < IdsIn(nodes, net, k)[j]
    ensures forall id :: id in IdsIn(nodes, net, k) <==> id in nodes && 1 <= id <= k && nodes[id].net == net
  {
    if k > 0 {
      IdsInSorted(nodes, net, k - 1);
      var ids := IdsIn(nodes, net, k - 1);
      forall i | 0 <= i < |ids| ensures ids[i] < k { assert ids[i] in ids; }
    }
  }

  /** The channel registered for node id of the network gets its netmap, all others stay. */
  lemma NotifyServes(s: State, net: nat, c: nat)
    requires MapsOk(s.maps, s.seqNo, s.born) && StoreOk(s) && c in s.maps.chans
    ensures var s', ch := Notify(s, net), s.maps.chans[c];
            && s'.maps.subs == s.maps.subs && s'.maps.chans.Keys == s.maps.chans.Keys && s'.maps.next == s.maps.next
            && s'.maps.chans[c] ==
               (if H.Registered(s.maps, c) && ch.owner in s.db.nodes && s.db.nodes[ch.owner].net == net
                then H.Sent(ch, BuildNetMap(s.db, s.online, s'.seqNo, s.db.nodes[ch.owner]), MAP_BUFFER) else ch)
  {
    var ids := IdsIn(s.db.nodes, net, s.db.lastId);
    IdsInSorted(s.db.nodes, net, s.db.lastId);
    H.PushEachServesOnce(s.maps, ids, AllMaps(s.db, s.online, Bump(s.seqNo, net), net), MAP_BUFFER);
    var owner := s.maps.chans[c].owner;
    if owner in s.db.nodes { assert RowOk(s.db.networks, s.db.lastId, s.born, owner, s.db.nodes[owner]); }
  }

  lemma SentStream(ch: H.Chan<NetMap>, m: NetMap, bound: nat)
    requires Increasing(H.Stream(ch)) && Below(H.Stream(ch), bound) && bound < m.seqNo && ch.closes == 0
    ensures Increasing(H.Stream(H.Sent(ch, m, MAP_BUFFER))) && Below(H.Stream(H.Sent(ch, m, MAP_BUFFER)), m.seqNo)
  {
    var t := H.Stream(ch);
    if |ch.queue| < MAP_BUFFER {
      assert H.Stream(H.Sent(ch, m, MAP_BUFFER)) == t + [m];
      forall i | 0 <= i < |t| ensures t[i].seqNo < m.seqNo { assert t[i] in t; }
    }
  }

  /** A channel after a push round, next to what it was before. */
  predicate StillOk(maps: H.Hub<NetMap>, ch: H.Chan<NetMap>, seqNo: map<nat, nat>, born: map<nat, nat>, c: nat)
    requires c in maps.chans
  {
    && ch.owner == maps.chans[c].owner && ch.closes == maps.chans[c].closes && OwnerOk(born, ch)
    && !ch.misused && |ch.queue| <= MAP_BUFFER && Increasing(H.Stream(ch))
    && (H.Registered(maps, c) ==> Below(H.Stream(ch), Get(seqNo, ch.net)))
  }

  lemma NotifyChannel(s: State, net: nat, c: nat)
    requires MapsOk(s.maps, s.seqNo, s.born) && StoreOk(s) && c in s.maps.chans && c in Notify(s, net).maps.chans
    ensures StillOk(s.maps, Notify(s, net).maps.chans[c], Notify(s, net).seqNo, s.born, c)
  {
    NotifyServes(s, net, c);
    var ch := s.maps.chans[c];
    if H.Registered(s.maps, c) && ch.owner in s.db.nodes && s.db.nodes[ch.owner].net == net {
      assert RowOk(s.db.networks, s.db.lastId, s.born, ch.owner, s.db.nodes[ch.owner]);
      SentChannel(s.maps, BuildNetMap(s.db, s.online, Bump(s.seqNo, net), s.db.nodes[ch.owner]), s.seqNo, s.born, c);
    }
  }

  lemma SentChannel(maps: H.Hub<NetMap>, m: NetMap, seqNo: map<nat, nat>, born: map<nat, nat>, c: nat)
    requires MapsOk(maps, seqNo, born) && H.Registered(maps, c)
    requires m.seqNo == Get(seqNo, maps.chans[c].net) + 1
    ensures StillOk(maps, H.Sent(maps.chans[c], m, MAP_BUFFER), Bump(seqNo, maps.chans[c].net), born, c)
  {
    SentStream(maps.chans[c], m, Get(seqNo, maps.chans[c].net));
  }

  lemma RoundKeeps(maps: H.Hub<NetMap>, maps': H.Hub<NetMap>, seqNo: map<nat, nat>, seqNo': map<nat, nat>,
                   born: map<nat, nat>)
    requires MapsOk(maps, seqNo, born)
    requires maps'.subs == maps.subs && maps'.next == maps.next && maps'.chans.Keys == maps.chans.Keys
    requires forall c :: c in maps.chans ==> StillOk(maps, maps'.chans[c], seqNo', born, c)
    ensures MapsOk(maps', seqNo', born)
  {
    forall c | H.Registered(maps', c) ensures Below(H.Stream(maps'.chans[c]), Get(seqNo', maps'.chans[c].net)) {
      assert H.Registered(maps, c);
    }
  }

  lemma NotifyShape(s: State, net: nat)
    requires H.HubOk(s.maps, MAP_BUFFER)
    ensures var m := Notify(s, net).maps;
            && m.subs == s.maps.subs && m.next == s.maps.next && m.chans.Keys == s.maps.chans.Keys
            && forall c :: c in s.maps.chans ==> m.chans[c].owner == s.maps.chans[c].owner
  {
    IdsInSorted(s.db.nodes, net, s.db.lastId);
    H.PushEachServesOnce(s.maps, IdsIn(s.db.nodes, net, s.db.lastId),
                         AllMaps(s.db, s.online, Bump(s.seqNo, net), net), MAP_BUFFER);
  }

  lemma NotifyKeeps(s: State, net: nat)
    requires StreamsOk(s) && StoreOk(s)
    ensures StreamsOk(Notify(s, net))
  {
    var s' := Notify(s, net);
    NotifyShape(s, net);
    forall c | c in s.maps.chans ensures StillOk(s.maps, s'.maps.chans[c], s'.seqNo, s.born, c) {
      NotifyChannel(s, net, c);
    }
    RoundKeeps(s.maps, s'.maps, s.seqNo, s'.seqNo, s.born);
  }

  lemma SubscribeKeeps(s: State, mkey: string)
    requires StreamsOk(s) && StoreOk(s)
    ensures StreamsOk(Subscribe(s, mkey))
  {
    var found := FindNode(s.db.nodes, mkey, s.db.lastId);
    if found.Some? {
      var n := s.db.nodes[found.value];
      assert RowOk(s.db.networks, s.db.lastId, s.born, found.value, n);
      var m := BuildNetMap(s.db, s.online[n.id := true], s.seqNo, n);
      OpenMaps(s.maps, s.seqNo, s.born, n.id, n.net, m);
      OpenPresence(s, n.id, [m]);
    }
  }

  lemma OpenMaps(maps: H.Hub<NetMap>, seqNo: map<nat, nat>, born: map<nat, nat>, id: nat, net: nat, m: NetMap)
    requires MapsOk(maps, seqNo, born) && id in born && born[id] == net && m.seqNo == Get(seqNo, net)
    ensures MapsOk(H.Open(maps, id, net, [m]), seqNo, born)
  {
    var maps' := H.Open(maps, id, net, [m]);
    H.OpenKeeps(maps, id, net, [m], MAP_BUFFER);
    forall c | c in maps'.chans ensures OwnerOk(born, maps'.chans[c]) && Increasing(H.Stream(maps'.chans[c])) {
      if c in maps.chans && c != maps.next { assert H.Stream(maps'.chans[c]) == H.Stream(maps.chans[c]); }
    }
    forall c | H.Registered(maps', c) ensures Below(H.Stream(maps'.chans[c]), Get(seqNo, maps'.chans[c].net)) {
      if c != maps.next { assert H.Registered(maps, c); }
    }
  }

  lemma OpenPresence(s: State, id: nat, prime: seq<NetMap>)
    requires PresenceOk(s.maps, s.online, s.sigs, s.db.nodes) && id in s.db.nodes
    ensures PresenceOk(H.Open(s.maps, id, s.db.nodes[id].net, prime), s.online[id := true], s.sigs, s.db.nodes)
  {
  }

  lemma LeaveMaps(maps: H.Hub<NetMap>, maps': H.Hub<NetMap>, seqNo: map<nat, nat>, born: map<nat, nat>)
    requires MapsOk(maps, seqNo, born) && H.HubOk(maps', MAP_BUFFER)
    requires maps'.chans.Keys == maps.chans.Keys
    requires forall c :: c in maps.chans ==>
               && H.Stream(maps'.chans[c]) == H.Stream(maps.chans[c])
               && maps'.chans[c].owner == maps.chans[c].owner && maps'.chans[c].net == maps.chans[c].net
    requires forall id :: id in maps'.subs ==> id in maps.subs && maps'.subs[id] == maps.subs[id]
    ensures MapsOk(maps', seqNo, born)
  {
    forall c | H.Registered(maps', c) ensures Below(H.Stream(maps'.chans[c]), Get(seqNo, maps'.chans[c].net)) {
      assert H.Registered(maps, c);
    }
  }

  lemma UnsubscribeKeeps(s: State, c: nat)
    requires StreamsOk(s)
    ensures StreamsOk(Unsubscribe(s, c))
  {
    H.LeaveKeeps(s.maps, c, MAP_BUFFER);
    LeaveMaps(s.maps, H.Leave(s.maps, c), s.seqNo, s.born);
  }

  lemma TakeMapKeeps(s: State, c: nat)
    requires StreamsOk(s)
    ensures StreamsOk(s.(maps := H.Take(s.maps, c)))
  {
    H.TakeKeeps(s.maps, c, MAP_BUFFER);
    LeaveMaps(s.maps, H.Take(s.maps, c), s.seqNo, s.born);
  }

  // ---------------------------------------------------------------- signals

  lemma SignalSubscribeKeeps(s: State, mkey: string)
    requires StreamsOk(s) && StoreOk(s)
    ensures StreamsOk(SignalSubscribe(s, mkey))
  {
    var found := FindNode(s.db.nodes, mkey, s.db.lastId);
    if found.Some? {
      assert RowOk(s.db.networks, s.db.lastId, s.born, found.value, s.db.nodes[found.value]);
      OpenSigs(s.sigs, s.born, found.value, s.db.nodes[found.value].net);
    }
  }

  lemma OpenSigs(sigs: H.Hub<Signal>, born: map<nat, nat>, id: nat, net: nat)
    requires SigsOk(sigs, born) && id in born && born[id] == net
    ensures SigsOk(H.Open(sigs, id, net, []), born)
  {
    var sigs' := H.Open(sigs, id, net, []);
    H.OpenKeeps(sigs, id, net, [], SIGNAL_BUFFER);
    forall c | c in sigs'.chans ensures InboxOk(born, sigs'.chans[c]) {
      if c in sigs.chans && c != sigs.next {
        assert InboxOk(born, sigs.chans[c]);
        assert H.Stream(sigs'.chans[c]) == H.Stream(sigs.chans[c]);
      }
    }
  }

  lemma RouteSignalKeeps(s: State, c: nat, env: Signal)
    requires StreamsOk(s) && StoreOk(s)
    ensures StreamsOk(RouteSignal(s, c, env))
  {
    if c in s.sigs.chans && env.to <= MAX_ID && env.to in s.db.nodes && s.db.nodes[env.to].net == s.sigs.chans[c].net {
      assert RowOk(s.db.networks, s.db.lastId, s.born, env.to, s.db.nodes[env.to]);
      assert InboxOk(s.born, s.sigs.chans[c]);
      PushSig(s.sigs, s.born, env.to, env.(from := s.sigs.chans[c].owner));
    }
  }

  lemma PushSig(sigs: H.Hub<Signal>, born: map<nat, nat>, id: nat, x: Signal)
    requires SigsOk(sigs, born) && x.to == id && id in born && x.from in born && born[x.from] == born[id]
    ensures SigsOk(H.Push(sigs, id, x, SIGNAL_BUFFER), born)
  {
    var sigs' := H.Push(sigs, id, x, SIGNAL_BUFFER);
    H.PushKeeps(sigs, id, x, SIGNAL_BUFFER);
    forall c | c in sigs'.chans ensures InboxOk(born, sigs'.chans[c]) {
      assert InboxOk(born, sigs.chans[c]);
      var was, now := H.Stream(sigs.chans[c]), H.Stream(sigs'.chans[c]);
      assert now == was || (sigs.chans[c].owner == id && now == was + [x]);
    }
  }

  lemma LeaveSigs(sigs: H.Hub<Signal>, sigs': H.Hub<Signal>, born: map<nat, nat>)
    requires SigsOk(sigs, born) && H.HubOk(sigs', SIGNAL_BUFFER) && sigs'.chans.Keys == sigs.chans.Keys
    requires forall c :: c in sigs.chans ==>
               && H.Stream(sigs'.chans[c]) == H.Stream(sigs.chans[c])
               && sigs'.chans[c].owner == sigs.chans[c].owner && sigs'.chans[c].net == sigs.chans[c].net
    ensures SigsOk(sigs', born)
  {
    forall c | c in sigs'.chans ensures InboxOk(born, sigs'.chans[c]) { assert InboxOk(born, sigs.chans[c]); }
  }

  // ---------------------------------------------------------------- all events

  lemma TrafficKeepsStreams(s: State, e: Traffic)
    requires StreamsOk(s) && StoreOk(s)
    ensures StreamsOk(ApplyTraffic(s, e))
  {
    match e
    case Notifies(net) => NotifyKeeps(s, net);
    case Subscribes(mkey) => SubscribeKeeps(s, mkey);
    case Unsubscribes(c) => UnsubscribeKeeps(s, c);
    case SignalSubscribes(mkey) => SignalSubscribeKeeps(s, mkey);
    case SignalUnsubscribes(c) =>
      H.LeaveKeeps(s.sigs, c, SIGNAL_BUFFER);
      LeaveSigs(s.sigs, H.Leave(s.sigs, c), s.born);
    case Signals(c, env) => RouteSignalKeeps(s, c, env);
    case TakesMap(c) => TakeMapKeeps(s, c);
    case TakesSignal(c) =>
      H.TakeKeeps(s.sigs, c, SIGNAL_BUFFER);
      LeaveSigs(s.sigs, H.Take(s.sigs, c), s.born);
  }

  /** Nodes are born once and never change network. */
  ghost predicate BornGrows(born: map<nat, nat>, born': map<nat, nat>) {
    forall id :: id in born ==> id in born' && born'[id] == born[id]
  }

  lemma BornGrowsKeeps(s: State, born': map<nat, nat>, nodes': map<nat, Node>)
    requires StreamsOk(s) && BornGrows(s.born, born') && forall id :: id in s.db.nodes ==> id in nodes'
    ensures MapsOk(s.maps, s.seqNo, born') && SigsOk(s.sigs, born') && PresenceOk(s.maps, s.online, s.sigs, nodes')
  {
    forall c | c in s.sigs.chans ensures InboxOk(born', s.sigs.chans[c]) { assert InboxOk(s.born, s.sigs.chans[c]); }
  }

  lemma DeleteKeepsStreams(s: State, id: nat)
    requires StreamsOk(s) && NetworksOk(s.db.networks)
    ensures StreamsOk(DeleteNode(s, id))
  {
    if id in s.db.nodes {
      H.KickKeeps(s.maps, id, MAP_BUFFER);
      H.KickKeeps(s.sigs, id, SIGNAL_BUFFER);
      LeaveMaps(s.maps, H.Kick(s.maps, id), s.seqNo, s.born);
      LeaveSigs(s.sigs, H.Kick(s.sigs, id), s.born);
      KickPresence(s.maps, s.online, s.sigs, s.db.nodes, id);
    }
  }

  /** Deleting a node closes both its streams, once, and deregisters them. */
  lemma DeleteClosesStreams(s: State, id: nat)
    requires StreamsOk(s) && NetworksOk(s.db.networks) && id in s.db.nodes
    ensures var s' := DeleteNode(s, id);
            && id !in s'.maps.subs && id !in s'.sigs.subs && !IsOnline(s'.online, id)
            && (id in s.maps.subs ==> s.maps.subs[id] in s'.maps.chans && s'.maps.chans[s.maps.subs[id]].closes == 1)
            && (id in s.sigs.subs ==> s.sigs.subs[id] in s'.sigs.chans && s'.sigs.chans[s.sigs.subs[id]].closes == 1)
  {
    if id in s.maps.subs { H.DisplacingCloses(s.maps, id, 0, [], MAP_BUFFER, s.maps.subs[id]); }
    if id in s.sigs.subs { H.DisplacingCloses(s.sigs, id, 0, [], SIGNAL_BUFFER, s.sigs.subs[id]); }
  }

  lemma KickPresence(maps: H.Hub<NetMap>, online: map<nat, bool>, sigs: H.Hub<Signal>, nodes: map<nat, Node>, id: nat)
    requires PresenceOk(maps, online, sigs, nodes) && H.HubOk(maps, MAP_BUFFER) && H.HubOk(sigs, SIGNAL_BUFFER)
    ensures PresenceOk(H.Kick(maps, id), online - {id}, H.Kick(sigs, id), nodes - {id})
  {
  }

  lemma SparedStreamsKeep(s: State, s': State)
    requires StreamsOk(s) && SparesStreams(s, s') && forall id :: id in s.born ==> id <= s.db.lastId
    ensures StreamsOk(s')
  {
    BornGrowsKeeps(s, s'.born, s'.db.nodes);
  }

  lemma ChangeSparesStreams(s: State, e: Change)
    requires NetworksOk(s.db.networks) && AllocsValid(s.ipams) && !e.Deletes?
    ensures SparesStreams(s, ApplyChange(s, e))
  {
  }

  lemma ChangeKeepsStreams(s: State, e: Change)
    requires StreamsOk(s) && StoreOk(s) && AllocsValid(s.ipams)
    ensures StreamsOk(ApplyChange(s, e))
  {
    if e.Deletes? {
      DeleteKeepsStreams(s, e.id);
    } else {
      ChangeSparesStreams(s, e);
      SparedStreamsKeep(s, ApplyChange(s, e));
    }
  }

  lemma RestartKeepsStreams(s: State)
    requires StreamsOk(s)
    ensures StreamsOk(Restart(s))
  {
  }
}
