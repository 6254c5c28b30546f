/** Signals over whole runs of the coordinator: where every signal in an inbox comes
    from, in which order, and what late unsubscribes do. */
module CoordSignals {
  import opened CoordModel
  import opened CoordSafety
  import opened CoordStreams
  import opened CoordRuns
  import H = Hub

  /** The event sends x: the envelope that arrived on a stream, stamped with the node the
      stream was opened for. */
  predicate Sends(s: State, e: Event, x: Signal) {
    && e.Streams? && e.traffic.Signals? && e.traffic.c in s.sigs.chans
    && x == e.traffic.env.(from := s.sigs.chans[e.traffic.c].owner)
  }

  /** The event opens signal stream c for the node whose machine key it presents. */
  predicate Authenticates(s: State, e: Event, c: nat, owner: nat) {
    && e.Streams? && e.traffic.SignalSubscribes? && c == s.sigs.next
    && owner in s.db.nodes && s.db.nodes[owner].machineKey == e.traffic.mkey
  }

  /** In one step an inbox keeps what it has, its owner and its network, and grows by at
      most the signal the step sends; a new one is opened by its owner. */
  ghost predicate InboxStep(s: State, e: Event, s': State, c: nat) {
    && InboxKept(s.sigs, s'.sigs, c)
    && (c !in s.sigs.chans && c in s'.sigs.chans ==> Authenticates(s, e, c, s'.sigs.chans[c].owner))
    && GrowsBySignal(s, e, StreamOf(s.sigs, c), StreamOf(s'.sigs, c))
  }

  predicate InboxKept(h: H.Hub<Signal>, h': H.Hub<Signal>, c: nat) {
    c in h.chans ==>
      c in h'.chans && h'.chans[c].owner == h.chans[c].owner && h'.chans[c].net == h.chans[c].net
  }

  predicate GrowsBySignal(s: State, e: Event, t: seq<Signal>, t': seq<Signal>) {
    t' == t || (GrewByOne(t, t') && Sends(s, e, t'[|t|]))
  }

  // ---------------------------------------------------------------- one step

  lemma OpenInbox(s: State, mkey: string, c: nat)
    requires H.HubOk(s.sigs, SIGNAL_BUFFER) && StoreOk(s)
    ensures InboxStep(s, Streams(SignalSubscribes(mkey)), SignalSubscribe(s, mkey), c)
  {
    var found := FindNode(s.db.nodes, mkey, s.db.lastId);
    if found.Some? {
      var n := s.db.nodes[found.value];
      assert RowOk(s.db.networks, s.db.lastId, s.born, found.value, n);
      OpenStreams(s.sigs, n.id, n.net, c);
    }
  }

  lemma OpenStreams(h: H.Hub<Signal>, id: nat, net: nat, c: nat)
    requires H.HubOk(h, SIGNAL_BUFFER)
    ensures var h' := H.Open(h, id, net, []);
            && InboxKept(h, h', c) && StreamOf(h', c) == StreamOf(h, c)
            && (c !in h.chans && c in h'.chans ==> c == h.next && h'.chans[c].owner == id)
  {
  }

  lemma PushInbox(s: State, d: nat, env: Signal, c: nat)
    requires H.HubOk(s.sigs, SIGNAL_BUFFER)
    ensures InboxStep(s, Streams(Signals(d, env)), RouteSignal(s, d, env), c)
  {
    var s' := RouteSignal(s, d, env);
    if c in s.sigs.chans && s'.sigs != s.sigs {
      var ch, x := s.sigs.chans[c], env.(from := s.sigs.chans[d].owner);
      assert ch.taken + (ch.queue + [x]) == H.Stream(ch) + [x];
    }
  }

  lemma QuietTraffic(s: State, t: Traffic, c: nat)
    requires H.HubOk(s.sigs, SIGNAL_BUFFER) && !t.SignalSubscribes? && !t.Signals?
    ensures InboxStep(s, Streams(t), ApplyTraffic(s, t), c)
  {
    if t.TakesSignal? { H.TakeKeeps(s.sigs, t.c, SIGNAL_BUFFER); }
  }

  lemma ChangeInbox(s: State, e: Change, c: nat)
    requires NetworksOk(s.db.networks) && AllocsValid(s.ipams)
    ensures InboxStep(s, Writes(e), ApplyChange(s, e), c)
  {
    if e.Deletes? { KickStreams(s.sigs, e.id, c); } else { ChangeSparesStreams(s, e); }
  }

  lemma RunInbox(ss: seq<State>, es: seq<Event>, k: nat, c: nat)
    requires IsRun(ss, es) && k < |es|
    ensures InboxStep(ss[k], es[k], ss[k + 1], c)
  {
    RunKeeps(ss, es, k);
    assert StepAt(ss, es, k);
    LeadsIsApply(ss[k], es[k], ss[k + 1]);
    match es[k]
    case Writes(e) => ChangeInbox(ss[k], e, c);
    case Streams(t) =>
      if t.SignalSubscribes? {
        OpenInbox(ss[k], t.mkey, c);
      } else if t.Signals? {
        PushInbox(ss[k], t.c, t.env, c);
      } else {
        QuietTraffic(ss[k], t, c);
      }
    case Restarts =>
  }

  // ---------------------------------------------------------------- whole runs

  /** Position i of the stream of inbox c was filled by event j. */
  predicate FilledBy(ss: seq<State>, j: nat, c: nat, i: nat) {
    j + 1 < |ss| && |StreamOf(ss[j].sigs, c)| == i && |StreamOf(ss[j + 1].sigs, c)| == i + 1
  }

  /** Every signal stream was opened by a subscription that presented its owner's key. */
  lemma {:induction false} StreamsAreAuthenticated(ss: seq<State>, es: seq<Event>, k: nat, c: nat) returns (j: nat)
    requires IsRun(ss, es) && k <= |es| && c in ss[k].sigs.chans
    ensures j < k && c !in ss[j].sigs.chans && Authenticates(ss[j], es[j], c, ss[k].sigs.chans[c].owner)
    decreases k
  {
    OpenedAt(ss, es, k - 1, c);
    if c in ss[k - 1].sigs.chans { j := StreamsAreAuthenticated(ss, es, k - 1, c); } else { j := k - 1; }
  }

  lemma OpenedAt(ss: seq<State>, es: seq<Event>, k: nat, c: nat)
    requires IsRun(ss, es) && k < |es| && c in ss[k + 1].sigs.chans
    ensures var owner := ss[k + 1].sigs.chans[c].owner;
            if c in ss[k].sigs.chans then ss[k].sigs.chans[c].owner == owner else Authenticates(ss[k], es[k], c, owner)
  {
    RunInbox(ss, es, k, c);
  }

  /** What inbox c has held after each event up to k. */
  function InboxStreams(ss: seq<State>, k: nat, c: nat): seq<seq<Signal>>
    requires k < |ss|
  {
    seq(k + 1, n requires 0 <= n <= k => StreamOf(ss[n].sigs, c))
  }

  lemma StreamsGrow(ss: seq<State>, es: seq<Event>, k: nat, c: nat)
    requires IsRun(ss, es) && k <= |es|
    ensures Growing(InboxStreams(ss, k, c))
  {
    var ts := InboxStreams(ss, k, c);
    forall n | 0 <= n < k ensures GrowsAt(ts, n) { RunInbox(ss, es, n, c); }
  }

  lemma SentAt(ss: seq<State>, es: seq<Event>, k: nat, c: nat, i: nat) returns (j: nat)
    requires IsRun(ss, es) && k <= |es| && i < |StreamOf(ss[k].sigs, c)|
    ensures j < k && FilledBy(ss, j, c, i) && Sends(ss[j], es[j], StreamOf(ss[k].sigs, c)[i])
  {
    StreamsGrow(ss, es, k, c);
    j := FilledAt(ss, k, c, i);
    RunInbox(ss, es, j, c);
  }

  lemma FilledAt(ss: seq<State>, k: nat, c: nat, i: nat) returns (j: nat)
    requires k < |ss| && Growing(InboxStreams(ss, k, c)) && StreamOf(ss[0].sigs, c) == []
    requires i < |StreamOf(ss[k].sigs, c)|
    ensures j < k && FilledBy(ss, j, c, i) && StreamOf(ss[j + 1].sigs, c)[i] == StreamOf(ss[k].sigs, c)[i]
  {
    j := AddedAt(InboxStreams(ss, k, c), i);
  }

  /** Every signal in an inbox, delivered or queued, was sent by an event of its own: the
      envelope of some stream with the source replaced by the node that opened that
      stream with its machine key.  It is addressed to the owner of the inbox, and both
      nodes belong to one network. */
  lemma SignalsAreAuthentic(ss: seq<State>, es: seq<Event>, k: nat, c: nat, i: nat) returns (j: nat, o: nat)
    requires IsRun(ss, es) && k <= |es| && c in ss[k].sigs.chans && i < |StreamOf(ss[k].sigs, c)|
    ensures var x, inbox := StreamOf(ss[k].sigs, c)[i], ss[k].sigs.chans[c];
            && o < j < k && FilledBy(ss, j, c, i) && Sends(ss[j], es[j], x)
            && Authenticates(ss[o], es[o], es[j].traffic.c, x.from)
            && x.to == inbox.owner && x.from in ss[k].born
            && inbox.owner in ss[k].born && ss[k].born[x.from] == ss[k].born[inbox.owner]
  {
    j := SentAt(ss, es, k, c, i);
    o := StreamsAreAuthenticated(ss, es, j, es[j].traffic.c);
    InNetwork(ss, es, k, c, i);
  }

  lemma InNetwork(ss: seq<State>, es: seq<Event>, k: nat, c: nat, i: nat)
    requires IsRun(ss, es) && k <= |es| && c in ss[k].sigs.chans && i < |StreamOf(ss[k].sigs, c)|
    ensures var x, inbox := StreamOf(ss[k].sigs, c)[i], ss[k].sigs.chans[c];
            && x.to == inbox.owner && x.from in ss[k].born
            && inbox.owner in ss[k].born && ss[k].born[x.from] == ss[k].born[inbox.owner]
  {
    RunKeeps(ss, es, k);
    assert InboxOk(ss[k].born, ss[k].sigs.chans[c]);
    assert StreamOf(ss[k].sigs, c)[i] in H.Stream(ss[k].sigs.chans[c]);
  }

  // ---------------------------------------------------------------- no duplicates

  lemma OneInboxGrows(s: State, e: Event, s': State, c: nat, d: nat)
    requires StreamOf(s'.sigs, c) != StreamOf(s.sigs, c) && StreamOf(s'.sigs, d) != StreamOf(s.sigs, d)
    requires e.Streams? && e.traffic.Signals? && s' == ApplyTraffic(s, e.traffic)
    ensures c == d
  {
  }

  /** Distinct positions of inboxes have distinct sending events, so no signal is
      delivered twice, and along one inbox the events come in the order of the signals. */
  lemma SignalsAreNotRepeated(ss: seq<State>, es: seq<Event>, j: nat, c: nat, i: nat, j': nat, c': nat, i': nat)
    requires IsRun(ss, es) && FilledBy(ss, j, c, i) && FilledBy(ss, j', c', i')
    ensures j == j' <==> c == c' && i == i'
    ensures c == c' && i < i' ==> j < j'
  {
    if j == j' {
      OneInboxPerEvent(ss, es, j, c, i, c', i');
    } else if c == c' {
      NeverShorter(ss, es, c);
      if j < j' { FilledInOrder(ss, j, i, j', i', c); } else { FilledInOrder(ss, j', i', j, i, c); }
    }
  }

  predicate NoShorterAt(ss: seq<State>, n: nat, c: nat)
    requires n + 1 < |ss|
  {
    |StreamOf(ss[n].sigs, c)| <= |StreamOf(ss[n + 1].sigs, c)|
  }

  predicate NoShorter(ss: seq<State>, c: nat) { forall n :: 0 <= n < |ss| - 1 ==> NoShorterAt(ss, n, c) }

  lemma NeverShorter(ss: seq<State>, es: seq<Event>, c: nat)
    requires IsRun(ss, es)
    ensures NoShorter(ss, c)
  {
    forall n | 0 <= n < |es| ensures NoShorterAt(ss, n, c) { RunInbox(ss, es, n, c); }
  }

  lemma {:induction false} LongerLater(ss: seq<State>, j: nat, k: nat, c: nat)
    requires NoShorter(ss, c) && j <= k < |ss|
    ensures |StreamOf(ss[j].sigs, c)| <= |StreamOf(ss[k].sigs, c)|
    decreases k
  {
    if j < k {
      LongerLater(ss, j, k - 1, c);
      assert NoShorterAt(ss, k - 1, c);
    }
  }

  lemma FilledInOrder(ss: seq<State>, j: nat, i: nat, j': nat, i': nat, c: nat)
    requires FilledBy(ss, j, c, i) && FilledBy(ss, j', c, i') && NoShorter(ss, c) && j < j'
    ensures i < i'
  {
    LongerLater(ss, j + 1, j', c);
  }

  lemma OneInboxPerEvent(ss: seq<State>, es: seq<Event>, j: nat, c: nat, i: nat, c': nat, i': nat)
    requires IsRun(ss, es) && FilledBy(ss, j, c, i) && FilledBy(ss, j, c', i')
    ensures c == c' && i == i'
  {
    RunInbox(ss, es, j, c);
    RunKeeps(ss, es, j);
    assert StepAt(ss, es, j);
    LeadsIsApply(ss[j], es[j], ss[j + 1]);
    OneInboxGrows(ss[j], es[j], ss[j + 1], c, c');
  }

  // ---------------------------------------------------------------- late unsubscribes

  lemma StaysLeftOnTraffic(s: State, e: Traffic, c: nat)
    requires H.HubOk(s.sigs, SIGNAL_BUFFER) && Left(s.sigs, c)
    ensures Left(ApplyTraffic(s, e).sigs, c)
  {
  }

  lemma StaysLeftOnChange(s: State, e: Change, c: nat)
    requires NetworksOk(s.db.networks) && AllocsValid(s.ipams) && Left(s.sigs, c)
    ensures Left(ApplyChange(s, e).sigs, c)
  {
    if !e.Deletes? { ChangeSparesStreams(s, e); }
  }

  lemma StaysLeft(ss: seq<State>, es: seq<Event>, k: nat, c: nat)
    requires IsRun(ss, es) && k < |es| && Left(ss[k].sigs, c)
    ensures Left(ss[k + 1].sigs, c)
  {
    RunKeeps(ss, es, k);
    assert StepAt(ss, es, k);
    LeadsIsApply(ss[k], es[k], ss[k + 1]);
    match es[k]
    case Writes(e) => StaysLeftOnChange(ss[k], e, c);
    case Streams(e) => StaysLeftOnTraffic(ss[k], e, c);
    case Restarts =>
  }

  /** Once a signal stream has been replaced, kicked or left, its unsubscribe changes
      nothing, however late it comes. */
  lemma {:induction false} LateSignalLeaveIsNothing(ss: seq<State>, es: seq<Event>, j: nat, k: nat, c: nat)
    requires IsRun(ss, es) && j <= k <= |es| && Left(ss[j].sigs, c)
    ensures Left(ss[k].sigs, c) && H.Leave(ss[k].sigs, c) == ss[k].sigs
    ensures ApplyTraffic(ss[k], SignalUnsubscribes(c)) == ss[k]
    decreases k
  {
    if j < k {
      LateSignalLeaveIsNothing(ss, es, j, k - 1, c);
      StaysLeft(ss, es, k - 1, c);
    }
  }
}
