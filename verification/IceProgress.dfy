/** What the connection managers get done: what each message and each locked section
    brings about in every run, and that from every reachable world two open nodes can
    connect. */
module IceProgress {
  import opened Prelude
  import opened ConnMgrModel
  import opened IceProtocol

  /** Worlds i and i + 1 of the run are linked by this step. */
  ghost predicate Takes(ws: seq<World>, i: nat, st: Step) {
    Run(ws) && i + 1 < |ws| && Enabled(ws[i], st) && ws[i + 1] == Apply(ws[i], st)
  }

  ghost predicate OthersStay(w: World, w': World, n: nat) {
    w'.nodes.Keys == w.nodes.Keys && forall m :: m in w.nodes && m != n ==> w'.nodes[m] == w.nodes[m]
  }

  // ---------------------------------------------------------------- offers

  lemma OffersAreTaken(ws: seq<World>, i: nat, e: Envelope)
    requires Takes(ws, i, RecvOffer(e))
    ensures var v, v' := ws[i].nodes[e.dst], ws[i + 1].nodes[e.dst];
            && OfferTaken(v, v', e.src, e.session, e.body.creds) && OthersStay(ws[i], ws[i + 1], e.dst)
            && ws[i + 1].agents == ws[i].agents && ws[i + 1].net == ws[i].net - multiset{e}
            && (!v.closed ==>
                  && e.src in v'.peers
                  && v'.peers[e.src].session
                     == if e.src in v.peers && e.session < v.peers[e.src].session then v.peers[e.src].session
                        else e.session)
  {
  }

  // ---------------------------------------------------------------- answers

  /** An answer to the current session is on its way into the channel of its negotiation;
      any other answer is dropped. */
  lemma AnswersAreTaken(ws: seq<World>, i: nat, e: Envelope)
    requires Takes(ws, i, RecvAnswer(e))
    ensures var v, k := ws[i].nodes[e.dst], Key(e.src, e.session);
            var wanted := e.src in v.peers && v.peers[e.src].session == e.session && k in v.tasks
                          && v.tasks[k].Waiting?;
            && ws[i + 1].transits
               == ws[i].transits + (if wanted then multiset{Transit(e.dst, k, e.body.creds)} else multiset{})
            && ws[i + 1].nodes == ws[i].nodes && ws[i + 1].agents == ws[i].agents
            && ws[i + 1].net == ws[i].net - multiset{e}
  {
  }

  /** The first answer stays in the channel; a later one, or one that comes after the
      negotiation has ended, is dropped. */
  lemma FirstAnswerStays(ws: seq<World>, i: nat, t: Transit)
    requires Takes(ws, i, FillInbox(t))
    ensures var v, v' := ws[i].nodes[t.node], ws[i + 1].nodes[t.node];
            && OthersStay(ws[i], ws[i + 1], t.node) && ws[i + 1].agents == ws[i].agents
            && if t.key in v.tasks && v.tasks[t.key] == Waiting(None)
               then v'.peers == v.peers && OnlyAt(v, v', 0, t.key) && t.key in v'.tasks
                    && v'.tasks[t.key] == Waiting(Some(t.creds))
               else v' == v
  {
  }

  // ---------------------------------------------------------------- agents and candidates

  /** What has been heard of the other side's candidates in the current session: what
      the agent was fed, or what waits for it. */
  function Heard(w: World, n: nat, k: Key): seq<Candidate>
    requires n in w.nodes && Current(w.nodes[n], k)
  {
    if Id(n, k) in w.agents then w.agents[Id(n, k)].cands else w.nodes[n].peers[k.peer].pending
  }

  /** A candidate of the current session is heard, one of another session is not, and no
      other session hears it. */
  lemma CandidatesAreHeard(ws: seq<World>, i: nat, e: Envelope, k: Key)
    requires Takes(ws, i, RecvCandidate(e)) && Current(ws[i].nodes[e.dst], k)
    ensures Current(ws[i + 1].nodes[e.dst], k) && OthersStay(ws[i], ws[i + 1], e.dst)
    ensures Heard(ws[i + 1], e.dst, k)
         == Heard(ws[i], e.dst, k) + if k == Key(e.src, e.session) then [e.body.cand] else []
  {
    RunKeeps(ws, i);
    var j := Key(e.src, e.session);
    if Current(ws[i].nodes[e.dst], j) { NoOldAgent(ws[i], e, j); }
    CandidateIsHeard(ws[i], e, k);
  }

  /** The record of the current session points at the session's own agent, if there is one. */
  predicate OwnAgent(w: World, n: nat, k: Key)
    requires n in w.nodes && Current(w.nodes[n], k)
  {
    var a := w.nodes[n].peers[k.peer].agent;
    if Id(n, k) in w.agents then a == Some(Id(n, k)) else a.None?
  }

  lemma CandidateIsHeard(w: World, e: Envelope, k: Key)
    requires Enabled(w, RecvCandidate(e)) && Current(w.nodes[e.dst], k)
    requires Current(w.nodes[e.dst], Key(e.src, e.session)) ==>
               w.nodes[e.dst].self == e.dst && OwnAgent(w, e.dst, Key(e.src, e.session))
    ensures var w' := Apply(w, RecvCandidate(e));
            && Current(w'.nodes[e.dst], k) && OthersStay(w, w', e.dst)
            && Heard(w', e.dst, k) == Heard(w, e.dst, k) + if k == Key(e.src, e.session) then [e.body.cand] else []
  {
    var v, j := w.nodes[e.dst], Key(e.src, e.session);
    if Current(v, j) && Id(e.dst, j) in w.agents {
      assert CandidateTarget(v, j) == Some(Id(e.dst, j)) && HandleCandidate(v, j, e.body.cand) == v;
    }
  }

  /** When a candidate of the current session arrives, the record does not point at the
      agent of an earlier one. */
  lemma NoOldAgent(w: World, e: Envelope, k: Key)
    requires Inv(w) && Enabled(w, RecvCandidate(e)) && k == Key(e.src, e.session) && Current(w.nodes[e.dst], k)
    ensures w.nodes[e.dst].self == e.dst && OwnAgent(w, e.dst, k)
  {
    assert EnvelopeOk(w, e);
    assert NodeOk(w, e.dst, w.nodes[e.dst]) && EntryOk(w, e.dst, k.peer, w.nodes[e.dst].peers[k.peer]);
  }

  /** A new agent joins its session if that is still current: it takes over what was
      heard so far, and the credentials of the offer that started it.  Otherwise the
      negotiation ends without a trace. */
  lemma AgentsJoinTheirSession(ws: seq<World>, i: nat, n: nat, k: Key, creds: Creds)
    requires Takes(ws, i, AttachAgent(n, k, creds))
    ensures var v, v', id := ws[i].nodes[n], ws[i + 1].nodes[n], Id(n, k);
            && OnlyAt(v, v', k.peer, k) && OthersStay(ws[i], ws[i + 1], n) && ws[i + 1].net == ws[i].net
            && if Current(v, k)
               then
                 && Current(v', k) && v'.peers[k.peer].agent == Some(id) && v'.peers[k.peer].pending == []
                 && k in v'.tasks && v'.tasks[k] == Ready
                 && ws[i + 1].agents == ws[i].agents[id := Agent(creds, v.tasks[k].offer, false, Heard(ws[i], n, k))]
               else ws[i + 1].agents == ws[i].agents && v'.peers == v.peers && k !in v'.tasks
  {
    RunKeeps(ws, i);
    AttachIsFresh(ws[i], n, k, creds);
  }

  // ---------------------------------------------------------------- failures and retries

  /** A failed initiator sleeps and tries again, a failed responder is gone. */
  lemma FailuresEnd(ws: seq<World>, i: nat, n: nat, k: Key)
    requires Takes(ws, i, GiveUp(n, k))
    ensures var v, v' := ws[i].nodes[n], ws[i + 1].nodes[n];
            && OnlyAt(v, v', k.peer, k) && v'.peers == v.peers && OthersStay(ws[i], ws[i + 1], n)
            && (k in v'.tasks <==> n < k.peer) && (n < k.peer ==> v'.tasks[k] == Backoff)
  {
    RunKeeps(ws, i);
    assert NodeOk(ws[i], n, ws[i].nodes[n]);
  }

  /** A retry of the current session draws a new one, under which the loop goes on; a
      loop whose session is no longer current, or whose node is closed, ends. */
  lemma RetriesRenew(ws: seq<World>, i: nat, n: nat, k: Key, s: nat)
    requires Takes(ws, i, Retry(n, k, s))
    ensures var v, v' := ws[i].nodes[n], ws[i + 1].nodes[n];
            && OthersStay(ws[i], ws[i + 1], n) && ws[i + 1].agents == ws[i].agents && k !in v'.tasks
            && if Current(v, k) && !v.closed
               then
                 && Current(v', Key(k.peer, s)) && v'.peers[k.peer].pending == [] && v'.clock == s > v.clock
                 && v'.peers[k.peer].agent == v.peers[k.peer].agent
                 && Key(k.peer, s) in v'.tasks && v'.tasks[Key(k.peer, s)] == Start(None)
                 && v'.tasks == (v.tasks - {k})[Key(k.peer, s) := Start(None)]
                 && (forall q :: q != k.peer ==>
                       (q in v'.peers <==> q in v.peers) && (q in v.peers ==> v'.peers[q] == v.peers[q]))
               else v'.peers == v.peers && v'.tasks == v.tasks - {k}
  {
    RunKeeps(ws, i);
    assert NodeOk(ws[i], n, ws[i].nodes[n]) && TaskOk(ws[i], n, k, ws[i].nodes[n].tasks[k]);
  }

  // ---------------------------------------------------------------- connecting

  ghost predicate NextAt(path: seq<World>, i: nat)
    requires i + 1 < |path|
  {
    Next(path[i], path[i + 1])
  }

  /** Worlds from w to w', each a protocol step after the one before. */
  ghost predicate IsPath(path: seq<World>, w: World, w': World) {
    && path != [] && path[0] == w && path[|path| - 1] == w'
    && forall i :: 0 <= i < |path| - 1 ==> NextAt(path, i)
  }

  /** The initiator a is about to negotiate session s, of which the open node b knows
      nothing yet. */
  ghost predicate Poised(w: World, a: nat, b: nat, s: nat) {
    && a < b && a in w.nodes && b in w.nodes && !w.nodes[b].closed
    && Current(w.nodes[a], Key(b, s)) && Key(b, s) in w.nodes[a].tasks && w.nodes[a].tasks[Key(b, s)] == Start(None)
    && (a in w.nodes[b].peers ==> w.nodes[b].peers[a].session < s)
  }

  /** Both ends hold an agent for the session, each with the other's credentials. */
  predicate Connected(w: World, a: nat, b: nat, s: nat, ca: Creds, cb: Creds) {
    var x, y := AgentId(a, b, s), AgentId(b, a, s);
    && x in w.agents && w.agents[x].creds == ca && w.agents[x].remote == Some(cb)
    && y in w.agents && w.agents[y].creds == cb && w.agents[y].remote == Some(ca)
  }

  /** Nothing with a session that a has not drawn yet is anywhere at b. */
  lemma NewSessionIsNew(w: World, a: nat, b: nat, s: nat)
    requires Inv(w) && a < b && a in w.nodes && b in w.nodes && w.nodes[a].clock < s
    ensures a in w.nodes[b].peers ==> w.nodes[b].peers[a].session < s
  {
    assert NodeOk(w, b, w.nodes[b]);
    if a in w.nodes[b].peers { assert EntryOk(w, b, a, w.nodes[b].peers[a]); }
  }

  // The initiator, up to its offer.

  ghost predicate Asked(w: World, a: nat, b: nat, s: nat, ca: Creds) {
    var x, e := AgentId(a, b, s), Envelope(a, b, s, Offer(ca));
    && a < b && a in w.nodes && b in w.nodes && !w.nodes[b].closed
    && Current(w.nodes[a], Key(b, s)) && Key(b, s) in w.nodes[a].tasks && w.nodes[a].tasks[Key(b, s)] == Waiting(None)
    && (a in w.nodes[b].peers ==> w.nodes[b].peers[a].session < s)
    && x in w.agents && w.agents[x].creds == ca && e in w.net
  }

  lemma Asks(w: World, a: nat, b: nat, s: nat, ca: Creds) returns (path: seq<World>)
    requires Poised(w, a, b, s)
    ensures path != [] && IsPath(path, w, path[|path| - 1]) && Asked(path[|path| - 1], a, b, s, ca)
  {
    var k := Key(b, s);
    var w1 := Apply(w, AttachAgent(a, k, ca));
    assert Next(w, w1);
    var w2 := Apply(w1, SendOffer(a, k));
    assert Next(w1, w2);
    path := [w, w1, w2];
    assert NextAt(path, 0) && NextAt(path, 1);
  }

  // The responder, up to its answer.

  ghost predicate Replied(w: World, a: nat, b: nat, s: nat, ca: Creds, cb: Creds) {
    var x, y, e := AgentId(a, b, s), AgentId(b, a, s), Envelope(b, a, s, Answer(cb));
    && a < b && a in w.nodes && b in w.nodes
    && Current(w.nodes[a], Key(b, s)) && Key(b, s) in w.nodes[a].tasks && w.nodes[a].tasks[Key(b, s)] == Waiting(None)
    && x in w.agents && w.agents[x].creds == ca && e in w.net
    && y in w.agents && w.agents[y].creds == cb && w.agents[y].remote == Some(ca)
  }

  ghost predicate AboutToReply(w: World, a: nat, b: nat, s: nat, ca: Creds) {
    var x := AgentId(a, b, s);
    && a < b && a in w.nodes && b in w.nodes
    && Current(w.nodes[a], Key(b, s)) && Key(b, s) in w.nodes[a].tasks && w.nodes[a].tasks[Key(b, s)] == Waiting(None)
    && x in w.agents && w.agents[x].creds == ca
    && Current(w.nodes[b], Key(a, s)) && Key(a, s) in w.nodes[b].tasks && w.nodes[b].tasks[Key(a, s)] == Start(Some(ca))
  }

  lemma Responds(w: World, a: nat, b: nat, s: nat, ca: Creds) returns (w': World)
    requires Asked(w, a, b, s, ca)
    ensures Next(w, w') && AboutToReply(w', a, b, s, ca)
  {
    w' := Apply(w, RecvOffer(Envelope(a, b, s, Offer(ca))));
  }

  lemma Replies(w: World, a: nat, b: nat, s: nat, ca: Creds, cb: Creds) returns (path: seq<World>)
    requires AboutToReply(w, a, b, s, ca)
    ensures path != [] && IsPath(path, w, path[|path| - 1]) && Replied(path[|path| - 1], a, b, s, ca, cb)
  {
    var k := Key(a, s);
    var w1 := Apply(w, AttachAgent(b, k, cb));
    assert Next(w, w1);
    var w2 := Apply(w1, SendAnswer(b, k));
    assert Next(w1, w2);
    path := [w, w1, w2];
    assert NextAt(path, 0) && NextAt(path, 1);
  }

  /** The answer is about to enter the initiator's channel. */
  ghost predicate Underway(w: World, a: nat, b: nat, s: nat, ca: Creds, cb: Creds) {
    var x, y := AgentId(a, b, s), AgentId(b, a, s);
    && a < b && a in w.nodes && Key(b, s) in w.nodes[a].tasks && w.nodes[a].tasks[Key(b, s)] == Waiting(None)
    && x in w.agents && w.agents[x].creds == ca && Transit(a, Key(b, s), cb) in w.transits
    && y in w.agents && w.agents[y].creds == cb && w.agents[y].remote == Some(ca)
  }

  /** The answer waits in the initiator's channel. */
  ghost predicate Told(w: World, a: nat, b: nat, s: nat, ca: Creds, cb: Creds) {
    var x, y := AgentId(a, b, s), AgentId(b, a, s);
    && a < b && a in w.nodes && Key(b, s) in w.nodes[a].tasks && w.nodes[a].tasks[Key(b, s)] == Waiting(Some(cb))
    && x in w.agents && w.agents[x].creds == ca
    && y in w.agents && w.agents[y].creds == cb && w.agents[y].remote == Some(ca)
  }

  lemma Arrives(w: World, a: nat, b: nat, s: nat, ca: Creds, cb: Creds) returns (w': World)
    requires Replied(w, a, b, s, ca, cb)
    ensures Next(w, w') && Underway(w', a, b, s, ca, cb)
  {
    w' := Apply(w, RecvAnswer(Envelope(b, a, s, Answer(cb))));
  }

  lemma Tells(w: World, a: nat, b: nat, s: nat, ca: Creds, cb: Creds) returns (w': World)
    requires Underway(w, a, b, s, ca, cb)
    ensures Next(w, w') && Told(w', a, b, s, ca, cb)
  {
    w' := Apply(w, FillInbox(Transit(a, Key(b, s), cb)));
  }

  lemma Dials(w: World, a: nat, b: nat, s: nat, ca: Creds, cb: Creds) returns (w': World)
    requires Told(w, a, b, s, ca, cb)
    ensures Next(w, w') && Connected(w', a, b, s, ca, cb)
  {
    w' := Apply(w, Dial(a, Key(b, s)));
  }

  lemma Joined(p: seq<World>, q: seq<World>, w: World, u: World, w': World) returns (path: seq<World>)
    requires IsPath(p, w, u) && IsPath(q, u, w')
    ensures IsPath(path, w, w')
  {
    path := p + q[1..];
    assert path[|path| - 1] == w';
    forall i | 0 <= i < |path| - 1 ensures NextAt(path, i) {
      if i < |p| - 1 { assert NextAt(p, i); } else { assert NextAt(q, i - (|p| - 1)); }
    }
  }

  lemma OneMore(p: seq<World>, w: World, u: World, w': World) returns (path: seq<World>)
    requires IsPath(p, w, u) && Next(u, w')
    ensures IsPath(path, w, w')
  {
    path := p + [w'];
    forall i | 0 <= i < |path| - 1 ensures NextAt(path, i) { if i < |p| - 1 { assert NextAt(p, i); } }
  }

  lemma PoisedConnects(w: World, a: nat, b: nat, s: nat, ca: Creds, cb: Creds) returns (path: seq<World>)
    requires Poised(w, a, b, s)
    ensures path != [] && IsPath(path, w, path[|path| - 1]) && Connected(path[|path| - 1], a, b, s, ca, cb)
  {
    path := Asks(w, a, b, s, ca);
    var u := path[|path| - 1];
    var v := Responds(u, a, b, s, ca);
    path := OneMore(path, w, u, v);
    var q := AnswersAndDials(v, a, b, s, ca, cb);
    path := Joined(path, q, w, v, q[|q| - 1]);
  }

  lemma AnswersAndDials(w: World, a: nat, b: nat, s: nat, ca: Creds, cb: Creds) returns (path: seq<World>)
    requires AboutToReply(w, a, b, s, ca)
    ensures path != [] && IsPath(path, w, path[|path| - 1]) && Connected(path[|path| - 1], a, b, s, ca, cb)
  {
    path := Replies(w, a, b, s, ca, cb);
    var u := path[|path| - 1];
    var v := Arrives(u, a, b, s, ca, cb);
    path := OneMore(path, w, u, v);
    u := Tells(v, a, b, s, ca, cb);
    path := OneMore(path, w, v, u);
    v := Dials(u, a, b, s, ca, cb);
    path := OneMore(path, w, u, v);
  }

  lemma StepAndConnect(w: World, w1: World, a: nat, b: nat, s: nat, ca: Creds, cb: Creds) returns (path: seq<World>)
    requires Next(w, w1) && Poised(w1, a, b, s)
    ensures path != [] && IsPath(path, w, path[|path| - 1]) && Connected(path[|path| - 1], a, b, s, ca, cb)
  {
    var q := PoisedConnects(w1, a, b, s, ca, cb);
    path := [w, w1];
    assert NextAt(path, 0);
    path := Joined(path, q, w, w1, q[|q| - 1]);
  }

  lemma RetryPoises(w: World, a: nat, k: Key, s: nat)
    requires Inv(w) && Enabled(w, Retry(a, k, s)) && a < k.peer && k.peer in w.nodes
    requires Current(w.nodes[a], k) && !w.nodes[a].closed && !w.nodes[k.peer].closed
    ensures Next(w, Apply(w, Retry(a, k, s))) && Poised(Apply(w, Retry(a, k, s)), a, k.peer, s)
  {
    NewSessionIsNew(w, a, k.peer, s);
  }

  lemma LaunchPoises(w: World, a: nat, b: nat, s: nat) returns (w': World)
    requires Inv(w) && a < b && a in w.nodes && b in w.nodes && !w.nodes[b].closed && w.nodes[a].clock < s
    ensures Next(w, w') && Poised(w', a, b, s)
  {
    NewSessionIsNew(w, a, b, s);
    var v := w.nodes[a];
    assert NodeOk(w, a, v);
    LaunchReconciles(v, v, b, s);
    w' := Apply(w, Reconcile(a, Launch(v, b, s)));
  }

  /** From every reachable world a sleeping initiator can reach an open peer again: after
      its retry the two can connect under the new session, whatever else is going on. */
  lemma CanReconnect(ws: seq<World>, i: nat, a: nat, k: Key, s: nat, ca: Creds, cb: Creds) returns (path: seq<World>)
    requires Run(ws) && i < |ws| && Enabled(ws[i], Retry(a, k, s)) && a < k.peer && k.peer in ws[i].nodes
    requires Current(ws[i].nodes[a], k) && !ws[i].nodes[a].closed && !ws[i].nodes[k.peer].closed
    ensures path != [] && IsPath(path, ws[i], path[|path| - 1]) && Connected(path[|path| - 1], a, k.peer, s, ca, cb)
  {
    RunKeeps(ws, i);
    RetryPoises(ws[i], a, k, s);
    path := StepAndConnect(ws[i], Apply(ws[i], Retry(a, k, s)), a, k.peer, s, ca, cb);
  }

  /** And a node that learns of an open peer with a higher ID can connect to it. */
  lemma CanConnect(ws: seq<World>, i: nat, a: nat, b: nat, s: nat, ca: Creds, cb: Creds) returns (path: seq<World>)
    requires Run(ws) && i < |ws| && a < b && a in ws[i].nodes && b in ws[i].nodes
    requires !ws[i].nodes[b].closed && ws[i].nodes[a].clock < s
    ensures path != [] && IsPath(path, ws[i], path[|path| - 1]) && Connected(path[|path| - 1], a, b, s, ca, cb)
  {
    RunKeeps(ws, i);
    var w := LaunchPoises(ws[i], a, b, s);
    path := StepAndConnect(ws[i], w, a, b, s, ca, cb);
  }
}
