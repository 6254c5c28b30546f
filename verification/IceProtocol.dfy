/** Any number of nodes running the connection manager over a signalling server
    that may lose and reorder envelopes but neither duplicates nor forges them. */
module IceProtocol {
  import opened Prelude
  import opened ConnMgrModel

  datatype Body = Offer(creds: Creds) | Answer(creds: Creds) | Trickled(cand: Candidate)
  datatype Envelope = Envelope(src: nat, dst: nat, session: nat, body: Body)

  /** What is recorded of an attached agent: its own credentials, the remote
      credentials its negotiation dials or accepts with, whether its credentials
      went out, and the remote candidates it was fed. */
  datatype Agent = Agent(creds: Creds, remote: Option<Creds>, sent: bool, cands: seq<Candidate>)

  /** Credentials HandleAnswer has looked up a channel for but not yet sent into it. */
  datatype Transit = Transit(node: nat, key: Key, creds: Creds)

  datatype World = World(nodes: map<nat, Node>, net: multiset<Envelope>,
                         agents: map<AgentId, Agent>, transits: multiset<Transit>)

  datatype Step =
    | Reconcile(n: nat, after: Node)
    | AttachAgent(n: nat, k: Key, creds: Creds)
    | SendOffer(n: nat, k: Key)
    | SendAnswer(n: nat, k: Key)
    | Trickle(agent: AgentId, line: string)
    | Lose(e: Envelope)
    | RecvOffer(e: Envelope)
    | RecvAnswer(e: Envelope)
    | RecvCandidate(e: Envelope)
    | FillInbox(t: Transit)
    | Dial(n: nat, k: Key)
    | Settle(n: nat, k: Key)             // negotiation succeeded, the goroutine ends
    | GiveUp(n: nat, k: Key)             // any failure inside negotiate
    | Retry(n: nat, k: Key, session: nat)

  predicate Running(w: World, n: nat, k: Key) {
    n in w.nodes && k in w.nodes[n].tasks
  }

  predicate Arrives(w: World, e: Envelope) {
    e in w.net && e.dst in w.nodes
  }

  function Id(n: nat, k: Key): AgentId {
    AgentId(n, k.peer, k.session)
  }

  ghost predicate Enabled(w: World, st: Step) {
    match st
    case Reconcile(n, after) => n in w.nodes && Reconciled(w.nodes[n], after)
    case AttachAgent(n, k, _) => Running(w, n, k) && w.nodes[n].tasks[k].Start?
    case SendOffer(n, k) => Running(w, n, k) && w.nodes[n].tasks[k].Ready? && n < k.peer && Id(n, k) in w.agents
    case SendAnswer(n, k) => Running(w, n, k) && w.nodes[n].tasks[k].Ready? && k.peer < n && Id(n, k) in w.agents
    case Trickle(a, _) => a in w.agents && w.agents[a].sent
    case Lose(e) => e in w.net
    case RecvOffer(e) => Arrives(w, e) && e.body.Offer?
    case RecvAnswer(e) => Arrives(w, e) && e.body.Answer?
    case RecvCandidate(e) => Arrives(w, e) && e.body.Trickled?
    case FillInbox(t) => t in w.transits && t.node in w.nodes
    case Dial(n, k) =>
      && Running(w, n, k) && w.nodes[n].tasks[k].Waiting? && w.nodes[n].tasks[k].inbox.Some?
      && Id(n, k) in w.agents
    case Settle(n, k) => Running(w, n, k) && w.nodes[n].tasks[k].Linking?
    case GiveUp(n, k) => Running(w, n, k) && !w.nodes[n].tasks[k].Backoff?
    case Retry(n, k, s) => Running(w, n, k) && w.nodes[n].tasks[k].Backoff? && w.nodes[n].clock < s
  }

  function SetNode(w: World, n: nat, v: Node): World {
    w.(nodes := w.nodes[n := v])
  }

  function SetPhase(w: World, n: nat, k: Key, ph: Phase): World
    requires n in w.nodes
  {
    SetNode(w, n, w.nodes[n].(tasks := w.nodes[n].tasks[k := ph]))
  }

  /** The negotiation at (n, k) puts its credentials on the wire. */
  function Publish(w: World, n: nat, k: Key, ph: Phase, body: Body): World
    requires n in w.nodes && Id(n, k) in w.agents
  {
    SetPhase(w, n, k, ph).(
      net := w.net + multiset{Envelope(n, k.peer, k.session, body)},
      agents := w.agents[Id(n, k) := w.agents[Id(n, k)].(sent := true)])
  }

  ghost function Apply(w: World, st: Step): World
    requires Enabled(w, st)
  {
    match st
    case Reconcile(n, after) => SetNode(w, n, after)
    case AttachAgent(n, k, creds) => ApplyAttach(w, n, k, creds)
    case SendOffer(n, k) => Publish(w, n, k, Waiting(None), Offer(w.agents[Id(n, k)].creds))
    case SendAnswer(n, k) => Publish(w, n, k, Linking, Answer(w.agents[Id(n, k)].creds))
    case Trickle(a, line) =>
      w.(net := w.net + multiset{Envelope(a.owner, a.peer, a.session, Trickled(Candidate(a, line)))})
    case Lose(e) => w.(net := w.net - multiset{e})
    case RecvOffer(e) =>
      SetNode(w, e.dst, HandleOffer(w.nodes[e.dst], e.src, e.session, e.body.creds)).(net := w.net - multiset{e})
    case RecvAnswer(e) => ApplyAnswer(w, e)
    case RecvCandidate(e) => ApplyCandidate(w, e)
    case FillInbox(t) =>
      SetNode(w, t.node, HandOff(w.nodes[t.node], t.key, t.creds)).(transits := w.transits - multiset{t})
    case Dial(n, k) =>
      SetPhase(w, n, k, Linking).(
        agents := w.agents[Id(n, k) := w.agents[Id(n, k)].(remote := w.nodes[n].tasks[k].inbox)])
    case Settle(n, k) => SetNode(w, n, w.nodes[n].(tasks := w.nodes[n].tasks - {k}))
    case GiveUp(n, k) => SetNode(w, n, Fail(w.nodes[n], k))
    case Retry(n, k, s) => SetNode(w, n, Wake(w.nodes[n], k, s))
  }

  function ApplyAttach(w: World, n: nat, k: Key, creds: Creds): World
    requires Running(w, n, k) && w.nodes[n].tasks[k].Start?
  {
    var v := w.nodes[n];
    var w' := SetNode(w, n, Attach(v, k));
    if !Current(v, k) then w'
    else
      w'.(agents := w.agents[Id(n, k) := Agent(creds, v.tasks[k].offer, false, v.peers[k.peer].pending)])
  }

  function ApplyAnswer(w: World, e: Envelope): World
    requires Arrives(w, e) && e.body.Answer?
  {
    var k := Key(e.src, e.session);
    var w' := w.(net := w.net - multiset{e});
    if TakesAnswer(w.nodes[e.dst], k) then
      w'.(transits := w.transits + multiset{Transit(e.dst, k, e.body.creds)})
    else w'
  }

  function ApplyCandidate(w: World, e: Envelope): World
    requires Arrives(w, e) && e.body.Trickled?
  {
    var k := Key(e.src, e.session);
    var v := w.nodes[e.dst];
    var w' := SetNode(w, e.dst, HandleCandidate(v, k, e.body.cand)).(net := w.net - multiset{e});
    var target := CandidateTarget(v, k);
    if target.Some? && target.value in w.agents then
      var g := w.agents[target.value];
      w'.(agents := w.agents[target.value := g.(cands := g.cands + [e.body.cand])])
    else w'
  }

  ghost predicate Next(w: World, w': World) {
    exists st :: Enabled(w, st) && w' == Apply(w, st)
  }

  ghost predicate Initial(w: World) {
    && (forall n :: n in w.nodes ==> w.nodes[n] == NewNode(n))
    && w.net == multiset{} && w.agents == map[] && w.transits == multiset{}
  }

  /** A run: any finite sequence of worlds linked by protocol steps. */
  ghost predicate Run(ws: seq<World>) {
    && |ws| > 0 && Initial(ws[0])
    && forall i :: 0 <= i < |ws| - 1 ==> Next(ws[i], ws[i + 1])
  }

  // ---------------------------------------------------------------- invariant

  predicate Issued(w: World, a: AgentId, c: Creds) {
    a in w.agents && w.agents[a].creds == c
  }

  /** The initiator a has sent its offer for session s to b. */
  predicate Offered(w: World, a: nat, b: nat, s: nat) {
    AgentId(a, b, s) in w.agents && w.agents[AgentId(a, b, s)].sent
  }

  function Lower(a: nat, b: nat): nat { if a < b then a else b }
  function Upper(a: nat, b: nat): nat { if a < b then b else a }

  /** Session s of the pair was drawn from the lower node's clock. */
  predicate Drawn(w: World, a: nat, b: nat, s: nat) {
    a != b && Lower(a, b) in w.nodes && s <= w.nodes[Lower(a, b)].clock
  }

  /** The responder b still shows some trace of session s of initiator a. */
  predicate Responding(w: World, b: nat, a: nat, s: nat) {
    || AgentId(b, a, s) in w.agents
    || (b in w.nodes && (Key(a, s) in w.nodes[b].tasks || Current(w.nodes[b], Key(a, s))))
  }

  /** Every candidate in cs was gathered by the agent `source`. */
  predicate GatheredBy(w: World, cs: seq<Candidate>, source: AgentId) {
    forall c :: c in cs ==> c.gatheredBy == source && source in w.agents
  }

  predicate AgentOk(w: World, x: AgentId, g: Agent) {
    var mirror := AgentId(x.peer, x.owner, x.session);
    && Drawn(w, x.owner, x.peer, x.session)
    && (g.remote.Some? ==> Issued(w, mirror, g.remote.value))
    && (x.peer < x.owner ==> g.remote.Some? && Offered(w, x.peer, x.owner, x.session))
    && GatheredBy(w, g.cands, mirror)
  }

  ghost predicate AgentsOk(w: World) {
    forall x :: x in w.agents ==> AgentOk(w, x, w.agents[x])
  }

  predicate EnvelopeOk(w: World, e: Envelope) {
    var sender := AgentId(e.src, e.dst, e.session);
    && e.src != e.dst
    && Offered(w, Lower(e.src, e.dst), Upper(e.src, e.dst), e.session)
    && match e.body
       case Offer(c) => e.src < e.dst && w.net[e] == 1 && Issued(w, sender, c)
                        && !Responding(w, e.dst, e.src, e.session)
       case Answer(c) => e.dst < e.src && Issued(w, sender, c)
       case Trickled(c) => c.gatheredBy == sender && sender in w.agents
  }

  predicate SameOffer(e: Envelope, e': Envelope) {
    && e.body.Offer? && e'.body.Offer?
    && e.src == e'.src && e.dst == e'.dst && e.session == e'.session
  }

  ghost predicate NetOk(w: World) {
    && (forall e :: e in w.net ==> EnvelopeOk(w, e))
    && (forall e, e' :: e in w.net && e' in w.net && SameOffer(e, e') ==> e == e')
  }

  predicate TaskOk(w: World, n: nat, k: Key, ph: Phase) {
    var mirror := AgentId(k.peer, n, k.session);
    && Drawn(w, n, k.peer, k.session)
    && (k.peer < n ==> Offered(w, k.peer, n, k.session))
    && match ph
       case Start(r) => Id(n, k) !in w.agents && (r.Some? <==> k.peer < n) && (r.Some? ==> Issued(w, mirror, r.value))
       case Ready => Id(n, k) in w.agents && !w.agents[Id(n, k)].sent
       case Waiting(inbox) => n < k.peer && Id(n, k) in w.agents && (inbox.Some? ==> Issued(w, mirror, inbox.value))
       case Linking => Id(n, k) in w.agents
       case Backoff => n < k.peer
  }

  predicate EntryOk(w: World, n: nat, p: nat, pc: PeerConn) {
    var own := AgentId(n, p, pc.session);
    && Drawn(w, n, p, pc.session)
    && (p < n ==> Offered(w, p, n, pc.session))
    && (pc.agent.Some? ==> pc.agent.value in w.agents && pc.agent.value.owner == n && pc.agent.value.peer == p)
    && (p < n && pc.agent.Some? ==> pc.agent.value == own)
    && (own in w.agents ==> pc.agent == Some(own))
    && GatheredBy(w, pc.pending, AgentId(p, n, pc.session))
  }

  ghost predicate NodeOk(w: World, n: nat, v: Node) {
    && v.self == n
    && (forall k :: k in v.tasks ==> TaskOk(w, n, k, v.tasks[k]))
    && (forall p :: p in v.peers ==> EntryOk(w, n, p, v.peers[p]))
  }

  ghost predicate NodesOk(w: World) {
    forall n :: n in w.nodes ==> NodeOk(w, n, w.nodes[n])
  }

  ghost predicate TransitsOk(w: World) {
    forall t :: t in w.transits ==>
      t.node < t.key.peer && Issued(w, AgentId(t.key.peer, t.node, t.key.session), t.creds)
  }

  ghost predicate Inv(w: World) {
    AgentsOk(w) && NetOk(w) && NodesOk(w) && TransitsOk(w)
  }

  // ---------------------------------------------------------------- preservation

  /** Agents are never forgotten or given new credentials, clocks never run backwards. */
  ghost predicate Grows(w: World, w': World) {
    && w'.nodes.Keys == w.nodes.Keys
    && (forall n :: n in w.nodes ==> w.nodes[n].clock <= w'.nodes[n].clock)
    && (forall x :: x in w.agents ==>
          x in w'.agents && w'.agents[x].creds == w.agents[x].creds && (w.agents[x].sent ==> w'.agents[x].sent))
  }

  lemma AgentStays(w: World, w': World, x: AgentId, g: Agent)
    requires Grows(w, w') && AgentOk(w, x, g)
    ensures AgentOk(w', x, g)
  {
  }

  lemma TaskStays(w: World, w': World, n: nat, k: Key, ph: Phase)
    requires Grows(w, w') && TaskOk(w, n, k, ph)
    requires Id(n, k) in w.agents <==> Id(n, k) in w'.agents
    requires Id(n, k) in w.agents ==> w.agents[Id(n, k)].sent == w'.agents[Id(n, k)].sent
    ensures TaskOk(w', n, k, ph)
  {
  }

  lemma EntryStays(w: World, w': World, n: nat, p: nat, pc: PeerConn)
    requires Grows(w, w') && EntryOk(w, n, p, pc)
    requires AgentId(n, p, pc.session) in w'.agents ==> AgentId(n, p, pc.session) in w.agents
    ensures EntryOk(w', n, p, pc)
  {
  }

  lemma EnvelopeStays(w: World, w': World, e: Envelope)
    requires Grows(w, w') && EnvelopeOk(w, e)
    requires e.body.Offer? ==> w'.net[e] == 1 && !Responding(w', e.dst, e.src, e.session)
    ensures EnvelopeOk(w', e)
  {
  }

  /** Only node n changes, and of the agents only those it owns. */
  ghost predicate Local(w: World, w': World, n: nat) {
    && Grows(w, w')
    && (forall m :: m in w.nodes && m != n ==> w'.nodes[m] == w.nodes[m])
    && (forall x: AgentId :: x in w'.agents && x.owner != n ==> x in w.agents && w'.agents[x] == w.agents[x])
  }

  /** At most the agent `own` is new or changed. */
  ghost predicate OnlyAgent(w: World, w': World, own: AgentId) {
    forall x :: x in w'.agents && x != own ==> x in w.agents && w'.agents[x] == w.agents[x]
  }

  lemma AgentsAfter(w: World, w': World, n: nat, own: AgentId)
    requires AgentsOk(w) && Local(w, w', n) && OnlyAgent(w, w', own)
    requires own in w'.agents ==> AgentOk(w', own, w'.agents[own])
    ensures AgentsOk(w')
  {
    forall x | x in w'.agents && x != own ensures AgentOk(w', x, w'.agents[x]) { AgentStays(w, w', x, w.agents[x]); }
  }

  lemma NodesAfter(w: World, w': World, n: nat)
    requires NodesOk(w) && Local(w, w', n)
    requires n in w.nodes ==> NodeOk(w', n, w'.nodes[n])
    ensures NodesOk(w')
  {
    forall m | m in w'.nodes && m != n ensures NodeOk(w', m, w'.nodes[m]) {
      var v := w.nodes[m];
      forall k | k in v.tasks ensures TaskOk(w', m, k, v.tasks[k]) {
        TaskStays(w, w', m, k, v.tasks[k]);
      }
      forall p | p in v.peers ensures EntryOk(w', m, p, v.peers[p]) {
        EntryStays(w, w', m, p, v.peers[p]);
      }
    }
  }

  /** Node n shows no new trace of a session it responds to. */
  ghost predicate Quiet(w: World, w': World, n: nat) {
    forall a: nat, s: nat :: a < n && Responding(w', n, a, s) ==> Responding(w, n, a, s)
  }

  lemma NetAfter(w: World, w': World, n: nat)
    requires NetOk(w) && Local(w, w', n) && Quiet(w, w', n) && w'.net <= w.net
    ensures NetOk(w')
  {
    forall e | e in w'.net ensures EnvelopeOk(w', e) {
      assert e in w.net && EnvelopeOk(w, e);
      if e.body.Offer? { assert e.dst == n ==> !Responding(w', n, e.src, e.session); }
      EnvelopeStays(w, w', e);
    }
  }

  lemma TransitsAfter(w: World, w': World)
    requires TransitsOk(w) && Grows(w, w') && w'.transits <= w.transits
    ensures TransitsOk(w')
  {
    forall t | t in w'.transits
      ensures t.node < t.key.peer && Issued(w', AgentId(t.key.peer, t.node, t.key.session), t.creds)
    {
      assert t in w.transits;
    }
  }

  /** What a step at node n that sends nothing and accepts no offer has to show. */
  lemma Assemble(w: World, w': World, n: nat, own: AgentId)
    requires Inv(w) && Local(w, w', n) && Quiet(w, w', n) && OnlyAgent(w, w', own)
    requires w'.net <= w.net && w'.transits <= w.transits
    requires own in w'.agents ==> AgentOk(w', own, w'.agents[own])
    requires n in w.nodes ==> NodeOk(w', n, w'.nodes[n])
    ensures Inv(w')
  {
    AgentsAfter(w, w', n, own);
    NodesAfter(w, w', n);
    NetAfter(w, w', n);
    TransitsAfter(w, w');
  }

  /** A session number beyond the initiator's clock names no agent yet. */
  lemma UnseenSession(w: World, a: nat, b: nat, s: nat)
    requires AgentsOk(w) && a in w.nodes && a < b && w.nodes[a].clock < s
    ensures AgentId(a, b, s) !in w.agents && AgentId(b, a, s) !in w.agents
  {
  }

  lemma ReconciledNode(w: World, w': World, n: nat, after: Node)
    requires AgentsOk(w) && n in w.nodes && NodeOk(w, n, w.nodes[n])
    requires Reconciled(w.nodes[n], after) && w' == SetNode(w, n, after)
    ensures Grows(w, w') && NodeOk(w', n, after)
  {
    var v := w.nodes[n];
    assert Grows(w, w');
    forall k | k in after.tasks ensures TaskOk(w', n, k, after.tasks[k]) {
      if k in v.tasks { TaskStays(w, w', n, k, v.tasks[k]); }
      else { UnseenSession(w, n, k.peer, k.session); }
    }
    forall p | p in after.peers ensures EntryOk(w', n, p, after.peers[p]) {
      if p in v.peers && after.peers[p] == v.peers[p] { EntryStays(w, w', n, p, v.peers[p]); }
      else { UnseenSession(w, n, p, after.peers[p].session); }
    }
  }

  lemma ReconcileKeeps(w: World, w': World, n: nat, after: Node)
    requires Inv(w) && n in w.nodes && Reconciled(w.nodes[n], after) && w' == SetNode(w, n, after)
    ensures Inv(w')
  {
    assert NodeOk(w, n, w.nodes[n]);
    ReconciledNode(w, w', n, after);
    Assemble(w, w', n, AgentId(0, 0, 0));
  }

  lemma AttachShape(w: World, w': World, n: nat, k: Key, c: Creds)
    requires Running(w, n, k) && w.nodes[n].tasks[k].Start? && w' == ApplyAttach(w, n, k, c)
    requires TaskOk(w, n, k, w.nodes[n].tasks[k]) && w.nodes[n].self == n
    ensures Local(w, w', n) && OnlyAgent(w, w', Id(n, k))
  {
  }

  lemma AttachQuiet(w: World, w': World, n: nat, k: Key, c: Creds)
    requires Running(w, n, k) && w.nodes[n].tasks[k].Start? && w' == ApplyAttach(w, n, k, c)
    ensures Quiet(w, w', n)
  {
  }

  lemma AttachedNode(w: World, w': World, n: nat, k: Key, c: Creds)
    requires Running(w, n, k) && w.nodes[n].tasks[k].Start? && w' == ApplyAttach(w, n, k, c)
    requires NodeOk(w, n, w.nodes[n]) && Grows(w, w')
    ensures NodeOk(w', n, w'.nodes[n])
  {
    var v, v' := w.nodes[n], w'.nodes[n];
    assert TaskOk(w, n, k, v.tasks[k]);
    forall j | j in v'.tasks ensures TaskOk(w', n, j, v'.tasks[j]) {
      if j != k { TaskStays(w, w', n, j, v.tasks[j]); }
    }
    forall p | p in v'.peers ensures EntryOk(w', n, p, v'.peers[p]) {
      if p != k.peer || !Current(v, k) { EntryStays(w, w', n, p, v.peers[p]); }
      else { assert EntryOk(w, n, p, v.peers[p]); }
    }
  }

  lemma AttachedAgent(w: World, w': World, n: nat, k: Key, c: Creds)
    requires Running(w, n, k) && w.nodes[n].tasks[k].Start? && w' == ApplyAttach(w, n, k, c)
    requires NodeOk(w, n, w.nodes[n]) && Grows(w, w')
    ensures Id(n, k) in w'.agents ==> AgentOk(w', Id(n, k), w'.agents[Id(n, k)])
  {
    var v := w.nodes[n];
    assert TaskOk(w, n, k, v.tasks[k]);
    if Current(v, k) {
      assert EntryOk(w, n, k.peer, v.peers[k.peer]);
    }
  }

  lemma AttachKeeps(w: World, w': World, n: nat, k: Key, c: Creds)
    requires Inv(w) && Running(w, n, k) && w.nodes[n].tasks[k].Start? && w' == ApplyAttach(w, n, k, c)
    ensures Inv(w')
  {
    assert NodeOk(w, n, w.nodes[n]) && TaskOk(w, n, k, w.nodes[n].tasks[k]);
    AttachShape(w, w', n, k, c);
    AttachQuiet(w, w', n, k, c);
    AttachedNode(w, w', n, k, c);
    AttachedAgent(w, w', n, k, c);
    Assemble(w, w', n, Id(n, k));
  }

  lemma PhaseShape(w: World, w': World, n: nat, k: Key, ph: Phase)
    requires Running(w, n, k) && w'.nodes == SetPhase(w, n, k, ph).nodes && w'.agents.Keys == w.agents.Keys
    requires OnlyAgent(w, w', Id(n, k))
    requires Id(n, k) in w.agents ==>
               && w'.agents[Id(n, k)].creds == w.agents[Id(n, k)].creds
               && (w.agents[Id(n, k)].sent ==> w'.agents[Id(n, k)].sent)
    ensures Local(w, w', n) && Quiet(w, w', n)
  {
  }

  /** Moving one goroutine to a sound phase leaves its node sound. */
  lemma PhaseNode(w: World, w': World, n: nat, k: Key, ph: Phase)
    requires n in w.nodes && NodeOk(w, n, w.nodes[n]) && Grows(w, w')
    requires n in w'.nodes && w'.nodes[n] == w.nodes[n].(tasks := w.nodes[n].tasks[k := ph]) && TaskOk(w', n, k, ph)
    requires w'.agents.Keys == w.agents.Keys
    requires forall x: AgentId :: x in w.agents && x != Id(n, k) ==> w'.agents[x].sent == w.agents[x].sent
    ensures NodeOk(w', n, w'.nodes[n])
  {
    var v := w.nodes[n];
    forall j | j in w'.nodes[n].tasks ensures TaskOk(w', n, j, w'.nodes[n].tasks[j]) {
      if j != k { TaskStays(w, w', n, j, v.tasks[j]); }
    }
    forall p | p in v.peers ensures EntryOk(w', n, p, v.peers[p]) { EntryStays(w, w', n, p, v.peers[p]); }
  }

  /** Ending one goroutine leaves its node sound. */
  lemma EndedNode(w: World, w': World, n: nat, k: Key)
    requires n in w.nodes && NodeOk(w, n, w.nodes[n])
    requires w' == SetNode(w, n, w.nodes[n].(tasks := w.nodes[n].tasks - {k}))
    ensures Grows(w, w') && NodeOk(w', n, w'.nodes[n])
  {
    var v := w.nodes[n];
    assert Grows(w, w');
    forall j | j in w'.nodes[n].tasks ensures TaskOk(w', n, j, w'.nodes[n].tasks[j]) {
      TaskStays(w, w', n, j, v.tasks[j]);
    }
    forall p | p in v.peers ensures EntryOk(w', n, p, v.peers[p]) { EntryStays(w, w', n, p, v.peers[p]); }
  }

  lemma EndKeeps(w: World, w': World, n: nat, k: Key)
    requires Inv(w) && n in w.nodes
    requires w' == SetNode(w, n, w.nodes[n].(tasks := w.nodes[n].tasks - {k}))
    ensures Inv(w')
  {
    assert NodeOk(w, n, w.nodes[n]);
    EndedNode(w, w', n, k);
    Assemble(w, w', n, AgentId(0, 0, 0));
  }

  /** Moving one goroutine to a sound phase, with nothing else changed. */
  lemma PhaseKeeps(w: World, w': World, n: nat, k: Key, ph: Phase)
    requires Inv(w) && Running(w, n, k) && w' == SetPhase(w, n, k, ph) && TaskOk(w', n, k, ph)
    ensures Inv(w')
  {
    assert NodeOk(w, n, w.nodes[n]);
    PhaseShape(w, w', n, k, ph);
    PhaseNode(w, w', n, k, ph);
    if Id(n, k) in w.agents { AgentStays(w, w', Id(n, k), w.agents[Id(n, k)]); }
    Assemble(w, w', n, Id(n, k));
  }

  lemma DialledNode(w: World, w': World, n: nat, k: Key)
    requires Enabled(w, Dial(n, k)) && w' == Apply(w, Dial(n, k)) && NodeOk(w, n, w.nodes[n])
    requires AgentOk(w, Id(n, k), w.agents[Id(n, k)])
    ensures Local(w, w', n) && Quiet(w, w', n) && OnlyAgent(w, w', Id(n, k)) && NodeOk(w', n, w'.nodes[n])
    ensures AgentOk(w', Id(n, k), w'.agents[Id(n, k)])
  {
    assert TaskOk(w, n, k, w.nodes[n].tasks[k]);
    PhaseShape(w, w', n, k, Linking);
    PhaseNode(w, w', n, k, Linking);
  }

  lemma DialKeeps(w: World, w': World, n: nat, k: Key)
    requires Inv(w) && Enabled(w, Dial(n, k)) && w' == Apply(w, Dial(n, k))
    ensures Inv(w')
  {
    assert NodeOk(w, n, w.nodes[n]) && AgentOk(w, Id(n, k), w.agents[Id(n, k)]);
    DialledNode(w, w', n, k);
    Assemble(w, w', n, Id(n, k));
  }

  lemma GiveUpKeeps(w: World, w': World, n: nat, k: Key)
    requires Inv(w) && Enabled(w, GiveUp(n, k)) && w' == Apply(w, GiveUp(n, k))
    ensures Inv(w')
  {
    assert NodeOk(w, n, w.nodes[n]) && TaskOk(w, n, k, w.nodes[n].tasks[k]);
    if n < k.peer { PhaseKeeps(w, w', n, k, Backoff); }
    else { EndKeeps(w, w', n, k); }
  }

  /** Losing envelopes or dropping a pending answer breaks nothing. */
  lemma LossKeeps(w: World, w': World)
    requires Inv(w) && w'.nodes == w.nodes && w'.agents == w.agents
    requires w'.net <= w.net && w'.transits <= w.transits
    ensures Inv(w')
  {
    if 0 in w.nodes {
      assert NodeOk(w, 0, w.nodes[0]);
      UnmovedNode(w, w', 0);
    }
    Assemble(w, w', 0, AgentId(0, 0, 0));
  }

  lemma UnmovedNode(w: World, w': World, n: nat)
    requires n in w.nodes && NodeOk(w, n, w.nodes[n]) && Grows(w, w') && w'.nodes[n] == w.nodes[n]
    requires w'.agents.Keys == w.agents.Keys
    requires forall x: AgentId :: x in w.agents ==> w'.agents[x].sent == w.agents[x].sent
    ensures NodeOk(w', n, w'.nodes[n])
  {
    var v := w.nodes[n];
    forall j | j in v.tasks ensures TaskOk(w', n, j, v.tasks[j]) { TaskStays(w, w', n, j, v.tasks[j]); }
    forall p | p in v.peers ensures EntryOk(w', n, p, v.peers[p]) { EntryStays(w, w', n, p, v.peers[p]); }
  }

  lemma FillInboxKeeps(w: World, w': World, t: Transit)
    requires Inv(w) && t in w.transits && t.node in w.nodes
    requires w' == SetNode(w, t.node, HandOff(w.nodes[t.node], t.key, t.creds)).(transits := w.transits - multiset{t})
    ensures Inv(w')
  {
    var w1 := SetNode(w, t.node, HandOff(w.nodes[t.node], t.key, t.creds));
    HandOffKeeps(w, w1, t);
    LossKeeps(w1, w');
  }

  lemma HandOffKeeps(w: World, w': World, t: Transit)
    requires Inv(w) && t in w.transits && t.node in w.nodes
    requires w' == SetNode(w, t.node, HandOff(w.nodes[t.node], t.key, t.creds))
    ensures Inv(w')
  {
    var v := w.nodes[t.node];
    if t.key in v.tasks && v.tasks[t.key].Waiting? && v.tasks[t.key].inbox.None? {
      assert NodeOk(w, t.node, v) && TaskOk(w, t.node, t.key, v.tasks[t.key]);
      PhaseKeeps(w, w', t.node, t.key, Waiting(Some(t.creds)));
    } else {
      assert w'.nodes == w.nodes;
    }
  }

  // -------------------------------------------------- steps that put envelopes on the wire

  /** An envelope that is new on the wire is sound, and no offer repeats an older one. */
  lemma NetPlus(w: World, w': World, n: nat, e: Envelope)
    requires NetOk(w) && Local(w, w', n) && Quiet(w, w', n)
    requires w'.net == w.net + multiset{e} && EnvelopeOk(w', e)
    requires e.body.Offer? ==> forall e' :: e' in w.net ==> !SameOffer(e, e')
    ensures NetOk(w')
  {
    forall d | d in w'.net ensures EnvelopeOk(w', d) {
      if d != e {
        assert d in w.net && EnvelopeOk(w, d);
        if d.body.Offer? { assert d.dst == n ==> !Responding(w', n, d.src, d.session); }
        EnvelopeStays(w, w', d);
      }
    }
  }

  lemma TrickleKeeps(w: World, w': World, a: AgentId, line: string)
    requires Inv(w) && Enabled(w, Trickle(a, line)) && w' == Apply(w, Trickle(a, line))
    ensures Inv(w')
  {
    var w1 := w.(net := w'.net);
    assert AgentOk(w, a, w.agents[a]);
    NetPlus(w, w', a.owner, Envelope(a.owner, a.peer, a.session, Trickled(Candidate(a, line))));
    AgentsAfter(w, w', a.owner, AgentId(0, 0, 0));
    TransitsAfter(w, w');
    forall n | n in w.nodes ensures NodeOk(w', n, w.nodes[n]) { UnmovedNode(w, w', n); }
  }

  lemma PublishedNode(w: World, w': World, n: nat, k: Key, ph: Phase, body: Body)
    requires Running(w, n, k) && NodeOk(w, n, w.nodes[n]) && w.nodes[n].tasks[k].Ready?
    requires Id(n, k) in w.agents && w' == Publish(w, n, k, ph, body)
    requires (ph == Waiting(None) && n < k.peer) || ph == Linking
    ensures Local(w, w', n) && Quiet(w, w', n) && OnlyAgent(w, w', Id(n, k)) && NodeOk(w', n, w'.nodes[n])
  {
    assert TaskOk(w, n, k, w.nodes[n].tasks[k]);
    PhaseShape(w, w', n, k, ph);
    PhaseNode(w, w', n, k, ph);
  }

  lemma PublishKeeps(w: World, w': World, n: nat, k: Key, ph: Phase, body: Body)
    requires Inv(w) && Running(w, n, k) && w.nodes[n].tasks[k].Ready?
    requires Id(n, k) in w.agents && w' == Publish(w, n, k, ph, body)
    requires || (n < k.peer && ph == Waiting(None) && body == Offer(w.agents[Id(n, k)].creds))
             || (k.peer < n && ph == Linking && body == Answer(w.agents[Id(n, k)].creds))
    ensures Inv(w')
  {
    var e := Envelope(n, k.peer, k.session, body);
    PublishedNode(w, w', n, k, ph, body);
    PublishedEnvelope(w, w', n, k, ph, body);
    NetPlus(w, w', n, e);
    AgentStays(w, w', Id(n, k), w.agents[Id(n, k)]);
    AgentsAfter(w, w', n, Id(n, k));
    NodesAfter(w, w', n);
    TransitsAfter(w, w');
  }

  /** Before an offer goes out, nothing of its session exists anywhere else. */
  lemma PublishedEnvelope(w: World, w': World, n: nat, k: Key, ph: Phase, body: Body)
    requires Inv(w) && Running(w, n, k) && w.nodes[n].tasks[k].Ready?
    requires Id(n, k) in w.agents && w' == Publish(w, n, k, ph, body)
    requires || (n < k.peer && body == Offer(w.agents[Id(n, k)].creds))
             || (k.peer < n && body == Answer(w.agents[Id(n, k)].creds))
    ensures EnvelopeOk(w', Envelope(n, k.peer, k.session, body))
    ensures body.Offer? ==> forall e' :: e' in w.net ==> !SameOffer(Envelope(n, k.peer, k.session, body), e')
  {
    assert NodeOk(w, n, w.nodes[n]) && TaskOk(w, n, k, w.nodes[n].tasks[k]);
    if body.Offer? {
      assert !Offered(w, n, k.peer, k.session);
      forall e' | e' in w.net ensures !SameOffer(Envelope(n, k.peer, k.session, body), e') {
        assert EnvelopeOk(w, e');
      }
      assert !Responding(w, k.peer, n, k.session) by {
        if k.peer in w.nodes { assert NodeOk(w, k.peer, w.nodes[k.peer]); }
      }
    }
  }

  // -------------------------------------------------- steps that take envelopes off the wire

  lemma OfferedNode(w: World, w': World, e: Envelope)
    requires Arrives(w, e) && e.body.Offer? && EnvelopeOk(w, e) && AgentsOk(w) && NodeOk(w, e.dst, w.nodes[e.dst])
    requires var v := HandleOffer(w.nodes[e.dst], e.src, e.session, e.body.creds);
             w' == SetNode(w, e.dst, v).(net := w.net - multiset{e})
    ensures Grows(w, w') && NodeOk(w', e.dst, w'.nodes[e.dst])
  {
    var v, v' := w.nodes[e.dst], w'.nodes[e.dst];
    assert Grows(w, w');
    assert AgentOk(w, AgentId(e.src, e.dst, e.session), w.agents[AgentId(e.src, e.dst, e.session)]);
    forall j | j in v'.tasks ensures TaskOk(w', e.dst, j, v'.tasks[j]) {
      if j in v.tasks { TaskStays(w, w', e.dst, j, v.tasks[j]); }
    }
    forall p | p in v'.peers ensures EntryOk(w', e.dst, p, v'.peers[p]) {
      if p in v.peers && v'.peers[p] == v.peers[p] { EntryStays(w, w', e.dst, p, v.peers[p]); }
    }
  }

  lemma RecvOfferNet(w: World, w': World, e: Envelope)
    requires NetOk(w) && Arrives(w, e) && e.body.Offer? && Grows(w, w')
    requires var v := HandleOffer(w.nodes[e.dst], e.src, e.session, e.body.creds);
             w' == SetNode(w, e.dst, v).(net := w.net - multiset{e})
    ensures NetOk(w')
  {
    forall d | d in w'.net ensures EnvelopeOk(w', d) {
      assert d in w.net && EnvelopeOk(w, d);
      if d.body.Offer? {
        assert w.net[e] == 1 by { assert EnvelopeOk(w, e); }
        assert d != e && !SameOffer(d, e);
      }
      EnvelopeStays(w, w', d);
    }
  }

  lemma RecvOfferKeeps(w: World, w': World, e: Envelope)
    requires Inv(w) && Arrives(w, e) && e.body.Offer?
    requires var v := HandleOffer(w.nodes[e.dst], e.src, e.session, e.body.creds);
             w' == SetNode(w, e.dst, v).(net := w.net - multiset{e})
    ensures Inv(w')
  {
    assert EnvelopeOk(w, e) && NodeOk(w, e.dst, w.nodes[e.dst]);
    OfferedNode(w, w', e);
    RecvOfferNet(w, w', e);
    AgentsAfter(w, w', e.dst, AgentId(0, 0, 0));
    NodesAfter(w, w', e.dst);
    TransitsAfter(w, w');
  }

  lemma TransitPlus(w: World, w': World, t: Transit)
    requires Inv(w) && w' == w.(transits := w.transits + multiset{t})
    requires t.node < t.key.peer && Issued(w, AgentId(t.key.peer, t.node, t.key.session), t.creds)
    ensures Inv(w')
  {
    AgentsAfter(w, w', 0, AgentId(0, 0, 0));
    NetAfter(w, w', 0);
    forall n | n in w.nodes ensures NodeOk(w', n, w.nodes[n]) { UnmovedNode(w, w', n); }
  }

  lemma RecvAnswerKeeps(w: World, w': World, e: Envelope)
    requires Inv(w) && Arrives(w, e) && e.body.Answer? && w' == ApplyAnswer(w, e)
    ensures Inv(w')
  {
    assert EnvelopeOk(w, e);
    var w1 := w.(net := w.net - multiset{e});
    LossKeeps(w, w1);
    if w' != w1 { TransitPlus(w1, w', Transit(e.dst, Key(e.src, e.session), e.body.creds)); }
  }

  /** The agent a delivered candidate reaches is the one of the candidate's session. */
  lemma TargetIsOwn(w: World, e: Envelope)
    requires Inv(w) && Arrives(w, e) && e.body.Trickled?
    ensures TargetOk(w, e)
  {
    var v := w.nodes[e.dst];
    assert EnvelopeOk(w, e) && NodeOk(w, e.dst, v);
    if Current(v, Key(e.src, e.session)) { assert EntryOk(w, e.dst, e.src, v.peers[e.src]); }
  }

  predicate TargetOk(w: World, e: Envelope)
    requires e.dst in w.nodes
  {
    var target := CandidateTarget(w.nodes[e.dst], Key(e.src, e.session));
    target.Some? ==> target.value == AgentId(e.dst, e.src, e.session) && target.value in w.agents
  }

  lemma FedShape(w: World, w': World, e: Envelope)
    requires Arrives(w, e) && e.body.Trickled? && TargetOk(w, e) && w' == ApplyCandidate(w, e)
    ensures Local(w, w', e.dst) && Quiet(w, w', e.dst) && OnlyAgent(w, w', AgentId(e.dst, e.src, e.session))
  {
  }

  lemma FedNode(w: World, w': World, e: Envelope)
    requires Arrives(w, e) && e.body.Trickled? && TargetOk(w, e) && w' == ApplyCandidate(w, e)
    requires NodeOk(w, e.dst, w.nodes[e.dst]) && EnvelopeOk(w, e) && Grows(w, w')
    ensures NodeOk(w', e.dst, w'.nodes[e.dst])
  {
    var v, v' := w.nodes[e.dst], w'.nodes[e.dst];
    forall j | j in v'.tasks ensures TaskOk(w', e.dst, j, v'.tasks[j]) { TaskStays(w, w', e.dst, j, v.tasks[j]); }
    forall p | p in v'.peers ensures EntryOk(w', e.dst, p, v'.peers[p]) {
      EntryStays(w, w', e.dst, p, v.peers[p]);
    }
  }

  lemma FedAgent(w: World, w': World, e: Envelope)
    requires AgentsOk(w) && Arrives(w, e) && e.body.Trickled? && TargetOk(w, e) && w' == ApplyCandidate(w, e)
    requires EnvelopeOk(w, e) && Grows(w, w')
    ensures var own := AgentId(e.dst, e.src, e.session); own in w'.agents ==> AgentOk(w', own, w'.agents[own])
  {
    var own := AgentId(e.dst, e.src, e.session);
    if own in w.agents { AgentStays(w, w', own, w.agents[own]); }
  }

  lemma RecvCandidateKeeps(w: World, w': World, e: Envelope)
    requires Inv(w) && Arrives(w, e) && e.body.Trickled? && w' == ApplyCandidate(w, e)
    ensures Inv(w')
  {
    TargetIsOwn(w, e);
    assert EnvelopeOk(w, e) && NodeOk(w, e.dst, w.nodes[e.dst]);
    FedShape(w, w', e);
    FedNode(w, w', e);
    FedAgent(w, w', e);
    Assemble(w, w', e.dst, AgentId(e.dst, e.src, e.session));
  }

  lemma WokenShape(w: World, w': World, n: nat, k: Key, s: nat)
    requires Running(w, n, k) && n < k.peer
    requires w.nodes[n].clock < s && w' == SetNode(w, n, Wake(w.nodes[n], k, s))
    ensures Local(w, w', n) && Quiet(w, w', n)
  {
  }

  lemma WokenNode(w: World, w': World, n: nat, k: Key, s: nat)
    requires AgentsOk(w) && Running(w, n, k) && NodeOk(w, n, w.nodes[n]) && w.nodes[n].tasks[k].Backoff?
    requires w.nodes[n].clock < s && w' == SetNode(w, n, Wake(w.nodes[n], k, s))
    ensures NodeOk(w', n, w'.nodes[n])
  {
    var v, v' := w.nodes[n], w'.nodes[n];
    assert TaskOk(w, n, k, v.tasks[k]);
    UnseenSession(w, n, k.peer, s);
    assert Grows(w, w');
    forall j | j in v'.tasks ensures TaskOk(w', n, j, v'.tasks[j]) {
      if j in v.tasks && v'.tasks[j] == v.tasks[j] { TaskStays(w, w', n, j, v.tasks[j]); }
    }
    forall p | p in v'.peers ensures EntryOk(w', n, p, v'.peers[p]) {
      if v'.peers[p] == v.peers[p] { EntryStays(w, w', n, p, v.peers[p]); }
      else { assert EntryOk(w, n, p, v.peers[p]); }
    }
  }

  lemma RetryKeeps(w: World, w': World, n: nat, k: Key, s: nat)
    requires Inv(w) && Running(w, n, k) && w.nodes[n].tasks[k].Backoff?
    requires w.nodes[n].clock < s && w' == SetNode(w, n, Wake(w.nodes[n], k, s))
    ensures Inv(w')
  {
    assert NodeOk(w, n, w.nodes[n]) && TaskOk(w, n, k, Backoff);
    WokenShape(w, w', n, k, s);
    WokenNode(w, w', n, k, s);
    Assemble(w, w', n, AgentId(0, 0, 0));
  }

  // ---------------------------------------------------------------- main results

  /** Steps by which a goroutine or a handler talks to the server. */
  predicate IsSend(st: Step) { st.SendOffer? || st.SendAnswer? || st.Trickle? }
  predicate IsRecv(st: Step) { st.Lose? || st.RecvOffer? || st.RecvAnswer? || st.RecvCandidate? }
  predicate IsEntry(st: Step) { st.Reconcile? || st.AttachAgent? || st.Retry? }

  lemma SendStepKeeps(w: World, st: Step)
    requires Inv(w) && Enabled(w, st) && IsSend(st)
    ensures Inv(Apply(w, st))
  {
    var w' := Apply(w, st);
    match st
    case SendOffer(n, k) => PublishKeeps(w, w', n, k, Waiting(None), Offer(w.agents[Id(n, k)].creds));
    case SendAnswer(n, k) => PublishKeeps(w, w', n, k, Linking, Answer(w.agents[Id(n, k)].creds));
    case Trickle(a, line) => TrickleKeeps(w, w', a, line);
  }

  lemma RecvStepKeeps(w: World, st: Step)
    requires Inv(w) && Enabled(w, st) && IsRecv(st)
    ensures Inv(Apply(w, st))
  {
    var w' := Apply(w, st);
    match st
    case Lose(e) => LossKeeps(w, w');
    case RecvOffer(e) => RecvOfferKeeps(w, w', e);
    case RecvAnswer(e) => RecvAnswerKeeps(w, w', e);
    case RecvCandidate(e) => RecvCandidateKeeps(w, w', e);
  }

  lemma EntryStepKeeps(w: World, st: Step)
    requires Inv(w) && Enabled(w, st) && IsEntry(st)
    ensures Inv(Apply(w, st))
  {
    var w' := Apply(w, st);
    match st
    case Reconcile(n, after) => ReconcileKeeps(w, w', n, after);
    case AttachAgent(n, k, c) => AttachKeeps(w, w', n, k, c);
    case Retry(n, k, s) => RetryKeeps(w, w', n, k, s);
  }

  lemma PhaseStepKeeps(w: World, st: Step)
    requires Inv(w) && Enabled(w, st) && !IsSend(st) && !IsRecv(st) && !IsEntry(st)
    ensures Inv(Apply(w, st))
  {
    var w' := Apply(w, st);
    match st
    case FillInbox(t) => FillInboxKeeps(w, w', t);
    case Dial(n, k) => DialKeeps(w, w', n, k);
    case Settle(n, k) => EndKeeps(w, w', n, k);
    case GiveUp(n, k) => GiveUpKeeps(w, w', n, k);
  }

  lemma NextKeeps(w: World, w': World)
    requires Inv(w) && Next(w, w')
    ensures Inv(w')
  {
    var st :| Enabled(w, st) && w' == Apply(w, st);
    if IsSend(st) { SendStepKeeps(w, st); }
    else if IsRecv(st) { RecvStepKeeps(w, st); }
    else if IsEntry(st) { EntryStepKeeps(w, st); }
    else { PhaseStepKeeps(w, st); }
  }

  lemma {:induction false} RunKeeps(ws: seq<World>, i: nat)
    requires Run(ws) && i < |ws|
    ensures Inv(ws[i])
  {
    if i > 0 {
      RunKeeps(ws, i - 1);
      assert Next(ws[i - 1], ws[i - 1 + 1]);
      NextKeeps(ws[i - 1], ws[i]);
    }
  }

  /** Two-node agreement.  In every run, once an initiator has dialled its session,
      the credentials it dialled with are those of the responder's agent for that
      very session, and that agent was handed the initiator's own credentials. */
  lemma Agreement(ws: seq<World>, i: nat, a: AgentId)
    requires Run(ws) && i < |ws| && a in ws[i].agents && a.owner < a.peer && ws[i].agents[a].remote.Some?
    ensures var mirror := AgentId(a.peer, a.owner, a.session);
            && mirror in ws[i].agents
            && ws[i].agents[a].remote == Some(ws[i].agents[mirror].creds)
            && ws[i].agents[mirror].remote == Some(ws[i].agents[a].creds)
  {
    RunKeeps(ws, i);
    assert AgentOk(ws[i], a, ws[i].agents[a]);
    var mirror := AgentId(a.peer, a.owner, a.session);
    assert AgentOk(ws[i], mirror, ws[i].agents[mirror]);
  }

  /** In every run an agent is only ever fed candidates gathered by its
      counterpart: same two nodes, same session. */
  lemma CandidatesStayInSession(ws: seq<World>, i: nat, x: AgentId, c: Candidate)
    requires Run(ws) && i < |ws| && x in ws[i].agents && c in ws[i].agents[x].cands
    ensures c.gatheredBy == AgentId(x.peer, x.owner, x.session)
  {
    RunKeeps(ws, i);
    assert AgentOk(ws[i], x, ws[i].agents[x]);
  }

  /** No glare: in every run offers only travel from the lower to the higher node
      ID, answers only the other way. */
  lemma NoGlare(ws: seq<World>, i: nat, e: Envelope)
    requires Run(ws) && i < |ws| && e in ws[i].net
    ensures e.body.Offer? ==> e.src < e.dst
    ensures e.body.Answer? ==> e.dst < e.src
  {
    RunKeeps(ws, i);
    assert EnvelopeOk(ws[i], e);
  }

  /** The key under which a step starts a negotiation goroutine at node n.  In SetPeers
      and Restart these are the sessions drawn during the call. */
  predicate Starts(w: World, st: Step, n: nat, k: Key) {
    match st
    case RecvOffer(e) =>
      n == e.dst && e.body.Offer? && n in w.nodes && k == Key(e.src, e.session)
      && HandleOffer(w.nodes[n], e.src, e.session, e.body.creds) != w.nodes[n]
    case Retry(m, j, s) => n == m && n in w.nodes && Current(w.nodes[n], j) && k == Key(j.peer, s)
    case Reconcile(m, after) =>
      n == m && n in w.nodes && n < k.peer && k in after.tasks && w.nodes[n].clock < k.session
    case _ => false
  }

  /** In every run a goroutine is only started under a key no running goroutine
      holds, so at most one initiator loop per peer holds the current session. */
  lemma LoopsAreUnique(ws: seq<World>, i: nat, st: Step, n: nat, k: Key)
    requires Run(ws) && i < |ws| && Enabled(ws[i], st) && Starts(ws[i], st, n, k)
    ensures k !in ws[i].nodes[n].tasks
  {
    RunKeeps(ws, i);
    var w := ws[i];
    assert NodeOk(w, n, w.nodes[n]);
    match st
    case RecvOffer(e) => assert EnvelopeOk(w, e);
    case Retry(_, j, _) => assert TaskOk(w, n, j, w.nodes[n].tasks[j]);
    case Reconcile(_, _) =>
  }

  /** In every reachable world an agent is about to be attached only under a fresh name. */
  lemma AttachIsFresh(w: World, n: nat, k: Key, c: Creds)
    requires NodesOk(w) && Enabled(w, AttachAgent(n, k, c))
    ensures Id(n, k) !in w.agents
  {
    assert NodeOk(w, n, w.nodes[n]) && TaskOk(w, n, k, w.nodes[n].tasks[k]);
  }

  lemma SendGrows(w: World, st: Step)
    requires Enabled(w, st) && IsSend(st)
    ensures Grows(w, Apply(w, st))
  {
  }

  lemma RecvGrows(w: World, st: Step)
    requires Enabled(w, st) && IsRecv(st)
    ensures Grows(w, Apply(w, st))
  {
  }

  lemma EntryGrows(w: World, st: Step)
    requires Enabled(w, st) && IsEntry(st) && (st.AttachAgent? ==> Id(st.n, st.k) !in w.agents)
    ensures Grows(w, Apply(w, st))
  {
  }

  lemma OtherGrows(w: World, st: Step)
    requires Enabled(w, st) && !IsSend(st) && !IsRecv(st) && !IsEntry(st)
    ensures Grows(w, Apply(w, st))
  {
  }

  lemma NextGrows(w: World, w': World)
    requires Inv(w) && Next(w, w')
    ensures Grows(w, w')
  {
    var st :| Enabled(w, st) && w' == Apply(w, st);
    if IsSend(st) {
      SendGrows(w, st);
    } else if IsRecv(st) {
      RecvGrows(w, st);
    } else if IsEntry(st) {
      if st.AttachAgent? { AttachIsFresh(w, st.n, st.k, st.creds); }
      EntryGrows(w, st);
    } else {
      OtherGrows(w, st);
    }
  }

  lemma {:induction false} AgentsPersist(ws: seq<World>, i: nat, j: nat, x: AgentId)
    requires i <= j < |ws| && x in ws[i].agents
    requires forall t :: i <= t < j ==> Grows(ws[t], ws[t + 1])
    ensures x in ws[j].agents && ws[j].agents[x].creds == ws[i].agents[x].creds
    decreases j - i
  {
    if i < j {
      AgentsPersist(ws, i, j - 1, x);
      assert Grows(ws[j - 1], ws[j - 1 + 1]);
    }
  }

  /** In every run at most one agent is created per owner, peer and session: when
      one is about to be attached, no earlier world held one of that name. */
  lemma OneAgentPerSession(ws: seq<World>, i: nat, j: nat, n: nat, k: Key, c: Creds)
    requires Run(ws) && i <= j < |ws| && Enabled(ws[j], AttachAgent(n, k, c))
    ensures Id(n, k) !in ws[i].agents
  {
    RunKeeps(ws, j);
    AttachIsFresh(ws[j], n, k, c);
    forall t | i <= t < j ensures Grows(ws[t], ws[t + 1]) {
      RunKeeps(ws, t);
      NextGrows(ws[t], ws[t + 1]);
    }
    if Id(n, k) in ws[i].agents { AgentsPersist(ws, i, j, Id(n, k)); }
  }
}
