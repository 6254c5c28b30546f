/** The state one node's connection manager keeps, and what each locked section
    of internal/magicsock/connmgr.go does to it.  ICE agents are opaque objects
    named by the negotiation that created them; goroutines are entries of `tasks`,
    keyed by the peer and the session they negotiate.  IceProtocol proves that no
    such name or key is ever used twice. */
module ConnMgrModel {
  import opened Prelude

  datatype Creds = Creds(ufrag: string, pwd: string)

  datatype AgentId = AgentId(owner: nat, peer: nat, session: nat)

  /** A trickled candidate, tagged with the agent that gathered it. */
  datatype Candidate = Candidate(gatheredBy: AgentId, line: string)

  datatype PeerConn = PeerConn(session: nat, agent: Option<AgentId>, pending: seq<Candidate>)

  /** Where a negotiation goroutine stands. */
  datatype Phase =
    | Start(offer: Option<Creds>)   // negotiate entered, no agent attached yet
    | Ready                         // agent attached, credentials not sent
    | Waiting(inbox: Option<Creds>) // initiator: offer sent, answer channel open
    | Linking                       // inside Dial or Accept
    | Backoff                       // initiator loop asleep between attempts

  datatype Key = Key(peer: nat, session: nat)

  datatype Node = Node(
    self: nat,
    closed: bool,
    clock: nat,                 // last session number this node drew
    peers: map<nat, PeerConn>,
    tasks: map<Key, Phase>)

  function NewNode(self: nat): Node {
    Node(self, false, 0, map[], map[])
  }

  predicate Current(n: Node, k: Key) {
    k.peer in n.peers && n.peers[k.peer].session == k.session
  }

  /** A fresh negotiation toward `p`: what startInitiatorLocked installs. */
  function Launch(n: Node, p: nat, s: nat): Node {
    n.(clock := s,
       peers := n.peers[p := PeerConn(s, None, [])],
       tasks := n.tasks[Key(p, s) := Start(None)])
  }

  function Forget(n: Node, p: nat): Node {
    n.(peers := n.peers - {p})
  }

  /** What SetPeers, Restart and Close may do in one locked section, in whatever
      order the peer map is ranged over: entries vanish, stay, or are replaced by a
      fresh initiator toward a higher node ID under a newly drawn session. */
  ghost predicate Reconciled(n: Node, n': Node) {
    && n'.self == n.self && (n.closed ==> n'.closed)
    && n.clock <= n'.clock
    && (forall p :: p in n'.peers ==>
          || (p in n.peers && n'.peers[p] == n.peers[p])
          || (n.self < p && n.clock < n'.peers[p].session <= n'.clock
              && n'.peers[p].agent.None? && n'.peers[p].pending == []))
    && (forall k :: k in n.tasks ==> k in n'.tasks && n'.tasks[k] == n.tasks[k])
    && (forall k :: k in n'.tasks ==>
          || k in n.tasks
          || (n.self < k.peer && n.clock < k.session <= n'.clock && n'.tasks[k] == Start(None)))
  }

  lemma ForgetReconciles(n: Node, n': Node, p: nat)
    requires Reconciled(n, n')
    ensures Reconciled(n, Forget(n', p))
  {
  }

  lemma LaunchReconciles(n: Node, n': Node, p: nat, s: nat)
    requires Reconciled(n, n') && n.self < p && n'.clock < s && Key(p, s) !in n'.tasks
    ensures Reconciled(n, Launch(n', p, s))
  {
  }

  /** Attach a new agent to its session, or drop it when the session moved on. */
  function Attach(n: Node, k: Key): Node {
    if !Current(n, k) then n.(tasks := n.tasks - {k})
    else
      n.(peers := n.peers[k.peer := PeerConn(k.session, Some(AgentId(n.self, k.peer, k.session)), [])],
         tasks := n.tasks[k := Ready])
  }

  function HandleOffer(n: Node, from: nat, session: nat, creds: Creds): Node {
    if n.closed || (from in n.peers && n.peers[from].session >= session) then n
    else
      n.(peers := n.peers[from := PeerConn(session, None, [])],
         tasks := n.tasks[Key(from, session) := Start(Some(creds))])
  }

  /** HandleAnswer's lookup: the answer channel of the current session, if any. */
  predicate TakesAnswer(n: Node, k: Key) {
    Current(n, k) && k in n.tasks && n.tasks[k].Waiting?
  }

  /** The buffered send into the answer channel: a full channel drops it. */
  function HandOff(n: Node, k: Key, creds: Creds): Node {
    if k in n.tasks && n.tasks[k].Waiting? && n.tasks[k].inbox.None? then
      n.(tasks := n.tasks[k := Waiting(Some(creds))])
    else n
  }

  /** The agent a candidate is fed to at once, if there is one. */
  function CandidateTarget(n: Node, k: Key): Option<AgentId> {
    if Current(n, k) then n.peers[k.peer].agent else None
  }

  function HandleCandidate(n: Node, k: Key, c: Candidate): Node {
    if Current(n, k) && n.peers[k.peer].agent.None? then
      n.(peers := n.peers[k.peer := n.peers[k.peer].(pending := n.peers[k.peer].pending + [c])])
    else n
  }

  /** The retry section of runInitiator: a stale loop ends, a live one moves to a
      new session while the entry keeps pointing at the old agent. */
  function Wake(n: Node, k: Key, session: nat): Node {
    if !Current(n, k) || n.closed then n.(tasks := n.tasks - {k})
    else
      n.(clock := session,
         peers := n.peers[k.peer := n.peers[k.peer].(session := session, pending := [])],
         tasks := (n.tasks - {k})[Key(k.peer, session) := Start(None)])
  }

  /** negotiate returned: an initiator sleeps and retries, a responder is gone. */
  function Fail(n: Node, k: Key): Node {
    if n.self < k.peer then n.(tasks := n.tasks[k := Backoff]) else n.(tasks := n.tasks - {k})
  }

  // ---------------------------------------------------------------- what an offer brings about

  /** The two nodes differ at most in the record of p and the goroutine of k. */
  ghost predicate OnlyAt(v: Node, v': Node, p: nat, k: Key) {
    && v'.self == v.self && v'.closed == v.closed
    && (forall q :: q != p ==> (q in v'.peers <==> q in v.peers) && (q in v.peers ==> v'.peers[q] == v.peers[q]))
    && (forall j :: j != k ==> (j in v'.tasks <==> j in v.tasks) && (j in v.tasks ==> v'.tasks[j] == v.tasks[j]))
  }

  /** An open node takes an offer newer than what it has: the old record is gone, a new
      one without agent is in its place, and a responder runs with the credentials of
      the offer.  Anything else leaves the node as it was. */
  ghost predicate OfferTaken(v: Node, v': Node, from: nat, session: nat, creds: Creds) {
    if v.closed || (from in v.peers && session <= v.peers[from].session) then v' == v
    else
      var k := Key(from, session);
      && OnlyAt(v, v', from, k) && v'.clock == v.clock
      && from in v'.peers && v'.peers[from].session == session
      && v'.peers[from].agent.None? && v'.peers[from].pending == []
      && k in v'.tasks && v'.tasks[k] == Start(Some(creds))
  }
}
