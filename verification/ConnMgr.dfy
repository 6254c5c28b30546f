/** The connection manager as the object it is: a peer map and a set of running
    goroutines, changed in place by each locked section. */
module ConnMgrObject {
  import opened Prelude
  import opened ConnMgrModel

  class ConnMgr {
    const selfNode: nat
    var closed: bool
    var clock: nat
    var peers: map<nat, PeerConn>
    var tasks: map<Key, Phase>

    /** The value of this object, as IceProtocol steps over it. */
    ghost function View(): Node
      reads this
    {
      Node(selfNode, closed, clock, peers, tasks)
    }

    /** Sessions this node chose itself never exceed its clock. */
    ghost predicate Valid()
      reads this
    {
      && (forall k :: k in tasks && selfNode < k.peer ==> k.session <= clock)
      && (forall p :: p in peers && selfNode < p ==> peers[p].session <= clock)
    }

    constructor (selfNode: nat)
      ensures Valid() && View() == NewNode(selfNode)
    {
      this.selfNode := selfNode;
      closed, clock, peers, tasks := false, 0, map[], map[];
    }

    method StartInitiatorLocked(peer: nat)
      requires Valid() && selfNode < peer
      modifies this
      ensures Valid() && old(clock) < clock && View() == Launch(old(View()), peer, clock)
      ensures Key(peer, clock) !in old(tasks)
    {
      var session: nat :| clock < session; // the wall clock, assumed to advance
      clock := session;
      peers := peers[peer := PeerConn(session, None, [])];
      tasks := tasks[Key(peer, session) := Start(None)];
    }

    /** Tear down peers that left, keep the rest, initiate toward new higher IDs. */
    method SetPeers(online: set<nat>)
      requires Valid()
      modifies this
      ensures Valid() && Reconciled(old(View()), View())
      ensures old(closed) ==> View() == old(View())
      ensures !old(closed) ==> forall p :: p in peers <==> p in online && (p in old(peers) || selfNode < p)
      ensures !old(closed) ==> forall p :: p in peers && p in old(peers) ==> peers[p] == old(peers)[p]
    {
      if closed { return; }
      peers := map p | p in peers && p in online :: peers[p];
      ghost var kept := peers;
      var todo := online;
      while todo != {}
        invariant todo <= online
        invariant Valid() && Reconciled(old(View()), View()) && closed == old(closed)
        invariant forall p :: p in peers ==> p in online
        invariant forall p :: p in peers && p in kept ==> peers[p] == kept[p]
        invariant forall p :: p in kept ==> p in peers
        invariant forall p :: p in peers && p !in kept ==> selfNode < p
        invariant forall p :: p in online && p !in todo && selfNode < p ==> p in peers
        decreases todo
      {
        var id :| id in todo;
        todo := todo - {id};
        if id !in peers && selfNode < id {
          ghost var before := View();
          StartInitiatorLocked(id);
          LaunchReconciles(old(View()), before, id, clock);
        }
      }
    }

    /** One turn of Restart's loop: tear the entry down, restart it if we initiate. */
    method RestartOne(id: nat, ghost start: Node)
      requires Valid() && Reconciled(start, View())
      modifies this
      ensures Valid() && Reconciled(start, View()) && closed == old(closed) && old(clock) <= clock
      ensures forall p :: p != id ==> (p in peers <==> p in old(peers))
      ensures forall p :: p != id && p in peers ==> peers[p] == old(peers)[p]
      ensures id in peers <==> selfNode < id
      ensures id in peers ==> old(clock) < peers[id].session && peers[id].agent.None?
    {
      ghost var before := View();
      peers := peers - {id};
      ForgetReconciles(start, before, id);
      if selfNode < id {
        StartInitiatorLocked(id);
        LaunchReconciles(start, Forget(before, id), id, clock);
      }
    }

    /** Roaming: every negotiation is torn down; those this node initiates restart
        under a new session, the others wait for the remote side. */
    method Restart()
      requires Valid()
      modifies this
      ensures Valid() && Reconciled(old(View()), View())
      ensures old(closed) ==> View() == old(View())
      ensures !old(closed) ==> forall p :: p in peers <==> p in old(peers) && selfNode < p
      ensures !old(closed) ==> forall p :: p in peers ==> old(clock) < peers[p].session && peers[p].agent.None?
    {
      if closed { return; }
      var todo := peers.Keys;
      while todo != {}
        invariant Valid() && Reconciled(old(View()), View()) && closed == old(closed)
        invariant todo <= old(peers).Keys
        invariant forall p :: p in peers ==> p in old(peers) && (p in todo || selfNode < p)
        invariant forall p :: p in old(peers) && (p in todo || selfNode < p) ==> p in peers
        invariant old(clock) <= clock
        invariant forall p :: p in peers && p !in todo ==> old(clock) < peers[p].session && peers[p].agent.None?
        decreases todo
      {
        var id :| id in todo;
        todo := todo - {id};
        RestartOne(id, old(View()));
      }
    }

    method Close()
      requires Valid()
      modifies this
      ensures Valid() && Reconciled(old(View()), View()) && closed && peers == map[]
    {
      closed := true;
      peers := map[];
    }

    /** The locked section of negotiate that attaches a new agent; `pending` are the
        candidates that raced ahead of it. */
    method AttachAgent(k: Key) returns (attached: bool, pending: seq<Candidate>)
      requires Valid() && k in tasks && tasks[k].Start?
      modifies this
      ensures Valid() && View() == Attach(old(View()), k)
      ensures attached <==> Current(old(View()), k)
      ensures pending == if attached then old(peers)[k.peer].pending else []
    {
      if k.peer !in peers || peers[k.peer].session != k.session {
        tasks := tasks - {k};
        return false, [];
      }
      var pc := peers[k.peer];
      peers := peers[k.peer := PeerConn(pc.session, Some(AgentId(selfNode, k.peer, k.session)), [])];
      tasks := tasks[k := Ready];
      return true, pc.pending;
    }

    method OnOffer(from: nat, session: nat, creds: Creds)
      requires Valid()
      modifies this
      ensures View() == HandleOffer(old(View()), from, session, creds)
      ensures OfferTaken(old(View()), View(), from, session, creds)
      ensures from < selfNode ==> Valid()
    {
      if closed { return; }
      if from in peers {
        if peers[from].session >= session { return; }
        peers := peers - {from};
      }
      peers := peers[from := PeerConn(session, None, [])];
      tasks := tasks[Key(from, session) := Start(Some(creds))];
    }

    /** Whether an answer finds the channel of the current session. */
    method OnAnswer(from: nat, session: nat) returns (found: bool)
      ensures found <==> TakesAnswer(View(), Key(from, session))
    {
      found := false;
      if from in peers && peers[from].session == session {
        var k := Key(from, session);
        found := k in tasks && tasks[k].Waiting?;
      }
    }

    /** The send that follows, outside the lock, into the channel found: a channel that
        already holds an answer drops it, and one that is gone by now takes nothing. */
    method Deliver(k: Key, creds: Creds)
      requires Valid()
      modifies this
      ensures Valid() && View() == HandOff(old(View()), k, creds)
    {
      if k in tasks && tasks[k].Waiting? && tasks[k].inbox.None? {
        tasks := tasks[k := Waiting(Some(creds))];
      }
    }

    /** Stash a candidate, or report the agent it is fed to. */
    method OnCandidate(from: nat, session: nat, c: Candidate) returns (agent: Option<AgentId>)
      requires Valid()
      modifies this
      ensures Valid() && View() == HandleCandidate(old(View()), Key(from, session), c)
      ensures agent == CandidateTarget(old(View()), Key(from, session))
    {
      if from !in peers || peers[from].session != session { return None; }
      var pc := peers[from];
      if pc.agent.None? {
        peers := peers[from := PeerConn(pc.session, pc.agent, pc.pending + [c])];
      }
      return pc.agent;
    }

    /** The retry section of runInitiator. */
    method Rearm(k: Key) returns (live: bool)
      requires Valid() && k in tasks && selfNode < k.peer
      modifies this
      ensures Valid()
      ensures live ==> old(clock) < clock
      ensures live <==> Current(old(View()), k) && !old(closed)
      ensures View() == Wake(old(View()), k, clock)
    {
      if k.peer !in peers || peers[k.peer].session != k.session || closed {
        tasks := tasks - {k};
        return false;
      }
      var session: nat :| clock < session;
      clock := session;
      var pc := peers[k.peer];
      peers := peers[k.peer := PeerConn(session, pc.agent, [])];
      tasks := (tasks - {k})[Key(k.peer, session) := Start(None)];
      return true;
    }
  }
}
