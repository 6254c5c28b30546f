# OverMesh, verified in Dafny

OverMesh is a WireGuard mesh VPN: a coordinator registers devices, assigns addresses and
pushes netmaps; daemons merge them, negotiate direct paths over ICE and filter packets; a
relay carries what no direct path can; OverDrop moves files. This project models the parts
that carry state across many steps and proves what holds over all of them.

A value-level model says what each operation does to the state and carries the theorems about
all sequences of operations. Beside it, where the Go code mutates objects, stands a class in
the same imperative form. For `ConnMgr`, `Coordinator`, `Daemon`, `PeerRecord`, `Allocator`,
`RouteTable`, `Inbox` and `ResolvFile` the state after a call is the model operation applied to
the state before. The relay's `Server` is proved in its own terms, queue by queue over byte
arrays, and `RelayModel.ServedQueues` says that the model's read and enqueue steps do the same
to every queue.

| files | part |
|---|---|
| `ConnMgrModel`, `ConnMgr`, `IceProtocol`, `IceProgress` | ICE signalling: one node's connection manager, its object, any number of nodes over a lossy, reordering channel, and what they bring about |
| `CoordModel`, `CoordSafety`, `CoordStreams`, `CoordRuns`, `CoordSignals`, `CoordClosing`, `CoordLives`, `CoordKeys`, `CoordRoutes`, `CoordEffects`, `Coordinator`, `CoordPushes` | the coordinator: registration, addresses, names, keys, routes, streams, signals, restart |
| `Hub`, `Store`, `Routes`, `Hostnames` | the subscriber pattern, the stored rows, route approval, host names |
| `Ipam`, `Net`, `Arith`, `Numerals`, `Text`, `Prelude` | address allocation and the arithmetic and text below it |
| `Acl`, `Filter`, `FilterTun` | access rules, their compilation, the packet filter, the batch filter |
| `Frames`, `RelayModel`, `RelayServer` | the relay's frames, its forwarding, its objects and buffers |
| `OverDrop` | resumable file transfer |
| `DaemonPeers`, `Daemon`, `MeshExit` | merging netmaps and path updates, WireGuard configs over shared slices, and coordinator netmaps applied by a daemon |
| `ResolvConf`, `ResolvSearch` | the marked block in resolv.conf and the search list in it |

The main theorems, each over every input or every sequence of steps:

* **ICE agreement** (`IceProtocol.Agreement`): when an initiator dials a session, the
  credentials it uses are those of the one responder agent of that session, and that
  responder holds the initiator's own. Candidates never leave their session
  (`CandidatesStayInSession`), although a retry changes the session while the record still
  points at the old agent.
* **ICE progress** (`IceProgress`): in every run a newer offer is taken and starts a negotiation
  with its credentials, an answer and a candidate reach exactly their session; from every
  reachable world a sleeping initiator can connect to an open peer again (`CanReconnect`).
* **Coordinator safety** (`CoordRuns.RunKeeps`) under any order of registration, failed
  registration, deletion, approval, subscription, signalling and restart: addresses and names
  are distinct and well formed, a loaded allocator knows exactly the live addresses, presence
  equals subscription, no channel is misused.
* **Signals** (`CoordSignals.SignalsAreAuthentic`, `SignalsAreNotRepeated`): every signal in an
  inbox has a sending event of its own, carries that event's envelope, and names as source the
  node that opened the sending stream with its machine key.
* **Streams** are closed exactly when displaced, and once (`CoordClosing`); nodes keep their
  identity from registration to deletion, and no ID is given out twice (`CoordLives`).
* **What events bring about** (`CoordEffects`): a new device joins if and only if its key is in
  force, the key's network has a free address and the database takes the row
  (`NewDevicesJoin`); a known one is renewed under its old row (`KnownDevicesRejoin`); signals
  reach exactly the inbox their addressee holds (`SignalsAreDelivered`). Setup keys follow the
  events that create, use and revoke them (`CoordKeys`). Every change is pushed
  (`CoordPushes`).
* **Netmaps** are snapshots of one state (`EveryMapIsASnapshot`), in increasing order, and
  two snapshots of a state agree with each other (`NetMapsAgree`).
* **Policy end to end** (`PolicyHolds`, `PolicyOnV4Packets`, `PolicyOnV6Packets`): the filter
  in a pushed netmap gives the bytes of every packet, of any protocol and fragment, the verdict
  the administrator's device rules give the two devices. This composes address ownership,
  compilation, conversion and parsing.
* **Route approval** (`CoordRoutes`): a netmap shows a route as approved exactly when an
  approval event came while the node offered it, and neither a revocation nor the end of the
  offer came since.
* **Relay**: every frame handed on was sent by the stamped source to that destination, intact,
  in order; later reads into the same buffer cannot change it.
* **OverDrop**: one honest transfer among arbitrary others delivers exactly its source, if and
  only if no transfer may be named like its staging path (`PrefixIff`). Until it completes
  nothing that arrived is lost over any number of interrupted attempts (`NothingIsLost`), each
  attempt brings it closer (`AttemptsMakeProgress`), and sending the rest completes it
  (`ResumeCompletes`).
* **Daemon**: merging refines rebuilding; records refill their slices in place without touching
  each other or anything handed to WireGuard before.
* **Routes end to end** (`MeshExit.Receive`): a daemon in any state that applies any netmap of
  any stream of any coordinator run hands WireGuard, for each peer, exactly the addresses of
  that node and the routes whose approval stands by the events so far, a default route only to
  the exit peer its name determines.
* **resolv.conf**: restoring undoes configuring; the stripping loop ends exactly on the files
  whose end markers follow their begin markers; and for every search list whatever,
  `RestoreFate` says whether the file comes back, keeps something, or the loop never ends. The
  search list keeps every domain the file had (`ResolvSearch.SearchIff`).

Where the code does not meet a property in general, a lemma shows it failing and another says
when it holds: `Acl.BadSpecsWiden`, `OverDrop.NamedLikeStaging` with `OverDrop.PrefixIff`,
`OverDrop.SplitFinish`, `Frames.EofMeans`, `ResolvConf.CrossedExample` with
`ResolvConf.StopsIff`, `ResolvConf.EarlyEndExample` and `ResolvConf.ForeverExample` with
`ResolvConf.RestoreFate`.

## Model

| member | source | states |
|---|---|---|
| `IceProtocol.RunKeeps` | internal/magicsock/connmgr.go:96-260 | every reachable world, for any number of nodes, any loss and any reordering, satisfies the protocol invariant over nodes, agents and envelopes in flight |
| `IceProtocol.Agreement` | internal/magicsock/connmgr.go:335-442 | an initiator agent that has remote credentials has those of the responder agent of its session, and that agent was given the initiator's own |
| `IceProtocol.CandidatesStayInSession` | internal/magicsock/connmgr.go:245-260 | every candidate an agent received was gathered by the agent of the same session at the other end |
| `IceProtocol.NoGlare` | internal/magicsock/connmgr.go:162-225 | every offer travels from the lower to the higher node ID, every answer the other way |
| `IceProtocol.LoopsAreUnique` | internal/magicsock/connmgr.go:96-225 | a negotiation is only started under a key no negotiation in progress holds, whether by an offer, a retry, SetPeers or Restart |
| `IceProtocol.AttachIsFresh` | internal/magicsock/connmgr.go:335-348 | an agent is attached only under a name no agent has |
| `IceProtocol.AgentsPersist` | internal/magicsock/connmgr.go:335-348 | agents and their credentials stay along a sequence of steps |
| `IceProtocol.OneAgentPerSession` | internal/magicsock/connmgr.go:335-348 | at most one agent is ever created per owner, peer and session |
| `IceProtocol.NextKeeps` | internal/magicsock/connmgr.go:96-260 | each protocol step keeps the invariant |
| `IceProgress.OffersAreTaken` | internal/magicsock/connmgr.go:205-225 | in every run an offer newer than what the node has replaces the record, starts a negotiation with the credentials offered and changes nothing else; a stale one, or one to a closed node, changes nothing |
| `IceProgress.AnswersAreTaken` | internal/magicsock/connmgr.go:228-242 | an answer to the current session, while its negotiation waits, is on its way into that negotiation's channel; any other is dropped |
| `IceProgress.FirstAnswerStays` | internal/magicsock/connmgr.go:236-242 | the first answer stays in the channel, a later one is dropped |
| `IceProgress.CandidatesAreHeard` | internal/magicsock/connmgr.go:245-260 | a candidate of the current session is heard by it, and by no other session |
| `IceProgress.AgentsJoinTheirSession` | internal/magicsock/connmgr.go:335-348 | a new agent joins its session if that is still current, taking over the candidates heard and the credentials of the offer; otherwise the negotiation ends |
| `IceProgress.FailuresEnd` | internal/magicsock/connmgr.go:170-183 | a failed initiator sleeps and tries again, a failed responder is gone |
| `IceProgress.RetriesRenew` | internal/magicsock/connmgr.go:188-202 | a retry of the current session goes on under a new one; a stale loop ends |
| `IceProgress.CanReconnect` | internal/magicsock/connmgr.go:170-260 | from every reachable world a sleeping initiator has a path of steps to a connection with its open peer, both ends holding each other's credentials |
| `IceProgress.CanConnect` | internal/magicsock/connmgr.go:96-260 | and so has a node that starts toward an open peer with a higher ID |
| `ConnMgrObject.ConnMgr.StartInitiatorLocked` | internal/magicsock/connmgr.go:162-168 | a new session under a fresh clock value replaces the record |
| `ConnMgrObject.ConnMgr.SetPeers` | internal/magicsock/connmgr.go:96-117 | afterwards the records are exactly the online peers that had one or that this node initiates to, kept ones unchanged, reached by reconciling changes only |
| `ConnMgrObject.ConnMgr.Restart` | internal/magicsock/connmgr.go:122-138 | every initiator session is torn down and drawn anew |
| `ConnMgrObject.ConnMgr.RestartOne` | internal/magicsock/connmgr.go:122-138 | the same for one peer |
| `ConnMgrObject.ConnMgr.Close` | internal/magicsock/connmgr.go:141-149 | no record is left |
| `ConnMgrObject.ConnMgr.AttachAgent` | internal/magicsock/connmgr.go:335-348 | attaches only to the current session and hands over the pending candidates |
| `ConnMgrObject.ConnMgr.OnOffer` | internal/magicsock/connmgr.go:205-225 | a newer offer to an open manager installs its session and starts its negotiation with the credentials offered, any other offer changes nothing, and other peers stay |
| `ConnMgrObject.ConnMgr.OnAnswer` | internal/magicsock/connmgr.go:228-235 | an answer finds a channel exactly for the current session |
| `ConnMgrObject.ConnMgr.Deliver` | internal/magicsock/connmgr.go:236-242 | the send into that channel: the first answer stays, a later one is dropped |
| `ConnMgrObject.ConnMgr.OnCandidate` | internal/magicsock/connmgr.go:245-260 | a candidate reaches the agent, the pending list or nothing, by session |
| `ConnMgrObject.ConnMgr.Rearm` | internal/magicsock/connmgr.go:170-200 | a retry draws a new session only while its own is still current |
| `Ipam.NewAllocValid` | internal/ipam/ipam.go:38-61 | an allocator that New returns is well formed, with nothing used |
| `Ipam.NewAllocIff` | internal/ipam/ipam.go:38-61 | New accepts exactly an IPv4 prefix of at most 30 bits and an IPv6 prefix that is not a mapped IPv4 one |
| `Ipam.FirstAddress` | internal/ipam/ipam.go:38-100 | a new allocator hands out the first host address first |
| `Ipam.LastAddr` | internal/ipam/ipam.go:137-144 | the bit loop over the address bytes computes base + 2^h - 1 |
| `Ipam.ScanFindsFirst` | internal/ipam/ipam.go:74-90 | the cyclic scan returns the first free usable address |
| `Ipam.AllocateIsFirstFree` | internal/ipam/ipam.go:74-110 | allocation picks the first free usable address in cyclic order and fails exactly when all are taken; the cursor never rests on the network address |
| `Ipam.UsableCount` | internal/ipam/ipam.go:103-110 | the usable addresses number 2^h - 2 |
| `Ipam.OverlayAdds` | internal/ipam/ipam.go:115-127 | copying the minimal bytes of the ID over the low bytes adds the ID |
| `Ipam.DeriveV6Correct` | internal/ipam/ipam.go:115-127 | for prefixes of at most 64 bits every nonzero 64-bit ID succeeds and stays in the prefix |
| `Ipam.LowBitsAreId` | internal/ipam/ipam.go:115-127 | the low 64 bits of the address are the ID |
| `Ipam.DeriveV6Injective` | internal/ipam/ipam.go:115-127 | distinct IDs get distinct addresses |
| `Ipam.Allocator.MarkUsed` | internal/ipam/ipam.go:65-71 | adds exactly the unmapped addresses |
| `Ipam.Allocator.IsReservedV4` | internal/ipam/ipam.go:103-110 | reserved means network or broadcast address |
| `Ipam.Allocator.AllocateV4` | internal/ipam/ipam.go:74-100 | the scan loop ends, returns what the model allocates and changes only that entry and the cursor; on failure nothing |
| `Ipam.Allocator.Release` | internal/ipam/ipam.go:130-134 | removes exactly the unmapped address |
| `Ipam.Allocator.AllocateV6For` | internal/ipam/ipam.go:115-127 | the byte edit in place gives the derived address or the error |
| `Filter.FromProto` | internal/filter/filter.go:45-60 | the loops convert every rule, dropping prefixes that do not parse and cutting ports to 16 bits |
| `Filter.ConvertMeaning` | internal/filter/filter.go:45-60 | a converted rule names exactly the sources that parse, and the ports in their low 16 bits |
| `Filter.FirstMatchWins` | internal/filter/filter.go:100-108 | the first matching rule decides, no match denies |
| `Filter.PortlessIgnoresPort` | internal/filter/filter.go:136-151 | for protocols without ports the port does not matter |
| `Filter.TornPacketsAreDropped` | internal/filter/filter.go:87-199 | exactly the packets with a whole header, and ports where there must be some, are read; a filter in force drops all others |
| `Filter.ParsesAnyV4` | internal/filter/filter.go:155-199 | every well-formed IPv4 packet, with any header length, protocol, fragment offset and payload, gives its source, protocol and port, the port only from the first fragment of TCP and UDP (section 3.1 of RFC 791) |
| `Filter.ParsesAnyV6` | internal/filter/filter.go:155-199 | the same for every IPv6 packet (section 3 of RFC 8200) |
| `Filter.ParsesV4` | internal/filter/filter.go:155-199 | a TCP or UDP segment gives its destination port |
| `Filter.ParsesV6` | internal/filter/filter.go:155-199 | and so over IPv6 |
| `Filter.V4PacketIsCheck` | internal/filter/filter.go:64-96 | packet filter and dry-run Check agree on every unfragmented IPv4 TCP, UDP or ICMP packet |
| `Filter.V6PacketIsCheck` | internal/filter/filter.go:64-96 | and on every such IPv6 packet |
| `FilterTun.KeptIsFilter` | internal/wgengine/filtertun.go:28-48 | every passing packet is kept as often as it comes, no other is kept |
| `FilterTun.KeptInOrder` | internal/wgengine/filtertun.go:28-48 | what is kept are the packets at the passing places of the batch, in ascending order |
| `FilterTun.KeptConcat` | internal/wgengine/filtertun.go:28-48 | in the original order, batch by batch |
| `FilterTun.Compact` | internal/wgengine/filtertun.go:28-40 | the loop compacts the allowed packets to the front of the slice in place |
| `FilterTun.Write` | internal/wgengine/filtertun.go:28-48 | the device gets exactly the allowed packets in order, its error is passed on and dropping is none, and a device that writes all of them makes the call report the whole batch |
| `Acl.ProtocolMeaning` | internal/filter/filter.go:122-134 | a rule for tcp, udp, icmp or no protocol matches the IP protocol numbers 6, 17, 1 and 58, or all |
| `Acl.ProtocolsAreApart` | internal/filter/filter.go:64-84 | the number the dry run stands for is one its protocol name covers, and no other protocol name does |
| `Acl.ParsePortSpec` | internal/coord/aclcompile.go:80-95 | a parsed range is ordered and within 1 to 65535 |
| `Acl.PortSpecMeaning` | internal/coord/aclcompile.go:80-95 | a text parses to a range if and only if it is one decimal port, or two in order with a dash between, up to space |
| `Text.TrimSpaceIs` | internal/coord/aclcompile.go:80-95 | trimming takes exactly the space at both ends |
| `Acl.SinglePortRoundTrip` | internal/coord/aclcompile.go:80-95 | printing and parsing a port gives it back |
| `Acl.PortRangeRoundTrip` | internal/coord/aclcompile.go:80-95 | printing and parsing a range gives it back |
| `Acl.CompileOne` | internal/coord/aclcompile.go:37-62 | the inner loops compile one rule, or drop it |
| `Acl.CompileFilterForNode` | internal/coord/aclcompile.go:19-77 | the loops compile the rule list for one node and enable the filter exactly when there are rules |
| `Acl.SourcesMeaning` | internal/coord/aclcompile.go:42-54 | the compiled source list covers an owned address exactly when its owner is listed |
| `Acl.SourcesStay` | internal/filter/filter.go:45-60 | a rule with sources never turns into one for every source |
| `Acl.RuleMeaning` | internal/coord/aclcompile.go:37-62 | one rule, compiled and converted, matches exactly the traffic it speaks about |
| `Acl.CompiledMeaning` | internal/coord/aclcompile.go:19-95 | the compiled and converted list gives every protocol and port the verdict of first-match evaluation of the device rules |
| `Acl.PolicyEnforced` | internal/coord/aclcompile.go:19-95 | the same for the dry-run Check, including the empty rule list |
| `Acl.FragmentsMatchNoPorts` | internal/filter/filter.go:155-199 | the bytes of a later fragment of any IPv4 packet never match a compiled rule that names ports |
| `Acl.BadSpecsWiden` | internal/coord/aclcompile.go:55-61 | a rule that names only ports that do not parse matches all the other traffic it names: the condition on the rules is exact |
| `Hostnames.SanitizeIsName` | internal/coord/coord.go:216-224 | sanitized names are over [a-z0-9-] and at most 63 long |
| `Hostnames.SanitizeKeepsNames` | internal/coord/coord.go:216-224 | names of that form are kept |
| `Hostnames.SquashRun` | internal/coord/coord.go:216-224 | name characters stay and every run of others becomes one dash |
| `Hostnames.SanitizeIs` | internal/coord/coord.go:216-224 | any host name: without space around it, in lower case, squashed, without dashes around it, cut to 63 characters |
| `Hostnames.DedupeChooses` | internal/coord/coord.go:201-212 | a free name stays; a taken one gets the first number from 2 on that makes it free |
| `Hostnames.FirstFreeIsFree` | internal/coord/coord.go:201-212 | the chosen name is free and every earlier attempt is taken |
| `Hostnames.DedupeIsName` | internal/coord/coord.go:201-212 | it is over the same alphabet, not empty and free |
| `Hostnames.DedupeHostname` | internal/coord/coord.go:201-212 | the loop finds it within one try more than there are names |
| `Routes.ReplacedOffer` | internal/store/routes.go:45-86 | re-registering replaces the offer set and keeps approval exactly on the intersection |
| `Routes.ApprovalIsStanding` | internal/store/routes.go:45-124 | after any history a route is approved exactly when it is offered and an approval given since it last appeared stands unrevoked |
| `Routes.RouteTable.SetAdvertisedRoutes` | internal/store/routes.go:45-86 | the insert, scan and delete loops replace the offer set |
| `Routes.RouteTable.SetRouteApproved` | internal/store/routes.go:114-124 | flips the one row, or reports that there is none |
| `Hub.PushEachServesOnce` | internal/coord/coord.go:349-366 | a push round serves each subscribed node exactly once, with its own message, and touches no other channel |
| `Hub.DisplacingCloses` | internal/coord/coord.go:250-315 | a new stream closes the one it replaces and no other, and a deletion the node's |
| `Hub.LateLeaveIsNothing` | internal/coord/coord.go:274-283 | the unsubscribe of a replaced or kicked stream changes nothing |
| `CoordModel.KeyRoundTrip` | internal/key/key.go:131-161 | a stored key parses back to its 32 bytes |
| `CoordModel.FindNode` | internal/store/store.go:252-254 | finds a node with that machine key if there is one |
| `CoordModel.Register` | internal/coord/coord.go:87-187 | registration, from the raw host name on, leaves every stream alone, lets every other node keep its row, network, keys and addresses, uses only fresh IDs, and on success answers for a node that holds the request's machine and node key |
| `CoordSafety.RegisterKeeps` | internal/coord/coord.go:87-187 | every outcome of registration, for any host name and failures included, keeps the store invariant |
| `CoordSafety.DeleteKeeps` | internal/coord/coord.go:289-315 | so does deletion, with the allocator loaded or not |
| `CoordSafety.StoreKeeps` | internal/coord/coord.go:64-474 | so does every event, restart included |
| `CoordStreams.NotifyServes` | internal/coord/coord.go:342-367 | a push gives each subscribed node of the network its own netmap, others nothing |
| `CoordStreams.NotifyKeeps` | internal/coord/coord.go:342-367 | pushing keeps streams increasing and channels well used |
| `CoordStreams.SubscribeKeeps` | internal/coord/coord.go:250-285 | so does subscribing |
| `CoordStreams.RouteSignalKeeps` | internal/coord/signal.go:41-63 | routing keeps every inbox to its owner and network; who sent what is `CoordSignals.SignalsAreAuthentic` |
| `CoordStreams.DeleteKeepsStreams` | internal/coord/coord.go:289-315 | deleting keeps the stream invariants |
| `CoordStreams.DeleteClosesStreams` | internal/coord/coord.go:289-315 | deleting closes both streams of the node once, deregisters them and clears its presence |
| `CoordRuns.RunKeeps` | internal/coord/coord.go:64-474 | every state of every sequence of events is good |
| `CoordRuns.AddressOwnership` | internal/coord/coord.go:64-187 | live nodes of a network have distinct usable addresses, distinct names and keys; a loaded allocator's used set is exactly those addresses |
| `CoordRuns.SubscriptionSafety` | internal/coord/coord.go:250-315 | online exactly while subscribed; no channel closed twice, sent on after closing or overfilled |
| `CoordRuns.EveryMapIsASnapshot` | internal/coord/coord.go:342-419 | every netmap a subscriber sees is the exact snapshot of one state |
| `CoordRuns.SequenceNumbersIncrease` | internal/coord/coord.go:342-367 | along a stream the sequence numbers strictly increase |
| `CoordRuns.PushIsCurrent` | internal/coord/coord.go:342-367 | after a push, a stream with room ends with the current snapshot under the new number |
| `CoordRuns.LateUnsubscribeIsNothing` | internal/coord/coord.go:274-283 | once a stream is replaced, kicked or left, its unsubscribe changes nothing, at any later time |
| `CoordRuns.SnapshotsAgree` | internal/coord/coord.go:370-419 | a snapshot lists each other live node of the network exactly once, in ascending order, with an entry that depends on that node alone |
| `CoordRuns.NetMapsAgree` | internal/coord/coord.go:370-429 | visibility is symmetric, peers see exactly the routes a node itself has approved, and a third node alike |
| `CoordRuns.PeerNamesDiffer` | internal/coord/coord.go:370-419 | the peers of a snapshot have distinct well-formed names |
| `CoordRuns.AddressIdentifies` | internal/coord/aclcompile.go:19-40 | an address of a live node belongs to it alone |
| `CoordRuns.FilterDecides` | internal/coord/aclcompile.go:19-95 | in every reachable state the filter of a netmap gives every protocol number and port the verdict of the stored device rules |
| `CoordRuns.PolicyHolds` | internal/coord/aclcompile.go:19-95 | and so does its dry-run Check |
| `CoordRuns.PolicyOnV4Packets` | internal/filter/filter.go:87-199 | on the bytes of every IPv4 packet, later fragments and every protocol included |
| `CoordRuns.PolicyOnV6Packets` | internal/filter/filter.go:87-199 | on the bytes of every IPv6 packet |
| `CoordRuns.PolicyOnSegments` | internal/filter/filter.go:87-199 | in particular on unfragmented TCP, UDP and ICMP segments with their destination port |
| `CoordRoutes.RoutesStep` | internal/coord/coord.go:87-474 | every event changes the route table by exactly the offer, decision or withdrawal it stands for |
| `CoordRoutes.TableIsEvents` | internal/store/routes.go:45-124 | in every state of every run the table holds exactly the routes whose offer stands, and marks exactly those whose approval stands, by the events so far |
| `CoordRoutes.ApprovedRoutesAreStanding` | internal/coord/coord.go:423-474 | a netmap shows a route as approved, to its node or a peer, exactly when an approval event came while it was offered and neither a revocation nor the end of the offer came since |
| `CoordSignals.SignalsAreAuthentic` | internal/coord/signal.go:17-63 | every signal of every inbox in every run was put there by one event: an envelope that arrived on a stream, its source replaced by the node that had opened that stream by presenting its machine key; its destination is the inbox's owner and both nodes share a network |
| `CoordSignals.SignalsAreNotRepeated` | internal/coord/signal.go:41-63 | distinct positions of inboxes have distinct sending events, in order along each inbox |
| `CoordSignals.StreamsAreAuthenticated` | internal/coord/signal.go:17-27 | every signal stream was opened by a subscription with its owner's machine key |
| `CoordSignals.LateSignalLeaveIsNothing` | internal/coord/signal.go:29-35 | once a signal stream is replaced, kicked or left, its unsubscribe changes nothing, at any later time |
| `CoordClosing.MapStreamsCloseOnce` | internal/coord/coord.go:250-315 | in every run a netmap stream is closed exactly once if its node opened another one or was deleted while it held it, and is open otherwise |
| `CoordClosing.SignalStreamsCloseOnce` | internal/coord/signal.go:17-37 | the same for signal streams |
| `CoordLives.NodesKeepTheirIdentity` | internal/coord/coord.go:87-315 | a node is there exactly until it is deleted, and keeps its network, machine key and both addresses |
| `CoordLives.IdsAreGivenOnce` | internal/store/store.go:232-249 | no ID is ever given to two nodes |
| `CoordKeys.SingleUseKeyAdmitsOne` | internal/store/store.go:455-478 | a single-use setup key lets one registration in, ever: whatever the admin creates or revokes, every later new device that presents it is refused and changes nothing |
| `CoordKeys.SpentForGood` | internal/store/store.go:441-478 | a spent key stays spent |
| `CoordKeys.JoiningSpends` | internal/store/store.go:455-478 | a registration that its single-use key lets in spends the key, whatever comes of it |
| `CoordKeys.KeysFollowEvents` | internal/store/store.go:375-478 | a key's use count is the number of registrations it let in, it is revoked exactly if a revocation came, and nothing else about it ever changes |
| `CoordKeys.KeysStartUnused` | internal/store/store.go:375-400 | a key is created unused under the terms asked for, and never over another |
| `CoordKeys.UsableIff` | internal/store/store.go:455-478 | a key lets in exactly while it is not revoked, not expired and not spent |
| `CoordKeys.RevokedKeyAdmitsNone` | internal/store/store.go:441-478 | after a revocation nobody joins by the key, at any later time |
| `CoordKeys.ExpiredKeyAdmitsNone` | internal/store/store.go:455-478 | nor after its expiry |
| `CoordKeys.RefusedAt` | internal/coord/coord.go:129-139 | a registration its key does not let in changes nothing |
| `CoordEffects.KnownDevicesRejoin` | internal/coord/coord.go:98-127 | in every run a known device keeps its row, addresses and endpoints, takes the new node key and system, and goes by the sanitized name it asks for unless that is empty or another node's; other rows stay |
| `CoordEffects.NewDevicesJoin` | internal/coord/coord.go:129-187 | an unknown device gets the next ID, a free address, its derived IPv6 address and a free name if and only if its key is in force, the network has a free address and the insert succeeds; otherwise all rows stay |
| `CoordEffects.DeletedAreGone` | internal/coord/coord.go:289-315 | row, routes, streams and presence of a deleted node go, those of others stay |
| `CoordEffects.EndpointsAreReported` | internal/coord/coord.go:228-245 | the stored endpoints are those reported last |
| `CoordEffects.RulesAreSaved` | internal/store/acl.go:62-96 | the rules of a network are those of the last save that succeeded |
| `CoordEffects.SubscribersAreServed` | internal/coord/coord.go:250-285 | a subscriber is online, holds a new stream that starts with the snapshot of that moment, and its old stream is closed |
| `CoordEffects.LeaversAreGone` | internal/coord/coord.go:274-283 | who leaves its stream is offline and subscribed no more |
| `CoordEffects.InboxesOpen` | internal/coord/signal.go:17-37 | a signal subscription opens a new empty inbox and closes the old one |
| `CoordEffects.SignalLeaversAreGone` | internal/coord/signal.go:29-35 | leaving a signal stream ends that subscription and no other |
| `CoordEffects.SignalsAreDelivered` | internal/coord/signal.go:41-63 | a signal reaches exactly the inbox its addressee holds, if both are in one network and there is room, stamped with its sender |
| `CoordEffects.ReceiversTakeInOrder` | internal/coord/coord.go:250-285 | receivers take what was queued first, and nothing is lost by it |
| `CoordEffects.RestartsKeepTheDatabase` | internal/coord/coord.go:50-60 | a restart keeps the database, and nobody is online or subscribed |
| `CoordObject.Coordinator.constructor` | internal/coord/coord.go:50-60 | on an empty node table a new coordinator is in the initial state |
| `CoordObject.Coordinator.Reopen` | internal/coord/coord.go:50-60 | on the database an earlier server left it is in the model's restarted state, and good |
| `CoordObject.Coordinator.AllocatorFor` | internal/coord/coord.go:64-81 | the network's allocator is loaded and seeded with exactly the stored addresses, or refused |
| `CoordObject.Coordinator.Register` | internal/coord/coord.go:87-187 | for any host name the whole state afterwards, and the result, are those of the model; a success is pushed |
| `CoordObject.Coordinator.Rejoin` | internal/coord/coord.go:98-127 | re-registration keeps the name unless the new one is free |
| `CoordObject.Coordinator.JoinLoaded` | internal/coord/coord.go:140-187 | allocation, insert, derived IPv6 address and offer; a failed insert gives the address back |
| `CoordObject.Coordinator.UpdateEndpoints` | internal/coord/coord.go:228-245 | stores and pushes, or changes nothing |
| `CoordObject.Coordinator.Subscribe` | internal/coord/coord.go:250-285 | replaces and closes the old stream, primes the new one, pushes |
| `CoordObject.Coordinator.Unsubscribe` | internal/coord/coord.go:274-283 | acts only for the registered stream |
| `CoordObject.Coordinator.DeleteNode` | internal/coord/coord.go:289-315 | row, streams, presence and address go, then a push |
| `CoordObject.Coordinator.NotifyNetwork` | internal/coord/coord.go:342-367 | the push loop does what the model's push does |
| `CoordObject.Coordinator.BuildNetMap` | internal/coord/coord.go:370-419 | the loop builds the model's netmap |
| `CoordObject.Coordinator.SetRouteApproved` | internal/coord/coord.go:458-474 | the decision is on the row of that node and route and on no other, and is pushed |
| `CoordObject.Coordinator.SignalSubscribe` | internal/coord/signal.go:17-37 | replaces and closes the old inbox |
| `CoordObject.Coordinator.SignalUnsubscribe` | internal/coord/signal.go:29-35 | acts only for the registered inbox |
| `CoordObject.Coordinator.RouteSignal` | internal/coord/signal.go:41-63 | stamps the sender, stays in the network, drops when full |
| `CoordPushes.ApprovalsArePushed` | internal/coord/coord.go:458-474 | after the call every subscribed node of the network whose buffer had room has the snapshot of the new state last in its stream |
| `CoordPushes.ReportsArePushed` | internal/coord/coord.go:228-245 | the same after reported endpoints |
| `CoordPushes.DeletionsArePushed` | internal/coord/coord.go:289-315 | and after a deletion |
| `CoordPushes.RegistrationsArePushed` | internal/coord/coord.go:87-187 | and after a successful registration |
| `CoordPushes.SubscriptionsArePushed` | internal/coord/coord.go:250-285 | and after a subscription, the new subscriber included |
| `CoordPushes.DeparturesArePushed` | internal/coord/coord.go:274-283 | and after a departure |
| `Frames.RoundTrip` | internal/relay/frames.go:47-75 | reading the written frames gives exactly them and consumes everything |
| `Frames.CutStream` | internal/relay/frames.go:62-75 | a stream cut anywhere gives the whole frames before the cut, and io.EOF exactly when the cut falls between frames or right behind a header, else the unexpected end |
| `Frames.OneParse` | internal/relay/frames.go:62-75 | a stream read with nothing left is the encoding of one frame sequence only |
| `Frames.EofMeans` | internal/relay/frames.go:62-75 | for every stream, io.EOF comes exactly after whole frames or after whole frames and a bare header |
| `Frames.WriteFrame` | internal/relay/frames.go:47-58 | sends the encoding; too large sends nothing, a failing connection a strict prefix |
| `Frames.ReadFrame` | internal/relay/frames.go:62-75 | fills the caller's buffer with the body of the next frame exactly when a whole frame is there, else reports which of the three errors |
| `RelayModel.RunKeeps` | internal/relay/server.go:103-196 | every reachable state of the relay keeps its invariant |
| `RelayModel.EveryRecvWasSent` | internal/relay/server.go:153-196 | every Recv came from a Send to that key, on a connection authenticated as the stamped source, payload intact, and fits a frame |
| `RelayModel.DeliveryIsFifo` | internal/relay/server.go:137-196 | per source connection, in order and at most once |
| `RelayModel.CountersAreExact` | internal/relay/server.go:189-195 | the counters are the Recv frames enqueued and their payload bytes |
| `RelayModel.EveryForwardIsCounted` | internal/relay/server.go:179-196 | in every run each forward is counted once, as delivered or as dropped |
| `RelayModel.OnlyFullQueuesDrop` | internal/relay/server.go:179-196 | a forward is queued behind all that is queued for the connection looked up, and dropped only if that queue is full |
| `RelayModel.ClosedForGood` | internal/relay/server.go:128-150 | a connection whose write failed, or whose reader left, is closed for good |
| `RelayModel.NewestStaysRegistered` | internal/relay/server.go:121-135 | the exit of an older connection never evicts the newer one |
| `RelayModel.ServedQueues` | internal/relay/server.go:137-196 | reading a frame and enqueueing it changes every queue, as the frames it stands for, as the server's read loop does |
| `RelayServer.Server.Accept` | internal/relay/server.go:112-127 | newest wins, the old connection is closed |
| `RelayServer.Server.Leave` | internal/relay/server.go:128-135 | the registry changes only if the connection is still registered |
| `RelayServer.Server.Forward` | internal/relay/server.go:179-196 | the target's queue gets a fresh copy stamped with the source, or the drop is counted |
| `RelayServer.Server.ServeOne` | internal/relay/server.go:153-175 | one turn of the read loop overwrites the reader's buffer, and every queue still holds what it held plus exactly what this frame calls for |
| `RelayServer.ServerConn.Offer` | internal/relay/server.go:162-166 | a full queue drops the frame |
| `OverDrop.DedupePath` | internal/overdrop/overdrop.go:253-266 | the loop ends and picks the first variant that does not exist |
| `OverDrop.PartInjective` | internal/overdrop/overdrop.go:130-135 | distinct name and size pairs never share a staging path |
| `OverDrop.PicksAreNotStaging` | internal/overdrop/overdrop.go:253-266 | a finished file lands on a staging path only if its own name has that form |
| `OverDrop.StepKeeps` | internal/overdrop/overdrop.go:157-242 | every step of any transfer keeps the invariant of one honest transfer |
| `OverDrop.StagedIsPrefix` | internal/overdrop/overdrop.go:157-242 | under any interleaving of interrupted and concurrent attempts the staged file is a prefix of the source, unless a transfer is named exactly like it |
| `OverDrop.SuccessDelivers` | internal/overdrop/overdrop.go:229-242 | success adds one new file equal to the source and changes no other |
| `OverDrop.FinishedFilesStay` | internal/overdrop/overdrop.go:234-239 | a file on which no transfer stages never changes again, whatever is sent |
| `OverDrop.PlainFilesStay` | internal/overdrop/overdrop.go:234-239 | in particular every file whose name has no staging form |
| `OverDrop.PiecesMakeProgress` | internal/overdrop/overdrop.go:211-227 | every piece that carries bytes brings the transfer strictly closer to its end |
| `OverDrop.NothingIsLost` | internal/overdrop/overdrop.go:157-242 | until the transfer completes the staged file holds what it held at any earlier time and all that was received since, over any interrupted attempts and restarts |
| `OverDrop.AttemptsMakeProgress` | internal/overdrop/overdrop.go:206-242 | an attempt that fails keeps what it received: the missing rest is smaller by exactly that |
| `OverDrop.InterruptionsKeep` | internal/overdrop/overdrop.go:211-227 | an attempt that is stopped or cut off leaves the staged prefix as it is, and unlocked |
| `OverDrop.ResumeCompletes` | internal/overdrop/overdrop.go:157-242 | from every state in which nobody writes, sending the rest from the reported offset completes the transfer |
| `OverDrop.WriteAtIs` | internal/overdrop/overdrop.go:206-212 | a write changes only the bytes it covers |
| `OverDrop.ResumeIsAccepted` | internal/overdrop/overdrop.go:341-370 | the reported offset is never past the end, and resuming there is accepted while nobody else writes |
| `OverDrop.NamedLikeStaging` | internal/overdrop/overdrop.go:130-135 | for every staging path, a run from an empty directory in which a transfer of that name puts more bytes there than the staged file may have |
| `OverDrop.PrefixIff` | internal/overdrop/overdrop.go:130-135 | over a set of transfer names the staged file is a prefix of the source in every run if and only if the staging path is not among the names |
| `OverDrop.SplitFinish` | internal/overdrop/overdrop.go:234-239 | when two transfers pick before either renames, the first file survives exactly if the picks differ |
| `OverDrop.Inbox.Offset` | internal/overdrop/overdrop.go:137-155 | the size of the staged file, or zero |
| `OverDrop.Inbox.Start` | internal/overdrop/overdrop.go:157-205 | accepted exactly when the file is free and the offset is its size; other files and attempts stay |
| `OverDrop.Inbox.Copy` | internal/overdrop/overdrop.go:206-212 | the staged file grows by the piece at the attempt's position, and no other file changes |
| `OverDrop.Inbox.End` | internal/overdrop/overdrop.go:211-242 | success exactly on a complete body, under a name that did not exist; too many bytes remove the staged file, too few keep it as it is; the attempt is over either way |
| `DaemonPeers.MergeIsRebuild` | internal/daemon/daemon.go:501-558 | after any netmaps and path updates the table is the one rebuilt from the last netmap with each peer's latest path since it entered |
| `DaemonPeers.LatestPathIsOne` | internal/daemon/daemon.go:1102-1114 | that path is unique |
| `DaemonPeers.RecordsFollowNetMap` | internal/daemon/daemon.go:501-558 | the peers are exactly those the last netmap lists with a whole key, and each record holds the key, name, presence and endpoints of the peer's last entry there |
| `DaemonPeers.ExitPeerIs` | internal/daemon/daemon.go:646-657 | there is an exit peer exactly if one is wanted and the last netmap has one of that name with a default route, and then it is such a one |
| `DaemonPeers.ExitChoiceIsUnique` | internal/daemon/daemon.go:646-657 | with distinct host names, which `MeshExit.ExitIsUnique` derives, the exit peer does not depend on the order of visiting |
| `DaemonPeers.DefaultRouteIff` | internal/daemon/daemon.go:964-995 | exactly when a config carries a default route |
| `DaemonPeers.AllowedIff` | internal/daemon/daemon.go:964-972 | a config carries exactly the peer's overlay addresses and its routes that parse, a default route only for the selected exit |
| `DaemonPeers.ConfigIff` | internal/daemon/daemon.go:964-995 | after any netmaps and path updates these are the ones of the last netmap, under the key there |
| `DaemonPeers.WayOfPeer` | internal/daemon/daemon.go:973-990 | a direct path wins, the relay carries an online peer without one, else the first static hint that parses is used, and a peer without any has no config |
| `DaemonPeers.OneDefaultRoute` | internal/daemon/daemon.go:964-995 | with host addresses, which `MeshExit.SnapshotHosts` derives, at most one does, the selected exit peer's |
| `DaemonObject.PeerRecord.Refresh` | internal/daemon/daemon.go:516-545 | refills the three slices in place, keeps the path, and stays within the record's own memory |
| `DaemonObject.PeerRecord.Render` | internal/daemon/daemon.go:968-990 | the config of one peer by the path ladder, with prefixes in a new array |
| `DaemonObject.PeerRecord.Allowed` | internal/daemon/daemon.go:968-972 | a config gets a new array |
| `DaemonObject.Daemon.MergePeers` | internal/daemon/daemon.go:501-558 | the two loops over records that share no memory make the table the merge of the old one, and every array ever handed out keeps its contents |
| `DaemonObject.Daemon.SelectExitPeer` | internal/daemon/daemon.go:646-657 | selects a candidate if there is one, whatever the order |
| `DaemonObject.Daemon.FindExit` | internal/daemon/daemon.go:650-656 | the search finds a candidate exactly if there is one, in any order of the peers |
| `DaemonObject.Daemon.BuildPeerConfigs` | internal/daemon/daemon.go:964-995 | one config for each reachable peer and no other, in arrays that belong to no record and join those already handed out |
| `DaemonObject.Daemon.ApplyNetMap` | internal/daemon/daemon.go:495-562 | merge, selection and configs together; arrays handed out before keep their contents, and with host addresses only the exit peer's config has a default route |
| `DaemonObject.Daemon.OnPathUpdate` | internal/daemon/daemon.go:1102-1114 | records the path of a known peer only, and reports a change among the three path states or of the endpoint |
| `MeshExit.SnapshotHosts` | internal/coord/coord.go:370-419 | every overlay address in a snapshot of a run is that of a host |
| `MeshExit.SeenOnWire` | internal/daemon/daemon.go:501-558 | from a snapshot the daemon takes over exactly the other live nodes of the network |
| `MeshExit.PeerOnWire` | internal/daemon/daemon.go:516-545 | each under its own well-formed name, with a default route exactly while an approval of it stands by the events so far |
| `MeshExit.ExitIsUnique` | internal/daemon/daemon.go:646-657 | whatever the daemon went through, after a snapshot of a run its exit peer is determined by the name |
| `MeshExit.DefaultRouteIsStanding` | internal/daemon/daemon.go:964-995 | and a config has a default route exactly when it is the exit peer's and that node's exit approval stands by the coordinator's events |
| `MeshExit.PrefixesOnWire` | internal/coord/coord.go:370-429 | the entry of a peer carries its key, its presence, its addresses and exactly the routes whose approval stands by the events so far |
| `MeshExit.ConfigFollows` | internal/daemon/daemon.go:964-995 | whatever the daemon went through, after a snapshot of a run a config has the node's key and exactly those prefixes, a default route only for the exit peer |
| `MeshExit.OnlineIsReachable` | internal/daemon/daemon.go:973-990 | while the relay is up every other live node that is online has a config |
| `MeshExit.Receive` | internal/daemon/daemon.go:495-562 | the daemon object, on any netmap of any stream of any run: each config it hands to WireGuard has the node's key and exactly its addresses and the routes whose approval stands, a default route only for the exit peer, who is determined by the name |
| `ResolvConf.StopsIff` | internal/meshdns/osdns_linux.go:105-121 | the stripping loop ends exactly on files where, in every round, the first end marker follows the first begin marker |
| `ResolvConf.CrossedNeverStops` | internal/meshdns/osdns_linux.go:105-121 | on a file with the end marker first it never ends, and the text never gets shorter |
| `ResolvConf.CrossedExample` | internal/meshdns/osdns_linux.go:105-121 | the two markers in the wrong order are such a file |
| `ResolvConf.StripMarkedBlock` | internal/meshdns/osdns_linux.go:105-121 | the loop, with decreasing length, on the files where it ends |
| `ResolvConf.StrippedHasNoBegin` | internal/meshdns/osdns_linux.go:105-121 | nothing stripped contains a begin marker |
| `ResolvConf.RestoreUndoesConfigure` | internal/meshdns/osdns_linux.go:61-103 | configure then restore gives back exactly the original without marked blocks, so the original itself if it had none, when no end marker is in the search list |
| `ResolvConf.ConfigureTwice` | internal/meshdns/osdns_linux.go:61-90 | configuring twice equals configuring once |
| `ResolvConf.RestoreFate` | internal/meshdns/osdns_linux.go:61-121 | for every search list, what restoring after configuring does: the file is back, more is left than the file, the loop never ends, or a rest of the list is joined to the file and stripped; which one is decided by the part of the list behind its first end marker |
| `ResolvConf.RestoredIff` | internal/meshdns/osdns_linux.go:61-121 | the exact condition on the search list and the file under which restoring undoes configuring |
| `ResolvConf.PlainRestoredIff` | internal/meshdns/osdns_linux.go:61-121 | for a file that does not start with the tail of a begin marker, restoring undoes configuring if and only if the search list alone says so |
| `ResolvConf.JoinedIsGood` | internal/meshdns/osdns_linux.go:105-121 | in the last case of `ResolvConf.RestoreFate` the loop ends |
| `ResolvConf.EarlyEndLeavesRest` | internal/meshdns/osdns_linux.go:66-85 | an end marker in the search list, without a begin marker there, leaves part of the block behind |
| `ResolvConf.ForeverExample` | internal/meshdns/osdns_linux.go:66-121 | a domain of two end markers and a begin marker, for which restoring never ends |
| `ResolvConf.RestoredExample` | internal/meshdns/osdns_linux.go:66-121 | a domain with both markers, for which the file comes back exactly |
| `ResolvConf.EarlyEndExample` | internal/meshdns/osdns_linux.go:66-85 | a concrete domain for which it does |
| `ResolvConf.SearchList` | internal/meshdns/osdns_linux.go:70-82 | the loops join our domain and the file's other domains |
| `ResolvSearch.LinesAre` | internal/meshdns/osdns_linux.go:71-73 | splitting into lines loses nothing and leaves no newline |
| `ResolvSearch.SearchKeepsDomains` | internal/meshdns/osdns_linux.go:68-82 | the words of the search list are our domain and every other domain the file names, in order |
| `ResolvSearch.SearchIff` | internal/meshdns/osdns_linux.go:68-82 | a domain is searched exactly if it is ours or some search or domain line of the file lists it |
| `ResolvSearch.ConfiguredFile` | internal/meshdns/osdns_linux.go:61-90 | line by line, the configured file is the markers with our name server and that search list between them, then the file |
| `ResolvConf.ResolvFile.Configure` | internal/meshdns/osdns_linux.go:61-90 | the file is the block and the stripped content |
| `ResolvConf.ResolvFile.Restore` | internal/meshdns/osdns_linux.go:92-103 | the file is the stripped content |

## Left out

- ICE callbacks and path quality: which path an agent picks, timeouts and backoff are open; a retry or failure may happen at any time.
- Session clocks are strictly increasing in the model; the source takes the wall clock in nanoseconds.
- The signalling channel of `IceProtocol` loses and reorders envelopes but neither duplicates nor forges them; that the server does neither is proved in `CoordSignals.SignalsAreAuthentic` and `CoordSignals.SignalsAreNotRepeated`, and the gRPC transport on either side is not modelled.
- ConnMgrObject.ConnMgr.Restart: Go may or may not visit a map entry added during the loop; both are covered by the reconciling changes, so the exact new session numbers are open.
- Database failures: only a failing insert is modelled; every other statement succeeds.
- Address and route text: a CIDR or route that does not parse is `None`, and the parsers of the standard library are not modelled.
- Lower-casing and case folding are parameters; the theorems say what they need of them.
- Order of routes inside a netmap entry: approved routes are a set, and the daemon theorems hold for any order of listing them.
- NetMap fields for STUN servers, relays and DNS are constants of the server and are not modelled.
- CoordRuns.PushIsCurrent: a full buffer drops the newest netmap until the next push, so delivery is stated for streams with room.
- CoordRuns.PolicyHolds: for IPv6 it needs a prefix of at most 64 bits, since longer prefixes do not leave room for a 64-bit ID; rules whose port texts all fail to parse are refused when they are saved.
- OverDrop.FinishedFilesStay: picking the final path and renaming are one step, as `OverDrop.SplitFinish` says what happens otherwise.
- OverDrop request parsing and sender lookup: one sender's directory is modelled, with names as the request parser lets them through.
- The printed addresses a peer record keeps for the status page.
- DaemonObject.Daemon.ApplyNetMap: an exit peer ID of zero means none; a netmap entry with node ID zero would be taken for it, which `MeshExit.PeerOnWire` shows the coordinator never sends.
- The comment in internal/meshdns/osdns_linux.go:68-69 says the last search line of the file counts, but the block goes in front of the file; the model follows the code and does not say which line the resolver library uses.
- ResolvConf.StripMarkedBlock: requires a file on which the loop ends, because on the others it does not return.
- RelayModel.CountersAreExact: counting is the same step as the enqueue it counts; the source counts right after it.
- Relay handshake: a connection's key is the one it proved to hold; the proof itself is not modelled, nor are deadlines.
- Left out because they would add only easy members: users, sessions, audit log, the DNS server, transfer progress, metrics, the web interface, and everything that shells out to the operating system.
