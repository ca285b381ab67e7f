# Verified model of the component runtime

An application is a graph of components placed on nodes. The terminal indexes
the graph, cuts a slice for every node and sends it there; each node turns its
slice into routing tables and runs its components, exchanging packets with the
other nodes. This project models that pipeline and that execution in Dafny, with
the wire layer below it and two small algorithms beside it, and proves what they
are for:

* **Deployment** (`Configuration`, `DeployIndex`, `Slice`, `SliceProperties`,
  `Routing`, `Tables`, `Packets`, `Deployment`, `Pipeline`): the routing tables of
  all primary nodes together are exactly the configured graph, each connection on
  its source's node, in configuration order, local exactly when its destination is
  co-located. `Pipeline` joins the objects of both programs from parsing to tables.
* **Execution of one node** (`Runtime`, `Router`, `Behaviour`, `NodeMachine`,
  `NodeSafety`, `Node`, `Process`): a node is a list of router objects (the current one last) and one
  pool of tasks that may run in any order, while packets and commands arrive.
  Redeploys are isolated from one another, a stopped node falls silent, and the
  counters count. `Router`, `Node` and `Process` are the objects, updated in
  place; every method of a process is proved to take the step of the state machine
  for its event. `Behaviour` says what components and routers post and send in terms
  of declared kinds and configured connections.
* **The network** (`Central`, `Network`, `Refinement`, `Simulation`, `Lifecycle`,
  `Conservation`, `Paths`, `Drain`, `Shutdown`): the nodes and the packets between
  them can do exactly what an interpreter does that delivers every emission along
  every matching connection of the graph, however the network was brought up;
  packets are conserved; with no generator running an acyclic network comes to rest,
  within bounds given by the number of paths of its graph.
* **The wire** (`Framing`, `Correlation`, `Counters`): framing under any
  segmentation, request/response correlation by a wrapping id, speed from
  wrapping counters.
* **Algorithms** (`Barrier`, `UniqueTitle`): the all-ports barrier of `reduce`
  and the search for a free tab title.

`Multisets` holds sums and images over multisets.

Well-formed configurations (`Configuration.WellFormed`) have unique non-empty
component and node names, known kinds, connections between declared components,
one mapping to a declared node for every component, and no node called
`pairnode.` plus another node's name. Indexing is proved for every
configuration; well-formedness is asked for only where a statement needs it.

Some promises hold only under a condition. It is proved to be exact, and a failing
input is given beside it:

* a deployed packet leaves no table entry without a component exactly when it is
  self-contained (`Packets.DeployableIff`, `Packets.HollowFails`);
* correlation stays correct exactly when no request is issued with 2^32 callbacks
  pending (`Correlation.CorrelationCorrectIff`, `Correlation.TooManyRequests`);
* the difference of two byte readings is the number of bytes transferred exactly when
  that fits the counter and the counters replaced in between add up to whole words
  (`Counters.ReportedTrueIff`, `Counters.RedeployMisleads`).

A response can also be on its way before a header read waits for it
(`Correlation.ResponseBeforeRead`); the read is then owed by a write callback.

## Model

| member | source | states |
|---|---|---|
| Configuration.KindRoundTrip | components/src/convert.h:8-45 | the two kind conversions are inverse: a kind survives going to its name and back, and so does every known name |
| DeployIndex.DeployConfiguration.ParseDeploy | terminal/src/deployconfiguration.h:19-54 | whatever the tables held before, they end as the index function of the configuration, first clears included |
| DeployIndex.DeployConfiguration.AddNodes | terminal/src/deployconfiguration.h:35-43 | the node loop adds each node, after its synthetic pair if it has one; the last entry under a name wins |
| DeployIndex.DeployConfiguration.AddMappings | terminal/src/deployconfiguration.h:45-53 | the mapping loop mirrors onto the pair first and then maps, inserting a default for an undeclared node |
| DeployIndex.DeployConfiguration.Map | terminal/src/deployconfiguration.h:57-61 | one mapping is appended to its node's list and replaces the component's mapping |
| DeployIndex.IndexResolves | terminal/src/deployconfiguration.h:19-54 | on a well-formed configuration every lookup answers the declaration, and the per-node and per-component lists are exactly the configured ones in order |
| DeployIndex.LastOnesStay | terminal/src/deployconfiguration.h:29-61 | of components, nodes or mappings with one name the last stays in its table |
| DeployIndex.PairMirroring | terminal/src/deployconfiguration.h:35-61 | a node's pair hosts the same components in the same order, while every one of them still resolves to the primary |
| Slice.RemoteNode.AsyncDeploy | terminal/src/remotenode.cpp:66-145 | the nested loops produce the specified slice of this node, the same one as from any tables that read alike, and the default entries their subscripts insert change no later reading |
| Slice.SliceSame | terminal/src/remotenode.cpp:79-121 | tables that every subscript reads alike give every node the same slice, whichever slices were cut from them before |
| Slice.RemoteNode.AddComponent | terminal/src/remotenode.cpp:87-145 | one hosted component appends its instance, its own map and all its connections |
| Slice.RemoteNode.AddConnection | terminal/src/remotenode.cpp:105-144 | one connection is appended; a remote destination brings its node and its map only when they are new |
| SliceProperties.SliceClosed | terminal/src/remotenode.cpp:70-145 | a primary slice's maps are a function agreeing with the placement, each node appears once as declared, and components and nodes are included exactly when hosted here or one hop away |
| SliceProperties.SliceContents | terminal/src/remotenode.cpp:87-114 | a primary slice holds, once and with its declared kind, each component placed there and, in order, all its connections, and nothing of other components |
| SliceProperties.AnySlice | terminal/src/remotenode.cpp:79-145 | the slice of any node, pair or primary, describes that node first, carries an instance of each hosted component with its kind and maps it to that node; any other map is of a destination elsewhere |
| Pipeline.AlwaysCuttable | terminal/src/remotenode.cpp:87-91 | the kind conversion's assertion cannot fail for any node of a well-formed configuration, pairs included |
| NodeProgram.Node.CompToNode | node/src/node.h:176-186 | the first node and the first mapping of a name win, and unknown nodes give empty infos |
| Tables.FirstOnesStay | node/src/node.h:181-185 | of nodes or maps with one name the first stays in its table |
| NodeProgram.Node.AddInstances | node/src/node.h:189-196 | exactly the components placed on this node get an entry with a new component that points back at it |
| NodeProgram.Node.AddConnection | node/src/node.h:199-231 | one connection of a local source adds one local route, or one remote route through the node's client, creating the client only if there is none |
| NodeProgram.Node.DeployFromConfig | node/src/node.h:165-232 | the loops build exactly the specified tables on top of what the router held |
| NodeProgram.Node.DeployFromPacket | node/src/node.h:323-344 | name and port come from the packet, and the new router holds the tables specified for its configuration |
| Tables.RoutesExact | node/src/node.h:199-231 | for any connections each name and port gets, in order, exactly the connections leaving there that find their source in the table, split into local and remote; an instance gets all of its own |
| Tables.ClientsExact | node/src/node.h:211-229 | for any connections there is a client for a node exactly if it is another node that a routed connection leads to; clients are not shared between nodes, and each is connected to the address recorded for the first destination on its node |
| Tables.ClientsOfInstances | node/src/node.h:211-229 | when no destination had to be inserted, the clients are exactly for the other nodes that connections of instances lead to |
| Tables.InstancesOf | node/src/node.h:189-196 | for any components, repeated names included, the entries after the instance loop are exactly the named components placed here, each new and of the kind last given |
| Tables.AllRealIffClosed | node/src/node.h:206-208 | the subscript on a local destination leaves no entry without a component exactly when every such destination is an instance here |
| Packets.NodeInExact | node/src/node.h:176-186 | a node places each component where the packet's first map of it says, if the packet describes that node |
| Packets.DeployableIff | node/src/node.h:165-232 | deploying any packet leaves every entry with a component exactly when the packet carries an instance of every local destination of its created instances |
| Packets.HollowFails | node/src/node.h:206-208 | a packet that maps a destination here without an instance leaves an entry without a component |
| Tables.DeployedFresh | node/src/node.h:188-232 | for any packet, well formed or not, local routes point into the same router, remote routes at existing clients, and components at their own entry |
| Deployment.DeployRealizes | node/src/node.h:165-344 | parsing, slicing and rebuilding give each primary node exactly its part of the graph: placed components, per-port routes in configuration order, local exactly when co-located, remote ones connected to the declared address |
| Deployment.DeployedClients | node/src/node.h:211-229 | a deployed primary node has exactly one client for each other node a connection of its components leads to, connected to that node's declared address |
| Deployment.RoutesShareClients | node/src/node.h:211-229 | every remote route of a deployed primary node goes through the one client of its destination's node |
| Deployment.HeldExactly | node/src/router.h:62-105 | a router with its part of the graph holds an edge as often as it is configured if the source is placed there, and not at all otherwise |
| Deployment.GraphPreserved | node/src/node.h:165-236 | over all primary nodes every edge is held exactly as often as it is configured, whichever router objects the nodes use |
| Pipeline.CutAll | terminal/src/mainwindow.cpp:367-368 | slices cut one after another from the one set of tables, in any order of nodes, are each the slice of the tables as they were at first |
| Pipeline.DeployPackets | node/src/node.h:258-271 | new nodes deploy whatever packets they are sent and hold the tables specified for them |
| Pipeline.DeployApplication | terminal/src/mainwindow.cpp:452-471 | parsing a configuration, slicing it for any list of nodes with pairs among them and deploying every slice leaves the primary nodes holding the configured graph |
| RouterObject.Router.Route | node/src/router.h:151-176 | the packet is counted even when stopped; one Process task is posted exactly when started and the component is known |
| RouterObject.Router.DoRoute | node/src/router.h:183-248 | a stopped router does nothing; a started one posts one task per local route and sends one counted packet per remote route, per output and port, in order |
| RouterObject.Router.DoProcess | components/src/component.h:58-62 | the in-counter moves by one and the component's emission, if any, is posted while its router can be locked |
| RouterObject.Router.RunGenerate | components/src/generator.h:38-71 | a running generator posts its emission and its next turn, a stopped one nothing |
| RouterObject.Router.Start | node/src/router.h:121-127 | every generator is switched on and takes one turn, whatever the order of the table |
| RouterObject.Router.Stop | node/src/router.h:130-136 | the router and all its generators are switched off and nothing else changes |
| Behaviour.ProcessPosts | components/src/calc.h:29-45 | for an input a retranslator posts one distribution of the same payload on ports 0 and 1, from input ports 0 and 1 only; a calc one of a hundred times the value on port 0 with time and address kept; every other kind nothing, and nobody anything once the router is gone |
| Behaviour.DeclaredKind | components/src/convert.h:8-45 | a component of a deployed node has the kind it was declared with |
| Behaviour.ConsumeAdds | components/src/retranslator.h:17-31 | the central interpreter's components behave the same, by declared kind |
| Behaviour.GeneratePosts | components/src/generator.h:38-71 | a running generator posts the sample it drew on ports 0 and 1, once, and its next turn |
| Behaviour.StartPosts | node/src/router.h:121-127 | a start posts, for each declared generator and nothing else, its own sample once and its next turn once |
| Behaviour.PortDistributed | node/src/router.h:203-245 | one payload out of one port gives, one for one and in configuration order, a task for each connection to the node and a packet for each to another node, with the connection's own source, destination and ports, addressed to the destination's node |
| Behaviour.PortsDistributed | node/src/router.h:201-203 | an output goes out of its ports one after another |
| Behaviour.OutputsDistributed | node/src/router.h:199-201 | several outputs are distributed one after another |
| Behaviour.SentAsConfigured | node/src/router.h:222-240 | every packet sent names the sending component and a port of the output as its source, carries the output's payload, and travels along a configured connection |
| Behaviour.AlongExactly | node/src/router.h:206-219 | along connections the central interpreter delivers the payload once at each far end |
| NodeProgram.Node.Redeploy | node/src/node.h:262-271 | a new router with the packet's tables becomes current, started if the old one was, the old one ends stopped, and its queued work stays queued; the node is valid afterwards exactly when the packet is self-contained |
| NodeProgram.Node.StartRouter | node/src/node.h:273-275 | the current router and its service change as the start step of the state machine says, keeping the router invariant |
| NodeProgram.Node.StopRouter | node/src/node.h:276-278 | the current router is stopped as the stop step says, keeping the router invariant |
| NodeProgram.Node.OnNewMessage | node/src/node.h:138-148 | an arriving message is routed by the current router as the receive step says, whatever its tables, keeping the router invariant if it held |
| NodeProcess.Process.Execute | node/src/node.h:93-95 | executing a task on the router it belongs to takes the machine's step for it and sends what the step sends |
| NodeProcess.Process.OnNewMessage | node/src/node.h:138-148 | an arriving message takes the machine's receive step |
| NodeProcess.Process.Start | node/src/node.h:273-275 | the start command takes the machine's start step |
| NodeProcess.Process.Stop | node/src/node.h:276-278 | the stop command takes the machine's stop step |
| NodeProcess.Process.Deploy | node/src/node.h:262-271 | a redeploy takes the machine's deploy step on all routers there have been, first turns of the new generators included |
| Behaviour.DeployPosts | node/src/node.h:264-271 | a redeploy keeps every queued task and, on a started node only, adds the first turns of the generators the packet creates |
| NodeMachine.StepKeepsInv | node/src/node.h:258-278 | every task, packet and command keeps the invariant: live pointers, stopped old routers, generators running exactly with their router |
| NodeMachine.TaskConfined | node/src/router.h:183-248 | a task changes no tables and posts only tasks of its own router |
| NodeSafety.Isolation | node/src/node.h:258-278 | in every reachable state the instance of each queued DoRoute is an entry of the router the task holds, every replaced router is stopped with its generators, and every component refers to the router it lives in |
| NodeSafety.ReplacedTasksInert | node/src/router.h:188-195 | a task of a replaced router sends nothing, gives no component anything to process, leaves the current router alone and posts at most one task of its own router |
| NodeSafety.ReleasedForGood | components/src/component.h:68-76 | once no queued DoRoute holds a replaced router no later step revives it |
| NodeSafety.StartedFollowsCommands | node/src/node.h:264-278 | over any run, redeploys included, the started flag is what the last Start or Stop said |
| NodeSafety.CounterCountsExecutions | components/src/component.h:58-67 | over any run a component's in-count moves by the number of its executed Process tasks, modulo 2^32 |
| NodeSafety.StopQuiesces | node/src/router.h:130-195 | after stop, on any graph and whatever arrives, no packet is sent and no Process task posted, and the pool is empty within the steps owed |
| NodeSafety.OwedCounts | components/src/generator.h:38-59 | the steps owed are twice the queued Process tasks plus the other tasks |
| Network.FanWork | node/src/router.h:199-246 | fanning a component's outputs through its tables queues and sends exactly what the graph's connections would deliver |
| Refinement.NetStepRefines | node/src/router.h:151-248 | each step of the deployed, started network is one step of the central interpreter, or an arrival or a leftover of a replaced router that changes nothing |
| Refinement.NetStepKeepsInv | node/src/router.h:151-248 | such steps keep every node's tables and the right addressing of all packets in flight |
| Refinement.NetworkRefinesCentral | node/src/router.h:151-248 | every run of the network is a run of the central interpreter on queued tasks plus packets in flight, with no more steps |
| Simulation.ActionSimulated | node/src/router.h:151-248 | every action the central interpreter can take on the work of a running network is taken by the network in at most two steps: an arrival, then the action |
| Simulation.CentralSimulated | node/src/router.h:151-248 | every run of the central interpreter whose starts are those of whole nodes is a run of the network |
| Refinement.StartedNetwork | node/src/node.h:258-278 | nodes deployed from their slices and started satisfy what the refinement asks of its first state |
| Lifecycle.UpStep | node/src/node.h:138-278 | from the first moment on, through deploys of a node's own slices, starts, stops, executions and arrivals, every deployed node holds its part of the graph and every packet in flight goes to the node of its destination |
| Lifecycle.UpIsReady | node/src/node.h:258-278 | however a network was brought up from empty nodes, once all are deployed and running it satisfies what the refinement asks |
| Lifecycle.ReadyIsUp | node/src/node.h:258-278 | whatever is proved of networks coming up, draining included, holds of every network ready to be refined |
| Lifecycle.UpRefinesCentral | node/src/router.h:151-248 | brought up in any way from nothing, a running network does only what the central interpreter of the configured graph does |
| Lifecycle.OwnSliceDeployable | node/src/node.h:262-271 | a node's own slice can be deployed in every state: it never leaves a table entry without a component |
| Lifecycle.BringUp | node/src/node.h:258-278 | every well-formed configuration has a run from empty nodes to all nodes deployed and running |
| Conservation.StepPackets | node/src/router.h:151-240 | an event counts one packet in exactly when one arrives and counts out exactly the packets it sends |
| Conservation.PacketsConserved | node/src/router.h:151-240 | over any run without redeploy, with any starts and stops, packets sent equal packets received plus packets in flight, modulo 2^32 |
| Conservation.FreshBalance | node/src/router.h:275-279 | newly deployed routers balance at zero |
| Conservation.ConservedSinceFresh | node/src/router.h:151-240 | from newly deployed routers with nothing in flight, packets sent equal packets received plus packets in flight |
| Conservation.StepCounted | node/src/node.h:262-271 | any event, a redeploy included, moves the counters of one router only: in by an arrival, out by the packets sent |
| Conservation.ConservedForLife | node/src/router.h:151-279 | over the whole life of a network, redeploys included, what all routers ever sent is what all ever received plus what is in flight, modulo 2^32 |
| Paths.RankDescends | node/src/router.h:199-246 | on an acyclic graph following a connection reaches strictly fewer ends |
| Paths.PathCountCounts | components/src/retranslator.h:17-31 | the path count of a component is the number of directed paths leading on from it by ports 0 and 1, each listed once |
| Paths.ActionDescends | components/src/retranslator.h:17-31 | consuming or distributing weighs more than what it adds and the arrivals that takes, and each input consumed uses up a path |
| Drain.StepDrains | node/src/router.h:183-246 | in any state of deployed, undeployed, started and stopped nodes with no turn queued at a started one, every task execution and arrival leaves fewer steps to do, a stop no more, and every input processed one path fewer |
| Drain.AcyclicDrains | node/src/router.h:183-246 | no run of executions, arrivals and stops, in whatever order, takes more steps than are left at its start, or has current routers process more inputs than there are paths before the work queued and in flight at its start |
| Drain.NoneRunningNoneTurning | components/src/generator.h:38-41 | a state in which no generator is running has no turn queued at a started node |
| Drain.NoGeneratorsNoTurns | components/src/generator.h:61-77 | a network whose configuration has no generator never has a turn queued |
| Drain.Progress | node/src/router.h:171-174 | while a task is queued or a packet in flight, a task can run or a packet can arrive |
| Drain.AcyclicComesToRest | node/src/router.h:183-246 | a run of executions, arrivals and stops that can be continued by neither an execution nor an arrival ends with every queue empty and nothing in flight, within the steps left at its start |
| Shutdown.CanShutDown | node/src/node.h:258-278 | when all generators are on one node and one is connected to another node, a run leads to a state that is still to drain: that node stopped, the others running, a packet in flight |
| Shutdown.TwoShutDown | node/src/node.h:258-278 | a configuration of two nodes, well formed and acyclic, with such a run |
| Framing.SizeOfHeader | link/src/packet_header.h:18-27 | reading a header gives back the size written, for every 32-bit size |
| Framing.HeaderLayout | link/src/packet_header.h:18-24 | the size stands in the header least significant byte first |
| Framing.LargestPacket | link/src/packet_header.h:30 | a header announcing 1048576 bytes is read on and one announcing 1048577 closes the connection |
| Framing.Client.DoSendPacket | link/src/client.h:114-130 | the bytes written are the header followed by the packet |
| Framing.ParseAppend | link/src/connection.h:95-166 | reading is incremental: only the bytes of the packet being read matter for what follows, and nothing follows a closing |
| Framing.RoundTrip | link/src/connection.h:95-166 | the framed packets come back exactly, and reading goes on with the bytes after them |
| Framing.DeliveredSoFar | link/src/connection.h:95-166 | at any cut of the stream exactly the packets wholly contained in the bytes so far have been delivered |
| Framing.CutExists | link/src/connection.h:95-166 | every cut has such a number of packets |
| Framing.OversizedCloses | link/src/connection.h:131-148 | at an oversized header everything before it has been delivered and nothing after it ever is |
| Framing.Connection.OnByte | link/src/connection.h:95-166 | the two-phase reader over its buffers stays where the meaning of the bytes received puts it |
| Framing.Connection.OnBytes | link/src/connection.h:95-166 | fed in portions of any size, the reader has delivered the packets of all bytes received so far |
| Correlation.Client.AsyncSendRequest | protolink/src/client.h:103-112 | a request goes out under the current id, the id wraps at 2^32, and a callback already pending under it is kept instead of the new one |
| Correlation.Client.OnPacketSent | protolink/src/client.h:187-206 | only a written request starts reading a header |
| Correlation.Client.OnNewPacket | protolink/src/client.h:280-304 | the callback pending under the response's id fires once and is removed; an unknown id changes nothing but the read |
| Correlation.ServerOnNewPacket | protolink/src/connection.h:184-209 | a request is answered under its own id, which survives its signed form, and a message is not answered |
| Correlation.AllAskedFor | protolink/src/client.h:90-112 | over any run from the first moment the packets served, on the link and still to be taken are the requests and messages issued, in order |
| Correlation.IssueGoodIff | protolink/src/client.h:103-112 | issuing keeps correlation correct exactly when fewer than 2^32 callbacks are pending; otherwise the new callback is never registered |
| Correlation.AnsweredGood | protolink/src/client.h:280-304 | the next response fires the callback of the oldest unanswered request, with the answer to it |
| Correlation.CorrelationCorrectIff | protolink/src/client.h:103-304 | over every run, correlation is correct throughout exactly when no request is issued with 2^32 callbacks pending; then pending is issued minus fired |
| Correlation.TooManyRequests | protolink/src/client.h:110 | 2^32 requests issued from the first moment fill the table correctly, and the next one's callback is never registered |
| Correlation.PendingCount | protolink/src/client.h:110-301 | in a correct state the pending callbacks number issued minus answered |
| Correlation.ReadsSuffice | protolink/src/client.h:187-206 | a header read waits for a response on its way exactly when fewer write callbacks of requests are still to run than requests are taken and responses unread; otherwise such a callback can run; nothing is read, owed or pending when nothing is on its way |
| Correlation.ResponseBeforeRead | protolink/src/client.h:201-203 | the server can answer before the write callback has started the header read |
| Correlation.CallbacksStartReads | protolink/src/client.h:201-203 | running the write callbacks that are due makes the response readable |
| Counters.ByteStatus.OnStatusRequestFinished | terminal/src/remotenode.cpp:259-266 | the difference is taken from the last reading before the new one replaces it, and is zero at the first status |
| Counters.NothingBeforePoll | terminal/src/remotenode.cpp:261-262 | before a first poll nothing is reported, however much was transferred |
| Counters.PollReports | terminal/src/remotenode.cpp:332-341 | after a poll and any transfers the report is what was transferred since, modulo 2^32 |
| Counters.ReportedTrueIff | terminal/src/remotenode.cpp:332-341 | over any transfers, polls and redeploys, the difference at a poll is, modulo 2^32, the bytes transferred since the last one less the counts of the routers replaced, and is the bytes transferred exactly when these are below 2^32 and the counts of the routers replaced meanwhile add up to whole words |
| Counters.DeltaTrueIff | terminal/src/remotenode.cpp:259-266 | without a redeploy since the last poll the difference is the bytes transferred exactly when these are below 2^32, however often the counter wrapped |
| Counters.RedeployMisleads | node/src/node.h:265-266 | a redeploy after ten polled bytes makes the terminal report almost 2^32 though nothing was transferred |
| Barrier.Reduce.Process | components/src/reduce.h:23-46 | after any arrivals the flags and values are those of the specified barrier, and an output is the fold of the completing values |
| Barrier.Reduce.IsAllRelevant | components/src/reduce.h:53-58 | the test holds exactly when every port's flag is set |
| Barrier.Reduce.MakeAllUnrelevant | components/src/reduce.h:60-63 | every flag is cleared and nothing else changes |
| Barrier.RunExplained | components/src/reduce.h:23-63 | the barrier emits as soon as every port has arrived since the previous emission; meanwhile flags and values are the latest arrivals |
| Barrier.BarrierOptimal | components/src/reduce.h:23-63 | the number of emissions is the largest number of disjoint consecutive blocks each covering every port |
| Barrier.EmissionsLatest | components/src/reduce.h:29-37 | each emission holds for every port the latest value since the previous emission |
| Barrier.DoMax | components/src/reduce.h:71-76 | the first of the largest values, with its own time |
| Barrier.DoMin | components/src/reduce.h:83-88 | the first of the smallest values, with its own time |
| UniqueTitle.CandidatesDiffer | terminal/src/mainwindow.cpp:425-430 | no candidate comes twice, although only one character is ever dropped |
| UniqueTitle.DigitsDecimal | terminal/src/mainwindow.cpp:429-430 | the number appended is in decimal notation: digits only, no leading zero, and read from left to right it is the number |
| UniqueTitle.FirstCandidates | terminal/src/mainwindow.cpp:425-430 | the candidates of rounds 0 to 2 and 9 to 12 are the literal titles, 11 giving 111 and 12 giving 1112 |
| UniqueTitle.TakenBound | terminal/src/mainwindow.cpp:432-443 | as many taken candidates need as many other tabs |
| UniqueTitle.FixedWindowTitle | terminal/src/mainwindow.cpp:410-449 | the loop ends after at most one candidate more than there are other tabs, with the first candidate no other tab shows |

## Left out

- Components are values in their router's table, named by router and entry, instead of heap objects; whether the weak router reference can be locked is a parameter of the effects, and the state machine computes it from the current router and the queued DoRoute tasks.
- NodeProgram.Node.Redeploy: a started node asks for a self-contained packet, and any node for a previous router with every component, because starting and stopping call through the component pointer of every entry; `Packets.DeployableIff` says exactly which packets qualify, and slices of primary nodes always do.
- The state machine of a node does not follow a stopped node past the deployment of a packet that is not self-contained, because every start, stop or redeploy then goes through a null pointer.
- The default entry that `port_to_routes[out_port]` inserts while routing is not kept, since an absent and an empty entry route alike.
- Pair nodes: their slices are cut by the same function, but no graph or closure claim is made about them, since a co-hosted destination gets two maps there.
- Refinement.NetworkRefinesCentral: assumes that no two nodes share an endpoint and, from the state it starts in, that no redeploy or stop happens, since either drops work the central interpreter would still do; links lose nothing and packets arrive in any order.
- Simulation.CentralSimulated: an action that begins generators begins all those of one node, since the program has no command to start less.
- Framing.Client.DoSendPacket: only packets that fit the buffer, because the program would write past its end for larger ones.
- The reader of `Framing` is fed byte by byte, which is finer than the reads of the socket library; errors and reconnecting are not modelled.
- Correlation.Client.OnNewPacket: models only responses, because messages and requests reaching a client are assertion failures in the program; packets are whole and arrive in order, so the buffer that writes and reads share is not modelled.
- The server in `Correlation` answers a request in one step; handing a packet to the link and the write callback are two steps of the client; payloads are represented by the number of the request they belong to.
- Barrier.Reduce.Process: only ports below three, because the program's vectors are subscripted unchecked; the value stored is the unpacked payload, which is what the ill-typed assignment evidently means, and `reduce` cannot be deployed because the factory does not create it.
- `do_average`, which sums without dividing, and the quotient by elapsed time in `calcSpeed`.
- Floating point: payload values are reals, so rounding in `calc` is not modelled.
- `timed_generator`: its timer is a queued turn like a generator's, so intervals and cancelling are not modelled.
- Random values and clocks are parameters of the steps.
- `GetStatus` responses beyond the byte reading, packet sizes, uptime, sessions, user interface, logging, sockets, reconnecting, XML reading and packet encoding; the byte counters are in `Counters`, apart from the routers of the node state.
- Parallelism inside a task or a command: each is one step.
- Title texts are sequences of characters; the 32-bit overflow of the round number is not modelled.
