# Cerebellum, verified core

Cerebellum is a stateful full-NAT L4 load balancer. A client's packet to the virtual address is sent
on to a backend from the balancer's own address and a source port it owns; the backend's reply comes
back to that port and is sent on to the client. This project models, in Dafny, the four parts whose
correctness is not visible from any single function, and proves what they promise over every run.

**Conntrack** (`net`, `nat_*`, `port_pool`, `backend_pool`, `lb_*`). The connection table is an
open-addressing array whose slots, once occupied, stay occupied; reaped entries act as tombstones. A
second array, the reverse index, holds possibly stale pointers into the same slots. Source ports move
between free lists and entries along three release paths. `NatTables.NatTable`, `PortPools.PortPool`
and `LbNodes.LbNode` are the classes that update these in place; each method is proved equal to a
function on the contents (`NatSpec`, `LbSpec`), and the invariants and run theorems are about those
functions. Runs are arbitrary sequences of packets, clock readings and backend-pool swaps. The hash is
an arbitrary function and the table size is symbolic; every theorem, including those about failures,
holds for every hash.

**Steering** (`headers`, `steer_node`, `distributor`, `roles`, `round_trip`, `global_round_trip`). One core steers forward
packets by hash and replies by port to n workers that share nothing. The union of their tables is
shown to behave as one table, and a packet and its answer are followed through steering, parser,
balancer and rewriter.

**Packet graph** (`graph`, `frames`, `frame_steps`, `firing`, `conservation`, `ordering`,
`scheduling`, `run_steps`, `stories`, `drain_steps`, `loop_steps`, `dispatcher`, `run_induction`,
`pipeline`, `pipeline_runs`). The dispatcher is a
last-in first-out worklist over nodes that may replicate, keep or lose packets, batching them into
frames recycled through a pool. A node is an arbitrary function of its state and its frame that
walks the frame in order, or loads one of its own, and moves each packet to some of its outputs. The
history of a run (which packet took which edges, what each node was given, kept or lost) is carried
along without influencing the run. The dataplane's own nodes, put together as in the four graphs, are
one instance; for a worker, and for the single-core dataplane, a run is shown to be one run of the
balancer over the received burst.

**Control channel** (`modular`, `seqlock`, `seqlock_limits`, `control_loop`). Writer and reader of the
sequence lock are step machines over single loads and stores that interleave freely; the control loop
turns what is read into the pool the workers use.

## What was found

- The table refines a map from keys to live entries for every clock, wrapping or running backwards,
  and one unreaped entry per key is kept in every reachable state.
- The reverse index can fail. `IndexReverse` may leave its loop without storing a cell, because old
  cells of a reused slot count as live. `NatInsertion.InsertReaches` states that an inserted entry is
  found by replies if and only if some cell was unused or named an entry no longer live before the
  insertion; `LbTheorems.OpeningMirrors` shows that this always holds for the first `capacity` flows a
  node opens. That bound is tight: `LbCrowding.SecondClientUnreachable` gives, for every hash, every
  capacity of at least two and every pool, a run of the node in which one client returns `capacity`
  times and the next client's flow, live and translated, is not found by its replies.
- A backend can be starved for good. A port is taken before an expired entry may be evicted, and an
  expired entry keeps its port until its slot is used again. Once a backend's ports are all held by
  reaped entries and nothing is open, no flow is ever opened again as long as no other backend is
  enabled (`LbAdmission.StarvedForever`); `LbStarvation.Starves` reaches that state, for every hash,
  with as many clients as the backend has ports and at least as many slots. `LbAdmission.OpensExactly` is the
  exact condition for a packet to open a flow.
- The sequence lock needs its bound. `Seqlock.SeqlockSafety` assumes that fewer than `modulus / 2`
  publications (2^31 for a 32-bit counter) fall within one read attempt; `SeqlockLimits.TornRead`
  gives, for every even modulus, a run with exactly that many in between whose result mixes two
  snapshots and is none that was published. The bound is tight.
- The reply to a translated packet is parsed as a reply except in exactly one configuration: the
  virtual address is the balancer's own address and the source port chosen is the virtual port
  (`RoundTrip.AnswerParsed`); a node so configured, with that port on top of its free list, chooses it
  for its first connection (`RoundTrip.RepliesMisparsed`).
- Within a burst, packets change places: the balancer is given the clients' packets before the replies,
  since both of the parser's outputs lead to it one after the other (`PipelineRuns.BalancerSees`).
- The dispatcher terminates on every acyclic graph, also when nodes replicate packets. With every
  output wired and only the root loading packets, the packets lost are exactly the batch the root was
  given, if it loads others over it, and none otherwise. The pool of one frame per node plus eight
  never grows when no node replicates packets and only the root loads any.

## Model

| member | source | states |
|---|---|---|
| Net.ClockReadings | dataplane/include/lb/nat_table.hpp:66-69 | the uint32 difference of two clock readings is the elapsed time, across wrap-around, whenever less than 2^32 ms went by |
| NatTables.NatTable.LookupForward | dataplane/include/lb/nat_table.hpp:95-113 | in place, the probe for a key leaves the table and returns the slot that the specified lookup does |
| NatTables.NatTable.LookupReverse | dataplane/include/lb/nat_table.hpp:166-190 | the same for the probe of the reverse index |
| NatTables.NatTable.IndexReverse | dataplane/include/lb/nat_table.hpp:147-163 | stores the slot in the first cell that is unused or names an entry no longer live, or stores nothing |
| NatTables.NatTable.Insert | dataplane/include/lb/nat_table.hpp:116-144 | new table, slot, and the port and backend index handed back by the entry evicted |
| NatTables.NatTable.Close | dataplane/include/lb/nat_table.hpp:50-61 | reaps an open entry and hands its port back once; anything else is left alone |
| NatTables.NatTable.Reap | dataplane/include/lb/nat_table.hpp:71-78 | marks the entry and lowers the size once |
| NatInvariants.LookupMeets | dataplane/include/lb/nat_table.hpp:95-190 | keeps the table invariant; hits exactly when a live matching entry lies on the probe; ages, stamps and moves nothing else; a miss leaves every matching entry of the probe reaped |
| NatInvariants.LookupForwardMeets | dataplane/include/lb/nat_table.hpp:94-113 | for every clock, a forward lookup returns slot s if and only if s holds the live entry of the key; a miss leaves every entry with the key reaped |
| NatInsertion.InsertMeets | dataplane/include/lb/nat_table.hpp:116-144 | fails if and only if every slot is live; otherwise overwrites one slot that was not, keeping the table invariant |
| NatInsertion.FindCellExact | dataplane/include/lb/nat_table.hpp:153-162 | a reverse cell is stored if and only if some cell is unused or names an entry no longer live |
| NatInsertion.InsertReaches | dataplane/include/lb/nat_table.hpp:137-163 | replies find the new entry if and only if such a cell existed before the insertion |
| NatInsertion.InsertKeepsReach | dataplane/include/lb/nat_table.hpp:146-190 | taking over cells and reusing slots never cuts off the replies of another live entry |
| NatInsertion.InsertUses | dataplane/include/lb/nat_table.hpp:147-163 | an insertion puts at most one more cell to use and none out of use |
| NatInsertion.UnusedCellSpare | dataplane/include/lb/nat_table.hpp:153-162 | while fewer cells are in use than there are, one is spare, so a new entry is found by replies |
| PortPools.PortPool.constructor | dataplane/include/lb/port_pool.hpp:13-19 | the whole range, highest port first |
| PortPools.PortPool.ForWorker | dataplane/include/lb/port_pool.hpp:21-32 | one worker's share of the range, highest port first |
| PortPools.PortPool.Acquire | dataplane/include/lb/port_pool.hpp:34-41 | takes the port last added, or answers zero and changes nothing |
| PortPools.PortPool.Release | dataplane/include/lb/port_pool.hpp:43 | adds the port at the end taken next |
| PortPools.PortsDownExact | dataplane/include/lb/port_pool.hpp:21-32 | each port of the range is in the list of the worker it is congruent to exactly once, and in no other |
| LbTheorems.WorkerPortsGood | dataplane/include/nodes/lb_node.hpp:24-27 | a worker's initial ports are distinct, non-zero, and exactly those of the ephemeral range congruent to it |
| BackendPools.BuildPool | dataplane/src/main.cpp:54-70 | slots in snapshot order and the enabled ones active; at most 64 entries give a pool whose indices fit the port pools |
| BackendPools.SelectsEnabled | dataplane/include/lb/backend_pool.hpp:22-36 | a selected backend is a slot of the snapshot and enabled in it |
| LbNodes.LbNode.constructor | dataplane/include/nodes/lb_node.hpp:21-28 | an empty table and 64 separate port pools, each with the worker's share |
| LbNodes.LbNode.MaybeTeardown | dataplane/src/nodes/lb_node.cpp:75-92 | notes a FIN by direction; a reset or a FIN from each side closes the entry and returns its port |
| LbNodes.LbNode.CreateFlow | dataplane/src/nodes/lb_node.cpp:94-129 | whole new state of table, pools and counters, with the exhausted-pool and full-table paths |
| LbNodes.LbNode.HandlePacket | dataplane/src/nodes/lb_node.cpp:39-73 | whole new state and the metadata written, in both directions |
| LbNodes.LbNode.Process | dataplane/src/nodes/lb_node.cpp:13-37 | a frame is the run of its packets under one pool and clock; every packet gets its verdict in order; the flow gauge is the table size |
| LbRuns.IdleFrame | dataplane/src/nodes/lb_node.cpp:14-20 | without a pool or an active backend every packet is dropped and nothing changes |
| LbInvariants.StepKeeps | dataplane/src/nodes/lb_node.cpp:39-129 | every packet, under every clock and pool, keeps table invariant, port ledger and tallies |
| LbInvariants.RunKeeps | dataplane/src/nodes/lb_node.cpp:13-129 | so does every run |
| LbInvariants.HolderUnique | dataplane/src/nodes/lb_node.cpp:98-117 | no two entries hold the same port of the same backend |
| LbInvariants.PortConservation | dataplane/src/nodes/lb_node.cpp:75-129 | after every run each initial port of each backend slot is in the free list exactly once and held by no entry, or held by exactly one occupied entry and not free |
| LbHistory.RunEntries | dataplane/src/nodes/lb_node.cpp:94-117 | what holds of every flow the packets of a run may open holds of every entry, ever |
| LbHistory.StepOpens | dataplane/src/nodes/lb_node.cpp:39-129 | a packet leaves in each slot the flow it opened there, as its key, SYN gate and pool demand, or the entry that was there, same parties, never revived, its port kept until given back |
| LbOpenings.OpenedBySyn | dataplane/src/nodes/lb_node.cpp:45-49 | every entry was put into its slot by a forward packet of its key, with SYN set for TCP, that opened a flow there; no later packet opened one there, and the entry has stood in the slot ever since |
| LbHistory.ReverseTuplesUnique | dataplane/src/nodes/lb_node.cpp:98-117 | with a slot-stable list of distinct backends no two unreaped entries ever share backend address, backend port, source port and protocol |
| LbFlows.StepStands | dataplane/src/nodes/lb_node.cpp:39-92 | a live entry survives every packet that does not close it, whoever it is for, and packets addressed to it are translated by it |
| LbLifecycle.StepMirrors | dataplane/src/nodes/lb_node.cpp:39-92 | table and life automaton of a flow move together; the packet that ends the flow leaves its entry reaped |
| LbTheorems.OpeningMirrors | dataplane/src/nodes/lb_node.cpp:41-59 | a packet that opens a flow is translated by it, and replies find the flow from then on if and only if the reverse index had a spare cell, which it has for the first `capacity` flows |
| LbTheorems.FlowMirrors | dataplane/include/lb/nat_table.hpp:146-190 | over every run, while the automaton of a reply-reachable flow is alive, its slot holds it exactly as the automaton says and replies reach that very slot |
| LbTheorems.FlowTranslates | dataplane/src/nodes/lb_node.cpp:39-73 | every packet of either direction addressed to such a flow is translated by it |
| LbTheorems.Connection | dataplane/src/nodes/lb_node.cpp:39-92 | if the reverse index has a spare cell when a flow opens, both directions of a connection keep backend, source port and client until a reset, a FIN from each side or silence beyond the timeout, across any pool swaps |
| LbSticky.StepSticks | dataplane/src/nodes/lb_node.cpp:39-73 | the forward direction of one packet, for entries replies may not find |
| LbSticky.Sticky | dataplane/src/nodes/lb_node.cpp:39-92 | under a non-decreasing, non-wrapping clock every flow ever opened keeps backend and source port for its forward packets, whatever the backends and the reverse index |
| LbCrowding.VisitsCrowd | dataplane/src/nodes/lb_node.cpp:94-129 | for every hash, capacity, pool and UDP client: coming back k times, each time after its entry expired, opens a flow each time and leaves k reverse cells, and no others, naming the client's slot |
| LbCrowding.SecondClientUnreachable | dataplane/include/lb/nat_table.hpp:147-163 | after as many visits as there are slots, any other UDP client's packet opens a flow and is translated, its entry is live, and its replies do not find it; with distinct backends they find nothing |
| LbAdmission.OpensExactly | dataplane/src/nodes/lb_node.cpp:41-53 | in every reachable state a packet opens a flow if and only if it is a client's, no live entry has its key, TCP has SYN set, the chosen backend has a free port and some slot is not live |
| LbAdmission.StarvedForever | dataplane/src/nodes/lb_node.cpp:101-104 | with nothing open and no free port at the selectable backends, every packet of every later run is dropped and nothing changes |
| LbStarvation.Starves | dataplane/src/nodes/lb_node.cpp:101-121 | for every hash, timeout and table with at least as many slots as the backend has ports, as many clients coming once and once more after expiry lead there |
| LbStarvation.NeverAgain | dataplane/src/nodes/lb_node.cpp:94-129 | from the end of that run on no packet is let through while no other backend is enabled |
| LbServed.StepServes | dataplane/src/nodes/lb_node.cpp:39-92 | a packet that finds a live entry, in either direction, is translated by it and refreshes it, forward packets of its key always find it, and no other packet changes it |
| LbServed.Served | dataplane/src/nodes/lb_node.cpp:39-92 | every flow ever opened, under every clock and all backends: with every packet its entry translates counting as activity, forward packets of the key find the entry and whatever finds it is translated by it, until a reset, a FIN from each side or silence beyond the timeout |
| LbCounters.RunCounts | dataplane/src/nodes/lb_node.cpp:126-127 | the new-flow counter grows by the number of packets that opened a flow |
| LbCounters.CountersHonest | dataplane/include/lb/nat_table.hpp:71-78 | after every run the size is the number of unreaped entries, and the new-flow counter is the number of openings and the sum of the per-backend counters |
| Headers.Mbuf.Parse | dataplane/src/nodes/ip4_parse_node.cpp:49-92 | the output chosen and the metadata written, left alone for packets that are not TCP or UDP over IPv4 |
| Headers.Mbuf.Rewrite | dataplane/src/nodes/dnat_node.cpp:59-73 | addresses and ports after translation in either direction |
| Headers.SteeringAgreesWithParser | dataplane/include/lb/steering.hpp:36-67 | a packet is steered to a worker if and only if the worker's parser hands it to the balancer |
| RoundTrip.AnswerParsed | dataplane/src/nodes/ip4_parse_node.cpp:82-91 | the answer to a translated packet is taken for a reply unless, and only unless, virtual and own address coincide and the source port is the virtual port |
| RoundTrip.ReplyTranslated | dataplane/src/nodes/lb_node.cpp:63-72 | a reply within the life of a flow is translated to the address and port of the client that opened it |
| RoundTrip.ForwardTranslated | dataplane/src/nodes/lb_node.cpp:41-60 | every forward packet within that life leaves on the same 5-tuple as the first |
| RoundTrip.FullNatRoundTrip | dataplane/src/nodes/dnat_node.cpp:59-76 | the answer to any forward packet of a connection comes out as the exact reversal of that packet's 5-tuple |
| RoundTrip.RepliesMisparsed | dataplane/src/nodes/ip4_parse_node.cpp:82-91 | with one address for both roles and the virtual port on top of the free list, the first connection is sent on from that port and every answer to it is taken for a client's packet |
| Distributor.RunSorted | dataplane/src/nodes/steer_node.cpp:10-31 | in every run each ring and each worker's past hold only packets steered to that worker |
| Distributor.WorkerEntriesAtHome | dataplane/include/lb/steering.hpp:59-61 | every worker keeps the node's invariant for its share of the ports, and every entry's key is addressed to the virtual service and hashes to the worker |
| Distributor.WorkerOfEntry | dataplane/include/lb/steering.hpp:59-65 | every entry of a worker hashes to it and holds a port congruent to it, so both directions are steered there |
| Distributor.NoCrossCoreMiss | dataplane/include/lb/steering.hpp:59-65 | in every run every packet of an open flow, in either direction, is steered to the worker that holds the flow |
| Distributor.GloballyUnique | dataplane/include/lb/port_pool.hpp:21-32 | across all workers a key has at most one open entry and a port of a backend at most one holder |
| GlobalRoundTrip.DistributedRoundTrip | dataplane/src/nodes/steer_node.cpp:10-31 | in every run of the distributor a packet of a connection and the answer to it as sent on are steered to the same worker, no other worker ever processes the answer, and it leaves as the exact reversal of the packet's 5-tuple |
| SteerNodes.RingReceives | dataplane/src/nodes/steer_node.cpp:19-24 | a ring receives, in order, the packets steered to it, as many as fit |
| SteerNodes.SteerConserves | dataplane/src/nodes/steer_node.cpp:12-30 | every packet of a frame ends up exactly once on a ring, at the ARP output or freed |
| SteerNodes.SteerNode.Process | dataplane/src/nodes/steer_node.cpp:10-31 | the loop over the frame leaves rings, freed packets and drop count as specified |
| Roles.AssignRoles | dataplane/src/main.cpp:269-323 | the two start-up errors; with several lcores one is I/O and each worker number below n goes to exactly one lcore |
| Seqlock.NextKeeps | libs/ipc/include/ipc/control_view.hpp:27-62 | every single load or store of writer or reader keeps the invariant that ties memory, sequence number, partial reads and results to the published snapshots |
| Seqlock.RunInv | libs/ipc/include/ipc/control_view.hpp:27-62 | so does every interleaving |
| Seqlock.SeqlockSafety | libs/ipc/include/ipc/control_view.hpp:42-62 | a read overlapping fewer than half a period of publications returns one complete published snapshot under its even sequence number, and later reads never return older ones |
| SeqlockLimits.TornRead | libs/ipc/include/ipc/control_view.hpp:45-60 | for every even modulus, an interleaving with exactly one period of stores within the read, whose only result mixes two snapshots and equals none published |
| ControlLoop.EntriesRoundTrip | dataplane/src/main.cpp:60-68 | entries written to the shared memory as words are read back unchanged |
| ControlLoop.StepKeeps | dataplane/src/main.cpp:237-250 | every step of writer, reader or loop keeps the pool tied to the published snapshot of its sequence number |
| ControlLoop.PoolIsPublished | dataplane/src/main.cpp:237-250 | in every run of bounded reads the pool in use is built from the published snapshot of the applied sequence number |
| ControlLoop.PoolAlwaysFits | dataplane/src/main.cpp:54-70 | in every run, torn reads included, the pool in use has at most 64 slots and its indices fit the port pools and counters |
| ControlLoop.ApplyFresh | dataplane/src/main.cpp:243-247 | handling a result leaves the pool at that result's snapshot unless a whole period of publications passed since the last swap |
| ControlLoop.AppliedSelectsEnabled | dataplane/include/lb/backend_pool.hpp:22-36 | new flows only go to backends published as enabled |
| Graphs.Graph.AddNode | dataplane/src/graph/graph.cpp:9-14 | the next number, truncated to 16 bits, and as many open outputs as the node has |
| Graphs.Graph.Wire | dataplane/src/graph/graph.cpp:16-26 | refuses exactly the numbers out of range, changing nothing; otherwise wires one output, the reserved number meaning not wired |
| Graphs.Build | dataplane/src/main.cpp:103-185 | adding the nodes and wiring the outputs yields the intended routing, no call out of range |
| Graphs.MonolithicSound | dataplane/src/main.cpp:119-130 | the single-core graph is acyclic and leaves no output open |
| Graphs.ReceiveSound | dataplane/src/main.cpp:143-147 | so is the receive graph |
| Graphs.WorkerSound | dataplane/src/main.cpp:166-175 | so is the worker graph |
| Graphs.TransmitSound | dataplane/src/main.cpp:183-184 | so is the transmit graph |
| Frames.AcquireMeets | dataplane/src/graph/frame_pool.cpp:17-27 | acquiring a frame for a node keeps every frame in exactly one list, disturbs no other list's packets and yields an empty frame |
| FrameSteps.DeliverMeets | dataplane/src/graph/dispatcher.cpp:33-41 | routing one packet appends it to the target's packets, disturbs no other node, keeps ownership, and adds a frame to the pool only when the target has no room and no frame is free |
| FrameSteps.FillAllMeets | dataplane/src/graph/dispatcher.cpp:33-41 | so does routing a batch; a batch that fits adds no frame |
| FrameSteps.TakeOutMeets | dataplane/src/graph/dispatcher.cpp:61-63 | swapping a node's frames out moves its packets, in order, to the drain list |
| FrameSteps.ReleaseMeets | dataplane/include/graph/frame_pool.hpp:18-21 | releasing the first drained frame keeps ownership and every other packet |
| FrameSteps.FrameLeft | dataplane/include/graph/dispatcher.hpp:16-21 | one frame per node and one being drained leave a larger pool with a free frame |
| Conservation.FireBalances | dataplane/src/graph/dispatcher.cpp:43-59 | a node that moves each packet at most once keeps loaded packets equal to those waiting, kept and lost, handle by handle |
| Conservation.DeliveriesTotal | dataplane/src/graph/dispatcher.cpp:51-58 | such a node makes no packets |
| Stories.FireInputs | dataplane/src/graph/dispatcher.cpp:8-24 | if only the root loads packets, the packets in the graph are those the root handed on; with every output wired, what is lost is exactly the batch the root loaded over |
| Ordering.FireOrders | dataplane/src/graph/dispatcher.cpp:43-59 | a node that walks its frame in order and repeats no packet keeps packets with the same trail in their original order at every node |
| Scheduling.WorkUpdate | dataplane/src/graph/dispatcher.cpp:18-23 | how the work left, a weight per waiting frame in topological order, changes with a node's frames |
| RunSteps.RouteAllMeets | dataplane/src/graph/dispatcher.cpp:51-58 | routing all outputs of a node delivers exactly what the node moved, keeps frames and worklist in step, adds at most the weight of the outputs, and reaches only nodes further down |
| DrainSteps.DrainAllMeets | dataplane/src/graph/dispatcher.cpp:61-69 | draining a node follows the abstract machine frame by frame, releases every frame and does the work of each |
| LoopSteps.TurnMeets | dataplane/src/graph/dispatcher.cpp:18-23 | a turn of the loop keeps all that is known of the run and leaves strictly less work; a lean run adds no frame |
| LoopSteps.FinishMeets | dataplane/src/graph/dispatcher.cpp:18-23 | from every such state the loop ends with no frame waiting and every packet accounted for |
| LoopSteps.ResetMeets | dataplane/src/graph/dispatcher.cpp:71-80 | after a reset no frame waits, every frame is in one place and none is gone |
| Dispatchers.FramePool.constructor | dataplane/src/graph/frame_pool.cpp:8-15 | the reserve, all frames empty and free |
| Dispatchers.FramePool.Acquire | dataplane/src/graph/frame_pool.cpp:17-27 | the frame released last, cleared, or a new one when none is free |
| Dispatchers.FramePool.Release | dataplane/include/graph/frame_pool.hpp:18-21 | clears the frame and puts it on the free list |
| Dispatchers.FramePool.Push | dataplane/include/graph/frame.hpp:19-22 | appends to a frame with room |
| Dispatchers.Dispatcher.constructor | dataplane/include/graph/dispatcher.hpp:16-21 | for any graph, nothing waits and the pool reserves one frame per node plus eight |
| Dispatchers.Dispatcher.RouteInto | dataplane/src/graph/dispatcher.cpp:33-41 | frames and lists after a batch, equal to its packets routed one by one |
| Dispatchers.Dispatcher.Schedule | dataplane/src/graph/dispatcher.cpp:26-31 | a node is on the worklist at most once |
| Dispatchers.Dispatcher.RunNode | dataplane/src/graph/dispatcher.cpp:43-59 | whole state after a node processed a frame and its outputs were routed |
| Dispatchers.Dispatcher.DrainNode | dataplane/src/graph/dispatcher.cpp:61-69 | whole state after a node's frames ran and were released |
| Dispatchers.Dispatcher.Reset | dataplane/src/graph/dispatcher.cpp:71-80 | frames left over are released, node by node, and the worklist is cleared |
| Dispatchers.Dispatcher.RunOnce | dataplane/src/graph/dispatcher.cpp:8-24 | terminates; the run is the specified one; nothing is left waiting; loaded packets are those kept and lost, and the lost ones exactly a batch loaded over if every output is wired; order is kept; a lean run leaves the pool at its size |
| Dispatchers.RunOfMeets | dataplane/src/graph/dispatcher.cpp:8-69 | the same for every acyclic graph, every behaviour of its nodes and every batch |
| Dispatchers.SoundGraphRuns | dataplane/src/main.cpp:103-219 | in a graph without open outputs, on any batch, every packet the root hands on ends up exactly once at a node that sends, queues or frees it, only a batch loaded over is lost, every node sees packets that came the same way in order, and the pool keeps its size |
| Dispatchers.SoundIsProper | dataplane/src/main.cpp:103-185 | a wiring shown acyclic and closed, as the four are, meets what such runs require of the graph |
| RunInduction.FinishKeeps | dataplane/src/graph/dispatcher.cpp:18-23 | without replication, what every firing of a node on all that waits for it keeps holds when the worklist is empty |
| Pipeline.NodesQualify | dataplane/src/main.cpp:103-185 | the dataplane's nodes use only their own outputs, put at most a burst on each, move each packet at most once, and only the receiving node loads packets |
| Pipeline.FourManned | dataplane/src/main.cpp:103-185 | in each of the four graphs the nodes have exactly the outputs that are wired |
| Pipeline.GraphRuns | dataplane/src/main.cpp:187-219 | so in every run of such a graph every packet received ends up exactly once at a node that sends, queues or frees it, none is lost, and packets that came the same way keep their order |
| PipelineRuns.WorkerFronted | dataplane/src/main.cpp:166-175 | the worker graph receives, parses and balances, and both packet outputs of the parser lead to the balancer, which nothing else feeds |
| PipelineRuns.MonolithicFronted | dataplane/src/main.cpp:119-130 | so does the single-core graph |
| PipelineRuns.BalancerSees | dataplane/src/main.cpp:150-205 | one run of such a graph is, for the balancer, one run over the received burst under one pool and clock: the clients' packets in order, then the replies in order |
| PipelineRuns.BurstIsWorkerStep | dataplane/src/main.cpp:197-205 | that is the step the workers of the distributor take |

## Left out

- DPDK ports, packet memory, prefetching and ring internals are not part of this model: packets are
  handles or header fields, rings are bounded queues, and the enqueue result depends only on room.
- Checksums are not part of this model: the arithmetic is in library functions.
- The CRC and FNV hashes are replaced by an arbitrary deterministic function; how evenly load spreads
  is not stated.
- Weak memory ordering: loads and stores of the control channel are sequentially consistent, and the
  seeding of the channel at start-up and the control plane count as one writer.
- `PublishControl` and `ReadControl` are step machines, not methods, because their steps interleave;
  entries are copied word by word.
- ARP and Ethernet rewriting only copy fields: in the graphs they change MAC addresses only, and
  whether an ARP packet asks for one of the node's own addresses is a given fact of the packet.
- Receiving and sending in the graphs: what arrives on the port or ring is given; a packet sent, queued
  or freed has left the graph, whichever it was. The steering node there only passes ARP on; its rings
  are in `SteerNodes`.
- Shared-memory set-up, health checks, HTTP handlers, metrics, configuration files, the statistics
  aggregator and the user interface are not part of this model.
- Widths: addresses, ports, flags and counters are natural numbers. The wrap-around that matters, the
  clock difference and the sequence number, is written out. A table size that is not a power of two is
  allowed; masking becomes a remainder. The pad bytes of the flow key, always zero, are absent.
- The two FIN bits of an entry are two booleans.
- The dispatcher's scratch frames are values: a node's outputs are gathered, not written in place. A
  node walks its frame in order and moves each packet to a list of outputs; a node that permutes its
  frame, or puts packets on its outputs that were not in the frame, is outside the model.
- A receive node fills the frame it is given; the model hands its packets on without writing them back
  into the pooled frame, which is cleared on release either way.
- NatTables.NatTable.LookupForward: the loop body is a method of its own, `ProbeForward`; likewise for
  the reverse direction.
- PortPools.PortPool.constructor: requires a positive low bound, since the loop counts an unsigned
  variable down past it and would not end for zero; `PortPools.PortPool.ForWorker` likewise. The
  program only passes 1024.
- BackendPools.BuildPool: requires fewer than 256 entries, since the active list is built with an
  8-bit index and would not end beyond that. The control channel never delivers more than 64.
- Dispatchers.FramePool.Push: requires room in the frame, which the source asserts.
- Dispatchers.Dispatcher.RunOnce: requires an acyclic graph of at most eight outputs a node, and nodes
  that use existing outputs and put at most a burst of packets on each, as the scratch frames demand.
  On a cyclic graph the source's loop need not end.
- LbTheorems.Connection: requires a slot-stable list of distinct backends and a spare reverse cell when
  the flow opens. Without one, replies are not found; the forward direction needs neither
  (`LbSticky.Sticky`, `LbServed.Served`).
- LbSticky.Sticky: does not count replies as activity, so that its life can be told from the packets
  alone, and takes a clock that does not wrap; `LbServed.Served` counts every packet the entry
  translates and takes any clock.
- LbServed.Served: a flow's life also ends when any packet, whoever it is for, arrives beyond the
  timeout, since its lookup may reap the entry.
- Seqlock.SeqlockSafety: says nothing about progress; a reader may retry for as long as the writer
  keeps publishing.
