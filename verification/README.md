# MA-Memphis: proofs about the network hardware and the benchmark kernels

MA-Memphis is a many-core platform described in SystemC: an N x M mesh of processing
elements with a packet network, a separate control network (BrLite) that floods short
messages, and a DMA engine between each memory and the network. On top of it run benchmark
kernels in C, and a Python builder and a C++ injector exchange application images. This
project models those parts in Dafny and proves what they are there for, for every mesh size,
every run, every schedule and every input.

`dafny verify dfyconfig.toml` checks the whole project.

## What is modelled, and what each part shows

**Control network** (`Topology`, `RoundRobin`, `BrLite`, `BrLiteCam`, `BrLiteLine`,
`BrLiteTimer`, `BrLiteMesh`, `BrLiteFlood`, `BrLiteClear`, `BrLiteLocal`). A router is a class
whose three clocked processes are proved equal to step functions that read only old register
values; the three processes write disjoint registers, so any order of execution gives the same
cycle. The registers of the local clear are told over whole runs by what happened and when. The
mesh steps all routers at once. The theorems are about runs of the whole mesh in which any
number of other broadcasts and clears share the routers: a flood reaches every router and is
delivered exactly once; the origin ports it leaves form a tree; a clear started at the root
empties every table although no router sends towards its origin; nothing is inserted again.
`BrLiteLocal` proves that the platform's own local port, BrLiteControl and BrLiteBuffer, keeps
the contract these theorems ask of a processing element.

**Its timing** (`BrLiteTiming`, `BrLiteInterval`). A broadcast that is alone in an nx x ny mesh
is everywhere and quiet 7 (nx + ny - 1) + 26 cycles after its request, or later if the sinks
are slow, and so the clear of its source finds it quiet: with the interval of 220 cycles in
every mesh with nx + ny up to 29 and sinks that answer within 25 cycles.

**Its liveness** (`BrLiteService`, `BrLiteLiveness`, `BrLiteClearTime`, `BrLiteLife`). With any
number of broadcasts on their way every request between routers is answered, and every pending
line served, within a stated number of cycles, as long as no clear is due and no table is full;
and two clears that are due at the wrong time lock their routers for ever. A clear wave takes a
bounded time for each router it has to pass. `BrLiteLife.LoneBroadcastEnds` puts it together: a
lone broadcast leaves no trace from a stated cycle after its request on, with nothing assumed
about its clear but that the interval covers the deadline of its flood.

**Runs that exist** (`BrLiteOneLine`, `BrLiteRow`, `BrLiteExample`). Two broadcasts in a row of
three routers with tables of 16 lines, cycle by cycle from reset, for every interval from
24 cycles up to the range of the clock: one meets all assumptions of the theorems above; in
the other one sink answers only after the interval, and a line is left behind for good,
however long the interval is.

**DMA engine** (`Dmni`, `DmniSend`, `DmniReceive`, `DmniArbiter`) and **injector sender**
(`InjectorSend`). The three processes of the engine are a class proved against step functions.
For every schedule of credits and preemptions the accepted flits are exactly the two memory
segments, and a receive stores exactly the first words of its queue at consecutive addresses.
Sender and receiver get the memory within a bounded time; when the monitor receiver does is
stated as a condition on the arbiter.

**Packet switch** (`XyRouting`, `SwitchControl`, `Crossbar`). XY routing arrives after exactly
|dx| + |dy| hops and its channel dependencies cannot close on themselves; the crossbar is a
matching in every reachable state, follows XY routing, and selects every input that keeps
asking within 35 cycles.

**AES** (`Gf`, `AesTables`, `AesField`, `Aes`, `AesCipher`, `AesInPlace`, `AesDrivers`,
`AesKeySchedule`, `AesInverses`, `AesStandard`). The tables are copied entry by entry and shown
to be inverse permutations and products in GF(2^8). Column mixing applied four times is the
identity, which gives the inverse. Decryption undoes encryption for all key arrays, exactly for
the key sizes for which the two drivers agree on the number of rounds. `AesStandard` ties both
to FIPS 197 byte by byte: the substitution table is the affine map of the inverse in GF(2^8),
each step is stated by row and column, and so are the whole cipher and the key schedule.

**Variable length decoding** (`Options`, `Powers`, `Division`, `VlcTables`, `VlcBits`,
`VlcDecoder`, `VlcCodes`, `VlcCodeBook`, `VlcRoundTrip`). The code tables are a prefix code and
read the code book of the standard backwards, the scan is the zig-zag path, and decoding what
was encoded with the book writes exactly the coefficients and consumes exactly the bits
(ISO/IEC 13818-2, section 7.2).

**Shortest paths** (`Dijkstra`, `DijkstraLoop`), **time warping** (`Dtw`), **reduction tree**
(`ReductionTree`, `ReductionSum`), **application images** (`RepoImage`, `AppLoader`,
`AppReceiver`, `AppStart`) and the **audio decoder** (`Adpcm`, `AdpcmSignals`) are each proved
against an independent specification: least cost of a walk, least cost of a warping path, the
sum of the array, the builder's own input as it arrives at the mapper task, and, for the
adaptive state, fixed bounds and the signals of the past.

## Assumptions on the surroundings

- Control network: a processing element holds its request up to the cycle in which the
  acknowledge shows, in which it may let go already; it stamps its own address as the source
  and never asks for a clear itself. The sink behind the local port acknowledges in four
  phases, as late as it likes. `BrLiteLocal.LocalPortIsSide` proves this of the platform's
  components for software that waits while its last broadcast is on its way, names a target
  before it starts one, and does not ask for a clear. During an observed flood nothing
  clears its key, and its key is used for this one message; during an observed clear wave
  nobody asks to broadcast under the key. A router is identified by its position, and
  `Topology.PlacesArePositions` ties positions to the places in the source's arrays.
- Timing of the control network: no other broadcast is on its way, the source lets go of its
  request when it is acknowledged, as BrLiteControl does, and no sink leaves a delivery waiting
  for more than `slack` cycles; the 32-bit clocks do not wrap during the run.
- Liveness of the control network: where a time is stated for requests and lines in general,
  a processing element keeps its request for at most `slack` cycles after the acknowledge, a
  sink leaves no delivery waiting for longer, no clear is due at the routers that have to
  answer, and their tables are not full when they are asked. `BrLiteLife` proves the last two of
  a lone broadcast.
- Engine: memory answers a read one cycle later, and the credit is not missing in a cycle in
  which the engine copies and has no flit on the wires. `DmniSend.ExactIff` shows that this is
  exactly what is needed. The memory of the two segments does not change during a send.
- Injectors: a packet does not change while it is under way; new packets may be built in
  between. Nothing is assumed of the credit.
- Switch: an input queue raises its request with a packet at its head, keeps it until the
  grant, then holds `sender` up to the last flit and stays silent for two more cycles
  (hardware/src/queue.cpp:99-232).
- Kernels work on mathematical integers where the source has 32-bit ones and no wrap-around
  is intended; registers, key words, image words and addresses wrap as in the source.

## Where the code departs from what it promises

- A clear that meets a line still waiting for acknowledges is taken and not forwarded
  (`BrLiteClear.EarlyClearIsSwallowed`). `BrLiteExample.EarlyClearLeavesALine` is a run from
  reset, one for every interval, in which the clear overtakes a flood this way: the mesh comes
  to rest, the source and its neighbour have freed their lines, and the router behind keeps
  its line for ever. `BrLiteInterval.IntervalSuffices` says which intervals exclude this for
  sinks of a given speed.
- A router whose clear is due takes no requests until its output is at rest. Two neighbours
  whose clears fall due as they begin to send to each other therefore wait for each other for
  ever (`BrLiteLiveness.LockArises`, `BrLiteLiveness.LockedForGood`).
- The arbiter of the DMA engine may give the memory to a sender that has just finished. With
  both transfers at rest and no new job a monitor message is received exactly if the grant is
  not up for such a sender (`DmniArbiter.MonitorIff`); `DmniArbiter.StaleArises` says when that
  comes about, and `DmniArbiter.MonitorStarves` is a run from reset in which it does.
- A credit that is missing while the engine copies and has no flit on the wires makes it send
  one flit too many each time, so the stream is not the promised one (`DmniSend.ExactIff`). An
  injector whose credit is missing as a packet is to begin sends one stale flit in front of it
  (`InjectorSend.InjectsExactPacket`, `InjectorSend.StaleIff`).
- The map-reduce master hands out nothing, and every worker waits for ever, if there are fewer
  numbers than tasks (`ReductionSum.HandOut`, `ReductionSum.ReductionIsSum`).
- The engine starts its second segment one word early unless bits 30 to 28 of its address are
  zero; `DmniSend.SecondSegmentExact` gives the exact condition. A receive of size zero stands
  for 2^32 words (`DmniReceive.AmountIsSize`).
- A peripheral is reached from everywhere exactly if its port is on the border of the mesh
  (`XyRouting.PeripheralIsReached`); behind an inner east or south port packets bounce for
  ever (`XyRouting.InwardPortBounces`).
- The AES drivers disagree on the number of rounds below 128 and between 129 and 191 bits
  (`AesCipher.RoundTripIff`), although both are documented for 128, 192 and 256 bits only.
- The shortest path loop ends exactly if all nodes but one can be caught
  (`DijkstraLoop.EndsInTime`, `DijkstraLoop.NeverEnds`); without a usable edge from the start
  it reads before its array (`DijkstraLoop.ReadsBeforeArray`).
- The audio decoder's delay line skips one tap, so that four of its six taps are zero for ever
  (`AdpcmSignals.HistoryIs`).

## Model

| member | source | states |
|---|---|---|
| Topology.PlacesArePositions | hardware/src/Memphis.cpp:104-129 | The address given to place y * nx + x is that of router (x, y), and the places the wiring names are those of its four neighbours. |
| RoundRobin.NextIsNearest | hardware/src/BrLiteRouter.cpp:63-71 | The scan selects a requester whenever there is one, the nearest one after the last winner, and keeps the last winner otherwise. |
| RoundRobin.NoStarvation | hardware/src/BrLiteRouter.cpp:193-203 | In a sequence of selections an index that keeps asking is selected within n of them; BrLiteService.PortIsSelected and LineIsServed state it of runs. |
| BrLite.BrLiteRouter.ArbitratePort | hardware/src/BrLiteRouter.cpp:61-72 | The loop over the ports computes the rotating selection. |
| BrLite.BrLiteRouter.ArbitrateLine | hardware/src/BrLiteRouter.cpp:193-203 | The loop over the table computes the rotating selection among used and pending lines. |
| BrLite.BrLiteRouter.LookUp | hardware/src/BrLiteRouter.cpp:84-97 | The search loop finds the first used line with the source and identifier, or none. |
| BrLite.BrLiteRouter.FindFree | hardware/src/BrLiteRouter.cpp:103-109 | The search loop finds the first unused line, or none. |
| BrLite.BrLiteRouter.Input | hardware/src/BrLiteRouter.cpp:46-159 | The input process equals its step on old register values, in every state. |
| BrLite.BrLiteRouter.Propagate | hardware/src/BrLiteRouter.cpp:214-242 | The propagation loop requests every port but the origin, and the local one only for ALL at a router that is not the source. |
| BrLite.BrLiteRouter.CollectAcks | hardware/src/BrLiteRouter.cpp:286-311 | The acknowledge loop drops each request at its acknowledge and leaves the state when none is missing, be the last ones new or not. |
| BrLite.BrLiteRouter.Output | hardware/src/BrLiteRouter.cpp:174-344 | The output process equals its step on old register values, in every state. |
| BrLite.BrLiteRouter.InputOutput | hardware/src/BrLiteRouter.cpp:366-423 | The flag process, written in the order of the source, equals its step on old register values. |
| BrLite.BrLiteRouter.ClockEdge | hardware/src/BrLiteRouter.cpp:34-425 | One clock edge gives the same registers in whatever order the three processes run. |
| BrLiteCam.LineStep | hardware/src/BrLiteRouter.cpp:382-423 | What one cycle can do to one line: which process may take it into use, free it, mark it or finish it. |
| BrLiteCam.KeepsUniqueKeys | hardware/src/BrLiteRouter.cpp:78-117 | No cycle makes two used lines share source and identifier. |
| BrLiteCam.KeepsCamInv | hardware/src/BrLiteRouter.cpp:78-151 | Every cycle keeps the table invariant: unique keys, a write only to an unused line, a tested line that is used and pending. |
| BrLiteCam.RunKeepsCamInv | hardware/src/BrLiteRouter.cpp:34-425 | The table invariant holds in every cycle of every run from reset. |
| BrLiteCam.CamIsSafe | hardware/src/BrLiteRouter.cpp:382-423 | In every reachable cycle keys are unique, a write targets an unused line, the tested line is used and pending, and no flag of a line is set and cleared at once. |
| BrLiteTimer.BusyIff | hardware/src/BrLiteRouter.cpp:368-397 | In every run from reset the router counts as busy exactly from a write of its own processing element, of whatever service, until a clear starts. |
| BrLiteTimer.RecordIs | hardware/src/BrLiteRouter.cpp:388-393 | The line and the clock on record are those of the last local write. |
| BrLiteTimer.TimerIff | hardware/src/BrLiteRouter.cpp:376-394 | The timer of the last local write runs exactly for the interval after it. |
| BrLiteTimer.DueIff | hardware/src/BrLiteRouter.cpp:368-380 | A clear is due exactly from the end of an interval without another local write until a clear starts. |
| BrLiteLine.AckStep | hardware/src/BrLiteRouter.cpp:122-134 | An acknowledge for a key goes up only when the router has the key. |
| BrLiteLine.SendStep | hardware/src/BrLiteRouter.cpp:208-242 | A pending line is sent with exactly the requests its service and origin ask for. |
| BrLiteLine.ClearStep | hardware/src/BrLiteRouter.cpp:298-309 | A line whose service is CLEAR goes from pending over sending to freeing, and nowhere else. |
| BrLiteLine.LocalClearTurns | hardware/src/BrLiteRouter.cpp:368-374 | The local clear turns the line that was written from the local port into a pending CLEAR. |
| BrLiteMesh.WiresAt | hardware/src/Memphis.cpp:210-290 | Every port reads the opposite port of the neighbour behind it; a missing neighbour requests nothing and acknowledges everything. |
| BrLiteMesh.WiresHold | hardware/src/Memphis.cpp:210-290 | In a mesh every request is held with its message up to the cycle in which its acknowledge shows. |
| BrLiteMesh.NetRunKeepsInv | hardware/src/Memphis.cpp:210-290 | All routers keep their table invariant in every cycle of every run of the mesh. |
| BrLiteMesh.NetRunFromReset | hardware/src/BrLiteRouter.cpp:34-59 | From reset on, in every cycle of every run of the mesh, all routers keep their table invariant. |
| BrLiteLocal.BrLiteControl.Config | hardware/src/BrLiteControl.cpp:24-71 | The control registers: a request rises once it is started and not acknowledged, stays without an acknowledge, and falls with it at once. |
| BrLiteLocal.MessageIsWritten | hardware/src/BrLiteControl.cpp:22-71 | After any sequence of register writes since reset the message is what was last written to its registers, from this router once a target was named, and carries the number of its service modulo 31. |
| BrLiteLocal.RingIsQueue | hardware/src/BrLiteBuffer.cpp:35-63 | The delivery buffer is a queue: what is stored comes out once, in order; a pop goes before a store. |
| BrLiteLocal.BrLiteBuffer.BufferIn | hardware/src/BrLiteBuffer.cpp:23-64 | The buffer process takes the oldest message off or appends one, and acknowledges only what it stored. |
| BrLiteLocal.LocalPortIsSide | hardware/src/PE.cpp:394-403 | The local port of the platform keeps the contract of a processing element in every cycle, and what it logs as delivered has gone into the buffer. |
| BrLiteFlood.ResetIsUnused | hardware/src/BrLiteRouter.cpp:349-364 | After reset no key is in use anywhere, so any may be the key of an observed flood. |
| BrLiteFlood.AckMeansHeld | hardware/src/BrLiteRouter.cpp:118-134 | A neighbour that acknowledges the flood has a line for it. |
| BrLiteFlood.KeepsFloodInv | hardware/src/BrLiteRouter.cpp:78-151 | Every cycle keeps the flood invariant: one line per holder with the message, an older origin, held acknowledges and delivery counts. |
| BrLiteFlood.FloodRunKeepsInv | hardware/src/BrLiteRouter.cpp:78-311 | The flood invariant holds in every cycle of every observed run. |
| BrLiteFlood.QuietSaturates | hardware/src/BrLiteRouter.cpp:208-257 | In a quiet mesh every neighbour of a propagating holder holds the flood. |
| BrLiteFlood.Reaches | hardware/src/BrLiteRouter.cpp:208-257 | In a quiet mesh the flood has reached every router it is for, from any holder. |
| BrLiteFlood.FloodCoversMesh | hardware/src/BrLiteRouter.cpp:78-311 | Flood coverage exactly once: when quiet, every router has exactly one line and every router but the source has delivered an ALL message exactly once. |
| BrLiteFlood.FloodFindsTarget | hardware/src/BrLiteRouter.cpp:243-252 | When quiet, a message with a target has been delivered exactly once at the target and nowhere else. |
| BrLiteClear.FloodTree | hardware/src/BrLiteRouter.cpp:143 | The origin ports of a flood form a tree rooted at its source. |
| BrLiteClear.TreeIsGone | hardware/src/BrLiteRouter.cpp:214-227 | When the wave is quiet it has passed every router of the tree, although each router skips its origin. |
| BrLiteClear.NeverReinserted | hardware/src/BrLiteRouter.cpp:99-126 | While a clear wave runs, no router takes the key into its table again. |
| BrLiteClear.ClearEmptiesMesh | hardware/src/BrLiteRouter.cpp:298-309 | When the wave started by the source is quiet, no router has a line for the key any more. |
| BrLiteClear.QuietFloodAwaitsClear | hardware/src/BrLiteRouter.cpp:376-380 | A flood that has gone quiet leaves a mesh in which its clear wave may start. |
| BrLiteClear.BroadcastLeavesNoTrace | hardware/src/BrLiteRouter.cpp:347-425 | From unused key over flood and clear to quiet, every broadcast leaves all tables free of its key. |
| BrLiteClear.EarlyClearIsSwallowed | hardware/src/BrLiteRouter.cpp:298-304 | A clear that meets a line still waiting for acknowledges frees it without being forwarded. |
| BrLiteTiming.RankFalls | hardware/src/BrLiteRouter.cpp:46-157 | A router that is awake comes one cycle nearer to having sent the flood in every cycle, from request over write to sending. |
| BrLiteTiming.SentWakes | hardware/src/BrLiteRouter.cpp:214-242 | A line that has been sent has woken every neighbour. |
| BrLiteTiming.WakesInTime | hardware/src/BrLiteRouter.cpp:208-311 | A router that has heard nothing by cycle t is further than t / 7 hops from the source. |
| BrLiteTiming.DrainFalls | hardware/src/BrLiteRouter.cpp:118-136 | A router that holds the flood answers and finishes one request every five cycles. |
| BrLiteTiming.MeshIsSilent | hardware/src/BrLiteRouter.cpp:286-296 | 26 cycles after the front has passed everywhere no router requests anything of a neighbour. |
| BrLiteTiming.FloodIsQuietInTime | hardware/src/BrLiteRouter.cpp:46-311 | A lone broadcast is held everywhere and quiet from its deadline on: seven cycles a hop, then the longer of answering the neighbours and waiting for the sinks. |
| BrLiteInterval.NoClearBefore | hardware/src/BrLiteRouter.cpp:366-394 | No clear is due in the first interval + 3 cycles after the request. |
| BrLiteInterval.IntervalSuffices | hardware/src/include/BrLiteRouter.hpp:85 | If the interval covers the deadline the flood is everywhere, quiet and asked for by nobody before a clear can be due. |
| BrLiteInterval.LoneBroadcastLeavesNoTrace | hardware/src/BrLiteRouter.cpp:347-425 | From its request over flood, interval and clear to quiet, a lone broadcast leaves every table free of its key. |
| BrLiteService.RunIsTrace | hardware/src/BrLiteRouter.cpp:34-425 | Every run of one router from reset satisfies in each cycle what the three bounds below start from. |
| BrLiteService.PortIsSelected | hardware/src/BrLiteRouter.cpp:46-77 | In every run a port that keeps asking is selected within six rounds of the input process, of slack + 5 cycles each, while no clear is due. |
| BrLiteService.RequestIsAnswered | hardware/src/BrLiteRouter.cpp:46-159 | A request is acknowledged within two cycles more, or has found every line taken by other floods. |
| BrLiteService.LineIsServed | hardware/src/BrLiteRouter.cpp:162-345 | In every run a pending line is taken up for sending, or freed, within one round of the output process more than the table has lines, however many are pending. |
| BrLiteLiveness.RouterLetsGo | hardware/src/BrLiteRouter.cpp:286-296 | Mesh ports let go of their requests in the cycle after the acknowledge, so only the local one can hold up the input process. |
| BrLiteLiveness.EveryRequestIsAnswered | hardware/src/BrLiteRouter.cpp:46-311 | In every run of the mesh, with any number of broadcasts, a request to a neighbour is acknowledged within the stated time while that neighbour has no clear due and finds room. |
| BrLiteLiveness.EveryLineIsServed | hardware/src/BrLiteRouter.cpp:162-345 | And every pending line is served within the stated time, if its neighbours do so and the sinks answer. |
| BrLiteLiveness.LockArises | hardware/src/BrLiteRouter.cpp:366-380 | If the clears of two neighbours fall due in the cycle in which each begins to send to the other, unasked, both bar each other from the next cycle on. |
| BrLiteLiveness.LockedForGood | hardware/src/BrLiteRouter.cpp:46-54 | Two routers that bar each other do so in every later cycle of every run. |
| BrLiteLiveness.LockStarvesBoth | hardware/src/BrLiteRouter.cpp:366-372 | Neither of them starts its clear or acknowledges any port. |
| BrLiteClearTime.ReachedFrees | hardware/src/BrLiteRouter.cpp:286-311 | A router that has taken the clear passes it on and frees its line within the time of a hop, with any other traffic. |
| BrLiteClearTime.WaveReaches | hardware/src/BrLiteRouter.cpp:118-126 | The clear reaches a router within one hop for each step of its path of origin ports. |
| BrLiteClearTime.DepthIsBounded | hardware/src/BrLiteRouter.cpp:143 | Such a path is shorter than the number of routers that hold the flood. |
| BrLiteClearTime.ClearEndsInTime | hardware/src/BrLiteRouter.cpp:347-425 | After as many hops as there were holders no table has a line for the key, for good. |
| BrLiteLife.StaysTimed | hardware/src/BrLiteRouter.cpp:388-394 | A source that holds its lone flood has its timer running for that line since cycle 4, and no other router has one. |
| BrLiteLife.ClearHasFired | hardware/src/BrLiteRouter.cpp:368-380 | Five cycles after the interval the clear has fired, and no timer runs anywhere. |
| BrLiteLife.WaveIsLive | hardware/src/BrLiteRouter.cpp:46-159 | From then on no clear is due and no router is turned away, so the wave is bounded. |
| BrLiteLife.LoneBroadcastEnds | hardware/src/BrLiteRouter.cpp:34-425 | From a stated cycle after its request on a lone broadcast has left no line in any table, if the interval covers the deadline of its flood. |
| BrLiteOneLine.StepIsNext | hardware/src/BrLiteRouter.cpp:34-425 | The short form of a router that uses one of its 16 lines steps as the router does, in the states that a flood to all and its clear lead to and under wires that carry these two messages. |
| BrLiteRow.RowSteps | hardware/src/Memphis.cpp:210-290 | Three such routers in a row step as the 3 x 1 mesh does. |
| BrLiteExample.BroadcastHappens | hardware/src/BrLiteRouter.cpp:347-425 | For every interval of 24 cycles or more, a run in the row that meets all assumptions of BroadcastLeavesNoTrace: forwarded over two hops, quiet at the end of the interval, free of the key 20 cycles later. |
| BrLiteExample.BroadcastRuns | hardware/src/BrLiteRouter.cpp:34-425 | And, as any run of the row, those of IntervalSuffices about the mesh. |
| BrLiteExample.SinksAnswer | hardware/src/BrLiteBuffer.cpp:44-58 | In that run the sinks answer within one cycle, and the interval covers the deadline exactly from 44 cycles on. |
| BrLiteExample.EarlyClearLeavesALine | hardware/src/BrLiteRouter.cpp:298-309 | For every interval of 24 cycles or more, a run from reset in which one sink answers after the interval only: the clear overtakes the flood, the mesh comes to rest with two routers free, and the third holds the line in every later cycle. |
| Dmni.KeepsDmniInv | hardware/src/DMNI.cpp:75-159 | Grants mirror the arbiter state, nothing is transmitted outside the copy state, and the ring indices stay in range. |
| Dmni.DmniModule.Receive | hardware/src/DMNI.cpp:257-388 | The receive process equals its step; where both halves drive a signal the second wins. |
| Dmni.DmniModule.ClockEdge | hardware/src/DMNI.cpp:62-487 | One clock edge gives the same registers in whatever order the processes run. |
| DmniArbiter.SendPatienceShrinks | hardware/src/DMNI.cpp:75-159 | While the sender waits for the memory a bound on its wait falls with every cycle. |
| DmniArbiter.SendIsGranted | hardware/src/DMNI.cpp:75-159 | A sender that needs the memory has it within 21 cycles more than the monitor receiver keeps a grant. |
| DmniArbiter.ReceiveIsGranted | hardware/src/DMNI.cpp:75-159 | And so has a receiver. |
| DmniArbiter.RoundIsFair | hardware/src/DMNI.cpp:75-118 | A free arbiter grants the memory to the nearest of sender, receiver and monitor receiver after the last winner that asks, and to nobody if none does. |
| DmniArbiter.TurnEnds | hardware/src/DMNI.cpp:120-150 | A turn of the sender or receiver ends exactly when its job does, or when it has lasted sixteen cycles and the other one has a job. |
| DmniArbiter.StaleArises | hardware/src/DMNI.cpp:75-136 | The memory goes to a finished sender exactly if the arbiter is free in the last cycle of a send and neither a copying receive nor a monitor message asks. |
| DmniArbiter.StaleStays | hardware/src/DMNI.cpp:136-146 | And the sender keeps it exactly until a send starts, or its time is up while a receive is active. |
| DmniArbiter.MonitorIff | hardware/src/DMNI.cpp:75-159 | With both transfers at rest, no new job and a monitor message that keeps asking, the message is given the memory exactly if the grant is not up for a finished sender, and then in the next cycle. |
| DmniArbiter.MonitorStarves | hardware/src/DMNI.cpp:81-136 | A run from reset that gets into the excluded case: a finished sender is granted the memory and keeps it for ever, while a monitor message waits. |
| DmniSend.SegmentStep | hardware/src/DMNI.cpp:425-473 | Within a segment every cycle keeps the account of sent, presented and rewound words. |
| DmniSend.KeepsSendInv | hardware/src/DMNI.cpp:423-482 | Every cycle of a job keeps the account, across the change of segment. |
| DmniSend.SendsExactStream | hardware/src/DMNI.cpp:399-487 | At any time the accepted flits are a prefix of the two segments, and at END they are all of them, under every preemption and every schedule of credit that has it up whenever the engine copies with no flit on the wires. |
| DmniSend.SecondSegmentExact | hardware/src/DMNI.cpp:450-454 | The second segment is the promised one for every memory exactly if bits 30..28 of its address are zero or it is empty. |
| DmniSend.TotalStep | hardware/src/DMNI.cpp:425-473 | Every cycle keeps what the network has, what is on the wires and what is to be read, but for one flit more in each cycle in which that credit is missing. |
| DmniSend.ExactIff | hardware/src/DMNI.cpp:399-487 | Under any credit at all, the number of flits sent is the two sizes and the number of such cycles, modulo 2^32, and the stream is the promised one exactly if there was none (of fewer than 2^32). |
| DmniReceive.StatusIsExact | hardware/src/DMNI.cpp:218-233 | The two status outputs say exactly whether the ring has room and content. |
| DmniReceive.RingIsQueue | hardware/src/DMNI.cpp:257-388 | The ring with its indices and last-operation flag refines a 16-word queue, also with push and pop in one cycle. |
| DmniReceive.KeepsProgress | hardware/src/DMNI.cpp:321-388 | Every cycle keeps the account of words queued, taken, on the memory port and in memory. |
| DmniReceive.ReceivesExactly | hardware/src/DMNI.cpp:235-397 | A receive that ends has stored exactly its amount of words, each once, at consecutive addresses, or dropped them if the address is zero. |
| DmniReceive.AmountIsSize | hardware/src/DMNI.cpp:327 | The amount is the size asked for, exactly if that is not zero. |
| InjectorSend.KeepsSendInv | hardware/peripherals/AppInjector.cpp:643-664 | Every cycle keeps the account of presented, held and accepted flits of the packet under way, and of a stale flit before it. |
| InjectorSend.InjectsExactPacket | hardware/peripherals/AppInjector.cpp:599-668 | In every run over any sequence of packets and any credit, whenever one is done the flits accepted since it began are exactly that packet, in order, behind at most one stale flit; without it exactly if there was no such flit. |
| InjectorSend.InjectsPrefix | hardware/peripherals/MAInjector.cpp:331-399 | And while it is on its way they are a prefix of that. |
| InjectorSend.StaleIff | hardware/peripherals/AppInjector.cpp:643-664 | There is a stale flit exactly if the credit was missing in the cycle in which the packet was to begin. |
| InjectorSend.BeginsIff | hardware/peripherals/AppInjector.cpp:556-597 | An idle sender begins a packet exactly with a credit and a task packet to send, or else an announcement or a request. |
| InjectorSend.WaitsForRequest | hardware/peripherals/AppInjector.cpp:632-642 | After an announcement the sender waits, and begins the task packet exactly when the mapper is to be served, with a credit and a packet. |
| InjectorSend.ParcelFollowsCause | hardware/peripherals/AppInjector.cpp:556-668 | Every parcel is the packet it was begun for, flit by flit, behind the stale flit if there is one: the loader's packet and done, the announcement to the mapper and waiting, or the request to it and done. |
| InjectorSend.IsIdleAgain | hardware/peripherals/AppInjector.cpp:665-668 | After a task or a request the sender is idle in the next cycle. |
| InjectorSend.NothingTakenBack | hardware/peripherals/AppInjector.cpp:643-664 | No cycle takes back what has been shown or accepted. |
| InjectorSend.ParcelTakes | hardware/peripherals/AppInjector.cpp:599-657 | With the credit up a parcel of n flits is over n + 2 cycles after it began. |
| InjectorSend.PacketIsCompleted | hardware/peripherals/AppInjector.cpp:658-664 | However long the credit was missing, two cycles of credit for each flit that is left and two more complete the packet. |
| XyRouting.IoIsTopBits | hardware/src/switchcontrol.cpp:240-262 | The peripheral field is the three top bits of the first flit, and the top one marks a packet for a peripheral. |
| XyRouting.PeripheralFlitFields | hardware/peripherals/include/AppInjector.hpp:34 | The packed address of a peripheral decodes to its router, its port and the peripheral mark. |
| XyRouting.EachHopIsCloser | hardware/src/switchcontrol.cpp:278-292 | Every hop stays in the mesh and is one router closer to the target. |
| XyRouting.PacketArrives | hardware/src/switchcontrol.cpp:264-292 | A packet is at its target after exactly the Manhattan distance of hops, and not before. |
| XyRouting.PacketIsDelivered | hardware/src/switchcontrol.cpp:41-54 | At the target it is handed to the local port, or leaves the mesh on the port its header names. |
| XyRouting.PeripheralIsReached | hardware/src/switchcontrol.cpp:43-51 | A peripheral is reached from every router exactly if its port is on the border. |
| XyRouting.InjectorIsReached | modules/hardware.py:39-48 | The same for the address word that the builder and the injectors use. |
| XyRouting.InwardPortBounces | hardware/src/switchcontrol.cpp:278-292 | Packets for an inner east or south port go back and forth for ever. |
| XyRouting.RankIncreases | hardware/src/switchcontrol.cpp:264-292 | Every channel dependency of XY routing goes to a channel of higher rank. |
| XyRouting.NoRoutingDeadlock | hardware/src/switchcontrol.cpp:264-292 | No path of dependencies visits a channel twice, and none is longer than nx + ny. |
| SwitchControl.ProxIsRoundRobin | hardware/src/switchcontrol.cpp:212-262 | The five priority lists of the arbiter are one rotating scan. |
| SwitchControl.GrantsTheWantedOutput | hardware/src/switchcontrol.cpp:41-68 | Routing leads to a grant exactly if the output XY routing wants is free, and then grants that output. |
| SwitchControl.SwitchController.ControleSequ | hardware/src/switchcontrol.cpp:95-197 | The rising-edge process equals its step; releases follow the grant. |
| Crossbar.MuxAfter | hardware/src/switchcontrol.cpp:142-176 | A cycle changes only the connection that is being granted. |
| Crossbar.FreeAfter | hardware/src/switchcontrol.cpp:182-196 | An output is freed exactly when its own input has ended its packet, and taken only by a grant. |
| Crossbar.KeepsMatching | hardware/src/switchcontrol.cpp:142-196 | Every cycle keeps the matching of inputs and outputs. |
| Crossbar.QueueIsFree | hardware/src/queue.cpp:121-232 | In every state an input queue has the steps that the source gives it. |
| Crossbar.SelectsARequest | hardware/src/switchcontrol.cpp:30-40 | A selection is only made while somebody asks, so it selects an input that asks. |
| Crossbar.CrossbarIsMatching | hardware/src/switchcontrol.cpp:95-197 | In every reachable state busy outputs and sending inputs are matched one to one, each along XY routing. |
| Crossbar.OutputTurns | hardware/src/switchcontrol.cpp:95-197 | A free output is taken only by the selected input that wants it; a busy one keeps its input until its sender falls and is freed in that cycle. |
| Crossbar.PatienceShrinks | hardware/src/switchcontrol.cpp:17-80 | While an input asks and is not selected, a bound on its wait falls with every cycle. |
| Crossbar.InputIsSelected | hardware/src/switchcontrol.cpp:212-262 | An input that keeps asking is selected within 35 cycles of any cycle after reset. |
| Crossbar.SelectionIsGranted | hardware/src/switchcontrol.cpp:41-68 | A selected input is granted exactly if the output it wants is free. |
| Gf.Linear2 | applications/aes/aes.h:536-539 | Multiplication by x is linear. |
| Gf.MixedTwice | applications/aes/aes.h:540-641 | Mixing a column twice has the coefficients 5, 0, 4, 0. |
| Gf.TwiceTwice | applications/aes/aes.h:540-641 | Mixing four times is the identity. |
| Gf.UnmixedIsMixed | applications/aes/aes.h:643-744 | Unmixing a column is mixing it three times. |
| AesField.TableIsGf | applications/aes/aes.h:107-236 | Every one of the 1536 table entries is the product in GF(2^8) it stands for. |
| AesField.SboxInverse | applications/aes/aes.h:63-99 | The two substitution tables are inverse permutations of the bytes. |
| AesField.MixAndUnmix | applications/aes/aes.h:540-744 | InvMixColumns undoes MixColumns and the other way round, through the table. |
| Aes.ShiftRowsInverse | applications/aes/aes.h:455-530 | The row shifts are inverse. |
| Aes.AddRoundKeyTwice | applications/aes/aes.h:307-376 | Adding a round key twice changes nothing. |
| Aes.InvRoundsUndo | applications/aes/aes.h:865-915 | The inverse rounds undo any number of rounds. |
| Aes.DecryptUndoesEncrypt | applications/aes/aes.h:750-915 | Decryption undoes encryption with the same number of rounds, for every block and every key array (FIPS 197, sections 5.1 and 5.3). |
| Aes.EncryptUndoesDecrypt | applications/aes/aes.h:750-915 | And the other way round. |
| AesCipher.RoundTripIff | applications/aes/aes.h:819-907 | Decryption recovers every block under every key array exactly for the key sizes 128 and from 192 on. |
| AesCipher.ShortDecryptionFails | applications/aes/aes.h:819-907 | With fewer rounds in decryption two keys that differ in a late word cannot both be undone. |
| AesInPlace.SubBytesIn | applications/aes/aes.h:384-414 | The in-place substitution computes SubBytes on the array. |
| AesInPlace.InvSubBytesIn | applications/aes/aes.h:417-447 | The in-place inverse substitution computes InvSubBytes. |
| AesInPlace.ShiftRowsIn | applications/aes/aes.h:455-492 | The in-place row shifts compute ShiftRows. |
| AesInPlace.InvShiftRowsIn | applications/aes/aes.h:495-530 | The in-place row shifts to the right compute InvShiftRows. |
| AesInPlace.MixColumnsIn | applications/aes/aes.h:540-641 | The in-place column mixing computes MixColumns. |
| AesInPlace.InvMixColumnsIn | applications/aes/aes.h:643-744 | The in-place column unmixing computes InvMixColumns. |
| AesInPlace.AddRoundKeyIn | applications/aes/aes.h:307-376 | The in-place key addition adds the four words of a round. |
| AesDrivers.AesEncrypt | applications/aes/aes.h:750-862 | The unrolled driver computes the cipher for its key size, also when input and output are one buffer, from as many key words as its rounds need; AesStandard.EncryptIsStandard says what that is. |
| AesDrivers.AesDecrypt | applications/aes/aes.h:865-936 | The unrolled driver computes the inverse cipher for its key size, from as many key words as its rounds need. |
| AesKeySchedule.RconIsPower | applications/aes/aes.h:273-275 | The round constants are the successive powers of x. |
| AesKeySchedule.AesKeySetup | applications/aes/aes.h:270-298 | The two loops compute the key schedule, which AesStandard.ScheduleIsStandard gives byte by byte; other key sizes leave the array alone. |
| AesKeySchedule.KeyIsDetermined | applications/aes/aes.h:289-298 | Any window of the schedule as long as the key determines the key. |
| AesInverses.HasInverse | applications/aes/aes.h:63-80 | Every byte other than zero has an inverse in GF(2^8). |
| AesStandard.SboxIsInverse | applications/aes/aes.h:63-80 | The table entry of a byte is the affine map of its inverse, and 63 for zero (section 5.1.1 of FIPS 197). |
| AesStandard.ShiftRowsIs | applications/aes/aes.h:455-492 | Row r, column c comes from column c + r (section 5.1.2). |
| AesStandard.MixColumnsIs | applications/aes/aes.h:540-641 | A mixed byte is twice its own row, three times the next, and the other two (section 5.1.3). |
| AesStandard.AddRoundKeyIs | applications/aes/aes.h:307-376 | Row r of column c is added byte r, from the top, of word 4 n + c (section 5.1.4). |
| AesStandard.EncryptIsStandard | applications/aes/aes.h:750-862 | Every block goes through the states of section 5.1, byte by byte, in six rounds more than the key has words. |
| AesStandard.ScheduleIsStandard | applications/aes/aes.h:285-297 | Every byte of every word follows section 5.2: the key first, then rotated and substituted with a power of x, substituted only, or plain. |
| VlcBits.NextBit | applications/mpeg/ivlc.c:272 | Masking and shifting a buffer element yields its bit. |
| VlcBits.BitReader.GetBits | applications/mpeg/ivlc.c:255-309 | The reader returns the value of the next n bits of the stream and keeps byte index, bit number and mask consistent. |
| VlcBits.ValueOfConcat | applications/mpeg/ivlc.c:271-282 | The value of two strings of bits one after the other. |
| VlcDecoder.Ivlc.GetDC | applications/mpeg/ivlc.c:342-381 | The DC reader computes the DC part of the specification and consumes its bits. |
| VlcDecoder.Ivlc.GetAC | applications/mpeg/ivlc.c:410-448 | One pass of the AC loop computes the next event of the specification. |
| VlcDecoder.Ivlc.IvlcFunc | applications/mpeg/ivlc.c:388-463 | The decoder terminates, fills the block as specified and stops at the specified bit. |
| VlcCodes.CodesArePrefixFree | applications/mpeg/ivlc.c:412-429 | A window selects the same entry for whatever follows its code: the tables are a prefix code. |
| VlcCodeBook.CodeSelects | applications/mpeg/ivlc.c:122-250 | Whatever follows the code of an event in Table B-15 of ISO/IEC 13818-2, or the second code that Table B-14 gives to ten of them, the tables select exactly that event. |
| VlcRoundTrip.SymbolDecodes | applications/mpeg/ivlc.c:410-448 | Every event is read back from its code in the book with its sign, or from an escape. |
| VlcRoundTrip.ForbiddenEscapeStops | applications/mpeg/ivlc.c:438-443 | An escape with level 0 or -2048 ends the block. |
| VlcRoundTrip.NoCodeStops | applications/mpeg/ivlc.c:427-428 | Twelve zeros end the block where they stand. |
| VlcRoundTrip.AcRoundTrip | applications/mpeg/ivlc.c:410-461 | Every list of events is decoded to its levels, up to the end-of-block code and no further. |
| VlcRoundTrip.DcRoundTrip | applications/mpeg/ivlc.c:342-381 | Every DC value of up to eleven bits is decoded exactly from its bits. |
| VlcRoundTrip.BlockRoundTrip | applications/mpeg/ivlc.c:388-463 | Every block round-trips, however each event is coded, and exactly its bits are consumed. |
| VlcRoundTrip.ZigZagIsInjective | applications/mpeg/ivlc.c:65-71 | The scan visits no cell twice. |
| VlcRoundTrip.ZigZagIsScan | applications/mpeg/ivlc.c:65-71 | The table is the zig-zag path: up to the right and down to the left in turn, and along the border in between. |
| VlcRoundTrip.DecodedBlockIsExact | applications/mpeg/ivlc.c:388-463 | Sample by sample: the DC value, every level where the zig-zag path puts it, everything else untouched. |
| Dijkstra.PathTo | applications/dijkstra/dijkstra_0.c:175-181 | The chain of predecessors ends, and the walk it names costs exactly the distance. |
| Dijkstra.SomethingToCatch | applications/dijkstra/dijkstra_0.c:121-133 | While the count is short there is a node to catch, so the loop makes progress. |
| Dijkstra.AnswerIsLeast | applications/dijkstra/dijkstra_0.c:104-145 | Every distance is the least cost of a nonempty walk, also with self-loops, an uncaught start and only n - 1 catches. |
| Dijkstra.EndsOnlyIfCatchable | applications/dijkstra/dijkstra_0.c:121 | When n - 1 catches have been made, all nodes but one can be caught. |
| DijkstraLoop.RelaxKeepsInv | applications/dijkstra/dijkstra_0.c:128-143 | Catching the nearest node and relaxing through it keeps the invariant and catches exactly one more. |
| DijkstraLoop.StaleKeeps | applications/dijkstra/dijkstra_0.c:134-143 | Relaxing once more from the node caught last changes nothing. |
| DijkstraLoop.IterationExists | applications/dijkstra/dijkstra_0.c:121-145 | The loop can go on exactly if an uncaught node has a usable distance or one was caught before. |
| DijkstraLoop.IterationKeeps | applications/dijkstra/dijkstra_0.c:121-145 | Every iteration keeps the invariant; one that catches nothing leaves the whole state as it is. |
| DijkstraLoop.NeverEnds | applications/dijkstra/dijkstra_0.c:121 | If two nodes cannot be caught the count stays below n - 1 in every run, so the loop goes on for ever. |
| DijkstraLoop.EndsInTime | applications/dijkstra/dijkstra_0.c:121 | If all nodes but one can be caught every iteration catches one and the loop ends after n - 1 of them. |
| DijkstraLoop.ReadsBeforeArray | applications/dijkstra/dijkstra_0.c:133-140 | The loop reads before its array exactly in its first iteration, if there are two nodes and the start has no edge below 9999 other than of weight 0. |
| DijkstraLoop.Solver.FindNearest | applications/dijkstra/dijkstra_0.c:122-127 | The scan finds the nearest uncaught node whose distance is neither 0 nor 9999. |
| DijkstraLoop.Solver.RelaxFrom | applications/dijkstra/dijkstra_0.c:134-143 | The relaxation loop updates every node as specified. |
| DijkstraLoop.Solver.Iterate | applications/dijkstra/dijkstra_0.c:121-145 | The body of the loop is an iteration of the specification from any state, or would read before the array. |
| DijkstraLoop.Solver.ShortestPaths | applications/dijkstra/dijkstra_0.c:104-145 | The whole loop terminates with all least distances. |
| DijkstraLoop.Solver.SendPath | applications/dijkstra/dijkstra_0.c:175-181 | The recursion writes the path, numbered from 1, and nothing else. |
| DijkstraLoop.Solver.SendResult | applications/dijkstra/dijkstra_0.c:183-198 | The message holds the two ends, the distance and the whole path, zero filled. |
| DijkstraLoop.PathIsShort | applications/dijkstra/dijkstra_0.c:175-181 | No node repeats on a path. |
| Dtw.EuclideanDistance | applications/dtw/dtw.h:16-25 | The loop computes the sum of squared differences. |
| Dtw.BestIsLowest | applications/dtw/dtw.h:55-58 | No warping path costs less than the recurrence. |
| Dtw.BestIsLeast | applications/dtw/dtw.h:33-62 | The recurrence is the least cost over all monotone warping paths. |
| Dtw.BestIsSymmetric | applications/dtw/dtw.h:33-62 | Exchanging the two matrices does not change the result. |
| Dtw.DynamicTimeWarping | applications/dtw/dtw.h:33-62 | The two-column program returns the least cost of a warping path, for every size. |
| RepoImage.Repository.Add | modules/repository.py:9-13 | A value is printed as its low 32 bits, also if negative, and takes four bytes. |
| RepoImage.GetDepListLen | modules/application.py:171-194 | The computed length of the dependence list is its true length. |
| RepoImage.GenerateRepo | modules/application.py:120-158 | The builder prints the count, the descriptors, the dependence lists and the code, and its running address is true. |
| RepoImage.ImageLayout | modules/application.py:127-139 | Every descriptor and every task's code is where the printed sizes and addresses say. |
| AppLoader.SignedIs | hardware/peripherals/AppInjector.cpp:229-236 | A word is read as a two's complement number. |
| AppLoader.AppDescriptorLoader | hardware/peripherals/AppInjector.cpp:183-250 | The loader computes the descriptor packet of the specification, or fails at the end of the file. |
| AppLoader.TaskAllocationLoader | hardware/peripherals/AppInjector.cpp:296-370 | The loader computes the allocation packet of the specification, or refuses the task number. |
| AppLoader.TaskRoundTrip | hardware/peripherals/AppInjector.cpp:296-370 | For every task of every printed image the packet is a header with true sizes followed by exactly that task's words; other numbers are refused. |
| AppLoader.AppRoundTrip | hardware/peripherals/AppInjector.cpp:183-250 | The descriptor packet declares its true sizes and ends with the dependence lists exactly as printed. |
| AppLoader.ListsAreCopied | hardware/peripherals/AppInjector.cpp:229-236 | The sign-terminated lists are copied whole, whatever follows them. |
| AppReceiver.App.ReadTask | management/mapper_task/src/application.c:44-60 | The mapper reads one list of the stream up to its terminator, or fails at the end of the message or a task that does not exist. |
| AppReceiver.App.AppInit | management/mapper_task/src/application.c:23-63 | The mapper builds the graph of the specification, with every edge known at both ends. |
| AppReceiver.StreamReadsBack | management/mapper_task/src/application.c:43-60 | All printed lists read back from one stream, each at its place, whatever follows. |
| AppReceiver.GraphArrives | management/mapper_task/src/main.c:19-37 | From the builder through image and packet to the mapper: the number of tasks, the place of every task and every successor list arrive; the message is within the buffer of 128 words exactly if 3 words, two for each task and the lists are. |
| AppStart.GetAppRepoPath | hardware/peripherals/AppInjector.cpp:264-292 | The loop over the start list computes the entry it looks for. |
| AppStart.GenerateAppStart | modules/scenario.py:99-129 | The printer writes three lines and one per task for every application. |
| AppStart.AppIsFound | hardware/peripherals/AppInjector.cpp:264-292 | Every application is found under its own position. |
| ReductionTree.GetTargets | applications/map_reduce/generator/utils.py:201-236 | The level-by-level table yields receivers id + 2^k below the lowest set bit and the parent with that bit cleared, exactly for even workers of a power of two of tasks. |
| ReductionTree.KeepsMaps | applications/map_reduce/generator/utils.py:213-234 | Every level keeps what both dictionaries know. |
| ReductionSum.OddWorkersAndMaster | applications/map_reduce/generator/utils.py:115-121 | The rule for odd workers and the list of the master are cases of the general one. |
| ReductionSum.WriteWorker | applications/map_reduce/generator/utils.py:155-189 | The writer of a worker receives from exactly its senders and sends to its parent. |
| ReductionSum.WriteMaster | applications/map_reduce/generator/utils.py:115-121 | The writer of the master receives from exactly the senders of task 0. |
| ReductionSum.EdgesAgree | applications/map_reduce/generator/utils.py:155-189 | A task waits for another exactly if the other sends to it. |
| ReductionSum.EdgeFromBelow | applications/map_reduce/generator/utils.py:155-189 | Every worker stands in its parent's list, at the place of its lowest bit. |
| ReductionSum.NoCyclicWaiting | applications/map_reduce/generator/utils.py:155-189 | No chain of waiting receipts closes on itself. |
| ReductionSum.SenderIsComplete | applications/map_reduce/generator/utils.py:155-189 | The j-th sender in a list sends after exactly j receipts of its own. |
| ReductionSum.HeldIsRange | applications/map_reduce/generator/utils.py:155-189 | After receiving from the first k tasks in its list a task holds 2^k consecutive slices, each once. |
| ReductionSum.HandOut | applications/map_reduce/generator/utils.py:88-104 | The loop of the master sends each worker its slice and keeps the last one with what is left over, or does nothing at all if there are fewer numbers than tasks. |
| ReductionSum.ReductionIsSum | applications/map_reduce/generator/utils.py:88-121 | Every task gets its slice exactly if there are as many numbers as tasks; then, when every task receives what its list says, the master ends with the sum of the whole array, for every array and power of two. |
| Adpcm.SubBand.Upzero | applications/audio_video/adpcm_dec.c:69-91 | The coefficient loop and the delay line, in place, with the tap the source skips. |
| Adpcm.SubBand.AdaptIn | applications/audio_video/adpcm_dec.c:455-499 | One band's filters, coefficients and delays after a quantized difference. |
| Adpcm.Decoder.Decode | applications/audio_video/adpcm_dec.c:445-542 | Both bands step as specified for every received word. |
| Adpcm.ScaleBounds | applications/audio_video/adpcm_dec.c:363-370 | Shift amounts and table indices are legal and the scale factor lies between 8 or 32 and 16384. |
| Adpcm.AdaptKeepsPredictor | applications/audio_video/adpcm_dec.c:379-420 | The predictor coefficients keep their joint bounds. |
| Adpcm.StateStaysBounded | applications/audio_video/adpcm_dec.c:445-542 | Every sequence of received words keeps both bands in range (cf. ITU-T G.722, section 6.2). |
| AdpcmSignals.HistoryIs | applications/audio_video/adpcm_dec.c:445-499 | At any time the registers hold the last two differences, partial signals and outputs; the prediction uses two taps of the delay line, for the other four are zero for ever. |
| AdpcmSignals.CoefficientsFollow | applications/audio_video/adpcm_dec.c:69-84 | The coefficients leak and step with the signs of the last three partial signals and of the last differences, within their limits. |
| AdpcmSignals.BandsAreTraces | applications/audio_video/adpcm_dec.c:445-542 | Every sequence of received words drives both bands so. |
| AdpcmSignals.LowCycle | applications/audio_video/adpcm_dec.c:350-361 | The difference is the scale times the level of the code, and the logarithmic scale leaks and steps by the rank of the code. |
| AdpcmSignals.HighCycle | applications/audio_video/adpcm_dec.c:433-443 | The same for the upper band. |
| AdpcmSignals.LowerTablesAre | applications/audio_video/adpcm_dec.c:118-149 | Levels and scale steps of the lower band are one pair of sequences, in the order of the codes: sign, then magnitude. |
| AdpcmSignals.LevelsAndStepsGrow | applications/audio_video/adpcm_dec.c:118-149 | A larger level comes with a larger step of the scale. |
| AdpcmSignals.UpperTablesAre | applications/audio_video/adpcm_dec.c:201-207 | The same for the upper band. |
| AdpcmSignals.MantissaIsPower | applications/audio_video/adpcm_dec.c:154-160 | Entry i of the mantissa table is 2048 * 2^(i / 32), rounded to the nearest integer. |
| AdpcmSignals.ScaleIs | applications/audio_video/adpcm_dec.c:363-370 | The scale factor is the mantissa of the logarithmic scale, shifted by its octave. |
| AdpcmSignals.ScaleGrows | applications/audio_video/adpcm_dec.c:363-370 | It grows with the logarithmic scale. |

## Left out

- File output, debug reports, traffic logs, the flit sniffer and the scripts that drive the build: they only report.
- The processor, its kernel and the memory-mapped registers (hardware/src/RiscV.cpp): the register, privilege and CSR types are not part of the repository.
- BrLite with a full table, and floods and clears of one key that overlap: no liveness is claimed for them, only the safety of the tables. The deadline of a flood is proved for one to ALL that is alone in the mesh; for several at once only the time of each request and line is.
- BrLiteLiveness.LockArises: starts from any state of the mesh in which two clears fall due as described; a run from reset to such a state is not built.
- BrLiteFlood.FloodNext: that no other router's clear hits the line of the flood is assumed; keys that are used again while their old clear is on its way could break it. For a lone broadcast it is proved (BrLiteInterval.NoClearBefore).
- BrLite message words: the source packs two addresses, and an identifier with a service, into words; the model keeps the fields apart.
- BrLiteLocal.LocalPortIsSide: covers the messages that go to the buffer; those of the monitor services go to the DMA engine, and that it acknowledges in four phases is assumed.
- The DMA engine's `br_receive`, `config`, interrupt counter and header tracking: plain registers and reporting; the arbiter's third client keeps its grant as long as it likes.
- The flit path of the packet router (data, credit and buffer of the input queues): the queues appear only through their request, head flit and `sender` level.
- Deadlock freedom of the packet network is stated for the channel dependencies of XY routing; a packet addressed to the router it starts from is not covered, for the crossbar never sends it back.
- The receive side of the injectors, and the monitor state machine: bookkeeping around the sender and the loaders modelled here.
- The builder's lookup and sorting of successor names and its reading of hexadecimal text: the model starts from lists of successor positions and from words.
- The encoder of the video decoder's input is not in the repository; the round trip is stated for every way of coding each event that the decoder knows.
- Inverse quantization, IDCT, FIR, the audio encoder and the output mixing of the audio decoder: no bound or identity holds for all inputs.
- `dl` and the low-band output sample of the audio decoder do not feed back into the adaptive state and are not modelled.
- Block modes and the distribution of blocks to AES workers: the cipher is the core.
- The C text that the map-reduce generator emits: the model proves the tree and the slices, not the emitted receive calls, which sum a whole buffer after one word.
- Floating point `log2` in the map-reduce generator is the exact integer logarithm here.
- AppReceiver.GraphArrives: what the kernel does with a message longer than the mapper's buffer is not part of this model.
- ReductionTree.GetTargets: Python lists shared between the dictionaries and the table are values here, for a row is never extended after it has left the table.
- Sorting, MWD, VOPD, MPEG4, synthetic and producer-consumer applications, and the duplicate copies of the kernels: easy or repeated.
