# FlexNet verification model

A Dafny model of the FlexNet router in `FlexNetCode.c`, with proofs of what its
protocols promise. Four state machines over fixed tables are modelled, together
with the wire formats they exchange.

**Circuit forwarding.** A transit node appends its next hop to the AX.25
digipeater list (section 2.2.13 of AX.25 v2.0) of a connected-mode frame on the
way out and removes it from the returning frame. `AxFrame` models the address
field twice, as bytes edited in place in a message buffer and as a list of
entries with H bits, and proves that the byte edits are the list edits.
`Circuits` is the circuit table, `Transit` one frame through one node,
`TransitSteps` and `TransitRuns` what every frame and every run keeps,
`TransitFacts` when exactly a frame is extended, dropped or left alone,
`ChainSymmetry` the distributed claim over any number of nodes, `CircuitFacts`
what survives on a circuit, `ChainRuns` the two composed over the traffic each node
sees. `L2Node` is the imperative node over bytes and slots, proved against
`Transit`.

**Route re-advertisement.** `World` is what the node has heard and what a route
costs from here, `Offers` the same read off the tables. `Advertise` is the decision rule for one neighbour and one
destination, with `ClimbGuard` its count-to-infinity guard; `Drain` the token
bucket and the packing of frames; `AdvRuns`, `BarredRuns` and `ClimbRuns` whole
runs of decisions and drains. `Peers` is a neighbour's session (INIT, keepalive,
`3+`, `3-`, link times, the 120 s refresh, link restarts) with everything sent to
it; `PeerRuns`, `Answers` and `Ledger` whole sessions, `Handshake` and `Sessions`
what they say seen from outside, `Progress` that nothing waits without need;
`FullAnswer` what the answer to a `3+` contains, `Horizon` what a neighbour must not
be told; `Limits` the runs in which three plausible claims fail. `PeerSlot` is the
imperative per-neighbour record.

**Destination table.** `DestTable` is the incremental cheapest-next-hop table and
its agreement with a minimum taken from scratch, `DestRuns` whole runs of it.
`Routing` connects the node's tables to the neighbours' queues, including the loss
of a session, `TableFacts` and `NodeFacts` hold what else the tables keep. `FlexNode`
is the imperative node: nested scans, in-place table updates, walks, re-walks and the
session handlers, each proved equal to its specification.

**Wire formats and small filters.** `CompactCodec` (route records), `PathCodec`
and `PathForward` (path requests and replies), `WireFacts` (both byte by byte),
`LinkTime` (link-time filter), over `Text`.

Time is a parameter of every operation. The pattern throughout: a method with
loops and field updates is proved equal to a function of its inputs and the old
state, and the lemmas are about that function. Histories that the code does not
keep (records sent, frames sent) are part of the specification state and ghost
fields of the classes. Automatic induction is switched off for every lemma, so
each inductive step is spelled out in its body.

## Model

| member | source | states |
|---|---|---|
| AxFrame.LastFromFinds | FlexNetCode.c:9734-9743 | the end-bit scan finds the last entry of any well-formed address field, wherever it starts |
| AxFrame.InChainIsMentions | FlexNetCode.c:9760-9774 | the byte search answers whether the call occurs as DEST, ORIGIN or digipeater, H and end bits ignored |
| AxFrame.AppendRefines | FlexNetCode.c:9776-9796 | appending bytes is appending one unrepeated entry: the single end bit moves to it and the control, PID and information bytes are kept |
| AxFrame.RemoveRefines | FlexNetCode.c:9799-9816 | removing an entry's bytes removes exactly that entry, the end bit moving back if it was the last one |
| AxFrame.RemoveUndoesAppend | FlexNetCode.c:9776-9816 | removing what was appended restores the original frame byte for byte |
| AxFrame.FrameBuffer.EntryAt | FlexNetCode.c:9760-9774 | reading an entry in the buffer yields its call, H bit and end bit |
| AxFrame.FrameBuffer.CountDigis | FlexNetCode.c:9745-9758 | the loop over the buffer computes the count, at most eight, on any bytes |
| AxFrame.DigisInCounts | FlexNetCode.c:9745-9758 | on the bytes of a frame that count is the number of its digipeaters |
| AxFrame.DecodeRoundTrip | FlexNetCode.c:9734-9743 | any bytes with an end bit from ORIGIN on are the byte form of exactly the frame read off them |
| AxFrame.FrameBuffer.AddrLast | FlexNetCode.c:9734-9743 | the loop over the buffer computes the scan above, -1 or a multiple of seven up to 63 |
| AxFrame.FrameBuffer.CallInChain | FlexNetCode.c:9760-9774 | the loop over the buffer computes the search above |
| AxFrame.FrameBuffer.AppendDigi | FlexNetCode.c:9778-9796 | in place on the array: appends exactly when an end bit is found, the field is complete and the frame stays within 330 bytes; otherwise nothing changes |
| AxFrame.FrameBuffer.RemoveDigi | FlexNetCode.c:9799-9816 | in place on the array: removes the entry, or changes nothing when the offset is not a digipeater's |
| Circuits.ClosedIffTornDown | FlexNetCode.c:9870-9891 | over any traffic a circuit is closed exactly when, since its last SABM, it carried a DM, or a UA after a DISC |
| TransitFacts.ControlBytes | FlexNetCode.c:9681-9695 | of the 256 control bytes exactly these count, poll/final bit clear or set: 2F 3F 6F 7F opens, 43 53 asks to close, 63 73 confirms, 0F 1F refuses |
| TransitFacts.CircuitLifetime | FlexNetCode.c:9697-9714 | a circuit that was not torn down is kept for 7200 s after its last frame and safe from replacement for 900; one that was torn down is kept for 120 s after the first teardown since its last SABM, and never safe |
| Circuits.AllocationPolicy | FlexNetCode.c:9922-9971 | a new circuit never takes a live slot; it takes a free slot, else the longest-closed circuit, else the longest-silent open one; it is declined exactly when every slot is live |
| Circuits.FindKeepsUnique | FlexNetCode.c:9922-9971 | looking up or creating keeps at most one circuit per (user, destination, port) |
| Circuits.FindExisting | FlexNetCode.c:9922-9971 | a circuit still held is found by its own (user, destination, port) |
| Circuits.CircuitTable.Scan | FlexNetCode.c:9922-9971 | the loop over the slots, releasing expired ones in place, finds the first match and the three candidates |
| Circuits.CircuitTable.Find | FlexNetCode.c:9922-9971 | in place on the slot array: the table and the index the specification names |
| Circuits.CircuitTable.FindReturning | FlexNetCode.c:9984-10001 | the first circuit, still held, that returns on this port; -1 if none |
| TransitSteps.ExtensionOutcome | FlexNetCode.c:10424-10460 | an extension adds one call that is nowhere in the address field, within min(8, PORTMAXDIGIS) digipeaters and 330 bytes |
| TransitSteps.ContractionOutcome | FlexNetCode.c:10102-10124 | a contraction removes the repeated entry just before ours, from the second digipeater on |
| TransitFacts.OthersLeftAlone | FlexNetCode.c:10338-10375 | a frame is left as it is, without trace, when transit is off, it has no control byte, or it concerns no FlexNet station: originator no peer here, fewer than two digipeaters, no external station at either end, and not routed for all |
| TransitFacts.DroppedWhen | FlexNetCode.c:10386-10400 | only a frame of one of our circuits that carries our own call repeated before us is dropped, and it is unless it could be a returning one |
| TransitFacts.ExtendedOnCircuit | FlexNetCode.c:10386-10461 | a frame of a circuit that names us last is extended if and only if it is looked at, has not looped, has a hop to go to, the hop is nowhere in its chain and on the arrival port or ports may be crossed, and it stays within eight digipeaters, the port's own limit and 330 bytes |
| TransitFacts.ExtendedAnew | FlexNetCode.c:10386-10461 | the first frame of a circuit is extended if and only if, besides, some slot of the table does not hold a live circuit |
| TransitFacts.NoStrayCircuit | FlexNetCode.c:10155-10212 | a frame that is neither extended nor sent to an adjacent DEST on another port leaves no new circuit behind, also when it turns out too long |
| TransitFacts.GoesToItsHop | FlexNetCode.c:10129-10152 | an extended frame of a circuit goes to its pinned hop if that session is up and it is no new connection on a torn-down circuit, and else to the hop the routing table names; the circuit records the port to it |
| TransitSteps.VisitLowers | FlexNetCode.c:10338-10461 | each visit lowers twice the unrepeated entries plus the free digipeater places |
| TransitSteps.ForwardingTerminates | FlexNetCode.c:10424-10460 | any journey across any nodes with any, even looping, tables is at most as long as that measure |
| TransitSteps.JourneyKeepsCallsDistinct | FlexNetCode.c:10424-10460 | a chain without repeated calls stays so over any journey |
| TransitSteps.VisitHops | FlexNetCode.c:10155-10212 | a hop in the table after a frame was there before or was just appended to that frame on that circuit |
| TransitSteps.VisitKeepsUnique | FlexNetCode.c:10338-10461 | handling any frame keeps at most one circuit per (user, destination, port) |
| TransitRuns.OnlyOwnHopsRemoved | FlexNetCode.c:10102-10124 | in every run an entry removed by contraction is marked repeated and was appended earlier by this node on the same (user, destination) circuit |
| TransitRuns.TableRemembersOnlyAppended | FlexNetCode.c:10155-10212 | every hop a circuit remembers was appended by this node on that circuit |
| TransitRuns.ReachableTablesUnique | FlexNetCode.c:9922-9971 | every reachable table has at most one circuit per (user, destination, port) |
| TransitRuns.ReturningIsContracted | FlexNetCode.c:10102-10124 | a returning frame over a hop of the only circuit for its pair is contracted |
| TransitRuns.ExtensionPins | FlexNetCode.c:10155-10212 | an extension leaves the appended hop pinned on the frame's circuit |
| ChainSymmetry.ChainSymmetric | FlexNetCode.c:10338-10461 | over any number of nodes that extended a frame, each finding its own call next in the chain, the answer along the reversed chain comes back with exactly the reverse of the digipeaters the originator sent, and each of these nodes sends it toward the port of its circuit |
| ChainRuns.AnswerComesBack | FlexNetCode.c:10338-10461 | the same from the traffic of each node: any history from an empty table, then any traffic in which the circuit stays live and its hop up, the answer arriving on the port the frame left on; each of these nodes sends the answer out on the very port where it had received the frame |
| ChainRuns.NodeKnows | FlexNetCode.c:10102-10212 | one node of that: the hop it appended is still its own to remove when the answer comes |
| CircuitFacts.RepinKeepsBoth | FlexNetCode.c:10155-10212 | whatever frame of a pinned circuit is extended, returning frames over the old and the new hop are ours afterwards, on the new port, and over another station on the old port too |
| CircuitFacts.BothHopsComeBack | FlexNetCode.c:10102-10124 | over runs: after a frame that re-pins and any traffic in which the circuit stays up, a frame returning over either hop on either port has exactly that hop removed |
| CircuitFacts.OldPortKept | FlexNetCode.c:10184-10198 | after a fresh choice the circuit returns on its old port if and only if the station changed, the port did not, or it is the one remembered from before |
| CircuitFacts.SameStationForgetsPort | FlexNetCode.c:10184-10198 | a run from an empty table in which the same station on another port makes an answer on the old port pass unrecognised |
| CircuitFacts.PinSurvivesVisit | FlexNetCode.c:10129-10152 | whatever frame is handled, a live circuit whose hop is up keeps both hops and both ports |
| CircuitFacts.PinSurvivesRun | FlexNetCode.c:10129-10152 | the same over any run in which the circuit stays live and its hop up |
| CircuitFacts.LeavesOnRecordedPort | FlexNetCode.c:10283-10319 | an extended frame that no circuit claims as a returning one leaves on exactly the port its circuit records for the answer, or on the arrival port if that port does not exist or the arrival port does not digipeat |
| TransitFacts.StaysOnItsPort | FlexNetCode.c:10283-10293 | without cross-port routing no frame changes ports unless an external station is among its stations |
| TransitFacts.LeavesTowardStation | FlexNetCode.c:10009-10022 | a frame that no circuit knows and that is not extended, for it names another node next, has no known route, or has DEST on the port it came in on, leaves on the port declared for the external station it goes to, else on that of the FlexNet neighbour it goes to, else on the one it came in on |
| CircuitFacts.ContractedGoesBack | FlexNetCode.c:10295-10319 | a contracted frame leaves toward the port its circuit's forward frames come in on: without change if it came in there, and on that port if ports may be crossed, it exists and the arrival port digipeats |
| CircuitFacts.FirstDigiGoesBack | FlexNetCode.c:10295-10319 | so does an answer at the node next to its sender, which has nothing to contract |
| CircuitFacts.AdjacentIsNoted | FlexNetCode.c:10260-10277 | a frame whose DEST is adjacent on another port leaves on that port and its circuit records it for the answers, unless every slot holds a live circuit |
| L2Node.TransitNode.L2Transit | FlexNetCode.c:10338-10461 | on any bytes, in place: without a complete address field and control byte nothing changes; otherwise buffer, table, outcome and port are those of the specification for the frame in the buffer |
| L2Node.TransitNode.Contract | FlexNetCode.c:10102-10124 | in place: contracts and refreshes the circuit exactly when the specification does |
| L2Node.TransitNode.ExtendFrame | FlexNetCode.c:10155-10212 | in place: appends the hop and pins, re-pins or creates the circuit |
| L2Node.TransitNode.PickNext | FlexNetCode.c:10129-10152 | the pinned hop or a fresh choice |
| L2Node.TransitNode.RecordAdjacent | FlexNetCode.c:10260-10277 | in place: the circuit of a frame whose DEST is adjacent |
| L2Node.TransitNode.SelectPort | FlexNetCode.c:10283-10319 | the transmit port, circuit tables touched as look-ups do |
| L2Node.TransitNode.ForwardFrame | FlexNetCode.c:10338-10461 | the forward half of a transit node on bytes and slots |
| L2Node.TransitNode.SeenBefore | FlexNetCode.c:9895-9901 | our call repeated earlier in the chain is recognised |
| CompactCodec.CompactRoundTrip | FlexNetCode.c:7547-7707 | a frame packed from any list of valid records is classified COMPACT and parses back to that list in order, costs above 4095 as 4095 |
| CompactCodec.ExactCostsSurvive | FlexNetCode.c:8313-8330 | lists whose costs are at most 4095 or a withdrawal come back unchanged |
| WireFacts.FrameTypes | FlexNetCode.c:7547-7621 | which frames are taken for which of the twelve types, each by its own bytes, whatever the order of the tests |
| WireFacts.RecordBytes | FlexNetCode.c:8313-8330 | a record is six characters of call, two SSID characters from '0' on, the cost in decimal, at most 4095 unless a withdrawal, and a space |
| WireFacts.BuiltFramesClassified | FlexNetCode.c:4767-4844 | path requests and replies we build are classified as such |
| WireFacts.SsidBytes | FlexNetCode.c:7660-7700 | any byte reads as an SSID: below '0' and above 127 as 0, above '?' as 15 |
| CompactCodec.WithdrawnBatch | FlexNetCode.c:7628-7707 | records followed by '-' before the line end are read as withdrawals, whatever costs they carry |
| CompactCodec.ParseCompact | FlexNetCode.c:7628-7707 | the parser's loops compute the record list, for any bytes |
| PathCodec.ParsePathFrame | FlexNetCode.c:4698-4765 | the parser's loops compute kind, QSO number, trace mark, hop count, origin and names, for any bytes |
| PathCodec.BuildReply | FlexNetCode.c:4810-4844 | the builder's loop computes the reply frame or fails for want of room |
| PathCodec.QsoRoundTrip | FlexNetCode.c:4767-4808 | the QSO field carries the number modulo 100000 and the trace mark |
| WireFacts.TraceMark | FlexNetCode.c:4767-4800 | the trace mark adds 0x40 to the first of the five characters of the QSO field and changes nothing else |
| WireFacts.QsoIsFirstNumber | FlexNetCode.c:4712-4723 | whatever stands in the field, the QSO number is that of its first run of digits |
| WireFacts.NamesAreShort | FlexNetCode.c:4730-4760 | names read off a frame have one to nine characters, none of them a space, a carriage return or a NUL, and there are at most sixteen after the origin |
| WireFacts.NameReadWhole | FlexNetCode.c:4738-4744 | such a name, followed by one of those or by nothing, is read whole |
| WireFacts.BuiltWhen | FlexNetCode.c:4767-4844 | a request is built exactly when it fits, a reply exactly when it names one to sixteen nodes and fits with a byte to spare |
| PathCodec.RequestRoundTrip | FlexNetCode.c:4698-4808 | a request that fits parses back to what was asked |
| PathCodec.ReplyRoundTrip | FlexNetCode.c:4698-4844 | a reply that fits parses back to its chain |
| PathForward.ForwardPathReq | FlexNetCode.c:5252-5369 | the forwarding loop computes the frame sent on, or declines |
| PathForward.ForwardsWhen | FlexNetCode.c:5252-5369 | a node forwards exactly when it may, has a next hop other than the asker that is not in the chain, and there is room for another hop |
| PathForward.ForwardedReads | FlexNetCode.c:5252-5369 | the forwarded frame parses to the same origin, target, QSO number and trace mark with one new hop before the target and a hop count one higher; a hop byte of 255 wraps, and one below 0x20 reads as zero |
| PathForward.ForwardedFits | FlexNetCode.c:5326-5352 | for any names the forwarder refuses for want of room exactly what does not fit 256 bytes with one to spare |
| PathForward.ForwardKeepsDistinct | FlexNetCode.c:5252-5369 | a chain without repetition stays so |
| PathForward.TraversalEnds | FlexNetCode.c:5252-5369 | for any network and any tables a traversal is handed on at most fourteen times; what arrives has the origin, target, QSO number and trace mark of what was sent, one more name and one more in the hop count for each hand-over, and distinct names if they were |
| LinkTime.LinkTimer.Sample | FlexNetCode.c:8212-8242 | one measurement is used at most once and folded into filter and reported time, an implausible one thrown away |
| LinkTime.ElapsedSurvivesWrap | FlexNetCode.c:8212-8224 | the measurement is the time that passed even when the 32-bit clock wrapped in between |
| LinkTime.SmoothedIsPlausible | FlexNetCode.c:8218-8231 | only measurements of 1 to 6000 ticks are used, and the smoothed value stays in that range |
| LinkTime.NeverWraps | FlexNetCode.c:8225-8242 | no step of the 32-bit arithmetic wraps, and the reported time stays at or below 600 |
| LinkTime.StaysInRange | FlexNetCode.c:8225-8242 | over any run the smoothed value stays within the range of the samples seen, the reported time in 1..600 |
| LinkTime.SettlesOnConstant | FlexNetCode.c:8225-8242 | under a constant sample x the filter, fresh or not, reaches and stays in [x-3, x] and reports within one tick of x |
| ClimbGuard.ClimbIsLoop | FlexNetCode.c:8626-8662 | the guard's three in/out parameters and verdict, assignment by assignment |
| ClimbGuard.FloorIsCheapest | FlexNetCode.c:8626-8662 | in any run the floor is the minimum of the finite costs judged |
| ClimbGuard.WithdrawsOnThirdRise | FlexNetCode.c:8640-8662 | the guard withdraws if and only if a cost of four times the floor or more is the third or a later strict rise in a row, infinite costs not counting |
| ClimbGuard.StretchLetsTwoThrough | FlexNetCode.c:8626-8662 | while finite costs only rise, at most two of four times the floor or more are let through before a withdrawal |
| ClimbGuard.PlateauIsLetThrough | FlexNetCode.c:8640-8649 | the rises have to be strict: a cost that stays at four times the floor is let through any number of times |
| ClimbGuard.SilentUntilCredible | FlexNetCode.c:8626-8662 | after a withdrawal every finite cost is suppressed until one falls below four times the floor, which does not move |
| ClimbGuard.CredibleCostSpeaks | FlexNetCode.c:8626-8662 | such a cost ends the silence at once |
| ClimbRuns.GuardGuardsTheTable | FlexNetCode.c:9013-9068 | over any run of checks and drains a destination known by hearsay keeps as floor the cheapest cost judged for it, and while its guard is shut no finite cost for it waits to be sent |
| TableFacts.PenaltyIsNotJudged | FlexNetCode.c:9020-9032 | the climb guard judges costs without the '+' penalty: moving a told destination on or off a penalised link changes neither verdict nor memory |
| World.ExpectedIsMinimum | FlexNetCode.c:8516-8596 | the result is exactly the minimum over the permitted sources, attained by the first of them, infinite if there is none or for the neighbour's own call |
| Offers.ExpectedFromTables | FlexNetCode.c:8516-8596 | the result read off the tables: the least over the first entries of other active sessions, on the same port unless routes cross ports, not withheld by the link's options, of reported cost plus link time of at least a tick plus 2000 on a penalised link, capped at 59999; its source, direct mark and penalty are those of such an entry, and no earlier session has one as cheap |
| World.ExpectedIgnoresPeersTable | FlexNetCode.c:8541-8543 | what a neighbour is told does not depend on what it taught us |
| World.OptionsOnlyNarrow | FlexNetCode.c:806-823 | adding link options to any links never lowers a result and never makes an unreachable destination reachable |
| Offers.NoBehindSparesNeighbours | FlexNetCode.c:803-810 | adding NoBehind to any links that list a destination as their neighbour's own changes nothing in what anybody is told of it |
| Offers.NoNeighbourSparesOthers | FlexNetCode.c:803-810 | adding '-' to any links that do not list it so changes nothing either |
| Offers.HeldBack | FlexNetCode.c:803-810 | a destination listed only as a neighbour's own by links with '-', or only as one behind by links with NoBehind, is told to nobody |
| FlexNodes.FlexNode.ExpectedRtt | FlexNetCode.c:8516-8596 | the nested scan over sessions and learned tables computes that minimum |
| FlexNodes.FlexNode.OfferFrom | FlexNetCode.c:8556-8588 | the inner scan: what one session offers, link time and options counted |
| DestRuns.IncrementalIsRecomputed | FlexNetCode.c:7742-8038 | over any run of records, neighbours' own entries, session losses and starts, link-time samples and option changes, every row holds after every event the minimum cost from here over all active sessions, infinite exactly when nobody offers the destination, if and only if every event passes its guard |
| DestRuns.EventKeepsMinimal | FlexNetCode.c:7914-8038 | from a minimal table every row holds that minimum after the event if and only if its guard, a test on the tables before it, holds; then each finite row is also what its next hop offers |
| DestRuns.EventKeepsFrame | FlexNetCode.c:7742-8038 | every event, whether it passes its guard or not, leaves each learned destination with a row and no two rows for one destination, case ignored |
| Offers.RecomputedFromTables | FlexNetCode.c:7816-7834 | what rows are compared with, read off the tables: the least over the first entries of active sessions of reported cost, 2000 on a penalised link, and link time, capped at 59999 |
| DestTable.MergeKeepsMinimal | FlexNetCode.c:7914-8038 | after a record every row holds the minimum if and only if the record is ignored, or takes over and makes no row, or is learned under exactly the key of the row it takes or makes, or is a withdrawal that is not learned |
| TableFacts.MergeReports | FlexNetCode.c:7914-8038 | a record changes at most the first row of its call, case ignored, and SSID range, or adds one; the result code says which, and 0 that nothing has changed |
| TableFacts.MergeWithoutTransit | FlexNetCode.c:7969-8038 | with transit off nothing is learned, and a row follows its next hop or whoever offers it for strictly less seen from here |
| DestRuns.OtherSpellingTakesOver | FlexNetCode.c:7730-7757 | a run that misses that guard: the same call in small letters takes a row over for a neighbour that offers nothing under its spelling |
| DestTable.CloseKeepsMinimal | FlexNetCode.c:3282-3292 | losing a session keeps every row minimal over the sessions left |
| TableFacts.CloseLeavesNoOrphans | FlexNetCode.c:7903-7912 | after a session is closed no row is routed through it and no finite row is without a next hop, whatever the rows were and with transit on or off |
| TableFacts.EventKeepsPorts | FlexNetCode.c:7742-8038 | every event keeps the port of each finite row that of its next hop, a session that is up |
| DestTable.OpenKeepsMinimal | FlexNetCode.c:3148-3210 | after a session has started every row holds the minimum if and only if the learned table it takes over, if any, offers nothing cheaper |
| DestTable.ReelectedIsMinimal | FlexNetCode.c:7845-7897 | re-election finds the cheapest offer and keeps the incumbent on a tie |
| DestRuns.IncumbentStays | FlexNetCode.c:7845-7897 | after any event that passes its guard a next hop that still makes the cheapest offer is kept |
| DestTable.SampleKeepsRow | FlexNetCode.c:8212-8242 | after a link-time sample a row holds the minimum if and only if its next hop is still cheapest: at its new link time if it is the one sampled, otherwise against the one sampled |
| DestTable.SampleKeepsMinimal | FlexNetCode.c:8212-8242 | every row holds the minimum after it if and only if every row passes that comparison |
| DestRuns.SlowerLinkStays | FlexNetCode.c:8212-8242 | a run from empty tables that misses it: two neighbours, one destination, one slower link |
| DestTable.OptsKeepMinimal | FlexNetCode.c:4019-4049 | after a change of link options every row holds the minimum if and only if every row passes its comparison: a row through the link is moved without loss and stays cheapest, and for any other the link offers nothing cheaper |
| DestTable.ShiftedCost | FlexNetCode.c:4031-4049 | the moved cost is what the link offers under its new options if and only if no '+' is taken from a cost that was cut short at the largest finite one; then it is too low |
| DestRuns.PenalisedLinkStays | FlexNetCode.c:4031-4049 | a run from empty tables that misses it: two neighbours, one destination, a '+' for the one in use |
| DestTable.FlagKeepsMinimal | FlexNetCode.c:2905-2922 | marking a neighbour's own entry as direct changes no offer |
| FlexNodes.FlexNode.DestReelect | FlexNetCode.c:7845-7897 | in place: the row re-election names |
| FlexNodes.FlexNode.DestReelectVia | FlexNetCode.c:7903-7912 | in place: re-elects exactly the rows through the session and the orphans |
| FlexNodes.FlexNode.LearnedAdd | FlexNetCode.c:7742-7814 | in place: the learned table afterwards, and every other live neighbour told of a change, and only of a change |
| TableFacts.LearnedStaysUnique | FlexNetCode.c:7742-7814 | a record leaves at most 256 entries, one per destination: its own gets the new cost or is added while there is room, and no other entry changes |
| FlexNodes.FlexNode.DtableMerge | FlexNetCode.c:7914-8038 | in place: both tables and the result code of the specification, the other neighbours told through the new offers |
| FlexNodes.FlexNode.CloseSession | FlexNetCode.c:3244-3303 | in place: rows re-chosen without the lost session and every other neighbour's queue as after the poison walk |
| FlexNodes.FlexNode.OpenSession | FlexNetCode.c:3147-3238 | in place: the first free slot starts over with its advertised table empty and INIT and keepalive out; its learned table is empty, or the one the same neighbour left within ten minutes, moved from whatever slot held it |
| FlexNodes.FlexNode.FindAdoptable | FlexNetCode.c:1487-1541 | the search for that table: the first idle slot, its own included, with a table of that call that is not too old |
| NodeFacts.AdoptionRule | FlexNetCode.c:1487-1541 | it takes over the first table of that call, case ignored, that is not empty, in its own or an idle slot, and not more than 600 s old; it starts empty only if there is none |
| NodeFacts.OwnerMovesAlong | FlexNetCode.c:1525-1541 | the table's owner and the link time last announced move with it |
| NodeFacts.FirstSlotTaken | FlexNetCode.c:3147-3155 | a session takes the first free slot |
| TableFacts.TablesMoveWhole | FlexNetCode.c:1525-1541 | a session starts with the very table its neighbour left, which is then nowhere else, or with none; no other table moves |
| FlexNodes.FlexNode.LocalCovers | FlexNetCode.c:1941-1952 | the loop over the local calls decides whether one covers a destination |
| TableFacts.LocalsAreNotLearned | FlexNetCode.c:1941-1952 | a record that takes in one of our local calls teaches nothing and makes no row; any other with a cost and a call is learned while there is room |
| FlexNodes.FlexNode.EnterNeighbour | FlexNetCode.c:2857-2931 | in place, once a session: the neighbour's own entry, its SSID range from the INIT or from what its last session left, is merged at cost 1, the others are told, and it is flagged as direct |
| TableFacts.NeighbourKeyNames | FlexNetCode.c:2857-2904 | the neighbour's entry is under its callsign and names its SSID, up to the highest its INIT declares, or as far as the first direct entry its last session left does; so the node takes it for that neighbour's own |
| FlexNodes.FlexNode.NotePeerEstablished | FlexNetCode.c:2933-2944 | in place: a session inferred from traffic on a connected link gets that entry, once |
| FlexNodes.NeighbourIsWalked | FlexNetCode.c:2905-2922 | that entry is then learned as direct at cost 1 and the walk over direct neighbours visits it |
| PeerSlots.PeerSlot.Decide | FlexNetCode.c:8827-9116 | the ladder of early returns, hold-down, guard and threshold, in place on the table, is the decision rule |
| PeerSlots.PeerSlot.Check | FlexNetCode.c:8806-9116 | the gates before the ladder: closed exchange, transit off, empty call, our own record |
| FlexNodes.FlexNode.AdvertiseCheck | FlexNetCode.c:8806-9116 | one check with its cost, echo and option look-ups made on the node's tables |
| Horizon.HeldRoutesAreNotTold | FlexNetCode.c:8827-8954 | on the node's tables: for a destination the neighbour itself has taught us and that is no neighbour's own callsign, or that is not offered as a direct neighbour in the narrow scope, a check queues nothing new and replaces a cost that was told by its withdrawal |
| Horizon.NeighboursAreNoEcho | FlexNetCode.c:8882-8898 | a destination that is some neighbour's own callsign is decided without regard to what the neighbour asking has taught |
| Horizon.OwnOnlyTellsNothing | FlexNetCode.c:8838-8862 | on a '=' link every cost that was told is withdrawn and nothing else is left queued |
| Horizon.RoutesAreTold | FlexNetCode.c:8827-9116 | a route that none of these holds back is told: a forced check leaves its record queued if and only if it is not held down and has an entry or one of 256 free |
| Advertise.CheckedOk | FlexNetCode.c:8806-9116 | a check keeps costs in range, one entry per destination, and what was last sent; a withdrawal is queued only for a destination sent before |
| Advertise.BarredQueuesNoCost | FlexNetCode.c:8838-8954 | a check of a destination barred by '=', by destination-level split horizon or by scope never queues or refreshes a finite cost |
| Advertise.ForcedIsQueued | FlexNetCode.c:8682-9116 | a forced check leaves a record queued if and only if the destination was told, or may be offered, is not held down and has an entry or one of 256 free for it, or, being neither, kept the record it had; the record carries the cost, or the withdrawal if the guard distrusts it |
| FullAnswer.WalkQueues | FlexNetCode.c:9289-9325 | a forced walk over a destination that may be offered and is not held down queues its record if and only if it has an entry, or one of 256 is free where the walk first reaches it |
| FullAnswer.AnswerIsComplete | FlexNetCode.c:3541-3596 | a '3+' leaves nothing out but what finds the table full: every destination with a permitted route that may be told on the node's tables and is not held down has its record sent or queued after the request if and only if it has an entry then, and one without an entry found all 256 in use |
| Advertise.DeadBand | FlexNetCode.c:9013-9116 | for a destination told a cost, what the climb guard makes of the new one, that cost or a withdrawal, is queued exactly when it differs by a tick and a tenth or something was queued already, which it replaces; a suppressed cost leaves nothing queued |
| BarredRuns.BarredIsRetractedOnce | FlexNetCode.c:8838-8954 | over any run a destination that stays barred, with no cost queued at the start, gets at most one record, its withdrawal |
| Advertise.LostSourceIsWithdrawn | FlexNetCode.c:8988-9116 | with no source left a told destination has its withdrawal queued if and only if something was queued, the check is forced, or the last cost told is at most 54546; nothing else is queued |
| Advertise.UntoldIsLeftAlone | FlexNetCode.c:8838-8996 | with no source left the entry of a destination not told or already withdrawn is left as it is; on a '=' link what was queued for it is dropped |
| Advertise.QueuedCostOutlivesItsRoute | FlexNetCode.c:8860-8996 | a queued cost stays queued when its route goes or may not be told any more, if and only if the destination was not told a finite cost and the link has no '=' |
| Limits.CostSentWithoutRoute | FlexNetCode.c:8988-8996 | a run from an empty account in which such a cost, queued behind a dry bucket, is sent after its only source is lost |
| Drain.FramesCarryTheQueue | FlexNetCode.c:9172-9219 | every frame fits 200 bytes and the family's record limit, none is empty, together they carry the queued records in order, each once; draining stops only for want of a token or of records |
| Drain.FrameFits | FlexNetCode.c:9172-9213 | an empty frame takes at least one queued record, so the branch for a record that cannot be encoded is never taken |
| Drain.FrameIsGreedy | FlexNetCode.c:9183-9213 | a frame ends only when it has all its records, the queue is through, or the next queued record would not fit |
| Drain.DrainConserves | FlexNetCode.c:9122-9265 | every queued record is afterwards still queued unchanged or sent exactly once with its queued value and committed; the '3-' goes out only with an empty queue, no frame in this pass, two refill intervals after it emptied |
| PeerSlots.PeerSlot.FillFrame | FlexNetCode.c:9183-9213 | the inner loop, first pending entry by first pending entry, packs and commits exactly the records the specification names; it ends, and its unencodable branch is dead |
| PeerSlots.PeerSlot.SendFrames | FlexNetCode.c:9172-9219 | the outer loop spends one token a frame and puts exactly those frames' bytes on the wire |
| PeerSlots.PeerSlot.Drain | FlexNetCode.c:9122-9265 | in place: table, tokens, clocks, quiescing and bytes sent are those of the specification |
| AdvRuns.RecordsKeepTheirWord | FlexNetCode.c:8956-8986 | over any run of checks and drains no withdrawal precedes a finite record of its destination, and no finite record follows a withdrawal within 90 s unless a direct neighbour's record for it went out since or is the record itself |
| AdvRuns.DrainKeepsAccount | FlexNetCode.c:9201-9209 | a drain commits exactly what it logs, so the table always remembers the last record sent per destination |
| AdvRuns.TokenBucketBound | FlexNetCode.c:9132-9219 | in any stretch of a run the record frames number at most bucket size plus time over refill interval, from any state |
| Limits.DirectRecordEndsHoldDown | FlexNetCode.c:8956-8986 | without its exception the hold-down claim, that a finite record within 90 s of a withdrawal is a direct neighbour's, is false: a run of four records in thirty seconds |
| Limits.HeldDownUnlessBypassed | FlexNetCode.c:8956-8986 | over any run that claim holds if and only if no hearsay record follows a withdrawal within 90 s with a direct neighbour's finite record of the destination sent in between |
| Limits.HoldDownGuard | FlexNetCode.c:8966-8985 | the guard behind it: a hearsay cost is held down if and only if the last record sent for its destination is a withdrawal less than 90 s old, and then nothing is left queued |
| PeerRuns.QuietOnceAnswered | FlexNetCode.c:9167-9265 | over any session, after the '3-' owed to a PC/Flexnet neighbour no compact frame goes out until it asks again, its INIT is answered or its link restarts; the '3-' comes two refill intervals after the last drained record |
| Answers.AnswersStayWhole | FlexNetCode.c:4389-4408 | over any session with transit on, no '3-' of the 120 s refresh or the initial advertisement goes out between a '3+' and the '3-' owed to it, unless the table was cleared |
| Handshake.AnsweredWhen | FlexNetCode.c:2813-2820 | over any session an INIT is answered with one of ours if and only if an earlier sign of life established the session and our last INIT is 60 s old |
| Handshake.StepInits | FlexNetCode.c:2813-2820 | one event at whatever time the clock shows: the guard is also over when the clock was set back |
| Handshake.AnswersAreSpaced | FlexNetCode.c:2805-2820 | two INITs sent in answer are 60 s apart or more, so two nodes cannot keep answering each other |
| Sessions.SessionSays | FlexNetCode.c:3313-3613 | over any session, what an event makes us say besides learned records and the owed '3-' is determined by the events before it and by what has gone out: keepalives, link times, our record with its '3-' at the start and every 120 s, INITs, restarts; and the session's fields mirror it |
| Sessions.HeardIsIntroduced | FlexNetCode.c:3420-3498 | a session that has been heard of has our record after an INIT, a '3+', a keepalive, or, with transit on, the timer's turn |
| Sessions.LinkTimesSpaced | FlexNetCode.c:8179-8210 | link times go out 20 s apart or more, whatever the neighbour sends |
| Progress.NothingWaitsNeedlessly | FlexNetCode.c:9122-9265 | over any session with transit on, a record queued while the exchange is open waits for nothing but a token after every event; no record sent or queued names our own callsign with an SSID of ours |
| Progress.OursNamesUs | FlexNetCode.c:8468-8478 | the test for our own callsign is whether the ranges have an SSID in common |
| Progress.OwedMarkGoesOut | FlexNetCode.c:9221-9265 | an owed '3-' goes out: with nothing left to send, at the first of the timer's turns that comes ten seconds (four for (X)Net) after another |
| PeerRuns.StepKeeps | FlexNetCode.c:4389-4435 | every event of a session keeps the invariant behind that, and the order of its table |
| PeerRuns.OnRequestKeeps | FlexNetCode.c:3541-3596 | so does a '3+', if its link is connected or the session established |
| PeerRuns.OnInitKeeps | FlexNetCode.c:3351-3438 | so does an INIT, answered or not |
| PeerRuns.OnKeepaliveKeeps | FlexNetCode.c:3440-3498 | so does a keepalive |
| PeerRuns.OnTimerKeeps | FlexNetCode.c:4389-4435 | so does the timer: the 120 s refresh, the late initial advertisement, the drain |
| Limits.RequestsNeedTheLink | L2Code.c:2199-2207 | the silence rests on the link layer, which hands over frames only from links in state 5 and above: were a '3+' taken from any other link, a compact frame could follow in a closed exchange after a new handshake |
| Ledger.SessionKeepsItsWord | FlexNetCode.c:8956-8996 | over any session the records its frames carried since its table was cleared have both properties of a run of checks and drains |
| Ledger.SessionKeepsToTheBucket | FlexNetCode.c:9132-9219 | in any stretch of a session in which the family stays, the drained record frames number at most one bucket, and another for each time the table is cleared, plus time over refill interval |
| Routing.LossIsAnnounced | FlexNetCode.c:9353-9394 | after a session is lost every active neighbour open to records that was told a cost of at most 54546 for a destination learned there, with no source left for it, has the withdrawal queued or sent |
| Routing.LossIsNotNoise | FlexNetCode.c:8988-8996 | a neighbour that was not told gets no withdrawal queued |
| Routing.OthersStayInOrder | FlexNetCode.c:9353-9394 | what records and losses at one session do to another neighbour is an ordinary change event, so everything kept over whole sessions is kept across them |
| FlexNodes.FlexNode.PoisonSession | FlexNetCode.c:9353-9424 | in place: the walk over the lost session's table and all neighbours, then the drains; the lost neighbour's table is cleared |
| FlexNodes.FlexNode.WalkForPeer | FlexNetCode.c:9289-9325 | the nested walk checks exactly the other sessions' destinations in order and counts those walked and newly queued |
| TableFacts.WalkVisits | FlexNetCode.c:9289-9325 | the walk for a neighbour visits exactly what other active sessions have taught, all of it or what is marked as direct |
| FlexNodes.FlexNode.SeedPeer | FlexNetCode.c:9445-9464 | the initial advertisement's walk and drain |
| FlexNodes.FlexNode.AdvertiseNeighbours | FlexNetCode.c:9473-9498 | the refresh of direct neighbours |
| FlexNodes.FlexNode.RequestReceived | FlexNetCode.c:3541-3596 | in place: a '3+' establishes the session if it can, with the neighbour's own entry, reopens the exchange, sends our record, walks the whole table, owes the '3-' and drains |
| FlexNodes.FlexNode.InitReceived | FlexNetCode.c:3351-3438 | in place: an INIT with its SSID, the neighbour's own entry, the answer under the 60 s guard and the initial advertisement |
| FlexNodes.FlexNode.KeepaliveReceived | FlexNetCode.c:3440-3498 | in place: a keepalive, the neighbour's own entry if it establishes the session, its shape, its echo, our link time under its rate limit, and the initial advertisement |
| FlexNodes.FlexNode.LinkTimeReceived | FlexNetCode.c:3500-3531 | in place: a link time, the neighbour's own entry if it establishes the session, the new link time of the measurement it ends with its re-walk for the other neighbours, and our link time under its rate limit |
| FlexNodes.FlexNode.TakeSample | FlexNetCode.c:8239-8279 | in place: the session's link time, and, when it has left its anchor by a tick, the anchor and every other neighbour's queue after all destinations learned here have been decided again |
| NodeFacts.AnchorIsLatest | FlexNetCode.c:8252-8279 | with transit on the others are told again of everything learned over a link exactly when its link time differs from the one they were last told with |
| FlexNodes.FlexNode.RewalkOthers | FlexNetCode.c:8264-8273 | the nested walk, neighbours outside and learned destinations inside, a drain after each neighbour |
| FlexNodes.FlexNode.LinkOptsChanged | FlexNetCode.c:4019-4071 | in place: the options, the rows through the link moved by the penalty, the re-walk for the other neighbours, and this neighbour's whole walk and drain when '=' came or went |
| FlexNodes.FlexNode.TimerTurn | FlexNetCode.c:4353-4435 | in place: keepalive and link time, 120 s refresh, late initial advertisement and drain, in that order and under those gates |
| FlexNodes.FlexNode.LinkRestarted | FlexNetCode.c:2975-3008 | in place: a link restart releases a closed exchange and clears the table, and does nothing otherwise |
| FlexNodes.FlexNode.InitAgain | FlexNetCode.c:3029-3080 | in place: a new handshake on a link with a session resets it only if it was not established |

## Left out

- Advertise.LostSourceIsWithdrawn: above 54546 the code does not queue the withdrawal, because the distance to 60000 stays under a tenth of the cost; the lemma states the exact bound. Costs a neighbour can represent stop at 4095.
- PeerRuns.QuietOnceAnswered: for frames taken from connected links, the only ones the link layer hands over (L2Code.c:2199-2207); the link layer itself is not modelled, and `Limits.RequestsNeedTheLink` shows that the condition is needed.
- DestRuns.IncrementalIsRecomputed: transit on, and options change on links whose link time is below the penalty of 2000, as every reported one is (`LinkTime.StaysInRange`).
- ChainRuns.AnswerComesBack: the circuit's liveness and the session of its hop are assumed at every frame in between, since `CircuitFacts.PinSurvivesRun` is about circuits that stay up; a closed or evicted circuit forgets its hops.
- PeerSlots.PeerSlot.Drain: tokens are real numbers instead of `double`; rounding is not modelled.
- Bytes and layout of our own record frame with local calls, of INIT, keepalive and link-time frames: only that they are sent, and when.
- Whether a link is connected, whether a keepalive is due or to be echoed, and the port and station properties of the L2 node: parameters of the operations.
- Migration of link pointers, the reaper's grace period, and how local calls come to be bound.
- `via_callsign`, timestamps of rows, the path cache, diagnostics, counters, configuration parsing, the console and the log.
- Callsign conversion between AX.25 and text: the tables of the routing part hold text, the L2 part shifted bytes.
- The search for our call in a received frame, which names the entry the L2 node starts from.
- Exhaustion of message buffers; the queues of the link layer below `flex_send_frame`.
- Relaying of path replies, deferred path requests and probes, NET/ROM CF forwarding, L3RTT and `flexnet_l3.c`.
