# Vanetza: a verified model of its stateful core

Vanetza is an implementation of the ETSI C-ITS protocol stack. This project models the parts of it in
which state, time and order matter most, and proves what they promise over whole runs:

- the **contention buffer** (CBF packet buffer) together with its counters and the timer runtime: a packet
  list, a timer relation, a byte budget, a counter table and one pending flush that have to fit together
  after every interleaving of add, remove, update, fetch and time passing;
- **decentralised congestion control**: the prioritised flow control, the burst budget, the LIMERIC
  controller and its gate, and the two reactive state machines;
- **bounded memories**: the memory of broadcast packets and the LRU cache, both refining one function of
  their access history;
- **parsers**: TCP framing and the country data reader (OGC Well-known Binary, OGC 06-103r4 clause 8);
- **folds over histories**: trust list chains (section 6.3.4 of ETSI TS 102 941 v1.4.1), aggregation of
  channel busy ratios (section 5.2.2 of ETSI TS 102 636-4-2 V1.1.1) and the concise path history.

Each component has the same shape. A state datatype and functions on it say what every operation computes.
A class with the fields of the original performs the operations step by step, in loops and in place, and is
proved to compute just these functions. Lemmas then state what the functions mean: invariants of every
reachable state, independent reference definitions, round trips, bounds and their sharpness.

| files | component |
|---|---|
| `Runtime`, `CbfCounter`, `CbfModel`, `CbfProofs`, `CbfRuns`, `CbfEffects`, `CbfItems`, `CbfLifetimes`, `CbfTrigger`, `CbfPacketBuffer` | contention buffer on the timer runtime |
| `FlowModel`, `FlowRuns`, `FlowList`, `FlowDelays`, `FlowGates`, `FlowStale`, `FlowControl` | DCC flow control |
| `BurstBudget`, `Limeric`, `LimericBudget`, `FullyMeshed`, `Gradual` | DCC rate control |
| `Recency`, `Resizing`, `GbcMemory`, `LruCache` | bounded memories |
| `Bytes`, `TcpLink`, `CountryModel`, `CountryProofs`, `CountryFiles`, `CountryFailures`, `CountryReader` | stream and binary parsers |
| `TrustModel`, `TrustProofs`, `TrustListProcessor` | trust list chains |
| `CbrModel`, `CbrAggregator` | channel busy ratio aggregation |
| `PathHistory` | path history |
| `Sequences`, `Numbers`, `UnitIntervals` | shared definitions |

Modelling decisions:

- Time points and durations are unbounded integers, channel loads and duty cycles real numbers. The clock never
  goes back. Digests, identifiers, packets and the rate control behind the flow control are arbitrary values or
  parameters.
- Iterators and list nodes are numbers that are never reused, so "the same entry" is a matter of identity.
- Callbacks and hooks are recorded in a log or collected in order.
- Three things that one might expect do not hold. Each has a run that shows it and the exact condition under which it
  does hold:
  - The pending flush of the contention buffer is not always in time, because an update of a buffered packet does not
    move it: `CbfRuns.LateFlushIsReachable`. It is in time throughout a run if and only if no update moves an expiry
    before it: `CbfRuns.TimelyIffNeverHurries`.
  - The burst budget of capacity N admits up to 2N - 1 packets in one burst period: `BurstBudget.WindowBoundIsSharp`.
    It admits at most N for every client if and only if N is one: `BurstBudget.CapacityIsBoundIffOne`.
  - The flow control can send a queued packet ahead of its time. A trigger sends a packet with a positive delay if and
    only if every packet it could have chosen has to wait: `FlowDelays.TriggeredDelay`. Behind a gate that is closed
    until transmissions so far let it open, triggers are scheduled for the opening, and they stay in time if and only
    if no packet is sent while another trigger is pending for before the gate opens again:
    `FlowGates.OnTimeIffNeverOvertakes`. An expired packet leaves such a second trigger behind; in
    `FlowStale.StaleTriggerSendsEarly` both are due at the opening, the first one sends a packet in time and closes the
    gate for k, and the second one sends the next packet although it has to wait for this k.

Private and elementary methods of the classes (counters, the steps of the budgets and of the LIMERIC controller, the
totals of the aggregator) are proved against the function that specifies them and have no row of their own below.

## Model

| member | source | states |
|---|---|---|
| `Runtime.ManualRuntime.Schedule` | vanetza/common/manual_runtime.cpp:11-19 | a callback is queued in front of the first one with a later deadline, so behind all with the same |
| `Runtime.ManualRuntime.Cancel` | vanetza/common/manual_runtime.cpp:21-27 | exactly the callbacks of one owner disappear, the others keep their order; the null owner cancels nothing |
| `Runtime.ManualRuntime.Next` | vanetza/common/manual_runtime.cpp:29-36 | the next deadline is the earliest one queued |
| `Runtime.Rescheduled` | vanetza/common/manual_runtime.cpp:11-27 | after cancelling and scheduling anew an owner has this one callback pending, every other owner still has its own ones, and the queue stays in deadline order |
| `Runtime.CancelledPending` | vanetza/common/manual_runtime.cpp:21-27 | cancelling leaves nothing pending for the owner and everything for others; the null owner cancels nothing |
| `Runtime.SchedulingPast` | vanetza/common/manual_runtime.cpp:11-19 | a callback that is not earlier than a whole prefix of the queue is inserted behind this prefix |
| `CbfPacketBuffer.PacketBuffer.constructor` | vanetza/geonet/cbf_packet_buffer.cpp:51-56 | a new buffer is empty and satisfies the whole invariant |
| `CbfPacketBuffer.PacketBuffer.Add` | vanetza/geonet/cbf_packet_buffer.cpp:92-124 | keeps the whole invariant; head drop, duplicate detection, byte budget, counter and flush end up as specified, also when a duplicate makes others drop |
| `CbfPacketBuffer.PacketBuffer.MakeRoom` | vanetza/geonet/cbf_packet_buffer.cpp:98-105 | the head drop loop yields the specified state without the byte count ever going below zero |
| `CbfPacketBuffer.PacketBuffer.Remove` | vanetza/geonet/cbf_packet_buffer.cpp:63-80 | the packet leaves list, timers, counters and byte count together; the answer says whether there was one; the flush moves if it was the earliest |
| `CbfPacketBuffer.PacketBuffer.RemoveTimer` | vanetza/geonet/cbf_packet_buffer.cpp:82-90 | the flush is moved exactly if the erased timer was the earliest and another one is left |
| `CbfPacketBuffer.PacketBuffer.Update` | vanetza/geonet/cbf_packet_buffer.cpp:126-137 | lifetime is charged, the timer restarted at its new place in the order and the sighting counted, without touching the runtime |
| `CbfPacketBuffer.PacketBuffer.Fetch` | vanetza/geonet/cbf_packet_buffer.cpp:139-159 | the packet leaves the buffer and is returned only if lifetime is left after the time spent in the buffer |
| `CbfPacketBuffer.PacketBuffer.Flush` | vanetza/geonet/cbf_packet_buffer.cpp:173-197 | all expired packets leave, in order of expiry, and the next flush is scheduled for the earliest one left |
| `CbfPacketBuffer.PacketBuffer.ReduceLifetimeOf` | vanetza/geonet/cbf_packet_buffer.cpp:199-203 | the time since the timer started is charged to the packet's lifetime |
| `CbfPacketBuffer.PacketBuffer.ScheduleTimer` | vanetza/geonet/cbf_packet_buffer.cpp:205-211 | the only pending flush of this buffer is the one for the earliest timer |
| `CbfPacketBuffer.PacketBuffer.Trigger` | vanetza/common/manual_runtime.cpp:43-72 | the loop that runs due callbacks one by one, with flushes rescheduling in between, terminates and has the effect of at most one flush at the new time; afterwards an expired packet is left if and only if there was one and the pending flush was not due yet |
| `CbfPacketBuffer.PacketBuffer.RunDue` | vanetza/common/manual_runtime.cpp:43-72 | one round of that loop keeps the whole invariant, so that callbacks of others may use the buffer between two of them |
| `CbfRuns.RunKeepsContainers` | vanetza/geonet/cbf_packet_buffer.cpp:63-159 | after every run, packet list and timers are the same distinct pairs of identifier and node, the byte count is the exact sum and within capacity unless a single packet is stored, at most one flush is pending and exactly one while packets are stored |
| `CbfRuns.RunKeepsBooks` | vanetza/geonet/cbf_packet_buffer.cpp:126-203 | after every run, the durations charged to a packet at each reduction add up to the time since it was stored, contending counters exist for exactly the stored packets and are one plus the updates since, immortal ones count all sightings, and packets stored minus packets gone are the packets present |
| `CbfRuns.StepInvariant` | vanetza/geonet/cbf_packet_buffer.cpp:63-211 | every operation keeps the invariant; a flush that is in time stays so if and only if the operation is not an update that moves an expiry before it |
| `CbfRuns.UpdatedInvariant` | vanetza/geonet/cbf_packet_buffer.cpp:126-137 | after an update the flush is still in time exactly if the new expiry is not before it |
| `CbfRuns.TriggeredInvariant` | vanetza/common/manual_runtime.cpp:43-72 | after advancing the clock no expired packet is left if and only if none had expired or the pending flush was due |
| `CbfRuns.TimelyIffNeverHurries` | vanetza/geonet/cbf_packet_buffer.cpp:119-211 | over every run, in which anything may happen between the callbacks of one trigger, the flush is in time after every step if and only if no update moves an expiry before it |
| `CbfRuns.NothingLeftOver` | vanetza/common/manual_runtime.cpp:43-72 | once no callback is due any more, a buffer whose flush is in time holds no expired packet |
| `CbfRuns.PunctualRun` | vanetza/geonet/cbf_packet_buffer.cpp:119-211 | runs without such updates leave no expired packet behind, neither after an undisturbed trigger nor when no callback is due any more |
| `CbfRuns.HurriedPacketIsLate` | vanetza/geonet/cbf_packet_buffer.cpp:126-137 | after any such update, a trigger between new expiry and flush leaves an expired packet in the buffer |
| `CbfRuns.LateFlushIsReachable` | vanetza/geonet/cbf_packet_buffer.cpp:126-137 | a concrete run from an empty buffer in which this happens |
| `CbfEffects.FlushHandsOver` | vanetza/geonet/cbf_packet_buffer.cpp:173-197 | the callback receives exactly the expired packets that have lifetime left, charged for their waiting time, earliest expiry first |
| `CbfEffects.FlushFollowsEarliest` | vanetza/geonet/cbf_packet_buffer.cpp:63-159 | adding, removing and fetching move the pending flush if and only if the earliest timer becomes another one, and then to its expiry; an update never moves it; callbacks of other owners stay |
| `CbfItems.StepRefinesList` | vanetza/geonet/cbf_packet_buffer.cpp:63-211 | every operation does to list, timers and packets together what it does to a plain list of packets in order of arrival, each with its own timer |
| `CbfItems.AddedItems` | vanetza/geonet/cbf_packet_buffer.cpp:92-124 | the oldest packets give way, a packet that is still there stays as it is, a new one joins as given with a timer from now on |
| `CbfItems.UpdatedItems` | vanetza/geonet/cbf_packet_buffer.cpp:126-137 | just this packet is charged for the time since its timer started, and its timer starts anew |
| `CbfItems.FetchedItems` | vanetza/geonet/cbf_packet_buffer.cpp:139-159 | the packet leaves, all others stay, and it is handed out, charged, if and only if lifetime is left |
| `CbfItems.FlushedItems` | vanetza/geonet/cbf_packet_buffer.cpp:173-197 | a flush removes exactly the packets whose timers have expired |
| `CbfLifetimes.RunChargesLifetimes` | vanetza/geonet/cbf_packet_buffer.cpp:126-203 | after every run a stored packet has the lifetime it arrived with minus all that was charged since, never below zero; at most that if writing it back loses something |
| `CbfLifetimes.FetchIffYoung` | vanetza/geonet/cbf_packet_buffer.cpp:139-159 | after every run a stored packet is handed out if and only if it is younger than the lifetime it arrived with, however often its timer was restarted, and with what is left of it |
| `CbfLifetimes.OutlivesIffYoung` | vanetza/geonet/cbf_packet_buffer.cpp:173-203 | the same decides what a flush hands over |
| `CbfEffects.HeadDropIsShortest` | vanetza/geonet/cbf_packet_buffer.cpp:98-105 | head drop removes the shortest prefix of the list that makes room, or everything if none does |
| `CbfEffects.AddedIsBuffered` | vanetza/geonet/cbf_packet_buffer.cpp:92-124 | whatever is added with a positive timeout is buffered afterwards; a new packet's timer runs from now for the timeout |
| `BurstBudget.WindowBound` | vanetza/dcc/burst_budget.cpp:28-50 | whoever sends only at zero delay sends at most 2N - 1 times in any half-open window of one burst period |
| `BurstBudget.EpochBound` | vanetza/dcc/burst_budget.cpp:28-50 | between two clears at most N sends fall into such a window |
| `BurstBudget.AdjacentBound` | vanetza/dcc/burst_budget.cpp:28-50 | a window that reaches into a later epoch sees at most N - 1 sends of this one and none of the ones before |
| `BurstBudget.WindowBoundIsSharp` | vanetza/dcc/burst_budget.cpp:28-50 | for all parameters some legal client reaches 2N - 1 |
| `BurstBudget.CapacityIsBoundIffOne` | vanetza/dcc/burst_budget.cpp:28-50 | at most N sends fall into every window of every such client if and only if N is one |
| `BurstBudget.NoCapacityNoLimit` | vanetza/dcc/burst_budget.cpp:28-50 | with capacity zero every send is admitted |
| `BurstBudget.DelayIsExact` | vanetza/dcc/burst_budget.cpp:28-45 | a positive delay is how long the gate stays closed, no more and no less |
| `BurstBudget.ClosedIff` | vanetza/dcc/burst_budget.cpp:28-45 | the gate is closed exactly from the end of the burst, or from a full buffer, to the end of the period, and forgets only after it |
| `Limeric.Contraction` | vanetza/dcc/limeric.cpp:31-76 | two controllers with the same history but different duty cycles see the same load and come closer by the factor 1 - alpha with every calculation, if in each they use the same alpha or are far enough apart; for dual alpha the smaller one counts |
| `Limeric.SingleAlpha` | vanetza/dcc/limeric.cpp:49-68 | with dual alpha off they always do |
| `Limeric.SwitchesWithDuty` | vanetza/dcc/limeric.cpp:61-66 | of two duty cycles at one load, the larger one switches to the alternate alpha if the smaller one does |
| `Limeric.AcrossThreshold` | vanetza/dcc/limeric.cpp:61-66 | two duty cycles of which only the larger one switches come closer by that factor if they are far enough apart, an inequality on the two and the alphas; unless bounds cut them off, only then |
| `Limeric.DualAlphaWidens` | vanetza/dcc/limeric.cpp:61-66 | with the default parameters, two duty cycles on either side of the threshold end up three times as far apart |
| `Limeric.EquilibriumIsFixed` | vanetza/dcc/limeric.cpp:49-68 | offset divided by alpha, within bounds, is a fixed point of the calculation |
| `Limeric.OffsetFollowsLoad` | vanetza/dcc/limeric.cpp:51-57 | the offset falls with the load, at most by the factor beta |
| `Limeric.OffsetIsNearest` | vanetza/dcc/limeric.cpp:51-57 | the offset is the number within its limits nearest to beta times the distance from the target, with the sign of that distance |
| `Limeric.EquilibriumOfLoad` | vanetza/dcc/limeric.cpp:49-68 | at or above the target the equilibrium is the lower bound, else the offset over alpha up to the upper bound |
| `Limeric.MovesTowardsEquilibrium` | vanetza/dcc/limeric.cpp:49-68 | a calculation raises the duty cycle if and only if it is below the equilibrium and lowers it if and only if it is above |
| `Limeric.AverageOfMeasurements` | vanetza/dcc/limeric.cpp:31-47 | the average takes one half of its old value and one quarter of each of the last two measurements; before that it is the mean of what there is |
| `Limeric.TwoMeasurementsSettle` | vanetza/dcc/limeric.cpp:40-47 | two measurements of one load fill the buffer with it, whatever was there before |
| `Limeric.ConvergesToEquilibrium` | vanetza/dcc/limeric.cpp:31-76 | on a steady channel, from any duty cycle and any average load, the distance to the equilibrium after n calculations is at most (1 - alpha)^n times what it was plus the geometric sum of beta times the halving error of the average |
| `Limeric.ConvergesGeometrically` | vanetza/dcc/limeric.cpp:31-76 | hence it vanishes geometrically, at the rate max(1 - alpha, 3/4) |
| `Limeric.DualAlphaConverges` | vanetza/dcc/limeric.cpp:31-76 | with dual alpha and a larger alternate alpha, once the average shows the load of a steady channel: if m of n calculations use the alternate alpha, m times the threshold is at most the duty cycle, and the distance to the equilibrium is at most (1 - alpha)^(n - m) times the larger of what it was and how far the alternate alpha can overshoot |
| `Limeric.MoreLoadLessDuty` | vanetza/dcc/limeric.cpp:49-68 | with limits g of their usual signs and an alternate alpha that is not the smaller one, more load never leads to a larger duty cycle |
| `Limeric.LoadsCompared` | vanetza/dcc/limeric.cpp:49-68 | for all parameters, one load leads to no larger duty cycle than another if its offset is lower by at least as much as its alpha lets more be kept; unless bounds cut them off, only then |
| `Limeric.SmallerAlternateAlphaRises` | vanetza/dcc/limeric.cpp:61-66 | a smaller alternate alpha with which more load leads to a larger duty cycle |
| `Limeric.StaysInBounds` | vanetza/dcc/limeric.cpp:58-65 | after any history the duty cycle is within its bounds, with or without dual alpha |
| `LimericBudget.Budget.Delay` | vanetza/dcc/limeric_budget.cpp:26-35 | the delay is zero exactly when the interval since the last transmission is over, else it is the time left until then |
| `LimericBudget.SteppedInv` | vanetza/dcc/limeric_budget.cpp:26-79 | every step keeps the interval between 25 ms and 1 s and the delay between zero and the interval; a transmission starts a new interval, a change of duty cycle does not |
| `LimericBudget.TransmissionsApart` | vanetza/dcc/limeric_budget.cpp:26-79 | in every run transmissions made at zero delay are pairwise at least 25 ms apart |
| `LimericBudget.UpdateOpensNotInPast` | vanetza/dcc/limeric_budget.cpp:53-74 | updating a closed gate never moves its opening before now |
| `LimericBudget.NotifyRespectsDutyCycle` | vanetza/dcc/limeric_budget.cpp:42-51 | below the cap, the transmission takes no larger share of its interval than permitted |
| `LimericBudget.NotifiedInterval` | vanetza/dcc/limeric_budget.cpp:42-51 | the interval after a transmission is the time on the air over the duty cycle, in whole microseconds within its limits |
| `LimericBudget.UpdatedInterval` | vanetza/dcc/limeric_budget.cpp:53-74 | the interval after a change of the duty cycle is that of equation B.2 for a closed gate, of equation B.1 for an open one, and the largest one if nothing is permitted |
| `LimericBudget.SameDutySameGate` | vanetza/dcc/limeric_budget.cpp:53-74 | a closed gate whose interval fits the duty cycle is left as it is |
| `LimericBudget.ControllerPermitsTransmission` | vanetza/dcc/limeric.cpp:58-65 | a controller with positive lower bound never permits a duty cycle of zero |
| `FlowControl.Control.SubmitRequest` | vanetza/dcc/flow_control.cpp:25-36 | keeps the whole invariant; expired packets are dropped first, then the packet is sent at once or queued |
| `FlowControl.Control.OnTrigger` | vanetza/dcc/flow_control.cpp:38-51 | keeps the whole invariant; one packet of the chosen queue is sent whatever its delay is, and the next trigger is scheduled |
| `FlowControl.Control.OnReschedule` | vanetza/dcc/flow_control.cpp:177-184 | the pending trigger is replaced only if a queue can be chosen |
| `FlowControl.Control.QueueLength` | vanetza/dcc/flow_control.cpp:172-175 | only the limit changes; queues that are too long shrink with the next packet |
| `FlowControl.Control.DropAllExpired` | vanetza/dcc/flow_control.cpp:135-148 | in every category exactly the expired packets disappear, each with one call of the drop hook |
| `FlowControl.Control.TransmitImmediately` | vanetza/dcc/flow_control.cpp:87-101 | the rate control is asked only if nothing of equal or higher priority waits |
| `FlowControl.Control.Append` | vanetza/dcc/flow_control.cpp:59-73 | the oldest packets give way to the limit, and a trigger is scheduled only if all queues were empty; see `FlowList.RunWithinLimit` |
| `FlowControl.Control.FindNextQueue` | vanetza/dcc/flow_control.cpp:111-127 | the loop over the queues finds the specified one |
| `FlowRuns.NextQueueIsRight` | vanetza/dcc/flow_control.cpp:111-127 | the chosen queue has the highest priority among those with the least delay; none is chosen only if no front packet is answered less than the largest duration |
| `FlowRuns.TriggerSends` | vanetza/dcc/flow_control.cpp:38-51 | a trigger sends exactly one packet if a queue can be chosen and none otherwise; one can be chosen as long as an unexpired packet waits, provided the rate control never answers the largest duration |
| `FlowRuns.RunConserves` | vanetza/dcc/flow_control.cpp:25-160 | after every run the requests are the transmissions plus the calls of the drop hook plus the waiting packets |
| `FlowRuns.RunKeepsOrder` | vanetza/dcc/flow_control.cpp:25-148 | each access category is served in request order, and whatever waits was requested after everything sent |
| `FlowRuns.RunSendsInTime` | vanetza/dcc/flow_control.cpp:25-148 | no immediate transmission has a delay or overtakes a waiting packet of equal or higher priority; no queued packet is sent after its expiry |
| `FlowList.StepRefinesList` | vanetza/dcc/flow_control.cpp:25-184 | every step does to the queues what it does to one plain list of all waiting packets: expired ones leave, a request joins unless it is sent at once, the oldest ones of its rank give way to the limit, a trigger takes the oldest one of the chosen rank |
| `FlowList.RunRefinesList` | vanetza/dcc/flow_control.cpp:25-184 | after every run the queues are that list by rank, and the list is in request order |
| `FlowList.RunWithinLimit` | vanetza/dcc/flow_control.cpp:59-73 | as long as the limit is not changed no queue ever exceeds it |
| `FlowList.RequestSends` | vanetza/dcc/flow_control.cpp:25-36 | a request is sent at once if and only if nothing of its priority or above waits and it has no delay |
| `FlowList.RequestNotifies` | vanetza/dcc/flow_control.cpp:87-101 | and exactly then the rate control is notified of it |
| `FlowList.RequestSchedules` | vanetza/dcc/flow_control.cpp:59-73 | a trigger is scheduled if and only if the request has to wait and nothing else does, for the delay answered to a second question |
| `FlowList.TriggerSendsOldest` | vanetza/dcc/flow_control.cpp:38-51 | a trigger sends the oldest unexpired packet of the chosen rank and nothing else |
| `FlowList.TriggerNotifies` | vanetza/dcc/flow_control.cpp:38-51 | and notifies the rate control of exactly this packet |
| `FlowList.TriggerSchedules` | vanetza/dcc/flow_control.cpp:38-57 | the next trigger is scheduled if and only if a queue can be chosen then, for the delay of its first packet |
| `FlowList.RescheduleSchedules` | vanetza/dcc/flow_control.cpp:177-184 | all pending triggers are replaced by one for the delay of the chosen packet |
| `FlowDelays.TriggeredDelay` | vanetza/dcc/flow_control.cpp:38-51 | what a trigger sends has the least delay the rate control answers, and a positive one if and only if every packet it could have chosen has to wait |
| `FlowGates.StepBehindGate` | vanetza/dcc/flow_control.cpp:25-73 | behind a gate, while no trigger is pending for before the opening, everything sent has zero delay, and no trigger becomes early if and only if the step does not send while another trigger is pending for before the next opening |
| `FlowGates.OnTimeIffNeverOvertakes` | vanetza/dcc/flow_control.cpp:25-73 | over every run behind any gate, no trigger is ever early if and only if no step does so, and then every transmission has zero delay |
| `FlowGates.OvertakenTriggerIsEarly` | vanetza/dcc/flow_control.cpp:38-73 | whenever the next trigger is due before a closed gate opens, one more request leads to a transmission ahead of its time by the rest of the wait |
| `FlowStale.StaleTriggerSendsEarly` | vanetza/dcc/flow_control.cpp:25-73 | for every k, a run behind a gate that closes for k in which an expired packet leaves a trigger behind, so that of two packets sent at the opening the second one has to wait for k still |
| `FlowRuns.RunStaysAwake` | vanetza/dcc/flow_control.cpp:38-73 | while a packet waits a trigger is pending, provided the rate control never answers the largest duration |
| `FullyMeshed.StateMachine.Update` | vanetza/dcc/fully_meshed_state_machine.cpp:103-127 | the transitions are the specified ones, and the least load never exceeds the greatest when the sub-state is chosen |
| `FullyMeshed.StateMachine.UpdateActive` | vanetza/dcc/fully_meshed_state_machine.cpp:46-63 | of the two looked up sub-states the greater load's one always wins, capped at the last |
| `FullyMeshed.StateMachine.MinChannelLoad` | vanetza/dcc/fully_meshed_state_machine.cpp:146-161 | the loop finds the least of at most ten newest loads, zero if there are none |
| `FullyMeshed.StateMachine.MaxChannelLoad` | vanetza/dcc/fully_meshed_state_machine.cpp:163-178 | the loop finds the greatest of at most fifty newest loads |
| `FullyMeshed.MinBelowMax` | vanetza/dcc/fully_meshed_state_machine.cpp:146-178 | the least recent load is never above the greatest, for every content of the buffer |
| `FullyMeshed.Converges` | vanetza/dcc/fully_meshed_state_machine.cpp:103-178 | after any history the machine is Restrictive after more than ten loads of at least 0.59 and Relaxed after more than fifty below 0.19, and stays so as long as they go on |
| `FullyMeshed.ClimbIsSharp` | vanetza/dcc/fully_meshed_state_machine.cpp:103-178 | for all such loads ten are not enough after one low load |
| `FullyMeshed.CoolingIsSharp` | vanetza/dcc/fully_meshed_state_machine.cpp:103-178 | for all such loads fifty are not enough after two high ones |
| `FullyMeshed.ModeFitsLoads` | vanetza/dcc/fully_meshed_state_machine.cpp:103-127 | after every run Relaxed implies a low least load, Restrictive a high greatest load, and the Active sub-state is that of the greatest load |
| `FullyMeshed.ModeChanges` | vanetza/dcc/fully_meshed_state_machine.cpp:103-178 | in terms of the history alone, exactly when each mode is left and for which other one |
| `FullyMeshed.SubstateIsBand` | vanetza/dcc/fully_meshed_state_machine.cpp:46-63 | the sub-states are the five bands between the thresholds |
| `Gradual.StateMachine.constructor` | vanetza/dcc/gradual_state_machine.cpp:10-20 | the machine starts in the first state, which exists even for an empty set |
| `Gradual.StateMachine.Repair` | vanetza/dcc/gradual_state_machine.cpp:57-63 | an empty set of states becomes a single state that permits everything, others stay |
| `Gradual.StateMachine.Update` | vanetza/dcc/gradual_state_machine.cpp:22-38 | one update is one step towards the state whose range holds the load |
| `Gradual.OneMatch` | vanetza/dcc/gradual_state_machine.cpp:22-38 | exactly one state matches a load and the machine rests in a state if and only if it is that one |
| `Gradual.Converges` | vanetza/dcc/gradual_state_machine.cpp:22-38 | loads of one range lead from any state to the matching one in exactly as many updates as it is away, and keep the machine there |
| `GbcMemory.Memory.Remember` | vanetza/geonet/gbc_memory.cpp:24-44 | the packet becomes the latest one and the oldest give way to the capacity; the answer is yes if and only if it was remembered before and, whatever capacities were set, never as many others had been remembered since as there was capacity |
| `GbcMemory.Memory.SetCapacity` | vanetza/geonet/gbc_memory.cpp:8-17 | the oldest packets beyond the new capacity are forgotten; capacity is at least one; the memory stays what its whole history leads to |
| `GbcMemory.Memory.Size` | vanetza/geonet/gbc_memory.cpp:19-22 | the size never exceeds the capacity |
| `GbcMemory.Memory.Knows` | vanetza/geonet/gbc_memory.cpp:46-49 | a packet is known exactly if its identifier is stored, and if and only if the history says so as for `Remember` |
| `Resizing.KnownIffNeverCrowdedOut` | vanetza/geonet/gbc_memory.cpp:8-49 | after every history of uses and changes of capacity, an item is known if and only if it was used and at every moment since fewer others had been used than there was capacity |
| `Resizing.RememberedIsRecent` | vanetza/geonet/gbc_memory.cpp:8-44 | after every such history the memory is the recent end of the distinct items in order of last use, within capacity |
| `GbcMemory.RemembersRecentPackets` | vanetza/geonet/gbc_memory.cpp:24-49 | after every history at capacity c, a packet is known if and only if it was remembered and fewer than c others have been since |
| `Recency.MemoryHoldsLatest` | vanetza/geonet/gbc_memory.cpp:24-44 | after every history the memory is exactly the last c distinct items in order of last use |
| `Recency.LatestIsUnique` | vanetza/geonet/gbc_memory.cpp:24-44 | this description leaves only one possible content |
| `Recency.LargerKnowsMore` | vanetza/geonet/gbc_memory.cpp:24-49 | fed the same history, the smaller memory is the recent end of the larger one |
| `Recency.CapacityChange` | vanetza/geonet/gbc_memory.cpp:8-17 | after a change of capacity the description holds again if and only if the capacity did not grow or nothing had been forgotten |
| `Recency.KnownIffRecent` | vanetza/geonet/gbc_memory.cpp:46-49 | membership in terms of the history alone |
| `LruCache.Cache.Access` | vanetza/common/lru_cache.hpp:49-57 | the value is always the generated one, the key becomes the latest, list and map stay linked, and the cached keys are exactly those of the whole history of accesses since which fewer than max(1, capacity) others were accessed |
| `LruCache.Cache.Add` | vanetza/common/lru_cache.hpp:64-75 | a new key drops the least recently used one if there is no room |
| `LruCache.Cache.Refresh` | vanetza/common/lru_cache.hpp:77-82 | splicing through the stored iterator moves just the node of this key |
| `LruCache.Cache.Remove` | vanetza/common/lru_cache.hpp:84-90 | the last node of the list and its map entry disappear together |
| `LruCache.CachesLatestKeys` | vanetza/common/lru_cache.hpp:49-90 | after every history the cached keys are exactly the most recently accessed distinct ones |
| `TcpLink.Socket.ReceiveHandler` | tools/socktap/tcp_link.cpp:148-166 | the loop terminates on every input, passes up exactly the complete frames in order and keeps exactly the bytes behind them |
| `TcpLink.PiecesDoNotMatter` | tools/socktap/tcp_link.cpp:148-166 | packets and stored rest depend on the bytes received, not on how they were split |
| `TcpLink.DeliversCompletePackets` | tools/socktap/tcp_link.cpp:148-190 | for every prefix of a sender's stream in any pieces, exactly the packets complete by then were delivered and the undelivered tail is stored |
| `TcpLink.RoundTrip` | tools/socktap/tcp_link.cpp:33-36 | a list of packets survives framing and cutting if and only if every one has at most 65535 bytes |
| `TcpLink.DelimiterIsLength` | tools/socktap/tcp_link.cpp:33-36 | the delimiter is the length modulo 2^16 in network byte order |
| `TcpLink.LongEnoughIs` | tools/socktap/tcp_link.cpp:148-166 | exactly the packets of at least 14 bytes are indicated |
| `Bytes.ValueOfDigits` | vanetza/geodesy/country_data_reader.cpp:34-53 | reading in a byte order undoes writing in it |
| `Bytes.DigitsOfValue` | vanetza/geodesy/country_data_reader.cpp:34-53 | and the other way round |
| `Bytes.LastCountsMost` | vanetza/geodesy/country_data_reader.cpp:34-53 | in a little-endian integer the last byte counts most |
| `Bytes.FirstCountsMost` | vanetza/geodesy/country_data_reader.cpp:34-53 | in a big-endian one the first |
| `CountryReader.ParsePolygonBody` | vanetza/geodesy/country_data_reader.cpp:58-98 | for arbitrary bytes every read is inside the data, no subtraction goes below zero, and result and rings are the specified ones |
| `CountryReader.ParseWkb` | vanetza/geodesy/country_data_reader.cpp:102-151 | the same for polygons and multi-polygons, each with its own byte order and with failure positions relative to the data |
| `CountryReader.ParseEntries` | vanetza/geodesy/country_data_reader.hpp:98-124 | the entry loop terminates, stays inside the data and hands over the countries in front of a failure |
| `CountryReader.ReadCountryData` | vanetza/geodesy/country_data_reader.hpp:83-125 | the same for the whole file, with a failure position that is never behind the end |
| `CountryModel.ReadRings` | vanetza/geodesy/country_data_reader.cpp:58-98 | whatever the bytes are, reading ends or fails at a position inside the data |
| `CountryModel.ReadEntries` | vanetza/geodesy/country_data_reader.hpp:98-124 | likewise for the entries of a file |
| `CountryProofs.BodyIsExact` | vanetza/geodesy/country_data_reader.cpp:58-98 | a polygon body is accepted with some rings and position if and only if the data begins with the encoding of these rings, which ends there |
| `CountryFiles.GeometryIsExact` | vanetza/geodesy/country_data_reader.cpp:102-151 | a geometry is accepted with some polygons and position if and only if the data begins with an encoding of them, in any order bytes and with anything behind it |
| `CountryFiles.FileRoundTrip` | vanetza/geodesy/country_data_reader.hpp:83-125 | reading the encoding of any list of countries yields exactly that list and ends at the end of the data |
| `CountryFiles.FileIsExact` | vanetza/geodesy/country_data_reader.hpp:83-125 | a file is accepted if and only if it is such an encoding, bytes behind a geometry within its entry included, and its countries are the encoded ones |
| `CountryFailures.FileFails` | vanetza/geodesy/country_data_reader.hpp:83-125 | a file that is not accepted has a well-formed part, whose countries are exactly those handed over, and behind it just the defect that problem and position of the result name |
| `CountryFailures.GeometryFails` | vanetza/geodesy/country_data_reader.cpp:102-151 | the same for a geometry and the polygons in front of the defect |
| `CountryFailures.BodyFails` | vanetza/geodesy/country_data_reader.cpp:58-98 | the same for a polygon body and its rings |
| `CountryFailures.RingsOfPolygon` | vanetza/geodesy/country_data_reader.cpp:58-98 | the first ring is the outer one, the others follow in order |
| `CountryFailures.SmallGeometries` | vanetza/geodesy/country_data_reader.cpp:102-151 | the bytes of the smallest polygon and multi-polygon |
| `TrustListProcessor.Processor.Process` | tools/pki/certificate_trust_list.cpp:198-230 | the five maps are always what the chain of lists processed so far leads to; lists that are unsigned, unreadable or no trust list change nothing |
| `TrustListProcessor.Processor.RunCommand` | tools/pki/certificate_trust_list.cpp:232-284 | every command has its specified effect and unknown ones have none |
| `TrustListProcessor.Processor.AddEntry` | tools/pki/certificate_trust_list.cpp:286-338 | authorities are stored under the signer of the list, certificates under their own digest |
| `TrustListProcessor.Processor.AddCentre` | tools/pki/certificate_trust_list.cpp:318-330 | the URL is stored under every digest of the entry that can be read |
| `TrustListProcessor.Processor.RemoveCertificate` | tools/pki/certificate_trust_list.cpp:340-349 | the digest disappears from all five maps |
| `TrustListProcessor.Processor.RemoveCentre` | tools/pki/certificate_trust_list.cpp:351-361 | erasing while iterating removes exactly the centres with this URL |
| `TrustListProcessor.Processor.GetDistributionCentre` | tools/pki/certificate_trust_list.cpp:403-410 | the answer is the URL of the digest's last addition unless taken back, in terms of the chain alone |
| `TrustProofs.ListDoes` | tools/pki/certificate_trust_list.cpp:198-230 | a list has no effect unless it is signed, decodable and a trust list; else its commands run in order under its signer, behind a clear if it is full |
| `TrustProofs.FullListStartsAnew` | tools/pki/certificate_trust_list.cpp:198-230 | the state after a chain is that of a processor in any state fed only the part from any readable full list on, in particular from the last one |
| `TrustProofs.CentreIsLastAdded` | tools/pki/certificate_trust_list.cpp:198-361 | a centre is found under a digest if and only if it is the digest's last addition and no later command deletes that digest or that URL and no later full list starts anew |
| `TrustProofs.CertificateIsLastAdded` | tools/pki/certificate_trust_list.cpp:198-361 | the same for root certificates and trust list managers |
| `TrustProofs.AuthorizationIsLastAdded` | tools/pki/certificate_trust_list.cpp:198-361 | the same for authorization authorities, under the signer |
| `TrustProofs.EnrolmentIsLastAdded` | tools/pki/certificate_trust_list.cpp:198-361 | the same for enrolment authorities, under the signer |
| `CbrAggregator.Aggregator.Aggregate` | vanetza/geonet/cbr_aggregator.cpp:50-71 | one-hop, two-hop and global ratio are the specified ones, whatever order the location table was visited in; the global one uses the previous local ratio |
| `CbrModel.CountsExactly` | vanetza/geonet/cbr_aggregator.cpp:12-43 | the running average is the exact mean and the maxima are the two largest values with multiplicity, zero if absent |
| `CbrModel.AggregatedIs` | vanetza/geonet/cbr_aggregator.cpp:31-71 | one-hop and two-hop ratio are the largest of the fresh values if their mean exceeds the target, else the second largest; the global one is the greatest of both and the previous local one |
| `CbrModel.ValuesAreReports` | vanetza/geonet/cbr_aggregator.cpp:58-66 | exactly the fresh entries count, each with its own load |
| `CbrModel.FreshIs` | vanetza/geonet/cbr_aggregator.cpp:58-66 | an entry is fresh if its update is not before the given time, in timestamps modulo 2^32 |
| `CbrModel.OrderDoesNotMatter` | vanetza/geonet/cbr_aggregator.cpp:50-71 | all results are the same for every permutation of the location table |
| `PathHistory.History.AddSample` | vanetza/facilities/path_history.cpp:39-48 | keeping the concise points up to date sample by sample, with truncation each time, equals picking from all samples ever given and cutting once |
| `PathHistory.History.UpdateConcisePoints` | vanetza/facilities/path_history.cpp:61-85 | the previous sample is picked exactly if three samples are there and the newest deviates too much from the last picked one |
| `PathHistory.History.TruncateConcisePoints` | vanetza/facilities/path_history.cpp:87-101 | the loop cuts off everything behind the first point that reaches 200 m |
| `PathHistory.ConciseIsRecentPath` | vanetza/facilities/path_history.cpp:39-101 | the concise points are given samples strictly from newer to older; without the oldest chord they span less than 200 m, with it at least 200 m unless they reach back to the first sample |
| `PathHistory.PickedIsGreedy` | vanetza/facilities/path_history.cpp:61-85 | picked are the first sample and, from each picked one on, the last sample before a straight line gets longer than 22.5 m or deviates by more than 0.47 m |
| `PathHistory.ConciseIsOrdered` | vanetza/facilities/path_history.cpp:39-101 | samples given in order of time stay strictly in order of time |

## Left out

- Floating-point rounding and overflow of 64-bit clocks and 32-bit counters: reals and unbounded integers are used.
- `CbfCounterFading` and the expiry of location table entries: they are timeouts of a soft state map.
- Coding of a packet's lifetime in its header: the function that stores a remaining lifetime is a parameter, and a packet's length does not depend on it.
- CbfLifetimes.FetchIffYoung, CbfLifetimes.OutlivesIffYoung: only if a lifetime is written back without loss; in general `CbfItems.FetchedItems` and `CbfEffects.FlushHandsOver` say what is handed over.
- Callbacks that call back into the object they come from, such as adding a packet from within a flush.
- CbfPacketBuffer.PacketBuffer.Trigger: callbacks of other owners leave the buffer alone while it runs; runs in which they use it are made of `RunDue` steps instead.
- Changing the parameters of a burst budget at run time.
- The periodic schedule of the LIMERIC calculation: calculations are steps of a run at arbitrary times.
- Limeric.Contraction: says nothing about runs in which two controllers on either side of the threshold are not far enough apart; `Limeric.AcrossThreshold` says exactly when, and `Limeric.DualAlphaWidens` shows that their distance may then grow.
- Limeric.ConvergesToEquilibrium, Limeric.ConvergesGeometrically: with dual alpha off and limits g of their usual signs, since otherwise the offset jumps at the target load. `Limeric.DualAlphaConverges` covers dual alpha, but only once the average load has settled.
- Limeric.MoreLoadLessDuty: with limits g of their usual signs and an alternate alpha that is not the smaller one; `Limeric.LoadsCompared` is the general case.
- LimericBudget.Budget.Notify: only for a positive permitted duty cycle; unlike its update, the original divides by the duty cycle without a guard, and what the conversion of an infinite interval yields is not modelled. `LimericBudget.ControllerPermitsTransmission` says when the case cannot occur.
- FlowRuns.RunSendsInTime: says nothing about the delay of queued transmissions; `FlowDelays.TriggeredDelay` does.
- FlowRuns.RunStaysAwake: only for rate controls that never answer the largest duration, because no queue is chosen for one that does.
- Contents of the packet given to the drop hook: it is the incoming packet when the queue is full, so drops are only counted.
- Names and transmission intervals of the state machines' states: constant tables.
- The access layer, routing, and header codecs of GeoNetworking: mostly fixed-width packing around libraries.
- Geodesy and the chord and arc formulas of the path history: trigonometry, given as parameters.
- Signatures, digests and ASN.1 decoding of trust lists: a list is given as what decoding it yields.
- Everything else of socktap and the PKI tools: input and output, command lines and file storage.
