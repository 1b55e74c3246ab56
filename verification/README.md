# Verified model of the grid layer

This project models the Rust backend of the grid: the peer-to-peer tunnel protocol behind the SOCKS5 proxy, the swarm
task coordinator, bandwidth metering and billing, session warnings, and the stores, parsers and framing they rely on.
It proves properties of these models for all inputs, all runs and all interleavings.

    dafny verify dfyconfig.toml

## How it is built

Code that changes state in place is a class whose methods update the same fields in the same order as the source. Each
method is proved equal to a function on the value of the object (`Value() == F(old(Value()), ...)`), and the theorems are
about these functions, so they hold of the objects too. What the functions mean is in turn said without them: by laws that
trace the state of a run back to its events, and by clauses that say outright what a method returns and leaves behind.
Sequences of calls are events, and a run is a fold over any sequence of them.

| module | source | what it is about |
|---|---|---|
| `TunnelManager`, `ProxyRelay` | grid/tunnel.rs, grid/node.rs, grid/proxy.rs | one node's tunnels, write tasks, event-loop arms and send task |
| `TunnelProtocol`, `TunnelSafety`, `TunnelDelivery`, `TunnelLifecycle`, `TunnelAccounting` | the same | client, link, exit and targets as one machine, and what every run of it keeps |
| `TunnelBackpressure`, `EventLoop` | grid/tunnel.rs, grid/node.rs, grid/proxy.rs | when bounded channels and locks stop a node for good, in a delivery and in any other arm of the event loop |
| `Swarm`, `SwarmRuns`, `SwarmHistory` | grid/swarm.rs | the task coordinator, what its runs keep, and what its state tells about them |
| `Metrics`, `Billing` | grid/metrics.rs | counters and prices |
| `Tracker` | swarm/tracker.rs, swarm/costs.rs | session costs and runway warnings |
| `Chat`, `ChatHistory`, `Utf8`, `Paging` | grid/chat.rs | the message store, what it tells about the calls behind it, byte slices of texts, and reading the store backwards |
| `Bootstrap` | grid/bootstrap.rs | saved peers |
| `UserId`, `Decimal` | grid/userid.rs | ids, and decimal notation |
| `Codec`, `Io` | grid/protocol.rs | length-prefixed frames on a stream |
| `Socks5` | grid/proxy.rs | handshake, replies, relaying to the client |
| `Transfer` | grid/transfer.rs | saving under a fresh name |
| `Prelude` | | sums and concatenations |

### Assumptions about the environment

- Tunnels: each node keeps its role, and an exit serves one client. Tunnel ids come from a counter in the client
  process and the exit keys its tunnels by id alone, so two clients of one exit would collide. Only the
  client-to-target direction is modelled. On an `Ordered` link requests arrive first in, first out and none is lost;
  on an `Unordered` link they may overtake each other or be lost. Answers may be lost or overtake each other on both.
  Event-loop arms and manager methods are atomic in `TunnelProtocol`; the write task is split at its awaits (receive,
  write, metrics, counter), and every step of every task may come at any time.
- A place that becomes free in a full channel goes to the message that has waited longest, as in a tokio channel.
- The clock, random numbers, UUIDs, hashes, serialized payloads, lossy text decoding, TCP outcomes and the tie order of
  sorts are parameters. The saved-peer clock never goes back. Scores, prices, balances and runways are exact reals.
- Paging reads a history that does not change during the walk; which of its possible answers a query gives is a
  parameter.

### Where the code differs from what is said or expected of it

Each of these expectations holds under a condition; the lemmas named state exactly which, and an input or a run that fails.

- Chat: the row of a message is committed before its preview is cut, and the cut panics if the text has more than 50 bytes
  of UTF-8 and byte 47 lies inside a character, as it does in any long text in characters of one width that is not ASCII.
  Then the row stays, its conversation is not updated, and the lock is poisoned until the process restarts. The cached
  aggregates are right throughout a run if and only if no such message is stored (`Chat.RunConsistentIff`,
  `Chat.PanicIsNotRepaired`).
- Chat: a message that is refused, for a timestamp above 2^63 - 1 or a known id, can leave a conversation behind
  (`Chat.OrphanConversationIff`, `Chat.LateMessageLeavesConversation`).
- Paging by timestamp loses messages that share the oldest timestamp of a page (`Paging.SkippedIff`,
  `Paging.NothingLostIff`, `Paging.TiesAreLost`).
- Swarm: progress, completion and failure do not look at the state of the task, and submissions replace tasks. Exactly when
  the queue stays exact and when an owner is kept: `SwarmRuns.RunExactIff`, `SwarmRuns.RunOwnerIff`; failing runs:
  `SwarmRuns.CarelessQueueGoesStale`, `SwarmRuns.CompletingTakesOver`.
- Swarm: remote completion frees no slot (`SwarmRuns.RunOccupiedIff`, `SwarmRuns.CapacityIsLost`).
- Warnings can fall back, with a rising balance or in data sessions (`Tracker.RunRisesIff`,
  `Tracker.RisingBalanceDeescalates`, `Tracker.IdleTransferDeescalates`).
- Tunnels: a delivery that waits for a place in a full channel holds a lock that the channel's reader needs
  (`TunnelBackpressure.ResumesIff`, `TunnelBackpressure.FreshExitGetsStuck`).
- Tunnels: a relaying connection holds the manager's lock to its end, and its end needs an arm of the event loop that needs
  this lock; and the loop can wait for a place in a channel that only it reads (`EventLoop.IdlesIff`,
  `EventLoop.OneConnectionStopsTheNode`, `EventLoop.BusyTargetStopsTheExit`).
- Tunnels: a close that the link loses is not repeated, and the exit then keeps the tunnel
  (`TunnelLifecycle.HangupReachesExit`, `TunnelLifecycle.LostCloseLeavesTunnel`).
- Billing: a gigabyte times `RATE_PER_BYTE` is not one Qi, as a test at grid/metrics.rs:431 has it, but 660865024 units
  less. The bill comes out exact all the same up to 1513 gigabyte-hops, and not from 1514 on
  (`Billing.WholeGigabytesExactIff`).
- Billing: the comment on the price formula takes the minimum before multiplying by the hops
  (`Billing.CommentHoldsIff`, `Billing.CommentFailsForAGigabyte`).
- Billing: with zero hops the bytes are still multiplied by the rate, so bounding bytes times hops does not exclude
  overflow (`Billing.NoOverflowIff`, `Billing.ZeroHopsCanOverflow`).
- SOCKS: the first read of the greeting is not repeated when it returns less than two bytes
  (`Socks5.WellFormedParsesIff`).
- SOCKS: the greeting is answered with "no authentication" whatever was offered (`Socks5.MethodChoiceIff`,
  `Socks5.PasswordOnlyIsAnsweredWithNone`).
- SOCKS: an unsupported command is answered with "not allowed" (2) and an unsupported address type with "general failure"
  (1), for which section 6 of RFC 1928 has 7 and 8 (`Socks5.RequiredReplyIff`).
- The frame length is cast to 32 bits: a payload of 4 GiB or more does not survive (`Codec.FrameRoundTripIff`).
- A failure lowers a peer's score only if there is a success to lose or no failure yet, so not that of a peer that has only
  failed (`Bootstrap.FailureLowersScoreIff`).

These differences hold always: release and cancel messages are ignored, remote progress is not capped at 100, and the price
of a message is labelled per KB but charged per 2^20 bytes.

## Model

| member | source | states |
|---|---|---|
| `TunnelManager.TunnelTable.constructor` | src-tauri/src/grid/tunnel.rs:104-111 | a manager starts without tunnels and without an outbound channel, its first tunnel id being 1 |
| `TunnelManager.TunnelTable.SetOutbound` | src-tauri/src/grid/tunnel.rs:114-116 | gives the manager its outbound channel and changes nothing else |
| `TunnelManager.TunnelTable.Create` | src-tauri/src/grid/tunnel.rs:128-184 | takes a fresh id, registers the tunnel with its signal pending and queues a connect for the exit peer; without an outbound channel the tunnel stays registered, nothing is queued and the call fails |
| `TunnelManager.TunnelTable.TunnelConnected` | src-tauri/src/grid/tunnel.rs:187-204 | fires the readiness signal once, with Ok or the error or "Unknown error"; for an unknown tunnel or a fired signal nothing changes |
| `TunnelManager.TunnelTable.Send` | src-tauri/src/grid/tunnel.rs:221-244 | queues the data for the tunnel's exit peer, or fails and changes nothing |
| `TunnelManager.TunnelTable.CloseClient` | src-tauri/src/grid/tunnel.rs:247-266 | queues a close for a known tunnel and forgets it |
| `TunnelManager.TunnelTable.CreateExit` | src-tauri/src/grid/tunnel.rs:273-363 | on a refused connection nothing changes; otherwise tunnel and write task start empty and Connected is queued |
| `TunnelManager.TunnelTable.ExitData` | src-tauri/src/grid/tunnel.rs:470-479 | appends the data to the tunnel's channel, or drops it if the tunnel or its write task is gone |
| `TunnelManager.TunnelTable.CloseExit` | src-tauri/src/grid/tunnel.rs:482-487 | forgets this exit tunnel, and nothing else; that it stays forgotten is `TunnelLifecycle.CloseIsFinal` |
| `TunnelManager.TunnelTable.OnRequest` | src-tauri/src/grid/node.rs:500-541 | the three request arms: what each does to the manager and what it answers, a failed connect included |
| `TunnelManager.TunnelTable.OnResponse` | src-tauri/src/grid/node.rs:586-604 | Connected fires the signal, Closed closes the tunnel, an acknowledgement does nothing |
| `TunnelManager.TunnelTable.Forward` | src-tauri/src/grid/tunnel.rs:443-464 | one chunk goes from the channel to the socket, the metrics and the counter, or fails on the socket |
| `TunnelManager.TunnelTable.WriteLoop` | src-tauri/src/grid/tunnel.rs:435-464 | run without interruption, the loop drains the channel as specified, up to the chunk the socket fails on |
| `TunnelManager.PassEffect` | src-tauri/src/grid/tunnel.rs:443-464 | receive, write, meter and count one after the other come to one pass of the loop |
| `TunnelManager.DrainAccounts` | src-tauri/src/grid/tunnel.rs:435-464 | draining moves chunks from the channel to the socket in order, losing at most the one the socket failed on, and the client's metrics and the tunnel's counter each grow by exactly the bytes of the chunks written |
| `ProxyRelay.SendLoop` | src-tauri/src/grid/proxy.rs:452-483 | the send task forwards and meters chunk by chunk until one is refused, and returns the bytes forwarded |
| `ProxyRelay.SendAllOrNothing` | src-tauri/src/grid/proxy.rs:452-483 | with a tunnel every chunk is queued in order and exactly its bytes are counted and metered; without one nothing is |
| `TunnelProtocol.FlightAfterPump` | src-tauri/src/grid/node.rs:712-738 | converting an outbound message to a request and sending it neither adds, drops nor reorders requests under way |
| `TunnelProtocol.FlightAfterAnswer` | src-tauri/src/grid/node.rs:586-604 | handling an answer puts nothing under way but a close that a Closed answer provokes |
| `TunnelSafety.StepKeepsReady` | src-tauri/src/grid/tunnel.rs:187-204 | the readiness invariant (signals, tables, requests under way) survives every step of client, link, exit and connections |
| `TunnelSafety.OpenKeepsReady` | src-tauri/src/grid/tunnel.rs:128-184 | opening a tunnel keeps the invariant: its id is fresh on both sides and its connect is the only one under way |
| `TunnelSafety.DeliverKeepsReady` | src-tauri/src/grid/node.rs:500-541 | delivering any request under way keeps the invariant, whether or not the target accepts |
| `TunnelSafety.AnswerKeepsReady` | src-tauri/src/grid/node.rs:586-604 | handling any answer keeps the invariant |
| `TunnelSafety.SendKeepsReady` | src-tauri/src/grid/proxy.rs:452-483 | forwarding data keeps the invariant: data gets under way only after Ok |
| `TunnelSafety.ExitKeepsReady` | src-tauri/src/grid/tunnel.rs:366-464 | the exit's own tasks keep the invariant |
| `TunnelDelivery.ReadinessIsSound` | src-tauri/src/grid/tunnel.rs:187-204 | in every run a signal has fired at most once; Ok means the exit connected to the target asked for and registered the tunnel; data is under way only after Ok, so an exit without a tunnel for it has had one and removed it |
| `TunnelDelivery.SignalIsFinal` | src-tauri/src/grid/tunnel.rs:187-204 | a fired signal keeps its outcome in every continuation of the run |
| `TunnelDelivery.TargetSeesPrefix` | src-tauri/src/grid/tunnel.rs:221-244 | on an ordered link, in every run, the bytes a target has seen, a half-written last chunk included, are a prefix of what its own SOCKS client handed over |
| `TunnelDelivery.QuietTunnelHasDelivered` | src-tauri/src/grid/tunnel.rs:435-479 | on an ordered link, in every run, a relaying connection with an accepting tunnel, nothing under way and an idle write task has had everything delivered |
| `TunnelDelivery.TargetSeesOnlyHanded` | src-tauri/src/grid/tunnel.rs:435-479 | on any link, in every run, no chunk that reaches a socket is duplicated, invented or another tunnel's |
| `TunnelDelivery.StepKeepsInOrder` | src-tauri/src/grid/node.rs:523-541 | every step on an ordered link keeps accepted chunks followed by those under way a prefix of those handed over |
| `TunnelDelivery.StepKeepsDrawn` | src-tauri/src/grid/node.rs:523-541 | every step on any link keeps accepted chunks and those under way drawn, each once, from those handed over |
| `TunnelDelivery.ReorderingBreaksPrefix` | src-tauri/src/grid/node.rs:712-738 | the order of the link is needed: a run on an unordered link in which the second chunk is written first |
| `TunnelLifecycle.ExitTunnelsIff` | src-tauri/src/grid/tunnel.rs:273-487 | a step leaves the exit with a tunnel if and only if it registers it, by a connect that the target accepts, or the exit had it and the step is neither its close nor the end of its target |
| `TunnelLifecycle.ClientTunnelsIff` | src-tauri/src/grid/tunnel.rs:128-266 | a step leaves the client with a tunnel if and only if it opens it, or the client had it and the step is neither its hanging up nor the answer that it is closed |
| `TunnelLifecycle.CloseIsFinal` | src-tauri/src/grid/tunnel.rs:482-487 | a close request for a registered tunnel that reaches the exit is answered, and in every continuation on any link the tunnel is not registered again and nothing more enters its channel |
| `TunnelLifecycle.TargetEndIsFinal` | src-tauri/src/grid/tunnel.rs:419-432 | so it is after the target has closed, which the exit announces to the client |
| `TunnelLifecycle.EndedHasWrittenAll` | src-tauri/src/grid/tunnel.rs:435-464 | in every run a write task that has ended belongs to a closed tunnel and has written everything that ever entered its channel |
| `TunnelLifecycle.ClosedTunnelCanEnd` | src-tauri/src/grid/tunnel.rs:435-464 | in every run a closed tunnel whose socket has not failed can be brought to its end by steps of the exit alone, everything accepted being written |
| `TunnelLifecycle.EndsIff` | src-tauri/src/grid/tunnel.rs:435-464 | a waiting write task ends if and only if its channel is empty and its tunnel closed |
| `TunnelLifecycle.ClientEndIsFinal` | src-tauri/src/grid/tunnel.rs:247-266 | once its connection has hung up or the exit has answered that it is closed, a tunnel is known to the client in no continuation of the run |
| `TunnelLifecycle.HangupReachesExit` | src-tauri/src/grid/tunnel.rs:247-266 | as long as the link loses no request, after a connection has hung up, in every continuation the close is still under way or the exit has forgotten the tunnel |
| `TunnelLifecycle.LostCloseLeavesTunnel` | src-tauri/src/grid/tunnel.rs:247-266 | a run in which the close is lost: the connection has hung up, nothing is under way, and the exit keeps the tunnel |
| `TunnelLifecycle.RefusalReachesClient` | src-tauri/src/grid/node.rs:500-522 | a connect that the target refuses leaves the exit as it was, and its answer fires the signal with exactly that error, on which the connection ends |
| `TunnelLifecycle.GrantReachesClient` | src-tauri/src/grid/node.rs:500-522 | a connect that the target accepts registers the tunnel to the target asked for and announces it, and its answer fires the signal with Ok, on which the connection relays |
| `TunnelAccounting.ExitAccounting` | src-tauri/src/grid/tunnel.rs:443-464 | in every run the bytes recorded from the client equal those of the chunks written for it, closed tunnels included, save what stands between write and metrics; they never exceed what was handed over; a live tunnel's counter is its share |
| `TunnelAccounting.StepKeepsBooks` | src-tauri/src/grid/tunnel.rs:443-464 | every step keeps the exit's metrics and tunnel counters in agreement with its write tasks |
| `TunnelBackpressure.StuckForGood` | src-tauri/src/grid/tunnel.rs:443-479 | once a delivery waits for a place in a full channel whose write task has yet to count a chunk, it waits forever and the event loop with it |
| `TunnelBackpressure.ResumesIff` | src-tauri/src/grid/tunnel.rs:443-479 | a waiting delivery can go on if and only if it is not stuck in this way |
| `TunnelBackpressure.FloodGetsStuck` | src-tauri/src/grid/tunnel.rs:443-479 | such a state is reached: a chunk written, 256 more queued before it is counted, and one more |
| `TunnelBackpressure.FreshExitGetsStuck` | src-tauri/src/grid/tunnel.rs:273-479 | it is reached from a fresh exit that opens its first tunnel, on any data |
| `EventLoop.PlacesIff` | src-tauri/src/grid/node.rs:500-604 | an arm puts a message into the outbound channel if and only if it registers an exit tunnel or closes a known client tunnel |
| `EventLoop.StoppedForGood` | src-tauri/src/grid/node.rs:500-604 | an arm that waits for the manager while a connection relays or waits for a place, for the client tunnels while a sender waits, or for a place in a full channel waits forever, whatever connections and read loops do |
| `EventLoop.IdlesIff` | src-tauri/src/grid/node.rs:500-604 | the event loop can get back to its channels if and only if it does not wait in one of these ways |
| `EventLoop.RunIdlesIff` | src-tauri/src/grid/node.rs:500-604 | so it is in every state that a fresh node can reach |
| `EventLoop.TakenIdlesIff` | src-tauri/src/grid/node.rs:500-604 | what an idle loop can tell before it takes up an arm: exactly when it will be able to get back |
| `EventLoop.RunKeepsRelaying` | src-tauri/src/grid/proxy.rs:424-514 | a connection that relays holds the manager in every continuation of the run |
| `EventLoop.RelayingDoomsTheLoop` | src-tauri/src/grid/proxy.rs:424-514 | once a connection has begun to relay, however long ago, the next request to open or close an exit tunnel, and the next answer that one has been closed, stops the event loop for good |
| `EventLoop.OneConnectionStopsTheNode` | src-tauri/src/grid/node.rs:533-541 | a run from a fresh node that stops with every channel empty: one tunnelled connection and a close request |
| `EventLoop.BusyTargetStopsTheExit` | src-tauri/src/grid/tunnel.rs:349-361 | a run from a fresh exit without any connection that stops: a target that sends until the channel is full, and another connect request |
| `Swarm.SwarmCoordinator.constructor` | src-tauri/src/grid/swarm.rs:290-313 | a coordinator starts with no tasks, the lowest tier and room for three |
| `Swarm.SwarmCoordinator.Upgrade` | src-tauri/src/grid/swarm.rs:321-328 | sets the tier and lists local inference for any tier above the lowest |
| `Swarm.SwarmCoordinator.Learn` | src-tauri/src/grid/swarm.rs:331-335 | lists a capability unless it is listed |
| `Swarm.SwarmCoordinator.Create` | src-tauri/src/grid/swarm.rs:340-366 | stores a pending task and queues it last |
| `Swarm.SwarmCoordinator.ClaimForSelf` | src-tauri/src/grid/swarm.rs:369-399 | claims a pending task if capacity and tier allow, taking it off the queue; the four refusals, in their order, change nothing |
| `Swarm.SwarmCoordinator.Progress` | src-tauri/src/grid/swarm.rs:402-420 | puts any known task in progress under this agent, capped at 100 |
| `Swarm.SwarmCoordinator.CompleteTask` | src-tauri/src/grid/swarm.rs:423-450 | completes any known task under this agent and frees its slot, with the wrapping duration |
| `Swarm.SwarmCoordinator.FailTask` | src-tauri/src/grid/swarm.rs:453-468 | fails any known task under this agent and frees its slot |
| `Swarm.SwarmCoordinator.UpdateAgentStatus` | src-tauri/src/grid/swarm.rs:478-483 | gives a known agent the status and marks it seen now |
| `Swarm.SwarmCoordinator.HandleMessage` | src-tauri/src/grid/swarm.rs:516-616 | the state change and the reply of every arm of the handler; what they come to is stated by `SwarmHistory.StatesAreExplained`, `SwarmHistory.ReportsTakeEffect`, `SwarmHistory.HeartbeatsCount` and `SwarmHistory.QuestionsAreAnswered` |
| `SwarmRuns.RetainMembers` | src-tauri/src/grid/swarm.rs:396 | retaining drops every occurrence of the id and nothing else |
| `SwarmRuns.RetainTakesOut` | src-tauri/src/grid/swarm.rs:396 | taking a queued id out leaves the other ids in their order |
| `SwarmRuns.StepKeepsIndexed` | src-tauri/src/grid/swarm.rs:340-468 | no call or message, however undisciplined, breaks the index over the tasks or the capacity bound |
| `SwarmRuns.RunsKeepIndexed` | src-tauri/src/grid/swarm.rs:340-616 | in every run each pending task is queued, each queued id names a stored task, and current tasks stay within capacity |
| `SwarmRuns.StepExactIff` | src-tauri/src/grid/swarm.rs:340-616 | a step keeps the queue exactly the pending ids, each once, if and only if it is careful: it creates or updates no pending task, and what it submits is pending and replaces no pending task |
| `SwarmRuns.RunExactIff` | src-tauri/src/grid/swarm.rs:340-616 | the queue is exact in every state of a run if and only if every step is careful |
| `SwarmRuns.RunsKeepExact` | src-tauri/src/grid/swarm.rs:340-616 | a careful run ends with an exact queue |
| `SwarmRuns.ClaimableIff` | src-tauri/src/grid/swarm.rs:624-641 | listed as claimable are exactly the stored tasks of queued ids that suit the agent's tier and capabilities |
| `SwarmRuns.ListedClaimIff` | src-tauri/src/grid/swarm.rs:369-399 | whatever was called before, a listed task can be claimed if and only if it is pending and capacity is left |
| `SwarmRuns.ClaimableCanBeClaimed` | src-tauri/src/grid/swarm.rs:624-641 | after every careful run from a new coordinator, a listed task can be claimed while capacity is left |
| `SwarmRuns.CarelessQueueGoesStale` | src-tauri/src/grid/swarm.rs:402-420 | a careless run from a new coordinator that lists a task nobody can claim |
| `SwarmRuns.StepOwnerIff` | src-tauri/src/grid/swarm.rs:369-616 | a step forgets no owner, leaves no final state and gives an owner only to the claimant of a pending task, if and only if it respects the task: local updates only by its holder or without effect, no renewed creation unless pending, submissions that agree |
| `SwarmRuns.RunOwnerIff` | src-tauri/src/grid/swarm.rs:369-616 | every step of a run does so if and only if every step respects the task |
| `SwarmRuns.FirstClaimantOwns` | src-tauri/src/grid/swarm.rs:369-586 | in every interleaving of respectful steps the owner recorded is the first claimant, also in the final state |
| `SwarmRuns.FinalStatesAreFinal` | src-tauri/src/grid/swarm.rs:531-586 | under respectful steps a completed, failed or cancelled task stays exactly as it is |
| `SwarmRuns.CompletingTakesOver` | src-tauri/src/grid/swarm.rs:423-450 | a disrespectful run from a new coordinator in which completing takes over another agent's completed task |
| `SwarmRuns.StepOccupiedIff` | src-tauri/src/grid/swarm.rs:340-616 | a step keeps every current task held by this agent if and only if, of a current task, it is no remote completion or failure, no creation and no submission that this agent does not hold |
| `SwarmRuns.RunOccupiedIff` | src-tauri/src/grid/swarm.rs:340-616 | so it is for every state of a run |
| `SwarmRuns.CapacityIsLost` | src-tauri/src/grid/swarm.rs:559-586 | a run from a new coordinator that leaves the agent at capacity with nothing to do |
| `SwarmHistory.StatesAreExplained` | src-tauri/src/grid/swarm.rs:340-586 | in every run from a new coordinator each task came into its state by an event that names this state and payload (its creation, claim, report, local call or submission), and has been in it ever since |
| `SwarmHistory.StepExplained` | src-tauri/src/grid/swarm.rs:340-586 | a step brings a task into a state it names, or leaves the task exactly as it is |
| `SwarmHistory.ReportsTakeEffect` | src-tauri/src/grid/swarm.rs:402-586 | a held task goes into exactly the state reported: progress, result or error under its holder for a message, under this agent and with progress capped at 100 for a local call |
| `SwarmHistory.CompletionTakesElapsed` | src-tauri/src/grid/swarm.rs:434-447 | a local completion records the milliseconds since creation; against a clock that is ahead, the difference wrapped around 64 bits |
| `SwarmHistory.QueueKeepsOrder` | src-tauri/src/grid/swarm.rs:340-541 | what is created or submitted goes to the end of the queue, what is claimed is taken out, and nothing else touches it |
| `SwarmHistory.TierAndCapabilities` | src-tauri/src/grid/swarm.rs:321-335 | in every run the agent has the tier of its last upgrade and exactly the capabilities it began with, was taught or got with a tier above the lowest |
| `SwarmHistory.KnownIff` | src-tauri/src/grid/swarm.rs:473-483 | in every run exactly the agents that have announced themselves are known |
| `SwarmHistory.HeartbeatsCount` | src-tauri/src/grid/swarm.rs:478-616 | an announcement is recorded as it is, a ping or pong makes a known agent ready and seen now, any other message leaves agents alone; a ping is answered with its timestamp |
| `SwarmHistory.QuestionsAreAnswered` | src-tauri/src/grid/swarm.rs:516-600 | questions change nothing and are answered with what is stored; with an exact queue the pending list is exactly the pending tasks |
| `Metrics.BandwidthMetrics.constructor` | src-tauri/src/grid/metrics.rs:118-137 | counters start at zero |
| `Metrics.BandwidthMetrics.RecordBytesSent` | src-tauri/src/grid/metrics.rs:140-159 | adds the bytes to the peer, the session and the total, and touches nothing else |
| `Metrics.BandwidthMetrics.RecordBytesReceived` | src-tauri/src/grid/metrics.rs:162-181 | the same for received bytes |
| `Metrics.BandwidthMetrics.RecordHandshake` | src-tauri/src/grid/metrics.rs:212-219 | counts one handshake in the session |
| `Metrics.BandwidthMetrics.ResetSession` | src-tauri/src/grid/metrics.rs:222-235 | starts a new session and leaves peers and totals alone |
| `Metrics.RunsConserveBytes` | src-tauri/src/grid/metrics.rs:140-235 | after any sequence of recording and reset calls the totals equal the sums over the peers and the sums over all sessions, ended and current |
| `Metrics.StepKeepsBalance` | src-tauri/src/grid/metrics.rs:140-235 | each call keeps the three views in agreement |
| `Metrics.CountersHoldTheRun` | src-tauri/src/grid/metrics.rs:140-235 | in every run the counters of each peer grow by exactly the bytes and transfers recorded for it, its last contact is the last of them, and the handshakes are those since the last reset |
| `Billing.RoundUpIsLeastMultiple` | src-tauri/src/grid/metrics.rs:294-295 | rounding gives the least multiple of the minimum that is not below the raw cost |
| `Billing.CostNearIdeal` | src-tauri/src/grid/metrics.rs:287-302 | the charge is below the ideal price by less than one unit per byte-hop, above it by less than one minimum unless the per-hop floor applies, and never below that floor |
| `Billing.WholeGigabytesExactIff` | src-tauri/src/grid/metrics.rs:287-302 | g whole gigabytes over h hops cost exactly g*h Qi if and only if g*h <= 1513 |
| `Billing.CostIsMultiple` | src-tauri/src/grid/metrics.rs:287-302 | every bill is a multiple of the minimum |
| `Billing.CostMonotone` | src-tauri/src/grid/metrics.rs:287-302 | more bytes or hops never cost less, and each further handshake costs one minimum more |
| `Billing.SplittingBills` | src-tauri/src/grid/metrics.rs:287-302 | splitting a bill never lowers the total and raises it by at most max(1, hops) minimums |
| `Billing.CommentHoldsIff` | src-tauri/src/grid/metrics.rs:285-297 | the bandwidth cost is what the comment says if and only if the bytes cost at most the minimum or the whole raw cost is a multiple of it |
| `Billing.CommentFailsForAGigabyte` | src-tauri/src/grid/metrics.rs:285-297 | one gigabyte over one hop costs 660865024 units more than the comment says |
| `Billing.NoOverflowIff` | src-tauri/src/grid/metrics.rs:287-302 | up to 18 GB-hops, 18,000,000 hops and 400,000 handshakes, no intermediate value leaves 64 bits if and only if there is a hop or the bytes are at most 19807040641 |
| `Billing.ZeroHopsCanOverflow` | src-tauri/src/grid/metrics.rs:293 | over zero hops one byte more overflows |
| `Tracker.CallLastsAsEstimated` | src-tauri/src/swarm/costs.rs:124-131 | a call has used up its balance exactly when it has lasted as long as the estimate for its action said |
| `Tracker.BytesCostAlike` | src-tauri/src/swarm/tracker.rs:117-123 | every byte of a data session costs the rate per 2^20 bytes, in either direction |
| `Tracker.LevelIsWorstReached` | src-tauri/src/swarm/tracker.rs:278-287 | the level found is the worst whose threshold the runway has reached; there is one exactly from 120 seconds down |
| `Tracker.SwitchingHelps` | src-tauri/src/swarm/tracker.rs:289-296 | voice is suggested only to video calls with at most a minute left, which would then last ten times as long and nine times their age more |
| `Tracker.SuggestionFollowsRunway` | src-tauri/src/swarm/tracker.rs:249-307 | a warning says to switch to voice exactly for a video call with a minute or less left, and to top up exactly for anything else with ten seconds or less; none is due above two minutes |
| `Tracker.UsageTracker.StartSession` | src-tauri/src/swarm/tracker.rs:168-182 | a session starts with nothing consumed and no warning given |
| `Tracker.UsageTracker.EndSession` | src-tauri/src/swarm/tracker.rs:185-200 | removes the session and returns what it consumed; an unknown one gives nothing |
| `Tracker.UsageTracker.RecordBytesSent` | src-tauri/src/swarm/tracker.rs:203-208 | adds to the session's sent bytes, ignoring unknown sessions |
| `Tracker.UsageTracker.RecordBytesReceived` | src-tauri/src/swarm/tracker.rs:211-216 | adds to the session's received bytes, ignoring unknown sessions |
| `Tracker.UsageTracker.CheckWarnings` | src-tauri/src/swarm/tracker.rs:230-307 | checks every session once, in whatever order; the warnings are exactly the due levels not given before, at most one a session |
| `Tracker.EachLevelOnce` | src-tauri/src/swarm/tracker.rs:230-246 | in every run a session is given each level at most once |
| `Tracker.CallRunway` | src-tauri/src/swarm/tracker.rs:249-280 | a call's runway is what the balance pays for, less the time elapsed |
| `Tracker.CallRunwayFalls` | src-tauri/src/swarm/tracker.rs:249-280 | it falls second for second, and no slower when the balance falls |
| `Tracker.DataRunway` | src-tauri/src/swarm/tracker.rs:249-280 | any other session is taken to go on at its average rate so far, and has no runway without age or consumption |
| `Tracker.StepKeepsEscalating` | src-tauri/src/swarm/tracker.rs:230-307 | with a forward clock and a balance that does not rise, each step keeps the levels given to calls strictly escalating and still due |
| `Tracker.CallWarningsEscalate` | src-tauri/src/swarm/tracker.rs:230-307 | so does every run: a call is warned Yellow, then Orange, then Red |
| `Tracker.RedIsLast` | src-tauri/src/swarm/tracker.rs:230-246 | nothing is given to a call after Red |
| `Tracker.CheckRisesIff` | src-tauri/src/swarm/tracker.rs:230-307 | a check keeps the levels given to any session rising if and only if none was given, nothing is burnt, the runway is within the threshold of the last level or above 120 seconds, or the level found was given before |
| `Tracker.CallRisesIff` | src-tauri/src/swarm/tracker.rs:230-307 | the same for calls, in terms of balance, rate and time elapsed |
| `Tracker.RunRisesIff` | src-tauri/src/swarm/tracker.rs:230-307 | the levels of all sessions rise throughout a run if and only if every check is of this kind for every session |
| `Tracker.RisingBalanceDeescalates` | src-tauri/src/swarm/tracker.rs:249-307 | a run in which a rising balance has a call warned Yellow after Red |
| `Tracker.IdleTransferDeescalates` | src-tauri/src/swarm/tracker.rs:117-133 | a run in which, with a constant balance, an idle file transfer is warned Yellow after Red |
| `Utf8.SliceIff` | src-tauri/src/grid/chat.rs:341-343 | slicing a text at a byte succeeds exactly at a character boundary and gives the beginning of that many bytes |
| `Chat.ChatManager.constructor` | src-tauri/src/grid/chat.rs:119-136 | a new database is empty and its lock sound |
| `Chat.ChatManager.GetOrCreateConversation` | src-tauri/src/grid/chat.rs:243-293 | gives the peer's conversation, creating it if there is none; a taken id or a poisoned lock fails and changes nothing |
| `Chat.ChatManager.Put` | src-tauri/src/grid/chat.rs:324-361 | appends the row and updates preview, time and unread count of its conversation; or fails and changes nothing; or panics in the preview, with the row stored, the conversation not updated and the lock poisoned |
| `Chat.ChatManager.StoreIncomingMessage` | src-tauri/src/grid/chat.rs:530-557 | posts a delivered message from the peer in the peer's conversation |
| `Chat.ChatManager.StoreOutgoingMessage` | src-tauri/src/grid/chat.rs:500-527 | posts a pending outgoing message from this node, with the same conditions; the result is the row appended, and `ChatHistory.UnreadCountsReceived` says that it counts for nothing |
| `Chat.ChatManager.MarkConversationRead` | src-tauri/src/grid/chat.rs:429-437 | clears the unread count and nothing else, unless the lock is poisoned |
| `Chat.ChatManager.UpdateMessageStatus` | src-tauri/src/grid/chat.rs:414-426 | changes the status of the row with the id and nothing else, unless the lock is poisoned |
| `Chat.PreviewIff` | src-tauri/src/grid/chat.rs:341-345 | there is a preview if and only if the text has at most 50 bytes or byte 47 is a character boundary; it has at most 50 bytes and is the text itself or its first 47 bytes and an ellipsis |
| `Chat.LongForeignTextsHaveNone` | src-tauri/src/grid/chat.rs:341-345 | a text of more than 50 bytes in characters of one width from two to four bytes has no preview |
| `Chat.StoreConsistentIff` | src-tauri/src/grid/chat.rs:324-361 | storing keeps the tables consistent if and only if the insert is refused or the text fits |
| `Chat.PostConsistentIff` | src-tauri/src/grid/chat.rs:500-557 | so does posting, conversation included |
| `Chat.StepConsistentIff` | src-tauri/src/grid/chat.rs:243-557 | a step keeps the tables consistent if and only if it does not store a message whose text does not fit |
| `Chat.RunConsistentIff` | src-tauri/src/grid/chat.rs:243-557 | in a run, restarts included, every state has one conversation per peer, unique message ids, unread counts equal to the incoming messages since the last mark, and previews and times of the last message, if and only if no step stores a message whose text does not fit |
| `Chat.RunsKeepConsistent` | src-tauri/src/grid/chat.rs:243-557 | a run that stores no such message ends with consistent tables |
| `Chat.FittingTextsNeverCut` | src-tauri/src/grid/chat.rs:324-361 | it is enough that the texts of all messages fit |
| `Chat.EmptyIsConsistent` | src-tauri/src/grid/chat.rs:139-182 | the empty database is consistent |
| `Chat.StatusKeepsUnread` | src-tauri/src/grid/chat.rs:414-426 | changing a status never changes what counts as unread |
| `Chat.PoisonedIsInert` | src-tauri/src/grid/chat.rs:243-437 | after a panic every call leaves the tables alone until a restart |
| `Chat.AccentsDoNotFit` | src-tauri/src/grid/chat.rs:341-345 | 26 accented letters, 52 bytes, have no preview |
| `Chat.PanicIsNotRepaired` | src-tauri/src/grid/chat.rs:324-361 | a first message whose text does not fit, a restart and its redelivery leave one incoming row in a conversation that counts none unread and shows nothing |
| `Chat.PostOutcome` | src-tauri/src/grid/chat.rs:500-557 | exactly when a message is stored, when its row is left behind by a panic and when nothing is stored; a failure keeps all rows and conversations |
| `Chat.OrphanConversationIff` | src-tauri/src/grid/chat.rs:530-557 | exactly when posting is refused and yet leaves a new conversation behind: the peer had none, one could be created, and the row is turned down for its time or its id |
| `Chat.LateMessageLeavesConversation` | src-tauri/src/grid/chat.rs:530-557 | a first message with a time above 2^63 - 1 leaves a conversation and no row |
| `Chat.RedeliveryIsIgnored` | src-tauri/src/grid/chat.rs:530-557 | once its row is stored, delivering a message again at any later time fails and changes nothing, whatever came between |
| `ChatHistory.ShortIdIff` | src-tauri/src/grid/chat.rs:500-547 | a new conversation is named after the first eight bytes of the peer id, or all of it, and exactly if they end at a character |
| `ChatHistory.PostingRecords` | src-tauri/src/grid/chat.rs:500-557 | a message that can be posted leaves exactly one row, the last, with its id, text and time, in the conversation with the peer: incoming, delivered and from the peer if received, outgoing, pending and from this node if written |
| `ChatHistory.RowsAreRecorded` | src-tauri/src/grid/chat.rs:500-557 | in every run every row records one of the messages posted, whatever has become of its status |
| `ChatHistory.RunsKeepTimes` | src-tauri/src/grid/chat.rs:324-361 | no run stores a time of 2^63 or more |
| `ChatHistory.UnreadCountsReceived` | src-tauri/src/grid/chat.rs:324-437 | in every run without a cut preview the unread count of a conversation is the number of messages received from its peer and stored since it was last marked read |
| `Paging.GetMessages` | src-tauri/src/grid/chat.rs:364-399 | returns up to `limit` of the newest messages of the conversation before the cursor, each once, oldest first, and all of them if it returns fewer; fails exactly for a cursor of 2^63 or more or a poisoned lock |
| `Paging.ReadAll` | src-tauri/src/grid/chat.rs:364-399 | asking with the oldest timestamp of each page as the next cursor until a page is empty never fails on a sound lock with times below 2^63, ends, and gives a complete walk; with distinct timestamps the whole history in order |
| `Paging.PageIsReversedAnswer` | src-tauri/src/grid/chat.rs:397-398 | every such page is the reversal of a possible query result |
| `Paging.PageExists` | src-tauri/src/grid/chat.rs:364-399 | there is such a page for every history and limit |
| `Paging.WalkExists` | src-tauri/src/grid/chat.rs:364-399 | there is a complete walk for every history and positive limit |
| `Paging.WalkTerminates` | src-tauri/src/grid/chat.rs:364-399 | with a positive limit a walk has at most one page more than there are messages |
| `Paging.NothingTwice` | src-tauri/src/grid/chat.rs:364-399 | no message is returned twice |
| `Paging.LaterPagesAreOlder` | src-tauri/src/grid/chat.rs:364-399 | everything on a later page is strictly older than everything on an earlier one |
| `Paging.SkippedIff` | src-tauri/src/grid/chat.rs:364-399 | a complete walk skips a message if and only if it shares its timestamp with the oldest message of a page it is not on |
| `Paging.SinglePagesLoseTies` | src-tauri/src/grid/chat.rs:364-399 | one message to a page, two messages of one instant are never both found |
| `Paging.NothingLostIff` | src-tauri/src/grid/chat.rs:364-399 | no complete walk with any positive limit loses a message if and only if no two messages share a timestamp |
| `Paging.DistinctTimesLoseNothing` | src-tauri/src/grid/chat.rs:364-399 | with distinct timestamps the joined pages are the whole history in order |
| `Paging.HistoryIsUnique` | src-tauri/src/grid/chat.rs:364-399 | there is only one history in order, so the result does not depend on the limit |
| `Paging.TiesAreLost` | src-tauri/src/grid/chat.rs:364-399 | three messages of one instant, two to a page: the third is never returned |
| `Bootstrap.Recency` | src-tauri/src/grid/bootstrap.rs:49-51 | the recency factor lies in (0, 1] and is 1 exactly for a connection made now |
| `Bootstrap.ScoreRange` | src-tauri/src/grid/bootstrap.rs:41-54 | scores lie in [0, 1]; 1 is reached exactly by a peer connected now that never failed |
| `Bootstrap.ScoreIsShareByAge` | src-tauri/src/grid/bootstrap.rs:41-54 | the score is the share of successes divided by one and the days since the last connection, and a half for a peer never tried |
| `Bootstrap.HalfWeightIff` | src-tauri/src/grid/bootstrap.rs:49-53 | the weight is at least a half exactly within a day of the last connection, and a half exactly a day after it |
| `Bootstrap.ScoresDecay` | src-tauri/src/grid/bootstrap.rs:41-54 | time alone never raises a score |
| `Bootstrap.FailureLowersScoreIff` | src-tauri/src/grid/bootstrap.rs:41-65 | a failure never raises a score, and lowers it if and only if there is a success to lose or no failure yet |
| `Bootstrap.SuccessNeverLowersScore` | src-tauri/src/grid/bootstrap.rs:41-60 | a success never lowers a score |
| `Bootstrap.PeerStorage.PruneOldPeers` | src-tauri/src/grid/bootstrap.rs:306-327 | keeps the best peers unchanged up to the limit, whatever order the sort gives ties |
| `Bootstrap.PeerStorage.UpsertPeer` | src-tauri/src/grid/bootstrap.rs:200-218 | a kept peer has one success more, is connected now and has the address, or is new with just these; every other kept peer is unchanged; and only the best are kept |
| `Bootstrap.PeerStorage.RecordConnectionFailure` | src-tauri/src/grid/bootstrap.rs:231-249 | counts the failure of this peer, which stays exactly if its failures are then below the limit; all others are unchanged |
| `Bootstrap.PeerStorage.RecordConnectionSuccess` | src-tauri/src/grid/bootstrap.rs:221-228 | counts the success of a known peer and makes it connected now; all others are unchanged |
| `Bootstrap.SavedAddresses` | src-tauri/src/grid/bootstrap.rs:262-275 | collects the full addresses of the peers in order |
| `Bootstrap.PeerStorage.GetBootstrapAddresses` | src-tauri/src/grid/bootstrap.rs:253-287 | first the full addresses of the best peers in order; if they are too few, exactly the missing hardcoded ones after them, each once |
| `Bootstrap.FullAddressNamesPeer` | src-tauri/src/grid/bootstrap.rs:265-271 | an address to dial begins with the saved one and names a peer; it differs from it exactly if that named none, and then ends with this peer |
| `Bootstrap.FirstAreBest` | src-tauri/src/grid/bootstrap.rs:312-326 | the first peers of an order by falling score beat all others |
| `Bootstrap.OrderExists` | src-tauri/src/grid/bootstrap.rs:312-317 | every set of peers has such an order |
| `Bootstrap.UpsertKeepsBest` | src-tauri/src/grid/bootstrap.rs:200-218 | after an upsert the limit holds, no dropped peer beats a kept one, and a new peer is dropped only if all kept ones have the maximal score 1 |
| `Bootstrap.RunsStayHealthy` | src-tauri/src/grid/bootstrap.rs:200-249 | in every run from healthy storage each peer has a success and fewer failures than the limit |
| `Bootstrap.NoStoredPeerIsExhausted` | src-tauri/src/grid/bootstrap.rs:231-249 | from empty storage, every stored peer has failures left and loses score with the next one |
| `Decimal.PrintThenRead` | src-tauri/src/grid/userid.rs:116-120 | printing a number in decimal and reading it back gives the number |
| `Decimal.PaddedKeepsValue` | src-tauri/src/grid/userid.rs:93 | zero-padding a number that fits gives exactly the width and keeps the number |
| `UserId.ConstructorsAreWellFormed` | src-tauri/src/grid/userid.rs:86-163 | every id built by any of the four constructors has ten digits and a zone of one digit, if any; an SBT id is built exactly from ten digits, which it keeps with the code of its zone |
| `UserId.DigitsHoldTheDraw` | src-tauri/src/grid/userid.rs:86-122 | the digits hold exactly the numbers drawn, or the hash prefix reduced to ten digits |
| `UserId.NormalizedDropsSeparators` | src-tauri/src/grid/userid.rs:142 | normalizing leaves no dash and no space, and takes out nothing else |
| `UserId.NormalizedKeepsOthers` | src-tauri/src/grid/userid.rs:142 | every other character stays, moved to the front by the number of dashes and spaces before it |
| `UserId.ParsesIff` | src-tauri/src/grid/userid.rs:141-163 | the parser accepts exactly ten or eleven digits once dashes and spaces are gone, and keeps all of them in order |
| `UserId.RoundTripIff` | src-tauri/src/grid/userid.rs:141-190 | both printed forms parse back to the id, if and only if it is well-formed |
| `UserId.DisplayShape` | src-tauri/src/grid/userid.rs:165-180 | the display has dashes exactly between the groups of 3, 3 and 4 digits and after the zone |
| `UserId.PrintedFormsAreInjective` | src-tauri/src/grid/userid.rs:168-190 | different well-formed ids have different storage keys and displays |
| `UserId.LongZonesCollide` | src-tauri/src/grid/userid.rs:185-190 | for every zone of more than one digit the storage key is also that of another id |
| `Io.Stream.ReadExact` | src-tauri/src/grid/protocol.rs:235-236 | fills the buffer with the next bytes and consumes exactly these, or fails at the end of the stream |
| `Codec.WriteFrame` | src-tauri/src/grid/protocol.rs:277-315 | appends the frame, or as much of it as the stream takes, and succeeds exactly if it takes all and flushes |
| `Codec.FailedWriteReadsAsNothing` | src-tauri/src/grid/protocol.rs:277-315 | what a failing write leaves of a frame within the limits reads as nothing |
| `Codec.ReadFrame` | src-tauri/src/grid/protocol.rs:227-275 | reads one frame step by step as specified, leaving what follows |
| `Codec.BigEndianRoundTrip` | src-tauri/src/grid/protocol.rs:237 | the four length bytes hold every 32-bit length |
| `Codec.FrameRoundTripIff` | src-tauri/src/grid/protocol.rs:227-315 | a frame is read back with the rest of the stream untouched if and only if the payload fits the limit and 32 bits |
| `Codec.ProperPrefixIsIncomplete` | src-tauri/src/grid/protocol.rs:235-247 | no proper prefix of a frame decodes |
| `Codec.OversizedRejectedUnread` | src-tauri/src/grid/protocol.rs:239-244 | an oversized length is refused with the body unread |
| `Codec.StreamRoundTrip` | src-tauri/src/grid/protocol.rs:227-315 | any sequence of fitting messages is read back whole from the stream, with nothing lost or left over |
| `Socks5.AddressParses` | src-tauri/src/grid/proxy.rs:358-401 | each address form of section 4 of RFC 1928 is parsed to its host and port and consumed exactly |
| `Socks5.WellFormedParsesIff` | src-tauri/src/grid/proxy.rs:313-401 | a well-formed no-auth CONNECT yields its host and port, consumes exactly greeting and request and answers only the greeting, if and only if the first read returns both bytes |
| `Socks5.AcceptedIsWellFormed` | src-tauri/src/grid/proxy.rs:313-401 | whatever yields a target is a greeting and a CONNECT request of section 4 of RFC 1928 for this target, followed by what is left unread |
| `Socks5.RequestRefusedIff` | src-tauri/src/grid/proxy.rs:338-401 | a request after a complete greeting is refused for its version, command or address type exactly if that is not 5, not 1, or none of 1, 3 and 4 |
| `Socks5.MethodChoiceIff` | src-tauri/src/grid/proxy.rs:332-336 | the method choice written is the one section 3 of RFC 1928 requires if and only if the method without authentication was offered |
| `Socks5.PasswordOnlyIsAnsweredWithNone` | src-tauri/src/grid/proxy.rs:332-336 | a client that offers only a password is told that none is needed |
| `Socks5.Ipv4TextInjective` | src-tauri/src/grid/proxy.rs:363-366 | the dotted text determines the four bytes |
| `Socks5.Ipv6TextInjective` | src-tauri/src/grid/proxy.rs:387-393 | the colon-separated text determines the sixteen bytes |
| `Socks5.HostInjective` | src-tauri/src/grid/proxy.rs:358-401 | within one address type different addresses have different host texts |
| `Socks5.Reply` | src-tauri/src/grid/proxy.rs:635-656 | a reply has ten bytes: version 5, the code, zero, address type IPv4 and a bound address and port of zeros, as section 6 of RFC 1928 lays them out |
| `Socks5.OneReplyBeforeRelay` | src-tauri/src/grid/proxy.rs:305-632 | on every path the client is sent nothing, or the method choice and at most one ten-byte reply, and relayed bytes only after a success reply |
| `Socks5.TranscriptRepliesFit` | src-tauri/src/grid/proxy.rs:305-632 | which reply code of section 6 of RFC 1928 follows what, in both directions: success exactly for a tunnel or direct connection that came about, followed by exactly the bytes returned; each failure exactly for its reasons; no reply for a client that is gone or speaks another version |
| `Socks5.RequiredReplyIff` | src-tauri/src/grid/proxy.rs:346-404 | the reply to a request has the code that section 6 of RFC 1928 has for the case if and only if its command and address type are supported |
| `Socks5.ReadGreeting` | src-tauri/src/grid/proxy.rs:313-330 | accepts exactly version 5 with all methods present, and reports and consumes on failure as the parser does |
| `Socks5.ReadIpv4` | src-tauri/src/grid/proxy.rs:359-369 | reads an IPv4 address and port off the stream as the parser says |
| `Socks5.ReadDomain` | src-tauri/src/grid/proxy.rs:370-382 | reads a domain name and port off the stream as the parser says |
| `Socks5.ReadIpv6` | src-tauri/src/grid/proxy.rs:383-396 | reads an IPv6 address and port off the stream as the parser says |
| `Socks5.ReadAddress` | src-tauri/src/grid/proxy.rs:358-401 | dispatches on the address type and answers an unknown one with a failure reply |
| `Socks5.ReadRequest` | src-tauri/src/grid/proxy.rs:338-401 | checks version and command before the address, replying as the parser says |
| `Socks5.ReadHandshake` | src-tauri/src/grid/proxy.rs:313-401 | the step-by-step handshake does to stream and socket what the parser says, wherever a write fails |
| `Socks5.Relay` | src-tauri/src/grid/proxy.rs:486-497 | forwards the returned chunks in order as far as the socket takes them and counts the bytes of those written whole |
| `Socks5.Serve` | src-tauri/src/grid/proxy.rs:412-632 | replies with the outcome of the tunnel or the direct connection as the transcript has it, wherever a write fails; the codes are stated by `Socks5.TranscriptRepliesFit` |
| `Socks5.HandleConnection` | src-tauri/src/grid/proxy.rs:305-632 | whatever the client sends, whatever the world does and wherever the socket fails, the client sees the transcript as far as its socket takes it; and on a socket that takes everything the reply codes fit the outcome |
| `Transfer.CandidatesDiffer` | src-tauri/src/grid/transfer.rs:142-158 | candidates with different counters are different names |
| `Transfer.TakenCandidatesBounded` | src-tauri/src/grid/transfer.rs:141-159 | no more candidates can be taken than there are entries |
| `Transfer.StemAndExtension` | src-tauri/src/grid/transfer.rs:142-149 | stem and extension put together again give the name |
| `Transfer.StemEndsBeforeLastDot` | src-tauri/src/grid/transfer.rs:142-149 | the stem of a plain name with an inner dot ends before its last dot, and the extension is what follows it |
| `Transfer.StemWithoutInnerDot` | src-tauri/src/grid/transfer.rs:142-149 | a plain name with no dot but a leading one is all stem |
| `Transfer.FileNameIsLastComponent` | src-tauri/src/grid/transfer.rs:142-149 | the file name of a path is what follows its last slash, unless that is nothing or dots |
| `Transfer.CandidateIsAnotherName` | src-tauri/src/grid/transfer.rs:142-158 | a plain name is none of its own candidates |
| `Transfer.TakenCandidatesBesideName` | src-tauri/src/grid/transfer.rs:141-159 | with a taken plain name, fewer candidates are taken than there are entries |
| `Transfer.FileTransfer.FreshName` | src-tauri/src/grid/transfer.rs:139-159 | the search asks at most one time more than there are entries if the requested plain name is one of them, else at most two, the first call included, and ends with a name not taken and the smallest usable counter |
| `Transfer.FileTransfer.SaveFile` | src-tauri/src/grid/transfer.rs:130-212 | saves under the fresh name, records the completed transfer and raises the all-time received bytes by exactly the length; a file that cannot be created changes nothing, one that cannot be written stays behind with what was written, unrecorded and unmetered |

## Left out

- libp2p, TCP, the relay binary and the Stratum client: networking in libraries.
- The tunnel return path: as wired, returning data is sent as a request that the receiver looks up among its exit tunnels,
  so it is not delivered; the exit's own queued messages are therefore not transported in `TunnelProtocol`.
- Removal of failed or timed-out tunnels: the source does not remove them, and the model keeps them too.
- Back-pressure in `TunnelProtocol`, whose queues are unbounded: its safety theorems are about what has been handed over,
  delivered and counted; that channels and locks can stop the node altogether is the subject of `TunnelBackpressure` and
  `EventLoop`.
- A send that fails because the event loop has ended, and the event loop's other channels (commands and grid events).
- The wait for the receive task before a tunnel is closed: `TunnelProtocol` lets a connection close at any time after
  sending, and so keeps its theorems for more runs than there are. `EventLoop` follows the code: without returning data
  the wait does not end.
- 64-bit wrap-around of tunnel ids and of byte and time counters outside billing and task durations; counters are naturals.
- Byte counters of client tunnels, which the source never updates; the metrics updates of the receive task and of direct
  connections, whose totals `Socks5.Relay` counts.
- `Socks5.HandleConnection`: the far side of the connection (what is forwarded to tunnel or target) is the subject of
  `ProxyRelay` and `TunnelProtocol`, not of this method.
- `Socks5.WellFormedParsesIff`: domains outside ASCII, because lossy UTF-8 decoding is a parameter.
- Chat: a panic also ends the task it happens in, the event loop included; the model follows only the store.
- `Transfer.FileTransfer.SaveFile`: whether the requested path exists is a parameter, since it may lie outside the
  directory; hashes and times are not modelled.
- `Bootstrap.PeerStorage.UpsertPeer`: saving the peers to disk.
- Contacts, online flags and listing of conversations in the chat database; creating an outgoing message with a generated
  id, which stores it in the same way.
- Descriptions, types, parents, contexts and priorities of tasks; `find_capable_agents`; registering agents by hand.
- Texts of warnings; summaries and cost estimates; units of inference, compute and storage sessions, which no tracker call
  changes.
- Ids inside error texts; formatting of bandwidth and costs; JSON export; `calculate_cost_qi`.
- The other transfer methods, which update one entry each.
- The user id registry, contact cards and profiles; onion routing, mailbox and shards; SBT verification.
- MCP server, Tauri commands, UI, wallet, app registry, payment, storage and bandwidth workers.
