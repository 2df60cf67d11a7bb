# Verification of the fleet's delivery, ownership, upgrade and repair protocols

The repository coordinates a fleet of long-running agents: they send each other messages, share
registry slots, are upgraded one by one and are kept running by a watchdog. This project models
the parts of it that are protocols and proves what their comments and tests promise.

- **Effectively-once delivery.** A sender persists a message, sends it, retries with capped
  exponential backoff until a wall-clock time-to-live ends, then dead-letters it. A receiver
  persists and deduplicates by id, fires `onNotify`, marks the entry and accepts the message; a
  drain tick re-fires entries whose first handling threw. `OutboxProtocol`, `OutboxSequential`,
  `DispatchProtocol`, `InboxProtocol`, `InboxOnce` and `Delivery` are step systems in which requests
  and answers may be lost, messages are resent, handlers may throw, the sender may restart and drives
  and dispatches may overlap. `OutboxCode`, `InboxCode`, `AttemptLog` and `NotifyPeer` are the classes
  and loops, each call proved to be a stretch of a protocol run.
- **Slot ownership.** Any number of instances compete for one registry slot (`SlotRegistry`):
  collision check (`Collision`, on `Semver`), claim loop (`Takeover`), heartbeats, stand-down and
  shutdown (`SlotOwnership` as a step system, `SlotCode` as code).
- **Rolling upgrade.** The verify gate (`GreenGate`), planning and halt classification
  (`HaltClassification`), the grammar of driver calls as a monitor (`RollTrace`), the driver with its
  locks and heartbeats (`RollDriver`), one agent's turn (`FleetUpgrade`), one fleet (`FleetRoll`) and
  the run over fleets (`UpgradeFleets`).
- **Desired-state reconciler.** One agent's turn and the escalation ladder over unboundedly many
  sweeps (`ReconcileLadder`), the code of a sweep (`ReconcileCode`), and dry run against execution
  (`ReconcileDryRun`).
- **Small structures.** The per-target wake queue (`WakeQueue`), the token cache (`TokenCache`),
  one-shot challenges (`ChallengeStore`), canonical tokens (`Tokens`) and grouped conflict
  detection (`NormConflicts`).

`Common` holds optional values and JavaScript's insertion-ordered `Map`.

## How to read the models

A step system is a state, a total `Step` and its fold `After`. An event that is not enabled leaves
the state as it is, so **every** sequence of events is a run and a lemma about `After(…, evs)` is
about every run. The network, other processes, clocks and failures are events or parameters: a
function such as `reply`, `probe`, `slot` or `replies` stands for whatever the environment answers,
and a theorem over all such functions is a theorem over all environments. Classes hold the fields
the source updates; a ghost history ties their state to a run of the step system, so what is proved
of runs holds of the code. Clocks are unbounded integers and, unless a lemma says otherwise, may
run backwards.

## Where the comments promise more than the code does

- "Invoked once per TTL-expired entry" (`packages/macf-channel-server/src/delivery/outbox.ts:85`)
  fails when drives overlap, and they do: a dispatch drives the outbox while the ticker may be
  mid-drive. `OutboxSequential.AlwaysOnceIff` shows that keeping at most `n` drives in progress
  guarantees it exactly for `n <= 1`; `OverlapEndsTwice` is the failing run.
- "At most one normal `onNotify` per message" needs the receive handler to finish within the
  grace window. `InboxOnce.AtMostOnceIff` gives the exact bound on the handler's duration, and
  `SlowHandlerTwice` the failing run.
- The count of delivered peers that `notifyPeer` returns is read from a map of last attempts that is
  bounded to 500 ids and that every drive of the process writes. `DispatchProtocol.AlwaysTrueIff`
  shows that dispatches of at most 500 peers report the truth in every run exactly if at most one
  dispatch, tick or lone enqueue is in progress at a time; `RaceLies` is the failing run, in which a
  dispatch and a tick send one message, the tick's send is acked and the dispatch's is refused after
  it. `NotifyPeer.TrueReportIff` shows that a dispatch with nothing else in progress reports the truth
  whatever the transport does exactly if it sends at most 500 messages.

## Model

| member | source | states |
|---|---|---|
| OutboxProtocol.RunInv | packages/macf-channel-server/src/delivery/outbox.ts:133-206 | however drives overlap: stored and listed entries are enqueued messages, each retry time is at most enqueue time + ttl + cap, every enqueued id is pending or ended and never both |
| OutboxProtocol.RemovedStaysRemoved | packages/macf-channel-server/src/delivery/in-memory-store.ts:34-46 | an id removed from the store never becomes pending again in any continuation, with drives on stale snapshots |
| OutboxProtocol.DeadlineDriveRemoves | packages/macf-channel-server/src/delivery/outbox.ts:156-202 | a drive begun ttl + cap or later, and strictly later than ttl, after the enqueue leaves the message removed once it finishes in the same process, whatever else happens meanwhile |
| OutboxProtocol.BackoffDoubles | packages/macf-channel-server/src/delivery/outbox.ts:71-78 | the first wait is the smaller of base and cap, every later one the smaller of twice the one before and the cap |
| OutboxProtocol.DefaultWaits | packages/macf-channel-server/src/delivery/outbox.ts:52-78 | the default waits are one second, doubling up to 256 seconds, then five minutes; the default time-to-live is a day |
| OutboxSequential.Conservation | packages/macf-channel-server/src/delivery/outbox.ts:148-206 | without overlap, restarts included, the ids ever enqueued are the disjoint union of pending, acked and dead-lettered, each ended once |
| OutboxSequential.OverlapEndsTwice | packages/macf-channel-server/src/delivery/outbox.ts:164-170 | for every configuration, a run with two overlapping drives dead-letters one message twice |
| OutboxSequential.AlwaysOnceIff | packages/macf-channel-server/src/delivery/outbox.ts:85-94 | every run with at most n drives in progress, restarts included, ends every message once, iff n <= 1 |
| OutboxSequential.SendsWithinBudget | packages/macf-channel-server/src/delivery/outbox.ts:157-202 | of the sends of one id all but those a restart interrupted satisfy: the backoffs between n of them sum to at most the ttl; interrupted sends are at most the restarts |
| OutboxSequential.AtMost296Sends | packages/macf-channel-server/src/delivery/outbox.ts:52-78 | with the default base, cap and ttl no id is sent more than 296 times plus once per restart that interrupted its send |
| OutboxSequential.SendsPossibleIff | packages/macf-channel-server/src/delivery/outbox.ts:157-202 | for every configuration a restart-free run with n sends of one message exists iff the first n - 1 backoffs sum to at most the ttl |
| OutboxSequential.DefaultSendsIff | packages/macf-channel-server/src/delivery/outbox.ts:52-78 | a restart-free run with n sends of one message exists iff n <= 296 |
| OutboxSequential.CountersBalance | packages/macf-channel-server/src/delivery/outbox.ts:181-205 | a drive not awaiting a send has attempted = acked + failed, under any overlap |
| OutboxCode.OutboxStore.Enqueue | packages/macf-channel-server/src/delivery/in-memory-store.ts:26-28 | the listing gets a new entry at its end, a known id keeps its place; no other entry changes |
| OutboxCode.OutboxStore.ListPending | packages/macf-channel-server/src/delivery/in-memory-store.ts:30-32 | the entries in insertion order |
| OutboxCode.OutboxStore.Reschedule | packages/macf-channel-server/src/delivery/in-memory-store.ts:34-38 | changes only the retry time and count of a present id, keeps its place; nothing for an absent id |
| OutboxCode.OutboxStore.MarkAcked | packages/macf-channel-server/src/delivery/in-memory-store.ts:40-42 | exactly that id is gone from the map; the rest is listed in the order it was |
| OutboxCode.OutboxStore.DeadLetter | packages/macf-channel-server/src/delivery/in-memory-store.ts:44-46 | exactly that id is gone from the map; the rest is listed in the order it was |
| OutboxCode.CountsBalance | packages/macf-channel-server/src/delivery/outbox.ts:151-205 | a drive's counters: acked counts the listed entries due within their time-to-live whose send acked, failed those whose send did not, attempted is their sum, and there is one escalation per dead letter, for exactly the listed due entries past their time-to-live |
| OutboxCode.DrivenRight | packages/macf-channel-server/src/delivery/outbox.ts:148-206 | what a drive computes for the store agrees, entry by entry, with the plain reading: kept, removed, or rescheduled by the backoff |
| OutboxCode.DriveRun | packages/macf-channel-server/src/delivery/outbox.ts:148-206 | the events of one drive loop lead the protocol to the store, births and terminal actions the loop leaves |
| OutboxCode.Outbox.constructor | packages/macf-channel-server/src/delivery/outbox.ts:126-131 | an outbox over a store left by any earlier non-overlapping run, a drive in progress included, resumes it: that run, then a restart |
| OutboxCode.Outbox.Enqueue | packages/macf-channel-server/src/delivery/outbox.ts:133-146 | the message is stored, due at once, before any send; one protocol step |
| OutboxCode.Outbox.DriveEntry | packages/macf-channel-server/src/delivery/outbox.ts:156-203 | one entry's turn: not due, it stays as it was; acked or past its time-to-live, it is gone; otherwise it has one failure more and is due after the backoff, which is min(base, cap) for a first failure; it is escalated iff due past its time-to-live |
| OutboxCode.Outbox.DriveOnce | packages/macf-channel-server/src/delivery/outbox.ts:148-206 | the same of every entry after the tick, and no new entry; what it ended in order, its counters and escalations; a stretch of a non-overlapping run |
| InboxProtocol.RunInv | packages/macf-channel-server/src/https.ts:653-669 | every run keeps handlers, tick and inbox consistent, and the call log explains each entry's processed flag |
| InboxOnce.CallBounds | packages/macf-channel-server/src/delivery/inbox-drain-driver.ts:155-235 | per id one receipt call iff it was received, at most maxAttempts drain calls, on each path calls equal returns plus throws plus the call awaited, and processed implies some call returned |
| InboxOnce.ReturnsAtMostOnce | packages/macf-channel-server/src/delivery/inbox-drain-driver.ts:198-212 | if handlers finish within a bound that is at most the grace, or the drain never fires, at most one call per id returns normally |
| InboxOnce.SlowHandlerTwice | packages/macf-channel-server/src/delivery/inbox-drain-driver.ts:198-212 | otherwise some run within the bound has two normal returns for one id |
| InboxOnce.AtMostOnceIff | packages/macf-channel-server/src/delivery/inbox-drain-driver.ts:198-212 | handlers bounded by b always return at most once per id iff b <= grace or the drain never fires |
| InboxCode.InboxStore.Persist | packages/macf-channel-server/src/delivery/in-memory-store.ts:55-64 | new iff the id was absent; a new id is listed last, a known one keeps its entry |
| InboxCode.InboxStore.ListUndrained | packages/macf-channel-server/src/delivery/in-memory-store.ts:75-79 | exactly the unprocessed ids, each once, in insertion order |
| InboxCode.UndrainedConcat | packages/macf-channel-server/src/delivery/in-memory-store.ts:75-79 | the listing of the store is that of any first part of it followed by that of the rest: insertion order |
| InboxCode.InboxStore.MarkProcessed | packages/macf-channel-server/src/delivery/in-memory-store.ts:81-85 | flags a present id only, and nothing changes its place |
| InboxCode.Receiving.HandleMessage | packages/macf-channel-server/src/https.ts:653-684 | fired iff new; the answer reads as an ack to the sender iff nothing fired or it returned; marked only after a normal return; the exact protocol events of the call |
| InboxCode.AnswerOf | packages/macf-channel-server/src/https.ts:1279-1287 | on either wire the sender takes the answer for an ack iff the message was accepted; the status is 500 exactly for a refusal on the legacy wire, else 200, and an error is reported iff it was refused |
| InboxCode.Receiving.DrainEntry | packages/macf-channel-server/src/delivery/inbox-drain-driver.ts:169-232 | one entry and its attempt counter after its turn |
| InboxCode.Receiving.DriveInboxOnce | packages/macf-channel-server/src/delivery/inbox-drain-driver.ts:155-235 | for every entry, by its age and failed re-fires: called and marked with its counter dropped, called and counted one failure more, given up as expired, or left as it was; the exact protocol events; attempted is the entries called for and drained plus failed, drained the entries that became processed, gave up the undrained ones left with no attempts |
| Delivery.AckedIsPersisted | packages/macf-channel-server/src/https.ts:1090-1115 | over every run of sender, lossy network and receivers: an acked id is in its target's inbox with the payload derived from the one enqueued |
| Delivery.NothingInvented | packages/macf-channel-server/src/delivery/inbox.ts:67-76 | an inbox holds only messages enqueued for that receiver, with their payload |
| Delivery.PeerRuns | packages/macf-channel-server/src/https.ts:653-684 | what a receiver sees of a system run is a run of the receiver protocol, prompt if the whole is |
| Delivery.SenderRuns | packages/macf-channel-server/src/delivery/outbox.ts:148-206 | what the sender does in a system run is a run of the outbox protocol |
| Delivery.EffectivelyOnce | packages/macf-channel-server/src/delivery/inbox-drain-driver.ts:155-235 | per message and receiver, over the whole system: one receipt call iff received, bounded drain calls, processed implies returned, at most one return with prompt handlers |
| AttemptLog.RecordedBounded | packages/macf-channel-server/src/notify-peer.ts:947-953 | the map never exceeds 500 ids, holds the attempt just recorded, and evicts only the longest tracked id for a new one |
| AttemptLog.FreshOrder | packages/macf-channel-server/src/notify-peer.ts:947-953 | fresh ids queue behind the tracked ones and the last 500 of all remain, in order |
| AttemptLog.FreshTracked | packages/macf-channel-server/src/notify-peer.ts:947-953 | a fresh id is still tracked iff fewer than 500 were recorded after it, then with its own attempt |
| AttemptLog.DeliveredCounts | packages/macf-channel-server/src/notify-peer.ts:835-836 | the reported count is the number of results that say delivered |
| NotifyPeer.NewEntryEnds | packages/macf-channel-server/src/notify-peer.ts:813-816 | a message enqueued by the call leaves the store in its drive iff its send acked or it had expired by the drive's clock |
| NotifyPeer.ResultIs | packages/macf-channel-server/src/notify-peer.ts:813-833 | in a call of at most 500 messages each result is what its own send came to, and nothing delivered or reached if it had none |
| NotifyPeer.TrueReportIff | packages/macf-channel-server/src/notify-peer.ts:825-836 | with nothing else in progress the reported number of deliveries is the number of acked peers for every transport iff at most 500 messages are sent |
| NotifyPeer.TooManyAcks | packages/macf-channel-server/src/notify-peer.ts:825-836 | if more than 500 are sent and all are acked, the reported number is wrong |
| NotifyPeer.TrueFor | packages/macf-channel-server/src/notify-peer.ts:825-836 | for given outcomes the reported number is the true one iff no acked message has 500 recorded after it |
| DispatchProtocol.RunInv | packages/macf-channel-server/src/notify-peer.ts:941-988 | however dispatches, ticks, lone enqueues and restarts interleave: the outbox keeps its invariants, the attempt map stays bounded, every message has its place in the listing order |
| DispatchProtocol.AlwaysTrueIff | packages/macf-channel-server/src/notify-peer.ts:813-836 | callers that keep at most n dispatches, ticks and lone enqueues in progress get true reports for dispatches of at most 500 messages iff n <= 1 |
| DispatchProtocol.RaceLies | packages/macf-channel-server/src/delivery/outbox-ticker.ts:55-76 | with two in progress there is a run whose dispatch reports no delivery of a message that was acked |
| DispatchProtocol.AloneTrueEach | packages/macf-channel-server/src/notify-peer.ts:825-833 | with one in progress each message of such a dispatch is reported delivered iff it was acked |
| DispatchProtocol.SenderRuns | packages/macf-channel-server/src/delivery/outbox.ts:133-206 | whatever overlaps, what dispatches and ticks do to the outbox is a run of the outbox protocol |
| NotifyPeer.Notifier.EnqueueAll | packages/macf-channel-server/src/notify-peer.ts:813-815 | one message per peer is stored, in order, before any send |
| NotifyPeer.Notifier.SendAll | packages/macf-channel-server/src/notify-peer.ts:813-816 | after the drive each new id reads as what its send came to, unless evicted, and the store is driven over old and new entries |
| NotifyPeer.Notifier.ReadAll | packages/macf-channel-server/src/notify-peer.ts:825-833 | each result is what was tracked, and exactly the read ids are forgotten |
| NotifyPeer.Notifier.Dispatch | packages/macf-channel-server/src/notify-peer.ts:787-865 | for any enqueue clocks and any drive clock: the number delivered counts the results that say so, delivered and online iff some result says delivered, or reached; no id of the call stays tracked; each message is removed iff acked or expired |
| Semver.CompareOrders | packages/macf-core/src/semver.ts:21-32 | the sign of the comparison is the lexicographic order of the versions the strings spell, anything else counting as 0.0.0 |
| Semver.ParsesIff | packages/macf-core/src/semver.ts:23-24 | a string is parsed iff it is three runs of digits separated by dots, after an optional v |
| Semver.ParsePrinted | packages/macf-core/src/semver.ts:22-26 | parsing the decimal print of a version, with or without the v, gives its three numbers back |
| Collision.ConfirmLiveness | packages/macf-channel-server/src/collision.ts:200-214 | alive iff both confirmation pings answer, with the second one's data; the second is not sent if the first is silent |
| Collision.CheckCollision | packages/macf-channel-server/src/collision.ts:283-468 | register iff the slot is empty; abort iff both pings answer, the answer is not another instance's, takeover is disabled or the incoming version is unparseable or not higher, and the heartbeat is absent or at most 900000 ms old |
| Collision.TakeoverIff | packages/macf-channel-server/src/collision.ts:315-468 | against a live, matching, non-stale peer the verdict is takeover iff it is enabled and the incoming version is higher, absent and unparseable at the bottom |
| Collision.AbortIff | packages/macf-channel-server/src/collision.ts:315-468 | abort iff the peer is live, matching and not stale and its version is not outranked or takeover is disabled |
| Collision.HeartbeatDecides | packages/macf-core/src/registry/heartbeat.ts:52-58 | a peer that answers, matches the slot and is not outranked is left alone iff its entry has no heartbeat or one at most 900000 ms old, and is taken over otherwise |
| Collision.DisplacesIff | packages/macf-channel-server/src/collision.ts:346-423 | displacing every settled peer of a version is exactly the version order, empty when disabled |
| Collision.NoTakeoverCycle | packages/macf-channel-server/src/collision.ts:346-423 | no chain of instances displacing one another returns to its first version |
| Collision.DisplacesStrictOrder | packages/macf-channel-server/src/collision.ts:346-423 | displacement is irreflexive, asymmetric and transitive |
| Takeover.RegisterWithTakeover | packages/macf-channel-server/src/register-with-takeover.ts:87-153 | at most maxRetries + 2 claims and maxRetries classifications against any slot; each claim follows from what the one before lost to; success only over an empty slot or a takeover verdict, leaving our entry in the slot; a yield only after an abort verdict on the value just seen or a spent budget, leaving the slot as it was |
| Takeover.ClaimsInRun | packages/macf-channel-server/src/register-with-takeover.ts:87-153 | put between whatever other processes do, the claims of a registration are claims of the slot protocol: losing ones change nothing, a winning one makes this instance the serving owner |
| SlotOwnership.RunInv | packages/macf-channel-server/src/registry-heartbeat.ts:93-149 | every run: shutdown state and counters agree, the slot's owner is registered, beaten non-owners stand down |
| SlotOwnership.LosersYield | packages/macf-channel-server/src/server.ts:951-973 | once every registered instance but the owner has beaten since the last claim, each of them stands down exactly once and only the owner can be serving |
| SlotOwnership.ShutdownAtMostOnce | packages/macf-channel-server/src/shutdown.ts:226-229 | however many beats and triggers race, no instance's shutdown runs twice |
| SlotOwnership.OwnerIff | packages/macf-channel-server/src/shutdown.ts:154-161 | in every run the slot is an instance's iff some claim of it went through, no later claim did and its deregister has not |
| SlotOwnership.OwnerIntact | packages/macf-channel-server/src/shutdown.ts:158-171 | others' beats, triggers and shutdowns leave the owner's entry and the owner serving |
| SlotRegistry.Registry.RegisterConditional | packages/macf-core/src/registry/local-client.ts:338-361 | atomic compare-and-set: goes through iff both the slot and the expected value are empty, or host, port, kind, instance and start time agree |
| SlotRegistry.Registry.HeartbeatConditional | packages/macf-core/src/registry/local-client.ts:415-445 | re-stamps only its own entry; absent, foreign and failed are told apart |
| SlotRegistry.Registry.DeregisterConditional | packages/macf-core/src/registry/local-client.ts:371-405 | removes only its own entry; absent, foreign and failed are told apart |
| SlotCode.Server.RunCleanup | packages/macf-channel-server/src/shutdown.ts:112-215 | timer stopped, slot deregistered if ours, ok iff neither deregister nor stop failed |
| SlotCode.Server.Cleanup | packages/macf-channel-server/src/shutdown.ts:226-229 | the first trigger runs the shutdown, every later one gets its outcome and changes nothing |
| SlotCode.Server.RunOnce | packages/macf-channel-server/src/registry-heartbeat.ts:93-149 | a beat re-stamps our slot, leaves a foreign entry as it is, and on the first foreign entry stands this process down as the slot protocol says |
| GreenGate.Poll | packages/macf-core/src/verify-green.ts:101-143 | stops at the first wanted version or the first spent budget, after at least one probe; green iff the last probe reports a wanted version; unreachable iff no probe answered; version latched, instance id cleared |
| GreenGate.VerifyGreen | packages/macf-core/src/verify-green.ts:101-143 | green iff the final probe's version spells the target's; every earlier probe missed it within the budget, and only a spent budget ends the wait without it |
| GreenGate.VerifyGreenPaced | packages/macf-core/src/verify-green.ts:95-99 | at most ceil(timeout / interval) + 1 probes when each sleep advances the clock by the interval |
| GreenGate.LastVersionSeen | packages/macf-core/src/verify-green.ts:101-143 | the version a failed gate reports is the one in the last answer |
| HaltClassification.PlansExactly | packages/macf-core/src/fleet-upgrade.ts:596-628 | one plan per member in order, with the version and instance of its online entry; behind iff older than the target, offline iff no version |
| HaltClassification.FindsLast | packages/macf-core/src/fleet-upgrade.ts:601-601 | a member is matched to the last probe entry of its name |
| HaltClassification.ReasonsIff | packages/macf-core/src/fleet-upgrade.ts:856-943 | each of the five verdicts iff its evidence holds, read off the probes: a prompt on the pane; else the last answer not at the old version; else the final probe answered by the pre-restart instance; else a readable pin that differs from the target, or not |
| RollTrace.AcceptedPairs | packages/macf-core/src/fleet-upgrade.ts:1177-1343 | in an accepted call trace every lock, heartbeat, upgrade, restart and verify of an agent is paired with one stop of its heartbeat, up to the one open transaction |
| RollTrace.AcceptedReleases | packages/macf-core/src/fleet-upgrade.ts:1199-1229 | an accepted call trace releases a lock only while it is held and nobody is in a transaction, and records a version only for an agent that is unlocked again |
| FleetUpgrade.SegmentRuns | packages/macf-core/src/fleet-upgrade.ts:1177-1343 | an agent's calls obey the monitor from any idle point, leave no heartbeat, and settle its lock by the outcome |
| FleetUpgrade.WaitForIdle | packages/macf-core/src/fleet-upgrade.ts:701-710 | idle iff some poll within the budget finds the agent idle; stops at the first such poll or at the spent budget |
| FleetUpgrade.Inspect | packages/macf-core/src/fleet-upgrade.ts:1109-1157 | branch gate before config gate, none under force; what is canonical already is committed, once, iff the branch gate passes; exactly these calls |
| FleetUpgrade.CheckBusy | packages/macf-core/src/fleet-upgrade.ts:1159-1164 | busy iff not idle at once nor, when waiting, within the budget |
| FleetUpgrade.GateCalls | packages/macf-core/src/fleet-upgrade.ts:1109-1164 | among the gate calls of a turn: the branch check iff not forced, the commit of what is canonical already iff the branch is right and there is some, the busy check iff nothing before it refused the agent |
| FleetUpgrade.Classify | packages/macf-core/src/fleet-upgrade.ts:856-943 | the classification's reason, with the pane captured first and the pin read exactly for the two verdicts that depend on it |
| FleetUpgrade.Transact | packages/macf-core/src/fleet-upgrade.ts:1177-1343 | upgraded iff the last probe serves the target; otherwise halted iff the reason is bad-release or relaunch-unconfirmed, and each of the three skips iff its own reason; every end makes exactly the calls its outcome calls for, stops the heartbeat once, and only the upgraded one releases the lock |
| FleetUpgrade.RollOne | packages/macf-core/src/fleet-upgrade.ts:1093-1343 | each gate outcome iff its gate is the first to refuse, and past the gates the outcome of the transaction by its reason; exactly the gate calls of the agent, then nothing or the whole transaction with one stop; the driver's locks and heartbeats as the outcome says |
| FleetRoll.BehindAtExactly | packages/macf-core/src/fleet-upgrade.ts:1093-1097 | the turns are exactly the behind plans, each once, in order |
| FleetRoll.EveryResultCounted | packages/macf-core/src/fleet-upgrade.ts:1078-1357 | the seven outcome counters plus one if halted equal the number of results |
| FleetRoll.HaltsOnTerminal | packages/macf-core/src/fleet-upgrade.ts:1314-1342 | a right roll is halted iff its last result is a bad release or an unconfirmed relaunch, and no earlier result is either |
| FleetRoll.RollRuns | packages/macf-core/src/fleet-upgrade.ts:1078-1357 | a whole roll obeys the monitor from any left-over locks: on return nobody is in a transaction and no heartbeat runs |
| FleetRoll.LocksHeld | packages/macf-core/src/fleet-upgrade.ts:1186-1343 | an agent's lock is held on return iff some turn kept it and no later turn upgraded the agent, or it was left over and no turn upgraded the agent |
| FleetRoll.LocksOfDistinct | packages/macf-core/src/fleet-upgrade.ts:1186-1343 | for distinct agents the held locks are those of halted, stale-pin, not-yet-serving and stuck-at-prompt agents and the left-over ones of agents not upgraded |
| FleetRoll.CallsPaired | packages/macf-core/src/fleet-upgrade.ts:1177-1343 | per agent, locks, heartbeats, upgrades, restarts, verifies and heartbeat stops all equal the number of its transactions |
| FleetRoll.RollFleet | packages/macf-core/src/fleet-upgrade.ts:1078-1357 | one right result per behind plan in order up to the halt; halted iff the last result's reason is bad-release or relaunch-unconfirmed, with no such reason before it; counters exact; the driver's trace is the segments of the results, its locks are as they say, and no new heartbeat runs |
| UpgradeFleets.PlansStayInFleet | packages/macf-core/src/fleet-upgrade.ts:1427-1429 | every plan of a fleet concerns a discovered workspace of that fleet |
| UpgradeFleets.MembersConcat | packages/macf-core/src/fleet-upgrade.ts:1427-1427 | the members are the workspaces of the fleet, each as often as discovered and in that order |
| UpgradeFleets.UpgradeFleet | packages/macf-core/src/fleet-upgrade.ts:1419-1449 | an unresolved fleet is skipped; a resolved one is planned, and rolled iff executing, under the monitor |
| UpgradeFleets.UpgradeFleets | packages/macf-core/src/fleet-upgrade.ts:1411-1454 | reports cover a prefix of the fleets, all unless halted; halted iff the last report ends in a bad release or an unconfirmed relaunch, and no earlier one does; every call of the run's one trace is for a reported fleet, fleet by fleet, and those for one fleet are exactly its own |
| UpgradeFleets.LaterFleetsUntouched | packages/macf-core/src/fleet-upgrade.ts:1447-1450 | no driver is resolved and no verb called for a fleet after the last report |
| UpgradeFleets.DryRunOnlyLooks | packages/macf-core/src/fleet-upgrade.ts:1435-1438 | without execute a run only resolves, discovers and probes, and never halts |
| ReconcileLadder.RestartsIff | packages/macf-core/src/fleet-reconcile.ts:332-533 | a turn restarts the agent iff all gates are open: execute, not paused, running but unreachable, no prompt, past tier one, idle, backoff over, budget left, allowed |
| ReconcileLadder.InjectsIff | packages/macf-core/src/fleet-reconcile.ts:458-473 | a turn injects iff it heals within the first escalateAfter deaf sweeps |
| ReconcileLadder.LaunchesIff | packages/macf-core/src/fleet-reconcile.ts:332-358 | a turn launches iff executing, wanted up, unreachable, not running here and not exited by the operator |
| ReconcileLadder.AlertsIff | packages/macf-core/src/fleet-reconcile.ts:372-554 | a turn raises an alert iff executing with none open, and at a prompt, a launch stuck at one, or past tier one: busy, out of restarts, not allowed to restart, or restarted |
| ReconcileLadder.RowsIff | packages/macf-core/src/fleet-reconcile.ts:322-451 | which of the six rows a turn ends with, if no verb throws, in terms of what it was shown |
| ReconcileLadder.CountersAfter | packages/macf-core/src/fleet-reconcile.ts:322-554 | each counter moves exactly when its own effect happens, a restart setting the backoff to min(base*2^(k-1), max) past the reading, and a reachable agent clears them all |
| ReconcileLadder.SleepsIff | packages/macf-core/src/fleet-reconcile.ts:429-440 | a turn sleeps iff it launches and the sweep has launched before |
| ReconcileLadder.BackoffDoubles | packages/macf-core/src/fleet-reconcile.ts:216-220 | the wait after a first restart is the smaller of base and max, after every later one the smaller of twice the one before and max |
| ReconcileLadder.HealEscalates | packages/macf-core/src/fleet-reconcile.ts:458-533 | past tier one a turn ends with an alert open unless it waits out a backoff with budget left |
| ReconcileLadder.RunLadder | packages/macf-core/src/fleet-reconcile.ts:458-554 | over every run of turns of any agents, the stored counters agree with what happened to each agent since its last reset |
| ReconcileLadder.EpisodeBounded | packages/macf-core/src/fleet-reconcile.ts:458-554 | between two resets: at most stuckMax completed restarts, escalateAfter injects and one alert; the gate of restart k+1 reads a clock at least min(base*2^(k-1), max) past the reading after restart k |
| ReconcileLadder.RunGated | packages/macf-core/src/fleet-reconcile.ts:477-483 | in every run each restart directly follows an idle reading of the same agent |
| ReconcileLadder.PausedLeftAlone | packages/macf-core/src/fleet-reconcile.ts:332-335 | over every run in which an agent stays paused, whatever happens to the others, it is not launched, nudged, restarted or alerted and its counters stay as they were |
| ReconcileLadder.DryTurnPredicts | packages/macf-core/src/fleet-reconcile.ts:322-451 | a dry turn has no effect and its row is the executed one, except launch may become failed or blocked |
| ReconcileCode.Reconciler.RaiseAlert | packages/macf-core/src/fleet-reconcile.ts:536-554 | one alert per episode, remembered in the store only after it was raised |
| ReconcileCode.Reconciler.EscalateRestart | packages/macf-core/src/fleet-reconcile.ts:498-533 | restart, count and alert on top of the stored memory, with backoffUntil the reading plus min(base*2^(k-1), max) after restart k; neither count nor backoff moves without a restart |
| ReconcileCode.Reconciler.HealAgent | packages/macf-core/src/fleet-reconcile.ts:458-495 | store, effects and completion of one step of the ladder |
| ReconcileCode.Reconciler.LaunchRow | packages/macf-core/src/fleet-reconcile.ts:429-451 | stagger, launch and the row its reply calls for |
| ReconcileCode.Reconciler.PromptGuard | packages/macf-core/src/fleet-reconcile.ts:372-422 | a prompt ends the turn, after one sweep of grace for the watcher; otherwise the ladder gets the cleared memory |
| ReconcileCode.Reconciler.ReconcileAgent | packages/macf-core/src/fleet-reconcile.ts:322-370 | a turn is the next step of the run, and its row and effects are that step's |
| ReconcileCode.ClassifyIff | packages/macf-core/src/fleet-reconcile.ts:203-210 | absent iff nobody on the roster has the name; otherwise the first entry of that name decides between reachable and deaf |
| ReconcileCode.LaunchedBefore | packages/macf-core/src/fleet-reconcile.ts:297-299 | a turn counts as coming after a launch iff an earlier row is launch, failed or blocked |
| ReconcileCode.Reconciler.ReconcileFleet | packages/macf-core/src/fleet-reconcile.ts:273-318 | one turn per desired agent in order; rc is 3 iff some row is failed or blocked, 0 iff every row is fine or skipped, else 1, and 2 on a failed probe with no effect; launches staggered; one heartbeat iff executed to the end |
| ReconcileDryRun.DryRunTouchesNothing | packages/macf-core/src/fleet-reconcile.ts:273-318 | a dry-run sweep of any agents has no effect and changes no memory |
| ReconcileDryRun.DryRunPredicts | packages/macf-core/src/fleet-reconcile.ts:273-318 | for distinct agents, equal memory and replies, the executed rows, as far as the sweep comes, are the dry-run rows, except launch may become failed or blocked |
| ReconcileDryRun.DryRunCode | packages/macf-core/src/fleet-reconcile.ts:295-308 | the two exit codes agree on whether anything needs doing, and executing can only raise the code |
| WakeQueue.OneAtATimeInOrder | packages/macf-channel-server/src/tmux-wake.ts:189-200 | wakes of one target never overlap, and none has started while an earlier one waits or runs |
| WakeQueue.EveryWakeEnds | packages/macf-channel-server/src/tmux-wake.ts:193-200 | from any point and whichever tasks fail, every order the event loop may go on in without arrivals takes exactly the steps still owed before nothing is left to run |
| WakeQueue.QuiescentIsEmpty | packages/macf-channel-server/src/tmux-wake.ts:197-198 | when all continuations have run every wake is done and the map is empty |
| WakeQueue.WakeQueues.EnqueueWake | packages/macf-channel-server/src/tmux-wake.ts:193-200 | the wake is chained after the target's tail, or to nothing if it has none, and becomes the tail |
| WakeQueue.WakeQueues.CleanUpAfter | packages/macf-channel-server/src/tmux-wake.ts:198-198 | the entry is dropped only if this tail still is the last |
| TokenCache.AtMostOneMint | packages/macf-channel-server/src/token-refresh.ts:226-247 | at most one mint is outstanding, and in flight is set exactly while one is |
| TokenCache.CachedIsYoung | packages/macf-channel-server/src/token-refresh.ts:250-258 | a cached answer was minted less than fifty minutes before the call's clock, unforced, with no later successful mint |
| TokenCache.CacheAnswersIff | packages/macf-channel-server/src/token-refresh.ts:250-258 | a call is answered from the cache iff it does not force and the last successful mint is less than 3000000 ms old, and then with that mint's token |
| TokenCache.MissWaitsForMint | packages/macf-channel-server/src/token-refresh.ts:226-258 | any other call waits for a mint still outstanding when it comes, starting one only if none is |
| TokenCache.FailureIsContained | packages/macf-channel-server/src/token-refresh.ts:232-245 | a failed mint rejects the calls that joined it, keeps the cached pair, and the next call mints again |
| TokenCache.TokenRefresher.MintAndCache | packages/macf-channel-server/src/token-refresh.ts:226-247 | joins the mint in flight, or starts exactly one |
| TokenCache.TokenRefresher.GetRefreshedToken | packages/macf-channel-server/src/token-refresh.ts:250-258 | a call is one step of the run and is answered as that step says |
| TokenCache.TokenRefresher.EndMint | packages/macf-channel-server/src/token-refresh.ts:232-245 | success caches the pair, and either way nothing is in flight |
| ChallengeStore.OkIff | packages/macf-core/src/certs/challenge-store.ts:92-111 | for any clock: a consume succeeds iff an outstanding, unexpired challenge of that id, agent and value exists |
| ChallengeStore.OkIffFirst | packages/macf-core/src/certs/challenge-store.ts:92-111 | with a clock that does not run backwards: iff it is the first attempt after the issue, before expiry, with the agent and value issued |
| ChallengeStore.OkIsIssued | packages/macf-core/src/certs/challenge-store.ts:92-111 | successes map one-to-one to earlier issues with the same agent and value, observed strictly before expiry |
| ChallengeStore.SpentByAnyAttempt | packages/macf-core/src/certs/challenge-store.ts:99-102 | any attempt on an issued challenge spends it, whatever its result |
| ChallengeStore.SizeIs | packages/macf-core/src/certs/challenge-store.ts:114-117 | with such a clock, size is issued minus expired minus consumed |
| ChallengeStore.Challenges.Sweep | packages/macf-core/src/certs/challenge-store.ts:54-59 | exactly the entries expired at the reading are dropped |
| ChallengeStore.Challenges.Issue | packages/macf-core/src/certs/challenge-store.ts:62-78 | one issue step, with the expiry from the second clock reading |
| ChallengeStore.Challenges.Consume | packages/macf-core/src/certs/challenge-store.ts:92-111 | one consume step with its result |
| ChallengeStore.Challenges.Size | packages/macf-core/src/certs/challenge-store.ts:114-117 | one size step with its result |
| Tokens.NormalizeJoins | packages/macf-core/src/norm.ts:74-79 | the canonical token is the words of the lowercased input joined by single hyphens |
| Tokens.WordsOfJoin | packages/macf-core/src/norm.ts:66-73 | splitting a canonical token gives its words back |
| Tokens.SameTokenIff | packages/macf-core/src/norm.ts:66-79 | two spellings are one token iff they have the same words, case and separators aside |
| Tokens.TwoWords | packages/macf-core/src/norm.ts:66-79 | two words with any run of separators between them are one token: the words, lowercased, with one hyphen |
| Tokens.OneSpelling | packages/macf-core/src/norm.ts:66-73 | the documented example in any of its capitalisations and spacings is one token |
| Tokens.NormalizeIdempotent | packages/macf-core/src/norm.ts:74-79 | normalizing twice is normalizing once |
| NormConflicts.ClashTypeRight | packages/macf-core/src/norm.ts:232-247 | the clash of two norms of one key is the deontic matrix, in either order |
| NormConflicts.Group | packages/macf-core/src/norm.ts:268-274 | each key's bucket is exactly the positions of its norms, in order |
| NormConflicts.CheckBucket | packages/macf-core/src/norm.ts:279-292 | all pairs of one bucket are examined, each once, and nothing else |
| NormConflicts.DetectNormConflicts | packages/macf-core/src/norm.ts:267-295 | a pair a < b is reported as a conflict iff role, action and condition agree and the modalities clash, as a warning iff they agree and both are obligations, each once |

## Left out

- HTTP, TLS, certificates, MCP and tmux are environment replies; spans, metrics, logs and message texts carry no state the properties need.
- The registry is the atomic compare-and-act contract of the local backend; the GitHub variables backend, which is best-effort, is not part of this model.
- Suspension points inside a class method: a class method runs to its end, and interleavings are covered by the step systems.
- Clocks and durations are integers; `Math.pow` on floats and `parseInt` beyond 2^53 are not modelled.
- Message ids, challenge ids and instance ids are fresh by assumption, as random identifiers are.
- A receiver's process restart, which loses its in-memory inbox and attempt counters, is not an event of the receiver protocol; a sender's restart over a kept store is `Restart`.
- A dead letter's store write and its callback are one step; a restart between the two loses the escalation.
- OutboxCode.Outbox.DriveOnce: one drive at a time; overlapping drives are in OutboxProtocol.
- InboxCode.Receiving.DriveInboxOnce: one tick at a time, as the ticker guards; the attempt cap is not claimed for overlapping ticks.
- NotifyPeer.Notifier.Dispatch: one call at a time, the sends of its drive recorded after it, in its order; calls and ticks that overlap are in DispatchProtocol. The arm for an unregistered target is only its enqueue.
- FleetUpgrade.RollOne: driver verbs return; the source has no `finally` around the heartbeat, so a throwing verb leaves it running.
- FleetRoll.RollRuns: starts with no heartbeat of its own.
- Launch-prompt detection on captured panes and the reading of launch pins are oracles.
- ReconcileCode.Reconciler.ReconcileFleet: the operator's `paused` and last exit code are read once per turn and may change between turns; two agent labels that share a state file name are not modelled.
- WakeQueue: the body of a wake task and its timeout are the settle event.
- TokenCache: how a token is minted is the outcome of the mint event.
- Tokens.NormalizeIdempotent: lowercasing maps characters one at a time to strings of lowercase characters, so the context-dependent final sigma is not modelled.
- ChallengeStore: the constant-time comparison is equality of strings.
- Desired-agents parsing, state files on disk, guests, trust bundle, agent cards, health mapping, task transition table and notify formatting would only add table lookups.
