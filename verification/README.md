# A verified model of katago-ws

katago-ws is a service that queues Go game records, hands them to workers, has KataGo analyse every
position and serves annotated games. This project models the parts of it that carry state machines,
protocols or transformations, and proves what they promise. `dafny verify dfyconfig.toml` checks it.

| module | file | what it models |
|---|---|---|
| `JobStore`, `Workers` | `JobStore.dfy`, `Workers.dfy` | the jobs table, its trigger and the queue; any number of workers leasing, crashing and redelivering over them |
| `HeartbeatLease` | `Lease.dfy` | the visibility-timeout heartbeat, in real time |
| `ChangeFeed` | `ChangeFeed.dfy` | `GET /analyses/changes`: pages by sequence number over transactions that commit out of order |
| `Session` | `Session.dfy` | one orchestrator/worker connection: lease loops, waiter map, bounded channels, permits |
| `Demux`, `KataGoOwner` | `Demux.dfy`, `Owner.dfy` | the task that owns the KataGo process: ids, pending table, backlog, relaunches, response lines |
| `Search`, `FastSearch`, `ThoroughSearch` | `Search.dfy`, `FastSearch.dfy`, `ThoroughSearch.dfy` | the two throughput searches |
| `Config`, `Text`, `Overrides`, `Tuning`, `Cache` | one file each | the engine section, `key=value` settings text, pins and tuned settings, what is launched, the cache of tuned results |
| `Feed` | `Feed.dfy` | the tuner's workload: chunks of turns and the feeder |
| `Annotate`, `TwoPass` | `Annotate.dfy`, `TwoPass.dfy` | frames, losses, candidates, reports and grids; the screening and refining passes |

Rates, win probabilities, scores and times are real numbers. What comes from outside (measured rates,
KataGo's answers, which query finishes next, whether a write or a launch succeeds, when transactions
start and commit) is a parameter or a nondeterministic step, so a theorem about it holds for every
behaviour of the outside. Postgres and pgmq appear through their contracts: a read counts the delivery
and hides the message, archiving removes it, a lapsed message becomes readable again; a sequence hands
out numbers in the order they are drawn, a row becomes visible when its transaction commits, `now()` is
the start of the transaction, and a second writer of a row waits for the first one's commit.

Where the code works in place (`Database`, `Connection`, `Owner`, `Overrides`, `CacheFile`, `Feeder`,
`PlayerAccum` and the search, tuning, merge and annotation loops) the model is a class or a loop proved
against a function of the old state or the inputs; the theorems are about those functions. Protocols
with several parties are transition systems (`Enabled`, `Next`, `Run`, `After`), and their theorems speak
about every run.

## Where the code falls short of its comments

In each case the code is kept as it is, a concrete input shows the failure, and a lemma states exactly
when the promise holds.

- Teardown is meant to fail whatever is still in flight. The waiter map is cleared while the outbound
  channel still takes requests, so a lease loop that registers after the clear and sends before the
  channel's receiver is dropped waits for ever, and its heartbeat hides the message for as long
  (`Session.SlipStrands`, `Session.StrandedForever`). After a teardown, in any run, a loop still waits
  exactly if it slipped in like that and no other loop has taken its key by leasing the same job again
  (`Session.StrandedIsExact`, `Session.StrandedUntilTaken`); closing the channel before clearing the map is
  the order, and the only one, that strands nobody (`Session.TeardownOrderIsExact`).
- The comments on the change feed say that a cursor cannot pass a write that has not committed. A row's
  age is counted from its transaction's start, on both sides, so a slow write can be skipped for good
  (`ChangeFeed.SlowWriteIsLost`); nothing is lost exactly when writing transactions are shorter than half
  of `SETTLE_SECS` (`ChangeFeed.HalfSettleIsExact`).
- A worker's reply is posted before its permit is given back, so `dispatch` can park even in a fresh
  session that never exceeds its slots (`Session.ParksBehindReplies`). It never parks exactly when
  permits come back with the replies and earlier sessions leave enough of them
  (`Session.ParkingIsExact`). Parking cannot deadlock (`Session.ParkingNeverDeadlocks`).
- The outbound channel is sized so that sends find room. A job leased again after its lease lapsed frees
  the loop that held it first, and jobs leased twice each fill the channel until a send blocks
  (`Session.RepeatedJobBlocks`). Sends never block in runs that lease no job twice at a time; in all runs
  that lease each job at most `limit` times, which `max_attempts` does (`Workers.BoundedAttempts`), exactly
  when the session has a single slot or the limit is 1 (`Session.DistinctJobsIsExact`).
- The heartbeat's floor of one second makes a one-second visibility timeout unprotectable
  (`HeartbeatLease.ShortLeaseLapses`); two seconds are exactly enough
  (`HeartbeatLease.TwoSecondsIsExact`).
- The positions in flight are said to lie between 128 and 512 and never to exceed the queue; for short
  queues the code settles for 64 (`FastSearch.ShortQueuesMissTheRange`). The first holds exactly for queues
  of 128 and more, the second exactly from 64 (`FastSearch.InFlightIsExact`).
- A `currentPlayer` that disagrees with the move list draws a warning that losses may be charged to the
  wrong player. Whomever it names, losses, classes, priors and totals are the ones the reported evaluations give
  (`Annotate.NotesAreTrue`, `Annotate.ScoreIsConserved`). What is misread are the candidates and the ownership
  map, which carry no name: they are right exactly where the name agrees or the perspective is fixed
  (`Annotate.CandidatesAreExact`, `Annotate.OwnershipIsExact`).
- Without `currentPlayer`, evaluations after a move are rotated on the assumption that the players
  alternate, although the annotator's own comment says records need not
  (`Annotate.DoubleMoveIsMisread`); that is right exactly for a fixed perspective or alternating games
  (`Annotate.FallbackIsExact`).

## Model

| member | source | states |
|---|---|---|
| JobStore.UpdateIsStamped | migrations/2026-05-30-000000_create_job_store/up.sql:58-83 | every write keeps result-xor-error and distinct `change_seq`; a number is drawn exactly when a row changes; terminal rows never change |
| JobStore.UpdateOutcome | src/db/mod.rs:123-184 | a row becomes done only by the write that stores its result, failed only by the write that gives up on it |
| JobStore.Database.StampChange | migrations/2026-05-30-000000_create_job_store/up.sql:72-83 | the trigger, in place: the written row carries the next number and the sequence advances |
| JobStore.Database.MarkRunning | src/db/mod.rs:123-132 | the guarded update to running, and nothing else |
| JobStore.Database.NoteAttemptFailure | src/db/mod.rs:138-148 | the guarded note of a transient failure |
| JobStore.Database.MarkDone | src/db/mod.rs:152-166 | the guarded update to done with its result |
| JobStore.Database.MarkFailed | src/db/mod.rs:170-184 | the guarded update to failed with its error |
| JobStore.Database.Enqueue | src/db/mod.rs:101-120 | all rows and messages of a batch; ids come back in input order and are new to the table |
| JobStore.SubmittedTogether | src/db/mod.rs:62-120 | submission i of a batch has its own queued row, number and visible message with its SGF; earlier jobs and messages are untouched |
| JobStore.Database.Handle | src/worker.rs:192-262 | one uninterrupted delivery: poison check, running, analysis, terminal write before the archive |
| JobStore.HandledRow | src/worker.rs:192-262 | what a delivery leaves in each column of its job's row: failed past the limit, done with its result, or running with this attempt's error; finished rows and other rows stay |
| Workers.StepKeepsTable | src/db/mod.rs:123-184 | any step by any worker changes the table by at most one stamped write and leaves finished rows alone |
| Workers.StepKeepsMail | src/db/mod.rs:62-95 | jobs and messages stay one to one; no step loses or rewrites a message or lowers its delivery count |
| Workers.StepKeepsArchived | src/worker.rs:192-262 | a message is archived only once its job is finished |
| Workers.StepKeepsStarts | src/worker.rs:192-262 | every started analysis belongs to its own delivery within the limit |
| Workers.RunKeepsInv | src/worker.rs:107-262 | the whole invariant over any interleaving of workers, crashes, lapses and redeliveries |
| Workers.NoOrphan | src/worker.rs:192-262 | an unfinished job always has its message in the queue with its own SGF; an archived message's job is finished |
| Workers.OutcomeIsEarned | src/worker.rs:192-262 | result-xor-error; a stored result came from an analysis of that job's SGF; failed means delivered more than `max_attempts` times |
| Workers.StatusTellsHistory | src/db/mod.rs:123-148 | in every reachable state an unfinished job is running exactly if a delivery of it was ever marked and queued exactly if none was; `last_error` is that of the last attempt that failed |
| Workers.RunningWhileAnalysed | src/worker.rs:211-240 | throughout an analysis its job is shown as running, unless another delivery has finished it |
| Workers.DeliveriesAreCounted | src/worker.rs:107-209 | a message's delivery count is the number of its leases; it can be leased again exactly when its timeout has lapsed since |
| Workers.ChangeSeqUnique | migrations/2026-05-30-000000_create_job_store/up.sql:40-83 | `change_seq` values are distinct in every reachable state |
| Workers.FinishedIsFinal | src/db/mod.rs:38-184 | whatever happens next, a finished row never changes again, not even its number |
| Workers.BoundedAttempts | src/worker.rs:192-262 | at most `max_attempts` analyses of a job ever start |
| Workers.HandlingIsARun | src/worker.rs:192-262 | `Database.Handle` is a run of the steps; uninterrupted, a delivery past the limit or a success always archives, a failure never does |
| Workers.PastLimitArchives | src/worker.rs:192-209 | whatever other workers do in between, a delivery past the limit whose worker takes its two steps without crashing archives the message for good |
| HeartbeatLease.HiddenInForce | src/worker.rs:264-305 | with a timely heartbeat the lock in force has not expired |
| HeartbeatLease.IntervalIsHalf | src/worker.rs:264-285 | the interval is half the timeout in whole seconds, and at least one |
| HeartbeatLease.NeverReadable | src/worker.rs:264-305 | for `vt` of at least 2, no other consumer can read the message while the guard lives, over runs of any length |
| HeartbeatLease.SomethingInForce | src/worker.rs:264-305 | some lock is in force at every instant, so "not readable" is never empty talk |
| HeartbeatLease.ShortLeaseLapses | src/worker.rs:278-285 | below two seconds a timely heartbeat lets the message be read |
| HeartbeatLease.TwoSecondsIsExact | src/worker.rs:264-285 | every timely heartbeat protects its message if and only if `vt` is at least 2 |
| ChangeFeed.TakeSettled | src/db/mod.rs:290-297 | the longest settled prefix of the fetched rows |
| ChangeFeed.PageShape | src/http/handlers.rs:363-388 | a page is ascending, beyond the old cursor, settled, and ends at the new cursor |
| ChangeFeed.PageIsBounded | src/http/handlers.rs:363-370 | at most the rows asked for, at most 1000, 500 by default, and never a page size below one |
| ChangeFeed.PageComplete | src/http/handlers.rs:363-388 | nothing the snapshot saw between the two cursors is missing from the page |
| ChangeFeed.MoreIsHonest | src/http/handlers.rs:363-388 | `more = false` means that nothing the snapshot saw lies beyond the returned cursor |
| ChangeFeed.MoreHasAReason | src/http/handlers.rs:363-388 | `more = true` means a full page or an unsettled visible row beyond the cursor |
| ChangeFeed.SettledMeansCommitted | src/db/mod.rs:258-298 | once a row has settled, every smaller number that will ever commit has committed |
| ChangeFeed.PageLosesNothing | src/db/mod.rs:258-298 | the current version of a row whose number a page passes is in that page |
| ChangeFeed.NothingLost | src/db/mod.rs:258-298 | over any number of polls, every current row at or below the cursor was returned with its number |
| ChangeFeed.CaughtUp | src/http/handlers.rs:363-388 | a client told `more = false` has every row that poll could see |
| ChangeFeed.ArrivalOrder | src/http/handlers.rs:354-388 | numbers arrive at most once and in ascending order |
| ChangeFeed.PageAdvancesIff | src/db/mod.rs:270-298 | a page moves the cursor exactly when the oldest unread visible row has settled |
| ChangeFeed.SlowWriteIsLost | src/http/handlers.rs:350-363 | a concrete history, with transactions over half of `SETTLE_SECS`, whose change is never returned |
| ChangeFeed.HalfSettleIsExact | src/http/handlers.rs:352-363 | the feed loses nothing if and only if writing transactions are shorter than half of `SETTLE_SECS` |
| Session.RegisterReplaces | src/cluster/server.rs:230-232 | registering a job again gives its key to the new loop and ends exactly the wait of the loop that waited for it |
| Session.StepKeepsKeys | src/cluster/server.rs:175-261 | every key of `pending` belongs to a registered or waiting loop of that very job, and every waiting loop has its key: kept by every step of every run, repeated leases and teardown included |
| Session.FrameReachesItsWaiter | src/cluster/server.rs:202-213 | a frame frees exactly the loop that waits for its job, of which there is at most one; the key is consumed, and the same frame again does nothing |
| Session.RunKeepsKeys | src/cluster/server.rs:105-261 | key ownership over all runs |
| Session.ResultsReachTheirWaiters | src/cluster/server.rs:105-261 | in every run of a session, whatever it leases, whatever frames with whatever ids come in, a frame for a job reaches its own waiter only, at most once |
| Session.RouteFindsItsWaiter | src/cluster/server.rs:202-213 | in a run with distinct jobs the result at the head of the socket always finds a loop that waits for it, and frees no other |
| Session.StepKeepsWaiters | src/cluster/server.rs:223-261 | with distinct jobs every registered loop has its key too, until the clear |
| Session.MovesKeepPipe | src/cluster/client.rs:177-213 | channels, socket, dispatcher and tasks neither lose nor duplicate a request or reply |
| Session.StepKeepsBalance | src/cluster/server.rs:119-261 | while serving, for every job, what is under way is what is waited for |
| Session.RunKeepsInv | src/cluster/server.rs:105-182 | the joint invariant over every run with distinct jobs, up to, through and after both steps of the teardown |
| Session.SlotSafety | src/cluster/server.rs:119-173 | jobs abroad never exceed the clamped slots, nor do all jobs under way while the session serves; then no request, and never a reply, finds its channel full |
| Session.GrantedIs | src/cluster/server.rs:119-120 | at least one slot, at most 64, otherwise as many as announced |
| Session.ChannelsKeepOrder | src/cluster/server.rs:143-173 | in every run jobs are dispatched in the order they were sent and results routed in the order they were posted; between the two ends nothing is lost or added but what the close drops |
| Session.ParksOnlyBehindFinishedWork | src/cluster/client.rs:256-301 | `dispatch` waits only behind tasks that have replied or analyses of earlier sessions |
| Session.ParkingNeverDeadlocks | src/cluster/client.rs:256-301 | a parked `dispatch` can go on, or a permit can be given back without waiting for anybody |
| Session.StrayIsHarmlessIff | src/cluster/server.rs:202-213 | a result frame changes nothing exactly when nobody waits under its id |
| Session.StrayFramesChangeNothing | src/cluster/server.rs:202-213 | over runs of any length and any leases: frames for jobs that were answered, and not registered again since, or that were never registered, leave exactly the run without them |
| Session.TeardownResolvesAll | src/cluster/server.rs:175-182 | from any state, clearing the map ends every waiter of before: at once if it waits, with its send if it was registered |
| Session.StrandedIsExact | src/cluster/server.rs:178-261 | in every run, in either order of teardown, a loop still waits in the end if and only if it registered after the clear, sent before the close, and no other loop took its key; any other is free, or its send fails and removes the key |
| Session.StrandedBySlipping | src/cluster/server.rs:178-261 | with distinct jobs that is: if and only if it registered after the clear and sent before the close |
| Session.StrandedUntilTaken | src/cluster/server.rs:230-244 | once torn down, a waiting loop waits on until, and only until, another loop registers or gives up on its job |
| Session.StrandedForever | src/cluster/server.rs:231-261 | with distinct jobs no later step of any task frees a stranded loop |
| Session.SlipStrands | src/cluster/server.rs:178-182 | the run in which a loop slips between clear and close and waits in a session that is gone |
| Session.TeardownOrderIsExact | src/cluster/server.rs:175-182 | a teardown strands nobody, over all runs or over those with distinct jobs, if and only if it closes the channel before it clears the map |
| Session.ParksBehindReplies | src/cluster/client.rs:270-300 | for every width, a run in which a job parks although the slots are respected |
| Session.ParkingIsExact | src/cluster/client.rs:256-301 | no run parks if and only if permits come back with the replies and the granted slots and stale permits fit the width |
| Session.RepeatedJobBlocks | src/cluster/server.rs:125-244 | for every session of two slots or more, a run that leases each job at most twice ends with a send that finds the channel full |
| Session.RepeatedJobExceedsSlots | src/cluster/server.rs:230-261 | and one, again with two leases per job, that puts more jobs under way than there are slots |
| Session.OnceIsApart | src/worker.rs:202-209 | jobs leased once each are never leased while a loop holds them |
| Session.DistinctJobsIsExact | src/cluster/server.rs:119-261 | no send blocks in a run without a lease of a job another loop holds; in all runs of at most `limit` leases per job no send blocks, and no slot is exceeded, if and only if there is one slot or the limit is at most 1 |
| Session.Connection.constructor | src/cluster/server.rs:115-141 | the clamped slots, an empty map and idle loops |
| Session.Connection.RegisterWaiter | src/cluster/server.rs:230-232 | inserting the waiter replaces and drops an earlier one for the same job |
| Session.Connection.SendRequest | src/cluster/server.rs:237-250 | sends, or takes the key back when the channel is closed |
| Session.Connection.Analyze | src/cluster/server.rs:224-250 | undisturbed, `analyze` ends up waiting under its own key with its request last in the channel, or free with its key gone; only a waiter of the same job is affected |
| Session.Connection.CompleteJob | src/cluster/server.rs:202-213 | removes the waiter and resolves it; a result without a waiter changes nothing |
| Session.Connection.Dispatch | src/cluster/client.rs:256-269 | takes a permit or parks |
| Session.Connection.PostReply | src/cluster/client.rs:270-301 | posts the result while the permit is still held |
| Session.Connection.ClearWaiters | src/cluster/server.rs:178-180 | clears the map and ends every waiting loop |
| Session.Connection.Drive | src/cluster/server.rs:105-182 | both programs in any interleaving do what the steps say; with distinct jobs no channel exceeds its capacity and no worker its width |
| Demux.LineIsLocal | src/engine/katago.rs:897-946 | a line changes no other query's entry or reply |
| Demux.DemuxFrom | src/engine/katago.rs:897-946 | the same for a query that has part of its turns already |
| Demux.DemuxIsFiltering | src/engine/katago.rs:897-946 | under any interleaving a query gets exactly the first `expected` turns with its id, in order, unless an error with its id comes first |
| KataGoOwner.StepKeepsInv | src/engine/katago.rs:713-881 | every event keeps conservation, id and phase invariants |
| KataGoOwner.StepExtends | src/engine/katago.rs:713-881 | no event takes back a reply or gives an id to another query |
| KataGoOwner.EveryQueryInOnePlace | src/engine/katago.rs:713-881 | over any life with crashes: arrivals are, in order, sent, refused, backlogged or queued; ids are never reused; nothing is in flight while no process runs; the backoff stays in its bounds |
| KataGoOwner.StoppedMeansAnswered | src/engine/katago.rs:713-837 | once the owner stops, every query that ever arrived has its one reply |
| KataGoOwner.RepliesAreFinal | src/engine/katago.rs:713-946 | later events never change a reply nor rebind an id |
| KataGoOwner.QueryGetsItsTurns | src/engine/katago.rs:765-946 | in the owner's own life, with any other submissions and lines in between, a query is answered with the first turns carrying its id, as many as it asked for, unless an error with its id comes first |
| KataGoOwner.EngineLife | src/engine/katago.rs:713-763 | over any life: it serves exactly while a process is up, its status is the engine's, and the restart delay is the minimum doubled once per relaunch tried since a ready process last crashed, up to the maximum |
| KataGoOwner.StopsExactly | src/engine/katago.rs:713-781 | an owner stops if and only if it is shut down, loses every handle, or its process exits unsupervised or before any was ready; a supervised one that has been ready only in the first two cases |
| KataGoOwner.ExitOutcome | src/engine/katago.rs:724-810 | on an exit everything in flight fails with its report; then the owner stops, dropping the channel, or keeps every query and waits with the right delay |
| KataGoOwner.ShutdownOutcome | src/engine/katago.rs:716-833 | on a shutdown everything in flight and backlogged is told so, and what is queued behind it is dropped |
| KataGoOwner.GoneOutcome | src/engine/katago.rs:716-834 | with every handle gone everything outstanding is dropped |
| KataGoOwner.TakeOutcome | src/engine/katago.rs:765-881 | a query taken gets the next id and an empty reply, or its write's error; while no process runs it joins the end of the backlog |
| KataGoOwner.RelaunchOutcome | src/engine/katago.rs:738-770 | a relaunch that succeeds serves again and sends the whole backlog in order |
| KataGoOwner.AnswerHasACause | src/engine/katago.rs:713-946 | every reply comes from the query's own last turn or error line, its failed write, the exit, a shutdown or the loss of every handle, in that event's words |
| KataGoOwner.FailedRelaunchesBackOff | src/engine/katago.rs:738-760 | failed relaunches double the delay up to its maximum and lose nothing from the backlog |
| KataGoOwner.SubmitAllEffect | src/engine/katago.rs:765-770 | the backlog is sent in order, each query under a new id, replies already given stay |
| KataGoOwner.Owner.HandleLine | src/engine/katago.rs:897-946 | one line, in place |
| KataGoOwner.Owner.Submit | src/engine/katago.rs:840-881 | a new id, then pending or answered with the write's error |
| KataGoOwner.Owner.AnswerAll | src/engine/katago.rs:784-810 | draining the table, in any order, answers exactly what was pending |
| KataGoOwner.Owner.SubmitBacklog | src/engine/katago.rs:765-770 | submits the backlog oldest first and leaves it empty |
| KataGoOwner.Owner.TakeCommand | src/engine/katago.rs:783-837 | one command while serving or while waiting out the backoff |
| KataGoOwner.Owner.OnExit | src/engine/katago.rs:724-737 | everything in flight fails; then stop, or wait with the right backoff |
| KataGoOwner.Owner.TryRelaunch | src/engine/katago.rs:738-760 | doubles the delay; a successful launch sends the backlog |
| FastSearch.FloorPow2 | src/engine/autotune/fast.rs:72-78 | the largest power of two not above its argument |
| FastSearch.InFlightIsSane | src/engine/autotune/fast.rs:61-71 | a power of two from 64 to 512, at most the depth or 64, for every lane count and depth |
| FastSearch.InFlightIsExact | src/engine/autotune/fast.rs:61-71 | at least 128 exactly for queues of at least 128; at most the queue exactly from 64 up |
| FastSearch.InFlightFollowsLanes | src/engine/autotune/fast.rs:61-71 | 256 and 512 are reached exactly when a sixteenth of the SIMD lanes (256 if unknown) and the queue allow it |
| FastSearch.ShortQueuesMissTheRange | src/engine/autotune/fast.rs:61-71 | 64 in flight for a queue of 100, and for one of 63 |
| FastSearch.FreeSpaceIsSane | src/engine/autotune/fast.rs:92-142 | unpinned rungs: batch at most the total, servers times batch at least it, servers ascending; the prior is the last rung not above the preference |
| FastSearch.PriorIsARung | src/engine/autotune/fast.rs:92-142 | the prior indexes the ladder whatever is pinned |
| FastSearch.RungsAreUsable | src/engine/autotune/fast.rs:97-128 | whatever is pinned, no rung sets a key to 0 |
| FastSearch.RungMeans | src/engine/autotune/fast.rs:92-142 | pinned keys are left alone; with one of the pair pinned the other is derived from it; with both free, servers come from the ladder, the batch fits and the servers hold all positions |
| FastSearch.PriorIsTheUsualWinner | src/engine/autotune/fast.rs:128-136 | the walk starts at 8 servers on ROCm and at 4 elsewhere |
| FastSearch.LeaderIsNearTop | src/engine/autotune/fast.rs:206-220 | no measured rate is more than TIE above the leader |
| FastSearch.FloorIsBelowLeader | src/engine/autotune/fast.rs:200-206 | a trial may be stopped only below 0.92 of the leader, where it could not have won |
| FastSearch.TrialSetsItsRung | src/engine/autotune/fast.rs:156-163 | trial i sets the servers and the batch of rung `tried[i]` and the space's analysis threads |
| FastSearch.NoRungTwice | src/engine/autotune/fast.rs:190-249 | each rung is tried at most once |
| FastSearch.NextRung | src/engine/autotune/fast.rs:231-246 | where the walk goes: on, once to the other side, or to any rung left while all have failed |
| FastSearch.Turn | src/engine/autotune/fast.rs:222-246 | after a trial the walk goes on towards an unmeasured neighbour, or both neighbours of the best are measured |
| FastSearch.Run | src/engine/autotune/fast.rs:172-249 | at least two trials, prior first, each of its own rung's servers and batch and with its floor; the winner's trial and rate; every rate at most winner times 1 + TIE; a local optimum if the budget never refuses |
| ThoroughSearch.Dedup | src/engine/autotune/thorough.rs:107-115 | equals the first-occurrence list |
| ThoroughSearch.DedupedIsASet | src/engine/autotune/thorough.rs:107-115 | same members, no repetition, same first item |
| ThoroughSearch.NewSpace | src/engine/autotune/thorough.rs:54-89 | the candidates left by the pins, deduplicated |
| ThoroughSearch.SpaceIsSane | src/engine/autotune/thorough.rs:54-89 | never empty, no repetition, expected winner first, threads within the depth, nothing pinned and nothing 0 is set |
| ThoroughSearch.MeanOfEqual | src/engine/autotune/thorough.rs:233-238 | measuring the same rate again does not move the mean |
| ThoroughSearch.MeanMore | src/engine/autotune/thorough.rs:233-238 | the mean times the number of samples grows by each added sample |
| ThoroughSearch.MeanBetween | src/engine/autotune/thorough.rs:233-238 | it lies between the least and the greatest sample |
| ThoroughSearch.MeanOfPermutation | src/engine/autotune/thorough.rs:233-238 | the order of the samples does not matter |
| ThoroughSearch.FloorIsBelowTop | src/engine/autotune/thorough.rs:180-193 | a trial may be stopped only below 0.92 of the top average |
| ThoroughSearch.ContendersAre | src/engine/autotune/thorough.rs:194-217 | exactly the entries whose average reaches the bar, in order |
| ThoroughSearch.StageTrials | src/engine/autotune/thorough.rs:171-217 | a stage tries its candidates in order and then, if more than one average is within CLOSE of the top, each of those once more |
| ThoroughSearch.StageAIs | src/engine/autotune/thorough.rs:130-145 | the first stage tries every pair with the first thread count |
| ThoroughSearch.StageBIs | src/engine/autotune/thorough.rs:146-165 | the second every other thread count with the leader's pair |
| ThoroughSearch.SpacesAreProper | src/engine/autotune/thorough.rs:54-89 | no space of the search is empty or holds anything twice |
| ThoroughSearch.LeaderIs | src/engine/autotune/thorough.rs:121-227 | the first stage's leader has all the rates measured for it, and no pair's average is more than TIE above its own |
| ThoroughSearch.SearchReports | src/engine/autotune/thorough.rs:121-238 | whatever the rates: every pair and every thread count with the best pair is tried; the reported samples are all the rates measured for the reported candidate; no thread count's average is more than TIE above its own |
| ThoroughSearch.Stage | src/engine/autotune/thorough.rs:171-227 | the loops equal prune-measure, rematch and pick, with the same trials in the same order |
| ThoroughSearch.Run | src/engine/autotune/thorough.rs:121-165 | the report of the two stages, or of the pinned candidate without a trial; the rate reported is the mean of all rates measured for the reported candidate |
| ThoroughSearch.StageWinner | src/engine/autotune/thorough.rs:219-227 | for any rates: the earliest entry within TIE of the top mean, and none exactly when no mean is positive |
| ThoroughSearch.TrialsAreBounded | src/engine/autotune/thorough.rs:121-227 | at most two trials per pair and two per thread count, less one |
| ThoroughSearch.AgainIsResampled | src/engine/autotune/thorough.rs:194-217 | at fixed rates a rematch adds one equal sample to each contender and touches nothing else |
| ThoroughSearch.StageIsUnmoved | src/engine/autotune/thorough.rs:171-227 | at fixed rates a stage picks the same entry with or without pruning |
| ThoroughSearch.PruningIsHarmless | src/engine/autotune/thorough.rs:30-41 | at fixed rates the whole search ends on the same candidate and samples as one that never prunes |
| Text.TrimAround | src/engine/autotune/overrides.rs:24-37 | around a separator each side is trimmed by itself |
| Text.TrimIs | src/engine/autotune/overrides.rs:24-37 | trimming takes all whitespace off both ends and nothing else |
| Text.SplitJoin | src/engine/autotune/overrides.rs:82-92 | splitting undoes joining |
| Text.DecimalRoundTrip | src/engine/autotune/mod.rs:269-288 | a `u32` written in decimal parses back to itself |
| Overrides.Overrides.SetKey | src/engine/autotune/overrides.rs:52-57 | replaces the first value in place or appends |
| Overrides.Overrides.FillFrom | src/engine/autotune/overrides.rs:61-67 | adds the keys not set yet |
| Overrides.Overrides.Retain | src/engine/autotune/overrides.rs:77-79 | keeps the accepted keys in order |
| Overrides.Overrides.FromText | src/engine/autotune/overrides.rs:24-37 | parses every entry in order |
| Overrides.SettingIs | src/engine/autotune/overrides.rs:24-37 | an entry sets what stands before its first `=` to what stands after, both trimmed; without a key, nothing |
| Overrides.Overrides.ToText | src/engine/autotune/overrides.rs:82-92 | writes the canonical text |
| Overrides.GetSet | src/engine/autotune/overrides.rs:44-57 | a set key reads as its new value, all others as before |
| Overrides.GetFill | src/engine/autotune/overrides.rs:61-67 | a key already set keeps its value, the others read as in the filler |
| Overrides.FillExtends | src/engine/autotune/overrides.rs:61-67 | filling leaves every pair already there as it is, in place |
| Overrides.GetRetained | src/engine/autotune/overrides.rs:77-79 | a key reads as before if accepted and not at all otherwise |
| Overrides.SetKeepsUnique | src/engine/autotune/overrides.rs:52-57 | keys stay unique under `set` |
| Overrides.FillKeepsUnique | src/engine/autotune/overrides.rs:61-67 | keys stay unique under `fill` |
| Overrides.RetainKeepsUnique | src/engine/autotune/overrides.rs:77-79 | keys stay unique under `retain` |
| Overrides.ParseIsCanonical | src/engine/autotune/overrides.rs:20-37 | whatever the text, parsed keys are unique, trimmed, non-empty and free of separators |
| Overrides.CanonicalRoundTrip | src/engine/autotune/overrides.rs:82-92 | canonical settings survive being written and parsed |
| Overrides.ParseDisplayParse | src/engine/autotune/overrides.rs:24-92 | parse after display after parse is parse, for every string |
| Overrides.ParsedValueIsLast | src/engine/autotune/overrides.rs:20-37 | a parsed key has the value of the last entry that sets it |
| Tuning.Pins | src/engine/autotune/mod.rs:231-243 | the loop's pins, in place |
| Tuning.GetPins | src/engine/autotune/mod.rs:227-243 | a key is pinned by `override_config`, else by an explicit field that is not 0 |
| Tuning.TunedKeys | src/engine/autotune/mod.rs:420-436 | the tuned keys, in place |
| Tuning.GetTunedKeys | src/engine/autotune/mod.rs:419-436 | exactly the unpinned keys the candidate has a value for |
| Tuning.TunedKeysAre | src/engine/autotune/mod.rs:419-436 | each of the candidate's numbers under its own key, one search thread, nothing that is pinned and nothing else |
| Tuning.TrialOverrides | src/engine/autotune/mod.rs:440-444 | pins filled with the tuned keys |
| Tuning.GetTrialOverrides | src/engine/autotune/mod.rs:438-444 | pinned keys as they are, the candidate's values for the others |
| Tuning.TrialVisits | src/engine/autotune/mod.rs:308-315 | never more than production's visits |
| Tuning.TrialLeavesTheRest | src/engine/autotune/mod.rs:290-315 | a trial runs at `autotune_visits` where they are set and fewer than production's, else at production's, without the human model; everything else is production's |
| Tuning.TunedLeavesTheRest | src/engine/autotune/mod.rs:265-288 | tuning changes the four fields and the overrides and nothing else |
| Tuning.WithTuned | src/engine/autotune/mod.rs:269-288 | the two loops over fields and tuned keys |
| Tuning.LaunchedIs | src/config.rs:241-268 | what the launch argument sets a key to: the override, else the precision flag, else the field |
| Tuning.FieldsAreLaunched | src/config.rs:241-268 | without overrides each field is launched under its own key unless it is 0, and the precision flag where it applies |
| Tuning.TrialLaunches | src/engine/autotune/mod.rs:290-306 | what a trial is launched with, for every key |
| Tuning.ProductionField | src/engine/autotune/mod.rs:265-288 | what each field is after tuning |
| Tuning.ProductionLaunches | src/engine/autotune/mod.rs:265-288 | what production is launched with, for every key |
| Tuning.MeasuredIsLaunched | src/engine/autotune/mod.rs:265-306 | production equals the measured trial on every key if and only if every tuning field is covered |
| Tuning.PinnedIsKept | src/engine/autotune/mod.rs:227-306 | a pinned key has its pinned value in every trial and in production, unconditionally |
| Tuning.CachedIsApplied | src/engine/autotune/mod.rs:161-172 | re-parsing the tuned text applies exactly what the tuning run applied |
| Tuning.SpaceCandidateIsLaunched | src/engine/autotune/mod.rs:265-306 | with the NN fields at their default 0 every candidate of a space is launched as measured |
| Tuning.SpacesRespectPins | src/engine/autotune/fast.rs:92-142 | no candidate of either search sets a pinned key, and every free key is set |
| Tuning.FastWinnerIsLaunched | src/engine/autotune/fast.rs:92-142 | that holds for every rung of the fast search, whatever is pinned |
| Tuning.ThoroughWinnerIsLaunched | src/engine/autotune/thorough.rs:51-89 | and for every candidate of the thorough search |
| Tuning.ReadSetup | src/engine/mod.rs:248-266 | a field is explicit exactly when given and then as given; one that was not has its default, 0 for the NN fields; the rest of the section is untouched |
| Tuning.ServiceLaunchesWhatItMeasured | src/engine/autotune/mod.rs:124-225 | for every configuration the service can read, in either mode, production equals the measured trial on every key |
| Tuning.SamePinsSameTrial | src/engine/autotune/mod.rs:290-306 | what a trial launches depends on the configuration only through its pins, precision and backend |
| Cache.CacheFile.Lookup | src/engine/autotune/cache.rs:169-187 | the exact entry, else for a fast key the thorough one |
| Cache.CacheFile.Store | src/engine/autotune/cache.rs:196-208 | replaces the entry of the same key, keeps all others |
| Cache.LookupAfterStore | src/engine/autotune/cache.rs:169-208 | what a store changes, for every key |
| Cache.HitMatches | src/engine/autotune/cache.rs:169-187 | a hit was stored under the same key but for the mode, by the same mode or a thorough search |
| Cache.HitLaunchesTheSame | src/engine/autotune/mod.rs:162-213 | a stored result, looked up under its key and re-parsed by the same configuration, launches what the tuning run launched |
| Cache.HitLaunchesWhatWasMeasured | src/engine/autotune/mod.rs:161-213 | a hit stored by a run with any other configuration and explicit list under the same pins applies what tuning this one to the same candidate would |
| Cache.ServiceHitLaunchesWhatWasMeasured | src/engine/autotune/mod.rs:124-225 | for any two configurations the service can read, a start from what the other's search found and stored launches, for every key, what that search measured |
| Feed.Chunks | src/engine/autotune/mod.rs:502-516 | every turn of every game exactly once, in order, in non-empty chunks of at most the size, short only at a game's end |
| Feed.Feeder.Fill | src/engine/autotune/mod.rs:482-493 | submits from the plan, round and round, until the depth is reached |
| Feed.Feeder.Await | src/engine/autotune/mod.rs:494-498 | a completion takes exactly its positions off the count; an error or an empty plan ends the feed |
| Feed.Feeder.Run | src/engine/autotune/mod.rs:476-500 | over any completions: whenever it waits, the count is what is in flight, at least the depth and less than a chunk above it |
| Feed.FeedGames | src/engine/autotune/mod.rs:473-500 | the same for the chunks of any corpus; only an empty one ends with "no corpus games" |
| Annotate.RotationIsExact | src/engine/katago.rs:97-170 | rotating a reported evaluation gives the viewer's true one, whatever perspective and side were assumed |
| Annotate.PlayerAccum.Record | src/engine/annotate.rs:286-299 | adds one move to every total, in place |
| Annotate.PlayerAccum.Finish | src/engine/annotate.rs:302-357 | means over the moves, 0 for a player without any, and the strength band |
| Annotate.PerTurnGrid | src/engine/annotate.rs:490-532 | for each of the four grids: all turns encoded without their trailing entry, or nothing |
| Annotate.AnnotateMoves | src/engine/annotate.rs:632-722 | the loop over the moves: every annotation and both players' totals |
| Annotate.Assemble | src/engine/annotate.rs:617-765 | moves, reports, grids and profile as a function of the table of responses |
| Annotate.CountsAddUp | src/engine/annotate.rs:284-299 | under both lenses a player's class counts sum to the player's moves |
| Annotate.AnalysisCounts | src/engine/annotate.rs:617-765 | the players' moves sum to `num_moves` and every lens to its player |
| Annotate.AnalysisMoves | src/engine/annotate.rs:632-722 | the analysis lists each move's own annotation in order |
| Annotate.TotalsAre | src/engine/annotate.rs:284-299 | a player's class counts, under each lens, count the player's annotations of that class; losses and accuracies are summed over them |
| Annotate.ReportIs | src/engine/annotate.rs:302-321 | each mean of the payload's report times the player's moves is its own sum over the player's own annotations |
| Annotate.RanksAscend | src/engine/annotate.rs:335-357 | only 19x19 games with 20 moves or more are ranked, and losing more never ranks stronger |
| Annotate.AnalysisGrids | src/engine/annotate.rs:490-602 | each of the four grids holds, for every turn and point, its own field's encoded entry, and the profile comes only with the human policy |
| Annotate.CellsAreNearest | src/engine/annotate.rs:535-590 | cells are rounded to the nearest within their range: hundredths with the sign, hundredths, 255ths of the square root |
| Annotate.RankingIsStable | src/engine/annotate.rs:655-660 | candidates come out by rank, equal ranks in their order, none lost or added |
| Annotate.TopMovesAreBest | src/engine/annotate.rs:655-660 | the kept candidates are the best ranked, up to the limit, each with its own numbers in the mover's frame |
| Annotate.TopMovesAreTrue | src/engine/katago.rs:205-223 | the kept candidates are the true ones in the mover's frame, whenever KataGo has the mover to move or the perspective is fixed |
| Annotate.CandidatesAreExact | src/engine/katago.rs:205-223 | they are, for every truth, if and only if KataGo has the mover to move or the perspective is fixed |
| Annotate.NotesAreTrue | src/engine/annotate.rs:414-489 | whomever `currentPlayer` names, every annotation is the one the true evaluations give but for its candidates' evaluations; those too where the names agree |
| Annotate.NoteReads | src/engine/annotate.rs:632-722 | for every evaluated game a move's win rates and lead are the mover's standing before and after it, its losses the falls between them, its classes those of its losses |
| Annotate.MissingReads | src/engine/annotate.rs:640-675 | a missing evaluation reads as even before the move and as no change after it |
| Annotate.ClassesAscend | src/engine/annotate.rs:362-389 | the class thresholds; a greater loss is never classed milder |
| Annotate.PriorsRead | src/engine/annotate.rs:593-696 | priors come from the turn's full policy, else from the first candidate listed for the move, else nowhere |
| Annotate.GridsAreTrue | src/engine/annotate.rs:535-557 | the ownership grids are Black's in every perspective, names agreeing where the frame depends on them |
| Annotate.OwnershipIsExact | src/engine/annotate.rs:535-557 | a turn's ownership map comes out as Black's, for every truth, if and only if KataGo has the move list's side to move or the perspective is fixed |
| Annotate.SharedGrids | src/engine/annotate.rs:560-590 | the spread and policy grids are the same under every perspective |
| Annotate.PerspectiveDoesNotMatter | src/engine/katago.rs:60-117 | the whole analysis is the same under all three reporting perspectives |
| Annotate.DoubleMoveIsMisread | src/engine/annotate.rs:409-423 | without `currentPlayer`, a free move before another by the same player is charged two points |
| Annotate.FallbackIsExact | src/engine/annotate.rs:391-423 | responses without `currentPlayer` are annotated correctly, for every truth, if and only if the perspective is fixed or the moves alternate |
| Annotate.ScoreIsConserved | src/engine/annotate.rs:634-722 | for every move list with every turn evaluated by a named player, whoever that is: Black's total loss less White's is the fall of Black's standing plus Black's gains less White's, in points and win probability |
| Annotate.TruthIsConserved | src/engine/annotate.rs:634-722 | when the responses put a truth, whomever they name, it is the true standing that is conserved |
| Annotate.ArrivalOrderDoesNotMatter | src/engine/annotate.rs:617-629 | the analysis does not depend on the order of the responses |
| TwoPass.TurnsToRefine | src/engine/annotate.rs:425-461 | exactly both turns beside every move that swings or misses an evaluation |
| TwoPass.SwingsAreChanges | src/engine/annotate.rs:425-461 | where players are named a move is refined exactly if Black's standing changes by at least either delta, whoever moved, or an evaluation is missing |
| TwoPass.SwingsBothWays | src/engine/annotate.rs:425-461 | a gain counts like a loss |
| TwoPass.MergeTurns | src/engine/mod.rs:219-227 | the overlay, in order of turns |
| TwoPass.OrderedIsIndexed | src/engine/mod.rs:219-227 | a merged list has each turn from 0 to the last exactly once, in order |
| TwoPass.MergeIsOverlay | src/engine/mod.rs:122-157 | refined responses at refined turns, screened ones elsewhere |
| TwoPass.Analyze | src/engine/mod.rs:93-160 | the analysis is made from the right response for every turn, in one pass or two: turn t from the response for turn t, of the deep pass exactly where a move beside it swings or misses an evaluation |

## Left out

- The WebSocket, HTTP, Postgres, pgmq and subprocess calls themselves, JSON, SGF parsing, metrics, tracing, authentication, the dashboard, health checks and benchmarks: input and output, or easy members.
- The SSE stream `changes_since` holds nothing back, so no no-loss property is claimed for it; the `latest` field of the changes response is not modelled.
- Transactions are modelled by the rows they write, each with its own start, write and commit instants; that one transaction writes a row once is taken from the code.
- The two ends of a session, the workers and the owner's environment run concurrently; they are modelled as steps on one joint state, with `Connection`, `Owner` and `Database` as their in-place counterparts.
- The worker client's dial and backoff states, pings and the `Hello` frame.
- How a loop gets its job is the `Lease` step, at any time; that a cancelled session soon stops leasing is not modelled.
- A negative visibility timeout.
- Floating-point rounding; the accuracy curve (`exp`), the square root and the place of a move in a policy array are function parameters.
- Annotate.Assemble: omits the payload's engine section and the fields copied from the game.
- Hardware probing, file stamps and the atomic rewrite of the cache file: the cache key's setup is an opaque value.
- Cache.CacheFile.Store: a failing write is not modelled; the code then leaves the file as it was.
- The trials' warm-up, measuring window and time budget: a search sees a rate, a pruned rate or a failure, and the budget is any yes/no function of the trial number.
- FastSearch.Run: the rates' bound is stated for rates that are not negative, which a count over a time is.
- ThoroughSearch.PruningIsHarmless: assumes, as it must, that a candidate's rate does not change between measurements.
