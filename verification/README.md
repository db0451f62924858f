# A verified model of the PBFT replica, client and wire format

This project models `pbft::Node`, `pbft::Client` and the message serialisation of a C++
implementation of Castro and Liskov's "Practical Byzantine Fault Tolerance" (OSDI 1999),
and proves what they guarantee over every run.

How the pieces fit:

- `Messages.dfy`, `Collections.dfy`: message records; ordered iteration, set sizes, quorum intersection.
- `Handlers.dfy`: every handler of `src/node.cc` as a function on the state of one replica. The state
  has the fields of `Node` and three records of the past: executed requests (`history`), received
  messages (`inbox`) and sent messages (`outbox`).
- `Replica.dfy`: the replica as a class whose methods update fields in place, with the loops of the
  source. Each method is proved to leave exactly the state that `Handlers` defines.
- `NewViews.dfy`, `NewViewLoops.dfy`: the V and O sets of a NEW-VIEW, what they mean, and the nested
  loops that build and check them.
- `Invariant.dfy`, `Preservation.dfy`: an invariant of a single replica in an arbitrary environment,
  and its preservation by every event.
- `ReplicaRuns.dfy`, `Certificates.dfy`: properties of whole runs of one replica, and exactly when a
  prepared entry has a prepared certificate.
- `Effects.dfy`, `ViewEffects.dfy`, `Proposals.dfy`: what each event does to the fields and which
  messages it sends, told without the steps of the handlers.
- `Cluster.dfy`, `Agreement.dfy`: a cluster with at most f faulty replicas, and what the correct ones
  agree on. Faulty replicas may send anything under their own id; messages may be lost, repeated,
  delayed and reordered.
- `Necessity.dfy`: the hypotheses of replicated execution are exact, by schedules for every n = 3f+1.
- `LostRequest.dfy`: a schedule with correct primaries in which a NEW-VIEW makes a correct replica
  execute the null request in place of a request that another one has executed.
- `Schedules.dfy`, `Steps.dfy`, `ViewSteps.dfy`, `Rounds.dfy`: how those schedules are built: what single
  messages and quorums do to one replica, and then to many at once.
- `Client.dfy`, `EndToEnd.dfy`: the client's reply counting, and what an accepted result means.
- `Codec.dfy`, `Layout.dfy`, `Parsing.dfy`, `DataStream.dfy`: the wire format as functions, byte by byte,
  what parsers accept, and stream operations.

Conventions and assumptions:

- The service is an arbitrary deterministic `execute` and `digest` (`include/pbft/service_interface.hh`).
  The request hash is an arbitrary function; where the digest must determine the request, that is a
  stated hypothesis.
- A replica id inside a message and the peer of a connection both name the true sender, which is one
  of 0..n-1 and not the receiver. A digest that was never set equals no digest a message carries.
- `n = 3f+1` is required only where two quorums must share a correct replica. `K_ > 0` and `n_ >= 1`.
- `timer_running_` and the client's `timestamp_` have no initialiser in the source; they start as
  false and 0. A view change starts only when the armed timer fires.
- Handlers are atomic. Numbers are unbounded, except in the wire format, where widths are explicit. Numbers
  that the source writes in the order of the host are taken to be little-endian.
- Runs can be restricted by a `Regime`: `strict` says no pre-prepare is let in for the receiver's low
  watermark itself, `faithful` says a pre-prepare that is let in carries the request its digest stands
  for, `ordered` says no PREPARE is let in before its pre-prepare. Each is a test a receiver could make
  on arrival, and each binds only messages that pass all tests of the source: a message that the
  receiver drops, and an element of an O set that it skips, may be anything. Results that do not
  mention them hold without.

What the code does that its comments do not say: a PREPARE that arrives before its pre-prepare is
counted whatever its digest (src/node.cc:289-298); a request that prepared only in view 0 is replaced
by the null request in a NEW-VIEW (src/node.cc:556-579); re-proposals carry the null request under a
real digest (src/node.cc:558-575) and overwrite the request of a backup that had prepared it, so that
even correct primaries do not give agreement on operations (`LostRequest.ReproposalLosesRequest`); the window admits the low watermark, whose entry was just collected
(src/node.cc:236, 463); the exponential back-off never takes effect, because the counter is 0 whenever
the timer is armed (src/node.cc:657-664).

## Model

| member | source | states |
|---|---|---|
| Agreement.CommitAgreement | src/node.cc:239-369 | with n = 3f+1 and at most f faulty, in every reachable state and for every number above all correct low watermarks, two correct replicas that have committed it hold the same digest, in whatever views they committed |
| Agreement.ExecutedDigestAgreement | src/node.cc:352-408 | in strict runs, and in all runs if K_ > L_, two correct replicas never execute different digests under one number, at any distance in time and through garbage collection |
| Agreement.CommittedMatchesExecuted | src/node.cc:352-408 | in the same runs a committed entry, wherever the watermarks are, carries the digest that any correct replica executed under that number |
| Agreement.ReplicatedExecution | src/node.cc:371-408 | in faithful runs that are strict or have K_ > L_, the histories (digest, request, answer) of any two correct replicas are prefixes of one another, and replicas that have executed equally far have equal service states |
| Agreement.OneCommitEver | src/node.cc:239-321 | in the same runs a correct replica sends COMMITs for at most one digest under each number, ever, garbage collection included |
| Agreement.NeverCollects | src/node.cc:397-449 | if K_ > L_, no correct replica ever has a positive low watermark |
| Agreement.StableCheckpointAgreement | src/node.cc:421-443 | two correct replicas that ever have the same positive low watermark, at the same or different moments, have the same stable digest |
| Agreement.CollectionIsSafe | src/node.cc:413-476 | a positive low watermark is a multiple of K_, and f+1 correct replicas have executed through it, voted for the stable digest and had that digest there |
| Agreement.ViewChangeCertificate | src/node.cc:492-504 | every VIEW-CHANGE of a correct replica for a positive checkpoint holds 2f+1 distinct votes for one digest, for every visiting order of the vote map, and that digest is the stable digest of every correct replica at that checkpoint |
| Agreement.NewViewsPass | src/node.cc:583-627 | every NEW-VIEW a correct replica ever sent passes the size checks of every backup |
| Agreement.QuorumsAgree | src/node.cc:413-419 | a correct replica votes for one digest per checkpoint, so two checkpoint quorums for a number agree |
| Necessity.HypothesesAreExact | src/node.cc:236-258 | for every n = 3f+1 with f >= 1, every K_ and L_ and every set of at most f faulty replicas with the first primary among them: replicated execution holds in all runs of a regime if and only if L_ = 0, or the regime is faithful and is strict or K_ > L_ |
| Necessity.TwoRequestsOneDigest | src/node.cc:253-258 | without `faithful`, in every such cluster with L_ >= 1: a run in which any two given correct replicas execute two given requests as number 1 under one digest |
| Necessity.TwoDigestsAtLowWatermark | src/node.cc:236-242 | without `strict`, in every such cluster with K_ <= L_: a run in which number K_ is collected, proposed again with another digest, and executed by a given correct replica that lagged by one |
| LostRequest.ReproposalLosesRequest | src/node.cc:555-581 | without `faithful`, for every n = 3f+1 with f >= 1, with correct primaries in views 1 and 2: a run in which replica 1 executes r and a given correct replica executes the null request as number 1, both under the digest of r |
| ViewSteps.JoinsAgain | src/node.cc:598-645 | a NEW-VIEW that re-proposes the digest a backup had prepared replaces the request, keeps both vote sets and prepares it again |
| ViewSteps.FeedMajority | src/node.cc:529-594 | 2f+1 like reports make the next primary enter its view and announce an acceptable NEW-VIEW with the O set of those reports, everything else unchanged |
| ViewSteps.Fires | src/node.cc:481-516 | a firing timer makes a replica that has collected nothing ask for the next view with its prepared entries, and keep its own report if it will be the primary |
| Rounds.WholeRound | src/node.cc:219-408 | a proposal delivered to 2f replicas is prepared by all of them, and executed by exactly those that hear 2f+1 commits |
| Steps.FeedStable | src/node.cc:421-476 | 2f+1 like votes make a checkpoint stable: both watermarks move and everything up to it leaves the log, executed or not |
| Cluster.ReachInv | src/node.cc:114-126 | every reachable cluster satisfies the invariant at each correct replica, and received messages of correct replicas were sent by them |
| Cluster.ReachGrows | src/node.cc:445-449 | over a run nothing sent, received or executed is taken back, and h_, view_ and last_exec_ never decrease at any correct replica |
| EndToEnd.AcceptedWasExecuted | src/client.cc:109-129 | a result a client accepts was obtained by a correct replica by executing a request of that client with that timestamp |
| EndToEnd.AcceptedByAll | src/client.cc:109-129 | under the hypotheses of ReplicatedExecution it is the result at one position of the history of every correct replica that has got that far |
| ReplicaRuns.DigestLock | src/node.cc:239-267 | once a number is pre-prepared with d, until h_ reaches it the entry keeps d, never falls back to an earlier stage, and every PREPARE and COMMIT ever sent for it carries d |
| ReplicaRuns.NoRegression | src/node.cc:253-267 | no event lowers the stage of an entry that stays in the log, although a repeated pre-prepare resets it on the way |
| ReplicaRuns.StageFromVotes | src/node.cc:302-369 | between events the stage of an entry is a function of its pre-prepare flag and commit set |
| ReplicaRuns.HandleGrows | src/node.cc:459-467 | entries leave the log only at or below the new h_, and otherwise keep their digest and all their votes |
| ReplicaRuns.NoLostWakeUp | src/node.cc:319-381 | after every event no prepared entry has 2f+1 commits and the next entry to execute is not committed |
| ReplicaRuns.LongestRun | src/node.cc:371-408 | try_execute consumes exactly the longest contiguous committed run after last_exec_, appending those digests and requests in order |
| ReplicaRuns.ExecutionIsFold | src/node.cc:371-419 | the history has last_exec_ entries, answers and service state are the fold of execute over it, and the CHECKPOINTs sent are exactly those for executed multiples of K_ with the digest of that prefix |
| ReplicaRuns.RepliesComeFromHistory | src/node.cc:156-164 | last_replies_ is the last answer per client in the history, every executed request was answered with its own timestamp and result, and every reply ever sent answers an executed request |
| ReplicaRuns.BoundedWindow | src/node.cc:172-189 | H_ = h_ + L_, all log keys in [h_, H_], at most L_+1 entries, h_ <= seq_num_ <= H_, last_exec_ <= H_ |
| ReplicaRuns.FreshNumbers | src/node.cc:170-203 | numbers given to requests strictly increase over the whole run, renumbering never goes back, and at a primary the next slot is not pre-prepared and last_exec_ <= seq_num_ |
| ReplicaRuns.TimerDiscipline | src/node.cc:657-685 | view_changing_ excludes a running timer, the back-off counter is 1 exactly while view-changing, and the timer is only ever armed with the base delay capped at 300 |
| Certificates.OrderIsExact | src/node.cc:289-325 | for every n, replica id and L_ >= 1: every prepared entry of every run has 2f-1 PREPAREs of others for its digest if and only if the runs are ordered or f = 0 |
| Certificates.BufferedPrepareCounts | src/node.cc:289-298 | for every n with f >= 1, at backups and at the primary: a run in which PREPAREs for another digest, buffered before the pre-prepare, are counted and the replica prepares without a certificate |
| Certificates.CertificateOf | src/node.cc:302-325 | the certificate of a prepared entry in a state of an ordered run |
| ReplicaRuns.RunInv | src/node.cc:114-126 | the invariant holds after every sequence of events in an arbitrary environment |
| ReplicaRuns.Later | src/node.cc:459-467 | between any two moments of a run, sent messages and history only grow, h_, view_ and last_exec_ do not decrease, and entries above h_ keep digest and votes |
| Preservation.HandleKeeps | src/node.cc:114-126 | every event keeps the whole single-replica invariant |
| Preservation.InitHolds | src/node.cc:29-39 | a new replica satisfies it |
| Preservation.OnRequestKeeps | src/node.cc:150-210 | a request keeps it, whether answered again, dropped, numbered or forwarded |
| Preservation.AssignKeeps | src/node.cc:184-203 | numbering a request keeps it, and the slot taken was not pre-prepared |
| Preservation.ProcessPrePrepareKeeps | src/node.cc:219-268 | a pre-prepare keeps it through the whole cascade to execution and checkpoint |
| Preservation.ProcessPrepareKeeps | src/node.cc:273-300 | a PREPARE keeps it |
| Preservation.OnCommitKeeps | src/node.cc:330-350 | a COMMIT keeps it |
| Preservation.TryPrepareKeeps | src/node.cc:302-325 | looking at the votes of one entry restores the invariant where only that entry was unsettled |
| Preservation.TryCommitKeeps | src/node.cc:352-369 | the same for the commit votes |
| Preservation.TryExecuteKeeps | src/node.cc:371-408 | executing keeps the fold, the commit evidence of every step and the checkpoint announcements |
| Preservation.OnCheckpointKeeps | src/node.cc:421-443 | a checkpoint vote keeps it, also when it moves the window and collects |
| Preservation.StabiliseNumbers | src/node.cc:438-441 | moving the window keeps the numbering in range and never lowers seq_num_ |
| Preservation.ProofQuorum | src/node.cc:496-503 | for any visiting order, if some recorded digest has a quorum then the C set holds a whole quorum for some digest |
| Preservation.ProofVotes | src/node.cc:496-503 | the C set holds only recorded votes |
| Preservation.StartViewChangeKeeps | src/node.cc:481-516 | a firing timer keeps it, for any visiting order |
| Preservation.OnViewChangeKeeps | src/node.cc:518-596 | a VIEW-CHANGE keeps it, including a late one for the current view |
| Preservation.OnNewViewKeeps | src/node.cc:598-645 | a NEW-VIEW keeps it through the whole O set |
| Handlers.Handle | src/node.cc:114-126 | one event only extends what was sent, received and executed, and lowers neither h_, view_ nor last_exec_ |
| Handlers.TryExecute | src/node.cc:371-408 | leaves the log, view and window alone and stops only where the next entry cannot execute |
| Handlers.Highest | src/node.cc:451-457 | the least upper bound of last_exec_, h_ and the log keys |
| Effects.IgnoredLeavesNoTrace | src/node.cc:229-237 | a message that fails a test of its handler (sender, view, view change, window, stale checkpoint, not for this primary, sizes of V and O) changes nothing |
| Effects.MismatchIsNotCounted | src/node.cc:239-244 | a pre-prepare or vote for another digest than that of its slot, and a commit for a slot without one, only makes sure that the slot exists |
| Effects.ProposalIsTaken | src/node.cc:239-268 | a pre-prepare that fits overwrites view, digest and request of its slot, keeps all votes and adds the own prepare, is answered by a PREPARE and by a COMMIT exactly if 2f prepares are there, touches no other slot, and leaves the timer running unless something executed |
| Effects.PrepareIsCounted | src/node.cc:285-325 | a PREPARE that fits is added to its slot and nothing else there changes but the own commit, sent exactly if the slot now prepares |
| Effects.CommitIsCounted | src/node.cc:340-369 | a COMMIT that fits is added to its slot; only answers and checkpoints are sent |
| Effects.StageAfter | src/node.cc:302-369 | after every event the stage of every slot is what its votes say |
| Effects.ExecutionAnswers | src/node.cc:383-395 | every request executed is answered at once, in the current view, with its own timestamp, client and result |
| Effects.TimerAfterExecution | src/node.cc:674-685 | after an execution the timer runs exactly if it ran before and a pre-prepared number above last_exec_ is left |
| Effects.DelayDoubles | src/node.cc:659-661 | the delay starts at the configured one and doubles with the counter, up to 300 |
| Effects.VoteIsCounted | src/node.cc:421-443 | a checkpoint vote is added and no other changes; it moves the window exactly if it completes a quorum for a number that is not stable, and then the log keeps what lies above, the votes what does not lie below, and seq_num_ is the highest of last_exec_, the new h_ and the log before |
| ViewEffects.ReportIsTaken | src/node.cc:518-596 | a VIEW-CHANGE for a view this replica leads, the current one included, is stored beside the others; with 2f+1 the replica announces V in id order with its O set, again if need be, enters the view, renumbers and stops a timer with nothing to wait for; nothing else changes |
| ViewEffects.TimerOutcome | src/node.cc:481-516 | a firing timer suspends operation and sends a VIEW-CHANGE for the next view with h_, with a proof of every prepared number and of nothing else in ascending order, and with all votes for the digests visited up to the first quorum, each once |
| ViewEffects.NewViewOutcome | src/node.cc:598-645 | an accepted NEW-VIEW makes the replica enter the view, take every element of O that fits its log, however many and the first if a number has several, with a PREPARE for each, leave all other numbers alone and renumber |
| Proposals.RequestOutcome | src/node.cc:150-210 | a request is answered from the cache, proposed under seq_num_ + 1, forwarded with the timer started, or dropped: which of them, and that nothing else changes |
| Proposals.ForwardedAlike | src/node.cc:205-210 | a forwarded request is treated like one from a client |
| Proposals.OnlyRequestsPropose | src/node.cc:196-201 | no other event sends a PRE-PREPARE |
| Proposals.ProposalConditions | src/node.cc:170-203 | a PRE-PREPARE is sent only by the primary, for a request that no pre-prepared slot carries and that was not the last answered, with the next number, its hash and the current view |
| Proposals.ProposedThen | src/node.cc:170-203 | over a whole run every PRE-PREPARE sent met these conditions when it was sent |
| Proposals.NoDoubleProposal | src/node.cc:175-182 | of two PRE-PREPAREs for one client and timestamp, the slot of the first had left the log or carried another request when the second was sent |
| NewViews.OSetMeaning | src/node.cc:541-581 | O lists exactly the numbers above every reported checkpoint and not above every reported proof, without gaps, in the new view, each with the digest of a proof of maximal view among those of view at least 1, or the null digest when there is none |
| NewViews.BuilderPassesValidator | src/node.cc:545-627 | the O set built from V passes the validator's differently initialised size check for every V, so a NEW-VIEW is acceptable exactly when V has 2f+1 members |
| NewViews.DigestSurvives | src/node.cc:556-579 | a slot keeps a reported digest exactly when it has a proof of view at least 1 |
| NewViews.ViewZeroProofIsLost | src/node.cc:556-579 | every V set of 2f+1 or more members that all report one request prepared in view 0 gives an acceptable NEW-VIEW with the null request in its place |
| NewViews.UnanimousO | src/node.cc:553-581 | if all of V report the same single proof for number 1, O is one re-proposal, of its digest if the proof has view at least 1 and of the null digest otherwise |
| NewViews.FirstProofWins | src/node.cc:561-571 | among proofs of equal highest view the first in the order of V decides the digest |
| NewViews.Choose | src/node.cc:556-571 | the proof picked for a number has maximal view, and view at least 1 |
| NewViews.MinS | src/node.cc:545-548 | the maximum of the reported stable checkpoints |
| NewViews.MaxS | src/node.cc:618-623 | the maximum of the start value and the sequence numbers of the proofs |
| NewViewLoops.Bounds | src/node.cc:543-552 | the builder's single pass computes both bounds |
| NewViewLoops.Improve | src/node.cc:561-571 | the inner search loop keeps the chosen proof |
| NewViewLoops.BuildSlot | src/node.cc:555-580 | the search over V yields the pre-prepare of one slot |
| NewViewLoops.BuildO | src/node.cc:553-581 | the loop over the numbers builds exactly the O set |
| NewViewLoops.HighestStable | src/node.cc:614-617 | the validator's min_s |
| NewViewLoops.HighestProof | src/node.cc:618-623 | the validator's max_s, started from min_s |
| NewViewLoops.Validate | src/node.cc:609-627 | accepts exactly the acceptable NEW-VIEWs |
| ReplicaClass.Replica.constructor | src/node.cc:29-39 | builds the initial state, with no events so far |
| ReplicaClass.Replica.Broadcast | include/pbft/node.hh:186-198 | hands one message to the network and changes nothing else |
| ReplicaClass.Replica.StartTimerIfNotRunning | src/node.cc:657-664 | arms an unarmed timer outside view changes, and only then |
| ReplicaClass.Replica.CancelTimer | src/node.cc:666-671 | disarms the timer |
| ReplicaClass.Replica.IsWaitingForRequest | src/node.cc:647-655 | true exactly when some pre-prepared number lies above last_exec_ |
| ReplicaClass.Replica.UpdateTimer | src/node.cc:674-685 | stops or restarts the timer as ManageTimer defines |
| ReplicaClass.Replica.AnnounceCheckpoint | src/node.cc:413-419 | announces and records the replica's own checkpoint vote |
| ReplicaClass.Replica.RunNext | src/node.cc:383-397 | executes, answers, caches the answer and advances, all as Perform defines |
| ReplicaClass.Replica.ExecuteRound | src/node.cc:383-406 | one round of the execution loop with its timer and checkpoint |
| ReplicaClass.Replica.ExecuteReady | src/node.cc:371-408 | the loop terminates and refines TryExecute |
| ReplicaClass.Replica.AdvanceWatermarks | src/node.cc:445-449 | moves both watermarks |
| ReplicaClass.Replica.RecomputeHighestSequence | src/node.cc:451-457 | computes Highest |
| ReplicaClass.Replica.DropLog | src/node.cc:460-467 | the erasing loop keeps exactly the entries above h_ |
| ReplicaClass.Replica.DropCheckpoints | src/node.cc:469-475 | the erasing loop keeps exactly the checkpoints from h_ on |
| ReplicaClass.Replica.GarbageCollect | src/node.cc:459-476 | both loops together refine Collect |
| ReplicaClass.Replica.MoveWindow | src/node.cc:436-438 | marks the checkpoint stable, remembers its digest and moves the window |
| ReplicaClass.Replica.MarkStable | src/node.cc:436-441 | stability moves the window, renumbers and collects |
| ReplicaClass.Replica.OnCheckpointMsg | src/node.cc:421-443 | refines OnCheckpoint |
| ReplicaClass.Replica.CheckCommitted | src/node.cc:352-369 | refines TryCommit, with the execution it triggers |
| ReplicaClass.Replica.CheckPrepared | src/node.cc:302-325 | refines TryPrepare, with the commit it triggers |
| ReplicaClass.Replica.OnPrePrepareImpl | src/node.cc:219-268 | refines ProcessPrePrepare, with the whole cascade |
| ReplicaClass.Replica.OnPrePrepareMsg | src/node.cc:215-231 | the same, only for messages from the primary |
| ReplicaClass.Replica.OnPrepareMsg | src/node.cc:273-300 | refines OnPrepare, creating the entry even when the vote is rejected |
| ReplicaClass.Replica.OnCommitMsg | src/node.cc:330-350 | refines OnCommit, creating the entry even when the vote is rejected |
| ReplicaClass.Replica.IsInProgress | src/node.cc:175-182 | true exactly when a pre-prepared entry carries this client's timestamp |
| ReplicaClass.Replica.OnRequestMsg | src/node.cc:150-210 | refines OnRequest in all its branches |
| ReplicaClass.Replica.ListVotes | src/node.cc:498-500 | lists the votes for one digest in id order |
| ReplicaClass.Replica.BuildC | src/node.cc:493-504 | builds the C set for the arbitrary order in which it visited the digests |
| ReplicaClass.Replica.BuildP | src/node.cc:506-512 | builds the P set from the prepared entries in order |
| ReplicaClass.Replica.Suspend | src/node.cc:481-490 | starts a view change: raises the counter and disarms the timer |
| ReplicaClass.Replica.BuildViewChange | src/node.cc:492-514 | the VIEW-CHANGE for the next view with its C and P sets |
| ReplicaClass.Replica.BeginViewChange | src/node.cc:481-516 | refines StartViewChange for that order |
| ReplicaClass.Replica.ListViewChanges | src/node.cc:536-539 | lists V by replica id |
| ReplicaClass.Replica.EnterView | src/node.cc:630-633 | enters a view |
| ReplicaClass.Replica.Resume | src/node.cc:640-644 | renumbers and adjusts the timer |
| ReplicaClass.Replica.InstallView | src/node.cc:541-594 | refines Install |
| ReplicaClass.Replica.OnViewChangeMsg | src/node.cc:518-596 | refines OnViewChange |
| ReplicaClass.Replica.OnNewViewMsg | src/node.cc:598-645 | the loop over O refines OnNewView |
| ReplicaClass.Replica.Receive | src/node.cc:114-126 | dispatch of a message refines one step of Handle, and the object stays the result of a run |
| ReplicaClass.Replica.ReceiveRequest | src/node.cc:150-210 | the same for a request of a client |
| ReplicaClass.Replica.TimerExpires | src/node.cc:31-33 | the same for the armed timer, with an order of votes that is possible |
| ReplicaClass.ObjectInv | src/node.cc:114-126 | an object whose methods were called with plausible events satisfies the replica invariant |
| ClientModel.AcceptedMeansQuorum | src/client.cc:115-129 | an accepted result was sent for this request by f+1 distinct replicas; while pending, the counts sum to the replicas seen and none exceeds f; no request is both |
| ClientModel.ResolvedForGood | src/client.cc:124-129 | a promise keeps its first value for the rest of the run |
| ClientModel.RunExact | src/client.cc:94-139 | after every run each call is either pending, with exactly the first answer of each replica counted and no result at f+1, or settled with the first result that f+1 replicas gave as their first answer; nothing else is pending or settled |
| ClientModel.QuorumResolves | src/client.cc:120-129 | if f+1 replicas gave r as their first answer after the call and no other result had so many before, the call is settled with r |
| ClientModel.SentAsCalled | src/client.cc:132-146 | the k-th request sent carries the k-th operation called, timestamp k and the client id |
| ClientModel.HintIsHighest | src/client.cc:105-107 | the view hint is the highest view of any reply to this client, and at least 1 |
| ClientModel.RunInv | src/client.cc:94-151 | the client invariant holds in every run |
| ClientModel.OnReplyKeeps | src/client.cc:94-130 | a reply keeps the invariant: exact counts per result, no double counting, no second resolution |
| ClientModel.InvokeKeeps | src/client.cc:132-139 | a call keeps it, with a fresh timestamp |
| ClientModel.SumAdds | src/client.cc:120-122 | counting one answer adds one to the sum of the counts |
| ClientModel.Client.constructor | src/client.cc:25-29 | builds the initial state, with no events so far |
| ClientModel.Client.InvokeAsync | src/client.cc:132-151 | refines Invoke, returns the fresh timestamp, and the object stays the result of a run |
| ClientModel.Client.OnReplyMsg | src/client.cc:94-130 | refines OnReply, and the object stays the result of a run |
| ClientModel.Client.TallyReply | src/client.cc:115-129 | counts a first answer and settles the request at f+1, as Tally defines |
| Codec.NewViewRoundTrip | include/pbft/messages.hh:249-300 | parsing the bytes of a NEW-VIEW and any suffix returns that message and suffix, with everything nested, if and only if all counts fit in 32 bits |
| Codec.ViewChangeRoundTrip | include/pbft/messages.hh:209-244 | the same for a VIEW-CHANGE |
| Codec.PrePrepareRoundTrip | include/pbft/messages.hh:80-103 | the same for a PRE-PREPARE |
| Codec.RequestRoundTrip | include/pbft/messages.hh:26-48 | the same for a REQUEST, exactly when the operation is shorter than 2^32 bytes |
| Codec.ReplyRoundTrip | include/pbft/messages.hh:52-76 | the same for a REPLY |
| Codec.PrepareRoundTrip | include/pbft/messages.hh:107-130 | every PREPARE survives; a COMMIT has the same layout |
| Codec.CheckpointRoundTrip | include/pbft/messages.hh:158-180 | every CHECKPOINT survives |
| Codec.ProofRoundTrip | include/pbft/messages.hh:184-204 | every prepare proof survives |
| Codec.RequestsDiffer | include/pbft/messages.hh:36-47 | distinct requests have distinct encodings |
| Codec.StringRoundTrip | include/pbft/serialization.hh:9-17 | a string of expressible length survives |
| Codec.VectorRoundTrip | include/pbft/serialization.hh:19-37 | a vector survives if its elements do and its size is expressible |
| Codec.LeRoundTrip | include/pbft/serialization.hh:11-13 | a fixed-width number reads back modulo 256 to its width |
| Layout.RequestLayout | include/pbft/messages.hh:43-46 | the bytes of a REQUEST: length, operation, timestamp and client id at their offsets, least significant byte first |
| Layout.ReplyLayout | include/pbft/messages.hh:62-76 | the same for a REPLY |
| Layout.PrePrepareLayout | include/pbft/messages.hh:99-101 | the same for a PRE-PREPARE, with its request at offset 44 |
| Layout.PrepareLayout | include/pbft/messages.hh:116-130 | the same for a PREPARE, of 48 bytes |
| Layout.CheckpointLayout | include/pbft/messages.hh:174-176 | the same for a CHECKPOINT, of 44 bytes |
| Layout.ProofLayout | include/pbft/messages.hh:195-197 | the same for a prepare proof, of 44 bytes |
| Layout.VectorLayout | include/pbft/serialization.hh:19-26 | a vector is its 32-bit length followed by its elements in order |
| Layout.ViewChangeLayout | include/pbft/messages.hh:236-239 | the same for a VIEW-CHANGE, its two vectors from offset 20 on |
| Layout.NewViewLayout | include/pbft/messages.hh:259-271 | the same for a NEW-VIEW, its two vectors from offset 8 on |
| Parsing.NewViewAccounts | include/pbft/messages.hh:272-289 | a NEW-VIEW is parsed only from bytes that are its own encoding followed by what is left over; nothing malformed is accepted |
| Parsing.ViewChangeAccounts | include/pbft/messages.hh:240-243 | the same for a VIEW-CHANGE |
| Parsing.PrePrepareAccounts | include/pbft/messages.hh:102 | the same for a PRE-PREPARE |
| Parsing.RequestAccounts | include/pbft/messages.hh:41-47 | the same for a REQUEST |
| Parsing.ReplyAccounts | include/pbft/messages.hh:68-70 | the same for a REPLY |
| Parsing.PrepareAccounts | include/pbft/messages.hh:121-130 | the same for a PREPARE |
| Parsing.CheckpointAccounts | include/pbft/messages.hh:177-179 | the same for a CHECKPOINT |
| Parsing.ProofAccounts | include/pbft/messages.hh:198-200 | the same for a prepare proof |
| Parsing.VectorAccounts | include/pbft/serialization.hh:28-37 | the same for a vector, for any element codec of which it holds |
| Parsing.StringAccounts | include/pbft/serialization.hh:9-17 | the same for a string |
| DataStreams.DataStream.WriteInt | include/pbft/messages.hh:38-39 | appends exactly the low bytes |
| DataStreams.DataStream.ReadInt | include/pbft/serialization.hh:11-13 | consumes exactly the bytes of the number, or fails on too few |
| DataStreams.DataStream.WriteString | include/pbft/messages.hh:38-39 | appends count and bytes |
| DataStreams.DataStream.ReadString | include/pbft/serialization.hh:9-17 | consumes count and bytes, or fails |
| DataStreams.DataStream.WriteRequest | include/pbft/messages.hh:43-46 | appends the encoding of a request |
| DataStreams.DataStream.ReadRequest | include/pbft/messages.hh:47 | parses a request |
| DataStreams.DataStream.WritePrePrepare | include/pbft/messages.hh:99-101 | appends the encoding of a pre-prepare |
| DataStreams.DataStream.ReadPrePrepare | include/pbft/messages.hh:102 | parses a pre-prepare |
| DataStreams.DataStream.WriteCheckpoint | include/pbft/messages.hh:174-176 | appends the encoding of a checkpoint |
| DataStreams.DataStream.ReadCheckpoint | include/pbft/messages.hh:177-179 | parses a checkpoint |
| DataStreams.DataStream.WriteProof | include/pbft/messages.hh:195-197 | appends the encoding of a proof |
| DataStreams.DataStream.ReadProof | include/pbft/messages.hh:198-200 | parses a proof |
| DataStreams.DataStream.WriteCheckpoints | include/pbft/serialization.hh:19-26 | the vector loop appends count and elements |
| DataStreams.DataStream.ReadCheckpoints | include/pbft/serialization.hh:28-37 | the vector loop parses count and elements, or fails with the first element that does |
| DataStreams.DataStream.WriteProofs | include/pbft/serialization.hh:19-26 | the vector loop appends count and elements |
| DataStreams.DataStream.ReadProofs | include/pbft/serialization.hh:28-37 | the vector loop parses count and elements, or fails |
| DataStreams.DataStream.WriteViewChange | include/pbft/messages.hh:236-239 | appends the encoding of a view change |
| DataStreams.DataStream.ReadViewChange | include/pbft/messages.hh:240-243 | parses a view change |
| DataStreams.DataStream.WriteViewChanges | include/pbft/messages.hh:259-271 | the first loop appends the count and the view changes |
| DataStreams.DataStream.WritePrePrepares | include/pbft/messages.hh:259-271 | the second loop appends the count and the pre-prepares |
| DataStreams.DataStream.WriteNewView | include/pbft/messages.hh:259-271 | both loops together append exactly the encoding of a NEW-VIEW |
| DataStreams.DataStream.ReadNewView | include/pbft/messages.hh:272-289 | both loops parse exactly a NEW-VIEW, or fail |
| Collections.QuorumsMeet | src/node.cc:354-355 | with n = 3f+1 and at least n-f correct ids, two sets of 2f+1 ids share a correct one |
| Collections.AscendingUnique | include/pbft/node.hh:91 | the iteration order of an ordered map is determined by its keys |

## Left out

- Networking, TLS, connection setup, the event loop, metrics and logging: no protocol meaning.
- Threads, mutexes, futures and wall-clock time: handlers are atomic and a firing timer is an event; the blocking `invoke` with its retry loop would add nothing to `invoke_async`.
- Liveness: the handlers do not provide it. A replica that waits for a view whose primary is faulty has no running timer.
- Agreement on operations after a NEW-VIEW has re-proposed a digest: false of the code (`LostRequest.ReproposalLosesRequest`), and outside the `faithful` regime.
- HypothesesAreExact: the runs that break agreement need the first primary to be faulty; which hypotheses are needed when it is correct is not decided, except that `ReproposalLosesRequest` shows `faithful` to be needed with correct primaries in views 1 and 2.
- Wrap-around of 32-bit views and the truncation of h_ to 32 bits in `start_view_change`: numbers are unbounded outside the wire format.
- The handshake message, which carries nothing but an id, and the std::set operators, which nothing on the wire uses.
- Stream operations for REPLY, PREPARE and COMMIT: their layouts are sequences of the fields already read and written for other messages; their round trips are stated on the encodings.
- The example service, the JSON configuration, the build files and the tests.
