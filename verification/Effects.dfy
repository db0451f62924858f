/**
 * What each event does to a replica, told by its fields and by the messages it sends and
 * not by the steps of the handlers.
 */
module Effects {
  import opened Messages
  import opened NewViews
  import opened Handlers
  import opened Invariant
  import opened Preservation
  import opened ReplicaRuns

  // ---------------------------------------------------------------- what is ignored

  /** The replica does not take part in view v at number s. */
  ghost predicate Outside(st: State, v: nat, s: nat) {
    st.viewChanging || v != st.view || s < st.h || s > st.H
  }

  /** A message that fails a test of its handler before anything is written. */
  ghost predicate Ignores(c: Config, st: State, from: nat, msg: Message)
    requires c.Valid()
  {
    match msg
    case Request(_) => false
    case Reply(_) => true
    case PrePrepare(m) => from != st.view % c.n || Outside(st, m.view, m.seqNum)
    case Prepare(m) => from == st.view % c.n || Outside(st, m.view, m.seqNum)
    case Commit(m) => Outside(st, m.view, m.seqNum)
    case Checkpoint(m) => m.seqNum < st.h
    case ViewChange(m) => m.nextView < st.view || m.nextView % c.n != c.id
    case NewView(m) =>
      || from != m.nextView % c.n || !st.viewChanging || m.nextView <= st.view
      || |m.viewChanges| < 2 * c.F() + 1
      || |m.prePrepares| != |OSet(c.nullDigest, m.viewChanges, m.nextView)|
  }

  lemma JoinsUnless(c: Config, st: State, from: nat, m: NewViewMsg)
    requires c.Valid()
    ensures Joins(c, st, from, m) <==> !Ignores(c, st, from, NewView(m))
  {
    MaxSFrom(Proofs(m.viewChanges), MinS(m.viewChanges));
  }

  /** Such a message leaves no trace but in the record of what was received. */
  lemma IgnoredLeavesNoTrace(c: Config, st: State, from: nat, msg: Message)
    requires c.Valid() && Ignores(c, st, from, msg)
    ensures Handle(c, st, Deliver(from, msg)) == Receive(st, from, msg)
  {
    hide Extends, SameWindow, LogKept, Install, ProcessAll, Joins, Acceptable, Vote, TryPrepare, TryCommit, Accept;
    if msg.NewView? {
      JoinsUnless(c, Receive(st, from, msg), from, msg.newView);
      hide OSet;
    }
  }

  // ---------------------------------------------------------------- the three phases

  /** The entries other than s are as they were. */
  ghost predicate OnlyAt(log: map<nat, Entry>, log': map<nat, Entry>, s: nat) {
    log'.Keys == log.Keys + {s} && forall k :: k in log && k != s ==> log'[k] == log[k]
  }

  /** The view, the window, the numbering and the view changes are as they were. */
  ghost predicate SameOffice(st: State, st': State) {
    && st'.view == st.view && st'.viewChanging == st.viewChanging && st'.timeoutCount == st.timeoutCount
    && st'.h == st.h && st'.H == st.H && st'.seqNum == st.seqNum
    && st'.vcStore == st.vcStore && st'.lastStableDigest == st.lastStableDigest
  }

  /** A proposal or vote for another digest than that of the slot only makes sure that the slot exists. */
  lemma MismatchIsNotCounted(c: Config, st: State, from: nat, msg: Message)
    requires c.Valid() && !Ignores(c, st, from, msg) && (msg.PrePrepare? || msg.Prepare? || msg.Commit?)
    ensures
      var s := if msg.PrePrepare? then msg.prePrepare.seqNum else if msg.Prepare? then msg.prepare.seqNum else msg.commit.seqNum;
      var d := if msg.PrePrepare? then msg.prePrepare.digest else if msg.Prepare? then msg.prepare.digest else msg.commit.digest;
      var locked := s in st.log && st.log[s].hasPrePrepare;
      (if locked then st.log[s].digest != d else msg.Commit?) ==>
        Handle(c, st, Deliver(from, msg)) ==
        Receive(st, from, msg).(log := if s in st.log then st.log else st.log[s := EmptyEntry])
  {
    hide Extends, SameWindow, LogKept, TryPrepare, TryCommit, Accept;
    var s := if msg.PrePrepare? then msg.prePrepare.seqNum else if msg.Prepare? then msg.prepare.seqNum else msg.commit.seqNum;
    assert s in st.log ==> st.log[s := st.log[s]] == st.log;
  }

  /** Only answers and checkpoints were sent. */
  ghost predicate OnlyAnswers(outbox: seq<Message>, outbox': seq<Message>) {
    outbox <= outbox' && forall i :: |outbox| <= i < |outbox'| ==> outbox'[i].Reply? || outbox'[i].Checkpoint?
  }

  lemma {:induction false} ExecutionSends(c: Config, st: State)
    requires c.Valid()
    ensures OnlyAnswers(st.outbox, TryExecute(c, st).outbox)
    decreases Above(st.log, st.lastExec)
  {
    hide ExecuteOne, TryExecute;
    TryExecuteUnfolds(c, st);
    if CanExecute(st) {
      OneExecutionSends(c, st);
      AboveDrops(st.log, st.lastExec);
      ExecutionSends(c, ExecuteOne(c, st));
    }
  }

  lemma OneExecutionSends(c: Config, st: State)
    requires c.Valid() && CanExecute(st)
    ensures OnlyAnswers(st.outbox, ExecuteOne(c, st).outbox)
  {
    hide ManageTimer;
  }

  lemma CommitTestEffect(c: Config, st: State, s: nat)
    requires c.Valid() && s in st.log
    ensures
      var r := TryCommit(c, st, s);
      && OnlyAt(st.log, r.log, s) && r.log[s] == st.log[s].(stage := r.log[s].stage)
      && SameOffice(st, r) && OnlyAnswers(st.outbox, r.outbox)
  {
    hide TryExecute, Extends, LogKept;
    var e := st.log[s];
    if e.stage == Prepared && |e.commits| >= 2 * c.F() + 1 {
      ExecutionSends(c, st.(log := st.log[s := e.(stage := Committed)]));
    }
  }

  /** The votes of e let it prepare now. */
  ghost predicate Due(c: Config, e: Entry)
    requires c.Valid()
  {
    e.hasPrePrepare && e.stage == PrePrepared && |e.prepares| >= 2 * c.F()
  }

  /** What was sent: a COMMIT first if it was due, and then only answers and checkpoints. */
  ghost predicate SendsCommit(c: Config, outbox: seq<Message>, outbox': seq<Message>, due: bool, v: nat, s: nat, d: Digest) {
    OnlyAnswers(outbox + if due then [Commit(CommitMsg(v, s, d, c.id))] else [], outbox')
  }

  lemma PrepareTestEffect(c: Config, st: State, s: nat)
    requires c.Valid() && s in st.log
    ensures
      var e, r := st.log[s], TryPrepare(c, st, s);
      var due := Due(c, e);
      && OnlyAt(st.log, r.log, s) && SameOffice(st, r)
      && r.log[s] == e.(stage := r.log[s].stage, commits := if due then e.commits + {c.id} else e.commits)
      && SendsCommit(c, st.outbox, r.outbox, due, st.view, e.seqNum, e.digest)
  {
    hide TryCommit, Extends, LogKept;
    if Due(c, st.log[s]) {
      CommitTestEffect(c, MarkPrepared(c, st, s), s);
    }
  }

  /** After every event the stage is what the votes say. */
  lemma StageAfter(c: Config, g: Regime, st: State, ev: Event, s: nat)
    requires c.Valid() && Inv(c, g, st) && HashFits(c, g) && Possible(c, st, ev) && Obeys(c, g, st, ev)
    requires s in Handle(c, st, ev).log
    ensures Handle(c, st, ev).log[s].stage == StageOf(c, Handle(c, st, ev).log[s])
  {
    hide Inv, Handle, Possible, Obeys, HashFits;
    HandleKeeps(c, g, st, ev);
    StageFromVotes(c, g, Handle(c, st, ev), s);
  }

  /** A PREPARE that fits its slot is counted there, and the slot prepares if that was the last one missing. */
  lemma PrepareIsCounted(c: Config, st: State, from: nat, m: PrepareMsg)
    requires c.Valid() && !Ignores(c, st, from, Prepare(m))
    requires At(st.log, m.seqNum).hasPrePrepare ==> At(st.log, m.seqNum).digest == m.digest
    ensures
      var st' := Handle(c, st, Deliver(from, Prepare(m)));
      var s := m.seqNum;
      var e := At(st.log, s).(prepares := At(st.log, s).prepares + {m.replicaId});
      && OnlyAt(st.log, st'.log, s) && SameOffice(st, st')
      && st'.log[s] == e.(stage := st'.log[s].stage, commits := if Due(c, e) then e.commits + {c.id} else e.commits)
      && SendsCommit(c, st.outbox, st'.outbox, Due(c, e), st.view, e.seqNum, e.digest)
  {
    hide Extends, LogKept, TryPrepare, SendsCommit, Due;
    var st1 := AddPrepare(Receive(st, from, Prepare(m)), m.seqNum, m.replicaId);
    PrepareTestEffect(c, st1, m.seqNum);
    assert Handle(c, st, Deliver(from, Prepare(m))) == TryPrepare(c, st1, m.seqNum);
  }

  /** A COMMIT that fits its slot is counted there. */
  lemma CommitIsCounted(c: Config, st: State, from: nat, m: CommitMsg)
    requires c.Valid() && !Ignores(c, st, from, Commit(m))
    requires At(st.log, m.seqNum).hasPrePrepare && At(st.log, m.seqNum).digest == m.digest
    ensures
      var st' := Handle(c, st, Deliver(from, Commit(m)));
      var s := m.seqNum;
      && OnlyAt(st.log, st'.log, s) && SameOffice(st, st') && OnlyAnswers(st.outbox, st'.outbox)
      && st'.log[s] == st.log[s].(stage := st'.log[s].stage, commits := st.log[s].commits + {m.replicaId})
  {
    hide Extends, LogKept, TryCommit, OnlyAnswers;
    var st1 := AddCommit(Receive(st, from, Commit(m)), m.seqNum, m.replicaId);
    CommitTestEffect(c, st1, m.seqNum);
    assert Handle(c, st, Deliver(from, Commit(m))) == TryCommit(c, st1, m.seqNum);
  }

  /** What an accepted pre-prepare leaves in its slot before the votes are looked at. */
  ghost function Filled(c: Config, e: Entry, m: PrePrepareMsg): Entry {
    Entry(m.view, m.seqNum, m.digest, m.req, PrePrepared, true, e.prepares + {c.id}, e.commits)
  }

  ghost predicate TakesProposal(c: Config, st: State, st': State, m: PrePrepareMsg)
    requires c.Valid()
  {
    var s, e := m.seqNum, Filled(c, At(st.log, m.seqNum), m);
    && OnlyAt(st.log, st'.log, s) && SameOffice(st, st')
    && st'.log[s] == e.(stage := st'.log[s].stage, commits := if Due(c, e) then e.commits + {c.id} else e.commits)
    && SendsCommit(c, st.outbox + [Prepare(PrepareMsg(st.view, s, m.digest, c.id))], st'.outbox, Due(c, e), st.view, s, m.digest)
    && (st'.lastExec == st.lastExec ==> st'.timer.Some?)
  }

  lemma ProcessEffect(c: Config, st: State, m: PrePrepareMsg)
    requires c.Valid() && LetIn(st, m)
    ensures TakesProposal(c, st, ProcessPrePrepare(c, st, m), m)
  {
    hide Extends, LogKept, TryPrepare, SendsCommit;
    var st1 := Accept(c, st, m);
    PrepareTestEffect(c, st1, m.seqNum);
    TimerUntilExecuted(c, st1, m.seqNum);
  }

  /** Unless something executes, looking at the votes does not touch the timer. */
  lemma TimerUntilExecuted(c: Config, st: State, s: nat)
    requires c.Valid() && s in st.log
    ensures TryPrepare(c, st, s).lastExec == st.lastExec ==> TryPrepare(c, st, s).timer == st.timer
  {
    hide Extends, LogKept, TryExecute;
    forall st1: State ensures TryExecute(c, st1).lastExec == st1.lastExec ==> TryExecute(c, st1) == st1 {
      TryExecuteUnfolds(c, st1);
    }
  }

  /**
   * A pre-prepare of the primary that fits its slot fills it, whatever votes are there,
   * and is answered by a PREPARE; the timer runs unless something was executed.
   */
  lemma ProposalIsTaken(c: Config, st: State, from: nat, m: PrePrepareMsg)
    requires c.Valid() && !Ignores(c, st, from, PrePrepare(m))
    requires At(st.log, m.seqNum).hasPrePrepare ==> At(st.log, m.seqNum).digest == m.digest
    ensures TakesProposal(c, st, Handle(c, st, Deliver(from, PrePrepare(m))), m)
  {
    hide Extends, LogKept, ProcessPrePrepare, SendsCommit;
    ProcessEffect(c, Receive(st, from, PrePrepare(m)), m);
  }

  // ---------------------------------------------------------------- execution

  /** The answers to numbers s+1..t of the log stand in the outbox from position `from` on. */
  ghost predicate AnswersSent(c: Config, st: State, r: State, from: nat) {
    && st.lastExec <= r.lastExec <= |r.history| && from <= |r.outbox|
    && forall k :: st.lastExec < k <= r.lastExec ==>
         k in st.log && AnswerTo(c, st.view, st.log[k].req, r.history[|r.history| - r.lastExec + k - 1]) in r.outbox[from..]
  }

  ghost function AnswerTo(c: Config, v: nat, req: RequestMsg, x: Executed): Message {
    Reply(ReplyMsg(v, req.timestamp, req.clientId, c.id, x.result))
  }

  /** Every request that is executed is answered then and there, with its own result and in the current view. */
  lemma {:induction false} ExecutionAnswers(c: Config, st: State)
    requires c.Valid() && st.lastExec <= |st.history|
    ensures AnswersSent(c, st, TryExecute(c, st), |st.outbox|)
    decreases Above(st.log, st.lastExec)
  {
    hide ExecuteOne, TryExecute;
    TryExecuteUnfolds(c, st);
    if CanExecute(st) {
      var st1 := ExecuteOne(c, st);
      var r := TryExecute(c, st1);
      AboveDrops(st.log, st.lastExec);
      var x := ExecuteAppends(c, st);
      OneAnswer(c, st);
      LongestRun(c, st1);
      ExecutionAnswers(c, st1);
      hide Consumed;
      assert r.history[|st.history|] == st1.history[|st.history|];
      forall k | st.lastExec < k <= r.lastExec
        ensures k in st.log && AnswerTo(c, st.view, st.log[k].req, r.history[|r.history| - r.lastExec + k - 1]) in r.outbox[|st.outbox|..]
      {
        if k == st.lastExec + 1 {
          assert r.outbox[|st.outbox|] == st1.outbox[|st.outbox|];
          assert r.outbox[|st.outbox|..][0] == r.outbox[|st.outbox|];
        } else {
          var tail := r.outbox[|st1.outbox|..];
          assert AnswerTo(c, st.view, st.log[k].req, r.history[|r.history| - r.lastExec + k - 1]) in tail;
          assert tail == r.outbox[|st.outbox|..][|st1.outbox| - |st.outbox|..];
        }
      }
    }
  }

  lemma OneAnswer(c: Config, st: State)
    requires c.Valid() && CanExecute(st)
    ensures
      var r := ExecuteOne(c, st);
      && |r.history| == |st.history| + 1 && |r.outbox| > |st.outbox| && r.view == st.view
      && r.outbox[|st.outbox|] == AnswerTo(c, st.view, st.log[st.lastExec + 1].req, r.history[|st.history|])
  {
    hide ManageTimer;
  }

  /** A pre-prepared number above t waits. */
  ghost predicate StillWaits(log: map<nat, Entry>, t: nat) {
    exists s :: s in log && s > t && log[s].hasPrePrepare
  }

  /** After an execution the timer runs exactly if it ran before and something still waits. */
  lemma {:induction false} TimerAfterExecution(c: Config, st: State)
    requires c.Valid() && LogOk(c, st.h, st.H, st.log) && !st.viewChanging && CanExecute(st)
    ensures
      var r := TryExecute(c, st);
      r.timer.Some? <==> st.timer.Some? && StillWaits(st.log, r.lastExec)
    decreases Above(st.log, st.lastExec)
  {
    hide ExecuteOne, TryExecute;
    TryExecuteUnfolds(c, st);
    TimerAfterOne(c, st);
    var st1 := ExecuteOne(c, st);
    AboveDrops(st.log, st.lastExec);
    TryExecuteUnfolds(c, st1);
    if CanExecute(st1) {
      assert EntryOk(c, st1.lastExec + 1, st.log[st1.lastExec + 1]);
      assert StillWaits(st.log, st1.lastExec);
      TimerAfterExecution(c, st1);
    }
  }

  lemma TimerAfterOne(c: Config, st: State)
    requires c.Valid() && CanExecute(st) && !st.viewChanging
    ensures
      var r := ExecuteOne(c, st);
      (r.timer.Some? <==> st.timer.Some? && StillWaits(st.log, r.lastExec)) && !r.viewChanging && r.h == st.h && r.H == st.H
  {
  }

  /** The delay doubles with every fruitless view change, up to five minutes. */
  lemma DelayDoubles(c: Config, k: nat)
    requires c.vcTimeout >= 0.0
    ensures Delay(c, 0) == if c.vcTimeout < 300.0 then c.vcTimeout else 300.0
    ensures Delay(c, k + 1) == if 2.0 * Delay(c, k) < 300.0 then 2.0 * Delay(c, k) else 300.0
  {
    assert Pow2(0) == 1;
    var p := Pow2(k) as real;
    assert Pow2(k + 1) as real == 2.0 * p;
    assert c.vcTimeout * (2.0 * p) == 2.0 * (c.vcTimeout * p);
  }

  // ---------------------------------------------------------------- CHECKPOINT

  /** The least number that is not below last_exec_, h_ and any number in the log. */
  ghost predicate LeastBound(st: State, n: nat) {
    && n >= st.lastExec && n >= st.h && (forall s :: s in st.log ==> s <= n)
    && (n == st.lastExec || n == st.h || n in st.log)
  }

  /** The recorded votes for digest d at number s. */
  ghost function VotersAt(st: State, s: nat, d: Digest): set<nat> {
    if s in st.checkpoints && d in st.checkpoints[s].votes then st.checkpoints[s].votes[d] else {}
  }

  ghost predicate IsStable(st: State, s: nat) {
    s in st.checkpoints && st.checkpoints[s].stable
  }

  /** The votes at number k are as they were, with that of m added. */
  ghost predicate VoteAdded(st: State, st': State, m: CheckpointMsg, k: nat) {
    && (k in st'.checkpoints <==> k in st.checkpoints || k == m.seqNum)
    && forall d :: VotersAt(st', k, d) == VotersAt(st, k, d) + if k == m.seqNum && d == m.digest then {m.replicaId} else {}
  }

  /** The vote completes a quorum for a number that is not stable yet. */
  ghost predicate Completes(c: Config, st: State, m: CheckpointMsg)
    requires c.Valid()
  {
    !IsStable(st, m.seqNum) && |VotersAt(st, m.seqNum, m.digest) + {m.replicaId}| >= 2 * c.F() + 1
  }

  /** Only the vote was recorded. */
  ghost predicate OnlyVotes(st: State, st': State, m: CheckpointMsg) {
    && st' == st.(checkpoints := st'.checkpoints, inbox := st'.inbox)
    && forall k: nat :: VoteAdded(st, st', m, k) && (IsStable(st', k) <==> IsStable(st, k))
  }

  /**
   * The number became the low watermark: the log keeps exactly what lies above it, the votes
   * exactly what does not lie below it, and the numbering is that of the log before.
   */
  ghost predicate Advances(c: Config, st: State, st': State, m: CheckpointMsg) {
    var s := m.seqNum;
    && st' == st.(h := s, H := s + c.L, lastStableDigest := Some(m.digest),
                  seqNum := st'.seqNum, log := st'.log, checkpoints := st'.checkpoints, inbox := st'.inbox)
    && LeastBound(st.(h := s), st'.seqNum)
    && (forall k :: k in st'.log <==> k in st.log && k > s) && (forall k :: k in st'.log ==> st'.log[k] == st.log[k])
    && (forall k :: k in st'.checkpoints ==> k >= s)
    && (forall k: nat :: k >= s ==> VoteAdded(st, st', m, k) && (IsStable(st', k) <==> k == s || IsStable(st, k)))
  }

  /** A checkpoint vote is counted, and moves the window exactly if it completes a quorum. */
  lemma VoteIsCounted(c: Config, st: State, from: nat, m: CheckpointMsg)
    requires c.Valid() && !Ignores(c, st, from, Checkpoint(m))
    ensures
      var st' := Handle(c, st, Deliver(from, Checkpoint(m)));
      if Completes(c, st, m) then Advances(c, st, st', m) else OnlyVotes(st, st', m)
  {
    hide Extends, SameWindow, OnCheckpoint, Vote, Stabilise;
    var st0 := Receive(st, from, Checkpoint(m));
    VoteSplits(c, st0, m);
    assert Completes(c, st0, m) == Completes(c, st, m);
    JustVotes(st0, m);
    if Completes(c, st, m) {
      QuorumAdvances(c, st0, m);
      SinceReceived(c, st, st0, Stabilise(c, Vote(st0, m), m.seqNum, m.digest), m);
    } else {
      VotedSinceReceived(st, st0, Vote(st0, m), m);
    }
  }

  lemma VoteSplits(c: Config, st: State, m: CheckpointMsg)
    requires c.Valid() && m.seqNum >= st.h
    ensures OnCheckpoint(c, st, m) == if Completes(c, st, m) then Stabilise(c, Vote(st, m), m.seqNum, m.digest) else Vote(st, m)
  {
    hide Extends, Stabilise;
    var cp := VotesAt(Vote(st, m).checkpoints, m.seqNum);
    assert Voters(cp.votes, m.digest) == VotersAt(st, m.seqNum, m.digest) + {m.replicaId};
    assert cp.stable <==> IsStable(st, m.seqNum);
  }

  lemma JustVotes(st: State, m: CheckpointMsg)
    ensures OnlyVotes(st, Vote(st, m), m)
  {
    hide Extends, VoteAdded, IsStable;
    forall k: nat ensures VoteAdded(st, Vote(st, m), m, k) && (IsStable(Vote(st, m), k) <==> IsStable(st, k)) {
      VoteRecorded(st, m, k);
    }
  }

  lemma QuorumAdvances(c: Config, st: State, m: CheckpointMsg)
    requires m.seqNum >= st.h
    ensures Advances(c, st, Stabilise(c, Vote(st, m), m.seqNum, m.digest), m)
  {
    hide Extends, SameWindow, VoteAdded, Stabilise;
    var st1, s := Vote(st, m), m.seqNum;
    var r := Stabilise(c, st1, s, m.digest);
    JustVotes(st, m);
    StabiliseEffect(c, st1, s, m.digest);
    forall k: nat | k >= s ensures VoteAdded(st, r, m, k) && (IsStable(r, k) <==> k == s || IsStable(st, k)) {
      assert VoteAdded(st, st1, m, k);
      SameVotesAdded(st, st1, r, m, k);
    }
  }

  lemma SinceReceived(c: Config, st: State, st0: State, st': State, m: CheckpointMsg)
    requires st0 == st.(inbox := st0.inbox) && Advances(c, st0, st', m)
    ensures Advances(c, st, st', m)
  {
    forall k: nat | k >= m.seqNum ensures VoteAdded(st, st', m, k) && (IsStable(st', k) <==> k == m.seqNum || IsStable(st, k)) {
      assert VoteAdded(st0, st', m, k);
    }
  }

  lemma VotedSinceReceived(st: State, st0: State, st': State, m: CheckpointMsg)
    requires st0 == st.(inbox := st0.inbox) && OnlyVotes(st0, st', m)
    ensures OnlyVotes(st, st', m)
  {
    forall k: nat ensures VoteAdded(st, st', m, k) && (IsStable(st', k) <==> IsStable(st, k)) {
      assert VoteAdded(st0, st', m, k);
    }
  }

  lemma VoteRecorded(st: State, m: CheckpointMsg, k: nat)
    ensures VoteAdded(st, Vote(st, m), m, k) && (IsStable(Vote(st, m), k) <==> IsStable(st, k))
  {
  }

  lemma SameVotesAdded(st: State, st1: State, st': State, m: CheckpointMsg, k: nat)
    requires VoteAdded(st, st1, m, k) && (k in st'.checkpoints <==> k in st1.checkpoints)
    requires k in st1.checkpoints ==> st'.checkpoints[k].votes == st1.checkpoints[k].votes
    ensures VoteAdded(st, st', m, k)
  {
    forall d ensures VotersAt(st', k, d) == VotersAt(st1, k, d) {
    }
  }

  lemma StabiliseEffect(c: Config, st: State, s: nat, d: Digest)
    requires s >= st.h && s in st.checkpoints
    ensures
      var r := Stabilise(c, st, s, d);
      && r == st.(h := s, H := s + c.L, lastStableDigest := Some(d), seqNum := r.seqNum, log := r.log, checkpoints := r.checkpoints)
      && LeastBound(st.(h := s), r.seqNum)
      && (forall k :: k in r.log <==> k in st.log && k > s) && (forall k :: k in r.log ==> r.log[k] == st.log[k])
      && (forall k :: k in r.checkpoints <==> k in st.checkpoints && k >= s)
      && (forall k :: k in r.checkpoints ==>
            r.checkpoints[k].votes == st.checkpoints[k].votes && (r.checkpoints[k].stable <==> k == s || st.checkpoints[k].stable))
  {
    hide Extends, SameWindow;
  }
}
