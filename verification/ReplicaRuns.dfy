/**
 * Whole runs of one replica in an arbitrary environment: the other replicas, the
 * clients and the network may do anything, as long as messages name their sender.
 */
module ReplicaRuns {
  import opened Messages
  import opened Collections
  import opened Handlers
  import opened Invariant
  import opened Preservation

  /** The state after further events. */
  ghost function Feed(c: Config, st: State, evs: seq<Event>): State
    requires c.Valid()
  {
    if evs == [] then st else Handle(c, Feed(c, st, evs[..|evs| - 1]), evs[|evs| - 1])
  }

  /** Each event could happen when it did and obeyed g. */
  ghost predicate Feedable(c: Config, g: Regime, st: State, evs: seq<Event>)
    requires c.Valid()
  {
    evs == [] ||
    (var before := evs[..|evs| - 1];
     && Feedable(c, g, st, before)
     && Possible(c, Feed(c, st, before), evs[|evs| - 1])
     && Obeys(c, g, Feed(c, st, before), evs[|evs| - 1]))
  }

  lemma FeedMore(c: Config, g: Regime, st: State, evs: seq<Event>, ev: Event)
    requires c.Valid()
    ensures Feed(c, st, evs + [ev]) == Handle(c, Feed(c, st, evs), ev)
    ensures Feedable(c, g, st, evs + [ev]) <==>
            Feedable(c, g, st, evs) && Possible(c, Feed(c, st, evs), ev) && Obeys(c, g, Feed(c, st, evs), ev)
  {
    hide Handle, Possible, Obeys;
    assert (evs + [ev])[..|evs|] == evs;
  }

  /** The state after a sequence of events, from the start. */
  ghost function Run(c: Config, evs: seq<Event>): State
    requires c.Valid()
  {
    Feed(c, Init(c), evs)
  }

  lemma RunMore(c: Config, evs: seq<Event>, ev: Event)
    requires c.Valid()
    ensures Run(c, evs + [ev]) == Handle(c, Run(c, evs), ev)
  {
    hide Handle;
    assert (evs + [ev])[..|evs|] == evs;
  }

  ghost predicate Plausible(c: Config, g: Regime, evs: seq<Event>)
    requires c.Valid()
  {
    Feedable(c, g, Init(c), evs)
  }

  lemma {:induction false} RunInv(c: Config, g: Regime, evs: seq<Event>)
    requires c.Valid() && HashFits(c, g) && Plausible(c, g, evs)
    ensures Inv(c, g, Run(c, evs))
  {
    if evs == [] {
      InitHolds(c, g);
    } else {
      RunInv(c, g, evs[..|evs| - 1]);
      hide Inv;
      HandleKeeps(c, g, Run(c, evs[..|evs| - 1]), evs[|evs| - 1]);
    }
  }

  // ---------------------------------------------------------------- one step

  function Rank(s: Stage): nat {
    match s
    case NoStage => 0
    case PrePrepared => 1
    case Prepared => 2
    case Committed => 3
  }

  /** Between events the stage of an entry is determined by its votes alone. */
  function StageOf(c: Config, e: Entry): Stage
    requires c.Valid()
  {
    if !e.hasPrePrepare then NoStage
    else if c.id !in e.commits then PrePrepared
    else if |e.commits| < 2 * c.F() + 1 then Prepared
    else Committed
  }

  lemma StageFromVotes(c: Config, g: Regime, st: State, s: nat)
    requires c.Valid() && Inv(c, g, st) && s in st.log
    ensures st.log[s].stage == StageOf(c, st.log[s])
  {
    hide Numbering;
    OldEntryFits(c, g, st, s);
  }

  /** Entries leave the log only below the low watermark, and otherwise keep digest and votes. */
  ghost predicate Grows(st: State, st': State) {
    forall s :: s in st.log ==>
      && (s in st'.log ==> EntryKept(st.log[s], st'.log[s]))
      && (s !in st'.log ==> s <= st'.h)
  }

  lemma HandleGrows(c: Config, g: Regime, st: State, ev: Event)
    requires c.Valid() && Inv(c, g, st) && HashFits(c, g) && Possible(c, st, ev)
    ensures Grows(st, Handle(c, st, ev))
  {
    hide Inv, OnRequest, OnCheckpoint;
    if ev.Arrive? {
      RequestGrows(c, g, st, ev.request);
    } else if ev.Deliver? && ev.msg.Request? {
      ReceiveKeeps(c, g, st, ev.from, ev.msg);
      RequestGrows(c, g, Receive(st, ev.from, ev.msg), ev.msg.request);
    } else if ev.Deliver? && ev.msg.Checkpoint? {
      CheckpointGrows(c, Receive(st, ev.from, ev.msg), ev.msg.checkpoint);
    } else {
      OtherGrows(c, st, ev);
      hide Handle;
    }
  }

  lemma AssignGrows(c: Config, st: State, m: RequestMsg)
    requires !At(st.log, st.seqNum + 1).hasPrePrepare
    ensures Grows(st, Assign(c, st, m))
  {
  }

  lemma RequestGrows(c: Config, g: Regime, st: State, m: RequestMsg)
    requires c.Valid() && Inv(c, g, st) && HashFits(c, g)
    ensures Grows(st, OnRequest(c, st, m))
  {
    hide Inv, Assign, InProgress;
    if !Answered(st, m) && !st.viewChanging && IsPrimary(c, st.view) && st.seqNum < st.H {
      AssignKeeps(c, g, st, m);
      AssignGrows(c, st, m);
    }
  }

  lemma CheckpointGrows(c: Config, st: State, m: CheckpointMsg)
    requires c.Valid()
    ensures Grows(st, OnCheckpoint(c, st, m))
  {
    hide Extends, Stabilise;
    StabiliseGrows(c, Vote(st, m), m.seqNum, m.digest);
  }

  lemma StabiliseGrows(c: Config, st: State, s: nat, d: Digest)
    ensures s >= st.h ==> Grows(st, Stabilise(c, st, s, d))
  {
    hide Extends, Highest;
  }

  lemma OtherGrows(c: Config, st: State, ev: Event)
    requires c.Valid() && !ev.Arrive?
    requires ev.Deliver? ==> !ev.msg.Request? && !ev.msg.Checkpoint?
    ensures LogKept(st.log, Handle(c, st, ev).log)
  {
    hide ProcessPrePrepare, ProcessPrepare, OnCommit, OnViewChange, OnNewView, StartViewChange;
  }

  /** No stage regression in one event, although a repeated pre-prepare resets the stage for a moment. */
  lemma NoRegression(c: Config, g: Regime, st: State, ev: Event, s: nat)
    requires c.Valid() && Inv(c, g, st) && HashFits(c, g) && Possible(c, st, ev) && Obeys(c, g, st, ev)
    requires s in st.log && s in Handle(c, st, ev).log
    ensures Rank(st.log[s].stage) <= Rank(Handle(c, st, ev).log[s].stage)
  {
    hide Inv, Handle, Possible, Obeys, HashFits;
    var st' := Handle(c, st, ev);
    HandleKeeps(c, g, st, ev);
    HandleGrows(c, g, st, ev);
    StageFromVotes(c, g, st, s);
    StageFromVotes(c, g, st', s);
    SubsetSize(st.log[s].commits, st'.log[s].commits);
  }

  // ---------------------------------------------------------------- whole runs

  /** A later state of the same run. */
  lemma {:induction false} Later(c: Config, g: Regime, evs: seq<Event>, k: nat, s: nat)
    requires c.Valid() && HashFits(c, g) && Plausible(c, g, evs) && k <= |evs|
    ensures Plausible(c, g, evs[..k])
    ensures
      var a := Run(c, evs[..k]);
      var b := Run(c, evs);
      && a.outbox <= b.outbox && a.history <= b.history
      && a.h <= b.h && a.view <= b.view && a.lastExec <= b.lastExec
      && (s in a.log && s > b.h ==> s in b.log && EntryKept(a.log[s], b.log[s]))
  {
    if k == |evs| {
      assert evs[..k] == evs;
    } else {
      var before := evs[..|evs| - 1];
      assert before[..k] == evs[..k];
      Later(c, g, before, k, s);
      RunInv(c, g, before);
      HandleGrows(c, g, Run(c, before), evs[|evs| - 1]);
      hide Inv, Handle;
    }
  }

  /**
   * The digest lock: once s is pre-prepared with digest d, then for as long as the low
   * watermark stays below s the entry keeps d and every PREPARE and COMMIT the replica
   * has ever sent for s carries d, and no entry falls back to an earlier stage.
   */
  lemma DigestLock(c: Config, g: Regime, evs: seq<Event>, k: nat, s: nat)
    requires c.Valid() && HashFits(c, g) && Plausible(c, g, evs) && k <= |evs|
    requires s in Run(c, evs[..k]).log && Run(c, evs[..k]).log[s].hasPrePrepare
    requires s > Run(c, evs).h
    ensures
      var d := Run(c, evs[..k]).log[s].digest;
      var b := Run(c, evs);
      && s in b.log && b.log[s].hasPrePrepare && b.log[s].digest == d
      && Rank(Run(c, evs[..k]).log[s].stage) <= Rank(b.log[s].stage)
      && (forall m :: Prepare(m) in b.outbox && m.seqNum == s ==> m.digest == d && m.replicaId == c.id)
      && (forall m :: Commit(m) in b.outbox && m.seqNum == s ==> m.digest == d && m.replicaId == c.id)
  {
    hide Run;
    var a := Run(c, evs[..k]);
    var b := Run(c, evs);
    Later(c, g, evs, k, s);
    RunInv(c, g, evs);
    RunInv(c, g, evs[..k]);
    StageFromVotes(c, g, a, s);
    StageFromVotes(c, g, b, s);
    SubsetSize(a.log[s].commits, b.log[s].commits);
    LockOf(c, g, b, s);
  }

  lemma LockOf(c: Config, g: Regime, st: State, s: nat)
    requires c.Valid() && Inv(c, g, st) && s > st.h
    ensures forall m :: Prepare(m) in st.outbox && m.seqNum == s ==> Locked(c, st.h, st.log, s, m.digest, m.replicaId)
    ensures forall m :: Commit(m) in st.outbox && m.seqNum == s ==> Locked(c, st.h, st.log, s, m.digest, m.replicaId)
  {
  }

  /** The window: two bounds on everything numbered, hence a bounded log. */
  lemma BoundedWindow(c: Config, g: Regime, evs: seq<Event>)
    requires c.Valid() && HashFits(c, g) && Plausible(c, g, evs)
    ensures
      var st := Run(c, evs);
      && st.H == st.h + c.L
      && (forall s :: s in st.log ==> st.h <= s <= st.H)
      && |st.log| <= c.L + 1
      && st.h <= st.seqNum <= st.H && st.lastExec <= st.H
  {
    hide Run;
    RunInv(c, g, evs);
    var st := Run(c, evs);
    RangeSize(st.log.Keys, st.h, c.L);
    assert |st.log.Keys| == |st.log|;
  }

  /** No lost wake-up: nothing that has all its votes is still waiting. */
  lemma NoLostWakeUp(c: Config, g: Regime, evs: seq<Event>)
    requires c.Valid() && HashFits(c, g) && Plausible(c, g, evs)
    ensures
      var st := Run(c, evs);
      && (forall s :: s in st.log && st.log[s].stage == Prepared ==> |st.log[s].commits| < 2 * c.F() + 1)
      && (st.lastExec + 1 in st.log ==> st.log[st.lastExec + 1].stage != Committed)
  {
    hide Run;
    RunInv(c, g, evs);
  }

  /** What one execution appends to the history. */
  lemma ExecuteAppends(c: Config, st: State) returns (x: Executed)
    requires c.Valid() && CanExecute(st)
    ensures ExecuteOne(c, st).history == st.history + [x]
    ensures x.digest == st.log[st.lastExec + 1].digest && x.req == st.log[st.lastExec + 1].req
  {
    x := Perform(c, st).history[|st.history|];
  }

  /** The entries s+1..t of a log are those the last t-s steps of a history executed. */
  ghost predicate Consumed(log: map<nat, Entry>, s: nat, t: nat, history: seq<Executed>) {
    && s <= t && t - s <= |history|
    && forall k :: s < k <= t ==>
         && k in log && log[k].stage == Committed
         && history[|history| - t + k - 1].digest == log[k].digest
         && history[|history| - t + k - 1].req == log[k].req
  }

  lemma ConsumeOne(log: map<nat, Entry>, s: nat, t: nat, history: seq<Executed>, x: Executed)
    requires Consumed(log, s + 1, t, history) && t - s <= |history|
    requires s + 1 in log && log[s + 1].stage == Committed
    requires x.digest == log[s + 1].digest && x.req == log[s + 1].req
    requires history[|history| - t + s] == x
    ensures Consumed(log, s, t, history)
  {
  }

  /** try_execute consumes exactly the longest run of committed entries after last_exec_. */
  lemma {:induction false} LongestRun(c: Config, st: State)
    requires c.Valid()
    ensures
      var r := TryExecute(c, st);
      && |r.history| - |st.history| == r.lastExec - st.lastExec
      && Consumed(st.log, st.lastExec, r.lastExec, r.history)
      && (r.lastExec + 1 in st.log ==> st.log[r.lastExec + 1].stage != Committed)
    decreases Above(st.log, st.lastExec)
  {
    hide ExecuteOne, TryExecute;
    TryExecuteUnfolds(c, st);
    if CanExecute(st) {
      var st1 := ExecuteOne(c, st);
      var r := TryExecute(c, st1);
      AboveDrops(st.log, st.lastExec);
      var x := ExecuteAppends(c, st);
      LongestRun(c, st1);
      hide Consumed;
      assert r.history[|st.history|] == st1.history[|st.history|] == x;
      ConsumeOne(st.log, st.lastExec, r.lastExec, r.history, x);
    }
  }

  lemma TryExecuteUnfolds(c: Config, st: State)
    requires c.Valid()
    ensures TryExecute(c, st) == if CanExecute(st) then TryExecute(c, ExecuteOne(c, st)) else st
  {
    hide ExecuteOne;
  }

  /**
   * Execution is a fold: after any run each number up to last_exec_ was executed once
   * and in order, every answer and the service state are those of executing the
   * history from the initial state, and checkpoints were announced exactly at the
   * executed multiples of K_, each with the digest of the state at that point.
   */
  lemma ExecutionIsFold(c: Config, g: Regime, evs: seq<Event>)
    requires c.Valid() && HashFits(c, g) && Plausible(c, g, evs)
    ensures
      var st := Run(c, evs);
      && |st.history| == st.lastExec
      && st.service == After(c.service, st.history)
      && (forall k :: 0 <= k < |st.history| ==>
            st.history[k].result == c.service.execute(After(c.service, st.history[..k]), st.history[k].req.operation).1)
      && (forall m :: Checkpoint(m) in st.outbox <==>
            && m.replicaId == c.id && 0 < m.seqNum <= st.lastExec && m.seqNum % c.K == 0
            && m.digest == DigestAt(c.service, st.history, m.seqNum))
  {
    hide Run;
    RunInv(c, g, evs);
    var st := Run(c, evs);
    forall k | 0 <= k < |st.history|
      ensures st.history[k].result == c.service.execute(After(c.service, st.history[..k]), st.history[k].req.operation).1
    {
      assert StepOk(c, g, st.history, k);
    }
    forall m: CheckpointMsg | m.replicaId == c.id && 0 < m.seqNum <= st.lastExec && m.seqNum % c.K == 0
               && m.digest == DigestAt(c.service, st.history, m.seqNum)
      ensures Checkpoint(m) in st.outbox
    {
      assert m == CheckpointMsg(m.seqNum, DigestAt(c.service, st.history, m.seqNum), c.id);
    }
  }

  /**
   * The cached replies are the last answers of the history, every executed request was
   * answered with its own result, and no reply was ever made up.
   */
  lemma RepliesComeFromHistory(c: Config, g: Regime, evs: seq<Event>)
    requires c.Valid() && HashFits(c, g) && Plausible(c, g, evs)
    ensures
      var st := Run(c, evs);
      && st.lastReplies == LastAnswers(c, st.history)
      && (forall m :: Reply(m) in st.outbox ==>
            m.replicaId == c.id && Answers(st.history, m.clientId, m.timestamp, m.result))
      && (forall k :: 0 <= k < |st.history| ==> WasAnswered(c, st.history[k], st.outbox))
  {
    hide Run;
    RunInv(c, g, evs);
  }

  /**
   * Fresh numbers: over a whole run the numbers given to requests strictly increase,
   * renumbering never goes back, and at a primary nothing above seq_num_ is
   * pre-prepared and nothing above it has been executed.
   */
  lemma FreshNumbers(c: Config, g: Regime, evs: seq<Event>)
    requires c.Valid() && HashFits(c, g) && Plausible(c, g, evs)
    ensures
      var st := Run(c, evs);
      && AssignedOk(st.seqNum, st.outbox)
      && st.seqNum <= Highest(st.lastExec, st.h, st.log)
      && (IsPrimary(c, st.view) ==> st.lastExec <= st.seqNum && !At(st.log, st.seqNum + 1).hasPrePrepare)
  {
    hide Run;
    RunInv(c, g, evs);
  }

  /**
   * The timer never runs during a view change, the back-off counter is 1 then and 0
   * otherwise, so the shift is always in range and the timer is only ever armed with
   * the base delay: the exponential back-off never takes effect.
   */
  lemma TimerDiscipline(c: Config, g: Regime, evs: seq<Event>)
    requires c.Valid() && HashFits(c, g) && Plausible(c, g, evs)
    ensures
      var st := Run(c, evs);
      && st.timeoutCount == (if st.viewChanging then 1 else 0)
      && (st.viewChanging ==> st.timer.None?)
      && (st.timer.Some? ==> st.timer.value == if c.vcTimeout < 300.0 then c.vcTimeout else 300.0)
  {
    hide Run;
    RunInv(c, g, evs);
    assert Pow2(0) == 1;
  }
}
