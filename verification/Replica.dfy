/**
 * The replica of src/node.cc: fields that the handlers update in place. Every handler
 * is proved to compute the state that the functions of Handlers.dfy define.
 */
module ReplicaClass {
  import opened Messages
  import opened Collections
  import opened NewViews
  import opened NewViewLoops
  import opened Handlers
  import opened Invariant
  import opened ReplicaRuns

  /** The keys of a std::map or std::set in iteration order. */
  method SortedKeys(s: set<nat>) returns (q: seq<nat>)
    ensures q == Ascending(s)
    ensures forall k :: 0 <= k < |q| ==> q[k] in s
  {
    q := [];
    var rest := s;
    while rest != {}
      invariant rest <= s && Increasing(q)
      invariant forall x :: x in s <==> x in q || x in rest
      invariant forall x, y :: x in q && y in rest ==> x < y
      decreases |rest|
    {
      var least := Least(rest);
      assert forall i :: 0 <= i < |q| ==> q[i] in q;
      q := q + [least];
      rest := rest - {least};
    }
    AscendingUnique(q, s);
  }

  /** The first element of a non-empty std::set. */
  method Least(s: set<nat>) returns (m: nat)
    requires s != {}
    ensures m in s && forall x :: x in s ==> m <= x
  {
    m :| m in s;
    var rest := s - {m};
    while rest != {}
      invariant m in s && rest <= s
      invariant forall x :: x in s && x !in rest ==> m <= x
      decreases |rest|
    {
      var x :| x in rest;
      if x < m {
        m := x;
      }
      rest := rest - {x};
    }
  }

  class Replica {
    const c: Config
    var view: nat
    var seqNum: nat
    var lastExec: nat
    var h: nat
    var H: nat
    var log: map<nat, Entry>
    var lastReplies: map<nat, ReplyInfo>
    var viewChanging: bool
    var vcStore: map<nat, map<nat, ViewChangeMsg>>
    var timeoutCount: nat
    var checkpoints: map<nat, CheckpointVotes>
    var lastStableDigest: Option<Digest>
    var timer: Option<real>
    var service: ServiceState
    /** Everything handed to the network so far. */
    var outbox: seq<Message>
    ghost var history: seq<Executed>
    ghost var inbox: set<Packet>
    /** What the object has been called with so far. */
    ghost var events: seq<Event>

    /** The fields are what the events make of a new replica. */
    ghost predicate Valid()
      reads this
    {
      c.Valid() && Now() == Run(c, events)
    }

    ghost function Now(): State
      reads this
    {
      State(view, seqNum, lastExec, h, H, log, lastReplies, viewChanging, vcStore, timeoutCount,
            checkpoints, lastStableDigest, timer, service, history, inbox, outbox)
    }

    constructor (c: Config)
      requires c.Valid()
      ensures this.c == c && Now() == Init(c)
      ensures Valid() && events == []
    {
      this.c := c;
      view, seqNum, lastExec, h, H := 0, 0, 0, 0, c.L;
      log, lastReplies := map[], map[];
      viewChanging, vcStore, timeoutCount := false, map[], 0;
      checkpoints, lastStableDigest := map[], None;
      timer, service, outbox := None, c.service.init, [];
      history, inbox, events := [], {}, [];
    }

    method Broadcast(m: Message)
      modifies this`outbox
      ensures Now() == Send(old(Now()), m)
    {
      outbox := outbox + [m];
    }

    // ------------------------------------------------------------ timer

    method StartTimerIfNotRunning()
      modifies this`timer
      ensures Now() == StartTimer(c, old(Now()))
    {
      if timer.None? && !viewChanging {
        timer := Some(Delay(c, timeoutCount));
      }
    }

    method CancelTimer()
      modifies this`timer
      ensures Now() == StopTimer(old(Now()))
    {
      if timer.Some? {
        timer := None;
      }
    }

    method IsWaitingForRequest() returns (waiting: bool)
      ensures waiting <==> Waiting(log, lastExec)
    {
      var rest := log.Keys;
      while rest != {}
        invariant rest <= log.Keys
        invariant forall s :: s in log && s !in rest ==> !(log[s].hasPrePrepare && s > lastExec)
        decreases |rest|
      {
        var s := Least(rest);
        if log[s].hasPrePrepare && s > lastExec {
          return true;
        }
        rest := rest - {s};
      }
      return false;
    }

    method UpdateTimer()
      modifies this`timer
      ensures Now() == ManageTimer(c, old(Now()))
    {
      var waiting := IsWaitingForRequest();
      if !waiting {
        CancelTimer();
      } else if timer.Some? {
        CancelTimer();
        StartTimerIfNotRunning();
      }
    }

    // ------------------------------------------------------------ execution and checkpoints

    method AnnounceCheckpoint()
      modifies this`outbox, this`checkpoints
      ensures Now() == MakeCheckpoint(c, old(Now()))
    {
      var d := c.service.digest(service);
      Broadcast(Checkpoint(CheckpointMsg(lastExec, d, c.id)));
      var cp := VotesAt(checkpoints, lastExec);
      checkpoints := checkpoints[lastExec := cp.(votes := cp.votes[d := Voters(cp.votes, d) + {c.id}])];
    }

    /** Run the request at last_exec_ + 1 and answer it. */
    method RunNext()
      requires c.Valid() && CanExecute(Now())
      modifies this
      ensures Now() == Perform(c, old(Now()))
      ensures events == old(events)
    {
      ghost var next := Perform(c, Now());
      var e := log[lastExec + 1];
      var outcome := c.service.execute(service, e.req.operation);
      var result := outcome.1;
      var reply := ReplyMsg(view, e.req.timestamp, e.req.clientId, c.id, result);
      service, outbox, lastReplies, lastExec, history :=
        outcome.0,
        outbox + [Reply(reply)],
        lastReplies[e.req.clientId := ReplyInfo(reply.timestamp, reply.replicaId, reply.result)],
        lastExec + 1,
        history + [Executed(e.digest, e.req, result, e.commits)];
      assert Now() == next;
    }

    /** One round of the loop below. */
    method ExecuteRound()
      requires c.Valid() && CanExecute(Now())
      modifies this
      ensures Now() == ExecuteOne(c, old(Now()))
      ensures events == old(events)
    {
      hide Perform, ManageTimer, MakeCheckpoint;
      RunNext();
      UpdateTimer();
      if lastExec % c.K == 0 {
        AnnounceCheckpoint();
      }
    }

    method ExecuteReady()
      requires c.Valid()
      modifies this
      ensures Now() == TryExecute(c, old(Now()))
      ensures events == old(events)
    {
      hide ExecuteOne;
      while lastExec + 1 in log && log[lastExec + 1].stage == Committed
        invariant TryExecute(c, Now()) == TryExecute(c, old(Now())) && events == old(events)
        decreases Above(log, lastExec)
      {
        AboveDrops(log, lastExec);
        ExecuteRound();
      }
    }

    method AdvanceWatermarks(s: nat)
      modifies this`h, this`H
      ensures Now() == old(Now()).(h := s, H := s + c.L)
    {
      h := s;
      H := h + c.L;
    }

    method RecomputeHighestSequence() returns (m: nat)
      ensures m == Highest(lastExec, h, log)
    {
      m := Max(lastExec, h);
      if log != map[] {
        var keys: seq<nat> := SortedKeys(log.Keys);
        assert MaxOf(log.Keys) in keys;
        m := Max(m, keys[|keys| - 1]);
      }
    }

    method DropLog()
      modifies this`log
      ensures log == map s | s in old(log) && s > h :: old(log)[s]
    {
      var rest := log.Keys;
      while rest != {}
        invariant rest <= old(log).Keys
        invariant log == map s | s in old(log) && (s > h || s in rest) :: old(log)[s]
        decreases |rest|
      {
        var s := Least(rest);
        if s <= h {
          log := log - {s};
        }
        rest := rest - {s};
      }
    }

    method DropCheckpoints()
      modifies this`checkpoints
      ensures checkpoints == map s | s in old(checkpoints) && s >= h :: old(checkpoints)[s]
    {
      var rest := checkpoints.Keys;
      while rest != {}
        invariant rest <= old(checkpoints).Keys
        invariant checkpoints == map s | s in old(checkpoints) && (s >= h || s in rest) :: old(checkpoints)[s]
        decreases |rest|
      {
        var s := Least(rest);
        if s < h {
          checkpoints := checkpoints - {s};
        }
        rest := rest - {s};
      }
    }

    method GarbageCollect()
      modifies this`log, this`checkpoints
      ensures Now() == Collect(old(Now()))
    {
      DropLog();
      DropCheckpoints();
    }

    method MoveWindow(s: nat, d: Digest)
      requires c.Valid()
      modifies this`checkpoints, this`lastStableDigest, this`h, this`H
      ensures Now() == Moved(c, old(Now()), s, d)
    {
      checkpoints := checkpoints[s := VotesAt(checkpoints, s).(stable := true)];
      lastStableDigest := Some(d);
      AdvanceWatermarks(s);
    }

    /** A checkpoint has become stable. */
    method MarkStable(s: nat, d: Digest)
      requires c.Valid() && s >= h
      modifies this`checkpoints, this`lastStableDigest, this`h, this`H, this`seqNum, this`log
      ensures Now() == Stabilise(c, old(Now()), s, d)
    {
      hide Collect, Highest, Renumber, Moved;
      MoveWindow(s, d);
      seqNum := RecomputeHighestSequence();
      GarbageCollect();
    }

    method OnCheckpointMsg(m: CheckpointMsg)
      requires c.Valid()
      modifies this
      ensures Now() == OnCheckpoint(c, old(Now()), m)
      ensures events == old(events)
    {
      hide Stabilise, Extends;
      if m.seqNum < h {
        return;
      }
      var cp := VotesAt(checkpoints, m.seqNum);
      checkpoints := checkpoints[m.seqNum := cp.(votes := cp.votes[m.digest := Voters(cp.votes, m.digest) + {m.replicaId}])];
      assert Now() == Vote(old(Now()), m);
      cp := checkpoints[m.seqNum];
      if !cp.stable && |cp.votes[m.digest]| >= 2 * c.F() + 1 {
        MarkStable(m.seqNum, m.digest);
      }
    }

    // ------------------------------------------------------------ three phases

    method CheckCommitted(s: nat)
      requires c.Valid() && s in log
      modifies this
      ensures Now() == TryCommit(c, old(Now()), s)
      ensures events == old(events)
    {
      hide TryExecute;
      var e := log[s];
      if e.stage == Prepared && |e.commits| >= 2 * c.F() + 1 {
        log := log[s := e.(stage := Committed)];
        ExecuteReady();
      }
    }

    method CheckPrepared(s: nat)
      requires c.Valid() && s in log
      modifies this
      ensures Now() == TryPrepare(c, old(Now()), s)
      ensures events == old(events)
    {
      hide TryCommit;
      var e := log[s];
      if e.stage == PrePrepared && e.hasPrePrepare && |e.prepares| >= 2 * c.F() {
        log := log[s := e.(stage := Prepared)];
        Broadcast(Commit(CommitMsg(view, e.seqNum, e.digest, c.id)));
        log := log[s := log[s].(commits := log[s].commits + {c.id})];
        assert Now() == MarkPrepared(c, old(Now()), s);
        CheckCommitted(s);
      }
    }

    method OnPrePrepareImpl(m: PrePrepareMsg)
      requires c.Valid()
      modifies this
      ensures Now() == ProcessPrePrepare(c, old(Now()), m)
      ensures events == old(events)
    {
      hide TryPrepare, Extends, SameWindow, LogKept;
      if viewChanging || m.view != view || m.seqNum < h || m.seqNum > H {
        return;
      }
      var s := m.seqNum;
      log := log[s := At(log, s)];
      if log[s].hasPrePrepare && log[s].digest != m.digest {
        return;
      }
      StartTimerIfNotRunning();
      log := log[s := log[s].(view := m.view, seqNum := s, digest := m.digest, req := m.req,
                              hasPrePrepare := true, stage := PrePrepared)];
      Broadcast(Prepare(PrepareMsg(view, s, m.digest, c.id)));
      log := log[s := log[s].(prepares := log[s].prepares + {c.id})];
      assert Now() == Accept(c, old(Now()), m);
      CheckPrepared(s);
    }

    method OnPrePrepareMsg(from: nat, m: PrePrepareMsg)
      requires c.Valid()
      modifies this
      ensures Now() == OnPrePrepare(c, old(Now()), from, m)
      ensures events == old(events)
    {
      hide ProcessPrePrepare;
      if from == view % c.n {
        OnPrePrepareImpl(m);
      }
    }

    method OnPrepareMsg(from: nat, m: PrepareMsg)
      requires c.Valid()
      modifies this
      ensures Now() == OnPrepare(c, old(Now()), from, m)
      ensures events == old(events)
    {
      hide TryPrepare;
      if from == view % c.n || viewChanging || m.view != view || m.seqNum < h || m.seqNum > H {
        return;
      }
      var s := m.seqNum;
      log := log[s := At(log, s)];
      if log[s].hasPrePrepare && log[s].digest != m.digest {
        return;
      }
      log := log[s := log[s].(prepares := log[s].prepares + {m.replicaId})];
      assert Now() == AddPrepare(old(Now()), s, m.replicaId);
      CheckPrepared(s);
    }

    method OnCommitMsg(m: CommitMsg)
      requires c.Valid()
      modifies this
      ensures Now() == OnCommit(c, old(Now()), m)
      ensures events == old(events)
    {
      hide TryCommit;
      if viewChanging || m.view != view || m.seqNum < h || m.seqNum > H {
        return;
      }
      var s := m.seqNum;
      log := log[s := At(log, s)];
      if !log[s].hasPrePrepare || log[s].digest != m.digest {
        return;
      }
      log := log[s := log[s].(commits := log[s].commits + {m.replicaId})];
      assert Now() == AddCommit(old(Now()), s, m.replicaId);
      CheckCommitted(s);
    }

    // ------------------------------------------------------------ requests

    method IsInProgress(m: RequestMsg) returns (found: bool)
      ensures found <==> InProgress(log, m)
    {
      var rest := log.Keys;
      while rest != {}
        invariant rest <= log.Keys
        invariant forall s :: s in log && s !in rest ==>
          !(log[s].hasPrePrepare && log[s].req.clientId == m.clientId && log[s].req.timestamp == m.timestamp)
        decreases |rest|
      {
        var s := Least(rest);
        if log[s].hasPrePrepare && log[s].req.clientId == m.clientId && log[s].req.timestamp == m.timestamp {
          return true;
        }
        rest := rest - {s};
      }
      return false;
    }

    method OnRequestMsg(m: RequestMsg)
      requires c.Valid()
      modifies this
      ensures Now() == OnRequest(c, old(Now()), m)
      ensures events == old(events)
    {
      if m.clientId in lastReplies && lastReplies[m.clientId].timestamp == m.timestamp {
        Broadcast(Reply(ReplyMsg(view, m.timestamp, m.clientId, c.id, lastReplies[m.clientId].result)));
        return;
      }
      if viewChanging {
        return;
      }
      if c.id == view % c.n {
        if seqNum < h || seqNum >= H {
          return;
        }
        var inProgress := IsInProgress(m);
        if inProgress {
          return;
        }
        seqNum := seqNum + 1;
        var e := At(log, seqNum).(view := view, seqNum := seqNum, req := m, digest := c.hash(m),
                                  hasPrePrepare := true, stage := PrePrepared);
        Broadcast(PrePrepare(PrePrepareMsg(view, seqNum, e.digest, m)));
        log := log[seqNum := e.(prepares := e.prepares + {c.id})];
      } else {
        StartTimerIfNotRunning();
        Broadcast(Request(m));
      }
    }

    // ------------------------------------------------------------ view changes

    /** List the votes for one digest in ascending order of replica id. */
    method ListVotes(s: nat, d: Digest, voters: set<nat>) returns (r: seq<CheckpointMsg>)
      ensures r == VotesFor(s, d, Ascending(voters))
    {
      hide Ascending;
      var ids: seq<nat> := SortedKeys(voters);
      r := [];
      for k := 0 to |ids|
        invariant r == VotesFor(s, d, ids[..k])
      {
        assert ids[..k + 1][..k] == ids[..k];
        r := r + [CheckpointMsg(s, d, ids[k])];
      }
      assert ids[..|ids|] == ids;
    }

    /** The C set. The vote map is visited in an arbitrary order, which is returned. */
    method BuildC() returns (C: seq<CheckpointMsg>, ghost order: seq<Digest>)
      requires c.Valid()
      ensures Enumerates(order, VoteDigests(Now()))
      ensures C == CheckpointProof(h, VotesAt(checkpoints, h).votes, order, 2 * c.F() + 1)
    {
      hide Ascending, Enumerates, VotesFor;
      var votes := VotesAt(checkpoints, h).votes;
      var q := 2 * c.F() + 1;
      C, order := [], [];
      var rest := votes.Keys;
      NothingVisited(votes.Keys - rest);
      assert C == CheckpointProof(h, votes, order, q);
      hide CheckpointProof;
      while rest != {}
        invariant rest <= votes.Keys
        invariant Enumerates(order, votes.Keys - rest)
        invariant forall d :: d in order ==> |Voters(votes, d)| < q
        invariant C == CheckpointProof(h, votes, order, q)
        decreases |rest|
      {
        var d :| d in rest;
        var listed := ListVotes(h, d, votes[d]);
        ghost var tail := VisitRest(order, votes.Keys - rest, d, rest - {d});
        VisitOne(h, votes, order, d, q, tail);
        C := C + listed;
        if |votes[d]| >= q {
          assert votes.Keys - rest + {d} + (rest - {d}) == votes.Keys;
          order := order + [d] + tail;
          return;
        }
        assert votes.Keys - rest + {d} == votes.Keys - (rest - {d});
        order := order + [d];
        rest := rest - {d};
      }
      assert votes.Keys - rest == votes.Keys;
    }

    /** The P set: the prepared, uncommitted entries in order. */
    method BuildP() returns (P: seq<PrepareProof>)
      ensures P == PreparedProofs(log, Ascending(log.Keys))
    {
      hide Ascending;
      var keys: seq<nat> := SortedKeys(log.Keys);
      P := [];
      for k := 0 to |keys|
        invariant P == PreparedProofs(log, keys[..k])
      {
        assert keys[..k + 1][..k] == keys[..k];
        var e := log[keys[k]];
        if e.stage == Prepared {
          P := P + [PrepareProof(e.view, e.seqNum, e.digest)];
        }
      }
      assert keys[..|keys|] == keys;
    }

    method Suspend()
      modifies this`viewChanging, this`timeoutCount, this`timer
      ensures Now() == Suspended(old(Now()))
    {
      viewChanging, timeoutCount := true, timeoutCount + 1;
      CancelTimer();
    }

    method BuildViewChange() returns (vc: ViewChangeMsg, ghost order: seq<Digest>)
      requires c.Valid()
      ensures Enumerates(order, VoteDigests(Now()))
      ensures vc == ViewChangeOf(c, Now(), order)
    {
      hide CheckpointProof, PreparedProofs, Ascending, Enumerates;
      var C, P;
      C, order := BuildC();
      P := BuildP();
      vc := ViewChangeMsg(view + 1, h, c.id, C, P);
    }

    method BeginViewChange() returns (ghost order: seq<Digest>)
      requires c.Valid()
      modifies this
      ensures Enumerates(order, VoteDigests(old(Now())))
      ensures Now() == StartViewChange(c, old(Now()), order)
      ensures events == old(events)
    {
      hide OnViewChange, ViewChangeOf, Enumerates;
      Suspend();
      var vc;
      vc, order := BuildViewChange();
      Broadcast(ViewChange(vc));
      OnViewChangeMsg(vc);
    }

    method ListViewChanges(store: map<nat, ViewChangeMsg>) returns (V: seq<ViewChangeMsg>)
      ensures V == VSet(store)
    {
      hide Ascending;
      var ids: seq<nat> := SortedKeys(store.Keys);
      V := [];
      for k := 0 to |ids|
        invariant |V| == k && forall j :: 0 <= j < k ==> V[j] == store[ids[j]]
      {
        V := V + [store[ids[k]]];
      }
    }

    method EnterView(v: nat)
      modifies this`viewChanging, this`view, this`timeoutCount
      ensures Now() == Entered(old(Now()), v)
    {
      viewChanging := false;
      view := v;
      timeoutCount := 0;
    }

    /** The end of both ways into a view. */
    method Resume()
      modifies this`seqNum, this`timer
      ensures Now() == ManageTimer(c, Renumber(old(Now())))
    {
      hide ManageTimer, Highest;
      seqNum := RecomputeHighestSequence();
      UpdateTimer();
    }

    /** Announce a new view as its primary. */
    method InstallView(v: nat, V: seq<ViewChangeMsg>)
      requires c.Valid() && v >= view
      modifies this
      ensures Now() == Install(c, old(Now()), v, V)
      ensures events == old(events)
    {
      hide ManageTimer, Renumber, OSet;
      var O := BuildO(c.nullDigest, V, v);
      Broadcast(NewView(NewViewMsg(v, V, O)));
      EnterView(v);
      Resume();
    }

    method OnViewChangeMsg(m: ViewChangeMsg)
      requires c.Valid()
      modifies this
      ensures Now() == OnViewChange(c, old(Now()), m)
      ensures events == old(events)
    {
      hide Install, VSet;
      if m.nextView < view || m.nextView % c.n != c.id {
        return;
      }
      var store := if m.nextView in vcStore then vcStore[m.nextView] else map[];
      store := store[m.replicaId := m];
      vcStore := vcStore[m.nextView := store];
      if |store| >= 2 * c.F() + 1 {
        var V := ListViewChanges(store);
        InstallView(m.nextView, V);
      }
    }

    method OnNewViewMsg(from: nat, m: NewViewMsg)
      requires c.Valid()
      modifies this
      ensures Now() == OnNewView(c, old(Now()), from, m)
      ensures events == old(events)
    {
      hide ManageTimer, Renumber, ProcessPrePrepare, Acceptable;
      if from != m.nextView % c.n || !viewChanging || m.nextView <= view {
        return;
      }
      var ok := Validate(c.F(), m);
      if !ok {
        return;
      }
      EnterView(m.nextView);
      ghost var entered := Now();
      for k := 0 to |m.prePrepares|
        invariant Now() == ProcessAll(c, entered, m.prePrepares[..k]) && events == old(events)
      {
        assert m.prePrepares[..k + 1][..k] == m.prePrepares[..k];
        OnPrePrepareImpl(m.prePrepares[k]);
      }
      assert m.prePrepares[..|m.prePrepares|] == m.prePrepares;
      hide ProcessAll;
      Resume();
    }

    // ------------------------------------------------------------ dispatch

    /** A message arrives on the connection of replica `from`. */
    method Receive(from: nat, msg: Message)
      requires Valid()
      modifies this
      ensures Now() == Handle(c, old(Now()), Deliver(from, msg))
      ensures Valid() && events == old(events) + [Deliver(from, msg)]
    {
      hide Run, OnRequest, OnPrePrepare, OnPrepare, OnCommit, OnCheckpoint, OnViewChange, OnNewView;
      inbox := inbox + {Packet(from, msg)};
      match msg {
        case Request(m) => OnRequestMsg(m);
        case Reply(_) =>
        case PrePrepare(m) => OnPrePrepareMsg(from, m);
        case Prepare(m) => OnPrepareMsg(from, m);
        case Commit(m) => OnCommitMsg(m);
        case Checkpoint(m) => OnCheckpointMsg(m);
        case ViewChange(m) => OnViewChangeMsg(m);
        case NewView(m) => OnNewViewMsg(from, m);
      }
      assert Now() == Handle(c, old(Now()), Deliver(from, msg));
      hide Handle;
      RunMore(c, events, Deliver(from, msg));
      events := events + [Deliver(from, msg)];
    }

    /** A client's request arrives. */
    method ReceiveRequest(m: RequestMsg)
      requires Valid()
      modifies this
      ensures Now() == Handle(c, old(Now()), Arrive(m))
      ensures Valid() && events == old(events) + [Arrive(m)]
    {
      hide Run, OnRequest;
      OnRequestMsg(m);
      RunMore(c, events, Arrive(m));
      events := events + [Arrive(m)];
    }

    /** The view-change timer fires. The order in which the votes were visited is returned. */
    method TimerExpires() returns (ghost order: seq<Digest>)
      requires Valid() && timer.Some?
      modifies this
      ensures Possible(c, old(Now()), TimerFires(order))
      ensures Now() == Handle(c, old(Now()), TimerFires(order))
      ensures Valid() && events == old(events) + [TimerFires(order)]
    {
      hide Run, StartViewChange, Enumerates;
      order := BeginViewChange();
      RunMore(c, events, TimerFires(order));
      events := events + [TimerFires(order)];
    }
  }

  /**
   * Every theorem about runs is one about objects: after whatever plausible events its
   * methods were called with, the fields satisfy the invariant.
   */
  lemma ObjectInv(r: Replica, g: Regime)
    requires r.Valid() && HashFits(r.c, g) && Plausible(r.c, g, r.events)
    ensures Inv(r.c, g, r.Now())
  {
    hide Inv, Run;
    RunInv(r.c, g, r.events);
  }

  /** A C set that found no quorum so far continues with the digests still to come. */
  lemma {:induction false} ProofAppend(s: nat, votes: map<Digest, set<nat>>, a: seq<Digest>, b: seq<Digest>, q: nat)
    requires forall d :: d in a ==> |Voters(votes, d)| < q
    ensures CheckpointProof(s, votes, a + b, q) == CheckpointProof(s, votes, a, q) + CheckpointProof(s, votes, b, q)
  {
    hide VotesFor, Ascending;
    if a == [] {
      assert a + b == b;
    } else {
      assert (a + b)[0] == a[0] && (a + b)[1..] == a[1..] + b;
      assert a[0] in a;
      ProofAppend(s, votes, a[1..], b, q);
      var first := VotesFor(s, a[0], Ascending(Voters(votes, a[0])));
      assert CheckpointProof(s, votes, a + b, q) == first + CheckpointProof(s, votes, a[1..] + b, q);
      assert CheckpointProof(s, votes, a, q) == first + CheckpointProof(s, votes, a[1..], q);
    }
  }

  /** Visiting one more digest lists its votes, and stops the visit if they are a quorum. */
  lemma VisitOne(s: nat, votes: map<Digest, set<nat>>, order: seq<Digest>, d: Digest, q: nat, tail: seq<Digest>)
    requires forall x :: x in order ==> |Voters(votes, x)| < q
    ensures CheckpointProof(s, votes, order + [d], q) ==
            CheckpointProof(s, votes, order, q) + VotesFor(s, d, Ascending(Voters(votes, d)))
    ensures |Voters(votes, d)| >= q ==>
              CheckpointProof(s, votes, order + [d] + tail, q) == CheckpointProof(s, votes, order + [d], q)
  {
    hide Ascending, VotesFor, CheckpointProof;
    ProofAppend(s, votes, order, [d], q);
    ProofAppend(s, votes, order, [d] + tail, q);
    assert order + [d] + tail == order + ([d] + tail);
    ProofFirst(s, votes, d, tail, q);
    ProofFirst(s, votes, d, [], q);
    assert [d] + [] == [d];
  }

  lemma ProofFirst(s: nat, votes: map<Digest, set<nat>>, d: Digest, tail: seq<Digest>, q: nat)
    ensures CheckpointProof(s, votes, [d] + tail, q) ==
            VotesFor(s, d, Ascending(Voters(votes, d))) +
            if |Voters(votes, d)| >= q then [] else CheckpointProof(s, votes, tail, q)
    ensures CheckpointProof(s, votes, [], q) == []
  {
    hide Ascending, VotesFor;
    assert ([d] + tail)[1..] == tail;
  }

  lemma NothingVisited(s: set<Digest>)
    requires s == {}
    ensures Enumerates([], s)
  {
  }

  lemma EnumeratesBoth(a: seq<Digest>, s: set<Digest>, b: seq<Digest>, t: set<Digest>)
    requires Enumerates(a, s) && Enumerates(b, t) && s !! t
    ensures Enumerates(a + b, s + t)
  {
    forall i, j | 0 <= i < |a| && 0 <= j < |b| ensures a[i] != b[j] {
      assert a[i] in a && b[j] in b;
    }
  }

  /** Extend an enumeration by one digest, and then by all the others. */
  lemma VisitRest(order: seq<Digest>, done: set<Digest>, d: Digest, rest: set<Digest>) returns (tail: seq<Digest>)
    requires Enumerates(order, done) && d !in done && d !in rest && done !! rest
    ensures Enumerates(order + [d], done + {d})
    ensures Enumerates(order + [d] + tail, done + {d} + rest)
  {
    tail := Ascending(rest);
    assert Enumerates([d], {d}) && Enumerates(tail, rest);
    hide Enumerates, Ascending;
    EnumeratesBoth(order, done, [d], {d});
    EnumeratesBoth(order + [d], done + {d}, tail, rest);
  }
}
