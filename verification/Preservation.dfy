/** Every event keeps the invariant of Invariant.dfy. */
module Preservation {
  import opened Messages
  import opened Collections
  import opened NewViews
  import opened Handlers
  import opened Invariant

  // ---------------------------------------------------------------- what is known stays known

  lemma KnownGrows(c: Config, st: State, inbox: set<Packet>, outbox: seq<Message>)
    requires c.Valid()
    requires st.inbox <= inbox && st.outbox <= outbox
    requires CommitsKnown(c, st.log, st.inbox, st.outbox)
    requires HistoryKnown(c, st.history, st.inbox, st.outbox)
    requires VotesKnown(c, st.checkpoints, st.inbox, st.outbox)
    ensures CommitsKnown(c, st.log, inbox, outbox)
    ensures HistoryKnown(c, st.history, inbox, outbox)
    ensures VotesKnown(c, st.checkpoints, inbox, outbox)
  {
    forall s, d, j | CommitKnown(c, st.inbox, st.outbox, s, d, j) ensures CommitKnown(c, inbox, outbox, s, d, j) {
      CommitGrows(c, st.inbox, st.outbox, inbox, outbox, s, d, j);
    }
    forall m | VoteKnown(c, st.inbox, st.outbox, m) ensures VoteKnown(c, inbox, outbox, m) {
      VoteGrows(c, st.inbox, st.outbox, inbox, outbox, m);
    }
    forall s | s in st.checkpoints ensures VotersOk(c, st.checkpoints[s].votes, s, inbox, outbox) {
      assert VotersOk(c, st.checkpoints[s].votes, s, st.inbox, st.outbox);
    }
  }

  lemma CommitGrows(c: Config, inbox: set<Packet>, outbox: seq<Message>, inbox': set<Packet>, outbox': seq<Message>,
                    s: nat, d: Digest, j: nat)
    requires inbox <= inbox' && outbox <= outbox'
    requires CommitKnown(c, inbox, outbox, s, d, j)
    ensures CommitKnown(c, inbox', outbox', s, d, j)
  {
    assert forall x :: x in outbox ==> x in outbox';
  }

  lemma PreparesGrow(c: Config, g: Regime, log: map<nat, Entry>, inbox: set<Packet>, inbox': set<Packet>)
    requires inbox <= inbox' && PreparesKnown(c, g, log, inbox)
    ensures PreparesKnown(c, g, log, inbox')
  {
    forall s, d, j | GotPrepare(inbox, s, d, j) ensures GotPrepare(inbox', s, d, j) {
    }
    forall s | s in log ensures PreparesMatch(c, g, s, log[s], inbox') {
      assert PreparesMatch(c, g, s, log[s], inbox);
    }
  }

  lemma VoteGrows(c: Config, inbox: set<Packet>, outbox: seq<Message>, inbox': set<Packet>, outbox': seq<Message>, m: CheckpointMsg)
    requires inbox <= inbox' && outbox <= outbox'
    requires VoteKnown(c, inbox, outbox, m)
    ensures VoteKnown(c, inbox', outbox', m)
  {
    assert forall x :: x in outbox ==> x in outbox';
  }

  lemma AnnouncementsGrow(c: Config, inbox: set<Packet>, outbox: seq<Message>, inbox': set<Packet>, m: seq<Message>)
    requires c.Valid() && inbox <= inbox' && |m| <= 1
    requires AnnouncementsOk(c, inbox, outbox)
    requires forall i :: 0 <= i < |m| && m[i].ViewChange? ==> ViewChangeOk(c, inbox', outbox + m, m[i].viewChange)
    requires forall i :: 0 <= i < |m| && m[i].NewView? ==> Acceptable(c.F(), m[i].newView)
    ensures AnnouncementsOk(c, inbox', outbox + m)
  {
    forall i | 0 <= i < |outbox| && outbox[i].ViewChange?
      ensures ViewChangeOk(c, inbox', outbox + m, outbox[i].viewChange)
    {
      forall x | x in outbox[i].viewChange.checkpointProof ensures VoteKnown(c, inbox', outbox + m, x) {
        VoteGrows(c, inbox, outbox, inbox', outbox + m, x);
      }
    }
  }

  /** The parts of a message that depend on the state it is sent from. */
  ghost predicate MessageOk(c: Config, g: Regime, st: State, m: Message)
    requires c.Valid()
  {
    match m
    case Request(_) => true
    case Reply(r) => r.replicaId == c.id && Answers(st.history, r.clientId, r.timestamp, r.result)
    case PrePrepare(p) =>
      && p.seqNum <= st.seqNum
      && forall i :: 0 <= i < |st.outbox| && st.outbox[i].PrePrepare? ==> st.outbox[i].prePrepare.seqNum < p.seqNum
    case Prepare(p) => Locked(c, st.h, st.log, p.seqNum, p.digest, p.replicaId)
    case Commit(p) => Locked(c, st.h, st.log, p.seqNum, p.digest, p.replicaId) && (g.strict ==> p.seqNum > st.h)
    case Checkpoint(_) => true
    case ViewChange(v) => ViewChangeOk(c, st.inbox, st.outbox, v)
    case NewView(v) => Acceptable(c.F(), v)
  }

  lemma SendBase(c: Config, g: Regime, st: State, m: Message)
    requires c.Valid() && Base(c, g, st) && MessageOk(c, g, st, m)
    ensures Base(c, g, Send(st, m))
  {
    hide LogOk, RegimeOk, HistoryOk, StableOk, TimerOk, PreparesKnown, CommitsKnown, HistoryKnown, VotesKnown, AnnouncementsOk;
    KnownGrows(c, st, st.inbox, st.outbox + [m]);
    if m.ViewChange? {
      forall x | x in m.viewChange.checkpointProof ensures VoteKnown(c, st.inbox, st.outbox + [m], x) {
        VoteGrows(c, st.inbox, st.outbox, st.inbox, st.outbox + [m], x);
      }
    }
    AnnouncementsGrow(c, st.inbox, st.outbox, st.inbox, [m]);
  }

  lemma SendKeeps(c: Config, g: Regime, st: State, m: Message)
    requires c.Valid() && Core(c, g, st) && MessageOk(c, g, st, m) && !m.Checkpoint?
    ensures Core(c, g, Send(st, m))
  {
    SendBase(c, g, st, m);
    AnsweredGrows(c, st.history, st.outbox, st.outbox + [m]);
  }

  /** What was answered stays answered. */
  lemma AnsweredGrows(c: Config, history: seq<Executed>, outbox: seq<Message>, outbox': seq<Message>)
    requires AllAnswered(c, history, outbox) && outbox <= outbox'
    ensures AllAnswered(c, history, outbox')
  {
    assert forall m :: m in outbox ==> m in outbox';
    forall k | 0 <= k < |history| ensures WasAnswered(c, history[k], outbox') {
      assert WasAnswered(c, history[k], outbox);
    }
  }

  /** An execution answers its request. */
  lemma AnsweredKept(c: Config, st: State)
    requires c.Valid() && AllAnswered(c, st.history, st.outbox) && CanExecute(st)
    ensures AllAnswered(c, ExecuteOne(c, st).history, ExecuteOne(c, st).outbox)
  {
    var p, r := Perform(c, st), ExecuteOne(c, st);
    assert p.outbox <= r.outbox && r.history == p.history;
    AnsweredGrows(c, st.history, st.outbox, r.outbox);
    var x := p.history[|st.history|];
    assert p.outbox[|st.outbox|] == Reply(ReplyMsg(st.view, x.req.timestamp, x.req.clientId, c.id, x.result));
    assert r.outbox[|st.outbox|] in r.outbox;
    assert WasAnswered(c, x, r.outbox);
  }

  lemma ReceiveKeeps(c: Config, g: Regime, st: State, from: nat, msg: Message)
    requires c.Valid() && Inv(c, g, st)
    ensures Inv(c, g, Receive(st, from, msg))
  {
    var st' := Receive(st, from, msg);
    KnownGrows(c, st, st'.inbox, st.outbox);
    PreparesGrow(c, g, st.log, st.inbox, st'.inbox);
    hide PreparesKnown, CommitsKnown, HistoryKnown, VotesKnown;
    assert st.outbox + [] == st.outbox;
    AnnouncementsGrow(c, st.inbox, st.outbox, st'.inbox, []);
  }

  // ---------------------------------------------------------------- changing one log entry

  /** The new entry respects the lock of the old one. */
  ghost predicate Respects(log: map<nat, Entry>, s: nat, e: Entry) {
    s in log && log[s].hasPrePrepare ==> e.hasPrePrepare && e.digest == log[s].digest
  }

  ghost predicate EntryFits(c: Config, g: Regime, st: State, s: nat, e: Entry)
    requires c.Valid()
  {
    && st.h <= s <= st.H && EntryOk(c, s, e) && Respects(st.log, s, e)
    && (e.hasPrePrepare ==> (g.strict ==> s > st.h) && (g.faithful ==> e.req == g.reqOf(e.digest)))
    && (forall j :: j in e.commits ==> CommitKnown(c, st.inbox, st.outbox, s, e.digest, j))
    && PreparesMatch(c, g, s, e, st.inbox)
  }

  lemma PutKeeps(c: Config, g: Regime, st: State, s: nat, e: Entry)
    requires c.Valid() && Core(c, g, st) && EntryFits(c, g, st, s, e)
    ensures Core(c, g, st.(log := st.log[s := e]))
  {
    hide HistoryOk, HistoryKnown, CheckpointsOk, AllAnswered, RepliesOk, OneVote, AnnouncementsOk, TimerOk, VotesKnown, StableOk, AssignedOk;
  }

  lemma PutNumbers(c: Config, st: State, s: nat, e: Entry)
    requires c.Valid() && NumbersOk(c, st) && st.h <= s <= st.H
    requires IsPrimary(c, st.view) && e.hasPrePrepare ==> s <= st.seqNum || (s in st.log && st.log[s].hasPrePrepare)
    ensures NumbersOk(c, st.(log := st.log[s := e]))
  {
    var st' := st.(log := st.log[s := e]);
    if st.seqNum > st.lastExec && st.seqNum > st.h {
      assert Highest(st.lastExec, st.h, st.log) in st.log.Keys;
      assert Highest(st.lastExec, st.h, st.log) in st'.log;
    }
  }

  /** Entries that exist satisfy what a changed copy of them must satisfy. */
  lemma OldEntryFits(c: Config, g: Regime, st: State, s: nat)
    requires c.Valid() && Core(c, g, st) && (s in st.log || st.h <= s <= st.H)
    ensures EntryFits(c, g, st, s, At(st.log, s))
  {
    hide HistoryOk, HistoryKnown, CheckpointsOk, AllAnswered, RepliesOk, OneVote, AnnouncementsOk, TimerOk, VotesKnown, StableOk, AssignedOk, VotesLocked;
  }

  // ---------------------------------------------------------------- execution

  lemma TimerBase(c: Config, g: Regime, st: State, t: Option<real>)
    requires c.Valid() && Base(c, g, st) && TimerOk(c, st.viewChanging, st.timeoutCount, t)
    ensures Base(c, g, st.(timer := t))
  {
    hide LogOk, RegimeOk, HistoryOk, StableOk, PreparesKnown, CommitsKnown, HistoryKnown, VotesKnown, AnnouncementsOk, VotesLocked, RepliesOk, OneVote;
  }

  lemma TimerKeeps(c: Config, g: Regime, st: State)
    requires c.Valid() && Base(c, g, st)
    ensures Base(c, g, ManageTimer(c, st)) && Base(c, g, StartTimer(c, st))
  {
    assert TimerOk(c, st.viewChanging, st.timeoutCount, st.timer);
    hide Base;
    TimerBase(c, g, st, ManageTimer(c, st).timer);
    TimerBase(c, g, st, StartTimer(c, st).timer);
  }

  lemma HistoryGrows(c: Config, g: Regime, st: State)
    requires c.Valid() && Base(c, g, st) && CanExecute(st)
    ensures
      var r := Perform(c, st);
      && HistoryOk(c, g, r.lastExec, r.service, r.history)
      && HistoryKnown(c, r.history, r.inbox, st.outbox)
      && r.lastReplies == LastAnswers(c, r.history)
  {
    var r := Perform(c, st);
    assert r.history[..|st.history|] == st.history;
    assert EntryOk(c, st.lastExec + 1, st.log[st.lastExec + 1]);
    forall k | 0 <= k < |r.history| ensures StepOk(c, g, r.history, k) {
      assert r.history[..k] == st.history[..k];
      assert k < |st.history| ==> StepOk(c, g, st.history, k);
    }
  }

  lemma PerformKeeps(c: Config, g: Regime, st: State)
    requires c.Valid() && Base(c, g, st) && CanExecute(st)
    ensures Base(c, g, Perform(c, st))
  {
    var r := Perform(c, st);
    var r0 := r.(outbox := st.outbox);
    HistoryGrows(c, g, st);
    forall client, timestamp, result | Answers(st.history, client, timestamp, result)
      ensures Answers(r.history, client, timestamp, result)
    {
      var k :| 0 <= k < |st.history| && st.history[k].req.clientId == client
               && st.history[k].req.timestamp == timestamp && st.history[k].result == result;
      assert r.history[k] == st.history[k];
    }
    assert Base(c, g, r0);
    var x := r.history[|st.history|];
    assert Answers(r.history, x.req.clientId, x.req.timestamp, x.result);
    SendBase(c, g, r0, Reply(ReplyMsg(st.view, x.req.timestamp, x.req.clientId, c.id, x.result)));
    assert r == Send(r0, Reply(ReplyMsg(st.view, x.req.timestamp, x.req.clientId, c.id, x.result)));
  }

  lemma MakeCheckpointKeeps(c: Config, g: Regime, st: State)
    requires c.Valid() && Base(c, g, st)
    ensures Base(c, g, MakeCheckpoint(c, st))
  {
    var d := c.service.digest(st.service);
    var m := CheckpointMsg(st.lastExec, d, c.id);
    var st1 := Send(st, Checkpoint(m));
    SendBase(c, g, st, Checkpoint(m));
    assert Checkpoint(m) == st1.outbox[|st.outbox|];
    VoteBase(c, g, st1, m);
    assert MakeCheckpoint(c, st) == Vote(st1, m);
  }

  /** Recording a vote that was really cast. */
  lemma VoteBase(c: Config, g: Regime, st: State, m: CheckpointMsg)
    requires c.Valid() && Base(c, g, st) && m.replicaId < c.n && VoteKnown(c, st.inbox, st.outbox, m)
    ensures Base(c, g, Vote(st, m))
  {
    var r := Vote(st, m);
    assert VotersOk(c, r.checkpoints[m.seqNum].votes, m.seqNum, st.inbox, st.outbox);
    if st.h > 0 && m.seqNum == st.h {
      var d := st.lastStableDigest.value;
      SubsetSize(Voters(st.checkpoints[st.h].votes, d), Voters(r.checkpoints[st.h].votes, d));
    }
  }

  /** After an execution the announcements are complete again. */
  lemma CheckpointsGrow(c: Config, history: seq<Executed>, outbox: seq<Message>, x: Executed, reply: Message)
    requires c.Valid() && CheckpointsOk(c, history, outbox) && !reply.Checkpoint?
    ensures
      var history' := history + [x];
      var m := Checkpoint(CheckpointMsg(|history'|, DigestAt(c.service, history', |history'|), c.id));
      CheckpointsOk(c, history', outbox + [reply] + if |history'| % c.K == 0 then [m] else [])
  {
    var history' := history + [x];
    var n := |history'|;
    var m := Checkpoint(CheckpointMsg(n, DigestAt(c.service, history', n), c.id));
    var outbox' := outbox + [reply] + if n % c.K == 0 then [m] else [];
    forall s: nat | s <= |history| ensures DigestAt(c.service, history', s) == DigestAt(c.service, history, s) {
      assert history'[..s] == history[..s];
    }
    forall i | 0 <= i < |outbox'| && outbox'[i].Checkpoint? && outbox'[i] != m ensures outbox'[i] in outbox {
    }
    forall s | 0 < s <= n && s % c.K == 0
      ensures Checkpoint(CheckpointMsg(s, DigestAt(c.service, history', s), c.id)) in outbox'
    {
      if s == n {
        assert outbox'[|outbox| + 1] == m;
      } else {
        assert Checkpoint(CheckpointMsg(s, DigestAt(c.service, history, s), c.id)) in outbox;
      }
    }
  }

  /** What one execution adds to the history and the outbox. */
  lemma ExecuteShape(c: Config, st: State) returns (x: Executed, reply: Message)
    requires c.Valid() && CanExecute(st)
    ensures !reply.Checkpoint?
    ensures
      var r := ExecuteOne(c, st);
      && r.history == st.history + [x]
      && r.outbox == st.outbox + [reply] +
                     if r.lastExec % c.K == 0
                     then [Checkpoint(CheckpointMsg(r.lastExec, c.service.digest(Perform(c, st).service), c.id))]
                     else []
  {
    var p := Perform(c, st);
    x, reply := p.history[|st.history|], p.outbox[|st.outbox|];
  }

  lemma CheckpointsKept(c: Config, g: Regime, st: State)
    requires c.Valid() && Core(c, g, st) && CanExecute(st)
    ensures CheckpointsOk(c, ExecuteOne(c, st).history, ExecuteOne(c, st).outbox)
  {
    HistoryGrows(c, g, st);
    hide Base, CheckpointsOk, ExecuteOne;
    var x, reply := ExecuteShape(c, st);
    var history' := st.history + [x];
    assert history'[..|history'|] == history';
    CheckpointsGrow(c, st.history, st.outbox, x, reply);
  }

  lemma ExecuteNumbers(c: Config, st: State)
    requires c.Valid() && LogOk(c, st.h, st.H, st.log) && NumbersOk(c, st) && CanExecute(st)
    ensures NumbersOk(c, ExecuteOne(c, st))
  {
    var r := ExecuteOne(c, st);
    assert EntryOk(c, st.lastExec + 1, st.log[st.lastExec + 1]);
    assert r.h == st.h && r.H == st.H && r.seqNum == st.seqNum && r.view == st.view;
  }

  lemma ExecuteOneKeeps(c: Config, g: Regime, st: State)
    requires c.Valid() && Core(c, g, st) && CanExecute(st)
    ensures Core(c, g, ExecuteOne(c, st))
  {
    var p := Perform(c, st);
    PerformKeeps(c, g, st);
    TimerKeeps(c, g, p);
    MakeCheckpointKeeps(c, g, ManageTimer(c, p));
    CheckpointsKept(c, g, st);
    AnsweredKept(c, st);
    hide Base, CheckpointsOk, AllAnswered;
  }

  lemma CoreLog(c: Config, g: Regime, st: State)
    requires c.Valid() && Core(c, g, st)
    ensures LogOk(c, st.h, st.H, st.log)
  {
  }

  lemma {:induction false} TryExecuteKeeps(c: Config, g: Regime, st: State)
    requires c.Valid() && Core(c, g, st) && NumbersOk(c, st)
    ensures Core(c, g, TryExecute(c, st)) && NumbersOk(c, TryExecute(c, st))
    decreases Above(st.log, st.lastExec)
  {
    hide Core, Numbering, ExecuteOne;
    if CanExecute(st) {
      ExecuteOneKeeps(c, g, st);
      ExecuteNumbers(c, st) by { CoreLog(c, g, st); }
      AboveDrops(st.log, st.lastExec);
      TryExecuteKeeps(c, g, ExecuteOne(c, st));
    }
  }

  // ---------------------------------------------------------------- three phases

  ghost predicate SettledBut(c: Config, lastExec: nat, log: map<nat, Entry>, s: nat)
    requires c.Valid()
  {
    && (forall k :: k in log && k != s ==> SettledEntry(c, log[k]))
    && !(lastExec + 1 in log && log[lastExec + 1].stage == Committed)
  }

  /** The invariant, except that the votes for entry s have not been looked at yet. */
  ghost predicate Almost(c: Config, g: Regime, st: State, s: nat)
    requires c.Valid()
  {
    Core(c, g, st) && NumbersOk(c, st) && SettledBut(c, st.lastExec, st.log, s)
  }

  lemma AlmostOf(c: Config, g: Regime, st: State, s: nat)
    requires c.Valid() && Inv(c, g, st)
    ensures Core(c, g, st) && Almost(c, g, st, s)
  {
    hide Core, Numbering;
  }

  lemma PutAlmost(c: Config, g: Regime, st: State, s: nat, e: Entry)
    requires c.Valid() && Almost(c, g, st, s) && EntryFits(c, g, st, s, e)
    requires IsPrimary(c, st.view) && e.hasPrePrepare ==> s in st.log && st.log[s].hasPrePrepare
    requires e.stage == Committed ==> s != st.lastExec + 1
    ensures Almost(c, g, st.(log := st.log[s := e]), s)
  {
    hide Core, Numbering;
    PutKeeps(c, g, st, s, e);
    PutNumbers(c, st, s, e);
  }

  lemma SendAlmost(c: Config, g: Regime, st: State, m: Message, s: nat)
    requires c.Valid() && Almost(c, g, st, s) && MessageOk(c, g, st, m) && !m.Checkpoint?
    ensures Almost(c, g, Send(st, m), s)
  {
    hide Core, Numbering, SettledBut;
    SendKeeps(c, g, st, m);
  }

  lemma CommittedFits(c: Config, g: Regime, st: State, s: nat)
    requires c.Valid() && Core(c, g, st) && s in st.log
    requires st.log[s].stage == Prepared && |st.log[s].commits| >= 2 * c.F() + 1
    ensures EntryFits(c, g, st, s, st.log[s].(stage := Committed))
  {
    hide Core;
    OldEntryFits(c, g, st, s);
  }

  lemma TryCommitKeeps(c: Config, g: Regime, st: State, s: nat)
    requires c.Valid() && s in st.log && Almost(c, g, st, s)
    requires c.id in st.log[s].commits ==> st.log[s].stage in {Prepared, Committed}
    ensures Inv(c, g, TryCommit(c, st, s))
  {
    hide Core, Numbering, EntryFits, TryExecute, Extends, SameWindow, LogKept;
    var e := st.log[s];
    if e.stage == Prepared && |e.commits| >= 2 * c.F() + 1 {
      var e' := e.(stage := Committed);
      CommittedFits(c, g, st, s);
      PutKeeps(c, g, st, s, e');
      PutNumbers(c, st, s, e') by { OldEntryFits(c, g, st, s); InWindowKey(c, g, st, s); }
      TryExecuteKeeps(c, g, st.(log := st.log[s := e']));
    }
  }

  lemma InWindowKey(c: Config, g: Regime, st: State, s: nat)
    requires c.Valid() && Core(c, g, st) && s in st.log
    ensures st.h <= s <= st.H
    ensures st.log[s].stage == Prepared ==> st.log[s].hasPrePrepare
  {
  }

  lemma PreparedFits(c: Config, g: Regime, st: State, s: nat)
    requires c.Valid() && Core(c, g, st) && s in st.log
    requires st.log[s].hasPrePrepare && |st.log[s].prepares| >= 2 * c.F() && st.log[s].stage == PrePrepared
    requires HasCommit(st.outbox, s, st.log[s].digest, c.id)
    ensures EntryFits(c, g, st, s, st.log[s].(stage := Prepared, commits := st.log[s].commits + {c.id}))
  {
    hide Core, HasCommit, GotCommit, PreparesMatch;
    OldEntryFits(c, g, st, s);
    SamePrepares(c, g, st, s);
  }

  /** Only the prepares and the digest of an entry matter for the PREPAREs behind it. */
  lemma SamePrepares(c: Config, g: Regime, st: State, s: nat)
    requires s in st.log && PreparesMatch(c, g, s, st.log[s], st.inbox)
    ensures PreparesMatch(c, g, s, st.log[s].(stage := Prepared, commits := st.log[s].commits + {c.id}), st.inbox)
  {
  }

  lemma MarkPreparedKeeps(c: Config, g: Regime, st: State, s: nat)
    requires c.Valid() && s in st.log && Almost(c, g, st, s)
    requires st.log[s].hasPrePrepare && |st.log[s].prepares| >= 2 * c.F() && st.log[s].stage == PrePrepared
    ensures Almost(c, g, MarkPrepared(c, st, s), s)
  {
    hide Core, Numbering, SettledBut, PreparesMatch;
    var e := st.log[s];
    var m := CommitMsg(st.view, e.seqNum, e.digest, c.id);
    OldEntryFits(c, g, st, s);
    SendAlmost(c, g, st, Commit(m), s);
    var st1 := Send(st, Commit(m));
    assert st1.outbox[|st.outbox|] == Commit(m);
    assert HasCommit(st1.outbox, s, e.digest, c.id);
    hide EntryFits;
    PreparedFits(c, g, st1, s);
    var e' := e.(stage := Prepared, commits := e.commits + {c.id});
    PutAlmost(c, g, st1, s, e');
    assert MarkPrepared(c, st, s) == st1.(log := st1.log[s := e']);
  }

  lemma TryPrepareKeeps(c: Config, g: Regime, st: State, s: nat)
    requires c.Valid() && s in st.log && Almost(c, g, st, s)
    requires st.log[s].stage != PrePrepared ==> SettledEntry(c, st.log[s])
    ensures Inv(c, g, TryPrepare(c, st, s))
  {
    hide Core, Numbering;
    var e := st.log[s];
    OldEntryFits(c, g, st, s);
    if e.stage == PrePrepared && e.hasPrePrepare && |e.prepares| >= 2 * c.F() {
      MarkPreparedKeeps(c, g, st, s);
      TryCommitKeeps(c, g, MarkPrepared(c, st, s), s);
    }
  }

  lemma TouchKeeps(c: Config, g: Regime, st: State, s: nat)
    requires c.Valid() && Inv(c, g, st) && st.h <= s <= st.H
    ensures Inv(c, g, Touch(st, s))
  {
    hide Core, Numbering;
    OldEntryFits(c, g, st, s);
    PutAlmost(c, g, st, s, At(st.log, s));
  }

  /** Arming the timer or sending an unconstrained message keeps everything. */
  lemma StartTimerInv(c: Config, g: Regime, st: State)
    requires c.Valid() && Inv(c, g, st)
    ensures Inv(c, g, StartTimer(c, st))
  {
    hide Base;
    TimerKeeps(c, g, st);
  }

  lemma SendInv(c: Config, g: Regime, st: State, m: Message)
    requires c.Valid() && Inv(c, g, st) && MessageOk(c, g, st, m) && !m.Checkpoint?
    ensures Inv(c, g, Send(st, m))
  {
    hide Core, Numbering, Settled;
    SendKeeps(c, g, st, m);
  }

  /** The entry that an accepted pre-prepare leaves. */
  ghost function Accepted(c: Config, st: State, m: PrePrepareMsg): Entry {
    var e := At(st.log, m.seqNum);
    e.(view := m.view, seqNum := m.seqNum, digest := m.digest, req := m.req,
       hasPrePrepare := true, stage := PrePrepared, prepares := e.prepares + {c.id})
  }

  lemma AcceptedOk(c: Config, st: State, m: PrePrepareMsg)
    requires c.Valid() && EntryOk(c, m.seqNum, At(st.log, m.seqNum))
    ensures EntryOk(c, m.seqNum, Accepted(c, st, m))
  {
    SubsetSize(At(st.log, m.seqNum).prepares, Accepted(c, st, m).prepares);
  }

  lemma AcceptedFits(c: Config, g: Regime, st: State, m: PrePrepareMsg)
    requires c.Valid() && Core(c, g, st)
    requires st.h <= m.seqNum <= st.H && Fits(g, st.h, m)
    requires At(st.log, m.seqNum).hasPrePrepare ==> At(st.log, m.seqNum).digest == m.digest
    ensures EntryFits(c, g, st, m.seqNum, Accepted(c, st, m))
  {
    hide Core, GotPrepare, CommitKnown;
    OldEntryFits(c, g, st, m.seqNum);
    AcceptedOk(c, st, m);
    assert At(st.log, m.seqNum).commits != {} ==> At(st.log, m.seqNum).hasPrePrepare;
    hide EntryOk;
  }

  lemma AcceptKeeps(c: Config, g: Regime, st: State, m: PrePrepareMsg)
    requires c.Valid() && Inv(c, g, st) && !IsPrimary(c, st.view)
    requires st.h <= m.seqNum <= st.H && Fits(g, st.h, m)
    requires At(st.log, m.seqNum).hasPrePrepare ==> At(st.log, m.seqNum).digest == m.digest
    ensures Almost(c, g, Accept(c, st, m), m.seqNum)
  {
    hide Almost, Inv, EntryFits, Core;
    var st1 := StartTimer(c, st);
    StartTimerInv(c, g, st);
    AlmostOf(c, g, st1, m.seqNum);
    AcceptedFits(c, g, st1, m);
    PutAlmost(c, g, st1, m.seqNum, Accepted(c, st1, m));
    var st2 := st1.(log := st1.log[m.seqNum := Accepted(c, st1, m)]);
    SendAlmost(c, g, st2, Prepare(PrepareMsg(st.view, m.seqNum, m.digest, c.id)), m.seqNum);
  }

  lemma ProcessPrePrepareKeeps(c: Config, g: Regime, st: State, m: PrePrepareMsg)
    requires c.Valid() && Inv(c, g, st) && !IsPrimary(c, st.view) && Harmless(g, st, m)
    ensures Inv(c, g, ProcessPrePrepare(c, st, m))
  {
    hide Inv, Almost, SettledEntry;
    if InWindow(st, m.view, m.seqNum) {
      var e := At(st.log, m.seqNum);
      if e.hasPrePrepare && e.digest != m.digest {
        TouchKeeps(c, g, st, m.seqNum);
      } else {
        AcceptKeeps(c, g, st, m);
        TryPrepareKeeps(c, g, Accept(c, st, m), m.seqNum);
      }
    }
  }

  /** A PREPARE of j that may be counted for entry s. */
  ghost predicate Countable(c: Config, g: Regime, st: State, s: nat, j: nat) {
    && j < c.n && st.h <= s <= st.H
    && (g.ordered && j != c.id ==> At(st.log, s).hasPrePrepare && GotPrepare(st.inbox, s, At(st.log, s).digest, j))
  }

  lemma AddedPrepareFits(c: Config, g: Regime, st: State, s: nat, j: nat)
    requires c.Valid() && Core(c, g, st) && Countable(c, g, st, s, j)
    ensures EntryFits(c, g, st, s, AddPrepare(st, s, j).log[s])
  {
    hide Core, GotPrepare;
    OldEntryFits(c, g, st, s);
    SubsetSize(At(st.log, s).prepares, At(st.log, s).prepares + {j});
  }

  lemma AddPrepareAlmost(c: Config, g: Regime, st: State, s: nat, j: nat)
    requires c.Valid() && Inv(c, g, st) && Countable(c, g, st, s, j)
    ensures Almost(c, g, AddPrepare(st, s, j), s)
    ensures SettledEntry(c, AddPrepare(st, s, j).log[s])
  {
    hide Core, Numbering, EntryFits, GotPrepare;
    AddedPrepareFits(c, g, st, s, j);
    PutAlmost(c, g, st, s, AddPrepare(st, s, j).log[s]);
  }

  lemma ProcessPrepareKeeps(c: Config, g: Regime, st: State, m: PrepareMsg)
    requires c.Valid() && Inv(c, g, st) && m.replicaId < c.n && GotPrepare(st.inbox, m.seqNum, m.digest, m.replicaId)
    requires InWindow(st, m.view, m.seqNum) && g.ordered ==> At(st.log, m.seqNum).hasPrePrepare
    ensures Inv(c, g, ProcessPrepare(c, st, m))
  {
    hide Inv, Almost, SettledEntry, TryPrepare, GotPrepare;
    if InWindow(st, m.view, m.seqNum) {
      var e := At(st.log, m.seqNum);
      if e.hasPrePrepare && e.digest != m.digest {
        TouchKeeps(c, g, st, m.seqNum);
      } else {
        AddPrepareAlmost(c, g, st, m.seqNum, m.replicaId);
        TryPrepareKeeps(c, g, AddPrepare(st, m.seqNum, m.replicaId), m.seqNum);
      }
    }
  }

  lemma AddedCommitFits(c: Config, g: Regime, st: State, s: nat, j: nat)
    requires c.Valid() && Core(c, g, st) && j < c.n && j != c.id && s in st.log && st.log[s].hasPrePrepare
    requires CommitKnown(c, st.inbox, st.outbox, s, st.log[s].digest, j)
    ensures EntryFits(c, g, st, s, AddCommit(st, s, j).log[s])
  {
    hide Core, GotPrepare, CommitKnown;
    OldEntryFits(c, g, st, s);
    SubsetSize(At(st.log, s).commits, At(st.log, s).commits + {j});
  }

  lemma AddCommitKeeps(c: Config, g: Regime, st: State, s: nat, j: nat)
    requires c.Valid() && Inv(c, g, st) && j < c.n && j != c.id && s in st.log && st.log[s].hasPrePrepare
    requires CommitKnown(c, st.inbox, st.outbox, s, st.log[s].digest, j)
    ensures Inv(c, g, TryCommit(c, AddCommit(st, s, j), s))
  {
    hide Core, Numbering, EntryFits, CommitKnown, TryCommit;
    AddedCommitFits(c, g, st, s, j);
    PutAlmost(c, g, st, s, AddCommit(st, s, j).log[s]) by { InWindowKey(c, g, st, s); }
    TryCommitKeeps(c, g, AddCommit(st, s, j), s);
  }

  lemma OnCommitKeeps(c: Config, g: Regime, st: State, m: CommitMsg)
    requires c.Valid() && Inv(c, g, st) && m.replicaId < c.n && m.replicaId != c.id
    requires CommitKnown(c, st.inbox, st.outbox, m.seqNum, m.digest, m.replicaId)
    ensures Inv(c, g, OnCommit(c, st, m))
  {
    hide Inv, TryCommit;
    if InWindow(st, m.view, m.seqNum) {
      TouchKeeps(c, g, st, m.seqNum);
      var e := At(st.log, m.seqNum);
      if e.hasPrePrepare && e.digest == m.digest {
        AddCommitKeeps(c, g, st, m.seqNum, m.replicaId);
      }
    }
  }

  // ---------------------------------------------------------------- requests

  lemma {:induction false} LastAnswerIsAnswer(c: Config, history: seq<Executed>, client: nat)
    requires client in LastAnswers(c, history)
    ensures var a := LastAnswers(c, history)[client]; Answers(history, client, a.timestamp, a.result)
  {
    var n := |history| - 1;
    if history[n].req.clientId != client {
      LastAnswerIsAnswer(c, history[..n], client);
      var a := LastAnswers(c, history)[client];
      var k :| 0 <= k < n && history[..n][k].req.clientId == client
               && history[..n][k].req.timestamp == a.timestamp && history[..n][k].result == a.result;
      assert history[k] == history[..n][k];
    }
  }

  lemma RaiseKeeps(c: Config, g: Regime, st: State, s: nat)
    requires c.Valid() && Core(c, g, st) && st.seqNum < s
    ensures Core(c, g, st.(seqNum := s))
    ensures forall i :: 0 <= i < |st.outbox| && st.outbox[i].PrePrepare? ==> st.outbox[i].prePrepare.seqNum < s
  {
    hide LogOk, RegimeOk, HistoryOk, StableOk, TimerOk, PreparesKnown, CommitsKnown, HistoryKnown, VotesKnown, AnnouncementsOk, VotesLocked, CheckpointsOk, AllAnswered, RepliesOk, OneVote;
  }

  lemma AssignBase(c: Config, g: Regime, st: State, m: RequestMsg)
    requires c.Valid() && Core(c, g, st) && HashFits(c, g) && st.h <= st.seqNum < st.H
    requires !At(st.log, st.seqNum + 1).hasPrePrepare
    ensures Core(c, g, Assign(c, st, m))
  {
    hide Core, EntryFits;
    var s := st.seqNum + 1;
    RaiseKeeps(c, g, st, s);
    var st1 := st.(seqNum := s);
    var p := PrePrepareMsg(st.view, s, c.hash(m), m);
    AcceptedFits(c, g, st1, p);
    PutKeeps(c, g, st1, s, Accepted(c, st1, p));
    SendKeeps(c, g, st1.(log := st1.log[s := Accepted(c, st1, p)]), PrePrepare(p));
  }

  lemma SlotIsFree(c: Config, g: Regime, st: State)
    requires c.Valid() && Inv(c, g, st) && IsPrimary(c, st.view) && st.seqNum < st.H
    ensures !At(st.log, st.seqNum + 1).hasPrePrepare
    ensures At(st.log, st.seqNum + 1).commits == {}
  {
    hide Core;
    OldEntryFits(c, g, st, st.seqNum + 1);
  }

  lemma AssignKeeps(c: Config, g: Regime, st: State, m: RequestMsg)
    requires c.Valid() && Inv(c, g, st) && HashFits(c, g) && IsPrimary(c, st.view) && st.seqNum < st.H
    ensures Inv(c, g, Assign(c, st, m))
    ensures !At(st.log, st.seqNum + 1).hasPrePrepare
  {
    hide Core;
    SlotIsFree(c, g, st);
    AssignBase(c, g, st, m);
    assert st.seqNum + 1 in Assign(c, st, m).log;
  }

  lemma OnRequestKeeps(c: Config, g: Regime, st: State, m: RequestMsg)
    requires c.Valid() && Inv(c, g, st) && HashFits(c, g)
    ensures Inv(c, g, OnRequest(c, st, m))
  {
    if Answered(st, m) {
      LastAnswerIsAnswer(c, st.history, m.clientId);
      SendInv(c, g, st, Reply(ReplyMsg(st.view, m.timestamp, m.clientId, c.id, st.lastReplies[m.clientId].result)));
    } else {
      hide Core, Numbering, Settled;
      if st.viewChanging {
      } else if IsPrimary(c, st.view) {
        if !(st.seqNum < st.h || st.seqNum >= st.H || InProgress(st.log, m)) {
          AssignKeeps(c, g, st, m);
        }
      } else {
        StartTimerInv(c, g, st);
        SendInv(c, g, StartTimer(c, st), Request(m));
      }
    }
  }

  // ---------------------------------------------------------------- checkpoints

  /** The numbering survives the move of the window. */
  lemma StabiliseNumbers(c: Config, g: Regime, st: State, s: nat, d: Digest)
    requires c.Valid() && Core(c, g, st) && NumbersOk(c, st) && s >= st.h
    ensures NumbersOk(c, Stabilise(c, st, s, d))
    ensures st.seqNum <= Stabilise(c, st, s, d).seqNum
  {
    var r := Stabilise(c, st, s, d);
    if r.seqNum > st.lastExec && r.seqNum > s {
      assert r.seqNum in st.log;
      assert r.seqNum in r.log;
    }
    if st.seqNum > st.lastExec && st.seqNum > st.h {
      assert Highest(st.lastExec, st.h, st.log) in st.log.Keys;
    }
  }

  lemma CollectedLog(c: Config, g: Regime, st: State, s: nat)
    requires c.Valid() && Base(c, g, st) && s >= st.h
    ensures
      var log := map k | k in st.log && k > s :: st.log[k];
      && LogOk(c, s, s + c.L, log) && RegimeOk(g, s, log)
      && CommitsKnown(c, log, st.inbox, st.outbox) && VotesLocked(c, s, log, st.outbox)
      && PreparesKnown(c, g, log, st.inbox)
  {
    hide PreparesMatch, HistoryOk, HistoryKnown, RepliesOk, OneVote, AnnouncementsOk, TimerOk, VotesKnown, StableOk, AssignedOk;
  }

  lemma CollectedVotes(c: Config, st: State, s: nat, d: Digest)
    requires c.Valid() && s >= st.h && s in st.checkpoints
    requires |Voters(st.checkpoints[s].votes, d)| >= 2 * c.F() + 1
    requires VotesKnown(c, st.checkpoints, st.inbox, st.outbox)
    ensures
      var r := Stabilise(c, st, s, d);
      && VotesKnown(c, r.checkpoints, st.inbox, st.outbox)
      && StableOk(c, s, r.checkpoints, Some(d))
  {
    var r := Stabilise(c, st, s, d);
    hide VotersOk;
    assert forall k :: k in r.checkpoints ==> k in st.checkpoints && r.checkpoints[k].votes == st.checkpoints[k].votes;
  }

  lemma StabiliseKeeps(c: Config, g: Regime, st: State, s: nat, d: Digest)
    requires c.Valid() && Core(c, g, st) && s >= st.h && s in st.checkpoints
    requires |Voters(st.checkpoints[s].votes, d)| >= 2 * c.F() + 1
    requires st.seqNum <= Stabilise(c, st, s, d).seqNum
    ensures Core(c, g, Stabilise(c, st, s, d))
  {
    CollectedLog(c, g, st, s);
    CollectedVotes(c, st, s, d);
    hide HistoryOk, HistoryKnown, CheckpointsOk, AllAnswered, RepliesOk, OneVote, AnnouncementsOk, TimerOk,
         LogOk, RegimeOk, CommitsKnown, PreparesKnown, VotesLocked, VotesKnown, StableOk;
  }

  lemma VoteInv(c: Config, g: Regime, st: State, m: CheckpointMsg)
    requires c.Valid() && Inv(c, g, st) && m.replicaId < c.n && VoteKnown(c, st.inbox, st.outbox, m)
    ensures Inv(c, g, Vote(st, m))
  {
    hide Base;
    VoteBase(c, g, st, m);
  }

  lemma StabiliseQuiet(c: Config, st: State, s: nat, d: Digest)
    requires c.Valid() && Quiet(c, st) && s >= st.h
    ensures Quiet(c, Stabilise(c, st, s, d))
  {
    var r := Stabilise(c, st, s, d);
    assert forall k :: k in r.log ==> k in st.log && r.log[k] == st.log[k];
  }

  lemma StabiliseInv(c: Config, g: Regime, st: State, s: nat, d: Digest)
    requires c.Valid() && Inv(c, g, st) && s >= st.h && s in st.checkpoints
    requires |Voters(st.checkpoints[s].votes, d)| >= 2 * c.F() + 1
    ensures Inv(c, g, Stabilise(c, st, s, d))
  {
    hide Core, Numbering, Settled;
    StabiliseNumbers(c, g, st, s, d);
    StabiliseKeeps(c, g, st, s, d);
    StabiliseQuiet(c, st, s, d);
  }

  lemma OnCheckpointKeeps(c: Config, g: Regime, st: State, m: CheckpointMsg)
    requires c.Valid() && Inv(c, g, st) && m.replicaId < c.n && VoteKnown(c, st.inbox, st.outbox, m)
    ensures Inv(c, g, OnCheckpoint(c, st, m))
  {
    hide Inv;
    if m.seqNum >= st.h {
      VoteInv(c, g, st, m);
      var st1 := Vote(st, m);
      var cp := st1.checkpoints[m.seqNum];
      if !cp.stable && |Voters(cp.votes, m.digest)| >= 2 * c.F() + 1 {
        StabiliseInv(c, g, st1, m.seqNum, m.digest);
      }
    }
  }

  // ---------------------------------------------------------------- view changes

  /** Every vote in a C set comes from the recorded votes. */
  lemma {:induction false} ProofVotes(s: nat, votes: map<Digest, set<nat>>, order: seq<Digest>, q: nat, x: CheckpointMsg)
    requires x in CheckpointProof(s, votes, order, q)
    ensures x.seqNum == s && x.digest in order && x.replicaId in Voters(votes, x.digest)
  {
    if x !in VotesFor(s, order[0], Ascending(Voters(votes, order[0]))) {
      ProofVotes(s, votes, order[1..], q, x);
    }
  }

  /** If some visited digest has a quorum, the C set holds a whole quorum for some digest. */
  lemma {:induction false} ProofQuorum(s: nat, votes: map<Digest, set<nat>>, order: seq<Digest>, q: nat, d: Digest)
    returns (d': Digest)
    requires d in order && |Voters(votes, d)| >= q
    ensures |Backers(CheckpointProof(s, votes, order, q), s, d')| >= q
  {
    var C := CheckpointProof(s, votes, order, q);
    var voters := Voters(votes, order[0]);
    var first := VotesFor(s, order[0], Ascending(voters));
    if |voters| >= q {
      d' := order[0];
      forall j | j in voters ensures j in Backers(C, s, d') {
        assert CheckpointMsg(s, d', j) in first;
        assert CheckpointMsg(s, d', j) in C;
      }
      SubsetSize(voters, Backers(C, s, d'));
    } else {
      var rest := CheckpointProof(s, votes, order[1..], q);
      d' := ProofQuorum(s, votes, order[1..], q, d);
      forall j | j in Backers(rest, s, d') ensures j in Backers(C, s, d') {
        assert CheckpointMsg(s, d', j) in rest;
        assert CheckpointMsg(s, d', j) in C;
      }
      SubsetSize(Backers(rest, s, d'), Backers(C, s, d'));
    }
  }

  lemma ProofKnown(c: Config, st: State, order: seq<Digest>, x: CheckpointMsg)
    requires c.Valid() && Enumerates(order, VoteDigests(st))
    requires VotesKnown(c, st.checkpoints, st.inbox, st.outbox)
    requires x in ViewChangeOf(c, st, order).checkpointProof
    ensures x.replicaId < c.n && x.seqNum == st.h && VoteKnown(c, st.inbox, st.outbox, x)
  {
    var votes := VotesAt(st.checkpoints, st.h).votes;
    ProofVotes(st.h, votes, order, 2 * c.F() + 1, x);
    assert VotersOk(c, st.checkpoints[st.h].votes, st.h, st.inbox, st.outbox);
    assert x == CheckpointMsg(st.h, x.digest, x.replicaId);
  }

  lemma ProofCertified(c: Config, st: State, order: seq<Digest>)
    requires c.Valid() && Enumerates(order, VoteDigests(st)) && st.h > 0
    requires StableOk(c, st.h, st.checkpoints, st.lastStableDigest)
    ensures Certified(c, ViewChangeOf(c, st, order).checkpointProof, st.h)
  {
    hide CheckpointProof, PreparedProofs, Backers;
    var votes := VotesAt(st.checkpoints, st.h).votes;
    var d := ProofQuorum(st.h, votes, order, 2 * c.F() + 1, st.lastStableDigest.value);
  }

  lemma ViewChangeFits(c: Config, st: State, order: seq<Digest>)
    requires c.Valid() && Enumerates(order, VoteDigests(st))
    requires VotesKnown(c, st.checkpoints, st.inbox, st.outbox)
    requires StableOk(c, st.h, st.checkpoints, st.lastStableDigest)
    ensures ViewChangeOk(c, st.inbox, st.outbox, ViewChangeOf(c, st, order))
  {
    hide CheckpointProof, PreparedProofs, Certified, VoteKnown, VotesKnown, StableOk;
    forall x | x in ViewChangeOf(c, st, order).checkpointProof
      ensures x.replicaId < c.n && x.seqNum == st.h && VoteKnown(c, st.inbox, st.outbox, x)
    {
      ProofKnown(c, st, order, x);
    }
    if st.h > 0 {
      ProofCertified(c, st, order);
    }
  }

  lemma ManageTimerInv(c: Config, g: Regime, st: State)
    requires c.Valid() && Inv(c, g, st)
    ensures Inv(c, g, ManageTimer(c, st))
  {
    hide Base, CheckpointsOk;
    TimerKeeps(c, g, st);
    TimerOnly(c, st);
    hide ManageTimer;
  }

  lemma TimerOnly(c: Config, st: State)
    ensures ManageTimer(c, st) == st.(timer := ManageTimer(c, st).timer)
  {
  }

  /** Entering a view and renumbering from the log. */
  lemma EnterKeeps(c: Config, g: Regime, st: State, view: nat)
    requires c.Valid() && Inv(c, g, st) && view >= st.view
    requires (view == st.view && !st.viewChanging) || st.timer.None? || IsPrimary(c, view)
    ensures
      var r := st.(viewChanging := false, view := view, timeoutCount := 0, seqNum := Highest(st.lastExec, st.h, st.log));
      Inv(c, g, r)
  {
    var r := st.(viewChanging := false, view := view, timeoutCount := 0, seqNum := Highest(st.lastExec, st.h, st.log));
  }

  lemma InstallKeeps(c: Config, g: Regime, st: State, view: nat, V: seq<ViewChangeMsg>)
    requires c.Valid() && Inv(c, g, st) && view >= st.view && IsPrimary(c, view) && |V| >= 2 * c.F() + 1
    ensures Inv(c, g, Install(c, st, view, V))
  {
    hide Core, Numbering, Settled;
    var m := NewViewMsg(view, V, OSet(c.nullDigest, V, view));
    BuilderPassesValidator(c.F(), c.nullDigest, V, view);
    SendInv(c, g, st, NewView(m));
    var st1 := Send(st, NewView(m));
    EnterKeeps(c, g, st1, view);
    var st2 := st1.(viewChanging := false, view := view, timeoutCount := 0, seqNum := Highest(st1.lastExec, st1.h, st1.log));
    ManageTimerInv(c, g, st2);
    var st3 := Send(Entered(st, view), NewView(m));
    assert st2 == st3.(seqNum := Highest(st3.lastExec, st3.h, st3.log));
  }

  /** The view-change store is not constrained. */
  lemma StoreInv(c: Config, g: Regime, st: State, store: map<nat, map<nat, ViewChangeMsg>>)
    requires c.Valid() && Inv(c, g, st)
    ensures Inv(c, g, st.(vcStore := store))
  {
  }

  lemma OnViewChangeKeeps(c: Config, g: Regime, st: State, m: ViewChangeMsg)
    requires c.Valid() && Inv(c, g, st)
    ensures Inv(c, g, OnViewChange(c, st, m))
  {
    hide Inv;
    if m.nextView >= st.view && m.nextView % c.n == c.id {
      var store := (if m.nextView in st.vcStore then st.vcStore[m.nextView] else map[])[m.replicaId := m];
      var st1 := st.(vcStore := st.vcStore[m.nextView := store]);
      StoreInv(c, g, st, st1.vcStore);
      if |store| >= 2 * c.F() + 1 {
        InstallKeeps(c, g, st1, m.nextView, VSet(store));
      }
    }
  }

  /** Only an armed timer fires, so no view change is under way when one starts. */
  lemma SuspendInv(c: Config, g: Regime, st: State)
    requires c.Valid() && Inv(c, g, st) && st.timer.Some?
    ensures Inv(c, g, Suspended(st))
  {
  }

  lemma AnnounceInv(c: Config, g: Regime, st: State, order: seq<Digest>)
    requires c.Valid() && Inv(c, g, st) && Enumerates(order, VoteDigests(st))
    ensures MessageOk(c, g, st, ViewChange(ViewChangeOf(c, st, order)))
  {
    ViewChangeFits(c, st, order);
  }

  lemma StartViewChangeKeeps(c: Config, g: Regime, st: State, order: seq<Digest>)
    requires c.Valid() && Inv(c, g, st) && Possible(c, st, TimerFires(order))
    ensures Inv(c, g, StartViewChange(c, st, order))
  {
    hide Inv, MessageOk;
    var st1 := Suspended(st);
    var vc := ViewChangeOf(c, st1, order);
    SuspendInv(c, g, st);
    AnnounceInv(c, g, st1, order);
    SendInv(c, g, st1, ViewChange(vc));
    OnViewChangeKeeps(c, g, Send(st1, ViewChange(vc)), vc);
  }

  lemma {:induction false} ProcessAllKeeps(c: Config, g: Regime, st: State, pps: seq<PrePrepareMsg>)
    requires c.Valid() && Inv(c, g, st) && !IsPrimary(c, st.view) && AllHarmless(c, g, st, pps)
    ensures Inv(c, g, ProcessAll(c, st, pps))
  {
    hide Core, Numbering, Settled;
    if pps != [] {
      var init := pps[..|pps| - 1];
      assert forall k :: 0 <= k < |init| ==> init[..k] == pps[..k];
      ProcessAllKeeps(c, g, st, init);
      ProcessPrePrepareKeeps(c, g, ProcessAll(c, st, init), pps[|pps| - 1]);
    }
  }

  /** A backup's first half of entering a view, before the O set is processed. */
  lemma AdoptKeeps(c: Config, g: Regime, st: State, view: nat)
    requires c.Valid() && Inv(c, g, st) && st.viewChanging && view >= st.view && !IsPrimary(c, view)
    ensures Inv(c, g, Entered(st, view))
  {
  }

  lemma OnNewViewKeeps(c: Config, g: Regime, st: State, from: nat, m: NewViewMsg)
    requires c.Valid() && Inv(c, g, st) && from != c.id
    requires Joins(c, st, from, m) ==> AllHarmless(c, g, Entered(st, m.nextView), m.prePrepares)
    ensures Inv(c, g, OnNewView(c, st, from, m))
  {
    hide Core, Numbering, Settled;
    if Joins(c, st, from, m) {
      var st0 := Entered(st, m.nextView);
      AdoptKeeps(c, g, st, m.nextView);
      ProcessAllKeeps(c, g, st0, m.prePrepares);
      var st1 := ProcessAll(c, st0, m.prePrepares);
      EnterKeeps(c, g, st1, st1.view);
      var st2 := st1.(seqNum := Highest(st1.lastExec, st1.h, st1.log));
      assert st2 == st1.(viewChanging := false, view := st1.view, timeoutCount := 0, seqNum := Highest(st1.lastExec, st1.h, st1.log));
      ManageTimerInv(c, g, st2);
    }
  }

  // ---------------------------------------------------------------- events

  lemma DispatchKeeps(c: Config, g: Regime, st: State, from: nat, msg: Message)
    requires c.Valid() && Inv(c, g, st) && HashFits(c, g)
    requires Possible(c, st, Deliver(from, msg)) && Admits(c, g, st, from, msg)
    requires Packet(from, msg) in st.inbox
    ensures Inv(c, g, Dispatch(c, st, from, msg))
  {
    hide Inv, ProcessPrePrepare, ProcessPrepare, OnCommit, OnCheckpoint, OnViewChange, OnNewView, OnRequest;
    match msg
    case Request(m) => OnRequestKeeps(c, g, st, m);
    case Reply(_) =>
    case PrePrepare(m) =>
      if from == st.view % c.n {
        ProcessPrePrepareKeeps(c, g, st, m);
      }
    case Prepare(m) =>
      if from != st.view % c.n {
        assert m == PrepareMsg(m.view, m.seqNum, m.digest, m.replicaId);
        assert GotPrepare(st.inbox, m.seqNum, m.digest, from);
        ProcessPrepareKeeps(c, g, st, m);
      }
    case Commit(m) =>
      assert m == CommitMsg(m.view, m.seqNum, m.digest, m.replicaId);
      assert GotCommit(st.inbox, m.seqNum, m.digest, from);
      OnCommitKeeps(c, g, st, m);
    case Checkpoint(m) => OnCheckpointKeeps(c, g, st, m);
    case ViewChange(m) => OnViewChangeKeeps(c, g, st, m);
    case NewView(m) => OnNewViewKeeps(c, g, st, from, m);
  }

  /** One event keeps the invariant, whatever the sender. */
  lemma HandleKeeps(c: Config, g: Regime, st: State, ev: Event)
    requires c.Valid() && Inv(c, g, st) && HashFits(c, g)
    requires Possible(c, st, ev) && Obeys(c, g, st, ev)
    ensures Inv(c, g, Handle(c, st, ev))
  {
    hide Inv;
    match ev
    case Arrive(m) => OnRequestKeeps(c, g, st, m);
    case Deliver(from, msg) =>
      ReceiveKeeps(c, g, st, from, msg);
      DispatchKeeps(c, g, Receive(st, from, msg), from, msg);
    case TimerFires(order) => StartViewChangeKeeps(c, g, st, order);
  }

  lemma InitHolds(c: Config, g: Regime)
    requires c.Valid()
    ensures Inv(c, g, Init(c))
  {
    var st := Init(c);
    assert After(c.service, st.history) == c.service.init;
  }
}
