/** What single messages, and quorums of them, do to one backup. */
module Steps {
  import opened Messages
  import opened Collections
  import opened Handlers
  import opened Invariant
  import opened ReplicaRuns
  import opened Schedules

  /** At least one fault is tolerated. */
  ghost predicate Tolerant(c: Config) {
    c.Valid() && c.F() >= 1
  }

  /** The entry for proposal m. */
  ghost function Ballot(m: PrePrepareMsg, stage: Stage, prepares: set<nat>, commits: set<nat>): Entry {
    Entry(m.view, m.seqNum, m.digest, m.req, stage, true, prepares, commits)
  }

  /** Only entry s has changed, a running timer still runs, and messages may have been sent. */
  ghost predicate Became(st: State, st': State, s: nat, e: Entry) {
    && st' == st.(log := st.log[s := e], inbox := st'.inbox, outbox := st'.outbox, timer := st'.timer)
    && st.outbox <= st'.outbox
    && (st.timer.Some? ==> st'.timer.Some?)
  }

  lemma BecameTwice(st: State, st1: State, st2: State, s: nat, e1: Entry, e2: Entry)
    requires Became(st, st1, s, e1) && Became(st1, st2, s, e2)
    ensures Became(st, st2, s, e2)
  {
    assert st.log[s := e1][s := e2] == st.log[s := e2];
  }

  // ---------------------------------------------------------------- lists of voters

  ghost function Elements(ids: seq<nat>): set<nat> {
    set x | x in ids
  }

  /** A list of distinct ids outside v adds its length to the size of v. */
  lemma ElementsSize(v: set<nat>, ids: seq<nat>)
    requires Increasing(ids)
    ensures |v + Elements(ids)| <= |v| + |ids|
    ensures v !! Elements(ids) ==> |v + Elements(ids)| == |v| + |ids|
  {
    AscendingUnique(ids, Elements(ids));
    assert v + Elements(ids) == v + (Elements(ids) - v);
    SubsetSize(Elements(ids) - v, Elements(ids));
  }

  /** Distinct replicas other than this one. */
  ghost predicate Others(c: Config, ids: seq<nat>) {
    Increasing(ids) && forall j :: j in ids ==> j < c.n && j != c.id
  }

  lemma DropLast(c: Config, ids: seq<nat>)
    requires Others(c, ids) && ids != []
    ensures
      var front, j := ids[..|ids| - 1], ids[|ids| - 1];
      && Others(c, front) && j !in front && j < c.n && j != c.id
      && ids == front + [j] && Elements(ids) == Elements(front) + {j}
  {
    var front, j := ids[..|ids| - 1], ids[|ids| - 1];
    assert ids == front + [j];
    forall x | x in front ensures x in ids && x != j {
      var k :| 0 <= k < |front| && front[k] == x;
      assert ids[k] < ids[|ids| - 1];
    }
    assert j in ids;
  }

  /** k elements of a set other than i, in order, or none if there are not so many. */
  ghost function Pick(s: set<nat>, i: nat, k: nat): (q: seq<nat>)
    ensures Increasing(q)
    ensures forall j :: j in q ==> j in s && j != i
    ensures k < |s| || (k == |s| && i !in s) ==> |q| == k
  {
    var q := Ascending(s - {i});
    if k <= |q| then
      assert forall j :: j in q[..k] ==> j in q;
      q[..k]
    else []
  }

  // ---------------------------------------------------------------- pre-prepare

  ghost predicate HasAccepted(c: Config, st: State, st': State, m: PrePrepareMsg) {
    && Became(st, st', m.seqNum, Ballot(m, PrePrepared, {c.id}, {})) && st'.timer.Some?
    && Prepare(PrepareMsg(m.view, m.seqNum, m.digest, c.id)) in st'.outbox
  }

  lemma GetsPrePrepare(c: Config, g: Regime, st: State, m: PrePrepareMsg)
    requires Tolerant(c) && InWindow(st, m.view, m.seqNum) && m.seqNum !in st.log && !IsPrimary(c, m.view) && Fits(g, st.h, m)
    ensures
      var ev := Deliver(m.view % c.n, PrePrepare(m));
      var st' := Feed(c, st, [ev]);
      Feedable(c, g, st, [ev]) && HasAccepted(c, st, st', m)
  {
    var ev := Deliver(m.view % c.n, PrePrepare(m));
    FeedOne(c, g, st, ev);
    hide Feed, Feedable, Extends, SameWindow, LogKept;
    var st1 := Accept(c, Receive(st, ev.from, ev.msg), m);
    assert Handle(c, st, ev) == TryPrepare(c, st1, m.seqNum) by { hide TryPrepare; }
    hide Handle;
    assert st1.log[m.seqNum] == Ballot(m, PrePrepared, {c.id}, {});
    assert |{c.id}| == 1;
    assert TryPrepare(c, st1, m.seqNum) == st1;
    assert st1.outbox[|st.outbox|] == Prepare(PrepareMsg(m.view, m.seqNum, m.digest, c.id));
  }

  // ---------------------------------------------------------------- prepares

  ghost function PrepareBy(m: PrePrepareMsg, j: nat): Event {
    Deliver(j, Prepare(PrepareMsg(m.view, m.seqNum, m.digest, j)))
  }

  ghost function PreparesBy(m: PrePrepareMsg, ids: seq<nat>): (evs: seq<Event>)
    ensures forall ev :: ev in evs ==> ev.Deliver? && ev.from in ids && ev == PrepareBy(m, ev.from)
  {
    if ids == [] then [] else PreparesBy(m, ids[..|ids| - 1]) + [PrepareBy(m, ids[|ids| - 1])]
  }

  lemma GetsPrepare(c: Config, g: Regime, st: State, m: PrePrepareMsg, X: set<nat>, j: nat)
    requires Tolerant(c) && InWindow(st, m.view, m.seqNum) && m.seqNum in st.log
    requires st.log[m.seqNum] == Ballot(m, PrePrepared, X, {}) && |X + {j}| < 2 * c.F()
    requires j < c.n && j != c.id && j != m.view % c.n
    ensures Possible(c, st, PrepareBy(m, j)) && Obeys(c, g, st, PrepareBy(m, j))
    ensures Became(st, Handle(c, st, PrepareBy(m, j)), m.seqNum, Ballot(m, PrePrepared, X + {j}, {}))
  {
    hide Extends, SameWindow, LogKept;
    var st1 := AddPrepare(Receive(st, j, PrepareBy(m, j).msg), m.seqNum, j);
    assert TryPrepare(c, st1, m.seqNum) == st1;
  }

  lemma GetsCertificate(c: Config, g: Regime, st: State, m: PrePrepareMsg, X: set<nat>, j: nat)
    requires Tolerant(c) && InWindow(st, m.view, m.seqNum) && m.seqNum in st.log
    requires st.log[m.seqNum] == Ballot(m, PrePrepared, X, {}) && |X + {j}| >= 2 * c.F()
    requires j < c.n && j != c.id && j != m.view % c.n
    ensures Possible(c, st, PrepareBy(m, j)) && Obeys(c, g, st, PrepareBy(m, j))
    ensures
      var st' := Handle(c, st, PrepareBy(m, j));
      && Became(st, st', m.seqNum, Ballot(m, Prepared, X + {j}, {c.id}))
      && Commit(CommitMsg(m.view, m.seqNum, m.digest, c.id)) in st'.outbox
  {
    hide Extends, SameWindow, LogKept;
    var s := m.seqNum;
    var st1 := AddPrepare(Receive(st, j, PrepareBy(m, j).msg), s, j);
    assert Handle(c, st, PrepareBy(m, j)) == TryPrepare(c, st1, s);
    hide Handle;
    Prepares(c, st1, m, X + {j}, {});
  }

  /** The prepare test succeeds, with too few commits to go on. */
  lemma Prepares(c: Config, st: State, m: PrePrepareMsg, X: set<nat>, Y: set<nat>)
    requires Tolerant(c) && st.view == m.view && m.seqNum in st.log
    requires st.log[m.seqNum] == Ballot(m, PrePrepared, X, Y) && |X| >= 2 * c.F() && |Y + {c.id}| <= 2 * c.F()
    ensures
      var st' := TryPrepare(c, st, m.seqNum);
      && Became(st, st', m.seqNum, Ballot(m, Prepared, X, Y + {c.id}))
      && Commit(CommitMsg(m.view, m.seqNum, m.digest, c.id)) in st'.outbox
  {
    hide Extends, SameWindow, LogKept;
    var st' := MarkPrepared(c, st, m.seqNum);
    assert TryCommit(c, st', m.seqNum) == st';
    assert st'.outbox[|st.outbox|] == Commit(CommitMsg(m.view, m.seqNum, m.digest, c.id));
  }

  /** Fewer than 2f PREPAREs are only collected. */
  lemma {:induction false} FeedPrepares(c: Config, g: Regime, st: State, m: PrePrepareMsg, X: set<nat>, ids: seq<nat>)
    requires Tolerant(c) && InWindow(st, m.view, m.seqNum) && m.seqNum in st.log
    requires st.log[m.seqNum] == Ballot(m, PrePrepared, X, {})
    requires Others(c, ids) && m.view % c.n !in ids && |X| + |ids| < 2 * c.F()
    ensures Feedable(c, g, st, PreparesBy(m, ids))
    ensures Became(st, Feed(c, st, PreparesBy(m, ids)), m.seqNum, Ballot(m, PrePrepared, X + Elements(ids), {}))
  {
    hide Handle, Possible, Obeys, Ballot, Increasing;
    if ids == [] {
      assert X + Elements([]) == X;
      assert st.log[m.seqNum := st.log[m.seqNum]] == st.log;
    } else {
      var front, j := ids[..|ids| - 1], ids[|ids| - 1];
      DropLast(c, ids);
      ElementsSize(X, ids);
      FeedPrepares(c, g, st, m, X, front);
      FeedMore(c, g, st, PreparesBy(m, front), PrepareBy(m, j));
      var st1 := Feed(c, st, PreparesBy(m, front));
      hide Feed, Feedable;
      assert X + Elements(front) + {j} == X + Elements(ids);
      GetsPrepare(c, g, st1, m, X + Elements(front), j);
      var st2 := Handle(c, st1, PrepareBy(m, j));
      BecameTwice(st, st1, st2, m.seqNum, st1.log[m.seqNum], st2.log[m.seqNum]);
    }
  }

  ghost predicate HasPrepared(c: Config, st: State, st': State, m: PrePrepareMsg)
    requires c.Valid()
  {
    && m.seqNum in st'.log
    && Became(st, st', m.seqNum, Ballot(m, Prepared, st'.log[m.seqNum].prepares, {c.id}))
    && |st'.log[m.seqNum].prepares| >= 2 * c.F()
    && Commit(CommitMsg(m.view, m.seqNum, m.digest, c.id)) in st'.outbox
  }

  /** The PREPAREs of 2f-1 others make a replica that has accepted m prepare. */
  lemma FeedCertificate(c: Config, g: Regime, st: State, m: PrePrepareMsg, ids: seq<nat>)
    requires Tolerant(c) && InWindow(st, m.view, m.seqNum) && m.seqNum in st.log
    requires st.log[m.seqNum] == Ballot(m, PrePrepared, {c.id}, {})
    requires Others(c, ids) && m.view % c.n !in ids && |ids| == 2 * c.F() - 1
    ensures Feedable(c, g, st, PreparesBy(m, ids))
    ensures HasPrepared(c, st, Feed(c, st, PreparesBy(m, ids)), m)
  {
    hide Handle, Possible, Obeys, Increasing;
    var front, j := ids[..|ids| - 1], ids[|ids| - 1];
    DropLast(c, ids);
    ElementsSize({c.id}, ids);
    FeedPrepares(c, g, st, m, {c.id}, front);
    FeedMore(c, g, st, PreparesBy(m, front), PrepareBy(m, j));
    var st1 := Feed(c, st, PreparesBy(m, front));
    hide Feed, Feedable;
    assert {c.id} + Elements(front) + {j} == {c.id} + Elements(ids);
    assert {c.id} !! Elements(ids);
    hide Elements;
    GetsCertificate(c, g, st1, m, {c.id} + Elements(front), j);
    var st2 := Handle(c, st1, PrepareBy(m, j));
    BecameTwice(st, st1, st2, m.seqNum, st1.log[m.seqNum], st2.log[m.seqNum]);
  }

  // ---------------------------------------------------------------- commits

  ghost function CommitBy(m: PrePrepareMsg, j: nat): Event {
    Deliver(j, Commit(CommitMsg(m.view, m.seqNum, m.digest, j)))
  }

  ghost function CommitsBy(m: PrePrepareMsg, ids: seq<nat>): (evs: seq<Event>)
    ensures forall ev :: ev in evs ==> ev.Deliver? && ev.from in ids && ev == CommitBy(m, ev.from)
  {
    if ids == [] then [] else CommitsBy(m, ids[..|ids| - 1]) + [CommitBy(m, ids[|ids| - 1])]
  }

  lemma GetsCommit(c: Config, g: Regime, st: State, m: PrePrepareMsg, X: set<nat>, Y: set<nat>, j: nat)
    requires Tolerant(c) && InWindow(st, m.view, m.seqNum) && m.seqNum in st.log
    requires st.log[m.seqNum] == Ballot(m, Prepared, X, Y) && |Y + {j}| <= 2 * c.F()
    requires j < c.n && j != c.id
    ensures Possible(c, st, CommitBy(m, j)) && Obeys(c, g, st, CommitBy(m, j))
    ensures Became(st, Handle(c, st, CommitBy(m, j)), m.seqNum, Ballot(m, Prepared, X, Y + {j}))
  {
    hide Extends, SameWindow, LogKept;
    var st1 := AddCommit(Receive(st, j, CommitBy(m, j).msg), m.seqNum, j);
    assert TryCommit(c, st1, m.seqNum) == st1;
  }

  /** Up to 2f commits are only collected. */
  lemma {:induction false} FeedCommits(c: Config, g: Regime, st: State, m: PrePrepareMsg, X: set<nat>, Y: set<nat>, ids: seq<nat>)
    requires Tolerant(c) && InWindow(st, m.view, m.seqNum) && m.seqNum in st.log
    requires st.log[m.seqNum] == Ballot(m, Prepared, X, Y)
    requires Others(c, ids) && |Y| + |ids| <= 2 * c.F()
    ensures Feedable(c, g, st, CommitsBy(m, ids))
    ensures Became(st, Feed(c, st, CommitsBy(m, ids)), m.seqNum, Ballot(m, Prepared, X, Y + Elements(ids)))
  {
    hide Handle, Possible, Obeys, Ballot, Increasing;
    if ids == [] {
      assert Y + Elements([]) == Y;
      assert st.log[m.seqNum := st.log[m.seqNum]] == st.log;
    } else {
      var front, j := ids[..|ids| - 1], ids[|ids| - 1];
      DropLast(c, ids);
      ElementsSize(Y, ids);
      FeedCommits(c, g, st, m, X, Y, front);
      FeedMore(c, g, st, CommitsBy(m, front), CommitBy(m, j));
      var st1 := Feed(c, st, CommitsBy(m, front));
      hide Feed, Feedable;
      assert Y + Elements(front) + {j} == Y + Elements(ids);
      GetsCommit(c, g, st1, m, X, Y + Elements(front), j);
      var st2 := Handle(c, st1, CommitBy(m, j));
      BecameTwice(st, st1, st2, m.seqNum, st1.log[m.seqNum], st2.log[m.seqNum]);
    }
  }

  /** The request of m was executed as the next number, and nothing else. */
  ghost predicate Ran(c: Config, st: State, st': State, m: PrePrepareMsg)
    requires c.Valid()
  {
    var service := c.service.execute(st.service, m.req.operation).0;
    var cp := VotesAt(st.checkpoints, m.seqNum);
    var d := c.service.digest(service);
    && st'.view == st.view && st'.viewChanging == st.viewChanging && st'.h == st.h && st'.H == st.H
    && st'.log.Keys == st.log.Keys && st.outbox <= st'.outbox
    && st'.lastExec == m.seqNum && st'.service == service
    && |st'.history| == |st.history| + 1 && st.history <= st'.history
    && st'.history[|st.history|].digest == m.digest && st'.history[|st.history|].req == m.req
    && if m.seqNum % c.K == 0
       then
         && st'.checkpoints == st.checkpoints[m.seqNum := cp.(votes := cp.votes[d := Voters(cp.votes, d) + {c.id}])]
         && Checkpoint(CheckpointMsg(m.seqNum, d, c.id)) in st'.outbox
       else st'.checkpoints == st.checkpoints
  }

  lemma Executes(c: Config, st: State, m: PrePrepareMsg)
    requires Tolerant(c) && CanExecute(st) && m.seqNum == st.lastExec + 1
    requires st.log[m.seqNum].digest == m.digest && st.log[m.seqNum].req == m.req
    ensures Ran(c, st, ExecuteOne(c, st), m)
  {
    hide Extends, SameWindow, LogKept;
    var st1 := Perform(c, st);
    var st2 := ManageTimer(c, st1);
    hide ManageTimer;
    if m.seqNum % c.K == 0 {
      assert MakeCheckpoint(c, st2).outbox[|st2.outbox|] ==
             Checkpoint(CheckpointMsg(m.seqNum, c.service.digest(st2.service), c.id));
    }
  }

  lemma RanAfter(c: Config, st: State, st1: State, st2: State, m: PrePrepareMsg, e: Entry)
    requires c.Valid() && m.seqNum in st.log && Became(st, st1, m.seqNum, e) && Ran(c, st1, st2, m)
    ensures Ran(c, st, st2, m)
  {
    assert st1.log.Keys == st.log.Keys;
  }

  /** One more commit completes the quorum. */
  lemma GetsQuorum(c: Config, g: Regime, st: State, m: PrePrepareMsg, X: set<nat>, Y: set<nat>, j: nat)
    requires Tolerant(c) && InWindow(st, m.view, m.seqNum) && m.seqNum in st.log
    requires st.log[m.seqNum] == Ballot(m, Prepared, X, Y) && |Y + {j}| > 2 * c.F()
    requires m.seqNum == st.lastExec + 1 && m.seqNum + 1 !in st.log
    requires j < c.n && j != c.id
    ensures Possible(c, st, CommitBy(m, j)) && Obeys(c, g, st, CommitBy(m, j))
    ensures Ran(c, st, Handle(c, st, CommitBy(m, j)), m)
  {
    hide Extends, SameWindow, LogKept, ExecuteOne;
    var s := m.seqNum;
    var st1 := AddCommit(Receive(st, j, CommitBy(m, j).msg), s, j);
    var st2 := st1.(log := st1.log[s := st1.log[s].(stage := Committed)]);
    assert Handle(c, st, CommitBy(m, j)) == TryExecute(c, st2) by { hide TryExecute; }
    assert TryExecute(c, st2) == ExecuteOne(c, st2) by { hide Handle, Dispatch, Ran; }
    hide Handle, TryExecute;
    Executes(c, st2, m);
  }

  /** The commits of 2f+1 replicas in all execute the request. */
  lemma FeedQuorum(c: Config, g: Regime, st: State, m: PrePrepareMsg, X: set<nat>, Y: set<nat>, ids: seq<nat>)
    requires Tolerant(c) && InWindow(st, m.view, m.seqNum) && m.seqNum in st.log
    requires st.log[m.seqNum] == Ballot(m, Prepared, X, Y) && m.seqNum == st.lastExec + 1 && m.seqNum + 1 !in st.log
    requires Others(c, ids) && ids != [] && Y !! Elements(ids) && |Y| + |ids| == 2 * c.F() + 1
    ensures Feedable(c, g, st, CommitsBy(m, ids))
    ensures Ran(c, st, Feed(c, st, CommitsBy(m, ids)), m)
  {
    hide Handle, Possible, Obeys, Ballot, Increasing;
    var front, j := ids[..|ids| - 1], ids[|ids| - 1];
    DropLast(c, ids);
    ElementsSize(Y, ids);
    FeedCommits(c, g, st, m, X, Y, front);
    FeedMore(c, g, st, CommitsBy(m, front), CommitBy(m, j));
    var st1 := Feed(c, st, CommitsBy(m, front));
    hide Feed, Feedable, Ran;
    assert Y + Elements(front) + {j} == Y + Elements(ids);
    hide Elements;
    GetsQuorum(c, g, st1, m, X, Y + Elements(front), j);
    RanAfter(c, st, st1, Handle(c, st1, CommitBy(m, j)), m, st1.log[m.seqNum]);
  }

  // ---------------------------------------------------------------- checkpoint votes

  /** The votes for checkpoint s are v, all for digest d. */
  ghost predicate Polled(st: State, s: nat, d: Digest, v: set<nat>) {
    st.h < s && VotesAt(st.checkpoints, s) == CheckpointVotes(if v == {} then map[] else map[d := v], false)
  }

  ghost function VoteBy(s: nat, d: Digest, j: nat): Event {
    Deliver(j, Checkpoint(CheckpointMsg(s, d, j)))
  }

  ghost function VotesBy(s: nat, d: Digest, ids: seq<nat>): (evs: seq<Event>)
    ensures forall ev :: ev in evs ==> ev.Deliver? && ev.from in ids && ev == VoteBy(s, d, ev.from)
  {
    if ids == [] then [] else VotesBy(s, d, ids[..|ids| - 1]) + [VoteBy(s, d, ids[|ids| - 1])]
  }

  /** Only votes were recorded. */
  ghost predicate Polling(st: State, st': State) {
    st' == st.(checkpoints := st'.checkpoints, inbox := st'.inbox)
  }

  lemma Recorded(st: State, s: nat, d: Digest, v: set<nat>, j: nat)
    requires Polled(st, s, d, v)
    ensures VotesAt(Vote(st, CheckpointMsg(s, d, j)).checkpoints, s) == CheckpointVotes(map[d := v + {j}], false)
  {
    assert {} + {j} == {j};
  }

  lemma GetsVote(c: Config, g: Regime, st: State, s: nat, d: Digest, v: set<nat>, j: nat)
    requires Tolerant(c) && Polled(st, s, d, v) && |v + {j}| <= 2 * c.F() && j < c.n && j != c.id
    ensures Possible(c, st, VoteBy(s, d, j)) && Obeys(c, g, st, VoteBy(s, d, j))
    ensures Polled(Handle(c, st, VoteBy(s, d, j)), s, d, v + {j}) && Polling(st, Handle(c, st, VoteBy(s, d, j)))
  {
    hide Extends, SameWindow, LogKept, Stabilise;
    var st0 := Receive(st, j, VoteBy(s, d, j).msg);
    Recorded(st0, s, d, v, j);
    assert Handle(c, st, VoteBy(s, d, j)) == OnCheckpoint(c, st0, CheckpointMsg(s, d, j)) by { hide OnCheckpoint; }
    hide Handle;
    assert Polling(st0, Vote(st0, CheckpointMsg(s, d, j)));
    assert Voters(map[d := v + {j}], d) == v + {j};
    hide Vote;
  }

  lemma {:induction false} FeedVotes(c: Config, g: Regime, st: State, s: nat, d: Digest, v: set<nat>, ids: seq<nat>)
    requires Tolerant(c) && Polled(st, s, d, v) && Others(c, ids) && |v| + |ids| <= 2 * c.F()
    ensures Feedable(c, g, st, VotesBy(s, d, ids))
    ensures Polled(Feed(c, st, VotesBy(s, d, ids)), s, d, v + Elements(ids)) && Polling(st, Feed(c, st, VotesBy(s, d, ids)))
  {
    hide Handle, Possible, Obeys, Ballot, Increasing;
    if ids == [] {
      assert v + Elements([]) == v;
    } else {
      var front, j := ids[..|ids| - 1], ids[|ids| - 1];
      DropLast(c, ids);
      ElementsSize(v, ids);
      FeedVotes(c, g, st, s, d, v, front);
      FeedMore(c, g, st, VotesBy(s, d, front), VoteBy(s, d, j));
      assert v + Elements(front) + {j} == v + Elements(ids);
      GetsVote(c, g, Feed(c, st, VotesBy(s, d, front)), s, d, v + Elements(front), j);
    }
  }

  /** The checkpoint at s has become stable: everything up to s is gone from the log. */
  ghost predicate Collected(c: Config, st: State, st': State, s: nat) {
    && st'.view == st.view && st'.viewChanging == st.viewChanging && st'.h == s && st'.H == s + c.L
    && st'.lastExec == st.lastExec && st'.history == st.history && st'.service == st.service
    && st'.outbox == st.outbox
    && forall k :: k in st'.log ==> k in st.log && k > s
  }

  lemma CollectedAfter(c: Config, st: State, st1: State, st2: State, s: nat)
    requires Polling(st, st1) && Collected(c, st1, st2, s)
    ensures Collected(c, st, st2, s)
  {
  }

  lemma GetsStable(c: Config, g: Regime, st: State, s: nat, d: Digest, v: set<nat>, j: nat)
    requires Tolerant(c) && Polled(st, s, d, v) && |v + {j}| > 2 * c.F() && j < c.n && j != c.id
    ensures Possible(c, st, VoteBy(s, d, j)) && Obeys(c, g, st, VoteBy(s, d, j))
    ensures Collected(c, st, Handle(c, st, VoteBy(s, d, j)), s)
  {
    hide Extends, SameWindow, LogKept, Highest;
  }

  /** The votes of 2f+1 replicas in all make the checkpoint stable. */
  lemma FeedStable(c: Config, g: Regime, st: State, s: nat, d: Digest, v: set<nat>, ids: seq<nat>)
    requires Tolerant(c) && Polled(st, s, d, v) && Others(c, ids)
    requires ids != [] && v !! Elements(ids) && |v| + |ids| == 2 * c.F() + 1
    ensures Feedable(c, g, st, VotesBy(s, d, ids))
    ensures Collected(c, st, Feed(c, st, VotesBy(s, d, ids)), s)
  {
    hide Handle, Possible, Obeys, Ballot, Increasing;
    var front, j := ids[..|ids| - 1], ids[|ids| - 1];
    DropLast(c, ids);
    ElementsSize(v, ids);
    FeedVotes(c, g, st, s, d, v, front);
    FeedMore(c, g, st, VotesBy(s, d, front), VoteBy(s, d, j));
    var st1 := Feed(c, st, VotesBy(s, d, front));
    hide Feed, Feedable;
    assert v + Elements(front) + {j} == v + Elements(ids);
    hide Elements, Polled, Collected;
    GetsStable(c, g, st1, s, d, v + Elements(front), j);
    CollectedAfter(c, st, st1, Handle(c, st1, VoteBy(s, d, j)), s);
  }
}
