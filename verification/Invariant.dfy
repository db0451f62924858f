/**
 * What holds of a single replica after every event, whatever the network and the
 * other replicas do. Each part speaks only of the fields it needs.
 */
module Invariant {
  import opened Messages
  import opened Collections
  import opened NewViews
  import opened Handlers

  /**
   * Hypotheses on the messages that a run lets in. `strict`: no pre-prepare is for the
   * low watermark itself. `faithful`: a pre-prepare carries the request its digest stands
   * for. `ordered`: no PREPARE comes before its pre-prepare. A message that the receiver
   * drops is free of them.
   */
  datatype Regime = Regime(strict: bool, faithful: bool, ordered: bool, reqOf: Digest -> RequestMsg)

  ghost predicate Fits(g: Regime, h: nat, m: PrePrepareMsg) {
    && (g.strict ==> m.seqNum != h)
    && (g.faithful ==> m.req == g.reqOf(m.digest))
  }

  /** If the pre-prepare is let in, it obeys the hypotheses. */
  ghost predicate Harmless(g: Regime, st: State, m: PrePrepareMsg) {
    LetIn(st, m) ==> Fits(g, st.h, m)
  }

  /** The same for each element of an O set, at the moment its turn comes. */
  ghost predicate AllHarmless(c: Config, g: Regime, st: State, pps: seq<PrePrepareMsg>)
    requires c.Valid()
  {
    forall k :: 0 <= k < |pps| ==> Harmless(g, ProcessAll(c, st, pps[..k]), pps[k])
  }

  /** The message obeys the hypotheses at the replica that is about to handle it. */
  ghost predicate Admits(c: Config, g: Regime, st: State, from: nat, msg: Message)
    requires c.Valid()
  {
    match msg
    case PrePrepare(m) => from == st.view % c.n ==> Harmless(g, st, m)
    case Prepare(m) =>
      g.ordered && from != st.view % c.n && InWindow(st, m.view, m.seqNum) ==> At(st.log, m.seqNum).hasPrePrepare
    case NewView(m) => Joins(c, st, from, m) ==> AllHarmless(c, g, Entered(st, m.nextView), m.prePrepares)
    case _ => true
  }

  ghost predicate Obeys(c: Config, g: Regime, st: State, ev: Event)
    requires c.Valid()
  {
    ev.Deliver? ==> Admits(c, g, Receive(st, ev.from, ev.msg), ev.from, ev.msg)
  }

  /** Under `faithful`, the primary's own hashes are digests of their requests. */
  ghost predicate HashFits(c: Config, g: Regime) {
    g.faithful ==> forall r :: g.reqOf(c.hash(r)) == r
  }

  // ---------------------------------------------------------------- the log

  ghost predicate EntryOk(c: Config, s: nat, e: Entry)
    requires c.Valid()
  {
    && (e.hasPrePrepare <==> e.stage != NoStage)
    && (e.hasPrePrepare ==> e.seqNum == s && c.id in e.prepares)
    && (e.commits != {} ==> e.hasPrePrepare)
    && e.prepares <= Ids(c.n) && e.commits <= Ids(c.n)
    && (e.stage in {Prepared, Committed} ==> c.id in e.commits)
    && (c.id in e.commits ==> |e.prepares| >= 2 * c.F())
    && (e.stage == Committed ==> |e.commits| >= 2 * c.F() + 1)
  }

  ghost predicate LogOk(c: Config, h: nat, H: nat, log: map<nat, Entry>)
    requires c.Valid()
  {
    && H == h + c.L
    && forall s :: s in log ==> h <= s <= H && EntryOk(c, s, log[s])
  }

  ghost predicate RegimeOk(g: Regime, h: nat, log: map<nat, Entry>) {
    forall s :: s in log && log[s].hasPrePrepare ==>
      && (g.strict ==> s > h)
      && (g.faithful ==> log[s].req == g.reqOf(log[s].digest))
  }

  // ---------------------------------------------------------------- votes

  ghost predicate HasCommit(outbox: seq<Message>, s: nat, d: Digest, j: nat) {
    exists v: nat :: Commit(CommitMsg(v, s, d, j)) in outbox
  }

  ghost predicate GotCommit(inbox: set<Packet>, s: nat, d: Digest, j: nat) {
    exists v: nat :: Packet(j, Commit(CommitMsg(v, s, d, j))) in inbox
  }

  /** j has sent a COMMIT for (s, d), as far as this replica can know. */
  ghost predicate CommitKnown(c: Config, inbox: set<Packet>, outbox: seq<Message>, s: nat, d: Digest, j: nat) {
    if j == c.id then HasCommit(outbox, s, d, j) else GotCommit(inbox, s, d, j)
  }

  /** Every member of a commit set really sent a COMMIT for the digest of the entry. */
  ghost predicate CommitsKnown(c: Config, log: map<nat, Entry>, inbox: set<Packet>, outbox: seq<Message>) {
    forall s, j :: s in log && j in log[s].commits ==> CommitKnown(c, inbox, outbox, s, log[s].digest, j)
  }

  ghost predicate GotPrepare(inbox: set<Packet>, s: nat, d: Digest, j: nat) {
    exists v: nat :: Packet(j, Prepare(PrepareMsg(v, s, d, j))) in inbox
  }

  /** Under `ordered`, every other member of a prepare set sent a PREPARE for the digest of the entry. */
  ghost predicate PreparesMatch(c: Config, g: Regime, s: nat, e: Entry, inbox: set<Packet>) {
    g.ordered ==> forall j :: j in e.prepares && j != c.id ==> e.hasPrePrepare && GotPrepare(inbox, s, e.digest, j)
  }

  ghost predicate PreparesKnown(c: Config, g: Regime, log: map<nat, Entry>, inbox: set<Packet>) {
    forall s :: s in log ==> PreparesMatch(c, g, s, log[s], inbox)
  }

  /** The digest lock: above h_, all votes cast for s are for the digest in the log. */
  ghost predicate Locked(c: Config, h: nat, log: map<nat, Entry>, s: nat, d: Digest, voter: nat) {
    voter == c.id && (s > h ==> s in log && log[s].hasPrePrepare && log[s].digest == d)
  }

  ghost predicate VotesLocked(c: Config, h: nat, log: map<nat, Entry>, outbox: seq<Message>) {
    forall i :: 0 <= i < |outbox| ==>
      && (outbox[i].Prepare? ==> Locked(c, h, log, outbox[i].prepare.seqNum, outbox[i].prepare.digest, outbox[i].prepare.replicaId))
      && (outbox[i].Commit? ==> Locked(c, h, log, outbox[i].commit.seqNum, outbox[i].commit.digest, outbox[i].commit.replicaId))
  }

  /** Under `strict`, the lock outlives garbage collection. */
  ghost predicate OneVote(g: Regime, outbox: seq<Message>) {
    g.strict ==>
      forall i, j :: 0 <= i < |outbox| && 0 <= j < |outbox| && outbox[i].Commit? && outbox[j].Commit?
                     && outbox[i].commit.seqNum == outbox[j].commit.seqNum ==>
        outbox[i].commit.digest == outbox[j].commit.digest
  }

  // ---------------------------------------------------------------- execution

  /** The service after executing a history: a fold of `execute`. */
  ghost function After(service: Service, history: seq<Executed>): ServiceState {
    if history == [] then service.init
    else service.execute(After(service, history[..|history| - 1]), history[|history| - 1].req.operation).0
  }

  ghost predicate StepOk(c: Config, g: Regime, history: seq<Executed>, k: nat)
    requires c.Valid() && k < |history|
  {
    && history[k].result == c.service.execute(After(c.service, history[..k]), history[k].req.operation).1
    && history[k].committers <= Ids(c.n) && |history[k].committers| >= 2 * c.F() + 1
    && (g.faithful ==> history[k].req == g.reqOf(history[k].digest))
  }

  ghost predicate HistoryOk(c: Config, g: Regime, lastExec: nat, service: ServiceState, history: seq<Executed>)
    requires c.Valid()
  {
    && |history| == lastExec
    && service == After(c.service, history)
    && forall k :: 0 <= k < |history| ==> StepOk(c, g, history, k)
  }

  /** Every executed request was committed by a quorum, for its number and digest. */
  ghost predicate HistoryKnown(c: Config, history: seq<Executed>, inbox: set<Packet>, outbox: seq<Message>) {
    forall k, j :: 0 <= k < |history| && j in history[k].committers ==>
      CommitKnown(c, inbox, outbox, k + 1, history[k].digest, j)
  }

  // ---------------------------------------------------------------- checkpoints

  ghost function DigestAt(service: Service, history: seq<Executed>, s: nat): Digest
    requires s <= |history|
  {
    service.digest(After(service, history[..s]))
  }

  /** Checkpoints are announced exactly at the executed multiples of K_, with the digest of that prefix. */
  ghost predicate CheckpointsOk(c: Config, history: seq<Executed>, outbox: seq<Message>)
    requires c.Valid()
  {
    && (forall i :: 0 <= i < |outbox| && outbox[i].Checkpoint? ==>
          var m := outbox[i].checkpoint;
          m.replicaId == c.id && 0 < m.seqNum <= |history| && m.seqNum % c.K == 0 && m.digest == DigestAt(c.service, history, m.seqNum))
    && (forall s {:trigger DigestAt(c.service, history, s)} :: 0 < s <= |history| && s % c.K == 0 ==>
          Checkpoint(CheckpointMsg(s, DigestAt(c.service, history, s), c.id)) in outbox)
  }

  ghost predicate VoteKnown(c: Config, inbox: set<Packet>, outbox: seq<Message>, m: CheckpointMsg) {
    if m.replicaId == c.id then Checkpoint(m) in outbox else Packet(m.replicaId, Checkpoint(m)) in inbox
  }

  ghost predicate VotersOk(c: Config, votes: map<Digest, set<nat>>, s: nat, inbox: set<Packet>, outbox: seq<Message>) {
    forall d, j :: d in votes && j in votes[d] ==> j < c.n && VoteKnown(c, inbox, outbox, CheckpointMsg(s, d, j))
  }

  /** Every recorded checkpoint vote was really cast. */
  ghost predicate VotesKnown(c: Config, checkpoints: map<nat, CheckpointVotes>, inbox: set<Packet>, outbox: seq<Message>) {
    forall s :: s in checkpoints ==> VotersOk(c, checkpoints[s].votes, s, inbox, outbox)
  }

  /** The votes that made h_ stable are still there. */
  ghost predicate StableOk(c: Config, h: nat, checkpoints: map<nat, CheckpointVotes>, d: Option<Digest>)
    requires c.Valid()
  {
    h > 0 ==>
      && d.Some? && h in checkpoints && checkpoints[h].stable
      && |Voters(checkpoints[h].votes, d.value)| >= 2 * c.F() + 1
  }

  // ---------------------------------------------------------------- replies

  ghost predicate Answers(history: seq<Executed>, client: nat, timestamp: nat, result: Bytes) {
    exists k :: && 0 <= k < |history| && history[k].req.clientId == client
                && history[k].req.timestamp == timestamp && history[k].result == result
  }

  /** The last answer given to each client in a history. */
  ghost function LastAnswers(c: Config, history: seq<Executed>): map<nat, ReplyInfo> {
    if history == [] then map[] else
      var x := history[|history| - 1];
      LastAnswers(c, history[..|history| - 1])[x.req.clientId := ReplyInfo(x.req.timestamp, c.id, x.result)]
  }

  /** The answer to an executed request was sent. */
  ghost predicate WasAnswered(c: Config, x: Executed, outbox: seq<Message>) {
    exists v: nat :: Reply(ReplyMsg(v, x.req.timestamp, x.req.clientId, c.id, x.result)) in outbox
  }

  ghost predicate AllAnswered(c: Config, history: seq<Executed>, outbox: seq<Message>) {
    forall k :: 0 <= k < |history| ==> WasAnswered(c, history[k], outbox)
  }

  ghost predicate RepliesOk(c: Config, lastReplies: map<nat, ReplyInfo>, history: seq<Executed>, outbox: seq<Message>) {
    && lastReplies == LastAnswers(c, history)
    && forall i :: 0 <= i < |outbox| && outbox[i].Reply? ==>
         var m := outbox[i].reply;
         m.replicaId == c.id && Answers(history, m.clientId, m.timestamp, m.result)
  }

  // ---------------------------------------------------------------- numbering

  ghost predicate Numbering(c: Config, view: nat, seqNum: nat, lastExec: nat, h: nat, H: nat, log: map<nat, Entry>)
    requires c.Valid()
  {
    && h <= seqNum <= H && lastExec <= H
    && seqNum <= Highest(lastExec, h, log)
    && (IsPrimary(c, view) ==>
          && lastExec <= seqNum
          && forall s :: s in log && log[s].hasPrePrepare ==> s <= seqNum)
  }

  ghost predicate NumbersOk(c: Config, st: State)
    requires c.Valid()
  {
    Numbering(c, st.view, st.seqNum, st.lastExec, st.h, st.H, st.log)
  }

  /** The numbers given out in on_request grow along the outbox and never pass seq_num_. */
  ghost predicate AssignedOk(seqNum: nat, outbox: seq<Message>) {
    && (forall i :: 0 <= i < |outbox| && outbox[i].PrePrepare? ==> outbox[i].prePrepare.seqNum <= seqNum)
    && (forall i, j :: 0 <= i < j < |outbox| && outbox[i].PrePrepare? && outbox[j].PrePrepare? ==>
          outbox[i].prePrepare.seqNum < outbox[j].prePrepare.seqNum)
  }

  // ---------------------------------------------------------------- view changes and the timer

  ghost predicate TimerOk(c: Config, viewChanging: bool, count: nat, timer: Option<real>) {
    && count == (if viewChanging then 1 else 0)
    && (viewChanging ==> timer.None?)
    && (timer.Some? ==> timer.value == Delay(c, 0))
  }

  /** The ids whose vote for (s, d) is in a C set. */
  ghost function Backers(C: seq<CheckpointMsg>, s: nat, d: Digest): set<nat> {
    set x | x in C && x.seqNum == s && x.digest == d :: x.replicaId
  }

  ghost predicate Certified(c: Config, C: seq<CheckpointMsg>, s: nat)
    requires c.Valid()
  {
    exists d :: |Backers(C, s, d)| >= 2 * c.F() + 1
  }

  ghost predicate ViewChangeOk(c: Config, inbox: set<Packet>, outbox: seq<Message>, m: ViewChangeMsg)
    requires c.Valid()
  {
    && m.replicaId == c.id
    && (forall x :: x in m.checkpointProof ==> x.replicaId < c.n && x.seqNum == m.lastStable && VoteKnown(c, inbox, outbox, x))
    && (m.lastStable > 0 ==> Certified(c, m.checkpointProof, m.lastStable))
  }

  ghost predicate AnnouncementsOk(c: Config, inbox: set<Packet>, outbox: seq<Message>)
    requires c.Valid()
  {
    forall i :: 0 <= i < |outbox| ==>
      && (outbox[i].ViewChange? ==> ViewChangeOk(c, inbox, outbox, outbox[i].viewChange))
      && (outbox[i].NewView? ==> Acceptable(c.F(), outbox[i].newView))
  }

  // ---------------------------------------------------------------- all together

  /** Holds after every update a handler makes. */
  ghost predicate Core(c: Config, g: Regime, st: State)
    requires c.Valid()
  {
    Base(c, g, st) && CheckpointsOk(c, st.history, st.outbox) && AllAnswered(c, st.history, st.outbox)
  }

  /** The core without the answers and checkpoint announcements, which lag behind an execution for a moment. */
  ghost predicate Base(c: Config, g: Regime, st: State)
    requires c.Valid()
  {
    && LogOk(c, st.h, st.H, st.log)
    && RegimeOk(g, st.h, st.log)
    && CommitsKnown(c, st.log, st.inbox, st.outbox)
    && PreparesKnown(c, g, st.log, st.inbox)
    && VotesLocked(c, st.h, st.log, st.outbox)
    && OneVote(g, st.outbox)
    && HistoryOk(c, g, st.lastExec, st.service, st.history)
    && HistoryKnown(c, st.history, st.inbox, st.outbox)
    && VotesKnown(c, st.checkpoints, st.inbox, st.outbox)
    && StableOk(c, st.h, st.checkpoints, st.lastStableDigest)
    && RepliesOk(c, st.lastReplies, st.history, st.outbox)
    && AssignedOk(st.seqNum, st.outbox)
    && TimerOk(c, st.viewChanging, st.timeoutCount, st.timer)
    && AnnouncementsOk(c, st.inbox, st.outbox)
  }

  /** The stage is where the votes put it. */
  ghost predicate SettledEntry(c: Config, e: Entry)
    requires c.Valid()
  {
    && (e.stage == Prepared ==> |e.commits| < 2 * c.F() + 1)
    && (c.id in e.commits ==> e.stage in {Prepared, Committed})
  }

  /** No wake-up was lost: nothing waits for an event that has already happened. */
  ghost predicate Settled(c: Config, lastExec: nat, log: map<nat, Entry>)
    requires c.Valid()
  {
    && (forall s :: s in log ==> SettledEntry(c, log[s]))
    && !(lastExec + 1 in log && log[lastExec + 1].stage == Committed)
  }

  ghost predicate Quiet(c: Config, st: State)
    requires c.Valid()
  {
    Settled(c, st.lastExec, st.log)
  }

  ghost predicate Inv(c: Config, g: Regime, st: State)
    requires c.Valid()
  {
    Core(c, g, st) && NumbersOk(c, st) && Quiet(c, st)
  }
}
