/**
 * The handlers of src/node.cc as functions on the state of one replica.
 * The class in Replica.dfy is proved to compute exactly these functions.
 */
module Handlers {
  import opened Messages
  import opened Collections
  import opened NewViews

  /** The replicated service of include/pbft/service_interface.hh: deterministic, otherwise arbitrary. */
  type ServiceState(!new)

  datatype Service = Service(
    init: ServiceState,
    execute: (ServiceState, Bytes) -> (ServiceState, Bytes),
    digest: ServiceState -> Digest)

  datatype Config = Config(
    id: nat, n: nat, K: nat, L: nat, vcTimeout: real,
    hash: RequestMsg -> Digest, nullDigest: Digest, service: Service)
  {
    /** f_ of the constructor. */
    function F(): nat requires n >= 1 { (n - 1) / 3 }

    /** What the source demands of a configuration. */
    predicate Valid() { id < n && K > 0 }
  }

  datatype Stage = NoStage | PrePrepared | Prepared | Committed

  /**
   * ReqLogEntry. An unset uint256_t equals no digest a message carries, so `digest`
   * means something only once `hasPrePrepare` holds; the two are always set together.
   */
  datatype Entry = Entry(
    view: nat, seqNum: nat, digest: Digest, req: RequestMsg, stage: Stage,
    hasPrePrepare: bool, prepares: set<nat>, commits: set<nat>)

  /** What operator[] of the log puts under a new key. */
  const EmptyEntry := Entry(0, 0, 0, NullRequest, NoStage, false, {}, {})

  datatype ReplyInfo = ReplyInfo(timestamp: nat, replicaId: nat, result: Bytes)

  datatype CheckpointVotes = CheckpointVotes(votes: map<Digest, set<nat>>, stable: bool)

  const NoVotes := CheckpointVotes(map[], false)

  /** One executed request, with the commit quorum that let it execute. */
  datatype Executed = Executed(digest: Digest, req: RequestMsg, result: Bytes, committers: set<nat>)

  /**
   * The fields of Node. The last three record what has happened to the replica so
   * far: the requests it executed, the messages it received and those it sent.
   */
  datatype State = State(
    view: nat, seqNum: nat, lastExec: nat, h: nat, H: nat,
    log: map<nat, Entry>, lastReplies: map<nat, ReplyInfo>,
    viewChanging: bool, vcStore: map<nat, map<nat, ViewChangeMsg>>, timeoutCount: nat,
    checkpoints: map<nat, CheckpointVotes>, lastStableDigest: Option<Digest>,
    timer: Option<real>, service: ServiceState,
    history: seq<Executed>, inbox: set<Packet>, outbox: seq<Message>)

  function Init(c: Config): State {
    State(0, 0, 0, 0, c.L, map[], map[], false, map[], 0, map[], None, None, c.service.init, [], {}, [])
  }

  /** What every handler keeps or only lets grow. */
  ghost predicate Extends(s: State, t: State) {
    && s.outbox <= t.outbox
    && s.history <= t.history
    && s.inbox == t.inbox
    && s.h <= t.h
    && s.view <= t.view
    && s.lastExec <= t.lastExec
  }

  /** Besides that, the three phases and execution leave the view, the window and the numbering alone. */
  ghost predicate SameWindow(s: State, t: State) {
    && s.view == t.view && s.viewChanging == t.viewChanging && s.timeoutCount == t.timeoutCount
    && s.h == t.h && s.H == t.H && s.seqNum == t.seqNum
    && s.vcStore == t.vcStore && s.lastStableDigest == t.lastStableDigest
  }

  /** A log entry that keeps its pre-prepare and its votes. */
  ghost predicate EntryKept(e: Entry, e': Entry) {
    && (e.hasPrePrepare ==> e'.hasPrePrepare && e'.digest == e.digest)
    && e.prepares <= e'.prepares
    && e.commits <= e'.commits
  }

  ghost predicate LogKept(log: map<nat, Entry>, log': map<nat, Entry>) {
    forall s :: s in log ==> s in log' && EntryKept(log[s], log'[s])
  }

  function At(log: map<nat, Entry>, s: nat): Entry {
    if s in log then log[s] else EmptyEntry
  }

  function VotesAt(checkpoints: map<nat, CheckpointVotes>, s: nat): CheckpointVotes {
    if s in checkpoints then checkpoints[s] else NoVotes
  }

  function Voters(votes: map<Digest, set<nat>>, d: Digest): set<nat> {
    if d in votes then votes[d] else {}
  }

  function Send(st: State, m: Message): (r: State)
    ensures Extends(st, r) && SameWindow(st, r)
  {
    st.(outbox := st.outbox + [m])
  }

  predicate IsPrimary(c: Config, view: nat)
    requires c.Valid()
  {
    c.id == view % c.n
  }

  // ---------------------------------------------------------------- timer

  function Pow2(k: nat): nat {
    if k == 0 then 1 else 2 * Pow2(k - 1)
  }

  /** The delay with which the timer is armed after `count` fruitless view changes. */
  function Delay(c: Config, count: nat): real {
    var t := c.vcTimeout * Pow2(count) as real;
    if t < 300.0 then t else 300.0
  }

  function StartTimer(c: Config, st: State): (r: State)
    ensures Extends(st, r) && SameWindow(st, r)
    ensures r == st.(timer := r.timer)
  {
    if st.timer.None? && !st.viewChanging then st.(timer := Some(Delay(c, st.timeoutCount))) else st
  }

  function StopTimer(st: State): (r: State)
    ensures Extends(st, r) && SameWindow(st, r)
    ensures r == st.(timer := r.timer)
  {
    st.(timer := None)
  }

  /** is_waiting_for_request: a pre-prepared request lies above last_exec_. */
  predicate Waiting(log: map<nat, Entry>, lastExec: nat) {
    exists s :: s in log && log[s].hasPrePrepare && s > lastExec
  }

  function ManageTimer(c: Config, st: State): (r: State)
    ensures Extends(st, r) && SameWindow(st, r)
    ensures r == st.(timer := r.timer)
  {
    if !Waiting(st.log, st.lastExec) then StopTimer(st)
    else if st.timer.Some? then StartTimer(c, StopTimer(st))
    else st
  }

  // ---------------------------------------------------------------- execution and checkpoints

  function MakeCheckpoint(c: Config, st: State): (r: State)
    ensures Extends(st, r) && SameWindow(st, r)
  {
    var d := c.service.digest(st.service);
    var cp := VotesAt(st.checkpoints, st.lastExec);
    Send(st.(checkpoints := st.checkpoints[st.lastExec :=
               cp.(votes := cp.votes[d := Voters(cp.votes, d) + {c.id}])]),
         Checkpoint(CheckpointMsg(st.lastExec, d, c.id)))
  }

  predicate CanExecute(st: State) {
    st.lastExec + 1 in st.log && st.log[st.lastExec + 1].stage == Committed
  }

  /** Run the next request, answer its client and remember the answer. */
  function Perform(c: Config, st: State): (r: State)
    requires CanExecute(st)
    ensures Extends(st, r) && SameWindow(st, r)
  {
    var e := st.log[st.lastExec + 1];
    var outcome := c.service.execute(st.service, e.req.operation);
    var result := outcome.1;
    st.(service := outcome.0,
        lastExec := st.lastExec + 1,
        lastReplies := st.lastReplies[e.req.clientId := ReplyInfo(e.req.timestamp, c.id, result)],
        history := st.history + [Executed(e.digest, e.req, result, e.commits)],
        outbox := st.outbox + [Reply(ReplyMsg(st.view, e.req.timestamp, e.req.clientId, c.id, result))])
  }

  /** One round of try_execute's loop. */
  function ExecuteOne(c: Config, st: State): (r: State)
    requires c.Valid() && CanExecute(st)
    ensures Extends(st, r) && SameWindow(st, r)
    ensures r.log == st.log && r.lastExec == st.lastExec + 1
  {
    var st1 := ManageTimer(c, Perform(c, st));
    if st1.lastExec % c.K == 0 then MakeCheckpoint(c, st1) else st1
  }

  /** The number of log keys above s: what try_execute uses up. */
  ghost function Above(log: map<nat, Entry>, s: nat): nat {
    |set k | k in log && k > s|
  }

  lemma AboveDrops(log: map<nat, Entry>, s: nat)
    requires s + 1 in log
    ensures Above(log, s + 1) < Above(log, s)
  {
    var a := set k | k in log && k > s + 1;
    var b := set k | k in log && k > s;
    assert b == a + {s + 1};
  }

  ghost function TryExecute(c: Config, st: State): (r: State)
    requires c.Valid()
    ensures Extends(st, r) && SameWindow(st, r)
    ensures r.log == st.log
    ensures !CanExecute(r)
    decreases Above(st.log, st.lastExec)
  {
    if CanExecute(st) then
      AboveDrops(st.log, st.lastExec);
      TryExecute(c, ExecuteOne(c, st))
    else st
  }

  /** max(last_exec_, h_, largest log key) */
  ghost function Highest(lastExec: nat, h: nat, log: map<nat, Entry>): (m: nat)
    ensures m >= lastExec && m >= h
    ensures forall s :: s in log ==> s <= m
    ensures m == lastExec || m == h || m in log
  {
    var m := Max(lastExec, h);
    if log == map[] then m else Max(m, MaxOf(log.Keys))
  }

  /** seq_num_ = recompute_highest_sequence() */
  ghost function Renumber(st: State): (r: State)
    ensures Extends(st, r) && r.h == st.h
    ensures r == st.(seqNum := Highest(st.lastExec, st.h, st.log))
  {
    st.(seqNum := Highest(st.lastExec, st.h, st.log))
  }

  /** Keep the log above h_ and the checkpoints from h_ on. */
  function Collect(st: State): (r: State)
    ensures Extends(st, r) && r.lastExec == st.lastExec
  {
    st.(log := map s | s in st.log && s > st.h :: st.log[s],
        checkpoints := map s | s in st.checkpoints && s >= st.h :: st.checkpoints[s])
  }

  /** The window after the checkpoint at s has become stable with digest d. */
  function Moved(c: Config, st: State, s: nat, d: Digest): State {
    st.(checkpoints := st.checkpoints[s := VotesAt(st.checkpoints, s).(stable := true)],
        lastStableDigest := Some(d), h := s, H := s + c.L)
  }

  /** A checkpoint reached 2f+1 votes: move the window and drop what is below it. */
  ghost function Stabilise(c: Config, st: State, s: nat, d: Digest): (r: State)
    requires s >= st.h
    ensures Extends(st, r) && r.lastExec == st.lastExec
  {
    Collect(Renumber(Moved(c, st, s, d)))
  }

  /** Record one checkpoint vote. */
  function Vote(st: State, m: CheckpointMsg): (r: State)
    ensures Extends(st, r) && r.lastExec == st.lastExec
  {
    var cp := VotesAt(st.checkpoints, m.seqNum);
    st.(checkpoints := st.checkpoints[m.seqNum :=
          cp.(votes := cp.votes[m.digest := Voters(cp.votes, m.digest) + {m.replicaId}])])
  }

  ghost function OnCheckpoint(c: Config, st: State, m: CheckpointMsg): (r: State)
    requires c.Valid()
    ensures Extends(st, r) && r.lastExec == st.lastExec
  {
    if m.seqNum < st.h then st else
      var st1 := Vote(st, m);
      var cp := VotesAt(st1.checkpoints, m.seqNum);
      if !cp.stable && |Voters(cp.votes, m.digest)| >= 2 * c.F() + 1
      then Stabilise(c, st1, m.seqNum, m.digest)
      else st1
  }

  // ---------------------------------------------------------------- three phases

  /** The window and view test shared by PRE-PREPARE, PREPARE and COMMIT. */
  predicate InWindow(st: State, view: nat, s: nat) {
    !st.viewChanging && view == st.view && st.h <= s <= st.H
  }

  ghost function TryCommit(c: Config, st: State, s: nat): (r: State)
    requires c.Valid() && s in st.log
    ensures Extends(st, r) && SameWindow(st, r)
    ensures LogKept(st.log, r.log)
  {
    var e := st.log[s];
    if e.stage == Prepared && |e.commits| >= 2 * c.F() + 1
    then TryExecute(c, st.(log := st.log[s := e.(stage := Committed)]))
    else st
  }

  /** The entry prepares: say so to everyone. */
  function MarkPrepared(c: Config, st: State, s: nat): (r: State)
    requires s in st.log
    ensures Extends(st, r) && SameWindow(st, r)
    ensures LogKept(st.log, r.log)
  {
    var e := st.log[s];
    Send(st.(log := st.log[s := e.(stage := Prepared, commits := e.commits + {c.id})]),
         Commit(CommitMsg(st.view, e.seqNum, e.digest, c.id)))
  }

  ghost function TryPrepare(c: Config, st: State, s: nat): (r: State)
    requires c.Valid() && s in st.log
    ensures Extends(st, r) && SameWindow(st, r)
    ensures LogKept(st.log, r.log)
  {
    var e := st.log[s];
    if e.stage == PrePrepared && e.hasPrePrepare && |e.prepares| >= 2 * c.F()
    then TryCommit(c, MarkPrepared(c, st, s), s)
    else st
  }

  /** reqlog_[s], which creates the entry if it is missing. */
  function Touch(st: State, s: nat): (r: State)
    ensures Extends(st, r) && SameWindow(st, r)
    ensures LogKept(st.log, r.log)
  {
    st.(log := st.log[s := At(st.log, s)])
  }

  /** An accepted pre-prepare enters the log and is answered by a PREPARE. */
  function Accept(c: Config, st: State, m: PrePrepareMsg): (r: State)
    ensures Extends(st, r) && SameWindow(st, r)
    ensures (At(st.log, m.seqNum).hasPrePrepare ==> At(st.log, m.seqNum).digest == m.digest) ==> LogKept(st.log, r.log)
    ensures m.seqNum in r.log
  {
    var e := At(st.log, m.seqNum);
    var st1 := StartTimer(c, st);
    Send(st1.(log := st1.log[m.seqNum :=
                e.(view := m.view, seqNum := m.seqNum, digest := m.digest, req := m.req,
                   hasPrePrepare := true, stage := PrePrepared, prepares := e.prepares + {c.id})]),
         Prepare(PrepareMsg(st.view, m.seqNum, m.digest, c.id)))
  }

  /** on_preprepare_impl without the sender test. */
  ghost function ProcessPrePrepare(c: Config, st: State, m: PrePrepareMsg): (r: State)
    requires c.Valid()
    ensures Extends(st, r) && SameWindow(st, r)
    ensures LogKept(st.log, r.log)
  {
    if !InWindow(st, m.view, m.seqNum) then st else
      var e := At(st.log, m.seqNum);
      if e.hasPrePrepare && e.digest != m.digest then Touch(st, m.seqNum)
      else TryPrepare(c, Accept(c, st, m), m.seqNum)
  }

  /** The pre-prepare passes the tests of on_preprepare_impl. */
  predicate LetIn(st: State, m: PrePrepareMsg) {
    var e := At(st.log, m.seqNum);
    InWindow(st, m.view, m.seqNum) && (e.hasPrePrepare ==> e.digest == m.digest)
  }

  ghost function OnPrePrepare(c: Config, st: State, from: nat, m: PrePrepareMsg): (r: State)
    requires c.Valid()
    ensures Extends(st, r) && r.h == st.h
    ensures LogKept(st.log, r.log)
  {
    if from != st.view % c.n then st else ProcessPrePrepare(c, st, m)
  }

  function AddPrepare(st: State, s: nat, j: nat): (r: State)
    ensures Extends(st, r) && SameWindow(st, r)
    ensures LogKept(st.log, r.log) && s in r.log
  {
    var e := At(st.log, s);
    st.(log := st.log[s := e.(prepares := e.prepares + {j})])
  }

  function AddCommit(st: State, s: nat, j: nat): (r: State)
    ensures Extends(st, r) && SameWindow(st, r)
    ensures LogKept(st.log, r.log) && s in r.log
  {
    var e := At(st.log, s);
    st.(log := st.log[s := e.(commits := e.commits + {j})])
  }

  /** on_prepare without the sender test. */
  ghost function ProcessPrepare(c: Config, st: State, m: PrepareMsg): (r: State)
    requires c.Valid()
    ensures Extends(st, r) && r.h == st.h
    ensures LogKept(st.log, r.log)
  {
    if !InWindow(st, m.view, m.seqNum) then st else
      var e := At(st.log, m.seqNum);
      if e.hasPrePrepare && e.digest != m.digest then Touch(st, m.seqNum)
      else
        hide TryPrepare;
        TryPrepare(c, AddPrepare(st, m.seqNum, m.replicaId), m.seqNum)
  }

  ghost function OnPrepare(c: Config, st: State, from: nat, m: PrepareMsg): (r: State)
    requires c.Valid()
    ensures Extends(st, r) && r.h == st.h
    ensures LogKept(st.log, r.log)
  {
    if from == st.view % c.n then st else ProcessPrepare(c, st, m)
  }

  /** An unset digest equals no message's, so an entry without a pre-prepare takes no commits. */
  ghost function OnCommit(c: Config, st: State, m: CommitMsg): (r: State)
    requires c.Valid()
    ensures Extends(st, r) && r.h == st.h
    ensures LogKept(st.log, r.log)
  {
    if !InWindow(st, m.view, m.seqNum) then st else
      var e := At(st.log, m.seqNum);
      if !e.hasPrePrepare || e.digest != m.digest then Touch(st, m.seqNum)
      else
        hide TryCommit;
        TryCommit(c, AddCommit(st, m.seqNum, m.replicaId), m.seqNum)
  }

  // ---------------------------------------------------------------- requests

  /** A pre-prepared entry already carries this client's request. */
  predicate InProgress(log: map<nat, Entry>, m: RequestMsg) {
    exists s :: && s in log
                && log[s].hasPrePrepare
                && log[s].req.clientId == m.clientId
                && log[s].req.timestamp == m.timestamp
  }

  /** The primary gives the request the next number and proposes it. */
  function Assign(c: Config, st: State, m: RequestMsg): (r: State)
    ensures Extends(st, r) && r.h == st.h
  {
    var s := st.seqNum + 1;
    var e := At(st.log, s);
    Send(st.(seqNum := s,
             log := st.log[s := e.(view := st.view, seqNum := s, req := m, digest := c.hash(m),
                                   hasPrePrepare := true, stage := PrePrepared,
                                   prepares := e.prepares + {c.id})]),
         PrePrepare(PrePrepareMsg(st.view, s, c.hash(m), m)))
  }

  /** The last answer to this client was to this very request. */
  predicate Answered(st: State, m: RequestMsg) {
    m.clientId in st.lastReplies && st.lastReplies[m.clientId].timestamp == m.timestamp
  }

  function OnRequest(c: Config, st: State, m: RequestMsg): (r: State)
    requires c.Valid()
    ensures Extends(st, r) && r.h == st.h
  {
    if Answered(st, m) then
      Send(st, Reply(ReplyMsg(st.view, m.timestamp, m.clientId, c.id, st.lastReplies[m.clientId].result)))
    else if st.viewChanging then st
    else if IsPrimary(c, st.view) then
      if st.seqNum < st.h || st.seqNum >= st.H || InProgress(st.log, m) then st
      else Assign(c, st, m)
    else Send(StartTimer(c, st), Request(m))
  }

  // ---------------------------------------------------------------- view changes

  function VotesFor(s: nat, d: Digest, ids: seq<nat>): (r: seq<CheckpointMsg>)
    ensures forall x :: x in r <==> x.seqNum == s && x.digest == d && x.replicaId in ids
  {
    if ids == [] then [] else VotesFor(s, d, ids[..|ids| - 1]) + [CheckpointMsg(s, d, ids[|ids| - 1])]
  }

  /**
   * The C set: votes are listed digest by digest, in the order in which the hash
   * map happens to be visited, up to and including the first digest with a quorum.
   */
  ghost function CheckpointProof(s: nat, votes: map<Digest, set<nat>>, order: seq<Digest>, quorum: nat): seq<CheckpointMsg> {
    if order == [] then [] else
      var voters := Voters(votes, order[0]);
      VotesFor(s, order[0], Ascending(voters)) +
      if |voters| >= quorum then [] else CheckpointProof(s, votes, order[1..], quorum)
  }

  /** The P set, from the given log keys. */
  function PreparedProofs(log: map<nat, Entry>, keys: seq<nat>): seq<PrepareProof> {
    if keys == [] then [] else
      var e := At(log, keys[|keys| - 1]);
      PreparedProofs(log, keys[..|keys| - 1]) +
      if e.stage == Prepared then [PrepareProof(e.view, e.seqNum, e.digest)] else []
  }

  ghost function VoteDigests(st: State): set<Digest> {
    VotesAt(st.checkpoints, st.h).votes.Keys
  }

  ghost predicate Enumerates(order: seq<Digest>, s: set<Digest>) {
    && (forall i, j :: 0 <= i < j < |order| ==> order[i] != order[j])
    && (forall d :: d in order <==> d in s)
  }

  ghost function ViewChangeOf(c: Config, st: State, order: seq<Digest>): ViewChangeMsg
    requires c.Valid()
  {
    ViewChangeMsg(st.view + 1, st.h, c.id,
                  CheckpointProof(st.h, VotesAt(st.checkpoints, st.h).votes, order, 2 * c.F() + 1),
                  PreparedProofs(st.log, Ascending(st.log.Keys)))
  }

  /** Normal operation stops until the next view. */
  function Suspended(st: State): State {
    st.(viewChanging := true, timeoutCount := st.timeoutCount + 1, timer := None)
  }

  /** The timer fired. `order` is the order in which the votes at h_ are visited. */
  ghost function StartViewChange(c: Config, st: State, order: seq<Digest>): (r: State)
    requires c.Valid()
    ensures Extends(st, r) && r.h == st.h
    ensures LogKept(st.log, r.log)
  {
    var st1 := Suspended(st);
    var vc := ViewChangeOf(c, st1, order);
    OnViewChange(c, Send(st1, ViewChange(vc)), vc)
  }

  /** The stored view changes for a view, by replica id. */
  ghost function VSet(store: map<nat, ViewChangeMsg>): (V: seq<ViewChangeMsg>)
    ensures |V| == |store|
  {
    var ids := Ascending(store.Keys);
    seq(|ids|, k requires 0 <= k < |ids| => store[ids[k]])
  }

  /** The new primary announces the view and enters it. */
  ghost function Install(c: Config, st: State, view: nat, V: seq<ViewChangeMsg>): (r: State)
    requires view >= st.view
    ensures Extends(st, r) && r.h == st.h
    ensures LogKept(st.log, r.log)
  {
    var st1 := Send(Entered(st, view), NewView(NewViewMsg(view, V, OSet(c.nullDigest, V, view))));
    ManageTimer(c, Renumber(st1))
  }

  ghost function OnViewChange(c: Config, st: State, m: ViewChangeMsg): (r: State)
    requires c.Valid()
    ensures Extends(st, r) && r.h == st.h
    ensures LogKept(st.log, r.log)
  {
    if m.nextView < st.view || m.nextView % c.n != c.id then st else
      var store := (if m.nextView in st.vcStore then st.vcStore[m.nextView] else map[])[m.replicaId := m];
      var st1 := st.(vcStore := st.vcStore[m.nextView := store]);
      if |store| >= 2 * c.F() + 1 then Install(c, st1, m.nextView, VSet(store)) else st1
  }

  /** Process the O set in order. */
  ghost function ProcessAll(c: Config, st: State, pps: seq<PrePrepareMsg>): (r: State)
    requires c.Valid()
    ensures Extends(st, r) && SameWindow(st, r)
    ensures LogKept(st.log, r.log)
    decreases |pps|
  {
    if pps == [] then st else
      ProcessPrePrepare(c, ProcessAll(c, st, pps[..|pps| - 1]), pps[|pps| - 1])
  }

  /** A replica waiting for a later view accepts the announcement of that view's primary. */
  predicate Joins(c: Config, st: State, from: nat, m: NewViewMsg)
    requires c.Valid()
  {
    from == m.nextView % c.n && st.viewChanging && m.nextView > st.view && Acceptable(c.F(), m)
  }

  /** The first thing a replica does in a new view. */
  function Entered(st: State, view: nat): State {
    st.(viewChanging := false, view := view, timeoutCount := 0)
  }

  ghost function OnNewView(c: Config, st: State, from: nat, m: NewViewMsg): (r: State)
    requires c.Valid()
    ensures Extends(st, r) && r.h == st.h
    ensures LogKept(st.log, r.log)
  {
    if !Joins(c, st, from, m) then st else
      var st1 := ProcessAll(c, Entered(st, m.nextView), m.prePrepares);
      ManageTimer(c, Renumber(st1))
  }

  // ---------------------------------------------------------------- events

  /** Everything that can make a replica act. */
  datatype Event =
    | Arrive(request: RequestMsg)
    | Deliver(from: nat, msg: Message)
    | TimerFires(order: seq<Digest>)

  /** Messages come from other replicas under their own id, and only an armed timer fires. */
  ghost predicate Possible(c: Config, st: State, ev: Event) {
    match ev
    case Arrive(_) => true
    case Deliver(from, msg) => from < c.n && from != c.id && SignedBy(msg, from)
    case TimerFires(order) => st.timer.Some? && Enumerates(order, VoteDigests(st))
  }

  ghost function Dispatch(c: Config, st: State, from: nat, msg: Message): (r: State)
    requires c.Valid()
    ensures Extends(st, r) && (r.h == st.h || r.lastExec == st.lastExec)
  {
    match msg
    case Request(m) => OnRequest(c, st, m)
    case Reply(_) => st
    case PrePrepare(m) => OnPrePrepare(c, st, from, m)
    case Prepare(m) => OnPrepare(c, st, from, m)
    case Commit(m) => OnCommit(c, st, m)
    case Checkpoint(m) => OnCheckpoint(c, st, m)
    case ViewChange(m) => OnViewChange(c, st, m)
    case NewView(m) => OnNewView(c, st, from, m)
  }

  ghost function Receive(st: State, from: nat, msg: Message): State {
    st.(inbox := st.inbox + {Packet(from, msg)})
  }

  /** One atomic step of a replica. */
  ghost function Handle(c: Config, st: State, ev: Event): (r: State)
    requires c.Valid()
    ensures st.outbox <= r.outbox && st.history <= r.history && st.inbox <= r.inbox
    ensures st.h <= r.h && st.view <= r.view && st.lastExec <= r.lastExec
    ensures r.h == st.h || r.lastExec == st.lastExec
  {
    match ev
    case Arrive(m) => OnRequest(c, st, m)
    case Deliver(from, msg) => Dispatch(c, Receive(st, from, msg), from, msg)
    case TimerFires(order) => StartViewChange(c, st, order)
  }
}
