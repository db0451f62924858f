/**
 * A NEW-VIEW re-proposes a digest without its request (src/node.cc:558, 575), and the
 * receiver overwrites the request it had (src/node.cc:256). So replicas can execute
 * different requests under one digest although both primaries involved are correct.
 */
module LostRequest {
  import opened Messages
  import opened Collections
  import opened NewViews
  import opened Handlers
  import opened Invariant
  import opened Cluster
  import opened ReplicaRuns
  import opened Schedules
  import opened Steps
  import opened Rounds
  import opened ViewSteps
  import opened Necessity

  /** The primaries of views 1 and 2 are correct; replica 0 is not. */
  ghost predicate Setting(c: Config, good: set<nat>) {
    Table(c, good) && c.L >= 1 && 1 in good && 2 in good
  }

  lemma Seats(c: Config, good: set<nat>)
    requires Setting(c, good)
    ensures Sound(c, good) && c.n > 2 && c.F() >= 1 && c.L >= 1 && 0 !in good && 1 in good && 2 in good
    ensures 1 % c.n == 1 && 2 % c.n == 2
    ensures |good| > 2 * c.F() && |good - {1}| >= 2 * c.F()
  {
    hide Ids;
    assert |good - {1}| == |good| - 1;
    SmallRemainder(1, c.n);
    SmallRemainder(2, c.n);
  }

  // ---------------------------------------------------------------- the first view change

  lemma AllAsk(c: Config, good: set<nat>, g: Regime, r: RequestMsg) returns (cl: Cluster)
    requires Setting(c, good)
    ensures Scene(c, good, g, cl) && forall i :: i in good ==> Asking(For(c, i), cl[i], 1, [], map[])
  {
    hide Ids, Reachable, Feed, Feedable, Asking;
    var cl0 := Opening(c, good, g);
    var plan := map i | i in good :: [Arrive(r), TimerFires([])];
    forall i | i in good
      ensures Feedable(For(c, i), g, cl0[i], plan[i]) && Asking(For(c, i), Feed(For(c, i), cl0[i], plan[i]), 1, [], map[])
    {
      AsksAtOnce(For(c, i), g, r);
    }
    AllHear(c, good, g, cl0, plan);
    cl := Heard(c, good, cl0, plan);
  }

  lemma ReportsSent(good: set<nat>, cl: Cluster, v: nat, proofs: seq<PrepareProof>, ids: seq<nat>)
    requires cl.Keys == good
    requires forall j :: j in ids && j in good ==> ReportBy(v, proofs, j).msg in cl[j].outbox
    ensures Sent(good, cl, ReportsBy(v, proofs, ids))
  {
    var evs := ReportsBy(v, proofs, ids);
    forall k | 0 <= k < |evs| ensures evs[k].from in good ==> evs[k].msg in cl[evs[k].from].outbox {
      assert evs[k] in evs;
    }
  }

  lemma OwnReport(c: Config, st: State, v: nat, proofs: seq<PrepareProof>, log: map<nat, Entry>)
    requires c.Valid() && IsPrimary(c, v) && Asking(c, st, v, proofs, log)
    ensures Stored(st, st, v, proofs, {c.id}) && st.view < v
  {
    assert Reports(v, proofs, {c.id}) == map[c.id := Report(v, proofs, c.id)];
  }

  /** The primary p of view v hears enough reports from Q and announces the view. */
  lemma Elect(c: Config, good: set<nat>, g: Regime, cl: Cluster, v: nat, p: nat, proofs: seq<PrepareProof>, log: map<nat, Entry>, Q: set<nat>)
    returns (cl': Cluster, nv: NewViewMsg, V: seq<ViewChangeMsg>)
    requires Scene(c, good, g, cl) && p in good && p == v % c.n && Asking(For(c, p), cl[p], v, proofs, log)
    requires Q <= Ids(c.n) && |Q| > 2 * c.F()
    requires forall j :: j in Q && j in good ==> ReportBy(v, proofs, j).msg in cl[j].outbox
    ensures Scene(c, good, g, cl') && Rest(good, cl, cl', {p})
    ensures Leads(For(c, p), cl[p], cl'[p], v, nv, OSet(c.nullDigest, V, v)) && V != [] && Unanimous(V, proofs)
  {
    hide Ids, Reachable, Feed, Feedable, Asking, Leads, Unanimous, OSet, Increasing;
    OwnReport(For(c, p), cl[p], v, proofs, log);
    var ids := Pick(Q, p, 2 * c.F());
    hide Pick;
    assert Others(For(c, p), ids);
    assert {p} !! Elements(ids);
    ReportsSent(good, cl, v, proofs, ids);
    nv, V := FeedMajority(For(c, p), g, cl[p], v, proofs, {p}, ids);
    OneHears(c, good, g, cl, p, ReportsBy(v, proofs, ids));
    cl' := cl[p := Feed(For(c, p), cl[p], ReportsBy(v, proofs, ids))];
  }

  /** In view v, nothing has happened yet. */
  ghost predicate Blank(c: Config, st: State, v: nat) {
    Young(c, st, v) && !st.viewChanging && st.log == map[]
  }

  lemma AllJoin(c: Config, good: set<nat>, g: Regime, cl: Cluster, nv: NewViewMsg, P: set<nat>) returns (cl': Cluster)
    requires Scene(c, good, g, cl) && P <= good && nv.nextView % c.n in good - P && NewView(nv) in cl[nv.nextView % c.n].outbox
    requires nv.prePrepares == [] && Acceptable(c.F(), nv)
    requires forall i :: i in P ==> Asking(For(c, i), cl[i], nv.nextView, [], map[])
    ensures Scene(c, good, g, cl') && Rest(good, cl, cl', P)
    ensures forall i :: i in P ==> Blank(For(c, i), cl'[i], nv.nextView) && cl'[i].vcStore == map[]
  {
    hide Ids, Reachable, Feed, Feedable, Asking, Acceptable;
    var plan := map i | i in P :: [Deliver(nv.nextView % c.n, NewView(nv))];
    forall i | i in P
      ensures Feedable(For(c, i), g, cl[i], plan[i])
      ensures Blank(For(c, i), Feed(For(c, i), cl[i], plan[i]), nv.nextView) && Feed(For(c, i), cl[i], plan[i]).vcStore == map[]
    {
      JoinsEmpty(For(c, i), g, cl[i], nv);
    }
    AllHear(c, good, g, cl, plan);
    cl' := Heard(c, good, cl, plan);
  }

  lemma LeaderIsBlank(c: Config, st: State, st': State, v: nat, nv: NewViewMsg)
    requires c.Valid() && Asking(c, st, v, [], map[]) && Leads(c, st, st', v, nv, [])
    ensures Blank(c, st', v) && st'.seqNum == 0 && NewView(nv) in st'.outbox
    ensures nv.nextView == v && nv.prePrepares == [] && Acceptable(c.F(), nv)
  {
  }

  /** All correct replicas leave view 0 before anything has happened there. */
  lemma EnterViewOne(c: Config, good: set<nat>, g: Regime, r: RequestMsg) returns (cl: Cluster)
    requires Setting(c, good)
    ensures Scene(c, good, g, cl) && forall i :: i in good ==> Blank(For(c, i), cl[i], 1)
    ensures cl[1].seqNum == 0 && forall i :: i in good && i != 1 ==> cl[i].vcStore == map[]
  {
    hide Ids, Reachable, Asking, Leads, OSet, Unanimous, Acceptable, Blank, Setting;
    Seats(c, good);
    var cl0 := AllAsk(c, good, g, r);
    forall i | i in good ensures ReportBy(1, [], i).msg in cl0[i].outbox {
      AskedFor(For(c, i), cl0[i], 1, [], map[]);
    }
    var cl1, nv, V := Elect(c, good, g, cl0, 1, 1, [], map[], good);
    NothingReported(c.nullDigest, V, 1);
    LeaderIsBlank(For(c, 1), cl0[1], cl1[1], 1, nv);
    cl := AllJoin(c, good, g, cl1, nv, good - {1});
  }

  lemma AskedFor(c: Config, st: State, v: nat, proofs: seq<PrepareProof>, log: map<nat, Entry>)
    requires c.Valid() && Asking(c, st, v, proofs, log)
    ensures ReportBy(v, proofs, c.id).msg in st.outbox
  {
  }

  // ---------------------------------------------------------------- view 1

  /** What the primary of view 1 proposes. */
  ghost function Proposal(c: Config, r: RequestMsg): Motion {
    Motion(1, 1, c.hash(r), k => r)
  }

  /** A backup has prepared the request in view 1, holds the commits Y and waits for more. */
  ghost predicate Stuck(c: Config, st: State, m: PrePrepareMsg, Y: set<nat>)
    requires c.Valid()
  {
    && Young(c, st, 1) && !st.viewChanging && st.timer.Some? && st.vcStore == map[]
    && 1 in st.log && st.log == map[1 := Ballot(m, Prepared, st.log[1].prepares, Y)]
    && |st.log[1].prepares| >= 2 * c.F()
  }

  lemma GetsStuck(c: Config, st: State, st': State, m: PrePrepareMsg)
    requires c.Valid() && Blank(c, st, 1) && st.vcStore == map[] && m.seqNum == 1
    requires HasPrepared(c, st, st', m) && st'.timer.Some?
    ensures Stuck(c, st', m, {c.id})
  {
  }

  /** The primary of view 1 has proposed the request and done nothing else in it. */
  ghost predicate Chairs(c: Config, cl: Cluster, m: Motion) {
    1 in cl && Young(c, cl[1], 1) && Accepting(cl, m, 1) && 2 !in cl[1].log && PrePrepare(m.To(1)) in cl[1].outbox
  }

  lemma PrimaryProposes(c: Config, good: set<nat>, g: Regime, r: RequestMsg) returns (cl: Cluster)
    requires Setting(c, good)
    ensures Scene(c, good, g, cl) && Chairs(c, cl, Proposal(c, r))
    ensures forall i :: i in good && i != 1 ==> Blank(For(c, i), cl[i], 1) && cl[i].vcStore == map[]
  {
    hide Ids, Reachable, Feed, Feedable;
    var cl0 := EnterViewOne(c, good, g, r);
    assert Blank(For(c, 1), cl0[1], 1);
    assert IsPrimary(For(c, 1), 1);
    ProposesFirst(For(c, 1), g, cl0[1], r);
    OneHears(c, good, g, cl0, 1, [Arrive(r)]);
    cl := cl0[1 := Feed(For(c, 1), cl0[1], [Arrive(r)])];
  }

  lemma BlankIsOpen(c: Config, good: set<nat>, g: Regime, cl: Cluster, r: RequestMsg, i: nat)
    requires c.n > 1 && c.L >= 1 && cl.Keys == good && i in good && !g.faithful
    requires Chairs(c, cl, Proposal(c, r)) && Blank(For(c, i), cl[i], 1)
    ensures Open(c, good, g, cl, Proposal(c, r), i)
  {
    assert Proposal(c, r).To(i) == Proposal(c, r).To(1);
    assert Proposal(c, r).view % c.n == 1;
  }

  /** The request is proposed, and every backup prepares it. */
  lemma BackupsPrepare(c: Config, good: set<nat>, g: Regime, r: RequestMsg) returns (cl: Cluster)
    requires Setting(c, good) && !g.faithful
    ensures Scene(c, good, g, cl) && Chairs(c, cl, Proposal(c, r))
    ensures forall i :: i in good && i != 1 ==>
      && Stuck(For(c, i), cl[i], Proposal(c, r).To(i), {i})
      && Proposal(c, r).PrepareOf(i) in cl[i].outbox && Proposal(c, r).CommitOf(i) in cl[i].outbox
  {
    hide Ids, Reachable, HasPrepared, Stuck, Open, Blank, Chairs, Setting;
    Seats(c, good);
    var m := Proposal(c, r);
    var P := good - {1};
    var cl0 := PrimaryProposes(c, good, g, r);
    forall i | i in P ensures Open(c, good, g, cl0, m, i) {
      BlankIsOpen(c, good, g, cl0, r, i);
    }
    cl := AllPrepare(c, good, g, cl0, m, P);
    CommitsOut(c, good, cl0, cl, m, P);
    forall i | i in P ensures Stuck(For(c, i), cl[i], m.To(i), {i}) {
      GetsStuck(For(c, i), cl0[i], cl[i], m.To(i));
    }
    SameChair(c, cl0, cl, m);
  }

  lemma SameChair(c: Config, cl: Cluster, cl': Cluster, m: Motion)
    requires Chairs(c, cl, m) && 1 in cl' && cl'[1] == cl[1]
    ensures Chairs(c, cl', m)
  {
  }

  /** The backups of view 1 are stuck with the request and their own commits. */
  ghost predicate AllStuck(c: Config, good: set<nat>, cl: Cluster, m: Motion)
    requires Sound(c, good) && cl.Keys == good
  {
    forall i :: i in good && i != 1 ==> Stuck(For(c, i), cl[i], m.To(i), {i}) && m.CommitOf(i) in cl[i].outbox
  }

  /** Replica 1 has executed the request as number 1. */
  ghost predicate Done(c: Config, st: State, r: RequestMsg) {
    st.lastExec == |st.history| == 1 && st.history[0].digest == c.hash(r) && st.history[0].req == r
  }

  /** The primary of view 1 hears the PREPAREs of its backups. */
  lemma PrimaryPrepares(c: Config, good: set<nat>, g: Regime, r: RequestMsg) returns (cl: Cluster)
    requires Setting(c, good) && !g.faithful
    ensures Scene(c, good, g, cl) && AllStuck(c, good, cl, Proposal(c, r))
    ensures Waits(cl, Proposal(c, r), 1) && cl[1].history == [] && Proposal(c, r).CommitOf(1) in cl[1].outbox
  {
    hide Ids, Reachable, Feed, Feedable, Sent, HasPrepared, Stuck, CertifyingVotes, Waits, Accepting, Setting;
    Seats(c, good);
    var m := Proposal(c, r);
    var cl0 := BackupsPrepare(c, good, g, r);
    CertifyOne(c, good, g, cl0, m, good - {1}, 1);
    var evs := CertifyingVotes(c, m.To(1), good - {1}, 1);
    OneHears(c, good, g, cl0, 1, evs);
    cl := cl0[1 := Feed(For(c, 1), cl0[1], evs)];
    ChairWaits(For(c, 1), cl0, cl, m);
  }

  lemma ChairWaits(c: Config, cl: Cluster, cl': Cluster, m: Motion)
    requires c.Valid() && c.id == 1 && Chairs(c, cl, m) && m.seqNum == 1 && 1 in cl'
    requires HasPrepared(c, cl[1], cl'[1], m.To(1))
    ensures Waits(cl', m, 1) && cl'[1].history == [] && m.CommitOf(1) in cl'[1].outbox
  {
    StartsWaiting(c, cl, cl', m, 1);
  }

  /** The primary of view 1 alone hears the COMMITs and executes the request. */
  lemma PrimaryExecutes(c: Config, good: set<nat>, g: Regime, r: RequestMsg) returns (cl: Cluster)
    requires Setting(c, good) && !g.faithful
    ensures Scene(c, good, g, cl) && AllStuck(c, good, cl, Proposal(c, r)) && Done(c, cl[1], r)
  {
    hide Ids, Reachable, Stuck, Waits, Setting;
    Seats(c, good);
    var m := Proposal(c, r);
    var cl0 := PrimaryPrepares(c, good, g, r);
    cl := AllExecute(c, good, g, cl0, m, good, {1});
    assert Ran(For(c, 1), cl0[1], cl[1], m.To(1));
  }

  lemma OtherBackups(c: Config, good: set<nat>, z: nat) returns (ids: seq<nat>)
    requires Setting(c, good) && z in good
    ensures Others(For(c, z), ids) && |ids| == 2 * c.F() - 1 && forall j :: j in ids ==> j in good && j != 1
    ensures |{z} + Elements(ids)| == 2 * c.F() && 0 !in {z} + Elements(ids)
  {
    hide Ids, Setting, Increasing;
    Seats(c, good);
    ids := Pick(good - {1}, z, 2 * c.F() - 1);
    hide Pick;
    assert {z} !! Elements(ids);
    ElementsSize({z}, ids);
  }

  /** Replica z hears 2f-1 of the COMMITs, one too few. */
  lemma OneTooFew(c: Config, good: set<nat>, g: Regime, cl: Cluster, m: Motion, z: nat) returns (cl': Cluster, Y: set<nat>)
    requires Setting(c, good) && Scene(c, good, g, cl) && m.view == 1 && m.seqNum == 1
    requires AllStuck(c, good, cl, m) && z in good && z != 1
    ensures Scene(c, good, g, cl') && Rest(good, cl, cl', {z})
    ensures Stuck(For(c, z), cl'[z], m.To(z), Y) && z in Y && 0 !in Y && |Y| == 2 * c.F()
  {
    hide Ids, Reachable, Feed, Feedable, Setting, Stuck, Sent, Elements, Others;
    Seats(c, good);
    var ids := OtherBackups(c, good, z);
    Y := {z} + Elements(ids);
    CommitsSent(good, cl, m, z, ids);
    StuckHears(For(c, z), g, cl[z], m.To(z), ids);
    OneHears(c, good, g, cl, z, CommitsBy(m.To(z), ids));
    cl' := cl[z := Feed(For(c, z), cl[z], CommitsBy(m.To(z), ids))];
  }

  lemma StuckHears(c: Config, g: Regime, st: State, m: PrePrepareMsg, ids: seq<nat>)
    requires Tolerant(c) && c.L >= 1 && m.view == 1 && m.seqNum == 1
    requires Stuck(c, st, m, {c.id}) && Others(c, ids) && |ids| < 2 * c.F()
    ensures Feedable(c, g, st, CommitsBy(m, ids)) && Stuck(c, Feed(c, st, CommitsBy(m, ids)), m, {c.id} + Elements(ids))
  {
    hide Feed, Feedable, Increasing;
    FeedCommits(c, g, st, m, st.log[1].prepares, {c.id}, ids);
    StuckStill(c, st, Feed(c, st, CommitsBy(m, ids)), m, {c.id}, {c.id} + Elements(ids));
  }

  lemma StuckStill(c: Config, st: State, st': State, m: PrePrepareMsg, Y: set<nat>, Y': set<nat>)
    requires c.Valid() && Stuck(c, st, m, Y) && Became(st, st', 1, Ballot(m, Prepared, st.log[1].prepares, Y'))
    ensures Stuck(c, st', m, Y')
  {
  }

  // ---------------------------------------------------------------- view 2

  /** The proof that every backup of view 1 reports. */
  ghost function Proof(m: Motion): PrepareProof {
    PrepareProof(1, 1, m.digest)
  }

  lemma StuckReports(c: Config, st: State, m: PrePrepareMsg, Y: set<nat>)
    requires c.Valid() && Stuck(c, st, m, Y) && m.view == 1 && m.seqNum == 1
    ensures PreparedProofs(st.log, Ascending(st.log.Keys)) == [PrepareProof(1, 1, m.digest)]
  {
    OneProof(st.log, st.log[1]);
    hide PreparedProofs, Ascending;
  }

  lemma OneProof(log: map<nat, Entry>, e: Entry)
    requires log == map[1 := e] && e.stage == Prepared
    ensures PreparedProofs(log, Ascending(log.Keys)) == [PrepareProof(e.view, e.seqNum, e.digest)]
  {
    hide Ascending;
    assert log.Keys == {1};
    AscendingUnique([1], {1});
    assert [1][..0] == [];
    assert PreparedProofs(log, []) == [];
  }

  lemma StuckAsks(c: Config, g: Regime, st: State, m: PrePrepareMsg, Y: set<nat>)
    requires Tolerant(c) && Stuck(c, st, m, Y) && m.view == 1 && m.seqNum == 1
    ensures Feedable(c, g, st, [TimerFires([])])
    ensures Asking(c, Feed(c, st, [TimerFires([])]), 2, [PrepareProof(1, 1, m.digest)], st.log)
  {
    hide Feed, Feedable, Handle, Asking, PreparedProofs, Ascending;
    FeedOne(c, g, st, TimerFires([]));
    StuckReports(c, st, m, Y);
    Fires(c, g, st);
  }

  /** All backups of view 1 ask for view 2. */
  lemma BackupsAsk(c: Config, good: set<nat>, g: Regime, cl: Cluster, m: Motion, z: nat, Y: set<nat>) returns (cl': Cluster)
    requires Scene(c, good, g, cl) && m.view == 1 && m.seqNum == 1
    requires forall i :: i in good && i != 1 ==> Stuck(For(c, i), cl[i], m.To(i), if i == z then Y else {i})
    ensures Scene(c, good, g, cl') && Rest(good, cl, cl', good - {1})
    ensures forall i :: i in good && i != 1 ==> Asking(For(c, i), cl'[i], 2, [Proof(m)], cl[i].log)
  {
    hide Ids, Reachable, Feed, Feedable, Asking, Stuck;
    var plan := map i | i in good - {1} :: [TimerFires([])];
    forall i | i in good - {1}
      ensures Feedable(For(c, i), g, cl[i], plan[i])
      ensures Asking(For(c, i), Feed(For(c, i), cl[i], plan[i]), 2, [Proof(m)], cl[i].log)
    {
      StuckAsks(For(c, i), g, cl[i], m.To(i), if i == z then Y else {i});
    }
    AllHear(c, good, g, cl, plan);
    cl' := Heard(c, good, cl, plan);
  }

  /** What the correct primary of view 2 announces: the digest that was prepared, and no request. */
  ghost function Hollow(m: Motion): PrePrepareMsg {
    PrePrepareMsg(2, 1, m.digest, NullRequest)
  }

  ghost predicate Announces(c: Config, st: State, nv: NewViewMsg, m: Motion)
    requires c.Valid()
  {
    NewView(nv) in st.outbox && nv.nextView == 2 && nv.prePrepares == [Hollow(m)] && Acceptable(c.F(), nv)
  }

  lemma ElectTwo(c: Config, good: set<nat>, g: Regime, cl: Cluster, m: Motion, logs: map<nat, map<nat, Entry>>)
    returns (cl': Cluster, nv: NewViewMsg)
    requires Setting(c, good) && Scene(c, good, g, cl) && logs.Keys == good
    requires forall i :: i in good && i != 1 ==> Asking(For(c, i), cl[i], 2, [Proof(m)], logs[i])
    ensures Scene(c, good, g, cl') && Rest(good, cl, cl', {2}) && Announces(For(c, 2), cl'[2], nv, m)
  {
    hide Ids, Reachable, Asking, OSet, Unanimous, Acceptable, Setting;
    Seats(c, good);
    var Q := good - {1} + {0};
    assert |Q| == |good - {1}| + 1;
    forall j | j in Q && j in good ensures ReportBy(2, [Proof(m)], j).msg in cl[j].outbox {
      AskedFor(For(c, j), cl[j], 2, [Proof(m)], logs[j]);
    }
    var V;
    cl', nv, V := Elect(c, good, g, cl, 2, 2, [Proof(m)], logs[2], Q);
    UnanimousO(c.nullDigest, V, 2, Proof(m));
  }

  // ---------------------------------------------------------------- the end

  /** Replica z takes the hollow proposal over the request it had, keeping its 2f commits. */
  ghost predicate Hollowed(c: Config, st: State, m: Motion, X: set<nat>, Y: set<nat>) {
    && InWindow(st, 2, 1) && st.lastExec == 0 && st.history == []
    && st.log == map[1 := Ballot(Hollow(m), Prepared, X, Y)]
  }

  lemma GetsHollow(c: Config, g: Regime, st0: State, st: State, nv: NewViewMsg, m: Motion, Y: set<nat>)
    requires Tolerant(c) && c.L >= 1 && c.n > 2 && c.id != 2 && !g.faithful && c.id in Y && |Y| == 2 * c.F()
    requires m.view == 1 && m.seqNum == 1 && Stuck(c, st0, m.To(c.id), Y) && Asking(c, st, 2, [Proof(m)], st0.log)
    requires nv.nextView == 2 && nv.prePrepares == [Hollow(m)] && Acceptable(c.F(), nv)
    ensures
      var evs := [Deliver(2, NewView(nv))];
      Feedable(c, g, st, evs) && Hollowed(c, Feed(c, st, evs), m, st0.log[1].prepares + {c.id}, Y)
  {
    hide Feed, Feedable, Acceptable;
    assert 2 % c.n == 2;
    assert Y + {c.id} == Y;
    var X := st0.log[1].prepares;
    JoinsAgain(c, g, st, nv, m.To(c.id), Hollow(m), X, Y);
    assert map[1 := Ballot(m.To(c.id), Prepared, X, Y)][1 := Ballot(Hollow(m), Prepared, X + {c.id}, Y)]
        == map[1 := Ballot(Hollow(m), Prepared, X + {c.id}, Y)];
  }

  /** The COMMIT of replica 0 makes z execute the null request. */
  lemma ExecutesHollow(c: Config, g: Regime, st: State, m: Motion, X: set<nat>, Y: set<nat>)
    requires Tolerant(c) && Hollowed(c, st, m, X, Y) && c.id != 0 && 0 !in Y && |Y| == 2 * c.F()
    ensures
      var evs := [CommitBy(Hollow(m), 0)];
      var st' := Feed(c, st, evs);
      && Feedable(c, g, st, evs) && st'.lastExec == |st'.history| == 1
      && st'.history[0].digest == m.digest && st'.history[0].req == NullRequest
  {
    hide Feed, Feedable, Handle, Possible, Obeys;
    FeedOne(c, g, st, CommitBy(Hollow(m), 0));
    assert |Y + {0}| == 2 * c.F() + 1;
    GetsQuorum(c, g, st, Hollow(m), X, Y, 0);
  }

  /** Replica 1 has executed the request; z executes the null request under the same digest. */
  lemma LastSteps(c: Config, good: set<nat>, g: Regime, cl0: Cluster, cl: Cluster, nv: NewViewMsg, m: Motion, z: nat, Y: set<nat>)
    returns (cl': Cluster)
    requires Setting(c, good) && Scene(c, good, g, cl) && !g.faithful && cl0.Keys == good && z in good && z != 1 && z != 2
    requires m.view == 1 && m.seqNum == 1 && Announces(For(c, 2), cl[2], nv, m)
    requires Stuck(For(c, z), cl0[z], m.To(z), Y) && Asking(For(c, z), cl[z], 2, [Proof(m)], cl0[z].log)
    requires z in Y && 0 !in Y && |Y| == 2 * c.F()
    ensures Scene(c, good, g, cl') && Rest(good, cl, cl', {z})
    ensures cl'[z].lastExec == |cl'[z].history| == 1
    ensures cl'[z].history[0].digest == m.digest && cl'[z].history[0].req == NullRequest
  {
    hide Ids, Reachable, Feed, Feedable, Asking, Stuck, Hollowed, Setting, Acceptable;
    Seats(c, good);
    var X := LogOf(For(c, z), cl0[z], m.To(z), Y);
    GetsHollow(For(c, z), g, cl0[z], cl[z], nv, m, Y);
    OneHears(c, good, g, cl, z, [Deliver(2, NewView(nv))]);
    var cl1 := cl[z := Feed(For(c, z), cl[z], [Deliver(2, NewView(nv))])];
    ExecutesHollow(For(c, z), g, cl1[z], m, X + {z}, Y);
    OneHears(c, good, g, cl1, z, [CommitBy(Hollow(m), 0)]);
    cl' := cl1[z := Feed(For(c, z), cl1[z], [CommitBy(Hollow(m), 0)])];
  }

  lemma LogOf(c: Config, st: State, m: PrePrepareMsg, Y: set<nat>) returns (X: set<nat>)
    requires c.Valid() && Stuck(c, st, m, Y)
    ensures 1 in st.log && X == st.log[1].prepares
  {
    X := st.log[1].prepares;
  }

  /** View 1, up to where its backups run out of patience. */
  lemma FirstHalf(c: Config, good: set<nat>, g: Regime, r: RequestMsg, z: nat) returns (cl: Cluster, Y: set<nat>)
    requires Setting(c, good) && !g.faithful && z in good && z != 1
    ensures Scene(c, good, g, cl) && Done(c, cl[1], r) && z in Y && 0 !in Y && |Y| == 2 * c.F()
    ensures forall i :: i in good && i != 1 ==> Stuck(For(c, i), cl[i], Proposal(c, r).To(i), if i == z then Y else {i})
  {
    hide Ids, Reachable, Stuck, Setting, Done;
    Seats(c, good);
    var cl0 := PrimaryExecutes(c, good, g, r);
    cl, Y := OneTooFew(c, good, g, cl0, Proposal(c, r), z);
  }

  /** View 2. */
  lemma SecondHalf(c: Config, good: set<nat>, g: Regime, cl: Cluster, m: Motion, z: nat, Y: set<nat>) returns (cl': Cluster)
    requires Setting(c, good) && Scene(c, good, g, cl) && !g.faithful && m.view == 1 && m.seqNum == 1
    requires z in good && z != 1 && z != 2 && z in Y && 0 !in Y && |Y| == 2 * c.F()
    requires forall i :: i in good && i != 1 ==> Stuck(For(c, i), cl[i], m.To(i), if i == z then Y else {i})
    ensures Scene(c, good, g, cl') && cl'[1] == cl[1] && cl'[z].lastExec == |cl'[z].history| == 1
    ensures cl'[z].history[0].digest == m.digest && cl'[z].history[0].req == NullRequest
  {
    hide Ids, Reachable, Stuck, Asking, Setting, Announces;
    Seats(c, good);
    var cl1 := BackupsAsk(c, good, g, cl, m, z, Y);
    var cl2, nv := ElectTwo(c, good, g, cl1, m, map i | i in good :: cl[i].log);
    cl' := LastSteps(c, good, g, cl, cl2, nv, m, z, Y);
  }

  /**
   * In every cluster that is meant to tolerate a fault, with correct primaries in views 1
   * and 2: replica 1 executes r in view 1, and a correct replica z executes the null request
   * in its place in view 2, under the digest of r. The faulty replica does no more than send
   * one VIEW-CHANGE and one COMMIT that a correct replica might have sent.
   */
  lemma ReproposalLosesRequest(c: Config, good: set<nat>, g: Regime, r: RequestMsg, z: nat) returns (acts: seq<Action>)
    requires Setting(c, good) && !g.faithful && r != NullRequest && z in good && z != 1 && z != 2
    ensures Disagreement(c, good, g, acts, z, 1)
    ensures
      var a, b := Reach(c, good, g, acts)[z].history, Reach(c, good, g, acts)[1].history;
      && |a| == |b| == 1 && a[0].digest == b[0].digest == c.hash(r)
      && a[0].req == NullRequest && b[0].req == r
  {
    hide Ids, Reachable, Stuck, Reach, Schedule;
    var cl0, Y := FirstHalf(c, good, g, r, z);
    var cl := SecondHalf(c, good, g, cl0, Proposal(c, r), z, Y);
    acts := Differ(c, good, g, cl, z, 1, 0);
  }
}
