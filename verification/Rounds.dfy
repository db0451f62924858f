/** The three phases at many replicas at once, as far as a schedule wants them to go. */
module Rounds {
  import opened Messages
  import opened Collections
  import opened Handlers
  import opened Invariant
  import opened Cluster
  import opened ReplicaRuns
  import opened Schedules
  import opened Steps

  /** A cluster that some schedule obeying g leads to. */
  ghost predicate Scene(c: Config, good: set<nat>, g: Regime, cl: Cluster) {
    Sound(c, good) && c.F() >= 1 && cl.Keys == good && Reachable(c, good, g, cl)
  }

  /** The replicas outside P have not moved. */
  ghost predicate Rest(good: set<nat>, cl: Cluster, cl': Cluster, P: set<nat>)
    requires cl.Keys == good
  {
    cl'.Keys == good && forall i :: i in good && i !in P ==> cl'[i] == cl[i]
  }

  /** What a primary proposes under one number and digest, to each replica perhaps another request. */
  datatype Motion = Motion(view: nat, seqNum: nat, digest: Digest, req: nat -> RequestMsg) {
    ghost function To(i: nat): PrePrepareMsg { PrePrepareMsg(view, seqNum, digest, req(i)) }

    ghost function PrepareOf(i: nat): Message { Prepare(PrepareMsg(view, seqNum, digest, i)) }

    ghost function CommitOf(i: nat): Message { Commit(CommitMsg(view, seqNum, digest, i)) }
  }

  // ---------------------------------------------------------------- pre-prepare

  /** The primary's proposal can be delivered to i, which takes it. */
  ghost predicate Open(c: Config, good: set<nat>, g: Regime, cl: Cluster, m: Motion, i: nat)
    requires c.n >= 1 && cl.Keys == good && i in good
  {
    && InWindow(cl[i], m.view, m.seqNum) && m.seqNum !in cl[i].log && Fits(g, cl[i].h, m.To(i))
    && (m.view % c.n in good ==> PrePrepare(m.To(i)) in cl[m.view % c.n].outbox)
  }

  lemma Propose(c: Config, good: set<nat>, g: Regime, cl: Cluster, m: Motion, P: set<nat>) returns (cl': Cluster)
    requires Scene(c, good, g, cl) && P <= good && m.view % c.n !in P
    requires forall i :: i in P ==> Open(c, good, g, cl, m, i)
    ensures Scene(c, good, g, cl') && Rest(good, cl, cl', P)
    ensures forall i :: i in P ==> HasAccepted(For(c, i), cl[i], cl'[i], m.To(i))
  {
    hide Ids, Reachable, Feed, Feedable, Fits, HasAccepted;
    var plan := map i | i in P :: [Deliver(m.view % c.n, PrePrepare(m.To(i)))];
    forall i | i in P
      ensures Feedable(For(c, i), g, cl[i], plan[i])
      ensures HasAccepted(For(c, i), cl[i], Feed(For(c, i), cl[i], plan[i]), m.To(i))
    {
      assert Open(c, good, g, cl, m, i);
      GetsPrePrepare(For(c, i), g, cl[i], m.To(i));
    }
    AllHear(c, good, g, cl, plan);
    cl' := Heard(c, good, cl, plan);
  }

  // ---------------------------------------------------------------- prepare

  /** i has accepted the proposal. */
  ghost predicate Accepting(cl: Cluster, m: Motion, i: nat) {
    && i in cl && InWindow(cl[i], m.view, m.seqNum) && m.seqNum in cl[i].log
    && cl[i].log[m.seqNum] == Ballot(m.To(i), PrePrepared, {i}, {})
  }

  lemma PreparesSent(good: set<nat>, cl: Cluster, m: Motion, i: nat, ids: seq<nat>)
    requires cl.Keys == good
    requires forall j :: j in ids && j in good ==> m.PrepareOf(j) in cl[j].outbox
    ensures Sent(good, cl, PreparesBy(m.To(i), ids))
  {
    var evs := PreparesBy(m.To(i), ids);
    forall k | 0 <= k < |evs| ensures evs[k].from in good ==> evs[k].msg in cl[evs[k].from].outbox {
      assert evs[k] in evs;
    }
  }

  /** What makes i prepare: the PREPAREs of 2f-1 others in P. */
  ghost function CertifyingVotes(c: Config, m: PrePrepareMsg, P: set<nat>, i: nat): seq<Event>
    requires c.n >= 1 && c.F() >= 1
  {
    PreparesBy(m, Pick(P, i, 2 * c.F() - 1))
  }

  lemma CertifyOne(c: Config, good: set<nat>, g: Regime, cl: Cluster, m: Motion, P: set<nat>, i: nat)
    requires Scene(c, good, g, cl) && P <= good && m.view % c.n !in P && |P| >= 2 * c.F()
    requires Accepting(cl, m, i) && forall j :: j in P ==> m.PrepareOf(j) in cl[j].outbox
    ensures
      var evs := CertifyingVotes(c, m.To(i), P, i);
      && Feedable(For(c, i), g, cl[i], evs) && Sent(good, cl, evs)
      && HasPrepared(For(c, i), cl[i], Feed(For(c, i), cl[i], evs), m.To(i))
  {
    hide Ids, Reachable, Feed, Feedable, HasPrepared, Increasing;
    var ids := Pick(P, i, 2 * c.F() - 1);
    hide Pick;
    assert Others(For(c, i), ids);
    PreparesSent(good, cl, m, i, ids);
    assert m.view % c.n !in ids;
    assert For(c, i).F() == c.F();
    FeedCertificate(For(c, i), g, cl[i], m.To(i), ids);
  }

  /** 2f replicas that have accepted the same digest prepare each other. */
  lemma Certify(c: Config, good: set<nat>, g: Regime, cl: Cluster, m: Motion, P: set<nat>) returns (cl': Cluster)
    requires Scene(c, good, g, cl) && P <= good && m.view % c.n !in P && |P| >= 2 * c.F()
    requires forall i :: i in P ==> Accepting(cl, m, i) && m.PrepareOf(i) in cl[i].outbox
    ensures Scene(c, good, g, cl') && Rest(good, cl, cl', P)
    ensures forall i :: i in P ==> HasPrepared(For(c, i), cl[i], cl'[i], m.To(i))
  {
    hide Ids, Reachable, Feed, Feedable, Sent, HasPrepared, CertifyingVotes, Accepting;
    var plan := map i | i in P :: CertifyingVotes(c, m.To(i), P, i);
    forall i | i in P
      ensures Feedable(For(c, i), g, cl[i], plan[i]) && Sent(good, cl, plan[i])
      ensures HasPrepared(For(c, i), cl[i], Feed(For(c, i), cl[i], plan[i]), m.To(i))
    {
      CertifyOne(c, good, g, cl, m, P, i);
    }
    AllHear(c, good, g, cl, plan);
    cl' := Heard(c, good, cl, plan);
  }

  lemma StartsAccepting(c: Config, cl: Cluster, cl': Cluster, m: Motion, i: nat)
    requires c.Valid() && c.id == i && i in cl && i in cl' && InWindow(cl[i], m.view, m.seqNum)
    requires HasAccepted(c, cl[i], cl'[i], m.To(i))
    ensures Accepting(cl', m, i) && m.PrepareOf(i) in cl'[i].outbox
  {
  }

  lemma AcceptThenPrepare(c: Config, st: State, st1: State, st2: State, m: PrePrepareMsg)
    requires c.Valid() && HasAccepted(c, st, st1, m) && HasPrepared(c, st1, st2, m)
    ensures HasPrepared(c, st, st2, m) && st2.timer.Some? && Prepare(PrepareMsg(m.view, m.seqNum, m.digest, c.id)) in st2.outbox
  {
    BecameTwice(st, st1, st2, m.seqNum, st1.log[m.seqNum], st2.log[m.seqNum]);
  }

  /** The primary proposes to at least 2f replicas, and they all prepare. */
  lemma AllPrepare(c: Config, good: set<nat>, g: Regime, cl: Cluster, m: Motion, P: set<nat>) returns (cl': Cluster)
    requires Scene(c, good, g, cl) && P <= good && m.view % c.n !in P && |P| >= 2 * c.F()
    requires forall i :: i in P ==> Open(c, good, g, cl, m, i)
    ensures Scene(c, good, g, cl') && Rest(good, cl, cl', P)
    ensures forall i :: i in P ==>
      && HasPrepared(For(c, i), cl[i], cl'[i], m.To(i))
      && cl'[i].timer.Some? && m.PrepareOf(i) in cl'[i].outbox
  {
    hide Ids, Reachable, Fits, HasAccepted, HasPrepared, Accepting;
    var cl1 := Propose(c, good, g, cl, m, P);
    forall i | i in P ensures Accepting(cl1, m, i) && m.PrepareOf(i) in cl1[i].outbox {
      assert Open(c, good, g, cl, m, i);
      StartsAccepting(For(c, i), cl, cl1, m, i);
    }
    cl' := Certify(c, good, g, cl1, m, P);
    forall i | i in P
      ensures HasPrepared(For(c, i), cl[i], cl'[i], m.To(i)) && cl'[i].timer.Some? && m.PrepareOf(i) in cl'[i].outbox
    {
      AcceptThenPrepare(For(c, i), cl[i], cl1[i], cl'[i], m.To(i));
    }
  }

  // ---------------------------------------------------------------- commit

  lemma CommitsSent(good: set<nat>, cl: Cluster, m: Motion, i: nat, ids: seq<nat>)
    requires cl.Keys == good
    requires forall j :: j in ids && j in good ==> m.CommitOf(j) in cl[j].outbox
    ensures Sent(good, cl, CommitsBy(m.To(i), ids))
  {
    var evs := CommitsBy(m.To(i), ids);
    forall k | 0 <= k < |evs| ensures evs[k].from in good ==> evs[k].msg in cl[evs[k].from].outbox {
      assert evs[k] in evs;
    }
  }

  /** i has prepared the proposal, which is the next to execute, and holds only its own commit. */
  ghost predicate Waits(cl: Cluster, m: Motion, i: nat) {
    && i in cl && InWindow(cl[i], m.view, m.seqNum) && m.seqNum in cl[i].log
    && cl[i].log[m.seqNum] == Ballot(m.To(i), Prepared, cl[i].log[m.seqNum].prepares, {i})
    && m.seqNum == cl[i].lastExec + 1 && m.seqNum + 1 !in cl[i].log
  }

  /** What makes i execute: the COMMITs of 2f others in Q. */
  ghost function CommittingVotes(c: Config, m: PrePrepareMsg, Q: set<nat>, i: nat): seq<Event>
    requires c.n >= 1
  {
    CommitsBy(m, Pick(Q, i, 2 * c.F()))
  }

  lemma OneExecutes(c: Config, good: set<nat>, g: Regime, cl: Cluster, m: Motion, Q: set<nat>, i: nat)
    requires Scene(c, good, g, cl) && Q <= Ids(c.n) && i in good && |Q| > 2 * c.F()
    requires Waits(cl, m, i) && forall j :: j in Q && j in good ==> m.CommitOf(j) in cl[j].outbox
    ensures
      var evs := CommittingVotes(c, m.To(i), Q, i);
      && Feedable(For(c, i), g, cl[i], evs) && Sent(good, cl, evs)
      && Ran(For(c, i), cl[i], Feed(For(c, i), cl[i], evs), m.To(i))
  {
    hide Ids, Reachable, Feed, Feedable, Ran, Increasing;
    var ids := Pick(Q, i, 2 * c.F());
    hide Pick;
    assert Others(For(c, i), ids);
    assert {i} !! Elements(ids);
    CommitsSent(good, cl, m, i, ids);
    FeedQuorum(For(c, i), g, cl[i], m.To(i), cl[i].log[m.seqNum].prepares, {i}, ids);
  }

  /** The replicas in E hear enough commits from Q and execute. */
  lemma AllExecute(c: Config, good: set<nat>, g: Regime, cl: Cluster, m: Motion, Q: set<nat>, E: set<nat>) returns (cl': Cluster)
    requires Scene(c, good, g, cl) && Q <= Ids(c.n) && E <= good && |Q| > 2 * c.F()
    requires forall i :: i in E ==> Waits(cl, m, i)
    requires forall j :: j in Q && j in good ==> m.CommitOf(j) in cl[j].outbox
    ensures Scene(c, good, g, cl') && Rest(good, cl, cl', E)
    ensures forall i :: i in E ==> Ran(For(c, i), cl[i], cl'[i], m.To(i))
  {
    hide Ids, Reachable, Feed, Feedable, Sent, Ran, Waits, CommittingVotes;
    var plan := map i | i in E :: CommittingVotes(c, m.To(i), Q, i);
    forall i | i in E
      ensures Feedable(For(c, i), g, cl[i], plan[i]) && Sent(good, cl, plan[i])
      ensures Ran(For(c, i), cl[i], Feed(For(c, i), cl[i], plan[i]), m.To(i))
    {
      OneExecutes(c, good, g, cl, m, Q, i);
    }
    AllHear(c, good, g, cl, plan);
    cl' := Heard(c, good, cl, plan);
  }

  lemma StartsWaiting(c: Config, cl: Cluster, cl': Cluster, m: Motion, i: nat)
    requires c.Valid() && c.id == i && i in cl && i in cl' && InWindow(cl[i], m.view, m.seqNum)
    requires HasPrepared(c, cl[i], cl'[i], m.To(i))
    requires m.seqNum == cl[i].lastExec + 1 && m.seqNum + 1 !in cl[i].log
    ensures Waits(cl', m, i)
  {
  }

  // ---------------------------------------------------------------- a whole round

  lemma StillThere(c: Config, st: State, st': State, m: PrePrepareMsg)
    requires c.Valid() && HasPrepared(c, st, st', m)
    ensures st'.history == st.history && st'.lastExec == st.lastExec
  {
  }

  lemma CommitsOut(c: Config, good: set<nat>, cl: Cluster, cl': Cluster, m: Motion, P: set<nat>)
    requires Sound(c, good) && cl.Keys == good && cl'.Keys == good && P <= good
    requires forall i :: i in P ==> HasPrepared(For(c, i), cl[i], cl'[i], m.To(i))
    ensures forall i :: i in P ==> m.CommitOf(i) in cl'[i].outbox
  {
  }

  /** The proposal is the next that i has to execute. */
  ghost predicate Next(cl: Cluster, m: Motion, i: nat) {
    i in cl && m.seqNum == cl[i].lastExec + 1 && m.seqNum + 1 !in cl[i].log
  }

  /** The primary proposes to P, who all prepare; those in E also hear commits from Q and execute. */
  lemma WholeRound(c: Config, good: set<nat>, g: Regime, cl: Cluster, m: Motion, P: set<nat>, Q: set<nat>, E: set<nat>)
    returns (cl1: Cluster, cl2: Cluster)
    requires Scene(c, good, g, cl) && P <= good && m.view % c.n !in P && |P| >= 2 * c.F()
    requires forall i :: i in P ==> Open(c, good, g, cl, m, i)
    requires E <= P && Q <= Ids(c.n) && Q * good <= P && |Q| > 2 * c.F()
    requires forall i :: i in E ==> Next(cl, m, i)
    ensures cl1.Keys == good && Scene(c, good, g, cl2) && Rest(good, cl, cl2, P)
    ensures forall i :: i in P - E ==> cl2[i].history == cl[i].history && cl2[i].lastExec == cl[i].lastExec
    ensures forall i :: i in E ==>
      HasPrepared(For(c, i), cl[i], cl1[i], m.To(i)) && Ran(For(c, i), cl1[i], cl2[i], m.To(i))
  {
    hide Ids, Reachable, HasPrepared, Waits, Ran, Open;
    cl1 := AllPrepare(c, good, g, cl, m, P);
    CommitsOut(c, good, cl, cl1, m, P);
    forall i | i in E ensures Waits(cl1, m, i) {
      assert Next(cl, m, i);
      OpenWindow(c, good, g, cl, m, i);
      StartsWaiting(For(c, i), cl, cl1, m, i);
    }
    cl2 := AllExecute(c, good, g, cl1, m, Q, E);
    forall i | i in P - E ensures cl2[i].history == cl[i].history && cl2[i].lastExec == cl[i].lastExec {
      StillThere(For(c, i), cl[i], cl1[i], m.To(i));
    }
  }

  lemma OpenWindow(c: Config, good: set<nat>, g: Regime, cl: Cluster, m: Motion, i: nat)
    requires c.n >= 1 && cl.Keys == good && i in good && Open(c, good, g, cl, m, i)
    ensures InWindow(cl[i], m.view, m.seqNum)
  {
  }
}
