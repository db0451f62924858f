/**
 * The hypotheses of replicated execution are exact. Where one of them fails, a faulty
 * first primary can lead two correct replicas to execute different requests under the
 * same number, in every cluster that is meant to tolerate a fault.
 */
module Necessity {
  import opened Messages
  import opened Collections
  import opened Handlers
  import opened Invariant
  import opened Cluster
  import opened Agreement
  import opened ReplicaRuns
  import opened Schedules
  import opened Steps
  import opened Rounds

  /** Histories of correct replicas are prefixes of one another in every schedule that obeys g. */
  ghost predicate AlwaysAgree(c: Config, good: set<nat>, g: Regime)
    requires Sound(c, good)
  {
    forall acts, i, j :: !Disagreement(c, good, g, acts, i, j)
  }

  ghost predicate Disagreement(c: Config, good: set<nat>, g: Regime, acts: seq<Action>, i: nat, j: nat)
    requires Sound(c, good)
  {
    && Schedule(c, good, g, acts) && i in good && j in good
    && Reach(c, good, g, acts)[i].lastExec <= Reach(c, good, g, acts)[j].lastExec
    && !PrefixOf(Reach(c, good, g, acts)[i].history, Reach(c, good, g, acts)[j].history)
  }

  /** n = 3f+1 replicas with f >= 1, at most f of them faulty, the first primary among those. */
  ghost predicate Table(c: Config, good: set<nat>) {
    MostlyCorrect(c, good) && c.F() >= 1 && 0 !in good
  }

  lemma AtTheTable(c: Config, good: set<nat>)
    requires Table(c, good)
    ensures Sound(c, good) && c.F() >= 1 && 0 !in good && |good| > 2 * c.F() && 0 % c.n == 0
  {
    SmallRemainder(0, c.n);
  }

  /** Somebody executed something else under the k-th number. */
  lemma Differ(c: Config, good: set<nat>, g: Regime, cl: Cluster, i: nat, j: nat, k: nat) returns (acts: seq<Action>)
    requires Scene(c, good, g, cl) && i in good && j in good && cl[i].lastExec <= cl[j].lastExec
    requires k < |cl[i].history| && k < |cl[j].history| && !SameStep(cl[i].history[k], cl[j].history[k])
    ensures Disagreement(c, good, g, acts, i, j)
    ensures Reach(c, good, g, acts) == cl
  {
    hide Reach, Schedule;
    acts :| Schedule(c, good, g, acts) && Reach(c, good, g, acts) == cl;
  }

  lemma Opening(c: Config, good: set<nat>, g: Regime) returns (cl: Cluster)
    requires Sound(c, good) && c.F() >= 1
    ensures Scene(c, good, g, cl) && forall i :: i in good ==> cl[i] == Init(For(c, i))
  {
    hide Reachable;
    StartReachable(c, good, g);
    cl := Start(c, good);
  }

  // ---------------------------------------------------------------- two requests under one digest

  /** Without `faithful`, a lying primary makes i execute r and j execute r' as number 1. */
  lemma TwoRequestsOneDigest(c: Config, good: set<nat>, g: Regime, d: Digest, r: RequestMsg, r': RequestMsg, i: nat, j: nat)
    returns (acts: seq<Action>)
    requires Table(c, good) && c.L >= 1 && !g.faithful && r != r' && i in good && j in good && i != j
    ensures Disagreement(c, good, g, acts, i, j)
    ensures
      var a, b := Reach(c, good, g, acts)[i].history, Reach(c, good, g, acts)[j].history;
      |a| == |b| == 1 && a[0].digest == b[0].digest == d && a[0].req == r && b[0].req == r'
  {
    hide Ids, Reachable, Table;
    AtTheTable(c, good);
    var m := Motion(0, 1, d, k => if k == i then r else r');
    var cl := Opening(c, good, g);
    var cl1, cl2 := WholeRound(c, good, g, cl, m, good, good, {i, j});
    StillThere(For(c, i), cl[i], cl1[i], m.To(i));
    StillThere(For(c, j), cl[j], cl1[j], m.To(j));
    hide HasPrepared;
    acts := Differ(c, good, g, cl2, i, j, 0);
  }

  // ---------------------------------------------------------------- two digests for one number

  /** The service after t times the same operation. */
  ghost function Repeated(service: Service, op: Bytes, t: nat): ServiceState {
    if t == 0 then service.init else service.execute(Repeated(service, op, t - 1), op).0
  }

  /** The digest that the first checkpoint gets. */
  ghost function First(c: Config, r: RequestMsg): Digest {
    c.service.digest(Repeated(c.service, r.operation, c.K))
  }

  /** Nothing but t times the request r under digest d has happened at this replica, t at most K_. */
  ghost predicate Steady(c: Config, st: State, d: Digest, r: RequestMsg, t: nat) {
    && st.view == 0 && !st.viewChanging && st.h == 0 && st.H == c.L
    && st.lastExec == |st.history| == t && (forall k :: 0 <= k < t ==> st.history[k].digest == d)
    && (forall s :: s in st.log ==> s <= t)
    && st.service == Repeated(c.service, r.operation, t)
    && if t < c.K then st.checkpoints == map[]
       else
         && t == c.K && st.checkpoints == map[c.K := CheckpointVotes(map[First(c, r) := {c.id}], false)]
         && Checkpoint(CheckpointMsg(c.K, First(c, r), c.id)) in st.outbox
  }

  lemma OneMore(c: Config, st: State, st1: State, st2: State, d: Digest, r: RequestMsg, t: nat)
    requires c.Valid() && t < c.K && Steady(c, st, d, r, t)
    requires HasPrepared(c, st, st1, PrePrepareMsg(0, t + 1, d, r)) && Ran(c, st1, st2, PrePrepareMsg(0, t + 1, d, r))
    ensures Steady(c, st2, d, r, t + 1)
  {
    var none: set<nat> := {};
    assert none + {c.id} == {c.id};
    SmallRemainder(t + 1, c.K);
    assert c.K % c.K == 0;
  }

  lemma NextIsOpen(c: Config, st: State, d: Digest, r: RequestMsg, t: nat)
    requires t < c.K <= c.L && Steady(c, st, d, r, t)
    ensures InWindow(st, 0, t + 1) && t + 1 !in st.log && t + 2 !in st.log && st.h == 0 && st.lastExec == t
  {
  }

  /** The replicas in P execute the request once more, with the commit of the faulty primary if they need it. */
  lemma Round(c: Config, good: set<nat>, g: Regime, cl: Cluster, d: Digest, r: RequestMsg, t: nat, P: set<nat>) returns (cl': Cluster)
    requires Table(c, good) && Scene(c, good, g, cl) && t < c.K <= c.L && (g.faithful ==> r == g.reqOf(d))
    requires P <= good && |P| >= 2 * c.F()
    requires forall i :: i in P ==> Steady(For(c, i), cl[i], d, r, t)
    ensures Scene(c, good, g, cl') && Rest(good, cl, cl', P)
    ensures forall i :: i in P ==> Steady(For(c, i), cl'[i], d, r, t + 1)
  {
    hide Ids, Reachable, HasPrepared, Ran, Steady, Table;
    AtTheTable(c, good);
    var m := Motion(0, t + 1, d, k => r);
    forall i | i in P ensures Open(c, good, g, cl, m, i) && Next(cl, m, i) {
      NextIsOpen(For(c, i), cl[i], d, r, t);
    }
    hide Open, Next;
    assert |P + {0}| == |P| + 1;
    var cl1;
    cl1, cl' := WholeRound(c, good, g, cl, m, P, P + {0}, P);
    forall i | i in P ensures Steady(For(c, i), cl'[i], d, r, t + 1) {
      OneMore(For(c, i), cl[i], cl1[i], cl'[i], d, r, t);
    }
  }

  /** All correct replicas execute the request t times. */
  lemma {:induction false} ManyRounds(c: Config, good: set<nat>, g: Regime, d: Digest, r: RequestMsg, t: nat) returns (cl: Cluster)
    requires Table(c, good) && t < c.K <= c.L && (g.faithful ==> r == g.reqOf(d))
    ensures Scene(c, good, g, cl) && forall i :: i in good ==> Steady(For(c, i), cl[i], d, r, t)
  {
    hide Ids, Reachable;
    if t == 0 {
      cl := Opening(c, good, g);
    } else {
      cl := ManyRounds(c, good, g, d, r, t - 1);
      cl := Round(c, good, g, cl, d, r, t - 1, good);
    }
  }

  /** Everybody but z gets as far as the first checkpoint. */
  lemma AllButOne(c: Config, good: set<nat>, g: Regime, d: Digest, r: RequestMsg, z: nat) returns (cl: Cluster)
    requires Table(c, good) && c.K <= c.L && (g.faithful ==> r == g.reqOf(d)) && z in good
    ensures Scene(c, good, g, cl)
    ensures forall i :: i in good ==> Steady(For(c, i), cl[i], d, r, if i == z then c.K - 1 else c.K)
  {
    hide Ids, Reachable, Steady;
    cl := ManyRounds(c, good, g, d, r, c.K - 1);
    assert |good - {z}| == |good| - 1;
    cl := Round(c, good, g, cl, d, r, c.K - 1, good - {z});
  }

  lemma VotesSent(good: set<nat>, cl: Cluster, s: nat, d: Digest, ids: seq<nat>)
    requires cl.Keys == good
    requires forall j :: j in ids && j in good ==> VoteBy(s, d, j).msg in cl[j].outbox
    ensures Sent(good, cl, VotesBy(s, d, ids))
  {
    var evs := VotesBy(s, d, ids);
    forall k | 0 <= k < |evs| ensures evs[k].from in good ==> evs[k].msg in cl[evs[k].from].outbox {
      assert evs[k] in evs;
    }
  }

  lemma SteadyVotes(c: Config, st: State, d: Digest, r: RequestMsg, t: nat)
    requires c.Valid() && Steady(c, st, d, r, t)
    ensures t == c.K ==> VoteBy(c.K, First(c, r), c.id).msg in st.outbox
    ensures t < c.K ==> Polled(st, c.K, First(c, r), {})
    ensures t == c.K ==> Polled(st, c.K, First(c, r), {c.id})
  {
  }

  /** The votes of all but z, and of the faulty primary, that replica i hears. */
  ghost function Ballots(c: Config, good: set<nat>, r: RequestMsg, z: nat, i: nat): seq<Event>
    requires c.n >= 1
  {
    VotesBy(c.K, First(c, r), Pick(good - {z} + {0}, i, if i == z then 2 * c.F() + 1 else 2 * c.F()))
  }

  lemma BallotsSent(c: Config, good: set<nat>, cl: Cluster, d: Digest, r: RequestMsg, z: nat, i: nat)
    requires Sound(c, good) && cl.Keys == good && 0 !in good
    requires forall k :: k in good ==> Steady(For(c, k), cl[k], d, r, if k == z then c.K - 1 else c.K)
    ensures Sent(good, cl, Ballots(c, good, r, z, i))
  {
    hide Ids, Steady;
    var ids := Pick(good - {z} + {0}, i, if i == z then 2 * c.F() + 1 else 2 * c.F());
    hide Pick;
    forall j | j in ids && j in good ensures VoteBy(c.K, First(c, r), j).msg in cl[j].outbox {
      SteadyVotes(For(c, j), cl[j], d, r, c.K);
    }
    VotesSent(good, cl, c.K, First(c, r), ids);
  }

  /** A replica that hears from 2f+1 others, or from 2f if it has voted itself. */
  lemma StableOne(c: Config, g: Regime, st: State, D: Digest, voters: set<nat>, own: bool)
    requires Tolerant(c) && voters <= Ids(c.n) && |voters| > 2 * c.F() && (c.id !in voters || own)
    requires Polled(st, c.K, D, if own then {c.id} else {})
    ensures
      var evs := VotesBy(c.K, D, Pick(voters, c.id, if own then 2 * c.F() else 2 * c.F() + 1));
      Feedable(c, g, st, evs) && Collected(c, st, Feed(c, st, evs), c.K)
  {
    hide Ids, Feed, Feedable, Collected, Polled;
    var ids := Pick(voters, c.id, if own then 2 * c.F() else 2 * c.F() + 1);
    hide Pick;
    assert Others(c, ids);
    assert c.id !in Elements(ids);
    if own {
      FeedStable(c, g, st, c.K, D, {c.id}, ids);
    } else {
      FeedStable(c, g, st, c.K, D, {}, ids);
    }
  }

  lemma CollectOne(c: Config, good: set<nat>, g: Regime, cl: Cluster, d: Digest, r: RequestMsg, z: nat, i: nat)
    requires Table(c, good) && cl.Keys == good && z in good && i in good
    requires forall k :: k in good ==> Steady(For(c, k), cl[k], d, r, if k == z then c.K - 1 else c.K)
    ensures
      var evs := Ballots(c, good, r, z, i);
      && Feedable(For(c, i), g, cl[i], evs) && Sent(good, cl, evs)
      && Collected(For(c, i), cl[i], Feed(For(c, i), cl[i], evs), c.K)
  {
    hide Ids, Feed, Feedable, Sent, Collected, Steady, Polled, Pick, VotesBy;
    BallotsSent(c, good, cl, d, r, z, i);
    SteadyVotes(For(c, i), cl[i], d, r, if i == z then c.K - 1 else c.K);
    assert |good - {z} + {0}| == |good|;
    StableOne(For(c, i), g, cl[i], First(c, r), good - {z} + {0}, i != z);
  }

  /** The checkpoint becomes stable at every correct replica, also at z, which has not got there. */
  lemma AllCollect(c: Config, good: set<nat>, g: Regime, cl: Cluster, d: Digest, r: RequestMsg, z: nat) returns (cl': Cluster)
    requires Table(c, good) && Scene(c, good, g, cl) && z in good
    requires forall i :: i in good ==> Steady(For(c, i), cl[i], d, r, if i == z then c.K - 1 else c.K)
    ensures Scene(c, good, g, cl') && forall i :: i in good ==> Collected(For(c, i), cl[i], cl'[i], c.K)
  {
    hide Ids, Reachable, Feed, Feedable, Sent, Collected, Steady, Ballots;
    var plan := map i | i in good :: Ballots(c, good, r, z, i);
    forall i | i in good
      ensures Feedable(For(c, i), g, cl[i], plan[i]) && Sent(good, cl, plan[i])
      ensures Collected(For(c, i), cl[i], Feed(For(c, i), cl[i], plan[i]), c.K)
    {
      CollectOne(c, good, g, cl, d, r, z, i);
    }
    AllHear(c, good, g, cl, plan);
    cl' := Heard(c, good, cl, plan);
  }

  /** The first checkpoint is stable here, and t times digest d has been executed. */
  ghost predicate Cleared(c: Config, st: State, d: Digest, t: nat) {
    && InWindow(st, 0, c.K) && c.K !in st.log && c.K + 1 !in st.log && st.h == c.K
    && st.lastExec == |st.history| == t && forall k :: 0 <= k < t ==> st.history[k].digest == d
  }

  lemma ClearedOf(c: Config, st: State, st': State, d: Digest, r: RequestMsg, t: nat)
    requires Steady(c, st, d, r, t) && Collected(c, st, st', c.K) && t <= c.K
    ensures Cleared(c, st', d, t)
  {
  }

  lemma AllClear(c: Config, good: set<nat>, g: Regime, d: Digest, r: RequestMsg, z: nat) returns (cl: Cluster)
    requires Table(c, good) && c.K <= c.L && (g.faithful ==> r == g.reqOf(d)) && z in good
    ensures Scene(c, good, g, cl)
    ensures forall i :: i in good ==> Cleared(For(c, i), cl[i], d, if i == z then c.K - 1 else c.K)
  {
    hide Ids, Reachable, Steady, Collected, Cleared;
    var cl0 := AllButOne(c, good, g, d, r, z);
    cl := AllCollect(c, good, g, cl0, d, r, z);
    forall i | i in good ensures Cleared(For(c, i), cl[i], d, if i == z then c.K - 1 else c.K) {
      ClearedOf(For(c, i), cl0[i], cl[i], d, r, if i == z then c.K - 1 else c.K);
    }
  }

  /** The number of the stable checkpoint is proposed once more, and z, which alone has not executed it, does. */
  lemma ExecuteAgain(c: Config, good: set<nat>, g: Regime, cl: Cluster, m: Motion, d: Digest, z: nat, i: nat) returns (cl': Cluster)
    requires Table(c, good) && Scene(c, good, g, cl) && !g.strict && z in good && i in good && z != i
    requires m.view == 0 && m.seqNum == c.K && (g.faithful ==> forall k :: m.req(k) == g.reqOf(m.digest))
    requires forall k :: k in good ==> Cleared(For(c, k), cl[k], d, if k == z then c.K - 1 else c.K)
    ensures Scene(c, good, g, cl') && cl'[i].history == cl[i].history && cl'[i].lastExec == cl[i].lastExec
    ensures cl'[z].lastExec == |cl'[z].history| == c.K && cl'[z].history[c.K - 1].digest == m.digest
  {
    hide Ids, Reachable, HasPrepared, Table;
    AtTheTable(c, good);
    forall k | k in good ensures Open(c, good, g, cl, m, k) {
      assert Cleared(For(c, k), cl[k], d, if k == z then c.K - 1 else c.K);
    }
    assert Cleared(For(c, z), cl[z], d, c.K - 1);
    hide Open, Cleared;
    var cl1;
    cl1, cl' := WholeRound(c, good, g, cl, m, good, good, {z});
    StillThere(For(c, z), cl[z], cl1[z], m.To(z));
  }

  /**
   * Without `strict`, a collected number can be proposed again: z, which has not executed it,
   * executes d' there although the others have executed d.
   */
  lemma TwoDigestsAtLowWatermark(c: Config, good: set<nat>, g: Regime, d: Digest, d': Digest, r: RequestMsg, r': RequestMsg, z: nat, i: nat)
    returns (acts: seq<Action>)
    requires Table(c, good) && c.K <= c.L && !g.strict && d != d' && z in good && i in good && z != i
    requires g.faithful ==> r == g.reqOf(d) && r' == g.reqOf(d')
    ensures Disagreement(c, good, g, acts, z, i)
    ensures
      var a, b := Reach(c, good, g, acts)[z].history, Reach(c, good, g, acts)[i].history;
      |a| == |b| == c.K && a[c.K - 1].digest == d' && b[c.K - 1].digest == d
  {
    hide Ids, Reachable, Reach, Schedule;
    var cl := AllClear(c, good, g, d, r, z);
    assert Cleared(For(c, i), cl[i], d, c.K);
    var cl' := ExecuteAgain(c, good, g, cl, Motion(0, c.K, d', k => r'), d, z, i);
    hide Cleared;
    acts := Differ(c, good, g, cl', z, i, c.K - 1);
  }

  // ---------------------------------------------------------------- exactness

  /** In a window of length 0 nothing is ever executed. */
  lemma NoWindow(c: Config, good: set<nat>, g: Regime, acts: seq<Action>, i: nat)
    requires MostlyCorrect(c, good) && HashFits(c, g) && Schedule(c, good, g, acts) && i in good && c.L == 0
    ensures Reach(c, good, g, acts)[i].history == []
  {
    hide Inv, Reach, Schedule;
    NeverCollects(c, good, g, acts);
    ReachInv(c, good, g, acts);
    WithinWindow(For(c, i), g, Reach(c, good, g, acts)[i]);
    HistoryFacts(For(c, i), g, Reach(c, good, g, acts)[i]);
  }

  /**
   * In every cluster that is meant to tolerate a fault and whose first primary is faulty,
   * replicated execution holds in all schedules obeying g exactly when pre-prepares carry
   * the request of their digest and are not let in at the low watermark. The second is not
   * needed where the window ends before the first checkpoint, and neither is where nothing
   * fits in the window.
   */
  lemma HypothesesAreExact(c: Config, good: set<nat>, g: Regime)
    requires Table(c, good) && (g.faithful && Lasting(c, g) ==> HashFits(c, g))
    ensures AlwaysAgree(c, good, g) <==> c.L == 0 || (g.faithful && (g.strict || c.K > c.L))
  {
    hide Reach, Schedule;
    if c.L == 0 {
      forall acts, i, j | Disagreement(c, good, g, acts, i, j) ensures false {
        NoWindow(c, good, g, acts, i);
      }
    } else if g.faithful && Lasting(c, g) {
      forall acts, i, j | Disagreement(c, good, g, acts, i, j) ensures false {
        ReplicatedExecution(c, good, g, acts, i, j);
      }
    } else {
      var i, j := TwoOf(good);
      if !g.faithful {
        var acts := TwoRequestsOneDigest(c, good, g, 0, RequestMsg([], 0, 0), RequestMsg([], 1, 0), i, j);
      } else {
        var acts := TwoDigestsAtLowWatermark(c, good, g, 0, 1, g.reqOf(0), g.reqOf(1), i, j);
      }
    }
  }

  lemma TwoOf(s: set<nat>) returns (i: nat, j: nat)
    requires |s| >= 2
    ensures i in s && j in s && i != j
  {
    i :| i in s;
    assert |s - {i}| >= 1;
    j :| j in s - {i};
  }
}
