/** What the correct replicas of a cluster agree on, over every schedule. */
module Agreement {
  import opened Messages
  import opened Collections
  import opened NewViews
  import opened Handlers
  import opened Invariant
  import opened Cluster

  // ---------------------------------------------------------------- from local knowledge to global facts

  /** A COMMIT that one correct replica knows of and another correct one sent. */
  lemma CommitReal(c: Config, good: set<nat>, g: Regime, cl: Cluster, i: nat, j: nat, s: nat, d: Digest)
    requires Sound(c, good) && cl.Keys == good && ClusterInv(c, good, g, cl) && i in good && j in good
    requires CommitKnown(For(c, i), cl[i].inbox, cl[i].outbox, s, d, j)
    ensures HasCommit(cl[j].outbox, s, d, j)
  {
    hide Inv;
    if j != i {
      var v: nat :| Packet(j, Commit(CommitMsg(v, s, d, j))) in cl[i].inbox;
      assert Packet(j, Commit(CommitMsg(v, s, d, j))).msg in cl[j].outbox;
    }
  }

  lemma VoteReal(c: Config, good: set<nat>, g: Regime, cl: Cluster, i: nat, m: CheckpointMsg)
    requires Sound(c, good) && cl.Keys == good && ClusterInv(c, good, g, cl) && i in good && m.replicaId in good
    requires VoteKnown(For(c, i), cl[i].inbox, cl[i].outbox, m)
    ensures Checkpoint(m) in cl[m.replicaId].outbox
  {
    hide Inv;
    if m.replicaId != i {
      assert Packet(m.replicaId, Checkpoint(m)).msg in cl[m.replicaId].outbox;
    }
  }

  // ---------------------------------------------------------------- commit agreement

  lemma CommittedFacts(c: Config, g: Regime, st: State, s: nat)
    requires c.Valid() && Inv(c, g, st) && s in st.log && st.log[s].stage == Committed
    ensures st.log[s].commits <= Ids(c.n) && |st.log[s].commits| >= 2 * c.F() + 1
    ensures forall j :: j in st.log[s].commits ==> CommitKnown(c, st.inbox, st.outbox, s, st.log[s].digest, j)
  {
  }

  lemma LockedCommit(c: Config, g: Regime, st: State, s: nat, d: Digest)
    requires c.Valid() && Inv(c, g, st) && HasCommit(st.outbox, s, d, c.id) && s > st.h
    ensures s in st.log && st.log[s].digest == d
  {
  }

  /**
   * Commit agreement across views: above the low watermarks of the correct replicas,
   * any two of them that have committed s hold the same digest for it, in whatever
   * views they committed.
   */
  lemma CommitAgreement(c: Config, good: set<nat>, g: Regime, acts: seq<Action>, i: nat, j: nat, s: nat)
    requires MostlyCorrect(c, good) && HashFits(c, g) && Schedule(c, good, g, acts)
    requires i in good && j in good
    requires
      var cl := Reach(c, good, g, acts);
      && (forall k :: k in good ==> cl[k].h < s)
      && s in cl[i].log && cl[i].log[s].stage == Committed
      && s in cl[j].log && cl[j].log[s].stage == Committed
    ensures Reach(c, good, g, acts)[i].log[s].digest == Reach(c, good, g, acts)[j].log[s].digest
  {
    hide Inv, Reach, Schedule;
    var cl := Reach(c, good, g, acts);
    ReachInv(c, good, g, acts);
    CommittedFacts(For(c, i), g, cl[i], s);
    CommittedFacts(For(c, j), g, cl[j], s);
    var k := QuorumsMeet(c.n, c.F(), good, cl[i].log[s].commits, cl[j].log[s].commits);
    CommitReal(c, good, g, cl, i, k, s, cl[i].log[s].digest);
    CommitReal(c, good, g, cl, j, k, s, cl[j].log[s].digest);
    LockedCommit(For(c, k), g, cl[k], s, cl[i].log[s].digest);
    LockedCommit(For(c, k), g, cl[k], s, cl[j].log[s].digest);
  }

  // ---------------------------------------------------------------- checkpoints

  /** The replicas that have announced digest d for s. */
  ghost predicate Announced(cl: Cluster, j: nat, s: nat, d: Digest) {
    j in cl && Checkpoint(CheckpointMsg(s, d, j)) in cl[j].outbox
  }

  /** 2f+1 ids, of which the correct ones have announced d for s. */
  ghost predicate Quorum(c: Config, good: set<nat>, cl: Cluster, s: nat, d: Digest, q: set<nat>)
    requires c.n >= 1
  {
    && q <= Ids(c.n) && |q| >= 2 * c.F() + 1
    && forall j :: j in q && j in good ==> Announced(cl, j, s, d)
  }

  lemma StableFacts(c: Config, g: Regime, st: State) returns (q: set<nat>)
    requires c.Valid() && Inv(c, g, st) && st.h > 0
    ensures st.lastStableDigest.Some?
    ensures q <= Ids(c.n) && |q| >= 2 * c.F() + 1
    ensures forall j :: j in q ==> VoteKnown(c, st.inbox, st.outbox, CheckpointMsg(st.h, st.lastStableDigest.value, j))
  {
    q := Voters(st.checkpoints[st.h].votes, st.lastStableDigest.value);
    assert VotersOk(c, st.checkpoints[st.h].votes, st.h, st.inbox, st.outbox);
  }

  lemma StableQuorum(c: Config, good: set<nat>, g: Regime, cl: Cluster, i: nat) returns (q: set<nat>)
    requires Sound(c, good) && cl.Keys == good && ClusterInv(c, good, g, cl) && i in good && cl[i].h > 0
    ensures cl[i].lastStableDigest.Some?
    ensures Quorum(c, good, cl, cl[i].h, cl[i].lastStableDigest.value, q)
  {
    hide Inv;
    q := StableFacts(For(c, i), g, cl[i]);
    var d := cl[i].lastStableDigest.value;
    forall j | j in q && j in good ensures Announced(cl, j, cl[i].h, d) {
      VoteReal(c, good, g, cl, i, CheckpointMsg(cl[i].h, d, j));
    }
  }

  /** What a correct replica's announcement says about that replica. */
  lemma AnnouncementFacts(c: Config, g: Regime, st: State, s: nat, d: Digest)
    requires c.Valid() && Inv(c, g, st) && Checkpoint(CheckpointMsg(s, d, c.id)) in st.outbox
    ensures 0 < s <= st.lastExec && s % c.K == 0 && |st.history| == st.lastExec && d == DigestAt(c.service, st.history, s)
  {
    var i :| 0 <= i < |st.outbox| && st.outbox[i] == Checkpoint(CheckpointMsg(s, d, c.id));
  }

  /** Two quorums for the same number announce the same digest. */
  lemma QuorumsAgree(c: Config, good: set<nat>, g: Regime, cl: Cluster, s: nat, d: Digest, d': Digest, q: set<nat>, q': set<nat>)
    requires MostlyCorrect(c, good) && cl.Keys == good && ClusterInv(c, good, g, cl)
    requires Quorum(c, good, cl, s, d, q) && Quorum(c, good, cl, s, d', q')
    ensures d == d'
  {
    hide Inv;
    var j := QuorumsMeet(c.n, c.F(), good, q, q');
    assert Announced(cl, j, s, d) && Announced(cl, j, s, d');
    AnnouncementFacts(For(c, j), g, cl[j], s, d);
    AnnouncementFacts(For(c, j), g, cl[j], s, d');
  }

  /**
   * Stable checkpoint agreement over a whole schedule: if i marks s stable at one moment
   * and j marks s stable at another, their stable digests are equal.
   */
  lemma StableCheckpointAgreement(c: Config, good: set<nat>, g: Regime, acts: seq<Action>, k: nat, m: nat, i: nat, j: nat)
    requires MostlyCorrect(c, good) && HashFits(c, g) && Schedule(c, good, g, acts) && k <= m <= |acts|
    requires Schedule(c, good, g, acts[..k]) && Schedule(c, good, g, acts[..m])
    requires i in good && j in good
    requires
      var a := Reach(c, good, g, acts[..k])[i];
      var b := Reach(c, good, g, acts[..m])[j];
      a.h == b.h > 0
    ensures Reach(c, good, g, acts[..k])[i].lastStableDigest == Reach(c, good, g, acts[..m])[j].lastStableDigest
  {
    hide Inv, Reach, Schedule;
    assert acts[..m][..k] == acts[..k];
    ReachGrows(c, good, g, acts[..m], k);
    ReachInv(c, good, g, acts[..k]);
    ReachInv(c, good, g, acts[..m]);
    var a, b := Reach(c, good, g, acts[..k]), Reach(c, good, g, acts[..m]);
    var q := StableQuorum(c, good, g, a, i);
    var q' := StableQuorum(c, good, g, b, j);
    var s, d := a[i].h, a[i].lastStableDigest.value;
    forall r | r in q && r in good ensures Announced(b, r, s, d) {
      assert Announced(a, r, s, d);
    }
    assert Quorum(c, good, b, s, d, q);
    QuorumsAgree(c, good, g, b, s, d, b[j].lastStableDigest.value, q, q');
  }

  /**
   * Garbage collection is safe: what a correct replica has dropped below a positive low
   * watermark, at least f+1 correct replicas have executed, and they announced exactly
   * its stable digest for that point.
   */
  lemma CollectionIsSafe(c: Config, good: set<nat>, g: Regime, acts: seq<Action>, i: nat) returns (witnesses: set<nat>)
    requires MostlyCorrect(c, good) && HashFits(c, g) && Schedule(c, good, g, acts) && i in good
    requires Reach(c, good, g, acts)[i].h > 0
    ensures
      var cl := Reach(c, good, g, acts);
      var h := cl[i].h;
      && cl[i].lastStableDigest.Some?
      && h % c.K == 0
      && witnesses <= good && |witnesses| >= c.F() + 1
      && (forall j :: j in witnesses ==>
            && h <= cl[j].lastExec == |cl[j].history|
            && Checkpoint(CheckpointMsg(h, cl[i].lastStableDigest.value, j)) in cl[j].outbox
            && cl[i].lastStableDigest.value == DigestAt(c.service, cl[j].history, h))
  {
    hide Inv, Reach, Schedule;
    var cl := Reach(c, good, g, acts);
    ReachInv(c, good, g, acts);
    var q := StableQuorum(c, good, g, cl, i);
    witnesses := q * good;
    Overlap(q, good, Ids(c.n));
    forall j | j in witnesses
      ensures cl[i].h <= cl[j].lastExec == |cl[j].history| && cl[i].h % c.K == 0
      ensures Checkpoint(CheckpointMsg(cl[i].h, cl[i].lastStableDigest.value, j)) in cl[j].outbox
      ensures cl[i].lastStableDigest.value == DigestAt(c.service, cl[j].history, cl[i].h)
    {
      assert Announced(cl, j, cl[i].h, cl[i].lastStableDigest.value);
      AnnouncementFacts(For(c, j), g, cl[j], cl[i].h, cl[i].lastStableDigest.value);
    }
    var j :| j in witnesses;
  }

  // ---------------------------------------------------------------- replicated execution

  lemma ExecutedFacts(c: Config, g: Regime, st: State, k: nat)
    requires c.Valid() && Inv(c, g, st) && k < |st.history|
    ensures StepOk(c, g, st.history, k)
    ensures forall j :: j in st.history[k].committers ==>
              CommitKnown(c, st.inbox, st.outbox, k + 1, st.history[k].digest, j)
  {
  }

  lemma OneCommit(c: Config, g: Regime, st: State, s: nat, d: Digest, d': Digest)
    requires c.Valid() && Inv(c, g, st) && g.strict
    requires HasCommit(st.outbox, s, d, c.id) && HasCommit(st.outbox, s, d', c.id)
    ensures d == d'
  {
    var v: nat :| Commit(CommitMsg(v, s, d, c.id)) in st.outbox;
    var v': nat :| Commit(CommitMsg(v', s, d', c.id)) in st.outbox;
    assert OneVote(g, st.outbox);
  }

  // ---- when a vote is for good

  /** The digest lock outlives garbage collection, or there is never any garbage collection. */
  ghost predicate Lasting(c: Config, g: Regime) {
    g.strict || c.K > c.L
  }

  lemma WithinWindow(c: Config, g: Regime, st: State)
    requires c.Valid() && Inv(c, g, st)
    ensures st.lastExec <= st.h + c.L
  {
  }

  /** Where something was collected, some correct replica has executed through the first checkpoint. */
  lemma SomeoneGotThere(c: Config, good: set<nat>, g: Regime, acts: seq<Action>, i: nat) returns (j: nat)
    requires MostlyCorrect(c, good) && HashFits(c, g) && Schedule(c, good, g, acts) && i in good
    requires Reach(c, good, g, acts)[i].h > 0
    ensures j in good && Reach(c, good, g, acts)[j].lastExec >= c.K
  {
    hide Reach, Schedule, DigestAt;
    var witnesses := CollectionIsSafe(c, good, g, acts, i);
    j :| j in witnesses;
    var h := Reach(c, good, g, acts)[i].h;
    SmallRemainder(h, c.K);
  }

  /** The last action of a schedule. */
  lemma LastAction(c: Config, good: set<nat>, g: Regime, acts: seq<Action>) returns (cl: Cluster, a: Action)
    requires Sound(c, good) && Schedule(c, good, g, acts) && acts != []
    ensures Schedule(c, good, g, acts[..|acts| - 1]) && cl == Reach(c, good, g, acts[..|acts| - 1])
    ensures a.at in good && Reach(c, good, g, acts) == cl[a.at := Handle(For(c, a.at), cl[a.at], a.ev)]
  {
    hide Handle, Obeys, Possible;
    cl, a := Reach(c, good, g, acts[..|acts| - 1]), acts[|acts| - 1];
  }

  lemma AtStart(c: Config, good: set<nat>, g: Regime)
    requires Sound(c, good)
    ensures Schedule(c, good, g, []) && Reach(c, good, g, []) == Start(c, good)
  {
  }

  /** If the window ends before the first checkpoint, no checkpoint ever becomes stable. */
  lemma {:induction false} NeverCollects(c: Config, good: set<nat>, g: Regime, acts: seq<Action>)
    requires MostlyCorrect(c, good) && HashFits(c, g) && Schedule(c, good, g, acts) && c.K > c.L
    ensures forall i :: i in good ==> Reach(c, good, g, acts)[i].h == 0
  {
    hide Inv, Handle, Reach, Schedule, HashFits;
    if acts == [] {
      AtStart(c, good, g);
    } else {
      var cl, a := LastAction(c, good, g, acts);
      NeverCollects(c, good, g, acts[..|acts| - 1]);
      ReachInv(c, good, g, acts[..|acts| - 1]);
      if Reach(c, good, g, acts)[a.at].h > 0 {
        var j := SomeoneGotThere(c, good, g, acts, a.at);
        WithinWindow(For(c, j), g, cl[j]);
        assert false;
      }
    }
  }

  /** Then a correct replica commits at most one digest under each number, ever. */
  lemma OneCommitEver(c: Config, good: set<nat>, g: Regime, acts: seq<Action>, i: nat, s: nat, d: Digest, d': Digest)
    requires MostlyCorrect(c, good) && HashFits(c, g) && Lasting(c, g) && Schedule(c, good, g, acts) && i in good && s > 0
    requires HasCommit(Reach(c, good, g, acts)[i].outbox, s, d, i) && HasCommit(Reach(c, good, g, acts)[i].outbox, s, d', i)
    ensures d == d'
  {
    hide Inv, Reach, Schedule, HasCommit;
    var st := Reach(c, good, g, acts)[i];
    ReachInv(c, good, g, acts);
    if g.strict {
      OneCommit(For(c, i), g, st, s, d, d');
    } else {
      NeverCollects(c, good, g, acts);
      LockedCommit(For(c, i), g, st, s, d);
      LockedCommit(For(c, i), g, st, s, d');
    }
  }

  /**
   * If no pre-prepare is let in for the receiver's low watermark itself, or if the window
   * ends before the first checkpoint, two correct replicas never execute different digests
   * under one number, however far apart they are.
   */
  lemma ExecutedDigestAgreement(c: Config, good: set<nat>, g: Regime, acts: seq<Action>, i: nat, j: nat, k: nat)
    requires MostlyCorrect(c, good) && HashFits(c, g) && Lasting(c, g) && Schedule(c, good, g, acts)
    requires i in good && j in good
    requires k < |Reach(c, good, g, acts)[i].history| && k < |Reach(c, good, g, acts)[j].history|
    ensures Reach(c, good, g, acts)[i].history[k].digest == Reach(c, good, g, acts)[j].history[k].digest
  {
    hide Inv, Reach, Schedule;
    var cl := Reach(c, good, g, acts);
    ReachInv(c, good, g, acts);
    ExecutedFacts(For(c, i), g, cl[i], k);
    ExecutedFacts(For(c, j), g, cl[j], k);
    var x, y := cl[i].history[k], cl[j].history[k];
    var r := QuorumsMeet(c.n, c.F(), good, x.committers, y.committers);
    CommitReal(c, good, g, cl, i, r, k + 1, x.digest);
    CommitReal(c, good, g, cl, j, r, k + 1, y.digest);
    OneCommitEver(c, good, g, acts, r, k + 1, x.digest, y.digest);
  }

  /**
   * Under the same hypothesis a committed entry, wherever the watermarks are, agrees with
   * what any correct replica has executed under that number.
   */
  lemma CommittedMatchesExecuted(c: Config, good: set<nat>, g: Regime, acts: seq<Action>, i: nat, j: nat, s: nat)
    requires MostlyCorrect(c, good) && HashFits(c, g) && Lasting(c, g) && Schedule(c, good, g, acts)
    requires i in good && j in good
    requires s in Reach(c, good, g, acts)[i].log && Reach(c, good, g, acts)[i].log[s].stage == Committed
    requires 0 < s <= |Reach(c, good, g, acts)[j].history|
    ensures Reach(c, good, g, acts)[i].log[s].digest == Reach(c, good, g, acts)[j].history[s - 1].digest
  {
    hide Inv, Reach, Schedule;
    var cl := Reach(c, good, g, acts);
    ReachInv(c, good, g, acts);
    CommittedFacts(For(c, i), g, cl[i], s);
    ExecutedFacts(For(c, j), g, cl[j], s - 1);
    var d, y := cl[i].log[s].digest, cl[j].history[s - 1];
    var r := QuorumsMeet(c.n, c.F(), good, cl[i].log[s].commits, y.committers);
    CommitReal(c, good, g, cl, i, r, s, d);
    CommitReal(c, good, g, cl, j, r, s, y.digest);
    OneCommitEver(c, good, g, acts, r, s, d, y.digest);
  }

  /** The same request under the same digest with the same answer. */
  predicate SameStep(x: Executed, y: Executed) {
    x.digest == y.digest && x.req == y.req && x.result == y.result
  }

  /** a is a prefix of b, as far as clients and the service can tell. */
  ghost predicate PrefixOf(a: seq<Executed>, b: seq<Executed>) {
    |a| <= |b| && forall k :: 0 <= k < |a| ==> SameStep(a[k], b[k])
  }

  lemma {:induction false} SameAfter(service: Service, a: seq<Executed>, b: seq<Executed>)
    requires |a| == |b| && forall k :: 0 <= k < |a| ==> a[k].req == b[k].req
    ensures After(service, a) == After(service, b)
  {
    if a != [] {
      SameAfter(service, a[..|a| - 1], b[..|b| - 1]);
    }
  }

  /**
   * Replicated execution: in schedules that let in only pre-prepares that carry the request
   * their digest stands for and are not for the receiver's low watermark (which does not
   * matter where the window ends before the first checkpoint), the histories of any two
   * correct replicas are prefixes of one another, through garbage collection and
   * view changes, and replicas that have executed equally far are in the same state.
   */
  lemma ReplicatedExecution(c: Config, good: set<nat>, g: Regime, acts: seq<Action>, i: nat, j: nat)
    requires MostlyCorrect(c, good) && HashFits(c, g) && Lasting(c, g) && g.faithful && Schedule(c, good, g, acts)
    requires i in good && j in good
    requires Reach(c, good, g, acts)[i].lastExec <= Reach(c, good, g, acts)[j].lastExec
    ensures
      var cl := Reach(c, good, g, acts);
      && PrefixOf(cl[i].history, cl[j].history)
      && (cl[i].lastExec == cl[j].lastExec ==> cl[i].service == cl[j].service)
  {
    hide Inv, Reach, Schedule;
    var cl := Reach(c, good, g, acts);
    ReachInv(c, good, g, acts);
    HistoryFacts(For(c, i), g, cl[i]);
    HistoryFacts(For(c, j), g, cl[j]);
    var a, b := cl[i].history, cl[j].history;
    forall k | 0 <= k < |a| ensures a[k].digest == b[k].digest && a[k].req == b[k].req {
      ExecutedDigestAgreement(c, good, g, acts, i, j, k);
      ExecutedFacts(For(c, i), g, cl[i], k);
      ExecutedFacts(For(c, j), g, cl[j], k);
    }
    forall k | 0 <= k < |a| ensures SameStep(a[k], b[k]) {
      ExecutedFacts(For(c, i), g, cl[i], k);
      ExecutedFacts(For(c, j), g, cl[j], k);
      SameAfter(c.service, a[..k], b[..k]);
    }
    if |a| == |b| {
      SameAfter(c.service, a, b);
    }
  }

  lemma HistoryFacts(c: Config, g: Regime, st: State)
    requires c.Valid() && Inv(c, g, st)
    ensures |st.history| == st.lastExec && st.service == After(c.service, st.history)
  {
  }

  // ---------------------------------------------------------------- view changes

  lemma ViewChangeFacts(c: Config, g: Regime, st: State, m: ViewChangeMsg)
    requires c.Valid() && Inv(c, g, st) && ViewChange(m) in st.outbox
    ensures ViewChangeOk(c, st.inbox, st.outbox, m)
  {
  }

  /**
   * View-change certificate: every VIEW-CHANGE a correct replica has ever sent for a
   * positive checkpoint proves it with 2f+1 distinct votes for one digest, whatever the
   * order in which the vote map was visited, and that digest is the stable digest of
   * every correct replica whose low watermark is at that checkpoint.
   */
  lemma ViewChangeCertificate(c: Config, good: set<nat>, g: Regime, acts: seq<Action>, i: nat, m: ViewChangeMsg) returns (d: Digest)
    requires MostlyCorrect(c, good) && HashFits(c, g) && Schedule(c, good, g, acts) && i in good
    requires ViewChange(m) in Reach(c, good, g, acts)[i].outbox && m.lastStable > 0
    ensures |Backers(m.checkpointProof, m.lastStable, d)| >= 2 * c.F() + 1
    ensures forall j :: j in good && Reach(c, good, g, acts)[j].h == m.lastStable ==>
              Reach(c, good, g, acts)[j].lastStableDigest == Some(d)
  {
    hide Inv, Reach, Schedule;
    var cl := Reach(c, good, g, acts);
    ReachInv(c, good, g, acts);
    ViewChangeFacts(For(c, i), g, cl[i], m);
    assert Certified(For(c, i), m.checkpointProof, m.lastStable);
    d :| |Backers(m.checkpointProof, m.lastStable, d)| >= 2 * c.F() + 1;
    var q := Backers(m.checkpointProof, m.lastStable, d);
    forall r | r in q ensures r < c.n && (r in good ==> Announced(cl, r, m.lastStable, d)) {
      var x :| x in m.checkpointProof && x.seqNum == m.lastStable && x.digest == d && x.replicaId == r;
      assert x == CheckpointMsg(m.lastStable, d, r);
      if r in good {
        VoteReal(c, good, g, cl, i, x);
      }
    }
    forall j | j in good && cl[j].h == m.lastStable ensures cl[j].lastStableDigest == Some(d) {
      var q' := StableQuorum(c, good, g, cl, j);
      QuorumsAgree(c, good, g, cl, m.lastStable, d, cl[j].lastStableDigest.value, q, q');
    }
  }

  lemma NewViewFacts(c: Config, g: Regime, st: State, m: NewViewMsg)
    requires c.Valid() && Inv(c, g, st) && NewView(m) in st.outbox
    ensures Acceptable(c.F(), m)
  {
    hide Acceptable;
  }

  /** Every NEW-VIEW a correct replica has ever sent passes the checks of every backup. */
  lemma NewViewsPass(c: Config, good: set<nat>, g: Regime, acts: seq<Action>, i: nat, m: NewViewMsg)
    requires Sound(c, good) && HashFits(c, g) && Schedule(c, good, g, acts) && i in good
    requires NewView(m) in Reach(c, good, g, acts)[i].outbox
    ensures Acceptable(c.F(), m)
  {
    hide Inv, Reach, Acceptable, Schedule;
    ReachInv(c, good, g, acts);
    NewViewFacts(For(c, i), g, Reach(c, good, g, acts)[i], m);
  }
}
