/**
 * When a prepared entry has a prepared certificate: exactly when no PREPARE is let in before
 * its pre-prepare, because PREPAREs that come early are counted whatever their digest.
 */
module Certificates {
  import opened Messages
  import opened Collections
  import opened Handlers
  import opened Invariant
  import opened Preservation
  import opened ReplicaRuns
  import opened Cluster
  import opened Steps

  /** All other replicas counted for a prepared entry sent a PREPARE for its digest, and there are 2f-1 of them. */
  ghost predicate Certificate(c: Config, st: State, s: nat)
    requires c.Valid() && s in st.log
  {
    var others := st.log[s].prepares - {c.id};
    && |others| >= 2 * c.F() - 1
    && forall j :: j in others ==> GotPrepare(st.inbox, s, st.log[s].digest, j)
  }

  lemma CertificateOf(c: Config, g: Regime, st: State, s: nat)
    requires c.Valid() && Inv(c, g, st) && g.ordered && s in st.log && st.log[s].stage in {Prepared, Committed}
    ensures Certificate(c, st, s)
  {
    hide Numbering, GotPrepare;
    OldEntryFits(c, g, st, s);
    var e := st.log[s];
    assert e.prepares == (e.prepares - {c.id}) + {c.id};
  }

  /** Prepared entries have a certificate in every run that obeys g. */
  ghost predicate AlwaysCertified(c: Config, g: Regime)
    requires c.Valid()
  {
    forall evs, s :: !Uncertified(c, g, evs, s)
  }

  ghost predicate Uncertified(c: Config, g: Regime, evs: seq<Event>, s: nat)
    requires c.Valid()
  {
    && Plausible(c, g, evs) && s in Run(c, evs).log
    && Run(c, evs).log[s].stage == Prepared && !Certificate(c, Run(c, evs), s)
  }

  // ---------------------------------------------------------------- early PREPAREs

  /** Nothing has happened but PREPAREs of X for number 1, all for digest d. */
  ghost predicate Buffered(c: Config, st: State, d: Digest, X: set<nat>) {
    && st == Init(c).(log := if X == {} then map[] else map[1 := EmptyEntry.(prepares := X)], inbox := st.inbox)
    && forall p :: p in st.inbox ==> p.msg.Prepare? && p.msg.prepare.digest == d
  }

  /** Any PREPARE for number 1 and digest d in view 0. */
  ghost function Early(d: Digest): PrePrepareMsg {
    PrePrepareMsg(0, 1, d, NullRequest)
  }

  lemma GetsEarly(c: Config, g: Regime, st: State, d: Digest, X: set<nat>, j: nat)
    requires Tolerant(c) && c.L >= 1 && !g.ordered && Buffered(c, st, d, X) && j < c.n && j != c.id && j != 0
    ensures Possible(c, st, PrepareBy(Early(d), j)) && Obeys(c, g, st, PrepareBy(Early(d), j))
    ensures Buffered(c, Handle(c, st, PrepareBy(Early(d), j)), d, X + {j})
  {
    hide Extends, SameWindow, LogKept;
    var st1 := AddPrepare(Receive(st, j, PrepareBy(Early(d), j).msg), 1, j);
    assert {} + {j} == {j};
    assert st1.log == map[1 := EmptyEntry.(prepares := X + {j})];
    assert TryPrepare(c, st1, 1) == st1;
  }

  lemma {:induction false} FeedEarly(c: Config, g: Regime, d: Digest, ids: seq<nat>)
    requires Tolerant(c) && c.L >= 1 && !g.ordered && Others(c, ids) && 0 !in ids
    ensures Plausible(c, g, PreparesBy(Early(d), ids))
    ensures Buffered(c, Run(c, PreparesBy(Early(d), ids)), d, Elements(ids))
  {
    hide Handle, Possible, Obeys, Increasing;
    if ids == [] {
      assert Elements([]) == {};
    } else {
      var front, j := ids[..|ids| - 1], ids[|ids| - 1];
      DropLast(c, ids);
      FeedEarly(c, g, d, front);
      FeedMore(c, g, Init(c), PreparesBy(Early(d), front), PrepareBy(Early(d), j));
      GetsEarly(c, g, Run(c, PreparesBy(Early(d), front)), d, Elements(front), j);
    }
  }

  /** Number 1 is prepared with digest d and counts the votes X, but every PREPARE received from X was for d'. */
  ghost predicate Miscounted(st: State, d: Digest, d': Digest, X: set<nat>) {
    && 1 in st.log && st.log[1].stage == Prepared && st.log[1].digest == d && X <= st.log[1].prepares
    && forall p :: p in st.inbox && p.msg.Prepare? && p.from in X ==> p.msg.prepare.digest == d'
  }

  /** At a backup, the pre-prepare finds the buffered votes. */
  lemma BackupMiscounts(c: Config, g: Regime, st: State, d: Digest, d': Digest, X: set<nat>)
    requires Tolerant(c) && c.L >= 1 && c.id != 0 && Buffered(c, st, d', X) && X != {} && |X + {c.id}| >= 2 * c.F()
    ensures
      var ev := Deliver(0, PrePrepare(PrePrepareMsg(0, 1, d, g.reqOf(d))));
      && Possible(c, st, ev) && Obeys(c, g, st, ev) && Miscounted(Handle(c, st, ev), d, d', X)
  {
    hide Extends, SameWindow, LogKept, TryPrepare;
    var m := PrePrepareMsg(0, 1, d, g.reqOf(d));
    var st1 := Accept(c, Receive(st, 0, PrePrepare(m)), m);
    assert st1.log[1] == Ballot(m, PrePrepared, X + {c.id}, {});
    assert {} + {c.id} == {c.id};
    Prepares(c, st1, m, X + {c.id}, {});
    HandleInbox(c, st, Deliver(0, PrePrepare(m)));
  }

  /** At the primary, its own request takes the slot with the buffered votes. */
  lemma PrimaryTakesSlot(c: Config, g: Regime, st: State, d': Digest, X: set<nat>, r: RequestMsg)
    requires Tolerant(c) && c.L >= 1 && c.id == 0 && Buffered(c, st, d', X) && X != {}
    ensures
      var st' := Handle(c, st, Arrive(r));
      && Possible(c, st, Arrive(r)) && Obeys(c, g, st, Arrive(r))
      && InWindow(st', 0, 1) && 1 in st'.log && st'.inbox == st.inbox
      && st'.log[1] == Ballot(PrePrepareMsg(0, 1, c.hash(r), r), PrePrepared, X + {0}, {})
  {
    hide Extends, SameWindow, LogKept;
    assert Handle(c, st, Arrive(r)) == Assign(c, st, r);
  }

  /** Then a single matching PREPARE, of somebody else, is enough. */
  lemma PrimaryMiscounts(c: Config, g: Regime, st: State, m: PrePrepareMsg, d': Digest, X: set<nat>, k: nat)
    requires Tolerant(c) && c.id == 0 && InWindow(st, 0, 1) && 1 in st.log && m.view == 0 && m.seqNum == 1
    requires st.log[1] == Ballot(m, PrePrepared, X + {0}, {}) && |X + {0} + {k}| >= 2 * c.F()
    requires 0 < k < c.n && k !in X
    requires forall p :: p in st.inbox ==> p.msg.Prepare? && p.msg.prepare.digest == d'
    ensures
      var ev := PrepareBy(m, k);
      && Possible(c, st, ev) && Obeys(c, g, st, ev) && Miscounted(Handle(c, st, ev), m.digest, d', X)
  {
    hide Handle;
    GetsCertificate(c, g, st, m, X + {0}, k);
    HandleInbox(c, st, PrepareBy(m, k));
  }

  lemma NoCertificate(c: Config, st: State, d: Digest, d': Digest, X: set<nat>)
    requires c.Valid() && Miscounted(st, d, d', X) && d != d' && X != {} && c.id !in X
    ensures !Certificate(c, st, 1)
  {
    var j :| j in X;
    assert j in st.log[1].prepares - {c.id};
  }

  /** 2f-1 backups of view 0 other than this replica. */
  lemma SomeBackups(c: Config) returns (ids: seq<nat>)
    requires Tolerant(c)
    ensures Others(c, ids) && 0 !in ids && Elements(ids) != {} && c.id !in Elements(ids)
    ensures |Elements(ids) + {c.id}| == 2 * c.F() && (c.id == 0 ==> exists k :: 0 < k < c.n && k !in Elements(ids))
  {
    hide Ids, Increasing;
    var backups := Ids(c.n) - {0};
    assert |backups| == c.n - 1;
    ids := Pick(backups, c.id, 2 * c.F() - 1);
    hide Pick;
    ElementsSize({c.id}, ids);
    assert ids[0] in Elements(ids) && {c.id} !! Elements(ids);
    assert Elements(ids) + {c.id} == {c.id} + Elements(ids);
    if c.id == 0 {
      if backups <= Elements(ids) {
        SubsetSize(backups, Elements(ids));
      }
      var k :| k in backups && k !in Elements(ids);
    }
  }

  lemma BackupUncertified(c: Config, g: Regime, ids: seq<nat>) returns (evs: seq<Event>)
    requires Tolerant(c) && c.L >= 1 && !g.ordered && c.id != 0 && Others(c, ids) && 0 !in ids
    requires Elements(ids) != {} && c.id !in Elements(ids) && |Elements(ids) + {c.id}| == 2 * c.F()
    ensures Uncertified(c, g, evs, 1)
  {
    hide Handle, Possible, Obeys, Feed, Feedable, Certificate, Buffered, Others, Elements;
    var early := PreparesBy(Early(1), ids);
    var ev := Deliver(0, PrePrepare(PrePrepareMsg(0, 1, 0, g.reqOf(0))));
    FeedEarly(c, g, 1, ids);
    BackupMiscounts(c, g, Run(c, early), 0, 1, Elements(ids));
    FeedMore(c, g, Init(c), early, ev);
    evs := early + [ev];
    NoCertificate(c, Run(c, evs), 0, 1, Elements(ids));
  }

  lemma PrimaryUncertified(c: Config, g: Regime, ids: seq<nat>, k: nat) returns (evs: seq<Event>)
    requires Tolerant(c) && c.L >= 1 && !g.ordered && c.id == 0 && Others(c, ids) && 0 !in ids
    requires Elements(ids) != {} && c.id !in Elements(ids) && |Elements(ids) + {c.id}| == 2 * c.F()
    requires 0 < k < c.n && k !in Elements(ids)
    ensures Uncertified(c, g, evs, 1)
  {
    hide Handle, Possible, Obeys, Feed, Feedable, Certificate, Others, Elements;
    var X := Elements(ids);
    var m := PrePrepareMsg(0, 1, c.hash(NullRequest), NullRequest);
    var d' := m.digest + 1;
    var early := PreparesBy(Early(d'), ids);
    FeedEarly(c, g, d', ids);
    PrimaryTakesSlot(c, g, Run(c, early), d', X, m.req);
    FeedMore(c, g, Init(c), early, Arrive(m.req));
    SubsetSize(X + {0}, X + {0} + {k});
    PrimaryMiscounts(c, g, Run(c, early + [Arrive(m.req)]), m, d', X, k);
    FeedMore(c, g, Init(c), early + [Arrive(m.req)], PrepareBy(m, k));
    evs := early + [Arrive(m.req)] + [PrepareBy(m, k)];
    NoCertificate(c, Run(c, evs), m.digest, d', X);
  }

  /**
   * In every configuration that tolerates a fault, at every replica: early PREPAREs for
   * another digest are counted, and the replica prepares without a certificate.
   */
  lemma BufferedPrepareCounts(c: Config, g: Regime) returns (evs: seq<Event>)
    requires Tolerant(c) && c.L >= 1 && !g.ordered
    ensures Uncertified(c, g, evs, 1)
  {
    hide Elements, Uncertified;
    var ids := SomeBackups(c);
    if c.id != 0 {
      evs := BackupUncertified(c, g, ids);
    } else {
      var k :| 0 < k < c.n && k !in Elements(ids);
      evs := PrimaryUncertified(c, g, ids, k);
    }
  }

  /**
   * Prepared means certified exactly when no PREPARE is let in before its pre-prepare, or
   * when no fault is tolerated and nothing stays prepared.
   */
  lemma OrderIsExact(c: Config, g: Regime)
    requires c.Valid() && HashFits(c, g) && c.L >= 1
    ensures AlwaysCertified(c, g) <==> g.ordered || c.F() == 0
  {
    hide Run, Plausible, Certificate;
    if g.ordered || c.F() == 0 {
      forall evs, s | Uncertified(c, g, evs, s) ensures false {
        RunInv(c, g, evs);
        if g.ordered {
          CertificateOf(c, g, Run(c, evs), s);
        } else {
          AloneIsCommitted(c, g, Run(c, evs), s);
        }
      }
    } else {
      var evs := BufferedPrepareCounts(c, g);
    }
  }

  /** With f = 0 a replica's own commit is a quorum. */
  lemma AloneIsCommitted(c: Config, g: Regime, st: State, s: nat)
    requires c.Valid() && Inv(c, g, st) && c.F() == 0 && s in st.log
    ensures st.log[s].stage != Prepared
  {
    StageFromVotes(c, g, st, s);
    hide Inv;
    if c.id in st.log[s].commits {
      SubsetSize({c.id}, st.log[s].commits);
    }
  }
}
