/** What a view change does to one replica, as long as nothing has been collected. */
module ViewSteps {
  import opened Messages
  import opened Collections
  import opened NewViews
  import opened Handlers
  import opened Invariant
  import opened ReplicaRuns
  import opened Schedules
  import opened Steps

  /** The VIEW-CHANGE for view v with no stable checkpoint and the given proofs. */
  ghost function Report(v: nat, proofs: seq<PrepareProof>, j: nat): ViewChangeMsg {
    ViewChangeMsg(v, 0, j, [], proofs)
  }

  // ---------------------------------------------------------------- the timer fires

  /** Nothing has been executed or voted on; the log may hold entries. */
  ghost predicate Young(c: Config, st: State, v: nat) {
    && st.view == v && st.h == 0 && st.H == c.L && st.lastExec == 0 && st.history == []
    && st.checkpoints == map[] && st.lastReplies == map[]
  }

  /** A young replica has asked for view v and, if it will be the primary there, kept its own report. */
  ghost predicate Asking(c: Config, st: State, v: nat, proofs: seq<PrepareProof>, log: map<nat, Entry>)
    requires c.Valid()
  {
    && v > 0 && Young(c, st, v - 1) && st.viewChanging && st.log == log
    && ViewChange(Report(v, proofs, c.id)) in st.outbox
    && st.vcStore == if IsPrimary(c, v) then map[v := map[c.id := Report(v, proofs, c.id)]] else map[]
  }

  lemma Fires(c: Config, g: Regime, st: State)
    requires Tolerant(c) && Young(c, st, st.view) && st.timer.Some? && st.vcStore == map[]
    ensures
      var proofs := PreparedProofs(st.log, Ascending(st.log.Keys));
      && Possible(c, st, TimerFires([])) && Obeys(c, g, st, TimerFires([]))
      && Asking(c, Handle(c, st, TimerFires([])), st.view + 1, proofs, st.log)
      && st.outbox <= Handle(c, st, TimerFires([])).outbox
  {
    hide Extends, SameWindow, LogKept, Install, Ascending, PreparedProofs;
    var st1 := Suspended(st);
    var vc := ViewChangeOf(c, st1, []);
    assert vc == Report(st.view + 1, PreparedProofs(st.log, Ascending(st.log.Keys)), c.id);
    var st2 := Send(st1, ViewChange(vc));
    assert st2.outbox[|st.outbox|] == ViewChange(vc);
    var store: map<nat, ViewChangeMsg> := map[];
    assert |store[c.id := vc]| == 1;
    hide ViewChangeOf;
  }

  /** A backup that hears of a request and then runs out of patience. */
  lemma AsksAtOnce(c: Config, g: Regime, r: RequestMsg)
    requires Tolerant(c) && !IsPrimary(c, 0)
    ensures
      var evs := [Arrive(r), TimerFires([])];
      Feedable(c, g, Init(c), evs) && Asking(c, Feed(c, Init(c), evs), 1, [], map[])
  {
    hide Extends, SameWindow, LogKept, StartViewChange, Asking;
    var st := Handle(c, Init(c), Arrive(r));
    assert Young(c, st, 0) && st.timer.Some? && st.vcStore == map[] && st.log == map[];
    FeedOne(c, g, Init(c), Arrive(r));
    FeedMore(c, g, Init(c), [Arrive(r)], TimerFires([]));
    assert [Arrive(r)] + [TimerFires([])] == [Arrive(r), TimerFires([])];
    hide Feed, Feedable, Handle;
    assert PreparedProofs(map[], Ascending(st.log.Keys)) == [];
    Fires(c, g, st);
  }

  // ---------------------------------------------------------------- the new primary

  ghost function Reports(v: nat, proofs: seq<PrepareProof>, X: set<nat>): map<nat, ViewChangeMsg> {
    map j | j in X :: Report(v, proofs, j)
  }

  ghost function ReportBy(v: nat, proofs: seq<PrepareProof>, j: nat): Event {
    Deliver(j, ViewChange(Report(v, proofs, j)))
  }

  ghost function ReportsBy(v: nat, proofs: seq<PrepareProof>, ids: seq<nat>): (evs: seq<Event>)
    ensures forall ev :: ev in evs ==> ev.Deliver? && ev.from in ids && ev == ReportBy(v, proofs, ev.from)
  {
    if ids == [] then [] else ReportsBy(v, proofs, ids[..|ids| - 1]) + [ReportBy(v, proofs, ids[|ids| - 1])]
  }

  /** Only reports for view v were stored, those of X. */
  ghost predicate Stored(st: State, st': State, v: nat, proofs: seq<PrepareProof>, X: set<nat>) {
    st' == st.(vcStore := map[v := Reports(v, proofs, X)], inbox := st'.inbox)
  }

  lemma OneMoreReport(v: nat, proofs: seq<PrepareProof>, X: set<nat>, j: nat)
    ensures Reports(v, proofs, X)[j := Report(v, proofs, j)] == Reports(v, proofs, X + {j})
    ensures |Reports(v, proofs, X + {j})| == |X + {j}|
  {
    assert Reports(v, proofs, X + {j}).Keys == X + {j};
  }

  lemma GetsReport(c: Config, g: Regime, st: State, v: nat, proofs: seq<PrepareProof>, X: set<nat>, j: nat)
    requires Tolerant(c) && IsPrimary(c, v) && st.view < v && Stored(st, st, v, proofs, X) && |X + {j}| <= 2 * c.F()
    requires j < c.n && j != c.id
    ensures Possible(c, st, ReportBy(v, proofs, j)) && Obeys(c, g, st, ReportBy(v, proofs, j))
    ensures Stored(st, Handle(c, st, ReportBy(v, proofs, j)), v, proofs, X + {j})
  {
    hide Extends, SameWindow, LogKept, Install;
    OneMoreReport(v, proofs, X, j);
    hide Reports;
    var store := Reports(v, proofs, X + {j});
    assert map[v := Reports(v, proofs, X)][v := store] == map[v := store];
  }

  lemma {:induction false} FeedReports(c: Config, g: Regime, st: State, v: nat, proofs: seq<PrepareProof>, X: set<nat>, ids: seq<nat>)
    requires Tolerant(c) && IsPrimary(c, v) && st.view < v && Stored(st, st, v, proofs, X)
    requires Others(c, ids) && |X| + |ids| <= 2 * c.F()
    ensures Feedable(c, g, st, ReportsBy(v, proofs, ids))
    ensures Stored(st, Feed(c, st, ReportsBy(v, proofs, ids)), v, proofs, X + Elements(ids))
  {
    hide Handle, Possible, Obeys, Increasing, IsPrimary, Reports;
    if ids == [] {
      assert X + Elements([]) == X;
    } else {
      var front, j := ids[..|ids| - 1], ids[|ids| - 1];
      DropLast(c, ids);
      ElementsSize(X, ids);
      FeedReports(c, g, st, v, proofs, X, front);
      FeedMore(c, g, st, ReportsBy(v, proofs, front), ReportBy(v, proofs, j));
      assert X + Elements(front) + {j} == X + Elements(ids);
      GetsReport(c, g, Feed(c, st, ReportsBy(v, proofs, front)), v, proofs, X + Elements(front), j);
    }
  }

  /** The replica has become the primary of view v with everything else as it was, and announced nv. */
  ghost predicate Leads(c: Config, st: State, st': State, v: nat, nv: NewViewMsg, O: seq<PrePrepareMsg>)
    requires c.Valid()
  {
    && st' == st.(view := v, viewChanging := false, timeoutCount := 0, seqNum := Highest(st.lastExec, st.h, st.log),
                  timer := st'.timer, vcStore := st'.vcStore, inbox := st'.inbox, outbox := st'.outbox)
    && st.outbox <= st'.outbox && NewView(nv) in st'.outbox
    && nv.nextView == v && nv.prePrepares == O && Acceptable(c.F(), nv)
  }

  lemma UnanimousSet(v: nat, proofs: seq<PrepareProof>, X: set<nat>)
    ensures Unanimous(VSet(Reports(v, proofs, X)), proofs) && |VSet(Reports(v, proofs, X))| == |X|
  {
    var ids := Ascending(Reports(v, proofs, X).Keys);
    assert Reports(v, proofs, X).Keys == X;
    assert forall k :: 0 <= k < |ids| ==> ids[k] in ids;
  }

  lemma Installs(c: Config, st: State, v: nat, V: seq<ViewChangeMsg>) returns (nv: NewViewMsg)
    requires Tolerant(c) && v >= st.view && |V| > 2 * c.F()
    ensures Leads(c, st, Install(c, st, v, V), v, nv, OSet(c.nullDigest, V, v))
  {
    hide Extends, SameWindow, LogKept, Acceptable, OSet;
    nv := NewViewMsg(v, V, OSet(c.nullDigest, V, v));
    BuilderPassesValidator(c.F(), c.nullDigest, V, v);
    var st1 := Send(Entered(st, v), NewView(nv));
    assert st1.outbox[|st.outbox|] == NewView(nv);
  }

  /** One more report completes the quorum: the new primary announces its view. */
  lemma GetsMajority(c: Config, g: Regime, st: State, v: nat, proofs: seq<PrepareProof>, X: set<nat>, j: nat)
    returns (nv: NewViewMsg, V: seq<ViewChangeMsg>)
    requires Tolerant(c) && IsPrimary(c, v) && st.view < v && Stored(st, st, v, proofs, X) && |X + {j}| > 2 * c.F()
    requires j < c.n && j != c.id
    ensures Possible(c, st, ReportBy(v, proofs, j)) && Obeys(c, g, st, ReportBy(v, proofs, j))
    ensures Leads(c, st, Handle(c, st, ReportBy(v, proofs, j)), v, nv, OSet(c.nullDigest, V, v))
    ensures V != [] && Unanimous(V, proofs)
  {
    hide Extends, SameWindow, LogKept, Install, OSet, Unanimous, Acceptable;
    OneMoreReport(v, proofs, X, j);
    var store := Reports(v, proofs, X + {j});
    UnanimousSet(v, proofs, X + {j});
    hide Reports;
    V := VSet(store);
    var st0 := Receive(st, j, ReportBy(v, proofs, j).msg);
    var st1 := st0.(vcStore := st.vcStore[v := store]);
    nv := Installs(c, st1, v, V);
  }

  /** The reports of 2f+1 replicas in all. */
  lemma FeedMajority(c: Config, g: Regime, st: State, v: nat, proofs: seq<PrepareProof>, X: set<nat>, ids: seq<nat>)
    returns (nv: NewViewMsg, V: seq<ViewChangeMsg>)
    requires Tolerant(c) && IsPrimary(c, v) && st.view < v && Stored(st, st, v, proofs, X)
    requires Others(c, ids) && ids != [] && X !! Elements(ids) && |X| + |ids| == 2 * c.F() + 1
    ensures Feedable(c, g, st, ReportsBy(v, proofs, ids))
    ensures Leads(c, st, Feed(c, st, ReportsBy(v, proofs, ids)), v, nv, OSet(c.nullDigest, V, v))
    ensures V != [] && Unanimous(V, proofs)
  {
    hide Handle, Possible, Obeys, Increasing, IsPrimary, Reports, OSet, Unanimous, Acceptable;
    var front, j := ids[..|ids| - 1], ids[|ids| - 1];
    DropLast(c, ids);
    ElementsSize(X, ids);
    FeedReports(c, g, st, v, proofs, X, front);
    FeedMore(c, g, st, ReportsBy(v, proofs, front), ReportBy(v, proofs, j));
    var st1 := Feed(c, st, ReportsBy(v, proofs, front));
    hide Feed, Feedable;
    assert X + Elements(front) + {j} == X + Elements(ids);
    nv, V := GetsMajority(c, g, st1, v, proofs, X + Elements(front), j);
  }

  // ---------------------------------------------------------------- the backups

  /** A replica with an empty log enters a view in which nothing is re-proposed. */
  lemma JoinsEmpty(c: Config, g: Regime, st: State, nv: NewViewMsg)
    requires Tolerant(c) && Asking(c, st, nv.nextView, [], map[]) && !IsPrimary(c, nv.nextView)
    requires nv.prePrepares == [] && Acceptable(c.F(), nv)
    ensures
      var ev := Deliver(nv.nextView % c.n, NewView(nv));
      var st' := Feed(c, st, [ev]);
      && Feedable(c, g, st, [ev])
      && Young(c, st', nv.nextView) && !st'.viewChanging && st'.log == map[] && st'.vcStore == map[] && st.outbox <= st'.outbox
  {
    hide Extends, SameWindow, LogKept, Acceptable;
    var ev := Deliver(nv.nextView % c.n, NewView(nv));
    FeedOne(c, g, st, ev);
    hide Feed, Feedable;
    var st0 := Receive(st, ev.from, ev.msg);
    assert Joins(c, st0, ev.from, nv);
    assert ProcessAll(c, Entered(st0, nv.nextView), []) == Entered(st0, nv.nextView);
  }

  /** A re-proposal with the digest that the replica had prepared under the same number. */
  ghost predicate Reproposes(st: State, m: PrePrepareMsg, o: PrePrepareMsg, X: set<nat>, Y: set<nat>) {
    o.seqNum == m.seqNum && o.digest == m.digest && m.seqNum in st.log && st.log[m.seqNum] == Ballot(m, Prepared, X, Y)
  }

  /** The re-proposal replaces the request but keeps the votes, and the replica prepares again. */
  lemma PreparesAgain(c: Config, st: State, m: PrePrepareMsg, o: PrePrepareMsg, X: set<nat>, Y: set<nat>)
    requires Tolerant(c) && InWindow(st, o.view, o.seqNum) && Reproposes(st, m, o, X, Y)
    requires |X| >= 2 * c.F() && |Y + {c.id}| <= 2 * c.F()
    ensures Became(st, ProcessPrePrepare(c, st, o), o.seqNum, Ballot(o, Prepared, X + {c.id}, Y + {c.id}))
  {
    hide Extends, SameWindow, LogKept, TryPrepare;
    var st1 := Accept(c, st, o);
    assert st1.log[o.seqNum] == Ballot(o, PrePrepared, X + {c.id}, Y);
    SubsetSize(X, X + {c.id});
    Prepares(c, st1, o, X + {c.id}, Y);
  }

  /** The replica is in the view of o, holds o as prepared and is otherwise as it was. */
  ghost predicate Holds(st: State, st': State, o: PrePrepareMsg, X: set<nat>, Y: set<nat>) {
    && st'.view == o.view && !st'.viewChanging && st'.h == st.h && st'.H == st.H
    && st'.lastExec == st.lastExec && st'.history == st.history && st.outbox <= st'.outbox
    && st'.log == st.log[o.seqNum := Ballot(o, Prepared, X, Y)]
  }

  lemma JoinsAgain(c: Config, g: Regime, st: State, nv: NewViewMsg, m: PrePrepareMsg, o: PrePrepareMsg, X: set<nat>, Y: set<nat>)
    requires Tolerant(c) && st.viewChanging && nv.nextView == o.view > st.view && !IsPrimary(c, nv.nextView)
    requires nv.prePrepares == [o] && Acceptable(c.F(), nv) && st.h <= o.seqNum <= st.H && Fits(g, st.h, o)
    requires Reproposes(st, m, o, X, Y) && |X| >= 2 * c.F() && |Y + {c.id}| <= 2 * c.F()
    ensures
      var ev := Deliver(nv.nextView % c.n, NewView(nv));
      Feedable(c, g, st, [ev]) && Holds(st, Feed(c, st, [ev]), o, X + {c.id}, Y + {c.id})
  {
    hide Extends, SameWindow, LogKept, Acceptable, ProcessPrePrepare, Highest;
    var ev := Deliver(nv.nextView % c.n, NewView(nv));
    FeedOne(c, g, st, ev);
    hide Feed, Feedable;
    var st0 := Receive(st, ev.from, ev.msg);
    var st1 := Entered(st0, nv.nextView);
    assert Joins(c, st0, ev.from, nv);
    assert [o][..0] == [] && ProcessAll(c, st1, []) == st1;
    assert ProcessAll(c, st1, [o]) == ProcessPrePrepare(c, st1, o);
    PreparesAgain(c, st1, m, o, X, Y);
  }

  // ---------------------------------------------------------------- a request at the new primary

  /** The primary of a view in which nothing has happened yet proposes the request as number 1. */
  lemma ProposesFirst(c: Config, g: Regime, st: State, r: RequestMsg)
    requires Tolerant(c) && Young(c, st, st.view) && !st.viewChanging && IsPrimary(c, st.view)
    requires st.seqNum == 0 && st.log == map[] && c.L >= 1
    ensures
      var m := PrePrepareMsg(st.view, 1, c.hash(r), r);
      var st' := Feed(c, st, [Arrive(r)]);
      && Feedable(c, g, st, [Arrive(r)])
      && Young(c, st', st.view) && !st'.viewChanging && st'.log == map[1 := Ballot(m, PrePrepared, {c.id}, {})]
      && st.outbox <= st'.outbox && PrePrepare(m) in st'.outbox
  {
    hide Extends, SameWindow, LogKept;
    FeedOne(c, g, st, Arrive(r));
    hide Feed, Feedable;
    var st1 := Assign(c, st, r);
    assert st1.outbox[|st.outbox|] == PrePrepare(PrePrepareMsg(st.view, 1, c.hash(r), r));
    assert EmptyEntry.prepares + {c.id} == {c.id};
    assert st1.log == map[1 := Ballot(PrePrepareMsg(st.view, 1, c.hash(r), r), PrePrepared, {c.id}, {})];
    assert Handle(c, st, Arrive(r)) == st1;
  }
}
