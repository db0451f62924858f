/** What a firing timer, a VIEW-CHANGE and a NEW-VIEW do to a replica, told like the other effects. */
module ViewEffects {
  import opened Messages
  import opened Collections
  import opened NewViews
  import opened Handlers
  import opened Invariant
  import opened Effects

  // ---------------------------------------------------------------- VIEW-CHANGE

  /** Back in normal operation, in view v: numbering follows the log, and a running timer stops if nothing waits. */
  ghost predicate InView(st: State, st': State, v: nat) {
    && st'.view == v && !st'.viewChanging && st'.timeoutCount == 0 && LeastBound(st', st'.seqNum)
    && (st'.timer.Some? <==> st.timer.Some? && StillWaits(st'.log, st'.lastExec))
  }

  /** V lists the reports, one for each replica in ascending order. */
  ghost predicate ListsReports(V: seq<ViewChangeMsg>, reports: map<nat, ViewChangeMsg>) {
    exists ids: seq<nat> ::
      && Increasing(ids) && |ids| == |V| && (forall j :: j in ids <==> j in reports)
      && forall k :: 0 <= k < |V| ==> V[k] == reports[ids[k]]
  }

  lemma VSetLists(reports: map<nat, ViewChangeMsg>)
    ensures ListsReports(VSet(reports), reports)
  {
    var ids := Ascending(reports.Keys);
    hide Ascending, Increasing;
    assert Increasing(ids) && |ids| == |VSet(reports)|;
  }

  /** The report is kept beside those already there for that view. */
  ghost function Kept(st: State, m: ViewChangeMsg): map<nat, ViewChangeMsg> {
    (if m.nextView in st.vcStore then st.vcStore[m.nextView] else map[])[m.replicaId := m]
  }

  /** The announcement of view v from these reports. */
  ghost predicate Announcement(c: Config, nv: NewViewMsg, v: nat, reports: map<nat, ViewChangeMsg>) {
    nv.nextView == v && ListsReports(nv.viewChanges, reports) && nv.prePrepares == OSet(c.nullDigest, nv.viewChanges, v)
  }

  /**
   * A report for a view that this replica would lead, the current one included, is kept; with
   * 2f+1 reports the view is announced, again if need be, and entered. Nothing else changes.
   */
  ghost predicate TakesReport(c: Config, st: State, st': State, m: ViewChangeMsg)
    requires c.Valid()
  {
    var reports := Kept(st, m);
    && st'.vcStore == st.vcStore[m.nextView := reports]
    && if |reports| < 2 * c.F() + 1 then st' == st.(vcStore := st'.vcStore, inbox := st'.inbox)
       else
         && st' == st.(vcStore := st'.vcStore, inbox := st'.inbox, outbox := st'.outbox, view := st'.view, viewChanging := st'.viewChanging,
                       timeoutCount := st'.timeoutCount, seqNum := st'.seqNum, timer := st'.timer)
         && InView(st, st', m.nextView)
         && |st'.outbox| == |st.outbox| + 1 && st.outbox <= st'.outbox && st'.outbox[|st.outbox|].NewView?
         && Announcement(c, st'.outbox[|st.outbox|].newView, m.nextView, reports)
  }

  lemma ReportEffect(c: Config, st: State, m: ViewChangeMsg)
    requires c.Valid() && m.nextView >= st.view && m.nextView % c.n == c.id
    ensures TakesReport(c, st, OnViewChange(c, st, m), m)
  {
    hide Extends, SameWindow, LogKept, OSet, ListsReports, Install, VSet, InView;
    var reports := Kept(st, m);
    var st1 := st.(vcStore := st.vcStore[m.nextView := reports]);
    VSetLists(reports);
    assert OnViewChange(c, st, m) == if |reports| >= 2 * c.F() + 1 then Install(c, st1, m.nextView, VSet(reports)) else st1;
    hide OnViewChange;
    if |reports| >= 2 * c.F() + 1 {
      InstallEffect(c, st1, m.nextView, VSet(reports));
      SameTimer(st, st1, Install(c, st1, m.nextView, VSet(reports)), m.nextView);
    }
  }

  lemma SameTimer(st: State, st1: State, st': State, v: nat)
    requires st1.timer == st.timer && InView(st1, st', v)
    ensures InView(st, st', v)
  {
  }

  lemma InstallEffect(c: Config, st: State, v: nat, V: seq<ViewChangeMsg>)
    requires v >= st.view
    ensures
      var st' := Install(c, st, v, V);
      && st' == st.(outbox := st.outbox + [NewView(NewViewMsg(v, V, OSet(c.nullDigest, V, v)))], view := v, viewChanging := false,
                    timeoutCount := 0, seqNum := st'.seqNum, timer := st'.timer)
      && InView(st, st', v)
  {
    hide Extends, SameWindow, LogKept, OSet;
  }

  lemma ReportDropped(c: Config, st: State, m: ViewChangeMsg)
    requires c.Valid() && (m.nextView < st.view || m.nextView % c.n != c.id)
    ensures OnViewChange(c, st, m) == st
  {
    hide Extends, LogKept, Install;
  }

  lemma ReportIsTaken(c: Config, st: State, from: nat, m: ViewChangeMsg)
    requires c.Valid() && !Ignores(c, st, from, ViewChange(m))
    ensures TakesReport(c, st, Handle(c, st, Deliver(from, ViewChange(m))), m)
  {
    hide Extends, LogKept, OnViewChange, Announcement;
    ReportEffect(c, Receive(st, from, ViewChange(m)), m);
  }

  // ---------------------------------------------------------------- the timer

  /** The proof of a number that is prepared but not committed. */
  ghost predicate Proves(log: map<nat, Entry>, s: nat, p: PrepareProof) {
    s in log && log[s].stage == Prepared && p == PrepareProof(log[s].view, s, log[s].digest)
  }

  /** P holds a proof of every prepared number and nothing else, in ascending order. */
  ghost predicate ProvesAll(log: map<nat, Entry>, P: seq<PrepareProof>) {
    && (forall p :: p in P <==> Proves(log, p.seqNum, p))
    && forall i, j :: 0 <= i < j < |P| ==> P[i].seqNum < P[j].seqNum
  }

  lemma {:induction false} ProofsOfKeys(log: map<nat, Entry>, keys: seq<nat>)
    requires Increasing(keys)
    requires forall s :: s in keys ==> s in log && (log[s].stage == Prepared ==> log[s].seqNum == s)
    ensures
      var P := PreparedProofs(log, keys);
      && (forall p :: p in P <==> p.seqNum in keys && Proves(log, p.seqNum, p))
      && forall i, j :: 0 <= i < j < |P| ==> P[i].seqNum < P[j].seqNum
  {
    if keys != [] {
      var front, s := keys[..|keys| - 1], keys[|keys| - 1];
      assert keys == front + [s];
      assert forall k :: k in front ==> k in keys;
      ProofsOfKeys(log, front);
      var Q, P := PreparedProofs(log, front), PreparedProofs(log, keys);
      assert s in keys;
      forall i | 0 <= i < |Q| ensures Q[i].seqNum < s {
        assert Q[i] in Q;
        var k :| 0 <= k < |front| && front[k] == Q[i].seqNum;
        assert keys[k] < keys[|keys| - 1];
      }
      assert P == Q + if log[s].stage == Prepared then [PrepareProof(log[s].view, s, log[s].digest)] else [];
    }
  }

  ghost predicate NoRepeats<T>(q: seq<T>) {
    forall i, j :: 0 <= i < j < |q| ==> q[i] != q[j]
  }

  /** C holds all votes for the digests visited, up to and including the first with a quorum. */
  ghost predicate VotesUpTo(C: seq<CheckpointMsg>, s: nat, votes: map<Digest, set<nat>>, order: seq<Digest>, q: nat, k: nat)
    requires k <= |order|
  {
    && NoRepeats(C)
    && (forall x :: x in C <==> x.seqNum == s && x.digest in order[..k] && x.replicaId in Voters(votes, x.digest))
    && (forall i :: 0 <= i < k - 1 ==> |Voters(votes, order[i])| < q)
    && (k < |order| ==> k > 0 && |Voters(votes, order[k - 1])| >= q)
  }

  /** C holds the votes for digest d. */
  ghost predicate VotesOf(C: seq<CheckpointMsg>, s: nat, votes: map<Digest, set<nat>>, d: Digest) {
    NoRepeats(C) && forall x :: x in C <==> x.seqNum == s && x.digest == d && x.replicaId in Voters(votes, d)
  }

  lemma {:induction false} VotesForOnce(s: nat, d: Digest, ids: seq<nat>)
    requires Increasing(ids)
    ensures NoRepeats(VotesFor(s, d, ids))
  {
    if ids != [] {
      var front, j := ids[..|ids| - 1], ids[|ids| - 1];
      VotesForOnce(s, d, front);
      forall i | 0 <= i < |VotesFor(s, d, front)| ensures VotesFor(s, d, front)[i].replicaId != j {
        assert VotesFor(s, d, front)[i] in VotesFor(s, d, front);
        var k :| 0 <= k < |front| && front[k] == VotesFor(s, d, front)[i].replicaId;
        assert ids[k] < ids[|ids| - 1];
      }
    }
  }

  lemma StopsAtFirst(C: seq<CheckpointMsg>, s: nat, votes: map<Digest, set<nat>>, order: seq<Digest>, q: nat)
    requires order != [] && VotesOf(C, s, votes, order[0]) && |Voters(votes, order[0])| >= q
    ensures VotesUpTo(C, s, votes, order, q, 1)
  {
    assert order[..1] == [order[0]];
  }

  lemma GoesOn(C: seq<CheckpointMsg>, D: seq<CheckpointMsg>, s: nat, votes: map<Digest, set<nat>>, order: seq<Digest>, q: nat, k: nat)
    requires order != [] && VotesOf(C, s, votes, order[0]) && |Voters(votes, order[0])| < q
    requires k < |order| && VotesUpTo(D, s, votes, order[1..], q, k) && NoRepeats(order)
    ensures VotesUpTo(C + D, s, votes, order, q, k + 1)
  {
    var rest := order[1..];
    assert order[..k + 1] == [order[0]] + rest[..k];
    assert forall i :: 0 < i < |order| ==> order[i] == rest[i - 1];
    forall i, j | 0 <= i < |C| && 0 <= j < |D| ensures C[i] != D[j] {
      assert C[i] in C && D[j] in D;
      assert forall x :: x in rest[..k] ==> x != order[0];
    }
  }

  /** How far the search for a quorum gets. */
  ghost predicate Visited(C: seq<CheckpointMsg>, s: nat, votes: map<Digest, set<nat>>, order: seq<Digest>, q: nat) {
    exists k: nat :: k <= |order| && VotesUpTo(C, s, votes, order, q, k)
  }

  lemma {:induction false} VisitedVotes(s: nat, votes: map<Digest, set<nat>>, order: seq<Digest>, q: nat)
    requires NoRepeats(order)
    ensures Visited(CheckpointProof(s, votes, order, q), s, votes, order, q)
  {
    if order == [] {
      assert VotesUpTo([], s, votes, order, q, 0);
    } else {
      var first := VotesFor(s, order[0], Ascending(Voters(votes, order[0])));
      VotesForOnce(s, order[0], Ascending(Voters(votes, order[0])));
      assert VotesOf(first, s, votes, order[0]);
      hide VotesFor, Ascending, VotesUpTo, VotesOf;
      if |Voters(votes, order[0])| >= q {
        assert CheckpointProof(s, votes, order, q) == first;
        StopsAtFirst(first, s, votes, order, q);
      } else {
        VisitedVotes(s, votes, order[1..], q);
        var rest := CheckpointProof(s, votes, order[1..], q);
        var k: nat :| k <= |order[1..]| && VotesUpTo(rest, s, votes, order[1..], q, k);
        GoesOn(first, rest, s, votes, order, q, k);
      }
    }
  }

  /** The VIEW-CHANGE a replica owes: its checkpoint with the votes for it, and all it has prepared. */
  ghost predicate Owed(c: Config, st: State, order: seq<Digest>, vc: ViewChangeMsg)
    requires c.Valid()
  {
    && vc.nextView == st.view + 1 && vc.lastStable == st.h && vc.replicaId == c.id
    && ProvesAll(st.log, vc.preparedProofs)
    && Visited(vc.checkpointProof, st.h, VotesAt(st.checkpoints, st.h).votes, order, 2 * c.F() + 1)
  }

  lemma ViewChangeIsOwed(c: Config, g: Regime, st: State, order: seq<Digest>)
    requires c.Valid() && Inv(c, g, st) && NoRepeats(order)
    ensures Owed(c, st, order, ViewChangeOf(c, st, order))
  {
    hide Inv, PreparedProofs, Ascending, Visited, CheckpointProof;
    PreparedNumbers(c, g, st);
    ProofsOfKeys(st.log, Ascending(st.log.Keys));
    VisitedVotes(st.h, VotesAt(st.checkpoints, st.h).votes, order, 2 * c.F() + 1);
  }

  lemma PreparedNumbers(c: Config, g: Regime, st: State)
    requires c.Valid() && Inv(c, g, st)
    ensures forall s :: s in st.log && st.log[s].stage == Prepared ==> st.log[s].seqNum == s
  {
  }

  lemma NextView(c: Config, st: State, order: seq<Digest>)
    requires c.Valid()
    ensures ViewChangeOf(c, st, order).nextView == st.view + 1
  {
    hide CheckpointProof, PreparedProofs;
  }

  lemma TimerUnfolds(c: Config, st: State, order: seq<Digest>)
    requires c.Valid()
    ensures
      var vc := ViewChangeOf(c, st, order);
      Handle(c, st, TimerFires(order)) == OnViewChange(c, Send(Suspended(st), ViewChange(vc)), vc)
  {
    hide OnViewChange, Extends, LogKept, CheckpointProof, PreparedProofs;
    assert ViewChangeOf(c, st, order) == ViewChangeOf(c, Suspended(st), order);
  }

  /**
   * A firing timer suspends normal operation and sends the VIEW-CHANGE that is owed; the
   * replica then treats it as a report to itself. Nothing else changes.
   */
  lemma TimerOutcome(c: Config, g: Regime, st: State, order: seq<Digest>) returns (vc: ViewChangeMsg, asks: State)
    requires c.Valid() && Inv(c, g, st) && Possible(c, st, TimerFires(order))
    ensures Owed(c, st, order, vc)
    ensures asks == st.(viewChanging := true, timeoutCount := st.timeoutCount + 1, timer := None, outbox := st.outbox + [ViewChange(vc)])
    ensures
      var st' := Handle(c, st, TimerFires(order));
      if (st.view + 1) % c.n == c.id then TakesReport(c, asks, st', vc) else st' == asks
  {
    assert NoRepeats(order);
    hide Handle, ViewChangeOf, OnViewChange, Owed, TakesReport, Inv, Possible, NoRepeats;
    ViewChangeIsOwed(c, g, st, order);
    vc := ViewChangeOf(c, st, order);
    asks := Send(Suspended(st), ViewChange(vc));
    assert vc.nextView == st.view + 1 by { NextView(c, st, order); }
    TimerUnfolds(c, st, order);
    if (st.view + 1) % c.n == c.id {
      ReportEffect(c, asks, vc);
    } else {
      ReportDropped(c, asks, vc);
    }
  }

  // ---------------------------------------------------------------- NEW-VIEW

  /** Nothing at number k has changed. */
  ghost predicate SameAt(log: map<nat, Entry>, log': map<nat, Entry>, k: nat) {
    (k in log' <==> k in log) && (k in log ==> log'[k] == log[k])
  }

  lemma ProcessOnlyTouches(c: Config, st: State, m: PrePrepareMsg, k: nat)
    requires c.Valid() && k != m.seqNum
    ensures SameAt(st.log, ProcessPrePrepare(c, st, m).log, k)
  {
    hide Extends, SameWindow, LogKept, TryPrepare;
    if LetIn(st, m) {
      ProcessEffect(c, st, m);
      hide ProcessPrePrepare;
    }
  }

  lemma {:induction false} ProcessAllOnlyTouches(c: Config, st: State, O: seq<PrePrepareMsg>, k: nat)
    requires c.Valid() && forall i :: 0 <= i < |O| ==> O[i].seqNum != k
    ensures SameAt(st.log, ProcessAll(c, st, O).log, k)
  {
    hide ProcessPrePrepare;
    if O != [] {
      ProcessAllOnlyTouches(c, st, O[..|O| - 1], k);
      ProcessOnlyTouches(c, ProcessAll(c, st, O[..|O| - 1]), O[|O| - 1], k);
    }
  }

  /** The re-proposal o fills its slot and was answered by a PREPARE. */
  ghost predicate Taken(c: Config, st: State, o: PrePrepareMsg) {
    && o.seqNum in st.log
    && (var e := st.log[o.seqNum];
        e.hasPrePrepare && e.digest == o.digest && e.req == o.req && e.view == o.view && c.id in e.prepares)
    && Prepare(PrepareMsg(o.view, o.seqNum, o.digest, c.id)) in st.outbox
  }

  lemma ProcessTakes(c: Config, st: State, o: PrePrepareMsg)
    requires c.Valid() && LetIn(st, o)
    ensures Taken(c, ProcessPrePrepare(c, st, o), o)
  {
    ProcessEffect(c, st, o);
    var st' := ProcessPrePrepare(c, st, o);
    hide ProcessPrePrepare;
    assert st'.outbox[|st.outbox|] == Prepare(PrepareMsg(o.view, o.seqNum, o.digest, c.id));
  }

  lemma StaysTaken(c: Config, st: State, st': State, o: PrePrepareMsg)
    requires Taken(c, st, o) && SameAt(st.log, st'.log, o.seqNum) && st.outbox <= st'.outbox
    ensures Taken(c, st', o)
  {
    assert forall m :: m in st.outbox ==> m in st'.outbox;
  }

  /** The re-proposal o has locked its slot and was answered by a PREPARE. */
  ghost predicate LockedOn(c: Config, st: State, o: PrePrepareMsg) {
    && o.seqNum in st.log && st.log[o.seqNum].hasPrePrepare && st.log[o.seqNum].digest == o.digest
    && Prepare(PrepareMsg(o.view, o.seqNum, o.digest, c.id)) in st.outbox
  }

  lemma StaysLocked(c: Config, st: State, st': State, o: PrePrepareMsg)
    requires LockedOn(c, st, o) && LogKept(st.log, st'.log) && st.outbox <= st'.outbox
    ensures LockedOn(c, st', o)
  {
    assert forall m :: m in st.outbox ==> m in st'.outbox;
  }

  /** No element of O from i to before k is for the number of O[e]. */
  ghost predicate NoOther(O: seq<PrePrepareMsg>, e: nat, i: nat, k: nat)
    requires e < |O| && i <= k <= |O|
  {
    forall j :: i <= j < k ==> O[j].seqNum != O[e].seqNum
  }

  /** However long O is, the first element for a number locks it if it fits the log before, and fills it if it is the only one. */
  lemma {:induction false} ProcessAllTakes(c: Config, st: State, O: seq<PrePrepareMsg>, i: nat)
    requires c.Valid() && i < |O| && LetIn(st, O[i]) && NoOther(O, i, 0, i)
    ensures LockedOn(c, ProcessAll(c, st, O), O[i])
    ensures NoOther(O, i, i + 1, |O|) ==> Taken(c, ProcessAll(c, st, O), O[i])
  {
    hide ProcessPrePrepare, LogKept;
    var init, o := O[..|O| - 1], O[|O| - 1];
    var st1 := ProcessAll(c, st, init);
    if i == |O| - 1 {
      ProcessAllOnlyTouches(c, st, init, o.seqNum);
      ProcessTakes(c, st1, o);
    } else {
      ProcessAllTakes(c, st, init, i);
      hide Taken, LockedOn;
      StaysLocked(c, st1, ProcessPrePrepare(c, st1, o), O[i]);
      if o.seqNum != O[i].seqNum {
        ProcessOnlyTouches(c, st1, o, O[i].seqNum);
        if NoOther(O, i, i + 1, |O|) {
          assert NoOther(init, i, i + 1, |init|);
          StaysTaken(c, st1, ProcessPrePrepare(c, st1, o), O[i]);
        }
      }
    }
  }

  /** The re-proposal is for the new view, in the window, and for a slot that is free or has its digest. */
  ghost predicate FitsBefore(st: State, v: nat, o: PrePrepareMsg) {
    && o.view == v && st.h <= o.seqNum <= st.H
    && (o.seqNum in st.log && st.log[o.seqNum].hasPrePrepare ==> st.log[o.seqNum].digest == o.digest)
  }

  /**
   * A NEW-VIEW that is not ignored makes the replica enter the view, take every re-proposal
   * that fits (the first, if there are several for a number), leave all other numbers alone
   * and number from its log. A timer that still
   * runs has something to wait for.
   */
  lemma NewViewOutcome(c: Config, st: State, from: nat, m: NewViewMsg)
    requires c.Valid() && !Ignores(c, st, from, NewView(m))
    ensures
      var st' := Handle(c, st, Deliver(from, NewView(m)));
      && st'.view == m.nextView && !st'.viewChanging && st'.timeoutCount == 0 && LeastBound(st', st'.seqNum)
      && st'.h == st.h && st'.H == st.H && st'.vcStore == st.vcStore && st'.lastStableDigest == st.lastStableDigest
      && (st'.timer.Some? ==> StillWaits(st'.log, st'.lastExec))
    ensures
      var st' := Handle(c, st, Deliver(from, NewView(m)));
      var O := m.prePrepares;
      && (forall i :: 0 <= i < |O| && FitsBefore(st, m.nextView, O[i]) && NoOther(O, i, 0, i) ==>
            LockedOn(c, st', O[i]) && (NoOther(O, i, i + 1, |O|) ==> Taken(c, st', O[i])))
      && (forall k: nat :: (forall i :: 0 <= i < |O| ==> O[i].seqNum != k) ==> SameAt(st.log, st'.log, k))
  {
    hide Extends, LogKept, ProcessPrePrepare, Joins, Acceptable, OSet;
    var st0 := Receive(st, from, NewView(m));
    JoinsUnless(c, st0, from, m);
    var st1 := Entered(st0, m.nextView);
    var st2 := ProcessAll(c, st1, m.prePrepares);
    var st' := Handle(c, st, Deliver(from, NewView(m)));
    assert st' == ManageTimer(c, Renumber(st2));
    assert st'.log == st2.log && st'.outbox == st2.outbox && st'.lastExec == st2.lastExec;
    hide Handle, ProcessAll;
    var O := m.prePrepares;
    forall i | 0 <= i < |O| && FitsBefore(st, m.nextView, O[i]) && NoOther(O, i, 0, i)
      ensures LockedOn(c, st', O[i]) && (NoOther(O, i, i + 1, |O|) ==> Taken(c, st', O[i]))
    {
      ProcessAllTakes(c, st1, O, i);
    }
    forall k: nat | forall i :: 0 <= i < |m.prePrepares| ==> m.prePrepares[i].seqNum != k ensures SameAt(st.log, st'.log, k) {
      ProcessAllOnlyTouches(c, st1, m.prePrepares, k);
    }
  }
}
