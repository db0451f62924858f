/** What becomes of a request, and that no request is numbered twice while it is in the log. */
module Proposals {
  import opened Messages
  import opened NewViews
  import opened Handlers
  import opened ReplicaRuns
  import opened Effects
  import opened ViewEffects

  // ---------------------------------------------------------------- requests

  /** A pre-prepared entry carries the request of this client with this timestamp. */
  ghost predicate Carries(e: Entry, client: nat, timestamp: nat) {
    e.hasPrePrepare && e.req.clientId == client && e.req.timestamp == timestamp
  }

  /** The replica's last answer to the client was to this timestamp. */
  ghost predicate LastAnswered(st: State, client: nat, timestamp: nat) {
    client in st.lastReplies && st.lastReplies[client].timestamp == timestamp
  }

  /** The primary has room for the request and has not numbered it before, as far as its log tells. */
  ghost predicate Numbers(c: Config, st: State, m: RequestMsg)
    requires c.Valid()
  {
    && !LastAnswered(st, m.clientId, m.timestamp)
    && !st.viewChanging && c.id == st.view % c.n && st.h <= st.seqNum < st.H
    && forall s :: s in st.log ==> !Carries(st.log[s], m.clientId, m.timestamp)
  }

  /**
   * A request is answered from the cache, numbered, forwarded or dropped, and nothing else
   * happens: the last answer is repeated; otherwise the primary proposes it under the next
   * number unless it is carried by the log already; otherwise a backup forwards it and
   * starts the timer.
   */
  lemma RequestOutcome(c: Config, st: State, m: RequestMsg)
    requires c.Valid()
    ensures
      var st' := Handle(c, st, Arrive(m));
      if LastAnswered(st, m.clientId, m.timestamp) then
        st' == st.(outbox := st.outbox +
                     [Reply(ReplyMsg(st.view, m.timestamp, m.clientId, c.id, st.lastReplies[m.clientId].result))])
      else if Numbers(c, st, m) then
        var s := st.seqNum + 1;
        var p := PrePrepareMsg(st.view, s, c.hash(m), m);
        && st' == st.(seqNum := s, log := st'.log, outbox := st.outbox + [PrePrepare(p)])
        && OnlyAt(st.log, st'.log, s) && st'.log[s] == Filled(c, At(st.log, s), p)
      else if !st.viewChanging && c.id != st.view % c.n then
        && st' == st.(timer := st'.timer, outbox := st.outbox + [Request(m)]) && st'.timer.Some?
        && (st.timer.Some? ==> st'.timer == st.timer)
      else st' == st
  {
    hide Extends, SameWindow, Assign, InProgress;
    SearchFinds(st.log, m);
    if Numbers(c, st, m) {
      AssignEffect(c, st, m);
    }
  }

  lemma SearchFinds(log: map<nat, Entry>, m: RequestMsg)
    ensures InProgress(log, m) <==> exists s :: s in log && Carries(log[s], m.clientId, m.timestamp)
  {
  }

  lemma AssignEffect(c: Config, st: State, m: RequestMsg)
    ensures
      var st', s := Assign(c, st, m), st.seqNum + 1;
      var p := PrePrepareMsg(st.view, s, c.hash(m), m);
      && st' == st.(seqNum := s, log := st'.log, outbox := st.outbox + [PrePrepare(p)])
      && OnlyAt(st.log, st'.log, s) && st'.log[s] == Filled(c, At(st.log, s), p)
  {
    hide Extends;
  }

  /** A request that another replica forwards is treated like one from a client. */
  lemma ForwardedAlike(c: Config, st: State, from: nat, m: RequestMsg)
    requires c.Valid()
    ensures Handle(c, st, Deliver(from, Request(m))) == Handle(c, Receive(st, from, Request(m)), Arrive(m))
  {
    hide OnRequest;
  }

  /** No PRE-PREPARE was sent. */
  ghost predicate NoProposal(outbox: seq<Message>, outbox': seq<Message>) {
    outbox <= outbox' && forall i :: |outbox| <= i < |outbox'| ==> !outbox'[i].PrePrepare?
  }

  lemma ProcessProposesNothing(c: Config, st: State, m: PrePrepareMsg)
    requires c.Valid()
    ensures NoProposal(st.outbox, ProcessPrePrepare(c, st, m).outbox)
  {
    if LetIn(st, m) {
      ProcessEffect(c, st, m);
      hide ProcessPrePrepare;
      var own := st.outbox + [Prepare(PrepareMsg(st.view, m.seqNum, m.digest, c.id))];
      var e := Filled(c, At(st.log, m.seqNum), m);
      CommitProposesNothing(c, own, ProcessPrePrepare(c, st, m).outbox, Due(c, e), st.view, m.seqNum, m.digest);
    }
  }

  lemma CommitProposesNothing(c: Config, outbox: seq<Message>, outbox': seq<Message>, due: bool, v: nat, s: nat, d: Digest)
    requires SendsCommit(c, outbox, outbox', due, v, s, d)
    ensures NoProposal(outbox, outbox')
  {
  }

  lemma {:induction false} ProcessAllProposesNothing(c: Config, st: State, pps: seq<PrePrepareMsg>)
    requires c.Valid()
    ensures NoProposal(st.outbox, ProcessAll(c, st, pps).outbox)
  {
    hide ProcessPrePrepare;
    if pps != [] {
      ProcessAllProposesNothing(c, st, pps[..|pps| - 1]);
      ProcessProposesNothing(c, ProcessAll(c, st, pps[..|pps| - 1]), pps[|pps| - 1]);
    }
  }

  lemma VotesProposeNothing(c: Config, st: State, from: nat, msg: Message)
    requires c.Valid() && (msg.Prepare? || msg.Commit?)
    ensures NoProposal(st.outbox, Handle(c, st, Deliver(from, msg)).outbox)
  {
    hide Handle, SendsCommit;
    if Ignores(c, st, from, msg) {
      IgnoredLeavesNoTrace(c, st, from, msg);
    } else {
      MismatchIsNotCounted(c, st, from, msg);
      if msg.Prepare? {
        var m := msg.prepare;
        var e := At(st.log, m.seqNum).(prepares := At(st.log, m.seqNum).prepares + {m.replicaId});
        if e.hasPrePrepare ==> e.digest == m.digest {
          PrepareIsCounted(c, st, from, m);
          CommitProposesNothing(c, st.outbox, Handle(c, st, Deliver(from, msg)).outbox, Due(c, e), st.view, e.seqNum, e.digest);
        }
      } else {
        var e := At(st.log, msg.commit.seqNum);
        if e.hasPrePrepare && e.digest == msg.commit.digest {
          CommitIsCounted(c, st, from, msg.commit);
        }
      }
    }
  }

  lemma ViewChangeProposesNothing(c: Config, st: State, m: ViewChangeMsg)
    requires c.Valid()
    ensures NoProposal(st.outbox, OnViewChange(c, st, m).outbox)
  {
    hide Extends, LogKept, Install, VSet, OSet, InView;
    if m.nextView >= st.view {
      var st1 := st.(vcStore := st.vcStore[m.nextView := Kept(st, m)]);
      InstallEffect(c, st1, m.nextView, VSet(Kept(st, m)));
    }
  }

  /** Only requests make a replica propose. */
  lemma OnlyRequestsPropose(c: Config, st: State, ev: Event)
    requires c.Valid() && !ev.Arrive? && !(ev.Deliver? && ev.msg.Request?)
    ensures NoProposal(st.outbox, Handle(c, st, ev).outbox)
  {
    hide Extends, LogKept, SameWindow, ProcessPrePrepare, OnViewChange, Stabilise, ProcessAll, ManageTimer, Joins;
    if ev.TimerFires? {
      var st1 := Suspended(st);
      var vc := ViewChangeOf(c, st1, ev.order);
      ViewChangeProposesNothing(c, Send(st1, ViewChange(vc)), vc);
    } else {
      var st0 := Receive(st, ev.from, ev.msg);
      match ev.msg
      case PrePrepare(m) => ProcessProposesNothing(c, st0, m);
      case Prepare(m) => VotesProposeNothing(c, st, ev.from, ev.msg);
      case Commit(m) => VotesProposeNothing(c, st, ev.from, ev.msg);
      case ViewChange(m) => ViewChangeProposesNothing(c, st0, m);
      case NewView(m) => ProcessAllProposesNothing(c, Entered(st0, m.nextView), m.prePrepares);
      case Checkpoint(m) => CheckpointSendsNothing(c, st, ev.from, ev.msg);
      case Reply(m) => CheckpointSendsNothing(c, st, ev.from, ev.msg);
      case Request(m) =>
    }
  }

  lemma CheckpointSendsNothing(c: Config, st: State, from: nat, msg: Message)
    requires c.Valid() && (msg.Checkpoint? || msg.Reply?)
    ensures Handle(c, st, Deliver(from, msg)).outbox == st.outbox
  {
    hide Extends, Highest;
  }

  /** The event is a request, from a client or forwarded. */
  ghost predicate Requests(ev: Event, r: RequestMsg) {
    ev == Arrive(r) || (ev.Deliver? && ev.msg == Request(r))
  }

  /** The proposal that the primary makes of r, and when it makes one. */
  ghost predicate ProposesNow(c: Config, st: State, p: PrePrepareMsg)
    requires c.Valid()
  {
    Numbers(c, st, p.req) && p == PrePrepareMsg(st.view, st.seqNum + 1, c.hash(p.req), p.req)
  }

  /** A PRE-PREPARE is sent only for a request that is not carried by the log, and one at a time. */
  lemma ProposalConditions(c: Config, st: State, ev: Event, i: nat)
    requires c.Valid() && |st.outbox| <= i < |Handle(c, st, ev).outbox| && Handle(c, st, ev).outbox[i].PrePrepare?
    ensures i == |st.outbox|
    ensures
      var p := Handle(c, st, ev).outbox[i].prePrepare;
      Requests(ev, p.req) && ProposesNow(c, st, p)
  {
    hide Handle, ProposesNow;
    if ev.Arrive? {
      RequestProposes(c, st, ev.request, i);
    } else if ev.Deliver? && ev.msg.Request? {
      ForwardedAlike(c, st, ev.from, ev.msg.request);
      RequestProposes(c, Receive(st, ev.from, ev.msg), ev.msg.request, i);
      ProposesAlike(c, st, ev.from, ev.msg, Handle(c, st, ev).outbox[i].prePrepare);
    } else {
      OnlyRequestsPropose(c, st, ev);
      assert false;
    }
  }

  lemma RequestProposes(c: Config, st: State, m: RequestMsg, i: nat)
    requires c.Valid() && |st.outbox| <= i < |Handle(c, st, Arrive(m)).outbox| && Handle(c, st, Arrive(m)).outbox[i].PrePrepare?
    ensures i == |st.outbox| && Handle(c, st, Arrive(m)).outbox[i].prePrepare.req == m
    ensures ProposesNow(c, st, Handle(c, st, Arrive(m)).outbox[i].prePrepare)
  {
    hide Handle, Numbers, OnlyAt, Filled, LastAnswered;
    RequestOutcome(c, st, m);
  }

  lemma ProposesAlike(c: Config, st: State, from: nat, msg: Message, p: PrePrepareMsg)
    requires c.Valid()
    ensures ProposesNow(c, Receive(st, from, msg), p) == ProposesNow(c, st, p)
  {
  }

  /** Every PRE-PREPARE ever sent was a proposal of the moment it was sent. */
  lemma {:induction false} ProposedThen(c: Config, evs: seq<Event>, j: nat) returns (k: nat)
    requires c.Valid() && j < |Run(c, evs).outbox| && Run(c, evs).outbox[j].PrePrepare?
    ensures k < |evs| && |Run(c, evs[..k]).outbox| == j && Run(c, evs[..k]).outbox <= Run(c, evs).outbox
    ensures Requests(evs[k], Run(c, evs).outbox[j].prePrepare.req)
    ensures ProposesNow(c, Run(c, evs[..k]), Run(c, evs).outbox[j].prePrepare)
  {
    hide Handle, ProposesNow;
    assert evs != [];
    var before := evs[..|evs| - 1];
    var st := Run(c, before);
    if j < |st.outbox| {
      k := ProposedThen(c, before, j);
      assert before[..k] == evs[..k];
    } else {
      k := |evs| - 1;
      ProposalConditions(c, st, evs[k], j);
    }
  }

  /**
   * No request is numbered twice while it is in the log: when a second PRE-PREPARE for the
   * same client and timestamp was sent, the slot of the first, and every other slot, had
   * left the log or carried something else, and the request was not the last one answered.
   */
  lemma NoDoubleProposal(c: Config, evs: seq<Event>, i: nat, j: nat) returns (k: nat)
    requires c.Valid() && i < j < |Run(c, evs).outbox|
    requires
      var out := Run(c, evs).outbox;
      && out[i].PrePrepare? && out[j].PrePrepare?
      && out[i].prePrepare.req.clientId == out[j].prePrepare.req.clientId
      && out[i].prePrepare.req.timestamp == out[j].prePrepare.req.timestamp
    ensures k < |evs| && |Run(c, evs[..k]).outbox| == j
    ensures
      var st, p, q := Run(c, evs[..k]), Run(c, evs).outbox[i].prePrepare, Run(c, evs).outbox[j].prePrepare;
      && PrePrepare(p) in st.outbox
      && !(p.seqNum in st.log && Carries(st.log[p.seqNum], q.req.clientId, q.req.timestamp))
      && (forall s :: s in st.log ==> !Carries(st.log[s], q.req.clientId, q.req.timestamp))
      && !LastAnswered(st, q.req.clientId, q.req.timestamp)
  {
    k := ProposedThen(c, evs, j);
    hide Run;
    assert Run(c, evs[..k]).outbox[i] == Run(c, evs).outbox[i];
  }
}
