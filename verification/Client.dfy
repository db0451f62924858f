/** The client of src/client.cc: counting replies until f+1 replicas agree. */
module ClientModel {
  import opened Messages
  import opened Collections

  datatype ClientConfig = ClientConfig(id: nat, n: nat) {
    function F(): nat requires n >= 1 { (n - 1) / 3 }
  }

  /** InflightRequest, without its promise. */
  datatype Inflight = Inflight(seen: set<nat>, counts: map<Bytes, nat>)

  /**
   * The fields of Client. `resolved` holds the values of the promises set so far,
   * `sent` the requests; `answers` and `received` record, per request, the answer
   * counted for each replica, and every reply that came in.
   */
  datatype ClientState = ClientState(
    currentView: nat, timestamp: nat, inflight: map<nat, Inflight>, resolved: map<nat, Bytes>,
    sent: seq<RequestMsg>, answers: map<nat, map<nat, Bytes>>, received: set<ReplyMsg>)

  const Start := ClientState(1, 0, map[], map[], [], map[], {})

  function Count(counts: map<Bytes, nat>, r: Bytes): nat {
    if r in counts then counts[r] else 0
  }

  function AnswersAt(answers: map<nat, map<nat, Bytes>>, ts: nat): map<nat, Bytes> {
    if ts in answers then answers[ts] else map[]
  }

  /** A first reply of a replica to a pending request. */
  function Tally(c: ClientConfig, st: ClientState, m: ReplyMsg): ClientState
    requires c.n >= 1 && m.timestamp in st.inflight
  {
    var ts := m.timestamp;
    var p := st.inflight[ts];
    var n := Count(p.counts, m.result) + 1;
    var st1 := st.(answers := st.answers[ts := AnswersAt(st.answers, ts)[m.replicaId := m.result]]);
    if n >= c.F() + 1
    then st1.(resolved := st.resolved[ts := m.result], inflight := st.inflight - {ts})
    else st1.(inflight := st.inflight[ts := Inflight(p.seen + {m.replicaId}, p.counts[m.result := n])])
  }

  function OnReply(c: ClientConfig, st: ClientState, m: ReplyMsg): ClientState
    requires c.n >= 1
  {
    var st0 := st.(received := st.received + {m});
    if m.clientId != c.id then st0 else
      var st1 := st0.(currentView := Max(st.currentView, m.view));
      if m.timestamp !in st.inflight || m.replicaId in st.inflight[m.timestamp].seen then st1
      else Tally(c, st1, m)
  }

  function Invoke(c: ClientConfig, st: ClientState, operation: Bytes): ClientState {
    var ts := st.timestamp + 1;
    st.(timestamp := ts,
        inflight := st.inflight[ts := Inflight({}, map[])],
        sent := st.sent + [RequestMsg(operation, ts, c.id)])
  }

  // ---------------------------------------------------------------- the invariant

  /** The replicas whose counted answer is r. */
  ghost function Backing(answers: map<nat, Bytes>, r: Bytes): set<nat> {
    set j | j in answers && answers[j] == r
  }

  ghost function Sum(counts: map<Bytes, nat>): nat {
    if counts == map[] then 0 else
      var r :| r in counts;
      counts[r] + Sum(counts - {r})
  }

  lemma {:induction false} SumSplit(counts: map<Bytes, nat>, r: Bytes)
    requires r in counts
    ensures Sum(counts) == counts[r] + Sum(counts - {r})
    decreases |counts|
  {
    var x :| x in counts && Sum(counts) == counts[x] + Sum(counts - {x});
    if x != r {
      SumSplit(counts - {x}, r);
      SumSplit(counts - {r}, x);
      assert counts - {x} - {r} == counts - {r} - {x};
    }
  }

  /** Counting one more answer adds one to the sum. */
  lemma SumAdds(counts: map<Bytes, nat>, r: Bytes)
    ensures Sum(counts[r := Count(counts, r) + 1]) == Sum(counts) + 1
  {
    var counts' := counts[r := Count(counts, r) + 1];
    SumSplit(counts', r);
    assert counts' - {r} == counts - {r};
    if r in counts {
      SumSplit(counts, r);
    } else {
      assert counts - {r} == counts;
    }
  }

  ghost predicate Heard(c: ClientConfig, received: set<ReplyMsg>, ts: nat, j: nat, r: Bytes) {
    exists v: nat :: ReplyMsg(v, ts, c.id, j, r) in received
  }

  ghost predicate PendingOk(c: ClientConfig, p: Inflight, answers: map<nat, Bytes>)
    requires c.n >= 1
  {
    && p.seen == answers.Keys
    && Sum(p.counts) == |p.seen|
    && forall r :: Count(p.counts, r) == |Backing(answers, r)| <= c.F()
  }

  ghost predicate AllPendingOk(c: ClientConfig, st: ClientState)
    requires c.n >= 1
  {
    forall ts :: ts in st.inflight ==>
      ts <= st.timestamp && ts !in st.resolved && PendingOk(c, st.inflight[ts], AnswersAt(st.answers, ts))
  }

  ghost predicate AllResolvedOk(c: ClientConfig, st: ClientState)
    requires c.n >= 1
  {
    forall ts :: ts in st.resolved ==>
      ts <= st.timestamp && |Backing(AnswersAt(st.answers, ts), st.resolved[ts])| == c.F() + 1
  }

  ghost predicate AllHeard(c: ClientConfig, st: ClientState) {
    forall ts, j :: ts in st.answers && j in st.answers[ts] ==>
      ts <= st.timestamp && Heard(c, st.received, ts, j, st.answers[ts][j])
  }

  ghost predicate SentOk(c: ClientConfig, timestamp: nat, sent: seq<RequestMsg>) {
    && |sent| == timestamp
    && forall k :: 0 <= k < |sent| ==> sent[k].timestamp == k + 1 && sent[k].clientId == c.id
  }

  ghost predicate ClientInv(c: ClientConfig, st: ClientState) {
    && c.n >= 1
    && AllPendingOk(c, st)
    && AllResolvedOk(c, st)
    && AllHeard(c, st)
    && SentOk(c, st.timestamp, st.sent)
  }

  /** A new supporter is counted for its answer and for no other. */
  lemma BackingAdds(answers: map<nat, Bytes>, j: nat, r: Bytes)
    requires j !in answers
    ensures forall x :: |Backing(answers[j := r], x)| == |Backing(answers, x)| + (if x == r then 1 else 0)
  {
    forall x ensures |Backing(answers[j := r], x)| == |Backing(answers, x)| + (if x == r then 1 else 0) {
      var a, b := Backing(answers, x), Backing(answers[j := r], x);
      assert j !in a;
      if x == r {
        assert b == a + {j};
      } else {
        assert b == a;
      }
    }
  }

  lemma HeardGrows(c: ClientConfig, st: ClientState, m: ReplyMsg)
    requires ClientInv(c, st)
    ensures ClientInv(c, st.(received := st.received + {m}))
  {
    var received := st.received + {m};
    forall ts, j | ts in st.answers && j in st.answers[ts] ensures Heard(c, received, ts, j, st.answers[ts][j]) {
      var v: nat :| ReplyMsg(v, ts, c.id, j, st.answers[ts][j]) in st.received;
      assert ReplyMsg(v, ts, c.id, j, st.answers[ts][j]) in received;
    }
  }

  lemma TallyPending(c: ClientConfig, p: Inflight, answers: map<nat, Bytes>, j: nat, r: Bytes)
    requires c.n >= 1 && PendingOk(c, p, answers) && j !in p.seen
    ensures
      var n := Count(p.counts, r) + 1;
      var answers' := answers[j := r];
      && n == |Backing(answers', r)| <= c.F() + 1
      && (n < c.F() + 1 ==> PendingOk(c, Inflight(p.seen + {j}, p.counts[r := n]), answers'))
  {
    hide Backing, Sum;
    BackingAdds(answers, j, r);
    SumAdds(p.counts, r);
    var n := Count(p.counts, r) + 1;
    var answers', counts' := answers[j := r], p.counts[r := n];
    forall x ensures Count(counts', x) == |Backing(answers', x)| && (n <= c.F() ==> |Backing(answers', x)| <= c.F()) {
      assert Count(p.counts, x) == |Backing(answers, x)|;
      assert Count(counts', x) == Count(p.counts, x) + (if x == r then 1 else 0);
    }
    assert answers'.Keys == answers.Keys + {j};
  }

  lemma TallyHeard(c: ClientConfig, st: ClientState, m: ReplyMsg)
    requires c.n >= 1 && AllHeard(c, st) && m in st.received && m.clientId == c.id
    requires m.timestamp in st.inflight && m.timestamp <= st.timestamp
    ensures AllHeard(c, Tally(c, st, m))
  {
    assert m == ReplyMsg(m.view, m.timestamp, c.id, m.replicaId, m.result);
    assert Heard(c, st.received, m.timestamp, m.replicaId, m.result);
  }

  /** The other requests are not touched. */
  lemma TallyOthers(c: ClientConfig, st: ClientState, m: ReplyMsg)
    requires c.n >= 1 && m.timestamp in st.inflight
    ensures
      var r := Tally(c, st, m);
      && (forall t :: t != m.timestamp ==> AnswersAt(r.answers, t) == AnswersAt(st.answers, t))
      && AnswersAt(r.answers, m.timestamp) == AnswersAt(st.answers, m.timestamp)[m.replicaId := m.result]
      && (forall t :: t in r.inflight && t != m.timestamp ==> t in st.inflight && r.inflight[t] == st.inflight[t])
      && (forall t :: t in r.resolved && t != m.timestamp ==> t in st.resolved && r.resolved[t] == st.resolved[t])
  {
  }

  lemma TallyKeeps(c: ClientConfig, st: ClientState, m: ReplyMsg)
    requires ClientInv(c, st) && m in st.received && m.clientId == c.id
    requires m.timestamp in st.inflight && m.replicaId !in st.inflight[m.timestamp].seen
    ensures ClientInv(c, Tally(c, st, m))
  {
    hide PendingOk, Backing, Sum;
    var ts := m.timestamp;
    var r := Tally(c, st, m);
    TallyPending(c, st.inflight[ts], AnswersAt(st.answers, ts), m.replicaId, m.result);
    TallyHeard(c, st, m);
    TallyOthers(c, st, m);
    hide AllHeard, AnswersAt;
    assert AllResolvedOk(c, r);
    assert AllPendingOk(c, r);
  }

  lemma OnReplyKeeps(c: ClientConfig, st: ClientState, m: ReplyMsg)
    requires ClientInv(c, st)
    ensures ClientInv(c, OnReply(c, st, m))
  {
    HeardGrows(c, st, m);
    var st1 := st.(received := st.received + {m}, currentView := Max(st.currentView, m.view));
    if m.clientId == c.id && m.timestamp in st.inflight && m.replicaId !in st.inflight[m.timestamp].seen {
      TallyKeeps(c, st1, m);
    }
  }

  /** A fresh request has counted nothing. */
  lemma NothingCounted(c: ClientConfig)
    requires c.n >= 1
    ensures PendingOk(c, Inflight({}, map[]), map[])
  {
    forall r ensures |Backing(map[], r)| == 0 {
      assert Backing(map[], r) == {};
    }
    assert Sum(map[]) == 0;
  }

  lemma InvokeKeeps(c: ClientConfig, st: ClientState, operation: Bytes)
    requires ClientInv(c, st)
    ensures ClientInv(c, Invoke(c, st, operation))
  {
    hide PendingOk, AllHeard, Backing, SentOk, AnswersAt;
    NothingCounted(c);
    FreshIsUnanswered(c, st);
    HeardSoFar(c, st, Invoke(c, st, operation));
    SentSoFar(c, st, operation);
  }

  lemma FreshIsUnanswered(c: ClientConfig, st: ClientState)
    requires AllHeard(c, st)
    ensures AnswersAt(st.answers, st.timestamp + 1) == map[]
  {
    var a := AnswersAt(st.answers, st.timestamp + 1);
    assert forall j :: j !in a;
  }

  lemma HeardSoFar(c: ClientConfig, st: ClientState, st': ClientState)
    requires AllHeard(c, st) && st'.answers == st.answers && st'.received == st.received && st.timestamp <= st'.timestamp
    ensures AllHeard(c, st')
  {
  }

  lemma SentSoFar(c: ClientConfig, st: ClientState, operation: Bytes)
    requires SentOk(c, st.timestamp, st.sent)
    ensures SentOk(c, st.timestamp + 1, Invoke(c, st, operation).sent)
  {
  }

  // ---------------------------------------------------------------- whole runs

  datatype ClientEvent = Calls(operation: Bytes) | Replied(reply: ReplyMsg)

  function Handle(c: ClientConfig, st: ClientState, ev: ClientEvent): ClientState
    requires c.n >= 1
  {
    match ev
    case Calls(op) => Invoke(c, st, op)
    case Replied(m) => OnReply(c, st, m)
  }

  function Run(c: ClientConfig, evs: seq<ClientEvent>): ClientState
    requires c.n >= 1
  {
    if evs == [] then Start else Handle(c, Run(c, evs[..|evs| - 1]), evs[|evs| - 1])
  }

  lemma RunMore(c: ClientConfig, evs: seq<ClientEvent>, ev: ClientEvent)
    requires c.n >= 1
    ensures Run(c, evs + [ev]) == Handle(c, Run(c, evs), ev)
  {
    assert (evs + [ev])[..|evs|] == evs;
  }

  lemma {:induction false} RunInv(c: ClientConfig, evs: seq<ClientEvent>)
    requires c.n >= 1
    ensures ClientInv(c, Run(c, evs))
    ensures forall m :: m in Run(c, evs).received <==> Replied(m) in evs
  {
    if evs != [] {
      var before, ev := evs[..|evs| - 1], evs[|evs| - 1];
      RunInv(c, before);
      assert forall x :: x in evs <==> x in before || x == ev;
      match ev
      case Calls(op) => InvokeKeeps(c, Run(c, before), op);
      case Replied(m) => OnReplyKeeps(c, Run(c, before), m);
    }
  }

  /** No event changes a promise that is already set. */
  lemma ResolvedStays(c: ClientConfig, st: ClientState, ev: ClientEvent, ts: nat)
    requires ClientInv(c, st) && ts in st.resolved
    ensures ts in Handle(c, st, ev).resolved && Handle(c, st, ev).resolved[ts] == st.resolved[ts]
  {
    hide PendingOk, AllHeard, AllResolvedOk, SentOk;
  }

  /** A promise is set at most once: its value never changes afterwards. */
  lemma {:induction false} ResolvedForGood(c: ClientConfig, evs: seq<ClientEvent>, k: nat, ts: nat)
    requires c.n >= 1 && k <= |evs| && ts in Run(c, evs[..k]).resolved
    ensures ts in Run(c, evs).resolved && Run(c, evs).resolved[ts] == Run(c, evs[..k]).resolved[ts]
  {
    hide ClientInv, Handle;
    if k == |evs| {
      assert evs[..k] == evs;
    } else {
      var before := evs[..|evs| - 1];
      assert before[..k] == evs[..k];
      ResolvedForGood(c, before, k, ts);
      RunInv(c, before);
      ResolvedStays(c, Run(c, before), evs[|evs| - 1], ts);
    }
  }

  /**
   * An accepted result was sent, for this very request, by f+1 distinct replicas; and a
   * request still pending has its per-result counts adding up to the replicas seen,
   * none of them above f.
   */
  lemma AcceptedMeansQuorum(c: ClientConfig, evs: seq<ClientEvent>, ts: nat) returns (backers: set<nat>)
    requires c.n >= 1
    ensures
      var st := Run(c, evs);
      && (ts in st.resolved ==>
            && |backers| == c.F() + 1
            && forall j :: j in backers ==> exists v: nat :: Replied(ReplyMsg(v, ts, c.id, j, st.resolved[ts])) in evs)
      && (ts in st.inflight ==>
            && Sum(st.inflight[ts].counts) == |st.inflight[ts].seen|
            && forall r :: Count(st.inflight[ts].counts, r) <= c.F())
      && !(ts in st.resolved && ts in st.inflight)
  {
    RunInv(c, evs);
    hide Run;
    var st := Run(c, evs);
    backers := {};
    if ts in st.resolved {
      var r := st.resolved[ts];
      var a := AnswersAt(st.answers, ts);
      backers := Backing(a, r);
      forall j | j in backers ensures exists v: nat :: Replied(ReplyMsg(v, ts, c.id, j, r)) in evs {
        assert Heard(c, st.received, ts, j, a[j]);
        var v: nat :| ReplyMsg(v, ts, c.id, j, r) in st.received;
        assert Replied(ReplyMsg(v, ts, c.id, j, r)) in evs;
      }
    }
  }

  // ---------------------------------------------------------------- what a run amounts to

  /** The operations called so far, in order. */
  ghost function Called(evs: seq<ClientEvent>): seq<Bytes> {
    if evs == [] then [] else
      var ev := evs[|evs| - 1];
      Called(evs[..|evs| - 1]) + if ev.Calls? then [ev.operation] else []
  }

  /** ev is a reply to the ts-th call of this client. */
  predicate RepliesTo(c: ClientConfig, ev: ClientEvent, ts: nat) {
    ev.Replied? && ev.reply.clientId == c.id && ev.reply.timestamp == ts
  }

  /** For each replica, the first answer to the ts-th call that came in after that call. */
  ghost function FirstAnswers(c: ClientConfig, evs: seq<ClientEvent>, ts: nat): map<nat, Bytes> {
    if evs == [] then map[] else
      var before, ev := evs[..|evs| - 1], evs[|evs| - 1];
      var a := FirstAnswers(c, before, ts);
      if RepliesTo(c, ev, ts) && 1 <= ts <= |Called(before)| && ev.reply.replicaId !in a
      then a[ev.reply.replicaId := ev.reply.result]
      else a
  }

  /** How many replicas gave r as their first answer. */
  ghost function Support(c: ClientConfig, evs: seq<ClientEvent>, ts: nat, r: Bytes): nat {
    |Backing(FirstAnswers(c, evs, ts), r)|
  }

  /** r was the first result that f+1 replicas had given as their first answer. */
  ghost predicate Won(c: ClientConfig, evs: seq<ClientEvent>, ts: nat, r: Bytes)
    requires c.n >= 1
  {
    exists k :: 0 < k <= |evs| && WonAt(c, evs, ts, r, k)
  }

  ghost predicate WonAt(c: ClientConfig, evs: seq<ClientEvent>, ts: nat, r: Bytes, k: nat)
    requires c.n >= 1 && 0 < k <= |evs|
  {
    var before := evs[..k - 1];
    Support(c, evs[..k], ts, r) == c.F() + 1 && forall x :: Support(c, before, ts, x) <= c.F()
  }

  /** A pending request has counted exactly the answers a, and no result has f+1. */
  ghost predicate Counts(c: ClientConfig, p: Inflight, a: map<nat, Bytes>)
    requires c.n >= 1
  {
    p.seen == a.Keys && forall x :: Count(p.counts, x) == |Backing(a, x)| <= c.F()
  }

  /** The state of the ts-th request is what the events say. */
  ghost predicate Exact(c: ClientConfig, evs: seq<ClientEvent>, st: ClientState, ts: nat)
    requires c.n >= 1
  {
    && (ts in st.inflight || ts in st.resolved <==> 1 <= ts <= |Called(evs)|)
    && (ts in st.inflight ==>
          ts !in st.resolved && Counts(c, st.inflight[ts], FirstAnswers(c, evs, ts)))
    && (ts in st.resolved ==> Won(c, evs, ts, st.resolved[ts]))
  }

  lemma {:induction false} NoAnswerBeforeCall(c: ClientConfig, evs: seq<ClientEvent>, ts: nat)
    requires ts > |Called(evs)|
    ensures FirstAnswers(c, evs, ts) == map[]
  {
    if evs != [] {
      NoAnswerBeforeCall(c, evs[..|evs| - 1], ts);
    }
  }

  lemma WonStays(c: ClientConfig, evs: seq<ClientEvent>, ts: nat, r: Bytes)
    requires c.n >= 1 && evs != [] && Won(c, evs[..|evs| - 1], ts, r)
    ensures Won(c, evs, ts, r)
  {
    var before := evs[..|evs| - 1];
    var k :| 0 < k <= |before| && WonAt(c, before, ts, r, k);
    assert before[..k] == evs[..k] && before[..k - 1] == evs[..k - 1];
    assert WonAt(c, evs, ts, r, k);
  }

  /** A call makes exactly one request pending. */
  lemma CallExact(c: ClientConfig, evs: seq<ClientEvent>, st: ClientState, ts: nat)
    requires c.n >= 1 && evs != [] && evs[|evs| - 1].Calls?
    requires Exact(c, evs[..|evs| - 1], st, ts) && st.timestamp == |Called(evs[..|evs| - 1])|
    ensures Exact(c, evs, Handle(c, st, evs[|evs| - 1]), ts)
  {
    var before := evs[..|evs| - 1];
    assert FirstAnswers(c, evs, ts) == FirstAnswers(c, before, ts);
    if ts in st.resolved {
      WonStays(c, evs, ts, st.resolved[ts]);
    }
    if ts == st.timestamp + 1 {
      NoAnswerBeforeCall(c, before, ts);
      forall x ensures |Backing(map[], x)| == 0 {
        assert Backing(map[], x) == {};
      }
    }
  }

  /** A reply that is not the first of its replica to this pending request leaves that request alone. */
  lemma OtherReplyExact(c: ClientConfig, evs: seq<ClientEvent>, st: ClientState, ts: nat)
    requires c.n >= 1 && evs != [] && evs[|evs| - 1].Replied? && Exact(c, evs[..|evs| - 1], st, ts)
    requires
      var ev := evs[|evs| - 1];
      RepliesTo(c, ev, ts) && ts in st.inflight ==> ev.reply.replicaId in st.inflight[ts].seen
    ensures Exact(c, evs, Handle(c, st, evs[|evs| - 1]), ts)
  {
    hide Won, Backing;
    var before, st' := evs[..|evs| - 1], Handle(c, st, evs[|evs| - 1]);
    assert ts in st'.inflight <==> ts in st.inflight;
    if ts in st.resolved {
      WonStays(c, evs, ts, st.resolved[ts]);
    } else if ts in st.inflight {
      assert FirstAnswers(c, evs, ts) == FirstAnswers(c, before, ts);
    }
  }

  /** The first reply of a replica to a pending request is counted, and settles it if it makes f+1. */
  lemma FirstReplyExact(c: ClientConfig, evs: seq<ClientEvent>, st: ClientState, ts: nat)
    requires c.n >= 1 && evs != [] && RepliesTo(c, evs[|evs| - 1], ts) && Exact(c, evs[..|evs| - 1], st, ts)
    requires ts in st.inflight && evs[|evs| - 1].reply.replicaId !in st.inflight[ts].seen
    ensures Exact(c, evs, Handle(c, st, evs[|evs| - 1]), ts)
  {
    hide Backing, Counts;
    var before, m := evs[..|evs| - 1], evs[|evs| - 1].reply;
    var p, a := st.inflight[ts], FirstAnswers(c, before, ts);
    SameAsSupport(c, before, ts, p);
    assert FirstAnswers(c, evs, ts) == a[m.replicaId := m.result];
    assert evs[..|evs|] == evs;
    CountsMore(c, p, a, m.replicaId, m.result);
    if Count(p.counts, m.result) == c.F() {
      assert WonAt(c, evs, ts, m.result, |evs|);
      assert Won(c, evs, ts, m.result);
    }
  }

  lemma SameAsSupport(c: ClientConfig, evs: seq<ClientEvent>, ts: nat, p: Inflight)
    requires c.n >= 1 && Counts(c, p, FirstAnswers(c, evs, ts))
    ensures forall x :: Support(c, evs, ts, x) <= c.F()
    ensures p.seen == FirstAnswers(c, evs, ts).Keys
  {
    forall x ensures Support(c, evs, ts, x) <= c.F() {
      assert Count(p.counts, x) == |Backing(FirstAnswers(c, evs, ts), x)|;
    }
  }

  lemma CountsMore(c: ClientConfig, p: Inflight, a: map<nat, Bytes>, j: nat, r: Bytes)
    requires c.n >= 1 && Counts(c, p, a) && j !in a
    ensures Count(p.counts, r) + 1 == |Backing(a[j := r], r)| <= c.F() + 1
    ensures Count(p.counts, r) < c.F() ==> Counts(c, Inflight(p.seen + {j}, p.counts[r := Count(p.counts, r) + 1]), a[j := r])
  {
    hide Backing;
    BackingAdds(a, j, r);
    assert Count(p.counts, r) == |Backing(a, r)|;
    var counts' := p.counts[r := Count(p.counts, r) + 1];
    forall x ensures Count(counts', x) == |Backing(a[j := r], x)| && (Count(p.counts, r) < c.F() ==> Count(counts', x) <= c.F()) {
      assert Count(p.counts, x) == |Backing(a, x)|;
    }
    assert a[j := r].Keys == a.Keys + {j};
  }

  /**
   * No request is lost and none is settled too early, too late or with the wrong value:
   * after every run each call is either pending, with exactly the first answers of the
   * replicas counted and no result at f+1, or settled with the result that got there first.
   */
  lemma {:induction false} RunExact(c: ClientConfig, evs: seq<ClientEvent>, ts: nat)
    requires c.n >= 1
    ensures Exact(c, evs, Run(c, evs), ts)
    ensures Run(c, evs).timestamp == |Called(evs)|
  {
    if evs != [] {
      var before, ev := evs[..|evs| - 1], evs[|evs| - 1];
      var st := Run(c, before);
      RunExact(c, before, ts);
      hide Exact;
      if ev.Calls? {
        CallExact(c, evs, st, ts);
      } else if RepliesTo(c, ev, ts) && ts in st.inflight && ev.reply.replicaId !in st.inflight[ts].seen {
        FirstReplyExact(c, evs, st, ts);
      } else {
        OtherReplyExact(c, evs, st, ts);
      }
    }
  }

  /** One event supports at most one result. */
  lemma OneAtATime(c: ClientConfig, evs: seq<ClientEvent>, ts: nat, r: Bytes, x: Bytes)
    requires evs != [] && r != x
    requires Support(c, evs, ts, x) > Support(c, evs[..|evs| - 1], ts, x)
    ensures Support(c, evs, ts, r) == Support(c, evs[..|evs| - 1], ts, r)
  {
    var before, ev := evs[..|evs| - 1], evs[|evs| - 1];
    var a := FirstAnswers(c, before, ts);
    if RepliesTo(c, ev, ts) && ev.reply.replicaId !in a {
      BackingAdds(a, ev.reply.replicaId, ev.reply.result);
    }
  }

  /**
   * The promise is set: if f+1 replicas gave r as their first answer after the call, and no
   * other result had so many before r had, the call is settled with r.
   */
  lemma QuorumResolves(c: ClientConfig, evs: seq<ClientEvent>, ts: nat, r: Bytes)
    requires c.n >= 1 && Support(c, evs, ts, r) >= c.F() + 1
    requires forall k, x :: 0 <= k <= |evs| && x != r && Support(c, evs[..k], ts, x) >= c.F() + 1 ==>
               Support(c, evs[..k], ts, r) >= c.F() + 1
    ensures ts in Run(c, evs).resolved && Run(c, evs).resolved[ts] == r
  {
    RunExact(c, evs, ts);
    assert Backing(map[], r) == {};
    CalledIfAnswered(c, evs, ts);
    PendingSupport(c, evs, ts, r);
    hide Run, Backing;
    var x := Run(c, evs).resolved[ts];
    var k :| 0 < k <= |evs| && WonAt(c, evs, ts, x, k);
    if x != r {
      assert evs[..k][..k - 1] == evs[..k - 1];
      assert Support(c, evs[..k], ts, r) >= c.F() + 1;
      assert Support(c, evs[..k - 1], ts, x) <= c.F() && Support(c, evs[..k - 1], ts, r) <= c.F();
      OneAtATime(c, evs[..k], ts, r, x);
      assert false;
    }
  }

  lemma PendingSupport(c: ClientConfig, evs: seq<ClientEvent>, ts: nat, r: Bytes)
    requires c.n >= 1
    ensures ts in Run(c, evs).inflight ==> Support(c, evs, ts, r) <= c.F()
  {
    RunExact(c, evs, ts);
    hide Run;
    if ts in Run(c, evs).inflight {
      assert Count(Run(c, evs).inflight[ts].counts, r) == Support(c, evs, ts, r);
    }
  }

  lemma CalledIfAnswered(c: ClientConfig, evs: seq<ClientEvent>, ts: nat)
    requires FirstAnswers(c, evs, ts) != map[]
    ensures 1 <= ts <= |Called(evs)|
  {
    if ts > |Called(evs)| {
      NoAnswerBeforeCall(c, evs, ts);
    } else if ts == 0 {
      NoCallZero(c, evs);
    }
  }

  lemma {:induction false} NoCallZero(c: ClientConfig, evs: seq<ClientEvent>)
    ensures FirstAnswers(c, evs, 0) == map[]
  {
    if evs != [] {
      NoCallZero(c, evs[..|evs| - 1]);
    }
  }

  /** The k-th request sent carries the k-th operation called, under timestamp k. */
  lemma {:induction false} SentAsCalled(c: ClientConfig, evs: seq<ClientEvent>)
    requires c.n >= 1
    ensures
      var sent := Run(c, evs).sent;
      && |sent| == |Called(evs)| == Run(c, evs).timestamp
      && forall k :: 0 <= k < |sent| ==> sent[k] == RequestMsg(Called(evs)[k], k + 1, c.id)
  {
    if evs != [] {
      SentAsCalled(c, evs[..|evs| - 1]);
    }
  }

  /** The view hint is the highest view of any reply to this client, and at least 1. */
  lemma {:induction false} HintIsHighest(c: ClientConfig, evs: seq<ClientEvent>)
    requires c.n >= 1
    ensures
      var v := Run(c, evs).currentView;
      && v >= 1 && (forall m :: Replied(m) in evs && m.clientId == c.id ==> m.view <= v)
      && (v == 1 || exists m :: Replied(m) in evs && m.clientId == c.id && m.view == v)
  {
    if evs != [] {
      var before, ev := evs[..|evs| - 1], evs[|evs| - 1];
      HintIsHighest(c, before);
      assert forall x :: x in evs <==> x in before || x == ev;
      hide Tally;
      assert Run(c, evs).currentView ==
             if ev.Replied? && ev.reply.clientId == c.id then Max(Run(c, before).currentView, ev.reply.view)
             else Run(c, before).currentView by { TallyView(c, Run(c, before), ev); }
      hide Run;
      if Run(c, evs).currentView != 1 && Run(c, evs).currentView == Run(c, before).currentView {
        var m :| Replied(m) in before && m.clientId == c.id && m.view == Run(c, before).currentView;
        assert Replied(m) in evs;
      } else if Run(c, evs).currentView != 1 {
        assert Replied(ev.reply) in evs;
      }
    }
  }

  lemma TallyView(c: ClientConfig, st: ClientState, ev: ClientEvent)
    requires c.n >= 1
    ensures Handle(c, st, ev).currentView ==
            if ev.Replied? && ev.reply.clientId == c.id then Max(st.currentView, ev.reply.view) else st.currentView
  {
  }

  // ---------------------------------------------------------------- the class

  class Client {
    const c: ClientConfig
    var currentView: nat
    var timestamp: nat
    var inflight: map<nat, Inflight>
    /** The promises set so far. */
    var resolved: map<nat, Bytes>
    /** The requests handed to the network. */
    var sent: seq<RequestMsg>
    ghost var answers: map<nat, map<nat, Bytes>>
    ghost var received: set<ReplyMsg>
    /** What the object has been called with so far. */
    ghost var events: seq<ClientEvent>

    /** The fields are what the events make of a new client. */
    ghost predicate Valid()
      reads this
    {
      c.n >= 1 && Now() == Run(c, events)
    }

    ghost function Now(): ClientState
      reads this
    {
      ClientState(currentView, timestamp, inflight, resolved, sent, answers, received)
    }

    constructor (c: ClientConfig)
      requires c.n >= 1
      ensures this.c == c && Now() == Start
      ensures Valid() && events == []
    {
      this.c := c;
      currentView, timestamp, inflight, resolved, sent := 1, 0, map[], map[], [];
      answers, received, events := map[], {}, [];
    }

    method InvokeAsync(operation: Bytes) returns (ts: nat)
      requires Valid()
      modifies this
      ensures Now() == Invoke(c, old(Now()), operation) && ts == timestamp
      ensures Valid() && events == old(events) + [Calls(operation)]
    {
      RunMore(c, events, Calls(operation));
      timestamp := timestamp + 1;
      ts := timestamp;
      inflight := inflight[ts := Inflight({}, map[])];
      sent := sent + [RequestMsg(operation, ts, c.id)];
      events := events + [Calls(operation)];
    }

    method OnReplyMsg(m: ReplyMsg)
      requires Valid()
      modifies this
      ensures Now() == OnReply(c, old(Now()), m)
      ensures Valid() && events == old(events) + [Replied(m)]
    {
      RunMore(c, events, Replied(m));
      hide Run, Tally;
      events := events + [Replied(m)];
      received := received + {m};
      if m.clientId != c.id {
        return;
      }
      if m.view > currentView {
        currentView := m.view;
      }
      var ts := m.timestamp;
      if ts !in inflight || m.replicaId in inflight[ts].seen {
        return;
      }
      TallyReply(m);
    }

    /** Count a first answer, and settle the request if it makes f+1. */
    method TallyReply(m: ReplyMsg)
      requires c.n >= 1 && m.timestamp in inflight
      modifies this`answers, this`inflight, this`resolved
      ensures Now() == Tally(c, old(Now()), m)
    {
      var ts := m.timestamp;
      var p := inflight[ts];
      var n := Count(p.counts, m.result) + 1;
      answers := answers[ts := AnswersAt(answers, ts)[m.replicaId := m.result]];
      inflight := inflight[ts := Inflight(p.seen + {m.replicaId}, p.counts[m.result := n])];
      if n >= c.F() + 1 {
        resolved := resolved[ts := m.result];
        inflight := inflight - {ts};
        assert inflight == old(inflight) - {ts};
      }
    }
  }
}
