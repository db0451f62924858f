/** From a replica's execution to the result a client accepts. */
module EndToEnd {
  import opened Messages
  import opened Collections
  import opened Handlers
  import opened Invariant
  import opened Cluster
  import opened Agreement
  import CM = ClientModel

  /**
   * Everything the client received came from one of the n replicas, and what it
   * received from a correct one that replica has sent.
   */
  ghost predicate Served(c: Config, good: set<nat>, cl: Cluster, evs: seq<CM.ClientEvent>)
    requires cl.Keys == good
  {
    forall m :: CM.Replied(m) in evs ==>
      m.replicaId < c.n && (m.replicaId in good ==> Reply(m) in cl[m.replicaId].outbox)
  }

  lemma ReplyFacts(c: Config, g: Regime, st: State, m: ReplyMsg)
    requires c.Valid() && Inv(c, g, st) && Reply(m) in st.outbox
    ensures Answers(st.history, m.clientId, m.timestamp, m.result)
  {
  }

  /**
   * A result that a client accepts was obtained by a correct replica by executing a
   * request of that client with that timestamp.
   */
  lemma AcceptedWasExecuted(c: Config, good: set<nat>, g: Regime, acts: seq<Action>,
                            client: CM.ClientConfig, evs: seq<CM.ClientEvent>, ts: nat) returns (j: nat, k: nat)
    requires MostlyCorrect(c, good) && HashFits(c, g) && Schedule(c, good, g, acts)
    requires client.n == c.n && Served(c, good, Reach(c, good, g, acts), evs)
    requires ts in CM.Run(client, evs).resolved
    ensures j in good && k < |Reach(c, good, g, acts)[j].history|
    ensures
      var x := Reach(c, good, g, acts)[j].history[k];
      x.req.clientId == client.id && x.req.timestamp == ts && x.result == CM.Run(client, evs).resolved[ts]
  {
    hide Inv, Reach, CM.Run;
    var cl := Reach(c, good, g, acts);
    var r := CM.Run(client, evs).resolved[ts];
    ReachInv(c, good, g, acts);
    var backers := CM.AcceptedMeansQuorum(client, evs, ts);
    forall b | b in backers ensures b < c.n {
      var v: nat :| CM.Replied(ReplyMsg(v, ts, client.id, b, r)) in evs;
    }
    j := CorrectMember(c.n, c.F(), good, backers);
    var v: nat :| CM.Replied(ReplyMsg(v, ts, client.id, j, r)) in evs;
    ReplyFacts(For(c, j), g, cl[j], ReplyMsg(v, ts, client.id, j, r));
    k :| && 0 <= k < |cl[j].history| && cl[j].history[k].req.clientId == client.id
         && cl[j].history[k].req.timestamp == ts && cl[j].history[k].result == r;
  }

  /**
   * Under the hypotheses of replicated execution, every correct replica that has got
   * that far executed the same request there and obtained the accepted result.
   */
  lemma AcceptedByAll(c: Config, good: set<nat>, g: Regime, acts: seq<Action>,
                      client: CM.ClientConfig, evs: seq<CM.ClientEvent>, ts: nat) returns (k: nat)
    requires MostlyCorrect(c, good) && HashFits(c, g) && Lasting(c, g) && g.faithful && Schedule(c, good, g, acts)
    requires client.n == c.n && Served(c, good, Reach(c, good, g, acts), evs)
    requires ts in CM.Run(client, evs).resolved
    ensures forall i :: i in good && k < |Reach(c, good, g, acts)[i].history| ==>
      var x := Reach(c, good, g, acts)[i].history[k];
      x.req.clientId == client.id && x.req.timestamp == ts && x.result == CM.Run(client, evs).resolved[ts]
    ensures exists i :: i in good && k < |Reach(c, good, g, acts)[i].history|
  {
    hide Inv, Reach, CM.Run;
    var cl := Reach(c, good, g, acts);
    var j;
    j, k := AcceptedWasExecuted(c, good, g, acts, client, evs, ts);
    forall i | i in good && k < |cl[i].history| ensures SameStep(cl[i].history[k], cl[j].history[k]) {
      if cl[i].lastExec <= cl[j].lastExec {
        ReplicatedExecution(c, good, g, acts, i, j);
      } else {
        ReplicatedExecution(c, good, g, acts, j, i);
      }
    }
  }
}
