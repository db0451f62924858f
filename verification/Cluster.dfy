/**
 * A cluster of replicas of which at most f are faulty. Faulty replicas have no state
 * here: under their own id they may send any message to anyone at any time. Messages
 * may be lost, repeated, reordered and delayed.
 */
module Cluster {
  import opened Messages
  import opened Collections
  import opened Handlers
  import opened Invariant
  import opened Preservation

  /** The correct replicas. */
  type Cluster = map<nat, State>

  /** At one replica, one event. */
  datatype Action = Action(at: nat, ev: Event)

  function For(c: Config, i: nat): Config {
    c.(id := i)
  }

  ghost predicate Sound(c: Config, good: set<nat>) {
    c.n >= 1 && c.K > 0 && good <= Ids(c.n)
  }

  /** n = 3f+1 replicas, at most f of them faulty. */
  ghost predicate MostlyCorrect(c: Config, good: set<nat>) {
    Sound(c, good) && c.n == 3 * c.F() + 1 && |good| >= c.n - c.F()
  }

  ghost function Start(c: Config, good: set<nat>): Cluster {
    map i | i in good :: Init(For(c, i))
  }

  /** What a correct replica is said to have sent, it has sent. */
  ghost predicate Allowed(c: Config, good: set<nat>, cl: Cluster, a: Action)
    requires cl.Keys == good
  {
    && a.at in good
    && Possible(For(c, a.at), cl[a.at], a.ev)
    && (a.ev.Deliver? && a.ev.from in good ==> a.ev.msg in cl[a.ev.from].outbox)
  }

  ghost function Step(c: Config, good: set<nat>, cl: Cluster, a: Action): (r: Cluster)
    requires Sound(c, good) && cl.Keys == good && a.at in good
    ensures r.Keys == good
  {
    cl[a.at := Handle(For(c, a.at), cl[a.at], a.ev)]
  }

  /** A schedule that can happen under the hypotheses g. */
  ghost predicate Schedule(c: Config, good: set<nat>, g: Regime, acts: seq<Action>)
    requires Sound(c, good)
    decreases |acts|, 0
  {
    acts == [] ||
    (var before := acts[..|acts| - 1];
     var a := acts[|acts| - 1];
     && Schedule(c, good, g, before)
     && Allowed(c, good, Reach(c, good, g, before), a)
     && Obeys(For(c, a.at), g, Reach(c, good, g, before)[a.at], a.ev))
  }

  /** The cluster after a schedule. */
  ghost function Reach(c: Config, good: set<nat>, g: Regime, acts: seq<Action>): (cl: Cluster)
    requires Sound(c, good) && Schedule(c, good, g, acts)
    ensures cl.Keys == good
    decreases |acts|, 1
  {
    if acts == [] then Start(c, good)
    else Step(c, good, Reach(c, good, g, acts[..|acts| - 1]), acts[|acts| - 1])
  }

  /** Every received message from a correct replica was sent by it. */
  ghost predicate Authentic(good: set<nat>, cl: Cluster)
    requires cl.Keys == good
  {
    forall i, p :: i in good && p in cl[i].inbox && p.from in good ==> p.msg in cl[p.from].outbox
  }

  ghost predicate ClusterInv(c: Config, good: set<nat>, g: Regime, cl: Cluster)
    requires Sound(c, good) && cl.Keys == good
  {
    && (forall i :: i in good ==> Inv(For(c, i), g, cl[i]))
    && Authentic(good, cl)
  }

  /** The inbox grows by the delivered message only. */
  lemma HandleInbox(c: Config, st: State, ev: Event)
    requires c.Valid()
    ensures Handle(c, st, ev).inbox == if ev.Deliver? then st.inbox + {Packet(ev.from, ev.msg)} else st.inbox
  {
    hide Dispatch, OnRequest, StartViewChange;
  }

  lemma StepAuthentic(c: Config, good: set<nat>, cl: Cluster, a: Action)
    requires Sound(c, good) && cl.Keys == good && Authentic(good, cl) && Allowed(c, good, cl, a)
    ensures Authentic(good, Step(c, good, cl, a))
  {
    HandleInbox(For(c, a.at), cl[a.at], a.ev);
    var cl' := Step(c, good, cl, a);
    hide Handle;
    assert forall i, m :: i in good && m in cl[i].outbox ==> m in cl'[i].outbox;
  }

  /** Induction over schedules. */
  lemma {:induction false} ReachInv(c: Config, good: set<nat>, g: Regime, acts: seq<Action>)
    requires Sound(c, good) && HashFits(c, g) && Schedule(c, good, g, acts)
    ensures ClusterInv(c, good, g, Reach(c, good, g, acts))
  {
    hide Inv, Handle;
    if acts == [] {
      forall i | i in good ensures Inv(For(c, i), g, Init(For(c, i))) {
        InitHolds(For(c, i), g);
      }
    } else {
      var before := acts[..|acts| - 1];
      var a := acts[|acts| - 1];
      var cl := Reach(c, good, g, before);
      ReachInv(c, good, g, before);
      HandleKeeps(For(c, a.at), g, cl[a.at], a.ev);
      StepAuthentic(c, good, cl, a);
    }
  }

  /** Nothing sent, received or executed is taken back. */
  ghost predicate Grown(st: State, st': State) {
    && st.outbox <= st'.outbox && st.inbox <= st'.inbox && st.history <= st'.history
    && st.h <= st'.h && st.view <= st'.view && st.lastExec <= st'.lastExec
  }

  lemma StepGrows(c: Config, good: set<nat>, cl: Cluster, a: Action, i: nat)
    requires Sound(c, good) && cl.Keys == good && a.at in good && i in good
    ensures Grown(cl[i], Step(c, good, cl, a)[i])
  {
    hide Handle;
  }

  /** Within a schedule no correct replica takes anything back. */
  lemma {:induction false} ReachGrows(c: Config, good: set<nat>, g: Regime, acts: seq<Action>, k: nat)
    requires Sound(c, good) && Schedule(c, good, g, acts) && k <= |acts|
    ensures Schedule(c, good, g, acts[..k])
    ensures forall i :: i in good ==> Grown(Reach(c, good, g, acts[..k])[i], Reach(c, good, g, acts)[i])
  {
    hide Handle, Obeys, Possible, Step, Init;
    if k == |acts| {
      assert acts[..k] == acts;
    } else {
      var before := acts[..|acts| - 1];
      assert before[..k] == acts[..k];
      ReachGrows(c, good, g, before, k);
      forall i | i in good ensures Grown(Reach(c, good, g, before)[i], Reach(c, good, g, acts)[i]) {
        StepGrows(c, good, Reach(c, good, g, before), acts[|acts| - 1], i);
      }
    }
  }
}
