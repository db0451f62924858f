/** Building schedules: several replicas each hear several messages that are already on their way. */
module Schedules {
  import opened Handlers
  import opened Invariant
  import opened Cluster
  import opened ReplicaRuns

  /** Some schedule that obeys g leads to this cluster. */
  ghost predicate Reachable(c: Config, good: set<nat>, g: Regime, cl: Cluster)
    requires Sound(c, good)
  {
    exists acts :: Schedule(c, good, g, acts) && Reach(c, good, g, acts) == cl
  }

  lemma StartReachable(c: Config, good: set<nat>, g: Regime)
    requires Sound(c, good)
    ensures Reachable(c, good, g, Start(c, good))
  {
    assert Schedule(c, good, g, []) && Reach(c, good, g, []) == Start(c, good);
  }

  lemma FeedOne(c: Config, g: Regime, st: State, ev: Event)
    requires c.Valid()
    ensures Feed(c, st, [ev]) == Handle(c, st, ev)
    ensures Feedable(c, g, st, [ev]) <==> Possible(c, st, ev) && Obeys(c, g, st, ev)
  {
    assert [] + [ev] == [ev];
    FeedMore(c, g, st, [], ev);
  }

  lemma {:induction false} FeedGrows(c: Config, st: State, evs: seq<Event>)
    requires c.Valid()
    ensures st.outbox <= Feed(c, st, evs).outbox
  {
    hide Handle;
    if evs != [] {
      FeedGrows(c, st, evs[..|evs| - 1]);
    }
  }

  /** Messages of correct replicas among the events have been sent. */
  ghost predicate Sent(good: set<nat>, cl: Cluster, evs: seq<Event>)
    requires cl.Keys == good
  {
    forall k :: 0 <= k < |evs| && evs[k].Deliver? && evs[k].from in good ==> evs[k].msg in cl[evs[k].from].outbox
  }

  /** One more action. */
  lemma Play(c: Config, good: set<nat>, g: Regime, cl: Cluster, a: Action)
    requires Sound(c, good) && cl.Keys == good && Reachable(c, good, g, cl)
    requires Allowed(c, good, cl, a) && Obeys(For(c, a.at), g, cl[a.at], a.ev)
    ensures Reachable(c, good, g, Step(c, good, cl, a))
  {
    hide Step, Allowed, Obeys;
    var acts :| Schedule(c, good, g, acts) && Reach(c, good, g, acts) == cl;
    var acts' := acts + [a];
    assert acts'[..|acts|] == acts;
    assert a.at in good by { AllowedAt(c, good, cl, a); }
    assert Schedule(c, good, g, acts') && Reach(c, good, g, acts') == Step(c, good, cl, a);
  }

  lemma AllowedAt(c: Config, good: set<nat>, cl: Cluster, a: Action)
    requires cl.Keys == good && Allowed(c, good, cl, a)
    ensures a.at in good
  {
  }

  /** One correct replica handles a sequence of events. */
  lemma {:induction false} OneHears(c: Config, good: set<nat>, g: Regime, cl: Cluster, i: nat, evs: seq<Event>)
    requires Sound(c, good) && cl.Keys == good && Reachable(c, good, g, cl) && i in good
    requires Feedable(For(c, i), g, cl[i], evs) && Sent(good, cl, evs)
    ensures Reachable(c, good, g, cl[i := Feed(For(c, i), cl[i], evs)])
  {
    hide Handle, Obeys;
    if evs == [] {
      assert cl[i := cl[i]] == cl;
    } else {
      var before := evs[..|evs| - 1];
      var ev := evs[|evs| - 1];
      var cl1 := cl[i := Feed(For(c, i), cl[i], before)];
      OneHears(c, good, g, cl, i, before);
      Play(c, good, g, cl1, Action(i, ev));
      assert Step(c, good, cl1, Action(i, ev)) == cl[i := Feed(For(c, i), cl[i], evs)];
    }
  }

  /** Each replica of a plan handles its own sequence of events. */
  ghost function Heard(c: Config, good: set<nat>, cl: Cluster, plan: map<nat, seq<Event>>): (cl': Cluster)
    requires Sound(c, good) && cl.Keys == good && plan.Keys <= good
    ensures cl'.Keys == good
  {
    map i | i in good :: if i in plan then Feed(For(c, i), cl[i], plan[i]) else cl[i]
  }

  ghost predicate Playable(c: Config, good: set<nat>, g: Regime, cl: Cluster, plan: map<nat, seq<Event>>)
    requires Sound(c, good) && cl.Keys == good
  {
    forall i :: i in plan ==> i in good && Feedable(For(c, i), g, cl[i], plan[i]) && Sent(good, cl, plan[i])
  }

  lemma StillSent(c: Config, good: set<nat>, cl: Cluster, plan: map<nat, seq<Event>>, evs: seq<Event>)
    requires Sound(c, good) && cl.Keys == good && plan.Keys <= good && Sent(good, cl, evs)
    ensures Sent(good, Heard(c, good, cl, plan), evs)
  {
    hide Feed;
    var cl1 := Heard(c, good, cl, plan);
    forall k, m | k in good && m in cl[k].outbox ensures m in cl1[k].outbox {
      if k in plan {
        FeedGrows(For(c, k), cl[k], plan[k]);
      }
    }
  }

  lemma {:induction false} AllHear(c: Config, good: set<nat>, g: Regime, cl: Cluster, plan: map<nat, seq<Event>>)
    requires Sound(c, good) && cl.Keys == good && Reachable(c, good, g, cl) && Playable(c, good, g, cl, plan)
    ensures plan.Keys <= good && Reachable(c, good, g, Heard(c, good, cl, plan))
    decreases |plan|
  {
    hide Reachable, Feed, Feedable, Sent;
    if plan == map[] {
      assert Heard(c, good, cl, plan) == cl;
    } else {
      var i :| i in plan;
      var rest := map k | k in plan && k != i :: plan[k];
      assert rest.Keys == plan.Keys - {i};
      AllHear(c, good, g, cl, rest);
      var cl1 := Heard(c, good, cl, rest);
      StillSent(c, good, cl, rest, plan[i]);
      assert cl1[i] == cl[i];
      OneHears(c, good, g, cl1, i, plan[i]);
      assert Heard(c, good, cl, plan) == cl1[i := Feed(For(c, i), cl1[i], plan[i])];
    }
  }
}
