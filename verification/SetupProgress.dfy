/** Every run of the setup protocol ends, and it ends with everybody done. */
module SetupProgress {
  import opened Network
  import opened Setup
  import opened Election
  import opened SetupInvariant
  import opened SetupSteps
  import opened SetupCases
  import opened SetupLeaving
  import opened SetupTheorems

  ghost function EventBound(g: Graph): nat {
    |g.degree| + |g.peer| * |g.degree| + |g.peer|
  }

  lemma {:induction false} StartedBound(ns: set<nat>)
    ensures |set n | n in ns :: Started(n)| <= |ns|
    decreases |ns|
  {
    var all := set n | n in ns :: Started(n);
    if ns == {} {
      assert all == {};
    } else {
      var x :| x in ns;
      var rest := ns - {x};
      StartedBound(rest);
      assert all == (set n | n in rest :: Started(n)) + {Started(x)};
    }
  }

  lemma {:induction false} AnsweredBound(es: set<Endpoint>)
    ensures |set e | e in es :: Answered(e)| <= |es|
    decreases |es|
  {
    var all := set e | e in es :: Answered(e);
    if es == {} {
      assert all == {};
    } else {
      var x :| x in es;
      var rest := es - {x};
      AnsweredBound(rest);
      assert all == (set e | e in rest :: Answered(e)) + {Answered(x)};
    }
  }

  lemma {:induction false} HeardAtBound(x: Endpoint, ws: set<nat>)
    ensures |set w | w in ws :: Heard(x, w)| <= |ws|
    decreases |ws|
  {
    var all := set w | w in ws :: Heard(x, w);
    if ws == {} {
      assert all == {};
    } else {
      var v :| v in ws;
      var rest := ws - {v};
      HeardAtBound(x, rest);
      assert all == (set w | w in rest :: Heard(x, w)) + {Heard(x, v)};
    }
  }

  lemma OneMoreTime(a: nat, b: nat)
    ensures (a + 1) * b == a * b + b
  {
  }

  lemma SumSize<T>(a: set<T>, b: set<T>)
    ensures |a + b| <= |a| + |b|
  {
  }

  lemma HeardSplits(es: set<Endpoint>, x: Endpoint, ws: set<nat>)
    requires x in es
    ensures (set e, w | e in es && w in ws :: Heard(e, w)) ==
      (set e, w | e in es - {x} && w in ws :: Heard(e, w)) + (set w | w in ws :: Heard(x, w))
  {
  }

  lemma {:induction false} HeardBound(es: set<Endpoint>, ws: set<nat>)
    ensures |set e, w | e in es && w in ws :: Heard(e, w)| <= |es| * |ws|
    decreases |es|
  {
    var all := set e, w | e in es && w in ws :: Heard(e, w);
    if es == {} {
      assert all == {};
      assert |es| * |ws| == 0;
    } else {
      var x :| x in es;
      var rest := es - {x};
      HeardBound(rest, ws);
      HeardAtBound(x, ws);
      var some, here := (set e, w | e in rest && w in ws :: Heard(e, w)), (set w | w in ws :: Heard(x, w));
      HeardSplits(es, x, ws);
      SumSize(some, here);
      OneMoreTime(|rest|, |ws|);
      assert |es| == |rest| + 1;
    }
  }

  lemma EventsAreBounded(g: Graph)
    ensures |AllEvents(g)| <= EventBound(g)
  {
    StartedBound(g.degree.Keys);
    AnsweredBound(g.peer.Keys);
    HeardBound(g.peer.Keys, g.degree.Keys);
    var a := set n | n in g.degree :: Started(n);
    var b := set e, w | e in g.peer && w in g.degree :: Heard(e, w);
    var c := set e | e in g.peer :: Answered(e);
    assert a == set n | n in g.degree.Keys :: Started(n);
    assert b == set e, w | e in g.peer.Keys && w in g.degree.Keys :: Heard(e, w);
    assert c == set e | e in g.peer.Keys :: Answered(e);
    assert AllEvents(g) == a + b + c;
  }

  /** No run is longer than one turn per connector and per message that can ever be sent. */
  lemma RunsEnd(g: Graph, run: seq<State>)
    requires IsRun(g, run)
    ensures |run| - 1 <= EventBound(g)
  {
    hide Inv, Happened;
    var h := RunInv(g, run);
    InvShape(g, run[|run| - 1], h);
    EventsAreBounded(g);
    SubsetIsSmaller(Events(g, run[|run| - 1], h), AllEvents(g));
  }

  /** Nobody can start, and nobody who listens has anything to handle. */
  ghost predicate Stuck(g: Graph, s: State) {
    && (forall n <- g.degree :: n in s.phases && s.phases[n] != Idle)
    && (forall e <- g.peer :: !CanReceive(g, s, e))
  }

  lemma Quiescent(g: Graph, s: State, e: Endpoint)
    requires Shape(g, s) && Stuck(g, s) && e in g.peer && Listening(s.phases[e.node])
    ensures s.inbox[e] == []
  {
    assert !CanReceive(g, s, e);
  }

  /** If one has left, all have: a tree message waits wherever a connector lags behind. */
  lemma AllHaveLeft(g: Graph, s: State, h: History, n: nat)
    requires Inv(g, s, h) && Stuck(g, s) && n in g.degree && Left(s, n)
    ensures forall m <- g.degree :: Left(s, m)
  {
    hide Waves, Graph.Connected;
    var gone := set m | m in g.degree && Left(s, m);
    assert g.Closed(gone) by {
      forall e | e in g.peer && e.node in gone ensures g.peer[e].node in gone {
        NeighbourHasLeft(g, s, h, e);
      }
    }
    ClosedIsEverything(g, gone, n);
  }

  lemma NeighbourHasLeft(g: Graph, s: State, h: History, e: Endpoint)
    requires Inv(g, s, h) && Stuck(g, s) && e in g.peer && Left(s, e.node)
    ensures g.peer[e].node in g.degree && Left(s, g.peer[e].node)
  {
    hide Waves, Graph.Connected, ElectingOk, LeftOk;
    var f := g.peer[e];
    assert g.peer[f] == e && f in g.peer;
    QueuesFine(g, s, h, f);
    assert PhaseOk(g, s, h, f.node);
    if s.phases[f.node].Electing? { Quiescent(g, s, f); }
  }

  lemma EverythingAnswered(g: Graph, s: State, n: nat, parent: Option<nat>)
    requires Shape(g, s) && Stuck(g, s) && n in g.degree && Listening(s.phases[n]) && forall m <- g.degree :: Left(s, m)
    ensures Unanswered(g, s, n, parent) == {}
  {
    forall i: nat | i < g.degree[n] ensures GotTree(g, s, Endpoint(n, i)) {
      var e := Endpoint(n, i);
      assert g.peer[e] in g.peer;
      Quiescent(g, s, e);
    }
  }

  lemma AllSettled(g: Graph, s: State, h: History, n: nat)
    requires Inv(g, s, h) && Stuck(g, s) && n in g.degree && forall m <- g.degree :: Left(s, m)
    ensures s.phases[n].Settled?
  {
    hide Waves, Graph.Connected, PhaseOk, TreeQueueOk, Winner, KnownChildren, ParentOk, Stuck, Unanswered;
    if s.phases[n].Building? { EverythingAnswered(g, s, n, s.phases[n].parent); }
    LeftFacts(g, s, h, n);
  }

  /** Nobody has left and nothing is on the way: what was sent has been heard. */
  ghost predicate Silence(g: Graph, s: State, h: History, w: nat)
  {
    && Inv(g, s, h) && w in g.degree && (forall m <- g.degree :: m <= w)
    && (forall m <- g.degree :: s.phases[m].Electing?)
    && (forall e <- g.peer :: s.inbox[e] == [])
  }

  lemma SupportsGreatest(g: Graph, s: State, h: History, w: nat, m: nat)
    requires Silence(g, s, h, w) && m in g.degree && Reached(s, m, w)
    ensures s.phases[m].Electing? && s.phases[m].leader == w && (m, w) in h.join && ElectingOk(g, s, h, m)
  {
    hide Graph.Connected, Graph.Valid, TreeQueueOk, Waves, JoinOk, Got;
    ElectingFacts(g, s, h, m);
  }

  lemma GreatestReachesAll(g: Graph, s: State, h: History, w: nat)
    requires Silence(g, s, h, w)
    ensures forall m <- g.degree :: Reached(s, m, w)
  {
    hide Graph.Connected, Waves, PhaseOk, TreeQueueOk;
    var members := set m | m in g.degree && Reached(s, m, w);
    ElectingFacts(g, s, h, w);
    assert g.Closed(members) by {
      forall e | e in g.peer && e.node in members ensures g.peer[e].node in members {
        SpreadsOver(g, s, h, w, e);
      }
    }
    ClosedIsEverything(g, members, w);
  }

  lemma SpreadsOver(g: Graph, s: State, h: History, w: nat, e: Endpoint)
    requires Silence(g, s, h, w) && e in g.peer && Reached(s, e.node, w)
    ensures g.peer[e].node in g.degree && Reached(s, g.peer[e].node, w)
  {
    hide Graph.Connected, PhaseOk, TreeQueueOk, ElectingOk, QueueOk, JoinOk, SentOk;
    SupportsGreatest(g, s, h, w, e.node);
    assert JoinOk(g, s, h, e.node, w);
    var f := g.peer[e];
    assert g.peer[f] == e && f in g.peer;
    if (e, w) in h.sent {
      assert Got(g, s, h, f, w);
    } else {
      JoinedOver(g, s, h, w, e);
      assert JoinOk(g, s, h, f.node, w);
      JoinReached(g, s, h, w, f.node);
    }
  }

  lemma JoinedOver(g: Graph, s: State, h: History, w: nat, e: Endpoint)
    requires Shape(g, s) && (e.node, w) in h.join && JoinOk(g, s, h, e.node, w) && e in g.peer && (e, w) !in h.sent
    ensures (g.peer[e].node, w) in h.join
  {
    hide Graph.Connected;
    assert e == Endpoint(e.node, e.index);
    assert h.join[(e.node, w)].parent == Some(e.index);
  }

  lemma JoinReached(g: Graph, s: State, h: History, w: nat, n: nat)
    requires Shape(g, s) && (n, w) in h.join && JoinOk(g, s, h, n, w)
    ensures n in g.degree && Reached(s, n, w)
  {
  }

  lemma {:induction false} RankBound(h: History, keys: set<(nat, nat)>) returns (bound: nat)
    requires keys <= h.join.Keys
    ensures forall k <- keys :: h.join[k].rank <= bound
    decreases |keys|
  {
    if keys == {} { bound := 0; } else {
      var k :| k in keys;
      var rest := RankBound(h, keys - {k});
      bound := if h.join[k].rank > rest then h.join[k].rank else rest;
      assert forall j <- keys :: j == k || j in keys - {k};
    }
  }

  /** With everyone in the greatest wave, the last to join has nobody to wait for, and so on up. */
  lemma {:induction false} NobodyWaits(g: Graph, s: State, h: History, w: nat, bound: nat, n: nat)
    requires Silence(g, s, h, w) && n in g.degree && (forall m <- g.degree :: Reached(s, m, w))
    requires forall k <- h.join :: h.join[k].rank <= bound
    requires (n, w) in h.join
    ensures s.phases[n].Electing? && s.phases[n].awaiting == {}
    decreases bound - h.join[(n, w)].rank
  {
    hide Silence;
    SupportsGreatest(g, s, h, w, n);
    forall i | i in s.phases[n].awaiting ensures false {
      var m := WaitsForChild(g, s, h, w, n, i);
      NobodyWaits(g, s, h, w, bound, m);
      assert false;
    }
  }

  lemma WaitsForChild(g: Graph, s: State, h: History, w: nat, n: nat, i: nat) returns (m: nat)
    requires Silence(g, s, h, w) && n in g.degree && (forall m <- g.degree :: Reached(s, m, w))
    requires (n, w) in h.join && s.phases[n].Electing? && i in s.phases[n].awaiting
    ensures m in g.degree && (m, w) in h.join && h.join[(m, w)].rank > h.join[(n, w)].rank
    ensures s.phases[m].Electing? && s.phases[m].awaiting != {}
  {
    hide Graph.Connected, PhaseOk, TreeQueueOk, QueueOk, Reached;
    SupportsGreatest(g, s, h, w, n);
    var e := Endpoint(n, i);
    var f := g.peer[e];
    m := f.node;
    assert f in g.peer && g.peer[f] == e;
    SupportsGreatest(g, s, h, w, m);
    assert !Got(g, s, h, e, w);
    assert JoinOk(g, s, h, m, w);
    assert f == Endpoint(m, f.index);
  }

  /** The election cannot stall: with no message left, somebody has left it. */
  lemma SomebodyHasLeft(g: Graph, s: State, h: History, w: nat)
    requires Inv(g, s, h) && Stuck(g, s) && w in g.degree && (forall m <- g.degree :: m <= w)
    ensures exists n <- g.degree :: Left(s, n)
  {
    hide Waves, Graph.Connected, TreeQueueOk, ElectingOk, LeftOk;
    if !exists n <- g.degree :: Left(s, n) {
      forall m | m in g.degree ensures s.phases[m].Electing? { assert PhaseOk(g, s, h, m); }
      forall e | e in g.peer ensures s.inbox[e] == [] { Quiescent(g, s, e); }
      assert Silence(g, s, h, w);
      RootIsDone(g, s, h, w);
      RootWaits(g, s, h, w);
    }
  }

  lemma RootIsDone(g: Graph, s: State, h: History, w: nat)
    requires Silence(g, s, h, w)
    ensures s.phases[w].Electing? && s.phases[w].awaiting == {}
  {
    hide Waves, Graph.Connected, TreeQueueOk, Graph.Valid, Got, JoinOk;
    GreatestReachesAll(g, s, h, w);
    SupportsGreatest(g, s, h, w, w);
    var bound := RankBound(h, h.join.Keys);
    NobodyWaits(g, s, h, w, bound, w);
  }

  lemma RootWaits(g: Graph, s: State, h: History, w: nat)
    requires Silence(g, s, h, w)
    ensures s.phases[w].Electing? && s.phases[w].awaiting != {}
  {
    hide Graph.Connected, TreeQueueOk, QueueOk, Waves, Got;
    ElectingFacts(g, s, h, w);
  }

  /** A run that cannot go on has every connector done: together with `RunsEnd`, every
      run of the setup protocol that is left to continue completes for everybody. */
  lemma FinishedMeansDone(g: Graph, run: seq<State>, n: nat)
    requires IsRun(g, run) && Stuck(g, run[|run| - 1]) && n in g.degree
    ensures run[|run| - 1].phases[n].Settled?
  {
    var s := run[|run| - 1];
    var h := RunInv(g, run);
    hide Inv, IsRun, Stuck;
    InvShape(g, s, h);
    hide Waves;
    var w := Greatest(g.degree.Keys);
    SomebodyHasLeft(g, s, h, w);
    var m :| m in g.degree && Left(s, m);
    AllHaveLeft(g, s, h, m);
    AllSettled(g, s, h, n);
  }

  lemma {:induction false} Greatest(ns: set<nat>) returns (w: nat)
    requires ns != {}
    ensures w in ns && forall n <- ns :: n <= w
    decreases |ns|
  {
    var x :| x in ns;
    if ns == {x} { w := x; } else {
      assert ns == {x} + (ns - {x});
      var y := Greatest(ns - {x});
      w := if x > y then x else y;
      assert forall n <- ns :: n == x || n in ns - {x};
    }
  }
}
