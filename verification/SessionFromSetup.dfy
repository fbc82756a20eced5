/** The neighbourhoods that a completed setup leaves behind form the consensus tree that the rounds run on. */
module SessionFromSetup {
  import opened Network
  import S = Setup
  import opened Election
  import opened SetupInvariant
  import opened SetupCases
  import opened SetupLeaving
  import opened SetupTheorems
  import R = Rounds

  ghost predicate AllSettled(g: Graph, s: S.State) {
    S.Shape(g, s) && forall n <- g.degree :: s.phases[n].Settled?
  }

  ghost function Hoods(g: Graph, s: S.State): map<nat, R.Neighborhood>
    requires AllSettled(g, s)
  {
    map n | n in g.degree :: R.Neighborhood(s.phases[n].parent, s.phases[n].children)
  }

  lemma {:induction false} DepthBound(left: map<nat, nat>, ns: set<nat>) returns (bound: nat)
    requires ns <= left.Keys
    ensures forall n <- ns :: left[n] <= bound
    decreases |ns|
  {
    if ns == {} { bound := 0; } else {
      var n :| n in ns;
      var rest := DepthBound(left, ns - {n});
      bound := if left[n] > rest then left[n] else rest;
      assert forall m <- ns :: m == n || m in ns - {n};
    }
  }

  lemma SettledFacts(g: Graph, s: S.State, h: History, n: nat)
    requires Inv(g, s, h) && AllSettled(g, s) && n in g.degree
    ensures Left(s, n) && LeftOk(g, s, h, n)
  {
    hide Inv, LeftOk;
    LeftFacts(g, s, h, n);
  }

  lemma EdgeMirrors(g: Graph, s: S.State, h: History, e: Endpoint)
    requires Inv(g, s, h) && AllSettled(g, s) && e in g.peer
    ensures e.node in g.degree && g.peer[e].node in g.degree
    ensures e.index in s.phases[e.node].children <==> s.phases[g.peer[e].node].parent == Some(g.peer[e].index)
    ensures e.index in s.phases[e.node].children ==>
      e.node in h.left && g.peer[e].node in h.left && h.left[e.node] < h.left[g.peer[e].node]
  {
    hide Waves, PhaseOk, TreeQueueOk, Graph.Connected, Winner, KnownChildren, Unanswered, GotTree;
    var f := g.peer[e];
    assert f in g.peer && g.peer[f] == e && f == Endpoint(f.node, f.index);
    SettledFacts(g, s, h, e.node);
    SettledFacts(g, s, h, f.node);
    Mirror(g, s, h, e);
  }

  lemma NodeHood(g: Graph, s: S.State, h: History, n: nat)
    requires S.Shape(g, s) && n in g.degree && Left(s, n) && LeftOk(g, s, h, n)
    ensures n in h.left && (s.phases[n].parent == None <==> n == s.phases[n].leader)
    ensures forall i <- s.phases[n].children :: i < g.degree[n]
    ensures s.phases[n].parent.Some? ==> s.phases[n].parent.value < g.degree[n]
  {
    hide Winner, Unanswered, GotTree, IsChild;
  }

  /** Any run of the setup in which everybody is done yields a valid session for the rounds. */
  lemma SetupYieldsSession(g: Graph, run: seq<S.State>, first: nat) returns (t: R.Session)
    requires IsRun(g, run) && AllSettled(g, run[|run| - 1]) && first in g.degree
    ensures t.Valid() && t.g == g && t.hood == Hoods(g, run[|run| - 1]) && t.root == run[|run| - 1].phases[first].leader
  {
    hide Inv, S.Init, Moves, Graph.Valid, Graph.Connected, LeftOk, R.Session.Valid;
    var s := run[|run| - 1];
    var h := RunInv(g, run);
    OneLeader(g, run, first);
    hide IsRun;
    var root := s.phases[first].leader;
    forall n | n in g.degree ensures n in h.left { SettledFacts(g, s, h, n); NodeHood(g, s, h, n); }
    var bound := DepthBound(h.left, g.degree.Keys);
    t := R.Session(g, Hoods(g, s), root, map n | n in g.degree :: h.left[n], bound);
    SessionValid(g, s, h, t);
  }

  lemma SessionValid(g: Graph, s: S.State, h: History, t: R.Session)
    requires Inv(g, s, h) && AllSettled(g, s) && t.root in g.degree
    requires forall n <- g.degree :: s.phases[n].leader == t.root && n in h.left && h.left[n] <= t.bound
    requires t.g == g && t.hood == Hoods(g, s) && t.depth == map n | n in g.degree :: h.left[n]
    ensures t.Valid()
  {
    hide Inv, Graph.Valid, LeftOk;
    assert t.hood.Keys == g.degree.Keys == t.depth.Keys;
    forall n | n in t.hood ensures t.HoodOk(n) { SettledFacts(g, s, h, n); NodeHood(g, s, h, n); }
    forall e | e in g.peer ensures t.MirrorOk(e) { EdgeMirrors(g, s, h, e); }
  }
}
