/** The invariant of the whole setup protocol: the waves of the election together with
    the construction of the consensus tree. */
module SetupInvariant {
  import opened Network
  import opened Setup
  import opened Election

  /** `n` has left the election, knowing the leader and its own parent. */
  ghost predicate Left(s: State, n: nat) {
    n in s.phases && (s.phases[n].Building? || s.phases[n].Settled?)
  }

  ghost predicate HasTree(q: seq<Msg>) {
    exists m <- q :: !m.Wave?
  }

  /** The tree message that the neighbour across `e` sent has been handled. */
  ghost predicate GotTree(g: Graph, s: State, e: Endpoint)
    requires Shape(g, s)
  {
    e in g.peer && Left(s, g.peer[e].node) && !HasTree(s.inbox[e])
  }

  /** The neighbour across `e` has left the election, taking this link as its parent. */
  ghost predicate IsChild(g: Graph, s: State, e: Endpoint)
    requires Shape(g, s)
  {
    e in g.peer && Left(s, g.peer[e].node) && s.phases[g.peer[e].node].parent == Some(g.peer[e].index)
  }

  ghost function Unanswered(g: Graph, s: State, n: nat, parent: Option<nat>): set<nat>
    requires Shape(g, s) && n in g.degree
  {
    set i | i in Others(g.degree[n], parent) && !GotTree(g, s, Endpoint(n, i))
  }

  ghost function KnownChildren(g: Graph, s: State, n: nat, parent: Option<nat>): set<nat>
    requires Shape(g, s) && n in g.degree
  {
    set i | i in Others(g.degree[n], parent) &&
            GotTree(g, s, Endpoint(n, i)) && IsChild(g, s, Endpoint(n, i))
  }

  /** `w` won the election. */
  ghost predicate Winner(g: Graph, s: State, h: History, w: nat)
    requires Shape(g, s)
  {
    Left(s, w) && s.phases[w].leader == w && Complete(g, s, h, w)
  }

  ghost predicate ParentOk(g: Graph, s: State, h: History, n: nat, p: nat)
    requires Shape(g, s)
  {
    var e := Endpoint(n, p);
    && e in g.peer && GotTree(g, s, e) && !IsChild(g, s, e)
    && n in h.left && g.peer[e].node in h.left && h.left[g.peer[e].node] < h.left[n]
  }

  ghost predicate LeftOk(g: Graph, s: State, h: History, n: nat)
    requires Shape(g, s) && n in g.degree && Left(s, n)
  {
    var ph := s.phases[n];
    && (n, n) in h.join && n in h.left
    && Winner(g, s, h, ph.leader)
    && (ph.parent == None <==> ph.leader == n)
    && (ph.parent.Some? ==> ParentOk(g, s, h, n, ph.parent.value))
    && ph.children == KnownChildren(g, s, n, ph.parent)
    && (ph.Building? ==> ph.awaiting == Unanswered(g, s, n, ph.parent) != {})
    && (ph.Settled? ==> Unanswered(g, s, n, ph.parent) == {})
  }

  ghost predicate PhaseOk(g: Graph, s: State, h: History, n: nat)
    requires Shape(g, s) && n in g.degree
  {
    match s.phases[n]
    case Idle => true
    case Electing(_, _, _) => ElectingOk(g, s, h, n)
    case Building(_, _, _, _) => LeftOk(g, s, h, n)
    case Settled(_, _, _) => LeftOk(g, s, h, n)
    case Crashed => false
    case Misbehaved => false
  }

  /** `m` is what the connector at `f` told the connector `n` when it left the election. */
  ghost predicate TreeFrom(s: State, f: Endpoint, n: nat, m: Msg) {
    && Left(s, f.node)
    && m == TreeMsg(s.phases[f.node].parent, s.phases[f.node].leader, f.index)
    && (m.YouAreMyParent? ==> Left(s, n))
  }

  ghost predicate TreeQueueOk(g: Graph, s: State, e: Endpoint)
    requires Shape(g, s) && e in g.peer
  {
    && (forall m <- s.inbox[e] | !m.Wave? :: TreeFrom(s, g.peer[e], e.node, m))
    && (Left(s, g.peer[e].node) && !Left(s, e.node) ==> HasTree(s.inbox[e]))
  }

  ghost predicate Inv(g: Graph, s: State, h: History) {
    && Shape(g, s) && g.Connected()
    && Waves(g, s, h)
    && (forall n <- g.degree :: PhaseOk(g, s, h, n))
    && (forall e <- g.peer :: TreeQueueOk(g, s, e))
    && (forall n <- h.left :: n in g.degree && Left(s, n))
  }

  /** There is only one winner, and it has the greatest identifier. */
  lemma WinnerIsGreatest(g: Graph, s: State, h: History, w: nat)
    requires Shape(g, s) && g.Connected() && Waves(g, s, h) && Complete(g, s, h, w)
    ensures forall n <- g.degree :: n <= w
  {
    CompleteWaveReachesAll(g, s, h, w);
  }

  /** What a turn of `n` may do to what the other connectors see. */
  ghost predicate Discreet(g: Graph, s: State, h: History, s': State, h': History, n: nat)
    requires Shape(g, s) && Shape(g, s')
  {
    && Grows(g, s, h, s', h')
    && (forall m <- g.degree | m != n :: s'.phases[m] == s.phases[m])
    && (forall e: Endpoint, w: nat | e.node != n :: Got(g, s', h', e, w) ==> Got(g, s, h, e, w))
    && (forall p <- h'.sent | p.0.node != n :: p in h.sent)
    && (Left(s, n) ==> Left(s', n) && s'.phases[n].leader == s.phases[n].leader && s'.phases[n].parent == s.phases[n].parent)
    && (forall e: Endpoint | e.node != n :: GotTree(g, s', e) <==> GotTree(g, s, e))
    && (forall m <- h.left :: m in h'.left && h'.left[m] == h.left[m])
  }

  lemma OtherElecting(g: Graph, s: State, h: History, s': State, h': History, n: nat, m: nat)
    requires Shape(g, s) && Shape(g, s') && Discreet(g, s, h, s', h', n)
    requires m in g.degree && m != n && s.phases[m].Electing? && ElectingOk(g, s, h, m)
    ensures s'.phases[m] == s.phases[m] && ElectingOk(g, s', h', m)
  {
    hide Got, GotTree, Reached, Graph.Valid;
    var ph := s.phases[m];
    forall i | i in Others(g.degree[m], ph.parent)
      ensures Got(g, s, h, Endpoint(m, i), ph.leader) <==> Got(g, s', h', Endpoint(m, i), ph.leader) {}
    assert Awaited(g, s, h, m, ph.parent, ph.leader) == Awaited(g, s', h', m, ph.parent, ph.leader);
  }

  lemma WinnerGrows(g: Graph, s: State, h: History, s': State, h': History, n: nat, w: nat)
    requires Shape(g, s) && Shape(g, s') && Discreet(g, s, h, s', h', n) && Winner(g, s, h, w)
    ensures Winner(g, s', h', w)
  {
    hide Got, GotTree, Reached, Graph.Valid;
  }

  lemma IsChildStays(g: Graph, s: State, h: History, s': State, h': History, n: nat, e: Endpoint)
    requires Shape(g, s) && Shape(g, s') && Discreet(g, s, h, s', h', n) && e in g.peer && Left(s, g.peer[e].node)
    ensures IsChild(g, s, e) <==> IsChild(g, s', e)
  {
    hide Got, GotTree, Reached;
  }

  lemma OtherLeft(g: Graph, s: State, h: History, s': State, h': History, n: nat, m: nat)
    requires Shape(g, s) && Shape(g, s') && Discreet(g, s, h, s', h', n)
    requires m in g.degree && m != n && Left(s, m) && LeftOk(g, s, h, m)
    ensures s'.phases[m] == s.phases[m] && LeftOk(g, s', h', m)
  {
    var ph := s.phases[m];
    WinnerGrows(g, s, h, s', h', n, ph.leader);
    forall i | i in Others(g.degree[m], ph.parent) || Some(i) == ph.parent
      ensures GotTree(g, s, Endpoint(m, i)) <==> GotTree(g, s', Endpoint(m, i))
      ensures GotTree(g, s, Endpoint(m, i)) ==> (IsChild(g, s, Endpoint(m, i)) <==> IsChild(g, s', Endpoint(m, i)))
    {
      if GotTree(g, s, Endpoint(m, i)) { IsChildStays(g, s, h, s', h', n, Endpoint(m, i)); }
    }
    hide Got, GotTree, IsChild, Reached, Graph.Valid, Winner;
    assert Unanswered(g, s, m, ph.parent) == Unanswered(g, s', m, ph.parent);
    assert KnownChildren(g, s, m, ph.parent) == KnownChildren(g, s', m, ph.parent);
  }

  lemma OthersOk(g: Graph, s: State, h: History, s': State, h': History, n: nat)
    requires Inv(g, s, h) && Shape(g, s') && Discreet(g, s, h, s', h', n)
    ensures forall m <- g.degree | m != n :: PhaseOk(g, s', h', m)
  {
    hide Waves, Graph.Valid, Graph.Connected, TreeQueueOk, ElectingOk, LeftOk;
    forall m | m in g.degree && m != n ensures PhaseOk(g, s', h', m) {
      assert PhaseOk(g, s, h, m);
      assert s'.phases[m] == s.phases[m];
      if s.phases[m].Electing? { OtherElecting(g, s, h, s', h', n, m); }
      else if Left(s, m) { OtherLeft(g, s, h, s', h', n, m); }
    }
  }
}
