/** What every run of the setup protocol guarantees. */
module SetupTheorems {
  import opened Network
  import opened Setup
  import opened Election
  import opened SetupInvariant
  import opened SetupSteps
  import opened SetupCases
  import opened SetupLeaving

  lemma StartGoes(g: Graph, s: State, h: History, n: nat) returns (h': History)
    requires Inv(g, s, h) && CanStart(g, s, n)
    ensures Goes(g, s, h, Start(g, s, n), h')
  {
    hide Inv, Goes;
    InvShape(g, s, h);
    if g.degree[n] == 0 { h' := StartAlone(g, s, h, n); } else { h' := StartElection(g, s, h, n); }
  }

  /** `YouAreMyParent` never reaches a connector that is still in the election. */
  lemma NoChildYet(g: Graph, s: State, h: History, e: Endpoint)
    requires Inv(g, s, h) && CanReceive(g, s, e) && s.phases[e.node].Electing?
    ensures s.inbox[e][0] != YouAreMyParent
  {
    hide Waves, PhaseOk;
    QueuesFine(g, s, h, e);
    assert s.inbox[e][0] in s.inbox[e];
  }

  lemma ReceiveGoes(g: Graph, s: State, h: History, e: Endpoint) returns (h': History)
    requires Inv(g, s, h) && CanReceive(g, s, e)
    ensures Goes(g, s, h, Receive(g, s, e), h')
  {
    hide Inv, Goes, Receive, Graph.Valid;
    InvShape(g, s, h);
    hide Waves;
    var ph, m := s.phases[e.node], s.inbox[e][0];
    h' := h;
    if ph.Electing? {
      NoChildYet(g, s, h, e);
      if m.Announce? { h' := LoseCase(g, s, h, e, m.leader); }
      else if m.leader < ph.leader { IgnoreCase(g, s, h, e, m.leader); }
      else if m.leader > ph.leader { h' := JoinCase(g, s, h, e, m.leader); }
      else if ph.awaiting - {e.index} != {} { EchoCase(g, s, h, e); }
      else if ph.parent.Some? { h' := ReplyCase(g, s, h, e); }
      else { h' := WinCase(g, s, h, e); }
    } else if m.Wave? {
      DiscardCase(g, s, h, e, m.leader);
    } else {
      AnswerCase(g, s, h, e);
    }
  }

  lemma InitInv(g: Graph, s: State) returns (h: History)
    requires g.Valid() && g.Connected() && Init(g, s)
    ensures Inv(g, s, h)
  {
    hide Graph.Connected;
    h := History(map[], {}, map[]);
  }

  /** Every step from a state that satisfies the invariant reaches another one, and makes
      something happen that had not happened before. */
  lemma StepGoes(g: Graph, s: State, h: History, s': State) returns (h': History)
    requires Inv(g, s, h) && Step(g, s, s')
    ensures Goes(g, s, h, s', h')
  {
    hide Inv, Goes, Start, Receive;
    InvShape(g, s, h);
    hide Waves, Graph.Valid;
    if n :| CanStart(g, s, n) && s' == Start(g, s, n) {
      h' := StartGoes(g, s, h, n);
    } else {
      var e :| CanReceive(g, s, e) && s' == Receive(g, s, e);
      h' := ReceiveGoes(g, s, h, e);
    }
  }

  ghost predicate IsRun(g: Graph, run: seq<State>) {
    && g.Valid() && g.Connected()
    && |run| > 0 && Init(g, run[0])
    && forall i | 0 <= i < |run| - 1 :: Moves(g, run[i], run[i + 1])
  }

  ghost predicate Moves(g: Graph, s: State, s': State) {
    Shape(g, s) && Step(g, s, s')
  }

  lemma {:induction false} RunInv(g: Graph, run: seq<State>) returns (h: History)
    requires IsRun(g, run)
    ensures Inv(g, run[|run| - 1], h) && |Events(g, run[|run| - 1], h)| >= |run| - 1
    decreases |run|
  {
    hide Inv, Goes, Step, Init, Graph.Valid, Graph.Connected, Events;
    if |run| == 1 {
      h := InitInv(g, run[0]);
      InvShape(g, run[0], h);
    } else {
      var before := run[..|run| - 1];
      assert IsRun(g, before) by {
        forall i | 0 <= i < |before| - 1 ensures Moves(g, before[i], before[i + 1]) {
          assert Moves(g, run[i], run[i + 1]);
        }
      }
      var h0 := RunInv(g, before);
      var s, s' := run[|run| - 2], run[|run| - 1];
      assert Moves(g, s, s');
      h := StepGoes(g, s, h0, s');
      MoreEvents(g, s, h0, s', h);
    }
  }

  lemma MoreEvents(g: Graph, s: State, h: History, s': State, h': History)
    requires Shape(g, s) && Goes(g, s, h, s', h')
    ensures Inv(g, s', h') && |Events(g, s', h')| > |Events(g, s, h)|
  {
    hide Inv, Events;
    InvShape(g, s', h');
    ProperSubsetIsSmaller(Events(g, s, h), Events(g, s', h'));
  }

  // ---- the theorems ----

  /** No assertion of the setup fires and nobody is accused of misbehaving, in any run. */
  lemma NobodyFails(g: Graph, run: seq<State>, n: nat)
    requires IsRun(g, run) && n in g.degree
    ensures n in run[|run| - 1].phases
    ensures !run[|run| - 1].phases[n].Crashed? && !run[|run| - 1].phases[n].Misbehaved?
  {
    assert |run| > 0;
    hide IsRun, Inv;
    var h := RunInv(g, run);
    PhaseFine(g, run[|run| - 1], h, n);
  }

  lemma PhaseFine(g: Graph, s: State, h: History, n: nat)
    requires Inv(g, s, h) && n in g.degree
    ensures n in s.phases && !s.phases[n].Crashed? && !s.phases[n].Misbehaved?
  {
    hide Waves, TreeQueueOk, LeftOk, ElectingOk, Graph.Valid, Graph.Connected, Winner;
    assert PhaseOk(g, s, h, n);
  }

  /** As soon as one connector has left the election, the leader is settled: it is the connector with
      the greatest identifier, it left too, and every connector supports it and no other. */
  lemma OneLeader(g: Graph, run: seq<State>, n: nat)
    requires IsRun(g, run) && Left(run[|run| - 1], n)
    ensures var s := run[|run| - 1]; var w := s.phases[n].leader;
      && w in g.degree && Left(s, w) && s.phases[w].parent == None
      && (forall m <- g.degree :: m <= w)
      && (forall m <- g.degree :: m in s.phases && Running(s.phases[m]) && s.phases[m].leader == w)
  {
    var s := run[|run| - 1];
    var h := RunInv(g, run);
    hide IsRun;
    LeftFacts(g, s, h, n);
    var w := s.phases[n].leader;
    AllSupport(g, s, h, n);
    LeftFacts(g, s, h, w);
  }

  lemma AllSupport(g: Graph, s: State, h: History, n: nat)
    requires Inv(g, s, h) && n in g.degree && Left(s, n) && LeftOk(g, s, h, n)
    ensures forall m <- g.degree :: m <= s.phases[n].leader
    ensures forall m <- g.degree :: m in s.phases && Running(s.phases[m]) && s.phases[m].leader == s.phases[n].leader
  {
    hide PhaseOk, TreeQueueOk, Graph.Connected, Graph.Valid, KnownChildren, Unanswered, ParentOk, Waves;
    var w := s.phases[n].leader;
    CompleteWaveReachesAll(g, s, h, w);
    forall m | m in g.degree ensures m in s.phases && Running(s.phases[m]) && s.phases[m].leader == w {
      SupportsWinner(g, s, h, w, m);
    }
  }

  lemma SupportsWinner(g: Graph, s: State, h: History, w: nat, m: nat)
    requires Inv(g, s, h) && m in g.degree && (m, w) in h.join && forall k <- g.degree :: k <= w
    ensures Running(s.phases[m]) && s.phases[m].leader == w
  {
    hide TreeQueueOk, Graph.Connected, Graph.Valid, Got, SentOk, QueueOk, KnownChildren, Unanswered, ParentOk;
    assert JoinOk(g, s, h, m, w);
    assert PhaseOk(g, s, h, m);
    if s.phases[m].Electing? { assert JoinOk(g, s, h, m, s.phases[m].leader); }
  }

  /** `path` climbs from its first connector to its last, one parent link at a time. */
  ghost predicate Climbs(g: Graph, s: State, path: seq<nat>)
    requires Shape(g, s)
  {
    && |path| > 0
    && (forall i | 0 <= i < |path| :: Left(s, path[i]))
    && (forall i | 0 <= i < |path| - 1 :: ParentNode(g, s, path[i]) == Some(path[i + 1]))
  }

  ghost function ParentNode(g: Graph, s: State, n: nat): Option<nat>
    requires Shape(g, s)
  {
    if Left(s, n) && s.phases[n].parent.Some? && Endpoint(n, s.phases[n].parent.value) in g.peer
    then Some(g.peer[Endpoint(n, s.phases[n].parent.value)].node) else None
  }

  lemma {:induction false} ClimbToLeader(g: Graph, s: State, h: History, n: nat) returns (path: seq<nat>)
    requires Inv(g, s, h) && n in g.degree && Left(s, n)
    ensures n in h.left && Climbs(g, s, path) && path[0] == n && path[|path| - 1] == s.phases[n].leader
    decreases if n in h.left then h.left[n] + 1 else 0
  {
    hide Inv, Waves, Got, Complete, KnownChildren, Unanswered, GotTree, IsChild;
    InvShape(g, s, h);
    LeftFacts(g, s, h, n);
    if s.phases[n].parent == None {
      path := [n];
    } else {
      ParentIsLeft(g, s, h, n);
      var m := g.peer[Endpoint(n, s.phases[n].parent.value)].node;
      AllSupport(g, s, h, n);
      hide LeftOk;
      var rest := ClimbToLeader(g, s, h, m);
      path := [n] + rest;
      forall i | 0 <= i < |path| - 1 ensures ParentNode(g, s, path[i]) == Some(path[i + 1]) {
        if i > 0 { assert path[i] == rest[i - 1] && path[i + 1] == rest[i]; }
      }
    }
  }

  lemma ParentIsLeft(g: Graph, s: State, h: History, n: nat)
    requires Inv(g, s, h) && n in g.degree && Left(s, n) && LeftOk(g, s, h, n) && s.phases[n].parent.Some?
    ensures var e := Endpoint(n, s.phases[n].parent.value);
      e in g.peer && g.peer[e].node in g.degree && Left(s, g.peer[e].node)
      && g.peer[e].node in h.left && n in h.left && h.left[g.peer[e].node] < h.left[n]
  {
    hide Waves, PhaseOk, TreeQueueOk, Graph.Connected, KnownChildren, Unanswered;
  }

  /** The parent links form a tree that spans all connectors, rooted at the leader: every
      connector that has left the election climbs to the leader, in any run. */
  lemma ParentsFormTree(g: Graph, run: seq<State>, n: nat) returns (path: seq<nat>)
    requires IsRun(g, run) && Shape(g, run[|run| - 1]) && Left(run[|run| - 1], n)
    ensures Climbs(g, run[|run| - 1], path) && path[0] == n && path[|path| - 1] == run[|run| - 1].phases[n].leader
    ensures ParentNode(g, run[|run| - 1], run[|run| - 1].phases[n].leader) == None
  {
    hide Inv, Climbs, Step;
    var s := run[|run| - 1];
    var h := RunInv(g, run);
    path := ClimbToLeader(g, s, h, n);
    OneLeader(g, run, n);
  }

  /** When both ends of a link are done, one end lists the link among its children
      exactly when the other end has it as its parent. */
  lemma ChildrenMirrorParents(g: Graph, run: seq<State>, e: Endpoint)
    requires IsRun(g, run) && e in g.peer && Shape(g, run[|run| - 1])
    requires run[|run| - 1].phases[e.node].Settled? && run[|run| - 1].phases[g.peer[e].node].Settled?
    ensures e.index in run[|run| - 1].phases[e.node].children <==>
      run[|run| - 1].phases[g.peer[e].node].parent == Some(g.peer[e].index)
  {
    var s := run[|run| - 1];
    var h := RunInv(g, run);
    hide IsRun, Winner, Waves, PhaseOk, TreeQueueOk;
    LeftFacts(g, s, h, e.node);
    Mirror(g, s, h, e);
  }

  lemma Mirror(g: Graph, s: State, h: History, e: Endpoint)
    requires Shape(g, s) && e in g.peer && s.phases[e.node].Settled? && Left(s, g.peer[e].node) && LeftOk(g, s, h, e.node)
    ensures e.index in s.phases[e.node].children <==> IsChild(g, s, e)
  {
    hide GotTree, Winner;
    assert e == Endpoint(e.node, e.index);
    assert e.index < g.degree[e.node];
    if s.phases[e.node].parent != Some(e.index) {
      assert e.index !in Unanswered(g, s, e.node, s.phases[e.node].parent);
    }
  }
}
