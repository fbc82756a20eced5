/** The turns in which a connector leaves the election, and those of the tree construction. */
module SetupLeaving {
  import opened Network
  import opened Setup
  import opened Election
  import opened SetupInvariant
  import opened SetupSteps
  import opened SetupCases

  /** Before it leaves, a connector has handled no tree message. */
  lemma NoTreeYet(g: Graph, s: State, h: History, n: nat)
    requires Inv(g, s, h) && n in g.degree && !Left(s, n)
    ensures forall i: nat :: !GotTree(g, s, Endpoint(n, i))
  {
    hide PhaseOk, Waves, Graph.Connected;
    forall i: nat ensures !GotTree(g, s, Endpoint(n, i)) {
      if Endpoint(n, i) in g.peer { assert TreeQueueOk(g, s, Endpoint(n, i)); }
    }
  }

  /** The tree messages of a leaving connector are its first. */
  lemma FreshTree(g: Graph, s: State, h: History, n: nat, leader: nat, parent: Option<nat>)
    requires Inv(g, s, h) && n in g.degree && !Left(s, n)
    ensures forall e <- g.peer :: FreshOn(g, s, h, n, Leave(g.degree[n], leader, parent).sends, e)
  {
    hide PhaseOk, Waves, Graph.Connected;
    forall e | e in g.peer ensures FreshOn(g, s, h, n, Leave(g.degree[n], leader, parent).sends, e) {
      assert TreeQueueOk(g, s, e);
    }
  }

  lemma NothingPosted(degree: nat, leader: nat, parent: Option<nat>, n: nat)
    ensures Posted(n, Leave(degree, leader, parent).sends) == {}
  {
  }

  ghost predicate LeaveTurn(g: Graph, s: State, h: History, n: nat, took: Option<Endpoint>, leader: nat, parent: Option<nat>,
                            s': State, h': History) {
    && Shape(g, s) && Shape(g, s') && n in g.degree && !Left(s, n)
    && Effects(g, s, h, n, took, Leave(g.degree[n], leader, parent), s', h')
    && h'.join == h.join && n in h'.left && (forall m <- h'.left :: m in h.left || m == n)
    && (forall m <- h.left :: m in h'.left && h'.left[m] == h.left[m])
    && (forall i: nat :: !GotTree(g, s, Endpoint(n, i)))
  }

  lemma LeaverPhase(g: Graph, s: State, h: History, n: nat, took: Option<Endpoint>, leader: nat, parent: Option<nat>,
                    s': State, h': History)
    requires LeaveTurn(g, s, h, n, took, leader, parent, s', h')
    requires (n, n) in h.join && Winner(g, s', h', leader) && (parent == None <==> leader == n)
    requires parent.Some? ==> ParentOk(g, s', h', n, parent.value)
    requires forall i: nat | Some(i) != parent :: !GotTree(g, s', Endpoint(n, i))
    ensures Left(s', n) && LeftOk(g, s', h', n)
  {
    hide Got, QueueOk, Arriving, Graph.Valid, Posted, Next, GotTree, Winner, ParentOk, IsChild;
    var r := Leave(g.degree[n], leader, parent);
    assert s'.phases[n] == r.phase;
    assert Unanswered(g, s', n, parent) == Others(g.degree[n], parent);
    assert KnownChildren(g, s', n, parent) == {};
  }

  lemma LeaverCase(g: Graph, s: State, h: History, n: nat, took: Option<Endpoint>, leader: nat, parent: Option<nat>,
                   s': State, h': History)
    requires LeaveTurn(g, s, h, n, took, leader, parent, s', h') && Left(s', n) && LeftOk(g, s', h', n)
    requires forall w: nat | Reached(s, n, w) :: w <= leader
    requires forall e: Endpoint, w: nat | Takes(g, s, took, e, Wave(w)) :: w <= leader
    requires forall e <- g.peer | g.peer[e].node == n && parent == Some(g.peer[e].index) :: Left(s, e.node)
    ensures CaseOk(g, s, h, n, took, Leave(g.degree[n], leader, parent), s', h')
  {
    hide Got, QueueOk, Arriving, Graph.Valid, Next, GotTree, LeftOk;
    NothingPosted(g.degree[n], leader, parent, n);
    hide Posted;
    assert h'.sent == h.sent;
    forall w: nat | Reached(s, n, w) ensures Reached(s', n, w) {}
    forall e: Endpoint, w: nat | Takes(g, s, took, e, Wave(w)) ensures Reached(s', n, w) {}
  }

  /** A connector with no links is its own tree. */
  lemma StartAlone(g: Graph, s: State, h: History, n: nat) returns (h': History)
    requires Inv(g, s, h) && CanStart(g, s, n) && g.degree[n] == 0
    ensures Goes(g, s, h, Start(g, s, n), h')
  {
    var r := Begin(n, 0);
    h' := History(h.join[(n, n) := Join(None, 0)], h.sent, h.left[n := 0]);
    var s' := Next(g, s, n, None, r);
    NotJoined(g, s, h, n, n);
    assert Posted(n, r.sends) == {};
    FreshWaves(g, s, h, n, r.sends, n);
    TurnEffects(g, s, h, n, None, r, h');
    AloneCase(g, s, h, n, s', h');
    CaseGoes(g, s, h, n, None, r, s', h');
  }

  lemma AloneCase(g: Graph, s: State, h: History, n: nat, s': State, h': History)
    requires Shape(g, s) && CanStart(g, s, n) && g.degree[n] == 0 && n !in h.left && (n, n) !in h.join
    requires h'.join == h.join[(n, n) := Join(None, 0)] && h'.sent == h.sent && h'.left == h.left[n := 0]
    requires Effects(g, s, h, n, None, Begin(n, 0), s', h')
    ensures CaseOk(g, s, h, n, None, Begin(n, 0), s', h')
  {
    hide Got, QueueOk, Arriving, Next, GotTree;
    var r := Begin(n, 0);
    assert Winner(g, s', h', n);
    assert KnownChildren(g, s', n, None) == {} == Unanswered(g, s', n, None);
    assert LeftOk(g, s', h', n);
    assert Leaves(g, s, n, r);
    forall e | e in g.peer ensures g.peer[e].node != n {
      assert g.peer[e] in g.peer;
    }
  }

  /** What `n` sees of the tree once it has left, having taken the message at `e`. */
  lemma TreeSeen(g: Graph, s: State, h: History, e: Endpoint, leader: nat, parent: Option<nat>, s': State, h': History)
    requires Inv(g, s, h) && CanReceive(g, s, e)
    requires LeaveTurn(g, s, h, e.node, Some(e), leader, parent, s', h')
    ensures forall i: nat :: GotTree(g, s', Endpoint(e.node, i)) <==> i == e.index && !s.inbox[e][0].Wave?
  {
    hide PhaseOk, Waves, Graph.Connected, GotTree, Effects, TreeQueueOk, QueueOk, Graph.Valid, Left;
    var r := Leave(g.degree[e.node], leader, parent);
    LeavesNow(g, s, h, e.node, Some(e), leader, parent, s', h');
    hide Leave;
    forall i: nat ensures GotTree(g, s', Endpoint(e.node, i)) <==> i == e.index && !s.inbox[e][0].Wave? {
      var f := Endpoint(e.node, i);
      assert f == e <==> i == e.index;
      if f in g.peer { QueuesFine(g, s, h, f); }
      GotTreeAfter(g, s, h, e.node, Some(e), r, s', h', f);
    }
  }

  lemma QueuesFine(g: Graph, s: State, h: History, e: Endpoint)
    requires Inv(g, s, h) && e in g.peer
    ensures QueueOk(g, h, e, s.inbox[e]) && TreeQueueOk(g, s, e)
  {
  }

  lemma LeavesNow(g: Graph, s: State, h: History, n: nat, took: Option<Endpoint>, leader: nat, parent: Option<nat>,
                  s': State, h': History)
    requires LeaveTurn(g, s, h, n, took, leader, parent, s', h')
    ensures Leaves(g, s, n, Leave(g.degree[n], leader, parent))
    ensures s'.phases[n] == Leave(g.degree[n], leader, parent).phase && Left(s', n)
    ensures s'.phases[n].leader == leader && s'.phases[n].parent == parent
  {
    hide Got, GotTree, QueueOk, Next, Arriving, Posted, Graph.Valid;
  }

  /** The election is won by whoever has heard back on every link. */
  lemma WinCase(g: Graph, s: State, h: History, e: Endpoint) returns (h': History)
    requires Inv(g, s, h) && CanReceive(g, s, e) && s.phases[e.node].Electing?
    requires s.inbox[e][0] == Wave(s.phases[e.node].leader)
    requires s.phases[e.node].awaiting - {e.index} == {} && s.phases[e.node].parent == None
    ensures Goes(g, s, h, Receive(g, s, e), h')
  {
    hide CaseOk, Got, SentOk, QueueOk, Inv, Effects, Next, Graph.Valid, Awaited, GotTree, FreshOn, Waves, LeftOk, Winner;
    InvShape(g, s, h);
    var n, ph := e.node, s.phases[e.node];
    EchoIsAwaited(g, s, h, e);
    ElectingFacts(g, s, h, n);
    var r := Leave(g.degree[n], n, None);
    assert React(g, s, e) == r;
    hide Leave, JoinOk;
    var s' := Next(g, s, n, Some(e), r);
    h' := h.(left := h.left[n := 0]);
    NothingPosted(g.degree[n], n, None, n);
    NoTreeYet(g, s, h, n);
    FreshTree(g, s, h, n, n, None);
    Handles(g, s, h, e, r, h');
    NotLeftYet(g, s, h, n);
    assert LeaveTurn(g, s, h, n, Some(e), n, None, s', h');
    LeavesNow(g, s, h, n, Some(e), n, None, s', h');
    AwaitedAfterEcho(g, s, h, e, r, s', h');
    WinnerNow(g, s', h', n);
    TreeSeen(g, s, h, e, n, None, s', h');
    LeaverPhase(g, s, h, n, Some(e), n, None, s', h');
    LeaverCase(g, s, h, n, Some(e), n, None, s', h');
    ReceiveVia(g, s, h, e, r, h');
  }

  lemma NotLeftYet(g: Graph, s: State, h: History, n: nat)
    requires Inv(g, s, h) && !Left(s, n)
    ensures n !in h.left
  {
  }

  lemma WinnerNow(g: Graph, s: State, h: History, n: nat)
    requires Shape(g, s) && n in g.degree && Left(s, n) && s.phases[n].leader == n && (n, n) in h.join
    requires Awaited(g, s, h, n, None, n) == {}
    ensures Winner(g, s, h, n)
  {
    hide Got, Graph.Valid;
    forall i: nat | i < g.degree[n] ensures Got(g, s, h, Endpoint(n, i), n) {
      assert i in Others(g.degree[n], None);
      assert i !in Awaited(g, s, h, n, None, n);
    }
  }

  /** What an announcement tells: the neighbour left first, and the leader it names won. */
  lemma AnnounceFacts(g: Graph, s: State, h: History, e: Endpoint, leader: nat)
    requires Facing(g, s, h, e, Announce(leader)) && s.phases[e.node].Electing?
    ensures e in g.peer && g.peer[e].node in g.degree && Left(s, g.peer[e].node) && !IsChild(g, s, e)
    ensures g.peer[e].node in h.left && Winner(g, s, h, leader) && leader != e.node
    ensures forall n <- g.degree :: n <= leader
  {
    hide Waves, Got, ElectingOk, Graph.Connected, KnownChildren, Unanswered, Complete, HasTree, ParentOk, PhaseOk;
    var f := g.peer[e];
    assert TreeQueueOk(g, s, e);
    assert s.inbox[e][0] in s.inbox[e];
    assert TreeFrom(s, f, e.node, Announce(leader));
    LeftFacts(g, s, h, f.node);
    WinnerIsGreatest(g, s, h, leader);
  }

  lemma LeftFacts(g: Graph, s: State, h: History, n: nat)
    requires Inv(g, s, h) && n in g.degree && Left(s, n)
    ensures LeftOk(g, s, h, n)
  {
    hide Waves, LeftOk, TreeQueueOk, Graph.Connected, Graph.Valid;
    assert PhaseOk(g, s, h, n);
  }

  /** The assertions on an announced leader hold: it is at least the best wave, and not this connector. */
  lemma LoseCase(g: Graph, s: State, h: History, e: Endpoint, leader: nat) returns (h': History)
    requires Facing(g, s, h, e, Announce(leader)) && s.phases[e.node].Electing?
    ensures Goes(g, s, h, Receive(g, s, e), h')
  {
    hide CaseOk, Got, SentOk, QueueOk, Inv, Effects, Next, Graph.Valid, Awaited, GotTree, FreshOn, Waves, LeftOk, Winner, IsChild, Left;
    InvShape(g, s, h);
    var n, ph := e.node, s.phases[e.node];
    ElectingFacts(g, s, h, n);
    AnnounceFacts(g, s, h, e, leader);
    var r := Leave(g.degree[n], leader, Some(e.index));
    assert React(g, s, e) == r;
    hide Leave, JoinOk;
    var s' := Next(g, s, n, Some(e), r);
    h' := h.(left := h.left[n := h.left[g.peer[e].node] + 1]);
    NothingPosted(g.degree[n], leader, Some(e.index), n);
    assert !Left(s, n) by { NotLeftElecting(s, n); }
    NoTreeYet(g, s, h, n);
    FreshTree(g, s, h, n, leader, Some(e.index));
    Handles(g, s, h, e, r, h');
    NotLeftYet(g, s, h, n);
    assert LeaveTurn(g, s, h, n, Some(e), leader, Some(e.index), s', h');
    TreeSeen(g, s, h, e, leader, Some(e.index), s', h');
    LoserLinks(g, s, h, e, leader, s', h');
    LeavesNow(g, s, h, n, Some(e), leader, Some(e.index), s', h');
    LeaverPhase(g, s, h, n, Some(e), leader, Some(e.index), s', h');
    ParentLeft(g, s, n, e);
    LeaverCase(g, s, h, n, Some(e), leader, Some(e.index), s', h');
    ReceiveVia(g, s, h, e, r, h');
  }

  lemma NotLeftElecting(s: State, n: nat)
    requires n in s.phases && s.phases[n].Electing?
    ensures !Left(s, n)
  {
  }

  lemma ParentLeft(g: Graph, s: State, n: nat, e: Endpoint)
    requires Shape(g, s) && e in g.peer && e.node == n && Left(s, g.peer[e].node)
    ensures forall f <- g.peer | g.peer[f].node == n && Some(e.index) == Some(g.peer[f].index) :: Left(s, f.node)
  {
    hide Left;
    forall f | f in g.peer && g.peer[f].node == n && e.index == g.peer[f].index ensures Left(s, f.node) {
      assert g.peer[f] == e;
      assert g.peer[g.peer[f]] == f;
    }
  }

  lemma LoserLinks(g: Graph, s: State, h: History, e: Endpoint, leader: nat, s': State, h': History)
    requires LeaveTurn(g, s, h, e.node, Some(e), leader, Some(e.index), s', h')
    requires e in g.peer && g.peer[e].node in g.degree && Left(s, g.peer[e].node) && !IsChild(g, s, e) && g.peer[e].node in h.left
    requires Winner(g, s, h, leader) && leader != e.node
    requires h'.left == h.left[e.node := h.left[g.peer[e].node] + 1]
    requires GotTree(g, s', Endpoint(e.node, e.index))
    ensures Winner(g, s', h', leader) && ParentOk(g, s', h', e.node, e.index)
  {
    hide Got, GotTree, QueueOk, Next, Arriving, Posted, Graph.Valid, Leave;
    assert Endpoint(e.node, e.index) == e;
    assert g.peer[e].node != e.node;
  }

  /** While building the tree, late waves of the election are discarded. */
  lemma DiscardCase(g: Graph, s: State, h: History, e: Endpoint, w: nat)
    requires Facing(g, s, h, e, Wave(w)) && s.phases[e.node].Building?
    ensures Goes(g, s, h, Receive(g, s, e), h)
  {
    hide CaseOk, Got, SentOk, QueueOk, Inv, Effects, Next, Graph.Valid, LeftOk, Waves, Winner, JoinOk;
    InvShape(g, s, h);
    var n, ph := e.node, s.phases[e.node];
    var r := Reaction(ph, map[]);
    assert React(g, s, e) == r;
    var s' := Next(g, s, n, Some(e), r);
    WaveSender(g, s, h, e, w);
    LeftFacts(g, s, h, n);
    LeaderBounds(g, s, h, n, w);
    Silent(g, s, h, e, ph);
    TreeUnchanged(g, s, h, e, s');
    BuildingCase(g, s, h, e, r, s');
    ReceiveVia(g, s, h, e, r, h);
  }

  lemma LeaderBounds(g: Graph, s: State, h: History, n: nat, w: nat)
    requires Inv(g, s, h) && n in g.degree && Left(s, n) && LeftOk(g, s, h, n) && w in g.degree
    ensures w <= s.phases[n].leader
  {
    hide Waves, Got, PhaseOk, TreeQueueOk;
    WinnerIsGreatest(g, s, h, s.phases[n].leader);
  }

  /** A turn in which `e.node` goes on building the tree. */
  lemma BuildingCase(g: Graph, s: State, h: History, e: Endpoint, r: Reaction, s': State)
    requires Shape(g, s) && e in g.peer && Effects(g, s, h, e.node, Some(e), r, s', h) && Shape(g, s')
    requires s.phases[e.node].Building? && (r.phase.Building? || r.phase.Settled?) && r.sends == map[]
    requires r.phase.leader == s.phases[e.node].leader && r.phase.parent == s.phases[e.node].parent
    requires s.inbox[e][0].Wave? ==> s.inbox[e][0].leader <= r.phase.leader
    requires LeftOk(g, s', h, e.node)
    ensures CaseOk(g, s, h, e.node, Some(e), r, s', h)
  {
    hide Got, QueueOk, Arriving, Graph.Valid, SentOk, LeftOk, Next;
    forall w: nat | Reached(s, e.node, w) ensures Reached(s', e.node, w) {}
    forall f: Endpoint, w: nat | Takes(g, s, Some(e), f, Wave(w)) ensures Reached(s', e.node, w) {}
  }

  /** What `e.node`, still building, sees of the tree after taking the message at `e`. */
  lemma TreeProgress(g: Graph, s: State, h: History, e: Endpoint, r: Reaction, s': State)
    requires Shape(g, s) && Shape(g, s') && CanReceive(g, s, e) && s.phases[e.node].Building?
    requires Inv(g, s, h) && Effects(g, s, h, e.node, Some(e), r, s', h) && r.sends == map[]
    requires (r.phase.Building? || r.phase.Settled?)
    requires r.phase.leader == s.phases[e.node].leader && r.phase.parent == s.phases[e.node].parent
    ensures forall f: Endpoint :: GotTree(g, s', f) <==> GotTree(g, s, f) || (f == e && !s.inbox[e][0].Wave?)
    ensures forall f: Endpoint :: IsChild(g, s', f) <==> IsChild(g, s, f)
    ensures forall w | Winner(g, s, h, w) :: Winner(g, s', h, w)
  {
    hide PhaseOk, Waves, Graph.Connected, GotTree, TreeQueueOk, QueueOk, Graph.Valid, Got, Next;
    assert Quiet(s, e.node, Some(e), r);
    forall f: Endpoint ensures GotTree(g, s', f) <==> GotTree(g, s, f) || (f == e && !s.inbox[e][0].Wave?) {
      GotTreeStep(g, s, h, e, r, s', f);
    }
  }

  lemma GotTreeStep(g: Graph, s: State, h: History, e: Endpoint, r: Reaction, s': State, f: Endpoint)
    requires Inv(g, s, h) && CanReceive(g, s, e) && Shape(g, s')
    requires Effects(g, s, h, e.node, Some(e), r, s', h) && Quiet(s, e.node, Some(e), r)
    ensures GotTree(g, s', f) <==> GotTree(g, s, f) || (f == e && !s.inbox[e][0].Wave?)
  {
    hide PhaseOk, Waves, Graph.Connected, GotTree, Effects, TreeQueueOk, QueueOk, Graph.Valid, Left, Quiet;
    if f in g.peer { QueuesFine(g, s, h, f); }
    GotTreeAfter(g, s, h, e.node, Some(e), r, s', h, f);
  }

  lemma TreeUnchanged(g: Graph, s: State, h: History, e: Endpoint, s': State)
    requires Shape(g, s) && CanReceive(g, s, e) && s.phases[e.node].Building? && LeftOk(g, s, h, e.node)
    requires s.inbox[e][0].Wave? && Inv(g, s, h)
    requires Effects(g, s, h, e.node, Some(e), Reaction(s.phases[e.node], map[]), s', h)
    ensures Shape(g, s') && s'.phases[e.node] == s.phases[e.node] && LeftOk(g, s', h, e.node)
  {
    hide Inv, Got, GotTree, IsChild, Winner, QueueOk, Graph.Valid, Next, Arriving;
    var n, ph := e.node, s.phases[e.node];
    TreeProgress(g, s, h, e, Reaction(ph, map[]), s');
    assert Unanswered(g, s, n, ph.parent) == Unanswered(g, s', n, ph.parent);
    assert KnownChildren(g, s, n, ph.parent) == KnownChildren(g, s', n, ph.parent);
  }

  /** Each neighbour answers exactly once per link, and the parent's link has been used up. */
  lemma AnswerIsAwaited(g: Graph, s: State, h: History, e: Endpoint)
    requires Inv(g, s, h) && CanReceive(g, s, e) && s.phases[e.node].Building? && !s.inbox[e][0].Wave?
    ensures LeftOk(g, s, h, e.node) && e.index in s.phases[e.node].awaiting && !GotTree(g, s, e)
    ensures s.inbox[e][0].YouAreMyParent? <==> IsChild(g, s, e)
  {
    hide Waves, Got, PhaseOk, Graph.Connected, KnownChildren, Winner;
    LeftFacts(g, s, h, e.node);
    QueuesFine(g, s, h, e);
    assert s.inbox[e][0] in s.inbox[e];
    assert e == Endpoint(e.node, e.index);
  }

  lemma AnswerCase(g: Graph, s: State, h: History, e: Endpoint)
    requires Inv(g, s, h) && CanReceive(g, s, e) && s.phases[e.node].Building? && !s.inbox[e][0].Wave?
    ensures Goes(g, s, h, Receive(g, s, e), h)
  {
    hide CaseOk, Got, SentOk, QueueOk, Inv, Effects, Next, Graph.Valid, LeftOk, Waves, Winner, JoinOk, GotTree, IsChild;
    InvShape(g, s, h);
    var n := e.node;
    AnswerIsAwaited(g, s, h, e);
    var r := React(g, s, e);
    assert r.sends == map[];
    var s' := Next(g, s, n, Some(e), r);
    Silent(g, s, h, e, r.phase);
    assert r == Reaction(r.phase, map[]);
    TreeAnswered(g, s, h, e, r, s');
    BuildingCase(g, s, h, e, r, s');
    ReceiveVia(g, s, h, e, r, h);
  }

  lemma TreeAnswered(g: Graph, s: State, h: History, e: Endpoint, r: Reaction, s': State)
    requires Shape(g, s) && CanReceive(g, s, e) && s.phases[e.node].Building? && LeftOk(g, s, h, e.node)
    requires !s.inbox[e][0].Wave? && e.index in s.phases[e.node].awaiting && Inv(g, s, h)
    requires s.inbox[e][0].YouAreMyParent? <==> IsChild(g, s, e)
    requires r == OnBuilding(s.phases[e.node], e.index, s.inbox[e][0])
    requires Effects(g, s, h, e.node, Some(e), r, s', h)
    ensures Shape(g, s') && Left(s', e.node) && s'.phases[e.node] == r.phase && LeftOk(g, s', h, e.node)
  {
    hide Inv, Got, GotTree, IsChild, Winner, QueueOk, Graph.Valid, Next, Arriving;
    var n, ph := e.node, s.phases[e.node];
    TreeProgress(g, s, h, e, r, s');
    assert e == Endpoint(n, e.index);
    assert Unanswered(g, s', n, ph.parent) == Unanswered(g, s, n, ph.parent) - {e.index};
    assert KnownChildren(g, s', n, ph.parent) ==
      KnownChildren(g, s, n, ph.parent) + (if IsChild(g, s, e) then {e.index} else {});
  }
}
