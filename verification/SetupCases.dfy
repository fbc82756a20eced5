/** The kinds of turns, one by one. */
module SetupCases {
  import opened Network
  import opened Setup
  import opened Election
  import opened SetupInvariant
  import opened SetupSteps

  lemma NotJoined(g: Graph, s: State, h: History, n: nat, w: nat)
    requires Shape(g, s) && Waves(g, s, h) && !Reached(s, n, w)
    ensures (n, w) !in h.join
    ensures forall i: nat :: (Endpoint(n, i), w) !in h.sent
    ensures forall i: nat :: !Got(g, s, h, Endpoint(n, i), w)
  {
    hide Got, QueueOk, Graph.Valid;
    assert (n, w) in h.join ==> JoinOk(g, s, h, n, w);
    forall i: nat ensures (Endpoint(n, i), w) !in h.sent {
      assert (Endpoint(n, i), w) in h.sent ==> SentOk(g, s, h, Endpoint(n, i), w);
    }
    forall i: nat ensures !Got(g, s, h, Endpoint(n, i), w) {
      NotGot(g, s, h, Endpoint(n, i), w);
    }
  }

  lemma NotGot(g: Graph, s: State, h: History, e: Endpoint, w: nat)
    requires Shape(g, s) && Waves(g, s, h) && !Reached(s, e.node, w)
    ensures !Got(g, s, h, e, w)
  {
    hide JoinOk, SentOk, QueueOk, Graph.Valid, Reached;
  }

  /** Waves that start a turn's membership are always fresh. */
  lemma FreshWaves(g: Graph, s: State, h: History, n: nat, sends: map<nat, Msg>, w: nat)
    requires Shape(g, s)
    requires forall i <- sends :: sends[i] == Wave(w) && (Endpoint(n, i), w) !in h.sent
    ensures forall e <- g.peer :: FreshOn(g, s, h, n, sends, e)
  {
    forall e | e in g.peer ensures FreshOn(g, s, h, n, sends, e) {
      if g.peer[e].node == n && g.peer[e].index in sends {
        assert g.peer[e] == Endpoint(n, g.peer[e].index);
      }
    }
  }

  lemma StartElection(g: Graph, s: State, h: History, n: nat) returns (h': History)
    requires Inv(g, s, h) && CanStart(g, s, n) && g.degree[n] > 0
    ensures Goes(g, s, h, Start(g, s, n), h')
  {
    var r := Begin(n, g.degree[n]);
    h' := History(h.join[(n, n) := Join(None, 0)], h.sent + Posted(n, r.sends), h.left);
    var s' := Next(g, s, n, None, r);
    NotJoined(g, s, h, n, n);
    FreshWaves(g, s, h, n, r.sends, n);
    TurnEffects(g, s, h, n, None, r, h');
    StartCase(g, s, h, n, s', h');
    CaseGoes(g, s, h, n, None, r, s', h');
  }

  lemma StartCase(g: Graph, s: State, h: History, n: nat, s': State, h': History)
    requires Shape(g, s) && CanStart(g, s, n) && g.degree[n] > 0
    requires h'.join == h.join[(n, n) := Join(None, 0)] && h'.left == h.left
    requires Effects(g, s, h, n, None, Begin(n, g.degree[n]), s', h')
    requires (n, n) !in h.join
    requires forall i: nat :: !Got(g, s, h, Endpoint(n, i), n)
    ensures CaseOk(g, s, h, n, None, Begin(n, g.degree[n]), s', h')
  {
    hide Got, QueueOk, Arriving, Graph.Valid, Next;
    var r := Begin(n, g.degree[n]);
    forall i: nat | i < g.degree[n] ensures (Endpoint(n, i), n) in h'.sent {
      assert i in r.sends;
    }
    assert JoinOk(g, s', h', n, n);
    forall p | p in h'.sent && p !in h.sent ensures SentOk(g, s', h', p.0, p.1) {
      SentByStart(g, s, n, p);
    }
    hide JoinOk, SentOk, Posted;
    assert 0 in Others(g.degree[n], None);
    assert r.phase.awaiting == Awaited(g, s', h', n, None, n);
  }

  lemma SentByStart(g: Graph, s: State, n: nat, p: (Endpoint, nat))
    requires Shape(g, s) && n in g.degree && p in Posted(n, Begin(n, g.degree[n]).sends)
    ensures p.0 in g.peer && p.0.node == n && p.1 == n
  {
  }

  /** The situation of a connector that takes the message at the head of `e`. */
  ghost predicate Facing(g: Graph, s: State, h: History, e: Endpoint, m: Msg) {
    Inv(g, s, h) && CanReceive(g, s, e) && s.inbox[e][0] == m
  }

  /** A wave in a queue belongs to a connector, and its sender joined it. */
  lemma WaveSender(g: Graph, s: State, h: History, e: Endpoint, w: nat)
    requires Facing(g, s, h, e, Wave(w))
    ensures e in g.peer && e.node in g.degree && e.index < g.degree[e.node] && w in g.degree
    ensures (g.peer[e].node, w) in h.join && (g.peer[e], w) in h.sent && !Got(g, s, h, e, w)
  {
    hide PhaseOk, TreeQueueOk, Graph.Connected, Reached;
    assert QueueOk(g, h, e, s.inbox[e]);
    assert SentOk(g, s, h, g.peer[e], w);
    assert JoinOk(g, s, h, g.peer[e].node, w);
  }

  lemma ElectingFacts(g: Graph, s: State, h: History, n: nat)
    requires Inv(g, s, h) && n in g.degree && s.phases[n].Electing?
    ensures ElectingOk(g, s, h, n) && n <= s.phases[n].leader && s.phases[n].leader in g.degree
    ensures JoinOk(g, s, h, n, s.phases[n].leader)
  {
    hide TreeQueueOk, Graph.Connected, Graph.Valid, Got, QueueOk, SentOk;
    assert PhaseOk(g, s, h, n);
    assert JoinOk(g, s, h, n, s.phases[n].leader);
  }

  /** A turn in which `n` only notes the message: no record of others changes. */
  lemma Silent(g: Graph, s: State, h: History, e: Endpoint, ph: Phase)
    requires Inv(g, s, h) && CanReceive(g, s, e)
    ensures Effects(g, s, h, e.node, Some(e), Reaction(ph, map[]), Next(g, s, e.node, Some(e), Reaction(ph, map[])), h)
  {
    hide PhaseOk, TreeQueueOk, Graph.Connected, Got, QueueOk, SentOk, JoinOk, Waves;
    assert Posted(e.node, map[]) == {};
    assert h.sent == h.sent + Posted(e.node, map[]);
    TurnEffects(g, s, h, e.node, Some(e), Reaction(ph, map[]), h);
  }

  lemma InvShape(g: Graph, s: State, h: History)
    requires Inv(g, s, h)
    ensures Shape(g, s) && Waves(g, s, h)
  {
  }

  /** The effects of handling the message at `e`, once its sends are known to be fresh. */
  lemma Handles(g: Graph, s: State, h: History, e: Endpoint, r: Reaction, h': History)
    requires Inv(g, s, h) && CanReceive(g, s, e)
    requires forall f <- g.peer :: FreshOn(g, s, h, e.node, r.sends, f)
    requires h'.sent == h.sent + Posted(e.node, r.sends)
    ensures Shape(g, Next(g, s, e.node, Some(e), r))
    ensures Effects(g, s, h, e.node, Some(e), r, Next(g, s, e.node, Some(e), r), h')
  {
    hide FreshOn, PhaseOk, TreeQueueOk, Graph.Valid, Graph.Connected, Waves;
    TurnEffects(g, s, h, e.node, Some(e), r, h');
  }

  lemma ReceiveVia(g: Graph, s: State, h: History, e: Endpoint, r: Reaction, h': History)
    requires Inv(g, s, h) && CanReceive(g, s, e) && React(g, s, e) == r
    requires CaseOk(g, s, h, e.node, Some(e), r, Next(g, s, e.node, Some(e), r), h')
    ensures Goes(g, s, h, Receive(g, s, e), h')
  {
    var s' := Next(g, s, e.node, Some(e), r);
    assert s' == Receive(g, s, e);
    hide Inv, CaseOk;
    CaseGoes(g, s, h, e.node, Some(e), r, s', h');
  }

  /** A turn in which `e.node` handles a wave and keeps supporting the same one. */
  lemma StillElecting(g: Graph, s: State, h: History, e: Endpoint, r: Reaction, s': State, h': History)
    requires Shape(g, s) && e in g.peer && Effects(g, s, h, e.node, Some(e), r, s', h') && Shape(g, s')
    requires s.phases[e.node].Electing? && r.phase.Electing? && r.phase.leader == s.phases[e.node].leader
    requires s.inbox[e][0].Wave? && s.inbox[e][0].leader <= r.phase.leader && forall i <- r.sends :: r.sends[i].Wave?
    requires h'.join == h.join && h'.left == h.left && ElectingOk(g, s', h', e.node)
    requires forall p <- h'.sent | p !in h.sent :: SentOk(g, s', h', p.0, p.1)
    ensures CaseOk(g, s, h, e.node, Some(e), r, s', h')
  {
    hide Got, QueueOk, Arriving, Graph.Valid, SentOk, ElectingOk;
    forall w: nat | Reached(s, e.node, w) ensures Reached(s', e.node, w) {}
    forall f: Endpoint, w: nat | Takes(g, s, Some(e), f, Wave(w)) ensures Reached(s', e.node, w) {}
  }

  lemma IgnoreCase(g: Graph, s: State, h: History, e: Endpoint, w: nat)
    requires Facing(g, s, h, e, Wave(w)) && s.phases[e.node].Electing? && w < s.phases[e.node].leader
    ensures Goes(g, s, h, Receive(g, s, e), h)
  {
    hide CaseOk, Got, SentOk, JoinOk, QueueOk, Waves, Inv, Effects, Next, Graph.Valid, Awaited;
    InvShape(g, s, h);
    var n, ph := e.node, s.phases[e.node];
    var r := Reaction(ph, map[]);
    var s' := Next(g, s, n, Some(e), r);
    assert React(g, s, e) == r;
    ElectingFacts(g, s, h, n);
    Silent(g, s, h, e, ph);
    AwaitedAfterIgnore(g, s, h, e, s', w);
    StillElecting(g, s, h, e, r, s', h);
    ReceiveVia(g, s, h, e, r, h);
  }

  lemma AwaitedAfterIgnore(g: Graph, s: State, h: History, e: Endpoint, s': State, w: nat)
    requires Shape(g, s) && e in g.peer && s.phases[e.node].Electing? && ElectingOk(g, s, h, e.node)
    requires Effects(g, s, h, e.node, Some(e), Reaction(s.phases[e.node], map[]), s', h)
    requires s.inbox[e][0] == Wave(w) && w != s.phases[e.node].leader
    ensures Shape(g, s') && s'.phases[e.node] == s.phases[e.node] && ElectingOk(g, s', h, e.node)
  {
    hide Got, QueueOk, Arriving, Graph.Valid;
    var n, ph := e.node, s.phases[e.node];
    assert Awaited(g, s, h, n, ph.parent, ph.leader) == Awaited(g, s', h, n, ph.parent, ph.leader);
  }

  /** A wave equal to the current one always comes from an awaited link. */
  lemma EchoIsAwaited(g: Graph, s: State, h: History, e: Endpoint)
    requires Inv(g, s, h) && CanReceive(g, s, e) && s.phases[e.node].Electing?
    requires s.inbox[e][0] == Wave(s.phases[e.node].leader)
    ensures e.index in s.phases[e.node].awaiting
  {
    hide PhaseOk, TreeQueueOk, Graph.Connected, QueueOk, SentOk, Got, Waves;
    var n, ph := e.node, s.phases[e.node];
    WaveSender(g, s, h, e, ph.leader);
    ElectingFacts(g, s, h, n);
    assert !Got(g, s, h, Endpoint(n, e.index), ph.leader);
  }

  /** After the echo over `e`, one link fewer is awaited. */
  lemma AwaitedAfterEcho(g: Graph, s: State, h: History, e: Endpoint, r: Reaction, s': State, h': History)
    requires Shape(g, s) && e in g.peer && s.phases[e.node].Electing? && ElectingOk(g, s, h, e.node)
    requires Effects(g, s, h, e.node, Some(e), r, s', h') && s.inbox[e][0] == Wave(s.phases[e.node].leader)
    ensures Shape(g, s')
    ensures Awaited(g, s', h', e.node, s.phases[e.node].parent, s.phases[e.node].leader) ==
      s.phases[e.node].awaiting - {e.index}
  {
    hide Got, QueueOk, Arriving, Graph.Valid;
    var n, ph := e.node, s.phases[e.node];
    forall i: nat ensures Got(g, s', h', Endpoint(n, i), ph.leader) <==>
      Got(g, s, h, Endpoint(n, i), ph.leader) || i == e.index
    {
      assert Endpoint(n, i) == e <==> i == e.index;
    }
  }

  lemma EchoPhase(g: Graph, s: State, h: History, e: Endpoint, r: Reaction, s': State)
    requires Shape(g, s) && e in g.peer && s.phases[e.node].Electing? && ElectingOk(g, s, h, e.node) && Shape(g, s')
    requires e.index in s.phases[e.node].awaiting && s.phases[e.node].awaiting - {e.index} != {}
    requires r == Reaction(Electing(s.phases[e.node].leader, s.phases[e.node].parent, s.phases[e.node].awaiting - {e.index}), map[])
    requires Effects(g, s, h, e.node, Some(e), r, s', h)
    requires Awaited(g, s', h, e.node, r.phase.parent, r.phase.leader) == r.phase.awaiting
    ensures s'.phases[e.node] == r.phase && ElectingOk(g, s', h, e.node)
  {
    hide Got, QueueOk, Arriving, Graph.Valid, Awaited, Next;
  }

  lemma EchoCase(g: Graph, s: State, h: History, e: Endpoint)
    requires Inv(g, s, h) && CanReceive(g, s, e) && s.phases[e.node].Electing?
    requires s.inbox[e][0] == Wave(s.phases[e.node].leader)
    requires s.phases[e.node].awaiting - {e.index} != {}
    ensures Goes(g, s, h, Receive(g, s, e), h)
  {
    hide CaseOk, Got, SentOk, JoinOk, QueueOk, Waves, Inv, Effects, Next, Graph.Valid, Awaited;
    InvShape(g, s, h);
    var n, ph := e.node, s.phases[e.node];
    EchoIsAwaited(g, s, h, e);
    var ph' := Electing(ph.leader, ph.parent, ph.awaiting - {e.index});
    var r := Reaction(ph', map[]);
    var s' := Next(g, s, n, Some(e), r);
    assert React(g, s, e) == r;
    ElectingFacts(g, s, h, n);
    Silent(g, s, h, e, ph');
    AwaitedAfterEcho(g, s, h, e, r, s', h);
    EchoPhase(g, s, h, e, r, s');
    StillElecting(g, s, h, e, r, s', h);
    ReceiveVia(g, s, h, e, r, h);
  }

  /** The last echo came in: the sub-wave is done, so the parent is told. */
  lemma ReplyCase(g: Graph, s: State, h: History, e: Endpoint) returns (h': History)
    requires Inv(g, s, h) && CanReceive(g, s, e) && s.phases[e.node].Electing?
    requires s.inbox[e][0] == Wave(s.phases[e.node].leader)
    requires s.phases[e.node].awaiting - {e.index} == {} && s.phases[e.node].parent.Some?
    ensures Goes(g, s, h, Receive(g, s, e), h')
  {
    hide CaseOk, Got, SentOk, QueueOk, Inv, Effects, Next, Graph.Valid, Awaited;
    InvShape(g, s, h);
    var n, ph := e.node, s.phases[e.node];
    EchoIsAwaited(g, s, h, e);
    ElectingFacts(g, s, h, n);
    var p := ph.parent.value;
    var r := Reaction(Electing(ph.leader, ph.parent, {}), map[p := Wave(ph.leader)]);
    var s' := Next(g, s, n, Some(e), r);
    assert React(g, s, e) == r;
    h' := h.(sent := h.sent + Posted(n, r.sends));
    FreshWaves(g, s, h, n, r.sends, ph.leader);
    Handles(g, s, h, e, r, h');
    AwaitedAfterEcho(g, s, h, e, r, s', h');
    ReplySent(g, s, h, e, r, s', h');
    StillElecting(g, s, h, e, r, s', h');
    ReceiveVia(g, s, h, e, r, h');
  }

  lemma ReplySent(g: Graph, s: State, h: History, e: Endpoint, r: Reaction, s': State, h': History)
    requires Shape(g, s) && e in g.peer && s.phases[e.node].Electing? && ElectingOk(g, s, h, e.node)
    requires JoinOk(g, s, h, e.node, s.phases[e.node].leader)
    requires s.phases[e.node].parent.Some?
    requires r == Reaction(Electing(s.phases[e.node].leader, s.phases[e.node].parent, {}),
                           map[s.phases[e.node].parent.value := Wave(s.phases[e.node].leader)])
    requires Effects(g, s, h, e.node, Some(e), r, s', h') && Shape(g, s') && h'.join == h.join
    requires Awaited(g, s', h', e.node, s.phases[e.node].parent, s.phases[e.node].leader) == {}
    ensures s'.phases[e.node] == r.phase && ElectingOk(g, s', h', e.node)
    ensures forall p <- h'.sent | p !in h.sent :: SentOk(g, s', h', p.0, p.1)
  {
    hide QueueOk, Arriving, Got, Next, GotElsewhere, Graph.Valid;
    var n, w := e.node, s.phases[e.node].leader;
    var f := Endpoint(n, s.phases[n].parent.value);
    PostedOne(n, f.index, w);
    ParentLink(g, s, h, n, w);
    AllHeard(g, s', h', n, f.index, w);
  }

  lemma PostedOne(n: nat, i: nat, w: nat)
    ensures Posted(n, map[i := Wave(w)]) == {(Endpoint(n, i), w)}
  {
    var sends := map[i := Wave(w)];
    assert i in sends;
  }

  lemma ParentLink(g: Graph, s: State, h: History, n: nat, w: nat)
    requires Shape(g, s) && (n, w) in h.join && JoinOk(g, s, h, n, w) && h.join[(n, w)].parent.Some?
    ensures Endpoint(n, h.join[(n, w)].parent.value) in g.peer
  {
    hide Got;
  }

  /** Nobody is awaited, so all links but the parent's have been heard from. */
  lemma AllHeard(g: Graph, s: State, h: History, n: nat, i: nat, w: nat)
    requires Shape(g, s) && n in g.degree && Awaited(g, s, h, n, Some(i), w) == {}
    ensures GotElsewhere(g, s, h, Endpoint(n, i), w)
  {
    hide Got, Graph.Valid;
    forall k: nat | k < g.degree[n] && k != i ensures Got(g, s, h, Endpoint(n, k), w) {
      assert k in Others(g.degree[n], Some(i));
      assert k !in Awaited(g, s, h, n, Some(i), w);
    }
  }

  /** A greater wave arrives: join it, abandoning the current one. */
  lemma JoinCase(g: Graph, s: State, h: History, e: Endpoint, w: nat) returns (h': History)
    requires Facing(g, s, h, e, Wave(w)) && s.phases[e.node].Electing? && w > s.phases[e.node].leader
    ensures Goes(g, s, h, Receive(g, s, e), h')
  {
    hide CaseOk, Got, SentOk, JoinOk, QueueOk, Waves, Inv, Effects, Next, Graph.Valid;
    InvShape(g, s, h);
    var n, ph := e.node, s.phases[e.node];
    WaveSender(g, s, h, e, w);
    ElectingFacts(g, s, h, n);
    NotJoined(g, s, h, n, w);
    var r := JoinReaction(g.degree[n], e.index, w);
    assert React(g, s, e) == r;
    var s' := Next(g, s, n, Some(e), r);
    h' := History(h.join[(n, w) := Join(Some(e.index), h.join[(g.peer[e].node, w)].rank + 1)],
                  h.sent + Posted(n, r.sends), h.left);
    FreshWaves(g, s, h, n, r.sends, w);
    Handles(g, s, h, e, r, h');
    JoinRecords(g, s, h, e, w, s', h');
    Joined(g, s, h, e, w, s', h');
    ReceiveVia(g, s, h, e, r, h');
  }

  ghost function JoinReaction(degree: nat, index: nat, w: nat): Reaction {
    var others := Others(degree, Some(index));
    Reaction(Electing(w, Some(index), others),
             if others == {} then map[index := Wave(w)] else WaveTo(degree, Some(index), w))
  }

  ghost predicate JoinTurn(g: Graph, s: State, h: History, e: Endpoint, w: nat, s': State, h': History) {
    && Shape(g, s) && Shape(g, s') && e in g.peer && e.node in g.degree && e.index < g.degree[e.node]
    && s.phases[e.node].Electing? && s.inbox[e] != []
    && e.node <= s.phases[e.node].leader < w && w in g.degree && s.inbox[e][0] == Wave(w)
    && (g.peer[e].node, w) in h.join && (e.node, w) !in h.join
    && h'.join == h.join[(e.node, w) := Join(Some(e.index), h.join[(g.peer[e].node, w)].rank + 1)]
    && Effects(g, s, h, e.node, Some(e), JoinReaction(g.degree[e.node], e.index, w), s', h')
    && (e.node, e.node) in h.join && h'.left == h.left
  }

  lemma JoinSends(degree: nat, index: nat, w: nat, n: nat)
    requires index < degree
    ensures forall i: nat | i < degree && i != index ::
      (Endpoint(n, i), w) in Posted(n, JoinReaction(degree, index, w).sends)
    ensures forall p <- Posted(n, JoinReaction(degree, index, w).sends) ::
      p.0.node == n && p.0.index < degree && p.1 == w && (p.0.index == index ==> degree == 1)
    ensures (Endpoint(n, index), w) in Posted(n, JoinReaction(degree, index, w).sends) <==>
      Others(degree, Some(index)) == {}
  {
    var r := JoinReaction(degree, index, w);
    var others := Others(degree, Some(index));
    forall i: nat | i < degree && i != index ensures (Endpoint(n, i), w) in Posted(n, r.sends) {
      assert i in others;
      assert i in r.sends;
    }
    if degree > 1 { assert (if index == 0 then 1 else 0) in others; }
    assert index in r.sends <==> others == {};
  }

  lemma JoinRecords(g: Graph, s: State, h: History, e: Endpoint, w: nat, s': State, h': History)
    requires JoinTurn(g, s, h, e, w, s', h') && (g.peer[e], w) in h.sent
    ensures JoinOk(g, s', h', e.node, w)
    ensures forall p <- h'.sent | p !in h.sent :: SentOk(g, s', h', p.0, p.1)
  {
    hide QueueOk, Arriving, Got, Posted, Next, JoinTurn, JoinOk, SentOk, Graph.Valid;
    JoinGot(g, s, h, e, w, s', h');
    JoinSentOk(g, s, h, e, w, s', h');
    JoinJoinOk(g, s, h, e, w, s', h');
  }

  lemma JoinGot(g: Graph, s: State, h: History, e: Endpoint, w: nat, s': State, h': History)
    requires JoinTurn(g, s, h, e, w, s', h') && (g.peer[e], w) in h.sent
    ensures Got(g, s', h', Endpoint(e.node, e.index), w)
  {
    hide QueueOk, Arriving, Posted, Next, Graph.Valid;
    hide Got;
    assert Takes(g, s, Some(e), e, Wave(w));
  }

  lemma JoinSentOk(g: Graph, s: State, h: History, e: Endpoint, w: nat, s': State, h': History)
    requires JoinTurn(g, s, h, e, w, s', h') && Got(g, s', h', Endpoint(e.node, e.index), w)
    ensures forall p <- h'.sent | p !in h.sent :: SentOk(g, s', h', p.0, p.1)
  {
    hide QueueOk, Arriving, Got, Posted, Next;
    JoinSends(g.degree[e.node], e.index, w, e.node);
  }

  lemma JoinJoinOk(g: Graph, s: State, h: History, e: Endpoint, w: nat, s': State, h': History)
    requires JoinTurn(g, s, h, e, w, s', h') && Got(g, s', h', Endpoint(e.node, e.index), w)
    ensures JoinOk(g, s', h', e.node, w)
  {
    hide QueueOk, Arriving, Got, Posted, Next;
    JoinSends(g.degree[e.node], e.index, w, e.node);
  }

  lemma Joined(g: Graph, s: State, h: History, e: Endpoint, w: nat, s': State, h': History)
    requires JoinTurn(g, s, h, e, w, s', h') && JoinOk(g, s', h', e.node, w)
    requires forall p <- h'.sent | p !in h.sent :: SentOk(g, s', h', p.0, p.1)
    requires forall i: nat :: !Got(g, s, h, Endpoint(e.node, i), w) && (Endpoint(e.node, i), w) !in h.sent
    ensures CaseOk(g, s, h, e.node, Some(e), JoinReaction(g.degree[e.node], e.index, w), s', h')
  {
    hide Got, QueueOk, Arriving, SentOk, Graph.Valid, JoinOk, Posted, Next, ElectingOk;
    var n, r := e.node, JoinReaction(g.degree[e.node], e.index, w);
    JoinedPhase(g, s, h, e, w, s', h');
    forall v: nat | Reached(s, n, v) ensures Reached(s', n, v) {}
    forall f: Endpoint, v: nat | Takes(g, s, Some(e), f, Wave(v)) ensures Reached(s', n, v) {}
    assert Quiet(s, n, Some(e), r);
  }

  lemma JoinedPhase(g: Graph, s: State, h: History, e: Endpoint, w: nat, s': State, h': History)
    requires JoinTurn(g, s, h, e, w, s', h')
    requires forall i: nat :: !Got(g, s, h, Endpoint(e.node, i), w) && (Endpoint(e.node, i), w) !in h.sent
    ensures s'.phases[e.node].Electing? && ElectingOk(g, s', h', e.node)
  {
    hide Got, QueueOk, Arriving, Graph.Valid, Posted, Next;
    var n, r := e.node, JoinReaction(g.degree[e.node], e.index, w);
    JoinSends(g.degree[n], e.index, w, n);
    assert r.phase.awaiting == Awaited(g, s', h', n, Some(e.index), w) by {
      assert forall i: nat | i != e.index :: !Got(g, s', h', Endpoint(n, i), w);
    }
  }
}
