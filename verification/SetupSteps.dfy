/** Every step of the setup protocol keeps the invariant. */
module SetupSteps {
  import opened Network
  import opened Setup
  import opened Election
  import opened SetupInvariant

  /** Connector `n` takes the head of the queue at `took`, if any, and reacts with `r`. */
  ghost function Next(g: Graph, s: State, n: nat, took: Option<Endpoint>, r: Reaction): State
    requires Shape(g, s) && (took.Some? ==> took.value in g.peer && s.inbox[took.value] != [])
  {
    Turn(g, if took.Some? then Popped(s, took.value) else s, n, r)
  }

  ghost predicate CanTake(g: Graph, s: State, n: nat, took: Option<Endpoint>) {
    && Shape(g, s) && n in g.degree
    && (took.Some? ==> took.value in g.peer && took.value.node == n && s.inbox[took.value] != [])
  }

  /** `e` is where the turn took its message, and the message is `m`. */
  ghost predicate Takes(g: Graph, s: State, took: Option<Endpoint>, e: Endpoint, m: Msg) {
    took == Some(e) && e in s.inbox && s.inbox[e] != [] && s.inbox[e][0] == m
  }

  ghost predicate TakesTree(g: Graph, s: State, took: Option<Endpoint>, e: Endpoint) {
    took == Some(e) && e in s.inbox && s.inbox[e] != [] && !s.inbox[e][0].Wave?
  }

  lemma NextShape(g: Graph, s: State, n: nat, took: Option<Endpoint>, r: Reaction)
    requires CanTake(g, s, n, took)
    ensures Shape(g, Next(g, s, n, took, r))
    ensures forall m <- g.degree | m != n :: Next(g, s, n, took, r).phases[m] == s.phases[m]
    ensures Next(g, s, n, took, r).phases[n] == r.phase
    ensures forall e <- g.peer ::
      Next(g, s, n, took, r).inbox[e] == (if took == Some(e) then s.inbox[e][1..] else s.inbox[e]) + Arriving(g, n, r.sends, e)
  {
    hide Graph.Valid;
    assert s.phases.Keys + {n} == s.phases.Keys;
  }

  lemma PoppedQueue(g: Graph, h: History, e: Endpoint, q: seq<Msg>)
    requires e in g.peer && QueueOk(g, h, e, q) && q != []
    ensures QueueOk(g, h, e, q[1..])
  {
  }

  lemma GotAfterNext(g: Graph, s: State, h: History, n: nat, took: Option<Endpoint>, r: Reaction, h': History,
                     e: Endpoint, w: nat)
    requires CanTake(g, s, n, took) && Shape(g, Next(g, s, n, took, r))
    requires forall f <- g.peer :: QueueOk(g, h, f, s.inbox[f])
    requires forall f <- g.peer :: FreshOn(g, s, h, n, r.sends, f)
    requires h'.sent == h.sent + Posted(n, r.sends)
    ensures Got(g, Next(g, s, n, took, r), h', e, w) <==> Got(g, s, h, e, w) || Takes(g, s, took, e, Wave(w))
  {
    hide Graph.Valid, QueueOk, Got;
    if took.Some? {
      var s0 := Popped(s, took.value);
      assert Shape(g, s0) by { assert s0.inbox.Keys == s.inbox.Keys + {took.value} == s.inbox.Keys; }
      GotAfterPop(g, s, h, took.value, e, w);
      if e in g.peer {
        assert FreshOn(g, s, h, n, r.sends, e);
        assert forall m <- s0.inbox[e] :: m in s.inbox[e];
        assert FreshOn(g, s0, h, n, r.sends, e);
      }
      GotAfterTurn(g, s0, h, n, r, h', e, w);
    } else {
      GotAfterTurn(g, s, h, n, r, h', e, w);
    }
  }

  lemma QueueAfterNext(g: Graph, s: State, h: History, n: nat, took: Option<Endpoint>, r: Reaction, h': History, e: Endpoint)
    requires CanTake(g, s, n, took) && Shape(g, Next(g, s, n, took, r)) && e in g.peer
    requires QueueOk(g, h, e, s.inbox[e]) && FreshOn(g, s, h, n, r.sends, e)
    requires h'.sent == h.sent + Posted(n, r.sends)
    ensures QueueOk(g, h', e, Next(g, s, n, took, r).inbox[e])
  {
    hide Graph.Valid, QueueOk;
    NextShape(g, s, n, took, r);
    var s0 := if took.Some? then Popped(s, took.value) else s;
    assert Shape(g, s0) by { if took.Some? { assert s0.inbox.Keys == s.inbox.Keys + {took.value} == s.inbox.Keys; } }
    if took == Some(e) { PoppedQueue(g, h, e, s.inbox[e]); }
    assert forall m <- s0.inbox[e] :: m in s.inbox[e];
    QueueAfterTurn(g, s0, h, n, r, h', e);
  }

  /** The facts about a turn that every case below starts from. */
  ghost predicate Effects(g: Graph, s: State, h: History, n: nat, took: Option<Endpoint>, r: Reaction, s': State, h': History) {
    && CanTake(g, s, n, took) && s' == Next(g, s, n, took, r) && Shape(g, s')
    && (forall m <- g.degree | m != n :: s'.phases[m] == s.phases[m])
    && s'.phases[n] == r.phase
    && h'.sent == h.sent + Posted(n, r.sends)
    && (forall e: Endpoint, w: nat ::
          Got(g, s', h', e, w) <==> Got(g, s, h, e, w) || Takes(g, s, took, e, Wave(w)))
    && (forall e <- g.peer :: QueueOk(g, h', e, s'.inbox[e]))
    && (forall e <- g.peer :: s'.inbox[e] ==
          (if took == Some(e) then s.inbox[e][1..] else s.inbox[e]) + Arriving(g, n, r.sends, e))
  }

  lemma TurnEffects(g: Graph, s: State, h: History, n: nat, took: Option<Endpoint>, r: Reaction, h': History)
    requires CanTake(g, s, n, took) && Waves(g, s, h)
    requires forall f <- g.peer :: FreshOn(g, s, h, n, r.sends, f)
    requires h'.sent == h.sent + Posted(n, r.sends)
    ensures Effects(g, s, h, n, took, r, Next(g, s, n, took, r), h')
  {
    hide Graph.Valid, QueueOk, Got, FreshOn, JoinOk, SentOk, Reached;
    NextShape(g, s, n, took, r);
    var s' := Next(g, s, n, took, r);
    forall e: Endpoint, w: nat
      ensures Got(g, s', h', e, w) <==> Got(g, s, h, e, w) || Takes(g, s, took, e, Wave(w))
    {
      GotAfterNext(g, s, h, n, took, r, h', e, w);
    }
    forall e | e in g.peer ensures QueueOk(g, h', e, s'.inbox[e]) {
      QueueAfterNext(g, s, h, n, took, r, h', e);
    }
  }

  /** A turn in which `n` neither leaves the election nor changes what it decided when it left. */
  ghost predicate Quiet(s: State, n: nat, took: Option<Endpoint>, r: Reaction)
    requires n in s.phases
  {
    && (forall i <- r.sends :: r.sends[i].Wave?)
    && (Left(s, n) <==> r.phase.Building? || r.phase.Settled?)
    && (Left(s, n) ==> r.phase.leader == s.phases[n].leader && r.phase.parent == s.phases[n].parent)
    && (took.Some? && took.value in s.inbox && s.inbox[took.value] != [] && !s.inbox[took.value][0].Wave? ==> Left(s, n))
  }

  /** A turn in which `n` leaves the election. */
  ghost predicate Leaves(g: Graph, s: State, n: nat, r: Reaction)
    requires n in s.phases && n in g.degree
  {
    && !Left(s, n) && (r.phase.Building? || r.phase.Settled?)
    && r.sends == (map i: nat | i < g.degree[n] :: TreeMsg(r.phase.parent, r.phase.leader, i))
  }

  lemma HasTreeHead(q: seq<Msg>)
    requires q != [] && forall i, j | 0 <= i < j < |q| :: !Clash(q[i], q[j])
    ensures HasTree(q[1..]) <==> HasTree(q) && q[0].Wave?
  {
    assert q == [q[0]] + q[1..];
    forall m | m in q[1..] ensures !Clash(q[0], m) {
      var j :| 0 <= j < |q[1..]| && q[1..][j] == m;
      assert m == q[j + 1];
    }
  }

  /** Which tree messages are still on the way to `e` after a turn of `n`. */
  lemma HasTreeAfter(g: Graph, s: State, h: History, n: nat, took: Option<Endpoint>, r: Reaction, s': State, h': History, e: Endpoint)
    requires Effects(g, s, h, n, took, r, s', h') && e in g.peer && QueueOk(g, h, e, s.inbox[e])
    ensures HasTree(s'.inbox[e]) <==>
      (HasTree(s.inbox[e]) && !TakesTree(g, s, took, e)) || HasTree(Arriving(g, n, r.sends, e))
  {
    hide Graph.Valid, Got, Arriving;
    var q := if took == Some(e) then s.inbox[e][1..] else s.inbox[e];
    var more := Arriving(g, n, r.sends, e);
    assert forall m :: m in q + more <==> m in q || m in more;
    if took == Some(e) {
      HasTreeHead(s.inbox[e]);
    }
  }

  lemma LeftAfter(g: Graph, s: State, h: History, n: nat, took: Option<Endpoint>, r: Reaction, s': State, h': History, m: nat)
    requires Effects(g, s, h, n, took, r, s', h') && m in g.degree
    requires Quiet(s, n, took, r) || Leaves(g, s, n, r)
    ensures Left(s', m) <==> Left(s, m) || (m == n && Leaves(g, s, n, r))
    ensures Left(s, m) ==> s'.phases[m].leader == s.phases[m].leader && s'.phases[m].parent == s.phases[m].parent
    ensures Leaves(g, s, n, r) ==> s'.phases[n] == r.phase && !Left(s, n)
  {
    hide Graph.Valid, Got, QueueOk;
  }

  lemma ArrivingTree(g: Graph, s: State, n: nat, took: Option<Endpoint>, r: Reaction, e: Endpoint)
    requires g.Valid() && e in g.peer && n in s.phases && n in g.degree
    ensures Quiet(s, n, took, r) ==> !HasTree(Arriving(g, n, r.sends, e))
    ensures Leaves(g, s, n, r) && g.peer[e].node == n ==>
      Arriving(g, n, r.sends, e) == [TreeMsg(r.phase.parent, r.phase.leader, g.peer[e].index)]
      && HasTree(Arriving(g, n, r.sends, e))
    ensures g.peer[e].node != n ==> Arriving(g, n, r.sends, e) == []
  {
    var more := Arriving(g, n, r.sends, e);
    if Leaves(g, s, n, r) && g.peer[e].node == n {
      assert g.peer[e] in g.peer;
      assert !more[0].Wave? && more[0] in more;
    }
  }

  lemma QueueMembers(g: Graph, s: State, h: History, n: nat, took: Option<Endpoint>, r: Reaction, s': State, h': History, e: Endpoint)
    requires Effects(g, s, h, n, took, r, s', h') && e in g.peer
    ensures CanTake(g, s, n, took) && Shape(g, s') && e.node in g.degree && g.peer[e].node in g.degree
    ensures forall m <- s'.inbox[e] :: m in s.inbox[e] || m in Arriving(g, n, r.sends, e)
    ensures TakesTree(g, s, took, e) ==> e.node == n
  {
    hide Got, QueueOk, Arriving;
    assert g.peer[e] in g.peer;
    var q := if took == Some(e) then s.inbox[e][1..] else s.inbox[e];
    assert forall m <- q :: m in s.inbox[e];
  }

  lemma GotTreeAfter(g: Graph, s: State, h: History, n: nat, took: Option<Endpoint>, r: Reaction, s': State, h': History, e: Endpoint)
    requires Shape(g, s) && Effects(g, s, h, n, took, r, s', h') && Shape(g, s')
    requires Quiet(s, n, took, r) || Leaves(g, s, n, r)
    requires e in g.peer ==> QueueOk(g, h, e, s.inbox[e]) && TreeQueueOk(g, s, e)
    ensures GotTree(g, s', e) <==> GotTree(g, s, e) || TakesTree(g, s, took, e)
  {
    hide Effects, Graph.Valid, Got, QueueOk, Left, Arriving, Leaves, Quiet;
    if e in g.peer {
      QueueMembers(g, s, h, n, took, r, s', h', e);
      HasTreeAfter(g, s, h, n, took, r, s', h', e);
      ArrivingTree(g, s, n, took, r, e);
      LeftAfter(g, s, h, n, took, r, s', h', g.peer[e].node);
      assert TakesTree(g, s, took, e) ==> s.inbox[e][0] in s.inbox[e];
    }
  }

  lemma TreeFromStays(g: Graph, s: State, h: History, n: nat, took: Option<Endpoint>, r: Reaction, s': State, h': History,
                      f: Endpoint, k: nat, m: Msg)
    requires Effects(g, s, h, n, took, r, s', h') && (Quiet(s, n, took, r) || Leaves(g, s, n, r))
    requires f.node in g.degree && k in g.degree && TreeFrom(s, f, k, m)
    ensures TreeFrom(s', f, k, m)
  {
    hide Effects, Quiet, Leaves;
    LeftAfter(g, s, h, n, took, r, s', h', f.node);
    LeftAfter(g, s, h, n, took, r, s', h', k);
  }

  lemma TreeQueueAfterQuiet(g: Graph, s: State, h: History, n: nat, took: Option<Endpoint>, r: Reaction, s': State, h': History, e: Endpoint)
    requires Effects(g, s, h, n, took, r, s', h') && Quiet(s, n, took, r)
    requires e in g.peer && QueueOk(g, h, e, s.inbox[e]) && TreeQueueOk(g, s, e)
    ensures Shape(g, s') && TreeQueueOk(g, s', e)
  {
    hide Effects, Graph.Valid, Got, QueueOk, Left, Arriving, Leaves, TreeFrom;
    QueueMembers(g, s, h, n, took, r, s', h', e);
    HasTreeAfter(g, s, h, n, took, r, s', h', e);
    ArrivingTree(g, s, n, took, r, e);
    LeftAfter(g, s, h, n, took, r, s', h', g.peer[e].node);
    LeftAfter(g, s, h, n, took, r, s', h', e.node);
    forall m | m in s'.inbox[e] && !m.Wave? ensures TreeFrom(s', g.peer[e], e.node, m) {
      TreeFromStays(g, s, h, n, took, r, s', h', g.peer[e], e.node, m);
    }
  }

  /** After `n` left, each of its links carries exactly the message that tells how it left. */
  lemma TreeQueueAfterLeave(g: Graph, s: State, h: History, n: nat, took: Option<Endpoint>, r: Reaction, s': State, h': History, e: Endpoint)
    requires Effects(g, s, h, n, took, r, s', h') && Leaves(g, s, n, r)
    requires e in g.peer && QueueOk(g, h, e, s.inbox[e]) && TreeQueueOk(g, s, e)
    requires g.peer[e].node == n && r.phase.parent == Some(g.peer[e].index) ==> Left(s, e.node)
    ensures Shape(g, s') && TreeQueueOk(g, s', e)
  {
    hide Effects, Graph.Valid, Got, QueueOk, Left, Arriving, Leaves, TreeFrom;
    QueueMembers(g, s, h, n, took, r, s', h', e);
    HasTreeAfter(g, s, h, n, took, r, s', h', e);
    ArrivingTree(g, s, n, took, r, e);
    LeftAfter(g, s, h, n, took, r, s', h', g.peer[e].node);
    LeftAfter(g, s, h, n, took, r, s', h', e.node);
    forall m | m in s'.inbox[e] && !m.Wave? ensures TreeFrom(s', g.peer[e], e.node, m) {
      if m in s.inbox[e] {
        TreeFromStays(g, s, h, n, took, r, s', h', g.peer[e], e.node, m);
      } else {
        TreeFromNew(g, s, h, n, took, r, s', h', e);
      }
    }
  }

  lemma TreeFromNew(g: Graph, s: State, h: History, n: nat, took: Option<Endpoint>, r: Reaction, s': State, h': History, e: Endpoint)
    requires Effects(g, s, h, n, took, r, s', h') && Leaves(g, s, n, r) && e in g.peer && g.peer[e].node == n
    requires r.phase.parent == Some(g.peer[e].index) ==> Left(s, e.node)
    ensures TreeFrom(s', g.peer[e], e.node, TreeMsg(r.phase.parent, r.phase.leader, g.peer[e].index))
  {
    hide Effects, Leaves;
    QueueMembers(g, s, h, n, took, r, s', h', e);
    LeftAfter(g, s, h, n, took, r, s', h', n);
    LeftAfter(g, s, h, n, took, r, s', h', e.node);
  }

  /** What remains to be checked in each kind of turn. */
  ghost predicate CaseOk(g: Graph, s: State, h: History, n: nat, took: Option<Endpoint>, r: Reaction, s': State, h': History) {
    && Effects(g, s, h, n, took, r, s', h')
    && (Quiet(s, n, took, r) || LeavesTo(g, s, n, r))
    && (forall k <- h.join :: k in h'.join && h'.join[k] == h.join[k])
    && (forall m <- h.left :: m in h'.left && h'.left[m] == h.left[m])
    && (forall m <- h'.left | m !in h.left :: m == n && Left(s', n))
    && (forall w: nat | Reached(s, n, w) :: Reached(s', n, w))
    && (forall e: Endpoint, w: nat | Takes(g, s, took, e, Wave(w)) :: Reached(s', n, w))
    && (forall k <- h'.join | k !in h.join :: JoinOk(g, s', h', k.0, k.1))
    && (forall p <- h'.sent | p !in h.sent :: SentOk(g, s', h', p.0, p.1))
    && Running(r.phase) && PhaseOk(g, s', h', n)
  }

  /** `n` leaves, and the neighbour it takes as its parent left before. */
  ghost predicate LeavesTo(g: Graph, s: State, n: nat, r: Reaction)
    requires n in s.phases && n in g.degree
  {
    && Leaves(g, s, n, r)
    && forall e <- g.peer | g.peer[e].node == n && r.phase.parent == Some(g.peer[e].index) :: Left(s, e.node)
  }

  lemma CaseGrows(g: Graph, s: State, h: History, n: nat, took: Option<Endpoint>, r: Reaction, s': State, h': History)
    requires Shape(g, s) && Waves(g, s, h) && CaseOk(g, s, h, n, took, r, s', h')
    ensures Grows(g, s, h, s', h') && NewOk(g, s, h, s', h')
  {
    hide Got, JoinOk, SentOk, QueueOk, PhaseOk, Quiet, LeavesTo, Graph.Valid, Arriving;
    forall m, w: nat | Reached(s, m, w) ensures Reached(s', m, w) {}
    forall e, w: nat | e in g.peer && Got(g, s', h', e, w) && !Got(g, s, h, e, w) ensures Reached(s', e.node, w) {
      assert Takes(g, s, took, e, Wave(w));
    }
  }

  lemma CaseDiscreet(g: Graph, s: State, h: History, n: nat, took: Option<Endpoint>, r: Reaction, s': State, h': History)
    requires Inv(g, s, h) && CaseOk(g, s, h, n, took, r, s', h')
    ensures Discreet(g, s, h, s', h', n)
  {
    hide Got, JoinOk, SentOk, QueueOk, PhaseOk, Quiet, Leaves, Graph.Valid, Graph.Connected, Arriving, Grows, GotTree, TreeQueueOk, Reached, Left;
    CaseGrows(g, s, h, n, took, r, s', h');
    LeftAfter(g, s, h, n, took, r, s', h', n);
    forall e: Endpoint | e.node != n ensures GotTree(g, s', e) <==> GotTree(g, s, e) {
      GotTreeAfter(g, s, h, n, took, r, s', h', e);
    }
  }

  /** A turn whose novelties are in order keeps the invariant. */
  lemma CaseKeepsInv(g: Graph, s: State, h: History, n: nat, took: Option<Endpoint>, r: Reaction, s': State, h': History)
    requires Inv(g, s, h) && CaseOk(g, s, h, n, took, r, s', h')
    ensures Inv(g, s', h')
  {
    hide Got, JoinOk, SentOk, PhaseOk, Quiet, Leaves, Graph.Valid, Graph.Connected, Arriving, Grows, NewOk, TreeQueueOk, Reached, Discreet, QueueOk, Left;
    CaseGrows(g, s, h, n, took, r, s', h');
    WavesGrow(g, s, h, s', h');
    CaseDiscreet(g, s, h, n, took, r, s', h');
    OthersOk(g, s, h, s', h', n);
    forall e | e in g.peer ensures TreeQueueOk(g, s', e) {
      if Quiet(s, n, took, r) { TreeQueueAfterQuiet(g, s, h, n, took, r, s', h', e); }
      else { TreeQueueAfterLeave(g, s, h, n, took, r, s', h', e); }
    }
    forall m | m in h'.left ensures m in g.degree && Left(s', m) {
      if m in h.left { LeftAfter(g, s, h, n, took, r, s', h', m); }
    }
  }

  /** The things that can happen at most once in a run: a connector starts, a wave is heard
      over a link, a tree message is handled. */
  datatype Event = Started(n: nat) | Heard(e: Endpoint, w: nat) | Answered(e: Endpoint)

  ghost function AllEvents(g: Graph): set<Event> {
    (set n | n in g.degree :: Started(n))
    + (set e, w | e in g.peer && w in g.degree :: Heard(e, w))
    + (set e | e in g.peer :: Answered(e))
  }

  ghost predicate Happened(g: Graph, s: State, h: History, ev: Event)
    requires Shape(g, s)
  {
    match ev
    case Started(n) => n in g.degree && Running(s.phases[n])
    case Heard(e, w) => Got(g, s, h, e, w)
    case Answered(e) => GotTree(g, s, e)
  }

  ghost function Events(g: Graph, s: State, h: History): set<Event>
    requires Shape(g, s)
  {
    set ev | ev in AllEvents(g) && Happened(g, s, h, ev)
  }

  /** A step that keeps the invariant and makes something new happen. */
  ghost predicate Goes(g: Graph, s: State, h: History, s': State, h': History)
    requires Shape(g, s)
  {
    Inv(g, s', h') && Events(g, s, h) < Events(g, s', h')
  }

  lemma EventsStay(g: Graph, s: State, h: History, n: nat, took: Option<Endpoint>, r: Reaction, s': State, h': History, ev: Event)
    requires Inv(g, s, h) && CaseOk(g, s, h, n, took, r, s', h') && Happened(g, s, h, ev)
    ensures Shape(g, s') && Happened(g, s', h', ev)
  {
    hide Got, JoinOk, SentOk, QueueOk, LeavesTo, Leaves, Quiet, Graph.Valid, Graph.Connected, Arriving, GotTree, TreeQueueOk,
         LeftOk, ElectingOk, Reached, Left, Next;
    match ev
    case Started(m) =>
    case Heard(e, w) =>
    case Answered(e) => StaysAnswered(g, s, h, n, took, r, s', h', e);
  }

  lemma StaysAnswered(g: Graph, s: State, h: History, n: nat, took: Option<Endpoint>, r: Reaction, s': State, h': History, e: Endpoint)
    requires Inv(g, s, h) && CaseOk(g, s, h, n, took, r, s', h')
    ensures Shape(g, s') && (GotTree(g, s', e) <==> GotTree(g, s, e) || TakesTree(g, s, took, e))
  {
    hide Got, JoinOk, SentOk, PhaseOk, Leaves, Quiet, Graph.Valid, Graph.Connected, Arriving, GotTree, TreeQueueOk, Reached, Left, Next,
         QueueOk;
    GotTreeAfter(g, s, h, n, took, r, s', h', e);
  }

  lemma SomethingNew(g: Graph, s: State, h: History, n: nat, took: Option<Endpoint>, r: Reaction, s': State, h': History)
    returns (ev: Event)
    requires Inv(g, s, h) && CaseOk(g, s, h, n, took, r, s', h')
    requires took == None ==> s.phases[n] == Idle
    ensures Shape(g, s') && ev in AllEvents(g) && !Happened(g, s, h, ev) && Happened(g, s', h', ev)
  {
    hide Inv, CaseOk, Got, GotTree, Graph.Valid;
    CaseBasics(g, s, h, n, took, r, s', h');
    if took == None {
      NewlyStarted(g, s, h, n, took, r, s', h');
      ev := Started(n);
    } else if s.inbox[took.value][0].Wave? {
      ev := Heard(took.value, s.inbox[took.value][0].leader);
      NewlyHeard(g, s, h, n, took.value, s.inbox[took.value][0].leader, r, s', h');
    } else {
      ev := Answered(took.value);
      NewlyAnswered(g, s, h, n, took.value, r, s', h');
    }
  }

  lemma CaseBasics(g: Graph, s: State, h: History, n: nat, took: Option<Endpoint>, r: Reaction, s': State, h': History)
    requires CaseOk(g, s, h, n, took, r, s', h')
    ensures Shape(g, s) && Shape(g, s') && CanTake(g, s, n, took)
  {
    hide Got, JoinOk, SentOk, PhaseOk, LeavesTo, Quiet, Graph.Valid, Arriving, Reached, Left, Next, QueueOk;
  }

  lemma NewlyStarted(g: Graph, s: State, h: History, n: nat, took: Option<Endpoint>, r: Reaction, s': State, h': History)
    requires Shape(g, s) && CaseOk(g, s, h, n, took, r, s', h')
    ensures Shape(g, s') && n in g.degree && Running(s'.phases[n])
  {
    hide Got, JoinOk, SentOk, PhaseOk, LeavesTo, Quiet, Graph.Valid, Arriving, Reached, Left, Next, QueueOk;
  }

  lemma NewlyHeard(g: Graph, s: State, h: History, n: nat, e: Endpoint, w: nat, r: Reaction, s': State, h': History)
    requires Inv(g, s, h) && CaseOk(g, s, h, n, Some(e), r, s', h') && e in g.peer && s.inbox[e] != [] && s.inbox[e][0] == Wave(w)
    ensures Shape(g, s') && w in g.degree && !Got(g, s, h, e, w) && Got(g, s', h', e, w)
  {
    hide PhaseOk, LeavesTo, Quiet, Graph.Valid, Graph.Connected, Arriving, Left, Next, TreeQueueOk, Reached;
    assert QueueOk(g, h, e, s.inbox[e]);
    assert SentOk(g, s, h, g.peer[e], w);
    assert JoinOk(g, s, h, g.peer[e].node, w);
    assert Takes(g, s, Some(e), e, Wave(w));
  }

  lemma NewlyAnswered(g: Graph, s: State, h: History, n: nat, e: Endpoint, r: Reaction, s': State, h': History)
    requires Inv(g, s, h) && CaseOk(g, s, h, n, Some(e), r, s', h') && e in g.peer && s.inbox[e] != [] && !s.inbox[e][0].Wave?
    ensures Shape(g, s') && !GotTree(g, s, e) && GotTree(g, s', e)
  {
    hide CaseOk, Inv, Graph.Valid, Left;
    CaseBasics(g, s, h, n, Some(e), r, s', h');
    StaysAnswered(g, s, h, n, Some(e), r, s', h', e);
    assert s.inbox[e][0] in s.inbox[e];
  }

  lemma CaseGoes(g: Graph, s: State, h: History, n: nat, took: Option<Endpoint>, r: Reaction, s': State, h': History)
    requires Inv(g, s, h) && CaseOk(g, s, h, n, took, r, s', h')
    requires took == None ==> s.phases[n] == Idle
    ensures Goes(g, s, h, s', h')
  {
    hide Inv, CaseOk, Happened, AllEvents, Graph.Valid;
    CaseBasics(g, s, h, n, took, r, s', h');
    CaseKeepsInv(g, s, h, n, took, r, s', h');
    var ev := SomethingNew(g, s, h, n, took, r, s', h');
    forall past | past in Events(g, s, h) ensures past in Events(g, s', h') {
      EventsStay(g, s, h, n, took, r, s', h', past);
    }
    assert ev in Events(g, s', h') && ev !in Events(g, s, h);
  }
}
