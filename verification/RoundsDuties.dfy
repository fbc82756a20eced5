/** What connectors owe one another: over whole runs, every decision is announced to every child exactly once, every
    solution and every failure reaches the parent exactly once, a round fails only if somebody requested failure, and
    nobody leaves a round without a decision. */
module RoundsDuties {
  import opened Network
  import opened Predicates
  import opened Solutions
  import opened Rounds
  import opened RoundsInvariant
  import opened RoundsSteps
  import opened RoundsTheorems
  import opened RoundsLedger

  /** A connector stands for this suggestion in the round it is in. */
  ghost predicate Offers(c: Conn, d: Decision) {
    match d
    case Failure => c.asked
    case Success(x) => x in c.forwarded
  }

  /** Whether `count` is how often a connector must have sent `m` over its link `i`. Suggestions of past rounds were
      sent at most once. */
  ghost predicate Told(hood: Neighborhood, c: Conn, i: nat, m: CommMsg, count: nat) {
    match m.contents
    case Announce(d) => count == if i in hood.children && m.round in c.results && c.results[m.round] == d then 1 else 0
    case Suggest(d) =>
      if hood.parent != Some(i) || NotYet(c, m.round) then count == 0
      else if m.round == c.round then count == if Offers(c, d) then 1 else 0
      else count <= 1
    case Payload(_, _) => true
  }

  function Posts(sends: map<nat, CommMsg>, i: nat, m: CommMsg): nat {
    if i in sends && sends[i] == m then 1 else 0
  }

  /** Each connector has told its neighbours what it owes them, and nothing else about the round. */
  ghost predicate ToldAll(t: Session, s: State, e: Endpoint, m: CommMsg)
    requires Shape(t, s) && e in t.g.peer && e.node in t.hood && t.g.peer[e] in t.g.peer
  {
    Told(t.hood[e.node], s.conns[e.node], e.index, m, s.sent[t.g.peer[e]][m])
  }

  /** Every round that was entered is still going on or has a decision; every other one was skipped. */
  ghost predicate Completes(s: State, n: nat)
    requires n in s.conns
  {
    var c := s.conns[n];
    && (forall r: nat :: r in c.locals <==> r in c.results || (r == c.round && c.syncing))
    && (forall r: nat :: r < c.round <==> r in c.results || (n, r) in s.skipped)
    && (forall r <- c.results :: (n, r) !in s.skipped)
  }

  ghost predicate SomebodyFailed(t: Session, s: State, r: nat) {
    exists m <- t.hood :: (m, r) in s.failed
  }

  /** Whoever requested failure was in that round; if it still is, it has a parent to tell and stands for failure. */
  ghost predicate FailedOk(t: Session, s: State, n: nat, r: nat) {
    && n in t.hood && n in s.conns && r in s.conns[n].locals
    && (r == s.conns[n].round && s.conns[n].syncing ==> t.hood[n].parent.Some? && s.conns[n].asked)
  }

  ghost predicate Dutiful(t: Session, s: State) {
    Inv(t, s) && Keeps(t, s) && FailuresOk(t, s)
  }

  ghost predicate Keeps(t: Session, s: State)
    requires Shape(t, s)
  {
    && (forall e <- t.g.peer :: e.node in t.hood && t.g.peer[e] in t.g.peer)
    && (forall e, m | e in t.g.peer :: ToldAll(t, s, e, m))
    && (forall n <- t.hood :: Completes(s, n))
  }

  /** Failed decisions and requests for failure lead back to somebody who requested failure. */
  ghost predicate FailuresOk(t: Session, s: State)
    requires Shape(t, s)
  {
    && (forall x <- s.failed :: FailedOk(t, s, x.0, x.1))
    && (forall n <- t.hood, r <- s.conns[n].results | s.conns[n].results[r] == Failure :: SomebodyFailed(t, s, r))
    && (forall e <- t.g.peer, r: nat | CommMsg(r, Suggest(Failure)) in s.sent[e] :: SomebodyFailed(t, s, r))
  }

  lemma LinksInside(t: Session)
    requires t.Valid()
    ensures forall e <- t.g.peer :: e.node in t.hood && t.g.peer[e] in t.g.peer && t.g.peer[t.g.peer[e]] == e
  {
  }

  lemma DutifulInit(t: Session, s: State)
    requires t.Valid() && Init(t, s)
    ensures Dutiful(t, s)
  {
    hide FailuresOk, Session.Valid;
    InitInv(t, s);
    InvShaped(t, s);
    hide Inv;
    KeepsInit(t, s);
    FailuresInit(t, s);
  }

  lemma FailuresInit(t: Session, s: State)
    requires Shape(t, s) && Init(t, s)
    ensures FailuresOk(t, s)
  {
    hide Session.Valid;
  }

  lemma KeepsInit(t: Session, s: State)
    requires Shape(t, s) && Init(t, s)
    ensures Keeps(t, s)
  {
    hide Session.Valid, Told;
    LinksOf(t, s);
    forall e, m | e in t.g.peer ensures ToldAll(t, s, e, m) { NothingTold(t.hood[e.node], e.index, m); }
  }

  lemma NothingTold(hood: Neighborhood, i: nat, m: CommMsg)
    ensures Told(hood, NEW_CONN, i, m, 0)
  {
  }

  // ---- one connector's own turn: what it says ----

  lemma DecideTells(hood: Neighborhood, c: Conn, d: Decision, i: nat, m: CommMsg, count: nat)
    requires Told(hood, c, i, m, count) && c.syncing && c.round !in c.results
    ensures Told(hood, Decide(hood, c, d).conn, i, m, count + Posts(Decide(hood, c, d).sends, i, m))
  {
  }

  lemma FailureTells(hood: Neighborhood, c: Conn, i: nat, m: CommMsg, count: nat)
    requires Told(hood, c, i, m, count) && c.syncing && c.round !in c.results
    ensures Told(hood, RequestFailure(hood, c).conn, i, m, count + Posts(RequestFailure(hood, c).sends, i, m))
  {
    hide Decide;
    if hood.parent == None { DecideTells(hood, c, Failure, i, m, count); }
  }

  lemma HandleTells(hood: Neighborhood, c: Conn, index: nat, x: CommMsg, i: nat, m: CommMsg, count: nat)
    requires Told(hood, c, i, m, count) && c.syncing && c.round !in c.results
    ensures Told(hood, Handle(hood, c, index, x).conn, i, m, count + Posts(Handle(hood, c, index, x).sends, i, m))
  {
    hide Decide, RequestFailure;
    if x.round == c.round {
      match x.contents
      case Suggest(d) => if index in hood.children && d == Failure { FailureTells(hood, c, i, m, count); }
      case Announce(d) => if Some(index) == hood.parent { DecideTells(hood, c, d, i, m, count); }
      case Payload(_, _) =>
    }
  }

  lemma ForwardTells(hood: Neighborhood, c: Conn, x: Predicate, i: nat, m: CommMsg, count: nat)
    requires Told(hood, c, i, m, count) && c.syncing && c.round !in c.results && x !in c.forwarded
    ensures Told(hood, Forward(hood, c, x).conn, i, m, count + Posts(Forward(hood, c, x).sends, i, m))
  {
    hide Decide;
    if hood.parent == None { DecideTells(hood, c, Success(x), i, m, count); }
  }

  lemma EnterTells(hood: Neighborhood, c: Conn, parts: set<Id>, i: nat, m: CommMsg, count: nat)
    requires Told(hood, c, i, m, count) && !c.syncing
    ensures Told(hood, Enter(hood, c, parts), i, m, count)
  {
  }

  lemma SkipTells(hood: Neighborhood, c: Conn, i: nat, m: CommMsg, count: nat)
    requires Told(hood, c, i, m, count) && !c.syncing
    ensures Told(hood, c.(round := c.round + 1), i, m, count)
  {
  }

  lemma ActionTells(t: Session, s: State, a: Action, i: nat, m: CommMsg, count: nat)
    requires Shape(t, s) && Enabled(t, s, a) && Actor(a) in t.hood && s.conns[Actor(a)].round !in s.conns[Actor(a)].results
    requires Told(t.hood[Actor(a)], s.conns[Actor(a)], i, m, count)
    ensures Told(t.hood[Actor(a)], Acts(t, s, a).conn, i, m, count + Posts(Acts(t, s, a).sends, i, m))
  {
    hide Handle, RequestFailure, Forward, Enter, Session.Valid, Solves;
    var hood, c := t.hood[Actor(a)], s.conns[Actor(a)];
    match a
    case Entering(_, parts) => EnterTells(hood, c, parts, i, m, count);
    case Skipping(_) => SkipTells(hood, c, i, m, count);
    case Submitting(_, part, p) =>
    case Forwarding(_, x) => ForwardTells(hood, c, x, i, m, count);
    case Sending(_, _, _, _) =>
    case Failing(_) => FailureTells(hood, c, i, m, count);
    case Undelaying(_) =>
      var last := c.undelayed[|c.undelayed| - 1];
      HandleTells(hood, c.(undelayed := c.undelayed[..|c.undelayed| - 1]), last.0, last.1, i, m, count);
    case Receiving(e) => HandleTells(hood, c, e.index, s.inbox[e][0], i, m, count);
  }

  lemma SentCounts(t: Session, s: State, a: Action, e: Endpoint, m: CommMsg)
    requires Shape(t, s) && Enabled(t, s, a) && Shape(t, Next(t, s, a)) && e in t.g.peer && t.g.peer[e] in t.g.peer
    requires t.g.peer[t.g.peer[e]] == e
    ensures Next(t, s, a).sent[t.g.peer[e]][m] == s.sent[t.g.peer[e]][m] +
      if e.node == Actor(a) then Posts(Acts(t, s, a).sends, e.index, m) else 0
  {
    hide Session.Valid, Acts, Enabled, Next, Arriving;
    NextSent(t, s, a, t.g.peer[e]);
    ArrivingPosts(t.g, Actor(a), Acts(t, s, a).sends, e, m);
  }

  lemma ArrivingPosts(g: Graph, n: nat, sends: map<nat, CommMsg>, e: Endpoint, m: CommMsg)
    requires e in g.peer && g.peer[e] in g.peer && g.peer[g.peer[e]] == e
    ensures multiset(Arriving(g, n, sends, g.peer[e]))[m] == if e.node == n then Posts(sends, e.index, m) else 0
  {
  }

  lemma ToldNext(t: Session, s: State, a: Action, e: Endpoint, m: CommMsg)
    requires Inv(t, s) && Enabled(t, s, a) && Shape(t, Next(t, s, a)) && e in t.g.peer && e.node in t.hood && t.g.peer[e] in t.g.peer
    requires ToldAll(t, s, e, m)
    ensures ToldAll(t, Next(t, s, a), e, m)
  {
    hide Session.Valid, Acts, Enabled, Next, Told, Inv, Posts;
    InvShaped(t, s);
    LinkBack(t, s, e);
    NextShape(t, s, a);
    SentCounts(t, s, a, e, m);
    hide Shape;
    if e.node == Actor(a) {
      Undecided(t, s, e.node);
      ActionTells(t, s, a, e.index, m, s.sent[t.g.peer[e]][m]);
    }
  }

  lemma LinkBack(t: Session, s: State, e: Endpoint)
    requires Shape(t, s) && e in t.g.peer
    ensures t.g.peer[e] in t.g.peer && t.g.peer[t.g.peer[e]] == e
  {
    LinksOf(t, s);
  }

  lemma LinksOf(t: Session, s: State)
    requires Shape(t, s)
    ensures t.Valid() && forall e <- t.g.peer :: e.node in t.hood && t.g.peer[e] in t.g.peer && t.g.peer[t.g.peer[e]] == e
  {
    LinksInside(t);
  }

  lemma Undecided(t: Session, s: State, n: nat)
    requires Inv(t, s) && n in t.hood
    ensures s.conns[n].round !in s.conns[n].results
  {
    assert ConnOk(t, s, n);
  }

  // ---- one connector's own turn: how it leaves a round ----

  /** How an own turn moves the connector through the rounds. */
  ghost predicate Passes(c: Conn, c': Conn, skips: bool) {
    || (c' == c.(round := c.round + 1) && !c.syncing && skips)
    || (!skips && !c.syncing && c'.syncing && c'.round == c.round && c'.results == c.results && c'.locals.Keys == c.locals.Keys + {c.round})
    || (!skips && c'.syncing == c.syncing && c'.round == c.round && c'.results == c.results && c'.locals.Keys == c.locals.Keys)
    || (!skips && c.syncing && !c'.syncing && c'.round == c.round + 1 && c'.results.Keys == c.results.Keys + {c.round} && c'.locals == c.locals)
  }

  lemma HandlePasses(hood: Neighborhood, c: Conn, index: nat, m: CommMsg)
    requires c.syncing
    ensures Passes(c, Handle(hood, c, index, m).conn, false)
  {
    hide Decide, RequestFailure, OnSuggest;
    match m.contents
    case Suggest(d) => SuggestPasses(hood, c, index, d);
    case Announce(d) => DecidePasses(hood, c, d);
    case Payload(_, _) =>
  }

  lemma SuggestPasses(hood: Neighborhood, c: Conn, index: nat, d: Decision)
    requires c.syncing
    ensures Passes(c, OnSuggest(hood, c, index, d).conn, false)
  {
    hide RequestFailure;
    RequestPasses(hood, c);
  }

  lemma DecidePasses(hood: Neighborhood, c: Conn, d: Decision)
    requires c.syncing
    ensures Passes(c, Decide(hood, c, d).conn, false)
  {
  }

  lemma RequestPasses(hood: Neighborhood, c: Conn)
    requires c.syncing
    ensures Passes(c, RequestFailure(hood, c).conn, false)
  {
    hide Decide;
    DecidePasses(hood, c, Failure);
  }

  lemma ActionPasses(t: Session, s: State, a: Action)
    requires Shape(t, s) && Enabled(t, s, a) && Actor(a) in t.hood
    ensures Passes(s.conns[Actor(a)], Acts(t, s, a).conn, a.Skipping?)
  {
    hide Handle, Session.Valid, Solves, Passes;
    var hood, c := t.hood[Actor(a)], s.conns[Actor(a)];
    match a
    case Undelaying(_) =>
      var last := c.undelayed[|c.undelayed| - 1];
      var popped := c.(undelayed := c.undelayed[..|c.undelayed| - 1]);
      HandlePasses(hood, popped, last.0, last.1);
      PoppedPasses(c, popped, Acts(t, s, a).conn);
    case Receiving(e) => HandlePasses(hood, c, e.index, s.inbox[e][0]);
    case _ => PlainPasses(t, s, a);
  }

  lemma PoppedPasses(c: Conn, popped: Conn, c': Conn)
    requires popped == c.(undelayed := popped.undelayed) && Passes(popped, c', false)
    ensures Passes(c, c', false)
  {
  }

  lemma PlainPasses(t: Session, s: State, a: Action)
    requires Shape(t, s) && Enabled(t, s, a) && Actor(a) in t.hood && !a.Undelaying? && !a.Receiving?
    ensures Passes(s.conns[Actor(a)], Acts(t, s, a).conn, a.Skipping?)
  {
    hide Session.Valid, Solves;
  }

  lemma Notes(t: Session, s: State, a: Action)
    requires Shape(t, s) && Enabled(t, s, a)
    ensures Next(t, s, a).failed == if a.Failing? then s.failed + {(Actor(a), s.conns[Actor(a)].round)} else s.failed
    ensures Next(t, s, a).skipped == if a.Skipping? then s.skipped + {(Actor(a), s.conns[Actor(a)].round)} else s.skipped
  {
    hide Session.Valid, Acts, Solves, Arriving, Handled, Handling;
  }

  lemma CompletesNext(t: Session, s: State, a: Action, n: nat)
    requires Inv(t, s) && Enabled(t, s, a) && Shape(t, Next(t, s, a)) && n in t.hood && Completes(s, n)
    ensures Completes(Next(t, s, a), n)
  {
    hide Session.Valid, Acts, Enabled, Next, ConnOk, ResultOk, MsgOk, Inv, Passes;
    InvShaped(t, s);
    NextShape(t, s, a);
    Notes(t, s, a);
    if n == Actor(a) {
      Undecided(t, s, n);
      ActionPasses(t, s, a);
      PassesCompletes(s, n, Next(t, s, a), a.Skipping?);
    }
  }

  lemma PassesCompletes(s: State, n: nat, s': State, skips: bool)
    requires n in s.conns && n in s'.conns && Completes(s, n) && Passes(s.conns[n], s'.conns[n], skips)
    requires s'.skipped == (if skips then s.skipped + {(n, s.conns[n].round)} else s.skipped)
    ensures Completes(s', n)
  {
  }

  // ---- one connector's own turn: failure ----

  /** Why a connector would now stand for the failure of its round. */
  ghost predicate HasReason(c: Conn, a: Action, h: Option<(Endpoint, CommMsg)>) {
    a.Failing? || (h.Some? && h.value.1.round == c.round && (h.value.1.contents == Suggest(Failure) || h.value.1.contents == Announce(Failure)))
  }

  /** A failed decision or a request for failure comes from somewhere, and does not go away within the round. */
  ghost predicate Fails(hood: Neighborhood, c: Conn, ef: Effect, reason: bool) {
    && (forall r <- ef.conn.results | ef.conn.results[r] == Failure :: (r in c.results && c.results[r] == Failure) || (r == c.round && reason))
    && (forall i <- ef.sends | ef.sends[i].contents == Suggest(Failure) :: ef.sends[i].round == c.round && reason)
    && (c.syncing && c.asked && ef.conn.syncing ==> ef.conn.asked && ef.conn.round == c.round)
  }

  lemma HandleFails(hood: Neighborhood, c: Conn, index: nat, m: CommMsg)
    requires c.syncing
    ensures Fails(hood, c, Handle(hood, c, index, m),
                  m.round == c.round && (m.contents == Suggest(Failure) || m.contents == Announce(Failure)))
  {
  }

  lemma FailingFails(hood: Neighborhood, c: Conn)
    requires c.syncing
    ensures Fails(hood, c, RequestFailure(hood, c), true)
    ensures RequestFailure(hood, c).conn.syncing ==> hood.parent.Some? && RequestFailure(hood, c).conn.asked
  {
  }

  lemma ActionFails(t: Session, s: State, a: Action)
    requires Shape(t, s) && Enabled(t, s, a) && Actor(a) in t.hood
    ensures Fails(t.hood[Actor(a)], s.conns[Actor(a)], Acts(t, s, a), HasReason(s.conns[Actor(a)], a, Handling(s, a)))
    ensures a.Failing? && Acts(t, s, a).conn.syncing ==> t.hood[Actor(a)].parent.Some? && Acts(t, s, a).conn.asked
  {
    hide Handle, RequestFailure, Session.Valid, Solves, Fails;
    var hood, c := t.hood[Actor(a)], s.conns[Actor(a)];
    match a
    case Failing(_) => FailingFails(hood, c);
    case Undelaying(_) =>
      var last := c.undelayed[|c.undelayed| - 1];
      var popped := c.(undelayed := c.undelayed[..|c.undelayed| - 1]);
      HandleFails(hood, popped, last.0, last.1);
      PoppedFails(hood, c, popped, Acts(t, s, a), HasReason(c, a, Handling(s, a)));
    case Receiving(e) => HandleFails(hood, c, e.index, s.inbox[e][0]);
    case _ => PlainFails(t, s, a);
  }

  lemma PoppedFails(hood: Neighborhood, c: Conn, popped: Conn, ef: Effect, reason: bool)
    requires popped == c.(undelayed := popped.undelayed) && Fails(hood, popped, ef, reason)
    ensures Fails(hood, c, ef, reason)
  {
  }

  lemma PlainFails(t: Session, s: State, a: Action)
    requires Shape(t, s) && Enabled(t, s, a) && Actor(a) in t.hood && !a.Undelaying? && !a.Receiving? && !a.Failing?
    ensures Fails(t.hood[Actor(a)], s.conns[Actor(a)], Acts(t, s, a), false)
  {
    hide Session.Valid, Solves;
  }

  /** A reason leads back to somebody who requested failure in that round. */
  lemma ReasonFailed(t: Session, s: State, a: Action)
    requires Dutiful(t, s) && Enabled(t, s, a) && Actor(a) in t.hood && HasReason(s.conns[Actor(a)], a, Handling(s, a))
    ensures SomebodyFailed(t, Next(t, s, a), s.conns[Actor(a)].round)
  {
    hide Session.Valid, Acts, Next, Dutiful, Waiting, Inv;
    InvOf(t, s);
    InvShaped(t, s);
    Notes(t, s, a);
    if !a.Failing? {
      ReasonHandled(s, a);
      HandledFrom(t, s, a);
      hide Enabled;
      var (e, m) := Handling(s, a).value;
      hide Handling, HasReason;
      SaidFailure(t, s, e, m);
    } else {
      assert (Actor(a), s.conns[Actor(a)].round) in Next(t, s, a).failed;
    }
  }

  lemma InvOf(t: Session, s: State)
    requires Dutiful(t, s)
    ensures Inv(t, s)
  {
  }

  lemma SaidFailure(t: Session, s: State, e: Endpoint, m: CommMsg)
    requires Dutiful(t, s) && e in t.g.peer && t.g.peer[e].node in t.hood && m in s.sent[e] && SentFrom(t, s, t.g.peer[e], m)
    requires m.contents == Suggest(Failure) || m.contents == Announce(Failure)
    ensures SomebodyFailed(t, s, m.round)
  {
    hide Inv, Told, Completes, FailedOk, SomebodyFailed, SuggestOk;
    assert m == CommMsg(m.round, m.contents);
  }

  lemma ReasonHandled(s: State, a: Action)
    requires Actor(a) in s.conns && HasReason(s.conns[Actor(a)], a, Handling(s, a)) && !a.Failing?
    ensures Handling(s, a).Some? && var m := Handling(s, a).value.1;
      m == CommMsg(s.conns[Actor(a)].round, m.contents) && (m.contents == Suggest(Failure) || m.contents == Announce(Failure))
  {
    hide Handling;
  }

  /** What is handled was sent, and says what its sender did. */
  lemma HandledFrom(t: Session, s: State, a: Action)
    requires Inv(t, s) && Enabled(t, s, a) && Handling(s, a).Some?
    ensures var (e, m) := Handling(s, a).value; e in t.g.peer && t.g.peer[e].node in t.hood && m in s.sent[e] && SentFrom(t, s, t.g.peer[e], m)
  {
    hide Session.Valid, Solves, ConnOk, ResultOk, SentFrom, WaitingCount;
    var (e, m) := Handling(s, a).value;
    TakesWaiting(t, s, a, e, m);
    hide Enabled;
    var c := s.conns[e.node];
    hide Handling;
    CountWaits(t, s, e, m);
    assert MsgOk(t, s, e.node, e.index, m);
    assert e == Endpoint(e.node, e.index);
  }

  lemma CountWaits(t: Session, s: State, e: Endpoint, m: CommMsg)
    requires Shape(t, s) && e in t.g.peer && e.node in t.hood && WaitingCount(t, s, e, m) > 0
    ensures Waiting(t, s, e.node, e.index, m)
  {
    hide Session.Valid;
    assert e == Endpoint(e.node, e.index);
  }

  // ---- the whole session ----

  lemma StillFailed(t: Session, s: State, a: Action, r: nat)
    requires Shape(t, s) && Enabled(t, s, a) && SomebodyFailed(t, s, r)
    ensures SomebodyFailed(t, Next(t, s, a), r)
  {
    hide Session.Valid, Acts, Enabled, Next;
    Notes(t, s, a);
    var m :| m in t.hood && (m, r) in s.failed;
    assert (m, r) in Next(t, s, a).failed;
  }

  lemma ResultsFailed(t: Session, s: State, a: Action, n: nat, r: nat)
    requires Dutiful(t, s) && Enabled(t, s, a) && Actor(a) in t.hood && Shape(t, Next(t, s, a)) && n in t.hood
    requires r in Next(t, s, a).conns[n].results && Next(t, s, a).conns[n].results[r] == Failure
    ensures SomebodyFailed(t, Next(t, s, a), r)
  {
    hide Session.Valid, Acts, Enabled, Next, Inv, Told, Completes, FailedOk, SomebodyFailed, HasReason;
    InvOf(t, s);
    InvShaped(t, s);
    NextShape(t, s, a);
    ActionFails(t, s, a);
    if r in s.conns[n].results && s.conns[n].results[r] == Failure {
      StillFailed(t, s, a, r);
    } else {
      ReasonFailed(t, s, a);
    }
  }

  lemma SentFailed(t: Session, s: State, a: Action, e: Endpoint, r: nat)
    requires Dutiful(t, s) && Enabled(t, s, a) && Actor(a) in t.hood && Shape(t, Next(t, s, a)) && e in t.g.peer
    requires CommMsg(r, Suggest(Failure)) in Next(t, s, a).sent[e]
    ensures SomebodyFailed(t, Next(t, s, a), r)
  {
    hide Session.Valid, Acts, Enabled, Next, Inv, Keeps, FailuresOk, SomebodyFailed, HasReason;
    InvOf(t, s);
    InvShaped(t, s);
    if CommMsg(r, Suggest(Failure)) in s.sent[e] {
      OldRequest(t, s, e, r);
      StillFailed(t, s, a, r);
    } else {
      NewlySent(t, s, a, e, CommMsg(r, Suggest(Failure)));
      ActionFails(t, s, a);
      hide Fails;
      NewRequest(t, s, a, r);
    }
  }

  lemma OldRequest(t: Session, s: State, e: Endpoint, r: nat)
    requires Shape(t, s) && FailuresOk(t, s) && e in t.g.peer && CommMsg(r, Suggest(Failure)) in s.sent[e]
    ensures SomebodyFailed(t, s, r)
  {
    hide Session.Valid, SomebodyFailed, FailedOk;
  }

  lemma NewRequest(t: Session, s: State, a: Action, r: nat)
    requires Dutiful(t, s) && Enabled(t, s, a) && Actor(a) in t.hood
    requires Fails(t.hood[Actor(a)], s.conns[Actor(a)], Acts(t, s, a), HasReason(s.conns[Actor(a)], a, Handling(s, a)))
    requires exists i <- Acts(t, s, a).sends :: Acts(t, s, a).sends[i] == CommMsg(r, Suggest(Failure))
    ensures SomebodyFailed(t, Next(t, s, a), r)
  {
    hide Session.Valid, Acts, Enabled, Next, Dutiful, SomebodyFailed, HasReason, Handling;
    ReasonFailed(t, s, a);
  }

  lemma NewlySent(t: Session, s: State, a: Action, e: Endpoint, m: CommMsg)
    requires Shape(t, s) && Enabled(t, s, a) && Shape(t, Next(t, s, a)) && e in t.g.peer
    requires m in Next(t, s, a).sent[e] && m !in s.sent[e]
    ensures exists i <- Acts(t, s, a).sends :: Acts(t, s, a).sends[i] == m
  {
    hide Session.Valid, Acts, Enabled, Next;
    NextSent(t, s, a, e);
    assert m in multiset(Arriving(t.g, Actor(a), Acts(t, s, a).sends, e));
    assert m == Acts(t, s, a).sends[t.g.peer[e].index];
  }

  lemma FailedNext(t: Session, s: State, a: Action, n: nat, r: nat)
    requires Dutiful(t, s) && Enabled(t, s, a) && Actor(a) in t.hood && Shape(t, Next(t, s, a)) && (n, r) in Next(t, s, a).failed
    ensures FailedOk(t, Next(t, s, a), n, r)
  {
    hide Session.Valid, Acts, Enabled, Next, Inv, Told, SomebodyFailed, HasReason;
    InvOf(t, s);
    InvShaped(t, s);
    NextShape(t, s, a);
    Notes(t, s, a);
    ActionFails(t, s, a);
    ActionPasses(t, s, a);
    if a.Failing? { FailingSyncs(t, s, a); }
    if (n, r) in s.failed {
      assert FailedOk(t, s, (n, r).0, (n, r).1);
    }
  }

  lemma FailingSyncs(t: Session, s: State, a: Action)
    requires Inv(t, s) && Enabled(t, s, a) && a.Failing?
    ensures Actor(a) in t.hood && s.conns[Actor(a)].syncing && s.conns[Actor(a)].round in s.conns[Actor(a)].locals
  {
    hide Session.Valid;
    assert ConnOk(t, s, Actor(a));
  }

  lemma KeepsNext(t: Session, s: State, a: Action)
    requires Dutiful(t, s) && Enabled(t, s, a) && Shape(t, Next(t, s, a))
    ensures Keeps(t, Next(t, s, a))
  {
    hide Session.Valid, Enabled, Next, Inv, ToldAll, Completes, FailuresOk;
    InvOf(t, s);
    InvShaped(t, s);
    LinksOf(t, s);
    var s' := Next(t, s, a);
    forall e, m | e in t.g.peer ensures ToldAll(t, s', e, m) { ToldNext(t, s, a, e, m); }
    forall n | n in t.hood ensures Completes(s', n) { CompletesNext(t, s, a, n); }
  }

  lemma FailuresNext(t: Session, s: State, a: Action)
    requires Dutiful(t, s) && Enabled(t, s, a) && Actor(a) in t.hood && Shape(t, Next(t, s, a))
    ensures FailuresOk(t, Next(t, s, a))
  {
    hide Session.Valid, Enabled, Next, Inv, Keeps, FailedOk, SomebodyFailed;
    InvShaped(t, s);
    hide Dutiful;
    var s' := Next(t, s, a);
    forall x | x in s'.failed ensures FailedOk(t, s', x.0, x.1) { FailedNext(t, s, a, x.0, x.1); }
    forall n, r | n in t.hood && r in s'.conns[n].results && s'.conns[n].results[r] == Failure ensures SomebodyFailed(t, s', r) {
      ResultsFailed(t, s, a, n, r);
    }
    forall e, r: nat | e in t.g.peer && CommMsg(r, Suggest(Failure)) in s'.sent[e] ensures SomebodyFailed(t, s', r) {
      SentFailed(t, s, a, e, r);
    }
  }

  lemma DutifulNext(t: Session, s: State, a: Action)
    requires Dutiful(t, s) && Enabled(t, s, a)
    ensures Dutiful(t, Next(t, s, a))
  {
    hide Session.Valid, Enabled, Next, Inv, Keeps, FailuresOk;
    InvShaped(t, s);
    NextShape(t, s, a);
    ActionKeepsInv(t, s, a);
    KeepsNext(t, s, a);
    FailuresNext(t, s, a);
  }

  lemma {:induction false} RunDutiful(t: Session, run: seq<State>, k: nat)
    requires IsRun(t, run) && k < |run|
    ensures Dutiful(t, run[k])
  {
    hide Dutiful, Enabled, Next, Init, Session.Valid;
    if k == 0 {
      DutifulInit(t, run[0]);
    } else {
      RunDutiful(t, run, k - 1);
      assert Moves(t, run[k - 1], run[k - 1 + 1]);
      var a :| Enabled(t, run[k - 1], a) && run[k] == Next(t, run[k - 1], a);
      DutifulNext(t, run[k - 1], a);
    }
  }

  // ---- the theorems ----

  lemma RunTold(t: Session, run: seq<State>, k: nat, e: Endpoint, m: CommMsg)
    requires IsRun(t, run) && k < |run| && e in t.g.peer && Shape(t, run[k])
    ensures e.node in t.hood && t.g.peer[e] in t.g.peer && ToldAll(t, run[k], e, m)
  {
    hide IsRun, Session.Valid, Completes, FailuresOk, Inv, ToldAll;
    RunDutiful(t, run, k);
  }

  /** In every state of every run, a connector has announced exactly its decisions: each to every child, and to nobody
      else, exactly once. */
  lemma AnnouncedToChildren(t: Session, run: seq<State>, k: nat, n: nat, i: nat, r: nat, d: Decision)
    requires IsRun(t, run) && k < |run| && Endpoint(n, i) in t.g.peer && Shape(t, run[k])
    ensures n in t.hood && t.g.peer[Endpoint(n, i)] in t.g.peer
    ensures run[k].sent[t.g.peer[Endpoint(n, i)]][CommMsg(r, Announce(d))] ==
      if i in t.hood[n].children && r in run[k].conns[n].results && run[k].conns[n].results[r] == d then 1 else 0
  {
    hide IsRun, Session.Valid, Told;
    RunTold(t, run, k, Endpoint(n, i), CommMsg(r, Announce(d)));
    ToldAnnounce(t.hood[n], run[k].conns[n], i, r, d, run[k].sent[t.g.peer[Endpoint(n, i)]][CommMsg(r, Announce(d))]);
  }

  lemma ToldAnnounce(hood: Neighborhood, c: Conn, i: nat, r: nat, d: Decision, count: nat)
    requires Told(hood, c, i, CommMsg(r, Announce(d)), count)
    ensures count == if i in hood.children && r in c.results && c.results[r] == d then 1 else 0
  {
  }

  /** In every state of every run, a connector in a round has suggested to its parent exactly what it stands for, each
      solution and the failure exactly once; whoever requested failure in the round stands for failure; and nothing is
      suggested twice, over another link, or for a round that has not been entered. */
  lemma SuggestedToParent(t: Session, run: seq<State>, k: nat, n: nat, i: nat, r: nat, d: Decision)
    requires IsRun(t, run) && k < |run| && Endpoint(n, i) in t.g.peer && Shape(t, run[k])
    ensures n in t.hood && t.g.peer[Endpoint(n, i)] in t.g.peer
    ensures var c, count := run[k].conns[n], run[k].sent[t.g.peer[Endpoint(n, i)]][CommMsg(r, Suggest(d))];
      && count <= 1
      && (count > 0 ==> t.hood[n].parent == Some(i) && !NotYet(c, r))
      && (t.hood[n].parent == Some(i) && r == c.round && c.syncing ==> count == if Offers(c, d) then 1 else 0)
      && ((n, r) in run[k].failed && r == c.round && c.syncing ==> t.hood[n].parent.Some? && Offers(c, Failure))
  {
    hide IsRun, Session.Valid, Keeps, Inv;
    RunDutiful(t, run, k);
    RunTold(t, run, k, Endpoint(n, i), CommMsg(r, Suggest(d)));
    if (n, r) in run[k].failed { assert FailedOk(t, run[k], (n, r).0, (n, r).1); }
  }

  /** A round fails, anywhere, only if somebody in that round requested failure. */
  lemma FailureNeedsRequest(t: Session, run: seq<State>, k: nat, n: nat, r: nat)
    requires IsRun(t, run) && k < |run| && n in t.hood && Shape(t, run[k])
    requires r in run[k].conns[n].results && run[k].conns[n].results[r] == Failure
    ensures exists m <- t.hood :: (m, r) in run[k].failed && r in run[k].conns[m].locals
  {
    hide IsRun, Session.Valid, Keeps, Inv;
    RunDutiful(t, run, k);
    assert SomebodyFailed(t, run[k], r);
    var m :| m in t.hood && (m, r) in run[k].failed;
    assert FailedOk(t, run[k], (m, r).0, (m, r).1);
  }

  /** Every round before the current one was skipped or entered and decided, never both; no round is left out. */
  lemma EveryRoundEnds(t: Session, run: seq<State>, k: nat, n: nat, r: nat)
    requires IsRun(t, run) && k < |run| && n in t.hood && Shape(t, run[k]) && r < run[k].conns[n].round
    ensures var c := run[k].conns[n];
      && (r in c.results <==> (n, r) !in run[k].skipped)
      && (r in c.results <==> r in c.locals)
  {
    hide IsRun, Session.Valid, FailuresOk, Inv, ToldAll;
    RunDutiful(t, run, k);
  }

  /** The connector has all that it had submitted, and all decisions that it had. */
  ghost predicate KeepsRecords(c: Conn, c': Conn) {
    LocalsGrow(c, c') && forall r <- c.results :: r in c'.results && c'.results[r] == c.results[r]
  }

  lemma RecordsSelf(c: Conn)
    ensures KeepsRecords(c, c)
  {
    hide LocalsGrow;
    SameLocals(c, c);
  }

  lemma RecordsTrans(a: Conn, b: Conn, c: Conn)
    requires KeepsRecords(a, b) && KeepsRecords(b, c)
    ensures KeepsRecords(a, c)
  {
    hide LocalsGrow;
    GrowthAdds(a, b, c);
  }

  lemma StepKeeps(t: Session, s: State, a: Action, n: nat)
    requires Inv(t, s) && Enabled(t, s, a) && n in t.hood && n in s.conns
    ensures n in Next(t, s, a).conns && KeepsRecords(s.conns[n], Next(t, s, a).conns[n])
  {
    hide Session.Valid, Enabled, Next, LocalsGrow, Acts, EffectOk;
    InvShaped(t, s);
    Begins(t, s, a);
    ActionEffect(t, s, a);
    hide Inv;
    NextShape(t, s, a);
    EffectGrows(t, s, Actor(a), Acts(t, s, a), Next(t, s, a));
  }

  lemma RunShape(t: Session, run: seq<State>, k: nat)
    requires IsRun(t, run) && k < |run|
    ensures Shape(t, run[k]) && Inv(t, run[k])
  {
    hide Inv, IsRun, Shape;
    RunInv(t, run, k);
    InvShaped(t, run[k]);
  }

  lemma {:induction false} RecordsKept(t: Session, run: seq<State>, j: nat, k: nat, n: nat)
    requires IsRun(t, run) && j <= k < |run| && n in t.hood
    ensures n in run[j].conns && n in run[k].conns && KeepsRecords(run[j].conns[n], run[k].conns[n])
    decreases k
  {
    hide Session.Valid, Enabled, Next, Init, KeepsRecords, Inv;
    RunShape(t, run, j);
    if j == k {
      RecordsSelf(run[j].conns[n]);
    } else {
      RunShape(t, run, k - 1);
      assert Moves(t, run[k - 1], run[k - 1 + 1]);
      var a :| Enabled(t, run[k - 1], a) && run[k] == Next(t, run[k - 1], a);
      RecordsKept(t, run, j, k - 1, n);
      StepKeeps(t, run[k - 1], a, n);
      RecordsTrans(run[j].conns[n], run[k - 1].conns[n], run[k].conns[n]);
    }
  }

  /** Over any stretch of a run, submissions are kept and decisions stay. */
  lemma RecordsStay(t: Session, run: seq<State>, j: nat, k: nat, n: nat)
    requires IsRun(t, run) && j <= k < |run| && n in t.hood && Shape(t, run[j]) && Shape(t, run[k])
    ensures LocalsGrow(run[j].conns[n], run[k].conns[n])
    ensures forall r <- run[j].conns[n].results :: r in run[k].conns[n].results && run[k].conns[n].results[r] == run[j].conns[n].results[r]
  {
    hide IsRun, Shape, LocalsGrow;
    RecordsKept(t, run, j, k, n);
  }

  lemma GrowthAdds(a: Conn, b: Conn, c: Conn)
    requires LocalsGrow(a, b) && LocalsGrow(b, c)
    ensures LocalsGrow(a, c)
  {
    forall r, part | r in a.locals && part in a.locals[r]
      ensures r in c.locals && c.locals[r].Keys == a.locals[r].Keys && a.locals[r][part] <= c.locals[r][part]
    {
      assert a.locals[r][part] <= b.locals[r][part];
    }
  }

  /** The decision that a connector takes when the root finds a solution, or when failure is requested at the root. */
  ghost function RootDecision(t: Session, a: Action): Option<Decision> {
    match a
    case Forwarding(n, x) => if n == t.root then Some(Success(x)) else None
    case Failing(n) => if n == t.root then Some(Failure) else None
    case _ => None
  }

  /** As soon as the root finds a solution it is the decision of the round, for good and for everybody; likewise
      failure as soon as the root gives up. */
  lemma RootDecides(t: Session, run: seq<State>, j: nat, a: Action, k: nat, n: nat)
    requires IsRun(t, run) && j < k < |run| && Shape(t, run[j]) && Shape(t, run[k]) && n in t.hood && t.root in t.hood
    requires Enabled(t, run[j], a) && run[j + 1] == Next(t, run[j], a) && RootDecision(t, a).Some?
    ensures var r := run[j].conns[t.root].round;
      && r in run[k].conns[t.root].results && run[k].conns[t.root].results[r] == RootDecision(t, a).value
      && (r in run[k].conns[n].results ==> run[k].conns[n].results[r] == RootDecision(t, a).value)
  {
    hide IsRun, Session.Valid, Acts, Next, Enabled, LocalsGrow, Inv;
    NextShape(t, run[j], a);
    RootHasNoParent(t, t.root);
    DecidesNow(t, run[j], a);
    RecordsStay(t, run, j + 1, k, t.root);
    RunInv(t, run, k);
    if run[j].conns[t.root].round in run[k].conns[n].results { ResultIsRoots(t, run[k], n, run[j].conns[t.root].round); }
  }

  lemma DecidesNow(t: Session, s: State, a: Action)
    requires Shape(t, s) && Enabled(t, s, a) && RootDecision(t, a).Some? && t.root in t.hood && t.hood[t.root].parent == None
    ensures Actor(a) == t.root
    ensures var c, r := Acts(t, s, a).conn, s.conns[t.root].round; r in c.results && c.results[r] == RootDecision(t, a).value
  {
    hide Session.Valid, Solves;
  }

  /** What a component submits stays submitted, for the round in which it did. */
  lemma SubmissionsStay(t: Session, run: seq<State>, j: nat, n: nat, part: Id, p: Predicate, k: nat)
    requires IsRun(t, run) && j < k < |run| && Shape(t, run[j]) && Shape(t, run[k]) && n in t.hood
    requires Enabled(t, run[j], Submitting(n, part, p)) && run[j + 1] == Next(t, run[j], Submitting(n, part, p))
    ensures var r := run[j].conns[n].round;
      r in run[k].conns[n].locals && part in run[k].conns[n].locals[r] && p in run[k].conns[n].locals[r][part]
  {
    hide IsRun, Session.Valid, Next, Solves;
    NextShape(t, run[j], Submitting(n, part, p));
    RecordsStay(t, run, j + 1, k, n);
    hide Enabled;
    assert p in run[j + 1].conns[n].locals[run[j].conns[n].round][part];
  }

  // ---- what the storage solves ----

  /** Every subtree, component or child, has submitted a predicate within `x`. */
  ghost predicate AllSubmitted(c: Conn, x: Predicate) {
    && c.round in c.locals
    && (forall part <- c.locals[c.round] :: exists q <- c.locals[c.round][part] :: Within(q, x))
    && (forall i <- c.heard :: exists q <- c.heard[i] :: Within(q, x))
  }

  ghost function AllSubtrees(c: Conn): set<SubtreeId>
    requires c.round in c.locals
  {
    (set part | part in c.locals[c.round] :: LocalComponent(part)) + (set i | i in c.heard :: NetEndpoint(i))
  }

  lemma {:induction false} Listed<T>(s: set<T>) returns (order: seq<T>)
    ensures forall x :: x in order <==> x in s
    decreases |s|
  {
    if x :| x in s {
      order := Listed(s - {x});
      order := order + [x];
    } else {
      order := [];
    }
  }

  /** A predicate within `x` that the subtree has submitted. */
  ghost function Submission(c: Conn, id: SubtreeId, x: Predicate): (q: Predicate)
    requires AllSubmitted(c, x) && id in AllSubtrees(c)
    ensures q in SubtreeSet(c, id) && Within(q, x)
  {
    match id
    case LocalComponent(part) => var q :| q in c.locals[c.round][part] && Within(q, x); q
    case NetEndpoint(i) => var q :| q in c.heard[i] && Within(q, x); q
  }

  /** A connector has a solution within `x` if and only if every component and every child has submitted a part of `x`. */
  lemma SolvesExactlyWhen(c: Conn, x: Predicate)
    ensures (exists y :: Within(y, x) && Solves(c, y)) <==> AllSubmitted(c, x)
  {
    hide Within, Solves;
    if AllSubmitted(c, x) { SolvedWithin(c, x); }
    if y :| Within(y, x) && Solves(c, y) { SolutionSubmitted(c, y, x); }
  }

  lemma SolvedWithin(c: Conn, x: Predicate)
    requires AllSubmitted(c, x)
    ensures exists y :: Within(y, x) && Solves(c, y)
  {
    hide Within, Joins;
    var ids := Listed(AllSubtrees(c));
    var choice := seq(|ids|, k requires 0 <= k < |ids| => Submission(c, ids[k], x));
    var sets := seq(|ids|, k requires 0 <= k < |ids| => SubtreeSet(c, ids[k]));
    hide AllSubmitted;
    var y := map v | v in x && exists p <- choice :: v in p :: x[v];
    assert Subtrees(c, ids);
    JoinsWithin(x, y, sets, choice);
    assert IsSolution(y, sets);
  }

  lemma JoinsWithin(x: Predicate, y: Predicate, sets: seq<set<Predicate>>, choice: seq<Predicate>)
    requires |choice| == |sets| && forall k | 0 <= k < |sets| :: choice[k] in sets[k] && Within(choice[k], x)
    requires y == map v | v in x && exists p <- choice :: v in p :: x[v]
    ensures Within(y, x) && Joins(y, map[], sets, choice)
  {
    forall k | 0 <= k < |sets| ensures Within(choice[k], y) {
      assert choice[k] in choice;
    }
  }

  lemma SolutionSubmitted(c: Conn, y: Predicate, x: Predicate)
    requires Within(y, x) && Solves(c, y)
    ensures AllSubmitted(c, x)
  {
    hide Within, Covers;
    var ids :| Subtrees(c, ids) && IsSolution(y, seq(|ids|, k requires 0 <= k < |ids| => SubtreeSet(c, ids[k])));
    var sets := seq(|ids|, k requires 0 <= k < |ids| => SubtreeSet(c, ids[k]));
    var choice :| Joins(y, map[], sets, choice);
    forall id | id in ids ensures exists q <- SubtreeSet(c, id) :: Within(q, x) {
      var k :| 0 <= k < |ids| && ids[k] == id;
      assert choice[k] in sets[k];
      WithinTrans(choice[k], y, x);
    }
    forall part | part in c.locals[c.round] ensures exists q <- c.locals[c.round][part] :: Within(q, x) {
      assert LocalComponent(part) in ids;
      assert exists q <- SubtreeSet(c, LocalComponent(part)) :: Within(q, x);
    }
    forall i | i in c.heard ensures exists q <- c.heard[i] :: Within(q, x) {
      assert NetEndpoint(i) in ids;
      assert exists q <- SubtreeSet(c, NetEndpoint(i)) :: Within(q, x);
    }
  }

  lemma WithinTrans(p: Predicate, q: Predicate, x: Predicate)
    requires Within(p, q) && Within(q, x)
    ensures Within(p, x)
  {
  }
}
