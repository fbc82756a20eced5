/** Every action of the rounds keeps the invariant. */
module RoundsSteps {
  import opened Network
  import opened Predicates
  import opened Solutions
  import opened Rounds
  import opened RoundsInvariant

  lemma NextShape(t: Session, s: State, a: Action)
    requires Shape(t, s) && Enabled(t, s, a)
    ensures Shape(t, Next(t, s, a)) && Actor(a) in t.hood
    ensures Next(t, s, a).conns[Actor(a)] == Acts(t, s, a).conn
    ensures forall m <- t.hood | m != Actor(a) :: Next(t, s, a).conns[m] == s.conns[m]
  {
    hide Session.Valid, Acts, Solves, Taken, Arriving;
    assert s.conns.Keys + {Actor(a)} == s.conns.Keys;
  }

  lemma NextInbox(t: Session, s: State, a: Action, e: Endpoint)
    requires Shape(t, s) && Enabled(t, s, a) && e in t.g.peer && Shape(t, Next(t, s, a))
    ensures forall m <- Next(t, s, a).inbox[e] ::
      m in s.inbox[e] || m in Arriving(t.g, Actor(a), Acts(t, s, a).sends, e)
  {
    hide Session.Valid, Acts, Solves, Arriving;
    assert forall m <- Taken(s, a).inbox[e] :: m in s.inbox[e];
  }

  lemma NextSent(t: Session, s: State, a: Action, e: Endpoint)
    requires Shape(t, s) && Enabled(t, s, a) && e in t.g.peer && Shape(t, Next(t, s, a))
    ensures Next(t, s, a).sent[e] == s.sent[e] + multiset(Arriving(t.g, Actor(a), Acts(t, s, a).sends, e))
  {
    hide Session.Valid, Acts, Solves, Arriving, Taken, Enabled;
  }

  /** The connector's buffers after a turn hold only what was waiting for it. */
  ghost predicate BuffersOk(t: Session, s: State, n: nat, c: Conn)
    requires Shape(t, s) && n in t.hood
  {
    forall x | x in c.delayed || x in c.undelayed :: Waiting(t, s, n, x.0, x.1)
  }

  /** What remains to be checked for an action of `n` with effect `ef`. */
  ghost predicate EffectOk(t: Session, s: State, n: nat, ef: Effect, s': State) {
    && Shape(t, s) && Shape(t, s') && n in t.hood && s'.conns[n] == ef.conn
    && (forall m <- t.hood | m != n :: s'.conns[m] == s.conns[m])
    && LocalsGrow(s.conns[n], ef.conn)
    && (forall r <- s.conns[n].results :: r in ef.conn.results && ef.conn.results[r] == s.conns[n].results[r])
    && BuffersOk(t, s, n, ef.conn)
    && ConnOk(t, s', n)
    && (forall r <- ef.conn.results | r !in s.conns[n].results :: ResultOk(t, s', n, r))
    && (forall k <- ef.sends :: SentFrom(t, s', Endpoint(n, k), ef.sends[k]))
  }

  lemma SameLocals(c: Conn, c': Conn)
    requires c'.locals == c.locals
    ensures LocalsGrow(c, c')
  {
  }

  lemma EffectGrows(t: Session, s: State, n: nat, ef: Effect, s': State)
    requires EffectOk(t, s, n, ef, s')
    ensures Grows(t, s, s')
  {
    hide Session.Valid, LocalsGrow, ConnOk, ResultOk, SentFrom, BuffersOk;
    forall m | m in t.hood ensures LocalsGrow(s.conns[m], s'.conns[m]) {
      if m != n { SameLocals(s.conns[m], s.conns[m]); }
    }
  }

  lemma OtherConn(t: Session, s: State, s': State, m: nat)
    requires Shape(t, s) && Shape(t, s') && Grows(t, s, s') && m in t.hood && ConnOk(t, s, m) && s'.conns[m] == s.conns[m]
    ensures ConnOk(t, s', m)
  {
    hide Session.Valid, LocalsGrow, Grows, HeardOk;
    if s.conns[m].syncing { HeardGrows(t, s, s', m); }
  }

  lemma ConnsOk(t: Session, s: State, n: nat, ef: Effect, s': State)
    requires Inv(t, s) && EffectOk(t, s, n, ef, s')
    ensures forall m <- t.hood :: ConnOk(t, s', m)
    ensures forall m <- t.hood, r <- s'.conns[m].results :: ResultOk(t, s', m, r)
  {
    hide Session.Valid, LocalsGrow, Grows, ConnOk, ResultOk, SentFrom, BuffersOk, MsgOk, Waiting;
    EffectGrows(t, s, n, ef, s');
    forall m | m in t.hood ensures ConnOk(t, s', m) {
      if m != n { OtherConn(t, s, s', m); }
    }
    forall m, r | m in t.hood && r in s'.conns[m].results ensures ResultOk(t, s', m, r) {
      if r in s.conns[m].results { ResultGrows(t, s, s', m, r); }
    }
  }

  lemma WaitingBefore(t: Session, s: State, a: Action, m: nat, i: nat, x: CommMsg)
    requires Shape(t, s) && Enabled(t, s, a) && EffectOk(t, s, Actor(a), Acts(t, s, a), Next(t, s, a)) && m in t.hood
    requires Waiting(t, Next(t, s, a), m, i, x)
    ensures Waiting(t, s, m, i, x) ||
      (Endpoint(m, i) in t.g.peer && x in Arriving(t.g, Actor(a), Acts(t, s, a).sends, Endpoint(m, i)))
  {
    hide Session.Valid, LocalsGrow, ConnOk, ResultOk, SentFrom, Acts, Next, Arriving, Enabled;
    var e := Endpoint(m, i);
    if e in t.g.peer { NextInbox(t, s, a, e); }
    if (i, x) in Next(t, s, a).conns[m].delayed || (i, x) in Next(t, s, a).conns[m].undelayed {
      if m == Actor(a) { assert Waiting(t, s, m, (i, x).0, (i, x).1); }
    }
  }

  lemma MsgsOk(t: Session, s: State, a: Action, m: nat, i: nat, x: CommMsg)
    requires Inv(t, s) && Enabled(t, s, a) && EffectOk(t, s, Actor(a), Acts(t, s, a), Next(t, s, a)) && m in t.hood
    requires Waiting(t, Next(t, s, a), m, i, x)
    ensures MsgOk(t, Next(t, s, a), m, i, x)
  {
    WaitingBefore(t, s, a, m, i, x);
    EffectGrows(t, s, Actor(a), Acts(t, s, a), Next(t, s, a));
    MsgFrom(t, s, a, m, i, x);
  }

  lemma MsgFrom(t: Session, s: State, a: Action, m: nat, i: nat, x: CommMsg)
    requires Inv(t, s) && Enabled(t, s, a) && EffectOk(t, s, Actor(a), Acts(t, s, a), Next(t, s, a)) && m in t.hood
    requires Grows(t, s, Next(t, s, a))
    requires Waiting(t, s, m, i, x) ||
      (Endpoint(m, i) in t.g.peer && x in Arriving(t.g, Actor(a), Acts(t, s, a).sends, Endpoint(m, i)))
    ensures MsgOk(t, Next(t, s, a), m, i, x)
  {
    hide Session.Valid, LocalsGrow, ConnOk, ResultOk, SentFrom, Acts, Next, Enabled, Grows, BuffersOk, Waiting;
    var s' := Next(t, s, a);
    if Waiting(t, s, m, i, x) {
      assert MsgOk(t, s, m, i, x);
      NextSent(t, s, a, Endpoint(m, i));
      SentFromGrows(t, s, s', t.g.peer[Endpoint(m, i)], x);
    } else {
      NextSent(t, s, a, Endpoint(m, i));
      var f := t.g.peer[Endpoint(m, i)];
      assert f == Endpoint(Actor(a), f.index);
    }
  }

  lemma EffectKeepsInv(t: Session, s: State, a: Action)
    requires Inv(t, s) && Enabled(t, s, a) && EffectOk(t, s, Actor(a), Acts(t, s, a), Next(t, s, a))
    ensures Inv(t, Next(t, s, a))
  {
    hide Session.Valid, LocalsGrow, ConnOk, ResultOk, SentFrom, Acts, Next, Enabled, BuffersOk, Waiting, MsgOk;
    var s' := Next(t, s, a);
    ConnsOk(t, s, Actor(a), Acts(t, s, a), s');
    forall m, i: nat, x | m in t.hood && Waiting(t, s', m, i, x) ensures MsgOk(t, s', m, i, x) {
      MsgsOk(t, s, a, m, i, x);
    }
  }

  // ---- the actions ----

  /** A solution of a connector is supported by everything below it. */
  lemma SolutionIsSupported(t: Session, s: State, n: nat, x: Predicate)
    requires Shape(t, s) && n in t.hood && ConnOk(t, s, n) && s.conns[n].syncing && Solves(s.conns[n], x)
    ensures Supported(t, s, n, s.conns[n].round, x)
  {
    hide Session.Valid, Within, Covers;
    var c := s.conns[n];
    var ids :| Subtrees(c, ids) && IsSolution(x, seq(|ids|, k requires 0 <= k < |ids| => SubtreeSet(c, ids[k])));
    var sets := seq(|ids|, k requires 0 <= k < |ids| => SubtreeSet(c, ids[k]));
    var choice :| Joins(x, map[], sets, choice);
    forall part | part in c.locals[c.round] ensures exists q <- c.locals[c.round][part] :: Within(q, x) {
      var k :| 0 <= k < |ids| && ids[k] == LocalComponent(part);
      assert choice[k] in sets[k];
    }
    forall i | i in t.hood[n].children ensures ChildSupports(t, s, n, i, c.round, x) {
      var k :| 0 <= k < |ids| && ids[k] == NetEndpoint(i);
      assert choice[k] in sets[k];
      ChildMore(t, s, n, i, c.round, choice[k], x);
    }
  }

  lemma ChildMore(t: Session, s: State, n: nat, i: nat, r: nat, p: Predicate, x: Predicate)
    requires Shape(t, s) && n in t.hood && i in t.hood[n].children && ChildSupports(t, s, n, i, r, p) && Within(p, x)
    ensures ChildSupports(t, s, n, i, r, x)
  {
    hide Session.Valid, Within, LocalsGrow;
    ChildDepth(t, n, i);
    forall m | m in t.hood ensures LocalsGrow(s.conns[m], s.conns[m]) { SameLocals(s.conns[m], s.conns[m]); }
    SupportedGrows(t, s, s, t.Across(n, i), r, p, x);
  }

  /** A state in which only connector `n` differs, and how. */
  ghost predicate Became(t: Session, s: State, n: nat, c: Conn, s': State) {
    && Shape(t, s) && Shape(t, s') && n in t.hood && ConnOk(t, s, n) && s'.conns[n] == c
    && (forall m <- t.hood | m != n :: s'.conns[m] == s.conns[m])
  }

  lemma RecordsGrow(t: Session, s: State, n: nat, c: Conn, s': State)
    requires Became(t, s, n, c, s') && LocalsGrow(s.conns[n], c)
    requires forall r <- s.conns[n].results :: r in c.results && c.results[r] == s.conns[n].results[r]
    ensures Grows(t, s, s')
  {
    hide Session.Valid, LocalsGrow, ConnOk;
    forall m | m in t.hood ensures LocalsGrow(s.conns[m], s'.conns[m]) {
      if m != n { SameLocals(s.conns[m], s.conns[m]); }
    }
  }

  lemma SameRecordsGrow(t: Session, s: State, n: nat, c: Conn, s': State)
    requires Became(t, s, n, c, s') && s.conns[n].locals == c.locals && s.conns[n].results == c.results
    ensures Grows(t, s, s') && LocalsGrow(s.conns[n], c)
  {
    hide Session.Valid, LocalsGrow, ConnOk;
    SameLocals(s.conns[n], c);
    RecordsGrow(t, s, n, c, s');
  }

  /** A turn that changes neither the round nor anything heard, submitted or decided. */
  lemma QuietEffect(t: Session, s: State, n: nat, ef: Effect, s': State)
    requires Became(t, s, n, ef.conn, s') && BuffersOk(t, s, n, ef.conn)
    requires s.conns[n].locals == ef.conn.locals && s.conns[n].results == ef.conn.results
    requires ef.conn.round == s.conns[n].round && ef.conn.syncing == s.conns[n].syncing && ef.conn.heard == s.conns[n].heard
    requires forall k <- ef.sends :: SentFrom(t, s', Endpoint(n, k), ef.sends[k])
    ensures EffectOk(t, s, n, ef, s')
  {
    hide Session.Valid, SentFrom, BuffersOk, ResultOk, LocalsGrow, Grows, HeardOk;
    SameRecordsGrow(t, s, n, ef.conn, s');
    if s.conns[n].syncing { HeardGrows(t, s, s', n); }
  }

  /** The decision is the parent's, or, at the root, failure or a supported solution. */
  ghost predicate MayDecide(t: Session, s: State, n: nat, d: Decision)
    requires Shape(t, s) && n in t.hood
  {
    if n == t.root then d.Success? ==> Supported(t, s, n, s.conns[n].round, d.pred)
    else
      && t.hood[n].parent.Some? && Endpoint(n, t.hood[n].parent.value) in t.g.peer
      && var m := t.Across(n, t.hood[n].parent.value);
         m in t.hood && s.conns[n].round in s.conns[m].results && s.conns[m].results[s.conns[n].round] == d
  }

  /** A connector whose buffers may have moved, but nothing else. */
  ghost predicate SameButBuffers(c: Conn, c': Conn) {
    c' == c.(delayed := c'.delayed, undelayed := c'.undelayed)
  }

  /** The situation of `n` in round, about to end up as `c'`. */
  ghost predicate Turning(t: Session, s: State, n: nat, c: Conn, c': Conn, s': State) {
    && Became(t, s, n, c', s') && SameButBuffers(s.conns[n], c) && BuffersOk(t, s, n, c) && c.syncing
  }

  lemma DecideEffect(t: Session, s: State, n: nat, c: Conn, d: Decision, s': State)
    requires n in t.hood && Turning(t, s, n, c, Decide(t.hood[n], c, d).conn, s') && MayDecide(t, s, n, d)
    ensures EffectOk(t, s, n, Decide(t.hood[n], c, d), s')
  {
    hide Session.Valid, HeardOk, ResultOk, MayDecide, BuffersOk, LocalsGrow, Grows;
    var ef, c0 := Decide(t.hood[n], c, d), s.conns[n];
    SameLocals(c0, ef.conn);
    RecordsGrow(t, s, n, ef.conn, s');
    DecidedResult(t, s, n, d, s');
    BuffersSame(t, s, n, c, ef.conn);
    hide Became;
    Announced(t, s', n, c0, d);
  }

  lemma Announced(t: Session, s: State, n: nat, c: Conn, d: Decision)
    requires Shape(t, s) && n in t.hood && c.round in s.conns[n].results && s.conns[n].results[c.round] == d
    ensures forall k <- Decide(t.hood[n], c, d).sends :: SentFrom(t, s, Endpoint(n, k), Decide(t.hood[n], c, d).sends[k])
  {
    hide Session.Valid;
  }

  lemma DecidedResult(t: Session, s: State, n: nat, d: Decision, s': State)
    requires Shape(t, s) && Shape(t, s') && Grows(t, s, s') && n in t.hood && MayDecide(t, s, n, d)
    requires s'.conns[n].results == s.conns[n].results[s.conns[n].round := d]
    ensures ResultOk(t, s', n, s.conns[n].round)
  {
    hide Session.Valid, Supported, LocalsGrow;
    if n == t.root && d.Success? { StillSupported(t, s, s', n, s.conns[n].round, d.pred); }
  }

  lemma FailureEffect(t: Session, s: State, n: nat, c: Conn, s': State)
    requires n in t.hood && Turning(t, s, n, c, RequestFailure(t.hood[n], c).conn, s')
    ensures EffectOk(t, s, n, RequestFailure(t.hood[n], c), s')
  {
    hide EffectOk, BuffersOk, ConnOk, Session.Valid;
    RootHasNoParent(t, n);
    if t.hood[n].parent == None {
      DecideEffect(t, s, n, c, Failure, s');
    } else {
      BuffersSame(t, s, n, c, RequestFailure(t.hood[n], c).conn);
      QuietEffect(t, s, n, RequestFailure(t.hood[n], c), s');
    }
  }

  lemma RootHasNoParent(t: Session, n: nat)
    requires t.Valid() && n in t.hood
    ensures t.hood[n].parent == None <==> n == t.root
  {
    assert t.HoodOk(n);
  }

  lemma BuffersSame(t: Session, s: State, n: nat, c: Conn, c': Conn)
    requires Shape(t, s) && n in t.hood && BuffersOk(t, s, n, c) && c'.delayed == c.delayed && c'.undelayed == c.undelayed
    ensures BuffersOk(t, s, n, c')
  {
  }

  lemma OwnBuffers(t: Session, s: State, n: nat, c: Conn)
    requires Shape(t, s) && n in t.hood
    requires forall x | x in c.delayed || x in c.undelayed :: x in s.conns[n].delayed || x in s.conns[n].undelayed
    ensures BuffersOk(t, s, n, c)
  {
  }

  lemma ForwardEffect(t: Session, s: State, n: nat, x: Predicate, s': State)
    requires Shape(t, s) && n in t.hood && Became(t, s, n, Forward(t.hood[n], s.conns[n], x).conn, s')
    requires s.conns[n].syncing && Solves(s.conns[n], x)
    ensures EffectOk(t, s, n, Forward(t.hood[n], s.conns[n], x), s')
  {
    hide EffectOk, Supported, Solves, Session.Valid, ConnOk, BuffersOk, Grows, LocalsGrow;
    var c, ef := s.conns[n], Forward(t.hood[n], s.conns[n], x);
    RootHasNoParent(t, n);
    SolutionIsSupported(t, s, n, x);
    if t.hood[n].parent == None {
      OwnBuffers(t, s, n, c);
      DecideEffect(t, s, n, c, Success(x), s');
    } else {
      OwnBuffers(t, s, n, ef.conn);
      SameRecordsGrow(t, s, n, ef.conn, s');
      StillSupported(t, s, s', n, c.round, x);
      QuietEffect(t, s, n, ef, s');
    }
  }

  lemma HeardEffect(t: Session, s: State, n: nat, c: Conn, index: nat, p: Predicate, s': State)
    requires n in t.hood && index in t.hood[n].children
    requires Turning(t, s, n, c, OnSuggest(t.hood[n], c, index, Success(p)).conn, s')
    requires ChildSupports(t, s, n, index, c.round, p)
    ensures EffectOk(t, s, n, OnSuggest(t.hood[n], c, index, Success(p)), s')
  {
    hide Session.Valid, ResultOk, ChildSupports, BuffersOk, Grows, LocalsGrow, SentFrom;
    var ef := OnSuggest(t.hood[n], c, index, Success(p));
    SameRecordsGrow(t, s, n, ef.conn, s');
    HeardMore(t, s, n, index, p, s');
    hide HeardOk;
    BuffersSame(t, s, n, c, ef.conn);
  }

  lemma HeardMore(t: Session, s: State, n: nat, index: nat, p: Predicate, s': State)
    requires Shape(t, s) && Shape(t, s') && Grows(t, s, s') && n in t.hood && index in t.hood[n].children && HeardOk(t, s, n)
    requires s'.conns[n].round == s.conns[n].round
    requires s'.conns[n].heard == s.conns[n].heard[index := s.conns[n].heard[index] + {p}]
    requires ChildSupports(t, s, n, index, s.conns[n].round, p)
    ensures HeardOk(t, s', n)
  {
    hide Session.Valid, LocalsGrow, Grows, Supported;
    forall i, q | i in t.hood[n].children && q in s'.conns[n].heard[i]
      ensures ChildSupports(t, s', n, i, s'.conns[n].round, q)
    {
      assert ChildSupports(t, s, n, i, s.conns[n].round, q);
      ChildStillSupports(t, s, s', n, i, s.conns[n].round, q);
    }
  }

  /** Handling a message that was waiting for `n` at link `index`. */
  lemma HandleEffect(t: Session, s: State, n: nat, c: Conn, index: nat, m: CommMsg, s': State)
    requires n in t.hood && Turning(t, s, n, c, Handle(t.hood[n], c, index, m).conn, s')
    requires Waiting(t, s, n, index, m) && MsgOk(t, s, n, index, m)
    ensures EffectOk(t, s, n, Handle(t.hood[n], c, index, m), s')
  {
    hide EffectOk, Supported, BuffersOk, Waiting, Session.Valid, ConnOk, MsgOk, MayDecide, ChildSupports;
    var hood := t.hood[n];
    if m.round != c.round {
      DelayBuffers(t, s, n, c, index, m);
      QuietEffect(t, s, n, Handle(hood, c, index, m), s');
    } else {
      match m.contents
      case Suggest(d) => HandleSuggest(t, s, n, c, index, m, s');
      case Announce(d) =>
        AnnounceFrom(t, s, n, index, m.round, d);
        DecideEffect(t, s, n, c, d, s');
      case Payload(_, _) =>
        BuffersSame(t, s, n, c, Handle(hood, c, index, m).conn);
        QuietEffect(t, s, n, Handle(hood, c, index, m), s');
    }
  }

  lemma HandleSuggest(t: Session, s: State, n: nat, c: Conn, index: nat, m: CommMsg, s': State)
    requires n in t.hood && Turning(t, s, n, c, Handle(t.hood[n], c, index, m).conn, s')
    requires MsgOk(t, s, n, index, m) && m.round == c.round && m.contents.Suggest?
    ensures EffectOk(t, s, n, Handle(t.hood[n], c, index, m), s')
  {
    hide EffectOk, Supported, BuffersOk, Waiting, Session.Valid, ConnOk, MsgOk, ChildSupports;
    var d := m.contents.suggestion;
    SuggestFrom(t, s, n, index, m.round, d);
    if d.Success? { HeardEffect(t, s, n, c, index, d.pred, s'); } else { FailureEffect(t, s, n, c, s'); }
  }

  lemma DelayBuffers(t: Session, s: State, n: nat, c: Conn, index: nat, m: CommMsg)
    requires Shape(t, s) && n in t.hood && BuffersOk(t, s, n, c) && Waiting(t, s, n, index, m) && m.round != c.round
    ensures BuffersOk(t, s, n, Handle(t.hood[n], c, index, m).conn)
  {
    hide Session.Valid, Waiting;
  }

  lemma SuggestFrom(t: Session, s: State, n: nat, i: nat, r: nat, d: Decision)
    requires Shape(t, s) && n in t.hood && MsgOk(t, s, n, i, CommMsg(r, Suggest(d)))
    ensures i in t.hood[n].children && (d.Success? ==> ChildSupports(t, s, n, i, r, d.pred))
  {
    hide Supported;
    assert t.MirrorOk(Endpoint(n, i));
  }

  lemma AnnounceFrom(t: Session, s: State, n: nat, i: nat, r: nat, d: Decision)
    requires Shape(t, s) && n in t.hood && MsgOk(t, s, n, i, CommMsg(r, Announce(d)))
    ensures t.hood[n].parent == Some(i) && n != t.root
    ensures r == s.conns[n].round ==> MayDecide(t, s, n, d)
  {
    var f := t.g.peer[Endpoint(n, i)];
    assert t.g.peer[f] == Endpoint(n, i) && f in t.g.peer;
    assert t.MirrorOk(f);
    assert t.HoodOk(n);
    hide Session.Valid;
  }
}
