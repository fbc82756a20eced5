/** What every step of the rounds keeps: announcements carry their sender's decision, and a
    suggested solution is supported by every component below the connector that suggests it. */
module RoundsInvariant {
  import opened Network
  import opened Predicates
  import opened Solutions
  import opened Rounds

  /** Every component that took part in round `r` at this connector submitted a part of `p`. */
  ghost predicate LocalSupport(c: Conn, r: nat, p: Predicate) {
    r in c.locals && forall part <- c.locals[r] :: exists q <- c.locals[r][part] :: Within(q, p)
  }

  /** `p` is supported by every connector in the subtree of `n`. */
  ghost predicate Supported(t: Session, s: State, n: nat, r: nat, p: Predicate)
    requires Shape(t, s) && n in t.hood
    decreases t.bound - t.depth[n]
  {
    && LocalSupport(s.conns[n], r, p)
    && forall i <- t.hood[n].children :: ChildSupports(t, s, n, i, r, p)
  }

  ghost predicate ChildSupports(t: Session, s: State, n: nat, i: nat, r: nat, p: Predicate)
    requires Shape(t, s) && n in t.hood && i in t.hood[n].children
    decreases t.bound - t.depth[n], 0
  {
    ChildDepth(t, n, i);
    Supported(t, s, t.Across(n, i), r, p)
  }

  lemma ChildDepth(t: Session, n: nat, i: nat)
    requires t.Valid() && n in t.hood && i in t.hood[n].children
    ensures Endpoint(n, i) in t.g.peer && t.Across(n, i) in t.hood
    ensures t.depth[n] < t.depth[t.Across(n, i)] <= t.bound
    ensures t.hood[t.Across(n, i)].parent == Some(t.g.peer[Endpoint(n, i)].index)
  {
    assert t.HoodOk(n);
    var e := Endpoint(n, i);
    assert e in t.g.peer;
    assert t.MirrorOk(e);
    assert t.HoodOk(t.g.peer[e].node);
  }

  /** What was submitted in any round is never taken back. */
  ghost predicate LocalsGrow(c: Conn, c': Conn) {
    forall r <- c.locals :: r in c'.locals && c'.locals[r].Keys == c.locals[r].Keys &&
      forall part <- c.locals[r] :: c.locals[r][part] <= c'.locals[r][part]
  }

  lemma LocalSupportGrows(c: Conn, c': Conn, r: nat, p: Predicate, p': Predicate)
    requires LocalSupport(c, r, p) && LocalsGrow(c, c') && Within(p, p')
    ensures LocalSupport(c', r, p')
  {
    forall part | part in c'.locals[r] ensures exists q <- c'.locals[r][part] :: Within(q, p') {
      var q :| q in c.locals[r][part] && Within(q, p);
      assert Within(q, p');
    }
  }

  lemma {:induction false} SupportedGrows(t: Session, s: State, s': State, n: nat, r: nat, p: Predicate, p': Predicate)
    requires Shape(t, s) && Shape(t, s') && n in t.hood && Supported(t, s, n, r, p) && Within(p, p')
    requires forall m <- t.hood :: LocalsGrow(s.conns[m], s'.conns[m])
    ensures Supported(t, s', n, r, p')
    decreases t.bound - t.depth[n]
  {
    hide LocalSupport, LocalsGrow, Within, Session.Valid;
    LocalSupportGrows(s.conns[n], s'.conns[n], r, p, p');
    forall i | i in t.hood[n].children ensures ChildSupports(t, s', n, i, r, p') {
      assert ChildSupports(t, s, n, i, r, p);
      ChildDepth(t, n, i);
      SupportedGrows(t, s, s', t.Across(n, i), r, p, p');
    }
  }

  /** A message waits for connector `n` at its link `i`: on the way, delayed or undelayed. */
  ghost predicate Waiting(t: Session, s: State, n: nat, i: nat, m: CommMsg)
    requires Shape(t, s) && n in t.hood
  {
    || (Endpoint(n, i) in t.g.peer && m in s.inbox[Endpoint(n, i)])
    || (i, m) in s.conns[n].delayed
    || (i, m) in s.conns[n].undelayed
  }

  ghost predicate SuggestOk(t: Session, s: State, f: Endpoint, r: nat, d: Decision)
    requires Shape(t, s) && f.node in t.hood
  {
    t.hood[f.node].parent == Some(f.index) && (d.Success? ==> Supported(t, s, f.node, r, d.pred))
  }

  ghost predicate AnnounceOk(t: Session, s: State, f: Endpoint, r: nat, d: Decision)
    requires Shape(t, s) && f.node in t.hood
  {
    f.index in t.hood[f.node].children && r in s.conns[f.node].results && s.conns[f.node].results[r] == d
  }

  /** `m` tells what the connector at `f` did. */
  ghost predicate SentFrom(t: Session, s: State, f: Endpoint, m: CommMsg)
    requires Shape(t, s) && f.node in t.hood
  {
    match m.contents
    case Suggest(d) => SuggestOk(t, s, f, m.round, d)
    case Announce(d) => AnnounceOk(t, s, f, m.round, d)
    case Payload(_, _) => m.round in s.conns[f.node].locals
  }

  ghost predicate MsgOk(t: Session, s: State, n: nat, i: nat, m: CommMsg)
    requires Shape(t, s)
  {
    && Endpoint(n, i) in t.g.peer && t.Across(n, i) in t.hood && m in s.sent[Endpoint(n, i)]
    && SentFrom(t, s, t.g.peer[Endpoint(n, i)], m)
  }

  ghost predicate HeardOk(t: Session, s: State, n: nat)
    requires Shape(t, s) && n in t.hood
  {
    && s.conns[n].heard.Keys == t.hood[n].children
    && forall i <- t.hood[n].children, p <- s.conns[n].heard[i] :: ChildSupports(t, s, n, i, s.conns[n].round, p)
  }

  ghost predicate ResultOk(t: Session, s: State, n: nat, r: nat)
    requires Shape(t, s) && n in t.hood && r in s.conns[n].results
  {
    var d := s.conns[n].results[r];
    if n == t.root then d.Success? ==> Supported(t, s, n, r, d.pred)
    else
      && t.hood[n].parent.Some? && Endpoint(n, t.hood[n].parent.value) in t.g.peer
      && var m := t.Across(n, t.hood[n].parent.value);
         m in t.hood && r in s.conns[m].results && s.conns[m].results[r] == d
  }

  ghost predicate ConnOk(t: Session, s: State, n: nat)
    requires Shape(t, s) && n in t.hood
  {
    var c := s.conns[n];
    && (forall r <- c.locals :: r < c.round || (r == c.round && c.syncing))
    && (forall r <- c.results :: r < c.round)
    && (c.syncing ==> c.round in c.locals && HeardOk(t, s, n))
  }

  ghost predicate Inv(t: Session, s: State) {
    && Shape(t, s)
    && (forall n <- t.hood :: ConnOk(t, s, n))
    && (forall n <- t.hood, r <- s.conns[n].results :: ResultOk(t, s, n, r))
    && (forall n <- t.hood, i: nat, m | Waiting(t, s, n, i, m) :: MsgOk(t, s, n, i, m))
  }

  /** Records only accumulate. */
  ghost predicate Grows(t: Session, s: State, s': State)
    requires Shape(t, s) && Shape(t, s')
  {
    && (forall m <- t.hood :: LocalsGrow(s.conns[m], s'.conns[m]))
    && (forall m <- t.hood, r <- s.conns[m].results ::
          r in s'.conns[m].results && s'.conns[m].results[r] == s.conns[m].results[r])
  }

  lemma StillSupported(t: Session, s: State, s': State, n: nat, r: nat, p: Predicate)
    requires Shape(t, s) && Shape(t, s') && Grows(t, s, s') && n in t.hood && Supported(t, s, n, r, p)
    ensures Supported(t, s', n, r, p)
  {
    hide Session.Valid, Supported, LocalsGrow;
    WithinSelf(p);
    SupportedGrows(t, s, s', n, r, p, p);
  }

  lemma SentFromGrows(t: Session, s: State, s': State, f: Endpoint, m: CommMsg)
    requires Shape(t, s) && Shape(t, s') && Grows(t, s, s') && f.node in t.hood && SentFrom(t, s, f, m)
    ensures SentFrom(t, s', f, m)
  {
    hide Session.Valid, Supported, LocalsGrow;
    match m.contents
    case Suggest(d) => if d.Success? { StillSupported(t, s, s', f.node, m.round, d.pred); }
    case Announce(d) =>
    case Payload(_, _) => assert LocalsGrow(s.conns[f.node], s'.conns[f.node]); InLocals(s.conns[f.node], s'.conns[f.node], m.round);
  }

  lemma InLocals(c: Conn, c': Conn, r: nat)
    requires LocalsGrow(c, c') && r in c.locals
    ensures r in c'.locals
  {
  }

  lemma ResultGrows(t: Session, s: State, s': State, n: nat, r: nat)
    requires Shape(t, s) && Shape(t, s') && Grows(t, s, s') && n in t.hood && r in s.conns[n].results && ResultOk(t, s, n, r)
    ensures r in s'.conns[n].results && ResultOk(t, s', n, r)
  {
    hide Session.Valid, Supported, LocalsGrow;
    var d := s.conns[n].results[r];
    if n == t.root && d.Success? { StillSupported(t, s, s', n, r, d.pred); }
  }

  lemma HeardGrows(t: Session, s: State, s': State, n: nat)
    requires Shape(t, s) && Shape(t, s') && Grows(t, s, s') && n in t.hood && HeardOk(t, s, n)
    requires s'.conns[n].heard == s.conns[n].heard && s'.conns[n].round == s.conns[n].round
    ensures HeardOk(t, s', n)
  {
    hide Session.Valid, LocalsGrow, Grows;
    forall i, p | i in t.hood[n].children && p in s'.conns[n].heard[i]
      ensures ChildSupports(t, s', n, i, s'.conns[n].round, p)
    {
      assert ChildSupports(t, s, n, i, s.conns[n].round, p);
      ChildStillSupports(t, s, s', n, i, s.conns[n].round, p);
    }
  }

  lemma ChildStillSupports(t: Session, s: State, s': State, n: nat, i: nat, r: nat, p: Predicate)
    requires Shape(t, s) && Shape(t, s') && Grows(t, s, s') && n in t.hood && i in t.hood[n].children
    requires ChildSupports(t, s, n, i, r, p)
    ensures ChildSupports(t, s', n, i, r, p)
  {
    hide Session.Valid, Supported, LocalsGrow, Grows;
    ChildDepth(t, n, i);
    StillSupported(t, s, s', t.Across(n, i), r, p);
  }
}
