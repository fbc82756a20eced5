/** A round in which everybody takes part does not hang: when nothing is left to receive or to forward, it is decided
    everywhere exactly if somebody requested failure or the components agree on a solution. */
module RoundsProgress {
  import opened Network
  import opened Predicates
  import opened Solutions
  import opened Rounds
  import opened RoundsInvariant
  import opened RoundsSteps
  import opened RoundsTheorems
  import opened RoundsLedger
  import opened RoundsDuties

  /** While in a round, a connector delays later messages only, and the root, which decides at once, never waits for
      its own request or solution. */
  ghost predicate Tidy(hood: Neighborhood, c: Conn) {
    c.syncing ==>
      && (forall x <- c.delayed :: x.1.round > c.round)
      && (hood.parent == None ==> !c.asked && c.forwarded == {})
  }

  lemma HandleTidy(hood: Neighborhood, c: Conn, index: nat, m: CommMsg)
    requires Tidy(hood, c) && c.syncing
    ensures Tidy(hood, Handle(hood, c, index, m).conn)
  {
  }

  lemma ActionTidy(t: Session, s: State, a: Action)
    requires Shape(t, s) && Enabled(t, s, a) && Actor(a) in t.hood && Tidy(t.hood[Actor(a)], s.conns[Actor(a)])
    ensures Tidy(t.hood[Actor(a)], Acts(t, s, a).conn)
  {
    hide Handle, Session.Valid, Solves;
    var hood, c := t.hood[Actor(a)], s.conns[Actor(a)];
    match a
    case Undelaying(_) =>
      var last := c.undelayed[|c.undelayed| - 1];
      HandleTidy(hood, c.(undelayed := c.undelayed[..|c.undelayed| - 1]), last.0, last.1);
    case Receiving(e) => HandleTidy(hood, c, e.index, s.inbox[e][0]);
    case _ =>
  }

  lemma {:induction false} RunTidy(t: Session, run: seq<State>, k: nat, n: nat)
    requires IsRun(t, run) && k < |run| && n in t.hood && Shape(t, run[k])
    ensures Tidy(t.hood[n], run[k].conns[n])
  {
    hide Enabled, Next, Session.Valid, Tidy, Acts;
    if k == 0 {
      NewTidy(t.hood[n]);
    } else {
      assert Moves(t, run[k - 1], run[k - 1 + 1]);
      var a :| Enabled(t, run[k - 1], a) && run[k] == Next(t, run[k - 1], a);
      RunTidy(t, run, k - 1, n);
      NextShape(t, run[k - 1], a);
      if n == Actor(a) { ActionTidy(t, run[k - 1], a); }
    }
  }

  lemma NewTidy(hood: Neighborhood)
    ensures Tidy(hood, NEW_CONN)
  {
  }

  /** Nothing is left to receive, and no solution to forward. */
  ghost predicate Quiet(t: Session, s: State)
    requires Shape(t, s)
  {
    && (forall e :: !Enabled(t, s, Receiving(e)))
    && (forall n :: !Enabled(t, s, Undelaying(n)))
    && (forall n, x :: !Enabled(t, s, Forwarding(n, x)))
  }

  /** A state of a run, with all that is known about it. */
  ghost predicate Settled(t: Session, s: State) {
    && Dutiful(t, s) && Ledger(t, s) && Quiet(t, s)
    && (forall n <- t.hood :: Tidy(t.hood[n], s.conns[n]))
  }

  ghost predicate Inside(s: State, n: nat, r: nat) {
    n in s.conns && s.conns[n].round == r && s.conns[n].syncing
  }

  lemma NothingWaits(t: Session, s: State, e: Endpoint, m: CommMsg)
    requires Shape(t, s) && Quiet(t, s) && e in t.g.peer && e.node in t.hood && Inside(s, e.node, m.round)
    requires Tidy(t.hood[e.node], s.conns[e.node])
    ensures WaitingCount(t, s, e, m) == 0
  {
    hide Session.Valid;
    var c := s.conns[e.node];
    assert !Enabled(t, s, Undelaying(e.node));
    assert !Enabled(t, s, Receiving(e));
    assert (e.index, m) !in c.delayed;
  }

  /** Whatever was sent to a connector for its round has been acted upon. */
  lemma ActedUpon(t: Session, s: State, e: Endpoint, m: CommMsg)
    requires Settled(t, s) && e in t.g.peer && e.node in t.hood && Inside(s, e.node, m.round) && m in s.sent[e]
    ensures Acted(t.hood[e.node], s.conns[e.node], e.index, m, s.handled[e][m])
  {
    hide Session.Valid, Inv, Keeps, FailuresOk, Acted, WaitingCount, Quiet, Tidy, PayloadsOk;
    NothingWaits(t, s, e, m);
    assert Accounted(t, s, e, m) && HandledOk(t, s, e, m);
  }

  lemma SettledOf(t: Session, s: State)
    requires Settled(t, s)
    ensures Inv(t, s) && Shape(t, s) && t.Valid()
  {
    InvShaped(t, s);
  }

  /** The link of a connector to its parent. */
  lemma UpLink(t: Session, n: nat)
    requires t.Valid() && n in t.hood && n != t.root
    ensures t.hood[n].parent.Some? && var e := Endpoint(n, t.hood[n].parent.value);
      && e in t.g.peer && t.g.peer[e] in t.g.peer && t.g.peer[t.g.peer[e]] == e
      && t.g.peer[e].node in t.hood && t.g.peer[e].index in t.hood[t.g.peer[e].node].children
      && t.depth[t.g.peer[e].node] < t.depth[n]
  {
    assert t.HoodOk(n);
    var e := Endpoint(n, t.hood[n].parent.value);
    var f := t.g.peer[e];
    assert f in t.g.peer && t.g.peer[f] == e;
    assert t.MirrorOk(f);
  }

  ghost function Parent(t: Session, n: nat): nat
    requires t.Valid() && n in t.hood && n != t.root
  {
    UpLink(t, n);
    t.g.peer[Endpoint(n, t.hood[n].parent.value)].node
  }

  lemma SaidOnce(t: Session, s: State, e: Endpoint, m: CommMsg)
    requires Settled(t, s) && e in t.g.peer
    ensures e.node in t.hood && t.g.peer[e] in t.g.peer && ToldAll(t, s, e, m)
  {
    hide Session.Valid, Inv, FailuresOk, Ledger, Quiet, Tidy, ToldAll, Completes;
  }

  /** Below a decided connector nobody is left in the round. */
  lemma DecisionDescends(t: Session, s: State, n: nat, r: nat)
    requires Settled(t, s) && n in t.hood && t.Valid() && n != t.root && r in s.conns[Parent(t, n)].results
    ensures !Inside(s, n, r)
  {
    hide Session.Valid, Settled, Acted, Told;
    SettledOf(t, s);
    UpLink(t, n);
    var e := Endpoint(n, t.hood[n].parent.value);
    var f := t.g.peer[e];
    var m := CommMsg(r, Announce(s.conns[f.node].results[r]));
    SaidOnce(t, s, f, m);
    ToldAnnounce(t.hood[f.node], s.conns[f.node], f.index, r, s.conns[f.node].results[r], s.sent[e][m]);
    if Inside(s, n, r) {
      ActedUpon(t, s, e, m);
      NotFromParent(t.hood[n], s.conns[n], e.index, m, s.handled[e][m]);
    }
  }

  lemma NotFromParent(hood: Neighborhood, c: Conn, i: nat, m: CommMsg, count: nat)
    requires Acted(hood, c, i, m, count) && m.contents.Announce?
    ensures hood.parent != Some(i)
  {
  }

  lemma EntersOrDecides(t: Session, s: State, n: nat, r: nat)
    requires Settled(t, s) && n in t.hood && n in s.conns && r in s.conns[n].locals
    ensures Inside(s, n, r) <==> r !in s.conns[n].results
  {
    hide Session.Valid, Inv, FailuresOk, Ledger, Quiet, Tidy, ToldAll;
    SettledOf(t, s);
    assert Completes(s, n);
    Undecided(t, s, n);
  }

  /** Everybody has entered the round. */
  ghost predicate AllEntered(t: Session, s: State, r: nat) {
    s.conns.Keys == t.hood.Keys && forall n <- t.hood :: r in s.conns[n].locals
  }

  /** Once the root has decided, so has everybody. */
  lemma {:induction false} RootDecidesForAll(t: Session, s: State, n: nat, r: nat)
    requires Settled(t, s) && AllEntered(t, s, r) && t.Valid() && n in t.hood && t.root in t.hood && r in s.conns[t.root].results
    ensures r in s.conns[n].results
    decreases t.depth[n]
  {
    hide Session.Valid, Settled;
    SettledOf(t, s);
    if n != t.root {
      UpLink(t, n);
      RootDecidesForAll(t, s, Parent(t, n), r);
      DecisionDescends(t, s, n, r);
      EntersOrDecides(t, s, n, r);
    }
  }

  ghost predicate AllInside(t: Session, s: State, r: nat) {
    forall n <- t.hood :: Inside(s, n, r)
  }

  /** As long as the root is undecided everybody is in the round. */
  lemma UndecidedForAll(t: Session, s: State, r: nat)
    requires Settled(t, s) && AllEntered(t, s, r) && t.root in t.hood && r !in s.conns[t.root].results
    ensures AllInside(t, s, r)
  {
    hide Session.Valid, Settled, Inv, Inside;
    SettledOf(t, s);
    forall n | n in t.hood ensures Inside(s, n, r) {
      EntersOrDecides(t, s, n, r);
      if r in s.conns[n].results { ResultIsRoots(t, s, n, r); }
    }
  }

  /** What a connector stands for has been heard by its parent. */
  lemma OfferHeard(t: Session, s: State, n: nat, r: nat, d: Decision)
    requires Settled(t, s) && t.Valid() && n in t.hood && n != t.root && Inside(s, n, r) && Inside(s, Parent(t, n), r)
    requires Offers(s.conns[n], d)
    ensures Parent(t, n) in t.hood && var m, i := Parent(t, n), t.g.peer[Endpoint(n, t.hood[n].parent.value)].index;
      match d
      case Failure => t.hood[m].parent.Some? && s.conns[m].asked
      case Success(x) => i in s.conns[m].heard && x in s.conns[m].heard[i]
  {
    hide Session.Valid, Settled, Acted, Told;
    SettledOf(t, s);
    UpLink(t, n);
    var e := Endpoint(n, t.hood[n].parent.value);
    var f, m := t.g.peer[e], CommMsg(r, Suggest(d));
    SaidOnce(t, s, e, m);
    ToldOffer(t.hood[n], s.conns[n], e.index, r, d, s.sent[f][m]);
    ActedUpon(t, s, f, m);
    HeardOffer(t.hood[f.node], s.conns[f.node], f.index, r, d, s.handled[f][m]);
  }

  lemma ToldOffer(hood: Neighborhood, c: Conn, i: nat, r: nat, d: Decision, count: nat)
    requires Told(hood, c, i, CommMsg(r, Suggest(d)), count) && hood.parent == Some(i) && c.syncing && c.round == r && Offers(c, d)
    ensures count == 1
  {
  }

  lemma HeardOffer(hood: Neighborhood, c: Conn, i: nat, r: nat, d: Decision, count: nat)
    requires Acted(hood, c, i, CommMsg(r, Suggest(d)), count) && i in hood.children
    ensures match d
      case Failure => hood.parent.Some? && c.asked
      case Success(x) => i in c.heard && x in c.heard[i]
  {
  }

  /** A request for failure does not stop halfway: in a quiet round nobody stands for failure. */
  lemma {:induction false} NobodyAsks(t: Session, s: State, n: nat, r: nat)
    requires Settled(t, s) && AllInside(t, s, r) && t.Valid() && n in t.hood
    ensures n in s.conns && !s.conns[n].asked
    decreases t.depth[n]
  {
    hide Session.Valid, Settled;
    SettledOf(t, s);
    RootHasNoParent(t, n);
    if n == t.root {
      RootIsTidy(t, s, r);
    } else {
      UpLink(t, n);
      NobodyAsks(t, s, Parent(t, n), r);
      if s.conns[n].asked { OfferHeard(t, s, n, r, Failure); }
    }
  }

  lemma RootIsTidy(t: Session, s: State, r: nat)
    requires Settled(t, s) && t.root in t.hood && t.hood[t.root].parent == None && Inside(s, t.root, r)
    ensures !s.conns[t.root].asked && s.conns[t.root].forwarded == {}
  {
    hide Session.Valid, Dutiful, Ledger, Quiet;
    assert Tidy(t.hood[t.root], s.conns[t.root]);
  }

  /** In a quiet round a connector has forwarded all its solutions. */
  lemma SolvedIsForwarded(t: Session, s: State, n: nat, r: nat, y: Predicate)
    requires Shape(t, s) && Quiet(t, s) && Inside(s, n, r) && Solves(s.conns[n], y)
    ensures y in s.conns[n].forwarded
  {
    hide Session.Valid, Solves;
    assert !Enabled(t, s, Forwarding(n, y));
  }

  lemma QuietOf(t: Session, s: State)
    requires Settled(t, s)
    ensures Shape(t, s) && Quiet(t, s)
  {
    hide Quiet, Ledger, Tidy;
    SettledOf(t, s);
  }

  /** Where the components agree on parts of `x`, every connector has a solution within `x` and has forwarded it. */
  lemma {:induction false} SolutionsClimb(t: Session, s: State, n: nat, r: nat, x: Predicate)
    requires Settled(t, s) && AllInside(t, s, r) && t.Valid() && n in t.hood
    requires forall m <- t.hood | m in s.conns :: LocalSupport(s.conns[m], r, x)
    ensures n in s.conns && exists y :: Within(y, x) && y in s.conns[n].forwarded
    decreases t.bound - t.depth[n]
  {
    hide Session.Valid, Settled, Solves, Within;
    QuietOf(t, s);
    hide Quiet;
    assert Inside(s, n, r);
    var c := s.conns[n];
    HeardKeys(t, s, n, r);
    forall i | i in c.heard ensures exists q <- c.heard[i] :: Within(q, x) {
      ChildDepth(t, n, i);
      var k := t.Across(n, i);
      SolutionsClimb(t, s, k, r, x);
      var y :| Within(y, x) && y in s.conns[k].forwarded;
      ChildOf(t, n, i);
      OfferHeard(t, s, k, r, Success(y));
    }
    SolvesExactlyWhen(c, x);
    var y :| Within(y, x) && Solves(c, y);
    SolvedIsForwarded(t, s, n, r, y);
  }

  lemma HeardKeys(t: Session, s: State, n: nat, r: nat)
    requires Settled(t, s) && n in t.hood && Inside(s, n, r)
    ensures s.conns[n].heard.Keys == t.hood[n].children && r in s.conns[n].locals
  {
    hide Session.Valid, Quiet, Ledger, Tidy;
    SettledOf(t, s);
    assert ConnOk(t, s, n);
  }

  lemma ChildOf(t: Session, n: nat, i: nat)
    requires t.Valid() && n in t.hood && i in t.hood[n].children
    ensures Endpoint(n, i) in t.g.peer && var k := t.Across(n, i);
      k in t.hood && k != t.root && Parent(t, k) == n && t.g.peer[Endpoint(k, t.hood[k].parent.value)] == Endpoint(n, i)
  {
    ChildDepth(t, n, i);
    var k := t.Across(n, i);
    RootHasNoParent(t, k);
    var f := t.g.peer[Endpoint(n, i)];
    assert f == Endpoint(k, f.index) && t.g.peer[f] == Endpoint(n, i);
  }

  // ---- the theorem ----

  /** The components of all connectors have submitted parts of `x`. */
  ghost predicate Agreed(t: Session, s: State, r: nat, x: Predicate) {
    s.conns.Keys == t.hood.Keys && forall n <- t.hood :: LocalSupport(s.conns[n], r, x)
  }

  lemma SettledDecided(t: Session, s: State, r: nat, x: Predicate)
    requires Settled(t, s) && AllEntered(t, s, r) && t.root in t.hood && (SomebodyFailed(t, s, r) || Agreed(t, s, r, x))
    ensures r in s.conns[t.root].results
  {
    hide Session.Valid, Settled, Inside, LocalSupport, Within;
    SettledOf(t, s);
    if r !in s.conns[t.root].results {
      UndecidedForAll(t, s, r);
      RootHasNoParent(t, t.root);
      RootIsTidy(t, s, r);
      if Agreed(t, s, r, x) {
        SolutionsClimb(t, s, t.root, r, x);
      } else {
        var m :| m in t.hood && (m, r) in s.failed;
        NobodyAsks(t, s, m, r);
        FailedAsks(t, s, m, r);
      }
    }
  }

  lemma FailedAsks(t: Session, s: State, m: nat, r: nat)
    requires Settled(t, s) && (m, r) in s.failed && Inside(s, m, r)
    ensures s.conns[m].asked
  {
    hide Session.Valid, Inv, Keeps, Ledger, Quiet, Tidy, SomebodyFailed;
    SettledOf(t, s);
    assert FailedOk(t, s, (m, r).0, (m, r).1);
  }

  lemma DecidedBecause(t: Session, s: State, n: nat, r: nat)
    requires Settled(t, s) && n in t.hood && n in s.conns && r in s.conns[n].results
    ensures SomebodyFailed(t, s, r) || (s.conns[n].results[r].Success? && Agreed(t, s, r, s.conns[n].results[r].pred))
  {
    hide Session.Valid, Inv, Keeps, Ledger, Quiet, Tidy, SomebodyFailed, FailedOk, LocalSupport;
    SettledOf(t, s);
    if s.conns[n].results[r] != Failure {
      forall m | m in t.hood ensures LocalSupport(s.conns[m], r, s.conns[n].results[r].pred) { SuccessSupported(t, s, n, r, m); }
    }
  }

  /** In every state of every run in which nothing is left to receive or to forward: a round that everybody has entered
      is decided by everybody if and only if somebody requested failure or the components agree on a solution, and
      otherwise by nobody. */
  lemma QuietMeansDecided(t: Session, run: seq<State>, k: nat, r: nat, n: nat)
    requires IsRun(t, run) && k < |run| && Shape(t, run[k]) && Quiet(t, run[k]) && AllEntered(t, run[k], r) && n in t.hood && t.root in t.hood
    ensures r in run[k].conns[n].results <==> SomebodyFailed(t, run[k], r) || exists x :: Agreed(t, run[k], r, x)
  {
    hide IsRun, Session.Valid, Dutiful, Ledger, Quiet, Tidy, SomebodyFailed, Agreed;
    RunDutiful(t, run, k);
    RunLedger(t, run, k);
    forall m | m in t.hood ensures Tidy(t.hood[m], run[k].conns[m]) { RunTidy(t, run, k, m); }
    var s := run[k];
    assert Settled(t, s);
    hide Settled;
    if r in s.conns[n].results { DecidedBecause(t, s, n, r); }
    if SomebodyFailed(t, s, r) || exists x :: Agreed(t, s, r, x) {
      var x :| SomebodyFailed(t, s, r) || Agreed(t, s, r, x);
      SettledDecided(t, s, r, x);
      SettledOf(t, s);
      RootDecidesForAll(t, s, n, r);
    }
  }
}
