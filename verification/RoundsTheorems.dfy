/** What every run over any number of rounds guarantees. */
module RoundsTheorems {
  import opened Network
  import opened Predicates
  import opened Solutions
  import opened Rounds
  import opened RoundsInvariant
  import opened RoundsSteps

  lemma Begins(t: Session, s: State, a: Action)
    requires Inv(t, s) && Enabled(t, s, a)
    ensures Actor(a) in t.hood && Became(t, s, Actor(a), Acts(t, s, a).conn, Next(t, s, a))
  {
    hide Session.Valid, Acts, Next, ConnOk, ResultOk, MsgOk, Waiting;
    NextShape(t, s, a);
    assert ConnOk(t, s, Actor(a));
  }

  lemma EnterEffect(t: Session, s: State, n: nat, parts: set<Id>, s': State)
    requires Shape(t, s) && n in t.hood && Became(t, s, n, Enter(t.hood[n], s.conns[n], parts), s') && !s.conns[n].syncing
    ensures EffectOk(t, s, n, Effect(Enter(t.hood[n], s.conns[n], parts), map[]), s')
  {
    hide Session.Valid, ChildSupports, BuffersOk, LocalsGrow;
    OwnBuffers(t, s, n, s'.conns[n]);
    var c := s.conns[n];
    assert c.round !in c.locals;
    EnterGrows(t.hood[n], c, parts);
  }

  lemma EnterGrows(hood: Neighborhood, c: Conn, parts: set<Id>)
    requires c.round !in c.locals
    ensures LocalsGrow(c, Enter(hood, c, parts))
  {
  }

  lemma SkipEffect(t: Session, s: State, n: nat, s': State)
    requires Shape(t, s) && n in t.hood && !s.conns[n].syncing
    requires Became(t, s, n, s.conns[n].(round := s.conns[n].round + 1), s')
    ensures EffectOk(t, s, n, Effect(s'.conns[n], map[]), s')
  {
    hide Session.Valid, HeardOk, BuffersOk, LocalsGrow;
    OwnBuffers(t, s, n, s'.conns[n]);
    SameLocals(s.conns[n], s'.conns[n]);
  }

  lemma SubmitEffect(t: Session, s: State, n: nat, part: Id, p: Predicate, s': State)
    requires Shape(t, s) && n in t.hood && s.conns[n].syncing
    requires s.conns[n].round in s.conns[n].locals && part in s.conns[n].locals[s.conns[n].round]
    requires Became(t, s, n, Submit(s.conns[n], part, p), s')
    ensures EffectOk(t, s, n, Effect(s'.conns[n], map[]), s')
  {
    hide Session.Valid, HeardOk, BuffersOk, LocalsGrow, Grows;
    OwnBuffers(t, s, n, s'.conns[n]);
    SubmitGrows(s.conns[n], part, p);
    RecordsGrow(t, s, n, s'.conns[n], s');
    HeardGrows(t, s, s', n);
  }

  lemma SubmitGrows(c: Conn, part: Id, p: Predicate)
    requires c.round in c.locals && part in c.locals[c.round]
    ensures LocalsGrow(c, Submit(c, part, p))
  {
  }

  lemma SendEffect(t: Session, s: State, n: nat, i: nat, pred: Predicate, bytes: seq<nat>, s': State)
    requires Shape(t, s) && n in t.hood && s.conns[n].syncing && Became(t, s, n, s.conns[n], s')
    ensures EffectOk(t, s, n, Effect(s.conns[n], map[i := CommMsg(s.conns[n].round, Payload(pred, bytes))]), s')
  {
    hide Session.Valid, HeardOk, BuffersOk, EffectOk;
    OwnBuffers(t, s, n, s.conns[n]);
    QuietEffect(t, s, n, Effect(s.conns[n], map[i := CommMsg(s.conns[n].round, Payload(pred, bytes))]), s');
  }

  lemma TakeEffect(t: Session, s: State, a: Action)
    requires Inv(t, s) && Enabled(t, s, a) && (a.Receiving? || a.Undelaying?)
    requires Became(t, s, Actor(a), Acts(t, s, a).conn, Next(t, s, a))
    ensures EffectOk(t, s, Actor(a), Acts(t, s, a), Next(t, s, a))
  {
    hide Session.Valid, Next, ConnOk, ResultOk, MsgOk, BuffersOk, EffectOk, Handle, Solves;
    var n := Actor(a);
    var c0 := s.conns[n];
    if a.Receiving? {
      OwnBuffers(t, s, n, c0);
      assert a.e == Endpoint(n, a.e.index) && Waiting(t, s, n, a.e.index, s.inbox[a.e][0]);
      HandleEffect(t, s, n, c0, a.e.index, s.inbox[a.e][0], Next(t, s, a));
    } else {
      var last := c0.undelayed[|c0.undelayed| - 1];
      var c := c0.(undelayed := c0.undelayed[..|c0.undelayed| - 1]);
      OwnBuffers(t, s, n, c);
      assert last in c0.undelayed && (last.0, last.1) == last;
      assert Waiting(t, s, n, last.0, last.1);
      HandleEffect(t, s, n, c, last.0, last.1, Next(t, s, a));
    }
  }

  lemma ActionEffect(t: Session, s: State, a: Action)
    requires Inv(t, s) && Enabled(t, s, a) && Became(t, s, Actor(a), Acts(t, s, a).conn, Next(t, s, a))
    ensures EffectOk(t, s, Actor(a), Acts(t, s, a), Next(t, s, a))
  {
    hide Session.Valid, Next, ConnOk, ResultOk, MsgOk, BuffersOk, EffectOk, Handle, Solves, Forward, RequestFailure, Enter, Submit, Became,
         Waiting;
    var n, s' := Actor(a), Next(t, s, a);
    match a
    case Entering(_, parts) => EnterEffect(t, s, n, parts, s');
    case Skipping(_) => BecameConn(t, s, n, Acts(t, s, a).conn, s'); SkipEffect(t, s, n, s');
    case Submitting(_, part, p) => BecameConn(t, s, n, Acts(t, s, a).conn, s'); SubmitEffect(t, s, n, part, p, s');
    case Forwarding(_, x) => ForwardEffect(t, s, n, x, s');
    case Sending(_, i, pred, bytes) => BecameConn(t, s, n, s.conns[n], s'); SendEffect(t, s, n, i, pred, bytes, s');
    case Failing(_) => OwnBuffers(t, s, n, s.conns[n]); FailureEffect(t, s, n, s.conns[n], s');
    case Undelaying(_) => TakeEffect(t, s, a);
    case Receiving(e) => TakeEffect(t, s, a);
  }

  lemma BecameConn(t: Session, s: State, n: nat, c: Conn, s': State)
    requires Became(t, s, n, c, s')
    ensures n in s'.conns && s'.conns[n] == c
  {
  }

  lemma ActionKeepsInv(t: Session, s: State, a: Action)
    requires Inv(t, s) && Enabled(t, s, a)
    ensures Inv(t, Next(t, s, a))
  {
    hide Inv, Enabled, Acts, Next, EffectOk, Became;
    Begins(t, s, a);
    ActionEffect(t, s, a);
    EffectKeepsInv(t, s, a);
  }

  lemma InitInv(t: Session, s: State)
    requires t.Valid() && Init(t, s)
    ensures Inv(t, s)
  {
  }

  ghost predicate Moves(t: Session, s: State, s': State) {
    Shape(t, s) && exists a | Enabled(t, s, a) :: s' == Next(t, s, a)
  }

  ghost predicate IsRun(t: Session, run: seq<State>) {
    && t.Valid() && |run| > 0 && Init(t, run[0])
    && forall k | 0 <= k < |run| - 1 :: Moves(t, run[k], run[k + 1])
  }

  lemma {:induction false} RunInv(t: Session, run: seq<State>, k: nat)
    requires IsRun(t, run) && k < |run|
    ensures Inv(t, run[k])
  {
    hide Inv, Enabled, Next, Init, Session.Valid;
    if k == 0 {
      InitInv(t, run[0]);
    } else {
      RunInv(t, run, k - 1);
      assert Moves(t, run[k - 1], run[k - 1 + 1]);
      var a :| Enabled(t, run[k - 1], a) && run[k] == Next(t, run[k - 1], a);
      ActionKeepsInv(t, run[k - 1], a);
    }
  }

  // ---- the theorems ----

  lemma {:induction false} ResultIsRoots(t: Session, s: State, n: nat, r: nat)
    requires Inv(t, s) && n in t.hood && r in s.conns[n].results
    ensures t.root in s.conns && r in s.conns[t.root].results && s.conns[t.root].results[r] == s.conns[n].results[r]
    decreases t.depth[n]
  {
    hide ConnOk, MsgOk, Waiting, Supported;
    assert ResultOk(t, s, n, r);
    if n != t.root {
      var e := Endpoint(n, t.hood[n].parent.value);
      var f := t.g.peer[e];
      assert f in t.g.peer && t.g.peer[f] == e;
      assert t.MirrorOk(f);
      ResultIsRoots(t, s, f.node, r);
    }
  }

  /** Any two connectors that complete a round with a decision have the same decision, the root's. */
  lemma SameDecision(t: Session, run: seq<State>, n: nat, m: nat, r: nat)
    requires IsRun(t, run) && n in t.hood && m in t.hood && Shape(t, run[|run| - 1])
    requires r in run[|run| - 1].conns[n].results && r in run[|run| - 1].conns[m].results
    ensures var s := run[|run| - 1];
      && s.conns[n].results[r] == s.conns[m].results[r]
      && r in s.conns[t.root].results && s.conns[t.root].results[r] == s.conns[n].results[r]
  {
    hide Inv, IsRun;
    assert |run| > 0 by { IsRunNonempty(t, run); }
    RunInv(t, run, |run| - 1);
    ResultIsRoots(t, run[|run| - 1], n, r);
    ResultIsRoots(t, run[|run| - 1], m, r);
  }

  lemma IsRunNonempty(t: Session, run: seq<State>)
    requires IsRun(t, run)
    ensures |run| > 0
  {
  }

  /** `n` lies in the subtree below `top`: whatever `top` supports is supported by `n`. */
  lemma {:induction false} SupportReaches(t: Session, s: State, n: nat, r: nat, p: Predicate)
    requires Shape(t, s) && n in t.hood && Supported(t, s, t.root, r, p)
    ensures Supported(t, s, n, r, p)
    decreases t.depth[n]
  {
    hide LocalSupport;
    assert t.HoodOk(n);
    if n != t.root {
      var e := Endpoint(n, t.hood[n].parent.value);
      var f := t.g.peer[e];
      assert f in t.g.peer && t.g.peer[f] == e;
      assert t.MirrorOk(f);
      SupportReaches(t, s, f.node, r, p);
      assert f == Endpoint(f.node, f.index);
      assert ChildSupports(t, s, f.node, f.index, r, p);
    }
  }

  lemma SuccessSupported(t: Session, s: State, n: nat, r: nat, m: nat)
    requires Inv(t, s) && n in t.hood && m in t.hood && r in s.conns[n].results && s.conns[n].results[r].Success?
    ensures LocalSupport(s.conns[m], r, s.conns[n].results[r].pred)
  {
    hide LocalSupport, MsgOk, ConnOk, Waiting, ResultOk, Supported;
    var p := s.conns[n].results[r].pred;
    ResultIsRoots(t, s, n, r);
    RootSupports(t, s, r);
    SupportReaches(t, s, m, r, p);
    SupportedHere(t, s, m, r, p);
  }

  lemma SupportedHere(t: Session, s: State, n: nat, r: nat, p: Predicate)
    requires Shape(t, s) && n in t.hood && Supported(t, s, n, r, p)
    ensures LocalSupport(s.conns[n], r, p)
  {
  }

  lemma RootSupports(t: Session, s: State, r: nat)
    requires Inv(t, s) && t.root in t.hood && r in s.conns[t.root].results && s.conns[t.root].results[r].Success?
    ensures Supported(t, s, t.root, r, s.conns[t.root].results[r].pred)
  {
    hide Supported, MsgOk, ConnOk, Waiting, Session.Valid;
    assert ResultOk(t, s, t.root, r);
  }

  /** A successful decision contains a solution of every component of every connector in that round. */
  lemma SuccessIsSupported(t: Session, run: seq<State>, n: nat, r: nat, m: nat)
    requires IsRun(t, run) && n in t.hood && m in t.hood && Shape(t, run[|run| - 1])
    requires r in run[|run| - 1].conns[n].results && run[|run| - 1].conns[n].results[r].Success?
    ensures LocalSupport(run[|run| - 1].conns[m], r, run[|run| - 1].conns[n].results[r].pred)
  {
    hide IsRun, LocalSupport, Inv, Session.Valid;
    IsRunNonempty(t, run);
    RunInv(t, run, |run| - 1);
    SuccessSupported(t, run[|run| - 1], n, r, m);
  }

  /** `n` has not entered round `r` yet. */
  ghost predicate NotYet(c: Conn, r: nat) {
    c.round < r || (c.round == r && !c.syncing)
  }

  /** An announcement that reaches a connector before it entered that round is always a failure. */
  lemma EarlyAnnouncementIsFailure(t: Session, run: seq<State>, n: nat, i: nat, r: nat, d: Decision)
    requires IsRun(t, run) && n in t.hood && Shape(t, run[|run| - 1])
    requires Waiting(t, run[|run| - 1], n, i, CommMsg(r, Announce(d))) && NotYet(run[|run| - 1].conns[n], r)
    ensures d == Failure
  {
    hide IsRun, Waiting, Inv, Session.Valid, NotYet;
    IsRunNonempty(t, run);
    RunInv(t, run, |run| - 1);
    EarlyIsFailure(t, run[|run| - 1], n, i, r, d);
  }

  lemma EarlyIsFailure(t: Session, s: State, n: nat, i: nat, r: nat, d: Decision)
    requires Inv(t, s) && n in t.hood && Waiting(t, s, n, i, CommMsg(r, Announce(d))) && NotYet(s.conns[n], r)
    ensures d == Failure
  {
    hide Waiting, Session.Valid, ResultOk, HeardOk, Supported;
    assert MsgOk(t, s, n, i, CommMsg(r, Announce(d)));
    assert ConnOk(t, s, n);
    hide Inv;
    if d.Success? { SuccessSupported(t, s, t.Across(n, i), r, n); }
  }

  lemma HandleAdvances(hood: Neighborhood, c: Conn, index: nat, m: CommMsg, r: nat)
    requires c.syncing && NotYet(Handle(hood, c, index, m).conn, r)
    ensures NotYet(c, r)
  {
  }

  lemma OwnTurnAdvances(t: Session, s: State, a: Action, r: nat)
    requires Shape(t, s) && Enabled(t, s, a) && Actor(a) in t.hood && NotYet(Acts(t, s, a).conn, r)
    ensures NotYet(s.conns[Actor(a)], r)
  {
    hide Session.Valid, Solves, Handle;
    var c0 := s.conns[Actor(a)];
    if a.Receiving? {
      HandleAdvances(t.hood[Actor(a)], c0, a.e.index, s.inbox[a.e][0], r);
    } else if a.Undelaying? {
      var last := c0.undelayed[|c0.undelayed| - 1];
      HandleAdvances(t.hood[Actor(a)], c0.(undelayed := c0.undelayed[..|c0.undelayed| - 1]), last.0, last.1, r);
    }
  }

  /** Rounds only advance. */
  lemma NotYetBefore(t: Session, s: State, a: Action, n: nat, r: nat)
    requires Shape(t, s) && Enabled(t, s, a) && Shape(t, Next(t, s, a)) && n in t.hood && NotYet(Next(t, s, a).conns[n], r)
    ensures NotYet(s.conns[n], r)
  {
    hide Session.Valid, Acts, Next, Enabled, NotYet;
    NextShape(t, s, a);
    if n == Actor(a) { OwnTurnAdvances(t, s, a, r); }
  }
}
