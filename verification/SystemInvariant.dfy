/** What every step of the runtime keeps. */
module SystemInvariant {
  import opened Network
  import opened Predicates
  import opened Components
  import opened Ports
  import opened System
  import R = Rounds
  import RI = RoundsInvariant
  import RS = RoundsSteps
  import RT = RoundsTheorems
  import L = RoundsLedger
  import N = Native
  import PR = ProtoRuns

  /** The components of a connector are those its round began with, and all that reached the storage is theirs. */
  ghost predicate MatchesAt(s: Sys, n: nat, r: nat)
    requires n in s.net.conns && r in s.net.conns[n].locals
  {
    var locals := s.net.conns[n].locals[r];
    && (n, r) in s.comps && s.comps[(n, r)].Keys == locals.Keys
    && forall part <- locals :: locals[part] <= s.comps[(n, r)][part].Submitted()
  }

  ghost predicate Matches(s: Sys) {
    && (forall n <- s.net.conns, r <- s.net.conns[n].locals :: MatchesAt(s, n, r))
    && (forall k <- s.comps :: k.0 in s.net.conns && k.1 in s.net.conns[k.0].locals)
  }

  ghost predicate CompsOk(w: World, s: Sys) {
    forall n, r, part | Has(s, n, r, part) :: Ok(s.comps[(n, r)][part]) && Fits(w, n, r, part, s.comps[(n, r)][part])
  }

  /** Component `part` of connector `n` put the payload on a port whose channel leads to `q`. */
  ghost predicate PutBy(w: World, s: Sys, n: nat, r: nat, part: Id, q: Id, pred: Predicate, bytes: seq<nat>) {
    && Has(s, n, r, part)
    && exists p :: (p, pred, bytes) in s.comps[(n, r)][part].Outgoing() && p in w.ports(n, r) && w.ports(n, r)[p].peer == Some(q)
  }

  /** Some component of connector `n` did. */
  ghost predicate Origin(w: World, s: Sys, n: nat, r: nat, q: Id, pred: Predicate, bytes: seq<nat>) {
    exists part :: PutBy(w, s, n, r, part, q, pred, bytes)
  }

  /** Every payload that was ever sent over a link was put by a component of the sender, in that round, on the
      channel that ends in the port at this link end. */
  ghost predicate LinksOk(w: World, s: Sys) {
    forall e, m | e in s.net.sent && m in s.net.sent[e] && m.contents.Payload? && e in w.linkPort && e in w.t.g.peer ::
      Origin(w, s, w.t.g.peer[e].node, m.round, w.linkPort[e], m.contents.pred, m.contents.bytes)
  }

  ghost predicate CameFrom(w: World, s: Sys, r: nat, x: N.Message) {
    exists n :: Origin(w, s, n, r, x.getter, x.pred, x.payload)
  }

  /** Every message that a component was fed was put by a component in that round, on the channel of that getter. */
  ghost predicate LogsOk(w: World, s: Sys) {
    forall n, r, part, x | Has(s, n, r, part) && x in s.comps[(n, r)][part].Log() :: CameFrom(w, s, r, x)
  }

  ghost predicate Inv(w: World, s: Sys) {
    && WorldOk(w) && RI.Inv(w.t, s.net) && L.Ledger(w.t, s.net)
    && Matches(s) && CompsOk(w, s) && LinksOk(w, s) && LogsOk(w, s)
  }

  // ---- growth ----

  /** Components stay, and neither their puts nor their solutions are taken back. */
  ghost predicate Grows(s: Sys, s': Sys) {
    forall n, r, part | Has(s, n, r, part) ::
      && Has(s', n, r, part)
      && s.comps[(n, r)][part].Outgoing() <= s'.comps[(n, r)][part].Outgoing()
  }

  lemma PutByGrows(w: World, s: Sys, s': Sys, n: nat, r: nat, part: Id, q: Id, pred: Predicate, bytes: seq<nat>)
    requires Grows(s, s') && PutBy(w, s, n, r, part, q, pred, bytes)
    ensures PutBy(w, s', n, r, part, q, pred, bytes)
  {
    var p :| (p, pred, bytes) in s.comps[(n, r)][part].Outgoing() && p in w.ports(n, r) && w.ports(n, r)[p].peer == Some(q);
    assert (p, pred, bytes) in s'.comps[(n, r)][part].Outgoing();
  }

  lemma OriginGrows(w: World, s: Sys, s': Sys, n: nat, r: nat, q: Id, pred: Predicate, bytes: seq<nat>)
    requires Grows(s, s') && Origin(w, s, n, r, q, pred, bytes)
    ensures Origin(w, s', n, r, q, pred, bytes)
  {
    hide PutBy, Grows;
    var part :| PutBy(w, s, n, r, part, q, pred, bytes);
    PutByGrows(w, s, s', n, r, part, q, pred, bytes);
  }

  lemma CameFromGrows(w: World, s: Sys, s': Sys, r: nat, x: N.Message)
    requires Grows(s, s') && CameFrom(w, s, r, x)
    ensures CameFrom(w, s', r, x)
  {
    hide Origin, Grows;
    var n :| Origin(w, s, n, r, x.getter, x.pred, x.payload);
    OriginGrows(w, s, s', n, r, x.getter, x.pred, x.payload);
  }

  // ---- steps of the connectors and links ----

  lemma SameCompsGrow(s: Sys, s': Sys)
    requires s'.comps == s.comps
    ensures Grows(s, s')
  {
  }

  /** Whatever is newly on a link has an origin. */
  ghost predicate NewSendsOk(w: World, s: Sys, s': Sys) {
    forall e, m | e in s'.net.sent && m in s'.net.sent[e] && !(e in s.net.sent && m in s.net.sent[e]) && m.contents.Payload?
      && e in w.linkPort && e in w.t.g.peer ::
      Origin(w, s', w.t.g.peer[e].node, m.round, w.linkPort[e], m.contents.pred, m.contents.bytes)
  }

  lemma LinksNext(w: World, s: Sys, s': Sys)
    requires LinksOk(w, s) && Grows(s, s') && NewSendsOk(w, s, s')
    ensures LinksOk(w, s')
  {
    hide Origin, Grows;
    forall e, m | e in s'.net.sent && m in s'.net.sent[e] && m.contents.Payload? && e in w.linkPort && e in w.t.g.peer
      ensures Origin(w, s', w.t.g.peer[e].node, m.round, w.linkPort[e], m.contents.pred, m.contents.bytes)
    {
      if e in s.net.sent && m in s.net.sent[e] {
        OriginGrows(w, s, s', w.t.g.peer[e].node, m.round, w.linkPort[e], m.contents.pred, m.contents.bytes);
      }
    }
  }

  lemma LogsSame(w: World, s: Sys, s': Sys)
    requires LogsOk(w, s) && s'.comps == s.comps
    ensures LogsOk(w, s')
  {
    hide CameFrom;
    SameCompsGrow(s, s');
    hide Grows;
    forall n, r, part, x | Has(s', n, r, part) && x in s'.comps[(n, r)][part].Log() ensures CameFrom(w, s', r, x) {
      CameFromGrows(w, s, s', r, x);
    }
  }

  /** The only new message on a link is what the acting connector sends over it. */
  lemma NewOnLink(t: R.Session, s: R.State, a: R.Action, e: Endpoint, m: R.CommMsg)
    requires R.Shape(t, s) && R.Enabled(t, s, a) && e in t.g.peer && R.Shape(t, R.Next(t, s, a))
    requires m in R.Next(t, s, a).sent[e] && m !in s.sent[e]
    ensures t.g.peer[e].node == R.Actor(a) && t.g.peer[e].index in R.Acts(t, s, a).sends
    ensures m == R.Acts(t, s, a).sends[t.g.peer[e].index]
  {
    hide R.Session.Valid, R.Acts, R.Next, R.Enabled;
    RS.NextSent(t, s, a, e);
  }

  /** Only `Sending` sends payloads. */
  lemma NoPayloads(t: R.Session, s: R.State, a: R.Action, k: nat)
    requires R.Shape(t, s) && R.Enabled(t, s, a) && k in R.Acts(t, s, a).sends
    ensures a.Sending? || !R.Acts(t, s, a).sends[k].contents.Payload?
  {
    hide R.Session.Valid, R.Solves;
  }

  /** What connectors record about their components. */
  lemma LocalsNext(t: R.Session, s: R.State, a: R.Action, n: nat)
    requires R.Shape(t, s) && R.Enabled(t, s, a) && n in t.hood && R.Shape(t, R.Next(t, s, a))
    requires !a.Entering? && !a.Submitting?
    ensures R.Next(t, s, a).conns[n].locals == s.conns[n].locals
  {
    hide R.Session.Valid, R.Acts, R.Next, R.Enabled;
    RS.NextShape(t, s, a);
    if n == R.Actor(a) { OwnLocals(t, s, a); }
  }

  lemma OwnLocals(t: R.Session, s: R.State, a: R.Action)
    requires R.Shape(t, s) && R.Enabled(t, s, a) && R.Actor(a) in t.hood && !a.Entering? && !a.Submitting?
    ensures R.Acts(t, s, a).conn.locals == s.conns[R.Actor(a)].locals
  {
    hide R.Session.Valid, R.Solves, R.Handle, R.RequestFailure, R.Forward;
    var hood, c := t.hood[R.Actor(a)], s.conns[R.Actor(a)];
    match a
    case Skipping(_) =>
    case Forwarding(_, x) => ForwardLocals(hood, c, x);
    case Sending(_, _, _, _) =>
    case Failing(_) => FailureLocals(hood, c);
    case Undelaying(_) =>
      var (index, m) := c.undelayed[|c.undelayed| - 1];
      HandleLocals(hood, c.(undelayed := c.undelayed[..|c.undelayed| - 1]), index, m);
    case Receiving(e) => HandleLocals(hood, c, e.index, s.inbox[e][0]);
  }

  lemma FailureLocals(hood: R.Neighborhood, c: R.Conn)
    ensures R.RequestFailure(hood, c).conn.locals == c.locals
  {
  }

  lemma ForwardLocals(hood: R.Neighborhood, c: R.Conn, x: Predicate)
    ensures R.Forward(hood, c, x).conn.locals == c.locals
  {
  }

  lemma HandleLocals(hood: R.Neighborhood, c: R.Conn, i: nat, m: R.CommMsg)
    ensures R.Handle(hood, c, i, m).conn.locals == c.locals
  {
    hide R.RequestFailure;
    FailureLocals(hood, c);
  }

  /** The connectors and links after an action keep their own invariants. */
  lemma NetNext(t: R.Session, s: R.State, a: R.Action)
    requires RI.Inv(t, s) && L.Ledger(t, s) && R.Shape(t, s) && R.Enabled(t, s, a)
    ensures RI.Inv(t, R.Next(t, s, a)) && L.Ledger(t, R.Next(t, s, a)) && R.Shape(t, R.Next(t, s, a))
    ensures R.Next(t, s, a).conns.Keys == s.conns.Keys
  {
    hide RI.Inv, L.Ledger, R.Enabled, R.Next, R.Session.Valid;
    RT.ActionKeepsInv(t, s, a);
    L.LedgerNext(t, s, a);
    L.InvShaped(t, R.Next(t, s, a));
  }

  lemma QuietLinks(w: World, s: Sys, a: R.Action, s': Sys)
    requires R.Shape(w.t, s.net) && R.Enabled(w.t, s.net, a) && s'.net == R.Next(w.t, s.net, a) && R.Shape(w.t, s'.net) && !a.Sending?
    ensures NewSendsOk(w, s, s')
  {
    hide R.Session.Valid, R.Acts, R.Next, R.Enabled, Origin;
    forall e, m | e in s'.net.sent && m in s'.net.sent[e] && !(e in s.net.sent && m in s.net.sent[e])
      ensures !m.contents.Payload?
    {
      NewOnLink(w.t, s.net, a, e, m);
      NoPayloads(w.t, s.net, a, w.t.g.peer[e].index);
    }
  }

  lemma NetKeeps(w: World, s: Sys, b: R.Action)
    requires Inv(w, s) && R.Shape(w.t, s.net) && Enabled(w, s, Action.Net(b))
    ensures Inv(w, Next(w, s, Action.Net(b)))
  {
    hide WorldOk, RI.Inv, L.Ledger, R.Enabled, R.Next, R.Session.Valid, LinksOk, LogsOk, NewSendsOk, Grows, Ok, Fits;
    var s' := Next(w, s, Action.Net(b));
    NetNext(w.t, s.net, b);
    QuietLinks(w, s, b, s');
    SameCompsGrow(s, s');
    LinksNext(w, s, s');
    LogsSame(w, s, s');
    forall n | n in s'.net.conns ensures s'.net.conns[n].locals == s.net.conns[n].locals { LocalsNext(w.t, s.net, b, n); }
    MatchesSame(s, s');
    hide Matches;
    CompsSame(w, s, s');
  }

  lemma CompsSame(w: World, s: Sys, s': Sys)
    requires CompsOk(w, s) && s'.comps == s.comps
    ensures CompsOk(w, s')
  {
    hide Ok, Fits;
  }

  lemma MatchesSame(s: Sys, s': Sys)
    requires Matches(s) && s'.comps == s.comps && s'.net.conns.Keys == s.net.conns.Keys
    requires forall n <- s'.net.conns :: s'.net.conns[n].locals == s.net.conns[n].locals
    ensures Matches(s')
  {
    forall n, r | n in s'.net.conns && r in s'.net.conns[n].locals ensures MatchesAt(s', n, r) { assert MatchesAt(s, n, r); }
  }

  // ---- submitting and sending ----

  lemma SubmitLocals(t: R.Session, s: R.State, n: nat, part: Id, p: Predicate, m: nat)
    requires R.Shape(t, s) && R.Enabled(t, s, R.Submitting(n, part, p)) && m in t.hood && R.Shape(t, R.Next(t, s, R.Submitting(n, part, p)))
    ensures R.Next(t, s, R.Submitting(n, part, p)).conns[m].locals ==
      if m == n then R.Submit(s.conns[n], part, p).locals else s.conns[m].locals
  {
    hide R.Session.Valid, R.Next, R.Solves;
    RS.NextShape(t, s, R.Submitting(n, part, p));
  }

  lemma SubmitMatches(s: Sys, s': Sys, n: nat, part: Id, p: Predicate)
    requires Matches(s) && s'.comps == s.comps && s'.net.conns.Keys == s.net.conns.Keys && n in s.net.conns
    requires s.net.conns[n].round in s.net.conns[n].locals && part in s.net.conns[n].locals[s.net.conns[n].round]
    requires Has(s, n, s.net.conns[n].round, part) && p in s.comps[(n, s.net.conns[n].round)][part].Submitted()
    requires forall m <- s'.net.conns ::
      s'.net.conns[m].locals == if m == n then R.Submit(s.net.conns[n], part, p).locals else s.net.conns[m].locals
    ensures Matches(s')
  {
    hide Component.Submitted, MatchesAt;
    forall m, r | m in s'.net.conns && r in s'.net.conns[m].locals ensures MatchesAt(s', m, r) {
      assert r in s.net.conns[m].locals && MatchesAt(s, m, r);
      if (m, r) == (n, s.net.conns[n].round) {
        SubmittedAt(s, s', n, part, p);
      } else {
        HasComps(s, m, r);
        SameAt(s, s', m, r);
      }
    }
  }

  lemma HasComps(s: Sys, n: nat, r: nat)
    requires n in s.net.conns && r in s.net.conns[n].locals && MatchesAt(s, n, r)
    ensures (n, r) in s.comps
  {
  }

  lemma SubmittedAt(s: Sys, s': Sys, n: nat, part: Id, p: Predicate)
    requires n in s.net.conns && n in s'.net.conns && s'.comps == s.comps
    requires var r := s.net.conns[n].round;
      && r in s.net.conns[n].locals && part in s.net.conns[n].locals[r] && MatchesAt(s, n, r)
      && s'.net.conns[n].locals == R.Submit(s.net.conns[n], part, p).locals
      && Has(s, n, r, part) && p in s.comps[(n, r)][part].Submitted()
    ensures MatchesAt(s', n, s.net.conns[n].round)
  {
    hide Component.Submitted;
  }

  lemma SubmitKeeps(w: World, s: Sys, n: nat, part: Id, p: Predicate)
    requires Inv(w, s) && R.Shape(w.t, s.net) && Enabled(w, s, Submit(n, part, p))
    ensures Inv(w, Next(w, s, Submit(n, part, p)))
  {
    hide WorldOk, RI.Inv, L.Ledger, R.Next, R.Session.Valid, LinksOk, LogsOk, NewSendsOk, Grows, Matches, CompsOk, R.Solves;
    var b := R.Submitting(n, part, p);
    assert s.net.conns[n].round in s.net.conns[n].locals && part in s.net.conns[n].locals[s.net.conns[n].round];
    hide R.Enabled;
    var s' := Next(w, s, Submit(n, part, p));
    NetNext(w.t, s.net, b);
    QuietLinks(w, s, b, s');
    SameCompsGrow(s, s');
    LinksNext(w, s, s');
    LogsSame(w, s, s');
    CompsSame(w, s, s');
    forall m | m in s'.net.conns { SubmitLocals(w.t, s.net, n, part, p, m); }
    SubmitMatches(s, s', n, part, p);
  }

  lemma SendOrigin(w: World, s: Sys, s': Sys, n: nat, part: Id, o: (Id, Predicate, seq<nat>), i: nat, q: Id)
    requires R.Shape(w.t, s.net) && R.Enabled(w.t, s.net, R.Sending(n, i, o.1, o.2)) && R.Shape(w.t, s'.net) && n in s.net.conns
    requires s'.net == R.Next(w.t, s.net, R.Sending(n, i, o.1, o.2)) && s'.comps == s.comps
    requires Has(s, n, s.net.conns[n].round, part) && o in s.comps[(n, s.net.conns[n].round)][part].Outgoing()
    requires GoesTo(w.ports(n, s.net.conns[n].round), o.0, q, Route.Net(i)) && AcrossLink(w, n, q, i)
    ensures NewSendsOk(w, s, s')
  {
    hide R.Acts, R.Next, R.Enabled, R.Session.Valid, Origin, GoesTo;
    var r := s.net.conns[n].round;
    SendPutBy(w, s', n, r, part, o, q, i);
    forall e, m | e in s'.net.sent && m in s'.net.sent[e] && !(e in s.net.sent && m in s.net.sent[e]) && e in w.linkPort && e in w.t.g.peer
      ensures w.t.g.peer[e].node == n && m.round == r && w.linkPort[e] == q && m.contents == R.Payload(o.1, o.2)
    {
      NewOnLink(w.t, s.net, R.Sending(n, i, o.1, o.2), e, m);
      SentIs(w.t, s.net, n, i, o.1, o.2);
      OtherEnd(w.t, e);
      assert w.t.g.peer[e] == Endpoint(n, i);
    }
  }

  lemma SentIs(t: R.Session, s: R.State, n: nat, i: nat, pred: Predicate, bytes: seq<nat>)
    requires R.Shape(t, s) && R.Enabled(t, s, R.Sending(n, i, pred, bytes))
    ensures n in s.conns && R.Acts(t, s, R.Sending(n, i, pred, bytes)).sends == map[i := R.CommMsg(s.conns[n].round, R.Payload(pred, bytes))]
  {
    hide R.Session.Valid;
  }

  lemma SendPutBy(w: World, s: Sys, n: nat, r: nat, part: Id, o: (Id, Predicate, seq<nat>), q: Id, i: nat)
    requires Has(s, n, r, part) && o in s.comps[(n, r)][part].Outgoing() && GoesTo(w.ports(n, r), o.0, q, Route.Net(i))
    ensures Origin(w, s, n, r, q, o.1, o.2)
  {
    assert (o.0, o.1, o.2) == o;
    assert PutBy(w, s, n, r, part, q, o.1, o.2);
  }

  lemma OtherEnd(t: R.Session, e: Endpoint)
    requires t.Valid() && e in t.g.peer
    ensures t.g.peer[e] in t.g.peer && t.g.peer[t.g.peer[e]] == e
  {
  }

  lemma SendKeeps(w: World, s: Sys, n: nat, part: Id, o: (Id, Predicate, seq<nat>), i: nat)
    requires Inv(w, s) && R.Shape(w.t, s.net) && Enabled(w, s, Send(n, part, o, i))
    ensures Inv(w, Next(w, s, Send(n, part, o, i)))
  {
    hide WorldOk, RI.Inv, L.Ledger, R.Next, R.Session.Valid, LinksOk, LogsOk, NewSendsOk, Grows, Matches, CompsOk, R.Solves;
    assert n in s.net.conns;
    hide R.Enabled;
    var b, s' := R.Sending(n, i, o.1, o.2), Next(w, s, Send(n, part, o, i));
    var q :| GoesTo(w.ports(n, s.net.conns[n].round), o.0, q, Route.Net(i));
    NetNext(w.t, s.net, b);
    RoutedAcross(w, n, s.net.conns[n].round, q, i);
    SendOrigin(w, s, s', n, part, o, i, q);
    SameCompsGrow(s, s');
    LinksNext(w, s, s');
    LogsSame(w, s, s');
    CompsSame(w, s, s');
    forall m | m in s'.net.conns ensures s'.net.conns[m].locals == s.net.conns[m].locals { LocalsNext(w.t, s.net, b, m); }
    MatchesSame(s, s');
  }

  lemma RoutedAcross(w: World, n: nat, r: nat, q: Id, i: nat)
    requires WorldOk(w) && q in w.ports(n, r) && w.ports(n, r)[q].route == Route.Net(i)
    ensures AcrossLink(w, n, q, i)
  {
    assert TableOk(w, n, w.ports(n, r));
  }

  // ---- entering a round ----

  lemma EnterLocals(t: R.Session, s: R.State, n: nat, parts: set<Id>, m: nat)
    requires RI.Inv(t, s) && R.Shape(t, s) && R.Enabled(t, s, R.Entering(n, parts)) && m in t.hood && R.Shape(t, R.Next(t, s, R.Entering(n, parts)))
    ensures n in s.conns
    ensures R.Next(t, s, R.Entering(n, parts)).conns[m].locals ==
      if m == n then s.conns[n].locals[s.conns[n].round := map p | p in parts :: {}] else s.conns[m].locals
  {
    hide R.Session.Valid, R.Next, RI.ResultOk, RI.MsgOk, RI.HeardOk;
    RS.NextShape(t, s, R.Entering(n, parts));
  }

  lemma EnterFresh(t: R.Session, s: R.State, n: nat, parts: set<Id>)
    requires RI.Inv(t, s) && R.Shape(t, s) && R.Enabled(t, s, R.Entering(n, parts))
    ensures n in s.conns && s.conns[n].round !in s.conns[n].locals
  {
    hide R.Session.Valid, RI.ResultOk, RI.MsgOk, RI.HeardOk;
    assert RI.ConnOk(t, s, n);
  }

  /** A connector's components for a round it has not entered before. */
  lemma EnterMatches(s: Sys, s': Sys, n: nat, parts: map<Id, Component>)
    requires Matches(s) && n in s.net.conns && s'.net.conns.Keys == s.net.conns.Keys
    requires var r := s.net.conns[n].round;
      && r !in s.net.conns[n].locals && s'.comps == s.comps[(n, r) := parts]
      && forall m <- s'.net.conns ::
           s'.net.conns[m].locals == if m == n then s.net.conns[n].locals[r := map p | p in parts.Keys :: {}] else s.net.conns[m].locals
    ensures Matches(s')
  {
    hide Component.Submitted, MatchesAt;
    forall m, r | m in s'.net.conns && r in s'.net.conns[m].locals ensures MatchesAt(s', m, r) {
      if (m, r) == (n, s.net.conns[n].round) {
        NothingSubmitted(s', n, r, parts);
      } else {
        assert r in s.net.conns[m].locals && MatchesAt(s, m, r);
        HasComps(s, m, r);
        SameAt(s, s', m, r);
      }
    }
  }

  lemma NothingSubmitted(s: Sys, n: nat, r: nat, parts: map<Id, Component>)
    requires n in s.net.conns && r in s.net.conns[n].locals && s.net.conns[n].locals[r] == map p | p in parts.Keys :: {}
    requires (n, r) in s.comps && s.comps[(n, r)] == parts
    ensures MatchesAt(s, n, r)
  {
  }

  lemma SameAt(s: Sys, s': Sys, n: nat, r: nat)
    requires n in s.net.conns && r in s.net.conns[n].locals && MatchesAt(s, n, r)
    requires n in s'.net.conns && r in s'.net.conns[n].locals && s'.net.conns[n].locals[r] == s.net.conns[n].locals[r]
    requires (n, r) in s'.comps && s'.comps[(n, r)] == s.comps[(n, r)]
    ensures MatchesAt(s', n, r)
  {
  }

  lemma EnterComps(w: World, s: Sys, s': Sys, n: nat, r: nat, parts: map<Id, Component>)
    requires CompsOk(w, s) && LogsOk(w, s) && (n, r) !in s.comps && s'.comps == s.comps[(n, r) := parts]
    requires forall part <- parts :: Starts(parts[part]) && Fits(w, n, r, part, parts[part])
    ensures CompsOk(w, s') && LogsOk(w, s') && Grows(s, s')
  {
    hide Ok, Fits, CameFrom, Starts, Component.Log, Component.Outgoing;
    assert Grows(s, s');
    hide Grows;
    forall m: nat, q: nat, part | Has(s', m, q, part)
      ensures Ok(s'.comps[(m, q)][part]) && Fits(w, m, q, part, s'.comps[(m, q)][part])
      ensures forall x <- s'.comps[(m, q)][part].Log() :: CameFrom(w, s', q, x)
    {
      if (m, q) == (n, r) {
        StartsOk(parts[part]);
      } else {
        assert Has(s, m, q, part);
        forall x | x in s'.comps[(m, q)][part].Log() ensures CameFrom(w, s', q, x) { CameFromGrows(w, s, s', q, x); }
      }
    }
  }

  lemma NotEntered(s: Sys, n: nat, r: nat)
    requires Matches(s) && n in s.net.conns && r !in s.net.conns[n].locals
    ensures (n, r) !in s.comps
  {
  }

  lemma EnterKeeps(w: World, s: Sys, n: nat, parts: map<Id, Component>)
    requires Inv(w, s) && R.Shape(w.t, s.net) && Enabled(w, s, Enter(n, parts))
    ensures Inv(w, Next(w, s, Enter(n, parts)))
  {
    hide WorldOk, RI.Inv, L.Ledger, R.Enabled, R.Next, R.Session.Valid, LinksOk, LogsOk, NewSendsOk, Grows, Matches, CompsOk, Starts, Fits;
    var b, s' := R.Entering(n, parts.Keys), Next(w, s, Enter(n, parts));
    NetNext(w.t, s.net, b);
    EnterFresh(w.t, s.net, n, parts.Keys);
    NotEntered(s, n, s.net.conns[n].round);
    EnterComps(w, s, s', n, s.net.conns[n].round, parts);
    QuietLinks(w, s, b, s');
    LinksNext(w, s, s');
    forall m | m in s'.net.conns { EnterLocals(w.t, s.net, n, parts.Keys, m); }
    EnterMatches(s, s', n, parts);
  }

  // ---- feeding ----

  /** What leads to a getter was put on the channel's putter, under the assumption that the channel fires. */
  lemma PutByFires(w: World, s: Sys, n: nat, r: nat, part: Id, q: Id, pred: Predicate, bytes: seq<nat>)
    requires CompsOk(w, s) && PutBy(w, s, n, r, part, q, pred, bytes) && PeersOk(w.ports(n, r))
    ensures q in w.ports(n, r) && w.ports(n, r)[q].polarity == Getter && q in pred && pred[q] == FIRING
  {
    hide Ok, PeersOk;
    var c := s.comps[(n, r)][part];
    var p :| (p, pred, bytes) in c.Outgoing() && p in w.ports(n, r) && w.ports(n, r)[p].peer == Some(q);
    assert Fits(w, n, r, part, c);
    hide PR.PutsOwn;
    SendsOk(c, w.channels, (p, pred, bytes));
    PeerIsGetter(w.ports(n, r), p, q);
  }

  lemma PeerIsGetter(ports: PortMap, p: Id, q: Id)
    requires PeersOk(ports) && p in ports && ports[p].peer == Some(q) && ports[p].polarity == Putter
    ensures q in ports && ports[q].polarity == Getter
  {
    assert PeerOk(ports, p);
  }

  /** A message that reaches the owner of its getter is labelled. */
  lemma ArrivesLabelled(w: World, s: Sys, n: nat, r: nat, part: Id, m: N.Message)
    requires WorldOk(w) && CompsOk(w, s) && Has(s, n, r, part) && CameFrom(w, s, r, m)
    requires m.getter in w.ports(n, r) && w.ports(n, r)[m.getter].owner == part
    ensures Labelled(s.comps[(n, r)][part], m)
  {
    hide CompsOk, WorldOk, PutBy, Labelled, TableOk;
    var n' :| Origin(w, s, n', r, m.getter, m.pred, m.payload);
    var part' :| PutBy(w, s, n', r, part', m.getter, m.pred, m.payload);
    TablesOk(w, n', r, n);
    TablePeers(w, n', w.ports(n', r));
    PutByFires(w, s, n', r, part', m.getter, m.pred, m.payload);
    GetterLabelled(w, s, n, r, part, m);
  }

  lemma GetterLabelled(w: World, s: Sys, n: nat, r: nat, part: Id, m: N.Message)
    requires CompsOk(w, s) && Has(s, n, r, part) && m.getter in w.ports(n, r) && w.ports(n, r)[m.getter].owner == part
    requires w.ports(n, r)[m.getter].polarity == Getter && m.getter in m.pred && m.pred[m.getter] == FIRING
    ensures Labelled(s.comps[(n, r)][part], m)
  {
    hide Ok;
    var c := s.comps[(n, r)][part];
    assert Fits(w, n, r, part, c);
    hide PR.PutsOwn, KnowsChannels;
    OwnedHasVar(c, m.getter);
  }

  lemma TablePeers(w: World, n: nat, ports: PortMap)
    requires TableOk(w, n, ports)
    ensures PeersOk(ports) && AllPaired(ports)
  {
    hide PeersOk, AllPaired, AcrossLink;
  }

  /** The port tables, of which the channel's ends speak. */
  lemma TablesOk(w: World, n: nat, r: nat, m: nat)
    requires WorldOk(w)
    ensures TableOk(w, n, w.ports(n, r)) && TablesAgree(w.ports(n, r), w.ports(m, r))
  {
    hide TableOk, TablesAgree, R.Session.Valid;
  }

  /** What a component put on a port that it owns is binary. */
  lemma OriginBinary(w: World, s: Sys, n: nat, r: nat, q: Id, pred: Predicate, bytes: seq<nat>)
    requires CompsOk(w, s) && Origin(w, s, n, r, q, pred, bytes)
    ensures Binary(w.channels, pred)
  {
    hide Ok, Binary;
    var part :| PutBy(w, s, n, r, part, q, pred, bytes);
    var p :| (p, pred, bytes) in s.comps[(n, r)][part].Outgoing() && p in w.ports(n, r) && w.ports(n, r)[p].peer == Some(q);
    hide PR.PutsOwn;
    SendsOk(s.comps[(n, r)][part], w.channels, (p, pred, bytes));
  }

  lemma FitsStill(w: World, n: nat, r: nat, part: Id, c: Component, m: N.Message, c': Component)
    requires Fits(w, n, r, part, c) && Feeds(c, m, c') && c'.Vars() == c.Vars() && c'.Owned() == c.Owned()
    ensures Fits(w, n, r, part, c')
  {
    hide N.NativeFeeds, PR.ProtoFeeds, PR.PutsOwn, Component.Vars, Component.Owned;
  }

  /** One component is replaced by what feeding made of it. */
  lemma FedComps(w: World, s: Sys, n: nat, r: nat, part: Id, m: N.Message, c: Component, s': Sys)
    requires CompsOk(w, s) && LogsOk(w, s) && Has(s, n, r, part) && Feeds(s.comps[(n, r)][part], m, c)
    requires Binary(w.channels, m.pred) && CameFrom(w, s, r, m) && Labelled(s.comps[(n, r)][part], m)
    requires s'.comps == s.comps[(n, r) := s.comps[(n, r)][part := c]]
    ensures CompsOk(w, s') && LogsOk(w, s') && Grows(s, s') && s.comps[(n, r)][part].Submitted() <= c.Submitted()
  {
    hide Ok, Binary, Feeds, CameFrom, Fits, Labelled, Component.Log, Component.Outgoing, Component.Submitted;
    FedComp(w, s, n, r, part, m, c);
    FedGrows(s, n, r, part, c, s');
    hide Grows;
    forall n': nat, r': nat, part' | Has(s', n', r', part')
      ensures Ok(s'.comps[(n', r')][part']) && Fits(w, n', r', part', s'.comps[(n', r')][part'])
      ensures forall x <- s'.comps[(n', r')][part'].Log() :: CameFrom(w, s', r', x)
    {
      assert Has(s, n', r', part');
      forall x | x in s'.comps[(n', r')][part'].Log() ensures CameFrom(w, s', r', x) {
        if (n', r', part') != (n, r, part) { assert x in s.comps[(n', r')][part'].Log(); }
        CameFromGrows(w, s, s', r', x);
      }
    }
  }

  lemma FedComp(w: World, s: Sys, n: nat, r: nat, part: Id, m: N.Message, c: Component)
    requires CompsOk(w, s) && Has(s, n, r, part) && Feeds(s.comps[(n, r)][part], m, c) && Binary(w.channels, m.pred)
    requires Labelled(s.comps[(n, r)][part], m)
    ensures Ok(c) && Fits(w, n, r, part, c) && c.Log() == s.comps[(n, r)][part].Log() + {m}
    ensures s.comps[(n, r)][part].Submitted() <= c.Submitted() && s.comps[(n, r)][part].Outgoing() <= c.Outgoing()
  {
    hide Ok, Binary, Feeds, KnowsChannels, Labelled, Component.Log, Component.Outgoing, Component.Submitted, Component.Vars, Component.Owned, PR.PutsOwn;
    var c0 := s.comps[(n, r)][part];
    assert Fits(w, n, r, part, c0);
    FeedsOk(c0, m, c, w.channels);
    FitsStill(w, n, r, part, c0, m, c);
  }

  lemma FedGrows(s: Sys, n: nat, r: nat, part: Id, c: Component, s': Sys)
    requires Has(s, n, r, part) && s.comps[(n, r)][part].Outgoing() <= c.Outgoing()
    requires s'.comps == s.comps[(n, r) := s.comps[(n, r)][part := c]]
    ensures Grows(s, s')
  {
    hide Component.Outgoing;
  }

  lemma FedMatches(s: Sys, n: nat, r: nat, part: Id, c: Component, s': Sys)
    requires Matches(s) && Has(s, n, r, part) && s.comps[(n, r)][part].Submitted() <= c.Submitted()
    requires s'.comps == s.comps[(n, r) := s.comps[(n, r)][part := c]] && s'.net == s.net
    ensures Matches(s')
  {
    hide Component.Submitted, MatchesAt;
    forall m, q | m in s'.net.conns && q in s'.net.conns[m].locals ensures MatchesAt(s', m, q) { FedMatchesAt(s, n, r, part, c, s', m, q); }
  }

  lemma FedMatchesAt(s: Sys, n: nat, r: nat, part: Id, c: Component, s': Sys, m: nat, q: nat)
    requires Has(s, n, r, part) && s.comps[(n, r)][part].Submitted() <= c.Submitted()
    requires s'.comps == s.comps[(n, r) := s.comps[(n, r)][part := c]] && s'.net == s.net
    requires m in s.net.conns && q in s.net.conns[m].locals && MatchesAt(s, m, q)
    ensures MatchesAt(s', m, q)
  {
    hide Component.Submitted;
    if (m, q) == (n, r) {
      assert s'.comps[(m, q)].Keys == s.comps[(m, q)].Keys + {part};
    } else {
      assert s'.comps[(m, q)] == s.comps[(m, q)];
    }
  }

  lemma FedKeeps(w: World, s: Sys, n: nat, part: Id, m: N.Message, c: Component)
    requires Inv(w, s) && n in s.net.conns && CanFeed(w, s, n, part, m, c) && CameFrom(w, s, s.net.conns[n].round, m)
    ensures Inv(w, Fed(s, n, part, c))
  {
    hide WorldOk, RI.Inv, L.Ledger, CompsOk, LogsOk, LinksOk, Matches, Feeds, Grows, Origin, NewSendsOk, Labelled;
    var r, s' := s.net.conns[n].round, Fed(s, n, part, c);
    ArrivesLabelled(w, s, n, r, part, m);
    var n' :| Origin(w, s, n', r, m.getter, m.pred, m.payload);
    OriginBinary(w, s, n', r, m.getter, m.pred, m.payload);
    FedComps(w, s, n, r, part, m, c, s');
    FedMatches(s, n, r, part, c, s');
    SameNet(w, s, s');
    LinksNext(w, s, s');
  }

  lemma SameNet(w: World, s: Sys, s': Sys)
    requires s'.net == s.net
    ensures NewSendsOk(w, s, s')
  {
  }

  /** A payload in the buffer was sent over the link it came in by, in the current round. */
  lemma BufferedWasSent(t: R.Session, s: R.State, n: nat, x: (nat, R.CommMsg))
    requires L.Ledger(t, s) && n in t.hood && s.conns[n].syncing && x in s.conns[n].payloads
    ensures Endpoint(n, x.0) in t.g.peer && x.1 in s.sent[Endpoint(n, x.0)] && x.1.round == s.conns[n].round && x.1.contents.Payload?
  {
    hide R.Session.Valid, L.Accounted;
    assert L.PayloadsOk(t, s, n);
    var e := Endpoint(n, x.0);
    assert L.HandledOk(t, s, e, x.1);
    assert (e.index, x.1) == x;
    assert x in multiset(s.conns[n].payloads);
  }

  lemma NetCameFrom(w: World, s: Sys, n: nat, x: (nat, R.CommMsg))
    requires WorldOk(w) && L.Ledger(w.t, s.net) && LinksOk(w, s) && n in s.net.conns && s.net.conns[n].syncing && x in s.net.conns[n].payloads
    requires x.1.contents.Payload? && Endpoint(n, x.0) in w.linkPort
    ensures CameFrom(w, s, s.net.conns[n].round, LinkMessage(w, n, x))
  {
    hide L.Accounted, L.HandledOk, L.PayloadsOk, R.Session.Valid, TableOk, TablesAgree, Origin;
    BufferedWasSent(w.t, s.net, n, x);
    var e := Endpoint(n, x.0);
    assert Origin(w, s, w.t.g.peer[e].node, x.1.round, w.linkPort[e], x.1.contents.pred, x.1.contents.bytes);
  }

  lemma LocalCameFrom(w: World, s: Sys, n: nat, r: nat, from: Id, o: (Id, Predicate, seq<nat>), q: Id)
    requires Has(s, n, r, from) && o in s.comps[(n, r)][from].Outgoing() && GoesTo(w.ports(n, r), o.0, q, Local)
    ensures CameFrom(w, s, r, N.Message(q, o.1, o.2))
  {
    assert (o.0, o.1, o.2) == o;
    assert PutBy(w, s, n, r, from, q, o.1, o.2);
    assert Origin(w, s, n, r, q, o.1, o.2);
  }

  lemma ActionKeepsInv(w: World, s: Sys, a: Action)
    requires Inv(w, s) && R.Shape(w.t, s.net) && Enabled(w, s, a)
    ensures Inv(w, Next(w, s, a))
  {
    hide Inv, R.Enabled, R.Next, R.Session.Valid, Fits, Starts, CanFeed;
    match a
    case Net(b) => NetKeeps(w, s, b);
    case Enter(n, parts) => EnterKeeps(w, s, n, parts);
    case Submit(n, part, p) => SubmitKeeps(w, s, n, part, p);
    case Send(n, part, o, i) => SendKeeps(w, s, n, part, o, i);
    case FeedLocal(n, part, from, o, c) =>
      var q :| GoesTo(w.ports(n, s.net.conns[n].round), o.0, q, Local) && CanFeed(w, s, n, part, N.Message(q, o.1, o.2), c);
      LocalCameFrom(w, s, n, s.net.conns[n].round, from, o, q);
      FedKeeps(w, s, n, part, N.Message(q, o.1, o.2), c);
    case FeedNet(n, part, x, c) =>
      FeedNetOk(w, s, n, part, x, c);
      FedKeeps(w, s, n, part, LinkMessage(w, n, x), c);
  }

  lemma FeedNetOk(w: World, s: Sys, n: nat, part: Id, x: (nat, R.CommMsg), c: Component)
    requires Inv(w, s) && n in s.net.conns && x in s.net.conns[n].payloads && x.1.contents.Payload? && Endpoint(n, x.0) in w.linkPort
    requires CanFeed(w, s, n, part, LinkMessage(w, n, x), c)
    ensures CameFrom(w, s, s.net.conns[n].round, LinkMessage(w, n, x))
  {
    hide WorldOk, RI.Inv, L.Ledger, CompsOk, LogsOk, LinksOk, Matches, Feeds;
    NetCameFrom(w, s, n, x);
  }

  lemma InitInv(w: World, s: Sys)
    requires WorldOk(w) && Init(w, s)
    ensures Inv(w, s)
  {
    hide TableOk, TablesAgree;
    RT.InitInv(w.t, s.net);
    L.LedgerInit(w.t, s.net);
    hide RI.Inv, L.Ledger, R.Session.Valid;
  }

  lemma InvShape(w: World, s: Sys)
    requires Inv(w, s)
    ensures R.Shape(w.t, s.net)
  {
    hide WorldOk, L.Ledger, CompsOk, LogsOk, LinksOk, Matches, RI.ConnOk, RI.ResultOk, RI.MsgOk;
  }

  lemma {:induction false} RunInv(w: World, run: seq<Sys>, k: nat)
    requires IsRun(w, run) && k < |run|
    ensures Inv(w, run[k])
  {
    hide Inv, Enabled, Next, Init, WorldOk;
    if k == 0 {
      InitInv(w, run[0]);
    } else {
      RunInv(w, run, k - 1);
      assert Moves(w, run[k - 1], run[k - 1 + 1]);
      var a :| Enabled(w, run[k - 1], a) && run[k] == Next(w, run[k - 1], a);
      ActionKeepsInv(w, run[k - 1], a);
    }
  }
}
