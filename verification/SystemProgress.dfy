/** What the runtime brings about: once it is idle, every message that was put has reached the component at the other end
    of its channel, a native has submitted exactly the batches whose messages were put, and a round in which everybody
    takes part is decided exactly if somebody requested failure or all components have submitted parts of one solution. */
module SystemProgress {
  import opened Network
  import opened Predicates
  import opened Components
  import opened Ports
  import opened System
  import opened SystemInvariant
  import opened SystemVoices
  import opened Atomicity
  import R = Rounds
  import RI = RoundsInvariant
  import RS = RoundsSteps
  import L = RoundsLedger
  import D = RoundsDuties
  import P = RoundsProgress
  import N = Native
  import PR = ProtoRuns
  import PC = ProtoCommits
  import A = ProtoPaths
  import Programs

  // ---- what the connectors keep ----

  ghost predicate AllTidy(t: R.Session, s: R.State) {
    forall n <- t.hood | n in s.conns :: P.Tidy(t.hood[n], s.conns[n])
  }

  ghost predicate Live(w: World, s: Sys) {
    D.Dutiful(w.t, s.net) && AllTidy(w.t, s.net)
  }

  lemma TidyNext(t: R.Session, s: R.State, a: R.Action)
    requires R.Shape(t, s) && R.Enabled(t, s, a) && AllTidy(t, s)
    ensures AllTidy(t, R.Next(t, s, a))
  {
    hide R.Enabled, R.Next, R.Session.Valid, P.Tidy, R.Acts;
    RS.NextShape(t, s, a);
    var s' := R.Next(t, s, a);
    forall n | n in t.hood && n in s'.conns ensures P.Tidy(t.hood[n], s'.conns[n]) {
      if n == R.Actor(a) { P.ActionTidy(t, s, a); }
    }
  }

  lemma LiveNext(w: World, s: Sys, a: Action)
    requires Live(w, s) && R.Shape(w.t, s.net) && Enabled(w, s, a)
    ensures Live(w, Next(w, s, a))
  {
    hide D.Dutiful, AllTidy, R.Enabled, R.Next, R.Session.Valid, R.Shape, Fits, Starts, CanFeed, GoesTo, Has;
    var b := NetAction(a);
    if b.Some? {
      D.DutifulNext(w.t, s.net, b.value);
      TidyNext(w.t, s.net, b.value);
    }
  }

  lemma {:induction false} RunLive(w: World, run: seq<Sys>, k: nat)
    requires IsRun(w, run) && k < |run|
    ensures Live(w, run[k])
  {
    hide D.Dutiful, Enabled, Next;
    if k == 0 {
      InitLive(w, run[0]);
    } else {
      hide WorldOk, Init;
      RunLive(w, run, k - 1);
      assert Moves(w, run[k - 1], run[k - 1 + 1]);
      var a :| Enabled(w, run[k - 1], a) && run[k] == Next(w, run[k - 1], a);
      LiveNext(w, run[k - 1], a);
    }
  }

  lemma InitLive(w: World, s: Sys)
    requires WorldOk(w) && Init(w, s)
    ensures Live(w, s)
  {
    hide D.Dutiful, TableOk, TablesAgree, R.Session.Valid, P.Tidy;
    D.DutifulInit(w.t, s.net);
    forall n | n in w.t.hood ensures P.Tidy(w.t.hood[n], R.NEW_CONN) { P.NewTidy(w.t.hood[n]); }
  }

  // ---- an idle runtime ----

  ghost predicate HasPut(c: Component, p: Id, pred: Predicate, bytes: seq<nat>) {
    match c
    case Native(_, s) => (p, pred, bytes) in s.outgoing
    case Protocol(_, _, s) => (p, pred, bytes) in s.outgoing
  }

  ghost predicate HasHeard(c: Component, x: N.Message) {
    match c
    case Native(_, s) => x in s.log
    case Protocol(_, _, s) => x in s.log
  }

  /** The component has submitted a part of `x`. */
  ghost predicate HasPart(c: Component, x: Predicate) {
    match c
    case Native(_, s) => exists p <- s.submitted :: Within(p, x)
    case Protocol(_, _, s) => exists p <- s.submitted :: Within(p, x)
  }

  /** Feeding the message to the component fails an assertion. */
  ghost predicate CannotHear(c: Component, x: N.Message) {
    forall c' :: !Feeds(c, x, c')
  }

  ghost predicate OnLink(w: World, s: Sys, n: nat, i: nat, pred: Predicate, bytes: seq<nat>) {
    && Endpoint(n, i) in w.t.g.peer && w.t.g.peer[Endpoint(n, i)] in s.net.sent && n in s.net.conns
    && R.CommMsg(s.net.conns[n].round, R.Payload(pred, bytes)) in s.net.sent[w.t.g.peer[Endpoint(n, i)]]
  }

  ghost predicate HeardBy(s: Sys, n: nat, part: Id, x: N.Message) {
    n in s.net.conns && Has(s, n, s.net.conns[n].round, part) && HasHeard(s.comps[(n, s.net.conns[n].round)][part], x)
  }

  ghost predicate Stored(s: Sys, n: nat, part: Id, p: Predicate) {
    && n in s.net.conns && s.net.conns[n].round in s.net.conns[n].locals
    && part in s.net.conns[n].locals[s.net.conns[n].round] && p in s.net.conns[n].locals[s.net.conns[n].round][part]
  }

  /** Nothing is left to receive, to forward, to submit, to send or to be fed that was not before. */
  ghost predicate Idle(w: World, s: Sys)
    requires R.Shape(w.t, s.net)
  {
    && P.Quiet(w.t, s.net)
    && (forall n, part, p | Enabled(w, s, Submit(n, part, p)) :: Stored(s, n, part, p))
    && (forall n, part, o, i | Enabled(w, s, Send(n, part, o, i)) :: OnLink(w, s, n, i, o.1, o.2))
    && (forall n, part, from, o, c | Enabled(w, s, FeedLocal(n, part, from, o, c)) ::
          exists q :: GoesTo(w.ports(n, s.net.conns[n].round), o.0, q, Local) && HeardBy(s, n, part, N.Message(q, o.1, o.2)))
    && (forall n, part, x, c | Enabled(w, s, FeedNet(n, part, x, c)) :: HeardBy(s, n, part, LinkMessage(w, n, x)))
  }

  lemma IdleNet(w: World, s: Sys)
    requires R.Shape(w.t, s.net) && Idle(w, s) && Live(w, s) && L.Ledger(w.t, s.net)
    ensures P.Settled(w.t, s.net)
  {
    hide P.Quiet, D.Dutiful, L.Ledger, P.Tidy, R.Session.Valid, Enabled;
    assert s.net.conns.Keys == w.t.hood.Keys;
  }

  // ---- every message arrives ----

  /** The other end of a channel is local to its owner's connector. */
  lemma ChannelRoute(w: World, s: Sys, r: nat, n: nat, a: Id, p: Id, m: nat, b: Id, q: Id)
    requires WorldOk(w) && Channel(w, r, n, a, p, m, b, q) && b.connector == m
    ensures q.connector == m && q in w.ports(n, r)
    ensures m == n ==> GoesTo(w.ports(n, r), p, q, Local)
    ensures m != n ==> exists i :: GoesTo(w.ports(n, r), p, q, Route.Net(i)) && AcrossLink(w, n, q, i)
  {
    hide R.Session.Valid, TablesAgree, AcrossLink;
    var here, there := w.ports(n, r), w.ports(m, r);
    assert TableOk(w, n, here) && TableOk(w, m, there);
    PeerNames(here, p, q);
    if m != n { assert here[q].route == Route.Net(here[q].route.index); }
  }

  lemma PutIsOutgoing(c: Component, p: Id, pred: Predicate, bytes: seq<nat>)
    ensures HasPut(c, p, pred, bytes) <==> (p, pred, bytes) in c.Outgoing()
  {
  }

  lemma HeardLocally(w: World, s: Sys, r: nat, n: nat, a: Id, p: Id, b: Id, q: Id, pred: Predicate, bytes: seq<nat>)
    requires R.Shape(w.t, s.net) && Idle(w, s) && P.Inside(s.net, n, r) && Has(s, n, r, a) && Has(s, n, r, b)
    requires GoesTo(w.ports(n, r), p, q, Local) && w.ports(n, r)[q].owner == b && HasPut(s.comps[(n, r)][a], p, pred, bytes)
    ensures HasHeard(s.comps[(n, r)][b], N.Message(q, pred, bytes)) || CannotHear(s.comps[(n, r)][b], N.Message(q, pred, bytes))
  {
    hide R.Session.Valid, P.Quiet, Feeds, HasPut, HasHeard, Component.Outgoing, Component.Submitted;
    var x := N.Message(q, pred, bytes);
    PutIsOutgoing(s.comps[(n, r)][a], p, pred, bytes);
    if c :| Feeds(s.comps[(n, r)][b], x, c) {
      assert CanFeed(w, s, n, b, N.Message(q, pred, bytes), c);
      assert Enabled(w, s, FeedLocal(n, b, a, (p, pred, bytes), c));
      var q' :| GoesTo(w.ports(n, r), p, q', Local) && HeardBy(s, n, b, N.Message(q', pred, bytes));
    }
  }

  lemma SentOver(w: World, s: Sys, r: nat, n: nat, a: Id, p: Id, q: Id, i: nat, pred: Predicate, bytes: seq<nat>)
    requires R.Shape(w.t, s.net) && Idle(w, s) && P.Inside(s.net, n, r) && Has(s, n, r, a)
    requires GoesTo(w.ports(n, r), p, q, Route.Net(i)) && AcrossLink(w, n, q, i) && HasPut(s.comps[(n, r)][a], p, pred, bytes)
    ensures OnLink(w, s, n, i, pred, bytes)
  {
    hide R.Session.Valid, P.Quiet, HasPut, Component.Outgoing, Component.Submitted;
    PutIsOutgoing(s.comps[(n, r)][a], p, pred, bytes);
    assert Enabled(w, s, Send(n, a, (p, pred, bytes), i));
  }

  lemma Buffered(t: R.Session, s: R.State, e: Endpoint, m: R.CommMsg)
    requires P.Settled(t, s) && e in t.g.peer && e.node in t.hood && P.Inside(s, e.node, m.round) && m in s.sent[e] && m.contents.Payload?
    ensures (e.index, m) in s.conns[e.node].payloads
  {
    hide P.Settled;
    P.SettledOf(t, s);
    hide RI.Inv, R.Session.Valid, L.Acted;
    P.ActedUpon(t, s, e, m);
    HandledAll(t, s, e, m);
    hide R.Shape;
    ActedPayload(t.hood[e.node], s.conns[e.node], e.index, m, s.handled[e][m]);
  }

  lemma ActedPayload(hood: R.Neighborhood, c: R.Conn, i: nat, m: R.CommMsg, count: nat)
    requires L.Acted(hood, c, i, m, count) && count > 0 && m.contents.Payload?
    ensures (i, m) in c.payloads
  {
    assert (i, m) in multiset(c.payloads);
  }

  /** In a settled round whatever was sent has been handled. */
  lemma HandledAll(t: R.Session, s: R.State, e: Endpoint, m: R.CommMsg)
    requires P.Settled(t, s) && e in t.g.peer && e.node in t.hood && P.Inside(s, e.node, m.round)
    ensures R.Shape(t, s) && s.handled[e][m] == s.sent[e][m]
  {
    hide P.Settled, R.Session.Valid, RI.Inv, L.WaitingCount, P.Quiet, P.Tidy;
    P.SettledOf(t, s);
    SettledWaits(t, s, e);
    hide R.Shape;
    P.NothingWaits(t, s, e, m);
    SettledAccounts(t, s, e, m);
  }

  lemma SettledWaits(t: R.Session, s: R.State, e: Endpoint)
    requires P.Settled(t, s) && e.node in t.hood
    ensures R.Shape(t, s) && P.Quiet(t, s) && P.Tidy(t.hood[e.node], s.conns[e.node])
  {
    hide D.Dutiful, L.Ledger, P.Quiet, P.Tidy, R.Session.Valid;
    P.QuietOf(t, s);
  }

  lemma SettledAccounts(t: R.Session, s: R.State, e: Endpoint, m: R.CommMsg)
    requires P.Settled(t, s) && e in t.g.peer && e.node in t.hood
    ensures R.Shape(t, s) && L.Accounted(t, s, e, m)
  {
    hide D.Dutiful, P.Quiet, P.Tidy, R.Session.Valid, L.Accounted, L.HandledOk, L.PayloadsOk;
  }

  lemma HeardRemotely(w: World, s: Sys, r: nat, n: nat, i: nat, m: nat, b: Id, q: Id, pred: Predicate, bytes: seq<nat>)
    requires R.Shape(w.t, s.net) && Idle(w, s) && P.Settled(w.t, s.net) && WorldOk(w)
    requires P.Inside(s.net, n, r) && P.Inside(s.net, m, r) && Has(s, m, r, b) && q.connector == m && m in w.t.hood
    requires AcrossLink(w, n, q, i) && q in w.ports(m, r) && w.ports(m, r)[q].owner == b && OnLink(w, s, n, i, pred, bytes)
    ensures HasHeard(s.comps[(m, r)][b], N.Message(q, pred, bytes)) || CannotHear(s.comps[(m, r)][b], N.Message(q, pred, bytes))
  {
    hide R.Session.Valid, P.Quiet, P.Settled, TableOk, TablesAgree, Feeds, HasHeard, Component.Outgoing, Component.Submitted;
    var e, msg := w.t.g.peer[Endpoint(n, i)], R.CommMsg(r, R.Payload(pred, bytes));
    Buffered(w.t, s.net, e, msg);
    var x := N.Message(q, pred, bytes);
    assert LinkMessage(w, m, (e.index, msg)) == x by { assert Endpoint(m, e.index) == e; }
    if c :| Feeds(s.comps[(m, r)][b], x, c) {
      assert CanFeed(w, s, m, b, x, c);
      assert Enabled(w, s, FeedNet(m, b, (e.index, msg), c));
    }
  }

  /** A list of the elements of a set. */
  lemma {:induction false} Ordering<T(!new)>(s: set<T>) returns (order: seq<T>)
    ensures Orders(order, s)
    decreases |s|
  {
    if s == {} {
      order := [];
    } else {
      var x :| x in s;
      var rest := Ordering(s - {x});
      order := rest + [x];
      assert x !in rest;
    }
  }

  lemma NativeCanHear(c: Component, x: N.Message)
    requires c.Native? && c.nctx.Valid() && x.getter in c.nctx.getters && x.getter in c.nctx.vars && !N.Contradicted(c.nctx, c.nst.branches, x)
    ensures !CannotHear(c, x)
  {
    hide N.NativeCtx.Valid, N.Contradicted, N.FeedAll, Orders;
    var order := Ordering(c.nst.branches.Keys);
    OrderIn(order, c.nst.branches.Keys);
    var pr := N.FeedAll(c.nctx, x, order, c.nst.branches, c.nst.submitted);
    var st := c.nst.(branches := pr.finished, submitted := pr.submitted, log := c.nst.log + {x});
    assert N.NativeFeeds(c.nctx, c.nst, x, st);
    assert Feeds(c, x, c.(nst := st));
  }

  lemma OrderIn<T(!new)>(order: seq<T>, s: set<T>)
    requires Orders(order, s)
    ensures forall x <- order :: x in s
  {
  }

  /** A native can always be fed what was put on its channels. */
  lemma NativeHears(w: World, s: Sys, r: nat, m: nat, b: Id, x: N.Message)
    requires Reachable(w, s) && Has(s, m, r, b) && s.comps[(m, r)][b].Native? && CameFrom(w, s, r, x)
    requires x.getter in w.ports(m, r) && w.ports(m, r)[x.getter].owner == b && w.ports(m, r)[x.getter].polarity == Getter
    ensures !CannotHear(s.comps[(m, r)][b], x)
  {
    hide Reachable, Inv, CameFrom, CannotHear, N.Contradicted, Voices, N.NativeCtx.Valid;
    ReachableInv(w, s);
    CompOk(w, s, m, r, b);
    var c := s.comps[(m, r)][b];
    NativeCtxOk(c);
    hide Ok;
    assert x.getter in c.Owned() && !c.IsPutter(x.getter);
    ArrivesWithoutContradiction(w, s, r, m, b, x);
    NativeCanHear(c, x);
  }

  lemma NativeCtxOk(c: Component)
    requires Ok(c) && c.Native?
    ensures c.nctx.Valid() && N.BranchesOk(c.nctx, c.nst.log, c.nst.branches) && N.Kept(c.nst.branches, c.nst.submitted)
    ensures N.Complete(c.nctx, c.nst.log, c.nst.branches, c.nst.submitted)
  {
    hide N.NativeCtx.Valid, N.BranchesOk, N.Kept, N.Complete, N.OnlyPuts, N.SentMinimal;
  }

  lemma PutReaches(w: World, s: Sys, r: nat, n: nat, a: Id, p: Id, q: Id, pred: Predicate, bytes: seq<nat>)
    requires Has(s, n, r, a) && p in w.ports(n, r) && w.ports(n, r)[p].peer == Some(q) && HasPut(s.comps[(n, r)][a], p, pred, bytes)
    ensures CameFrom(w, s, r, N.Message(q, pred, bytes))
  {
    PutIsOutgoing(s.comps[(n, r)][a], p, pred, bytes);
    assert PutBy(w, s, n, r, a, q, pred, bytes);
    assert Origin(w, s, n, r, q, pred, bytes);
  }

  lemma RunReachable(w: World, run: seq<Sys>, k: nat)
    requires IsRun(w, run) && k < |run|
    ensures Reachable(w, run[k])
  {
    hide WorldOk, Init, Moves;
    var upTo := run[..k + 1];
    forall j | 0 <= j < |upTo| - 1 ensures Moves(w, upTo[j], upTo[j + 1]) { assert Moves(w, run[j], run[j + 1]); }
    assert IsRun(w, upTo) && run[k] == upTo[|upTo| - 1];
  }

  /** In every idle state of every run, whatever a component put on a channel has reached the component at the other end,
      on the same connector or across a link, unless that is a protocol component which fails an assertion on it. */
  lemma EveryPutArrives(w: World, run: seq<Sys>, k: nat, r: nat, n: nat, a: Id, p: Id, m: nat, b: Id, q: Id,
                        pred: Predicate, bytes: seq<nat>)
    requires IsRun(w, run) && k < |run| && R.Shape(w.t, run[k].net) && Idle(w, run[k])
    requires P.Inside(run[k].net, n, r) && P.Inside(run[k].net, m, r) && Has(run[k], n, r, a) && Has(run[k], m, r, b)
    requires Channel(w, r, n, a, p, m, b, q) && HasPut(run[k].comps[(n, r)][a], p, pred, bytes)
    ensures var c, x := run[k].comps[(m, r)][b], N.Message(q, pred, bytes);
      HasHeard(c, x) || (c.Protocol? && CannotHear(c, x))
  {
    hide IsRun, Inv, Live, Idle, Reachable, R.Shape, HasPut, HasHeard, CannotHear, WorldOk, CameFrom;
    var s := run[k];
    RunInv(w, run, k);
    RunLive(w, run, k);
    RunReachable(w, run, k);
    Delivered(w, s, r, n, a, p, m, b, q, pred, bytes);
    if s.comps[(m, r)][b].Native? {
      PutReaches(w, s, r, n, a, p, q, pred, bytes);
      NativeHears(w, s, r, m, b, N.Message(q, pred, bytes));
    }
  }

  lemma Delivered(w: World, s: Sys, r: nat, n: nat, a: Id, p: Id, m: nat, b: Id, q: Id, pred: Predicate, bytes: seq<nat>)
    requires Inv(w, s) && Live(w, s) && R.Shape(w.t, s.net) && Idle(w, s)
    requires P.Inside(s.net, n, r) && P.Inside(s.net, m, r) && Has(s, n, r, a) && Has(s, m, r, b)
    requires Channel(w, r, n, a, p, m, b, q) && HasPut(s.comps[(n, r)][a], p, pred, bytes)
    ensures HasHeard(s.comps[(m, r)][b], N.Message(q, pred, bytes)) || CannotHear(s.comps[(m, r)][b], N.Message(q, pred, bytes))
  {
    hide Inv, Live, Idle, P.Settled, R.Shape, HasPut, HasHeard, CannotHear, OnLink, GoesTo, AcrossLink;
    InvParts(w, s);
    hide WorldOk;
    IdleNet(w, s);
    LocalPart(w, s, m, r, b);
    ChannelRoute(w, s, r, n, a, p, m, b, q);
    if m == n {
      HeardLocally(w, s, r, n, a, p, b, q, pred, bytes);
    } else {
      var i :| GoesTo(w.ports(n, r), p, q, Route.Net(i)) && AcrossLink(w, n, q, i);
      SentOver(w, s, r, n, a, p, q, i, pred, bytes);
      HeardRemotely(w, s, r, n, i, m, b, q, pred, bytes);
    }
  }

  // ---- what natives submit ----

  /** The owner of the putter of the channel that ends in `g` has put on it within `x`. */
  ghost predicate PutOn(w: World, s: Sys, r: nat, n: nat, a: Id, p: Id, g: Id, x: Predicate) {
    && Has(s, n, r, a) && p in w.ports(n, r) && w.ports(n, r)[p].owner == a && w.ports(n, r)[p].polarity == Putter
    && w.ports(n, r)[p].peer == Some(g)
    && exists pred, bytes :: HasPut(s.comps[(n, r)][a], p, pred, bytes) && Within(pred, x)
  }

  ghost predicate PutFor(w: World, s: Sys, r: nat, g: Id, x: Predicate) {
    exists n, a, p :: PutOn(w, s, r, n, a, p, g, x)
  }

  /** What a native has received within `x` was put within `x`. */
  lemma ArrivedWasPut(w: World, s: Sys, r: nat, m: nat, b: Id, g: Id, x: Predicate)
    requires Inv(w, s) && Has(s, m, r, b) && s.comps[(m, r)][b].Native? && N.ArrivedFor(s.comps[(m, r)][b].nst.log, g, x)
    ensures PutFor(w, s, r, g, x)
  {
    hide Inv, Within, CameFrom, PutBy, HasPut;
    var y :| y in s.comps[(m, r)][b].nst.log && y.getter == g && Within(y.pred, x);
    LogCameFrom(w, s, r, m, b, y);
    WasPut(w, s, r, y, x);
  }

  lemma WasPut(w: World, s: Sys, r: nat, y: N.Message, x: Predicate)
    requires Inv(w, s) && CameFrom(w, s, r, y) && Within(y.pred, x)
    ensures PutFor(w, s, r, y.getter, x)
  {
    hide Inv, Within, PutBy, HasPut, Component.Outgoing;
    var n :| Origin(w, s, n, r, y.getter, y.pred, y.payload);
    var a :| PutBy(w, s, n, r, a, y.getter, y.pred, y.payload);
    PutByHas(w, s, n, r, a, y.getter, y.pred, y.payload);
    var p := PutByOwner(w, s, n, r, a, y.getter, y.pred, y.payload);
    PutIsOutgoing(s.comps[(n, r)][a], p, y.pred, y.payload);
    OutgoingPutter(w, s, n, r, a, p, y.pred, y.payload);
    assert PutOn(w, s, r, n, a, p, y.getter, x);
  }

  lemma OutgoingPutter(w: World, s: Sys, n: nat, r: nat, a: Id, p: Id, pred: Predicate, bytes: seq<nat>)
    requires Inv(w, s) && Has(s, n, r, a) && (p, pred, bytes) in s.comps[(n, r)][a].Outgoing() && p in w.ports(n, r)
    ensures w.ports(n, r)[p].polarity == Putter
  {
    hide Inv, Ok, Binary, KnowsChannels, PR.PutsOwn, Component.Outgoing, Component.Vars, Component.Owned, Component.IsPutter;
    CompOk(w, s, n, r, a);
    SendsOk(s.comps[(n, r)][a], w.channels, (p, pred, bytes));
  }

  /** In an idle state in which everybody is in the round, a native has received within `x` whatever was put within it. */
  lemma PutArrived(w: World, run: seq<Sys>, k: nat, r: nat, m: nat, b: Id, g: Id, x: Predicate)
    requires IsRun(w, run) && k < |run| && R.Shape(w.t, run[k].net) && Idle(w, run[k]) && P.AllInside(w.t, run[k].net, r)
    requires Has(run[k], m, r, b) && run[k].comps[(m, r)][b].Native? && g in w.ports(m, r) && w.ports(m, r)[g].owner == b
    requires w.ports(m, r)[g].polarity == Getter && PutFor(w, run[k], r, g, x)
    ensures N.ArrivedFor(run[k].comps[(m, r)][b].nst.log, g, x)
  {
    hide IsRun, Idle, Within, HasPut, P.Inside;
    var s := run[k];
    var n, a, p :| PutOn(w, s, r, n, a, p, g, x);
    var pred, bytes :| HasPut(s.comps[(n, r)][a], p, pred, bytes) && Within(pred, x);
    RunInv(w, run, k);
    EntersAsPart(w, s, r, n, a);
    EntersAsPart(w, s, r, m, b);
    assert Channel(w, r, n, a, p, m, b, g);
    EveryPutArrives(w, run, k, r, n, a, p, m, b, g, pred, bytes);
    assert N.Message(g, pred, bytes) in s.comps[(m, r)][b].nst.log;
  }

  lemma EntersAsPart(w: World, s: Sys, r: nat, n: nat, a: Id)
    requires Inv(w, s) && Has(s, n, r, a)
    ensures n in w.t.hood
  {
    InvParts(w, s);
    hide Inv, WorldOk, L.Ledger, R.Shape, Component.Submitted;
  }

  /** In every idle state of every run in which everybody is in the round: for every predicate that selects a batch of a
      native, the native has submitted a solution within it if and only if something was put within it on every channel
      the batch gets from. */
  lemma NativeSubmitsExactlyWhen(w: World, run: seq<Sys>, k: nat, r: nat, m: nat, b: Id, i: nat, x: Predicate)
    requires IsRun(w, run) && k < |run| && R.Shape(w.t, run[k].net) && Idle(w, run[k]) && P.AllInside(w.t, run[k].net, r)
    requires Has(run[k], m, r, b) && run[k].comps[(m, r)][b].Native? && N.Selects(run[k].comps[(m, r)][b].nctx, i, x)
    ensures HasPart(run[k].comps[(m, r)][b], x) <==> forall g <- run[k].comps[(m, r)][b].nctx.batches[i].toGet :: PutFor(w, run[k], r, g, x)
  {
    hide IsRun, Idle, Inv, Within, PutFor, P.AllInside, N.ArrivedFor, N.Accurate, R.Shape;
    var s := run[k];
    RunInv(w, run, k);
    var c := s.comps[(m, r)][b];
    CompOk(w, s, m, r, b);
    NativeCtxOk(c);
    N.OfferedExactlyWhen(c.nctx, c.nst.log, c.nst.branches, c.nst.submitted, i, x);
    hide N.BranchesOk, N.Kept, N.Complete;
    forall g | g in c.nctx.batches[i].toGet ensures N.ArrivedFor(c.nst.log, g, x) <==> PutFor(w, s, r, g, x) {
      AwaitedPort(w, s, m, r, b, i, g);
      if N.ArrivedFor(c.nst.log, g, x) { ArrivedWasPut(w, s, r, m, b, g, x); }
      if PutFor(w, s, r, g, x) { PutArrived(w, run, k, r, m, b, g, x); }
    }
  }

  lemma AwaitedPort(w: World, s: Sys, m: nat, r: nat, b: Id, i: nat, g: Id)
    requires Inv(w, s) && Has(s, m, r, b) && s.comps[(m, r)][b].Native? && i < |s.comps[(m, r)][b].nctx.batches|
    requires g in s.comps[(m, r)][b].nctx.batches[i].toGet
    ensures g in w.ports(m, r) && w.ports(m, r)[g].owner == b && w.ports(m, r)[g].polarity == Getter
  {
    hide Inv, KnowsChannels, PR.PutsOwn;
    CompOk(w, s, m, r, b);
    var c := s.comps[(m, r)][b];
    NativeCtxOk(c);
    hide Ok;
    assert c.nctx.batches[i] in c.nctx.batches;
    assert g in c.Owned() && !c.IsPutter(g);
  }

  lemma InvParts(w: World, s: Sys)
    requires Inv(w, s)
    ensures WorldOk(w) && L.Ledger(w.t, s.net) && R.Shape(w.t, s.net) && s.net.conns.Keys == w.t.hood.Keys && Matches(s)
  {
    InvShape(w, s);
    hide WorldOk, RI.Inv, L.Ledger, LogsOk, LinksOk, Matches, CompsOk, R.Session.Valid;
  }

  // ---- what protocol components submit ----

  /** In every run, unless a branch within `x` was overtaken, a protocol component has submitted a solution within `x` if
      and only if its program ends where `x` comes true, receiving what the component has received. */
  lemma ProtocolSubmitsExactlyWhen(w: World, s: Sys, r: nat, n: nat, part: Id, x: Predicate)
    requires Reachable(w, s) && Has(s, n, r, part) && s.comps[(n, r)][part].Protocol? && Binary(w.channels, x)
    requires !PC.HasOvertaken(s.comps[(n, r)][part].agent, s.comps[(n, r)][part].pst.branches, x)
    ensures var c := s.comps[(n, r)][part];
      HasPart(c, x) <==> Programs.Ends(c.agent.ctx, A.If(c.agent, c.pst.log, x), c.agent.start)
  {
    hide Reachable, Inv, Voices, PC.HasOvertaken, PC.Complete, A.AgentOk, Programs.Coherent, Programs.Ends, PR.PutsOwn, Binary, Within;
    ReachableInv(w, s);
    CompOk(w, s, n, r, part);
    LogCoherent(w, s, n, r, part);
    var c := s.comps[(n, r)][part];
    PC.SubmitsExactlyWhen(c.agent, c.run, c.pst, x);
  }

  // ---- every round is decided ----

  ghost predicate AllHaveParts(w: World, s: Sys, r: nat, x: Predicate) {
    forall n, part | n in w.t.hood && Has(s, n, r, part) :: HasPart(s.comps[(n, r)][part], x)
  }

  lemma PartIsSubmitted(c: Component, x: Predicate)
    ensures HasPart(c, x) <==> exists p <- c.Submitted() :: Within(p, x)
  {
    hide Within;
  }

  /** What reached the storage of a connector is what its components have submitted. */
  lemma StoredParts(s: Sys, n: nat, r: nat, x: Predicate)
    requires Matches(s) && n in s.net.conns && r in s.net.conns[n].locals && RI.LocalSupport(s.net.conns[n], r, x)
    ensures forall part | Has(s, n, r, part) :: HasPart(s.comps[(n, r)][part], x)
  {
    hide Component.Submitted, HasPart, Within;
    assert MatchesAt(s, n, r);
    forall part | Has(s, n, r, part) ensures HasPart(s.comps[(n, r)][part], x) {
      assert part in s.net.conns[n].locals[r];
      var p :| p in s.net.conns[n].locals[r][part] && Within(p, x);
      PartIsSubmitted(s.comps[(n, r)][part], x);
    }
  }

  lemma PartsStored(w: World, s: Sys, n: nat, r: nat, x: Predicate)
    requires R.Shape(w.t, s.net) && Idle(w, s) && Matches(s) && P.Inside(s.net, n, r) && r in s.net.conns[n].locals && n in w.t.hood
    requires AllHaveParts(w, s, r, x)
    ensures RI.LocalSupport(s.net.conns[n], r, x)
  {
    hide P.Quiet, R.Session.Valid, R.Shape, Component.Submitted, HasPart, Within;
    assert MatchesAt(s, n, r);
    forall part | part in s.net.conns[n].locals[r] ensures exists q <- s.net.conns[n].locals[r][part] :: Within(q, x) {
      assert Has(s, n, r, part);
      PartIsSubmitted(s.comps[(n, r)][part], x);
      var p :| p in s.comps[(n, r)][part].Submitted() && Within(p, x);
      assert Enabled(w, s, Submit(n, part, p));
      assert Stored(s, n, part, p);
    }
  }

  /** In every idle state of every run, a round that everybody has entered is decided by everybody if and only if somebody
      requested failure or there is a predicate of which all components of all connectors have submitted a part. */
  lemma DecidedExactlyWhen(w: World, run: seq<Sys>, k: nat, r: nat, n: nat)
    requires IsRun(w, run) && k < |run| && R.Shape(w.t, run[k].net) && Idle(w, run[k]) && P.AllEntered(w.t, run[k].net, r)
    requires n in w.t.hood && w.t.root in w.t.hood
    ensures r in run[k].net.conns[n].results <==>
      D.SomebodyFailed(w.t, run[k].net, r) || exists x :: AllHaveParts(w, run[k], r, x)
  {
    hide IsRun, Inv, Live, Idle, P.Settled, R.Shape, P.AllEntered, D.SomebodyFailed, AllHaveParts;
    var s := run[k];
    RunInv(w, run, k);
    RunLive(w, run, k);
    InvParts(w, s);
    hide WorldOk;
    IdleNet(w, s);
    if r in s.net.conns[n].results { DecidedParts(w, s, r, n); }
    if D.SomebodyFailed(w.t, s.net, r) || exists x :: AllHaveParts(w, s, r, x) {
      var x :| D.SomebodyFailed(w.t, s.net, r) || AllHaveParts(w, s, r, x);
      PartsDecide(w, s, r, x);
      P.SettledOf(w.t, s.net);
      P.RootDecidesForAll(w.t, s.net, n, r);
    }
  }

  lemma DecidedParts(w: World, s: Sys, r: nat, n: nat)
    requires P.Settled(w.t, s.net) && Matches(s) && n in w.t.hood && n in s.net.conns && r in s.net.conns[n].results
    ensures D.SomebodyFailed(w.t, s.net, r) || exists x :: AllHaveParts(w, s, r, x)
  {
    hide P.Settled, Matches, D.SomebodyFailed, RI.LocalSupport, HasPart;
    P.DecidedBecause(w.t, s.net, n, r);
    if !D.SomebodyFailed(w.t, s.net, r) {
      var x := s.net.conns[n].results[r].pred;
      forall m | m in w.t.hood ensures forall part | Has(s, m, r, part) :: HasPart(s.comps[(m, r)][part], x) {
        EnteredBy(s.net.conns[m], r, x);
        StoredParts(s, m, r, x);
      }
      assert AllHaveParts(w, s, r, x);
    }
  }

  lemma EnteredBy(c: R.Conn, r: nat, x: Predicate)
    requires RI.LocalSupport(c, r, x)
    ensures r in c.locals
  {
  }

  lemma PartsDecide(w: World, s: Sys, r: nat, x: Predicate)
    requires R.Shape(w.t, s.net) && P.Settled(w.t, s.net) && Idle(w, s) && Matches(s) && P.AllEntered(w.t, s.net, r) && w.t.root in w.t.hood
    requires D.SomebodyFailed(w.t, s.net, r) || AllHaveParts(w, s, r, x)
    ensures r in s.net.conns[w.t.root].results
  {
    hide P.Settled, Matches, D.SomebodyFailed, Idle, AllHaveParts, R.Shape, P.Inside, RI.LocalSupport;
    if r !in s.net.conns[w.t.root].results {
      P.UndecidedForAll(w.t, s.net, r);
      if AllHaveParts(w, s, r, x) {
        forall m | m in w.t.hood ensures RI.LocalSupport(s.net.conns[m], r, x) { PartsStored(w, s, m, r, x); }
      }
      P.SettledDecided(w.t, s.net, r, x);
    }
  }
}
