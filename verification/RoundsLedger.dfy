/** No message for the current or a later round is ever dropped: over whole runs, everything sent is accounted for. */
module RoundsLedger {
  import opened Network
  import opened Predicates
  import opened Rounds
  import opened RoundsInvariant
  import opened RoundsSteps
  import opened RoundsTheorems

  /** How often a connector's buffers hold a message that came in by a link. */
  ghost function Buffered(c: Conn, x: (nat, CommMsg)): nat {
    multiset(c.delayed)[x] + multiset(c.undelayed)[x]
  }

  /** How often the message waits: on the way, delayed or undelayed. */
  ghost function WaitingCount(t: Session, s: State, e: Endpoint, m: CommMsg): nat
    requires Shape(t, s) && e in t.g.peer && e.node in t.hood
  {
    multiset(s.inbox[e])[m] + Buffered(s.conns[e.node], (e.index, m))
  }

  /** Every message of the current or a later round that was ever sent still waits, or was acted upon. */
  ghost predicate Accounted(t: Session, s: State, e: Endpoint, m: CommMsg)
    requires Shape(t, s) && e in t.g.peer && e.node in t.hood
  {
    m.round >= s.conns[e.node].round ==> s.sent[e][m] == WaitingCount(t, s, e, m) + s.handled[e][m]
  }

  /** What acting upon a message of the current round has led to: a payload is in the payload buffer as often as
      it came, a child's solution has been heard, a child's failure has been passed on. */
  ghost predicate Acted(hood: Neighborhood, c: Conn, i: nat, m: CommMsg, count: nat) {
    match m.contents
    case Payload(_, _) => multiset(c.payloads)[(i, m)] == count
    case Suggest(Success(p)) => i in hood.children ==> i in c.heard && p in c.heard[i]
    case Suggest(Failure) => i in hood.children ==> hood.parent.Some? && c.asked
    case Announce(_) => hood.parent != Some(i)
  }

  /** Messages are acted upon in their own round only, and to effect. */
  ghost predicate HandledOk(t: Session, s: State, e: Endpoint, m: CommMsg)
    requires Shape(t, s) && e in t.g.peer && e.node in t.hood
  {
    var c := s.conns[e.node];
    && s.handled[e][m] <= s.sent[e][m]
    && (s.handled[e][m] > 0 ==> m.round < c.round || (m.round == c.round && c.syncing))
    && (m.round == c.round && c.syncing && (s.handled[e][m] > 0 || m.contents.Payload?) ==>
          Acted(t.hood[e.node], c, e.index, m, s.handled[e][m]))
  }

  /** The payload buffer holds payloads of the current round that came in by a link. */
  ghost predicate PayloadsOk(t: Session, s: State, n: nat)
    requires Shape(t, s) && n in t.hood
  {
    s.conns[n].syncing ==> forall x <- s.conns[n].payloads ::
      Endpoint(n, x.0) in t.g.peer && x.1.contents.Payload? && x.1.round == s.conns[n].round
  }

  ghost predicate Ledger(t: Session, s: State) {
    && Shape(t, s)
    && (forall e, m | e in t.g.peer && e.node in t.hood :: Accounted(t, s, e, m) && HandledOk(t, s, e, m))
    && (forall n <- t.hood :: PayloadsOk(t, s, n))
  }

  lemma LedgerInit(t: Session, s: State)
    requires t.Valid() && Init(t, s)
    ensures Ledger(t, s)
  {
    hide Session.Valid;
  }

  // ---- one connector's own turn ----

  /** What an own turn of a connector does to the messages it has, apart from those it sends itself. */
  ghost predicate Moved(hood: Neighborhood, c: Conn, c': Conn, h: Option<(nat, CommMsg)>) {
    && c.round <= c'.round
    && (forall x: (nat, CommMsg) | x.1.round >= c'.round ::
          Buffered(c', x) == Buffered(c, x) + (if h == Some(x) && x.1.round > c.round then 1 else 0))
    && (c'.round == c.round && c.syncing ==> c'.syncing && Stays(hood, c, c', h))
    && (c'.syncing && !(c'.round == c.round && c.syncing) ==> c'.round == c.round && c'.payloads == [])
  }

  /** Within the round nothing heard is forgotten, and the message handled now has its effect. */
  ghost predicate Stays(hood: Neighborhood, c: Conn, c': Conn, h: Option<(nat, CommMsg)>) {
    && (c.asked ==> c'.asked)
    && (forall i <- c.heard :: i in c'.heard && c.heard[i] <= c'.heard[i])
    && (forall x: (nat, CommMsg) :: multiset(c'.payloads)[x] == multiset(c.payloads)[x] +
          (if h == Some(x) && x.1.round == c.round && x.1.contents.Payload? then 1 else 0))
    && (h.Some? && h.value.1.round == c.round && !h.value.1.contents.Payload? ==> Acted(hood, c', h.value.0, h.value.1, 0))
  }

  lemma AppendCounts<T>(s: seq<T>, x: T)
    ensures forall y :: multiset(s + [x])[y] == multiset(s)[y] + (if y == x then 1 else 0)
  {
    assert multiset(s + [x]) == multiset(s) + multiset{x};
  }

  lemma DecideMoves(hood: Neighborhood, c: Conn, d: Decision, h: Option<(nat, CommMsg)>)
    requires h.Some? ==> h.value.1.round <= c.round
    ensures Moved(hood, c, Decide(hood, c, d).conn, h)
  {
  }

  /** The connector changes, but neither its round nor its buffers do. */
  lemma QuietMoves(hood: Neighborhood, c: Conn, c': Conn, h: Option<(nat, CommMsg)>)
    requires c'.delayed == c.delayed && c'.undelayed == c.undelayed && c'.payloads == c.payloads
    requires c'.round == c.round && c'.syncing == c.syncing
    requires (c.asked ==> c'.asked) && (forall i <- c.heard :: i in c'.heard && c.heard[i] <= c'.heard[i])
    requires h.Some? ==>
      h.value.1.round < c.round || (h.value.1.round == c.round && !h.value.1.contents.Payload? && Acted(hood, c', h.value.0, h.value.1, 0))
    ensures Moved(hood, c, c', h)
  {
    hide Acted;
  }

  lemma FailureMoves(hood: Neighborhood, c: Conn, h: Option<(nat, CommMsg)>)
    requires h.Some? ==> h.value.1.round == c.round && h.value.1.contents == Suggest(Failure)
    ensures Moved(hood, c, RequestFailure(hood, c).conn, h)
  {
    hide Moved;
    if hood.parent == None { DecideMoves(hood, c, Failure, h); } else { QuietMoves(hood, c, RequestFailure(hood, c).conn, h); }
  }

  lemma DelayMoves(hood: Neighborhood, c: Conn, i: nat, m: CommMsg)
    requires m.round > c.round
    ensures Moved(hood, c, c.(delayed := c.delayed + [(i, m)]), Some((i, m)))
  {
    hide Acted;
    AppendCounts(c.delayed, (i, m));
  }

  lemma PayloadMoves(hood: Neighborhood, c: Conn, i: nat, m: CommMsg)
    requires m.round == c.round && m.contents.Payload?
    ensures Moved(hood, c, c.(payloads := c.payloads + [(i, m)]), Some((i, m)))
  {
    hide Acted;
    AppendCounts(c.payloads, (i, m));
  }

  lemma HandleMoves(hood: Neighborhood, c: Conn, i: nat, m: CommMsg)
    ensures Moved(hood, c, Handle(hood, c, i, m).conn, Some((i, m)))
  {
    hide Moved, RequestFailure, Decide;
    if m.round < c.round {
      QuietMoves(hood, c, c, Some((i, m)));
    } else if m.round > c.round {
      DelayMoves(hood, c, i, m);
    } else {
      match m.contents
      case Suggest(d) => SuggestMoves(hood, c, i, m);
      case Announce(d) =>
        if Some(i) == hood.parent { DecideMoves(hood, c, d, Some((i, m))); } else { QuietMoves(hood, c, c, Some((i, m))); }
      case Payload(_, _) => PayloadMoves(hood, c, i, m);
    }
  }

  lemma SuggestMoves(hood: Neighborhood, c: Conn, i: nat, m: CommMsg)
    requires m.round == c.round && m.contents.Suggest?
    ensures Moved(hood, c, OnSuggest(hood, c, i, m.contents.suggestion).conn, Some((i, m)))
  {
    hide Moved, RequestFailure, Decide;
    var d := m.contents.suggestion;
    if i in hood.children && d.Failure? {
      FailureMoves(hood, c, Some((i, m)));
    } else {
      QuietMoves(hood, c, OnSuggest(hood, c, i, d).conn, Some((i, m)));
    }
  }

  lemma EnterMoves(hood: Neighborhood, c: Conn, parts: set<Id>)
    requires !c.syncing
    ensures Moved(hood, c, Enter(hood, c, parts), None)
  {
    hide Stays;
    assert multiset(c.undelayed + c.delayed) == multiset(c.undelayed) + multiset(c.delayed);
  }

  lemma SkipMoves(hood: Neighborhood, c: Conn)
    requires !c.syncing
    ensures Moved(hood, c, c.(round := c.round + 1), None)
  {
  }

  lemma ForwardMoves(hood: Neighborhood, c: Conn, x: Predicate)
    ensures Moved(hood, c, Forward(hood, c, x).conn, None)
  {
    hide Moved, Decide;
    if hood.parent == None { DecideMoves(hood, c, Success(x), None); } else { QuietMoves(hood, c, Forward(hood, c, x).conn, None); }
  }

  /** The connector after it has popped the message it handles, if that was undelayed. */
  ghost function Popped(c: Conn, a: Action): Conn {
    if a.Undelaying? && c.undelayed != [] then c.(undelayed := c.undelayed[..|c.undelayed| - 1]) else c
  }

  ghost function Own(h: Option<(Endpoint, CommMsg)>): Option<(nat, CommMsg)> {
    match h
    case None => None
    case Some(x) => Some((x.0.index, x.1))
  }

  lemma ActionMoves(t: Session, s: State, a: Action)
    requires Shape(t, s) && Enabled(t, s, a) && Actor(a) in t.hood
    ensures Moved(t.hood[Actor(a)], Popped(s.conns[Actor(a)], a), Acts(t, s, a).conn, Own(Handling(s, a)))
  {
    hide Moved, Handle, RequestFailure, Forward, Enter, Session.Valid, Solves;
    var hood, c := t.hood[Actor(a)], s.conns[Actor(a)];
    match a
    case Entering(_, parts) => EnterMoves(hood, c, parts);
    case Skipping(_) => SkipMoves(hood, c);
    case Submitting(_, part, p) => QuietMoves(hood, c, Submit(c, part, p), None);
    case Forwarding(_, x) => ForwardMoves(hood, c, x);
    case Sending(_, _, _, _) => QuietMoves(hood, c, c, None);
    case Failing(_) => FailureMoves(hood, c, None);
    case Undelaying(_) =>
      var (index, m) := c.undelayed[|c.undelayed| - 1];
      HandleMoves(hood, Popped(c, a), index, m);
    case Receiving(e) => HandleMoves(hood, c, e.index, s.inbox[e][0]);
  }

  // ---- the whole session ----

  lemma HeadCounts(q: seq<CommMsg>, more: seq<CommMsg>, m: CommMsg)
    requires q != []
    ensures multiset(q[1..] + more)[m] == multiset(q)[m] - (if q[0] == m then 1 else 0) + multiset(more)[m]
  {
    assert q == [q[0]] + q[1..];
    assert multiset(q) == multiset{q[0]} + multiset(q[1..]);
    assert multiset(q[1..] + more) == multiset(q[1..]) + multiset(more);
  }

  ghost predicate Takes(s: State, a: Action, e: Endpoint, m: CommMsg) {
    Handling(s, a) == Some((e, m))
  }

  lemma InboxIs(t: Session, s: State, a: Action, e: Endpoint)
    requires Shape(t, s) && Enabled(t, s, a) && e in t.g.peer && Shape(t, Next(t, s, a))
    ensures a == Receiving(e) ==> s.inbox[e] != []
    ensures Next(t, s, a).inbox[e] == (if a == Receiving(e) then s.inbox[e][1..] else s.inbox[e])
      + Arriving(t.g, Actor(a), Acts(t, s, a).sends, e)
  {
    hide Session.Valid, Acts, Solves, Arriving, Handled, Handling;
  }

  lemma InboxCounts(t: Session, s: State, a: Action, e: Endpoint, m: CommMsg)
    requires Shape(t, s) && Enabled(t, s, a) && e in t.g.peer && Shape(t, Next(t, s, a))
    ensures multiset(Next(t, s, a).inbox[e])[m] == multiset(s.inbox[e])[m]
      - (if a.Receiving? && Takes(s, a, e, m) then 1 else 0) + multiset(Arriving(t.g, Actor(a), Acts(t, s, a).sends, e))[m]
  {
    hide Session.Valid, Acts, Solves, Arriving, Enabled, Next;
    var arriving := Arriving(t.g, Actor(a), Acts(t, s, a).sends, e);
    InboxIs(t, s, a, e);
    if a.Receiving? && e == a.e {
      HeadCounts(s.inbox[e], arriving, m);
    } else {
      assert multiset(s.inbox[e] + arriving) == multiset(s.inbox[e]) + multiset(arriving);
    }
  }

  lemma HandledCounts(t: Session, s: State, a: Action, e: Endpoint, m: CommMsg)
    requires Shape(t, s) && Enabled(t, s, a) && e in t.g.peer && e.node in t.hood && Shape(t, Next(t, s, a))
    ensures Next(t, s, a).handled[e][m] == s.handled[e][m]
      + (if Takes(s, a, e, m) && m.round == s.conns[e.node].round then 1 else 0)
  {
    hide Session.Valid, Acts, Solves, Arriving, Enabled, Next;
    HandledIs(t, s, a);
    hide Handling;
  }

  lemma HandledIs(t: Session, s: State, a: Action)
    requires Shape(t, s) && Enabled(t, s, a)
    ensures Next(t, s, a).handled == Handled(s, Handling(s, a))
  {
    hide Session.Valid, Acts, Solves, Arriving, Handled, Handling;
  }

  lemma PoppedCounts(s: State, a: Action, n: nat, x: (nat, CommMsg))
    requires n in s.conns && n == Actor(a)
    ensures Buffered(Popped(s.conns[n], a), x) == Buffered(s.conns[n], x)
      - (if a.Undelaying? && Takes(s, a, Endpoint(n, x.0), x.1) then 1 else 0)
  {
    var c := s.conns[n];
    if a.Undelaying? && c.undelayed != [] {
      var front, last := c.undelayed[..|c.undelayed| - 1], c.undelayed[|c.undelayed| - 1];
      assert c.undelayed == front + [last];
      AppendCounts(front, last);
      assert Handling(s, a) == Some((Endpoint(n, last.0), last.1));
      assert x == (x.0, x.1) && last == (last.0, last.1);
    }
  }

  /** Whoever handles a message does so at one of its own links. */
  lemma TakesOwn(t: Session, s: State, a: Action, e: Endpoint, m: CommMsg)
    requires Shape(t, s) && Enabled(t, s, a) && Takes(s, a, e, m)
    ensures e.node == Actor(a) && (a.Receiving? || a.Undelaying?)
  {
    hide Session.Valid, Solves;
  }

  lemma AccountedNext(t: Session, s: State, a: Action, e: Endpoint, m: CommMsg)
    requires Shape(t, s) && Enabled(t, s, a) && e in t.g.peer && e.node in t.hood && Shape(t, Next(t, s, a))
    requires Accounted(t, s, e, m)
    ensures Accounted(t, Next(t, s, a), e, m)
  {
    hide Session.Valid, Acts, Solves, Arriving, Enabled, Next, Buffered, Popped, Takes;
    NextShape(t, s, a);
    NextSent(t, s, a, e);
    InboxCounts(t, s, a, e, m);
    HandledCounts(t, s, a, e, m);
    if Takes(s, a, e, m) { TakesOwn(t, s, a, e, m); }
    if e.node == Actor(a) {
      ActionMoves(t, s, a);
      PoppedCounts(s, a, e.node, (e.index, m));
      OwnTakes(s, a, e, m);
      PoppedRound(s.conns[e.node], a);
      MovedCounts(t.hood[e.node], Popped(s.conns[e.node], a), Acts(t, s, a).conn, Own(Handling(s, a)), (e.index, m));
    }
  }

  lemma PoppedRound(c: Conn, a: Action)
    ensures Popped(c, a) == c.(undelayed := Popped(c, a).undelayed)
  {
  }

  lemma OwnTakes(s: State, a: Action, e: Endpoint, m: CommMsg)
    requires e.node == Actor(a)
    ensures Own(Handling(s, a)) == Some((e.index, m)) <==> Takes(s, a, e, m)
  {
  }

  lemma MovedCounts(hood: Neighborhood, c: Conn, c': Conn, h: Option<(nat, CommMsg)>, x: (nat, CommMsg))
    requires Moved(hood, c, c', h)
    ensures c.round <= c'.round
    ensures x.1.round >= c'.round ==> Buffered(c', x) == Buffered(c, x) + (if h == Some(x) && x.1.round > c.round then 1 else 0)
  {
    hide Stays, Buffered;
  }

  /** A handled message was waiting, its recipient is in a round, and the link exists. */
  lemma TakesWaiting(t: Session, s: State, a: Action, e: Endpoint, m: CommMsg)
    requires Inv(t, s) && Enabled(t, s, a) && Takes(s, a, e, m)
    ensures e.node in t.hood && e in t.g.peer && s.conns[e.node].syncing && WaitingCount(t, s, e, m) > 0
  {
    hide Session.Valid, Solves, ConnOk, ResultOk, MsgOk;
    var c := s.conns[e.node];
    if a.Undelaying? {
      var last := c.undelayed[|c.undelayed| - 1];
      assert last in c.undelayed && last == (e.index, m);
      assert Waiting(t, s, e.node, e.index, m);
      assert MsgOk(t, s, e.node, e.index, m);
      MsgLink(t, s, e.node, e.index, m);
      assert last in multiset(c.undelayed);
    } else {
      assert m in multiset(s.inbox[e]);
    }
  }

  lemma MsgLink(t: Session, s: State, n: nat, i: nat, m: CommMsg)
    requires Shape(t, s) && MsgOk(t, s, n, i, m)
    ensures Endpoint(n, i) in t.g.peer
  {
  }

  /** Acting upon messages within a round. */
  lemma ActedOn(hood: Neighborhood, c: Conn, c': Conn, h: Option<(nat, CommMsg)>, i: nat, m: CommMsg, count: nat, count': nat)
    requires Stays(hood, c, c', h) && m.round == c.round
    requires count' == count + (if h == Some((i, m)) then 1 else 0)
    requires count > 0 || m.contents.Payload? ==> Acted(hood, c, i, m, count)
    requires count' > 0 || m.contents.Payload?
    ensures Acted(hood, c', i, m, count')
  {
  }

  lemma HandledNext(t: Session, s: State, a: Action, e: Endpoint, m: CommMsg)
    requires Inv(t, s) && Enabled(t, s, a) && e in t.g.peer && e.node in t.hood && Shape(t, Next(t, s, a))
    requires Accounted(t, s, e, m) && HandledOk(t, s, e, m)
    ensures HandledOk(t, Next(t, s, a), e, m)
  {
    hide Inv, Session.Valid, Acts, Solves, Arriving, Enabled, Next, Takes, Acted, WaitingCount;
    InvShaped(t, s);
    NextShape(t, s, a);
    NextSent(t, s, a, e);
    HandledCounts(t, s, a, e, m);
    if Takes(s, a, e, m) { TakesOwn(t, s, a, e, m); TakesWaiting(t, s, a, e, m); }
    if e.node == Actor(a) {
      ActionMoves(t, s, a);
      OwnTakes(s, a, e, m);
      PoppedRound(s.conns[e.node], a);
      HandledHere(t.hood[e.node], Popped(s.conns[e.node], a), Acts(t, s, a).conn, Own(Handling(s, a)), e.index, m,
                  s.handled[e][m], Next(t, s, a).handled[e][m]);
      ActedPopped(t.hood[e.node], s.conns[e.node], a, e.index, m, s.handled[e][m]);
    }
  }

  lemma ActedPopped(hood: Neighborhood, c: Conn, a: Action, i: nat, m: CommMsg, count: nat)
    ensures Acted(hood, Popped(c, a), i, m, count) <==> Acted(hood, c, i, m, count)
  {
  }

  /** What is known of one message before an own turn carries over. */
  ghost predicate Timely(hood: Neighborhood, c: Conn, i: nat, m: CommMsg, count: nat) {
    && (count > 0 ==> m.round < c.round || (m.round == c.round && c.syncing))
    && (m.round == c.round && c.syncing && (count > 0 || m.contents.Payload?) ==> Acted(hood, c, i, m, count))
  }

  lemma HandledHere(hood: Neighborhood, c: Conn, c': Conn, h: Option<(nat, CommMsg)>, i: nat, m: CommMsg, count: nat, count': nat)
    requires Moved(hood, c, c', h) && (h == Some((i, m)) ==> c.syncing)
    requires count' == count + (if h == Some((i, m)) && m.round == c.round then 1 else 0)
    ensures Timely(hood, c, i, m, count) ==> Timely(hood, c', i, m, count')
  {
    hide Acted;
    if Timely(hood, c, i, m, count) && m.round == c'.round && c'.syncing && (count' > 0 || m.contents.Payload?) {
      if c'.round == c.round && c.syncing {
        ActedOn(hood, c, c', h, i, m, count, count');
      } else {
        NothingYet(hood, c', i, m);
      }
    }
  }

  lemma NothingYet(hood: Neighborhood, c: Conn, i: nat, m: CommMsg)
    requires c.payloads == [] && m.contents.Payload?
    ensures Acted(hood, c, i, m, 0)
  {
  }

  lemma PayloadsNext(t: Session, s: State, a: Action, n: nat)
    requires Inv(t, s) && Enabled(t, s, a) && n in t.hood && Shape(t, Next(t, s, a)) && PayloadsOk(t, s, n)
    ensures PayloadsOk(t, Next(t, s, a), n)
  {
    hide Inv, Session.Valid, Acts, Solves, Arriving, Enabled, Next;
    InvShaped(t, s);
    NextShape(t, s, a);
    if n == Actor(a) {
      ActionMoves(t, s, a);
      PoppedRound(s.conns[n], a);
      var c, c', h := s.conns[n], Acts(t, s, a).conn, Handling(s, a);
      if h.Some? { TakesOwn(t, s, a, h.value.0, h.value.1); TakesWaiting(t, s, a, h.value.0, h.value.1); }
      hide Handling, Popped;
      forall x | x in c'.payloads && c'.syncing ensures Endpoint(n, x.0) in t.g.peer && x.1.contents.Payload? && x.1.round == c'.round {
        PayloadFrom(t.hood[n], Popped(c, a), c', Own(h), x);
      }
    }
  }

  lemma PayloadFrom(hood: Neighborhood, c: Conn, c': Conn, h: Option<(nat, CommMsg)>, x: (nat, CommMsg))
    requires Moved(hood, c, c', h) && c'.syncing && x in c'.payloads
    ensures c'.round == c.round && c.syncing && (x in c.payloads || (h == Some(x) && x.1.round == c.round && x.1.contents.Payload?))
  {
    hide Acted;
    assert x in multiset(c'.payloads);
    if x !in c.payloads { assert x !in multiset(c.payloads); }
  }

  lemma LedgerNext(t: Session, s: State, a: Action)
    requires Inv(t, s) && Ledger(t, s) && Enabled(t, s, a)
    ensures Ledger(t, Next(t, s, a))
  {
    hide Inv, Session.Valid, Enabled, Next, Accounted, HandledOk, PayloadsOk;
    InvShaped(t, s);
    NextShape(t, s, a);
    forall e, m | e in t.g.peer && e.node in t.hood ensures Accounted(t, Next(t, s, a), e, m) && HandledOk(t, Next(t, s, a), e, m) {
      AccountedNext(t, s, a, e, m);
      HandledNext(t, s, a, e, m);
    }
    forall n | n in t.hood ensures PayloadsOk(t, Next(t, s, a), n) { PayloadsNext(t, s, a, n); }
  }

  lemma InvShaped(t: Session, s: State)
    requires Inv(t, s)
    ensures Shape(t, s)
  {
  }

  lemma {:induction false} RunLedger(t: Session, run: seq<State>, k: nat)
    requires IsRun(t, run) && k < |run|
    ensures Ledger(t, run[k])
  {
    hide Inv, Enabled, Next, Init, Session.Valid, Ledger;
    if k == 0 {
      LedgerInit(t, run[0]);
    } else {
      RunLedger(t, run, k - 1);
      RunInv(t, run, k - 1);
      assert Moves(t, run[k - 1], run[k - 1 + 1]);
      var a :| Enabled(t, run[k - 1], a) && run[k] == Next(t, run[k - 1], a);
      LedgerNext(t, run[k - 1], a);
    }
  }

  // ---- the theorems ----

  /** In every state of every run, a message that was ever sent to a connector for its current round or a later
      one has not been dropped: each copy still waits, or was acted upon in its own round; a payload acted upon
      in the current round is in the payload buffer, each copy of it. */
  lemma NothingIsDropped(t: Session, run: seq<State>, k: nat, e: Endpoint, m: CommMsg)
    requires IsRun(t, run) && k < |run| && e in t.g.peer && e.node in t.hood && Shape(t, run[k])
    requires m.round >= run[k].conns[e.node].round
    ensures run[k].sent[e][m] == WaitingCount(t, run[k], e, m) + run[k].handled[e][m]
    ensures run[k].handled[e][m] > 0 ==>
      && m.round == run[k].conns[e.node].round && run[k].conns[e.node].syncing
      && Acted(t.hood[e.node], run[k].conns[e.node], e.index, m, run[k].handled[e][m])
  {
    hide IsRun, Session.Valid, Acted, WaitingCount;
    RunLedger(t, run, k);
    assert Accounted(t, run[k], e, m) && HandledOk(t, run[k], e, m);
  }

  /** What has been sent stays sent. */
  lemma {:induction false} SentGrows(t: Session, run: seq<State>, j: nat, k: nat, e: Endpoint)
    requires IsRun(t, run) && j <= k < |run| && e in t.g.peer && Shape(t, run[j]) && Shape(t, run[k])
    ensures run[j].sent[e] <= run[k].sent[e]
    decreases k
  {
    hide Session.Valid, Enabled, Next, Init;
    if j < k {
      assert Moves(t, run[k - 1], run[k - 1 + 1]);
      var a :| Enabled(t, run[k - 1], a) && run[k] == Next(t, run[k - 1], a);
      SentGrows(t, run, j, k - 1, e);
      NextSent(t, run[k - 1], a, e);
    }
  }

  lemma {:induction false} NotYetEarlier(t: Session, run: seq<State>, j: nat, k: nat, n: nat, r: nat)
    requires IsRun(t, run) && j <= k < |run| && n in t.hood && Shape(t, run[j]) && Shape(t, run[k]) && NotYet(run[k].conns[n], r)
    ensures NotYet(run[j].conns[n], r)
    decreases k
  {
    hide Session.Valid, Enabled, Next, Init, NotYet;
    if j < k {
      assert Moves(t, run[k - 1], run[k - 1 + 1]);
      var a :| Enabled(t, run[k - 1], a) && run[k] == Next(t, run[k - 1], a);
      NotYetBefore(t, run[k - 1], a, n, r);
      NotYetEarlier(t, run, j, k - 1, n, r);
    }
  }

  /** Over any stretch of any run, no copy of a message is lost whose recipient has not entered its round. */
  lemma EarlyMessagesAreKept(t: Session, run: seq<State>, j: nat, k: nat, e: Endpoint, m: CommMsg)
    requires IsRun(t, run) && j <= k < |run| && e in t.g.peer && e.node in t.hood && Shape(t, run[j]) && Shape(t, run[k])
    requires NotYet(run[k].conns[e.node], m.round)
    ensures WaitingCount(t, run[j], e, m) <= WaitingCount(t, run[k], e, m)
  {
    hide IsRun, Session.Valid, Acted, WaitingCount;
    NotYetEarlier(t, run, j, k, e.node, m.round);
    NothingIsDropped(t, run, j, e, m);
    NothingIsDropped(t, run, k, e, m);
    SentGrows(t, run, j, k, e);
  }
}
