/** The synchronous rounds: children suggest solutions or failure to their parents in the
    consensus tree, the root decides, and the decision is announced down the tree. */
module Rounds {
  import opened Network
  import opened Predicates
  import opened Solutions

  datatype Decision = Failure | Success(pred: Predicate)

  datatype Contents = Suggest(suggestion: Decision) | Announce(decision: Decision) | Payload(pred: Predicate, bytes: seq<nat>)

  datatype CommMsg = CommMsg(round: nat, contents: Contents)

  datatype Neighborhood = Neighborhood(parent: Option<nat>, children: set<nat>)

  /** A connector between and during rounds. `locals[r]` holds what each local component has
      submitted in round `r`, from the moment the connector entered that round; `heard` holds what
      each child has suggested in the current round; `results[r]` is the decision of round `r`. */
  datatype Conn = Conn(
    round: nat, syncing: bool, asked: bool,
    delayed: seq<(nat, CommMsg)>, undelayed: seq<(nat, CommMsg)>, payloads: seq<(nat, CommMsg)>,
    locals: map<nat, map<Id, set<Predicate>>>, heard: map<nat, set<Predicate>>, forwarded: set<Predicate>,
    results: map<nat, Decision>)

  /** What a connector does in one turn, with at most one message per link. */
  datatype Effect = Effect(conn: Conn, sends: map<nat, CommMsg>)

  /** A session after setup: the links, each connector's place in the consensus tree,
      and a numbering of the connectors in which parents come first. */
  datatype Session = Session(g: Graph, hood: map<nat, Neighborhood>, root: nat, depth: map<nat, nat>, bound: nat) {

    ghost predicate Valid() {
      && g.Valid() && hood.Keys == g.degree.Keys == depth.Keys && root in hood
      && (forall n <- hood :: HoodOk(n))
      && (forall e <- g.peer :: MirrorOk(e))
    }

    ghost predicate HoodOk(n: nat)
      requires n in hood && hood.Keys == g.degree.Keys == depth.Keys && g.Valid()
    {
      && (hood[n].parent == None <==> n == root)
      && depth[n] <= bound
      && (forall i <- hood[n].children :: i < g.degree[n])
      && (hood[n].parent.Some? ==> hood[n].parent.value < g.degree[n])
    }

    ghost predicate MirrorOk(e: Endpoint)
      requires e in g.peer && g.Valid() && hood.Keys == g.degree.Keys == depth.Keys
    {
      var f := g.peer[e];
      && f.node in hood
      && (e.index in hood[e.node].children <==> hood[f.node].parent == Some(f.index))
      && (e.index in hood[e.node].children ==> depth[e.node] < depth[f.node])
    }

    /** The connector at the other end of the `i`-th link of `n`. */
    ghost function Across(n: nat, i: nat): nat
      requires Endpoint(n, i) in g.peer
    {
      g.peer[Endpoint(n, i)].node
    }
  }

  // ---- one connector ----

  function Decide(hood: Neighborhood, c: Conn, d: Decision): Effect {
    Effect(c.(round := c.round + 1, syncing := false, results := c.results[c.round := d]),
           map i | i in hood.children :: CommMsg(c.round, Announce(d)))
  }

  /** A timeout, an inconsistent component or a failing child: tell the parent once, or decide. */
  function RequestFailure(hood: Neighborhood, c: Conn): Effect {
    if hood.parent == None then Decide(hood, c, Failure)
    else if c.asked then Effect(c, map[])
    else Effect(c.(asked := true), map[hood.parent.value := CommMsg(c.round, Suggest(Failure))])
  }

  function OnSuggest(hood: Neighborhood, c: Conn, index: nat, d: Decision): Effect {
    if index !in hood.children then Effect(c, map[])
    else match d
      case Success(p) =>
        var so := if index in c.heard then c.heard[index] else {};
        Effect(c.(heard := c.heard[index := so + {p}]), map[])
      case Failure => RequestFailure(hood, c)
  }

  /** Late messages are discarded, early ones are delayed, those of this round are acted upon. */
  function Handle(hood: Neighborhood, c: Conn, index: nat, m: CommMsg): Effect {
    if m.round < c.round then Effect(c, map[])
    else if m.round > c.round then Effect(c.(delayed := c.delayed + [(index, m)]), map[])
    else match m.contents
      case Suggest(d) => OnSuggest(hood, c, index, d)
      case Announce(d) => if Some(index) == hood.parent then Decide(hood, c, d) else Effect(c, map[])
      case Payload(_, _) => Effect(c.(payloads := c.payloads + [(index, m)]), map[])
  }

  function Enter(hood: Neighborhood, c: Conn, parts: set<Id>): Conn {
    c.(syncing := true, asked := false, heard := map i | i in hood.children :: {}, forwarded := {}, payloads := [],
       locals := c.locals[c.round := map p | p in parts :: {}],
       undelayed := c.undelayed + c.delayed, delayed := [])
  }

  function Submit(c: Conn, part: Id, p: Predicate): Conn
    requires c.round in c.locals && part in c.locals[c.round]
  {
    c.(locals := c.locals[c.round := c.locals[c.round][part := c.locals[c.round][part] + {p}]])
  }

  function Forward(hood: Neighborhood, c: Conn, x: Predicate): Effect {
    if hood.parent == None then Decide(hood, c, Success(x))
    else Effect(c.(forwarded := c.forwarded + {x}), map[hood.parent.value := CommMsg(c.round, Suggest(Success(x)))])
  }

  /** The set of solutions that a subtree of this connector has submitted. */
  ghost function SubtreeSet(c: Conn, id: SubtreeId): set<Predicate>
    requires c.round in c.locals
  {
    match id
    case LocalComponent(p) => if p in c.locals[c.round] then c.locals[c.round][p] else {}
    case NetEndpoint(i) => if i in c.heard then c.heard[i] else {}
  }

  /** `ids` lists the subtrees of this connector: its components and its children. */
  ghost predicate Subtrees(c: Conn, ids: seq<SubtreeId>)
    requires c.round in c.locals
  {
    && (forall p <- c.locals[c.round] :: LocalComponent(p) in ids)
    && (forall i <- c.heard :: NetEndpoint(i) in ids)
    && (forall id <- ids :: match id
          case LocalComponent(p) => p in c.locals[c.round]
          case NetEndpoint(i) => i in c.heard)
  }

  /** `x` is a solution of this connector, as the solution storage computes them. */
  ghost predicate Solves(c: Conn, x: Predicate) {
    && c.round in c.locals
    && exists ids :: Subtrees(c, ids) && IsSolution(x, seq(|ids|, k requires 0 <= k < |ids| => SubtreeSet(c, ids[k])))
  }

  // ---- the whole session ----

  /** The connectors and the messages on the way, and as history, for every link end: all messages ever sent
      to it, and those that were acted upon in their own round; and who requested failure, or was inconsistent
      before the round began, in which round. */
  datatype State = State(conns: map<nat, Conn>, inbox: map<Endpoint, seq<CommMsg>>,
                         sent: map<Endpoint, multiset<CommMsg>>, handled: map<Endpoint, multiset<CommMsg>>,
                         failed: set<(nat, nat)>, skipped: set<(nat, nat)>)

  const NEW_CONN: Conn := Conn(0, false, false, [], [], [], map[], map[], {}, map[])

  ghost predicate Init(t: Session, s: State) {
    && s.conns.Keys == t.hood.Keys && (forall n <- s.conns :: s.conns[n] == NEW_CONN)
    && s.inbox == (map e | e in t.g.peer :: [])
    && s.sent == (map e | e in t.g.peer :: multiset{}) && s.handled == (map e | e in t.g.peer :: multiset{})
    && s.failed == {} && s.skipped == {}
  }

  ghost predicate Shape(t: Session, s: State) {
    t.Valid() && s.conns.Keys == t.hood.Keys && s.inbox.Keys == s.sent.Keys == s.handled.Keys == t.g.peer.Keys
  }

  ghost function Arriving(g: Graph, n: nat, sends: map<nat, CommMsg>, e: Endpoint): seq<CommMsg>
    requires e in g.peer
  {
    if g.peer[e].node == n && g.peer[e].index in sends then [sends[g.peer[e].index]] else []
  }

  ghost function Turn(t: Session, s: State, n: nat, ef: Effect): State
    requires Shape(t, s)
  {
    State(s.conns[n := ef.conn], map e | e in s.inbox :: s.inbox[e] + Arriving(t.g, n, ef.sends, e),
          map e | e in s.sent :: s.sent[e] + multiset(Arriving(t.g, n, ef.sends, e)), s.handled, s.failed, s.skipped)
  }

  datatype Action =
    | Entering(n: nat, parts: set<Id>)         // the native calls `sync`, components reach their sync blocks
    | Skipping(n: nat)                         // a component is inconsistent before the round began
    | Submitting(n: nat, part: Id, p: Predicate)
    | Forwarding(n: nat, x: Predicate)
    | Sending(n: nat, i: nat, pred: Predicate, bytes: seq<nat>)   // a speculative payload leaves over a link
    | Failing(n: nat)                          // timeout, or a component ran out of branches
    | Undelaying(n: nat)                       // handle the last undelayed message
    | Receiving(e: Endpoint)                   // handle the next message from the network

  ghost predicate Enabled(t: Session, s: State, a: Action)
    requires Shape(t, s)
  {
    match a
    case Entering(n, _) => n in s.conns && !s.conns[n].syncing
    case Skipping(n) => n in s.conns && !s.conns[n].syncing
    case Submitting(n, part, p) =>
      n in s.conns && s.conns[n].syncing && s.conns[n].round in s.conns[n].locals && part in s.conns[n].locals[s.conns[n].round]
    case Forwarding(n, x) => n in s.conns && s.conns[n].syncing && Solves(s.conns[n], x) && x !in s.conns[n].forwarded
    case Sending(n, i, _, _) => n in s.conns && s.conns[n].syncing && Endpoint(n, i) in t.g.peer
    case Failing(n) => n in s.conns && s.conns[n].syncing
    case Undelaying(n) => n in s.conns && s.conns[n].syncing && s.conns[n].undelayed != []
    case Receiving(e) =>
      e in s.inbox && e.node in s.conns && s.conns[e.node].syncing && s.conns[e.node].undelayed == [] && s.inbox[e] != []
  }

  function Actor(a: Action): nat {
    match a
    case Entering(n, _) => n
    case Skipping(n) => n
    case Submitting(n, _, _) => n
    case Forwarding(n, _) => n
    case Sending(n, _, _, _) => n
    case Failing(n) => n
    case Undelaying(n) => n
    case Receiving(e) => e.node
  }

  /** What the acting connector does. */
  ghost function Acts(t: Session, s: State, a: Action): Effect
    requires Shape(t, s) && Enabled(t, s, a)
  {
    var n := Actor(a);
    var hood, c := t.hood[n], s.conns[n];
    match a
    case Entering(_, parts) => Effect(Enter(hood, c, parts), map[])
    case Skipping(_) => Effect(c.(round := c.round + 1), map[])
    case Submitting(_, part, p) => Effect(Submit(c, part, p), map[])
    case Forwarding(_, x) => Forward(hood, c, x)
    case Sending(_, i, pred, bytes) => Effect(c, map[i := CommMsg(c.round, Payload(pred, bytes))])
    case Failing(_) => RequestFailure(hood, c)
    case Undelaying(_) =>
      var (index, m) := c.undelayed[|c.undelayed| - 1];
      Handle(hood, c.(undelayed := c.undelayed[..|c.undelayed| - 1]), index, m)
    case Receiving(e) => Handle(hood, c, e.index, s.inbox[e][0])
  }

  /** The message that the connector handles, and the link end it came in by, if it handles one. */
  ghost function Handling(s: State, a: Action): Option<(Endpoint, CommMsg)> {
    match a
    case Receiving(e) => if e in s.inbox && s.inbox[e] != [] then Some((e, s.inbox[e][0])) else None
    case Undelaying(n) =>
      if n in s.conns && s.conns[n].undelayed != [] then
        var (index, m) := s.conns[n].undelayed[|s.conns[n].undelayed| - 1];
        Some((Endpoint(n, index), m))
      else None
    case _ => None
  }

  /** The state after the connector has taken its message off the link, if it does. */
  ghost function Taken(s: State, a: Action): (s': State)
    requires a.Receiving? ==> a.e in s.inbox && s.inbox[a.e] != []
    ensures s'.conns == s.conns && s'.sent == s.sent
    ensures s'.inbox.Keys == s.inbox.Keys && s'.handled.Keys == s.handled.Keys
  {
    s.(inbox := if a.Receiving? then s.inbox[a.e := s.inbox[a.e][1..]] else s.inbox, handled := Handled(s, Handling(s, a)),
       failed := if a.Failing? then s.failed + Noted(s, a.n) else s.failed,
       skipped := if a.Skipping? then s.skipped + Noted(s, a.n) else s.skipped)
  }

  /** The connector and the round it is in. */
  ghost function Noted(s: State, n: nat): set<(nat, nat)> {
    if n in s.conns then {(n, s.conns[n].round)} else {}
  }

  /** A message is acted upon if it belongs to the round its recipient is in. */
  ghost function Handled(s: State, h: Option<(Endpoint, CommMsg)>): (handled: map<Endpoint, multiset<CommMsg>>)
    ensures handled.Keys == s.handled.Keys
  {
    if h.Some? && h.value.0 in s.handled && h.value.0.node in s.conns && h.value.1.round == s.conns[h.value.0.node].round
    then s.handled[h.value.0 := s.handled[h.value.0] + multiset{h.value.1}] else s.handled
  }

  ghost function Next(t: Session, s: State, a: Action): State
    requires Shape(t, s) && Enabled(t, s, a)
  {
    Turn(t, Taken(s, a), Actor(a), Acts(t, s, a))
  }
}
