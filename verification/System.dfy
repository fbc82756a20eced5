/** The whole runtime in its rounds: connectors with their components, which submit solutions, send payloads over
    channels and links, and are fed what arrives. */
module System {
  import opened Network
  import opened Predicates
  import opened Components
  import opened Ports
  import R = Rounds
  import N = Native
  import PR = ProtoRuns

  /** The environment of a session: the port table of each connector in each round, the local port at each link
      end, and the variables of all channels. */
  datatype World = World(t: R.Session, ports: (nat, nat) -> PortMap, linkPort: map<Endpoint, Id>, channels: iset<Id>)

  /** The port table of connector `n`: peers are symmetric, a port has a local owner iff its identifier is local, and
      otherwise is routed to a link, at whose other end it is. */
  ghost predicate TableOk(w: World, n: nat, ports: PortMap) {
    && PeersOk(ports) && AllPaired(ports)
    && (forall p <- ports :: SpecVarFor(ports, p) in w.channels && (ports[p].owner.connector == n <==> p.connector == n))
    && (forall p <- ports :: ports[p].route.Net? <==> p.connector != n)
    && (forall p <- ports | ports[p].route.Net? :: AcrossLink(w, n, p, ports[p].route.index))
  }

  ghost predicate AcrossLink(w: World, n: nat, p: Id, i: nat) {
    Endpoint(n, i) in w.t.g.peer && w.t.g.peer[Endpoint(n, i)] in w.linkPort && w.linkPort[w.t.g.peer[Endpoint(n, i)]] == p
    && w.t.g.peer[Endpoint(n, i)].node == p.connector
  }

  /** Two tables agree on the ports they share. */
  ghost predicate TablesAgree(here: PortMap, there: PortMap) {
    forall p | p in here && p in there :: here[p].peer == there[p].peer && here[p].polarity == there[p].polarity
  }

  ghost predicate WorldOk(w: World) {
    && w.t.Valid() && w.linkPort.Keys == w.t.g.peer.Keys
    && (forall n, r :: TableOk(w, n, w.ports(n, r)))
    && (forall n, m, r :: TablesAgree(w.ports(n, r), w.ports(m, r)))
  }

  /** The component `part` of connector `n` fits the connector's port table of the round. */
  ghost predicate Fits(w: World, n: nat, r: nat, part: Id, c: Component) {
    var ports := w.ports(n, r);
    && part.connector == n && KnowsChannels(c, w.channels) && (c.Protocol? ==> PR.PutsOwn(c.agent.ctx, c.run))
    && (forall p :: p in c.Owned() <==> p in ports && ports[p].owner == part)
    && (forall p <- c.Owned() :: c.IsPutter(p) <==> ports[p].polarity == Putter)
    && (forall p <- c.Vars() :: p in ports && ports[p].peer.Some? && c.Vars()[p] == SpecVarFor(ports, p))
  }

  /** The connectors and the links, and the components of each connector in each round it has entered. */
  datatype Sys = Sys(net: R.State, comps: map<(nat, nat), map<Id, Component>>)

  datatype Action =
    | Net(a: R.Action)
    | Enter(n: nat, parts: map<Id, Component>)
    | Submit(n: nat, part: Id, p: Predicate)                                     // a component's solution reaches the storage
    | Send(n: nat, part: Id, o: (Id, Predicate, seq<nat>), i: nat)               // a put leaves over link `i`
    | FeedLocal(n: nat, part: Id, from: Id, o: (Id, Predicate, seq<nat>), c: Component)   // a put reaches a local getter
    | FeedNet(n: nat, part: Id, x: (nat, R.CommMsg), c: Component)               // a payload from a link reaches its getter

  ghost predicate Has(s: Sys, n: nat, r: nat, part: Id) {
    (n, r) in s.comps && part in s.comps[(n, r)]
  }

  /** The getter at the other end of the channel of `p`. */
  ghost predicate GoesTo(ports: PortMap, p: Id, q: Id, route: Route) {
    p in ports && ports[p].peer == Some(q) && q in ports && ports[q].route == route
  }

  ghost predicate CanFeed(w: World, s: Sys, n: nat, part: Id, m: N.Message, c: Component) {
    && n in s.net.conns && s.net.conns[n].syncing
    && var r := s.net.conns[n].round;
       && Has(s, n, r, part) && m.getter in w.ports(n, r) && w.ports(n, r)[m.getter].owner == part
       && Feeds(s.comps[(n, r)][part], m, c)
  }

  ghost function LinkMessage(w: World, n: nat, x: (nat, R.CommMsg)): N.Message
    requires Endpoint(n, x.0) in w.linkPort && x.1.contents.Payload?
  {
    N.Message(w.linkPort[Endpoint(n, x.0)], x.1.contents.pred, x.1.contents.bytes)
  }

  /** The step of the connectors and links that goes with an action, if any. */
  function NetAction(a: Action): Option<R.Action> {
    match a
    case Net(b) => Some(b)
    case Enter(n, parts) => Some(R.Entering(n, parts.Keys))
    case Submit(n, part, p) => Some(R.Submitting(n, part, p))
    case Send(n, _, o, i) => Some(R.Sending(n, i, o.1, o.2))
    case _ => None
  }

  ghost predicate Enabled(w: World, s: Sys, a: Action)
    requires R.Shape(w.t, s.net)
  {
    && (NetAction(a).Some? ==> R.Enabled(w.t, s.net, NetAction(a).value))
    && match a
       case Net(b) => !b.Entering? && !b.Submitting? && !b.Sending?
       case Enter(n, parts) => forall part <- parts :: Starts(parts[part]) && Fits(w, n, s.net.conns[n].round, part, parts[part])
       case Submit(n, part, p) => Has(s, n, s.net.conns[n].round, part) && p in s.comps[(n, s.net.conns[n].round)][part].Submitted()
       case Send(n, part, o, i) =>
         var r := s.net.conns[n].round;
         && Has(s, n, r, part) && o in s.comps[(n, r)][part].Outgoing()
         && exists q :: GoesTo(w.ports(n, r), o.0, q, Route.Net(i))
       case FeedLocal(n, part, from, o, c) =>
         && n in s.net.conns && Has(s, n, s.net.conns[n].round, from) && o in s.comps[(n, s.net.conns[n].round)][from].Outgoing()
         && exists q :: GoesTo(w.ports(n, s.net.conns[n].round), o.0, q, Local) && CanFeed(w, s, n, part, N.Message(q, o.1, o.2), c)
       case FeedNet(n, part, x, c) =>
         && n in s.net.conns && x in s.net.conns[n].payloads && x.1.contents.Payload? && Endpoint(n, x.0) in w.linkPort
         && CanFeed(w, s, n, part, LinkMessage(w, n, x), c)
  }

  ghost function Fed(s: Sys, n: nat, part: Id, c: Component): Sys
    requires n in s.net.conns && Has(s, n, s.net.conns[n].round, part)
  {
    var k := (n, s.net.conns[n].round);
    s.(comps := s.comps[k := s.comps[k][part := c]])
  }

  ghost function Next(w: World, s: Sys, a: Action): Sys
    requires R.Shape(w.t, s.net) && Enabled(w, s, a)
  {
    match a
    case Net(b) => s.(net := R.Next(w.t, s.net, b))
    case Enter(n, parts) =>
      Sys(R.Next(w.t, s.net, R.Entering(n, parts.Keys)), s.comps[(n, s.net.conns[n].round) := parts])
    case Submit(n, part, p) => s.(net := R.Next(w.t, s.net, R.Submitting(n, part, p)))
    case Send(n, _, o, i) => s.(net := R.Next(w.t, s.net, R.Sending(n, i, o.1, o.2)))
    case FeedLocal(n, part, _, _, c) => Fed(s, n, part, c)
    case FeedNet(n, part, _, c) => Fed(s, n, part, c)
  }

  ghost predicate Init(w: World, s: Sys) {
    R.Init(w.t, s.net) && s.comps == map[]
  }

  ghost predicate Moves(w: World, s: Sys, s': Sys) {
    R.Shape(w.t, s.net) && exists a | Enabled(w, s, a) :: s' == Next(w, s, a)
  }

  ghost predicate IsRun(w: World, run: seq<Sys>) {
    && WorldOk(w) && |run| > 0 && Init(w, run[0])
    && forall k | 0 <= k < |run| - 1 :: Moves(w, run[k], run[k + 1])
  }
}
