/** The port tables that the rounds rely on: those the exchange leaves behind, and whatever channels components create
    and ports they pass on afterwards. */
module WorldFromSetup {
  import opened Network
  import opened Predicates
  import opened Ports
  import opened Pairing
  import opened System
  import R = Rounds
  import N = Native
  import C = Components

  ghost predicate AllOpposed(w: Wiring)
    requires w.Valid()
  {
    forall e <- w.g.peer :: w.Opposed(e)
  }

  // ---- after the exchange ----

  /** The entry of a port at a link, at either end of that link. */
  ghost predicate LinkEntry(w: Wiring, n: nat, e: Endpoint, i: PortInfo)
    requires w.Valid() && e in w.g.peer
  {
    && i.peer == Some(w.Far(e)) && i.polarity == w.NearInfo(e).polarity && i.owner.connector == e.node
    && (if e.node == n then i.route == Local else w.g.peer[e].node == n && i.route == Route.Net(w.g.peer[e].index))
  }

  /** A port in the table of `n` is one that is not at a link and has always been there, or is at either end of a link
      of `n`. */
  lemma Classify(w: Wiring, n: nat, ports: PortMap, p: Id) returns (e: Option<Endpoint>)
    requires w.Valid() && n in w.books && Knows(w, n, w.g.peer.Keys, ports) && p in ports
    ensures e == None ==> p.connector == n && p in w.books[n].ports && p !in w.books[n].net && ports[p] == w.books[n].ports[p]
    ensures e.Some? ==> e.value in w.g.peer && w.Near(e.value) == p && LinkEntry(w, n, e.value, ports[p])
  {
    if p in w.books[n].ports {
      OwnPort(w, n, p);
      if p in w.books[n].net {
        var f := EndOf(w, n, p);
        NearAt(w, f, w.g.peer.Keys, ports);
        LocalOwner(w, f);
        e := Some(f);
      } else {
        e := None;
      }
    } else {
      var f := FarEnd(w, n, ports, p);
      w.Ends(f);
      LocalOwner(w, w.g.peer[f]);
      e := Some(w.g.peer[f]);
    }
  }

  lemma OwnPort(w: Wiring, n: nat, p: Id)
    requires w.Valid() && n in w.books && p in w.books[n].ports
    ensures p.connector == n && p.suffix < w.books[n].next && w.books[n].ports[p].owner.connector == n && w.books[n].ports[p].route == Local
  {
    assert LocalAt(n, w.books[n].next, p, w.books[n].ports[p]);
  }

  lemma EndOf(w: Wiring, n: nat, p: Id) returns (e: Endpoint)
    requires w.Valid() && n in w.books && p in w.books[n].net
    ensures e in w.g.peer && e.node == n && w.Near(e) == p
  {
    var i :| 0 <= i < |w.books[n].net| && w.books[n].net[i] == p;
    e := Endpoint(n, i);
  }

  lemma LocalOwner(w: Wiring, e: Endpoint)
    requires w.Valid() && e in w.g.peer
    ensures w.NearInfo(e).owner.connector == e.node && w.NearInfo(e).route == Local
  {
    OwnPort(w, e.node, w.Near(e));
  }

  lemma FarEnd(w: Wiring, n: nat, ports: PortMap, p: Id) returns (f: Endpoint)
    requires w.Valid() && n in w.books && Knows(w, n, w.g.peer.Keys, ports) && p in ports && p !in w.books[n].ports
    ensures f in w.g.peer && f.node == n && w.Far(f) == p && w.g.peer[f].node != n && KnowsFar(w, f, ports)
  {
    assert ToldOf(w, n, w.g.peer.Keys, p);
    f :| f in w.g.peer && f.node == n && w.Far(f) == p;
    assert w.Far(f) in w.books[w.g.peer[f].node].ports;
  }

  /** What a table is like when the exchange is over. */
  ghost predicate Joined(w: Wiring, n: nat, ports: PortMap)
    requires w.Valid() && n in w.books
  {
    Mutual(ports) && AllPaired(ports) && forall p <- ports :: JoinedAt(w, n, p, ports[p])
  }

  ghost predicate JoinedAt(w: Wiring, n: nat, p: Id, i: PortInfo)
    requires w.Valid() && n in w.books
  {
    && i.owner.connector == p.connector && p.connector in w.books && p in w.books[p.connector].ports
    && (i.route.Net? <==> p.connector != n)
    && (i.route.Net? ==> Endpoint(n, i.route.index) in w.g.peer && w.Far(Endpoint(n, i.route.index)) == p)
  }

  lemma KnowsJoined(w: Wiring, n: nat, ports: PortMap)
    requires w.Valid() && AllOpposed(w) && n in w.books && Knows(w, n, w.g.peer.Keys, ports)
    ensures Joined(w, n, ports)
  {
    hide Wiring.Valid, Knows, JoinedAt, MutualAt, AllOpposed;
    forall p | p in ports ensures JoinedAt(w, n, p, ports[p]) && ports[p].peer.Some? && MutualAt(ports, p) {
      JoinedPort(w, n, ports, p);
    }
  }

  lemma JoinedPort(w: Wiring, n: nat, ports: PortMap, p: Id)
    requires w.Valid() && AllOpposed(w) && n in w.books && Knows(w, n, w.g.peer.Keys, ports) && p in ports
    ensures JoinedAt(w, n, p, ports[p]) && ports[p].peer.Some? && MutualAt(ports, p)
  {
    hide Wiring.Valid, Knows, Wiring.Near, Wiring.Far;
    var e := Classify(w, n, ports, p);
    if e == None { OwnStays(w, n, ports, p); OwnPort(w, n, p); }
    else { LinkJoined(w, n, ports, e.value); }
  }

  lemma OwnStays(w: Wiring, n: nat, ports: PortMap, p: Id)
    requires w.Valid() && n in w.books && Knows(w, n, w.g.peer.Keys, ports) && p in w.books[n].ports && p !in w.books[n].net
    ensures p in ports && ports[p].peer.Some? && MutualAt(ports, p)
  {
    hide KnowsNears, KnowsFars, KnowsNoMore;
    var book := w.books[n];
    assert Prepared(n, book) && book.ports[p].peer.Some?;
    assert MutualAt(book.ports, p);
  }

  lemma LinkJoined(w: Wiring, n: nat, ports: PortMap, e: Endpoint)
    requires w.Valid() && AllOpposed(w) && n in w.books && Knows(w, n, w.g.peer.Keys, ports)
    requires e in w.g.peer && w.Near(e) in ports && LinkEntry(w, n, e, ports[w.Near(e)])
    ensures ports[w.Near(e)].peer.Some? && MutualAt(ports, w.Near(e)) && JoinedAt(w, n, w.Near(e), ports[w.Near(e)])
  {
    hide Wiring.Valid, Knows, Wiring.Near, Wiring.Far;
    var f := w.g.peer[e];
    w.Ends(e);
    assert w.Opposed(e);
    if f.node == n {
      NearAt(w, f, w.g.peer.Keys, ports);
    } else {
      FarAt(w, e, ports);
    }
  }

  lemma FarAt(w: Wiring, e: Endpoint, ports: PortMap)
    requires w.Valid() && e in w.g.peer && Knows(w, e.node, w.g.peer.Keys, ports) && w.g.peer[e].node != e.node
    ensures KnowsFar(w, e, ports)
  {
  }

  /** Tables that share a port agree on it. */
  lemma JoinedAgree(w: Wiring, n: nat, here: PortMap, m: nat, there: PortMap)
    requires w.Valid() && n in w.books && m in w.books && Knows(w, n, w.g.peer.Keys, here) && Knows(w, m, w.g.peer.Keys, there)
    requires n != m
    ensures TablesAgree(here, there)
  {
    hide Wiring.Valid, Knows, Wiring.Near, Wiring.Far;
    forall p | p in here && p in there ensures here[p].peer == there[p].peer && here[p].polarity == there[p].polarity {
      var e := Classify(w, n, here, p);
      var f := Classify(w, m, there, p);
      if e.Some? && f.Some? { w.NearIsOne(e.value, f.value); }
      else if e.Some? { NearNet(w, e.value); }
      else if f.Some? { NearNet(w, f.value); }
    }
  }

  lemma NearNet(w: Wiring, e: Endpoint)
    requires w.Valid() && e in w.g.peer
    ensures w.Near(e).connector == e.node && w.Near(e) in w.books[e.node].net
  {
  }

  // ---- in the rounds ----

  /** Components do only what is theirs, one operation after the other. */
  ghost predicate ScriptOk(n: nat, ports: PortMap, next: nat, ops: seq<NonsyncOp>)
    decreases |ops|
  {
    ops == [] ||
    (Permitted(n, ports, ops[0]) && ScriptOk(n, ApplyOp(ports, n, next, ops[0]).0, ApplyOp(ports, n, next, ops[0]).1, ops[1..]))
  }

  /** The ports of the exchange keep their place; ports that came later are local channels, allocated in pairs. */
  ghost predicate Extends(n: nat, base: PortMap, start: nat, ports: PortMap, next: nat) {
    && Mutual(ports) && AllPaired(ports) && start <= next && (next - start) % 2 == 0
    && (forall p <- base :: p in ports && SameEnd(base[p], ports[p]))
    && (forall p <- ports | p !in base :: LaterAt(n, start, next, p, ports[p]))
  }

  ghost predicate SameEnd(i: PortInfo, j: PortInfo) {
    i.peer == j.peer && i.polarity == j.polarity && i.route == j.route && i.owner.connector == j.owner.connector
  }

  ghost predicate LaterAt(n: nat, start: nat, next: nat, p: Id, i: PortInfo) {
    && p.connector == n && start <= p.suffix < next && i.owner.connector == n && i.route == Local
    && i.polarity == if (p.suffix - start) % 2 == 0 then Putter else Getter
  }

  lemma ExtendsBelow(n: nat, base: PortMap, start: nat, ports: PortMap, next: nat)
    requires Extends(n, base, start, ports, next) && IdsBelow(base, n, start)
    ensures IdsBelow(ports, n, next)
  {
    forall p | p in ports && p.connector == n ensures p.suffix < next {
      if p !in base { assert LaterAt(n, start, next, p, ports[p]); }
    }
  }

  lemma PairMutual(ports: PortMap, o: Id, i: Id, owner: Id)
    requires Mutual(ports) && o !in ports && i !in ports && o != i
    ensures Mutual(AddPair(ports, o, i, owner))
  {
    var ports' := AddPair(ports, o, i, owner);
    forall p | p in ports' && ports'[p].peer.Some? ensures MutualAt(ports', p) {
      if p in ports { assert MutualAt(ports, p); }
    }
  }

  lemma PairExtends(n: nat, base: PortMap, start: nat, ports: PortMap, next: nat, owner: Id)
    requires Extends(n, base, start, ports, next) && IdsBelow(base, n, start) && owner.connector == n
    ensures Extends(n, base, start, AddPair(ports, Id(n, next), Id(n, next + 1), owner), next + 2)
  {
    var o, i := Id(n, next), Id(n, next + 1);
    var ports' := AddPair(ports, o, i, owner);
    ExtendsBelow(n, base, start, ports, next);
    assert o !in ports && i !in ports;
    PairMutual(ports, o, i, owner);
    hide Mutual;
    forall p | p in ports' && p !in base ensures LaterAt(n, start, next + 2, p, ports'[p]) {
      if p in ports { assert LaterAt(n, start, next, p, ports[p]); }
    }
  }

  lemma PassExtends(n: nat, base: PortMap, start: nat, ports: PortMap, next: nat, moved: set<Id>, to: Id)
    requires Extends(n, base, start, ports, next) && Permitted(n, ports, Pass(moved, to))
    ensures Extends(n, base, start, Moved(ports, moved, to), next)
  {
    var ports' := Moved(ports, moved, to);
    forall p | p in ports' && ports'[p].peer.Some? ensures MutualAt(ports', p) { assert MutualAt(ports, p); }
    forall p | p in ports' && p !in base ensures LaterAt(n, start, next, p, ports'[p]) {
      assert LaterAt(n, start, next, p, ports[p]);
    }
  }

  lemma {:induction false} ScriptExtends(n: nat, base: PortMap, start: nat, ports: PortMap, next: nat, ops: seq<NonsyncOp>)
    requires Extends(n, base, start, ports, next) && IdsBelow(base, n, start) && ScriptOk(n, ports, next, ops)
    ensures var (ports', next') := RunNonsync(ports, n, next, ops); Extends(n, base, start, ports', next')
    decreases |ops|
  {
    hide Extends, IdsBelow;
    if ops != [] {
      match ops[0] {
        case NewPair(owner) => PairExtends(n, base, start, ports, next, owner);
        case Pass(moved, to) => PassExtends(n, base, start, ports, next, moved, to);
      }
      var (ports', next') := ApplyOp(ports, n, next, ops[0]);
      ScriptExtends(n, base, start, ports', next', ops[1..]);
    }
  }

  /** `scripts(n, r)` is all that was created and passed on at connector `n` from the time it connected to round `r`, and
      not taken back. */
  ghost predicate ScriptsOk(w: Wiring, tables: map<nat, PortMap>, scripts: (nat, nat) -> seq<NonsyncOp>) {
    forall n, r: nat | n in w.books && n in tables :: ScriptOk(n, tables[n], w.books[n].next, scripts(n, r))
  }

  ghost function TableIn(w: Wiring, tables: map<nat, PortMap>, scripts: (nat, nat) -> seq<NonsyncOp>, n: nat, r: nat): PortMap {
    if n in w.books && n in tables then RunNonsync(tables[n], n, w.books[n].next, scripts(n, r)).0 else map[]
  }

  /** The environment of the rounds. */
  ghost function WorldFrom(w: Wiring, t: R.Session, tables: map<nat, PortMap>, scripts: (nat, nat) -> seq<NonsyncOp>): World
    requires w.Valid()
  {
    World(t, (n: nat, r: nat) => TableIn(w, tables, scripts, n, r), map e | e in w.g.peer :: w.Near(e),
          iset p: Id | GetterSomewhere(w, tables, scripts, p))
  }

  ghost predicate GetterSomewhere(w: Wiring, tables: map<nat, PortMap>, scripts: (nat, nat) -> seq<NonsyncOp>, p: Id) {
    exists n: nat, r: nat :: GetterIn(TableIn(w, tables, scripts, n, r), p)
  }

  ghost predicate GetterIn(ports: PortMap, p: Id) {
    p in ports && ports[p].polarity == Getter
  }

  /** The exchange is over and every connector has succeeded. */
  ghost predicate Connected(w: Wiring, tables: map<nat, PortMap>) {
    && w.Valid() && AllOpposed(w) && tables.Keys == w.books.Keys
    && forall n <- w.books :: Knows(w, n, w.g.peer.Keys, tables[n])
  }

  lemma TableExtends(w: Wiring, tables: map<nat, PortMap>, scripts: (nat, nat) -> seq<NonsyncOp>, n: nat, r: nat)
    requires Connected(w, tables) && ScriptsOk(w, tables, scripts) && n in w.books
    ensures Joined(w, n, tables[n])
    ensures exists next :: Extends(n, tables[n], w.books[n].next, TableIn(w, tables, scripts, n, r), next)
  {
    hide Knows, AllOpposed;
    KnowsJoined(w, n, tables[n]);
    var start := w.books[n].next;
    JoinedBelow(w, n, tables[n]);
    hide Wiring.Valid;
    assert Extends(n, tables[n], start, tables[n], start);
    assert ScriptOk(n, tables[n], start, scripts(n, r));
    ScriptExtends(n, tables[n], start, tables[n], start, scripts(n, r));
    assert Extends(n, tables[n], start, TableIn(w, tables, scripts, n, r), RunNonsync(tables[n], n, start, scripts(n, r)).1);
  }

  lemma JoinedBelow(w: Wiring, n: nat, ports: PortMap)
    requires w.Valid() && n in w.books && Joined(w, n, ports)
    ensures IdsBelow(ports, n, w.books[n].next)
  {
    forall p | p in ports && p.connector == n ensures p.suffix < w.books[n].next {
      assert JoinedAt(w, n, p, ports[p]);
      OwnPort(w, n, p);
    }
  }

  lemma ExtendsTable(w: Wiring, n: nat, base: PortMap, ports: PortMap, next: nat, world: World)
    requires w.Valid() && n in w.books && Joined(w, n, base) && Extends(n, base, w.books[n].next, ports, next)
    requires world.t.g == w.g && world.linkPort == map e | e in w.g.peer :: w.Near(e)
    requires forall p <- ports | ports[p].polarity == Getter :: p in world.channels
    ensures TableOk(world, n, ports)
  {
    hide Wiring.Valid, Wiring.Near, Wiring.Far;
    MutualPeersOk(ports);
    forall p | p in ports
      ensures SpecVarFor(ports, p) in world.channels && (ports[p].owner.connector == n <==> p.connector == n)
      ensures (ports[p].route.Net? <==> p.connector != n) && (ports[p].route.Net? ==> AcrossLink(world, n, p, ports[p].route.index))
    {
      VarIsGetter(ports, p);
      if p in base {
        assert JoinedAt(w, n, p, base[p]) && SameEnd(base[p], ports[p]);
        if base[p].route.Net? {
          w.Ends(Endpoint(n, base[p].route.index));
          NearNet(w, w.g.peer[Endpoint(n, base[p].route.index)]);
        }
      } else {
        assert LaterAt(n, w.books[n].next, next, p, ports[p]);
      }
    }
  }

  lemma ExtendsAgree(w: Wiring, n: nat, base: PortMap, here: PortMap, next: nat, m: nat, base': PortMap, there: PortMap, next': nat)
    requires w.Valid() && n in w.books && m in w.books && n != m && TablesAgree(base, base')
    requires Joined(w, n, base) && Extends(n, base, w.books[n].next, here, next)
    requires Joined(w, m, base') && Extends(m, base', w.books[m].next, there, next')
    ensures TablesAgree(here, there)
  {
    hide Wiring.Valid, Mutual, AllPaired;
    forall p | p in here && p in there ensures here[p].peer == there[p].peer && here[p].polarity == there[p].polarity {
      LaterOrOld(w, n, base, here, next, p);
      LaterOrOld(w, m, base', there, next', p);
      assert SameEnd(base[p], here[p]) && SameEnd(base'[p], there[p]);
    }
  }

  /** A port that is in a table since the exchange has a lower identifier than all that its connector created later. */
  lemma LaterOrOld(w: Wiring, n: nat, base: PortMap, ports: PortMap, next: nat, p: Id)
    requires w.Valid() && n in w.books && Joined(w, n, base) && Extends(n, base, w.books[n].next, ports, next) && p in ports
    ensures p in base ==> p.connector in w.books && p.suffix < w.books[p.connector].next
    ensures p !in base ==> LaterAt(n, w.books[n].next, next, p, ports[p])
  {
    if p in base {
      assert JoinedAt(w, n, p, base[p]);
      OwnPort(w, p.connector, p);
    }
  }

  /** After an exchange without failure, and whatever the components create and pass on afterwards, the tables of all
      connectors in every round are those the rounds rely on: peers are symmetric, tables agree with each other, and
      what is routed to a link is the port at the other end of that link. */
  lemma ConnectedWorld(w: Wiring, t: R.Session, tables: map<nat, PortMap>, scripts: (nat, nat) -> seq<NonsyncOp>)
    requires Connected(w, tables) && ScriptsOk(w, tables, scripts) && t.Valid() && t.g == w.g
    ensures WorldOk(WorldFrom(w, t, tables, scripts))
  {
    hide Wiring.Valid, R.Session.Valid, TableOk, TablesAgree, ScriptsOk, Extends, Joined, TableIn;
    var world := WorldFrom(w, t, tables, scripts);
    forall n: nat, r: nat ensures TableOk(world, n, world.ports(n, r)) {
      RoundTable(w, t, tables, scripts, n, r);
    }
    forall n: nat, m: nat, r: nat ensures TablesAgree(world.ports(n, r), world.ports(m, r)) {
      RoundAgree(w, tables, scripts, n, m, r);
    }
  }

  lemma RoundTable(w: Wiring, t: R.Session, tables: map<nat, PortMap>, scripts: (nat, nat) -> seq<NonsyncOp>, n: nat, r: nat)
    requires Connected(w, tables) && ScriptsOk(w, tables, scripts) && t.g == w.g
    ensures TableOk(WorldFrom(w, t, tables, scripts), n, TableIn(w, tables, scripts, n, r))
  {
    hide Wiring.Valid, ScriptsOk, Extends, Joined;
    var world, ports := WorldFrom(w, t, tables, scripts), TableIn(w, tables, scripts, n, r);
    if n in w.books {
      TableExtends(w, tables, scripts, n, r);
      var next :| Extends(n, tables[n], w.books[n].next, ports, next);
      forall p | p in ports && ports[p].polarity == Getter ensures p in world.channels {
        assert GetterIn(TableIn(w, tables, scripts, n, r), p);
      }
      ExtendsTable(w, n, tables[n], ports, next, world);
    }
  }

  lemma RoundAgree(w: Wiring, tables: map<nat, PortMap>, scripts: (nat, nat) -> seq<NonsyncOp>, n: nat, m: nat, r: nat)
    requires Connected(w, tables) && ScriptsOk(w, tables, scripts)
    ensures TablesAgree(TableIn(w, tables, scripts, n, r), TableIn(w, tables, scripts, m, r))
  {
    hide Wiring.Valid, ScriptsOk, Extends, Joined, Knows;
    var here, there := TableIn(w, tables, scripts, n, r), TableIn(w, tables, scripts, m, r);
    if n in w.books && m in w.books && n != m {
      TableExtends(w, tables, scripts, n, r);
      TableExtends(w, tables, scripts, m, r);
      var next :| Extends(n, tables[n], w.books[n].next, here, next);
      var next' :| Extends(m, tables[m], w.books[m].next, there, next');
      JoinedAgree(w, n, tables[n], m, tables[m]);
      ExtendsAgree(w, n, tables[n], here, next, m, tables[m], there, next');
    }
  }

  /** From any run of the exchange that cannot go on: the world is as the rounds need it if every link joins a putter
      and a getter, which is so exactly if no connector has reported a mismatch. */
  lemma SetupYieldsWorld(w: Wiring, xs: seq<Exchange>, t: R.Session, scripts: (nat, nat) -> seq<NonsyncOp>)
    requires Pairing.IsRun(w, xs) && Stuck(w, xs[|xs| - 1]) && t.Valid() && t.g == w.g
    requires ScriptsOk(w, xs[|xs| - 1].tables, scripts)
    ensures xs[|xs| - 1].failed == {} <==> AllOpposed(w)
    ensures xs[|xs| - 1].failed == {} ==> WorldOk(WorldFrom(w, t, xs[|xs| - 1].tables, scripts))
  {
    hide Wiring.Valid, Knows, ScriptsOk, WorldOk, R.Session.Valid, WorldFrom;
    Outcome(w, xs);
    RunInv(w, xs);
    if xs[|xs| - 1].failed == {} {
      ConnectedWorld(w, t, xs[|xs| - 1].tables, scripts);
    }
  }

  /** The variable that tells the native's batches apart is taken from the identifiers as they were when the round began,
      which was after some part `ops` of a script; it is not the variable of any channel of any connector in any round. */
  lemma NativeVarOutside(w: Wiring, t: R.Session, tables: map<nat, PortMap>, scripts: (nat, nat) -> seq<NonsyncOp>, n: nat, ops: seq<NonsyncOp>)
    requires Connected(w, tables) && ScriptsOk(w, tables, scripts) && n in w.books && ScriptOk(n, tables[n], w.books[n].next, ops)
    requires NativeVar(n, RunNonsync(tables[n], n, w.books[n].next, ops).1).Some?
    ensures NativeVar(n, RunNonsync(tables[n], n, w.books[n].next, ops).1).value !in WorldFrom(w, t, tables, scripts).channels
  {
    hide Wiring.Valid, Knows, ScriptsOk, AllOpposed, Extends, Joined;
    var start := w.books[n].next;
    var (ports, next) := RunNonsync(tables[n], n, start, ops);
    var v := NativeVar(n, next).value;
    KnowsJoined(w, n, tables[n]);
    Unchanged(w, n, tables[n]);
    JoinedBelow(w, n, tables[n]);
    ScriptExtends(n, tables[n], start, tables[n], start, ops);
    ExtendsParity(n, tables[n], start, ports, next);
    forall m: nat, r: nat ensures !GetterIn(TableIn(w, tables, scripts, m, r), v) {
      if m in w.books { EvenIsNoGetter(w, tables, scripts, m, r, v); }
    }
  }

  lemma Unchanged(w: Wiring, n: nat, base: PortMap)
    requires w.Valid() && n in w.books && Joined(w, n, base)
    ensures Extends(n, base, w.books[n].next, base, w.books[n].next)
  {
    hide Wiring.Valid;
  }

  lemma ExtendsParity(n: nat, base: PortMap, start: nat, ports: PortMap, next: nat)
    requires Extends(n, base, start, ports, next)
    ensures start <= next && (next - start) % 2 == 0
  {
  }

  lemma EvenIsNoGetter(w: Wiring, tables: map<nat, PortMap>, scripts: (nat, nat) -> seq<NonsyncOp>, m: nat, r: nat, v: Id)
    requires Connected(w, tables) && ScriptsOk(w, tables, scripts) && m in w.books && v.connector in w.books
    requires v.suffix >= w.books[v.connector].next && (v.suffix - w.books[v.connector].next) % 2 == 0
    ensures !GetterIn(TableIn(w, tables, scripts, m, r), v)
  {
    hide Wiring.Valid, ScriptsOk, Joined, Extends, TableIn;
    TableExtends(w, tables, scripts, m, r);
    var ports := TableIn(w, tables, scripts, m, r);
    var next :| Extends(m, tables[m], w.books[m].next, ports, next);
    if v in ports { LaterOrOld(w, m, tables[m], ports, next, v); }
  }

  /** The native, with the batches its application has assembled, is a component as the rounds need it. */
  lemma NativeFits(w: Wiring, t: R.Session, tables: map<nat, PortMap>, scripts: (nat, nat) -> seq<NonsyncOp>, n: nat, r: nat,
                   native: Id, nativeVar: Id, batches: seq<N.Batch>, s: N.NativeState)
    requires Connected(w, tables) && ScriptsOk(w, tables, scripts) && t.g == w.g && n in w.books && native.connector == n
    requires BatchesOk(TableIn(w, tables, scripts, n, r), native, batches) && nativeVar !in WorldFrom(w, t, tables, scripts).channels
    requires N.NativeStarts(NativeContext(TableIn(w, tables, scripts, n, r), native, nativeVar, batches), s)
    ensures var c := C.Native(NativeContext(TableIn(w, tables, scripts, n, r), native, nativeVar, batches), s);
      C.Starts(c) && Fits(WorldFrom(w, t, tables, scripts), n, r, native, c)
  {
    hide Wiring.Valid, Knows, ScriptsOk, AllOpposed, TableIn, BatchesOk, N.NativeStarts, PeersOk;
    var world, ports := WorldFrom(w, t, tables, scripts), TableIn(w, tables, scripts, n, r);
    RoundTable(w, t, tables, scripts, n, r);
    ContextValid(ports, native, nativeVar, batches);
  }
}
