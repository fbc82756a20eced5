/** How the ports of different connectors become the ends of one channel: connectors create ports, and when they
    connect they exchange `MyPortInfo` over every link. */
module Pairing {
  import opened Network
  import opened Predicates
  import opened Ports

  // ---- before connecting ----

  /** The ports of a connector in setup, the suffix of its next port, and the port of each of its net endpoints. */
  datatype Book = Book(ports: PortMap, next: nat, net: seq<Id>)

  datatype SetupOp = NewNet(polarity: Polarity) | Other(op: NonsyncOp)

  /** Channels go to local components, and components pass on only what they own. */
  ghost predicate Permitted(n: nat, ports: PortMap, op: NonsyncOp) {
    match op
    case NewPair(owner) => owner.connector == n
    case Pass(moved, to) => to.connector == n && forall p <- moved :: p in ports && ports[p].owner.connector == n
  }

  function Prepare(n: nat, b: Book, op: SetupOp): Book {
    match op
    case NewNet(polarity) =>
      Book(b.ports[Id(n, b.next) := PortInfo(Id(n, 0), None, polarity, Local)], b.next + 1, b.net + [Id(n, b.next)])
    case Other(o) => var (ports, next) := ApplyOp(b.ports, n, b.next, o); Book(ports, next, b.net)
  }

  /** Known peers know each other. */
  ghost predicate Mutual(ports: PortMap) {
    forall p <- ports | ports[p].peer.Some? :: MutualAt(ports, p)
  }

  ghost predicate MutualAt(ports: PortMap, p: Id)
    requires p in ports && ports[p].peer.Some?
  {
    var q := ports[p].peer.value;
    q in ports && ports[q].peer == Some(p) && ports[q].polarity != ports[p].polarity
  }

  lemma MutualPeersOk(ports: PortMap)
    requires Mutual(ports)
    ensures PeersOk(ports)
  {
    forall p | p in ports ensures PeerOk(ports, p) {
      if ports[p].peer.Some? { assert MutualAt(ports, p); }
    }
    forall p, q | p in ports && q in ports && p != q && ports[p].peer.Some? ensures ports[p].peer != ports[q].peer {
      assert MutualAt(ports, p);
      if ports[q].peer.Some? { assert MutualAt(ports, q); }
    }
  }

  ghost predicate LocalAt(n: nat, next: nat, p: Id, i: PortInfo) {
    p.connector == n && p.suffix < next && i.owner.connector == n && i.route == Local
  }

  /** What creating and passing ports keeps: all ports are local, and exactly those of the net endpoints have no peer. */
  ghost predicate Prepared(n: nat, b: Book) {
    && Mutual(b.ports) && Distinct(b.net)
    && (forall p <- b.ports :: LocalAt(n, b.next, p, b.ports[p]))
    && (forall p <- b.net :: p in b.ports)
    && (forall p <- b.ports :: p in b.net <==> b.ports[p].peer == None)
  }

  lemma PrepareOk(n: nat, b: Book, op: SetupOp)
    requires Prepared(n, b) && (op.Other? ==> Permitted(n, b.ports, op.op))
    ensures Prepared(n, Prepare(n, b, op))
  {
    var b' := Prepare(n, b, op);
    if op.NewNet? { AppendDistinct(n, b); }
    PrepareMutual(n, b, op);
    hide Mutual, Distinct;
    forall p | p in b'.ports ensures LocalAt(n, b'.next, p, b'.ports[p]) {
      if p in b.ports { assert LocalAt(n, b.next, p, b.ports[p]); }
    }
  }

  lemma PrepareMutual(n: nat, b: Book, op: SetupOp)
    requires Prepared(n, b)
    ensures Mutual(Prepare(n, b, op).ports)
  {
    hide Distinct;
    var b' := Prepare(n, b, op);
    forall p | p in b'.ports && b'.ports[p].peer.Some? ensures MutualAt(b'.ports, p) {
      if p in b.ports {
        assert MutualAt(b.ports, p);
        assert LocalAt(n, b.next, b.ports[p].peer.value, b.ports[b.ports[p].peer.value]);
      }
    }
  }

  lemma AppendDistinct(n: nat, b: Book)
    requires Prepared(n, b)
    ensures Id(n, b.next) !in b.ports && Distinct(b.net + [Id(n, b.next)])
  {
    assert Id(n, b.next) !in b.ports by { assert forall p <- b.ports :: LocalAt(n, b.next, p, b.ports[p]); }
    var net := b.net + [Id(n, b.next)];
    forall i, j | 0 <= i < j < |net| ensures net[i] != net[j] {
      if j == |b.net| { assert net[i] in b.net; }
    }
  }

  /** The ports after creating and passing some, starting with none. */
  function Built(n: nat, ops: seq<SetupOp>): Book
    decreases |ops|
  {
    if ops == [] then Book(map[], 0, []) else Prepare(n, Built(n, ops[..|ops| - 1]), ops[|ops| - 1])
  }

  ghost predicate AllPermitted(n: nat, ops: seq<SetupOp>) {
    forall k | 0 <= k < |ops| && ops[k].Other? :: Permitted(n, Built(n, ops[..k]).ports, ops[k].op)
  }

  lemma {:induction false} BuiltPrepared(n: nat, ops: seq<SetupOp>)
    requires AllPermitted(n, ops)
    ensures Prepared(n, Built(n, ops))
    decreases |ops|
  {
    if ops != [] {
      var front := ops[..|ops| - 1];
      forall k | 0 <= k < |front| && front[k].Other? ensures Permitted(n, Built(n, front[..k]).ports, front[k].op) {
        assert front[..k] == ops[..k];
      }
      BuiltPrepared(n, front);
      PrepareOk(n, Built(n, front), ops[|ops| - 1]);
    }
  }

  // ---- connecting ----

  /** The links and the ports of each connector when `connect` is called. */
  datatype Wiring = Wiring(g: Graph, books: map<nat, Book>) {

    ghost predicate Valid() {
      && g.Valid() && books.Keys == g.degree.Keys
      && forall n <- books :: Prepared(n, books[n]) && |books[n].net| == g.degree[n]
    }

    /** The ports at this end and at the other end of a link. */
    ghost function Near(e: Endpoint): Id
      requires Valid() && e in g.peer
      ensures e.node in books && Near(e) in books[e.node].ports && Near(e).connector == e.node
    {
      assert LocalAt(e.node, books[e.node].next, books[e.node].net[e.index], books[e.node].ports[books[e.node].net[e.index]]);
      books[e.node].net[e.index]
    }

    ghost function Far(e: Endpoint): Id
      requires Valid() && e in g.peer
      ensures g.peer[e] in g.peer && Far(e) == Near(g.peer[e])
    {
      Near(g.peer[e])
    }

    ghost function NearInfo(e: Endpoint): PortInfo
      requires Valid() && e in g.peer
    {
      books[e.node].ports[Near(e)]
    }

    ghost function FarInfo(e: Endpoint): PortInfo
      requires Valid() && e in g.peer
    {
      NearInfo(g.peer[e])
    }

    /** The link at `e` joins a putter and a getter. */
    ghost predicate Opposed(e: Endpoint)
      requires Valid() && e in g.peer
    {
      NearInfo(e).polarity != FarInfo(e).polarity
    }

    lemma Ends(e: Endpoint)
      requires Valid() && e in g.peer
      ensures g.peer[e] in g.peer && g.peer[g.peer[e]] == e && Near(e) in books[e.node].net
    {
    }

    lemma NearIsOne(e: Endpoint, f: Endpoint)
      requires Valid() && e in g.peer && f in g.peer && Near(e) == Near(f)
      ensures e == f
    {
      assert Prepared(e.node, books[e.node]);
    }
  }

  datatype Info = Info(owner: Id, polarity: Polarity, port: Id)

  /** The exchange: the table of each connector, the link ends that have sent their information, what is on its way
      to which link end, the link ends that have been told, and the connectors that gave up. */
  datatype Exchange = Exchange(tables: map<nat, PortMap>, sent: set<Endpoint>, coming: map<Endpoint, Info>, told: set<Endpoint>,
                               failed: set<nat>)

  datatype Move = Send(e: Endpoint) | Learn(e: Endpoint)

  ghost predicate Start(w: Wiring, x: Exchange)
    requires w.Valid()
  {
    x == Exchange(map n | n in w.books :: w.books[n].ports, {}, map[], {}, {})
  }

  ghost predicate Enabled(w: Wiring, x: Exchange, a: Move) {
    && a.e in w.g.peer && a.e.node !in x.failed
    && match a case Send(e) => e !in x.sent case Learn(e) => e in x.coming
  }

  ghost function Next(w: Wiring, x: Exchange, a: Move): Exchange
    requires Inv(w, x) && Enabled(w, x, a)
  {
    var n, near := a.e.node, w.Near(a.e);
    assert KnowsNear(w, a.e, x.told, x.tables[n]);
    var local := x.tables[n][near];
    match a
    case Send(e) => x.(sent := x.sent + {e}, coming := x.coming[w.g.peer[e] := Info(local.owner, local.polarity, near)])
    case Learn(e) =>
      var m := x.coming[e];
      var heard := x.(coming := x.coming - {e}, told := x.told + {e});
      if m.polarity == local.polarity then heard.(failed := x.failed + {n})
      else heard.(tables := x.tables[n := Learned(x.tables[n], near, m.port, m.owner, m.polarity, e.index)])
  }

  /** What the table of connector `n` is, given which link ends have been told. */
  ghost predicate Knows(w: Wiring, n: nat, told: set<Endpoint>, ports: PortMap)
    requires w.Valid() && n in w.books
  {
    KnowsOwn(w, n, ports) && KnowsNears(w, n, told, ports) && KnowsFars(w, n, told, ports) && KnowsNoMore(w, n, told, ports)
  }

  ghost predicate KnowsOwn(w: Wiring, n: nat, ports: PortMap)
    requires w.Valid() && n in w.books
  {
    forall p <- w.books[n].ports :: p in ports && (p !in w.books[n].net ==> ports[p] == w.books[n].ports[p])
  }

  ghost predicate KnowsNears(w: Wiring, n: nat, told: set<Endpoint>, ports: PortMap)
    requires w.Valid()
  {
    forall e <- w.g.peer | e.node == n :: KnowsNear(w, e, told, ports)
  }

  ghost predicate KnowsFars(w: Wiring, n: nat, told: set<Endpoint>, ports: PortMap)
    requires w.Valid()
  {
    forall e <- told | e in w.g.peer && e.node == n && w.g.peer[e].node != n :: KnowsFar(w, e, ports)
  }

  ghost predicate KnowsNoMore(w: Wiring, n: nat, told: set<Endpoint>, ports: PortMap)
    requires w.Valid() && n in w.books
  {
    forall p <- ports | p !in w.books[n].ports :: ToldOf(w, n, told, p)
  }

  ghost predicate ToldOf(w: Wiring, n: nat, told: set<Endpoint>, p: Id)
    requires w.Valid()
  {
    exists e <- told :: e in w.g.peer && e.node == n && w.Far(e) == p
  }

  ghost predicate KnowsNear(w: Wiring, e: Endpoint, told: set<Endpoint>, ports: PortMap)
    requires w.Valid() && e in w.g.peer
  {
    w.Near(e) in ports && ports[w.Near(e)] == w.NearInfo(e).(peer := if e in told then Some(w.Far(e)) else None)
  }

  ghost predicate KnowsFar(w: Wiring, e: Endpoint, ports: PortMap)
    requires w.Valid() && e in w.g.peer
  {
    w.Far(e) in ports && ports[w.Far(e)] == PortInfo(w.FarInfo(e).owner, Some(w.Near(e)), w.FarInfo(e).polarity, Net(e.index))
  }

  ghost predicate TablesOk(w: Wiring, x: Exchange)
    requires w.Valid()
  {
    x.tables.Keys == w.books.Keys && forall n <- w.books | n !in x.failed :: Knows(w, n, x.told, x.tables[n])
  }

  /** Every message is truthful, and none is lost. */
  ghost predicate MessagesOk(w: Wiring, x: Exchange)
    requires w.Valid()
  {
    && x.sent <= w.g.peer.Keys && x.told <= w.g.peer.Keys && x.coming.Keys <= w.g.peer.Keys && x.coming.Keys !! x.told
    && (forall e <- x.coming :: x.coming[e] == Info(w.FarInfo(e).owner, w.FarInfo(e).polarity, w.Far(e)))
    && (forall e <- w.g.peer :: w.g.peer[e] in x.sent <==> e in x.coming || e in x.told)
  }

  ghost predicate FailuresOk(w: Wiring, x: Exchange)
    requires w.Valid()
  {
    && (forall e <- x.told | e in w.g.peer && !w.Opposed(e) :: e.node in x.failed)
    && (forall n <- x.failed :: exists e <- w.g.peer :: e.node == n && !w.Opposed(e))
  }

  ghost predicate Inv(w: Wiring, x: Exchange) {
    w.Valid() && TablesOk(w, x) && MessagesOk(w, x) && FailuresOk(w, x)
  }

  lemma StartInv(w: Wiring, x: Exchange)
    requires w.Valid() && Start(w, x)
    ensures Inv(w, x)
  {
    forall n | n in w.books ensures Knows(w, n, x.told, x.tables[n]) {
      forall e | e in w.g.peer && e.node == n ensures KnowsNear(w, e, x.told, x.tables[n]) {
        assert w.Near(e) in w.books[n].net;
      }
    }
  }

  /** Being told at `e` changes the table of that connector as one more link end told. */
  lemma LearnedKnows(w: Wiring, e: Endpoint, told: set<Endpoint>, ports: PortMap)
    requires w.Valid() && e in w.g.peer && Knows(w, e.node, told, ports) && e !in told
    ensures w.Near(e) in ports
    ensures Knows(w, e.node, told + {e}, Learned(ports, w.Near(e), w.Far(e), w.FarInfo(e).owner, w.FarInfo(e).polarity, e.index))
  {
    hide KnowsNears, KnowsFars, Prepared;
    NearAt(w, e, told, ports);
    LearnedNears(w, e, told, ports);
    LearnedFars(w, e, told, ports);
    w.Ends(e);
    FarIsNew(w, e, told, ports);
    hide Wiring.Valid, Wiring.Near, Wiring.Far;
    var ports' := Learned(ports, w.Near(e), w.Far(e), w.FarInfo(e).owner, w.FarInfo(e).polarity, e.index);
    forall p | p in ports' && p !in w.books[e.node].ports ensures ToldOf(w, e.node, told + {e}, p) {
      if p in ports { MoreTold(w, e.node, told, p, e); } else { assert e in told + {e} && w.Far(e) == p; }
    }
  }

  lemma LearnedNears(w: Wiring, e: Endpoint, told: set<Endpoint>, ports: PortMap)
    requires w.Valid() && e in w.g.peer && Knows(w, e.node, told, ports) && e !in told && w.Near(e) in ports
    ensures KnowsNears(w, e.node, told + {e}, Learned(ports, w.Near(e), w.Far(e), w.FarInfo(e).owner, w.FarInfo(e).polarity, e.index))
  {
    hide KnowsOwn, KnowsFars, KnowsNoMore, Wiring.Valid, Wiring.Near, Wiring.Far;
    FarIsNew(w, e, told, ports);
    w.Ends(e);
    var ports' := Learned(ports, w.Near(e), w.Far(e), w.FarInfo(e).owner, w.FarInfo(e).polarity, e.index);
    forall f | f in w.g.peer && f.node == e.node ensures KnowsNear(w, f, told + {e}, ports') {
      assert KnowsNear(w, f, told, ports);
      if f != e && w.Near(f) == w.Near(e) { w.NearIsOne(e, f); }
    }
  }

  lemma LearnedFars(w: Wiring, e: Endpoint, told: set<Endpoint>, ports: PortMap)
    requires w.Valid() && e in w.g.peer && Knows(w, e.node, told, ports) && e !in told && w.Near(e) in ports
    ensures KnowsFars(w, e.node, told + {e}, Learned(ports, w.Near(e), w.Far(e), w.FarInfo(e).owner, w.FarInfo(e).polarity, e.index))
  {
    hide KnowsOwn, KnowsNears, KnowsNoMore, Wiring.Valid, Wiring.Near, Wiring.Far;
    FarIsNew(w, e, told, ports);
    w.Ends(e);
    var ports' := Learned(ports, w.Near(e), w.Far(e), w.FarInfo(e).owner, w.FarInfo(e).polarity, e.index);
    forall f | f in told + {e} && f in w.g.peer && f.node == e.node && w.g.peer[f].node != e.node ensures KnowsFar(w, f, ports') {
      if f != e { assert KnowsFar(w, f, ports); }
    }
  }

  lemma MoreTold(w: Wiring, n: nat, told: set<Endpoint>, p: Id, e: Endpoint)
    requires w.Valid() && ToldOf(w, n, told, p)
    ensures ToldOf(w, n, told + {e}, p)
  {
    var f :| f in told && f in w.g.peer && f.node == n && w.Far(f) == p;
    assert f in told + {e};
  }

  /** The port at the other end is unknown until then, unless it is one of the connector itself. */
  lemma FarIsNew(w: Wiring, e: Endpoint, told: set<Endpoint>, ports: PortMap)
    requires w.Valid() && e in w.g.peer && Knows(w, e.node, told, ports) && e !in told
    ensures w.Far(e) in ports <==> w.g.peer[e].node == e.node
    ensures w.Far(e) != w.Near(e)
  {
    if w.Far(e) == w.Near(e) { w.NearIsOne(e, w.g.peer[e]); }
    if w.Far(e) in ports && w.Far(e) !in w.books[e.node].ports {
      assert ToldOf(w, e.node, told, w.Far(e));
      var f :| f in told && f in w.g.peer && f.node == e.node && w.Far(f) == w.Far(e);
      w.NearIsOne(w.g.peer[e], w.g.peer[f]);
    }
    if w.Far(e) in w.books[e.node].ports {
      assert LocalAt(e.node, w.books[e.node].next, w.Far(e), w.books[e.node].ports[w.Far(e)]);
    }
  }

  lemma NearAt(w: Wiring, e: Endpoint, told: set<Endpoint>, ports: PortMap)
    requires w.Valid() && e in w.g.peer && Knows(w, e.node, told, ports)
    ensures KnowsNear(w, e, told, ports)
  {
  }

  lemma NearKnown(w: Wiring, x: Exchange, e: Endpoint)
    requires Inv(w, x) && e in w.g.peer && e.node !in x.failed
    ensures KnowsNear(w, e, x.told, x.tables[e.node])
  {
    assert Knows(w, e.node, x.told, x.tables[e.node]);
  }

  lemma SendInv(w: Wiring, x: Exchange, e: Endpoint)
    requires Inv(w, x) && Enabled(w, x, Send(e))
    ensures Inv(w, Next(w, x, Send(e)))
  {
    hide Knows, Wiring.Valid, Wiring.Opposed, Wiring.Near, Wiring.Far;
    SendMessages(w, x, e);
    NearKnown(w, x, e);
    hide MessagesOk;
    var x' := Next(w, x, Send(e));
    assert x'.tables == x.tables && x'.told == x.told && x'.failed == x.failed;
  }

  lemma SendMessages(w: Wiring, x: Exchange, e: Endpoint)
    requires Inv(w, x) && Enabled(w, x, Send(e))
    ensures MessagesOk(w, Next(w, x, Send(e)))
  {
    hide Knows, Wiring.Valid, Wiring.Opposed, Wiring.Near, Wiring.Far, TablesOk, FailuresOk;
    NearKnown(w, x, e);
    w.Ends(e);
    SentToOne(w, e);
  }

  lemma SentToOne(w: Wiring, e: Endpoint)
    requires w.Valid() && e in w.g.peer
    ensures forall d | d in w.g.peer && d != w.g.peer[e] :: w.g.peer[d] != e
  {
    forall d | d in w.g.peer && d != w.g.peer[e] ensures w.g.peer[d] != e { w.Ends(d); }
  }

  lemma LearnInv(w: Wiring, x: Exchange, e: Endpoint)
    requires Inv(w, x) && Enabled(w, x, Learn(e))
    ensures Inv(w, Next(w, x, Learn(e)))
  {
    hide Wiring.Valid, Wiring.Near, Wiring.Far, Learned, Knows, TablesOk, FailuresOk;
    LearnTables(w, x, e);
    LearnFailures(w, x, e);
    NearKnown(w, x, e);
  }

  lemma LearnFailures(w: Wiring, x: Exchange, e: Endpoint)
    requires Inv(w, x) && Enabled(w, x, Learn(e))
    ensures FailuresOk(w, Next(w, x, Learn(e)))
  {
    hide Wiring.Valid, Wiring.Near, Wiring.Far, Learned, Knows, TablesOk;
    NearKnown(w, x, e);
    var x' := Next(w, x, Learn(e));
    assert x.coming[e].polarity == w.FarInfo(e).polarity;
    hide MessagesOk;
    assert x'.failed == if w.Opposed(e) then x.failed else x.failed + {e.node};
    assert x'.told == x.told + {e};
  }

  lemma LearnTables(w: Wiring, x: Exchange, e: Endpoint)
    requires Inv(w, x) && Enabled(w, x, Learn(e))
    ensures TablesOk(w, Next(w, x, Learn(e)))
  {
    hide Wiring.Valid, Wiring.Near, Wiring.Far, Learned, Knows, FailuresOk;
    NearKnown(w, x, e);
    LearnedKnows(w, e, x.told, x.tables[e.node]);
    var x' := Next(w, x, Learn(e));
    forall n | n in w.books && n !in x'.failed ensures Knows(w, n, x'.told, x'.tables[n]) {
      assert Knows(w, n, x.told, x.tables[n]);
      if n != e.node { KnowsElsewhere(w, n, x.told, x.tables[n], e); }
    }
  }

  lemma KnowsElsewhere(w: Wiring, n: nat, told: set<Endpoint>, ports: PortMap, e: Endpoint)
    requires w.Valid() && n in w.books && Knows(w, n, told, ports) && e.node != n
    ensures Knows(w, n, told + {e}, ports)
  {
    hide Wiring.Valid, Wiring.Near, Wiring.Far, KnowsOwn;
    forall f | f in w.g.peer && f.node == n ensures KnowsNear(w, f, told + {e}, ports) {
      assert KnowsNear(w, f, told, ports);
    }
    forall p | p in ports && p !in w.books[n].ports ensures ToldOf(w, n, told + {e}, p) { MoreTold(w, n, told, p, e); }
  }

  /** Ports that are peers in a table are no ports of links, or the two ends of one link. */
  lemma PeersAtLink(w: Wiring, n: nat, told: set<Endpoint>, ports: PortMap, p: Id, q: Id) returns (e: Option<Endpoint>)
    requires w.Valid() && n in w.books && Knows(w, n, told, ports) && p in ports && ports[p].peer == Some(q)
    ensures e == None ==> q.connector == n && q !in w.books[n].net
    ensures e.Some? ==> e.value in w.g.peer && w.Near(e.value) == p && w.Far(e.value) == q
  {
    if p !in w.books[n].ports {
      var f := FarTold(w, n, told, ports, p);
      e := Some(f);
    } else if p in w.books[n].net {
      var f := NearTold(w, n, told, ports, p);
      e := Some(f);
    } else {
      hide KnowsNears, KnowsFars, KnowsNoMore;
      assert Prepared(n, w.books[n]) && MutualAt(w.books[n].ports, p);
      assert LocalAt(n, w.books[n].next, q, w.books[n].ports[q]);
      e := None;
    }
  }

  lemma FarTold(w: Wiring, n: nat, told: set<Endpoint>, ports: PortMap, p: Id) returns (e: Endpoint)
    requires w.Valid() && n in w.books && Knows(w, n, told, ports) && p in ports && p !in w.books[n].ports
    ensures e in w.g.peer && w.Near(e) == p && ports[p].peer == Some(w.Far(e))
  {
    hide KnowsNears, KnowsOwn;
    assert ToldOf(w, n, told, p);
    var f :| f in told && f in w.g.peer && f.node == n && w.Far(f) == p;
    assert KnowsFar(w, f, ports);
    w.Ends(f);
    e := w.g.peer[f];
  }

  lemma NearTold(w: Wiring, n: nat, told: set<Endpoint>, ports: PortMap, p: Id) returns (e: Endpoint)
    requires w.Valid() && n in w.books && Knows(w, n, told, ports) && p in w.books[n].net && p in ports && ports[p].peer.Some?
    ensures e in w.g.peer && w.Near(e) == p && ports[p].peer == Some(w.Far(e))
  {
    var i :| 0 <= i < |w.books[n].net| && w.books[n].net[i] == p;
    e := Endpoint(n, i);
    assert w.Near(e) == p;
    hide Wiring.Valid, Wiring.Near, Wiring.Far, KnowsFars, KnowsNoMore, KnowsOwn;
    NearAt(w, e, told, ports);
  }

  /** Whatever a connector is told in a run of the exchange is truthful: its tables stay valid. */
  lemma InfoIsTruthful(w: Wiring, x: Exchange, e: Endpoint)
    requires Inv(w, x) && Enabled(w, x, Learn(e))
    ensures var n, m := e.node, x.coming[e];
      n in x.tables && w.Near(e) in x.tables[n] && x.tables[n][w.Near(e)].peer == None
      && Truthful(x.tables[n], n, w.Near(e), m.port, m.owner, m.polarity)
  {
    hide Wiring.Valid, Wiring.Near, Wiring.Far, Knows, FailuresOk, Truthful;
    NearKnown(w, x, e);
    w.Ends(e);
    TruthfulAt(w, x.tables[e.node], x.told, e);
  }

  lemma TruthfulAt(w: Wiring, ports: PortMap, told: set<Endpoint>, e: Endpoint)
    requires w.Valid() && e in w.g.peer && e !in told && Knows(w, e.node, told, ports)
    ensures Truthful(ports, e.node, w.Near(e), w.Far(e), w.FarInfo(e).owner, w.FarInfo(e).polarity)
  {
    hide Wiring.Valid, Wiring.Near, Wiring.Far, Knows;
    FarIsNew(w, e, told, ports);
    w.Ends(e);
    var f := w.g.peer[e];
    w.Ends(f);
    forall q | q in ports && ports[q].peer.Some?
      ensures ports[q].peer.value == w.Far(e) ==> q == w.Near(e)
      ensures ports[q].peer.value == w.Near(e) ==> q == w.Far(e)
    {
      var d := PeersAtLink(w, e.node, told, ports, q, ports[q].peer.value);
      if d.Some? {
        w.Ends(d.value);
        if w.Far(d.value) == w.Far(e) { w.NearIsOne(w.g.peer[d.value], f); }
        if w.Far(d.value) == w.Near(e) { w.NearIsOne(w.g.peer[d.value], e); }
      }
    }
    if f.node == e.node { NearAt(w, f, told, ports); } else { NearOwner(w, f); }
  }

  lemma NearOwner(w: Wiring, e: Endpoint)
    requires w.Valid() && e in w.g.peer
    ensures w.NearInfo(e).owner.connector == e.node
  {
    assert LocalAt(e.node, w.books[e.node].next, w.Near(e), w.NearInfo(e));
  }

  // ---- runs ----

  /** `xs` is a run of the exchange, in any interleaving of the connectors and links. */
  ghost predicate IsRun(w: Wiring, xs: seq<Exchange>) {
    && w.Valid() && |xs| > 0 && Start(w, xs[0])
    && forall i | 0 < i < |xs| :: Moves(w, xs[i - 1], xs[i])
  }

  ghost predicate Moves(w: Wiring, x: Exchange, x': Exchange) {
    Inv(w, x) && exists a | Enabled(w, x, a) :: x' == Next(w, x, a)
  }

  /** Nothing can happen any more. */
  ghost predicate Stuck(w: Wiring, x: Exchange) {
    forall a :: !Enabled(w, x, a)
  }

  lemma MoveInv(w: Wiring, x: Exchange, x': Exchange)
    requires Moves(w, x, x')
    ensures Inv(w, x') && |x'.sent| + |x'.told| == |x.sent| + |x.told| + 1
  {
    hide Inv, Learned;
    var a :| Enabled(w, x, a) && x' == Next(w, x, a);
    match a
    case Send(e) => SendInv(w, x, e);
    case Learn(e) => LearnInv(w, x, e); NotTold(w, x, e);
  }

  lemma NotTold(w: Wiring, x: Exchange, e: Endpoint)
    requires Inv(w, x) && e in x.coming
    ensures e !in x.told
  {
  }

  lemma StuckOutcome(w: Wiring, x: Exchange)
    requires Inv(w, x) && Stuck(w, x)
    ensures x.failed == {} ==> x.told == w.g.peer.Keys
    ensures x.failed == {} <==> forall e <- w.g.peer :: w.Opposed(e)
  {
    hide Wiring.Valid, Wiring.Near, Wiring.Far, Knows, Wiring.Opposed;
    if x.failed == {} {
      forall e | e in w.g.peer ensures e in x.told {
        w.Ends(e);
        assert !Enabled(w, x, Send(w.g.peer[e])) && !Enabled(w, x, Learn(e));
      }
    }
  }

  /** In every run the exchange keeps its invariant, and it ends: every link end sends once and is told at most once. */
  lemma {:induction false} RunInv(w: Wiring, xs: seq<Exchange>)
    requires IsRun(w, xs)
    ensures Inv(w, xs[|xs| - 1]) && |xs[|xs| - 1].sent| + |xs[|xs| - 1].told| == |xs| - 1
    ensures |xs| - 1 <= 2 * |w.g.peer|
    decreases |xs|
  {
    hide Inv, Wiring.Valid;
    if |xs| == 1 { StartInv(w, xs[0]); }
    else {
      RunInv(w, xs[..|xs| - 1]);
      MoveInv(w, xs[|xs| - 2], xs[|xs| - 1]);
    }
    AtMostAll(w, xs[|xs| - 1]);
  }

  lemma AtMostAll(w: Wiring, x: Exchange)
    requires Inv(w, x)
    ensures |x.sent| + |x.told| <= 2 * |w.g.peer|
  {
    SubsetIsSmaller(x.sent, w.g.peer.Keys);
    SubsetIsSmaller(x.told, w.g.peer.Keys);
    assert |w.g.peer.Keys| == |w.g.peer|;
  }

  /** A run that cannot go on has told every link end what is at the other end, unless a link joins two putters or two
      getters; then, and only then, some connector has given up. */
  lemma Outcome(w: Wiring, xs: seq<Exchange>)
    requires IsRun(w, xs) && Stuck(w, xs[|xs| - 1])
    ensures xs[|xs| - 1].failed == {} <==> forall e <- w.g.peer :: w.Opposed(e)
    ensures xs[|xs| - 1].failed == {} ==> forall n <- w.books :: n in xs[|xs| - 1].tables && Knows(w, n, w.g.peer.Keys, xs[|xs| - 1].tables[n])
  {
    RunInv(w, xs);
    StuckOutcome(w, xs[|xs| - 1]);
    hide Knows, Wiring.Valid, Wiring.Opposed;
  }
}
