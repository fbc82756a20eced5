/** Port bookkeeping: who owns which port, which ports are the two ends of one channel, and
    which speculative variable a port maps to. */
module Ports {
  import opened Network
  import opened Predicates
  import N = Native

  datatype Polarity = Putter | Getter

  datatype Route = Local | Net(index: nat)

  datatype PortInfo = PortInfo(owner: Id, peer: Option<Id>, polarity: Polarity, route: Route)

  type PortMap = map<Id, PortInfo>

  const U32_MAX: nat := 0xFFFF_FFFF

  /** `map` and `owned` are mutually inverse (`invariant_preserved`). */
  ghost predicate OwnedMirrors(ports: PortMap, owned: map<Id, set<Id>>) {
    && (forall p <- ports :: ports[p].owner in owned && p in owned[ports[p].owner])
    && (forall o <- owned, p <- owned[o] :: p in ports && ports[p].owner == o)
  }

  /** The peer of `p`, if known, is another port of opposite polarity that names no other peer. */
  ghost predicate PeerOk(ports: PortMap, p: Id)
    requires p in ports
  {
    ports[p].peer.Some? ==>
      var q := ports[p].peer.value;
      && q in ports && q != p && ports[q].polarity != ports[p].polarity
      && (ports[q].peer == Some(p) || ports[q].peer == None)
  }

  ghost predicate PeersOk(ports: PortMap) {
    && (forall p <- ports :: PeerOk(ports, p))
    && (forall p, q | p in ports && q in ports && p != q && ports[p].peer.Some? :: ports[p].peer != ports[q].peer)
  }

  /** Every port knows its peer: the situation once `connect` has succeeded. */
  ghost predicate AllPaired(ports: PortMap) {
    forall p <- ports :: ports[p].peer.Some?
  }

  /** `spec_var_for`: the variable of a channel is the identifier of its getter. */
  function SpecVarFor(ports: PortMap, p: Id): Id
    requires p in ports && (ports[p].polarity == Putter ==> ports[p].peer.Some?)
  {
    match ports[p].polarity
    case Getter => p
    case Putter => ports[p].peer.value
  }

  /** Two distinct ports map to the same variable if and only if they are the two ends of one channel. */
  lemma SharedVariable(ports: PortMap, p: Id, q: Id)
    requires PeersOk(ports) && AllPaired(ports) && p in ports && q in ports && p != q
    ensures SpecVarFor(ports, p) == SpecVarFor(ports, q) <==> ports[p].peer == Some(q)
    ensures ports[p].peer == Some(q) <==> ports[q].peer == Some(p)
  {
    PeerOfPeer(ports, p);
    PeerOfPeer(ports, q);
    hide PeersOk, AllPaired;
  }

  lemma PeerOfPeer(ports: PortMap, p: Id)
    requires PeersOk(ports) && AllPaired(ports) && p in ports
    ensures ports[p].peer.Some? && var q := ports[p].peer.value;
      q in ports && q != p && ports[q].peer == Some(p) && ports[q].polarity != ports[p].polarity
  {
    assert PeerOk(ports, p);
  }

  /** Identifiers of this connector's own ports are below the next one to be allocated. */
  ghost predicate IdsBelow(ports: PortMap, connector: nat, next: nat) {
    forall p <- ports | p.connector == connector :: p.suffix < next
  }

  /** The two ports of a new channel. */
  function AddPair(ports: PortMap, o: Id, i: Id, owner: Id): PortMap {
    ports[o := PortInfo(owner, Some(i), Putter, Local)][i := PortInfo(owner, Some(o), Getter, Local)]
  }

  lemma AddPairPeers(ports: PortMap, o: Id, i: Id, owner: Id)
    requires PeersOk(ports) && o !in ports && i !in ports && o != i
    ensures PeersOk(AddPair(ports, o, i, owner))
  {
    var more := AddPair(ports, o, i, owner);
    forall p | p in more ensures PeerOk(more, p) {
      if p in ports { assert PeerOk(ports, p); }
    }
    forall p, q | p in more && q in more && p != q && more[p].peer.Some? ensures more[p].peer != more[q].peer {
      if p in ports { assert PeerOk(ports, p); }
      if q in ports { assert PeerOk(ports, q); }
    }
  }

  lemma DanglingPeers(ports: PortMap, p: Id, i: PortInfo)
    requires PeersOk(ports) && p !in ports && i.peer == None
    ensures PeersOk(ports[p := i])
  {
    var more := ports[p := i];
    forall q | q in more ensures PeerOk(more, q) {
      if q != p { assert PeerOk(ports, q); }
    }
  }

  /** Ports from suffix `base` on were allocated in pairs, the putter first. */
  ghost predicate PairedFrom(ports: PortMap, connector: nat, base: nat, next: nat) {
    && base <= next && (next - base) % 2 == 0
    && forall p <- ports | p.connector == connector && p.suffix >= base ::
         ports[p].polarity == (if (p.suffix - base) % 2 == 0 then Putter else Getter)
  }

  lemma AddPairParity(ports: PortMap, connector: nat, base: nat, next: nat, owner: Id)
    requires PairedFrom(ports, connector, base, next)
    ensures PairedFrom(AddPair(ports, Id(connector, next), Id(connector, next + 1), owner), connector, base, next + 2)
  {
  }

  const SKIP_N: nat := 100

  /** The first variable of the stream that `new_spec_var_stream` takes from the id manager, or
      nothing when the identifiers are exhausted. */
  function NativeVar(connector: nat, next: nat): Option<Id> {
    var skipped := if next + SKIP_N > U32_MAX then U32_MAX else next + SKIP_N;
    if skipped == U32_MAX then None else Some(Id(connector, skipped))
  }

  lemma VarIsGetter(ports: PortMap, p: Id)
    requires PeersOk(ports) && p in ports && ports[p].peer.Some?
    ensures SpecVarFor(ports, p) in ports && ports[SpecVarFor(ports, p)].polarity == Getter
  {
    assert PeerOk(ports, p);
  }

  /** What components do to the ports before the round begins: create channels, and pass ports on. */
  datatype NonsyncOp = NewPair(owner: Id) | Pass(moved: set<Id>, to: Id)

  function ApplyOp(ports: PortMap, connector: nat, next: nat, op: NonsyncOp): (PortMap, nat) {
    match op
    case NewPair(owner) => (AddPair(ports, Id(connector, next), Id(connector, next + 1), owner), next + 2)
    case Pass(moved, to) => (Moved(ports, moved, to), next)
  }

  function RunNonsync(ports: PortMap, connector: nat, next: nat, ops: seq<NonsyncOp>): (PortMap, nat)
    decreases |ops|
  {
    if ops == [] then (ports, next)
    else
      var (ports', next') := ApplyOp(ports, connector, next, ops[0]);
      RunNonsync(ports', connector, next', ops[1..])
  }

  ghost predicate NonsyncOk(ports: PortMap, connector: nat, base: nat, next: nat) {
    PeersOk(ports) && AllPaired(ports) && IdsBelow(ports, connector, next) && PairedFrom(ports, connector, base, next)
  }

  lemma {:induction false} RunNonsyncOk(ports: PortMap, connector: nat, base: nat, next: nat, ops: seq<NonsyncOp>)
    requires NonsyncOk(ports, connector, base, next)
    ensures var (ports', next') := RunNonsync(ports, connector, next, ops); NonsyncOk(ports', connector, base, next')
    decreases |ops|
  {
    if ops != [] {
      match ops[0]
      case NewPair(owner) =>
        var o, i := Id(connector, next), Id(connector, next + 1);
        NonsyncPair(ports, connector, base, next, owner);
        RunNonsyncOk(AddPair(ports, o, i, owner), connector, base, next + 2, ops[1..]);
      case Pass(moved, to) =>
        NonsyncPass(ports, connector, base, next, moved, to);
        RunNonsyncOk(Moved(ports, moved, to), connector, base, next, ops[1..]);
    }
  }

  lemma NonsyncPair(ports: PortMap, connector: nat, base: nat, next: nat, owner: Id)
    requires NonsyncOk(ports, connector, base, next)
    ensures NonsyncOk(AddPair(ports, Id(connector, next), Id(connector, next + 1), owner), connector, base, next + 2)
  {
    hide PeersOk, PairedFrom;
    AddPairPeers(ports, Id(connector, next), Id(connector, next + 1), owner);
    AddPairParity(ports, connector, base, next, owner);
  }

  lemma NonsyncPass(ports: PortMap, connector: nat, base: nat, next: nat, moved: set<Id>, to: Id)
    requires NonsyncOk(ports, connector, base, next)
    ensures NonsyncOk(Moved(ports, moved, to), connector, base, next)
  {
    hide PeersOk;
    MovePeers(ports, moved, to);
  }

  /** The variable that tells the native's batches apart is taken from the id manager as it was before the
      round. Still it is never the variable of a port, however many channels the components create
      afterwards: the identifier it could share is that of a putter, and channels are named after getters. */
  lemma NativeVarIsFresh(ports: PortMap, connector: nat, base: nat, ops: seq<NonsyncOp>, p: Id)
    requires PeersOk(ports) && AllPaired(ports) && IdsBelow(ports, connector, base) && NativeVar(connector, base).Some?
    requires p in RunNonsync(ports, connector, base, ops).0
    ensures NativeVar(connector, base) == Some(Id(connector, base + 100))
    ensures var ports' := RunNonsync(ports, connector, base, ops).0;
      PeersOk(ports') && AllPaired(ports') && SpecVarFor(ports', p) != NativeVar(connector, base).value
  {
    hide PeersOk;
    RunNonsyncOk(ports, connector, base, base, ops);
    VarIsGetter(RunNonsync(ports, connector, base, ops).0, p);
  }

  /** `owner` gets the ports `ps`, next to those it has. */
  function Give(owned: map<Id, set<Id>>, owner: Id, ps: set<Id>): map<Id, set<Id>> {
    owned[owner := (if owner in owned then owned[owner] else {}) + ps]
  }

  lemma GiveAdds(owned: map<Id, set<Id>>, owner: Id, p: Id)
    ensures var owned' := Give(owned, owner, {p}); owned'.Keys == owned.Keys + {owner} && p in owned'[owner]
    ensures forall c, q | c in owned :: q in Give(owned, owner, {p})[c] <==> q in owned[c] || (c == owner && q == p)
  {
  }

  lemma GiveMirrors(ports: PortMap, owned: map<Id, set<Id>>, more: PortMap, owner: Id, ps: set<Id>)
    requires OwnedMirrors(ports, owned) && more.Keys == ports.Keys + ps
    requires forall p <- ports :: more[p].owner == ports[p].owner
    requires forall p <- ps :: more[p].owner == owner
    ensures OwnedMirrors(more, Give(owned, owner, ps))
  {
    var owned' := Give(owned, owner, ps);
    forall o, p | o in owned' && p in owned'[o] ensures p in more && more[p].owner == o {
      if o in owned && p in owned[o] { assert p in ports; }
    }
  }

  lemma OwnerKnown(ports: PortMap, owned: map<Id, set<Id>>, p: Id)
    requires OwnedMirrors(ports, owned) && p in ports
    ensures ports[p].owner in owned
  {
  }

  function Moved(ports: PortMap, moved: set<Id>, cid: Id): PortMap {
    map p | p in ports :: if p in moved then ports[p].(owner := cid) else ports[p]
  }

  function GiveAway(owned: map<Id, set<Id>>, from: Id, moved: set<Id>, cid: Id): map<Id, set<Id>> {
    (if from in owned then owned[from := owned[from] - moved] else owned)[cid := moved]
  }

  lemma MoveMirrors(ports: PortMap, owned: map<Id, set<Id>>, from: Id, moved: set<Id>, cid: Id)
    requires OwnedMirrors(ports, owned) && cid !in owned
    requires forall p <- moved :: p in ports && ports[p].owner == from
    ensures OwnedMirrors(Moved(ports, moved, cid), GiveAway(owned, from, moved, cid))
  {
    var ports', owned' := Moved(ports, moved, cid), GiveAway(owned, from, moved, cid);
    forall p | p in ports' ensures ports'[p].owner in owned' && p in owned'[ports'[p].owner] {
      assert ports[p].owner in owned;
    }
    forall o, p | o in owned' && p in owned'[o] ensures p in ports' && ports'[p].owner == o {
      if o != cid { assert o in owned && p in owned[o]; }
    }
  }

  lemma MovePeers(ports: PortMap, moved: set<Id>, cid: Id)
    requires PeersOk(ports)
    ensures PeersOk(Moved(ports, moved, cid))
  {
    var ports' := Moved(ports, moved, cid);
    forall q | q in ports' ensures PeerOk(ports', q) { assert PeerOk(ports, q); }
  }

  /** What a truthful `MyPortInfo` says about the port at the other end of `local`'s link. */
  ghost predicate Truthful(ports: PortMap, connector: nat, local: Id, peer: Id, peerOwner: Id, peerPolarity: Polarity) {
    && peer != local && (forall q <- ports | q != local :: ports[q].peer != Some(peer))
    && (forall q <- ports | ports[q].peer == Some(local) :: q == peer)
    && (if peer in ports then
          ports[peer].polarity == peerPolarity && ports[peer].owner == peerOwner
          && (ports[peer].peer == None || ports[peer].peer == Some(local))
        else peer.connector != connector && peerOwner.connector != connector)
  }

  function Learned(ports: PortMap, local: Id, peer: Id, peerOwner: Id, peerPolarity: Polarity, index: nat): PortMap
    requires local in ports
  {
    var known := ports[local := ports[local].(peer := Some(peer))];
    if peer in ports then known else known[peer := PortInfo(peerOwner, Some(local), peerPolarity, Net(index))]
  }

  lemma LearnedPeers(ports: PortMap, connector: nat, local: Id, peer: Id, peerOwner: Id, peerPolarity: Polarity, index: nat)
    requires PeersOk(ports) && local in ports && ports[local].peer == None && ports[local].polarity != peerPolarity
    requires Truthful(ports, connector, local, peer, peerOwner, peerPolarity)
    ensures PeersOk(Learned(ports, local, peer, peerOwner, peerPolarity, index))
  {
    var after := Learned(ports, local, peer, peerOwner, peerPolarity, index);
    forall p | p in after ensures PeerOk(after, p) {
      if p in ports { assert PeerOk(ports, p); }
    }
    forall p, q | p in after && q in after && p != q && after[p].peer.Some? ensures after[p].peer != after[q].peer {}
  }

  lemma LearnedTables(ports: PortMap, owned: map<Id, set<Id>>, connector: nat, next: nat, local: Id, peer: Id, peerOwner: Id,
                      peerPolarity: Polarity, index: nat)
    requires OwnedMirrors(ports, owned) && PeersOk(ports) && IdsBelow(ports, connector, next)
    requires local in ports && ports[local].peer == None && ports[local].polarity != peerPolarity
    requires Truthful(ports, connector, local, peer, peerOwner, peerPolarity)
    ensures var ports' := Learned(ports, local, peer, peerOwner, peerPolarity, index);
      OwnedMirrors(ports', Give(owned, peerOwner, {peer})) && PeersOk(ports') && IdsBelow(ports', connector, next)
    ensures forall o <- Give(owned, peerOwner, {peer}) :: o in owned || o.connector != connector
  {
    hide PeersOk, OwnedMirrors;
    if peer in ports { OwnerKnown(ports, owned, peer); }
    LearnedPeers(ports, connector, local, peer, peerOwner, peerPolarity, index);
    GiveMirrors(ports, owned, Learned(ports, local, peer, peerOwner, peerPolarity, index), peerOwner, {peer});
  }

  datatype AddResult =
    | Added(component: Id)
    | Exhausted                                // no component identifier is left
    | DuplicatePort(port: Id)
    | NoSuchComponent
    | WrongNumber(expected: nat)
    | UnknownPort(port: Id)
    | WrongPolarity(port: Id, polarity: Polarity)

  /** The batch has all that `was` has, but for the given ports. */
  ghost predicate IsWithout(b: N.Batch, was: N.Batch, given: seq<Id>) {
    && (forall p :: p in b.toPut <==> p in was.toPut && p !in given)
    && (forall p <- b.toPut :: b.toPut[p] == was.toPut[p])
    && (forall p :: p in b.toGet <==> p in was.toGet && p !in given)
  }

  function Set(ps: seq<Id>): set<Id> { set p | p in ps }

  predicate MayPass(ports: PortMap, native: Id, p: Id, polarity: Polarity) {
    p in ports && ports[p].owner == native && ports[p].polarity == polarity
  }

  /** The ports are distinct, the native's, and of the polarities that the component expects. */
  ghost predicate MayAdd(ports: PortMap, native: Id, given: seq<Id>, expected: Option<seq<Polarity>>) {
    && Distinct(given) && expected.Some? && |expected.value| == |given|
    && forall k | 0 <= k < |given| :: MayPass(ports, native, given[k], expected.value[k])
  }

  // ---- batches of the native ----

  /** Batches put on putters of the native and get on getters of it. */
  ghost predicate BatchesOk(ports: PortMap, native: Id, batches: seq<N.Batch>) {
    forall b <- batches :: BatchOk(ports, native, b)
  }

  ghost predicate BatchOk(ports: PortMap, native: Id, b: N.Batch) {
    && (forall p <- b.toPut :: MayPass(ports, native, p, Putter))
    && (forall p <- b.toGet :: MayPass(ports, native, p, Getter))
  }

  /** The batches without the ports that have been passed on. */
  function Without(batches: seq<N.Batch>, moved: set<Id>): seq<N.Batch> {
    seq(|batches|, i requires 0 <= i < |batches| => N.Batch(batches[i].toPut - moved, batches[i].toGet - moved))
  }

  lemma WithoutOk(ports: PortMap, native: Id, batches: seq<N.Batch>, moved: set<Id>, cid: Id)
    requires BatchesOk(ports, native, batches)
    ensures BatchesOk(Moved(ports, moved, cid), native, Without(batches, moved))
  {
    var ports', batches' := Moved(ports, moved, cid), Without(batches, moved);
    forall i | 0 <= i < |batches'| ensures BatchOk(ports', native, batches'[i]) {
      assert batches[i] in batches;
      assert BatchOk(ports, native, batches[i]);
    }
  }

  /** Ports that keep their owner and polarity stay in the batches. */
  lemma BatchesKept(ports: PortMap, ports': PortMap, native: Id, batches: seq<N.Batch>)
    requires BatchesOk(ports, native, batches)
    requires forall p <- ports | ports[p].owner == native :: p in ports' && ports'[p].owner == native && ports'[p].polarity == ports[p].polarity
    ensures BatchesOk(ports', native, batches)
  {
    forall b | b in batches ensures BatchOk(ports', native, b) { assert BatchOk(ports, native, b); }
  }

  /** What the native component of a round knows: its ports with their variables, and its batches. */
  ghost function NativeContext(ports: PortMap, native: Id, nativeVar: Id, batches: seq<N.Batch>): N.NativeCtx {
    N.NativeCtx(map p | p in ports && ports[p].owner == native && ports[p].peer.Some? :: SpecVarFor(ports, p),
                (set p | p in ports && ports[p].owner == native && ports[p].polarity == Getter), nativeVar, batches)
  }

  /** The batches that were assembled suit the round. */
  lemma ContextValid(ports: PortMap, native: Id, nativeVar: Id, batches: seq<N.Batch>)
    requires AllPaired(ports) && BatchesOk(ports, native, batches) && forall p <- ports :: SpecVarFor(ports, p) != nativeVar
    ensures var ctx := NativeContext(ports, native, nativeVar, batches);
      && ctx.Valid() && ctx.nativeVar == nativeVar && ctx.batches == batches
      && (forall p :: p in ctx.vars <==> p in ports && ports[p].owner == native)
      && (forall p :: p in ctx.vars ==> ctx.vars[p] == SpecVarFor(ports, p))
      && (forall p :: p in ctx.getters <==> p in ports && ports[p].owner == native && ports[p].polarity == Getter)
  {
    forall b | b in batches ensures BatchOk(ports, native, b) {}
  }

  datatype PortOp = Done | UnknownPolarity | PortUnavailable | OtherPolarity | NotConnected | MultipleOpsOnPort

  /** The ports and identifiers of one connector, updated in place. */
  class PortBook {
    const connector: nat
    const native: Id
    var nextPort: nat
    var nextComponent: nat
    var ports: PortMap
    var owned: map<Id, set<Id>>
    var batches: seq<N.Batch>                  // none before the connector has connected, and then at least one

    ghost predicate Valid()
      reads this
    {
      && BatchesOk(ports, native, batches)
      && OwnedMirrors(ports, owned) && PeersOk(ports) && IdsBelow(ports, connector, nextPort)
      && (forall o <- owned | o.connector == connector :: o.suffix < nextComponent)
      && native.connector == connector && native.suffix < nextComponent
    }

    constructor (connector: nat)
      ensures Valid() && ports == map[] && this.connector == connector && nextPort == 0 && batches == []
    {
      this.connector := connector;
      native, nextComponent, nextPort := Id(connector, 0), 1, 0;
      ports, owned, batches := map[], map[], [];
    }

    /** `new_port_pair`, for the native or for a component; fails when identifiers run out. */
    method NewPortPair(owner: Id) returns (pair: Option<(Id, Id)>)
      requires Valid() && (owner.connector == connector ==> owner.suffix < nextComponent)
      modifies this`nextPort, this`ports, this`owned
      ensures Valid()
      ensures pair == None <==> old(nextPort) + 1 >= U32_MAX
      ensures pair == None ==> ports == old(ports) && owned == old(owned)
      ensures pair.Some? ==> pair.value == (Id(connector, old(nextPort)), Id(connector, old(nextPort) + 1))
      ensures pair.Some? ==> nextPort == old(nextPort) + 2
      ensures pair.Some? ==> var (o, i) := pair.value;
        ports == old(ports)[o := PortInfo(owner, Some(i), Putter, Local)][i := PortInfo(owner, Some(o), Getter, Local)]
      ensures pair.Some? ==> owned.Keys == old(owned).Keys + {owner} && forall c <- old(owned) | c != owner :: owned[c] == old(owned)[c]
    {
      hide OwnedMirrors, PeersOk, BatchesOk;
      if nextPort >= U32_MAX { return None; }
      var o := Id(connector, nextPort);
      nextPort := nextPort + 1;
      if nextPort >= U32_MAX { return None; }
      var i := Id(connector, nextPort);
      nextPort := nextPort + 1;
      assert o !in ports && i !in ports;
      AddPairPeers(ports, o, i, owner);
      GiveMirrors(ports, owned, AddPair(ports, o, i, owner), owner, {o, i});
      BatchesKept(ports, AddPair(ports, o, i, owner), native, batches);
      ports := AddPair(ports, o, i, owner);
      owned := Give(owned, owner, {o, i});
      pair := Some((o, i));
    }

    /** `new_net_port`: a dangling port of the native. */
    method NewNetPort(polarity: Polarity) returns (port: Option<Id>)
      requires Valid()
      modifies this`nextPort, this`ports, this`owned
      ensures Valid()
      ensures port == None ==> ports == old(ports) && owned == old(owned)
      ensures port == None <==> old(nextPort) >= U32_MAX
      ensures port.Some? ==> port.value == Id(connector, old(nextPort)) && port.value !in old(ports)
      ensures port.Some? ==> owned.Keys == old(owned).Keys + {native} && forall c <- old(owned) | c != native :: owned[c] == old(owned)[c]
      ensures port.Some? ==> ports == old(ports)[port.value := PortInfo(native, None, polarity, Local)]
    {
      if nextPort >= U32_MAX { return None; }
      var p := Id(connector, nextPort);
      nextPort := nextPort + 1;
      var more := ports[p := PortInfo(native, None, polarity, Local)];
      GiveMirrors(ports, owned, more, native, {p});
      BatchesKept(ports, more, native, batches);
      DanglingPeers(ports, p, PortInfo(native, None, polarity, Local));
      hide BatchesOk, PeersOk, OwnedMirrors;
      ports := more;
      owned := Give(owned, native, {p});
      port := Some(p);
    }

    /** Move ports from one owner to a new component (`add_component`, `new_component`). */
    method MovePorts(from: Id, moved: set<Id>) returns (component: Option<Id>)
      requires Valid() && (forall p <- moved :: p in ports && ports[p].owner == from)
      requires from == native ==> Without(batches, moved) == batches
      modifies this`nextComponent, this`ports, this`owned
      ensures Valid()
      ensures component == None <==> old(nextComponent) >= U32_MAX
      ensures component == None ==> ports == old(ports) && owned == old(owned)
      ensures component.Some? ==> component.value == Id(connector, old(nextComponent)) && component.value !in old(owned)
      ensures component.Some? ==> ports.Keys == old(ports).Keys
      ensures component.Some? ==> forall p <- ports ::
        ports[p] == if p in moved then old(ports)[p].(owner := component.value) else old(ports)[p]
      ensures component.Some? ==> owned.Keys == old(owned).Keys + {component.value} && owned[component.value] == moved
      ensures component.Some? ==> forall c <- old(owned) :: owned[c] == if c == from then old(owned)[c] - moved else old(owned)[c]
    {
      hide OwnedMirrors, PeersOk, BatchesOk, Without;
      if nextComponent >= U32_MAX { return None; }
      var cid := Id(connector, nextComponent);
      nextComponent := nextComponent + 1;
      assert cid !in owned;
      MovePeers(ports, moved, cid);
      MoveMirrors(ports, owned, from, moved, cid);
      if from == native { WithoutOk(ports, native, batches, moved, cid); }
      else { BatchesKept(ports, Moved(ports, moved, cid), native, batches); }
      ports := Moved(ports, moved, cid);
      owned := GiveAway(owned, from, moved, cid);
      component := Some(cid);
    }

    /** `add_component`: the given ports of the native pass to a new component, unless they do not fit. */
    method AddComponent(given: seq<Id>, expected: Option<seq<Polarity>>) returns (r: AddResult)
      requires Valid()
      modifies this`nextComponent, this`ports, this`owned, this`batches
      ensures Valid()
      ensures r.Added? || r.Exhausted? <==> MayAdd(old(ports), native, given, expected)
      ensures r.Added? || r.Exhausted? <==>
        && (forall i, j | 0 <= i < j < |given| :: given[i] != given[j]) && expected.Some? && |expected.value| == |given|
        && forall k | 0 <= k < |given| ::
             given[k] in old(ports) && old(ports)[given[k]].owner == native && old(ports)[given[k]].polarity == expected.value[k]
      ensures r.Added? ==> r.component == Id(connector, old(nextComponent)) && r.component !in old(owned)
      ensures r.Added? ==> ports.Keys == old(ports).Keys
      ensures r.Added? ==> forall p <- ports :: ports[p] == if p in given then old(ports)[p].(owner := r.component) else old(ports)[p]
      ensures r.Added? ==> owned.Keys == old(owned).Keys + {r.component} && forall p :: p in owned[r.component] <==> p in given
      ensures r.Added? ==> forall c, p | c in old(owned) :: p in owned[c] <==> p in old(owned)[c] && !(c == native && p in given)
      ensures r.Added? ==> |batches| == |old(batches)| && forall k | 0 <= k < |batches| :: IsWithout(batches[k], old(batches)[k], given)
      ensures !r.Added? ==> ports == old(ports) && owned == old(owned) && batches == old(batches)
      ensures match r
        case DuplicatePort(p) => exists i, j | 0 <= i < j < |given| :: given[i] == p == given[j]
        case NoSuchComponent => expected == None
        case WrongNumber(n) => expected.Some? && n == |expected.value| != |given|
        case UnknownPort(p) => p in given && (p !in ports || ports[p].owner != native)
        case WrongPolarity(p, polarity) => p in given && p in ports && ports[p].owner == native && ports[p].polarity != polarity
        case _ => true
    {
      hide OwnedMirrors, PeersOk, IdsBelow, BatchesOk, Without;
      var i := 0;
      while i < |given|
        invariant 0 <= i <= |given| && Distinct(given[..i]) && ports == old(ports) && owned == old(owned) && batches == old(batches) && Valid()
      {
        if given[i] in given[..i] {
          var j :| 0 <= j < i && given[..i][j] == given[i];
          return DuplicatePort(given[i]);
        }
        assert given[..i + 1] == given[..i] + [given[i]];
        i := i + 1;
      }
      assert given[..i] == given;
      if expected == None { return NoSuchComponent; }
      if |expected.value| != |given| { return WrongNumber(|expected.value|); }
      i := 0;
      while i < |given|
        invariant 0 <= i <= |given| && ports == old(ports) && owned == old(owned) && batches == old(batches) && Valid()
        invariant forall k | 0 <= k < i :: MayPass(ports, native, given[k], expected.value[k])
      {
        if given[i] !in ports || ports[given[i]].owner != native { return UnknownPort(given[i]); }
        if ports[given[i]].polarity != expected.value[i] { return WrongPolarity(given[i], expected.value[i]); }
        i := i + 1;
      }
      if nextComponent >= U32_MAX { return Exhausted; }
      WithoutStays(ports, native, batches, Set(given));
      WithoutGiven(batches, given);
      batches := Without(batches, Set(given));
      var component := MovePorts(native, Set(given));
      r := Added(component.value);
    }

    /** A net endpoint learns which port is at the other end: a polarity clash is an error, otherwise the
        local port learns its peer, and the peer is recorded unless it is known already. */
    method LearnPeer(local: Id, peer: Id, peerOwner: Id, peerPolarity: Polarity, index: nat) returns (ok: bool)
      requires Valid() && local in ports && ports[local].peer == None
      modifies this`ports, this`owned
      ensures old(Truthful(ports, connector, local, peer, peerOwner, peerPolarity)) ==> Valid()
      ensures ok <==> old(ports[local].polarity) != peerPolarity
      ensures !ok ==> ports == old(ports) && owned == old(owned)
      ensures ok ==> ports == Learned(old(ports), local, peer, peerOwner, peerPolarity, index)
      ensures ok ==> ports.Keys == old(ports).Keys + {peer} && ports[local].peer == Some(peer)
      ensures ok ==> forall p <- old(ports) | p != local :: ports[p] == old(ports)[p]
      ensures ok ==> ports[local].(peer := None) == old(ports)[local]
      ensures ok && peer !in old(ports) ==> ports[peer] == PortInfo(peerOwner, Some(local), peerPolarity, Net(index))
      ensures ok ==> owned.Keys == old(owned).Keys + {peerOwner} && peer in owned[peerOwner]
      ensures ok ==> forall c, p | c in old(owned) :: p in owned[c] <==> p in old(owned)[c] || (c == peerOwner && p == peer)
    {
      hide PeersOk, OwnedMirrors, Truthful, Give, IdsBelow, BatchesOk;
      if ports[local].polarity == peerPolarity { return false; }
      BatchesKept(ports, Learned(ports, local, peer, peerOwner, peerPolarity, index), native, batches);
      hide Learned;
      if Truthful(ports, connector, local, peer, peerOwner, peerPolarity) {
        LearnedTables(ports, owned, connector, nextPort, local, peer, peerOwner, peerPolarity, index);
      }
      GiveAdds(owned, peerOwner, peer);
      owned := Give(owned, peerOwner, {peer});
      ports := Learned(ports, local, peer, peerOwner, peerPolarity, index);
      ok := true;
    }

    /** Connecting has succeeded: one empty batch. */
    method Connect()
      requires Valid()
      modifies this`batches
      ensures Valid() && batches == [N.Batch(map[], {})]
    {
      batches := [N.Batch(map[], {})];
    }

    method NextBatch() returns (index: Option<nat>)
      requires Valid()
      modifies this`batches
      ensures Valid() && (index == None <==> old(batches) == [])
      ensures index == None ==> batches == old(batches)
      ensures index.Some? ==> batches == old(batches) + [N.Batch(map[], {})] && index.value == |old(batches)|
    {
      if batches == [] { return None; }
      batches := batches + [N.Batch(map[], {})];
      index := Some(|batches| - 1);
    }

    /** Whether the native may operate on the port now; the first thing that is wrong, if anything. */
    method PortOpAccess(port: Id, expected: Polarity) returns (r: PortOp)
      ensures match r
        case UnknownPolarity => port !in ports
        case PortUnavailable => port in ports && ports[port].owner != native
        case OtherPolarity => port in ports && ports[port].owner == native && ports[port].polarity != expected
        case NotConnected => port in ports && ports[port].owner == native && ports[port].polarity == expected && batches == []
        case Done => port in ports && ports[port].owner == native && ports[port].polarity == expected && batches != []
        case MultipleOpsOnPort => false
    {
      if port !in ports { return UnknownPolarity; }
      if ports[port].owner != native { return PortUnavailable; }
      if ports[port].polarity != expected { return OtherPolarity; }
      r := if batches == [] then NotConnected else Done;
    }

    /** Add a `put` to the selected batch, the last one. */
    method Put(port: Id, payload: N.Bytes) returns (r: PortOp)
      requires Valid()
      modifies this`batches
      ensures Valid()
      ensures match r
        case UnknownPolarity => port !in ports
        case PortUnavailable => port in ports && ports[port].owner != native
        case OtherPolarity => port in ports && ports[port].owner == native && ports[port].polarity == Getter
        case NotConnected => port in ports && ports[port].owner == native && ports[port].polarity == Putter && old(batches) == []
        case MultipleOpsOnPort =>
          && port in ports && ports[port].owner == native && ports[port].polarity == Putter
          && old(batches) != [] && port in old(batches)[|old(batches)| - 1].toPut
        case Done =>
          && port in ports && ports[port].owner == native && ports[port].polarity == Putter
          && old(batches) != [] && port !in old(batches)[|old(batches)| - 1].toPut
      ensures r != Done ==> batches == old(batches)
      ensures r == Done ==> var k := |old(batches)| - 1;
        && |batches| == |old(batches)| && batches[..k] == old(batches)[..k]
        && batches[k].toPut == old(batches)[k].toPut[port := payload] && batches[k].toGet == old(batches)[k].toGet
    {
      r := PortOpAccess(port, Putter);
      if r != Done { return; }
      var k := |batches| - 1;
      if port in batches[k].toPut { return MultipleOpsOnPort; }
      SelectedOk(ports, native, batches, N.Batch(batches[k].toPut[port := payload], batches[k].toGet));
      batches := batches[k := N.Batch(batches[k].toPut[port := payload], batches[k].toGet)];
    }

    /** Add a `get` to the selected batch, the last one. */
    method Get(port: Id) returns (r: PortOp)
      requires Valid()
      modifies this`batches
      ensures Valid()
      ensures match r
        case UnknownPolarity => port !in ports
        case PortUnavailable => port in ports && ports[port].owner != native
        case OtherPolarity => port in ports && ports[port].owner == native && ports[port].polarity == Putter
        case NotConnected => port in ports && ports[port].owner == native && ports[port].polarity == Getter && old(batches) == []
        case MultipleOpsOnPort =>
          && port in ports && ports[port].owner == native && ports[port].polarity == Getter
          && old(batches) != [] && port in old(batches)[|old(batches)| - 1].toGet
        case Done =>
          && port in ports && ports[port].owner == native && ports[port].polarity == Getter
          && old(batches) != [] && port !in old(batches)[|old(batches)| - 1].toGet
      ensures r != Done ==> batches == old(batches)
      ensures r == Done ==> var k := |old(batches)| - 1;
        && |batches| == |old(batches)| && batches[..k] == old(batches)[..k]
        && batches[k].toPut == old(batches)[k].toPut && batches[k].toGet == old(batches)[k].toGet + {port}
    {
      r := PortOpAccess(port, Getter);
      if r != Done { return; }
      var k := |batches| - 1;
      if port in batches[k].toGet { return MultipleOpsOnPort; }
      SelectedOk(ports, native, batches, N.Batch(batches[k].toPut, batches[k].toGet + {port}));
      batches := batches[k := N.Batch(batches[k].toPut, batches[k].toGet + {port})];
    }
  }

  lemma SelectedOk(ports: PortMap, native: Id, batches: seq<N.Batch>, batch: N.Batch)
    requires batches != [] && BatchesOk(ports, native, batches)
    requires BatchOk(ports, native, batches[|batches| - 1]) ==> BatchOk(ports, native, batch)
    ensures BatchesOk(ports, native, batches[|batches| - 1 := batch])
  {
    assert BatchOk(ports, native, batches[|batches| - 1]);
    var changed := batches[|batches| - 1 := batch];
    forall i | 0 <= i < |changed| ensures BatchOk(ports, native, changed[i]) {
      assert batches[i] in batches;
    }
  }

  lemma WithoutGiven(batches: seq<N.Batch>, given: seq<Id>)
    ensures var rest := Without(batches, Set(given));
      |rest| == |batches| && forall k | 0 <= k < |rest| :: IsWithout(rest[k], batches[k], given)
  {
  }

  lemma WithoutStays(ports: PortMap, native: Id, batches: seq<N.Batch>, moved: set<Id>)
    requires BatchesOk(ports, native, batches)
    ensures BatchesOk(ports, native, Without(batches, moved)) && Without(Without(batches, moved), moved) == Without(batches, moved)
  {
    var rest := Without(batches, moved);
    forall i | 0 <= i < |rest| ensures BatchOk(ports, native, rest[i]) {
      assert batches[i] in batches;
      assert BatchOk(ports, native, batches[i]);
    }
    assert Without(rest, moved) == rest by {
      forall i | 0 <= i < |rest| ensures Without(rest, moved)[i] == rest[i] {
        assert rest[i].toPut - moved == rest[i].toPut && rest[i].toGet - moved == rest[i].toGet;
      }
    }
  }
}
