/** `BranchingProtoComponent`: the speculative branches of a protocol component. The component itself
    is opaque: it is run until it reports what blocks it. */
module Proto {
  import opened Network
  import opened Predicates
  import N = Native

  type Bytes = N.Bytes

  datatype Blocker =
    | Inconsistent
    | SyncBlockEnd
    | CouldntReadMsg(port: Id)
    | CouldntCheckFiring(port: Id)
    | PutMsg(port: Id, payload: Bytes)

  /** `did` are the ports on which the branch has put or got; `ended` once it reached the end of its sync block. */
  datatype ProtoBranch<C> = ProtoBranch(state: C, did: set<Id>, inbox: map<Id, Bytes>, ended: bool)

  datatype RunResult<C> = RunResult(state: C, did: set<Id>, blocker: Blocker)

  /** Running a component: its state, inbox, ports used so far and predicate determine what it does. */
  type Runner<!C> = (C, map<Id, Bytes>, set<Id>, Predicate) -> RunResult<C>

  /** What a run adds to the ports used are ports on which the branch has received: `read_msg` notes a port only if
      its message is there, and puts are noted by the runtime. */
  ghost predicate Recording<C(!new)>(run: Runner<C>) {
    forall c: C, inbox: map<Id, Bytes>, did, key :: did <= run(c, inbox, did, key).did <= did + inbox.Keys
  }

  /** The ports known to the connector with their variables, the putters, those the component owns, and the
      variables of all channels of the session. */
  datatype ProtoCtx = ProtoCtx(vars: map<Id, Id>, putters: set<Id>, owned: set<Id>, channels: iset<Id>) {
    ghost predicate Valid() {
      putters <= vars.Keys && owned <= vars.Keys && forall p <- vars :: vars[p] in channels
    }
  }

  /** The key assigns the variable of every owned port, FIRING exactly for the ports in `did`. */
  predicate Settles(ctx: ProtoCtx, key: Predicate, did: set<Id>) {
    forall p <- ctx.owned ::
      p in ctx.vars && ctx.vars[p] in key && (key[ctx.vars[p]] == FIRING <==> p in did)
  }

  ghost predicate BranchOk<C>(ctx: ProtoCtx, log: set<N.Message>, key: Predicate, b: ProtoBranch<C>) {
    Binary(ctx.channels, key) && N.Sound(log, key, b.inbox) && (b.ended ==> Settles(ctx, key, b.did))
  }

  /** A put on this port was sent under a predicate within the key. */
  ghost predicate SentUnder(outgoing: set<(Id, Predicate, Bytes)>, p: Id, key: Predicate) {
    exists o <- outgoing :: o.0 == p && Within(o.1, key)
  }

  /** Every port that the branch has used is one on which it received, or one on which it put. */
  ghost predicate Accounted<C>(outgoing: set<(Id, Predicate, Bytes)>, key: Predicate, b: ProtoBranch<C>) {
    forall p <- b.did :: p in b.inbox || SentUnder(outgoing, p, key)
  }

  type Branches<C> = map<Predicate, ProtoBranch<C>>

  ghost predicate BranchesOk<C>(ctx: ProtoCtx, log: set<N.Message>, branches: Branches<C>) {
    forall k <- branches :: BranchOk(ctx, log, k, branches[k])
  }

  /** `insert_branch_merging` keeps the branch that is there, and adds to its inbox. */
  function Merge<C>(branches: Branches<C>, key: Predicate, b: ProtoBranch<C>): Branches<C> {
    if key in branches then branches[key := branches[key].(inbox := branches[key].inbox + b.inbox)]
    else branches[key := b]
  }

  /** `more` is `b`, except that it may have received more messages. */
  predicate Extends<C(==)>(more: ProtoBranch<C>, b: ProtoBranch<C>) {
    more.state == b.state && more.did == b.did && more.ended == b.ended && b.inbox.Keys <= more.inbox.Keys
  }

  ghost predicate Grown<C>(branches: Branches<C>, more: Branches<C>) {
    forall k <- branches :: k in more && Extends(more[k], branches[k])
  }

  lemma SoundUnion(log: set<N.Message>, key: Predicate, a: map<Id, Bytes>, b: map<Id, Bytes>)
    requires N.Sound(log, key, a) && N.Sound(log, key, b)
    ensures N.Sound(log, key, a + b)
  {
    forall g | g in a + b
      ensures exists m <- log :: m.getter == g && m.payload == (a + b)[g] && Within(m.pred, key)
    {
      if g in b {
        var m :| m in log && m.getter == g && m.payload == b[g] && Within(m.pred, key);
      } else {
        var m :| m in log && m.getter == g && m.payload == a[g] && Within(m.pred, key);
      }
    }
  }

  lemma MergeOk<C>(ctx: ProtoCtx, log: set<N.Message>, branches: Branches<C>, key: Predicate, b: ProtoBranch<C>)
    requires BranchesOk(ctx, log, branches) && BranchOk(ctx, log, key, b)
    ensures BranchesOk(ctx, log, Merge(branches, key, b)) && Grown(branches, Merge(branches, key, b))
    ensures key in Merge(branches, key, b)
  {
    hide N.Sound, Binary, Settles;
    if key in branches { SoundUnion(log, key, branches[key].inbox, b.inbox); }
  }

  // ---- running one branch ----

  /** What running one branch leads to: branches to run again, at most one blocked or ended branch,
      a solution and a message. */
  datatype Turn<C> = Turn(panic: bool, again: seq<(Predicate, ProtoBranch<C>)>, out: seq<(Predicate, ProtoBranch<C>)>,
                          submit: set<Predicate>, send: set<(Id, Predicate, Bytes)>)

  /** The key with every unassigned variable of an owned port made silent. */
  function EndKey(ctx: ProtoCtx, key: Predicate): Predicate {
    (map v | v in OwnedVars(ctx) :: SILENT) + key
  }

  function OwnedVars(ctx: ProtoCtx): set<Id> {
    set p | p in ctx.owned && p in ctx.vars :: ctx.vars[p]
  }

  function RunOne<C>(ctx: ProtoCtx, run: Runner<C>, key: Predicate, b: ProtoBranch<C>): Turn<C> {
    var r := run(b.state, b.inbox, b.did, key);
    var b1 := b.(state := r.state, did := r.did);
    match r.blocker
    case Inconsistent => Turn(false, [], [], {}, {})
    case CouldntReadMsg(port) => Turn(port in b.inbox, [], [(key, b1)], {}, {})
    case CouldntCheckFiring(port) =>
      if port !in ctx.vars || ctx.vars[port] in key then Turn(true, [], [], {}, {})
      else Turn(false, [(key[ctx.vars[port] := SILENT], b1), (key[ctx.vars[port] := FIRING], b1)], [], {}, {})
    case PutMsg(port, payload) =>
      if port !in ctx.vars || port !in ctx.putters then Turn(true, [], [], {}, {})
      else if ctx.vars[port] in key && key[ctx.vars[port]] == SILENT then Turn(false, [], [], {}, {})
      else if port in r.did then Turn(true, [], [], {}, {})
      else
        var key1 := key[ctx.vars[port] := FIRING];
        Turn(false, [(key1, b1.(did := r.did + {port}))], [], {}, {(port, key1, payload)})
    case SyncBlockEnd =>
      var key1 := EndKey(ctx, key);
      if Settles(ctx, key1, r.did) then Turn(false, [], [(key1, b1.(ended := true))], {key1}, {})
      else Turn(false, [], [], {}, {})
  }

  /** How far a branch can still go: variables to decide and ports to use. */
  ghost function Rank<C>(ctx: ProtoCtx, key: Predicate, b: ProtoBranch<C>): nat {
    |(set p | p in ctx.vars :: ctx.vars[p]) - key.Keys| + |ctx.vars.Keys - b.did|
  }

  ghost predicate MessageOk(ctx: ProtoCtx, o: (Id, Predicate, Bytes)) {
    o.0 in ctx.putters && o.0 in ctx.vars && Binary(ctx.channels, o.1) && ctx.vars[o.0] in o.1 && o.1[ctx.vars[o.0]] == FIRING
  }

  ghost predicate TurnOk<C>(ctx: ProtoCtx, log: set<N.Message>, key: Predicate, b: ProtoBranch<C>, t: Turn<C>) {
    TurnKeeps(ctx, log, key, b, t) && TurnUses(b, t)
  }

  ghost predicate TurnKeeps<C>(ctx: ProtoCtx, log: set<N.Message>, key: Predicate, b: ProtoBranch<C>, t: Turn<C>) {
    && (forall x <- t.again :: BranchOk(ctx, log, x.0, x.1) && Within(key, x.0) && Rank(ctx, x.0, x.1) < Rank(ctx, key, b))
    && (forall x <- t.out :: BranchOk(ctx, log, x.0, x.1) && Within(key, x.0))
    && (forall p <- t.submit :: exists x <- t.out :: x.0 == p && x.1.ended)
    && (forall o <- t.send :: MessageOk(ctx, o) && Within(key, o.1))
  }

  ghost predicate TurnUses<C>(b: ProtoBranch<C>, t: Turn<C>) {
    && (forall x <- t.again :: x.1.inbox == b.inbox && NewlyUsed(b, x.0, x.1, t.send))
    && (forall x <- t.out :: x.1.inbox == b.inbox && NewlyUsed(b, x.0, x.1, t.send))
  }

  /** The ports that a branch uses in a turn are ones on which it received, or on which it puts in that turn. */
  ghost predicate NewlyUsed<C>(b: ProtoBranch<C>, key: Predicate, b': ProtoBranch<C>, send: set<(Id, Predicate, Bytes)>) {
    b.did <= b'.did && forall p <- b'.did :: p in b.did || p in b'.inbox || SentUnder(send, p, key)
  }

  lemma GrowKey(ctx: ProtoCtx, key: Predicate, v: Id, val: nat)
    requires Binary(ctx.channels, key) && (val == FIRING || val == SILENT) && (v in key ==> key[v] == val)
    ensures Binary(ctx.channels, key[v := val]) && Within(key, key[v := val])
  {
  }

  lemma RankKey<C>(ctx: ProtoCtx, key: Predicate, b: ProtoBranch<C>, port: Id, val: nat, b1: ProtoBranch<C>)
    requires port in ctx.vars && ctx.vars[port] !in key && b.did <= b1.did
    ensures Rank(ctx, key[ctx.vars[port] := val], b1) < Rank(ctx, key, b)
  {
    var all := set p | p in ctx.vars :: ctx.vars[p];
    var key1 := key[ctx.vars[port] := val];
    assert ctx.vars[port] in all - key.Keys;
    assert all - key1.Keys == (all - key.Keys) - {ctx.vars[port]};
    SubsetIsSmaller(ctx.vars.Keys - b1.did, ctx.vars.Keys - b.did);
  }

  lemma RankPort<C>(ctx: ProtoCtx, key: Predicate, b: ProtoBranch<C>, port: Id, key1: Predicate, b1: ProtoBranch<C>)
    requires port in ctx.vars && port !in b.did && b.did + {port} <= b1.did && key.Keys <= key1.Keys
    ensures Rank(ctx, key1, b1) < Rank(ctx, key, b)
  {
    var all := set p | p in ctx.vars :: ctx.vars[p];
    SubsetIsSmaller(all - key1.Keys, all - key.Keys);
    SubsetIsSmaller(ctx.vars.Keys - b1.did, (ctx.vars.Keys - b.did) - {port});
  }

  lemma EndKeyOk(ctx: ProtoCtx, key: Predicate)
    requires Binary(ctx.channels, key)
    ensures Binary(ctx.channels, EndKey(ctx, key)) && Within(key, EndKey(ctx, key))
  {
  }

  lemma RunOneOk<C(!new)>(ctx: ProtoCtx, log: set<N.Message>, run: Runner<C>, key: Predicate, b: ProtoBranch<C>)
    requires ctx.Valid() && Recording(run) && BranchOk(ctx, log, key, b) && !b.ended
    ensures TurnOk(ctx, log, key, b, RunOne(ctx, run, key, b))
  {
    hide BranchOk, RunOne, TurnKeeps, TurnUses, ProtoCtx.Valid;
    RunOneKeeps(ctx, log, run, key, b);
    RunOneUses(ctx, run, key, b);
  }

  lemma RunOneKeeps<C(!new)>(ctx: ProtoCtx, log: set<N.Message>, run: Runner<C>, key: Predicate, b: ProtoBranch<C>)
    requires ctx.Valid() && Recording(run) && BranchOk(ctx, log, key, b) && !b.ended
    ensures TurnKeeps(ctx, log, key, b, RunOne(ctx, run, key, b))
  {
    hide N.Sound, Binary, Settles, Within, Rank, EndKey;
    var r := run(b.state, b.inbox, b.did, key);
    assert b.did <= r.did;
    hide Recording;
    var b1 := b.(state := r.state, did := r.did);
    WithinSelf(key);
    match r.blocker
    case Inconsistent =>
    case CouldntReadMsg(port) =>
    case CouldntCheckFiring(port) =>
      if port in ctx.vars && ctx.vars[port] !in key {
        ForkOk(ctx, log, key, b, b1, port, SILENT);
        ForkOk(ctx, log, key, b, b1, port, FIRING);
      }
    case PutMsg(port, payload) =>
      if port in ctx.vars && port !in r.did && !(ctx.vars[port] in key && key[ctx.vars[port]] == SILENT) {
        PutOk(ctx, log, key, b, b1, port, payload);
      }
    case SyncBlockEnd =>
      EndKeyOk(ctx, key);
      N.SoundMore(log, log, key, EndKey(ctx, key), b.inbox);
  }

  lemma RunOneUses<C(!new)>(ctx: ProtoCtx, run: Runner<C>, key: Predicate, b: ProtoBranch<C>)
    requires Recording(run)
    ensures TurnUses(b, RunOne(ctx, run, key, b))
  {
    hide Settles, Within, EndKey;
    var r := run(b.state, b.inbox, b.did, key);
    if r.blocker.PutMsg? && r.blocker.port in ctx.vars { WithinSelf(key[ctx.vars[r.blocker.port] := FIRING]); }
  }

  lemma ForkOk<C>(ctx: ProtoCtx, log: set<N.Message>, key: Predicate, b: ProtoBranch<C>, b1: ProtoBranch<C>, port: Id, val: nat)
    requires BranchOk(ctx, log, key, b) && !b1.ended && b1.inbox == b.inbox && b.did <= b1.did
    requires port in ctx.vars && ctx.vars[port] !in key && (val == FIRING || val == SILENT)
    ensures var key1 := key[ctx.vars[port] := val];
      BranchOk(ctx, log, key1, b1) && Within(key, key1) && Rank(ctx, key1, b1) < Rank(ctx, key, b)
  {
    hide N.Sound, Settles, Rank, Binary, Within;
    GrowKey(ctx, key, ctx.vars[port], val);
    N.SoundMore(log, log, key, key[ctx.vars[port] := val], b.inbox);
    RankKey(ctx, key, b, port, val, b1);
  }

  lemma PutOk<C>(ctx: ProtoCtx, log: set<N.Message>, key: Predicate, b: ProtoBranch<C>, b1: ProtoBranch<C>, port: Id, payload: Bytes)
    requires ctx.Valid() && BranchOk(ctx, log, key, b) && !b1.ended && b1.inbox == b.inbox && b.did <= b1.did
    requires port in ctx.vars && port !in b1.did && !(ctx.vars[port] in key && key[ctx.vars[port]] == SILENT)
    ensures var key1 := key[ctx.vars[port] := FIRING]; var b2 := b1.(did := b1.did + {port});
      BranchOk(ctx, log, key1, b2) && Within(key, key1) && Rank(ctx, key1, b2) < Rank(ctx, key, b)
    ensures Binary(ctx.channels, key[ctx.vars[port] := FIRING])
  {
    hide N.Sound, Settles, Rank, Within;
    assert ctx.vars[port] in key ==> key[ctx.vars[port]] == FIRING;
    hide Binary;
    var key1 := key[ctx.vars[port] := FIRING];
    GrowKey(ctx, key, ctx.vars[port], FIRING);
    N.SoundMore(log, log, key, key1, b.inbox);
    RankPort(ctx, key, b, port, key1, b1.(did := b1.did + {port}));
  }

  /** The solution says of every owned port whether it fires. */
  ghost predicate Decides(ctx: ProtoCtx, p: Predicate) {
    forall q <- ctx.owned :: q in ctx.vars && ctx.vars[q] in p
  }

  /** The committed branch put or got on exactly the owned ports that the solution says fire. */
  ghost predicate Committed(ctx: ProtoCtx, solution: Predicate, did: set<Id>) {
    forall p <- ctx.owned ::
      p in ctx.vars && ctx.vars[p] in solution && (solution[ctx.vars[p]] == FIRING <==> p in did)
  }

  function MergeAll<C>(branches: Branches<C>, xs: seq<(Predicate, ProtoBranch<C>)>): Branches<C>
    decreases |xs|
  {
    if xs == [] then branches else MergeAll(Merge(branches, xs[0].0, xs[0].1), xs[1..])
  }

  /** `insert_branch_merging`: the branch that is there stays and is given the newer one's messages. */
  method InsertMerging<C>(branches: Branches<C>, key: Predicate, b: ProtoBranch<C>) returns (r: Branches<C>)
    ensures r == Merge(branches, key, b)
    ensures key !in branches ==> r == branches[key := b]
    ensures key in branches ==> r == branches[key := branches[key].(inbox := branches[key].inbox + b.inbox)]
  {
    if key !in branches {
      return branches[key := b];
    }
    var inbox, todo := branches[key].inbox, b.inbox.Keys;
    while todo != {}
      invariant todo <= b.inbox.Keys
      invariant inbox == branches[key].inbox + (map g | g in b.inbox && g !in todo :: b.inbox[g])
      decreases todo
    {
      var g :| g in todo;
      inbox := inbox[g := b.inbox[g]];
      todo := todo - {g};
    }
    assert inbox == branches[key].inbox + b.inbox;
    r := branches[key := branches[key].(inbox := inbox)];
  }

  /** Make every unassigned variable of an owned port silent, unless the branch contradicts its key. */
  method FinishKey(ctx: ProtoCtx, key: Predicate, did: set<Id>) returns (settled: bool, key1: Predicate)
    requires ctx.Valid()
    ensures settled <==> Settles(ctx, EndKey(ctx, key), did)
    ensures settled ==> key1 == EndKey(ctx, key)
  {
    key1 := key;
    var todo := ctx.owned;
    while todo != {}
      invariant todo <= ctx.owned && Within(key, key1) && Within(key1, EndKey(ctx, key))
      invariant forall p <- ctx.owned | p !in todo ::
        ctx.vars[p] in key1 && (key1[ctx.vars[p]] == FIRING <==> p in did)
      decreases todo
    {
      var port :| port in todo;
      var v := ctx.vars[port];
      if v !in key1 { key1 := key1[v := SILENT]; }
      if (key1[v] == FIRING) != (port in did) {
        return false, key1;
      }
      todo := todo - {port};
    }
    settled := true;
    assert key1 == EndKey(ctx, key);
  }

  /** The branch with the message in its inbox. */
  function Fed<C>(b: ProtoBranch<C>, m: N.Message): ProtoBranch<C> {
    if m.getter in b.inbox then b else b.(inbox := b.inbox[m.getter := m.payload])
  }

  /** Where a branch went: an ended one and one that contradicts the message are kept as they were;
      otherwise there is a branch under the union of both predicates that has the message and all the
      branch had, next to the branch as it was if the message assumes more. */
  ghost predicate Parted<C>(m: N.Message, key: Predicate, b: ProtoBranch<C>, unblocked: Branches<C>, blocked: Branches<C>) {
    if b.ended || !Consistent(key, m.pred) then key in blocked && Extends(blocked[key], b)
    else
      && key + m.pred in unblocked && b.inbox.Keys + {m.getter} <= unblocked[key + m.pred].inbox.Keys
      && (key + m.pred != key ==> key in blocked && Extends(blocked[key], b))
  }

  function PartOne<C>(m: N.Message, key: Predicate, b: ProtoBranch<C>, unblocked: Branches<C>, blocked: Branches<C>)
    : (Branches<C>, Branches<C>)
  {
    if b.ended then (unblocked, Merge(blocked, key, b))
    else match Union(key, m.pred)
      case Nonexistant => (unblocked, Merge(blocked, key, b))
      case LatterNotFormer => (Merge(unblocked, m.pred, Fed(b, m)), Merge(blocked, key, b))
      case New(u) => (Merge(unblocked, u, Fed(b, m)), Merge(blocked, key, b))
      case Equivalent => (Merge(unblocked, key, Fed(b, m)), blocked)
      case FormerNotLatter => (Merge(unblocked, key, Fed(b, m)), blocked)
  }

  /** The state of the partitioning loop. */
  ghost predicate Parting<C>(ctx: ProtoCtx, log: set<N.Message>, m: N.Message, before: Branches<C>, draining: Branches<C>,
                             unblocked: Branches<C>, blocked: Branches<C>) {
    && BranchesOk(ctx, log, draining) && BranchesOk(ctx, log, unblocked) && BranchesOk(ctx, log, blocked)
    && (forall k <- draining :: k in before && draining[k] == before[k])
    && (forall k <- blocked :: k in before && k !in draining)
    && (forall k <- unblocked :: !unblocked[k].ended && m.getter in unblocked[k].inbox)
    && (forall k <- before | k !in draining :: Parted(m, k, before[k], unblocked, blocked))
  }

  lemma PartStart<C>(ctx: ProtoCtx, log: set<N.Message>, m: N.Message, branches: Branches<C>)
    requires BranchesOk(ctx, log, branches)
    ensures Parting(ctx, log, m, branches, branches, map[], map[])
  {
  }

  lemma PartDone<C>(ctx: ProtoCtx, log: set<N.Message>, m: N.Message, before: Branches<C>, unblocked: Branches<C>, blocked: Branches<C>)
    requires Parting(ctx, log, m, before, map[], unblocked, blocked)
    ensures BranchesOk(ctx, log, unblocked) && BranchesOk(ctx, log, blocked)
    ensures forall k <- unblocked :: !unblocked[k].ended && m.getter in unblocked[k].inbox
    ensures forall k <- before :: Parted(m, k, before[k], unblocked, blocked)
  {
    hide Parted, BranchesOk;
  }

  lemma FedOk<C>(ctx: ProtoCtx, log: set<N.Message>, key: Predicate, b: ProtoBranch<C>, m: N.Message, key1: Predicate)
    requires BranchOk(ctx, log, key, b) && !b.ended && m in log && Within(key, key1) && Within(m.pred, key1) && Binary(ctx.channels, key1)
    ensures BranchOk(ctx, log, key1, Fed(b, m)) && m.getter in Fed(b, m).inbox
  {
    N.SoundMore(log, log, key, key1, b.inbox);
    var inbox := Fed(b, m).inbox;
    forall g | g in inbox ensures exists x <- log :: x.getter == g && x.payload == inbox[g] && Within(x.pred, key1) {
      if g in b.inbox { var x :| x in log && x.getter == g && x.payload == b.inbox[g] && Within(x.pred, key1); }
    }
  }

  lemma BinaryUnion(ctx: ProtoCtx, p: Predicate, q: Predicate)
    requires Binary(ctx.channels, p) && Binary(ctx.channels, q)
    ensures Binary(ctx.channels, p + q)
  {
  }

  lemma PartedGrows<C>(m: N.Message, key: Predicate, b: ProtoBranch<C>, unblocked: Branches<C>, blocked: Branches<C>,
                       unblocked': Branches<C>, blocked': Branches<C>)
    requires Parted(m, key, b, unblocked, blocked) && Grown(unblocked, unblocked') && Grown(blocked, blocked')
    ensures Parted(m, key, b, unblocked', blocked')
  {
    hide Consistent;
  }

  lemma GrownSelf<C>(branches: Branches<C>)
    ensures Grown(branches, branches)
  {
  }

  /** The turn of one branch in the partitioning loop. */
  ghost predicate PartOneOk<C>(ctx: ProtoCtx, log: set<N.Message>, m: N.Message, key: Predicate, b: ProtoBranch<C>,
                               unblocked: Branches<C>, blocked: Branches<C>, unblocked': Branches<C>, blocked': Branches<C>) {
    && BranchesOk(ctx, log, unblocked') && BranchesOk(ctx, log, blocked')
    && Grown(unblocked, unblocked') && Grown(blocked, blocked')
    && (forall k <- blocked' :: k in blocked || k == key)
    && (forall k <- unblocked' :: !unblocked'[k].ended && m.getter in unblocked'[k].inbox)
    && Parted(m, key, b, unblocked', blocked')
  }

  lemma PartKeeps<C>(ctx: ProtoCtx, log: set<N.Message>, m: N.Message, key: Predicate, b: ProtoBranch<C>,
                     unblocked: Branches<C>, blocked: Branches<C>)
    requires BranchesOk(ctx, log, unblocked) && BranchesOk(ctx, log, blocked) && BranchOk(ctx, log, key, b) && key !in blocked
    requires forall k <- unblocked :: !unblocked[k].ended && m.getter in unblocked[k].inbox
    requires b.ended || !Consistent(key, m.pred)
    ensures PartOneOk(ctx, log, m, key, b, unblocked, blocked, unblocked, Merge(blocked, key, b))
  {
    hide BranchOk, Consistent;
    GrownSelf(unblocked);
    MergeOk(ctx, log, blocked, key, b);
  }

  lemma PartFeeds<C>(ctx: ProtoCtx, log: set<N.Message>, m: N.Message, key: Predicate, b: ProtoBranch<C>, key1: Predicate,
                     unblocked: Branches<C>, blocked: Branches<C>, blocked': Branches<C>)
    requires BranchesOk(ctx, log, unblocked) && BranchesOk(ctx, log, blocked) && BranchOk(ctx, log, key, b) && key !in blocked
    requires forall k <- unblocked :: !unblocked[k].ended && m.getter in unblocked[k].inbox
    requires !b.ended && Consistent(key, m.pred) && m in log && Binary(ctx.channels, m.pred)
    requires key1 == key + m.pred && Within(key, key1) && Within(m.pred, key1)
    requires (blocked' == blocked && key1 == key) || blocked' == Merge(blocked, key, b)
    ensures PartOneOk(ctx, log, m, key, b, unblocked, blocked, Merge(unblocked, key1, Fed(b, m)), blocked')
  {
    hide BranchesOk, Consistent, Within, Merge, Grown, N.Sound, Settles, Binary;
    BinaryUnion(ctx, key, m.pred);
    FedOk(ctx, log, key, b, m, key1);
    hide BranchOk;
    MergeOk(ctx, log, unblocked, key1, Fed(b, m));
    MergeFed(m.getter, unblocked, key1, Fed(b, m));
    GrownSelf(blocked);
    MergeOk(ctx, log, blocked, key, b);
    MergeKeys(blocked, key, b);
  }

  lemma MergeFed<C>(getter: Id, unblocked: Branches<C>, key: Predicate, b: ProtoBranch<C>)
    requires forall k <- unblocked :: !unblocked[k].ended && getter in unblocked[k].inbox
    requires !b.ended && getter in b.inbox
    ensures key in Merge(unblocked, key, b) && b.inbox.Keys <= Merge(unblocked, key, b)[key].inbox.Keys
    ensures forall k <- Merge(unblocked, key, b) :: !Merge(unblocked, key, b)[k].ended && getter in Merge(unblocked, key, b)[k].inbox
  {
  }

  lemma MergeKeys<C>(branches: Branches<C>, key: Predicate, b: ProtoBranch<C>)
    ensures forall k <- Merge(branches, key, b) :: k in branches || k == key
    ensures key in Merge(branches, key, b) && (key !in branches ==> Merge(branches, key, b)[key] == b)
  {
  }

  lemma PartOneMatches<C>(ctx: ProtoCtx, log: set<N.Message>, m: N.Message, key: Predicate, b: ProtoBranch<C>,
                          unblocked: Branches<C>, blocked: Branches<C>)
    requires BranchesOk(ctx, log, unblocked) && BranchesOk(ctx, log, blocked) && BranchOk(ctx, log, key, b) && key !in blocked
    requires forall k <- unblocked :: !unblocked[k].ended && m.getter in unblocked[k].inbox
    requires m in log && Binary(ctx.channels, m.pred)
    ensures var (u, bl) := PartOne(m, key, b, unblocked, blocked);
      PartOneOk(ctx, log, m, key, b, unblocked, blocked, u, bl)
  {
    hide BranchOk, BranchesOk, Consistent, Within, Binary, Union, Merge, PartOneOk;
    N.UnionKeys(key, m.pred);
    if b.ended || !Consistent(key, m.pred) {
      PartKeeps(ctx, log, m, key, b, unblocked, blocked);
    } else {
      WithinSum(key, m.pred);
      if key + m.pred == key { PartFeeds(ctx, log, m, key, b, key + m.pred, unblocked, blocked, blocked); }
      PartFeeds(ctx, log, m, key, b, key + m.pred, unblocked, blocked, Merge(blocked, key, b));
    }
  }

  lemma WithinSum(p: Predicate, q: Predicate)
    requires Consistent(p, q)
    ensures Within(p, p + q) && Within(q, p + q)
  {
  }

  lemma PartNext<C>(ctx: ProtoCtx, log: set<N.Message>, m: N.Message, before: Branches<C>, draining: Branches<C>, key: Predicate,
                    unblocked: Branches<C>, blocked: Branches<C>)
    requires Parting(ctx, log, m, before, draining, unblocked, blocked) && key in draining && m in log && Binary(ctx.channels, m.pred)
    ensures var (u, bl) := PartOne(m, key, draining[key], unblocked, blocked);
      Parting(ctx, log, m, before, draining - {key}, u, bl)
    ensures |draining - {key}| < |draining|
  {
    hide PartOne, Parted, BranchOk, Binary;
    var (u, bl) := PartOne(m, key, draining[key], unblocked, blocked);
    PartOneMatches(ctx, log, m, key, draining[key], unblocked, blocked);
    var rest := draining - {key};
    hide Grown;
    forall k | k in before && k !in rest ensures Parted(m, k, before[k], u, bl) {
      if k != key { PartedGrows(m, k, before[k], unblocked, blocked, u, bl); }
    }
    assert draining.Keys == rest.Keys + {key};
  }

  lemma Relog<C>(ctx: ProtoCtx, log: set<N.Message>, log': set<N.Message>, branches: Branches<C>)
    requires BranchesOk(ctx, log, branches) && log <= log'
    ensures BranchesOk(ctx, log', branches)
  {
    hide N.Sound, Binary, Settles;
    forall k | k in branches ensures BranchOk(ctx, log', k, branches[k]) {
      WithinSelf(k);
      N.SoundMore(log, log', k, k, branches[k].inbox);
    }
  }

  lemma EndedParted<C>(m: N.Message, before: Branches<C>, unblocked: Branches<C>, blocked: Branches<C>)
    requires forall k <- before :: Parted(m, k, before[k], unblocked, blocked)
    ensures forall k <- before | before[k].ended :: k in blocked && Extends(blocked[k], before[k])
  {
    hide Consistent;
  }

  lemma EndedStays<C>(before: Branches<C>, blocked: Branches<C>, output: Branches<C>)
    requires Grown(blocked, output)
    requires forall k <- before | before[k].ended :: k in blocked && Extends(blocked[k], before[k])
    ensures forall k <- before | before[k].ended :: k in output && Extends(output[k], before[k])
  {
  }

  lemma CommittedBy<C>(ctx: ProtoCtx, log: set<N.Message>, key: Predicate, b: ProtoBranch<C>, solution: Predicate)
    requires BranchOk(ctx, log, key, b) && b.ended && Within(key, solution)
    ensures Committed(ctx, solution, b.did)
  {
  }

  lemma {:induction false} MergeAllOk<C>(ctx: ProtoCtx, log: set<N.Message>, branches: Branches<C>, xs: seq<(Predicate, ProtoBranch<C>)>)
    requires BranchesOk(ctx, log, branches) && forall x <- xs :: BranchOk(ctx, log, x.0, x.1)
    ensures BranchesOk(ctx, log, MergeAll(branches, xs)) && Grown(branches, MergeAll(branches, xs))
    decreases |xs|
  {
    hide BranchOk, BranchesOk, Merge, Grown;
    GrownSelf(branches);
    if xs != [] {
      var once := Merge(branches, xs[0].0, xs[0].1);
      MergeOk(ctx, log, branches, xs[0].0, xs[0].1);
      MergeAllOk(ctx, log, once, xs[1..]);
      GrownTrans(branches, once, MergeAll(once, xs[1..]));
    }
  }

  lemma GrownTrans<C>(a: Branches<C>, b: Branches<C>, c: Branches<C>)
    requires Grown(a, b) && Grown(b, c)
    ensures Grown(a, c)
  {
  }

  lemma RankBounded<C>(ctx: ProtoCtx, key: Predicate, b: ProtoBranch<C>)
    ensures Rank(ctx, key, b) < |set p | p in ctx.vars :: ctx.vars[p]| + |ctx.vars.Keys| + 1
  {
    var all := set p | p in ctx.vars :: ctx.vars[p];
    SubsetIsSmaller(all - key.Keys, all);
    SubsetIsSmaller(ctx.vars.Keys - b.did, ctx.vars.Keys);
  }

  lemma AgainRuns<C>(ctx: ProtoCtx, run: Runner<C>, key: Predicate, b: ProtoBranch<C>)
    requires !b.ended
    ensures forall x <- RunOne(ctx, run, key, b).again :: !x.1.ended
  {
  }
}
