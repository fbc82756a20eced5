/** Branches of a component that runs a program: each is on the way that the program takes if the branch's key comes
    true, whatever forking, merging and retrying led to it. */
module ProtoPaths {
  import opened Network
  import opened Predicates
  import opened Proto
  import opened ProtoRuns
  import opened Programs
  import N = Native

  /** A component that runs a program from its start. */
  datatype Agent<!C> = Agent(ctx: ProtoCtx, prog: Program<C>, start: C)

  ghost function If<C>(a: Agent<C>, log: set<N.Message>, q: Predicate): Scenario<C> {
    Scenario(a.prog, a.ctx.vars, log, q)
  }

  /** The message is for a getter of the component, whose variable it assumes to fire. */
  ghost predicate Labelled(ctx: ProtoCtx, m: N.Message) {
    m.getter !in ctx.putters && FiresIn(ctx.vars, m.pred, m.getter)
  }

  ghost predicate AllLabelled(ctx: ProtoCtx, log: set<N.Message>) {
    forall m <- log :: Labelled(ctx, m)
  }

  /** A put that the runtime has noted and the program has yet to see. */
  function Pending<C>(prog: Program<C>, state: C): set<Id> {
    match prog.op(state)
    case Put(port, _) => {port}
    case _ => {}
  }

  /** The program gets here, having used these ports, if the key comes true. */
  ghost predicate OnWay<C(!new)>(a: Agent<C>, log: set<N.Message>, key: Predicate, state: C, did: set<Id>) {
    exists n: nat, past ::
      Reaches(If(a, log, key), Config(a.start, {}), Config(state, past), n) && past <= did <= past + Pending(a.prog, state)
  }

  ghost predicate AllFire(ctx: ProtoCtx, key: Predicate, did: set<Id>) {
    forall p <- did :: FiresIn(ctx.vars, key, p)
  }

  ghost predicate PathOk<C(!new)>(a: Agent<C>, log: set<N.Message>, key: Predicate, b: ProtoBranch<C>) {
    && OnWay(a, log, key, b.state, b.did) && AllFire(a.ctx, key, b.did) && (b.ended ==> a.prog.op(b.state).End?)
  }

  ghost predicate PathsOk<C(!new)>(a: Agent<C>, log: set<N.Message>, branches: Branches<C>) {
    forall k <- branches :: PathOk(a, log, k, branches[k])
  }

  /** Whoever is neither ended nor to be run waits for a message. */
  ghost predicate AtRest<C(!new)>(a: Agent<C>, branches: Branches<C>) {
    forall k <- branches | !branches[k].ended :: a.prog.op(branches[k].state).Get?
  }

  /** What was put was put by the program, for the first time on that port, if the predicate comes true. */
  ghost predicate PutOnWay<C(!new)>(a: Agent<C>, log: set<N.Message>, o: (Id, Predicate, Bytes)) {
    exists n: nat, c ::
      Reaches(If(a, log, o.1), Config(a.start, {}), c, n) && a.prog.op(c.state) == Op.Put(o.0, o.2) && o.0 !in c.did
  }

  /** The program ends if the solution comes true. */
  ghost predicate EndsUnder<C(!new)>(a: Agent<C>, log: set<N.Message>, p: Predicate) {
    Binary(a.ctx.channels, p) && Ends(a.ctx, If(a, log, p), a.start)
  }

  ghost predicate OutcomesOk<C(!new)>(a: Agent<C>, log: set<N.Message>, submitted: set<Predicate>, outgoing: set<(Id, Predicate, Bytes)>) {
    (forall p <- submitted :: EndsUnder(a, log, p)) && (forall o <- outgoing :: PutOnWay(a, log, o))
  }

  ghost predicate WorkOnWay<C(!new)>(a: Agent<C>, log: set<N.Message>, w: Work<C>) {
    && PathsOk(a, log, w.draining) && PathsOk(a, log, w.swap) && PathsOk(a, log, w.output) && AtRest(a, w.output)
    && OutcomesOk(a, log, w.submitted, w.outgoing)
  }

  // ---- more is assumed ----

  lemma OnWayMore<C(!new)>(a: Agent<C>, log: set<N.Message>, log': set<N.Message>, key: Predicate, key': Predicate, state: C, did: set<Id>)
    requires OnWay(a, log, key, state, did) && log <= log' && Within(key, key')
    ensures OnWay(a, log', key', state, did)
  {
    hide Reaches, Within;
    var n: nat, past :|
      Reaches(If(a, log, key), Config(a.start, {}), Config(state, past), n) && past <= did <= past + Pending(a.prog, state);
    ReachesMore(If(a, log, key), If(a, log', key'), Config(a.start, {}), Config(state, past), n);
  }

  lemma AllFireMore(ctx: ProtoCtx, key: Predicate, key': Predicate, did: set<Id>)
    requires AllFire(ctx, key, did) && Within(key, key')
    ensures AllFire(ctx, key', did)
  {
  }

  lemma PathMore<C(!new)>(a: Agent<C>, log: set<N.Message>, log': set<N.Message>, key: Predicate, key': Predicate, b: ProtoBranch<C>)
    requires PathOk(a, log, key, b) && log <= log' && Within(key, key')
    ensures PathOk(a, log', key', b)
  {
    hide OnWay, AllFire, Within;
    OnWayMore(a, log, log', key, key', b.state, b.did);
    AllFireMore(a.ctx, key, key', b.did);
  }

  lemma PutOnWayMore<C(!new)>(a: Agent<C>, log: set<N.Message>, log': set<N.Message>, o: (Id, Predicate, Bytes))
    requires PutOnWay(a, log, o) && log <= log'
    ensures PutOnWay(a, log', o)
  {
    hide Reaches, Within;
    var n: nat, c :| Reaches(If(a, log, o.1), Config(a.start, {}), c, n) && a.prog.op(c.state) == Op.Put(o.0, o.2) && o.0 !in c.did;
    WithinSelf(o.1);
    ReachesMore(If(a, log, o.1), If(a, log', o.1), Config(a.start, {}), c, n);
  }

  lemma OutcomesMore<C(!new)>(a: Agent<C>, log: set<N.Message>, log': set<N.Message>, submitted: set<Predicate>, outgoing: set<(Id, Predicate, Bytes)>)
    requires OutcomesOk(a, log, submitted, outgoing) && log <= log'
    ensures OutcomesOk(a, log', submitted, outgoing)
  {
    hide PutOnWay, Ends, Binary, Within;
    forall o | o in outgoing ensures PutOnWay(a, log', o) { PutOnWayMore(a, log, log', o); }
    forall p | p in submitted ensures EndsUnder(a, log', p) {
      WithinSelf(p);
      EndsMore(a.ctx, If(a, log, p), If(a, log', p), a.start);
    }
  }

  // ---- running ----

  /** Going on within a branch is going on where its key comes true. */
  lemma AdvanceSteps<C(!new)>(a: Agent<C>, log: set<N.Message>, key: Predicate, inbox: map<Id, Bytes>, c: Config<C>, past: set<Id>)
    requires N.Sound(log, key, inbox) && AllLabelled(a.ctx, log) && AllFire(a.ctx, key, c.did)
    requires past <= c.did <= past + Pending(a.prog, c.state) && Advance(a.prog, a.ctx.vars, inbox, key, c).Some?
    ensures var c' := Advance(a.prog, a.ctx.vars, inbox, key, c).value;
      Steps(If(a, log, key), Config(c.state, past), c') && AllFire(a.ctx, key, c'.did)
  {
    var op := a.prog.op(c.state);
    if op.Get? {
      assert c.did == past;
      var m :| m in log && m.getter == op.port && m.payload == inbox[op.port] && Within(m.pred, key);
      assert Sent(log, key, op.port, inbox[op.port]);
      assert Labelled(a.ctx, m);
    } else if op.Put? {
      assert c.did == past + {op.port};
    }
  }

  lemma {:induction false} RunsOnWay<C(!new)>(a: Agent<C>, log: set<N.Message>, key: Predicate, inbox: map<Id, Bytes>, c: Config<C>, c': Config<C>, n: nat)
    requires N.Sound(log, key, inbox) && AllLabelled(a.ctx, log) && RunsTo(a.prog, a.ctx.vars, inbox, key, c, c', n)
    requires OnWay(a, log, key, c.state, c.did) && AllFire(a.ctx, key, c.did)
    ensures OnWay(a, log, key, c'.state, c'.did) && AllFire(a.ctx, key, c'.did)
    decreases n
  {
    hide N.Sound, AllLabelled, AllFire, Reaches, Steps, Advance;
    if n > 0 {
      var k: nat, past :|
        Reaches(If(a, log, key), Config(a.start, {}), Config(c.state, past), k) && past <= c.did <= past + Pending(a.prog, c.state);
      AdvanceSteps(a, log, key, inbox, c, past);
      var c1 := Advance(a.prog, a.ctx.vars, inbox, key, c).value;
      ReachesNext(If(a, log, key), Config(a.start, {}), Config(c.state, past), c1, k);
      assert c1.did <= c1.did <= c1.did + Pending(a.prog, c1.state);
      RunsOnWay(a, log, key, inbox, c1, c', n - 1);
    }
  }

  /** Where a run is blocked, the program has seen all that it did. */
  ghost predicate Blocked<C(!new)>(a: Agent<C>, log: set<N.Message>, key: Predicate, inbox: map<Id, Bytes>, r: RunResult<C>) {
    && r.blocker == BlockerOf(a.prog.op(r.state)) && Advance(a.prog, a.ctx.vars, inbox, key, Config(r.state, r.did)).None?
    && AllFire(a.ctx, key, r.did)
    && exists n: nat :: Reaches(If(a, log, key), Config(a.start, {}), Config(r.state, r.did), n)
  }

  lemma RunBlocks<C(!new)>(a: Agent<C>, log: set<N.Message>, run: Runner<C>, key: Predicate, b: ProtoBranch<C>)
    requires Follows(a.prog, a.ctx.vars, run) && AllLabelled(a.ctx, log) && N.Sound(log, key, b.inbox) && PathOk(a, log, key, b)
    ensures Blocked(a, log, key, b.inbox, run(b.state, b.inbox, b.did, key))
  {
    hide N.Sound, AllLabelled, AllFire, Reaches, RunsTo;
    var c, r := Config(b.state, b.did), run(b.state, b.inbox, b.did, key);
    var last := Config(r.state, r.did);
    assert Executes(a.prog, a.ctx.vars, b.inbox, key, c, r);
    var n: nat :| RunsTo(a.prog, a.ctx.vars, b.inbox, key, c, last, n);
    RunsOnWay(a, log, key, b.inbox, c, last, n);
    var k: nat, past :|
      Reaches(If(a, log, key), Config(a.start, {}), Config(r.state, past), k) && past <= r.did <= past + Pending(a.prog, r.state);
    assert past == r.did;
  }

  lemma BlockedOnWay<C(!new)>(a: Agent<C>, log: set<N.Message>, key: Predicate, inbox: map<Id, Bytes>, r: RunResult<C>, key': Predicate, did: set<Id>)
    requires Blocked(a, log, key, inbox, r) && Within(key, key') && r.did <= did <= r.did + Pending(a.prog, r.state)
    requires forall p <- did - r.did :: FiresIn(a.ctx.vars, key', p)
    ensures OnWay(a, log, key', r.state, did) && AllFire(a.ctx, key', did)
  {
    hide Reaches, Within, Advance;
    var n: nat :| Reaches(If(a, log, key), Config(a.start, {}), Config(r.state, r.did), n);
    assert OnWay(a, log, key, r.state, did);
    OnWayMore(a, log, log, key, key', r.state, did);
    hide OnWay, FiresIn;
    AllFireMore(a.ctx, key, key', r.did);
  }

  /** What becomes of a branch in its turn is on the way. */
  ghost predicate TurnOnWay<C(!new)>(a: Agent<C>, log: set<N.Message>, t: Turn<C>) {
    && (forall x <- t.again :: PathOk(a, log, x.0, x.1))
    && (forall x <- t.out :: PathOk(a, log, x.0, x.1) && (!x.1.ended ==> a.prog.op(x.1.state).Get?))
    && OutcomesOk(a, log, t.submit, t.send)
  }

  lemma ForkOnWay<C(!new)>(a: Agent<C>, log: set<N.Message>, key: Predicate, b: ProtoBranch<C>, r: RunResult<C>, v: Id, val: nat)
    requires Blocked(a, log, key, b.inbox, r) && v !in key && !b.ended
    ensures PathOk(a, log, key[v := val], b.(state := r.state, did := r.did))
  {
    hide Blocked, OnWay, AllFire;
    BlockedOnWay(a, log, key, b.inbox, r, key[v := val], r.did);
  }

  lemma PutsOnWay<C(!new)>(a: Agent<C>, log: set<N.Message>, key: Predicate, b: ProtoBranch<C>, r: RunResult<C>)
    requires Blocked(a, log, key, b.inbox, r) && !b.ended && r.blocker.PutMsg? && r.blocker.port in a.ctx.vars
    requires !(a.ctx.vars[r.blocker.port] in key && key[a.ctx.vars[r.blocker.port]] != FIRING)
    ensures var key1 := key[a.ctx.vars[r.blocker.port] := FIRING];
      && PathOk(a, log, key1, b.(state := r.state, did := r.did + {r.blocker.port}))
      && PutOnWay(a, log, (r.blocker.port, key1, r.blocker.payload))
  {
    var port := r.blocker.port;
    var key1 := key[a.ctx.vars[port] := FIRING];
    assert a.prog.op(r.state) == Op.Put(port, r.blocker.payload) && port !in r.did;
    assert Within(key, key1);
    hide Within, Advance, Reaches;
    BlockedOnWay(a, log, key, b.inbox, r, key1, r.did + {port});
    var n: nat :| Reaches(If(a, log, key), Config(a.start, {}), Config(r.state, r.did), n);
    ReachesMore(If(a, log, key), If(a, log, key1), Config(a.start, {}), Config(r.state, r.did), n);
  }

  lemma EndOnWay<C(!new)>(a: Agent<C>, log: set<N.Message>, key: Predicate, b: ProtoBranch<C>, r: RunResult<C>, key1: Predicate)
    requires Blocked(a, log, key, b.inbox, r) && r.blocker.SyncBlockEnd? && Within(key, key1)
    requires Settles(a.ctx, key1, r.did) && Binary(a.ctx.channels, key1)
    ensures PathOk(a, log, key1, b.(state := r.state, did := r.did, ended := true)) && EndsUnder(a, log, key1)
  {
    assert a.prog.op(r.state).End?;
    hide Within, Advance, Reaches, Settles, Binary, AllFire;
    BlockedOnWay(a, log, key, b.inbox, r, key1, r.did);
    var n: nat :| Reaches(If(a, log, key), Config(a.start, {}), Config(r.state, r.did), n);
    ReachesMore(If(a, log, key), If(a, log, key1), Config(a.start, {}), Config(r.state, r.did), n);
  }

  lemma RunOneOnWay<C(!new)>(a: Agent<C>, log: set<N.Message>, run: Runner<C>, key: Predicate, b: ProtoBranch<C>)
    requires a.ctx.Valid() && Follows(a.prog, a.ctx.vars, run) && AllLabelled(a.ctx, log)
    requires BranchOk(a.ctx, log, key, b) && PathOk(a, log, key, b) && !b.ended
    ensures TurnOnWay(a, log, RunOne(a.ctx, run, key, b))
  {
    RunBlocks(a, log, run, key, b);
    var r := run(b.state, b.inbox, b.did, key);
    BlockedBy(a, log, key, b.inbox, r);
    assert r.blocker.CouldntReadMsg? ==> a.prog.op(r.state).Get?;
    assert Binary(a.ctx.channels, key);
    RunOneIs(a.ctx, run, key, b, r);
    hide Blocked, PathOk, Follows, AllLabelled, BranchOk, ProtoCtx.Valid, Settles, EndKey, Within, PutOnWay, EndsUnder, Binary, RunOne, OutcomesOk, Advance, BlockerOf;
    FewOutcomes(a, log, key, (Id(0, 0), key, []));
    match r.blocker
    case Inconsistent =>
    case CouldntReadMsg(port) =>
      WaitOnWay(a, log, key, b, r);
    case CouldntCheckFiring(port) =>
      if port in a.ctx.vars && a.ctx.vars[port] !in key {
        ForkOnWay(a, log, key, b, r, a.ctx.vars[port], SILENT);
        ForkOnWay(a, log, key, b, r, a.ctx.vars[port], FIRING);
      }
    case PutMsg(port, payload) =>
      if port in a.ctx.vars && !(a.ctx.vars[port] in key && key[a.ctx.vars[port]] == SILENT) {
        if a.ctx.vars[port] in key { ChannelBinary(a.ctx, key, port); }
        PutsOnWay(a, log, key, b, r);
        FewOutcomes(a, log, key, (port, key[a.ctx.vars[port] := FIRING], payload));
      }
    case SyncBlockEnd =>
      EndKeyOk(a.ctx, key);
      if Settles(a.ctx, EndKey(a.ctx, key), r.did) {
        EndOnWay(a, log, key, b, r, EndKey(a.ctx, key));
        FewOutcomes(a, log, EndKey(a.ctx, key), (Id(0, 0), key, []));
      }
  }

  lemma FewOutcomes<C(!new)>(a: Agent<C>, log: set<N.Message>, p: Predicate, o: (Id, Predicate, Bytes))
    ensures OutcomesOk(a, log, {}, {}) && (EndsUnder(a, log, p) ==> OutcomesOk(a, log, {p}, {})) && (PutOnWay(a, log, o) ==> OutcomesOk(a, log, {}, {o}))
  {
    hide EndsUnder, PutOnWay;
  }

  lemma BlockedBy<C(!new)>(a: Agent<C>, log: set<N.Message>, key: Predicate, inbox: map<Id, Bytes>, r: RunResult<C>)
    requires Blocked(a, log, key, inbox, r)
    ensures r.blocker == BlockerOf(a.prog.op(r.state))
  {
  }

  lemma WaitOnWay<C(!new)>(a: Agent<C>, log: set<N.Message>, key: Predicate, b: ProtoBranch<C>, r: RunResult<C>)
    requires Blocked(a, log, key, b.inbox, r) && !b.ended
    ensures PathOk(a, log, key, b.(state := r.state, did := r.did))
  {
    hide Blocked, OnWay, AllFire;
    WithinSelf(key);
    BlockedOnWay(a, log, key, b.inbox, r, key, r.did);
  }

  lemma ChannelBinary(ctx: ProtoCtx, key: Predicate, port: Id)
    requires ctx.Valid() && Binary(ctx.channels, key) && port in ctx.vars && ctx.vars[port] in key
    ensures key[ctx.vars[port]] == FIRING || key[ctx.vars[port]] == SILENT
  {
  }

  /** No assertion of the drainer fails, except where the program asks about or puts on a port that is not there for
      it: it waits only for messages it lacks, asks only about variables that are open, and puts once on a port. */
  lemma AssertionsHold<C(!new)>(a: Agent<C>, log: set<N.Message>, run: Runner<C>, key: Predicate, b: ProtoBranch<C>)
    requires Follows(a.prog, a.ctx.vars, run) && AllLabelled(a.ctx, log) && N.Sound(log, key, b.inbox) && PathOk(a, log, key, b)
    ensures RunOne(a.ctx, run, key, b).panic <==>
      var op := a.prog.op(run(b.state, b.inbox, b.did, key).state);
      (op.Fires? && op.port !in a.ctx.vars) || (op.Put? && (op.port !in a.ctx.vars || op.port !in a.ctx.putters))
  {
    hide Settles, EndKey, Reaches;
    RunBlocks(a, log, run, key, b);
  }

  // ---- draining and feeding ----

  lemma MergeOnWay<C(!new)>(a: Agent<C>, log: set<N.Message>, branches: Branches<C>, key: Predicate, b: ProtoBranch<C>)
    requires PathsOk(a, log, branches) && PathOk(a, log, key, b)
    ensures PathsOk(a, log, Merge(branches, key, b))
    ensures AtRest(a, branches) && (!b.ended ==> a.prog.op(b.state).Get?) ==> AtRest(a, Merge(branches, key, b))
  {
    hide OnWay, AllFire;
  }

  lemma {:induction false} MergeAllOnWay<C(!new)>(a: Agent<C>, log: set<N.Message>, branches: Branches<C>, xs: seq<(Predicate, ProtoBranch<C>)>)
    requires PathsOk(a, log, branches) && forall x <- xs :: PathOk(a, log, x.0, x.1)
    ensures PathsOk(a, log, MergeAll(branches, xs))
    ensures AtRest(a, branches) && (forall x <- xs :: !x.1.ended ==> a.prog.op(x.1.state).Get?) ==> AtRest(a, MergeAll(branches, xs))
    decreases |xs|
  {
    hide PathOk, PathsOk, AtRest, Merge;
    if xs != [] {
      MergeOnWay(a, log, branches, xs[0].0, xs[0].1);
      MergeAllOnWay(a, log, Merge(branches, xs[0].0, xs[0].1), xs[1..]);
    }
  }

  lemma TurnsOnWay<C(!new)>(a: Agent<C>, log: set<N.Message>, run: Runner<C>, w: Work<C>, w': Work<C>)
    requires a.ctx.Valid() && Follows(a.prog, a.ctx.vars, run) && AllLabelled(a.ctx, log)
    requires WorkOk(a.ctx, log, run, w) && WorkOnWay(a, log, w) && Turns(a.ctx, run, w, w')
    ensures WorkOnWay(a, log, w')
  {
    hide ProtoCtx.Valid, Follows, AllLabelled, BranchOk, PathOk, ResultsOk, WorkAccounted, RunOne, MergeAll, AtRest, EndsUnder, PutOnWay;
    if !Swaps(w, w') {
      var key :| Runs(a.ctx, run, w, key, w');
      var b := w.draining[key];
      RunOneOnWay(a, log, run, key, b);
      var t := RunOne(a.ctx, run, key, b);
      MergeAllOnWay(a, log, w.swap, t.again);
      MergeAllOnWay(a, log, w.output, t.out);
    } else {
      NoneAtRest(a);
    }
  }

  lemma NoneAtRest<C(!new)>(a: Agent<C>)
    ensures AtRest(a, map[])
  {
  }

  lemma {:induction false} DrainOnWay<C(!new)>(a: Agent<C>, log: set<N.Message>, run: Runner<C>, trace: seq<Work<C>>, k: nat)
    requires a.ctx.Valid() && Follows(a.prog, a.ctx.vars, run) && AllLabelled(a.ctx, log)
    requires IsDrain(a.ctx, run, trace) && k < |trace| && WorkOk(a.ctx, log, run, trace[0]) && WorkOnWay(a, log, trace[0])
    ensures WorkOk(a.ctx, log, run, trace[k]) && WorkOnWay(a, log, trace[k])
    decreases k
  {
    hide WorkOk, WorkOnWay, Turns, ProtoCtx.Valid, Follows, AllLabelled;
    FollowsRecords(a.prog, a.ctx.vars, run);
    DrainOk(a.ctx, log, run, trace, 0, k);
    if k > 0 {
      DrainOnWay(a, log, run, trace, k - 1);
      assert Turns(a.ctx, run, trace[k - 1], trace[k - 1 + 1]);
      TurnsOnWay(a, log, run, trace[k - 1], trace[k]);
    }
  }

  lemma RelogOnWay<C(!new)>(a: Agent<C>, log: set<N.Message>, log': set<N.Message>, branches: Branches<C>)
    requires PathsOk(a, log, branches) && log <= log'
    ensures PathsOk(a, log', branches)
  {
    hide PathOk, Within;
    forall k | k in branches ensures PathOk(a, log', k, branches[k]) {
      WithinSelf(k);
      PathMore(a, log, log', k, k, branches[k]);
    }
  }

  lemma PartOneOnWay<C(!new)>(a: Agent<C>, log: set<N.Message>, m: N.Message, key: Predicate, b: ProtoBranch<C>,
                              unblocked: Branches<C>, blocked: Branches<C>)
    requires PathOk(a, log, key, b) && PathsOk(a, log, unblocked) && PathsOk(a, log, blocked) && AtRest(a, blocked)
    requires !b.ended ==> a.prog.op(b.state).Get?
    ensures var (u, bl) := PartOne(m, key, b, unblocked, blocked); PathsOk(a, log, u) && PathsOk(a, log, bl) && AtRest(a, bl)
  {
    hide PathsOk, AtRest, Within, Consistent, Union, Merge, OnWay, AllFire;
    MergeOnWay(a, log, blocked, key, b);
    N.UnionKeys(key, m.pred);
    if Consistent(key, m.pred) {
      WithinSum(key, m.pred);
      PathMore(a, log, log, key, key + m.pred, b);
      assert PathOk(a, log, key + m.pred, Fed(b, m));
      MergeOnWay(a, log, unblocked, key + m.pred, Fed(b, m));
    }
  }

  lemma {:induction false} PartAllOnWay<C(!new)>(a: Agent<C>, log: set<N.Message>, m: N.Message, order: seq<Predicate>, branches: Branches<C>)
    requires PathsOk(a, log, branches) && AtRest(a, branches) && forall k <- order :: k in branches
    ensures var (u, b) := PartAll(m, order, branches); PathsOk(a, log, u) && PathsOk(a, log, b) && AtRest(a, b)
    decreases |order|
  {
    hide PathOk, PartOne;
    if order != [] {
      var front, last := order[..|order| - 1], order[|order| - 1];
      assert order == front + [last];
      PartAllOnWay(a, log, m, front, branches);
      var (u, b) := PartAll(m, front, branches);
      PartOneOnWay(a, log, m, last, branches[last], u, b);
    }
  }

  /** The component at rest: all its branches are on the way of its program, waiting or ended, and so were its puts
      and solutions. */
  ghost predicate AgentOk<C(!new)>(a: Agent<C>, run: Runner<C>, s: ProtoState<C>) {
    && ProtoOk(a.ctx, run, s) && Follows(a.prog, a.ctx.vars, run) && AllLabelled(a.ctx, s.log) && WorkOnWay(a, s.log, Resting(s))
  }

  lemma AgentStartsOk<C(!new)>(a: Agent<C>, run: Runner<C>, s: ProtoState<C>)
    requires a.ctx.Valid() && Follows(a.prog, a.ctx.vars, run) && ProtoStarts(a.ctx, run, a.start, s)
    ensures AgentOk(a, run, s)
  {
    hide WorkOk, WorkOnWay, IsDrain, Recording, ProtoCtx.Valid, Follows;
    var trace :| Drained(a.ctx, run, trace, Initial(a.start), Resting(s));
    DrainNonempty(a.ctx, run, trace);
    InitialOk(a.ctx, run, a.start);
    InitialOnWay(a);
    FollowsRecords(a.prog, a.ctx.vars, run);
    DrainOnWay(a, {}, run, trace, |trace| - 1);
  }

  lemma InitialOnWay<C(!new)>(a: Agent<C>)
    ensures WorkOnWay(a, {}, Initial(a.start))
  {
    assert Reaches(If(a, {}, map[]), Config(a.start, {}), Config(a.start, {}), 0);
    assert OnWay(a, {}, map[], a.start, {});
  }

  lemma FedWorkOnWay<C(!new)>(a: Agent<C>, run: Runner<C>, s: ProtoState<C>, m: N.Message, order: seq<Predicate>)
    requires AgentOk(a, run, s) && Orders(order, s.branches.Keys)
    ensures WorkOnWay(a, s.log + {m}, FedWork(m, order, s))
  {
    hide ProtoOk, Follows, AllLabelled, PathOk, AtRest, PartAll, OutcomesOk;
    RelogOnWay(a, s.log, s.log + {m}, s.branches);
    PartAllOnWay(a, s.log + {m}, m, order, s.branches);
    OutcomesMore(a, s.log, s.log + {m}, s.submitted, s.outgoing);
    assert PathsOk(a, s.log + {m}, map[]);
  }

  lemma AgentFeedsOk<C(!new)>(a: Agent<C>, run: Runner<C>, s: ProtoState<C>, m: N.Message, s': ProtoState<C>)
    requires AgentOk(a, run, s) && Binary(a.ctx.channels, m.pred) && Labelled(a.ctx, m) && ProtoFeeds(a.ctx, run, s, m, s')
    ensures AgentOk(a, run, s')
  {
    hide WorkOk, WorkOnWay, Orders, IsDrain, Recording, ProtoCtx.Valid, Binary, Contradicted, Parted, Separate, FedWork, Follows, Labelled, EndedKept;
    ProtoFeedsOk(a.ctx, run, s, m, s');
    var order, trace :| FedAlong(a.ctx, run, s, m, s', order, trace);
    FeedUnfolds(a.ctx, run, s, m, s', order, trace);
    FedWorkOk(a.ctx, run, s, m, order);
    FedWorkOnWay(a, run, s, m, order);
    DrainOnWay(a, s'.log, run, trace, |trace| - 1);
  }

  // ---- what the component puts ----

  /** Puts on one port under consistent predicates carry the same payload. */
  ghost predicate OneVoice(outgoing: set<(Id, Predicate, Bytes)>) {
    forall o, o' | o in outgoing && o' in outgoing && o.0 == o'.0 && Consistent(o.1, o'.1) :: o.2 == o'.2
  }

  /** A component that is sent coherent messages puts coherently: the program has but one way where both
      predicates come true. */
  lemma PutsAgree<C(!new)>(a: Agent<C>, log: set<N.Message>, o: (Id, Predicate, Bytes), o': (Id, Predicate, Bytes))
    requires Coherent(log) && PutOnWay(a, log, o) && PutOnWay(a, log, o') && o.0 == o'.0 && Consistent(o.1, o'.1)
    ensures o.2 == o'.2
  {
    hide PutOnWay, Coherent, Within;
    WithinSum(o.1, o'.1);
    var w := If(a, log, o.1 + o'.1);
    var c, n := PutAt(a, log, o, o.1 + o'.1);
    var d, k := PutAt(a, log, o', o.1 + o'.1);
    hide Reaches, Consistent;
    if n <= k { FirstPut(w, Config(a.start, {}), c, n, d, k, o.0); } else { FirstPut(w, Config(a.start, {}), d, k, c, n, o.0); }
  }

  lemma PutAt<C(!new)>(a: Agent<C>, log: set<N.Message>, o: (Id, Predicate, Bytes), q: Predicate) returns (c: Config<C>, n: nat)
    requires PutOnWay(a, log, o) && Within(o.1, q)
    ensures Reaches(If(a, log, q), Config(a.start, {}), c, n) && a.prog.op(c.state) == Op.Put(o.0, o.2) && o.0 !in c.did
  {
    hide Reaches, Within;
    n, c :| Reaches(If(a, log, o.1), Config(a.start, {}), c, n) && a.prog.op(c.state) == Op.Put(o.0, o.2) && o.0 !in c.did;
    ReachesMore(If(a, log, o.1), If(a, log, q), Config(a.start, {}), c, n);
  }

  /** There is only one first put on a port. */
  lemma FirstPut<C(!new)>(w: Scenario<C>, start: Config<C>, c: Config<C>, n: nat, d: Config<C>, k: nat, port: Id)
    requires Coherent(w.log) && Reaches(w, start, c, n) && Reaches(w, start, d, k) && n <= k
    requires w.prog.op(c.state).Put? && w.prog.op(c.state).port == port && port !in d.did
    ensures c == d
  {
    hide Reaches, Coherent;
    ReachesOneWay(w, start, c, n, d, k);
    UsesGrow(w, c, d, k - n);
    ReachesNone(w, c, d, k - n);
  }

  lemma ReachesNone<C(!new)>(w: Scenario<C>, c: Config<C>, d: Config<C>, n: nat)
    requires Reaches(w, c, d, n)
    ensures n == 0 ==> c == d
  {
  }

  lemma SpeaksWithOneVoice<C(!new)>(a: Agent<C>, run: Runner<C>, s: ProtoState<C>)
    requires AgentOk(a, run, s) && Coherent(s.log)
    ensures OneVoice(s.outgoing)
  {
    hide ProtoOk, Follows, AllLabelled, PathsOk, AtRest, PutOnWay, Coherent, Consistent, EndsUnder;
    forall o, o' | o in s.outgoing && o' in s.outgoing && o.0 == o'.0 && Consistent(o.1, o'.1) ensures o.2 == o'.2 {
      PutsAgree(a, s.log, o, o');
    }
  }
}
