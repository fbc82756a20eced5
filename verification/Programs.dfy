/** Programs as the runtime sees them. A program asks for one thing at a time: a message, whether a port fires, or
    to put. Until it is told, it waits where it is and asks again; it learns nothing else about its branch. */
module Programs {
  import opened Network
  import opened Predicates
  import opened Proto
  import N = Native

  datatype Op = Get(port: Id) | Fires(port: Id) | Put(port: Id, payload: Bytes) | End | Fail

  /** What the program asks for next, and how it goes on: with a message, with an answer, or after a put. */
  datatype Program<!C> = Program(op: C -> Op, got: (C, Bytes) -> C, told: (C, bool) -> C, done: C -> C)

  /** A program in the midst of its round: its state, and the ports it has used. */
  datatype Config<C> = Config(state: C, did: set<Id>)

  /** The callbacks `read_msg`, `is_firing` and `did_put_or_get` that a branch can answer: the program goes on. */
  function Advance<C>(prog: Program<C>, vars: map<Id, Id>, inbox: map<Id, Bytes>, key: Predicate, c: Config<C>): Option<Config<C>> {
    match prog.op(c.state)
    case Get(port) => if port in inbox then Some(Config(prog.got(c.state, inbox[port]), c.did + {port})) else None
    case Fires(port) =>
      if port in vars && vars[port] in key then Some(Config(prog.told(c.state, key[vars[port]] == FIRING), c.did)) else None
    case Put(port, _) => if port in c.did then Some(Config(prog.done(c.state), c.did)) else None
    case _ => None
  }

  function BlockerOf(op: Op): Blocker {
    match op
    case Get(port) => CouldntReadMsg(port)
    case Fires(port) => CouldntCheckFiring(port)
    case Put(port, payload) => PutMsg(port, payload)
    case End => SyncBlockEnd
    case Fail => Inconsistent
  }

  ghost predicate RunsTo<C>(prog: Program<C>, vars: map<Id, Id>, inbox: map<Id, Bytes>, key: Predicate, c: Config<C>, c': Config<C>, n: nat)
    decreases n
  {
    if n == 0 then c == c'
    else
      var next := Advance(prog, vars, inbox, key, c);
      next.Some? && RunsTo(prog, vars, inbox, key, next.value, c', n - 1)
  }

  /** `sync_run`: the program goes on until it asks for something that the branch cannot answer. */
  ghost predicate Executes<C>(prog: Program<C>, vars: map<Id, Id>, inbox: map<Id, Bytes>, key: Predicate, c: Config<C>, r: RunResult<C>) {
    var last := Config(r.state, r.did);
    && Advance(prog, vars, inbox, key, last).None? && r.blocker == BlockerOf(prog.op(r.state))
    && exists n: nat :: RunsTo(prog, vars, inbox, key, c, last, n)
  }

  /** The component runs this program. */
  ghost predicate Follows<C(!new)>(prog: Program<C>, vars: map<Id, Id>, run: Runner<C>) {
    forall c: C, inbox, did, key :: Executes(prog, vars, inbox, key, Config(c, did), run(c, inbox, did, key))
  }

  lemma {:induction false} RunRecords<C>(prog: Program<C>, vars: map<Id, Id>, inbox: map<Id, Bytes>, key: Predicate, c: Config<C>, c': Config<C>, n: nat)
    requires RunsTo(prog, vars, inbox, key, c, c', n)
    ensures c.did <= c'.did <= c.did + inbox.Keys
    decreases n
  {
    if n > 0 { RunRecords(prog, vars, inbox, key, Advance(prog, vars, inbox, key, c).value, c', n - 1); }
  }

  /** A component that runs a program has used only ports on which it received or put. */
  lemma FollowsRecords<C(!new)>(prog: Program<C>, vars: map<Id, Id>, run: Runner<C>)
    requires Follows(prog, vars, run)
    ensures Recording(run)
  {
    hide RunsTo;
    forall c: C, inbox: map<Id, Bytes>, did, key ensures did <= run(c, inbox, did, key).did <= did + inbox.Keys {
      var r := run(c, inbox, did, key);
      assert Executes(prog, vars, inbox, key, Config(c, did), r);
      var n: nat :| RunsTo(prog, vars, inbox, key, Config(c, did), Config(r.state, r.did), n);
      RunRecords(prog, vars, inbox, key, Config(c, did), Config(r.state, r.did), n);
    }
  }

  // ---- what a program does if a speculation comes true ----

  /** The program where everything in `q` is so, and the messages in `log` have been sent. */
  datatype Scenario<!C> = Scenario(prog: Program<C>, vars: map<Id, Id>, log: set<N.Message>, q: Predicate)

  /** Nothing is taken back: more is assumed, and more messages have been sent. */
  ghost predicate Widens<C(!new)>(w: Scenario<C>, w': Scenario<C>) {
    w'.prog == w.prog && w'.vars == w.vars && w.log <= w'.log && Within(w.q, w'.q)
  }

  /** A message on this port was sent under a predicate within `q`. */
  ghost predicate Sent(log: set<N.Message>, q: Predicate, g: Id, bytes: Bytes) {
    exists m <- log :: m.getter == g && m.payload == bytes && Within(m.pred, q)
  }

  predicate FiresIn(vars: map<Id, Id>, q: Predicate, port: Id) {
    port in vars && vars[port] in q && q[vars[port]] == FIRING
  }

  ghost predicate Steps<C(!new)>(w: Scenario<C>, c: Config<C>, c': Config<C>) {
    match w.prog.op(c.state)
    case Get(port) => exists bytes :: Sent(w.log, w.q, port, bytes) && c' == Config(w.prog.got(c.state, bytes), c.did + {port})
    case Fires(port) =>
      port in w.vars && w.vars[port] in w.q && c' == Config(w.prog.told(c.state, w.q[w.vars[port]] == FIRING), c.did)
    case Put(port, _) => FiresIn(w.vars, w.q, port) && c' == Config(w.prog.done(c.state), c.did + {port})
    case _ => false
  }

  ghost predicate Reaches<C(!new)>(w: Scenario<C>, c: Config<C>, c': Config<C>, n: nat)
    decreases n
  {
    if n == 0 then c == c' else exists c1 :: Steps(w, c, c1) && Reaches(w, c1, c', n - 1)
  }

  lemma StepsMore<C(!new)>(w: Scenario<C>, w': Scenario<C>, c: Config<C>, c': Config<C>)
    requires Widens(w, w') && Steps(w, c, c')
    ensures Steps(w', c, c')
  {
    var op := w.prog.op(c.state);
    if op.Get? {
      var bytes :| Sent(w.log, w.q, op.port, bytes) && c' == Config(w.prog.got(c.state, bytes), c.did + {op.port});
      SentMore(w.log, w'.log, w.q, w'.q, op.port, bytes);
    }
  }

  lemma SentMore(log: set<N.Message>, log': set<N.Message>, q: Predicate, q': Predicate, g: Id, bytes: Bytes)
    requires Sent(log, q, g, bytes) && log <= log' && Within(q, q')
    ensures Sent(log', q', g, bytes)
  {
    var m :| m in log && m.getter == g && m.payload == bytes && Within(m.pred, q);
    assert Within(m.pred, q');
  }

  lemma {:induction false} ReachesMore<C(!new)>(w: Scenario<C>, w': Scenario<C>, c: Config<C>, c': Config<C>, n: nat)
    requires Widens(w, w') && Reaches(w, c, c', n)
    ensures Reaches(w', c, c', n)
    decreases n
  {
    hide Steps, Widens;
    if n > 0 {
      var c1 :| Steps(w, c, c1) && Reaches(w, c1, c', n - 1);
      StepsMore(w, w', c, c1);
      ReachesMore(w, w', c1, c', n - 1);
    }
  }

  lemma {:induction false} ReachesNext<C(!new)>(w: Scenario<C>, c: Config<C>, c': Config<C>, c'': Config<C>, n: nat)
    requires Reaches(w, c, c', n) && Steps(w, c', c'')
    ensures Reaches(w, c, c'', n + 1)
    decreases n
  {
    hide Steps;
    if n > 0 {
      var c1 :| Steps(w, c, c1) && Reaches(w, c1, c', n - 1);
      ReachesNext(w, c1, c', c'', n - 1);
    } else {
      assert Reaches(w, c'', c'', 0);
    }
  }

  /** Two messages on one port under consistent predicates carry the same payload. */
  ghost predicate Coherent(log: set<N.Message>) {
    forall m, m' | m in log && m' in log && m.getter == m'.getter && Consistent(m.pred, m'.pred) :: m.payload == m'.payload
  }

  lemma WithinBoth(p: Predicate, p': Predicate, q: Predicate)
    requires Within(p, q) && Within(p', q)
    ensures Consistent(p, p')
  {
  }

  lemma SentOnce(log: set<N.Message>, q: Predicate, g: Id, bytes: Bytes, bytes': Bytes)
    requires Coherent(log) && Sent(log, q, g, bytes) && Sent(log, q, g, bytes')
    ensures bytes == bytes'
  {
    hide Within, Consistent;
    var m :| m in log && m.getter == g && m.payload == bytes && Within(m.pred, q);
    var m' :| m' in log && m'.getter == g && m'.payload == bytes' && Within(m'.pred, q);
    WithinBoth(m.pred, m'.pred, q);
  }

  /** A program is told the same wherever the same is assumed. */
  lemma StepsOneWay<C(!new)>(w: Scenario<C>, c: Config<C>, a: Config<C>, b: Config<C>)
    requires Coherent(w.log) && Steps(w, c, a) && Steps(w, c, b)
    ensures a == b
  {
    hide Coherent, Sent;
    var op := w.prog.op(c.state);
    if op.Get? {
      var x :| Sent(w.log, w.q, op.port, x) && a == Config(w.prog.got(c.state, x), c.did + {op.port});
      var y :| Sent(w.log, w.q, op.port, y) && b == Config(w.prog.got(c.state, y), c.did + {op.port});
      SentOnce(w.log, w.q, op.port, x, y);
    }
  }

  lemma {:induction false} ReachesOneWay<C(!new)>(w: Scenario<C>, c: Config<C>, a: Config<C>, n: nat, b: Config<C>, k: nat)
    requires Coherent(w.log) && Reaches(w, c, a, n) && Reaches(w, c, b, k) && n <= k
    ensures Reaches(w, a, b, k - n)
    decreases n
  {
    hide Coherent, Steps;
    if n > 0 {
      var a1 :| Steps(w, c, a1) && Reaches(w, a1, a, n - 1);
      var b1 :| Steps(w, c, b1) && Reaches(w, b1, b, k - 1);
      StepsOneWay(w, c, a1, b1);
      ReachesOneWay(w, a1, a, n - 1, b, k - 1);
    }
  }

  lemma {:induction false} UsesGrow<C(!new)>(w: Scenario<C>, c: Config<C>, c': Config<C>, n: nat)
    requires Reaches(w, c, c', n)
    ensures c.did <= c'.did
    ensures n > 0 && w.prog.op(c.state).Put? ==> w.prog.op(c.state).port in c'.did
    decreases n
  {
    if n > 0 {
      var c1 :| Steps(w, c, c1) && Reaches(w, c1, c', n - 1);
      UsesGrow(w, c1, c', n - 1);
    }
  }

  /** The program asks for something that will never be granted here, or ends against what is assumed. */
  ghost predicate Stops<C>(ctx: ProtoCtx, w: Scenario<C>, c: Config<C>) {
    match w.prog.op(c.state)
    case Get(_) => false
    case Fires(port) => port !in w.vars || w.vars[port] !in w.q
    case Put(port, _) => !FiresIn(w.vars, w.q, port)
    case End => !Settles(ctx, w.q, c.did)
    case Fail => true
  }

  /** If the speculation comes true the program cannot end its round. */
  ghost predicate Dead<C(!new)>(ctx: ProtoCtx, w: Scenario<C>, start: C) {
    exists c, n: nat :: Reaches(w, Config(start, {}), c, n) && Stops(ctx, w, c)
  }

  /** If the speculation comes true the program ends its round, in agreement with it. */
  ghost predicate Ends<C(!new)>(ctx: ProtoCtx, w: Scenario<C>, start: C) {
    exists c, n: nat :: Reaches(w, Config(start, {}), c, n) && w.prog.op(c.state).End? && Settles(ctx, w.q, c.did)
  }

  lemma DeadMore<C(!new)>(ctx: ProtoCtx, w: Scenario<C>, log: set<N.Message>, start: C)
    requires Dead(ctx, w, start) && w.log <= log
    ensures Dead(ctx, w.(log := log), start)
  {
    hide Steps, Reaches, Within;
    var c, n: nat :| Reaches(w, Config(start, {}), c, n) && Stops(ctx, w, c);
    WithinSelf(w.q);
    ReachesMore(w, w.(log := log), Config(start, {}), c, n);
    assert Stops(ctx, w.(log := log), c);
  }

  lemma SettlesMore(ctx: ProtoCtx, p: Predicate, q: Predicate, did: set<Id>)
    requires Settles(ctx, p, did) && Within(p, q)
    ensures Settles(ctx, q, did)
  {
  }

  lemma EndsMore<C(!new)>(ctx: ProtoCtx, w: Scenario<C>, w': Scenario<C>, start: C)
    requires Ends(ctx, w, start) && Widens(w, w')
    ensures Ends(ctx, w', start)
  {
    hide Steps, Reaches, Within, Settles;
    var c, n: nat :| Reaches(w, Config(start, {}), c, n) && w.prog.op(c.state).End? && Settles(ctx, w.q, c.did);
    ReachesMore(w, w', Config(start, {}), c, n);
    SettlesMore(ctx, w.q, w'.q, c.did);
  }

  /** Where nothing more can happen, every run has come. */
  lemma {:induction false} StuckStays<C(!new)>(w: Scenario<C>, c: Config<C>, c': Config<C>, n: nat)
    requires Reaches(w, c, c', n) && forall x :: !Steps(w, c, x)
    ensures c == c'
  {
    hide Steps;
  }

  lemma StopsStuck<C(!new)>(ctx: ProtoCtx, w: Scenario<C>, c: Config<C>)
    requires Stops(ctx, w, c) || w.prog.op(c.state).End?
    ensures forall x :: !Steps(w, c, x)
  {
    hide Settles;
  }

  /** A program does not both end and fail to. */
  lemma DeadDoesNotEnd<C(!new)>(ctx: ProtoCtx, w: Scenario<C>, start: C)
    requires Coherent(w.log) && Dead(ctx, w, start)
    ensures !Ends(ctx, w, start)
  {
    hide Steps, Reaches, Settles, Coherent;
    var c, n: nat :| Reaches(w, Config(start, {}), c, n) && Stops(ctx, w, c);
    StopsStuck(ctx, w, c);
    forall d, k: nat | Reaches(w, Config(start, {}), d, k) && w.prog.op(d.state).End?
      ensures !Settles(ctx, w.q, d.did)
    {
      StopsStuck(ctx, w, d);
      if n <= k {
        ReachesOneWay(w, Config(start, {}), c, n, d, k);
        StuckStays(w, c, d, k - n);
      } else {
        ReachesOneWay(w, Config(start, {}), d, k, c, n);
        StuckStays(w, d, c, n - k);
      }
    }
  }

  /** A program that waits for a message on its way to the end will be sent one. */
  lemma WaitIsAnswered<C(!new)>(ctx: ProtoCtx, w: Scenario<C>, start: C, c: Config<C>, n: nat)
    requires Coherent(w.log) && Ends(ctx, w, start) && Reaches(w, Config(start, {}), c, n) && w.prog.op(c.state).Get?
    ensures exists bytes :: Sent(w.log, w.q, w.prog.op(c.state).port, bytes)
  {
    hide Reaches, Settles, Coherent, Sent;
    var d, k: nat :| Reaches(w, Config(start, {}), d, k) && w.prog.op(d.state).End? && Settles(ctx, w.q, d.did);
    if n <= k {
      ReachesOneWay(w, Config(start, {}), c, n, d, k);
      FirstStep(w, c, d, k - n);
    } else {
      ReachesOneWay(w, Config(start, {}), d, k, c, n);
      StopsStuck(ctx, w, d);
      StuckStays(w, d, c, n - k);
    }
  }

  lemma FirstStep<C(!new)>(w: Scenario<C>, c: Config<C>, d: Config<C>, n: nat)
    requires Reaches(w, c, d, n) && c != d
    ensures exists c1 :: Steps(w, c, c1)
  {
    hide Steps;
  }
}
