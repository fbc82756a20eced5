/** An end can be lost for good: a program, three messages and an order of visiting its branches after which a
    solution has been submitted that `collapse_with` finds no branch for. */
module ProtoLoss {
  import opened Network
  import opened Predicates
  import opened Proto
  import opened ProtoRuns
  import opened Programs
  import opened ProtoPaths
  import opened ProtoCommits
  import N = Native

  // The component's ports: three getters and three putters, whose variables are their peers.
  const G0 := Id(0, 0)
  const G1 := Id(0, 1)
  const G2 := Id(0, 2)
  const P0 := Id(0, 3)
  const P1 := Id(0, 4)
  const P2 := Id(0, 5)
  const V0 := Id(1, 3)
  const V1 := Id(1, 4)
  const V2 := Id(1, 5)

  const CTX := ProtoCtx(map[G0 := G0, G1 := G1, G2 := G2, P0 := V0, P1 := V1, P2 := V2], {P0, P1, P2}, {G0, G1, G2, P0, P1, P2},
                        iset{G0, G1, G2, V0, V1, V2})

  /** `get(g1); put(p0, m); put(p1, m); get(g2); put(p2, m); assert(fires(g0)); get(g0);` */
  function Asks(pc: nat): Op {
    match pc
    case 0 => Op.Get(G1)
    case 1 => Op.Put(P0, [])
    case 2 => Op.Put(P1, [])
    case 3 => Op.Get(G2)
    case 4 => Op.Put(P2, [])
    case 5 => Op.Fires(G0)
    case 6 => Op.Get(G0)
    case 7 => Op.End
    case _ => Op.Fail
  }

  const PROG: Program<nat> := Program(Asks, (pc, m) => pc + 1, (pc, yes) => if yes then pc + 1 else 8, pc => pc + 1)
  const AGENT: Agent<nat> := Agent(CTX, PROG, 0)

  /** The program run until it is blocked. */
  function Exec(inbox: map<Id, Bytes>, key: Predicate, c: Config<nat>): RunResult<nat>
    decreases 9 - c.state
  {
    var next := Advance(PROG, CTX.vars, inbox, key, c);
    if next.None? then RunResult(c.state, c.did, BlockerOf(Asks(c.state)))
    else Exec(inbox, key, next.value)
  }

  function Run(state: nat, inbox: map<Id, Bytes>, did: set<Id>, key: Predicate): RunResult<nat> {
    Exec(inbox, key, Config(state, did))
  }

  lemma {:induction false} ExecExecutes(inbox: map<Id, Bytes>, key: Predicate, c: Config<nat>)
    ensures Executes(PROG, CTX.vars, inbox, key, c, Exec(inbox, key, c))
    decreases 9 - c.state
  {
    var r, next := Exec(inbox, key, c), Advance(PROG, CTX.vars, inbox, key, c);
    if next.None? {
      assert RunsTo(PROG, CTX.vars, inbox, key, c, Config(r.state, r.did), 0);
    } else {
      ExecExecutes(inbox, key, next.value);
      var n: nat :| RunsTo(PROG, CTX.vars, inbox, key, next.value, Config(r.state, r.did), n);
      assert RunsTo(PROG, CTX.vars, inbox, key, c, Config(r.state, r.did), n + 1);
    }
  }

  lemma RunFollows()
    ensures Follows(PROG, CTX.vars, Run) && PutsOwn(CTX, Run)
  {
    hide Executes;
    forall c: nat, inbox, did, key ensures Executes(PROG, CTX.vars, inbox, key, Config(c, did), Run(c, inbox, did, key)) {
      ExecExecutes(inbox, key, Config(c, did));
    }
    forall c: nat, inbox, did, key | Run(c, inbox, did, key).blocker.PutMsg? ensures Run(c, inbox, did, key).blocker.port in CTX.owned {
      PutsOwnPort(inbox, key, Config(c, did));
    }
  }

  lemma PutsOwnPort(inbox: map<Id, Bytes>, key: Predicate, c: Config<nat>)
    requires Exec(inbox, key, c).blocker.PutMsg?
    ensures Exec(inbox, key, c).blocker.port in CTX.owned
  {
    ExecExecutes(inbox, key, c);
    assert Exec(inbox, key, c).blocker == BlockerOf(Asks(Exec(inbox, key, c).state));
  }

  // ---- keys that make some variables fire ----

  function K(vs: set<Id>): Predicate { map v | v in vs :: FIRING }

  function Box(gs: set<Id>): map<Id, Bytes> { map g | g in gs :: [] }

  lemma Keys(s: set<Id>, t: set<Id>)
    ensures K(s) == K(t) <==> s == t
    ensures K(s) + K(t) == K(s + t) && Consistent(K(s), K(t)) && (Within(K(s), K(t)) <==> s <= t)
  {
    assert K(s).Keys == s && K(t).Keys == t;
  }

  lemma Unions(s: set<Id>, t: set<Id>)
    ensures s < t ==> Union(K(s), K(t)) == LatterNotFormer
    ensures !(s <= t) && !(t <= s) ==> Union(K(s), K(t)) == New(K(s + t))
  {
    Keys(s, t);
    Keys(t, s);
    hide Within, Consistent, K;
  }

  lemma Boxes(s: set<Id>, t: set<Id>)
    ensures Box(s) + Box(t) == Box(s + t) && forall g :: Box(s)[g := []] == Box(s + {g})
  {
  }

  function B(pc: nat, did: set<Id>, gs: set<Id>): ProtoBranch<nat> { ProtoBranch(pc, did, Box(gs), false) }

  function M1(): N.Message { N.Message(G1, K({G1}), []) }
  function M2(): N.Message { N.Message(G0, K({G0}), []) }
  function M3(): N.Message { N.Message(G2, K({G1, G2, V0, V1}), []) }

  function KA(): Predicate { K({G1, V0, V1}) }           // the first message was received
  function KB(): Predicate { K({G0}) }                   // the second
  function KC(): Predicate { K({G0, G1, V0, V1}) }       // both
  function KO(): Predicate { K({G1, G2, V0, V1}) }
  function KX(): Predicate { K({G0, G1, G2, V0, V1}) }
  function KOR(): Predicate { K({G1, G2, V0, V1, V2}) }
  function KO0(): Predicate { K({G1, G2, V0, V1, V2})[G0 := SILENT] }
  function KP(): Predicate { K({G0, G1, G2, V0, V1, V2}) }

  const DA := {G1, P0, P1}
  const DP := {G1, P0, P1, G2, P2}

  // ---- turns ----

  /** A turn in which the program puts, on `port` with variable `v`, and is to be run again. */
  lemma PutTurn(w: Work<nat>, vs: set<Id>, pc: nat, did: set<Id>, port: Id, v: Id)
    requires K(vs) in w.draining && port in CTX.vars && CTX.vars[port] == v && port in CTX.putters && port !in did
    requires var b := w.draining[K(vs)]; Run(b.state, b.inbox, b.did, K(vs)) == RunResult(pc, did, PutMsg(port, []))
    ensures var b := w.draining[K(vs)];
      Runs(CTX, Run, w, K(vs), Work(w.draining - {K(vs)}, Merge(w.swap, K(vs + {v}), ProtoBranch(pc, did + {port}, b.inbox, b.ended)), w.output,
                                    w.submitted, w.outgoing + {(port, K(vs + {v}), [])}))
  {
    var key, b := K(vs), w.draining[K(vs)];
    assert key[v := FIRING] == K(vs + {v});
    assert v in key ==> key[v] == FIRING;
    hide K, Merge, Settles, EndKey, Run;
    var b' := ProtoBranch(pc, did + {port}, b.inbox, b.ended);
    RunOneIs(CTX, Run, key, b, RunResult(pc, did, PutMsg(port, [])));
    hide RunOne;
    assert b.(state := pc, did := did).(did := did + {port}) == b';
    MergeSingle(w.swap, K(vs + {v}), b');
    MergeSingle(w.output, key, b);
    hide MergeAll;
  }

  /** A turn in which the program waits for a message. */
  lemma WaitTurn(w: Work<nat>, key: Predicate, pc: nat, did: set<Id>, port: Id)
    requires key in w.draining && port !in w.draining[key].inbox
    requires var b := w.draining[key]; Run(b.state, b.inbox, b.did, key) == RunResult(pc, did, CouldntReadMsg(port))
    ensures var b := w.draining[key];
      Runs(CTX, Run, w, key, Work(w.draining - {key}, w.swap, Merge(w.output, key, ProtoBranch(pc, did, b.inbox, b.ended)), w.submitted, w.outgoing))
  {
    hide K, Merge, Settles, EndKey, Run;
    var b := w.draining[key];
    RunOneIs(CTX, Run, key, b, RunResult(pc, did, CouldntReadMsg(port)));
    hide RunOne;
    assert b.(state := pc, did := did) == ProtoBranch(pc, did, b.inbox, b.ended);
    MergeSingle(w.output, key, ProtoBranch(pc, did, b.inbox, b.ended));
    MergeSingle(w.swap, key, b);
    hide MergeAll;
  }

  /** The turn in which the program asks whether `G0` fires. */
  lemma ForkTurn(w: Work<nat>, key: Predicate, pc: nat, did: set<Id>)
    requires key in w.draining && G0 !in key
    requires var b := w.draining[key]; Run(b.state, b.inbox, b.did, key) == RunResult(pc, did, CouldntCheckFiring(G0))
    ensures var b := w.draining[key]; var b' := ProtoBranch(pc, did, b.inbox, b.ended);
      Runs(CTX, Run, w, key, Work(w.draining - {key}, Merge(Merge(w.swap, key[G0 := SILENT], b'), key[G0 := FIRING], b'), w.output, w.submitted, w.outgoing))
  {
    hide K, Merge, Settles, EndKey, Run;
    var b := w.draining[key];
    RunOneIs(CTX, Run, key, b, RunResult(pc, did, CouldntCheckFiring(G0)));
    hide RunOne;
    var b' := ProtoBranch(pc, did, b.inbox, b.ended);
    assert b.(state := pc, did := did) == b';
    MergeTwo(w.swap, key[G0 := SILENT], b', key[G0 := FIRING], b');
    MergeSingle(w.output, key, b);
    hide MergeAll;
  }

  /** The turn in which the program fails. */
  lemma FailTurn(w: Work<nat>, key: Predicate, pc: nat, did: set<Id>)
    requires key in w.draining
    requires var b := w.draining[key]; Run(b.state, b.inbox, b.did, key) == RunResult(pc, did, Inconsistent)
    ensures Runs(CTX, Run, w, key, w.(draining := w.draining - {key}))
  {
    hide K, Merge, Settles, EndKey, Run;
    var b := w.draining[key];
    RunOneIs(CTX, Run, key, b, RunResult(pc, did, Inconsistent));
    hide RunOne;
    MergeSingle(w.swap, key, b);
    MergeSingle(w.output, key, b);
    hide MergeAll;
  }

  /** The turn in which the program ends, under a key that is settled. */
  lemma EndTurn(w: Work<nat>, key: Predicate, pc: nat, did: set<Id>)
    requires key in w.draining && EndKey(CTX, key) == key && Settles(CTX, key, did)
    requires var b := w.draining[key]; Run(b.state, b.inbox, b.did, key) == RunResult(pc, did, SyncBlockEnd)
    ensures var b := w.draining[key];
      Runs(CTX, Run, w, key, Work(w.draining - {key}, w.swap, Merge(w.output, key, ProtoBranch(pc, did, b.inbox, true)), w.submitted + {key}, w.outgoing))
  {
    hide K, Merge, Settles, EndKey, Run;
    var b := w.draining[key];
    RunOneIs(CTX, Run, key, b, RunResult(pc, did, SyncBlockEnd));
    hide RunOne;
    assert b.(state := pc, did := did).(ended := true) == ProtoBranch(pc, did, b.inbox, true);
    MergeSingle(w.output, key, ProtoBranch(pc, did, b.inbox, true));
    MergeSingle(w.swap, key, b);
    hide MergeAll;
  }

  // ---- what the program does in each of the states it reaches ----

  lemma RunWaits(pc: nat, gs: set<Id>, did: set<Id>, key: Predicate)
    requires Asks(pc).Get? && Asks(pc).port !in gs
    ensures Run(pc, Box(gs), did, key) == RunResult(pc, did, CouldntReadMsg(Asks(pc).port))
  {
  }

  lemma RunGetsThenPuts(gs: set<Id>, key: Predicate)
    requires G1 in gs
    ensures Run(0, Box(gs), {}, key) == RunResult(1, {G1}, PutMsg(P0, []))
  {
    assert {} + {G1} == {G1};
    assert Advance(PROG, CTX.vars, Box(gs), key, Config(0, {})) == Some(Config(1, {G1}));
    assert Exec(Box(gs), key, Config(1, {G1})) == RunResult(1, {G1}, PutMsg(P0, []));
  }

  lemma RunPutsAgain(gs: set<Id>, key: Predicate)
    ensures Run(1, Box(gs), {G1, P0}, key) == RunResult(2, {G1, P0}, PutMsg(P1, []))
  {
    assert Advance(PROG, CTX.vars, Box(gs), key, Config(1, {G1, P0})) == Some(Config(2, {G1, P0}));
    assert Exec(Box(gs), key, Config(2, {G1, P0})) == RunResult(2, {G1, P0}, PutMsg(P1, []));
  }

  lemma RunBetween(gs: set<Id>, key: Predicate)
    ensures G2 !in gs ==> Run(2, Box(gs), DA, key) == RunResult(3, DA, CouldntReadMsg(G2))
    ensures G2 in gs ==> Run(2, Box(gs), DA, key) == Run(3, Box(gs), DA, key) == RunResult(4, DA + {G2}, PutMsg(P2, []))
  {
    assert Advance(PROG, CTX.vars, Box(gs), key, Config(2, DA)) == Some(Config(3, DA));
    if G2 in gs {
      assert Advance(PROG, CTX.vars, Box(gs), key, Config(3, DA)) == Some(Config(4, DA + {G2}));
      assert Exec(Box(gs), key, Config(4, DA + {G2})) == RunResult(4, DA + {G2}, PutMsg(P2, []));
    } else {
      RunWaits(3, gs, DA, key);
    }
  }

  lemma RunAsks(gs: set<Id>, key: Predicate)
    requires G0 !in key
    ensures Run(4, Box(gs), DP, key) == RunResult(5, DP, CouldntCheckFiring(G0))
  {
    assert Advance(PROG, CTX.vars, Box(gs), key, Config(4, DP)) == Some(Config(5, DP));
    assert Exec(Box(gs), key, Config(5, DP)) == RunResult(5, DP, CouldntCheckFiring(G0));
  }

  lemma RunIsTold(gs: set<Id>, key: Predicate)
    requires G0 in key && G0 !in gs
    ensures Run(5, Box(gs), DP, key) == if key[G0] == FIRING then RunResult(6, DP, CouldntReadMsg(G0)) else RunResult(8, DP, Inconsistent)
  {
    var pc := if key[G0] == FIRING then 6 else 8;
    assert Advance(PROG, CTX.vars, Box(gs), key, Config(5, DP)) == Some(Config(pc, DP));
    assert Exec(Box(gs), key, Config(pc, DP)) == RunResult(pc, DP, BlockerOf(Asks(pc)));
  }

  lemma RunEnds(gs: set<Id>, key: Predicate)
    requires G0 in gs && G0 in key && key[G0] == FIRING
    ensures Run(4, Box(gs), DP, key) == RunResult(7, DP + {G0}, SyncBlockEnd)
  {
    assert Advance(PROG, CTX.vars, Box(gs), key, Config(4, DP)) == Some(Config(5, DP));
    assert Advance(PROG, CTX.vars, Box(gs), key, Config(5, DP)) == Some(Config(6, DP));
    assert Advance(PROG, CTX.vars, Box(gs), key, Config(6, DP)) == Some(Config(7, DP + {G0}));
    assert Exec(Box(gs), key, Config(7, DP + {G0})) == RunResult(7, DP + {G0}, SyncBlockEnd);
    assert Exec(Box(gs), key, Config(6, DP)) == RunResult(7, DP + {G0}, SyncBlockEnd);
    assert Exec(Box(gs), key, Config(5, DP)) == RunResult(7, DP + {G0}, SyncBlockEnd);
  }

  // ---- the states of the component, and of the drainer in between ----

  const NONE: Predicate := map[]
  const ROOT := B(0, {}, {})
  function REST1(): Branches<nat> { map[NONE := ROOT] }
  function REST2(): Branches<nat> { map[NONE := ROOT, KA() := B(3, DA, {G1})] }
  function REST3(): Branches<nat> { map[NONE := ROOT, KA() := B(3, DA, {G1}), KB() := B(0, {}, {G0}), KC() := B(3, DA, {G0, G1})] }

  function A0(): Work<nat> { Work(map[K({G1}) := B(0, {}, {G1})], map[], REST1(), {}, {}) }
  function A1(): Work<nat> { Work(map[], map[K({G1, V0}) := B(1, {G1, P0}, {G1})], REST1(), {}, A0().outgoing + {(P0, K({G1, V0}), [])}) }
  function A2(): Work<nat> { A1().(draining := A1().swap, swap := map[]) }
  function A3(): Work<nat> { Work(map[], map[KA() := B(2, DA, {G1})], REST1(), {}, A2().outgoing + {(P1, KA(), [])}) }
  function A4(): Work<nat> { A3().(draining := A3().swap, swap := map[]) }
  function S0(): ProtoState<nat> { ProtoState(REST1(), {}, {}, {}) }
  function S1(): ProtoState<nat> { ProtoState(REST2(), {}, A4().outgoing, {M1()}) }

  function C0(): Work<nat> { Work(map[KB() := B(0, {}, {G0}), KC() := B(3, DA, {G0, G1})], map[], REST2(), {}, S1().outgoing) }
  function C1(): Work<nat> { Work(map[KC() := B(3, DA, {G0, G1})], map[], REST2()[KB() := B(0, {}, {G0})], {}, S1().outgoing) }
  function S2(): ProtoState<nat> { ProtoState(REST3(), {}, S1().outgoing, {M1(), M2()}) }

  // The branch under KO has done its first puts but lacks the second message; the one under KX has all messages
  // but has yet to put.
  const ALL := {G0, G1, G2}
  function W0(): Work<nat> { Work(map[KO() := B(3, DA, {G1, G2}), KX() := B(0, {}, ALL)], map[], REST3(), {}, S2().outgoing) }
  function W1(): Work<nat> { Work(map[KX() := B(0, {}, ALL)], map[KOR() := B(4, DP, {G1, G2})], REST3(), {}, W0().outgoing + {(P2, KOR(), [])}) }
  function W2(): Work<nat> { Work(map[], map[KOR() := B(4, DP, {G1, G2}), KX() := B(1, {G1, P0}, ALL)], REST3(), {}, W1().outgoing + {(P0, KX(), [])}) }
  function W3(): Work<nat> { W2().(draining := W2().swap, swap := map[]) }
  function W4(): Work<nat> { Work(map[KX() := B(1, {G1, P0}, ALL)], map[KO0() := B(5, DP, {G1, G2}), KP() := B(5, DP, {G1, G2})], REST3(), {}, W3().outgoing) }
  function W5(): Work<nat> { Work(map[], map[KO0() := B(5, DP, {G1, G2}), KP() := B(5, DP, {G1, G2}), KX() := B(2, DA, ALL)], REST3(), {},
                                   W4().outgoing + {(P1, KX(), [])}) }
  function W6(): Work<nat> { W5().(draining := W5().swap, swap := map[]) }
  function W7(): Work<nat> { Work(map[KP() := B(5, DP, {G1, G2}), KX() := B(2, DA, ALL)], map[], REST3(), {}, W6().outgoing) }
  function W8(): Work<nat> { Work(map[KX() := B(2, DA, ALL)], map[], REST3()[KP() := B(6, DP, {G1, G2})], {}, W7().outgoing) }
  function W9(): Work<nat> { Work(map[], map[KP() := B(4, DP, ALL)], REST3()[KP() := B(6, DP, {G1, G2})], {}, W8().outgoing + {(P2, KP(), [])}) }
  function W10(): Work<nat> { W9().(draining := W9().swap, swap := map[]) }
  function S3(): ProtoState<nat> { ProtoState(REST3()[KP() := B(6, DP, ALL)], {KP()}, W10().outgoing, {M1(), M2(), M3()}) }

  lemma KeysDiffer()
    ensures NONE != KA() && NONE != KB() && NONE != KC() && KA() != KB() && KA() != KC() && KB() != KC()
    ensures KP() != NONE && KP() != KA() && KP() != KB() && KP() != KC()
    ensures KO() != KX() && KOR() != KX() && KO0() != KP() && KO0() != KX() && KP() != KX() && KX() != NONE
  {
    assert G0 in KB() && G0 in KC() && G0 !in KA() && V0 in KA() && V0 !in KB() && V0 in KC();
    assert G2 in KX() && G2 in KP() && G2 !in KA() && G2 !in KB() && G2 !in KC();
    assert G0 !in KO() && G0 in KX() && G0 !in KOR() && G0 in KP() && V2 in KP() && V2 !in KX() && V2 in KO0() && KO0()[G0] != KP()[G0];
  }

  // ---- the drains ----

  lemma Begin(w: Work<nat>) returns (trace: seq<Work<nat>>)
    ensures Drained(CTX, Run, trace, w, w)
  {
    trace := [w];
  }

  lemma Then(trace: seq<Work<nat>>, from: Work<nat>, w: Work<nat>, key: Predicate, w': Work<nat>) returns (trace': seq<Work<nat>>)
    requires Drained(CTX, Run, trace, from, w) && Runs(CTX, Run, w, key, w')
    ensures Drained(CTX, Run, trace', from, w')
  {
    hide Drained, Runs;
    trace' := trace + [w'];
    TraceExtends(CTX, Run, trace, from, w, w');
  }

  lemma Again(trace: seq<Work<nat>>, from: Work<nat>, w: Work<nat>, w': Work<nat>) returns (trace': seq<Work<nat>>)
    requires Drained(CTX, Run, trace, from, w) && Swaps(w, w')
    ensures Drained(CTX, Run, trace', from, w')
  {
    hide Drained, Runs, Swaps;
    trace' := trace + [w'];
    TraceExtends(CTX, Run, trace, from, w, w');
  }

  lemma Drain0() returns (trace: seq<Work<nat>>)
    ensures Drained(CTX, Run, trace, Initial(0), Resting(S0()))
  {
    hide Runs, Run;
    trace := [Initial(0), Resting(S0())];
    assert Box({}) == map[];
    RunWaits(0, {}, {}, NONE);
    WaitTurn(Initial(0), NONE, 0, {}, G1);
    assert Initial(0).draining - {NONE} == map[];
    assert Merge(map[], NONE, ROOT) == REST1();
  }

  lemma TurnA0()
    ensures Runs(CTX, Run, A0(), K({G1}), A1())
  {
    hide Runs, Run, K, REST1;
    RunGetsThenPuts({G1}, K({G1}));
    PutTurn(A0(), {G1}, 1, {G1}, P0, V0);
    assert A0().draining - {K({G1})} == map[];
    assert {G1} + {V0} == {G1, V0} && {G1} + {P0} == {G1, P0};
  }

  lemma TurnA2()
    ensures Runs(CTX, Run, A2(), K({G1, V0}), A3())
  {
    hide Runs, Run, K, REST1, A0;
    RunPutsAgain({G1}, K({G1, V0}));
    PutTurn(A2(), {G1, V0}, 2, {G1, P0}, P1, V1);
    assert A2().draining - {K({G1, V0})} == map[];
    assert {G1, V0} + {V1} == {G1, V0, V1} && {G1, P0} + {P1} == DA;
  }

  lemma TurnA4()
    ensures Runs(CTX, Run, A4(), KA(), Resting(S1()))
  {
    KeysDiffer();
    hide Runs, Run, K, KA, A2;
    RunBetween({G1}, KA());
    WaitTurn(A4(), KA(), 3, DA, G2);
    assert A4().draining - {KA()} == map[];
    assert Merge(REST1(), KA(), B(3, DA, {G1})) == REST2();
  }

  lemma Drain1() returns (trace: seq<Work<nat>>)
    ensures Drained(CTX, Run, trace, A0(), Resting(S1()))
  {
    trace := Begin(A0());
    TurnA0();
    assert K({G1, V0}) in A1().swap && KA() in A3().swap;
    TurnA2();
    TurnA4();
    assert Swaps(A1(), A2()) && Swaps(A3(), A4());
    hide Runs, Swaps, Drained, A0, A1, A2, A3, A4, S1, K, KA;
    trace := Then(trace, A0(), A0(), K({G1}), A1());
    trace := Again(trace, A0(), A1(), A2());
    trace := Then(trace, A0(), A2(), K({G1, V0}), A3());
    trace := Again(trace, A0(), A3(), A4());
    trace := Then(trace, A0(), A4(), KA(), Resting(S1()));
  }

  lemma TurnC0()
    ensures Runs(CTX, Run, C0(), KB(), C1())
  {
    KeysDiffer();
    hide Runs, Run, K, KA, KB, KC, S1;
    RunWaits(0, {G0}, {}, KB());
    WaitTurn(C0(), KB(), 0, {}, G1);
    assert C0().draining - {KB()} == C1().draining;
    assert Merge(REST2(), KB(), B(0, {}, {G0})) == C1().output;
  }

  lemma TurnC1()
    ensures Runs(CTX, Run, C1(), KC(), Resting(S2()))
  {
    KeysDiffer();
    hide Runs, Run, K, KA, KB, KC, S1;
    RunWaits(3, {G0, G1}, DA, KC());
    WaitTurn(C1(), KC(), 3, DA, G2);
    assert C1().draining - {KC()} == map[];
    assert Merge(C1().output, KC(), B(3, DA, {G0, G1})) == REST3();
  }

  lemma Drain2() returns (trace: seq<Work<nat>>)
    ensures Drained(CTX, Run, trace, C0(), Resting(S2()))
  {
    trace := Begin(C0());
    TurnC0();
    TurnC1();
    hide Runs, Drained, C0, C1, S2, KB, KC;
    trace := Then(trace, C0(), C0(), KB(), C1());
    trace := Then(trace, C0(), C1(), KC(), Resting(S2()));
  }

  lemma Turn0()
    ensures Runs(CTX, Run, W0(), KO(), W1())
  {
    KeysDiffer();
    hide Runs, Run, K, REST3, KX, S2;
    RunBetween({G1, G2}, KO());
    PutTurn(W0(), {G1, G2, V0, V1}, 4, DA + {G2}, P2, V2);
    assert {G1, G2, V0, V1} + {V2} == {G1, G2, V0, V1, V2} && DA + {G2} + {P2} == DP;
    assert W0().draining - {KO()} == W1().draining;
  }

  lemma Turn1()
    ensures Runs(CTX, Run, W1(), KX(), W2())
  {
    KeysDiffer();
    hide Runs, Run, K, REST3, KOR, W0;
    RunGetsThenPuts(ALL, KX());
    PutTurn(W1(), {G0, G1, G2, V0, V1}, 1, {G1}, P0, V0);
    assert {G0, G1, G2, V0, V1} + {V0} == {G0, G1, G2, V0, V1} && {G1} + {P0} == {G1, P0};
    assert W1().draining - {KX()} == map[];
    assert Merge(W1().swap, KX(), B(1, {G1, P0}, ALL)) == W2().swap;
  }

  lemma Turn3()
    ensures Runs(CTX, Run, W3(), KOR(), W4())
  {
    KeysDiffer();
    Forked();
    hide Runs, Run, K, KOR, KO0, KP, KX, REST3, W1;
    RunAsks({G1, G2}, KOR());
    ForkTurn(W3(), KOR(), 5, DP);
    assert W3().draining - {KOR()} == W4().draining;
    assert Merge(Merge(map[], KO0(), B(5, DP, {G1, G2})), KP(), B(5, DP, {G1, G2})) == W4().swap;
  }

  lemma Forked()
    ensures G0 !in KOR() && KOR()[G0 := SILENT] == KO0() && KOR()[G0 := FIRING] == KP()
    ensures G0 in KO0() && KO0()[G0] == SILENT && G0 in KP() && KP()[G0] == FIRING
  {
    assert KOR()[G0 := FIRING] == K({G1, G2, V0, V1, V2} + {G0});
    assert {G1, G2, V0, V1, V2} + {G0} == {G0, G1, G2, V0, V1, V2};
  }

  lemma Turn4()
    ensures Runs(CTX, Run, W4(), KX(), W5())
  {
    KeysDiffer();
    hide Runs, Run, K, KO0, KP, REST3, W3;
    RunPutsAgain(ALL, KX());
    PutTurn(W4(), {G0, G1, G2, V0, V1}, 2, {G1, P0}, P1, V1);
    assert {G0, G1, G2, V0, V1} + {V1} == {G0, G1, G2, V0, V1} && {G1, P0} + {P1} == DA;
    assert W4().draining - {KX()} == map[];
    assert Merge(W4().swap, KX(), B(2, DA, ALL)) == W5().swap;
  }

  lemma Turn6()
    ensures Runs(CTX, Run, W6(), KO0(), W7())
  {
    KeysDiffer();
    Forked();
    hide Runs, Run, K, KO0, KP, KX, REST3, W4;
    RunIsTold({G1, G2}, KO0());
    FailTurn(W6(), KO0(), 8, DP);
    assert W6().draining - {KO0()} == W7().draining;
  }

  lemma Turn7()
    ensures Runs(CTX, Run, W7(), KP(), W8())
  {
    KeysDiffer();
    Forked();
    hide Runs, Run, K, KO0, KP, KX, KA, KB, KC, W6;
    RunIsTold({G1, G2}, KP());
    WaitTurn(W7(), KP(), 6, DP, G0);
    assert W7().draining - {KP()} == W8().draining;
    assert KP() !in REST3();
    hide REST3;
    assert Merge(REST3(), KP(), B(6, DP, {G1, G2})) == W8().output;
  }

  lemma Turn8()
    ensures Runs(CTX, Run, W8(), KX(), W9())
  {
    KeysDiffer();
    hide Runs, Run, K, REST3, W7;
    RunBetween(ALL, KX());
    PutTurn(W8(), {G0, G1, G2, V0, V1}, 4, DA + {G2}, P2, V2);
    assert {G0, G1, G2, V0, V1} + {V2} == {G0, G1, G2, V0, V1, V2} && DA + {G2} + {P2} == DP;
    assert W8().draining - {KX()} == map[];
    assert Merge(map[], KP(), B(4, DP, ALL)) == W9().swap;
  }

  lemma EndsUnderKP()
    ensures EndKey(CTX, KP()) == KP() && Settles(CTX, KP(), DP + {G0})
  {
    assert OwnedVars(CTX) <= KP().Keys;
  }

  lemma Turn10()
    ensures Runs(CTX, Run, W10(), KP(), Resting(S3()))
  {
    EndsUnderKP();
    Forked();
    Boxes({G1, G2}, ALL);
    hide Runs, Run, K, KP, KO0, KOR, EndKey, Settles, Box, REST3, W8;
    RunEnds(ALL, KP());
    EndTurn(W10(), KP(), 7, DP + {G0});
    assert W10().draining - {KP()} == map[];
    assert {G1, G2} + ALL == ALL;
    assert Merge(W10().output, KP(), ProtoBranch(7, DP + {G0}, Box(ALL), true)) == S3().branches;
    assert W10().submitted + {KP()} == S3().submitted;
  }

  lemma SwapsW()
    ensures Swaps(W2(), W3()) && Swaps(W5(), W6()) && Swaps(W9(), W10())
  {
    hide W1, W4, W8, REST3, KX, KP, KOR, KO0;
    assert KX() in W2().swap && KP() in W5().swap && KP() in W9().swap;
  }

  lemma Drain3() returns (trace: seq<Work<nat>>)
    ensures Drained(CTX, Run, trace, W0(), Resting(S3()))
  {
    trace := Begin(W0());
    hide Runs, Swaps, Drained, W0, W1, W2, W3, W4, W5, W6, W7, W8, W9, W10, S3, KO, KX, KOR, KO0, KP;
    SwapsW();
    Turn0();
    trace := Then(trace, W0(), W0(), KO(), W1());
    Turn1();
    trace := Then(trace, W0(), W1(), KX(), W2());
    trace := Again(trace, W0(), W2(), W3());
    Turn3();
    trace := Then(trace, W0(), W3(), KOR(), W4());
    Turn4();
    trace := Then(trace, W0(), W4(), KX(), W5());
    trace := Again(trace, W0(), W5(), W6());
    Turn6();
    trace := Then(trace, W0(), W6(), KO0(), W7());
    Turn7();
    trace := Then(trace, W0(), W7(), KP(), W8());
    Turn8();
    trace := Then(trace, W0(), W8(), KX(), W9());
    trace := Again(trace, W0(), W9(), W10());
    Turn10();
    trace := Then(trace, W0(), W10(), KP(), Resting(S3()));
  }

  // ---- the messages ----

  lemma Part1()
    ensures Orders([NONE], S0().branches.Keys) && FedWork(M1(), [NONE], S0()) == A0()
  {
    assert K({}) == NONE;
    Unions({}, {G1});
    assert G1 in {G1};
    hide Union, K;
    var order := [NONE];
    assert order[..0] == [];
    assert Fed(ROOT, M1()) == B(0, {}, {G1});
    assert PartAll(M1(), order, S0().branches) == PartOne(M1(), NONE, ROOT, map[], map[]);
  }

  /** The first branch that is visited forks. */
  lemma VisitFirst(m: N.Message, branches: Branches<nat>, key: Predicate, key1: Predicate)
    requires key in branches && !branches[key].ended
    requires (Union(key, m.pred) == LatterNotFormer && key1 == m.pred) || Union(key, m.pred) == New(key1)
    ensures PartAll(m, [key], branches) == (map[key1 := Fed(branches[key], m)], map[key := branches[key]])
  {
    hide Union, Fed;
    assert PartAll(m, [], branches) == (map[], map[]);
    hide PartAll;
    Visit(m, [], branches, key, key1, map[], map[]);
    assert [] + [key] == [key];
  }

  /** One more branch is visited, and forks. */
  lemma Visit(m: N.Message, order: seq<Predicate>, branches: Branches<nat>, key: Predicate, key1: Predicate, u: Branches<nat>, bl: Branches<nat>)
    requires (forall k <- order :: k in branches) && key in branches && !branches[key].ended && PartAll(m, order, branches) == (u, bl)
    requires (Union(key, m.pred) == LatterNotFormer && key1 == m.pred) || Union(key, m.pred) == New(key1)
    ensures (forall k <- order + [key] :: k in branches)
    ensures PartAll(m, order + [key], branches) == (Merge(u, key1, Fed(branches[key], m)), Merge(bl, key, branches[key]))
  {
    hide PartAll, Union, Merge, Fed;
    PartAllNext(m, branches, order, key);
  }

  lemma UnionsOfSecond()
    ensures Union(NONE, M2().pred) == LatterNotFormer && Union(KA(), M2().pred) == New(KC())
  {
    assert K({}) == NONE;
    Unions({}, {G0});
    Unions({G1, V0, V1}, {G0});
    assert G0 in {G0} && G0 !in {G1, V0, V1} && G1 in {G1, V0, V1} && G1 !in {G0};
    assert {G1, V0, V1} + {G0} == {G0, G1, V0, V1};
  }

  lemma FedSecond()
    ensures Fed(ROOT, M2()) == B(0, {}, {G0}) && Fed(B(3, DA, {G1}), M2()) == B(3, DA, {G0, G1})
  {
    hide K;
    assert Box({G1})[G0 := []] == Box({G0, G1}) && Box({})[G0 := []] == Box({G0});
  }

  lemma Preds()
    ensures M2().pred == KB() && M3().pred == KO()
  {
  }

  lemma VisitsTwo()
    ensures Orders([NONE, KA()], S1().branches.Keys)
  {
    KeysDiffer();
    hide KA, K, A4;
  }

  lemma Part2()
    ensures Orders([NONE, KA()], S1().branches.Keys) && FedWork(M2(), [NONE, KA()], S1()) == C0()
  {
    hide Union, K, KA, KB, KC, Fed, Box, A4, M2, M3, KO, Orders, PartAll;
    VisitsTwo();
    KeysDiffer();
    UnionsOfSecond();
    FedSecond();
    Preds();
    VisitFirst(M2(), REST2(), NONE, KB());
    assert [NONE] + [KA()] == [NONE, KA()];
    var root := B(0, {}, {G0});
    Visit(M2(), [NONE], REST2(), KA(), KC(), map[KB() := root], REST1());
    assert Merge(map[KB() := root], KC(), B(3, DA, {G0, G1})) == C0().draining;
    assert Merge(REST1(), KA(), B(3, DA, {G1})) == REST2();
  }

  lemma UnionsOfThird()
    ensures Union(NONE, M3().pred) == LatterNotFormer && Union(KA(), M3().pred) == LatterNotFormer
    ensures Union(KB(), M3().pred) == New(KX()) && Union(KC(), M3().pred) == New(KX())
  {
    assert K({}) == NONE;
    var t := {G1, G2, V0, V1};
    assert G2 in t && G0 !in t;
    Unions({}, t);
    Unions({G1, V0, V1}, t);
    Unions({G0}, t);
    Unions({G0, G1, V0, V1}, t);
    assert {G0} + t == {G0, G1, G2, V0, V1} && {G0, G1, V0, V1} + t == {G0, G1, G2, V0, V1};
    assert G2 !in {G1, V0, V1} && G2 !in {G0} && G2 !in {G0, G1, V0, V1};
    hide K, Union;
  }

  lemma FedThird()
    ensures Fed(ROOT, M3()) == B(0, {}, {G2}) && Fed(B(3, DA, {G1}), M3()) == B(3, DA, {G1, G2})
    ensures Fed(B(0, {}, {G0}), M3()) == B(0, {}, {G0, G2}) && Fed(B(3, DA, {G0, G1}), M3()) == B(3, DA, ALL)
    ensures Box({G1, G2}) + Box({G2}) == Box({G1, G2}) && Box({G0, G2}) + Box(ALL) == Box(ALL)
  {
    hide K;
    assert Box({})[G2 := []] == Box({G2}) && Box({G1})[G2 := []] == Box({G1, G2});
    assert Box({G0})[G2 := []] == Box({G0, G2}) && Box({G0, G1})[G2 := []] == Box(ALL);
  }

  /** The two that have put come first and last. */
  lemma FirstHalf()
    ensures KA() in REST3() && NONE in REST3() && PartAll(M3(), [KA(), NONE], REST3()) == (map[KO() := B(3, DA, {G1, G2})], REST2())
  {
    hide Union, K, KA, KB, KC, KO, KX, Fed, Box, M2, M3, PartAll;
    KeysDiffer();
    UnionsOfThird();
    FedThird();
    Preds();
    var a, one := B(3, DA, {G1}), map[KO() := B(3, DA, {G1, G2})];
    VisitFirst(M3(), REST3(), KA(), KO());
    assert [KA()] + [NONE] == [KA(), NONE];
    Visit(M3(), [KA()], REST3(), NONE, KO(), one, map[KA() := a]);
    assert Merge(one, KO(), B(0, {}, {G2})) == one && Merge(map[KA() := a], NONE, ROOT) == REST2();
  }

  function Order(): seq<Predicate> { [KA(), NONE, KB(), KC()] }

  lemma Visits()
    ensures Orders(Order(), REST3().Keys)
  {
    KeysDiffer();
    hide KA, KB, KC;
  }

  lemma Part3()
    ensures Orders(Order(), S2().branches.Keys) && FedWork(M3(), Order(), S2()) == W0()
  {
    Visits();
    KeysDiffer();
    UnionsOfThird();
    FedThird();
    FirstHalf();
    hide Union, K, KA, KB, KC, KO, KX, Fed, Box, S1, Orders, PartAll, M3;
    var b, one := B(0, {}, {G0}), map[KO() := B(3, DA, {G1, G2})];
    var two := one[KX() := B(0, {}, {G0, G2})];
    Visit(M3(), [KA(), NONE], REST3(), KB(), KX(), one, REST2());
    assert [KA(), NONE] + [KB()] == [KA(), NONE, KB()] && [KA(), NONE, KB()] + [KC()] == Order();
    assert Merge(one, KX(), B(0, {}, {G0, G2})) == two && Merge(REST2(), KB(), b) == REST2()[KB() := b];
    Visit(M3(), [KA(), NONE, KB()], REST3(), KC(), KX(), two, REST2()[KB() := b]);
    assert Merge(two, KX(), B(3, DA, ALL)) == W0().draining && Merge(REST2()[KB() := b], KC(), B(3, DA, {G0, G1})) == REST3();
  }

  lemma NothingContradicted()
    ensures !Contradicted(S0().branches, M1()) && !Contradicted(S1().branches, M2()) && !Contradicted(S2().branches, M3())
  {
    hide K, KA, KB, KC, A4;
  }

  lemma MessagesOk()
    ensures CTX.Valid() && forall m <- {M1(), M2(), M3()} :: Binary(CTX.channels, m.pred) && Labelled(CTX, m)
    ensures Coherent({M1(), M2(), M3()})
  {
  }

  lemma NoneEnded()
    ensures KP() in S3().submitted && (forall k <- S3().branches :: !S3().branches[k].ended) && Overtaken(AGENT, S3().branches[KP()])
  {
    hide K, KA, KB, KC, W10;
  }

  /** Starting from scratch, three coherent messages can lead a component that runs this program to a submitted
      solution that a decision for it finds no branch to commit for. */
  lemma EndCanBeLost()
    ensures CTX.Valid() && Follows(PROG, CTX.vars, Run) && PutsOwn(CTX, Run)
    ensures Coherent({M1(), M2(), M3()}) && forall m <- {M1(), M2(), M3()} :: Binary(CTX.channels, m.pred) && Labelled(CTX, m)
    ensures ProtoStarts(CTX, Run, AGENT.start, S0()) && ProtoFeeds(CTX, Run, S0(), M1(), S1())
    ensures ProtoFeeds(CTX, Run, S1(), M2(), S2()) && ProtoFeeds(CTX, Run, S2(), M3(), S3())
    ensures KP() in S3().submitted && !CanCommit(S3().branches, KP())
  {
    hide Follows, PutsOwn, Coherent, Labelled, Binary, ProtoFeeds, ProtoStarts, S0, S1, S2, S3, M1, M2, M3, KP, CanCommit;
    RunFollows();
    MessagesOk();
    Starts();
    Feeds1();
    Feeds2();
    Feeds3();
    LostForGood();
  }

  lemma Starts()
    ensures ProtoStarts(CTX, Run, AGENT.start, S0())
  {
    hide Drained;
    var trace := Drain0();
  }

  lemma Feeds1()
    ensures ProtoFeeds(CTX, Run, S0(), M1(), S1())
  {
    NothingContradicted();
    assert S1().log == S0().log + {M1()};
    hide Drained, FedWork, Contradicted, Orders, S0, S1, A0, M1;
    var trace := Drain1();
    Part1();
    assert FedAlong(CTX, Run, S0(), M1(), S1(), [NONE], trace);
  }

  lemma Feeds2()
    ensures ProtoFeeds(CTX, Run, S1(), M2(), S2())
  {
    NothingContradicted();
    assert S2().log == S1().log + {M2()};
    hide Drained, FedWork, Contradicted, Orders, S1, S2, C0, M2;
    var trace := Drain2();
    Part2();
    assert FedAlong(CTX, Run, S1(), M2(), S2(), [NONE, KA()], trace);
  }

  lemma Feeds3()
    ensures ProtoFeeds(CTX, Run, S2(), M3(), S3())
  {
    NothingContradicted();
    assert S3().log == S2().log + {M3()};
    hide Drained, FedWork, Contradicted, Orders, S2, S3, W0, M3, Order;
    var trace := Drain3();
    Part3();
    assert FedAlong(CTX, Run, S2(), M3(), S3(), Order(), trace);
  }

  lemma LostForGood()
    ensures KP() in S3().submitted && !CanCommit(S3().branches, KP())
  {
    NoneEnded();
    hide S3, KP;
  }
}
