/** Running the serialized instructions of an expression gives what evaluating it recursively gives. */
module Evaluation {
  import opened Network
  import opened Expressions

  /** The machine goes on with the outcome of an expression. */
  ghost predicate GoesOn<S, V>(w: World<S, V>, run: Answer<S, V>, r: Answer<S, V>, code: seq<Instr>, vals: seq<V>) {
    match r
    case Done(s, out) => run == Exec(w, Config(code, vals + out, s))
    case Stopped(why) => run == Stopped(why)
    case Blocked(_) => run.Blocked?
  }

  /** The machine goes on with the values of a list of expressions, in front or, reversed, at the back. */
  ghost predicate GoesOnEach<S, V>(w: World<S, V>, run: Answer<S, V>, r: Answer<S, V>, rotated: bool, code: seq<Instr>, vals: seq<V>) {
    match r
    case Done(s, vs) => run == Exec(w, Config(code, if rotated then vs + vals else vals + Reverse(vs), s))
    case Stopped(why) => run == Stopped(why)
    case Blocked(_) => run.Blocked?
  }

  lemma {:induction false} ReverseAppend<V>(s: seq<V>, v: V)
    ensures Reverse(s + [v]) == [v] + Reverse(s)
    decreases |s|
  {
    if s == [] {
      assert s + [v] == [v];
    } else {
      ReverseAppend(s[1..], v);
      assert (s + [v])[1..] == s[1..] + [v];
    }
  }

  lemma {:induction false} ReverseTwice<V>(s: seq<V>)
    ensures Reverse(Reverse(s)) == s
    decreases |s|
  {
    if s != [] {
      ReverseTwice(s[1..]);
      ReverseAppend(Reverse(s[1..]), s[0]);
    }
  }

  lemma {:induction false} EachCount<S, V>(w: World<S, V>, e: Expr, es: seq<Expr>, s: S)
    requires Below(e, es) && EvalEach(w, e, es, s).Done?
    ensures |EvalEach(w, e, es, s).out| == |es|
    decreases |es|
  {
    hide Eval;
    if es != [] {
      EachCount(w, e, es[..|es| - 1], Eval(w, es[|es| - 1], s).store);
    }
  }

  /** The instruction finds exactly the values of its subexpressions. */
  lemma TakesArguments<V>(e: Expr, vs: seq<V>, vals: seq<V>)
    ensures Taken(e, if Rotated(e) then vs + vals else vals + Reverse(vs), |vs|) == (vs, vals)
  {
    var all := if Rotated(e) then vs + vals else vals + Reverse(vs);
    if Rotated(e) {
      assert all[..|vs|] == vs && all[|vs|..] == vals;
    } else {
      assert all[|all| - |vs|..] == Reverse(vs) && all[..|all| - |vs|] == vals;
      ReverseTwice(vs);
    }
  }

  ghost predicate Follows<S, V>(w: World<S, V>, run: Answer<S, V>, step: StepResult<S, V>) {
    match step
    case Halts(why) => run == Stopped(why)
    case Blocks(_) => run.Blocked?
    case Next(c) => run == Exec(w, c)
  }

  lemma ExecOne<S, V>(w: World<S, V>, code: seq<Instr>, i: Instr, vals: seq<V>, s: S)
    ensures var c := Config(code + [i], vals, s); Follows(w, Exec(w, c), Step(w, c))
  {
    hide Step;
  }

  /** The expression's own instruction, once its subexpressions have been evaluated. */
  lemma OwnInstruction<S, V>(w: World<S, V>, e: Expr, code: seq<Instr>, vs: seq<V>, vals: seq<V>, s: S)
    requires |vs| == |Subs(e)|
    ensures var run := Exec(w, Config(code + [EvalExpr(e)], if Rotated(e) then vs + vals else vals + Reverse(vs), s));
      if e.Conditional? then
        var test := w.truth(vs[0]);
        if test == None then run == Stopped(Error)
        else run == Exec(w, Config(code + Serialize(if test.value then e.yes else e.no), vals, s))
      else GoesOn(w, run, Perform(w, e, s, vs), code, vals)
  {
    hide Serialize, Perform, Exec, Reverse;
    var all := if Rotated(e) then vs + vals else vals + Reverse(vs);
    TakesArguments(e, vs, vals);
    hide Taken;
    ExecOne(w, code, EvalExpr(e), all, s);
    assert (code + [EvalExpr(e)])[..|code|] == code;
  }

  /** From any deque of values, the serialized expression leaves that deque followed by the expression's
      value; it stops with the same error, and blocks exactly when the expression does. */
  lemma {:induction false} Correct<S, V>(w: World<S, V>, e: Expr, code: seq<Instr>, vals: seq<V>, s: S)
    requires WellFormed(e)
    ensures GoesOn(w, Exec(w, Config(code + Serialize(e), vals, s)), Eval(w, e, s), code, vals)
    decreases e, 0
  {
    hide Exec, Perform, SerializeEach, WellFormedEach;
    SubsSmaller(e);
    var own := code + [EvalExpr(e)];
    assert code + Serialize(e) == own + SerializeEach(e, Subs(e));
    CorrectEach(w, e, Subs(e), own, vals, s);
    var r := EvalEach(w, e, Subs(e), s);
    if r.Done? {
      EachCount(w, e, Subs(e), s);
      OwnInstruction(w, e, code, r.out, vals, r.store);
      hide Subs, EvalEach, Rotated;
      if e.Conditional? {
        Correct(w, e.yes, code, vals, r.store);
        Correct(w, e.no, code, vals, r.store);
      }
    }
  }

  lemma {:induction false} CorrectEach<S, V>(w: World<S, V>, e: Expr, es: seq<Expr>, code: seq<Instr>, vals: seq<V>, s: S)
    requires Below(e, es) && WellFormedEach(e, es)
    ensures GoesOnEach(w, Exec(w, Config(code + SerializeEach(e, es), vals, s)), EvalEach(w, e, es, s), Rotated(e), code, vals)
    decreases e, 0, |es|
  {
    hide Exec, Serialize, Eval, WellFormed, Produces, Rotated;
    if es == [] {
      NothingToRun(w, e, code, vals, s);
    } else {
      var front, last := es[..|es| - 1], es[|es| - 1];
      var turn := if Rotated(e) then [PushValToFront] else [];
      assert code + SerializeEach(e, es) == (code + SerializeEach(e, front) + turn) + Serialize(last);
      Correct(w, last, code + SerializeEach(e, front) + turn, vals, s);
      var r := Eval(w, last, s);
      if r.Done? {
        ProducesOne(w, last, s);
        var v := r.out[0];
        assert r.out == [v];
        if Rotated(e) {
          Rotates(w, code + SerializeEach(e, front), vals, v, r.store);
          CorrectEach(w, e, front, code, [v] + vals, r.store);
        } else {
          assert code + SerializeEach(e, front) + turn == code + SerializeEach(e, front);
          CorrectEach(w, e, front, code, vals + [v], r.store);
        }
        LastValue(w, e, es, code, vals, s, v);
      }
    }
  }

  lemma NothingToRun<S, V>(w: World<S, V>, e: Expr, code: seq<Instr>, vals: seq<V>, s: S)
    ensures GoesOnEach(w, Exec(w, Config(code + SerializeEach(e, []), vals, s)), EvalEach(w, e, [], s), Rotated(e), code, vals)
  {
    hide Exec;
    assert code + SerializeEach(e, []) == code;
    assert [] + vals == vals && vals + Reverse<V>([]) == vals;
  }

  lemma Rotates<S, V>(w: World<S, V>, code: seq<Instr>, vals: seq<V>, v: V, s: S)
    ensures Exec(w, Config(code + [PushValToFront], vals + [v], s)) == Exec(w, Config(code, [v] + vals, s))
  {
    hide Exec;
    ExecOne(w, code, PushValToFront, vals + [v], s);
    assert (code + [PushValToFront])[..|code|] == code;
    assert (vals + [v])[..|vals|] == vals;
  }

  /** What the front of a list leaves behind the value of its last element is what the whole list leaves. */
  lemma LastValue<S, V>(w: World<S, V>, e: Expr, es: seq<Expr>, code: seq<Instr>, vals: seq<V>, s: S, v: V)
    requires Below(e, es) && es != [] && Eval(w, es[|es| - 1], s).Done? && Eval(w, es[|es| - 1], s).out == [v]
    ensures var s1 := Eval(w, es[|es| - 1], s).store;
      var front := EvalEach(w, e, es[..|es| - 1], s1);
      forall run :: GoesOnEach(w, run, front, Rotated(e), code, if Rotated(e) then [v] + vals else vals + [v])
        ==> GoesOnEach(w, run, EvalEach(w, e, es, s), Rotated(e), code, vals)
  {
    hide Exec, Eval, Rotated, Reverse;
    var front := EvalEach(w, e, es[..|es| - 1], Eval(w, es[|es| - 1], s).store);
    if front.Done? {
      var vs := front.out;
      assert vs + ([v] + vals) == (vs + [v]) + vals;
      ReverseAppend(vs, v);
      assert (vals + [v]) + Reverse(vs) == vals + Reverse(vs + [v]);
    }
  }

  // ---- retrying ----

  /** `w` answers as `full` does, or has no answer yet. */
  ghost predicate Agrees<S(!new), V(!new)>(w: World<S, V>, full: World<S, V>) {
    && w.operate == full.operate && w.truth == full.truth && w.deref == full.deref
    && w.isMessage == full.isMessage && w.drop == full.drop
    && (forall s, v :: w.get(s, v) == NotYet || w.get(s, v) == full.get(s, v))
    && (forall v :: w.fires(v) == NotYet || w.fires(v) == full.fires(v))
    && (forall v :: w.didPut(v) == NotYet || w.didPut(v) == full.didPut(v))
  }

  /** Values in the store are not references themselves. */
  ghost predicate ReadsOnce<S(!new), V(!new)>(w: World<S, V>) {
    forall s, v :: w.deref(s, w.deref(s, v)) == w.deref(s, v)
  }

  lemma PerformAgrees<S(!new), V(!new)>(w: World<S, V>, full: World<S, V>, e: Expr, s: S, args: seq<V>)
    requires Agrees(w, full) && ReadsOnce(full)
    ensures var r := Perform(w, e, s, args);
      if r.Blocked? then Rotated(e) && |r.held| == |args| && Perform(full, e, s, r.held) == Perform(full, e, s, args)
      else Perform(full, e, s, args) == r
  {
  }

  lemma StepPerforms<S, V>(w: World<S, V>, c: Config<S, V>, e: Expr, args: seq<V>, vals: seq<V>)
    requires c.code != [] && c.code[|c.code| - 1] == EvalExpr(e) && !e.Conditional? && |Subs(e)| <= |c.vals|
    requires (args, vals) == Taken(e, c.vals, |Subs(e)|)
    ensures Step(w, c) == match Perform(w, e, c.store, args)
      case Done(s, out) => Next(Config(c.code[..|c.code| - 1], vals + out, s))
      case Blocked(held) => Blocks(Config(c.code, held + vals, c.store))
      case Stopped(why) => Halts(why)
  {
    hide Perform, Reverse, Serialize, Subs;
  }

  /** A step under `w` is the step under `full`, or blocks in a state from which `full` takes the same step. */
  lemma StepAgrees<S(!new), V(!new)>(w: World<S, V>, full: World<S, V>, c: Config<S, V>)
    requires Agrees(w, full) && ReadsOnce(full) && c.code != []
    ensures var r := Step(w, c);
      if r.Blocks? then r.c.code == c.code && Step(full, r.c) == Step(full, c) else Step(full, c) == r
  {
    hide Perform, Reverse, Serialize, Subs, ReadsOnce;
    var last := c.code[|c.code| - 1];
    if last.EvalExpr? && |c.vals| >= |Subs(last.e)| && !last.e.Conditional? {
      PerformedAgrees(w, full, c, last.e);
    }
  }

  lemma PerformedAgrees<S(!new), V(!new)>(w: World<S, V>, full: World<S, V>, c: Config<S, V>, e: Expr)
    requires Agrees(w, full) && ReadsOnce(full)
    requires c.code != [] && c.code[|c.code| - 1] == EvalExpr(e) && !e.Conditional? && |Subs(e)| <= |c.vals|
    ensures var r := Step(w, c);
      if r.Blocks? then r.c.code == c.code && Step(full, r.c) == Step(full, c) else Step(full, c) == r
  {
    hide Perform, Agrees, ReadsOnce, Reverse, Serialize, Step, Subs;
    var (args, vals) := Taken(e, c.vals, |Subs(e)|);
    PerformAgrees(w, full, e, c.store, args);
    StepPerforms(w, c, e, args, vals);
    StepPerforms(full, c, e, args, vals);
    var r := Perform(w, e, c.store, args);
    if r.Blocked? {
      assert (r.held + vals)[..|args|] == r.held && (r.held + vals)[|args|..] == vals;
      StepPerforms(full, Config(c.code, r.held + vals, c.store), e, r.held, vals);
    }
  }

  /** Whatever happened so far, the fully answered run from here on ends as it would have from the start. */
  lemma ExecKept<S(!new), V(!new)>(w: World<S, V>, full: World<S, V>, c: Config<S, V>)
    requires Agrees(w, full) && ReadsOnce(full) && c.code != []
    ensures var r := Step(w, c);
      Exec(full, c) == if r.Halts? then Stopped(r.why) else Exec(full, r.c)
  {
    StepAgrees(w, full, c);
    hide Step, Agrees, ReadsOnce;
  }
}
