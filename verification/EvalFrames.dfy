/** `Frame`: the two deques with which a procedure evaluates its expressions. */
module EvalFrames {
  import opened Network
  import opened Expressions
  import opened Evaluation

  datatype Outcome = Finished | Waiting | Failed(why: Stop)

  class Frame<S(!new), V(!new)> {
    var exprStack: seq<Instr>
    var exprValues: seq<V>
    var store: S

    ghost function Now(): Config<S, V>
      reads this
    {
      Config(exprStack, exprValues, store)
    }

    constructor (store: S)
      ensures exprStack == [] && exprValues == [] && this.store == store
    {
      exprStack, exprValues, this.store := [], [], store;
    }

    /** Depth-first serialization of an expression tree. */
    method SerializeExpression(e: Expr)
      modifies this`exprStack
      ensures exprStack == old(exprStack) + Serialize(e)
      decreases e, 5
    {
      hide SerializeEach, Subs, Rotated;
      SubsSmaller(e);
      assert old(exprStack) + [EvalExpr(e)] + SerializeEach(e, Subs(e)) == old(exprStack) + Serialize(e);
      hide Serialize;
      exprStack := exprStack + [EvalExpr(e)];
      if Rotated(e) { SerializeArguments(e); } else { SerializeOperands(e); }
    }

    /** The operands of an operator, which are taken from the back of the values. */
    method SerializeOperands(e: Expr)
      requires !Rotated(e)
      modifies this`exprStack
      ensures Below(e, Subs(e)) && exprStack == old(exprStack) + SerializeEach(e, Subs(e))
      decreases e, 4
    {
      hide Serialize, SerializeEach, FieldOrder, Below;
      match e
      case Assignment(_, left, right) => SerializePair(e, left, right);
      case Binding(boundTo, boundFrom) => SerializePair(e, boundTo, boundFrom);
      case Conditional(test, _, _) => SerializeOnly(e, test);
      case Binary(_, left, right) => SerializePair(e, left, right);
      case Unary(_, operand) => SerializeOnly(e, operand);
      case Indexing(subject, index) => SerializePair(e, index, subject);
      case Slicing(subject, from, to) => SerializeTriple(e, from, to, subject);
      case Select(_, subject) => SerializeOnly(e, subject);
      case Literal(_) => EachEmpty(e);
      case Cast(_, subject) => SerializeOnly(e, subject);
      case Variable(_) => EachEmpty(e);
    }

    /** The arguments of a call or elements of a literal, which are rotated to the front of the values. */
    method SerializeArguments(e: Expr)
      requires Rotated(e)
      modifies this`exprStack
      ensures Below(e, Subs(e)) && exprStack == old(exprStack) + SerializeEach(e, Subs(e))
      decreases e, 4
    {
      hide Serialize, SerializeEach, FieldOrder;
      SubsSmaller(e);
      match e
      case StructLiteral(_) => SerializeFields(e);
      case UnionLiteral(_, values) => SerializeRotated(e, values);
      case ArrayLiteral(values) => SerializeRotated(e, values);
      case Call(_, arguments) => SerializeRotated(e, arguments);
    }

    method SerializeTriple(e: Expr, a: Expr, b: Expr, c: Expr)
      requires a < e && b < e && c < e && !Rotated(e)
      modifies this`exprStack
      ensures Below(e, [a, b, c]) && exprStack == old(exprStack) + SerializeEach(e, [a, b, c])
      decreases e, 2
    {
      hide Serialize, SerializeEach, Rotated;
      SerializePair(e, a, b);
      SerializeOperand(e, [a, b], c, old(exprStack));
      assert [a, b] + [c] == [a, b, c];
    }

    method SerializeOnly(e: Expr, a: Expr)
      requires a < e && !Rotated(e)
      modifies this`exprStack
      ensures Below(e, [a]) && exprStack == old(exprStack) + SerializeEach(e, [a])
      decreases e, 0
    {
      hide Serialize, SerializeEach, Rotated;
      EachEmpty(e);
      SerializeOperand(e, [], a, exprStack);
      assert [] + [a] == [a];
    }

    method SerializePair(e: Expr, a: Expr, b: Expr)
      requires a < e && b < e && !Rotated(e)
      modifies this`exprStack
      ensures Below(e, [a, b]) && exprStack == old(exprStack) + SerializeEach(e, [a, b])
      decreases e, 1
    {
      hide Serialize, SerializeEach, Rotated;
      SerializeOnly(e, a);
      SerializeOperand(e, [a], b, old(exprStack));
      assert [a] + [b] == [a, b];
    }

    /** One more subexpression after those in `done`. */
    method SerializeOperand(e: Expr, ghost done: seq<Expr>, a: Expr, ghost base: seq<Instr>)
      requires Below(e, done) && a < e && exprStack == base + SerializeEach(e, done)
      modifies this`exprStack
      ensures Below(e, done + [a]) && exprStack == base + SerializeEach(e, done + [a])
      decreases a, 6
    {
      hide Serialize, SerializeEach;
      EachAppend(e, done, a);
      if Rotated(e) {
        exprStack := exprStack + [PushValToFront];
      }
      SerializeExpression(a);
    }

    /** Arguments and elements: each is followed by an instruction that rotates its value to the front. */
    method SerializeRotated(e: Expr, es: seq<Expr>)
      requires Below(e, es) && Rotated(e)
      modifies this`exprStack
      ensures exprStack == old(exprStack) + SerializeEach(e, es)
      decreases e, 0
    {
      hide Serialize, SerializeEach, Rotated;
      EachEmpty(e);
      assert es[..0] == [];
      for k := 0 to |es|
        invariant exprStack == old(exprStack) + SerializeEach(e, es[..k])
      {
        SerializeOperand(e, es[..k], es[k], old(exprStack));
        assert es[..k + 1] == es[..k] + [es[k]];
      }
      assert es[..|es|] == es;
    }

    /** The fields of a struct literal, in the order in which the type declares them. */
    method SerializeFields(e: Expr)
      requires e.StructLiteral?
      modifies this`exprStack
      ensures Below(e, Subs(e)) && exprStack == old(exprStack) + SerializeEach(e, Subs(e))
      decreases e, 1
    {
      hide Serialize, SerializeEach;
      EachEmpty(e);
      for want := 0 to |e.fields|
        invariant Below(e, FieldOrder(e.fields, want))
        invariant exprStack == old(exprStack) + SerializeEach(e, FieldOrder(e.fields, want))
      {
        SerializeFieldsAt(e, want, FieldOrder(e.fields, want), old(exprStack));
      }
    }

    method SerializeFieldsAt(e: Expr, want: nat, ghost done: seq<Expr>, ghost base: seq<Instr>)
      requires e.StructLiteral? && Below(e, done) && exprStack == base + SerializeEach(e, done)
      modifies this`exprStack
      ensures Below(e, done + FieldsAt(e.fields, want)) && exprStack == base + SerializeEach(e, done + FieldsAt(e.fields, want))
      decreases e, 0
    {
      hide Serialize, SerializeEach, Rotated;
      ghost var so := done;
      for k := 0 to |e.fields|
        invariant so == done + FieldsAt(e.fields[..k], want) && Below(e, so)
        invariant exprStack == base + SerializeEach(e, so)
      {
        var field := e.fields[k];
        assert e.fields[..k + 1][..k] == e.fields[..k] && e.fields[..k + 1][k] == field;
        if field.index == want {
          assert field.value < e;
          SerializeOperand(e, so, field.value, base);
          so := so + [field.value];
        }
      }
      assert e.fields[..|e.fields|] == e.fields;
    }

    method PrepareSingleExpression(e: Expr)
      requires exprStack == []
      modifies this`exprStack, this`exprValues
      ensures Now() == Config(Serialize(e), [], store)
    {
      exprValues := [];
      SerializeExpression(e);
    }

    /** Prepare the arguments of a new component. */
    method PrepareMultipleExpressions(es: seq<Expr>)
      requires exprStack == []
      modifies this`exprStack, this`exprValues
      ensures var e := Call(UserFunction(0), es); Below(e, es) && Now() == Config(SerializeEach(e, es), [], store)
    {
      exprValues := [];
      SubsSmaller(Call(UserFunction(0), es));
      SerializeRotated(Call(UserFunction(0), es), es);
    }

    /** Pop from the back as many values as the expression has operands. */
    method PopBack(n: nat) returns (args: seq<V>)
      requires n <= |exprValues|
      modifies this`exprValues
      ensures args == Reverse(old(exprValues)[|old(exprValues)| - n..]) && exprValues == old(exprValues)[..|old(exprValues)| - n]
    {
      args := [];
      assert old(exprValues)[|old(exprValues)|..] == [];
      for k := 0 to n
        invariant |exprValues| == |old(exprValues)| - k && exprValues == old(exprValues)[..|old(exprValues)| - k]
        invariant args == Reverse(old(exprValues)[|old(exprValues)| - k..])
      {
        var last := exprValues[|exprValues| - 1];
        assert old(exprValues)[|old(exprValues)| - k - 1..] == [last] + old(exprValues)[|old(exprValues)| - k..];
        exprValues := exprValues[..|exprValues| - 1];
        args := args + [last];
      }
    }

    /** Execute instructions until none is left, one blocks or one fails. */
    method Execute(w: World<S, V>, ghost full: World<S, V>) returns (r: Outcome)
      requires Agrees(w, full) && ReadsOnce(full)
      modifies this
      ensures match r
        case Finished => exprStack == [] && Exec(full, old(Now())) == Done(store, exprValues)
        case Waiting => Exec(full, Now()) == Exec(full, old(Now())) && Stuck(w, Now())
        case Failed(why) => Exec(full, old(Now())) == Stopped(why)
    {
      hide Agrees, ReadsOnce, Step;
      while exprStack != []
        invariant Exec(full, Now()) == Exec(full, old(Now()))
        decreases Weight(exprStack)
      {
        ghost var before := Now();
        ExecKept(w, full, before);
        hide Exec;
        if Step(w, before).Next? { StepLighter(w, before); }
        r := ExecuteOne(w);
        if r != Finished { return; }
      }
      r := Finished;
    }

    /** Execute the last instruction. */
    method ExecuteOne(w: World<S, V>) returns (r: Outcome)
      requires exprStack != []
      modifies this
      ensures match r
        case Finished => Step(w, old(Now())) == Next(Now())
        case Waiting => Step(w, old(Now())) == Blocks(Now())
        case Failed(why) => Step(w, old(Now())) == Halts(why)
    {
      hide Serialize, Perform, Reverse, Taken;
      var next := exprStack[|exprStack| - 1];
      exprStack := exprStack[..|exprStack| - 1];
      match next
      case PushValToFront =>
        if exprValues == [] { return Failed(Error); }
        exprValues := [exprValues[|exprValues| - 1]] + exprValues[..|exprValues| - 1];
        r := Finished;
      case EvalExpr(e) =>
        if |exprValues| < |Subs(e)| { return Failed(Error); }
        var args := TakeArguments(e);
        if e.Conditional? {
          var test := w.truth(args[0]);
          if test == None { return Failed(Error); }
          SerializeExpression(if test.value then e.yes else e.no);
          return Finished;
        }
        match Perform(w, e, store, args)
        case Done(s, out) =>
          store, exprValues := s, exprValues + out;
          r := Finished;
        case Blocked(held) =>
          exprStack, exprValues := exprStack + [next], held + exprValues;
          r := Waiting;
        case Stopped(why) =>
          r := Failed(why);
    }

    method TakeArguments(e: Expr) returns (args: seq<V>)
      requires |Subs(e)| <= |exprValues|
      modifies this`exprValues
      ensures (args, exprValues) == Taken(e, old(exprValues), |Subs(e)|) && |args| == |Subs(e)|
    {
      hide Reverse, Subs;
      var n := |Subs(e)|;
      if Rotated(e) {
        args := exprValues[..n];
        exprValues := exprValues[n..];
      } else {
        args := PopBack(n);
      }
    }

    /** Evaluate an expression, trying again with each of `worlds` until it no longer blocks: the outcome is
        that of the recursive evaluation in which every question is answered at once. */
    method EvaluateExpression(e: Expr, worlds: seq<World<S, V>>, ghost full: World<S, V>) returns (r: Outcome)
      requires WellFormed(e) && exprStack == [] && ReadsOnce(full) && forall w <- worlds :: Agrees(w, full)
      modifies this
      ensures match r
        case Finished => Eval(full, e, old(store)) == Done(store, exprValues)
        case Waiting => Exec(full, Now()) == Exec(full, Config(Serialize(e), [], old(store))) && (worlds != [] ==> Stuck(worlds[|worlds| - 1], Now()))
        case Failed(why) => Eval(full, e, old(store)) == Stopped(why)
    {
      hide Exec, Agrees, ReadsOnce, Serialize, Eval, WellFormed, Stuck;
      PrepareSingleExpression(e);
      ghost var start := Now();
      StandsFor(full, e, store);
      r := Waiting;
      for k := 0 to |worlds|
        invariant r == Waiting && Exec(full, Now()) == Exec(full, start)
        invariant k > 0 ==> Stuck(worlds[k - 1], Now())
      {
        r := Execute(worlds[k], full);
        if r != Waiting { return; }
      }
    }
  }

  /** The last instruction has just found no answer. */
  ghost predicate Stuck<S(!new), V(!new)>(w: World<S, V>, c: Config<S, V>) {
    exists b: Config<S, V> :: b.code != [] && Step(w, b) == Blocks(c)
  }

  /** The arguments of a new component, evaluated last to first, end up in their own order. */
  lemma ArgumentsInOrder<S, V>(w: World<S, V>, es: seq<Expr>, s: S)
    requires Below(Call(UserFunction(0), es), es) && WellFormedEach(Call(UserFunction(0), es), es)
    ensures var e := Call(UserFunction(0), es);
      var run, r := Exec(w, Config(SerializeEach(e, es), [], s)), EvalEach(w, e, es, s);
      if r.Blocked? then run.Blocked? else run == r
    ensures EvalEach(w, Call(UserFunction(0), es), es, s).Done? ==> |EvalEach(w, Call(UserFunction(0), es), es, s).out| == |es|
  {
    hide Serialize, SerializeEach, EvalEach, WellFormedEach, Exec;
    var e := Call(UserFunction(0), es);
    assert [] + SerializeEach(e, es) == SerializeEach(e, es);
    CorrectEach<S, V>(w, e, es, [], [], s);
    var r := EvalEach(w, e, es, s);
    if r.Done? {
      EachCount(w, e, es, s);
      assert r.out + [] == r.out;
      ExecNothing(w, r.out, r.store);
    }
  }

  lemma ExecNothing<S, V>(w: World<S, V>, vals: seq<V>, s: S)
    ensures Exec(w, Config([], vals, s)) == Done(s, vals)
  {
  }

  /** Running a serialized expression on its own. */
  lemma StandsFor<S, V>(w: World<S, V>, e: Expr, s: S)
    requires WellFormed(e)
    ensures var run := Exec(w, Config(Serialize(e), [], s));
      if Eval(w, e, s).Blocked? then run.Blocked? else run == Eval(w, e, s)
  {
    hide WellFormed, Serialize, Eval, Exec;
    assert [] + Serialize(e) == Serialize(e);
    Correct<S, V>(w, e, [], [], s);
    var r := Eval(w, e, s);
    if r.Done? {
      assert [] + r.out == r.out;
      ExecNothing(w, r.out, r.store);
    }
  }

  lemma EachEmpty(e: Expr)
    ensures Below(e, []) && SerializeEach(e, []) == []
  {
  }

  lemma EachAppend(e: Expr, es: seq<Expr>, last: Expr)
    requires Below(e, es) && last < e
    ensures Below(e, es + [last])
    ensures SerializeEach(e, es + [last]) == SerializeEach(e, es) + (if Rotated(e) then [PushValToFront] else []) + Serialize(last)
  {
    hide Serialize, Rotated;
    var all := es + [last];
    assert all[..|all| - 1] == es && all[|all| - 1] == last;
  }
}
