/** What evaluation does with every kind of expression: which operand is evaluated when, and in which place the
    operator finds its value. */
module ExpressionLaws {
  import opened Network
  import opened Expressions
  import opened EvalFrames

  /** An operand leaves one value. */
  function Operand<S, V>(r: Answer<S, V>): Answer<S, V> {
    if r.Done? && |r.out| != 1 then Stopped(Error) else r
  }

  /** An operator on values, which may panic. */
  function Applied<S, V>(w: World<S, V>, e: Expr, s: S, args: seq<V>): Answer<S, V> {
    match w.operate(e, s, args)
    case None => Stopped(Error)
    case Some(r) => Done(r.0, [r.1])
  }

  function Appended<S, V>(r: Answer<S, V>, vs: seq<V>): Answer<S, V> {
    if r.Done? then Done(r.store, r.out + vs) else r
  }

  /** The values of a list of expressions, each in the place of its expression; the last one is evaluated first. */
  function EvalList<S, V>(w: World<S, V>, es: seq<Expr>, s: S): Answer<S, V>
    decreases |es|
  {
    if es == [] then Done(s, [])
    else
      var last := Operand(Eval(w, es[|es| - 1], s));
      if !last.Done? then last else Appended(EvalList(w, es[..|es| - 1], last.store), last.out)
  }

  lemma {:induction false} EachIsList<S, V>(w: World<S, V>, e: Expr, es: seq<Expr>, s: S)
    requires Below(e, es)
    ensures EvalEach(w, e, es, s) == EvalList(w, es, s)
    decreases |es|
  {
    hide Eval;
    if es != [] {
      var r := Eval(w, es[|es| - 1], s);
      if r.Done? { EachIsList(w, e, es[..|es| - 1], r.store); }
    }
  }

  lemma OneOperand<S, V>(w: World<S, V>, a: Expr, s: S)
    ensures EvalList(w, [a], s) == Operand(Eval(w, a, s))
  {
    hide Eval;
    assert [a][..0] == [];
    assert forall r: Answer<S, V> | Operand(r).Done? :: [] + r.out == r.out;
  }

  lemma LastOperand<S, V>(w: World<S, V>, es: seq<Expr>, a: Expr, s: S)
    ensures var last := Operand(Eval(w, a, s));
      EvalList(w, es + [a], s) == if !last.Done? then last else Appended(EvalList(w, es, last.store), last.out)
  {
    hide Eval, Operand;
    assert (es + [a])[..|es|] == es;
  }

  /** Evaluation of anything but a conditional: the operands first, then the expression itself. */
  lemma EvalUnfolds<S, V>(w: World<S, V>, e: Expr, s: S)
    ensures var r := EvalList(w, Subs(e), s);
      Eval(w, e, s) ==
        if !r.Done? then r
        else if !e.Conditional? then Perform(w, e, r.store, r.out)
        else if |r.out| != 1 || w.truth(r.out[0]) == None then Stopped(Error)
        else Eval(w, if w.truth(r.out[0]).value then e.yes else e.no, r.store)
  {
    hide Perform, EvalEach, EvalList;
    SubsSmaller(e);
    EachIsList(w, e, Subs(e), s);
  }

  /** A binary operator: the right operand is evaluated first, and the left value comes first. */
  lemma EvalBinary<S, V>(w: World<S, V>, op: nat, left: Expr, right: Expr, s: S)
    ensures var b := Operand(Eval(w, right, s));
      Eval(w, Binary(op, left, right), s) ==
        if !b.Done? then b
        else
          var a := Operand(Eval(w, left, b.store));
          if !a.Done? then a else Applied(w, Binary(op, left, right), a.store, a.out + b.out)
  {
    EvalUnfolds(w, Binary(op, left, right), s);
    hide Eval, Operand, EvalList;
    LastOperand(w, [left], right, s);
    assert [left] + [right] == [left, right];
    var r := Operand(Eval(w, right, s));
    if r.Done? { OneOperand(w, left, r.store); }
  }

  lemma EvalUnary<S, V>(w: World<S, V>, op: nat, operand: Expr, s: S)
    ensures var a := Operand(Eval(w, operand, s)); Eval(w, Unary(op, operand), s) == if !a.Done? then a else Applied(w, Unary(op, operand), a.store, a.out)
  {
    EvalUnfolds(w, Unary(op, operand), s);
    hide Eval, EvalList, Operand;
    OneOperand(w, operand, s);
  }

  /** Indexing: the subject is evaluated before the index, whose value comes first. */
  lemma EvalIndexing<S, V>(w: World<S, V>, subject: Expr, index: Expr, s: S)
    ensures var a := Operand(Eval(w, subject, s));
      Eval(w, Indexing(subject, index), s) ==
        if !a.Done? then a
        else
          var i := Operand(Eval(w, index, a.store));
          if !i.Done? then i else Applied(w, Indexing(subject, index), i.store, i.out + a.out)
  {
    EvalUnfolds(w, Indexing(subject, index), s);
    hide Eval, Operand, EvalList;
    LastOperand(w, [index], subject, s);
    assert [index] + [subject] == [index, subject];
    var r := Operand(Eval(w, subject, s));
    if r.Done? { OneOperand(w, index, r.store); }
  }

  /** Slicing: the subject, then the end, then the start; the values are start, end and subject. */
  lemma EvalSlicing<S, V>(w: World<S, V>, subject: Expr, from: Expr, to: Expr, s: S)
    ensures var a := Operand(Eval(w, subject, s));
      Eval(w, Slicing(subject, from, to), s) ==
        if !a.Done? then a
        else
          var j := Operand(Eval(w, to, a.store));
          if !j.Done? then j
          else
            var i := Operand(Eval(w, from, j.store));
            if !i.Done? then i else Applied(w, Slicing(subject, from, to), i.store, i.out + j.out + a.out)
  {
    EvalUnfolds(w, Slicing(subject, from, to), s);
    hide Eval, Operand, EvalList;
    LastOperand(w, [from, to], subject, s);
    assert [from, to] + [subject] == [from, to, subject] && [from] + [to] == [from, to];
    var r := Operand(Eval(w, subject, s));
    if r.Done? {
      LastOperand(w, [from], to, r.store);
      var q := Operand(Eval(w, to, r.store));
      if q.Done? { OneOperand(w, from, q.store); }
    }
  }

  lemma EvalSelect<S, V>(w: World<S, V>, field: nat, subject: Expr, s: S)
    ensures var a := Operand(Eval(w, subject, s)); Eval(w, Select(field, subject), s) == if !a.Done? then a else Applied(w, Select(field, subject), a.store, a.out)
  {
    EvalUnfolds(w, Select(field, subject), s);
    hide Eval, EvalList, Operand;
    OneOperand(w, subject, s);
  }

  lemma EvalCast<S, V>(w: World<S, V>, target: nat, subject: Expr, s: S)
    ensures var a := Operand(Eval(w, subject, s)); Eval(w, Cast(target, subject), s) == if !a.Done? then a else Applied(w, Cast(target, subject), a.store, a.out)
  {
    EvalUnfolds(w, Cast(target, subject), s);
    hide Eval, EvalList, Operand;
    OneOperand(w, subject, s);
  }

  /** Assignment: the right side first; the target comes first, and no value is left. */
  lemma EvalAssignment<S, V>(w: World<S, V>, op: nat, left: Expr, right: Expr, s: S)
    ensures var b := Operand(Eval(w, right, s));
      Eval(w, Assignment(op, left, right), s) ==
        if !b.Done? then b
        else
          var a := Operand(Eval(w, left, b.store));
          if !a.Done? then a
          else
            var r := Applied(w, Assignment(op, left, right), a.store, a.out + b.out);
            if r.Done? then Done(r.store, []) else r
  {
    EvalUnfolds(w, Assignment(op, left, right), s);
    hide Eval, Operand, EvalList;
    LastOperand(w, [left], right, s);
    assert [left] + [right] == [left, right];
    var r := Operand(Eval(w, right, s));
    if r.Done? { OneOperand(w, left, r.store); }
  }

  lemma EvalBinding<S, V>(w: World<S, V>, boundTo: Expr, boundFrom: Expr, s: S)
    ensures var b := Operand(Eval(w, boundFrom, s));
      Eval(w, Binding(boundTo, boundFrom), s) ==
        if !b.Done? then b
        else
          var a := Operand(Eval(w, boundTo, b.store));
          if !a.Done? then a else Applied(w, Binding(boundTo, boundFrom), a.store, a.out + b.out)
  {
    EvalUnfolds(w, Binding(boundTo, boundFrom), s);
    hide Eval, Operand, EvalList;
    LastOperand(w, [boundTo], boundFrom, s);
    assert [boundTo] + [boundFrom] == [boundTo, boundFrom];
    var r := Operand(Eval(w, boundFrom, s));
    if r.Done? { OneOperand(w, boundTo, r.store); }
  }

  /** A conditional evaluates its test and then one branch, the first one iff the test holds. */
  lemma EvalConditional<S, V>(w: World<S, V>, test: Expr, yes: Expr, no: Expr, s: S)
    ensures var a := Operand(Eval(w, test, s));
      Eval(w, Conditional(test, yes, no), s) ==
        if !a.Done? then a
        else if w.truth(a.out[0]) == None then Stopped(Error)
        else Eval(w, if w.truth(a.out[0]).value then yes else no, a.store)
  {
    EvalUnfolds(w, Conditional(test, yes, no), s);
    hide Eval, EvalList;
    OneOperand(w, test, s);
  }

  /** Literals without parts and variables. */
  lemma EvalLeaf<S, V>(w: World<S, V>, e: Expr, s: S)
    requires e.Literal? || e.Variable?
    ensures Eval(w, e, s) == Applied(w, e, s, [])
  {
    EvalUnfolds(w, e, s);
    hide Eval;
  }

  /** Literals with parts and calls: the parts or arguments from the last to the first, their values in their own order. */
  lemma EvalParts<S, V>(w: World<S, V>, e: Expr, s: S)
    requires e.ArrayLiteral? || e.UnionLiteral?
    ensures var r := EvalList(w, e.values, s); Eval(w, e, s) == if !r.Done? then r else Applied(w, e, r.store, r.out)
  {
    EvalUnfolds(w, e, s);
    hide Eval, EvalList;
  }

  /** The fields of a struct, each in the place of its index, whatever order they are written in. */
  lemma EvalStruct<S, V>(w: World<S, V>, fields: seq<Field>, order: seq<Expr>, s: S)
    requires EachFieldOnce(fields) && |order| == |fields|
    requires forall k | 0 <= k < |fields| :: fields[k].index < |order| && order[fields[k].index] == fields[k].value
    ensures var r := EvalList(w, order, s);
      Eval(w, StructLiteral(fields), s) == if !r.Done? then r else Applied(w, StructLiteral(fields), r.store, r.out)
  {
    EvalUnfolds(w, StructLiteral(fields), s);
    hide Eval, EvalList;
    FieldsInPlace(fields, |fields|);
    hide FieldOrder;
    forall i: nat | i < |fields| ensures FieldOrder(fields, |fields|)[i] == order[i] {
      var k := FieldWithIndex(fields, i);
    }
    assert FieldOrder(fields, |fields|) == order;
  }

  lemma EvalCall<S, V>(w: World<S, V>, m: Method, arguments: seq<Expr>, s: S)
    ensures var r := EvalList(w, arguments, s);
      Eval(w, Call(m, arguments), s) == if !r.Done? then r else Perform(w, Call(m, arguments), r.store, r.out)
  {
    EvalUnfolds(w, Call(m, arguments), s);
    hide Eval, EvalList, Perform;
  }

  // ---- the instructions ----

  /** Arguments, elements and fields: each is followed by the instruction that rotates its value to the front, which is
      executed after it as instructions are popped from the back. */
  function SerializeList(es: seq<Expr>): seq<Instr> {
    if es == [] then [] else SerializeList(es[..|es| - 1]) + [PushValToFront] + Serialize(es[|es| - 1])
  }

  lemma {:induction false} EachIsSerialized(e: Expr, es: seq<Expr>)
    requires Below(e, es) && Rotated(e)
    ensures SerializeEach(e, es) == SerializeList(es)
    decreases |es|
  {
    hide Serialize, Rotated;
    if es != [] { EachIsSerialized(e, es[..|es| - 1]); }
  }

  lemma SerializeOne(e: Expr, a: Expr)
    requires a < e && !Rotated(e)
    ensures Below(e, [a]) && SerializeEach(e, [a]) == Serialize(a)
  {
    hide Serialize;
    EachEmpty(e);
    EachAppend(e, [], a);
    assert [] + [a] == [a];
    assert SerializeEach(e, []) + [] + Serialize(a) == Serialize(a);
  }

  lemma SerializeTwo(e: Expr, a: Expr, b: Expr)
    requires a < e && b < e && !Rotated(e)
    ensures Below(e, [a, b]) && SerializeEach(e, [a, b]) == Serialize(a) + Serialize(b)
  {
    hide Serialize;
    SerializeOne(e, a);
    EachAppend(e, [a], b);
    assert [a] + [b] == [a, b];
    assert SerializeEach(e, [a]) + [] + Serialize(b) == Serialize(a) + Serialize(b);
  }

  lemma SerializeThree(e: Expr, a: Expr, b: Expr, c: Expr)
    requires a < e && b < e && c < e && !Rotated(e)
    ensures Below(e, [a, b, c]) && SerializeEach(e, [a, b, c]) == Serialize(a) + Serialize(b) + Serialize(c)
  {
    hide Serialize;
    SerializeTwo(e, a, b);
    EachAppend(e, [a, b], c);
    assert [a, b] + [c] == [a, b, c];
    assert SerializeEach(e, [a, b]) + [] + Serialize(c) == Serialize(a) + Serialize(b) + Serialize(c);
  }

  lemma SerializeUnfolds(e: Expr)
    ensures Below(e, Subs(e)) && Serialize(e) == [EvalExpr(e)] + SerializeEach(e, Subs(e))
  {
    SubsSmaller(e);
  }

  /** The instructions of every kind of expression: its own, and then those of its operands in the order in which they
      are serialized. */
  lemma Serialized(e: Expr)
    ensures match e
      case Assignment(_, left, right) => Serialize(e) == [EvalExpr(e)] + (Serialize(left) + Serialize(right))
      case Binding(boundTo, boundFrom) => Serialize(e) == [EvalExpr(e)] + (Serialize(boundTo) + Serialize(boundFrom))
      case Conditional(test, _, _) => Serialize(e) == [EvalExpr(e)] + Serialize(test)
      case Binary(_, left, right) => Serialize(e) == [EvalExpr(e)] + (Serialize(left) + Serialize(right))
      case Unary(_, operand) => Serialize(e) == [EvalExpr(e)] + Serialize(operand)
      case Indexing(subject, index) => Serialize(e) == [EvalExpr(e)] + (Serialize(index) + Serialize(subject))
      case Slicing(subject, from, to) => Serialize(e) == [EvalExpr(e)] + (Serialize(from) + Serialize(to) + Serialize(subject))
      case Select(_, subject) => Serialize(e) == [EvalExpr(e)] + Serialize(subject)
      case Literal(_) => Serialize(e) == [EvalExpr(e)]
      case StructLiteral(fields) => Serialize(e) == [EvalExpr(e)] + SerializeList(FieldOrder(fields, |fields|))
      case UnionLiteral(_, values) => Serialize(e) == [EvalExpr(e)] + SerializeList(values)
      case ArrayLiteral(values) => Serialize(e) == [EvalExpr(e)] + SerializeList(values)
      case Cast(_, subject) => Serialize(e) == [EvalExpr(e)] + Serialize(subject)
      case Call(_, arguments) => Serialize(e) == [EvalExpr(e)] + SerializeList(arguments)
      case Variable(_) => Serialize(e) == [EvalExpr(e)]
  {
    SerializeUnfolds(e);
    hide Serialize, SerializeEach, SerializeList, FieldOrder, Below;
    match e
    case Assignment(_, left, right) => SerializeTwo(e, left, right);
    case Binding(boundTo, boundFrom) => SerializeTwo(e, boundTo, boundFrom);
    case Conditional(test, _, _) => SerializeOne(e, test);
    case Binary(_, left, right) => SerializeTwo(e, left, right);
    case Unary(_, operand) => SerializeOne(e, operand);
    case Indexing(subject, index) => SerializeTwo(e, index, subject);
    case Slicing(subject, from, to) => SerializeThree(e, from, to, subject);
    case Select(_, subject) => SerializeOne(e, subject);
    case Literal(_) => EachEmpty(e);
    case StructLiteral(fields) => EachIsSerialized(e, FieldOrder(fields, |fields|));
    case UnionLiteral(_, values) => EachIsSerialized(e, values);
    case ArrayLiteral(values) => EachIsSerialized(e, values);
    case Cast(_, subject) => SerializeOne(e, subject);
    case Call(_, arguments) => EachIsSerialized(e, arguments);
    case Variable(_) => EachEmpty(e);
  }
}
