/** Expression evaluation: a tree is flattened into instructions that are popped from the back of one
    deque and work on another deque of values, where arguments are rotated to the front. */
module Expressions {
  import opened Network

  datatype Method = Get | Put | Fires | Create | Length | Assert | UserFunction(id: nat)

  datatype Field = Field(index: nat, value: Expr)

  datatype Expr =
    | Assignment(op: nat, left: Expr, right: Expr)
    | Binding(boundTo: Expr, boundFrom: Expr)
    | Conditional(test: Expr, yes: Expr, no: Expr)
    | Binary(op: nat, left: Expr, right: Expr)
    | Unary(op: nat, operand: Expr)
    | Indexing(subject: Expr, index: Expr)
    | Slicing(subject: Expr, from: Expr, to: Expr)
    | Select(field: nat, subject: Expr)
    | Literal(id: nat)
    | StructLiteral(fields: seq<Field>)
    | UnionLiteral(tag: nat, values: seq<Expr>)
    | ArrayLiteral(values: seq<Expr>)
    | Cast(target: nat, subject: Expr)
    | Call(method_: Method, arguments: seq<Expr>)
    | Variable(id: nat)

  /** The fields of a struct literal in the order in which the type declares them. */
  function FieldOrder(fields: seq<Field>, n: nat): seq<Expr> {
    if n == 0 then [] else FieldOrder(fields, n - 1) + FieldsAt(fields, n - 1)
  }

  function FieldsAt(fields: seq<Field>, index: nat): seq<Expr> {
    if fields == [] then []
    else FieldsAt(fields[..|fields| - 1], index) +
         if fields[|fields| - 1].index == index then [fields[|fields| - 1].value] else []
  }

  /** Every field of the struct is given exactly once. */
  ghost predicate EachFieldOnce(fields: seq<Field>) {
    && (forall j, k | 0 <= j < k < |fields| :: fields[j].index != fields[k].index)
    && (forall i: nat | i < |fields| :: GivesField(fields, i))
  }

  ghost predicate GivesField(fields: seq<Field>, index: nat) {
    exists k | 0 <= k < |fields| :: fields[k].index == index
  }

  lemma {:induction false} FieldsAtOne(fields: seq<Field>, index: nat, k: nat)
    requires forall j | 0 <= j < |fields| && fields[j].index == index :: j == k
    ensures FieldsAt(fields, index) == if k < |fields| && fields[k].index == index then [fields[k].value] else []
    decreases |fields|
  {
    if fields != [] {
      var front := fields[..|fields| - 1];
      FieldsAtOne(front, index, k);
    }
  }

  /** The declared order puts every field of a struct literal in its own place, and nothing else. */
  lemma {:induction false} FieldsInPlace(fields: seq<Field>, n: nat)
    requires EachFieldOnce(fields) && n <= |fields|
    ensures |FieldOrder(fields, n)| == n
    ensures forall k | 0 <= k < |fields| && fields[k].index < n :: FieldOrder(fields, n)[fields[k].index] == fields[k].value
    decreases n
  {
    hide FieldOrder, FieldsAt, GivesField;
    OrderUnfolds(fields, n);
    if n > 0 {
      FieldsInPlace(fields, n - 1);
      var k := FieldWithIndex(fields, n - 1);
      FieldsAtOne(fields, n - 1, k);
      forall j | 0 <= j < |fields| && fields[j].index < n ensures FieldOrder(fields, n)[fields[j].index] == fields[j].value {
        if j != k { assert fields[j].index < n - 1; }
      }
    }
  }

  lemma OrderUnfolds(fields: seq<Field>, n: nat)
    ensures FieldOrder(fields, n) == if n == 0 then [] else FieldOrder(fields, n - 1) + FieldsAt(fields, n - 1)
  {
  }

  lemma FieldWithIndex(fields: seq<Field>, index: nat) returns (k: nat)
    requires EachFieldOnce(fields) && index < |fields|
    ensures k < |fields| && fields[k].index == index
    ensures forall j | 0 <= j < |fields| && fields[j].index == index :: j == k
  {
    assert GivesField(fields, index);
    k :| 0 <= k < |fields| && fields[k].index == index;
  }

  /** The subexpressions that are evaluated before the expression itself, in the order of serialization. */
  function Subs(e: Expr): seq<Expr> {
    match e
    case Assignment(_, left, right) => [left, right]
    case Binding(boundTo, boundFrom) => [boundTo, boundFrom]
    case Conditional(test, _, _) => [test]
    case Binary(_, left, right) => [left, right]
    case Unary(_, operand) => [operand]
    case Indexing(subject, index) => [index, subject]
    case Slicing(subject, from, to) => [from, to, subject]
    case Select(_, subject) => [subject]
    case Literal(_) => []
    case StructLiteral(fields) => FieldOrder(fields, |fields|)
    case UnionLiteral(_, values) => values
    case ArrayLiteral(values) => values
    case Cast(_, subject) => [subject]
    case Call(_, arguments) => arguments
    case Variable(_) => []
  }

  /** Whether each value is rotated to the front as soon as it is known. */
  predicate Rotated(e: Expr) {
    e.Call? || e.StructLiteral? || e.UnionLiteral? || e.ArrayLiteral?
  }

  /** Whether the expression leaves no value behind. */
  predicate Silent(e: Expr) {
    e.Assignment? || (e.Call? && (e.method_ == Put || e.method_ == Assert))
  }

  ghost predicate Below(e: Expr, es: seq<Expr>) {
    forall i | 0 <= i < |es| :: es[i] < e
  }

  lemma {:induction false} FieldsAtSmaller(fields: seq<Field>, index: nat, part: seq<Field>)
    requires forall i | 0 <= i < |part| :: part[i] in fields
    ensures Below(StructLiteral(fields), FieldsAt(part, index))
    decreases |part|
  {
    if part != [] {
      var f := part[|part| - 1];
      assert f in fields;
      assert f.value < StructLiteral(fields);
      FieldsAtSmaller(fields, index, part[..|part| - 1]);
    }
  }

  lemma {:induction false} FieldOrderSmaller(fields: seq<Field>, n: nat)
    ensures Below(StructLiteral(fields), FieldOrder(fields, n))
  {
    if n > 0 {
      FieldOrderSmaller(fields, n - 1);
      FieldsAtSmaller(fields, n - 1, fields);
    }
  }

  lemma SubsSmaller(e: Expr)
    ensures Below(e, Subs(e))
  {
    if e.StructLiteral? { FieldOrderSmaller(e.fields, |e.fields|); }
  }

  datatype Instr = EvalExpr(e: Expr) | PushValToFront

  function Serialize(e: Expr): seq<Instr>
    decreases e, 0
  {
    SubsSmaller(e);
    [EvalExpr(e)] + SerializeEach(e, Subs(e))
  }

  function SerializeEach(e: Expr, es: seq<Expr>): seq<Instr>
    requires Below(e, es)
    decreases e, 0, |es|
  {
    if es == [] then []
    else
      SerializeEach(e, es[..|es| - 1]) + (if Rotated(e) then [PushValToFront] else []) + Serialize(es[|es| - 1])
  }

  // ---- what an expression means ----

  datatype Stop = Error | Inconsistent

  datatype Answer<S, V> = Done(store: S, out: seq<V>) | Blocked(held: seq<V>) | Stopped(why: Stop)

  /** What the context answers: it may have no answer yet, and panics when asked about what is no port. */
  datatype Reply<+T> = Given(value: T) | NotYet | Unfit

  /** What the evaluator works on, and what its context answers to `get`, `fires` and `didPut`. */
  datatype World<!S, !V> = World(
    operate: (Expr, S, seq<V>) -> Option<(S, V)>,
    truth: V -> Option<bool>,
    deref: (S, V) -> V,
    isMessage: V -> bool,
    drop: (S, V) -> S,
    get: (S, V) -> Reply<(S, V)>,
    fires: V -> Reply<V>,
    didPut: V -> Reply<()>)

  /** The expression itself, once the values of its subexpressions are known. */
  function Perform<S, V>(w: World<S, V>, e: Expr, s: S, args: seq<V>): Answer<S, V> {
    if e.Call? && e.method_ == Get then
      if |args| != 1 then Stopped(Error)
      else match w.get(s, w.deref(s, args[0]))
        case Given(r) => Done(r.0, [r.1])
        case NotYet => Blocked([w.deref(s, args[0])])
        case Unfit => Stopped(Error)
    else if e.Call? && e.method_ == Put then
      if |args| != 2 || !w.isMessage(w.deref(s, args[1])) then Stopped(Error)
      else match w.didPut(w.deref(s, args[0]))
        case Given(_) => Done(w.drop(s, args[1]), [])
        case NotYet => Blocked(args)
        case Unfit => Stopped(Error)
    else if e.Call? && e.method_ == Fires then
      if |args| != 1 then Stopped(Error)
      else match w.fires(w.deref(s, args[0]))
        case Given(v) => Done(s, [v])
        case NotYet => Blocked(args)
        case Unfit => Stopped(Error)
    else if e.Call? && e.method_ == Assert then
      if |args| != 1 then Stopped(Error)
      else match w.truth(w.deref(s, args[0]))
        case None => Stopped(Error)
        case Some(holds) => if holds then Done(s, []) else Stopped(Inconsistent)
    else match w.operate(e, s, args)
      case None => Stopped(Error)
      case Some(r) => Done(r.0, if Silent(e) then [] else [r.1])
  }

  /** Plain recursive evaluation, right to left. */
  function Eval<S, V>(w: World<S, V>, e: Expr, s: S): Answer<S, V>
    decreases e, 0
  {
    SubsSmaller(e);
    match EvalEach(w, e, Subs(e), s)
    case Stopped(why) => Stopped(why)
    case Blocked(held) => Blocked(held)
    case Done(s1, vs) =>
      if e.Conditional? then
        if |vs| != 1 then Stopped(Error)
        else match w.truth(vs[0])
          case None => Stopped(Error)
          case Some(holds) => if holds then Eval(w, e.yes, s1) else Eval(w, e.no, s1)
      else Perform(w, e, s1, vs)
  }

  /** The values of a list of expressions, the last one evaluated first. */
  function EvalEach<S, V>(w: World<S, V>, e: Expr, es: seq<Expr>, s: S): Answer<S, V>
    requires Below(e, es)
    decreases e, 0, |es|
  {
    if es == [] then Done(s, [])
    else match Eval(w, es[|es| - 1], s)
      case Stopped(why) => Stopped(why)
      case Blocked(held) => Blocked(held)
      case Done(s1, out) =>
        if |out| != 1 then Stopped(Error)
        else match EvalEach(w, e, es[..|es| - 1], s1)
          case Stopped(why) => Stopped(why)
          case Blocked(held) => Blocked(held)
          case Done(s2, vs) => Done(s2, vs + out)
  }

  /** Every subexpression whose value is needed leaves one. */
  predicate Produces(e: Expr) {
    if e.Conditional? then Produces(e.yes) && Produces(e.no) else !Silent(e)
  }

  ghost predicate WellFormed(e: Expr)
    decreases e, 0
  {
    SubsSmaller(e);
    && WellFormedEach(e, Subs(e))
    && (e.Conditional? ==> WellFormed(e.yes) && WellFormed(e.no))
  }

  ghost predicate WellFormedEach(e: Expr, es: seq<Expr>)
    requires Below(e, es)
    decreases e, 0, |es|
  {
    es == [] || (WellFormedEach(e, es[..|es| - 1]) && WellFormed(es[|es| - 1]) && Produces(es[|es| - 1]))
  }

  lemma {:induction false} ProducesOne<S, V>(w: World<S, V>, e: Expr, s: S)
    requires Produces(e) && Eval(w, e, s).Done?
    ensures |Eval(w, e, s).out| == 1
    decreases e
  {
    SubsSmaller(e);
    if e.Conditional? {
      var r := EvalEach(w, e, Subs(e), s);
      if w.truth(r.out[0]).value { ProducesOne(w, e.yes, r.store); } else { ProducesOne(w, e.no, r.store); }
    }
  }

  // ---- the machine ----

  datatype Config<S, V> = Config(code: seq<Instr>, vals: seq<V>, store: S)

  datatype StepResult<S, V> = Next(c: Config<S, V>) | Blocks(c: Config<S, V>) | Halts(why: Stop)

  function Reverse<V>(s: seq<V>): (r: seq<V>)
    ensures |r| == |s|
  {
    if s == [] then [] else Reverse(s[1..]) + [s[0]]
  }

  /** The values that an instruction takes from the deque: from the front, or popping from the back. */
  function Taken<V>(e: Expr, vals: seq<V>, n: nat): (seq<V>, seq<V>)
    requires n <= |vals|
  {
    if Rotated(e) then (vals[..n], vals[n..]) else (Reverse(vals[|vals| - n..]), vals[..|vals| - n])
  }

  /** Execute the last instruction. */
  function Step<S, V>(w: World<S, V>, c: Config<S, V>): StepResult<S, V>
    requires c.code != []
  {
    var rest := c.code[..|c.code| - 1];
    match c.code[|c.code| - 1]
    case PushValToFront =>
      if c.vals == [] then Halts(Error)
      else Next(Config(rest, [c.vals[|c.vals| - 1]] + c.vals[..|c.vals| - 1], c.store))
    case EvalExpr(e) =>
      if |c.vals| < |Subs(e)| then Halts(Error)
      else
        var (args, vals) := Taken(e, c.vals, |Subs(e)|);
        if e.Conditional? then
          match w.truth(args[0])
          case None => Halts(Error)
          case Some(holds) => Next(Config(rest + Serialize(if holds then e.yes else e.no), vals, c.store))
        else match Perform(w, e, c.store, args)
          case Done(s, out) => Next(Config(rest, vals + out, s))
          case Blocked(held) => Blocks(Config(c.code, held + vals, c.store))
          case Stopped(why) => Halts(why)
  }

  /** How much there is to execute at most. */
  ghost function InstrWeight(i: Instr): nat
    decreases i, 0
  {
    match i
    case PushValToFront => 1
    case EvalExpr(e) => 1 + if e.Conditional? then ExprWeight(e.yes) + ExprWeight(e.no) else 0
  }

  ghost function ExprWeight(e: Expr): nat
    decreases e, 1
  {
    SubsSmaller(e);
    1 + (if e.Conditional? then ExprWeight(e.yes) + ExprWeight(e.no) else 0) + EachWeight(e, Subs(e))
  }

  ghost function EachWeight(e: Expr, es: seq<Expr>): nat
    requires Below(e, es)
    decreases e, 0, |es|
  {
    if es == [] then 0 else EachWeight(e, es[..|es| - 1]) + 1 + ExprWeight(es[|es| - 1])
  }

  ghost function Weight(code: seq<Instr>): nat {
    if code == [] then 0 else Weight(code[..|code| - 1]) + InstrWeight(code[|code| - 1])
  }

  lemma {:induction false} WeightAdds(a: seq<Instr>, b: seq<Instr>)
    ensures Weight(a + b) == Weight(a) + Weight(b)
    decreases |b|
  {
    hide InstrWeight;
    if b == [] {
      assert a + b == a;
    } else {
      WeightAdds(a, b[..|b| - 1]);
      assert (a + b)[..|a + b| - 1] == a + b[..|b| - 1];
    }
  }

  lemma WeightOne(i: Instr)
    ensures Weight([i]) == InstrWeight(i)
  {
    assert [i][..0] == [];
  }

  lemma {:induction false} SerializeWeight(e: Expr)
    ensures Weight(Serialize(e)) <= ExprWeight(e)
    decreases e, 0
  {
    hide Weight;
    SubsSmaller(e);
    SerializeEachWeight(e, Subs(e));
    WeightAdds([EvalExpr(e)], SerializeEach(e, Subs(e)));
    WeightOne(EvalExpr(e));
  }

  lemma {:induction false} SerializeEachWeight(e: Expr, es: seq<Expr>)
    requires Below(e, es)
    ensures Weight(SerializeEach(e, es)) <= EachWeight(e, es)
    decreases e, 0, |es|
  {
    if es == [] {
      assert Weight([]) == 0;
    } else {
      hide Weight;
      var front, last := es[..|es| - 1], es[|es| - 1];
      SerializeEachWeight(e, front);
      SerializeWeight(last);
      var turn := if Rotated(e) then [PushValToFront] else [];
      WeightAdds(SerializeEach(e, front) + turn, Serialize(last));
      WeightAdds(SerializeEach(e, front), turn);
      TurnWeight(e);
    }
  }

  lemma TurnWeight(e: Expr)
    ensures Weight(if Rotated(e) then [PushValToFront] else []) <= 1
  {
    WeightOne(PushValToFront);
  }

  /** Every step that does not block brings the end nearer. */
  lemma StepLighter<S, V>(w: World<S, V>, c: Config<S, V>)
    requires c.code != [] && Step(w, c).Next?
    ensures Weight(Step(w, c).c.code) < Weight(c.code)
  {
    var rest, last := c.code[..|c.code| - 1], c.code[|c.code| - 1];
    if last.EvalExpr? && last.e.Conditional? {
      hide Weight, Serialize, ExprWeight;
      WeightLast(c.code);
      SerializeWeight(last.e.yes);
      SerializeWeight(last.e.no);
      WeightAdds(rest, Serialize(last.e.yes));
      WeightAdds(rest, Serialize(last.e.no));
    }
  }

  lemma WeightLast(code: seq<Instr>)
    requires code != []
    ensures Weight(code) == Weight(code[..|code| - 1]) + InstrWeight(code[|code| - 1])
  {
  }

  /** Run to the end, or until something blocks. */
  ghost function Exec<S, V>(w: World<S, V>, c: Config<S, V>): Answer<S, V>
    decreases Weight(c.code)
  {
    if c.code == [] then Done(c.store, c.vals)
    else match Step(w, c)
      case Halts(why) => Stopped(why)
      case Blocks(c') => Blocked(c'.vals)
      case Next(c') => StepLighter(w, c); Exec(w, c')
  }
}
