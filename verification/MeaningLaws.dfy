/** What expressions mean, operator by operator, in terms of what their operands mean. `EvalRuns.EvaluateOn` shows that
    running them on the store gives these meanings. */
module MeaningLaws {
  import opened Network
  import opened Values
  import opened Stores
  import opened Operators
  import opened EvalStores
  import opened Expressions
  import opened EvalRuns
  import opened ExpressionLaws

  /** The expression finishes with one value, a reference or not, of this meaning. */
  ghost predicate Means(cx: Context, env: seq<Meaning>, e: Expr, ref: bool, m: Meaning) {
    Eval(WorldOf(cx), e, env) == Done(env, [Seen(ref, m)])
  }

  ghost predicate HasMeaning(cx: Context, env: seq<Meaning>, e: Expr, m: Meaning) {
    exists ref :: Means(cx, env, e, ref, m)
  }

  ghost predicate Panics(cx: Context, env: seq<Meaning>, e: Expr) {
    Eval(WorldOf(cx), e, env) == Stopped(Error)
  }

  /** The expression is an integer. */
  ghost predicate MeansInt(cx: Context, env: seq<Meaning>, e: Expr, n: int) {
    exists ref, ty :: Means(cx, env, e, ref, Meaning.Plain(Integer(ty, n)))
  }

  ghost predicate IsSequence(m: Meaning) {
    m.Compound? && (m.kind == Message || m.kind == String || m.kind == Array)
  }

  lemma AppliedWorth(cx: Context, e: Expr, env: seq<Meaning>, args: seq<Seen>)
    ensures Applied(WorldOf(cx), e, env, args) ==
      var v := Worth(cx.base, e, env, args); if v == None then Stopped(Error) else Done(env, [v.value])
  {
    hide Worth;
  }

  lemma OperandMeans(cx: Context, env: seq<Meaning>, e: Expr, ref: bool, m: Meaning)
    requires Means(cx, env, e, ref, m)
    ensures Operand(Eval(WorldOf(cx), e, env)) == Done(env, [Seen(ref, m)])
  {
  }

  // ---- variables and literals ----

  /** A variable is a reference to its slot. */
  lemma VariableMeans(cx: Context, env: seq<Meaning>, id: nat)
    requires id < |env|
    ensures Means(cx, env, Variable(id), true, env[id])
  {
    hide Eval, Worth;
    EvalLeaf(WorldOf(cx), Variable(id), env);
    AppliedWorth(cx, Variable(id), env, []);
    WorthOfVariable(cx.base, env, id);
  }

  lemma WorthOfVariable(b: Base, env: seq<Meaning>, id: nat)
    requires id < |env|
    ensures Worth(b, Variable(id), env, []) == Some(Seen(true, env[id]))
  {
  }

  /** A literal is its value, a string the sequence of its characters. */
  lemma LiteralMeans(cx: Context, env: seq<Meaning>, id: nat, m: Meaning)
    requires match cx.base.lits(id)
      case One(v) => m == Meaning.Plain(v)
      case Text(chars) => m.Compound? && m.kind == String && |m.parts| == |chars| && forall i | 0 <= i < |chars| :: m.parts[i] == Meaning.Plain(Char(chars[i]))
    ensures Means(cx, env, Literal(id), false, m)
  {
    hide Eval, Worth;
    EvalLeaf(WorldOf(cx), Literal(id), env);
    AppliedWorth(cx, Literal(id), env, []);
    WorthOfLiteral(cx.base, env, id, m);
  }

  lemma WorthOfLiteral(b: Base, env: seq<Meaning>, id: nat, m: Meaning)
    requires match b.lits(id)
      case One(v) => m == Meaning.Plain(v)
      case Text(chars) => m.Compound? && m.kind == String && |m.parts| == |chars| && forall i | 0 <= i < |chars| :: m.parts[i] == Meaning.Plain(Char(chars[i]))
    ensures Worth(b, Literal(id), env, []) == Some(Seen(false, m))
  {
    match b.lits(id)
    case One(_) =>
    case Text(chars) => assert m.parts == Plains(Letters(chars));
  }

  // ---- operators on two values ----

  lemma BinaryWorth(cx: Context, env: seq<Meaning>, op: nat, l: Expr, r: Expr, x: Seen, y: Seen)
    requires Means(cx, env, l, x.ref, x.what) && Means(cx, env, r, y.ref, y.what)
    ensures Eval(WorldOf(cx), Binary(op, l, r), env) ==
      var v := BinaryResult(cx.base, Binary(op, l, r), op, [x, y]); if v == None then Stopped(Error) else Done(env, [v.value])
  {
    hide Eval, Worth, BinaryResult, Operand;
    EvalBinary(WorldOf(cx), op, l, r, env);
    OperandMeans(cx, env, l, x.ref, x.what);
    OperandMeans(cx, env, r, y.ref, y.what);
    assert [x] + [y] == [x, y];
    AppliedWorth(cx, Binary(op, l, r), env, [x, y]);
    WorthOfBinary(cx.base, env, op, l, r, [x, y]);
  }

  lemma WorthOfBinary(b: Base, env: seq<Meaning>, op: nat, l: Expr, r: Expr, args: seq<Seen>)
    requires |args| == 2
    ensures Worth(b, Binary(op, l, r), env, args) == BinaryResult(b, Binary(op, l, r), op, args)
  {
    hide BinaryResult;
  }

  /** `l @ r` is the parts of `l` followed by those of `r`, if both are sequences of one kind, and panics otherwise. */
  lemma JoinMeans(cx: Context, env: seq<Meaning>, l: Expr, r: Expr, refL: bool, a: Meaning, refR: bool, b: Meaning)
    requires Means(cx, env, l, refL, a) && Means(cx, env, r, refR, b)
    ensures var e := Binary(CONCATENATE, l, r);
      if IsSequence(a) && IsSequence(b) && a.kind == b.kind then Means(cx, env, e, false, Compound(a.kind, a.parts + b.parts))
      else Panics(cx, env, e)
  {
    hide Eval;
    BinaryWorth(cx, env, CONCATENATE, l, r, Seen(refL, a), Seen(refR, b));
  }

  /** `==` and `!=` on values of one type decide whether they mean the same. */
  lemma EqualityMeans(cx: Context, env: seq<Meaning>, l: Expr, r: Expr, refL: bool, a: Meaning, refR: bool, b: Meaning)
    requires Means(cx, env, l, refL, a) && Means(cx, env, r, refR, b) && Comparable(a, b)
    ensures Means(cx, env, Binary(EQUALITY, l, r), false, Meaning.Plain(Bool(a == b)))
    ensures Means(cx, env, Binary(INEQUALITY, l, r), false, Meaning.Plain(Bool(a != b)))
  {
    hide Eval, Compared, Comparable;
    BinaryWorth(cx, env, EQUALITY, l, r, Seen(refL, a), Seen(refR, b));
    BinaryWorth(cx, env, INEQUALITY, l, r, Seen(refL, a), Seen(refR, b));
    ComparedIsEquality(a, b);
  }

  /** Other operators get the left value first. */
  lemma ScalarMeans(cx: Context, env: seq<Meaning>, op: nat, l: Expr, r: Expr, refL: bool, x: Value, refR: bool, y: Value)
    requires Means(cx, env, l, refL, Meaning.Plain(x)) && Means(cx, env, r, refR, Meaning.Plain(y))
    requires op != CONCATENATE && op != EQUALITY && op != INEQUALITY
    ensures var e := Binary(op, l, r); var v := cx.base.scalar(e, [x, y]);
      if v == None then Panics(cx, env, e) else Means(cx, env, e, false, Meaning.Plain(v.value))
  {
    hide Eval;
    BinaryWorth(cx, env, op, l, r, Seen(refL, Meaning.Plain(x)), Seen(refR, Meaning.Plain(y)));
    assert Scalars([Seen(refL, Meaning.Plain(x)), Seen(refR, Meaning.Plain(y))]) == [x, y];
  }

  // ---- parts ----

  /** An element of a sequence: the one at the index, and a panic if there is none. */
  lemma IndexMeans(cx: Context, env: seq<Meaning>, subject: Expr, index: Expr, ref: bool, a: Meaning, i: int)
    requires Means(cx, env, subject, ref, a) && MeansInt(cx, env, index, i)
    ensures var e := Indexing(subject, index);
      if IsSequence(a) && 0 <= i < |a.parts| then Means(cx, env, e, ref, a.parts[i]) else Panics(cx, env, e)
  {
    hide Eval, Operand, Worth;
    var refI, ty :| Means(cx, env, index, refI, Meaning.Plain(Integer(ty, i)));
    var x, y := Seen(ref, a), Seen(refI, Meaning.Plain(Integer(ty, i)));
    EvalIndexing(WorldOf(cx), subject, index, env);
    OperandMeans(cx, env, subject, ref, a);
    OperandMeans(cx, env, index, refI, y.what);
    assert [y] + [x] == [y, x];
    AppliedWorth(cx, Indexing(subject, index), env, [y, x]);
    IndexingWorth(cx.base, Indexing(subject, index), env, [y, x]);
  }

  /** A field of a struct: the part at the field's index. */
  lemma SelectMeans(cx: Context, env: seq<Meaning>, field: nat, subject: Expr, ref: bool, a: Meaning)
    requires Means(cx, env, subject, ref, a)
    ensures var e := Select(field, subject);
      if a.Compound? && a.kind == Struct && field < |a.parts| then Means(cx, env, e, ref, a.parts[field]) else Panics(cx, env, e)
  {
    hide Eval, Operand;
    EvalSelect(WorldOf(cx), field, subject, env);
    OperandMeans(cx, env, subject, ref, a);
    AppliedWorth(cx, Select(field, subject), env, [Seen(ref, a)]);
  }

  /** What a slice from `from` up to `to` is. */
  ghost predicate IsSlice(m: Meaning, a: Meaning, from: int, to: int)
    requires IsSequence(a) && 0 <= from < |a.parts| && 0 <= to <= |a.parts|
  {
    && m.Compound? && m.kind == a.kind && |m.parts| == (if from < to then to - from else 0)
    && forall k | 0 <= k < |m.parts| :: m.parts[k] == a.parts[from + k]
  }

  /** A slice: the parts in the range, in a sequence of the same kind; a panic if the range does not lie inside. */
  lemma SliceMeans(cx: Context, env: seq<Meaning>, subject: Expr, from: Expr, to: Expr, ref: bool, a: Meaning, i: int, j: int)
    requires Means(cx, env, subject, ref, a) && MeansInt(cx, env, from, i) && MeansInt(cx, env, to, j)
    ensures var e := Slicing(subject, from, to);
      if IsSequence(a) && 0 <= i < |a.parts| && 0 <= j <= |a.parts| then exists m :: IsSlice(m, a, i, j) && Means(cx, env, e, false, m)
      else Panics(cx, env, e)
  {
    hide Eval, Operand, Worth;
    var refI, tyI :| Means(cx, env, from, refI, Meaning.Plain(Integer(tyI, i)));
    var refJ, tyJ :| Means(cx, env, to, refJ, Meaning.Plain(Integer(tyJ, j)));
    var x, y, z := Seen(refI, Meaning.Plain(Integer(tyI, i))), Seen(refJ, Meaning.Plain(Integer(tyJ, j))), Seen(ref, a);
    var e := Slicing(subject, from, to);
    EvalSlicing(WorldOf(cx), subject, from, to, env);
    OperandMeans(cx, env, subject, ref, a);
    OperandMeans(cx, env, from, refI, x.what);
    OperandMeans(cx, env, to, refJ, y.what);
    assert [x] + [y] + [z] == [x, y, z];
    AppliedWorth(cx, e, env, [x, y, z]);
    SlicingWorth(cx.base, e, env, [x, y, z]);
    if IsSequence(a) && 0 <= i < |a.parts| && 0 <= j <= |a.parts| {
      assert IsSlice(SliceOf(a, i, j).value, a, i, j);
    }
  }

  // ---- compound values ----

  /** Each expression of the list means the element of `ms` in its place. */
  ghost predicate AllMean(cx: Context, env: seq<Meaning>, es: seq<Expr>, ms: seq<Meaning>) {
    |es| == |ms| && forall i | 0 <= i < |es| :: HasMeaning(cx, env, es[i], ms[i])
  }

  ghost predicate AreMeanings(vs: seq<Seen>, ms: seq<Meaning>) {
    |vs| == |ms| && forall i | 0 <= i < |vs| :: vs[i].what == ms[i]
  }

  lemma {:induction false} ListMeans(cx: Context, env: seq<Meaning>, es: seq<Expr>, ms: seq<Meaning>)
    requires AllMean(cx, env, es, ms)
    ensures var r := EvalList(WorldOf(cx), es, env); r.Done? && r.store == env && AreMeanings(r.out, ms)
    decreases |es|
  {
    hide Eval, Operand, WorldOf;
    if es != [] {
      var k := |es| - 1;
      assert HasMeaning(cx, env, es[k], ms[k]);
      var ref :| Means(cx, env, es[k], ref, ms[k]);
      OperandMeans(cx, env, es[k], ref, ms[k]);
      hide Means, HasMeaning;
      ListMeans(cx, env, es[..k], ms[..k]);
    }
  }

  /** An array or union literal has the parts that are written, each in its place. */
  lemma PartsMean(cx: Context, env: seq<Meaning>, e: Expr, ms: seq<Meaning>)
    requires (e.ArrayLiteral? || e.UnionLiteral?) && AllMean(cx, env, e.values, ms)
    ensures Means(cx, env, e, false, Compound(if e.ArrayLiteral? then Array else Kind.Union(e.tag), ms))
  {
    hide Eval, Worth, HasMeaning;
    EvalParts(WorldOf(cx), e, env);
    ListMeans(cx, env, e.values, ms);
    var r := EvalList(WorldOf(cx), e.values, env);
    AppliedWorth(cx, e, env, r.out);
    hide EvalList;
    WorthOfParts(cx.base, env, e, r.out, ms);
  }

  lemma WorthOfParts(b: Base, env: seq<Meaning>, e: Expr, vs: seq<Seen>, ms: seq<Meaning>)
    requires (e.ArrayLiteral? || e.UnionLiteral?) && |vs| == |e.values| && AreMeanings(vs, ms)
    ensures Worth(b, e, env, vs) == Some(Seen(false, Compound(if e.ArrayLiteral? then Array else Kind.Union(e.tag), ms)))
  {
    assert Whats(vs) == ms;
  }

  /** A struct literal has the value of each field in the place of the field, whatever order they are written in. */
  lemma StructMeans(cx: Context, env: seq<Meaning>, fields: seq<Field>, ms: seq<Meaning>)
    requires EachFieldOnce(fields) && |ms| == |fields|
    requires forall k | 0 <= k < |fields| :: fields[k].index < |ms| && HasMeaning(cx, env, fields[k].value, ms[fields[k].index])
    ensures Means(cx, env, StructLiteral(fields), false, Compound(Struct, ms))
  {
    hide Eval, Worth, HasMeaning, EachFieldOnce;
    var order := FieldOrder(fields, |fields|);
    FieldsInPlace(fields, |fields|);
    hide FieldOrder;
    assert AllMean(cx, env, order, ms) by {
      forall i: nat | i < |order| ensures HasMeaning(cx, env, order[i], ms[i]) {
        var k := FieldWithIndex(fields, i);
      }
    }
    EvalStruct(WorldOf(cx), fields, order, env);
    ListMeans(cx, env, order, ms);
    var r := EvalList(WorldOf(cx), order, env);
    AppliedWorth(cx, StructLiteral(fields), env, r.out);
    hide EvalList;
    StructWorth(cx, env, fields, r.out, ms);
  }

  lemma StructWorth(cx: Context, env: seq<Meaning>, fields: seq<Field>, vs: seq<Seen>, ms: seq<Meaning>)
    requires EachFieldOnce(fields) && |vs| == |fields| && AreMeanings(vs, ms)
    ensures Worth(cx.base, StructLiteral(fields), env, vs) == Some(Seen(false, Compound(Struct, ms)))
  {
    FieldsInPlace(fields, |fields|);
    assert Whats(vs) == ms;
  }

  /** Selecting a field of a struct literal gives what was written for that field. */
  lemma SelectOfLiteral(cx: Context, env: seq<Meaning>, fields: seq<Field>, ms: seq<Meaning>, field: nat)
    requires EachFieldOnce(fields) && |ms| == |fields| && field < |fields|
    requires forall k | 0 <= k < |fields| :: fields[k].index < |ms| && HasMeaning(cx, env, fields[k].value, ms[fields[k].index])
    ensures Means(cx, env, Select(field, StructLiteral(fields)), false, ms[field])
  {
    hide Eval, Means, EachFieldOnce;
    StructMeans(cx, env, fields, ms);
    SelectMeans(cx, env, field, StructLiteral(fields), false, Compound(Struct, ms));
  }

  /** Indexing an array literal gives what was written in that place. */
  lemma IndexOfLiteral(cx: Context, env: seq<Meaning>, values: seq<Expr>, ms: seq<Meaning>, index: Expr, i: nat)
    requires AllMean(cx, env, values, ms) && MeansInt(cx, env, index, i) && i < |values|
    ensures Means(cx, env, Indexing(ArrayLiteral(values), index), false, ms[i])
  {
    hide Eval, Means, MeansInt;
    PartsMean(cx, env, ArrayLiteral(values), ms);
    IndexMeans(cx, env, ArrayLiteral(values), index, false, Compound(Array, ms), i);
  }

  /** An element of a concatenation is one of the left operand, or else of the right one. */
  lemma IndexOfJoin(cx: Context, env: seq<Meaning>, l: Expr, r: Expr, refL: bool, a: Meaning, refR: bool, b: Meaning, index: Expr, i: nat)
    requires Means(cx, env, l, refL, a) && Means(cx, env, r, refR, b) && MeansInt(cx, env, index, i)
    requires IsSequence(a) && IsSequence(b) && a.kind == b.kind && i < |a.parts| + |b.parts|
    ensures Means(cx, env, Indexing(Binary(CONCATENATE, l, r), index), false, if i < |a.parts| then a.parts[i] else b.parts[i - |a.parts|])
  {
    hide Eval, Means, MeansInt;
    JoinMeans(cx, env, l, r, refL, a, refR, b);
    IndexMeans(cx, env, Binary(CONCATENATE, l, r), index, false, Compound(a.kind, a.parts + b.parts), i);
  }

  /** An element of a slice is the one as far from its start. */
  lemma IndexOfSlice(cx: Context, env: seq<Meaning>, subject: Expr, from: Expr, to: Expr, ref: bool, a: Meaning, f: int, u: int, index: Expr, i: nat)
    requires Means(cx, env, subject, ref, a) && MeansInt(cx, env, from, f) && MeansInt(cx, env, to, u) && MeansInt(cx, env, index, i)
    requires IsSequence(a) && 0 <= f && f + i < u <= |a.parts|
    ensures Means(cx, env, Indexing(Slicing(subject, from, to), index), false, a.parts[f + i])
  {
    hide Eval, Means, MeansInt;
    SliceMeans(cx, env, subject, from, to, ref, a, f, u);
    var m :| IsSlice(m, a, f, u) && Means(cx, env, Slicing(subject, from, to), false, m);
    IndexMeans(cx, env, Slicing(subject, from, to), index, false, m, i);
  }

  // ---- calls ----

  lemma CallOne(cx: Context, env: seq<Meaning>, m: Method, argument: Expr, ref: bool, a: Meaning)
    requires Means(cx, env, argument, ref, a)
    ensures Eval(WorldOf(cx), Call(m, [argument]), env) == Perform(WorldOf(cx), Call(m, [argument]), env, [Seen(ref, a)])
  {
    hide Eval, Perform, EvalList, Operand, WorldOf;
    EvalCall(WorldOf(cx), m, [argument], env);
    OneOperand(WorldOf(cx), argument, env);
    OperandMeans(cx, env, argument, ref, a);
  }

  /** `length` is the number of parts. */
  lemma LengthMeans(cx: Context, env: seq<Meaning>, argument: Expr, ref: bool, a: Meaning)
    requires Means(cx, env, argument, ref, a) && a.Compound? && (a.kind == Array || a.kind == String) && |a.parts| < 0x1_0000_0000
    ensures Means(cx, env, Call(Length, [argument]), false, Meaning.Plain(Integer(UInt32, |a.parts|)))
  {
    CallOne(cx, env, Length, argument, ref, a);
    hide Eval;
  }

  /** `create` gives a message of so many zeros, and panics for a negative length. */
  lemma CreateMeans(cx: Context, env: seq<Meaning>, argument: Expr, n: int)
    requires MeansInt(cx, env, argument, n)
    ensures var e := Call(Create, [argument]);
      if n < 0 then Panics(cx, env, e)
      else Means(cx, env, e, false, Compound(Message, seq(n, _ => Meaning.Plain(Integer(UInt8, 0)))))
  {
    var ref, ty :| Means(cx, env, argument, ref, Meaning.Plain(Integer(ty, n)));
    CallOne(cx, env, Create, argument, ref, Meaning.Plain(Integer(ty, n)));
    hide Eval;
    if n >= 0 { assert Plains(Zeros(n)) == seq(n, _ => Meaning.Plain(Integer(UInt8, 0))); }
  }

  /** `get` gives the message received on the port, byte by byte, and blocks as long as there is none. */
  lemma GetMeans(cx: Context, env: seq<Meaning>, port: Expr, ref: bool, p: nat)
    requires Means(cx, env, port, ref, Meaning.Plain(Input(p)))
    ensures var e := Call(Get, [port]); var bytes := cx.inbox(p);
      if bytes == None then Eval(WorldOf(cx), e, env).Blocked?
      else Means(cx, env, e, false, Compound(Message, seq(|bytes.value|, i requires 0 <= i < |bytes.value| => Meaning.Plain(Integer(UInt8, bytes.value[i])))))
  {
    CallOne(cx, env, Get, port, ref, Meaning.Plain(Input(p)));
    hide Eval;
    if cx.inbox(p).Some? {
      var bytes := cx.inbox(p).value;
      assert Plains(Bytes(bytes)) == seq(|bytes|, i requires 0 <= i < |bytes| => Meaning.Plain(Integer(UInt8, bytes[i])));
    }
  }

  /** `fires` answers whether the port fires, and blocks as long as that is open. */
  lemma FiresMeans(cx: Context, env: seq<Meaning>, port: Expr, ref: bool, p: nat, input: bool)
    requires Means(cx, env, port, ref, Meaning.Plain(if input then Input(p) else Output(p)))
    ensures var e := Call(Method.Fires, [port]);
      if cx.fires(p) == None then Eval(WorldOf(cx), e, env).Blocked? else Means(cx, env, e, false, Meaning.Plain(Bool(cx.fires(p).value)))
  {
    CallOne(cx, env, Method.Fires, port, ref, Meaning.Plain(if input then Input(p) else Output(p)));
    hide Eval;
  }

  /** `assert` goes on if its argument holds, and otherwise the branch is inconsistent. */
  lemma AssertMeans(cx: Context, env: seq<Meaning>, argument: Expr, b: bool)
    requires Means(cx, env, argument, false, Meaning.Plain(Bool(b))) || Means(cx, env, argument, true, Meaning.Plain(Bool(b)))
    ensures Eval(WorldOf(cx), Call(Assert, [argument]), env) == if b then Done(env, []) else Stopped(Inconsistent)
  {
    hide Eval;
    var ref :| Means(cx, env, argument, ref, Meaning.Plain(Bool(b)));
    CallOne(cx, env, Assert, argument, ref, Meaning.Plain(Bool(b)));
  }

  /** `put` sends a message, its second argument, on the port, its first one: it goes on once the put has been done. */
  lemma PutMeans(cx: Context, env: seq<Meaning>, port: Expr, message: Expr, refP: bool, p: nat, refM: bool, parts: seq<Meaning>)
    requires Means(cx, env, port, refP, Meaning.Plain(Output(p))) && Means(cx, env, message, refM, Compound(Message, parts))
    ensures var r := Eval(WorldOf(cx), Call(Put, [port, message]), env); if p in cx.did then r == Done(env, []) else r.Blocked?
  {
    hide Eval, Operand;
    EvalCall(WorldOf(cx), Put, [port, message], env);
    LastOperand(WorldOf(cx), [port], message, env);
    assert [port] + [message] == [port, message];
    OneOperand(WorldOf(cx), port, env);
    OperandMeans(cx, env, port, refP, Meaning.Plain(Output(p)));
    OperandMeans(cx, env, message, refM, Compound(Message, parts));
    hide EvalList;
    assert [Seen(refP, Meaning.Plain(Output(p)))] + [Seen(refM, Compound(Message, parts))]
        == [Seen(refP, Meaning.Plain(Output(p))), Seen(refM, Compound(Message, parts))];
  }

  /** A cast to a type that is no scalar leaves the meaning. */
  lemma CastMeans(cx: Context, env: seq<Meaning>, target: nat, subject: Expr, ref: bool, a: Meaning)
    requires Means(cx, env, subject, ref, a) && !cx.base.scalarType(target)
    ensures Means(cx, env, Cast(target, subject), false, a)
  {
    hide Eval, Operand;
    EvalCast(WorldOf(cx), target, subject, env);
    OperandMeans(cx, env, subject, ref, a);
    AppliedWorth(cx, Cast(target, subject), env, [Seen(ref, a)]);
  }

  /** Only the branch that is chosen matters. */
  lemma ConditionalMeans(cx: Context, env: seq<Meaning>, test: Expr, b: bool, yes: Expr, no: Expr)
    requires Means(cx, env, test, false, Meaning.Plain(Bool(b)))
    ensures Eval(WorldOf(cx), Conditional(test, yes, no), env) == Eval(WorldOf(cx), if b then yes else no, env)
  {
    hide Eval, Operand;
    EvalConditional(WorldOf(cx), test, yes, no, env);
    OperandMeans(cx, env, test, false, Meaning.Plain(Bool(b)));
  }
}
