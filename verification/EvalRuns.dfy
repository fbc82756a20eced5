/** Expressions on the store. The instructions of an expression run on the value deque of a frame, whose values own
    regions or refer to variables; what they compute is what recursive evaluation gives on the meanings of the
    variables, and no region is lost or shared on the way. */
module EvalRuns {
  import opened Network
  import opened Values
  import opened Stores
  import opened Operators
  import opened EvalStores
  import opened Expressions
  import opened Evaluation
  import opened EvalFrames

  type ScalarValue = v: Value | !v.OnHeap? && !v.Ref? witness Null

  datatype Lit = One(value: ScalarValue) | Text(chars: string)

  /** What a program fixes: its literals, the operators on scalars (which may panic), and the types of its casts. */
  datatype Base = Base(lits: nat -> Lit, scalar: (Expr, seq<Value>) -> Option<ScalarValue>, scalarType: nat -> bool)

  /** What the runtime answers: which ports fire, what has been received, and what has been put. */
  datatype Context = Context(base: Base, fires: nat -> Option<bool>, inbox: nat -> Option<seq<nat>>, did: set<nat>)

  const CONCATENATE: nat := 0
  const EQUALITY: nat := 1
  const INEQUALITY: nat := 2

  /** A value of the deque: whether it is a reference, and what it means. */
  datatype Seen = Seen(ref: bool, what: Meaning)

  function Letters(chars: string): seq<ScalarValue> {
    seq(|chars|, i requires 0 <= i < |chars| => Char(chars[i]))
  }

  function Bytes(bytes: seq<nat>): seq<ScalarValue> {
    seq(|bytes|, i requires 0 <= i < |bytes| => Integer(UInt8, bytes[i]))
  }

  function Zeros(n: nat): seq<ScalarValue> {
    seq(n, _ => Integer(UInt8, 0))
  }

  // ---- evaluation on meanings ----

  ghost function Fresh(m: Option<Meaning>): Option<Seen> {
    if m.Some? then Some(Seen(false, m.value)) else None
  }

  ghost function Whats(args: seq<Seen>): seq<Meaning> {
    seq(|args|, i requires 0 <= i < |args| => args[i].what)
  }

  ghost predicate AllScalar(args: seq<Seen>) {
    forall i | 0 <= i < |args| :: args[i].what.Plain?
  }

  ghost function Scalars(args: seq<Seen>): seq<Value>
    requires AllScalar(args)
  {
    seq(|args|, i requires 0 <= i < |args| => args[i].what.value)
  }

  ghost function ScalarResult(b: Base, e: Expr, args: seq<Seen>): Option<Seen> {
    if !AllScalar(args) then None
    else match b.scalar(e, Scalars(args))
      case None => None
      case Some(v) => Some(Seen(false, Meaning.Plain(v)))
  }

  ghost function IndexOf(v: Seen): Option<int> {
    if v.what.Plain? && v.what.value.Integer? then Some(v.what.value.n) else None
  }

  ghost function PartSeenAs(subject: Seen, field: bool, index: int): Option<Seen> {
    match PartOf(subject.what, field, index)
    case None => None
    case Some(m) => Some(Seen(subject.ref, m))
  }

  ghost function BinaryResult(b: Base, e: Expr, op: nat, args: seq<Seen>): Option<Seen>
    requires |args| == 2
  {
    if op == CONCATENATE then Fresh(JoinOf(args[0].what, args[1].what))
    else if op == EQUALITY || op == INEQUALITY then
      match Compared(args[0].what, args[1].what)
      case None => None
      case Some(same) => Some(Seen(false, Meaning.Plain(Bool(same == (op == EQUALITY)))))
    else ScalarResult(b, e, args)
  }

  /** What an expression is worth, given the meanings of the variables and of its operands. */
  ghost function Worth(b: Base, e: Expr, env: seq<Meaning>, args: seq<Seen>): Option<Seen> {
    if |args| != |Subs(e)| then None
    else match e
      case Variable(id) => if id < |env| then Some(Seen(true, env[id])) else None
      case Literal(id) =>
        (match b.lits(id)
         case One(v) => Some(Seen(false, Meaning.Plain(v)))
         case Text(chars) => Some(Seen(false, Compound(String, Plains(Letters(chars))))))
      case StructLiteral(_) => Some(Seen(false, Compound(Struct, Whats(args))))
      case UnionLiteral(tag, _) => Some(Seen(false, Compound(Kind.Union(tag), Whats(args))))
      case ArrayLiteral(_) => Some(Seen(false, Compound(Array, Whats(args))))
      case Binary(op, _, _) => BinaryResult(b, e, op, args)
      case Unary(_, _) => ScalarResult(b, e, args)
      case Cast(target, _) => if b.scalarType(target) then ScalarResult(b, e, args) else Some(Seen(false, args[0].what))
      case Indexing(_, _) => if IndexOf(args[0]) == None then None else PartSeenAs(args[1], false, IndexOf(args[0]).value)
      case Select(field, _) => PartSeenAs(args[0], true, field)
      case Slicing(_, _, _) =>
        if IndexOf(args[0]) == None || IndexOf(args[1]) == None then None
        else Fresh(SliceOf(args[2].what, IndexOf(args[0]).value, IndexOf(args[1]).value))
      case Call(m, _) => if |args| == 1 then CallWorth(m, args[0]) else None
      case _ => None
  }

  ghost function CallWorth(m: Method, arg: Seen): Option<Seen> {
    if m == Create then
      (if IndexOf(arg) == None || IndexOf(arg).value < 0 then None
       else Some(Seen(false, Compound(Message, Plains(Zeros(IndexOf(arg).value))))))
    else if m == Length && arg.what.Compound? && (arg.what.kind == Array || arg.what.kind == String) then
      Some(Seen(false, Meaning.Plain(Integer(UInt32, |arg.what.parts| % 0x1_0000_0000))))
    else None
  }

  ghost function Operator(b: Base): (Expr, seq<Meaning>, seq<Seen>) -> Option<(seq<Meaning>, Seen)> {
    (e, env, args) => match Worth(b, e, env, args)
      case None => None
      case Some(v) => Some((env, v))
  }

  ghost function Truth(): Seen -> Option<bool> {
    (v: Seen) => if v.what.Plain? && v.what.value.Bool? && !v.ref then Some(v.what.value.b) else None
  }

  ghost function Deref(): (seq<Meaning>, Seen) -> Seen {
    (env: seq<Meaning>, v: Seen) => Seen(false, v.what)
  }

  ghost function IsMessage(): Seen -> bool {
    (v: Seen) => v.what.Compound? && v.what.kind == Message
  }

  ghost function Dropped(): (seq<Meaning>, Seen) -> seq<Meaning> {
    (env: seq<Meaning>, v: Seen) => env
  }

  ghost function Gets(cx: Context, env: seq<Meaning>, v: Seen): Reply<(seq<Meaning>, Seen)> {
    if !v.what.Plain? || !v.what.value.Input? then Unfit
    else match cx.inbox(v.what.value.port)
      case None => NotYet
      case Some(bytes) => Given((env, Seen(false, Compound(Message, Plains(Bytes(bytes))))))
  }

  ghost function Fires(cx: Context, v: Seen): Reply<Seen> {
    if !v.what.Plain? || !(v.what.value.Input? || v.what.value.Output?) then Unfit
    else match cx.fires(v.what.value.port)
      case None => NotYet
      case Some(b) => Given(Seen(false, Meaning.Plain(Bool(b))))
  }

  ghost function DidPut(cx: Context, v: Seen): Reply<()> {
    if !v.what.Plain? || !v.what.value.Output? then Unfit
    else if v.what.value.port in cx.did then Given(()) else NotYet
  }

  /** Evaluation on meanings, in which variables are the meanings of the slots. */
  ghost function WorldOf(cx: Context): World<seq<Meaning>, Seen> {
    World(Operator(cx.base), Truth(), Deref(), IsMessage(), Dropped(),
          (env, v) => Gets(cx, env, v), v => Fires(cx, v), v => DidPut(cx, v))
  }

  // ---- the deque and the variables as meanings ----

  ghost function Seens(values: seq<Value>, trees: seq<Tree>): (r: seq<Seen>)
    requires |values| == |trees|
    ensures |r| == |values|
  {
    seq(|values|, i requires 0 <= i < |values| => Seen(values[i].Ref?, MeaningOf(trees[i])))
  }

  ghost function Env(boundary: nat, slots: seq<Tree>): seq<Meaning> {
    if boundary + 1 <= |slots| then MeaningsOf(slots[boundary + 1..]) else []
  }

  ghost function Now(ev: Evaluator): seq<Seen>
    requires |ev.values| == |ev.trees|
    reads ev
  {
    Seens(ev.values, ev.trees)
  }

  ghost function Vars(ev: Evaluator): seq<Meaning>
    reads ev, ev.store
  {
    Env(ev.store.boundary, ev.store.slots)
  }

  lemma SeensLeaves(ev: Evaluator, vs: seq<Value>, ts: seq<Tree>, ref: bool, m: Meaning)
    requires |vs| == |ts| && ev.Leaves(vs, ts, ref, m)
    ensures Now(ev) == Seens(vs, ts) + [Seen(ref, m)]
  {
    hide MeaningOf;
    var n := |vs|;
    forall i | 0 <= i < n ensures Now(ev)[i] == Seens(vs, ts)[i] {
      assert ev.values[..n][i] == vs[i] && ev.trees[..n][i] == ts[i];
    }
  }

  lemma SeensRange(values: seq<Value>, trees: seq<Tree>, from: nat, to: nat)
    requires |values| == |trees| && from <= to <= |values|
    ensures Seens(values[from..to], trees[from..to]) == Seens(values, trees)[from..to]
  {
    hide MeaningOf;
  }

  // ---- one instruction ----

  /** How the deque changes when an expression is performed, its operands being there. */
  ghost predicate Performed(cx: Context, e: Expr, env: seq<Meaning>, before: seq<Seen>, after: seq<Seen>, r: Outcome)
    requires |Subs(e)| <= |before|
  {
    var (args, rest) := Taken(e, before, |Subs(e)|);
    var p := Perform(WorldOf(cx), e, env, args);
    match r
    case Finished => p.Done? && p.store == env && after == rest + p.out
    case Waiting => p.Blocked? && after == p.held + rest
    case Failed(why) => p == Stopped(why)
  }

  /** The context is asked about this expression. */
  predicate Asks(e: Expr) {
    e.Call? && (e.method_ == Get || e.method_ == Put || e.method_ == Method.Fires || e.method_ == Assert)
  }

  lemma PerformsWorth(cx: Context, e: Expr, env: seq<Meaning>, args: seq<Seen>)
    requires !Asks(e) && !Silent(e)
    ensures Perform(WorldOf(cx), e, env, args) ==
      match Worth(cx.base, e, env, args) case None => Stopped(Error) case Some(v) => Done(env, [v])
  {
    hide Worth;
  }

  /** The expression has a worth, and it is on the deque. */
  lemma Worthy(cx: Context, e: Expr, env: seq<Meaning>, before: seq<Seen>, args: seq<Seen>, rest: seq<Seen>, after: seq<Seen>, v: Option<Seen>)
    requires !Asks(e) && !Silent(e) && |Subs(e)| <= |before| && (args, rest) == Taken(e, before, |Subs(e)|)
    requires v == Worth(cx.base, e, env, args) && (v.Some? ==> after == rest + [v.value])
    ensures Performed(cx, e, env, before, after, if v.Some? then Finished else Failed(Error))
  {
    hide Worth, Perform, Taken, WorldOf, Subs;
    PerformsWorth(cx, e, env, args);
  }

  /** The last `n` values, the last one first, and the others. */
  ghost function Backs(vals: seq<Seen>, n: nat): seq<Seen>
    requires n <= |vals|
  {
    seq(n, i requires 0 <= i < n => vals[|vals| - 1 - i])
  }

  lemma TakenBack(e: Expr, vals: seq<Seen>, n: nat)
    requires !Rotated(e) && n <= |vals|
    ensures Taken(e, vals, n) == (Backs(vals, n), vals[..|vals| - n])
  {
    ReverseAt(vals[|vals| - n..]);
    assert Reverse(vals[|vals| - n..]) == Backs(vals, n);
  }

  lemma {:induction false} ReverseAt(s: seq<Seen>)
    ensures forall i | 0 <= i < |s| :: Reverse(s)[i] == s[|s| - 1 - i]
    decreases |s|
  {
    if s != [] { ReverseAt(s[1..]); }
  }

  /** What is read of the value at `i`. */
  lemma ReadsAs(ev: Evaluator, i: nat)
    requires ev.Valid() && i < |ev.values|
    ensures Denotes(ev.store, ev.values[i], ev.trees[i])
    ensures var v := ev.store.MaybeReadRef(ev.values[i]);
      if v.OnHeap? then
        && Now(ev)[i].what.Compound? && Now(ev)[i].what.kind == v.kind && v.pos < |ev.store.regions|
        && |Now(ev)[i].what.parts| == |ev.store.regions[v.pos]|
      else Now(ev)[i].what == Meaning.Plain(v) && !v.Ref?
  {
    hide Ok, MeaningOf, MeaningsOf, Sees, Owned;
    ev.Looks(i);
    var t := ev.trees[i];
    TopMeaning(t);
    hide Readable;
    if t.Node? { PartsHold(ev.store.regions, t); }
  }

  /** An operator has left its result in place of its `n` operands. */
  lemma BackDone(ev: Evaluator, cx: Context, e: Expr, n: nat, values: seq<Value>, trees: seq<Tree>, ref: bool, m: Meaning)
    requires !Rotated(e) && !Silent(e) && n == |Subs(e)| <= |values| == |trees|
    requires ev.Leaves(values[..|values| - n], trees[..|values| - n], ref, m)
    requires Worth(cx.base, e, Vars(ev), Backs(Seens(values, trees), n)) == Some(Seen(ref, m))
    ensures Performed(cx, e, Vars(ev), Seens(values, trees), Now(ev), Finished)
  {
    hide Worth, Seens, Performed, Taken, Subs, MeaningOf, MeaningsOf, Env;
    var before := Seens(values, trees);
    TakenBack(e, before, n);
    SeensLeaves(ev, values[..|values| - n], trees[..|values| - n], ref, m);
    SeensRange(values, trees, 0, |values| - n);
    assert values[0..|values| - n] == values[..|values| - n] && trees[0..|values| - n] == trees[..|values| - n];
    assert before[0..|values| - n] == before[..|values| - n];
    Worthy(cx, e, Vars(ev), before, Backs(before, n), before[..|before| - n], Now(ev), Some(Seen(ref, m)));
  }

  lemma BackFails(cx: Context, e: Expr, n: nat, env: seq<Meaning>, before: seq<Seen>, after: seq<Seen>)
    requires !Rotated(e) && !Silent(e) && n == |Subs(e)| <= |before| && Worth(cx.base, e, env, Backs(before, n)) == None
    ensures Performed(cx, e, env, before, after, Failed(Error))
  {
    hide Worth, Performed, Taken, Subs;
    TakenBack(e, before, n);
    Worthy(cx, e, env, before, Backs(before, n), before[..|before| - n], after, None);
  }

  method PerformVariable(ev: Evaluator, cx: Context, e: Expr) returns (r: Outcome)
    requires ev.Valid() && e.Variable?
    modifies ev`values, ev`trees, ev.store`regions, ev.store`free
    ensures ev.Valid() && Performed(cx, e, Vars(ev), old(Now(ev)), Now(ev), r)
  {
    hide Ok, MeaningOf, MeaningsOf, Sees, Owned, Performed, Seens, Env;
    VariableMeaning(ev, e.id);
    if ev.store.boundary + 1 + e.id >= |ev.store.stack| {
      BackFails(cx, e, 0, Vars(ev), Now(ev), Now(ev));
      return Failed(Error);
    }
    ev.Variable(e.id);
    assert old(ev.values)[..|old(ev.values)|] == old(ev.values) && old(ev.trees)[..|old(ev.values)|] == old(ev.trees);
    BackDone(ev, cx, e, 0, old(ev.values), old(ev.trees), true, Vars(ev)[e.id]);
    r := Finished;
  }

  method PerformLiteral(ev: Evaluator, cx: Context, e: Expr) returns (r: Outcome)
    requires ev.Valid() && e.Literal?
    modifies ev`values, ev`trees, ev.store`regions, ev.store`free
    ensures ev.Valid() && Performed(cx, e, Vars(ev), old(Now(ev)), Now(ev), r)
  {
    hide Ok, MeaningsOf, Sees, Owned, Performed, Seens, Env, Plains;
    ghost var m: Meaning;
    match cx.base.lits(e.id) {
      case One(v) => ev.Plain(v); m := Meaning.Plain(v);
      case Text(chars) => ev.Row(String, Letters(chars)); m := Compound(String, Plains(Letters(chars)));
    }
    assert old(ev.values)[..|old(ev.values)|] == old(ev.values) && old(ev.trees)[..|old(ev.values)|] == old(ev.trees);
    BackDone(ev, cx, e, 0, old(ev.values), old(ev.trees), false, m);
    r := Finished;
  }

  method PerformBinary(ev: Evaluator, cx: Context, e: Expr) returns (r: Outcome)
    requires ev.Valid() && e.Binary? && |ev.values| >= 2
    modifies ev`values, ev`trees, ev.store`regions, ev.store`free
    ensures ev.Valid() && Performed(cx, e, Vars(ev), old(Now(ev)), Now(ev), r)
  {
    hide Ok, MeaningOf, MeaningsOf, Sees, Owned, Performed, Env, Compared;
    ghost var values, trees := ev.values, ev.trees;
    ghost var args := Backs(Now(ev), 2);
    ghost var w := BinaryResult(cx.base, e, e.op, args);
    var ok;
    if e.op == CONCATENATE {
      ok := ev.Concat();
    } else if e.op == EQUALITY || e.op == INEQUALITY {
      ok := ev.Compare(e.op == EQUALITY);
    } else {
      r := PerformScalar(ev, cx, e);
      return;
    }
    if !ok {
      BackFails(cx, e, 2, Vars(ev), Seens(values, trees), Now(ev));
      return Failed(Error);
    }
    BackDone(ev, cx, e, 2, values, trees, false, w.value.what);
    r := Finished;
  }

  /** The last `n` values, the last one first, if they are all scalars. */
  method ReadScalars(ev: Evaluator, n: nat) returns (scalars: Option<seq<Value>>)
    requires ev.Valid() && n <= |ev.values|
    ensures scalars.Some? <==> AllScalar(Backs(Now(ev), n))
    ensures scalars.Some? ==> scalars.value == Scalars(Backs(Now(ev), n))
  {
    hide Ok, MeaningOf, MeaningsOf, Sees, Owned, Seens;
    var size := |ev.values|;
    ghost var args := Backs(Now(ev), n);
    var read: seq<Value> := [];
    for k := 0 to n
      invariant |read| == k && forall i | 0 <= i < k :: args[i].what == Meaning.Plain(read[i])
    {
      ReadsAs(ev, size - 1 - k);
      var v := ev.store.MaybeReadRef(ev.values[size - 1 - k]);
      if v.OnHeap? {
        assert !args[k].what.Plain?;
        return None;
      }
      read := read + [v];
    }
    assert read == Scalars(args);
    scalars := Some(read);
  }

  /** Operators on scalars, of one or two operands. */
  method PerformScalar(ev: Evaluator, cx: Context, e: Expr) returns (r: Outcome)
    requires ev.Valid() && |Subs(e)| <= |ev.values|
    requires (e.Binary? && e.op != CONCATENATE && e.op != EQUALITY && e.op != INEQUALITY) || e.Unary? || (e.Cast? && cx.base.scalarType(e.target))
    modifies ev`values, ev`trees, ev.store`regions, ev.store`free
    ensures ev.Valid() && Performed(cx, e, Vars(ev), old(Now(ev)), Now(ev), r)
  {
    hide Ok, MeaningOf, MeaningsOf, Sees, Owned, Performed, Env, Seens;
    ghost var values, trees, env, before := ev.values, ev.trees, Vars(ev), Now(ev);
    ghost var args := Backs(before, |Subs(e)|);
    assert Worth(cx.base, e, env, args) == ScalarResult(cx.base, e, args);
    hide Worth;
    var scalars := ReadScalars(ev, |Subs(e)|);
    var v := if scalars == None then None else cx.base.scalar(e, scalars.value);
    if v == None {
      BackFails(cx, e, |Subs(e)|, env, before, before);
      return Failed(Error);
    }
    ev.Scalar(v.value, |Subs(e)|);
    BackDone(ev, cx, e, |Subs(e)|, values, trees, false, Meaning.Plain(v.value));
    r := Finished;
  }

  method PerformCast(ev: Evaluator, cx: Context, e: Expr) returns (r: Outcome)
    requires ev.Valid() && e.Cast? && |ev.values| >= 1
    modifies ev`values, ev`trees, ev.store`regions, ev.store`free
    ensures ev.Valid() && Performed(cx, e, Vars(ev), old(Now(ev)), Now(ev), r)
  {
    hide Ok, MeaningOf, MeaningsOf, Sees, Owned, Performed, Env;
    if cx.base.scalarType(e.target) {
      r := PerformScalar(ev, cx, e);
      return;
    }
    ghost var values, trees := ev.values, ev.trees;
    ev.Copy();
    BackDone(ev, cx, e, 1, values, trees, false, MeaningOf(trees[|trees| - 1]));
    r := Finished;
  }

  method PerformSelect(ev: Evaluator, cx: Context, e: Expr) returns (r: Outcome)
    requires ev.Valid() && e.Select? && |ev.values| >= 1
    modifies ev`values, ev`trees, ev.store`regions, ev.store`free
    ensures ev.Valid() && Performed(cx, e, Vars(ev), old(Now(ev)), Now(ev), r)
  {
    hide Ok, MeaningOf, MeaningsOf, Sees, Owned, Performed, Env;
    ghost var values, trees := ev.values, ev.trees;
    ghost var part := PartSeenAs(Backs(Now(ev), 1)[0], true, e.field);
    var ok := ev.Element(true, e.field);
    if !ok {
      BackFails(cx, e, 1, Vars(ev), Seens(values, trees), Now(ev));
      return Failed(Error);
    }
    BackDone(ev, cx, e, 1, values, trees, part.value.ref, part.value.what);
    r := Finished;
  }

  method ReadIndex(ev: Evaluator, i: nat) returns (index: Option<int>)
    requires ev.Valid() && i < |ev.values|
    ensures index == IndexOf(Now(ev)[i])
  {
    hide Ok, MeaningOf, MeaningsOf, Sees, Owned, Seens;
    ReadsAs(ev, i);
    var v := ev.store.MaybeReadRef(ev.values[i]);
    index := if v.Integer? then Some(v.n) else None;
  }

  method PerformIndexing(ev: Evaluator, cx: Context, e: Expr) returns (r: Outcome)
    requires ev.Valid() && e.Indexing? && |ev.values| >= 2
    modifies ev`values, ev`trees, ev.store`regions, ev.store`free
    ensures ev.Valid() && Performed(cx, e, Vars(ev), old(Now(ev)), Now(ev), r)
  {
    hide Ok, MeaningOf, MeaningsOf, Sees, Owned, Performed, Env, Seens;
    ghost var before := Now(ev);
    var index := ReadIndex(ev, |ev.values| - 1);
    if index == None {
      IndexingWorth(cx.base, e, Vars(ev), Backs(before, 2));
      hide Worth;
      BackFails(cx, e, 2, Vars(ev), before, before);
      return Failed(Error);
    }
    hide Worth;
    r := ElementAt(ev, cx, e, index.value);
  }

  method ElementAt(ev: Evaluator, cx: Context, e: Expr, index: int) returns (r: Outcome)
    requires ev.Valid() && e.Indexing? && |ev.values| >= 2 && IndexOf(Now(ev)[|ev.values| - 1]) == Some(index)
    modifies ev`values, ev`trees, ev.store`regions, ev.store`free
    ensures ev.Valid() && Performed(cx, e, Vars(ev), old(Now(ev)), Now(ev), r)
  {
    hide Ok, MeaningOf, MeaningsOf, Sees, Owned, Performed, Env, Worth;
    ghost var values, trees, before, n := ev.values, ev.trees, Now(ev), |ev.values|;
    ghost var whole := Seen(values[n - 2].Ref?, MeaningOf(trees[n - 2]));
    IndexingWorth(cx.base, e, Vars(ev), Backs(before, 2));
    assert Worth(cx.base, e, Vars(ev), Backs(before, 2)) == PartSeenAs(whole, false, index);
    hide Seens, Backs, PartOf;
    ev.Pop(1);
    Shorter(values, n - 1, n - 2);
    Shorter(trees, n - 1, n - 2);
    var ok := ev.Element(false, index);
    if !ok {
      BackFails(cx, e, 2, Vars(ev), before, Now(ev));
      return Failed(Error);
    }
    BackDone(ev, cx, e, 2, values, trees, whole.ref, PartOf(whole.what, false, index).value);
    r := Finished;
  }

  lemma Shorter<T>(s: seq<T>, n: nat, k: nat)
    requires k <= n <= |s|
    ensures s[..n][..k] == s[..k]
  {
  }

  lemma IndexingWorth(b: Base, e: Expr, env: seq<Meaning>, args: seq<Seen>)
    requires e.Indexing? && |args| == 2
    ensures IndexOf(args[0]) == None ==> Worth(b, e, env, args) == None
    ensures IndexOf(args[0]).Some? ==> Worth(b, e, env, args) == PartSeenAs(args[1], false, IndexOf(args[0]).value)
  {
  }

  method PerformSlicing(ev: Evaluator, cx: Context, e: Expr) returns (r: Outcome)
    requires ev.Valid() && e.Slicing? && |ev.values| >= 3
    modifies ev`values, ev`trees, ev.store`regions, ev.store`free
    ensures ev.Valid() && Performed(cx, e, Vars(ev), old(Now(ev)), Now(ev), r)
  {
    hide Ok, MeaningOf, MeaningsOf, Sees, Owned, Performed, Env, Seens;
    ghost var before := Now(ev);
    var n := |ev.values|;
    var from := ReadIndex(ev, n - 1);
    var to := ReadIndex(ev, n - 2);
    if from == None || to == None {
      SlicingWorth(cx.base, e, Vars(ev), Backs(before, 3));
      hide Worth;
      BackFails(cx, e, 3, Vars(ev), before, before);
      return Failed(Error);
    }
    hide Worth;
    r := SliceBetween(ev, cx, e, from.value, to.value);
  }

  method SliceBetween(ev: Evaluator, cx: Context, e: Expr, from: int, to: int) returns (r: Outcome)
    requires ev.Valid() && e.Slicing? && |ev.values| >= 3
    requires IndexOf(Now(ev)[|ev.values| - 1]) == Some(from) && IndexOf(Now(ev)[|ev.values| - 2]) == Some(to)
    modifies ev`values, ev`trees, ev.store`regions, ev.store`free
    ensures ev.Valid() && Performed(cx, e, Vars(ev), old(Now(ev)), Now(ev), r)
  {
    hide Ok, MeaningOf, MeaningsOf, Sees, Owned, Performed, Env, Worth;
    ghost var values, trees, before, n := ev.values, ev.trees, Now(ev), |ev.values|;
    ghost var whole := MeaningOf(trees[n - 3]);
    SlicingWorth(cx.base, e, Vars(ev), Backs(before, 3));
    assert Worth(cx.base, e, Vars(ev), Backs(before, 3)) == Fresh(SliceOf(whole, from, to));
    hide Seens, Backs, SliceOf;
    ev.Pop(2);
    Shorter(values, n - 2, n - 3);
    Shorter(trees, n - 2, n - 3);
    var ok := ev.SliceLast(from, to);
    if !ok {
      BackFails(cx, e, 3, Vars(ev), before, Now(ev));
      return Failed(Error);
    }
    BackDone(ev, cx, e, 3, values, trees, false, SliceOf(whole, from, to).value);
    r := Finished;
  }

  lemma SlicingWorth(b: Base, e: Expr, env: seq<Meaning>, args: seq<Seen>)
    requires e.Slicing? && |args| == 3
    ensures IndexOf(args[0]) == None || IndexOf(args[1]) == None ==> Worth(b, e, env, args) == None
    ensures IndexOf(args[0]).Some? && IndexOf(args[1]).Some? ==>
      Worth(b, e, env, args) == Fresh(SliceOf(args[2].what, IndexOf(args[0]).value, IndexOf(args[1]).value))
  {
  }

  // ---- arguments in front ----

  /** A call or literal has taken its arguments from the front and left its result at the back. */
  lemma FrontDone(ev: Evaluator, cx: Context, e: Expr, values: seq<Value>, trees: seq<Tree>, m: Meaning)
    requires Rotated(e) && !Asks(e) && |Subs(e)| <= |values| == |trees|
    requires ev.Leaves(values[|Subs(e)|..], trees[|Subs(e)|..], false, m)
    requires Worth(cx.base, e, Vars(ev), Seens(values, trees)[..|Subs(e)|]) == Some(Seen(false, m))
    ensures Performed(cx, e, Vars(ev), Seens(values, trees), Now(ev), Finished)
  {
    hide Worth, Seens, Performed, Subs, MeaningOf, MeaningsOf, Env;
    var before, n := Seens(values, trees), |Subs(e)|;
    SeensLeaves(ev, values[n..], trees[n..], false, m);
    SeensRange(values, trees, n, |values|);
    assert values[n..|values|] == values[n..] && trees[n..|values|] == trees[n..] && before[n..|values|] == before[n..];
    Worthy(cx, e, Vars(ev), before, before[..n], before[n..], Now(ev), Some(Seen(false, m)));
  }

  lemma FrontFails(cx: Context, e: Expr, env: seq<Meaning>, before: seq<Seen>, after: seq<Seen>)
    requires Rotated(e) && !Asks(e) && |Subs(e)| <= |before| && Worth(cx.base, e, env, before[..|Subs(e)|]) == None
    ensures Performed(cx, e, env, before, after, Failed(Error))
  {
    hide Worth, Performed, Subs;
    Worthy(cx, e, env, before, before[..|Subs(e)|], before[|Subs(e)|..], after, None);
  }

  function KindOf(e: Expr): Kind
    requires e.StructLiteral? || e.UnionLiteral? || e.ArrayLiteral?
  {
    match e
    case StructLiteral(_) => Struct
    case UnionLiteral(tag, _) => Kind.Union(tag)
    case ArrayLiteral(_) => Array
  }

  method PerformComposite(ev: Evaluator, cx: Context, e: Expr) returns (r: Outcome)
    requires ev.Valid() && (e.StructLiteral? || e.UnionLiteral? || e.ArrayLiteral?) && |Subs(e)| <= |ev.values|
    modifies ev`values, ev`trees, ev.store`regions, ev.store`free
    ensures ev.Valid() && Performed(cx, e, Vars(ev), old(Now(ev)), Now(ev), r)
  {
    hide Ok, MeaningOf, MeaningsOf, Sees, Owned, Performed, Env, Subs, Seens;
    ghost var values, trees, before := ev.values, ev.trees, Now(ev);
    WhatsAre(values, trees, |Subs(e)|);
    ev.Compose(KindOf(e), |Subs(e)|);
    FrontDone(ev, cx, e, values, trees, Compound(KindOf(e), Whats(before[..|Subs(e)|])));
    r := Finished;
  }

  lemma WhatsAre(values: seq<Value>, trees: seq<Tree>, n: nat)
    requires n <= |values| == |trees|
    ensures Whats(Seens(values, trees)[..n]) == MeaningsOf(trees[..n])
  {
    hide MeaningOf, MeaningsOf;
    MeaningsCount(trees[..n]);
  }

  /** `create` and `length`. */
  method PerformPlainCall(ev: Evaluator, cx: Context, e: Expr) returns (r: Outcome)
    requires ev.Valid() && e.Call? && !Asks(e) && |Subs(e)| <= |ev.values|
    modifies ev`values, ev`trees, ev.store`regions, ev.store`free
    ensures ev.Valid() && Performed(cx, e, Vars(ev), old(Now(ev)), Now(ev), r)
  {
    hide Ok, MeaningOf, MeaningsOf, Sees, Owned, Performed, Env, Seens, Plains;
    ghost var values, trees, before := ev.values, ev.trees, Now(ev);
    if |e.arguments| != 1 {
      FrontFails(cx, e, Vars(ev), before, before);
      return Failed(Error);
    }
    ReadsAs(ev, 0);
    var v := ev.store.MaybeReadRef(ev.values[0]);
    if e.method_ == Create && v.Integer? && v.n >= 0 {
      ev.DropFront();
      ev.Row(Message, Zeros(v.n));
      FrontDone(ev, cx, e, values, trees, Compound(Message, Plains(Zeros(v.n))));
      return Finished;
    }
    if e.method_ == Length && v.OnHeap? && (v.kind == Array || v.kind == String) {
      var size := |ev.store.regions[v.pos]|;
      ev.DropFront();
      ev.Plain(Integer(UInt32, size % 0x1_0000_0000));
      LeafMeaning(Integer(UInt32, size % 0x1_0000_0000));
      FrontDone(ev, cx, e, values, trees, Meaning.Plain(Integer(UInt32, size % 0x1_0000_0000)));
      return Finished;
    }
    FrontFails(cx, e, Vars(ev), before, before);
    r := Failed(Error);
  }

  lemma LeafMeaning(v: Value)
    ensures MeaningOf(Leaf(v)) == Meaning.Plain(v)
  {
  }

  lemma VariableMeaning(ev: Evaluator, pos: nat)
    requires ev.Valid()
    ensures pos < |Vars(ev)| <==> ev.store.boundary + 1 + pos < |ev.store.stack|
    ensures pos < |Vars(ev)| ==> |ev.store.slots| == |ev.store.stack| && Vars(ev)[pos] == MeaningOf(ev.store.slots[ev.store.boundary + 1 + pos])
  {
    hide Ok, MeaningOf, MeaningsOf, Sees, Owned;
    if ev.store.boundary + 1 <= |ev.store.slots| { MeaningsCount(ev.store.slots[ev.store.boundary + 1..]); }
  }

  // ---- calls that ask the context ----

  method PerformGet(ev: Evaluator, cx: Context, e: Expr) returns (r: Outcome)
    requires ev.Valid() && e.Call? && e.method_ == Get && |Subs(e)| <= |ev.values|
    modifies ev`values, ev`trees, ev.store`regions, ev.store`free
    ensures ev.Valid() && Performed(cx, e, Vars(ev), old(Now(ev)), Now(ev), r)
  {
    hide Ok, MeaningOf, MeaningsOf, Sees, Owned, Env, Plains, Seens;
    ghost var values, trees, before := ev.values, ev.trees, Now(ev);
    if |e.arguments| != 1 { return Failed(Error); }
    ReadsAs(ev, 0);
    var port := ev.store.MaybeReadRef(ev.values[0]);
    if !port.Input? { return Failed(Error); }
    ev.DropFront();
    if cx.inbox(port.port) == None {
      ev.Plain(port);
      ev.Rotate();
      FrontIs(ev, values, trees, port);
      return Waiting;
    }
    ev.Row(Message, Bytes(cx.inbox(port.port).value));
    BackIs(ev, values, trees, 1, Compound(Message, Plains(Bytes(cx.inbox(port.port).value))));
    r := Finished;
  }

  /** A scalar takes the place of the first value. */
  lemma FrontIs(ev: Evaluator, values: seq<Value>, trees: seq<Tree>, v: Value)
    requires |values| == |trees| >= 1 && !v.Ref? && ev.values == [v] + values[1..] && ev.trees == [Leaf(v)] + trees[1..]
    ensures Now(ev) == [Seen(false, Meaning.Plain(v))] + Seens(values, trees)[1..]
  {
    hide MeaningOf;
    LeafMeaning(v);
  }

  /** The first `n` values are gone and a new one is at the back. */
  lemma BackIs(ev: Evaluator, values: seq<Value>, trees: seq<Tree>, n: nat, m: Meaning)
    requires n <= |values| == |trees| && ev.Leaves(values[n..], trees[n..], false, m)
    ensures Now(ev) == Seens(values, trees)[n..] + [Seen(false, m)]
  {
    hide MeaningOf;
    SeensLeaves(ev, values[n..], trees[n..], false, m);
    SeensRange(values, trees, n, |values|);
    assert values[n..|values|] == values[n..] && trees[n..|values|] == trees[n..];
  }

  method PerformPut(ev: Evaluator, cx: Context, e: Expr) returns (r: Outcome)
    requires ev.Valid() && e.Call? && e.method_ == Put && |Subs(e)| <= |ev.values|
    modifies ev`values, ev`trees, ev.store`regions, ev.store`free
    ensures ev.Valid() && Performed(cx, e, Vars(ev), old(Now(ev)), Now(ev), r)
  {
    hide Ok, MeaningOf, MeaningsOf, Sees, Owned, Env, Seens;
    ghost var values, trees, before := ev.values, ev.trees, Now(ev);
    if |e.arguments| != 2 { return Failed(Error); }
    ReadsAs(ev, 0);
    ReadsAs(ev, 1);
    var port, message := ev.store.MaybeReadRef(ev.values[0]), ev.store.MaybeReadRef(ev.values[1]);
    if !message.OnHeap? || message.kind != Message { return Failed(Error); }
    if !port.Output? { return Failed(Error); }
    if port.port !in cx.did {
      assert before == before[..2] + before[2..];
      return Waiting;
    }
    ev.DropFront();
    ev.DropFront();
    assert values[1..][1..] == values[2..] && trees[1..][1..] == trees[2..];
    SeensRange(values, trees, 2, |values|);
    assert values[2..|values|] == values[2..] && trees[2..|values|] == trees[2..] && before[2..|values|] == before[2..];
    assert Now(ev) == before[2..] + [];
    r := Finished;
  }

  method PerformFires(ev: Evaluator, cx: Context, e: Expr) returns (r: Outcome)
    requires ev.Valid() && e.Call? && e.method_ == Method.Fires && |Subs(e)| <= |ev.values|
    modifies ev`values, ev`trees, ev.store`regions, ev.store`free
    ensures ev.Valid() && Performed(cx, e, Vars(ev), old(Now(ev)), Now(ev), r)
  {
    hide Ok, MeaningOf, MeaningsOf, Sees, Owned, Env, Seens;
    ghost var values, trees, before := ev.values, ev.trees, Now(ev);
    if |e.arguments| != 1 { return Failed(Error); }
    ReadsAs(ev, 0);
    var port := ev.store.MaybeReadRef(ev.values[0]);
    if !port.Input? && !port.Output? { return Failed(Error); }
    var fires := cx.fires(port.port);
    if fires == None {
      assert before == before[..1] + before[1..];
      return Waiting;
    }
    ev.DropFront();
    ev.Plain(Bool(fires.value));
    LeafMeaning(Bool(fires.value));
    BackIs(ev, values, trees, 1, Meaning.Plain(Bool(fires.value)));
    r := Finished;
  }

  method PerformAssert(ev: Evaluator, cx: Context, e: Expr) returns (r: Outcome)
    requires ev.Valid() && e.Call? && e.method_ == Assert && |Subs(e)| <= |ev.values|
    modifies ev`values, ev`trees, ev.store`regions, ev.store`free
    ensures ev.Valid() && Performed(cx, e, Vars(ev), old(Now(ev)), Now(ev), r)
  {
    hide Ok, MeaningOf, MeaningsOf, Sees, Owned, Env, Seens;
    ghost var values, trees, before := ev.values, ev.trees, Now(ev);
    if |e.arguments| != 1 { return Failed(Error); }
    ReadsAs(ev, 0);
    var holds := ev.store.MaybeReadRef(ev.values[0]);
    if !holds.Bool? { return Failed(Error); }
    if !holds.b { return Failed(Inconsistent); }
    ev.DropFront();
    SeensRange(values, trees, 1, |values|);
    assert values[1..|values|] == values[1..] && trees[1..|values|] == trees[1..] && before[1..|values|] == before[1..];
    assert Now(ev) == before[1..] + [];
    r := Finished;
  }

  // ---- runs ----

  ghost function At(ev: Evaluator, code: seq<Instr>): Config<seq<Meaning>, Seen>
    requires |ev.values| == |ev.trees|
    reads ev, ev.store
  {
    Config(code, Now(ev), Vars(ev))
  }

  method PerformCall(ev: Evaluator, cx: Context, e: Expr) returns (r: Outcome)
    requires ev.Valid() && e.Call? && |Subs(e)| <= |ev.values|
    modifies ev`values, ev`trees, ev.store`regions, ev.store`free
    ensures ev.Valid() && Performed(cx, e, Vars(ev), old(Now(ev)), Now(ev), r)
  {
    hide Ok, Sees, Owned, Env, Seens, Performed, Subs;
    match e.method_
    case Get => r := PerformGet(ev, cx, e);
    case Put => r := PerformPut(ev, cx, e);
    case Fires => r := PerformFires(ev, cx, e);
    case Assert => r := PerformAssert(ev, cx, e);
    case _ => r := PerformPlainCall(ev, cx, e);
  }

  /** An expression whose operands are on the deque. */
  method PerformOne(ev: Evaluator, cx: Context, e: Expr) returns (r: Outcome)
    requires ev.Valid() && |Subs(e)| <= |ev.values| && !e.Conditional? && Covered(e)
    modifies ev`values, ev`trees, ev.store`regions, ev.store`free
    ensures ev.Valid() && Performed(cx, e, Vars(ev), old(Now(ev)), Now(ev), r)
  {
    hide Ok, Sees, Owned, Env, Seens, Performed, FieldOrder;
    match e
    case Variable(_) => r := PerformVariable(ev, cx, e);
    case Literal(_) => r := PerformLiteral(ev, cx, e);
    case Binary(_, _, _) => r := PerformBinary(ev, cx, e);
    case Unary(_, _) => r := PerformScalar(ev, cx, e);
    case Cast(_, _) => r := PerformCast(ev, cx, e);
    case Select(_, _) => r := PerformSelect(ev, cx, e);
    case Indexing(_, _) => r := PerformIndexing(ev, cx, e);
    case Slicing(_, _, _) => r := PerformSlicing(ev, cx, e);
    case Call(_, _) => r := PerformCall(ev, cx, e);
    case StructLiteral(_) => r := PerformComposite(ev, cx, e);
    case UnionLiteral(_, _) => r := PerformComposite(ev, cx, e);
    case ArrayLiteral(_) => r := PerformComposite(ev, cx, e);
  }

  /** The expressions that this module covers: all but assignments, bindings and calls of functions of the program. */
  ghost predicate Covered(e: Expr)
    decreases e, 0
  {
    SubsSmaller(e);
    && !e.Assignment? && !e.Binding? && !(e.Call? && e.method_.UserFunction?)
    && CoveredEach(e, Subs(e)) && (e.Conditional? ==> Covered(e.yes) && Covered(e.no))
  }

  ghost predicate CoveredEach(e: Expr, es: seq<Expr>)
    requires Below(e, es)
    decreases e, 0, |es|
  {
    es == [] || (CoveredEach(e, es[..|es| - 1]) && Covered(es[|es| - 1]))
  }

  ghost predicate CoveredCode(code: seq<Instr>) {
    forall i <- code | i.EvalExpr? :: Covered(i.e)
  }

  lemma {:induction false} SerializedCovered(e: Expr)
    requires Covered(e)
    ensures CoveredCode(Serialize(e))
    decreases e, 0
  {
    hide Covered;
    SubsSmaller(e);
    CoveredSubs(e);
    EachCovered(e, Subs(e));
  }

  lemma CoveredSubs(e: Expr)
    requires Covered(e)
    ensures Below(e, Subs(e)) && CoveredEach(e, Subs(e))
  {
    SubsSmaller(e);
  }

  lemma {:induction false} EachCovered(e: Expr, es: seq<Expr>)
    requires Below(e, es) && CoveredEach(e, es)
    ensures CoveredCode(SerializeEach(e, es))
    decreases e, 0, |es|
  {
    hide Covered, Serialize;
    if es != [] {
      EachCovered(e, es[..|es| - 1]);
      SerializedCovered(es[|es| - 1]);
    }
  }

  /** Execute the last instruction on the store. */
  method ExecuteInstr(ev: Evaluator, cx: Context, code: seq<Instr>) returns (rest: seq<Instr>, r: Outcome)
    requires ev.Valid() && code != [] && CoveredCode(code)
    modifies ev`values, ev`trees, ev.store`regions, ev.store`free
    ensures ev.Valid() && CoveredCode(rest)
    ensures match r
      case Finished => Step(WorldOf(cx), old(At(ev, code))) == Next(At(ev, rest))
      case Waiting => Step(WorldOf(cx), old(At(ev, code))) == Blocks(At(ev, rest))
      case Failed(why) => Step(WorldOf(cx), old(At(ev, code))) == Halts(why)
  {
    hide Ok, Sees, Owned, Env, Seens, Serialize, Perform, Reverse, Taken, Covered, Subs, WorldOf;
    var last := code[|code| - 1];
    rest := code[..|code| - 1];
    match last
    case PushValToFront =>
      if ev.values == [] { return rest, Failed(Error); }
      ghost var values, trees := ev.values, ev.trees;
      ev.Rotate();
      SeensRotated(values, trees);
      r := Finished;
    case EvalExpr(e) =>
      if |ev.values| < |Subs(e)| { return rest, Failed(Error); }
      if e.Conditional? {
        OneTest(e);
        rest, r := Choose(ev, cx, code);
        return;
      }
      r := PerformOne(ev, cx, e);
      if r == Waiting { rest := code; }
  }

  lemma OneTest(e: Expr)
    requires e.Conditional?
    ensures |Subs(e)| == 1
  {
  }

  lemma SeensRotated(values: seq<Value>, trees: seq<Tree>)
    requires |values| == |trees| && values != []
    ensures var n := |values| - 1;
      Seens([values[n]] + values[..n], [trees[n]] + trees[..n]) == [Seens(values, trees)[n]] + Seens(values, trees)[..n]
  {
    hide MeaningOf;
  }

  method Choose(ev: Evaluator, cx: Context, code: seq<Instr>) returns (rest: seq<Instr>, r: Outcome)
    requires ev.Valid() && code != [] && CoveredCode(code) && code[|code| - 1].EvalExpr? && code[|code| - 1].e.Conditional? && ev.values != []
    modifies ev`values, ev`trees, ev.store`regions, ev.store`free
    ensures ev.Valid() && CoveredCode(rest)
    ensures match r
      case Finished => Step(WorldOf(cx), old(At(ev, code))) == Next(At(ev, rest))
      case Waiting => Step(WorldOf(cx), old(At(ev, code))) == Blocks(At(ev, rest))
      case Failed(why) => Step(WorldOf(cx), old(At(ev, code))) == Halts(why)
  {
    hide Ok, Sees, Owned, Env, Seens, Serialize, Perform, Taken;
    var e := code[|code| - 1].e;
    rest := code[..|code| - 1];
    ghost var values, trees, before := ev.values, ev.trees, Now(ev);
    var n := |ev.values| - 1;
    TakenBack(e, before, 1);
    ReadsAs(ev, n);
    TestValue(ev);
    var test := ev.values[n];
    if !test.Bool? { return rest, Failed(Error); }
    ev.Pop(1);
    SeensRange(values, trees, 0, n);
    assert values[0..n] == values[..n] && trees[0..n] == trees[..n] && before[0..n] == before[..n];
    SerializedCovered(e.yes);
    SerializedCovered(e.no);
    rest := rest + Serialize(if test.b then e.yes else e.no);
    r := Finished;
  }

  /** Only a bare boolean decides. */
  lemma TestValue(ev: Evaluator)
    requires ev.Valid() && ev.values != []
    ensures var v, n := ev.values[|ev.values| - 1], |ev.values| - 1;
      Truth()(Now(ev)[n]) == if v.Bool? then Some(v.b) else None
  {
    hide Ok, MeaningOf, Owned, Sees;
    ReadsAs(ev, |ev.values| - 1);
  }

  /** Everything that has an answer in `cx` has the same answer in `full`. */
  ghost predicate Extends(full: Context, cx: Context) {
    && cx.base == full.base && cx.did <= full.did
    && (forall p :: cx.fires(p) == None || cx.fires(p) == full.fires(p))
    && (forall p :: cx.inbox(p) == None || cx.inbox(p) == full.inbox(p))
  }

  lemma ExtendsAgrees(full: Context, cx: Context)
    requires Extends(full, cx)
    ensures Agrees(WorldOf(cx), WorldOf(full)) && ReadsOnce(WorldOf(full))
  {
  }

  /** Execute instructions until none is left, one blocks or one fails. Whatever happens, every region is owned by
      exactly one variable or value, or is free. */
  method ExecuteOn(ev: Evaluator, cx: Context, code: seq<Instr>, ghost full: Context) returns (rest: seq<Instr>, r: Outcome)
    requires ev.Valid() && CoveredCode(code) && Extends(full, cx)
    modifies ev`values, ev`trees, ev.store`regions, ev.store`free
    ensures ev.Valid() && CoveredCode(rest)
    ensures match r
      case Finished => Exec(WorldOf(full), old(At(ev, code))) == Done(Vars(ev), Now(ev))
      case Waiting =>
        && Exec(WorldOf(full), At(ev, rest)) == Exec(WorldOf(full), old(At(ev, code)))
        && (cx == full ==> Exec(WorldOf(full), old(At(ev, code))).Blocked?)
      case Failed(why) => Exec(WorldOf(full), old(At(ev, code))) == Stopped(why)
  {
    hide Ok, Sees, Owned, Env, Seens, Agrees, ReadsOnce, Step, WorldOf, CoveredCode, Extends;
    ExtendsAgrees(full, cx);
    rest := code;
    while rest != []
      invariant ev.Valid() && CoveredCode(rest) && Exec(WorldOf(full), At(ev, rest)) == Exec(WorldOf(full), old(At(ev, code)))
      decreases Weight(rest)
    {
      ghost var before := At(ev, rest);
      ExecKept(WorldOf(cx), WorldOf(full), before);
      if Step(WorldOf(cx), before).Blocks? { BlocksMeansBlocked(WorldOf(cx), before); }
      hide Exec;
      if Step(WorldOf(cx), before).Next? { StepLighter(WorldOf(cx), before); }
      rest, r := ExecuteInstr(ev, cx, rest);
      if r != Finished { return; }
    }
    r := Finished;
  }

  lemma BlocksMeansBlocked<S, V>(w: World<S, V>, c: Config<S, V>)
    requires c.code != [] && Step(w, c).Blocks?
    ensures Exec(w, c).Blocked?
  {
    hide Step;
  }

  lemma SeenAlone(ev: Evaluator)
    requires ev.Valid()
    ensures |ev.values| == |ev.trees| && (|ev.values| == 1 ==> Now(ev) == [Seen(ev.values[0].Ref?, MeaningOf(ev.trees[0]))])
  {
    hide MeaningOf, Ok, Sees, Owned;
  }

  /** Evaluate an expression on the store, trying again with each of `contexts` until it no longer blocks. The outcome
      is that of recursive evaluation on the meanings of the variables; the value it leaves owns what it means or
      refers to a variable, and everything else that was taken on the way has been given back. */
  method EvaluateOn(ev: Evaluator, e: Expr, contexts: seq<Context>, ghost full: Context) returns (r: Outcome)
    requires ev.Valid() && ev.values == [] && WellFormed(e) && Covered(e) && forall cx <- contexts :: Extends(full, cx)
    modifies ev`values, ev`trees, ev.store`regions, ev.store`free
    ensures ev.Valid()
    ensures match r
      case Finished => Eval(WorldOf(full), e, Vars(ev)) == Done(Vars(ev), Now(ev))
      case Failed(why) => Eval(WorldOf(full), e, Vars(ev)) == Stopped(why)
      case Waiting => full in contexts ==> Eval(WorldOf(full), e, Vars(ev)).Blocked?
    ensures r == Finished && Produces(e) ==>
      |ev.values| == |ev.trees| == 1 && Eval(WorldOf(full), e, Vars(ev)) == Done(Vars(ev), [Seen(ev.values[0].Ref?, MeaningOf(ev.trees[0]))])
  {
    hide Ok, Sees, Owned, Env, Seens, WorldOf, CoveredCode, Extends, Exec, Eval, Serialize, WellFormed, Covered, Produces;
    StandsFor(WorldOf(full), e, Vars(ev));
    SerializedCovered(e);
    if Produces(e) && Eval(WorldOf(full), e, Vars(ev)).Done? { ProducesOne(WorldOf(full), e, Vars(ev)); }
    var code := Serialize(e);
    assert Now(ev) == [];
    r := Waiting;
    for k := 0 to |contexts|
      invariant r == Waiting && ev.Valid() && CoveredCode(code)
      invariant Exec(WorldOf(full), At(ev, code)) == Exec(WorldOf(full), Config(Serialize(e), [], Vars(ev)))
      invariant full in contexts[..k] ==> Exec(WorldOf(full), At(ev, code)).Blocked?
    {
      code, r := ExecuteOn(ev, contexts[k], code, full);
      SeenAlone(ev);
      if r != Waiting { return; }
      assert contexts[..k + 1] == contexts[..k] + [contexts[k]];
    }
    assert contexts[..|contexts|] == contexts;
  }
}
