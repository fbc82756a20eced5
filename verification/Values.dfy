/** Values of the evaluator, and the trees they denote in a simulated heap with single ownership. */
module Values {
  datatype ValueId = Stack(pos: nat) | Heap(region: nat, index: nat)

  datatype IntType = UInt8 | UInt16 | UInt32 | UInt64 | SInt8 | SInt16 | SInt32 | SInt64

  /** The sorts of values that own a heap region. */
  datatype Kind = Message | String | Array | Union(tag: int) | Struct

  datatype Value =
    | Unassigned
    | PrevStackBoundary(boundary: int)
    | Ref(id: ValueId)
    | Binding(slot: nat)
    | Input(port: nat)
    | Output(port: nat)
    | Null
    | Bool(b: bool)
    | Char(c: char)
    | Integer(ty: IntType, n: int)
    | Enum(variant: int)
    | OnHeap(kind: Kind, pos: nat)

  type Regions = seq<seq<Value>>

  /** A value together with everything it owns and where that is. */
  datatype Tree = Leaf(value: Value) | Node(kind: Kind, pos: nat, kids: seq<Tree>)

  /** What a value means, wherever its regions are. */
  datatype Meaning = Plain(value: Value) | Compound(kind: Kind, parts: seq<Meaning>)

  function Val(t: Tree): Value {
    match t
    case Leaf(v) => v
    case Node(kind, pos, _) => OnHeap(kind, pos)
  }

  function MeaningOf(t: Tree): Meaning {
    match t
    case Leaf(v) => Plain(v)
    case Node(kind, _, kids) => Compound(kind, MeaningsOf(kids))
  }

  function MeaningsOf(ts: seq<Tree>): seq<Meaning> {
    if ts == [] then [] else [MeaningOf(ts[0])] + MeaningsOf(ts[1..])
  }

  /** The regions a tree owns, with multiplicity. */
  function Regs(t: Tree): multiset<nat> {
    match t
    case Leaf(_) => multiset{}
    case Node(_, pos, kids) => multiset{pos} + RegsAll(kids)
  }

  function RegsAll(ts: seq<Tree>): multiset<nat> {
    if ts == [] then multiset{} else Regs(ts[0]) + RegsAll(ts[1..])
  }

  /** The heap stores this tree. */
  ghost predicate Holds(regions: Regions, t: Tree) {
    match t
    case Leaf(v) => !v.OnHeap? && !v.Ref?
    case Node(_, pos, kids) => pos < |regions| && Lists(regions[pos], kids) && HoldsAll(regions, kids)
  }

  ghost predicate HoldsAll(regions: Regions, ts: seq<Tree>) {
    forall i | 0 <= i < |ts| :: Holds(regions, ts[i])
  }

  /** A region lists exactly these values. */
  ghost predicate Lists(region: seq<Value>, ts: seq<Tree>) {
    |region| == |ts| && forall i | 0 <= i < |ts| :: region[i] == Val(ts[i])
  }

  lemma {:induction false} RegsConcat(a: seq<Tree>, b: seq<Tree>)
    ensures RegsAll(a + b) == RegsAll(a) + RegsAll(b)
    decreases |a|
  {
    hide Regs;
    if a == [] {
      assert a + b == b;
    } else {
      RegsFirst(a);
      RegsFirst(a + b);
      hide RegsAll;
      RegsConcat(a[1..], b);
      assert (a + b)[1..] == a[1..] + b;
    }
  }

  lemma RegsFirst(ts: seq<Tree>)
    requires ts != []
    ensures RegsAll(ts) == Regs(ts[0]) + RegsAll(ts[1..])
  {
  }

  lemma RegsOne(t: Tree)
    ensures RegsAll([t]) == Regs(t)
  {
    assert RegsAll([t]) == Regs(t) + RegsAll([]);
  }

  /** Splitting off one tree. */
  lemma RegsAt(ts: seq<Tree>, k: nat)
    requires k < |ts|
    ensures RegsAll(ts) == RegsAll(ts[..k]) + Regs(ts[k]) + RegsAll(ts[k + 1..])
  {
    hide Regs, RegsAll;
    RegsConcat(ts[..k], [ts[k]] + ts[k + 1..]);
    RegsConcat([ts[k]], ts[k + 1..]);
    RegsOne(ts[k]);
    assert ts == ts[..k] + ([ts[k]] + ts[k + 1..]);
  }

  lemma RegsReplaced(ts: seq<Tree>, k: nat, t: Tree)
    requires k < |ts|
    ensures RegsAll(ts[k := t]) + Regs(ts[k]) == RegsAll(ts) + Regs(t)
  {
    hide Regs, RegsAll;
    RegsAt(ts, k);
    RegsAt(ts[k := t], k);
    assert ts[k := t][..k] == ts[..k] && ts[k := t][k + 1..] == ts[k + 1..];
  }

  lemma RegsAppend(ts: seq<Tree>, t: Tree)
    ensures RegsAll(ts + [t]) == RegsAll(ts) + Regs(t)
  {
    hide Regs, RegsAll;
    RegsConcat(ts, [t]);
    RegsOne(t);
  }

  lemma {:induction false} MeaningsAppend(ts: seq<Tree>, t: Tree)
    ensures MeaningsOf(ts + [t]) == MeaningsOf(ts) + [MeaningOf(t)]
    decreases |ts|
  {
    hide MeaningOf;
    if ts == [] {
      assert ts + [t] == [t];
    } else {
      MeaningsAppend(ts[1..], t);
      assert (ts + [t])[1..] == ts[1..] + [t];
    }
  }

  /** A tree is untouched by changes outside its regions. */
  lemma {:induction false} HoldsFrame(regions: Regions, regions': Regions, t: Tree)
    requires Holds(regions, t) && |regions| <= |regions'|
    requires forall x <- Regs(t) | x < |regions| :: regions'[x] == regions[x]
    ensures Holds(regions', t)
    decreases t
  {
    match t
    case Leaf(_) =>
    case Node(_, pos, kids) =>
      hide Lists, RegsAll;
      assert pos in Regs(t);
      forall i | 0 <= i < |kids| ensures Holds(regions', kids[i]) {
        RegsAt(kids, i);
        assert forall x <- Regs(kids[i]) :: x in Regs(t);
        HoldsFrame(regions, regions', kids[i]);
      }
  }

  /** A part of a compound value, as its region lists it. */
  lemma PartAt(regions: Regions, t: Tree, k: nat)
    requires Holds(regions, t) && t.Node? && k < |t.kids|
    ensures t.pos < |regions| && k < |regions[t.pos]| && regions[t.pos][k] == Val(t.kids[k]) && Holds(regions, t.kids[k])
    ensures !Val(t.kids[k]).Ref?
  {
    assert Holds(regions, t.kids[k]);
  }

  lemma {:induction false} RegsInRange(regions: Regions, t: Tree)
    requires Holds(regions, t)
    ensures forall x <- Regs(t) :: x < |regions|
    decreases t, 0
  {
    if t.Node? {
      hide RegsAll, Lists;
      RegsAllInRange(regions, t.kids);
    }
  }

  lemma {:induction false} RegsAllInRange(regions: Regions, ts: seq<Tree>)
    requires HoldsAll(regions, ts)
    ensures forall x <- RegsAll(ts) :: x < |regions|
    decreases ts, 1
  {
    hide Regs, Holds;
    if ts != [] {
      RegsInRange(regions, ts[0]);
      RegsAllInRange(regions, ts[1..]);
    }
  }

  // ---- ownership ----

  /** The positions from `lo` up to `hi`, once each. */
  ghost function Range(lo: nat, hi: nat): multiset<nat>
    requires lo <= hi
    ensures forall x :: Range(lo, hi)[x] == if lo <= x < hi then 1 else 0
  {
    if lo == hi then multiset{} else Range(lo, hi - 1) + multiset{hi - 1}
  }

  /** Free regions are empty, and each is listed once. */
  ghost predicate FreeOk(regions: Regions, free: seq<nat>) {
    && (forall f <- free :: f < |regions| && regions[f] == [])
    && (forall f <- multiset(free) :: multiset(free)[f] == 1)
  }

  /** Every region is owned by exactly one tree of the forest, or is free, and never both. */
  ghost predicate Ok(regions: Regions, free: seq<nat>, forest: seq<Tree>) {
    && HoldsAll(regions, forest)
    && (forall f <- free :: f < |regions| && regions[f] == [])
    && RegsAll(forest) + multiset(free) == Range(0, |regions|)
  }

  /** The heap after regions `m` were taken from the free ones or were new; nothing else changed. */
  ghost predicate Took(regions: Regions, free: seq<nat>, regions': Regions, free': seq<nat>, m: multiset<nat>) {
    && |regions| <= |regions'| && FreeOk(regions', free')
    && multiset(free) + Range(|regions|, |regions'|) == m + multiset(free')
    && (forall i | 0 <= i < |regions| && i !in free :: regions'[i] == regions[i])
  }

  /** The heap after regions `m` were given back; nothing else changed. */
  ghost predicate Gave(regions: Regions, free: seq<nat>, regions': Regions, free': seq<nat>, m: multiset<nat>) {
    && |regions| == |regions'| && FreeOk(regions', free')
    && multiset(free') == multiset(free) + m
    && (forall i | 0 <= i < |regions| && i !in m :: regions'[i] == regions[i])
  }

  lemma TookNothing(regions: Regions, free: seq<nat>)
    requires FreeOk(regions, free)
    ensures Took(regions, free, regions, free, multiset{})
  {
  }

  lemma InFree(free: seq<nat>, x: nat)
    ensures x in free <==> multiset(free)[x] > 0
  {
    assert x in free <==> x in multiset(free);
  }

  lemma TookThen(r0: Regions, f0: seq<nat>, r1: Regions, f1: seq<nat>, m1: multiset<nat>, r2: Regions, f2: seq<nat>, m2: multiset<nat>)
    requires Took(r0, f0, r1, f1, m1) && Took(r1, f1, r2, f2, m2)
    ensures Took(r0, f0, r2, f2, m1 + m2)
  {
    hide FreeOk;
    var a, b, c := Range(|r0|, |r1|), Range(|r1|, |r2|), Range(|r0|, |r2|);
    assert c == a + b;
    assert multiset(f0) + c == (multiset(f0) + a) + b == m1 + (multiset(f1) + b) == m1 + m2 + multiset(f2);
    forall i | 0 <= i < |r0| && i !in f0 ensures r2[i] == r0[i] {
      InFree(f0, i);
      InFree(f1, i);
      assert (multiset(f0) + Range(|r0|, |r1|))[i] == (m1 + multiset(f1))[i];
    }
  }

  /** What was taken is distinct, and neither free nor among the regions that were in use. */
  lemma TookFresh(regions: Regions, free: seq<nat>, regions': Regions, free': seq<nat>, m: multiset<nat>, x: nat)
    requires FreeOk(regions, free) && Took(regions, free, regions', free', m)
    ensures m[x] + multiset(free')[x] <= 1
    ensures m[x] + multiset(free')[x] > 0 ==> x in free || |regions| <= x < |regions'|
  {
    InFree(free, x);
    assert (multiset(free) + Range(|regions|, |regions'|))[x] == (m + multiset(free'))[x];
    assert x in multiset(free) ==> multiset(free)[x] == 1;
    assert x in free ==> x < |regions|;
  }

  /** Trees outside the free regions survive what was taken. */
  lemma TookKeeps(regions: Regions, free: seq<nat>, regions': Regions, free': seq<nat>, m: multiset<nat>, t: Tree)
    requires FreeOk(regions, free) && Took(regions, free, regions', free', m) && Holds(regions, t) && forall x <- Regs(t) :: x !in free
    ensures Holds(regions', t) && forall x <- Regs(t) :: x !in free'
  {
    hide FreeOk, Holds, Regs;
    RegsInRange(regions, t);
    HoldsFrame(regions, regions', t);
    forall x | x in Regs(t) ensures x !in free' {
      InFree(free', x);
      TookFresh(regions, free, regions', free', m, x);
    }
  }

  lemma GaveThen(r0: Regions, f0: seq<nat>, r1: Regions, f1: seq<nat>, m1: multiset<nat>, r2: Regions, f2: seq<nat>, m2: multiset<nat>)
    requires Gave(r0, f0, r1, f1, m1) && Gave(r1, f1, r2, f2, m2)
    ensures Gave(r0, f0, r2, f2, m1 + m2)
  {
    hide FreeOk;
  }

  lemma GaveNothing(regions: Regions, free: seq<nat>)
    requires FreeOk(regions, free)
    ensures Gave(regions, free, regions, free, multiset{})
  {
  }

  /** Dropping a copy undoes the cloning: everything in use is as it was, and what was free is free again,
      together with whatever regions the heap grew by. */
  lemma DropUndoesClone(r0: Regions, f0: seq<nat>, r1: Regions, f1: seq<nat>, c: Tree, r2: Regions, f2: seq<nat>)
    requires FreeOk(r0, f0) && Took(r0, f0, r1, f1, Regs(c)) && Gave(r1, f1, r2, f2, Regs(c))
    ensures multiset(f2) == multiset(f0) + Range(|r0|, |r2|)
    ensures forall i | 0 <= i < |r0| && i !in f0 :: r2[i] == r0[i]
  {
    hide FreeOk, Regs, Range;
    forall i | 0 <= i < |r0| && i !in f0 ensures i !in Regs(c) {
      TookFresh(r0, f0, r1, f1, Regs(c), i);
    }
  }
}
