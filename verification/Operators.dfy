/** Comparing and concatenating values of the store. */
module Operators {
  import opened Network
  import opened Values
  import opened Stores

  predicate SameSort(v: Value, w: Value) {
    match v
    case Input(_) => w.Input?
    case Output(_) => w.Output?
    case Bool(_) => w.Bool?
    case Char(_) => w.Char?
    case Integer(ty, _) => w.Integer? && w.ty == ty
    case Enum(_) => w.Enum?
    case _ => false
  }

  predicate SameKind(k: Kind, l: Kind) {
    k == l || (k.Union? && l.Union?)
  }

  /** What a comparison finds on its way through two values: whether they are equal or, if it comes to parts of
      different types before a difference, nothing but a panic. */
  ghost function Compared(a: Meaning, b: Meaning): Option<bool> {
    match a
    case Plain(v) => if b.Plain? && SameSort(v, b.value) then Some(v == b.value) else None
    case Compound(kind, parts) =>
      if !b.Compound? || !SameKind(kind, b.kind) then None
      else if kind != b.kind || |parts| != |b.parts| then Some(false)
      else ComparedAll(parts, b.parts)
  }

  ghost function ComparedAll(xs: seq<Meaning>, ys: seq<Meaning>): Option<bool>
    requires |xs| == |ys|
  {
    if xs == [] then Some(true)
    else
      var first := Compared(xs[0], ys[0]);
      if first == Some(true) then ComparedAll(xs[1..], ys[1..]) else first
  }

  /** Two values of one type, as the type checker guarantees for the operands of a comparison. */
  ghost predicate Comparable(a: Meaning, b: Meaning) {
    match a
    case Plain(v) => b.Plain? && SameSort(v, b.value)
    case Compound(kind, parts) =>
      && b.Compound? && SameKind(kind, b.kind)
      && (kind == b.kind && |parts| == |b.parts| ==> forall i | 0 <= i < |parts| :: Comparable(parts[i], b.parts[i]))
  }

  /** A comparison that does not panic decides equality, and between values of one type it does not panic. */
  lemma {:induction false} ComparedIsEquality(a: Meaning, b: Meaning)
    ensures Compared(a, b).Some? ==> (Compared(a, b).value <==> a == b)
    ensures Comparable(a, b) ==> Compared(a, b).Some?
    decreases a
  {
    if a.Compound? && b.Compound? && a.kind == b.kind && |a.parts| == |b.parts| { ComparedAllIsEquality(a.parts, b.parts); }
  }

  lemma {:induction false} ComparedAllIsEquality(xs: seq<Meaning>, ys: seq<Meaning>)
    requires |xs| == |ys|
    ensures ComparedAll(xs, ys).Some? ==> (ComparedAll(xs, ys).value <==> xs == ys)
    ensures (forall i | 0 <= i < |xs| :: Comparable(xs[i], ys[i])) ==> ComparedAll(xs, ys).Some?
    decreases xs
  {
    hide Compared, Comparable;
    if xs != [] {
      ComparedIsEquality(xs[0], ys[0]);
      ComparedAllIsEquality(xs[1..], ys[1..]);
      assert xs == [xs[0]] + xs[1..] && ys == [ys[0]] + ys[1..];
    }
  }

  lemma {:induction false} MeaningsCount(ts: seq<Tree>)
    ensures |MeaningsOf(ts)| == |ts|
    ensures forall i | 0 <= i < |ts| :: MeaningsOf(ts)[i] == MeaningOf(ts[i])
    decreases |ts|
  {
    hide MeaningOf;
    if ts != [] { MeaningsCount(ts[1..]); }
  }

  /** Where the comparison of two values goes next. */
  lemma ComparedAt(regions: Regions, a: Tree, b: Tree)
    requires Holds(regions, a) && Holds(regions, b)
    ensures Val(a).OnHeap? <==> a.Node?
    ensures Val(b).OnHeap? <==> b.Node?
    ensures !a.Node? ==> Compared(MeaningOf(a), MeaningOf(b)) == if SameSort(Val(a), Val(b)) then Some(Val(a) == Val(b)) else None
    ensures a.Node? && !b.Node? ==> Compared(MeaningOf(a), MeaningOf(b)) == None
    ensures a.Node? && b.Node? ==> |MeaningsOf(a.kids)| == |a.kids| && |MeaningsOf(b.kids)| == |b.kids|
    ensures a.Node? && b.Node? ==>
      (Compared(MeaningOf(a), MeaningOf(b)) ==
        if !SameKind(a.kind, b.kind) then None
        else if a.kind != b.kind || |a.kids| != |b.kids| then Some(false)
        else ComparedAll(MeaningsOf(a.kids), MeaningsOf(b.kids)))
  {
    hide ComparedAll, MeaningsOf;
    if a.Node? { MeaningsCount(a.kids); }
    if b.Node? { MeaningsCount(b.kids); }
  }

  lemma ComparedFrom(xs: seq<Tree>, ys: seq<Tree>, k: nat)
    requires |xs| == |ys| && k <= |xs|
    ensures |MeaningsOf(xs[k..])| == |MeaningsOf(ys[k..])|
    ensures ComparedAll(MeaningsOf(xs[k..]), MeaningsOf(ys[k..])) ==
      if k == |xs| then Some(true)
      else
        assert |MeaningsOf(xs[k + 1..])| == |MeaningsOf(ys[k + 1..])| by { MeaningsCount(xs[k + 1..]); MeaningsCount(ys[k + 1..]); }
        var first := Compared(MeaningOf(xs[k]), MeaningOf(ys[k]));
        if first == Some(true) then ComparedAll(MeaningsOf(xs[k + 1..]), MeaningsOf(ys[k + 1..])) else first
  {
    hide MeaningOf, Compared;
    MeaningsCount(xs[k..]);
    MeaningsCount(ys[k..]);
    if k < |xs| {
      assert xs[k..][1..] == xs[k + 1..] && ys[k..][1..] == ys[k + 1..];
      assert MeaningsOf(xs[k..])[1..] == MeaningsOf(xs[k + 1..]) && MeaningsOf(ys[k..])[1..] == MeaningsOf(ys[k + 1..]);
    }
  }

  /** `==` on what two values mean, wherever their regions are. */
  method ApplyEquality(store: Store, lhs: Value, rhs: Value, ghost a: Tree, ghost b: Tree) returns (r: Option<bool>)
    requires Denotes(store, lhs, a) && Denotes(store, rhs, b)
    ensures r == Compared(MeaningOf(a), MeaningOf(b))
    decreases a
  {
    hide MeaningOf, MeaningsOf, Holds, Compared, ComparedAll, SameSort, SameKind;
    ComparedAt(store.regions, a, b);
    var l, m := store.MaybeReadRef(lhs), store.MaybeReadRef(rhs);
    if !l.OnHeap? { return if SameSort(l, m) then Some(l == m) else None; }
    if !m.OnHeap? || !SameKind(l.kind, m.kind) { return None; }
    PartsHold(store.regions, a);
    PartsHold(store.regions, b);
    var xs, ys := store.regions[l.pos], store.regions[m.pos];
    if l.kind != m.kind || |xs| != |ys| { return Some(false); }
    assert a.kids[0..] == a.kids && b.kids[0..] == b.kids;
    for k := 0 to |xs|
      invariant |MeaningsOf(a.kids[k..])| == |MeaningsOf(b.kids[k..])|
      invariant Compared(MeaningOf(a), MeaningOf(b)) == ComparedAll(MeaningsOf(a.kids[k..]), MeaningsOf(b.kids[k..]))
    {
      PartAt(store.regions, a, k);
      PartAt(store.regions, b, k);
      ComparedFrom(a.kids, b.kids, k);
      MeaningsCount(a.kids[k + 1..]);
      MeaningsCount(b.kids[k + 1..]);
      r := ApplyEquality(store, xs[k], ys[k], a.kids[k], b.kids[k]);
      if r != Some(true) { return; }
    }
    ComparedFrom(a.kids, b.kids, |xs|);
    r := Some(true);
  }

  ghost function Negated(r: Option<bool>): Option<bool> {
    if r.Some? then Some(!r.value) else None
  }

  /** `!=` is the negation of `==`, though it is computed separately. */
  method ApplyInequality(store: Store, lhs: Value, rhs: Value, ghost a: Tree, ghost b: Tree) returns (r: Option<bool>)
    requires Denotes(store, lhs, a) && Denotes(store, rhs, b)
    ensures r == Negated(Compared(MeaningOf(a), MeaningOf(b)))
    decreases a
  {
    hide MeaningOf, MeaningsOf, Holds, Compared, ComparedAll, SameSort, SameKind;
    ComparedAt(store.regions, a, b);
    var l, m := store.MaybeReadRef(lhs), store.MaybeReadRef(rhs);
    if !l.OnHeap? { return if SameSort(l, m) then Some(l != m) else None; }
    if !m.OnHeap? || !SameKind(l.kind, m.kind) { return None; }
    PartsHold(store.regions, a);
    PartsHold(store.regions, b);
    var xs, ys := store.regions[l.pos], store.regions[m.pos];
    if l.kind != m.kind || |xs| != |ys| { return Some(true); }
    assert a.kids[0..] == a.kids && b.kids[0..] == b.kids;
    for k := 0 to |xs|
      invariant |MeaningsOf(a.kids[k..])| == |MeaningsOf(b.kids[k..])|
      invariant Compared(MeaningOf(a), MeaningOf(b)) == ComparedAll(MeaningsOf(a.kids[k..]), MeaningsOf(b.kids[k..]))
    {
      PartAt(store.regions, a, k);
      PartAt(store.regions, b, k);
      ComparedFrom(a.kids, b.kids, k);
      MeaningsCount(a.kids[k + 1..]);
      MeaningsCount(b.kids[k + 1..]);
      r := ApplyInequality(store, xs[k], ys[k], a.kids[k], b.kids[k]);
      if r != Some(false) { return; }
    }
    ComparedFrom(a.kids, b.kids, |xs|);
    r := Some(false);
  }

  // ---- what the other operators mean ----

  predicate Sequential(kind: Kind) {
    kind == Message || kind == String || kind == Array
  }

  /** `@`, between sequences of one kind. */
  function JoinOf(a: Meaning, b: Meaning): Option<Meaning> {
    if a.Compound? && b.Compound? && a.kind == b.kind && Sequential(a.kind) then Some(Compound(a.kind, a.parts + b.parts)) else None
  }

  /** A field of a struct or an element of a sequence. */
  function PartOf(m: Meaning, field: bool, index: int): Option<Meaning> {
    if m.Compound? && (if field then m.kind == Struct else Sequential(m.kind)) && 0 <= index < |m.parts| then Some(m.parts[index]) else None
  }

  /** The elements from `from` up to and not including `to`; there must be one at `from`. */
  function SliceOf(m: Meaning, from: int, to: int): Option<Meaning> {
    if m.Compound? && Sequential(m.kind) && 0 <= from < |m.parts| && 0 <= to <= |m.parts|
    then Some(Compound(m.kind, if from < to then m.parts[from..to] else []))
    else None
  }

  /** How a tree and its meaning look at the top. */
  lemma TopMeaning(t: Tree)
    ensures t.Leaf? ==> MeaningOf(t) == Plain(t.value)
    ensures t.Node? ==> |MeaningsOf(t.kids)| == |t.kids| && MeaningOf(t) == Compound(t.kind, MeaningsOf(t.kids))
    ensures t.Node? ==> forall i | 0 <= i < |t.kids| :: MeaningsOf(t.kids)[i] == MeaningOf(t.kids[i])
  {
    hide MeaningsOf;
    if t.Node? { MeaningsCount(t.kids); }
  }

  lemma SomeMeanings(ts: seq<Tree>, from: nat, to: nat)
    requires from <= to <= |ts|
    ensures |MeaningsOf(ts)| == |ts| && MeaningsOf(ts[from..to]) == MeaningsOf(ts)[from..to]
  {
    hide MeaningsOf, MeaningOf;
    MeaningsCount(ts);
    MeaningsCount(ts[from..to]);
  }

  // ---- concatenation ----

  /** Copies are collected in a list of their own, while region `p` waits empty. */
  ghost predicate Collecting(r0: Regions, f0: seq<nat>, regions: Regions, free: seq<nat>, p: nat, list: seq<Value>, copies: seq<Tree>) {
    && Took(r0, f0, regions, free, multiset{p} + RegsAll(copies))
    && p < |regions| && Lists(list, copies) && HoldsAll(regions, copies)
  }

  lemma CollectNext(r0: Regions, f0: seq<nat>, r1: Regions, f1: seq<nat>, p: nat, list: seq<Value>, copies: seq<Tree>,
                    r2: Regions, f2: seq<nat>, c: Tree)
    requires FreeOk(r0, f0) && Collecting(r0, f0, r1, f1, p, list, copies) && Took(r1, f1, r2, f2, Regs(c)) && Holds(r2, c)
    ensures Collecting(r0, f0, r2, f2, p, list + [Val(c)], copies + [c])
  {
    hide FreeOk, Holds, Regs, RegsAll, Range;
    var m := multiset{p} + RegsAll(copies);
    TookThen(r0, f0, r1, f1, m, r2, f2, Regs(c));
    RegsAppend(copies, c);
    assert m + Regs(c) == multiset{p} + RegsAll(copies + [c]);
    hide Took;
    CloneKeeps(r0, f0, r1, f1, p, copies, r2, f2);
  }

  lemma CollectDone(r0: Regions, f0: seq<nat>, r1: Regions, f1: seq<nat>, kind: Kind, p: nat, list: seq<Value>, copies: seq<Tree>)
    requires FreeOk(r0, f0) && Collecting(r0, f0, r1, f1, p, list, copies)
    ensures var r2, c := r1[p := list], Node(kind, p, copies);
      Holds(r2, c) && Took(r0, f0, r2, f1, Regs(c))
  {
    hide RegsAll, Range;
    var all := multiset{p} + RegsAll(copies);
    var r2, c := r1[p := list], Node(kind, p, copies);
    TookFresh(r0, f0, r1, f1, all, p);
    InFree(f1, p);
    InFree(f0, p);
    forall i | 0 <= i < |copies| ensures Holds(r2, copies[i]) {
      RegsAt(copies, i);
      HoldsFrame(r1, r2, copies[i]);
    }
  }

  lemma CollectStart(r0: Regions, f0: seq<nat>, regions: Regions, free: seq<nat>, p: nat)
    requires Took(r0, f0, regions, free, multiset{p}) && p < |regions|
    ensures Collecting(r0, f0, regions, free, p, [], [])
  {
    assert multiset{p} + RegsAll([]) == multiset{p};
  }

  lemma CollectTook(r0: Regions, f0: seq<nat>, regions: Regions, free: seq<nat>, p: nat, list: seq<Value>, copies: seq<Tree>)
    requires Collecting(r0, f0, regions, free, p, list, copies)
    ensures Took(r0, f0, regions, free, multiset{p} + RegsAll(copies))
  {
  }

  lemma CollectMeaning(before: seq<Tree>, kids: seq<Tree>, from: nat, k: nat, copies: seq<Tree>, c: Tree)
    requires from <= k < |kids| && MeaningsOf(copies) == MeaningsOf(before) + MeaningsOf(kids[from..k]) && MeaningOf(c) == MeaningOf(kids[k])
    ensures MeaningsOf(copies + [c]) == MeaningsOf(before) + MeaningsOf(kids[from..k + 1])
  {
    hide MeaningOf, MeaningsOf;
    MeaningsAppend(copies, c);
    MeaningsAppend(kids[from..k], kids[k]);
    assert kids[from..k + 1] == kids[from..k] + [kids[k]];
  }

  /** Append copies of some successive parts of `t` to the list. */
  method AppendCopies(store: Store, pos: nat, from: nat, to: nat, list: seq<Value>, ghost t: Tree, ghost r0: Regions, ghost f0: seq<nat>,
                      ghost p: nat, ghost before: seq<Tree>)
      returns (longer: seq<Value>, ghost copies: seq<Tree>)
    requires FreeOk(r0, f0) && Holds(r0, t) && t.Node? && t.pos == pos && forall x <- Regs(t) :: x !in f0
    requires from <= to <= |t.kids| && Collecting(r0, f0, store.regions, store.free, p, list, before)
    modifies store`regions, store`free
    ensures Collecting(r0, f0, store.regions, store.free, p, longer, copies)
    ensures MeaningsOf(copies) == MeaningsOf(before) + MeaningsOf(t.kids[from..to])
  {
    hide FreeOk, Took, Regs, RegsAll, Holds, Collecting, MeaningOf, MeaningsOf;
    longer, copies := list, before;
    assert MeaningsOf(t.kids[from..from]) == [] by { MeaningsCount(t.kids[from..from]); }
    for k := from to to
      invariant Collecting(r0, f0, store.regions, store.free, p, longer, copies)
      invariant MeaningsOf(copies) == MeaningsOf(before) + MeaningsOf(t.kids[from..k])
    {
      CollectTook(r0, f0, store.regions, store.free, p, longer, copies);
      ClonePart(r0, f0, store.regions, store.free, multiset{p} + RegsAll(copies), t, k);
      ghost var r1, f1 := store.regions, store.free;
      var cloned;
      ghost var c;
      cloned, c := store.CloneValue(store.regions[pos][k], t.kids[k]);
      CollectNext(r0, f0, r1, f1, p, longer, copies, store.regions, store.free, c);
      CollectMeaning(before, t.kids, from, k, copies, c);
      longer, copies := longer + [cloned], copies + [c];
    }
  }

  /** `@` gives a new value that means the parts of both operands in order; the operands, which may refer to
      one and the same value, are left as they were. */
  method Concatenate(store: Store, lhs: Value, rhs: Value, ghost a: Tree, ghost b: Tree, ghost temps: seq<Tree>)
      returns (r: Value, ghost c: Tree)
    requires store.Valid(temps)
    requires Readable(store.stack, store.boundary, store.regions, store.free, lhs, a)
    requires Readable(store.stack, store.boundary, store.regions, store.free, rhs, b)
    requires a.Node? && b.Node? && a.kind == b.kind && (a.kind == Message || a.kind == String || a.kind == Array)
    modifies store`regions, store`free
    ensures store.Valid([c] + temps) && r == Val(c)
    ensures MeaningOf(c) == Compound(a.kind, MeaningsOf(a.kids) + MeaningsOf(b.kids))
    ensures Took(old(store.regions), old(store.free), store.regions, store.free, Regs(c))
  {
    hide Ok, FreeOk, Took, Regs, RegsAll, Holds, Collecting, MeaningOf, MeaningsOf;
    ghost var r0, f0, forest := store.regions, store.free, store.slots + temps;
    OkFree(r0, f0, forest);
    var target := store.AllocHeap();
    CollectStart(r0, f0, store.regions, store.free, target);
    ReadableKept(store.stack, store.boundary, r0, f0, lhs, a, [], store.regions, store.free, multiset{target});
    ReadableKept(store.stack, store.boundary, r0, f0, rhs, b, [], store.regions, store.free, multiset{target});
    assert store.stack + [] == store.stack;
    var l, m := store.MaybeReadRef(lhs), store.MaybeReadRef(rhs);
    PartsHold(store.regions, a);
    PartsHold(store.regions, b);
    var size, size' := |store.regions[l.pos]|, |store.regions[m.pos]|;
    var list;
    ghost var copies: seq<Tree>;
    list, copies := AppendCopies(store, l.pos, 0, size, [], a, r0, f0, target, []);
    list, copies := AppendCopies(store, m.pos, 0, size', list, b, r0, f0, target, copies);
    assert a.kids[0..size] == a.kids && b.kids[0..size'] == b.kids;
    CollectDone(r0, f0, store.regions, store.free, l.kind, target, list, copies);
    CollectBound(r0, f0, store.regions, store.free, target, list, copies);
    store.regions := store.regions[target := list];
    r, c := OnHeap(l.kind, target), Node(l.kind, target, copies);
    OkTook(r0, f0, forest, store.regions, store.free, c);
    OkPush(store.regions, store.free, store.slots, temps, c);
    assert store.slots + [c] + temps == store.slots + ([c] + temps);
    ConcatMeaning(a, b, c);
  }

  /** A slice is a new value of the same kind that means the parts in the range, in order. */
  method Slice(store: Store, subject: Value, from: nat, to: nat, ghost t: Tree, ghost temps: seq<Tree>)
      returns (r: Value, ghost c: Tree)
    requires store.Valid(temps) && Readable(store.stack, store.boundary, store.regions, store.free, subject, t)
    requires t.Node? && from <= to <= |t.kids|
    modifies store`regions, store`free
    ensures store.Valid([c] + temps) && r == Val(c)
    ensures MeaningOf(c) == Compound(t.kind, MeaningsOf(t.kids[from..to]))
  {
    hide Ok, FreeOk, Took, Regs, RegsAll, Holds, Collecting, MeaningOf, MeaningsOf;
    ghost var r0, f0, forest := store.regions, store.free, store.slots + temps;
    OkFree(r0, f0, forest);
    var target := store.AllocHeap();
    CollectStart(r0, f0, store.regions, store.free, target);
    ReadableKept(store.stack, store.boundary, r0, f0, subject, t, [], store.regions, store.free, multiset{target});
    assert store.stack + [] == store.stack;
    var l := store.MaybeReadRef(subject);
    var list;
    ghost var copies: seq<Tree>;
    list, copies := AppendCopies(store, l.pos, from, to, [], t, r0, f0, target, []);
    CollectDone(r0, f0, store.regions, store.free, l.kind, target, list, copies);
    CollectBound(r0, f0, store.regions, store.free, target, list, copies);
    store.regions := store.regions[target := list];
    r, c := OnHeap(l.kind, target), Node(l.kind, target, copies);
    OkTook(r0, f0, forest, store.regions, store.free, c);
    OkPush(store.regions, store.free, store.slots, temps, c);
    assert store.slots + [c] + temps == store.slots + ([c] + temps);
    SliceMeaning(c, t.kids[from..to]);
  }

  lemma SliceMeaning(c: Tree, parts: seq<Tree>)
    requires c.Node? && MeaningsOf(c.kids) == MeaningsOf([]) + MeaningsOf(parts)
    ensures MeaningOf(c) == Compound(c.kind, MeaningsOf(parts))
  {
    assert MeaningsOf([]) + MeaningsOf(parts) == MeaningsOf(parts);
  }

  lemma CollectBound(r0: Regions, f0: seq<nat>, regions: Regions, free: seq<nat>, p: nat, list: seq<Value>, copies: seq<Tree>)
    requires Collecting(r0, f0, regions, free, p, list, copies)
    ensures p < |regions|
  {
  }

  lemma ConcatMeaning(a: Tree, b: Tree, c: Tree)
    requires a.Node? && b.Node? && c.Node? && c.kind == a.kind
    requires MeaningsOf(c.kids) == MeaningsOf([]) + MeaningsOf(a.kids) + MeaningsOf(b.kids)
    ensures MeaningOf(c) == Compound(a.kind, MeaningsOf(a.kids) + MeaningsOf(b.kids))
  {
    assert MeaningsOf([]) + MeaningsOf(a.kids) == MeaningsOf(a.kids);
  }

  // ---- assignment ----

  /** Trading the tree of a slot for one held elsewhere. */
  lemma OkTraded(regions: Regions, free: seq<nat>, slots: seq<Tree>, k: nat, t: Tree, temps: seq<Tree>)
    requires Ok(regions, free, slots + ([t] + temps)) && k < |slots|
    ensures Ok(regions, free, slots[k := t] + ([slots[k]] + temps))
  {
    hide Holds, RegsAll, Regs;
    var a, b := slots + ([t] + temps), slots[k := t] + ([slots[k]] + temps);
    RegsAround(slots, t, temps);
    RegsAround(slots[k := t], slots[k], temps);
    RegsReplaced(slots, k, t);
    var x, y, z := RegsAll(slots), RegsAll(slots[k := t]), RegsAll(temps);
    assert y + Regs(slots[k]) == x + Regs(t);
    assert RegsAll(b) == (y + Regs(slots[k])) + z == (x + Regs(t)) + z == RegsAll(a);
    assert forall i | 0 <= i < |b| :: b[i] == a[if i == k then |slots| else if i == |slots| then k else i];
    OkSame(regions, free, a, b);
  }

  lemma RegsAround(slots: seq<Tree>, t: Tree, temps: seq<Tree>)
    ensures RegsAll(slots + ([t] + temps)) == RegsAll(slots) + Regs(t) + RegsAll(temps)
  {
    hide RegsAll, Regs;
    RegsConcat(slots, [t] + temps);
    RegsConcat([t], temps);
    RegsOne(t);
  }

  /** The target may hold a value of this sort. */
  predicate Assignable(target: Value, value: Value) {
    match target
    case Unassigned => true
    case Input(_) => value.Input?
    case Output(_) => value.Output?
    case Bool(_) => value.Bool?
    case Char(_) => value.Char?
    case Integer(ty, _) => value.Integer? && value.ty == ty
    case Enum(_) => value.Enum?
    case OnHeap(kind, _) => value.OnHeap? && SameKind(kind, value.kind)
    case _ => false
  }

  /** What nobody owns any more after a variable that held `was` has been assigned. */
  ghost function LostBy(was: Tree): seq<Tree> {
    if was.Node? && was.kind == String then [was] else []
  }

  /** `=` on a variable: the variable takes over the value and what it owned before is given back, except that
      the region of a string is neither given back nor owned by anything any more. */
  method AssignVariable(store: Store, pos: nat, value: Value, ghost t: Tree, ghost temps: seq<Tree>) returns (ghost lost: seq<Tree>)
    requires store.Valid([t] + temps) && value == Val(t) && store.boundary + 1 + pos < |store.stack|
    requires Assignable(store.stack[store.boundary + 1 + pos], value)
    modifies store`stack, store`slots, store`regions, store`free
    ensures store.stack == old(store.stack)[store.boundary + 1 + pos := value]
    ensures store.slots == old(store.slots)[store.boundary + 1 + pos := t]
    ensures store.Valid(lost + temps)
    ensures lost == LostBy(old(store.slots)[store.boundary + 1 + pos])
    ensures store.Valid(temps) <==> lost == []
  {
    hide Ok, Gave;
    var cur := store.boundary + 1 + pos;
    var was := store.stack[cur];
    ghost var tree := store.slots[cur];
    OkTraded(store.regions, store.free, store.slots, cur, t, temps);
    LeafOrNode(store.regions, store.free, store.slots + ([t] + temps), cur);
    OkHolds(store.regions, store.free, store.slots + ([t] + temps), cur);
    assert (store.slots + ([t] + temps))[cur] == tree;
    store.stack, store.slots := store.stack[cur := value], store.slots[cur := t];
    if was.OnHeap? && was.kind == String {
      lost := [tree];
      PartsHold(store.regions, tree);
      LossShows(store.regions, store.free, store.slots, tree, temps);
    } else {
      lost := [];
      store.DropValue(was, tree, temps);
      assert [] + temps == temps;
    }
  }

  lemma LeafOrNode(regions: Regions, free: seq<nat>, forest: seq<Tree>, k: nat)
    requires Ok(regions, free, forest) && k < |forest|
    ensures Val(forest[k]).OnHeap? <==> forest[k].Node?
  {
    assert Holds(regions, forest[k]);
  }

  /** A tree that nobody owns shows: the regions are no longer accounted for without it. */
  lemma LossShows(regions: Regions, free: seq<nat>, slots: seq<Tree>, was: Tree, temps: seq<Tree>)
    requires Ok(regions, free, slots + ([was] + temps)) && was.Node?
    ensures !Ok(regions, free, slots + temps)
  {
    assert Regs(was)[was.pos] > 0;
    hide Holds, RegsAll, Regs;
    RegsAround(slots, was, temps);
    RegsConcat(slots, temps);
    assert (RegsAll(slots + ([was] + temps)) + multiset(free))[was.pos]
        == (RegsAll(slots + temps) + multiset(free))[was.pos] + Regs(was)[was.pos];
  }
}
