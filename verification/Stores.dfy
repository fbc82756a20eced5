/** `Store`: a stack of frames, and a simulated heap whose regions have one owner each. */
module Stores {
  import opened Values
  import opened Frames

  // ---- cloning ----

  /** The state of the cloning loop: region `p` of the copy lists the copies made so far. */
  ghost predicate Cloning(r0: Regions, f0: seq<nat>, regions: Regions, free: seq<nat>, p: nat, copies: seq<Tree>) {
    && Took(r0, f0, regions, free, multiset{p} + RegsAll(copies))
    && p < |regions| && Lists(regions[p], copies) && HoldsAll(regions, copies)
  }

  lemma CloneNext(r0: Regions, f0: seq<nat>, r1: Regions, f1: seq<nat>, p: nat, copies: seq<Tree>, r2: Regions, f2: seq<nat>, c: Tree)
    requires FreeOk(r0, f0) && Cloning(r0, f0, r1, f1, p, copies) && Took(r1, f1, r2, f2, Regs(c)) && Holds(r2, c)
    ensures p < |r2| && Cloning(r0, f0, r2[p := r2[p] + [Val(c)]], f2, p, copies + [c])
  {
    hide FreeOk, Holds, Regs, RegsAll, Range;
    var m := multiset{p} + RegsAll(copies);
    TookThen(r0, f0, r1, f1, m, r2, f2, Regs(c));
    RegsAppend(copies, c);
    assert m + Regs(c) == multiset{p} + RegsAll(copies + [c]);
    hide Took;
    CloneKeeps(r0, f0, r1, f1, p, copies, r2, f2);
    ClonePush(r0, f0, r2, f2, p, copies + [c]);
  }

  /** The copies made so far, and the region that lists them, survive the next copy. */
  lemma CloneKeeps(r0: Regions, f0: seq<nat>, r1: Regions, f1: seq<nat>, p: nat, copies: seq<Tree>, r2: Regions, f2: seq<nat>)
    requires FreeOk(r0, f0) && Took(r0, f0, r1, f1, multiset{p} + RegsAll(copies)) && p < |r1| && HoldsAll(r1, copies)
    requires exists m :: Took(r1, f1, r2, f2, m)
    ensures HoldsAll(r2, copies) && |r1| <= |r2| && r2[p] == r1[p]
  {
    hide FreeOk, Holds, Regs, RegsAll, Range;
    var m :| Took(r1, f1, r2, f2, m);
    var all := multiset{p} + RegsAll(copies);
    assert p !in f1 by { InFree(f1, p); TookFresh(r0, f0, r1, f1, all, p); }
    forall i | 0 <= i < |copies| ensures Holds(r2, copies[i]) {
      RegsAt(copies, i);
      forall x | x in Regs(copies[i]) ensures x !in f1 { InFree(f1, x); TookFresh(r0, f0, r1, f1, all, x); }
      TookKeeps(r1, f1, r2, f2, m, copies[i]);
    }
  }

  /** Writing to the new region disturbs neither the copies nor anything else in use. */
  lemma ClonePush(r0: Regions, f0: seq<nat>, r2: Regions, f2: seq<nat>, p: nat, copies: seq<Tree>)
    requires FreeOk(r0, f0) && Took(r0, f0, r2, f2, multiset{p} + RegsAll(copies))
    requires copies != [] && p < |r2| && Lists(r2[p], copies[..|copies| - 1]) && HoldsAll(r2, copies)
    ensures Cloning(r0, f0, r2[p := r2[p] + [Val(copies[|copies| - 1])]], f2, p, copies)
  {
    hide Holds, Regs, RegsAll, Range;
    var all := multiset{p} + RegsAll(copies);
    var r3 := r2[p := r2[p] + [Val(copies[|copies| - 1])]];
    TookFresh(r0, f0, r2, f2, all, p);
    InFree(f2, p);
    InFree(f0, p);
    forall i | 0 <= i < |copies| ensures Holds(r3, copies[i]) {
      RegsAt(copies, i);
      HoldsFrame(r2, r3, copies[i]);
    }
  }

  lemma AllocFree(regions: Regions, free: seq<nat>)
    requires FreeOk(regions, free) && free != []
    ensures var p := free[|free| - 1];
      p < |regions| && regions[p] == [] && Took(regions, free, regions, free[..|free| - 1], multiset{p})
  {
    var p, rest := free[|free| - 1], free[..|free| - 1];
    assert p in free;
    assert free == rest + [p];
    assert multiset(free) == multiset(rest) + multiset{p};
    assert p in multiset(free) && multiset(free)[p] == 1;
    forall f | f in rest ensures f < |regions| && regions[f] == [] { assert f in free; }
    forall f | f in multiset(rest) ensures multiset(rest)[f] == 1 {
      assert f in multiset(free);
    }
  }

  lemma AllocNew(regions: Regions)
    ensures Took(regions, [], regions + [[]], [], multiset{|regions|})
  {
    assert Range(|regions|, |regions| + 1) == Range(|regions|, |regions|) + multiset{|regions|};
  }

  // ---- dropping ----

  /** No region is owned twice, or owned and free. */
  ghost predicate Once(m: multiset<nat>, free: seq<nat>) {
    forall x :: m[x] + multiset(free)[x] <= 1
  }

  /** The state of the dropping loop: the first `k` parts have been given back. */
  ghost predicate Dropping(r0: Regions, f0: seq<nat>, regions: Regions, free: seq<nat>, kids: seq<Tree>, k: nat) {
    k <= |kids| && Gave(r0, f0, regions, free, RegsAll(kids[..k]))
  }

  lemma DropReady(r0: Regions, f0: seq<nat>, regions: Regions, free: seq<nat>, pos: nat, kids: seq<Tree>, k: nat)
    requires Dropping(r0, f0, regions, free, kids, k) && k < |kids| && pos < |r0| && HoldsAll(r0, kids)
    requires Once(multiset{pos} + RegsAll(kids), f0)
    ensures Holds(regions, kids[k]) && Once(Regs(kids[k]), free) && regions[pos] == r0[pos]
  {
    hide FreeOk, Holds, Regs, RegsAll;
    RegsAt(kids, k);
    var m := multiset{pos} + RegsAll(kids);
    assert forall x :: m[x] == multiset{pos}[x] + RegsAll(kids[..k])[x] + Regs(kids[k])[x] + RegsAll(kids[k + 1..])[x];
    forall x | x in Regs(kids[k]) ensures x !in RegsAll(kids[..k]) { assert m[x] <= 1; }
    assert pos !in RegsAll(kids[..k]) by { assert m[pos] <= 1; }
    HoldsFrame(r0, regions, kids[k]);
    forall x ensures Regs(kids[k])[x] + multiset(free)[x] <= 1 {
      assert m[x] + multiset(f0)[x] <= 1;
    }
  }

  lemma DropNext(r0: Regions, f0: seq<nat>, r1: Regions, f1: seq<nat>, kids: seq<Tree>, k: nat, r2: Regions, f2: seq<nat>)
    requires Dropping(r0, f0, r1, f1, kids, k) && k < |kids| && Gave(r1, f1, r2, f2, Regs(kids[k]))
    ensures Dropping(r0, f0, r2, f2, kids, k + 1) && FreeOk(r2, f2) && |r2| == |r0|
  {
    assert FreeOk(r2, f2) && |r2| == |r0|;
    hide Gave, Regs, RegsAll;
    GaveThen(r0, f0, r1, f1, RegsAll(kids[..k]), r2, f2, Regs(kids[k]));
    assert kids[..k + 1] == kids[..k] + [kids[k]];
    RegsAppend(kids[..k], kids[k]);
  }

  lemma OnceCounts(m: multiset<nat>, f0: seq<nat>, f2: seq<nat>)
    requires Once(m, f0) && multiset(f2) == multiset(f0) + m
    ensures forall f <- multiset(f2) :: multiset(f2)[f] == 1
  {
    forall f | f in multiset(f2) ensures multiset(f2)[f] == 1 {
      assert m[f] + multiset(f0)[f] <= 1;
    }
  }

  lemma DropLast(r0: Regions, f0: seq<nat>, r1: Regions, f1: seq<nat>, pos: nat, kids: seq<Tree>)
    requires Dropping(r0, f0, r1, f1, kids, |kids|) && pos < |r0| && Once(multiset{pos} + RegsAll(kids), f0)
    ensures Gave(r0, f0, r1[pos := []], f1 + [pos], multiset{pos} + RegsAll(kids))
  {
    hide RegsAll;
    assert kids[..|kids|] == kids;
    var m, f2 := multiset{pos} + RegsAll(kids), f1 + [pos];
    assert multiset(f2) == multiset(f1) + multiset{pos} == multiset(f0) + m;
    hide Once;
    OnceCounts(m, f0, f2);
    forall f | f in f2 ensures f < |r1| && r1[pos := []][f] == [] { }
  }

  // ---- whole stores ----

  lemma OkFree(regions: Regions, free: seq<nat>, forest: seq<Tree>)
    requires Ok(regions, free, forest)
    ensures FreeOk(regions, free)
  {
    hide RegsAll, Holds;
    forall f | f in multiset(free) ensures multiset(free)[f] == 1 {
      assert (RegsAll(forest) + multiset(free))[f] <= 1;
    }
  }

  /** A tree of the forest shares nothing with the free regions, nor with itself. */
  lemma OkOnce(regions: Regions, free: seq<nat>, forest: seq<Tree>, k: nat)
    requires Ok(regions, free, forest) && k < |forest|
    ensures Once(Regs(forest[k]), free) && forall x <- Regs(forest[k]) :: x !in free
  {
    hide RegsAll, Holds, Regs;
    RegsAt(forest, k);
    forall x ensures Regs(forest[k])[x] + multiset(free)[x] <= 1 {
      assert (RegsAll(forest) + multiset(free))[x] <= 1;
    }
    forall x | x in Regs(forest[k]) ensures x !in free {
      InFree(free, x);
      assert Regs(forest[k])[x] + multiset(free)[x] <= 1;
    }
  }

  /** A copy joins the forest; all other trees are where they were. */
  lemma OkTook(regions: Regions, free: seq<nat>, forest: seq<Tree>, regions': Regions, free': seq<nat>, c: Tree)
    requires Ok(regions, free, forest) && Took(regions, free, regions', free', Regs(c)) && Holds(regions', c)
    ensures Ok(regions', free', forest + [c])
  {
    hide Holds, Regs, RegsAll;
    OkFree(regions, free, forest);
    forall i | 0 <= i < |forest| ensures Holds(regions', forest[i]) {
      OkOnce(regions, free, forest, i);
      TookKeeps(regions, free, regions', free', Regs(c), forest[i]);
    }
    RegsAppend(forest, c);
    RangeSum(|regions|, |regions'|);
    hide Range, FreeOk;
    Regroup(RegsAll(forest), Regs(c), multiset(free'), multiset(free), Range(|regions|, |regions'|));
  }

  lemma RangeSum(n: nat, n': nat)
    requires n <= n'
    ensures Range(0, n) + Range(n, n') == Range(0, n')
  {
  }

  lemma Regroup(a: multiset<nat>, c: multiset<nat>, f': multiset<nat>, f: multiset<nat>, r: multiset<nat>)
    requires f + r == c + f'
    ensures (a + c) + f' == (a + f) + r
  {
    assert (a + c) + f' == a + (c + f');
    assert (a + f) + r == a + (f + r);
  }

  /** A dropped tree makes way for a value that owns nothing; all other trees are where they were. */
  lemma OkGave(regions: Regions, free: seq<nat>, forest: seq<Tree>, k: nat, regions': Regions, free': seq<nat>, v: Value)
    requires Ok(regions, free, forest) && k < |forest| && Gave(regions, free, regions', free', Regs(forest[k]))
    requires !v.OnHeap? && !v.Ref?
    ensures Ok(regions', free', forest[k := Leaf(v)])
  {
    hide Holds, RegsAll;
    var after := forest[k := Leaf(v)];
    RegsReplaced(forest, k, Leaf(v));
    assert Regs(Leaf(v)) == multiset{};
    hide Regs;
    forall i | 0 <= i < |forest| && i != k ensures Holds(regions', forest[i]) {
      OkApart(regions, free, forest, i, k);
      HoldsFrame(regions, regions', forest[i]);
    }
    assert Holds(regions', Leaf(v)) by { LeafHolds(regions', v); }
    assert RegsAll(after) + multiset(free') == RegsAll(after) + Regs(forest[k]) + multiset(free) == RegsAll(forest) + multiset(free);
  }

  lemma LeafHolds(regions: Regions, v: Value)
    requires !v.OnHeap? && !v.Ref?
    ensures Holds(regions, Leaf(v)) && Regs(Leaf(v)) == multiset{}
  {
  }

  lemma OkApart(regions: Regions, free: seq<nat>, forest: seq<Tree>, i: nat, k: nat)
    requires Ok(regions, free, forest) && i < |forest| && k < |forest| && i != k
    ensures forall x <- Regs(forest[i]) :: x !in Regs(forest[k])
  {
    hide Holds, Regs, RegsAll;
    RegsAt(forest, k);
    var rest := forest[..k] + forest[k + 1..];
    var j := if i < k then i else i - 1;
    assert rest[j] == forest[i];
    RegsConcat(forest[..k], forest[k + 1..]);
    RegsAt(rest, j);
    forall x | x in Regs(forest[i]) ensures x !in Regs(forest[k]) {
      assert RegsAll(rest)[x] >= Regs(rest[j])[x] > 0;
      assert RegsAll(forest)[x] == RegsAll(rest)[x] + Regs(forest[k])[x];
      assert (RegsAll(forest) + multiset(free))[x] <= 1;
    }
  }

  /** The forest may be listed in any way that keeps what it owns. */
  lemma OkSame(regions: Regions, free: seq<nat>, forest: seq<Tree>, forest': seq<Tree>)
    requires Ok(regions, free, forest) && HoldsAll(regions, forest') && RegsAll(forest') == RegsAll(forest)
    ensures Ok(regions, free, forest')
  {
  }

  // ---- the stack ----

  /** The slots from `n` on are cleared. */
  function Cleared<T>(s: seq<T>, n: nat, blank: T): seq<T> {
    if n <= |s| then s[..n] + seq(|s| - n, _ => blank) else s
  }

  /** `v` is a value of the expression stack that denotes `t`: it owns the tree, or refers to it in the store. */
  ghost predicate Readable(stack: seq<Value>, boundary: nat, regions: Regions, free: seq<nat>, v: Value, t: Tree) {
    && Holds(regions, t) && (forall x <- Regs(t) :: x !in free)
    && match v
       case Ref(Stack(pos)) => boundary + 1 + pos < |stack| && stack[boundary + 1 + pos] == Val(t)
       case Ref(Heap(r, i)) => r < |regions| && r !in free && i < |regions[r]| && regions[r][i] == Val(t)
       case _ => v == Val(t)
  }

  /** The trees that the values themselves own. */
  ghost function Owned(args: seq<Value>, trees: seq<Tree>): seq<Tree>
    requires |args| == |trees|
  {
    if args == [] then [] else (if args[0].Ref? then [] else [trees[0]]) + Owned(args[1..], trees[1..])
  }

  lemma ReadableKept(stack: seq<Value>, boundary: nat, regions: Regions, free: seq<nat>, v: Value, t: Tree,
                     more: seq<Value>, regions': Regions, free': seq<nat>, m: multiset<nat>)
    requires Readable(stack, boundary, regions, free, v, t) && FreeOk(regions, free) && Took(regions, free, regions', free', m)
    ensures Readable(stack + more, boundary, regions', free', v, t)
  {
    hide Holds, Regs, FreeOk, Range;
    TookKeeps(regions, free, regions', free', m, t);
    if v.Ref? && v.id.Heap? {
      InFree(free', v.id.region);
      TookFresh(regions, free, regions', free', m, v.id.region);
    }
  }

  /** The forest with one more tree pushed on the stack. */
  lemma OkPush(regions: Regions, free: seq<nat>, slots: seq<Tree>, temps: seq<Tree>, t: Tree)
    requires Ok(regions, free, slots + temps + [t]) || Ok(regions, free, slots + ([t] + temps))
    ensures Ok(regions, free, slots + [t] + temps)
  {
    hide Holds, Regs, RegsAll;
    assert slots + ([t] + temps) == slots + [t] + temps;
    if Ok(regions, free, slots + temps + [t]) {
      var a, b := slots + temps + [t], slots + [t] + temps;
      RegsAppend(slots + temps, t);
      RegsConcat(slots, temps);
      RegsConcat(slots + [t], temps);
      RegsAppend(slots, t);
      forall i | 0 <= i < |b| ensures Holds(regions, b[i]) {
        var j := if i < |slots| then i else if i == |slots| then |a| - 1 else i - 1;
        assert b[i] == a[j];
      }
      OkSame(regions, free, a, b);
    }
  }

  /** A value that owns nothing may be pushed or popped freely. */
  lemma OkBlank(regions: Regions, free: seq<nat>, slots: seq<Tree>, temps: seq<Tree>, v: Value)
    requires !v.OnHeap? && !v.Ref?
    ensures Ok(regions, free, slots + temps) <==> Ok(regions, free, slots + [Leaf(v)] + temps)
  {
    hide Holds, Regs, RegsAll;
    var a, b, t := slots + temps, slots + [Leaf(v)] + temps, Leaf(v);
    LeafHolds(regions, v);
    RegsConcat(slots, temps);
    RegsConcat(slots + [t], temps);
    RegsAppend(slots, t);
    assert b[|slots|] == t;
    assert forall i | 0 <= i < |a| :: a[i] == b[if i < |slots| then i else i + 1];
    assert forall i | 0 <= i < |b| && i != |slots| :: b[i] == a[if i < |slots| then i else i - 1];
  }

  class Store {
    var stack: seq<Value>
    var boundary: nat
    var regions: Regions
    var free: seq<nat>
    ghost var slots: seq<Tree>

    ghost function Frame(): FrameState
      reads this
    {
      FrameState(stack, slots, boundary)
    }

    /** The value an address refers to. */
    predicate Addressable(id: ValueId)
      reads this
    {
      match id
      case Stack(pos) => boundary + 1 + pos < |stack|
      case Heap(region, index) => region < |regions| && index < |regions[region]|
    }

    /** `read_ref` */
    function ReadRef(id: ValueId): Value
      requires Addressable(id)
      reads this
    {
      match id
      case Stack(pos) => stack[boundary + 1 + pos]
      case Heap(region, index) => regions[region][index]
    }

    /** `maybe_read_ref` */
    function MaybeReadRef(v: Value): Value
      requires v.Ref? ==> Addressable(v.id)
      reads this
    {
      if v.Ref? then ReadRef(v.id) else v
    }

    method AllocHeap() returns (p: nat)
      requires FreeOk(regions, free)
      modifies this`regions, this`free
      ensures p < |regions| && regions[p] == [] && Took(old(regions), old(free), regions, free, multiset{p})
      ensures old(free) == [] ==> p == |old(regions)| && regions == old(regions) + [[]] && free == []
      ensures old(free) != [] ==> regions == old(regions) && old(free) == free + [p]
    {
      if free == [] {
        AllocNew(regions);
        p := |regions|;
        regions := regions + [[]];
      } else {
        AllocFree(regions, free);
        p := free[|free| - 1];
        free := free[..|free| - 1];
      }
    }

    /** A copy that denotes the same tree on regions that were free or are new; nothing in use changes. */
    method CloneValue(value: Value, ghost t: Tree) returns (r: Value, ghost c: Tree)
      requires value.Ref? ==> Addressable(value.id)
      requires MaybeReadRef(value) == Val(t) && Holds(regions, t)
      requires FreeOk(regions, free) && forall x <- Regs(t) :: x !in free
      modifies this`regions, this`free
      ensures r == Val(c) && Holds(regions, c) && MeaningOf(c) == MeaningOf(t)
      ensures Took(old(regions), old(free), regions, free, Regs(c))
      decreases t, if value.Ref? then 2 else 1
    {
      hide FreeOk, Took;
      if !value.OnHeap? {
        if value.Ref? {
          r, c := CloneValue(ReadRef(value.id), t);
        } else {
          TookNothing(regions, free);
          r, c := value, t;
        }
        return;
      }
      r, c := CloneRegion(value.kind, value.pos, t);
    }

    method CloneRegion(kind: Kind, source: nat, ghost t: Tree) returns (r: Value, ghost c: Tree)
      requires Val(t) == OnHeap(kind, source) && Holds(regions, t)
      requires FreeOk(regions, free) && forall x <- Regs(t) :: x !in free
      modifies this`regions, this`free
      ensures r == Val(c) && Holds(regions, c) && MeaningOf(c) == MeaningOf(t)
      ensures Took(old(regions), old(free), regions, free, Regs(c))
      decreases t, 0
    {
      hide FreeOk, Took, Regs, RegsAll, Holds, Cloning, MeaningOf, MeaningsOf;
      PartsHold(regions, t);
      ghost var kids := t.kids;
      var target := AllocHeap();
      TookKeeps(old(regions), old(free), regions, free, multiset{target}, t);
      PartsHold(regions, t);
      ghost var copies: seq<Tree> := [];
      CloneStart(old(regions), old(free), regions, free, target);
      var index, count := 0, |regions[source]|;
      while index < count
        invariant 0 <= index <= count == |kids| && |copies| == index
        invariant Cloning(old(regions), old(free), regions, free, target, copies)
        invariant MeaningsOf(copies) == MeaningsOf(kids[..index])
      {
        CloningTook(old(regions), old(free), regions, free, target, copies);
        ClonePart(old(regions), old(free), regions, free, multiset{target} + RegsAll(copies), t, index);
        ghost var before, beforeFree := regions, free;
        var cloned;
        ghost var copy;
        cloned, copy := CloneValue(regions[source][index], kids[index]);
        CloneNext(old(regions), old(free), before, beforeFree, target, copies, regions, free, copy);
        CloneMeaning(kids, index, copies, copy);
        regions := regions[target := regions[target] + [cloned]];
        copies := copies + [copy];
        index := index + 1;
      }
      assert kids[..index] == kids;
      r, c := OnHeap(kind, target), Node(kind, target, copies);
      CloneDone(old(regions), old(free), regions, free, t, c);
    }

    /** The tree's regions become free, and nothing else changes. */
    method DropHeapPos(pos: nat, ghost t: Tree)
      requires t.Node? && t.pos == pos && Holds(regions, t) && FreeOk(regions, free) && Once(Regs(t), free)
      modifies this`regions, this`free
      ensures Gave(old(regions), old(free), regions, free, Regs(t))
      decreases t
    {
      hide FreeOk, Gave, RegsAll, Once, Dropping;
      ghost var kids := t.kids;
      var index, count := 0, |regions[pos]|;
      DropStart(regions, free, kids);
      while index < count
        invariant 0 <= index <= count == |kids| && pos < |regions|
        invariant FreeOk(regions, free) && Dropping(old(regions), old(free), regions, free, kids, index)
      {
        DropReady(old(regions), old(free), regions, free, pos, kids, index);
        ghost var before, beforeFree := regions, free;
        var part := regions[pos][index];
        if part.OnHeap? {
          DropHeapPos(part.pos, kids[index]);
        } else {
          GaveNothing(regions, free);
        }
        DropNext(old(regions), old(free), before, beforeFree, kids, index, regions, free);
        index := index + 1;
      }
      DropLast(old(regions), old(free), regions, free, pos, kids);
      regions := regions[pos := []];
      free := free + [pos];
    }

    // ---- the stack ----

    /** Every slot of the stack denotes a tree, and every region has exactly one owner: a slot, or one
        of the values held elsewhere, which denote `temps`. */
    ghost predicate Valid(temps: seq<Tree>)
      reads this
    {
      Lists(stack, slots) && Ok(regions, free, slots + temps)
    }

    constructor ()
      ensures Valid([]) && stack == [PrevStackBoundary(-1)] && boundary == 0 && regions == [] && free == []
    {
      stack, boundary, regions, free := [PrevStackBoundary(-1)], 0, [], [];
      slots := [Leaf(PrevStackBoundary(-1))];
      new;
      RegsOne(slots[0]);
      assert slots + [] == slots;
    }

    /** Drop what a slot owns and store a value that owns nothing. */
    method Blank(k: nat, v: Value, ghost temps: seq<Tree>)
      requires Valid(temps) && k < |stack| && !v.OnHeap? && !v.Ref?
      modifies this`stack, this`slots, this`regions, this`free
      ensures Valid(temps) && stack == old(stack)[k := v] && slots == old(slots)[k := Leaf(v)]
    {
      hide Ok, FreeOk, Once, Gave;
      ghost var forest := slots + temps;
      OkFree(regions, free, forest);
      OkOnce(regions, free, forest, k);
      assert forest[k] == slots[k];
      OkHolds(regions, free, forest, k);
      if stack[k].OnHeap? {
        PartsHold(regions, slots[k]);
        DropHeapPos(stack[k].pos, slots[k]);
      } else {
        OwnsNothing(regions, slots[k]);
        GaveNothing(regions, free);
      }
      OkGave(old(regions), old(free), forest, k, regions, free, v);
      stack, slots := stack[k := v], slots[k := Leaf(v)];
      assert slots + temps == forest[k := Leaf(v)];
    }

    /** Resize the stack so that the frame has room for its variables. */
    method ReserveStack(size: nat, ghost temps: seq<Tree>)
      requires Valid(temps)
      modifies this`stack, this`slots
      ensures Valid(temps) && |stack| == if |old(stack)| <= boundary + size then boundary + size + 1 else |old(stack)|
      ensures stack == old(stack) + seq(|stack| - |old(stack)|, _ => Unassigned)
      ensures slots == old(slots) + seq(|stack| - |old(stack)|, _ => Leaf(Unassigned))
      ensures boundary < |old(stack)| ==> StaysInFrame(old(Frame()), Frame())
    {
      hide Ok;
      var newSize := boundary + size + 1;
      while |stack| < newSize
        invariant Valid(temps) && |old(stack)| <= |stack| && (|stack| == |old(stack)| || |stack| <= newSize)
        invariant stack == old(stack) + seq(|stack| - |old(stack)|, _ => Unassigned)
        invariant slots == old(slots) + seq(|stack| - |old(stack)|, _ => Leaf(Unassigned))
      {
        OkBlank(regions, free, slots, temps, Unassigned);
        stack, slots := stack + [Unassigned], slots + [Leaf(Unassigned)];
      }
    }

    /** Clear the slots of the frame from `first` on, giving back what they own. */
    method ClearStack(first: nat, ghost temps: seq<Tree>)
      requires Valid(temps)
      modifies this`stack, this`slots, this`regions, this`free
      ensures Valid(temps)
      ensures stack == Cleared(old(stack), boundary + first + 1, Unassigned)
      ensures |stack| == |old(stack)| && forall i | 0 <= i < |stack| :: stack[i] == if i <= boundary + first then old(stack)[i] else Unassigned
      ensures slots == Cleared(old(slots), boundary + first + 1, Leaf(Unassigned))
      ensures boundary < |old(stack)| ==> StaysInFrame(old(Frame()), Frame())
    {
      hide Ok;
      var newSize := boundary + first + 1;
      if newSize > |stack| { return; }
      for idx := newSize to |stack|
        invariant Valid(temps) && |stack| == |old(stack)| == |old(slots)|
        invariant stack == old(stack)[..newSize] + seq(idx - newSize, _ => Unassigned) + old(stack)[idx..]
        invariant slots == old(slots)[..newSize] + seq(idx - newSize, _ => Leaf(Unassigned)) + old(slots)[idx..]
      {
        Blank(idx, Unassigned, temps);
      }
    }

    /** Write a value, whose tree moves into the slot; what the slot owned is given back. */
    method Write(pos: nat, value: Value, ghost t: Tree, ghost temps: seq<Tree>)
      requires Valid([t] + temps) && value == Val(t) && boundary + 1 + pos < |stack|
      modifies this`stack, this`slots, this`regions, this`free
      ensures Valid(temps) && stack == old(stack)[boundary + 1 + pos := value] && slots == old(slots)[boundary + 1 + pos := t]
      ensures StaysInFrame(old(Frame()), Frame())
    {
      hide Ok;
      var cur := boundary + 1 + pos;
      Blank(cur, Unassigned, [t] + temps);
      OkSwap(regions, free, slots, cur, t, temps);
      stack, slots := stack[cur := value], slots[cur := t];
    }

    /** Take a value from the expression stack: a copy of what it refers to, or the value itself. */
    method ReadTakeOwnership(value: Value, ghost t: Tree, ghost temps: seq<Tree>) returns (r: Value, ghost c: Tree)
      requires Valid(Owned([value], [t]) + temps) && Readable(stack, boundary, regions, free, value, t)
      modifies this`regions, this`free
      ensures r == Val(c) && MeaningOf(c) == MeaningOf(t) && Valid([c] + temps)
      ensures exists m :: Took(old(regions), old(free), regions, free, m)
    {
      hide Ok, FreeOk, Took, Holds, Regs;
      OwnedOne(value, t);
      OkFree(regions, free, slots + (Owned([value], [t]) + temps));
      if value.Ref? {
        r, c := CloneValue(value, t);
        assert Owned([value], [t]) + temps == temps;
        OkTook(old(regions), old(free), slots + temps, regions, free, c);
        OkPush(regions, free, slots, temps, c);
        assert slots + [c] + temps == slots + ([c] + temps);
      } else {
        TookNothing(regions, free);
        r, c := value, t;
      }
    }

    /** Drop a value of the expression stack and all it owns. */
    method DropValue(value: Value, ghost t: Tree, ghost temps: seq<Tree>)
      requires Valid([t] + temps) && value == Val(t)
      modifies this`regions, this`free
      ensures Valid(temps) && Gave(old(regions), old(free), regions, free, Regs(t))
    {
      hide Ok, FreeOk, Once, Gave, Regs;
      ghost var forest, k := slots + ([t] + temps), |slots|;
      assert forest[k] == t;
      OkFree(regions, free, forest);
      OkOnce(regions, free, forest, k);
      OkHolds(regions, free, forest, k);
      if value.OnHeap? {
        PartsHold(regions, t);
        DropHeapPos(value.pos, t);
      } else {
        OwnsNothing(regions, t);
        GaveNothing(regions, free);
      }
      OkGave(old(regions), old(free), forest, k, regions, free, Unassigned);
      assert forest[k := Leaf(Unassigned)] == slots + [Leaf(Unassigned)] + temps;
      OkBlank(regions, free, slots, temps, Unassigned);
    }

    /** `call`: push the previous boundary and the arguments, and open a frame above them. */
    method PushFrame(args: seq<Value>, size: nat, ghost trees: seq<Tree>, ghost temps: seq<Tree>)
      requires |args| == |trees| && Valid(Owned(args, trees) + temps) && Pending(stack, boundary, regions, free, args, trees, 0)
      modifies this
      ensures Valid(temps) && Calls(old(Frame()), Frame())
      ensures |stack| > boundary + size && |stack| > boundary + |args|
      ensures slots[..boundary] == old(slots)
      ensures forall i | 0 <= i < |args| :: MeaningOf(slots[boundary + 1 + i]) == MeaningOf(trees[i])
      ensures forall i | boundary + |args| < i < |stack| :: stack[i] == Unassigned
    {
      hide Ok, Took, FreeOk, Pending, Readable, Owned, MeaningOf;
      var newBoundary := |stack|;
      OkFree(regions, free, slots + (Owned(args, trees) + temps));
      TookNothing(regions, free);
      PendingKept(stack, boundary, regions, free, args, trees, 0, [PrevStackBoundary(boundary)], regions, free, multiset{});
      OkBlank(regions, free, slots, Owned(args, trees) + temps, PrevStackBoundary(boundary));
      stack, slots := stack + [PrevStackBoundary(boundary)], slots + [Leaf(PrevStackBoundary(boundary))];
      assert args[0..] == args && trees[0..] == trees;
      for k := 0 to |args|
        invariant Valid(Owned(args[k..], trees[k..]) + temps)
        invariant Pending(stack, boundary, regions, free, args, trees, k)
        invariant boundary == old(boundary) && |stack| == newBoundary + 1 + k
        invariant stack[..newBoundary + 1] == old(stack) + [PrevStackBoundary(boundary)] && slots[..newBoundary] == old(slots)
        invariant forall i | 0 <= i < k :: MeaningOf(slots[newBoundary + 1 + i]) == MeaningOf(trees[i])
      {
        PushArgument(args, trees, k, temps);
      }
      boundary := newBoundary;
      assert Owned(args[|args|..], trees[|args|..]) + temps == temps by { NothingOwned(args[|args|..], trees[|args|..]); }
      ReserveStack(size, temps);
    }

    /** Push one argument, taking ownership of it. */
    method PushArgument(args: seq<Value>, ghost trees: seq<Tree>, k: nat, ghost temps: seq<Tree>)
      requires |args| == |trees| && k < |args|
      requires Valid(Owned(args[k..], trees[k..]) + temps) && Pending(stack, boundary, regions, free, args, trees, k)
      modifies this`stack, this`slots, this`regions, this`free
      ensures Valid(Owned(args[k + 1..], trees[k + 1..]) + temps) && Pending(stack, boundary, regions, free, args, trees, k + 1)
      ensures |stack| == |old(stack)| + 1 && stack[..|old(stack)|] == old(stack) && slots[..|old(slots)|] == old(slots)
      ensures MeaningOf(slots[|old(slots)|]) == MeaningOf(trees[k])
    {
      hide Ok, Took, FreeOk, Owned, MeaningOf;
      OwnedNext(args, trees, k);
      ghost var rest := Owned(args[k + 1..], trees[k + 1..]) + temps;
      assert Owned(args[k..], trees[k..]) + temps == Owned([args[k]], [trees[k]]) + rest;
      OkFree(regions, free, slots + (Owned([args[k]], [trees[k]]) + rest));
      hide Readable;
      var argument;
      ghost var c;
      argument, c := ReadTakeOwnership(args[k], trees[k], rest);
      ghost var m :| Took(old(regions), old(free), regions, free, m);
      PendingKept(stack, boundary, old(regions), old(free), args, trees, k + 1, [argument], regions, free, m);
      assert slots + ([c] + rest) == slots + [c] + rest;
      stack, slots := stack + [argument], slots + [c];
    }

    /** `return`: take the value out of the frame, clear the frame and go back to the previous one, if any. */
    method PopFrame(value: Value, ghost t: Tree, ghost temps: seq<Tree>) returns (r: Value, ghost c: Tree, previous: int)
      requires Valid(Owned([value], [t]) + temps) && Readable(stack, boundary, regions, free, value, t)
      requires boundary < |stack| && stack[boundary].PrevStackBoundary?
      modifies this
      ensures Valid([c] + temps) && r == Val(c) && MeaningOf(c) == MeaningOf(t)
      ensures forall x <- Regs(c) :: x !in RegsAll(old(slots))
      ensures stack == old(stack)[..old(boundary)] && slots == old(slots)[..old(boundary)]
      ensures previous == old(stack[boundary].boundary)
      ensures if previous >= 0 then Returns(old(Frame()), Frame()) else boundary == old(boundary)
    {
      hide Ok, Took, Readable, Owned, MeaningOf, Regs, RegsAll;
      r, c := ReadTakeOwnership(value, t, temps);
      TempApart(regions, free, slots, c, temps);
      ClearStack(0, [c] + temps);
      stack, slots := Truncate(boundary + 1, [c] + temps);
      previous := stack[boundary].boundary;
      assert slots == slots[..boundary] + [Leaf(stack[boundary])];
      OkBlank(regions, free, slots[..boundary], [c] + temps, stack[boundary]);
      stack, slots := stack[..boundary], slots[..boundary];
      if previous >= 0 { boundary := previous; }
    }

    /** Cut off slots that own nothing. */
    method Truncate(size: nat, ghost temps: seq<Tree>) returns (stack': seq<Value>, ghost slots': seq<Tree>)
      requires Valid(temps) && size <= |stack| && forall i | size <= i < |stack| :: stack[i] == Unassigned
      ensures stack' == stack[..size] && slots' == slots[..size] && Ok(regions, free, slots' + temps)
    {
      hide Ok;
      stack' := stack;
      slots' := slots;
      while |stack'| > size
        invariant size <= |stack'| <= |stack| && stack' == stack[..|stack'|] && slots' == slots[..|stack'|]
        invariant Ok(regions, free, slots' + temps)
      {
        ghost var n := |stack'| - 1;
        OkHolds(regions, free, slots' + temps, n);
        assert (slots' + temps)[n] == slots[n];
        UnassignedLeaf(slots[n]);
        assert slots' == slots'[..n] + [Leaf(Unassigned)];
        OkBlank(regions, free, slots'[..n], temps, Unassigned);
        stack', slots' := stack'[..|stack'| - 1], slots'[..n];
      }
    }
  }

  lemma UnassignedLeaf(t: Tree)
    requires Val(t) == Unassigned
    ensures t == Leaf(Unassigned)
  {
  }

  lemma NothingOwned(args: seq<Value>, trees: seq<Tree>)
    requires |args| == |trees| == 0
    ensures Owned(args, trees) == []
  {
  }

  /** A value held elsewhere shares nothing with the stack. */
  lemma TempApart(regions: Regions, free: seq<nat>, slots: seq<Tree>, c: Tree, temps: seq<Tree>)
    requires Ok(regions, free, slots + ([c] + temps))
    ensures forall x <- Regs(c) :: x !in RegsAll(slots)
  {
    hide Holds, Regs, RegsAll;
    RegsConcat(slots, [c] + temps);
    RegsConcat([c], temps);
    RegsOne(c);
    forall x | x in Regs(c) ensures x !in RegsAll(slots) {
      assert (RegsAll(slots) + (Regs(c) + RegsAll(temps)) + multiset(free))[x] <= 1;
    }
  }

  /** The arguments from `k` on are still to be pushed. */
  ghost predicate Pending(stack: seq<Value>, boundary: nat, regions: Regions, free: seq<nat>, args: seq<Value>, trees: seq<Tree>, k: nat)
    requires |args| == |trees|
  {
    forall i | k <= i < |args| :: Readable(stack, boundary, regions, free, args[i], trees[i])
  }

  lemma PendingKept(stack: seq<Value>, boundary: nat, regions: Regions, free: seq<nat>, args: seq<Value>, trees: seq<Tree>, k: nat,
                    more: seq<Value>, regions': Regions, free': seq<nat>, m: multiset<nat>)
    requires |args| == |trees| && Pending(stack, boundary, regions, free, args, trees, k)
    requires FreeOk(regions, free) && Took(regions, free, regions', free', m)
    ensures Pending(stack + more, boundary, regions', free', args, trees, k)
  {
    hide Readable, FreeOk, Took;
    forall i | k <= i < |args| ensures Readable(stack + more, boundary, regions', free', args[i], trees[i]) {
      ReadableKept(stack, boundary, regions, free, args[i], trees[i], more, regions', free', m);
    }
  }

  lemma OwnedNext(args: seq<Value>, trees: seq<Tree>, k: nat)
    requires |args| == |trees| && k < |args|
    ensures Owned(args[k..], trees[k..]) == Owned([args[k]], [trees[k]]) + Owned(args[k + 1..], trees[k + 1..])
  {
    OwnedOne(args[k], trees[k]);
    assert args[k..][0] == args[k] && args[k..][1..] == args[k + 1..] && trees[k..][1..] == trees[k + 1..];
  }

  lemma OwnedOne(value: Value, t: Tree)
    ensures Owned([value], [t]) == if value.Ref? then [] else [t]
  {
    assert Owned([value], [t]) == (if value.Ref? then [] else [t]) + Owned([], []);
  }

  lemma OkHolds(regions: Regions, free: seq<nat>, forest: seq<Tree>, k: nat)
    requires Ok(regions, free, forest) && k < |forest|
    ensures Holds(regions, forest[k])
  {
  }

  lemma OwnsNothing(regions: Regions, t: Tree)
    requires Holds(regions, t) && !Val(t).OnHeap?
    ensures Regs(t) == multiset{}
  {
  }

  /** A tree held elsewhere moves into a blank slot. */
  lemma OkSwap(regions: Regions, free: seq<nat>, slots: seq<Tree>, k: nat, t: Tree, temps: seq<Tree>)
    requires Ok(regions, free, slots + ([t] + temps)) && k < |slots| && slots[k] == Leaf(Unassigned)
    ensures Ok(regions, free, slots[k := t] + temps)
  {
    hide Holds, RegsAll;
    var a, b := slots + ([t] + temps), slots[k := t] + temps;
    assert Regs(slots[k]) == multiset{};
    hide Regs;
    RegsReplaced(slots, k, t);
    RegsConcat(slots, [t] + temps);
    RegsConcat([t], temps);
    RegsOne(t);
    RegsConcat(slots[k := t], temps);
    assert RegsAll(slots[k := t]) == RegsAll(slots[k := t]) + Regs(slots[k]) == RegsAll(slots) + Regs(t);
    assert RegsAll(a) == RegsAll(slots) + (Regs(t) + RegsAll(temps)) == RegsAll(b);
    assert forall i | 0 <= i < |b| :: b[i] == a[if i == k then |slots| else if i < |slots| then i else i + 1];
    OkSame(regions, free, a, b);
  }

  /** The value denotes `t` in this store. */
  ghost predicate Denotes(store: Store, v: Value, t: Tree)
    reads store
  {
    (v.Ref? ==> store.Addressable(v.id)) && store.MaybeReadRef(v) == Val(t) && Holds(store.regions, t)
  }

  lemma PartsHold(regions: Regions, t: Tree)
    requires Holds(regions, t) && Val(t).OnHeap?
    ensures t.Node? && t.pos < |regions| && |regions[t.pos]| == |t.kids| && HoldsAll(regions, t.kids)
  {
  }

  lemma CloneStart(r0: Regions, f0: seq<nat>, regions: Regions, free: seq<nat>, p: nat)
    requires Took(r0, f0, regions, free, multiset{p}) && p < |regions| && regions[p] == []
    ensures Cloning(r0, f0, regions, free, p, [])
  {
    assert multiset{p} + RegsAll([]) == multiset{p};
  }

  /** The next part to copy is still there, in use and unshared. */
  lemma ClonePart(r0: Regions, f0: seq<nat>, regions: Regions, free: seq<nat>, m: multiset<nat>, t: Tree, index: nat)
    requires FreeOk(r0, f0) && Took(r0, f0, regions, free, m) && Holds(r0, t) && t.Node? && index < |t.kids|
    requires forall x <- Regs(t) :: x !in f0
    ensures t.pos < |r0| && t.pos < |regions| && regions[t.pos] == r0[t.pos] && |regions[t.pos]| == |t.kids|
    ensures regions[t.pos][index] == Val(t.kids[index]) && Holds(regions, t.kids[index]) && !Val(t.kids[index]).Ref?
    ensures forall x <- Regs(t.kids[index]) :: x !in free
    ensures FreeOk(regions, free)
  {
    hide RegsAll, FreeOk;
    TookKeeps(r0, f0, regions, free, m, t);
    assert t.pos in Regs(t);
    RegsAt(t.kids, index);
    assert forall x <- Regs(t.kids[index]) :: x in Regs(t);
  }

  lemma CloningTook(r0: Regions, f0: seq<nat>, regions: Regions, free: seq<nat>, p: nat, copies: seq<Tree>)
    requires Cloning(r0, f0, regions, free, p, copies)
    ensures Took(r0, f0, regions, free, multiset{p} + RegsAll(copies)) && FreeOk(regions, free)
  {
  }

  lemma CloneMeaning(kids: seq<Tree>, index: nat, copies: seq<Tree>, copy: Tree)
    requires index < |kids| && MeaningsOf(copies) == MeaningsOf(kids[..index]) && MeaningOf(copy) == MeaningOf(kids[index])
    ensures MeaningsOf(copies + [copy]) == MeaningsOf(kids[..index + 1])
  {
    hide MeaningOf, MeaningsOf;
    MeaningsAppend(copies, copy);
    MeaningsAppend(kids[..index], kids[index]);
    assert kids[..index + 1] == kids[..index] + [kids[index]];
  }

  lemma CloneDone(r0: Regions, f0: seq<nat>, regions: Regions, free: seq<nat>, t: Tree, c: Tree)
    requires c.Node? && t.Node? && c.kind == t.kind && MeaningsOf(c.kids) == MeaningsOf(t.kids)
    requires Cloning(r0, f0, regions, free, c.pos, c.kids)
    ensures Holds(regions, c) && MeaningOf(c) == MeaningOf(t) && Took(r0, f0, regions, free, Regs(c))
  {
  }

  lemma DropStart(regions: Regions, free: seq<nat>, kids: seq<Tree>)
    requires FreeOk(regions, free)
    ensures Dropping(regions, free, regions, free, kids, 0)
  {
    assert kids[..0] == [];
    GaveNothing(regions, free);
  }
}
