/** The instructions of the evaluator on the store: each takes values from the value deque and leaves one, and no
    region is lost or shared on the way. */
module EvalStores {
  import opened Network
  import opened Values
  import opened Stores
  import opened Operators
  import opened Assignments

  /** `part` is the `index`-th part of region `region` within the tree. */
  ghost predicate PartIn(t: Tree, region: nat, index: nat, part: Tree) {
    t.Node? && (
      || (t.pos == region && index < |t.kids| && t.kids[index] == part)
      || exists j | 0 <= j < |t.kids| :: PartIn(t.kids[j], region, index, part))
  }

  /** A value of the deque denotes `t`: it owns it, or refers to a variable of the frame or to a part of its value. */
  ghost predicate Sees(boundary: nat, slots: seq<Tree>, v: Value, t: Tree) {
    match v
    case Ref(Stack(pos)) => boundary + 1 + pos < |slots| && slots[boundary + 1 + pos] == t
    case Ref(Heap(region, index)) => exists k | boundary + 1 <= k < |slots| :: PartIn(slots[k], region, index, t)
    case _ => v == Val(t)
  }

  lemma {:induction false} PartHolds(regions: Regions, t: Tree, region: nat, index: nat, part: Tree)
    requires Holds(regions, t) && PartIn(t, region, index, part)
    ensures region < |regions| && index < |regions[region]| && regions[region][index] == Val(part) && Holds(regions, part)
    ensures region in Regs(t) && Regs(part) <= Regs(t)
    decreases t
  {
    hide Holds, RegsAll;
    var direct := t.pos == region && index < |t.kids| && t.kids[index] == part;
    var j: nat := index;
    if !direct { j :| 0 <= j < |t.kids| && PartIn(t.kids[j], region, index, part); }
    PartAt(regions, t, j);
    RegsAt(t.kids, j);
    if !direct { PartHolds(regions, t.kids[j], region, index, part); }
  }

  /** What a value of the deque refers to is there, in use, and not part of any other value. */
  lemma SeesReadable(stack: seq<Value>, boundary: nat, regions: Regions, free: seq<nat>, slots: seq<Tree>, temps: seq<Tree>, v: Value, t: Tree)
    requires Lists(stack, slots) && Ok(regions, free, slots + (Owned([v], [t]) + temps)) && Sees(boundary, slots, v, t)
    ensures Readable(stack, boundary, regions, free, v, t)
  {
    hide Regs, RegsAll, Holds, PartIn;
    OwnedOne(v, t);
    var forest := slots + (Owned([v], [t]) + temps);
    if v.Ref? && v.id.Stack? {
      var k := boundary + 1 + v.id.pos;
      assert forest[k] == t;
      OkHolds(regions, free, forest, k);
      OkOnce(regions, free, forest, k);
    } else if v.Ref? {
      var k :| boundary + 1 <= k < |slots| && PartIn(slots[k], v.id.region, v.id.index, t);
      assert forest[k] == slots[k];
      OkHolds(regions, free, forest, k);
      OkOnce(regions, free, forest, k);
      PartHolds(regions, slots[k], v.id.region, v.id.index, t);
    } else {
      assert forest[|slots|] == t;
      OkHolds(regions, free, forest, |slots|);
      OkOnce(regions, free, forest, |slots|);
    }
  }

  /** What a reference into the heap leads to belongs to a variable of the frame: assigning through it stays there. */
  lemma SeesOwnFrame(boundary: nat, regions: Regions, slots: seq<Tree>, region: nat, index: nat, t: Tree)
    requires HoldsAll(regions, slots) && Sees(boundary, slots, Ref(ValueId.Heap(region, index)), t)
    ensures OwnedAbove(slots, boundary, region) && region < |regions| && index < |regions[region]| && regions[region][index] == Val(t)
  {
    hide Regs, Holds, PartIn;
    var k :| boundary + 1 <= k < |slots| && PartIn(slots[k], region, index, t);
    PartHolds(regions, slots[k], region, index, t);
  }

  ghost predicate SeesAll(boundary: nat, slots: seq<Tree>, values: seq<Value>, trees: seq<Tree>) {
    |values| == |trees| && forall i | 0 <= i < |values| :: Sees(boundary, slots, values[i], trees[i])
  }

  lemma {:induction false} OwnedConcat(vs: seq<Value>, ts: seq<Tree>, ws: seq<Value>, us: seq<Tree>)
    requires |vs| == |ts| && |ws| == |us|
    ensures Owned(vs + ws, ts + us) == Owned(vs, ts) + Owned(ws, us)
    decreases |vs|
  {
    hide Owned;
    if vs == [] {
      NothingOwned(vs, ts);
      assert vs + ws == ws && ts + us == us;
    } else {
      OwnedFirst(vs, ts);
      OwnedFirst(vs + ws, ts + us);
      OwnedConcat(vs[1..], ts[1..], ws, us);
      assert (vs + ws)[1..] == vs[1..] + ws && (ts + us)[1..] == ts[1..] + us;
    }
  }

  lemma OwnedFirst(vs: seq<Value>, ts: seq<Tree>)
    requires |vs| == |ts| && vs != []
    ensures Owned(vs, ts) == (if vs[0].Ref? then [] else [ts[0]]) + Owned(vs[1..], ts[1..])
  {
  }

  /** The forest in any other order. */
  lemma OkReordered(regions: Regions, free: seq<nat>, slots: seq<Tree>, a: seq<Tree>, b: seq<Tree>)
    requires Ok(regions, free, slots + (a + b))
    ensures Ok(regions, free, slots + (b + a))
  {
    hide Holds, Regs, RegsAll;
    var x, y := slots + (a + b), slots + (b + a);
    RegsConcat(slots, a + b);
    RegsConcat(a, b);
    RegsConcat(slots, b + a);
    RegsConcat(b, a);
    forall i | 0 <= i < |y| ensures Holds(regions, y[i]) {
      var n := |slots|;
      var j := if i < n then i else if i < n + |b| then i + |a| else i - |b|;
      assert y[i] == x[j];
    }
    OkSame(regions, free, x, y);
  }

  // ---- building a compound value ----

  /** An empty region takes over the trees whose values are written to it. */
  lemma OkAssembled(regions: Regions, free: seq<nat>, slots: seq<Tree>, kind: Kind, pos: nat, parts: seq<Tree>, rest: seq<Tree>, list: seq<Value>)
    requires Ok(regions, free, slots + ([Node(kind, pos, [])] + (parts + rest))) && Lists(list, parts)
    ensures pos < |regions| && Ok(regions[pos := list], free, slots + ([Node(kind, pos, parts)] + rest))
  {
    var forest := slots + ([Node(kind, pos, [])] + (parts + rest));
    OkHoldsEach(regions, free, slots, [Node(kind, pos, [])], parts, rest);
    OnlyOwner(regions, free, slots, kind, pos, parts, rest);
    var regions' := regions[pos := list];
    hide Holds, Regs, RegsAll;
    HoldsElsewhere(regions, regions', pos, slots);
    HoldsElsewhere(regions, regions', pos, parts);
    HoldsElsewhere(regions, regions', pos, rest);
    HoldsNode(regions', kind, pos, parts);
    var after := slots + ([Node(kind, pos, parts)] + rest);
    HoldsThree(regions', slots, [Node(kind, pos, parts)], rest);
    RegsAssembled(slots, kind, pos, parts, rest);
  }

  lemma RegsAssembled(slots: seq<Tree>, kind: Kind, pos: nat, parts: seq<Tree>, rest: seq<Tree>)
    ensures RegsAll(slots + ([Node(kind, pos, [])] + (parts + rest))) == RegsAll(slots + ([Node(kind, pos, parts)] + rest))
  {
    NodeRegs(kind, pos, []);
    NodeRegs(kind, pos, parts);
    assert RegsAll([]) == multiset{};
    hide Regs, RegsAll;
    RegsConcat(parts, rest);
    RegsAround(slots, Node(kind, pos, []), parts + rest);
    RegsAround(slots, Node(kind, pos, parts), rest);
    assert RegsAll(slots) + (multiset{pos} + multiset{}) + (RegsAll(parts) + RegsAll(rest))
        == RegsAll(slots) + (multiset{pos} + RegsAll(parts)) + RegsAll(rest);
  }

  lemma NodeRegs(kind: Kind, pos: nat, kids: seq<Tree>)
    ensures Regs(Node(kind, pos, kids)) == multiset{pos} + RegsAll(kids)
  {
  }

  lemma OkHoldsEach(regions: Regions, free: seq<nat>, slots: seq<Tree>, a: seq<Tree>, parts: seq<Tree>, rest: seq<Tree>)
    requires Ok(regions, free, slots + (a + (parts + rest)))
    ensures HoldsAll(regions, slots) && HoldsAll(regions, a) && HoldsAll(regions, parts) && HoldsAll(regions, rest)
  {
    hide Holds, Regs, RegsAll;
    var all := slots + (a + (parts + rest));
    forall i | 0 <= i < |slots| ensures Holds(regions, slots[i]) { assert all[i] == slots[i]; }
    forall i | 0 <= i < |a| ensures Holds(regions, a[i]) { assert all[|slots| + i] == a[i]; }
    forall i | 0 <= i < |parts| ensures Holds(regions, parts[i]) { assert all[|slots| + |a| + i] == parts[i]; }
    forall i | 0 <= i < |rest| ensures Holds(regions, rest[i]) { assert all[|slots| + |a| + |parts| + i] == rest[i]; }
  }

  lemma OnlyOwner(regions: Regions, free: seq<nat>, slots: seq<Tree>, kind: Kind, pos: nat, parts: seq<Tree>, rest: seq<Tree>)
    requires Ok(regions, free, slots + ([Node(kind, pos, [])] + (parts + rest)))
    ensures pos < |regions| && pos !in free && pos !in RegsAll(slots) && pos !in RegsAll(parts) && pos !in RegsAll(rest)
  {
    NodeRegs(kind, pos, []);
    hide Holds, Regs, RegsAll;
    RegsConcat(parts, rest);
    RegsAround(slots, Node(kind, pos, []), parts + rest);
    InFree(free, pos);
    assert Regs(Node(kind, pos, []))[pos] >= 1;
    assert (RegsAll(slots + ([Node(kind, pos, [])] + (parts + rest))) + multiset(free))[pos] <= 1;
  }

  lemma HoldsElsewhere(regions: Regions, regions': Regions, pos: nat, ts: seq<Tree>)
    requires HoldsAll(regions, ts) && pos !in RegsAll(ts) && pos < |regions| && |regions'| == |regions|
    requires forall i | 0 <= i < |regions| && i != pos :: regions'[i] == regions[i]
    ensures HoldsAll(regions', ts)
  {
    hide Holds, Regs, RegsAll;
    forall i | 0 <= i < |ts| ensures Holds(regions', ts[i]) {
      RegsAt(ts, i);
      HoldsFrame(regions, regions', ts[i]);
    }
  }

  lemma HoldsNode(regions: Regions, kind: Kind, pos: nat, parts: seq<Tree>)
    requires pos < |regions| && Lists(regions[pos], parts) && HoldsAll(regions, parts)
    ensures Holds(regions, Node(kind, pos, parts))
  {
  }

  lemma HoldsThree(regions: Regions, a: seq<Tree>, b: seq<Tree>, c: seq<Tree>)
    requires HoldsAll(regions, a) && HoldsAll(regions, b) && HoldsAll(regions, c)
    ensures HoldsAll(regions, a + (b + c))
  {
    hide Holds;
  }

  // ---- the instructions ----

  /** The store together with the value deque of the current frame; `trees` are what the values denote. */
  class Evaluator {
    const store: Store
    var values: seq<Value>
    ghost var trees: seq<Tree>

    constructor (store: Store)
      requires store.Valid([])
      ensures this.store == store && values == [] && trees == [] && Valid()
    {
      this.store, values, trees := store, [], [];
    }

    /** Every value denotes a tree, and every region of the store is owned by exactly one variable or one value of
        the deque, or is free. */
    ghost predicate Valid()
      reads this, store
    {
      SeesAll(store.boundary, store.slots, values, trees) && store.Valid(Owned(values, trees))
    }

    /** The deque consists of these values, followed by one with the given meaning. */
    ghost predicate Leaves(vs: seq<Value>, ts: seq<Tree>, ref: bool, m: Meaning)
      reads this
    {
      && |values| == |trees| == |vs| + 1 && |ts| == |vs| && values[..|vs|] == vs && trees[..|vs|] == ts
      && values[|vs|].Ref? == ref && MeaningOf(trees[|vs|]) == m
    }

    /** A variable: a reference to its slot. */
    method Variable(pos: nat)
      requires Valid() && store.boundary + 1 + pos < |store.stack|
      modifies this`values, this`trees
      ensures Valid() && values == old(values) + [Ref(ValueId.Stack(pos))] && trees == old(trees) + [store.slots[store.boundary + 1 + pos]]
    {
      hide Ok;
      ghost var t := store.slots[store.boundary + 1 + pos];
      var v := Ref(ValueId.Stack(pos));
      OwnedConcat(values, trees, [v], [t]);
      OwnedOne(v, t);
      assert Owned(values, trees) + [] == Owned(values, trees);
      values, trees := values + [v], trees + [t];
    }

    /** A literal that owns nothing. */
    method Plain(v: Value)
      requires Valid() && !v.OnHeap? && !v.Ref?
      modifies this`values, this`trees
      ensures Valid() && values == old(values) + [v] && trees == old(trees) + [Leaf(v)]
    {
      hide Ok;
      OwnedConcat(values, trees, [v], [Leaf(v)]);
      OwnedOne(v, Leaf(v));
      OkBlank(store.regions, store.free, store.slots + Owned(values, trees), [], v);
      assert store.slots + Owned(values, trees) + [Leaf(v)] + [] == store.slots + (Owned(values, trees) + [Leaf(v)]);
      assert store.slots + Owned(values, trees) + [] == store.slots + Owned(values, trees);
      values, trees := values + [v], trees + [Leaf(v)];
    }

    /** Take ownership of the first value: a copy of what it refers to, or itself. */
    method TakeFront(ghost limbo: seq<Tree>) returns (r: Value, ghost c: Tree)
      requires values != [] && SeesAll(store.boundary, store.slots, values, trees) && store.Valid(Owned(values, trees) + limbo)
      modifies this`values, this`trees, store`regions, store`free
      ensures SeesAll(store.boundary, store.slots, values, trees) && store.Valid(Owned(values, trees) + (limbo + [c]))
      ensures values == old(values)[1..] && trees == old(trees)[1..] && r == Val(c) && MeaningOf(c) == MeaningOf(old(trees)[0]) && !r.Ref?
    {
      hide Ok, MeaningOf, Took, Regs, RegsAll, Holds;
      ghost var rest := Owned(values[1..], trees[1..]) + limbo;
      OwnedNext(values, trees, 0);
      assert values[0..] == values && trees[0..] == trees;
      assert Owned(values, trees) + limbo == Owned([values[0]], [trees[0]]) + rest;
      assert Sees(store.boundary, store.slots, values[0], trees[0]);
      SeesReadable(store.stack, store.boundary, store.regions, store.free, store.slots, rest, values[0], trees[0]);
      r, c := store.ReadTakeOwnership(values[0], trees[0], rest);
      OkHolds(store.regions, store.free, store.slots + ([c] + rest), |store.slots|);
      assert (store.slots + ([c] + rest))[|store.slots|] == c;
      NotARef(store.regions, c);
      OkReordered(store.regions, store.free, store.slots, [c], rest);
      values, trees := values[1..], trees[1..];
      assert rest + [c] == Owned(values, trees) + (limbo + [c]);
    }

    /** An array, struct or union literal: the first `n` values of the deque move into a new region, in order. */
    method Compose(kind: Kind, n: nat)
      requires Valid() && n <= |values|
      modifies this`values, this`trees, store`regions, store`free
      ensures Valid() && Leaves(old(values)[n..], old(trees)[n..], false, Compound(kind, MeaningsOf(old(trees)[..n])))
    {
      hide Ok, MeaningOf, MeaningsOf, Took, FreeOk, Regs, RegsAll, Holds, Sees, Owned;
      ghost var forest := store.slots + Owned(values, trees);
      OkFree(store.regions, store.free, forest);
      var pos := store.AllocHeap();
      ghost var limbo: seq<Tree> := [Node(kind, pos, [])];
      EmptyNode(store.regions, kind, pos);
      OkTook(old(store.regions), old(store.free), forest, store.regions, store.free, Node(kind, pos, []));
      assert forest + [Node(kind, pos, [])] == store.slots + (Owned(values, trees) + limbo);
      var list: seq<Value> := [];
      ghost var parts: seq<Tree> := [];
      assert old(trees)[..0] == [] && limbo + parts == limbo;
      for k := 0 to n
        invariant SeesAll(store.boundary, store.slots, values, trees) && store.Valid(Owned(values, trees) + ([Node(kind, pos, [])] + parts))
        invariant values == old(values)[k..] && trees == old(trees)[k..] && Lists(list, parts) && |parts| == k
        invariant forall v <- list :: !v.Ref?
        invariant MeaningsOf(parts) == MeaningsOf(old(trees)[..k])
      {
        var r;
        ghost var c;
        r, c := TakeFront([Node(kind, pos, [])] + parts);
        CloneMeaning(old(trees), k, parts, c);
        assert [Node(kind, pos, [])] + parts + [c] == [Node(kind, pos, [])] + (parts + [c]);
        list, parts := list + [r], parts + [c];
      }
      OkReordered(store.regions, store.free, store.slots, Owned(values, trees), [Node(kind, pos, [])] + parts);
      assert [Node(kind, pos, [])] + parts + Owned(values, trees) == [Node(kind, pos, [])] + (parts + Owned(values, trees));
      OkAssembled(store.regions, store.free, store.slots, kind, pos, parts, Owned(values, trees), list);
      store.regions := store.regions[pos := list];
      Push(OnHeap(kind, pos), Node(kind, pos, parts));
      ComposedMeaning(kind, pos, parts);
    }

    /** Pop the last value, giving back what it owns, while some trees are held elsewhere. */
    method DropBack(ghost limbo: seq<Tree>)
      requires values != [] && SeesAll(store.boundary, store.slots, values, trees) && store.Valid(limbo + Owned(values, trees))
      modifies this`values, this`trees, store`regions, store`free
      ensures SeesAll(store.boundary, store.slots, values, trees) && store.Valid(limbo + Owned(values, trees))
      ensures values == old(values)[..|old(values)| - 1] && trees == old(trees)[..|old(values)| - 1]
    {
      hide Ok, Gave;
      var n := |values| - 1;
      var v := values[n];
      ghost var t := trees[n];
      assert Sees(store.boundary, store.slots, v, t);
      assert values == values[..n] + [v] && trees == trees[..n] + [t];
      OwnedConcat(values[..n], trees[..n], [v], [t]);
      OwnedOne(v, t);
      hide Owned, Sees;
      ghost var rest := limbo + Owned(values[..n], trees[..n]);
      if v.Ref? {
        assert limbo + Owned(values, trees) == rest;
      } else {
        assert limbo + Owned(values, trees) == rest + [t];
        OkReordered(store.regions, store.free, store.slots, rest, [t]);
        store.DropValue(v, t, rest);
      }
      values, trees := values[..n], trees[..n];
    }

    /** The last value, or the one before it, and what it denotes. */
    lemma Looks(i: nat)
      requires Valid() && i < |values|
      ensures Readable(store.stack, store.boundary, store.regions, store.free, values[i], trees[i]) && Denotes(store, values[i], trees[i])
    {
      hide Ok;
      OwnedNext(values, trees, i);
      assert values == values[..i] + values[i..] && trees == trees[..i] + trees[i..];
      OwnedConcat(values[..i], trees[..i], values[i..], trees[i..]);
      assert Sees(store.boundary, store.slots, values[i], trees[i]);
      ghost var own, before, after := Owned([values[i]], [trees[i]]), Owned(values[..i], trees[..i]), Owned(values[i + 1..], trees[i + 1..]);
      hide Owned, Sees;
      assert before + (own + after) == Owned(values, trees);
      OkReordered(store.regions, store.free, store.slots, before, own + after);
      assert (own + after) + before == own + (after + before);
      SeesReadable(store.stack, store.boundary, store.regions, store.free, store.slots, after + before, values[i], trees[i]);
      ReadableDenotes(store, values[i], trees[i]);
    }

    /** `@`: the left operand is the last value, the right one that before it. */
    method Concat() returns (ok: bool)
      requires Valid() && |values| >= 2
      modifies this`values, this`trees, store`regions, store`free
      ensures Valid()
      ensures var n := |old(values)|; var joined := JoinOf(MeaningOf(old(trees)[n - 1]), MeaningOf(old(trees)[n - 2]));
        (ok <==> joined.Some?) && (ok ==> Leaves(old(values)[..n - 2], old(trees)[..n - 2], false, joined.value))
    {
      hide Ok, Took, Readable, Sees, Owned, MeaningOf, MeaningsOf;
      var n := |values|;
      Looks(n - 1);
      Looks(n - 2);
      TopMeaning(trees[n - 1]);
      TopMeaning(trees[n - 2]);
      var l, m := store.MaybeReadRef(values[n - 1]), store.MaybeReadRef(values[n - 2]);
      if !l.OnHeap? || !m.OnHeap? || l.kind != m.kind || !Sequential(l.kind) { return false; }
      var r;
      ghost var c;
      r, c := Concatenate(store, values[n - 1], values[n - 2], trees[n - 1], trees[n - 2], Owned(values, trees));
      Replace(r, c, 2);
      ok := true;
    }

    /** Drop the last `n` values, and push one that owns its tree instead. */
    method Replace(v: Value, ghost t: Tree, n: nat)
      requires SeesAll(store.boundary, store.slots, values, trees) && store.Valid([t] + Owned(values, trees)) && v == Val(t) && n <= |values|
      modifies this`values, this`trees, store`regions, store`free
      ensures Valid() && Leaves(old(values)[..|old(values)| - n], old(trees)[..|old(values)| - n], false, MeaningOf(t))
    {
      hide Ok, Sees, Owned, MeaningOf;
      OkHolds(store.regions, store.free, store.slots + ([t] + Owned(values, trees)), |store.slots|);
      assert (store.slots + ([t] + Owned(values, trees)))[|store.slots|] == t;
      NotARef(store.regions, t);
      for k := 0 to n
        invariant SeesAll(store.boundary, store.slots, values, trees) && store.Valid([t] + Owned(values, trees))
        invariant values == old(values)[..|old(values)| - k] && trees == old(trees)[..|old(values)| - k]
      {
        DropBack([t]);
      }
      Push(v, t);
    }

    /** Pop the last `n` values, giving back what they own. */
    method Pop(n: nat)
      requires Valid() && n <= |values|
      modifies this`values, this`trees, store`regions, store`free
      ensures Valid() && values == old(values)[..|old(values)| - n] && trees == old(trees)[..|old(values)| - n]
    {
      hide Ok, Sees, Owned;
      assert [] + Owned(values, trees) == Owned(values, trees);
      for k := 0 to n
        invariant SeesAll(store.boundary, store.slots, values, trees) && store.Valid([] + Owned(values, trees))
        invariant values == old(values)[..|old(values)| - k] && trees == old(trees)[..|old(values)| - k]
      {
        DropBack([]);
      }
      assert [] + Owned(values, trees) == Owned(values, trees);
    }

    /** The last `n` values give way to one that owns nothing. */
    method Scalar(v: Value, n: nat)
      requires Valid() && n <= |values| && !v.OnHeap? && !v.Ref?
      modifies this`values, this`trees, store`regions, store`free
      ensures Valid() && Leaves(old(values)[..|old(values)| - n], old(trees)[..|old(values)| - n], false, Meaning.Plain(v))
    {
      hide Ok, Sees, Owned;
      Pop(n);
      Plain(v);
    }

    /** `==` and `!=` on the last two values; values of different types make it panic. */
    method Compare(equal: bool) returns (ok: bool)
      requires Valid() && |values| >= 2
      modifies this`values, this`trees, store`regions, store`free
      ensures Valid()
      ensures var n := |old(values)|; var same := Compared(MeaningOf(old(trees)[n - 1]), MeaningOf(old(trees)[n - 2]));
        (ok <==> same.Some?) && (ok ==> Leaves(old(values)[..n - 2], old(trees)[..n - 2], false, Meaning.Plain(Bool(same.value == equal))))
    {
      hide Ok, Sees, Owned, MeaningOf, Compared;
      var n := |values|;
      Looks(n - 1);
      Looks(n - 2);
      hide Readable, Denotes;
      var r;
      if equal {
        r := ApplyEquality(store, values[n - 1], values[n - 2], trees[n - 1], trees[n - 2]);
      } else {
        r := ApplyInequality(store, values[n - 1], values[n - 2], trees[n - 1], trees[n - 2]);
      }
      if r == None { return false; }
      Scalar(Bool(r.value), 2);
      ok := true;
    }

    /** Indexing and selecting: a reference leads to a reference to the part; an owned value is given back, and
        leaves a copy of the part. An index out of range is an error. */
    method Element(field: bool, index: int) returns (ok: bool)
      requires Valid() && values != []
      modifies this`values, this`trees, store`regions, store`free
      ensures Valid()
      ensures var n := |old(values)| - 1; var part := PartOf(MeaningOf(old(trees)[n]), field, index);
        && (ok <==> part.Some?)
        && (ok ==> Leaves(old(values)[..n], old(trees)[..n], old(values)[n].Ref?, part.value))
      ensures ok && old(values)[|old(values)| - 1].Ref? ==> var n := |old(values)| - 1; var t := old(trees)[n];
        && t.Node? && 0 <= index < |t.kids|
        && values == old(values)[..n] + [Ref(Heap(t.pos, index))] && trees == old(trees)[..n] + [t.kids[index]]
    {
      hide Ok, Took, Owned, MeaningOf, MeaningsOf;
      var n := |values| - 1;
      Looks(n);
      ghost var t := trees[n];
      TopMeaning(t);
      var subject := store.MaybeReadRef(values[n]);
      if !subject.OnHeap? || (if field then subject.kind != Struct else !Sequential(subject.kind)) { return false; }
      PartsHold(store.regions, t);
      if index < 0 || index >= |store.regions[subject.pos]| { return false; }
      PartAt(store.regions, t, index);
      if values[n].Ref? {
        PartSeen(store.boundary, store.slots, values[n], t, index);
        ReplaceRef(values, trees, Ref(Heap(subject.pos, index)), t.kids[index]);
        values, trees := values[..n] + [Ref(Heap(subject.pos, index))], trees[..n] + [t.kids[index]];
      } else {
        hide Holds, Sees, Readable;
        assert forall x <- Regs(t.kids[index]) :: x !in store.free by { PartRegs(t, index); }
        CopyOf(Ref(Heap(subject.pos, index)), t.kids[index]);
      }
      ok := true;
    }

    /** The last value gives way to a copy of what `address` leads to. */
    method CopyOf(address: Value, ghost t: Tree)
      requires Valid() && values != []
      requires Denotes(store, address, t) && forall x <- Regs(t) :: x !in store.free
      modifies this`values, this`trees, store`regions, store`free
      ensures Valid() && Leaves(old(values)[..|old(values)| - 1], old(trees)[..|old(values)| - 1], false, MeaningOf(t))
    {
      hide Ok, Took, Owned, MeaningOf, Holds, Regs, Sees;
      ghost var forest := store.slots + Owned(values, trees);
      OkFree(store.regions, store.free, forest);
      var r;
      ghost var c;
      r, c := store.CloneValue(address, t);
      OkTook(old(store.regions), old(store.free), forest, store.regions, store.free, c);
      assert forest + [c] == store.slots + (Owned(values, trees) + [c]);
      OkReordered(store.regions, store.free, store.slots, Owned(values, trees), [c]);
      Replace(r, c, 1);
    }

    /** A cast to a type that is no scalar: the value gives way to a copy. */
    method Copy()
      requires Valid() && values != []
      modifies this`values, this`trees, store`regions, store`free
      ensures Valid() && Leaves(old(values)[..|old(values)| - 1], old(trees)[..|old(values)| - 1], false, MeaningOf(old(trees)[|old(values)| - 1]))
    {
      hide Ok, Owned, MeaningOf, Holds, Regs, Sees;
      Looks(|values| - 1);
      CopyOf(values[|values| - 1], trees[|values| - 1]);
    }

    /** A slice of the last value: a copy, also of what a reference leads to. */
    method SliceLast(from: int, to: int) returns (ok: bool)
      requires Valid() && values != []
      modifies this`values, this`trees, store`regions, store`free
      ensures Valid()
      ensures var n := |old(values)| - 1; var slice := SliceOf(MeaningOf(old(trees)[n]), from, to);
        (ok <==> slice.Some?) && (ok ==> Leaves(old(values)[..n], old(trees)[..n], false, slice.value))
    {
      hide Ok, Owned, MeaningOf, MeaningsOf, Sees;
      var n := |values| - 1;
      Looks(n);
      ghost var t := trees[n];
      TopMeaning(t);
      var subject := store.MaybeReadRef(values[n]);
      if !subject.OnHeap? || !Sequential(subject.kind) { return false; }
      PartsHold(store.regions, t);
      hide Readable, Holds, Regs;
      var size := |store.regions[subject.pos]|;
      if from < 0 || from >= size || to < 0 || to > size { return false; }
      var end := if to > from then to else from;
      SomeMeanings(t.kids, from, end);
      var r;
      ghost var c;
      r, c := Slice(store, values[n], from, end, t, Owned(values, trees));
      Replace(r, c, 1);
      ok := true;
    }

    /** A new value of plain parts: a string literal, a message that was received or created. */
    method Row(kind: Kind, list: seq<Value>)
      requires Valid() && forall v <- list :: !v.OnHeap? && !v.Ref?
      modifies this`values, this`trees, store`regions, store`free
      ensures Valid() && Leaves(old(values), old(trees), false, Compound(kind, Plains(list)))
    {
      hide Ok, MeaningOf, MeaningsOf, Took, FreeOk, Regs, RegsAll, Holds, Sees, Owned;
      ghost var forest := store.slots + Owned(values, trees);
      OkFree(store.regions, store.free, forest);
      var pos := store.AllocHeap();
      ghost var c := Node(kind, pos, Leafs(list));
      RowTook(old(store.regions), old(store.free), store.regions, store.free, kind, pos, list);
      store.regions := store.regions[pos := list];
      OkTook(old(store.regions), old(store.free), forest, store.regions, store.free, c);
      assert forest + [c] == store.slots + (Owned(values, trees) + [c]);
      OkReordered(store.regions, store.free, store.slots, Owned(values, trees), [c]);
      Push(OnHeap(kind, pos), c);
    }

    /** The last value becomes the first one. */
    method Rotate()
      requires Valid() && values != []
      modifies this`values, this`trees
      ensures Valid() && values == [old(values)[|old(values)| - 1]] + old(values)[..|old(values)| - 1]
      ensures trees == [old(trees)[|old(trees)| - 1]] + old(trees)[..|old(trees)| - 1]
    {
      hide Ok, Owned, Sees;
      var n := |values| - 1;
      OwnedRotated(values, trees, values[..n], trees[..n], values[n], trees[n]);
      OkReordered(store.regions, store.free, store.slots, Owned(values[..n], trees[..n]), Owned([values[n]], [trees[n]]));
      values, trees := [values[n]] + values[..n], [trees[n]] + trees[..n];
    }

    /** Pop the first value, giving back what it owns. */
    method DropFront()
      requires Valid() && values != []
      modifies this`values, this`trees, store`regions, store`free
      ensures Valid() && values == old(values)[1..] && trees == old(trees)[1..]
    {
      hide Ok, Owned, Sees;
      OwnedFirst(values, trees);
      OwnedOne(values[0], trees[0]);
      ghost var rest := Owned(values[1..], trees[1..]);
      if !values[0].Ref? {
        assert values[0] == Val(trees[0]) by { OwnsIt(store.boundary, store.slots, values, trees, 0); }
        store.DropValue(values[0], trees[0], rest);
      } else {
        assert [] + rest == rest;
      }
      values, trees := values[1..], trees[1..];
    }

    /** Push a value that owns its tree. */
    method Push(v: Value, ghost t: Tree)
      requires SeesAll(store.boundary, store.slots, values, trees) && store.Valid([t] + Owned(values, trees)) && v == Val(t) && !v.Ref?
      modifies this`values, this`trees
      ensures Valid() && values == old(values) + [v] && trees == old(trees) + [t]
    {
      hide Ok;
      OkReordered(store.regions, store.free, store.slots, [t], Owned(values, trees));
      OwnedConcat(values, trees, [v], [t]);
      OwnedOne(v, t);
      values, trees := values + [v], trees + [t];
    }
  }

  lemma PartRegs(t: Tree, k: nat)
    requires t.Node? && k < |t.kids|
    ensures forall x <- Regs(t.kids[k]) :: x in Regs(t)
  {
    hide RegsAll;
    RegsAt(t.kids, k);
  }

  lemma ReadableDenotes(store: Store, v: Value, t: Tree)
    requires Readable(store.stack, store.boundary, store.regions, store.free, v, t)
    ensures Denotes(store, v, t)
  {
    hide Holds, Regs;
  }

  /** A part of what a reference leads to. */
  lemma PartSeen(boundary: nat, slots: seq<Tree>, v: Value, t: Tree, index: nat)
    requires v.Ref? && Sees(boundary, slots, v, t) && t.Node? && index < |t.kids|
    ensures Sees(boundary, slots, Ref(Heap(t.pos, index)), t.kids[index])
  {
    match v.id
    case Stack(pos) => assert PartIn(slots[boundary + 1 + pos], t.pos, index, t.kids[index]);
    case Heap(region, i) =>
      var k :| boundary + 1 <= k < |slots| && PartIn(slots[k], region, i, t);
      PartOfPart(slots[k], region, i, t, index);
  }

  lemma {:induction false} PartOfPart(t: Tree, region: nat, i: nat, part: Tree, index: nat)
    requires PartIn(t, region, i, part) && part.Node? && index < |part.kids|
    ensures PartIn(t, part.pos, index, part.kids[index])
    decreases t
  {
    if t.pos == region && i < |t.kids| && t.kids[i] == part {
      assert PartIn(t.kids[i], part.pos, index, part.kids[index]);
    } else {
      var j :| 0 <= j < |t.kids| && PartIn(t.kids[j], region, i, part);
      PartOfPart(t.kids[j], region, i, part, index);
    }
  }

  /** Replacing the last value, a reference, by another reference changes nothing that is owned. */
  lemma ReplaceRef(values: seq<Value>, trees: seq<Tree>, v: Value, t: Tree)
    requires |values| == |trees| && values != [] && values[|values| - 1].Ref? && v.Ref?
    ensures var n := |values| - 1; Owned(values[..n] + [v], trees[..n] + [t]) == Owned(values, trees)
  {
    hide Owned;
    var n := |values| - 1;
    assert values == values[..n] + [values[n]] && trees == trees[..n] + [trees[n]];
    OwnedConcat(values[..n], trees[..n], [values[n]], [trees[n]]);
    OwnedConcat(values[..n], trees[..n], [v], [t]);
    OwnedOne(values[n], trees[n]);
    OwnedOne(v, t);
  }

  lemma NotARef(regions: Regions, t: Tree)
    requires Holds(regions, t)
    ensures !Val(t).Ref?
  {
  }

  lemma EmptyNode(regions: Regions, kind: Kind, pos: nat)
    requires pos < |regions| && regions[pos] == []
    ensures Holds(regions, Node(kind, pos, [])) && Regs(Node(kind, pos, [])) == multiset{pos}
  {
    assert RegsAll([]) == multiset{};
  }

  lemma ComposedMeaning(kind: Kind, pos: nat, parts: seq<Tree>)
    ensures MeaningOf(Node(kind, pos, parts)) == Compound(kind, MeaningsOf(parts))
  {
  }

  lemma OwnsIt(boundary: nat, slots: seq<Tree>, values: seq<Value>, trees: seq<Tree>, i: nat)
    requires SeesAll(boundary, slots, values, trees) && i < |values| && !values[i].Ref?
    ensures values[i] == Val(trees[i])
  {
    assert Sees(boundary, slots, values[i], trees[i]);
  }

  lemma OwnedRotated(values: seq<Value>, trees: seq<Tree>, vs: seq<Value>, ts: seq<Tree>, v: Value, t: Tree)
    requires |vs| == |ts| && values == vs + [v] && trees == ts + [t]
    ensures Owned(values, trees) == Owned(vs, ts) + Owned([v], [t])
    ensures Owned([v] + vs, [t] + ts) == Owned([v], [t]) + Owned(vs, ts)
  {
    hide Owned;
    OwnedConcat(vs, ts, [v], [t]);
    OwnedConcat([v], [t], vs, ts);
  }

  // ---- values with plain parts ----

  function Plains(list: seq<Value>): seq<Meaning> {
    seq(|list|, i requires 0 <= i < |list| => Meaning.Plain(list[i]))
  }

  ghost function Leafs(list: seq<Value>): seq<Tree> {
    seq(|list|, i requires 0 <= i < |list| => Leaf(list[i]))
  }

  lemma {:induction false} LeafsOwnNothing(list: seq<Value>)
    ensures RegsAll(Leafs(list)) == multiset{}
    decreases |list|
  {
    if list != [] {
      assert Leafs(list)[1..] == Leafs(list[1..]);
      LeafsOwnNothing(list[1..]);
    }
  }

  lemma RowTook(r0: Regions, f0: seq<nat>, r1: Regions, free: seq<nat>, kind: Kind, pos: nat, list: seq<Value>)
    requires FreeOk(r0, f0) && Took(r0, f0, r1, free, multiset{pos}) && pos < |r1| && forall v <- list :: !v.OnHeap? && !v.Ref?
    ensures var c := Node(kind, pos, Leafs(list));
      && Holds(r1[pos := list], c) && Took(r0, f0, r1[pos := list], free, Regs(c))
      && MeaningOf(c) == Compound(kind, Plains(list)) && Val(c) == OnHeap(kind, pos)
  {
    hide Took, FreeOk, Regs, RegsAll, MeaningOf, MeaningsOf;
    var leafs := Leafs(list);
    LeafsOwnNothing(list);
    CollectLeafs(r0, f0, r1, free, pos, list);
    CollectDone(r0, f0, r1, free, kind, pos, list, leafs);
    TopMeaning(Node(kind, pos, leafs));
    LeafMeanings(list);
  }

  lemma CollectLeafs(r0: Regions, f0: seq<nat>, r1: Regions, free: seq<nat>, pos: nat, list: seq<Value>)
    requires Took(r0, f0, r1, free, multiset{pos}) && pos < |r1| && forall v <- list :: !v.OnHeap? && !v.Ref?
    ensures Collecting(r0, f0, r1, free, pos, list, Leafs(list))
  {
    hide Took, RegsAll;
    LeafsOwnNothing(list);
    assert multiset{pos} + RegsAll(Leafs(list)) == multiset{pos};
    assert Lists(list, Leafs(list)) && HoldsAll(r1, Leafs(list));
  }

  lemma LeafMeanings(list: seq<Value>)
    ensures MeaningsOf(Leafs(list)) == Plains(list)
  {
    hide MeaningsOf;
    MeaningsCount(Leafs(list));
  }
}
