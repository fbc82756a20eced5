/** `ValueGroup`: values on their way from one component's store to another's. */
module ValueGroups {
  import opened Values
  import opened Stores

  /** Regions are numbered in post-order: a region refers only to earlier ones. */
  ghost predicate PostOrdered(regions: Regions) {
    forall r, i | 0 <= r < |regions| && 0 <= i < |regions[r]| && regions[r][i].OnHeap? :: regions[r][i].pos < r
  }

  /** The state of the retrieving loop: the parts so far occupy exactly the regions added since. */
  ghost predicate Retrieving(r0: Regions, regions: Regions, region: seq<Value>, parts: seq<Tree>) {
    && |r0| <= |regions| && regions[..|r0|] == r0 && PostOrdered(regions)
    && Lists(region, parts) && HoldsAll(regions, parts) && RegsAll(parts) == Range(|r0|, |regions|)
  }

  /** A value was transferred into the regions added since. */
  ghost predicate Retrieved(r0: Regions, regions: Regions, g: Tree) {
    && |r0| <= |regions| && regions[..|r0|] == r0 && PostOrdered(regions)
    && Holds(regions, g) && Regs(g) == Range(|r0|, |regions|)
  }

  lemma RetrieveNext(r0: Regions, r1: Regions, region: seq<Value>, parts: seq<Tree>, r2: Regions, g: Tree)
    requires Retrieving(r0, r1, region, parts) && Retrieved(r1, r2, g)
    ensures Retrieving(r0, r2, region + [Val(g)], parts + [g])
  {
    hide Holds, Regs, RegsAll, PostOrdered;
    assert r2[..|r0|] == r2[..|r1|][..|r0|];
    forall i | 0 <= i < |parts| ensures Holds(r2, parts[i]) {
      RegsInRange(r1, parts[i]);
      HoldsFrame(r1, r2, parts[i]);
    }
    RegsAppend(parts, g);
    assert Range(|r0|, |r1|) + Range(|r1|, |r2|) == Range(|r0|, |r2|);
  }

  lemma RetrieveDone(r0: Regions, regions: Regions, region: seq<Value>, kind: Kind, parts: seq<Tree>)
    requires Retrieving(r0, regions, region, parts)
    ensures Retrieved(r0, regions + [region], Node(kind, |regions|, parts))
  {
    hide RegsAll;
    var r1, g := regions + [region], Node(kind, |regions|, parts);
    assert r1[..|r0|] == regions[..|r0|];
    forall i | 0 <= i < |parts| ensures Holds(r1, parts[i]) && (Val(parts[i]).OnHeap? ==> Val(parts[i]).pos < |regions|) {
      RegsInRange(regions, parts[i]);
      HoldsFrame(regions, r1, parts[i]);
    }
    assert PostOrdered(r1) && Holds(r1, g);
    assert Regs(g) == multiset{|regions|} + RegsAll(parts);
    hide Holds, PostOrdered, Regs;
    assert Range(|r0|, |r1|) == Range(|r0|, |regions|) + multiset{|regions|};
  }

  class ValueGroup {
    var values: seq<Value>
    var regions: Regions
    ghost var trees: seq<Tree>

    ghost predicate Valid()
      reads this
    {
      Lists(values, trees) && HoldsAll(regions, trees) && PostOrdered(regions)
    }

    /** `from_store`: copy the values and everything they own out of the store. */
    constructor FromStore(store: Store, values: seq<Value>, ghost ts: seq<Tree>)
      requires |values| == |ts|
      requires forall i | 0 <= i < |values| :: Denotes(store, values[i], ts[i])
      ensures Valid() && |this.values| == |values| && MeaningsOf(trees) == MeaningsOf(ts)
      ensures RegsAll(trees) == Range(0, |regions|)
    {
      this.values, regions, trees := [], [], [];
      new;
      hide Retrieving, Holds, MeaningOf, MeaningsOf;
      RetrieveStart([]);
      for k := 0 to |values|
        invariant |trees| == k && Retrieving([], regions, this.values, trees)
        invariant MeaningsOf(trees) == MeaningsOf(ts[..k])
      {
        RetrievingOrdered([], regions, this.values, trees);
        ghost var before := regions;
        assert Denotes(store, values[k], ts[k]);
        var transferred;
        ghost var g;
        transferred, g := RetrieveValue(values[k], store, ts[k]);
        RetrieveNext([], before, this.values, trees, regions, g);
        CloneMeaning(ts, k, trees, g);
        this.values, trees := this.values + [transferred], trees + [g];
      }
      assert ts[..|values|] == ts;
      assert Valid() && RegsAll(trees) == Range(0, |regions|) && |this.values| == |values| by {
        RetrievedAll(regions, this.values, trees);
      }
    }

    /** Transfer one value; its regions are stored after those of its parts. */
    method RetrieveValue(value: Value, store: Store, ghost t: Tree) returns (r: Value, ghost g: Tree)
      requires PostOrdered(regions) && Denotes(store, value, t)
      modifies this`regions
      ensures Retrieved(old(regions), regions, g) && r == Val(g) && MeaningOf(g) == MeaningOf(t)
      decreases t
    {
      hide Retrieving, MeaningsOf, RegsAll, PostOrdered;
      var v := store.MaybeReadRef(value);
      if !v.OnHeap? {
        assert Regs(t) == Range(|regions|, |regions|);
        return v, t;
      }
      PartsHold(store.regions, t);
      hide Holds, Regs, MeaningOf;
      ghost var kids := t.kids;
      var from := store.regions[v.pos];
      var region: seq<Value>, index := [], 0;
      ghost var parts: seq<Tree> := [];
      RetrieveStart(regions);
      while index < |from|
        invariant 0 <= index <= |from| == |kids| && |parts| == index
        invariant Retrieving(old(regions), regions, region, parts)
        invariant MeaningsOf(parts) == MeaningsOf(kids[..index])
      {
        RetrievingOrdered(old(regions), regions, region, parts);
        PartDenotes(store, t, index);
        ghost var before := regions;
        var transferred;
        ghost var part;
        transferred, part := RetrieveValue(from[index], store, kids[index]);
        RetrieveNext(old(regions), before, region, parts, regions, part);
        CloneMeaning(kids, index, parts, part);
        region, parts := region + [transferred], parts + [part];
        index := index + 1;
      }
      assert kids[..index] == kids;
      r, g := OnHeap(v.kind, |regions|), Node(v.kind, |regions|, parts);
      RetrieveDone(old(regions), regions, region, v.kind, parts);
      SameMeaning(t, g);
      regions := regions + [region];
    }

    /** `into_store`: push the values on the store's stack, on regions of that store. */
    method IntoStore(to: Store, ghost temps: seq<Tree>)
      requires Valid() && to.Valid(temps)
      modifies to`stack, to`slots, to`regions, to`free
      ensures to.Valid(temps) && |to.stack| == |old(to.stack)| + |values|
      ensures to.stack[..|old(to.stack)|] == old(to.stack) && to.slots[..|old(to.slots)|] == old(to.slots)
      ensures MeaningsOf(to.slots[|old(to.slots)|..]) == MeaningsOf(trees)
    {
      hide Ok, Holds, MeaningOf, MeaningsOf, Took, FreeOk;
      ghost var n := |to.stack|;
      assert to.slots[n..] == [] == trees[..0];
      for k := 0 to |values|
        invariant to.Valid(temps) && |to.stack| == n + k
        invariant to.stack[..n] == old(to.stack) && to.slots[..n] == old(to.slots)
        invariant MeaningsOf(to.slots[n..]) == MeaningsOf(trees[..k])
      {
        ghost var forest := to.slots + temps;
        ghost var before, beforeFree := to.regions, to.free;
        OkFree(to.regions, to.free, forest);
        var transferred;
        ghost var c;
        transferred, c := ProvideValue(values[k], to, trees[k]);
        OkTook(before, beforeFree, forest, to.regions, to.free, c);
        OkPush(to.regions, to.free, to.slots, temps, c);
        CloneMeaning(trees, k, to.slots[n..], c);
        assert (to.slots + [c])[n..] == to.slots[n..] + [c];
        to.stack, to.slots := to.stack + [transferred], to.slots + [c];
      }
      assert trees[..|values|] == trees;
    }

    /** Transfer one value into the store. The recursion ends because a region refers to earlier ones only. */
    method ProvideValue(value: Value, to: Store, ghost g: Tree) returns (r: Value, ghost c: Tree)
      requires PostOrdered(regions) && value == Val(g) && Holds(regions, g) && FreeOk(to.regions, to.free)
      modifies to`regions, to`free
      ensures r == Val(c) && Holds(to.regions, c) && MeaningOf(c) == MeaningOf(g)
      ensures Took(old(to.regions), old(to.free), to.regions, to.free, Regs(c))
      decreases if value.OnHeap? then value.pos + 1 else 0
    {
      hide FreeOk, Took, Regs, RegsAll, Cloning, MeaningOf, MeaningsOf;
      if !value.OnHeap? {
        TookNothing(to.regions, to.free);
        OwnsNothing(regions, g);
        LeafHolds(to.regions, value);
        return value, g;
      }
      PartsHold(regions, g);
      hide Holds;
      ghost var kids := g.kids;
      var target := to.AllocHeap();
      var from := regions[value.pos];
      ghost var copies: seq<Tree> := [];
      CloneStart(old(to.regions), old(to.free), to.regions, to.free, target);
      var index := 0;
      while index < |from|
        invariant 0 <= index <= |from| == |kids| && |copies| == index
        invariant FreeOk(to.regions, to.free) && Cloning(old(to.regions), old(to.free), to.regions, to.free, target, copies)
        invariant MeaningsOf(copies) == MeaningsOf(kids[..index])
      {
        PartProvided(regions, g, index);
        ghost var before, beforeFree := to.regions, to.free;
        var transferred;
        ghost var copy;
        transferred, copy := ProvideValue(from[index], to, kids[index]);
        CloneNext(old(to.regions), old(to.free), before, beforeFree, target, copies, to.regions, to.free, copy);
        CloneMeaning(kids, index, copies, copy);
        to.regions := to.regions[target := to.regions[target] + [transferred]];
        copies := copies + [copy];
        CloningTook(old(to.regions), old(to.free), to.regions, to.free, target, copies);
        index := index + 1;
      }
      assert kids[..index] == kids;
      r, c := OnHeap(value.kind, target), Node(value.kind, target, copies);
      CloneDone(old(to.regions), old(to.free), to.regions, to.free, g, c);
    }
  }

  /** `new`: the arguments move from the store of the creator into the fresh store of the new component, where
      they denote the same trees; the creator gives back whatever they owned. */
  method PassArguments(from: Store, args: seq<Value>, size: nat, ghost ts: seq<Tree>, ghost temps: seq<Tree>) returns (to: Store)
    requires |args| == |ts| && from.Valid(Owned(args, ts) + temps)
    requires forall i | 0 <= i < |args| :: Denotes(from, args[i], ts[i])
    modifies from`regions, from`free
    ensures from.Valid(temps) && fresh(to) && to.Valid([])
    ensures |to.stack| > size && |to.stack| > |args| && to.boundary == 0 && to.stack[0] == PrevStackBoundary(-1)
    ensures MeaningsOf(to.slots[1..1 + |args|]) == MeaningsOf(ts)
    ensures forall i | |args| < i < |to.stack| :: to.stack[i] == Unassigned
  {
    hide Ok, Holds, MeaningsOf, Owned;
    var group := new ValueGroup.FromStore(from, args, ts);
    hide Denotes;
    assert args[0..] == args && ts[0..] == ts;
    for k := 0 to |args|
      invariant from.Valid(Owned(args[k..], ts[k..]) + temps)
      invariant group.Valid() && |group.values| == |args| && MeaningsOf(group.trees) == MeaningsOf(ts)
    {
      OwnedNext(args, ts, k);
      OwnedOne(args[k], ts[k]);
      ghost var rest := Owned(args[k + 1..], ts[k + 1..]) + temps;
      assert Owned(args[k..], ts[k..]) + temps == Owned([args[k]], [ts[k]]) + rest;
      if !args[k].Ref? {
        from.DropValue(args[k], ts[k], rest);
      } else {
        assert Owned([args[k]], [ts[k]]) + rest == rest;
      }
    }
    NothingOwned(args[|args|..], ts[|args|..]);
    assert [] + temps == temps;
    to := new Store();
    group.IntoStore(to, []);
    assert to.slots[1..] == to.slots[1..1 + |args|];
    to.ReserveStack(size, []);
    assert to.slots[1..1 + |args|] == to.slots[..1 + |args|][1..];
  }

  lemma RetrieveStart(regions: Regions)
    requires PostOrdered(regions)
    ensures Retrieving(regions, regions, [], [])
  {
  }

  lemma RetrievingOrdered(r0: Regions, regions: Regions, region: seq<Value>, parts: seq<Tree>)
    requires Retrieving(r0, regions, region, parts)
    ensures PostOrdered(regions)
  {
  }

  lemma RetrievedAll(regions: Regions, values: seq<Value>, trees: seq<Tree>)
    requires Retrieving([], regions, values, trees)
    ensures Lists(values, trees) && HoldsAll(regions, trees) && PostOrdered(regions) && RegsAll(trees) == Range(0, |regions|)
  {
  }

  lemma PartDenotes(store: Store, t: Tree, k: nat)
    requires Holds(store.regions, t) && t.Node? && k < |t.kids|
    ensures t.pos < |store.regions| && k < |store.regions[t.pos]| && Denotes(store, store.regions[t.pos][k], t.kids[k])
  {
    PartAt(store.regions, t, k);
  }

  lemma PartProvided(regions: Regions, g: Tree, k: nat)
    requires Holds(regions, g) && g.Node? && k < |g.kids| && PostOrdered(regions)
    ensures g.pos < |regions| && k < |regions[g.pos]| && regions[g.pos][k] == Val(g.kids[k]) && Holds(regions, g.kids[k])
    ensures Val(g.kids[k]).OnHeap? ==> Val(g.kids[k]).pos < g.pos
  {
  }

  lemma SameMeaning(t: Tree, g: Tree)
    requires t.Node? && g.Node? && t.kind == g.kind && MeaningsOf(t.kids) == MeaningsOf(g.kids)
    ensures MeaningOf(t) == MeaningOf(g)
  {
  }
}
