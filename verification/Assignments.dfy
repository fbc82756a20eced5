/** Assigning to a part of a value, such as an element or a field, through its heap address. */
module Assignments {
  import opened Values
  import opened Stores
  import opened Operators
  import opened Frames

  /** The tree with the `index`-th part of region `region` replaced, wherever that region is. */
  ghost function Replaced(t: Tree, region: nat, index: nat, part: Tree): Tree {
    match t
    case Leaf(_) => t
    case Node(kind, pos, kids) =>
      if pos == region && index < |kids| then Node(kind, pos, kids[index := part])
      else Node(kind, pos, ReplacedAll(kids, region, index, part))
  }

  ghost function ReplacedAll(ts: seq<Tree>, region: nat, index: nat, part: Tree): seq<Tree> {
    if ts == [] then [] else [Replaced(ts[0], region, index, part)] + ReplacedAll(ts[1..], region, index, part)
  }

  /** Trees that do not own the region stay as they are. */
  lemma {:induction false} NotReplaced(t: Tree, region: nat, index: nat, part: Tree)
    requires region !in Regs(t)
    ensures Replaced(t, region, index, part) == t
    decreases t, 0
  {
    if t.Node? {
      hide RegsAll, ReplacedAll;
      NoneReplaced(t.kids, region, index, part);
    }
  }

  lemma {:induction false} NoneReplaced(ts: seq<Tree>, region: nat, index: nat, part: Tree)
    requires region !in RegsAll(ts)
    ensures ReplacedAll(ts, region, index, part) == ts
    decreases ts, 1
  {
    if ts != [] {
      RegsFirst(ts);
      hide Regs, RegsAll, Replaced;
      NotReplaced(ts[0], region, index, part);
      NoneReplaced(ts[1..], region, index, part);
    }
  }

  /** Some tree of the forest owns the region. */
  lemma {:induction false} Owner(ts: seq<Tree>, region: nat) returns (k: nat)
    requires region in RegsAll(ts)
    ensures k < |ts| && region in Regs(ts[k])
    decreases |ts|
  {
    RegsFirst(ts);
    hide Regs, RegsAll;
    if region in Regs(ts[0]) {
      k := 0;
    } else {
      k := Owner(ts[1..], region);
      k := k + 1;
    }
  }

  lemma {:induction false} ReplacedConcat(a: seq<Tree>, b: seq<Tree>, region: nat, index: nat, part: Tree)
    ensures ReplacedAll(a + b, region, index, part) == ReplacedAll(a, region, index, part) + ReplacedAll(b, region, index, part)
    decreases |a|
  {
    hide Replaced;
    if a == [] {
      assert a + b == b;
    } else {
      ReplacedConcat(a[1..], b, region, index, part);
      assert (a + b)[1..] == a[1..] + b;
    }
  }

  lemma OthersDoNot(ts: seq<Tree>, k: nat, region: nat)
    requires k < |ts| && region in Regs(ts[k]) && RegsAll(ts)[region] <= 1
    ensures region !in RegsAll(ts[..k]) && region !in RegsAll(ts[k + 1..])
    ensures forall i | 0 <= i < |ts| && i != k :: region !in Regs(ts[i])
  {
    hide Regs, RegsAll;
    var a, b := ts[..k], ts[k + 1..];
    RegsAt(ts, k);
    assert RegsAll(ts)[region] == RegsAll(a)[region] + Regs(ts[k])[region] + RegsAll(b)[region];
    forall i | 0 <= i < |ts| && i != k ensures region !in Regs(ts[i]) {
      if i < k { RegsAt(a, i); } else { RegsAt(b, i - k - 1); }
    }
  }

  /** Only the owner is affected. */
  lemma OwnerReplaced(ts: seq<Tree>, k: nat, region: nat, index: nat, part: Tree)
    requires k < |ts| && region in Regs(ts[k]) && RegsAll(ts)[region] <= 1
    ensures ReplacedAll(ts, region, index, part) == ts[k := Replaced(ts[k], region, index, part)]
  {
    hide Regs, RegsAll, Replaced, ReplacedAll;
    var a, b := ts[..k], ts[k + 1..];
    OthersDoNot(ts, k, region);
    NoneReplaced(a, region, index, part);
    NoneReplaced(b, region, index, part);
    OneReplaced(ts[k], region, index, part);
    ReplacedConcat([ts[k]], b, region, index, part);
    ReplacedConcat(a, [ts[k]] + b, region, index, part);
    assert ts == a + ([ts[k]] + b);
  }

  lemma OneReplaced(t: Tree, region: nat, index: nat, part: Tree)
    ensures ReplacedAll([t], region, index, part) == [Replaced(t, region, index, part)]
  {
    hide Replaced;
    assert [t][1..] == [];
  }

  /** The heap with one entry of one region overwritten. */
  ghost function Overwritten(regions: Regions, region: nat, index: nat, v: Value): Regions
    requires region < |regions| && index < |regions[region]|
  {
    regions[region := regions[region][index := v]]
  }

  lemma Undisturbed(regions: Regions, region: nat, index: nat, v: Value, t: Tree)
    requires region < |regions| && index < |regions[region]| && Holds(regions, t) && region !in Regs(t)
    ensures Holds(Overwritten(regions, region, index, v), t)
  {
    HoldsFrame(regions, Overwritten(regions, region, index, v), t);
  }

  /** What replacing the part means for the tree that owns the region: `was` is the old part. */
  ghost predicate Swapped(regions': Regions, t: Tree, t': Tree, part: Tree, was: Tree) {
    Holds(regions', t') && Holds(regions', was) && Val(t') == Val(t) && Regs(t') + Regs(was) == Regs(t) + Regs(part)
  }

  lemma {:induction false} ReplacePart(regions: Regions, t: Tree, region: nat, index: nat, part: Tree) returns (was: Tree)
    requires region < |regions| && index < |regions[region]| && Holds(regions, t) && Regs(t)[region] == 1
    requires Holds(Overwritten(regions, region, index, Val(part)), part)
    ensures Val(was) == regions[region][index]
    ensures Swapped(Overwritten(regions, region, index, Val(part)), t, Replaced(t, region, index, part), part, was)
    decreases t
  {
    var regions' := Overwritten(regions, region, index, Val(part));
    if t.pos == region {
      was := t.kids[index];
      ReplaceHere(regions, t, region, index, part);
    } else {
      var k := OwnerKid(t, region);
      PartsHold(regions, t);
      was := ReplacePart(regions, t.kids[k], region, index, part);
      ReplaceBelow(regions, t, region, index, part, k, was);
    }
  }

  lemma OwnerKid(t: Tree, region: nat) returns (k: nat)
    requires t.Node? && t.pos != region && Regs(t)[region] == 1
    ensures k < |t.kids| && Regs(t.kids[k])[region] == 1 && RegsAll(t.kids)[region] == 1
  {
    assert Regs(t) == multiset{t.pos} + RegsAll(t.kids);
    hide Regs, RegsAll;
    k := Owner(t.kids, region);
    RegsAt(t.kids, k);
  }

  lemma ReplaceHere(regions: Regions, t: Tree, region: nat, index: nat, part: Tree)
    requires region < |regions| && index < |regions[region]| && Holds(regions, t) && Regs(t)[region] == 1
    requires t.Node? && t.pos == region && Holds(Overwritten(regions, region, index, Val(part)), part)
    ensures index < |t.kids| && Val(t.kids[index]) == regions[region][index]
    ensures Swapped(Overwritten(regions, region, index, Val(part)), t, Replaced(t, region, index, part), part, t.kids[index])
  {
    PartsHold(regions, t);
    PartAt(regions, t, index);
    RegsOf(t.kind, t.pos, t.kids);
    RegsOf(t.kind, t.pos, t.kids[index := part]);
    hide RegsAll, Holds, Regs;
    assert region !in RegsAll(t.kids);
    forall i | 0 <= i < |t.kids| ensures region !in Regs(t.kids[i]) { RegsAt(t.kids, i); }
    HoldsReplaced(regions, t, region, index, part);
    RegsReplaced(t.kids, index, part);
    Moved(multiset{t.pos}, RegsAll(t.kids), RegsAll(t.kids[index := part]), Regs(part), Regs(t.kids[index]));
  }

  lemma RegsOf(kind: Kind, pos: nat, kids: seq<Tree>)
    ensures Regs(Node(kind, pos, kids)) == multiset{pos} + RegsAll(kids)
  {
  }

  lemma HoldsReplaced(regions: Regions, t: Tree, region: nat, index: nat, part: Tree)
    requires region < |regions| && index < |regions[region]| && Holds(regions, t) && t.Node? && t.pos == region && index < |t.kids|
    requires Holds(Overwritten(regions, region, index, Val(part)), part) && forall i | 0 <= i < |t.kids| :: region !in Regs(t.kids[i])
    ensures var regions' := Overwritten(regions, region, index, Val(part));
      Holds(regions', Node(t.kind, t.pos, t.kids[index := part])) && Holds(regions', t.kids[index])
  {
    hide Regs;
    var regions' := Overwritten(regions, region, index, Val(part));
    forall i | 0 <= i < |t.kids| ensures Holds(regions', t.kids[i]) { Undisturbed(regions, region, index, Val(part), t.kids[i]); }
  }

  lemma Moved(p: multiset<nat>, a: multiset<nat>, a': multiset<nat>, new_: multiset<nat>, was: multiset<nat>)
    requires a' + was == a + new_
    ensures (p + a') + was == (p + a) + new_
  {
    assert (p + a') + was == p + (a' + was);
    assert (p + a) + new_ == p + (a + new_);
  }

  lemma ReplaceBelow(regions: Regions, t: Tree, region: nat, index: nat, part: Tree, k: nat, was: Tree)
    requires region < |regions| && index < |regions[region]| && Holds(regions, t) && t.Node? && t.pos != region
    requires k < |t.kids| && Regs(t.kids[k])[region] == 1 && RegsAll(t.kids)[region] == 1
    requires Swapped(Overwritten(regions, region, index, Val(part)), t.kids[k], Replaced(t.kids[k], region, index, part), part, was)
    ensures Swapped(Overwritten(regions, region, index, Val(part)), t, Replaced(t, region, index, part), part, was)
  {
    var kids := t.kids;
    var kid := Replaced(kids[k], region, index, part);
    OwnerReplaced(kids, k, region, index, part);
    OthersDoNot(kids, k, region);
    assert Replaced(t, region, index, part) == Node(t.kind, t.pos, kids[k := kid]);
    RegsOf(t.kind, t.pos, kids);
    RegsOf(t.kind, t.pos, kids[k := kid]);
    hide RegsAll, ReplacedAll, Replaced, Regs, Holds;
    HoldsBelow(regions, t, region, index, Val(part), k, kid);
    RegsReplaced(kids, k, kid);
    Rebalance(multiset{t.pos}, RegsAll(kids), RegsAll(kids[k := kid]), Regs(kids[k]), Regs(kid), Regs(part), Regs(was));
  }

  lemma HoldsBelow(regions: Regions, t: Tree, region: nat, index: nat, v: Value, k: nat, kid: Tree)
    requires region < |regions| && index < |regions[region]| && Holds(regions, t) && t.Node? && t.pos != region && k < |t.kids|
    requires Holds(Overwritten(regions, region, index, v), kid) && Val(kid) == Val(t.kids[k])
    requires forall i | 0 <= i < |t.kids| && i != k :: region !in Regs(t.kids[i])
    ensures Holds(Overwritten(regions, region, index, v), Node(t.kind, t.pos, t.kids[k := kid]))
  {
    hide Regs;
    var regions' := Overwritten(regions, region, index, v);
    forall i | 0 <= i < |t.kids| && i != k ensures Holds(regions', t.kids[i]) { Undisturbed(regions, region, index, v, t.kids[i]); }
  }

  lemma Rebalance(p: multiset<nat>, a: multiset<nat>, a': multiset<nat>, kid: multiset<nat>, kid': multiset<nat>, part: multiset<nat>, was: multiset<nat>)
    requires a' + kid == a + kid' && kid' + was == kid + part
    ensures (p + a') + was == (p + a) + part
  {
    forall x ensures ((p + a') + was)[x] == ((p + a) + part)[x] {
      assert (a' + kid)[x] == (a + kid')[x] && (kid' + was)[x] == (kid + part)[x];
    }
  }

  /** The region belongs to exactly one slot, and to nothing else. */
  lemma OnlyASlot(regions: Regions, free: seq<nat>, slots: seq<Tree>, t: Tree, temps: seq<Tree>, region: nat)
    requires Ok(regions, free, slots + ([t] + temps)) && region in RegsAll(slots)
    ensures region < |regions| && RegsAll(slots)[region] == 1 && region !in Regs(t) && region !in RegsAll(temps) && region !in free
  {
    hide Holds, Regs, RegsAll;
    RegsAround(slots, t, temps);
    InFree(free, region);
    assert (RegsAll(slots) + Regs(t) + RegsAll(temps) + multiset(free))[region] <= 1;
    assert (RegsAll(slots + ([t] + temps)) + multiset(free))[region] > 0;
  }

  lemma OkHoldsAll(regions: Regions, free: seq<nat>, slots: seq<Tree>, t: Tree, temps: seq<Tree>)
    requires Ok(regions, free, slots + ([t] + temps))
    ensures HoldsAll(regions, slots) && Holds(regions, t) && HoldsAll(regions, temps)
  {
    hide Holds, Regs, RegsAll;
    var all := slots + ([t] + temps);
    assert all[|slots|] == t;
    forall i | 0 <= i < |slots| ensures Holds(regions, slots[i]) { assert all[i] == slots[i]; }
    forall i | 0 <= i < |temps| ensures Holds(regions, temps[i]) { assert all[|slots| + 1 + i] == temps[i]; }
  }

  lemma UndisturbedAll(regions: Regions, region: nat, index: nat, v: Value, ts: seq<Tree>)
    requires region < |regions| && index < |regions[region]| && HoldsAll(regions, ts) && region !in RegsAll(ts)
    ensures HoldsAll(Overwritten(regions, region, index, v), ts)
  {
    hide Holds, Regs, RegsAll, Overwritten;
    forall i | 0 <= i < |ts| ensures Holds(Overwritten(regions, region, index, v), ts[i]) {
      RegsAt(ts, i);
      Undisturbed(regions, region, index, v, ts[i]);
    }
  }

  /** The slots after the assignment: the owner has the new part, and the old part is on its own. */
  ghost predicate SlotsSwapped(regions': Regions, slots: seq<Tree>, slots': seq<Tree>, t: Tree, was: Tree) {
    && HoldsAll(regions', slots') && Holds(regions', was) && |slots'| == |slots| && (forall i | 0 <= i < |slots| :: Val(slots'[i]) == Val(slots[i]))
    && RegsAll(slots') + Regs(was) == RegsAll(slots) + Regs(t)
  }

  lemma ReplaceInSlots(regions: Regions, slots: seq<Tree>, t: Tree, region: nat, index: nat) returns (was: Tree)
    requires region < |regions| && index < |regions[region]| && HoldsAll(regions, slots) && RegsAll(slots)[region] == 1
    requires Holds(Overwritten(regions, region, index, Val(t)), t)
    ensures Val(was) == regions[region][index]
    ensures SlotsSwapped(Overwritten(regions, region, index, Val(t)), slots, ReplacedAll(slots, region, index, t), t, was)
  {
    hide Holds, Regs, RegsAll, Replaced, ReplacedAll, Overwritten;
    var k := Owner(slots, region);
    RegsAt(slots, k);
    was := ReplacePart(regions, slots[k], region, index, t);
    OwnerReplaced(slots, k, region, index, t);
    OthersDoNot(slots, k, region);
    var kid := Replaced(slots[k], region, index, t);
    forall i | 0 <= i < |slots| && i != k ensures Holds(Overwritten(regions, region, index, Val(t)), slots[i]) {
      Undisturbed(regions, region, index, Val(t), slots[i]);
    }
    RegsReplaced(slots, k, kid);
    Rebalance(multiset{}, RegsAll(slots), RegsAll(slots[k := kid]), Regs(slots[k]), Regs(kid), Regs(t), Regs(was));
    assert multiset{} + RegsAll(slots[k := kid]) == RegsAll(slots[k := kid]) && multiset{} + RegsAll(slots) == RegsAll(slots);
  }

  lemma OkReplaced(regions: Regions, free: seq<nat>, slots: seq<Tree>, t: Tree, temps: seq<Tree>, region: nat, index: nat) returns (was: Tree)
    requires Ok(regions, free, slots + ([t] + temps)) && region in RegsAll(slots) && region < |regions| && index < |regions[region]|
    ensures var slots', regions' := ReplacedAll(slots, region, index, t), Overwritten(regions, region, index, Val(t));
      && Val(was) == regions[region][index] && Ok(regions', free, slots' + ([was] + temps))
      && |slots'| == |slots| && forall i | 0 <= i < |slots| :: Val(slots'[i]) == Val(slots[i])
  {
    OnlyASlot(regions, free, slots, t, temps, region);
    OkHoldsAll(regions, free, slots, t, temps);
    hide Holds, Regs, RegsAll, ReplacedAll;
    Undisturbed(regions, region, index, Val(t), t);
    UndisturbedAll(regions, region, index, Val(t), temps);
    was := ReplaceInSlots(regions, slots, t, region, index);
    var slots', regions' := ReplacedAll(slots, region, index, t), Overwritten(regions, region, index, Val(t));
    RegsAround(slots, t, temps);
    RegsAround(slots', was, temps);
    assert RegsAll(slots' + ([was] + temps)) == RegsAll(slots + ([t] + temps));
    HoldsAround(regions', slots', was, temps);
  }

  lemma HoldsAround(regions: Regions, slots: seq<Tree>, t: Tree, temps: seq<Tree>)
    requires HoldsAll(regions, slots) && Holds(regions, t) && HoldsAll(regions, temps)
    ensures HoldsAll(regions, slots + ([t] + temps))
  {
    hide Holds;
  }

  /** The region belongs to a variable of the current frame. */
  ghost predicate OwnedAbove(slots: seq<Tree>, boundary: nat, region: nat) {
    exists k | boundary + 1 <= k < |slots| :: region in Regs(slots[k])
  }

  /** Replacing a part that a variable of the frame owns leaves everything below the frame as it was. */
  lemma ReplacedAbove(slots: seq<Tree>, boundary: nat, region: nat, index: nat, part: Tree)
    requires OwnedAbove(slots, boundary, region) && RegsAll(slots)[region] <= 1
    ensures boundary + 1 < |slots| == |ReplacedAll(slots, region, index, part)|
    ensures ReplacedAll(slots, region, index, part)[..boundary + 1] == slots[..boundary + 1]
  {
    hide Regs, RegsAll, Replaced, ReplacedAll;
    var k :| boundary + 1 <= k < |slots| && region in Regs(slots[k]);
    OwnerReplaced(slots, k, region, index, part);
  }

  /** Put `value` in the place of a part of a variable's value: within the tree of the variable that owns it, and
      nowhere else, the part is replaced, and for the moment nothing owns what it was. */
  method SwapPart(store: Store, region: nat, index: nat, value: Value, ghost t: Tree, ghost temps: seq<Tree>)
      returns (before: Value, ghost was: Tree)
    requires store.Valid([t] + temps) && value == Val(t)
    requires region in RegsAll(store.slots) && region < |store.regions| && index < |store.regions[region]|
    modifies store`slots, store`regions
    ensures store.slots == ReplacedAll(old(store.slots), region, index, t)
    ensures before == Val(was) == old(store.regions[region][index]) && store.Valid([was] + temps)
    ensures OwnedAbove(old(store.slots), old(store.boundary), region) ==>
      StaysInFrame(FrameState(old(store.stack), old(store.slots), old(store.boundary)), FrameState(store.stack, store.slots, store.boundary))
  {
    hide Ok, Regs, RegsAll, ReplacedAll;
    OnlyASlot(store.regions, store.free, store.slots, t, temps, region);
    if OwnedAbove(store.slots, store.boundary, region) { ReplacedAbove(store.slots, store.boundary, region, index, t); }
    hide OwnedAbove;
    was := OkReplaced(store.regions, store.free, store.slots, t, temps, region, index);
    before := store.regions[region][index];
    store.regions := store.regions[region := store.regions[region][index := value]];
    store.slots := ReplacedAll(store.slots, region, index, t);
  }

  /** `=` on an element or a field: the part is replaced by the assigned value and what it owned before is given back,
      except that the regions of a string are neither given back nor owned by anything any more. */
  method AssignPart(store: Store, region: nat, index: nat, value: Value, ghost t: Tree, ghost temps: seq<Tree>)
      returns (ghost was: Tree, ghost lost: seq<Tree>)
    requires store.Valid([t] + temps) && value == Val(t)
    requires region in RegsAll(store.slots) && region < |store.regions| && index < |store.regions[region]|
    requires Assignable(store.regions[region][index], value)
    modifies store`slots, store`regions, store`free
    ensures store.slots == ReplacedAll(old(store.slots), region, index, t)
    ensures Val(was) == old(store.regions[region][index]) && lost == LostBy(was)
    ensures store.Valid(lost + temps) && (store.Valid(temps) <==> lost == [])
    ensures OwnedAbove(old(store.slots), old(store.boundary), region) ==>
      StaysInFrame(FrameState(old(store.stack), old(store.slots), old(store.boundary)), FrameState(store.stack, store.slots, store.boundary))
  {
    hide Ok, Gave, Regs, RegsAll, ReplacedAll, OwnedAbove;
    var before;
    before, was := SwapPart(store, region, index, value, t, temps);
    LeafOrNode(store.regions, store.free, store.slots + ([was] + temps), |store.slots|);
    assert (store.slots + ([was] + temps))[|store.slots|] == was;
    if before.OnHeap? && before.kind == String {
      lost := [was];
      LossShows(store.regions, store.free, store.slots, was, temps);
    } else {
      lost := [];
      store.DropValue(before, was, temps);
      assert [] + temps == temps;
    }
  }

  /** Writing to an address in the heap: the part is replaced, and what it owned is given back, whatever it was. */
  method WritePart(store: Store, region: nat, index: nat, value: Value, ghost t: Tree, ghost temps: seq<Tree>) returns (ghost was: Tree)
    requires store.Valid([t] + temps) && value == Val(t)
    requires region in RegsAll(store.slots) && region < |store.regions| && index < |store.regions[region]|
    modifies store`slots, store`regions, store`free
    ensures store.slots == ReplacedAll(old(store.slots), region, index, t) && Val(was) == old(store.regions[region][index])
    ensures store.Valid(temps)
    ensures OwnedAbove(old(store.slots), old(store.boundary), region) ==>
      StaysInFrame(FrameState(old(store.stack), old(store.slots), old(store.boundary)), FrameState(store.stack, store.slots, store.boundary))
  {
    hide Ok, Gave, Regs, RegsAll, ReplacedAll, OwnedAbove;
    var before;
    before, was := SwapPart(store, region, index, value, t, temps);
    store.DropValue(before, was, temps);
  }
}
