/** `SolutionStorage`: the solutions of a connector, joined incrementally from those of its subtrees. */
module Solutions {
  import opened Network
  import opened Predicates

  datatype SubtreeId = LocalComponent(id: Id) | NetEndpoint(index: nat)

  /** One predicate from each of the sets, all of them contained in `x`. */
  ghost predicate Picks(x: Predicate, sets: seq<set<Predicate>>, choice: seq<Predicate>) {
    && |choice| == |sets|
    && (forall i | 0 <= i < |sets| :: choice[i] in sets[i] && Within(choice[i], x))
  }

  /** Whatever `x` assigns is assigned by `partial` or by one of the choice. */
  ghost predicate Covers(x: Predicate, partial: Predicate, choice: seq<Predicate>) {
    forall v <- x :: v in partial || exists p <- choice :: v in p
  }

  /** `x` is the union of `partial` and of one predicate from each of the sets. */
  ghost predicate Joins(x: Predicate, partial: Predicate, sets: seq<set<Predicate>>, choice: seq<Predicate>) {
    Picks(x, sets, choice) && Within(partial, x) && Covers(x, partial, choice)
  }

  ghost predicate Elaborates(x: Predicate, partial: Predicate, sets: seq<set<Predicate>>) {
    exists choice :: Joins(x, partial, sets, choice)
  }

  /** `x` is a solution: a consistent union of one predicate from each subtree's set. */
  ghost predicate IsSolution(x: Predicate, sets: seq<set<Predicate>>) {
    Elaborates(x, map[], sets)
  }

  lemma ElaboratesNothing(x: Predicate, partial: Predicate)
    ensures Elaborates(x, partial, []) <==> x == partial
  {
    if x == partial { assert Joins(x, partial, [], []); }
    if Elaborates(x, partial, []) {
      var choice :| Joins(x, partial, [], choice);
      assert x.Keys == partial.Keys;
    }
  }

  /** One more set: pick a consistent predicate from it, and go on with the union. */
  lemma ElaboratesOne(x: Predicate, partial: Predicate, sets: seq<set<Predicate>>)
    requires sets != []
    ensures Elaborates(x, partial, sets) <==>
      exists p <- sets[0] :: Consistent(p, partial) && Elaborates(x, p + partial, sets[1..])
  {
    if Elaborates(x, partial, sets) {
      var choice :| Joins(x, partial, sets, choice);
      FirstPick(x, partial, sets, choice);
    }
    if p :| p in sets[0] && Consistent(p, partial) && Elaborates(x, p + partial, sets[1..]) {
      var choice :| Joins(x, p + partial, sets[1..], choice);
      PutFirst(x, partial, sets, p, choice);
    }
  }

  lemma FirstPick(x: Predicate, partial: Predicate, sets: seq<set<Predicate>>, choice: seq<Predicate>)
    requires sets != [] && Joins(x, partial, sets, choice)
    ensures choice[0] in sets[0] && Consistent(choice[0], partial)
    ensures Elaborates(x, choice[0] + partial, sets[1..])
  {
    hide Within;
    var p, rest := choice[0], choice[1..];
    assert choice == [p] + rest;
    WithinBoth(p, partial, x);
    hide Consistent;
    assert Picks(x, sets[1..], rest);
    assert Covers(x, p + partial, rest);
    assert Joins(x, p + partial, sets[1..], rest);
  }

  lemma WithinBoth(p: Predicate, q: Predicate, x: Predicate)
    ensures Within(p, x) && Within(q, x) ==> Consistent(p, q)
    ensures Consistent(p, q) ==> (Within(p + q, x) <==> Within(p, x) && Within(q, x))
  {
    if Within(p + q, x) && Consistent(p, q) {
      forall v | v in p ensures v in x && x[v] == p[v] { assert v in p + q; }
      forall v | v in q ensures v in x && x[v] == q[v] { assert v in p + q; }
    }
  }

  lemma PutFirst(x: Predicate, partial: Predicate, sets: seq<set<Predicate>>, p: Predicate, choice: seq<Predicate>)
    requires sets != [] && p in sets[0] && Consistent(p, partial) && Joins(x, p + partial, sets[1..], choice)
    ensures Elaborates(x, partial, sets)
  {
    var all := [p] + choice;
    WithinBoth(p, partial, x);
    assert Picks(x, sets, all) by {
      hide Within, Covers;
      forall i | 0 <= i < |sets| ensures all[i] in sets[i] && Within(all[i], x) {
        if i > 0 { assert all[i] == choice[i - 1] && sets[i] == sets[1..][i - 1]; }
      }
    }
    assert Covers(x, partial, all) by { hide Within, Picks; assert all[0] in all; }
    hide Within, Picks, Covers;
    assert Joins(x, partial, sets, all);
  }

  /** All sets but the one at `index`. */
  function Without(sets: seq<set<Predicate>>, index: nat): seq<set<Predicate>>
    requires index < |sets|
  {
    sets[..index] + sets[index + 1..]
  }

  /** A new predicate `p` at `index` adds exactly the solutions that pick it there. */
  lemma NewSolutions(x: Predicate, sets: seq<set<Predicate>>, index: nat, p: Predicate)
    requires index < |sets|
    ensures IsSolution(x, sets[index := sets[index] + {p}]) <==>
      IsSolution(x, sets) || Elaborates(x, p, Without(sets, index))
  {
    hide Within, Covers, Picks;
    var more := sets[index := sets[index] + {p}];
    if choice :| Joins(x, map[], sets, choice) {
      MorePicks(x, sets, index, p, choice);
      assert Joins(x, map[], more, choice);
    }
    if choice :| Joins(x, p, Without(sets, index), choice) {
      PickAt(x, sets, index, p, choice);
    }
    if choice :| Joins(x, map[], more, choice) {
      PickedOrNot(x, sets, index, p, choice);
    }
  }

  lemma MorePicks(x: Predicate, sets: seq<set<Predicate>>, index: nat, p: Predicate, choice: seq<Predicate>)
    requires index < |sets| && Picks(x, sets, choice)
    ensures Picks(x, sets[index := sets[index] + {p}], choice)
  {
    hide Within;
  }

  lemma PickAt(x: Predicate, sets: seq<set<Predicate>>, index: nat, p: Predicate, choice: seq<Predicate>)
    requires index < |sets| && Joins(x, p, Without(sets, index), choice)
    ensures IsSolution(x, sets[index := sets[index] + {p}])
  {
    hide Within;
    var more, all := sets[index := sets[index] + {p}], choice[..index] + [p] + choice[index..];
    assert choice == choice[..index] + choice[index..];
    assert Picks(x, more, all) by { hide Covers; PicksInserted(x, sets, index, p, choice); }
    assert Covers(x, map[], all) by { hide Picks; assert all[index] in all; }
    assert Within(map[], x) by { EmptyWithin(x); }
    assert Joins(x, map[], more, all);
  }

  lemma EmptyWithin(x: Predicate)
    ensures Within(map[], x)
  {
  }

  lemma PicksInserted(x: Predicate, sets: seq<set<Predicate>>, index: nat, p: Predicate, choice: seq<Predicate>)
    requires index < |sets| && Picks(x, Without(sets, index), choice) && Within(p, x)
    ensures Picks(x, sets[index := sets[index] + {p}], choice[..index] + [p] + choice[index..])
  {
    hide Within;
    var more, all := sets[index := sets[index] + {p}], choice[..index] + [p] + choice[index..];
    forall i | 0 <= i < |more| ensures all[i] in more[i] && Within(all[i], x) {
      if i < index { assert all[i] == choice[i] && Without(sets, index)[i] == sets[i]; }
      else if i > index { assert all[i] == choice[i - 1] && Without(sets, index)[i - 1] == sets[i]; }
    }
  }

  lemma PickedOrNot(x: Predicate, sets: seq<set<Predicate>>, index: nat, p: Predicate, choice: seq<Predicate>)
    requires index < |sets| && Joins(x, map[], sets[index := sets[index] + {p}], choice)
    ensures IsSolution(x, sets) || Elaborates(x, p, Without(sets, index))
  {
    hide Within;
    if choice[index] == p {
      var rest := choice[..index] + choice[index + 1..];
      assert choice == choice[..index] + [p] + choice[index + 1..];
      assert Picks(x, Without(sets, index), rest) by { hide Covers; PicksRemoved(x, sets, index, p, choice); }
      assert Covers(x, p, rest) by { hide Picks; }
      assert Joins(x, p, Without(sets, index), rest);
    } else {
      assert Picks(x, sets, choice) by { hide Covers; }
      assert Joins(x, map[], sets, choice);
    }
  }

  lemma PicksRemoved(x: Predicate, sets: seq<set<Predicate>>, index: nat, p: Predicate, choice: seq<Predicate>)
    requires index < |sets| && Picks(x, sets[index := sets[index] + {p}], choice)
    ensures Picks(x, Without(sets, index), choice[..index] + choice[index + 1..])
  {
    hide Within;
    var rest, others := choice[..index] + choice[index + 1..], Without(sets, index);
    forall i | 0 <= i < |others| ensures rest[i] in others[i] && Within(rest[i], x) {
      assert rest[i] == choice[if i < index then i else i + 1];
      assert others[i] == sets[if i < index then i else i + 1];
    }
  }

  class SolutionStorage {
    var oldLocal: set<Predicate>
    var newLocal: set<Predicate>
    var subtreeSolutions: seq<set<Predicate>>
    var subtreeIndex: map<SubtreeId, nat>
    ghost var forwarded: seq<Predicate>

    /** `old_local` and `new_local` are disjoint, their union is exactly the set of solutions of
        the subtree sets, and what was forwarded, once each, is `old_local`. */
    ghost predicate Valid()
      reads this
    {
      && (forall id <- subtreeIndex :: subtreeIndex[id] < |subtreeSolutions|)
      && oldLocal !! newLocal
      && (forall x :: x in oldLocal || x in newLocal <==> IsSolution(x, subtreeSolutions))
      && (forall x :: x in forwarded <==> x in oldLocal)
      && (forall i, j | 0 <= i < j < |forwarded| :: forwarded[i] != forwarded[j])
    }

    constructor (subtreeIds: seq<SubtreeId>)
      requires subtreeIds != []
      ensures Valid() && oldLocal == {} && newLocal == {} && forwarded == []
      ensures |subtreeSolutions| == |subtreeIds| && forall i | 0 <= i < |subtreeSolutions| :: subtreeSolutions[i] == {}
      ensures forall id :: id in subtreeIndex <==> id in subtreeIds
      ensures forall id <- subtreeIndex :: subtreeIndex[id] < |subtreeIds| && subtreeIds[subtreeIndex[id]] == id
    {
      var index: map<SubtreeId, nat>, solutions: seq<set<Predicate>> := map[], [];
      var i := 0;
      while i < |subtreeIds|
        invariant 0 <= i <= |subtreeIds| && |solutions| == i
        invariant forall k | 0 <= k < i :: solutions[k] == {}
        invariant forall id :: id in index <==> id in subtreeIds[..i]
        invariant forall id <- index :: index[id] < i && subtreeIds[index[id]] == id
      {
        index := index[subtreeIds[i] := |solutions|];
        solutions := solutions + [{}];
        i := i + 1;
      }
      oldLocal, newLocal, forwarded := {}, {}, [];
      subtreeSolutions, subtreeIndex := solutions, index;
      new;
      forall x ensures !IsSolution(x, subtreeSolutions) {
        if choice :| Joins(x, map[], subtreeSolutions, choice) { assert choice[0] in subtreeSolutions[0]; }
      }
      assert subtreeIds[..i] == subtreeIds;
    }

    /** Insert a solution of one subtree, and store every solution it makes possible. */
    method SubmitAndDigest(id: SubtreeId, solution: Predicate)
      requires Valid() && id in subtreeIndex
      modifies this`newLocal, this`subtreeSolutions
      ensures Valid()
      ensures subtreeSolutions == old(subtreeSolutions)[subtreeIndex[id] := old(subtreeSolutions[subtreeIndex[id]]) + {solution}]
      ensures old(newLocal) <= newLocal
    {
      var index := subtreeIndex[id];
      var wasNew := solution !in subtreeSolutions[index];
      ghost var before := subtreeSolutions;
      subtreeSolutions := subtreeSolutions[index := subtreeSolutions[index] + {solution}];
      if wasNew {
        var others := subtreeSolutions[..index] + subtreeSolutions[index + 1..];
        Elaborate(solution, others);
        assert others == Without(before, index);
        forall x { NewSolutions(x, before, index, solution); }
      } else {
        assert subtreeSolutions[index] == before[index];
        assert subtreeSolutions == before;
      }
    }

    /** Recursively add every union of `partial` with one predicate from each of the sets. */
    method Elaborate(partial: Predicate, sets: seq<set<Predicate>>)
      modifies this`newLocal
      ensures forall x :: x in newLocal <==>
        x in old(newLocal) || (Elaborates(x, partial, sets) && x !in oldLocal)
      decreases |sets|
    {
      if sets == [] {
        forall x { ElaboratesNothing(x, partial); }
        if partial !in oldLocal {
          newLocal := newLocal + {partial};
        }
      } else {
        var todo := sets[0];
        var items := Items(partial);
        ghost var done: set<Predicate> := {};
        while todo != {}
          invariant todo + done == sets[0]
          invariant forall x :: x in newLocal <==>
            x in old(newLocal) || (x !in oldLocal && exists p <- done :: Consistent(p, partial) && Elaborates(x, p + partial, sets[1..]))
          decreases todo
        {
          var pred :| pred in todo;
          todo := todo - {pred};
          var elaborated := UnionWith(pred, partial, items);
          if elaborated.Some? {
            Elaborate(elaborated.value, sets[1..]);
          }
          done := done + {pred};
        }
        forall x { ElaboratesOne(x, partial, sets); }
      }
    }

    /** Move every new solution to the old ones, visiting each; the insertion always succeeds. */
    method DrainNewLocal() returns (drained: seq<Predicate>, inserted: bool)
      requires Valid()
      modifies this`oldLocal, this`newLocal, this`forwarded
      ensures Valid() && inserted
      ensures newLocal == {} && oldLocal == old(oldLocal + newLocal)
      ensures forwarded == old(forwarded) + drained
      ensures forall x :: x in drained <==> x in old(newLocal)
    {
      drained, inserted := [], true;
      while newLocal != {}
        invariant Valid() && inserted
        invariant oldLocal + newLocal == old(oldLocal + newLocal) && old(oldLocal) <= oldLocal
        invariant forwarded == old(forwarded) + drained
        invariant forall x :: x in drained <==> x in old(newLocal) && x in oldLocal
        decreases newLocal
      {
        var local :| local in newLocal;
        newLocal := newLocal - {local};
        inserted := local !in oldLocal;
        oldLocal, drained := oldLocal + {local}, drained + [local];
        forwarded := forwarded + [local];
      }
    }
  }
}
