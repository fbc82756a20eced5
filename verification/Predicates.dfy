/** Predicates: partial assignments of speculative variables, and their unions. */
module Predicates {
  import opened Network

  /** A port identifier; speculative variables are port identifiers too. */
  datatype Id = Id(connector: nat, suffix: nat)

  predicate Less(a: Id, b: Id) {
    a.connector < b.connector || (a.connector == b.connector && a.suffix < b.suffix)
  }

  type Predicate = map<Id, nat>

  const FIRING: nat := 1
  const SILENT: nat := 0

  datatype AssignmentUnionResult = FormerNotLatter | LatterNotFormer | Equivalent | New(pred: Predicate) | Nonexistant

  /** `p` assigns a subset of what `q` assigns. */
  predicate Within(p: Predicate, q: Predicate) {
    forall v <- p :: v in q && q[v] == p[v]
  }

  /** No variable is mapped differently by the two. */
  predicate Consistent(p: Predicate, q: Predicate) {
    forall v | v in p && v in q :: p[v] == q[v]
  }

  /** The variables of channels are only ever FIRING or SILENT. */
  ghost predicate Binary(channels: iset<Id>, p: Predicate) {
    forall v <- channels | v in p :: p[v] == FIRING || p[v] == SILENT
  }

  /** The meaning of `assignment_union`: which of the two, if any, already is their union. */
  function Union(p: Predicate, q: Predicate): AssignmentUnionResult {
    if !Consistent(p, q) then Nonexistant
    else if p == q then Equivalent
    else if Within(q, p) then FormerNotLatter
    else if Within(p, q) then LatterNotFormer
    else New(p + q)
  }

  /** The items of a predicate in ascending order of variable, as a BTreeMap yields them. */
  ghost predicate Lists(items: seq<(Id, nat)>, p: Predicate) {
    && (forall i, j | 0 <= i < j < |items| :: Less(items[i].0, items[j].0))
    && (forall i | 0 <= i < |items| :: items[i].0 in p && p[items[i].0] == items[i].1)
    && (forall v <- p :: exists i :: 0 <= i < |items| && items[i].0 == v)
  }

  lemma WithinSelf(p: Predicate)
    ensures Within(p, p)
  {
  }

  /** `rest` holds those of the items that `q` does not assign; the others agree with `q`. */
  ghost predicate Splits(items: seq<(Id, nat)>, q: Predicate, rest: seq<(Id, nat)>) {
    && (forall x <- rest :: x in items && x.0 !in q)
    && (forall x <- items :: x in rest || (x.0 in q && q[x.0] == x.1))
  }

  /** `before` lies below whatever comes next in `items` at position `i`. */
  ghost predicate Below(before: seq<(Id, nat)>, items: seq<(Id, nat)>, i: nat) {
    i < |items| ==> forall x <- before :: Less(x.0, items[i].0)
  }

  /** A variable strictly between the visited and the unvisited part of a list is not in it. */
  lemma Skipped(items: seq<(Id, nat)>, p: Predicate, j: nat, v: Id)
    requires Lists(items, p) && j <= |items|
    requires forall x <- items[..j] :: Less(x.0, v)
    requires j < |items| ==> Less(v, items[j].0)
    ensures v !in p
  {
    forall i | 0 <= i < |items| ensures items[i].0 != v {
      if i < j { assert items[..j][i] == items[i]; }
    }
  }

  lemma SplitsMore(items: seq<(Id, nat)>, i: nat, q: Predicate, rest: seq<(Id, nat)>)
    requires i < |items| && Splits(items[..i], q, rest)
    ensures items[i].0 !in q ==> Splits(items[..i + 1], q, rest + [items[i]])
    ensures items[i].0 in q && q[items[i].0] == items[i].1 ==> Splits(items[..i + 1], q, rest)
  {
    assert items[..i + 1] == items[..i] + [items[i]];
  }

  /** The walk has visited the first `i` items of one list and the first `j` of the other. */
  ghost predicate Walked(xs: seq<(Id, nat)>, p: Predicate, i: nat, xOnly: seq<(Id, nat)>,
                         ys: seq<(Id, nat)>, q: Predicate, j: nat, yOnly: seq<(Id, nat)>) {
    && Lists(xs, p) && Lists(ys, q) && i <= |xs| && j <= |ys|
    && Splits(xs[..i], q, xOnly) && Splits(ys[..j], p, yOnly)
    && Below(xs[..i], ys, j) && Below(ys[..j], xs, i)
  }

  lemma WalkedMirrored(xs: seq<(Id, nat)>, p: Predicate, i: nat, xOnly: seq<(Id, nat)>,
                       ys: seq<(Id, nat)>, q: Predicate, j: nat, yOnly: seq<(Id, nat)>)
    requires Walked(xs, p, i, xOnly, ys, q, j, yOnly)
    ensures Walked(ys, q, j, yOnly, xs, p, i, xOnly)
  {
  }

  lemma BelowMore(xs: seq<(Id, nat)>, p: Predicate, i: nat, ys: seq<(Id, nat)>, q: Predicate, j: nat)
    requires Lists(xs, p) && Lists(ys, q) && i < |xs| && j < |ys|
    requires Below(xs[..i], ys, j) && Below(ys[..j], xs, i)
    ensures Less(xs[i].0, ys[j].0) ==> Below(xs[..i + 1], ys, j) && Below(ys[..j], xs, i + 1)
    ensures xs[i].0 == ys[j].0 ==> Below(xs[..i + 1], ys, j + 1)
  {
    assert xs[..i + 1] == xs[..i] + [xs[i]];
    assert i + 1 < |xs| ==> Less(xs[i].0, xs[i + 1].0);
    assert j + 1 < |ys| ==> Less(ys[j].0, ys[j + 1].0);
  }

  /** The smaller variable is missing from the other predicate. */
  lemma WalkLow(xs: seq<(Id, nat)>, p: Predicate, i: nat, xOnly: seq<(Id, nat)>,
                ys: seq<(Id, nat)>, q: Predicate, j: nat, yOnly: seq<(Id, nat)>)
    requires Walked(xs, p, i, xOnly, ys, q, j, yOnly) && i < |xs| && j < |ys| && Less(xs[i].0, ys[j].0)
    ensures Walked(xs, p, i + 1, xOnly + [xs[i]], ys, q, j, yOnly)
  {
    hide Splits, Less;
    BelowMore(xs, p, i, ys, q, j);
    Skipped(ys, q, j, xs[i].0);
    SplitsMore(xs, i, q, xOnly);
  }

  lemma WalkBoth(xs: seq<(Id, nat)>, p: Predicate, i: nat, xOnly: seq<(Id, nat)>,
                 ys: seq<(Id, nat)>, q: Predicate, j: nat, yOnly: seq<(Id, nat)>)
    requires Walked(xs, p, i, xOnly, ys, q, j, yOnly) && i < |xs| && j < |ys| && xs[i] == ys[j]
    ensures Walked(xs, p, i + 1, xOnly, ys, q, j + 1, yOnly)
  {
    hide Splits, Less, Below;
    BelowMore(xs, p, i, ys, q, j);
    BelowMore(ys, q, j, xs, p, i);
    SplitsMore(xs, i, q, xOnly);
    SplitsMore(ys, j, p, yOnly);
  }

  lemma WalkStart(xs: seq<(Id, nat)>, p: Predicate, ys: seq<(Id, nat)>, q: Predicate)
    requires Lists(xs, p) && Lists(ys, q)
    ensures Walked(xs, p, 0, [], ys, q, 0, [])
  {
  }

  lemma Clashes(xs: seq<(Id, nat)>, p: Predicate, i: nat, ys: seq<(Id, nat)>, q: Predicate, j: nat)
    requires Lists(xs, p) && Lists(ys, q) && i < |xs| && j < |ys| && xs[i].0 == ys[j].0 && xs[i].1 != ys[j].1
    ensures !Consistent(p, q)
  {
    assert xs[i].0 in p && xs[i].0 in q;
  }

  lemma WalkEnd(xs: seq<(Id, nat)>, p: Predicate, i: nat, xOnly: seq<(Id, nat)>,
                ys: seq<(Id, nat)>, q: Predicate, j: nat, yOnly: seq<(Id, nat)>)
    requires Walked(xs, p, i, xOnly, ys, q, j, yOnly) && (i == |xs| || j == |ys|)
    ensures Splits(xs, q, xOnly + xs[i..]) && Splits(ys, p, yOnly + ys[j..])
  {
    hide Splits;
    Leftover(ys, j, yOnly, xs, i, p);
    Leftover(xs, i, xOnly, ys, j, q);
  }

  /** The ordered walk: where the predicates clash, or what each assigns beyond the other. */
  method Walk(self: Predicate, selfItems: seq<(Id, nat)>, other: Predicate, otherItems: seq<(Id, nat)>)
    returns (clash: bool, sNotO: seq<(Id, nat)>, oNotS: seq<(Id, nat)>)
    requires Lists(selfItems, self) && Lists(otherItems, other)
    ensures clash ==> !Consistent(self, other)
    ensures !clash ==> Splits(selfItems, other, sNotO) && Splits(otherItems, self, oNotS)
  {
    hide Walked, Splits, Lists, Consistent;
    sNotO, oNotS := [], [];
    var i, j := 0, 0;
    WalkStart(selfItems, self, otherItems, other);
    while i < |selfItems| && j < |otherItems|
      invariant 0 <= i <= |selfItems| && 0 <= j <= |otherItems|
      invariant Walked(selfItems, self, i, sNotO, otherItems, other, j, oNotS)
      decreases |selfItems| - i + |otherItems| - j
    {
      var (sid, sb) := selfItems[i];
      var (oid, ob) := otherItems[j];
      if Less(sid, oid) {
        WalkLow(selfItems, self, i, sNotO, otherItems, other, j, oNotS);
        sNotO, i := sNotO + [selfItems[i]], i + 1;
      } else if Less(oid, sid) {
        WalkedMirrored(selfItems, self, i, sNotO, otherItems, other, j, oNotS);
        WalkLow(otherItems, other, j, oNotS, selfItems, self, i, sNotO);
        oNotS, j := oNotS + [otherItems[j]], j + 1;
        WalkedMirrored(otherItems, other, j, oNotS, selfItems, self, i, sNotO);
      } else if sb != ob {
        Clashes(selfItems, self, i, otherItems, other, j);
        return true, sNotO, oNotS;
      } else {
        WalkBoth(selfItems, self, i, sNotO, otherItems, other, j, oNotS);
        i, j := i + 1, j + 1;
      }
    }
    WalkEnd(selfItems, self, i, sNotO, otherItems, other, j, oNotS);
    clash, sNotO, oNotS := false, sNotO + selfItems[i..], oNotS + otherItems[j..];
  }

  lemma UnionCases(p: Predicate, q: Predicate)
    ensures var r := Union(p, q); match r
    case Nonexistant => exists v :: v in p && v in q && p[v] != q[v]
    case Equivalent => p == q
    case FormerNotLatter => p != q && Within(q, p)
    case LatterNotFormer => p != q && Within(p, q)
    case New(u) => Consistent(p, q) && u == p + q && !Within(p, q) && !Within(q, p)
  {
    hide Within;
    if !Consistent(p, q) {
      var v :| v in p && v in q && p[v] != q[v];
    } else if Within(p, q) && Within(q, p) {
      WithinBothWays(p, q);
    }
  }

  lemma WithinBothWays(p: Predicate, q: Predicate)
    requires Within(p, q) && Within(q, p)
    ensures p == q
  {
    assert p.Keys == q.Keys;
  }

  /** `assignment_union` computes the meaning above. */
  method AssignmentUnion(self: Predicate, selfItems: seq<(Id, nat)>, other: Predicate, otherItems: seq<(Id, nat)>)
    returns (r: AssignmentUnionResult)
    requires Lists(selfItems, self) && Lists(otherItems, other)
    ensures r == Union(self, other)
    ensures match r
    case Nonexistant => exists v :: v in self && v in other && self[v] != other[v]
    case Equivalent => self == other
    case FormerNotLatter => self != other && Within(other, self)
    case LatterNotFormer => self != other && Within(self, other)
    case New(u) => Consistent(self, other) && u == self + other && !Within(self, other) && !Within(other, self)
  {
    hide Lists, Splits, Consistent, Within;
    UnionCases(self, other);
    var clash, sNotO, oNotS := Walk(self, selfItems, other, otherItems);
    if clash {
      return Nonexistant;
    }
    SplitsAreComplete(selfItems, self, otherItems, other, sNotO, oNotS);
    if sNotO == [] {
      r := if oNotS == [] then Equivalent else LatterNotFormer;
    } else if oNotS == [] {
      r := FormerNotLatter;
    } else {
      InsertedIsSum(self, other, otherItems, oNotS);
      r := New(InsertAll(self, oNotS));
    }
  }

  /** Once one walk is over, everything that remains of the other is new. */
  lemma AboveAll(others: seq<(Id, nat)>, items: seq<(Id, nat)>, i: nat, k: nat)
    requires i <= k < |items| && Below(others, items, i) && forall a, b | 0 <= a < b < |items| :: Less(items[a].0, items[b].0)
    ensures forall y <- others :: Less(y.0, items[k].0)
  {
  }

  lemma Leftover(items: seq<(Id, nat)>, i: nat, rest: seq<(Id, nat)>, others: seq<(Id, nat)>, j: nat, q: Predicate)
    requires i <= |items| && j <= |others| && (i == |items| || j == |others|)
    requires Splits(items[..i], q, rest) && Below(others[..j], items, i) && Lists(others, q)
    requires forall a, b | 0 <= a < b < |items| :: Less(items[a].0, items[b].0)
    ensures Splits(items, q, rest + items[i..])
  {
    assert items == items[..i] + items[i..];
    forall x | x in items[i..] ensures x.0 !in q {
      var k :| i <= k < |items| && x == items[k];
      assert others[..j] == others == others[..|others|];
      AboveAll(others, items, i, k);
      Skipped(others, q, |others|, x.0);
    }
    hide Below, Less, Lists;
  }

  lemma SplitsAreComplete(selfItems: seq<(Id, nat)>, self: Predicate, otherItems: seq<(Id, nat)>, other: Predicate,
                          sNotO: seq<(Id, nat)>, oNotS: seq<(Id, nat)>)
    requires Lists(selfItems, self) && Lists(otherItems, other)
    requires Splits(selfItems, other, sNotO) && Splits(otherItems, self, oNotS)
    ensures Consistent(self, other)
    ensures sNotO == [] <==> Within(self, other)
    ensures oNotS == [] <==> Within(other, self)
    ensures Within(self, other) && Within(other, self) <==> self == other
  {
    OneSide(selfItems, self, other, sNotO);
    OneSide(otherItems, other, self, oNotS);
    if Within(self, other) && Within(other, self) {
      assert self.Keys == other.Keys;
      assert forall v <- self :: self[v] == other[v];
    }
  }

  lemma OneSide(items: seq<(Id, nat)>, p: Predicate, q: Predicate, rest: seq<(Id, nat)>)
    requires Lists(items, p) && Splits(items, q, rest)
    ensures rest == [] <==> Within(p, q)
    ensures Consistent(p, q)
  {
    forall v | v in p && v in q ensures p[v] == q[v] {
      var i :| 0 <= i < |items| && items[i].0 == v;
      assert items[i] in items;
    }
    if rest == [] {
      forall v | v in p ensures v in q && q[v] == p[v] {
        var i :| 0 <= i < |items| && items[i].0 == v;
        assert items[i] in items;
      }
    } else {
      assert rest[0] in rest;
    }
  }

  function InsertAll(p: Predicate, items: seq<(Id, nat)>): Predicate
    decreases |items|
  {
    if items == [] then p else InsertAll(p[items[0].0 := items[0].1], items[1..])
  }

  lemma {:induction false} InsertAllMeaning(p: Predicate, items: seq<(Id, nat)>, q: Predicate)
    requires forall x <- items :: x.0 in q && q[x.0] == x.1
    ensures forall v :: v in InsertAll(p, items) <==> v in p || exists x <- items :: x.0 == v
    ensures forall v <- InsertAll(p, items) ::
      InsertAll(p, items)[v] == if exists x <- items :: x.0 == v then q[v] else p[v]
    decreases |items|
  {
    if items != [] {
      var p' := p[items[0].0 := items[0].1];
      assert items == [items[0]] + items[1..];
      InsertAllMeaning(p', items[1..], q);
    }
  }

  lemma InsertedIsSum(self: Predicate, other: Predicate, otherItems: seq<(Id, nat)>, oNotS: seq<(Id, nat)>)
    requires Lists(otherItems, other) && Splits(otherItems, self, oNotS) && Consistent(self, other)
    ensures InsertAll(self, oNotS) == self + other
  {
    RestCovers(self, other, otherItems, oNotS);
    hide Lists, Splits, Less;
    InsertAllMeaning(self, oNotS, other);
    hide InsertAll;
    var r := InsertAll(self, oNotS);
    forall v | v in self ensures v in r && r[v] == self[v] { assert forall x <- oNotS :: x.0 != v; }
    forall v | v in other ensures v in r && r[v] == other[v] { if v in self { assert r[v] == self[v]; } }
    OnlySum(self, other, r);
  }

  lemma RestCovers(self: Predicate, other: Predicate, otherItems: seq<(Id, nat)>, oNotS: seq<(Id, nat)>)
    requires Lists(otherItems, other) && Splits(otherItems, self, oNotS)
    ensures forall x <- oNotS :: x.0 in other && other[x.0] == x.1 && x.0 !in self
    ensures forall v | v in other && v !in self :: exists x <- oNotS :: x.0 == v
  {
    hide Less;
    forall v | v in other && v !in self ensures exists x <- oNotS :: x.0 == v {
      var i :| 0 <= i < |otherItems| && otherItems[i].0 == v;
      assert otherItems[i] in oNotS;
    }
  }

  /** `res` is `self` with the first `i` items inserted, none of which clashed. */
  ghost predicate Inserted(self: Predicate, items: seq<(Id, nat)>, i: nat, res: Predicate) {
    && i <= |items|
    && (forall k | 0 <= k < i :: items[k].0 in res && res[items[k].0] == items[k].1)
    && (forall v <- self :: v in res && res[v] == self[v])
    && (forall v <- res :: v in self || exists k :: 0 <= k < i && items[k].0 == v)
  }

  lemma InsertNext(self: Predicate, other: Predicate, items: seq<(Id, nat)>, i: nat, res: Predicate)
    requires Lists(items, other) && Inserted(self, items, i, res) && i < |items|
    ensures items[i].0 in res && res[items[i].0] != items[i].1 ==> !Consistent(self, other)
    ensures !(items[i].0 in res && res[items[i].0] != items[i].1) ==> Inserted(self, items, i + 1, res[items[i].0 := items[i].1])
  {
    hide Consistent, Lists, Inserted;
    var (v, b) := items[i];
    ItemIsNew(self, other, items, i, res);
    if v in res && res[v] != b { ClashAt(self, other, v); } else { InsertOne(self, items, i, res); }
  }

  lemma ItemIsNew(self: Predicate, other: Predicate, items: seq<(Id, nat)>, i: nat, res: Predicate)
    requires Lists(items, other) && Inserted(self, items, i, res) && i < |items|
    ensures items[i].0 in other && other[items[i].0] == items[i].1
    ensures items[i].0 in res ==> items[i].0 in self && res[items[i].0] == self[items[i].0]
  {
  }

  lemma InsertOne(self: Predicate, items: seq<(Id, nat)>, i: nat, res: Predicate)
    requires Inserted(self, items, i, res) && i < |items| && (items[i].0 in res ==> res[items[i].0] == items[i].1)
    ensures Inserted(self, items, i + 1, res[items[i].0 := items[i].1])
  {
    var v := items[i].0;
    forall x | x in res[v := items[i].1] && x !in self ensures exists k :: 0 <= k < i + 1 && items[k].0 == x {
      if x != v { var k :| 0 <= k < i && items[k].0 == x; }
    }
  }

  lemma ClashAt(p: Predicate, q: Predicate, v: Id)
    requires v in p && v in q && p[v] != q[v]
    ensures !Consistent(p, q)
  {
  }

  lemma InsertDone(self: Predicate, other: Predicate, items: seq<(Id, nat)>, res: Predicate)
    requires Lists(items, other) && Inserted(self, items, |items|, res)
    ensures Consistent(self, other) && res == self + other
  {
    forall v | v in other ensures v in res && res[v] == other[v] {
      var k :| 0 <= k < |items| && items[k].0 == v;
    }
    forall v | v in res ensures v in self || v in other { }
    hide Lists, Inserted, Less;
    OnlySum(self, other, res);
  }

  lemma OnlySum(p: Predicate, q: Predicate, res: Predicate)
    requires Within(p, res) && Within(q, res) && forall v <- res :: v in p || v in q
    ensures Consistent(p, q) && res == p + q
  {
    assert res.Keys == (p + q).Keys;
  }

  /** `union_with` inserts the other's items one by one and gives up on the first clash. */
  method UnionWith(self: Predicate, other: Predicate, otherItems: seq<(Id, nat)>) returns (r: Option<Predicate>)
    requires Lists(otherItems, other)
    ensures r == if Consistent(self, other) then Some(self + other) else None
  {
    hide Lists, Inserted, Consistent;
    var res, i := self, 0;
    assert Inserted(self, otherItems, 0, self) by { InsertNone(self, otherItems); }
    while i < |otherItems|
      invariant 0 <= i <= |otherItems| && Inserted(self, otherItems, i, res)
    {
      InsertNext(self, other, otherItems, i, res);
      var (v, b) := otherItems[i];
      if v in res && res[v] != b {
        return None;
      }
      res, i := res[v := b], i + 1;
    }
    InsertDone(self, other, otherItems, res);
    r := Some(res);
  }

  lemma InsertNone(self: Predicate, items: seq<(Id, nat)>)
    ensures Inserted(self, items, 0, self)
  {
  }

  // ---- the entries in order ----

  /** The first of some variables. */
  method First(vars: set<Id>) returns (v: Id)
    requires vars != {}
    ensures v in vars && forall x <- vars | x != v :: Less(v, x)
  {
    v :| v in vars;
    var todo := vars - {v};
    while todo != {}
      invariant todo <= vars && v in vars && v !in todo
      invariant forall x <- vars | x !in todo && x != v :: Less(v, x)
      decreases todo
    {
      var x :| x in todo;
      todo := todo - {x};
      if Less(x, v) { v := x; }
    }
  }

  /** The entries of a predicate in ascending order, as iterating over a BTreeMap yields them. */
  method Items(p: Predicate) returns (items: seq<(Id, nat)>)
    ensures Lists(items, p)
  {
    items := [];
    var todo := p.Keys;
    while todo != {}
      invariant todo <= p.Keys
      invariant forall i, j | 0 <= i < j < |items| :: Less(items[i].0, items[j].0)
      invariant forall i | 0 <= i < |items| :: items[i].0 in p && p[items[i].0] == items[i].1
      invariant forall i, v | 0 <= i < |items| && v in todo :: Less(items[i].0, v)
      invariant forall v <- p | v !in todo :: (v, p[v]) in items
      decreases todo
    {
      var v := First(todo);
      items := items + [(v, p[v])];
      todo := todo - {v};
    }
    forall v | v in p ensures exists i :: 0 <= i < |items| && items[i].0 == v { assert (v, p[v]) in items; }
  }

  /** `assignment_union` on predicates as such. */
  method UnionOf(p: Predicate, q: Predicate) returns (r: AssignmentUnionResult)
    ensures r == Union(p, q)
    ensures match r
    case Nonexistant => exists v :: v in p && v in q && p[v] != q[v]
    case Equivalent => p == q
    case FormerNotLatter => p != q && Within(q, p)
    case LatterNotFormer => p != q && Within(p, q)
    case New(u) => Consistent(p, q) && u == p + q && !Within(p, q) && !Within(q, p)
  {
    var pItems := Items(p);
    var qItems := Items(q);
    r := AssignmentUnion(p, pItems, q, qItems);
  }

  /** The predicate that a result of `assignment_union` of `p` and `q` stands for. */
  ghost function Unified(r: AssignmentUnionResult, p: Predicate, q: Predicate): Option<Predicate> {
    match r
    case Nonexistant => None
    case Equivalent => Some(p)
    case FormerNotLatter => Some(p)
    case LatterNotFormer => Some(q)
    case New(u) => Some(u)
  }

  ghost function Sum(p: Predicate, q: Predicate): Option<Predicate> {
    if Consistent(p, q) then Some(p + q) else None
  }

  /** `assignment_union` and `union_with` agree on whether there is a union and what it is. */
  lemma UnionsAgree(p: Predicate, q: Predicate)
    ensures Unified(Union(p, q), p, q) == Sum(p, q)
  {
    if Consistent(p, q) {
      if Within(q, p) { assert p + q == p; }
      if Within(p, q) { assert p + q == q; }
    }
  }

  ghost function SumOf(m: Option<Predicate>, q: Predicate): Option<Predicate> {
    if m.Some? then Sum(m.value, q) else None
  }

  /** The union is commutative, and associative even where it does not exist. */
  lemma UnionLaws(p: Predicate, q: Predicate, r: Predicate)
    ensures Sum(p, q) == Sum(q, p)
    ensures SumOf(Sum(p, q), r) == SumOf(Sum(q, r), p)
  {
    Commutes(p, q);
    if Consistent(p, q) && Consistent(q, r) && Consistent(p, r) {
      assert p + q + r == q + r + p;
    } else {
      if Consistent(p, q) { Spreads(p, q, r); }
      if Consistent(q, r) { Spreads(q, r, p); }
    }
  }

  lemma Commutes(p: Predicate, q: Predicate)
    ensures Sum(p, q) == Sum(q, p)
  {
    if Consistent(p, q) { assert p + q == q + p; }
  }

  /** A predicate is consistent with a union exactly when it is with both parts. */
  lemma Spreads(p: Predicate, q: Predicate, r: Predicate)
    requires Consistent(p, q)
    ensures Consistent(p + q, r) <==> Consistent(p, r) && Consistent(q, r)
  {
    if Consistent(p + q, r) {
      forall v | v in p && v in r ensures p[v] == r[v] { assert v in p + q; }
      forall v | v in q && v in r ensures q[v] == r[v] { assert v in p + q; }
    }
  }
}
