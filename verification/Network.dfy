/** Connectors and the links between them: a finite multigraph in which
    parallel links and links from a connector to itself are legal. */
module Network {
  datatype Option<+T> = None | Some(value: T)

  /** The `index`-th net endpoint of the connector with identifier `node`. */
  datatype Endpoint = Endpoint(node: nat, index: nat)

  /** `degree[n]` is the number of net endpoints of connector `n`; `peer` pairs the
      two ends of every link. Using the identifier as the node makes identifiers distinct. */
  datatype Graph = Graph(degree: map<nat, nat>, peer: map<Endpoint, Endpoint>) {

    ghost predicate Valid() {
      && (forall e <- peer :: e.node in degree && e.index < degree[e.node])
      && (forall n, i: nat | n in degree && i < degree[n] :: Endpoint(n, i) in peer)
      && (forall e <- peer :: peer[e] in peer && peer[e] != e && peer[peer[e]] == e)
    }

    /** `path` visits connectors that are linked one to the next. */
    ghost predicate IsPath(path: seq<nat>) {
      && |path| > 0
      && path[0] in degree
      && forall i | 0 < i < |path| :: Linked(path[i - 1], path[i])
    }

    ghost predicate Linked(a: nat, b: nat) {
      exists e <- peer :: e.node == a && peer[e].node == b
    }

    ghost predicate Connected() {
      forall a, b | a in degree && b in degree ::
        exists path :: IsPath(path) && path[0] == a && path[|path| - 1] == b
    }

    /** No link leaves `s`. */
    ghost predicate Closed(s: set<nat>) {
      forall e <- peer :: e.node in s ==> peer[e].node in s
    }
  }

  lemma {:induction false} PathStaysInside(g: Graph, s: set<nat>, path: seq<nat>)
    requires g.Valid() && g.Closed(s) && g.IsPath(path) && path[0] in s
    ensures path[|path| - 1] in s
    decreases |path|
  {
    if |path| > 1 {
      var front := path[..|path| - 1];
      assert g.IsPath(front) by {
        forall i | 0 < i < |front| ensures g.Linked(front[i - 1], front[i]) {
          assert g.Linked(path[i - 1], path[i]);
        }
      }
      PathStaysInside(g, s, front);
      assert g.Linked(path[|path| - 2], path[|path| - 1]);
    }
  }

  /** In a connected graph a non-empty set of connectors that no link leaves is everyone. */
  lemma ClosedIsEverything(g: Graph, s: set<nat>, start: nat)
    requires g.Valid() && g.Connected() && g.Closed(s) && start in s && start in g.degree
    ensures forall n <- g.degree :: n in s
  {
    forall n | n in g.degree ensures n in s {
      var path :| g.IsPath(path) && path[0] == start && path[|path| - 1] == n;
      PathStaysInside(g, s, path);
    }
  }

  lemma ProperSubsetIsSmaller<T>(a: set<T>, b: set<T>)
    requires a < b
    ensures |a| < |b|
  {
    var x :| x in b && x !in a;
    SubsetIsSmaller(a, b - {x});
  }

  lemma {:induction false} SubsetIsSmaller<T>(a: set<T>, b: set<T>)
    requires a <= b
    ensures |a| <= |b|
    decreases |a|
  {
    if x :| x in a { SubsetIsSmaller(a - {x}, b - {x}); }
  }

  /** The elements of a set, each once, in some order. */
  ghost predicate Orders<T(!new)>(order: seq<T>, s: set<T>) {
    (forall x :: x in order <==> x in s) && Distinct(order)
  }

  ghost predicate Distinct<T>(order: seq<T>) {
    forall i, j | 0 <= i < j < |order| :: order[i] != order[j]
  }
}
