/** Least closed sets in a finite graph, and that they are exactly what its edges reach. */
module Closures {
  function Next<T(==)>(edges: map<T, set<T>>, x: T): set<T> {
    if x in edges then edges[x] else {}
  }

  ghost predicate Closed<T>(edges: map<T, set<T>>, members: set<T>) {
    forall x | x in members :: Next(edges, x) <= members
  }

  /** Every closed set around the seeds contains these members. */
  ghost predicate Least<T(!new)>(edges: map<T, set<T>>, seeds: set<T>, members: set<T>) {
    forall closed: set<T> | seeds <= closed && Closed(edges, closed) :: members <= closed
  }

  ghost predicate IsClosure<T(!new)>(edges: map<T, set<T>>, seeds: set<T>, members: set<T>) {
    seeds <= members && Closed(edges, members) && Least(edges, seeds, members)
  }

  /** A closure is unique. */
  lemma OneClosure<T(!new)>(edges: map<T, set<T>>, seeds: set<T>, a: set<T>, b: set<T>)
    requires IsClosure(edges, seeds, a) && IsClosure(edges, seeds, b)
    ensures a == b
  {
    assert a <= b && b <= a;
  }

  /** The path follows edges from a seed to `x`. */
  ghost predicate Leads<T>(edges: map<T, set<T>>, seeds: set<T>, path: seq<T>, x: T) {
    && path != [] && path[0] in seeds && path[|path| - 1] == x
    && forall i :: 0 < i < |path| ==> path[i] in Next(edges, path[i - 1])
  }

  ghost predicate Reachable<T(!new)>(edges: map<T, set<T>>, seeds: set<T>, x: T) {
    exists path: seq<T> :: Leads(edges, seeds, path, x)
  }

  lemma ReachableStep<T(!new)>(edges: map<T, set<T>>, seeds: set<T>, x: T, y: T)
    requires Reachable(edges, seeds, x) && y in Next(edges, x)
    ensures Reachable(edges, seeds, y)
  {
    var path: seq<T> :| Leads(edges, seeds, path, x);
    assert (path + [y])[..|path|] == path;
    assert Leads(edges, seeds, path + [y], y);
  }

  lemma {:induction false} LeadsInside<T>(edges: map<T, set<T>>, seeds: set<T>, closed: set<T>, path: seq<T>, x: T)
    requires seeds <= closed && Closed(edges, closed) && Leads(edges, seeds, path, x)
    ensures x in closed
    decreases |path|
  {
    if |path| > 1 {
      LeadsInside(edges, seeds, closed, path[..|path| - 1], path[|path| - 2]);
      assert path[|path| - 1] in Next(edges, path[|path| - 2]);
    }
  }

  /** The closure is exactly what edges reach from the seeds. */
  lemma ClosureIsReachability<T(!new)>(edges: map<T, set<T>>, seeds: set<T>, result: set<T>, x: T)
    requires IsClosure(edges, seeds, result)
    ensures x in result <==> Reachable(edges, seeds, x)
  {
    if Reachable(edges, seeds, x) {
      var path: seq<T> :| Leads(edges, seeds, path, x);
      LeadsInside(edges, seeds, result, path, x);
    }
    var reached := set y | y in result && Reachable(edges, seeds, y);
    forall y | y in seeds ensures y in reached {
      assert Leads(edges, seeds, [y], y);
    }
    forall y, z | y in reached && z in Next(edges, y) ensures z in reached {
      ReachableStep(edges, seeds, y, z);
      assert Next(edges, y) <= result;
    }
    assert Closed(edges, reached);
    assert result <= reached;
  }
}
