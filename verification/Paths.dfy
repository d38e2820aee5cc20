/** Finite directed graphs given by their edges: reachability, acyclicity, and
    what adding one edge does to both. */
module Paths {

  ghost predicate ReachesIn<T>(edges: set<(T, T)>, x: T, y: T, n: nat)
  {
    if n == 0 then x == y
    else exists e :: e in edges && e.1 == y && ReachesIn(edges, x, e.0, n - 1)
  }

  ghost predicate Reaches<T>(edges: set<(T, T)>, x: T, y: T)
  {
    exists n: nat :: ReachesIn(edges, x, y, n)
  }

  /** No edge closes a cycle, self-loops included. */
  ghost predicate Acyclic<T>(edges: set<(T, T)>)
  {
    forall e :: e in edges ==> !Reaches(edges, e.1, e.0)
  }

  /** p lists nodes, each with an edge to the next. */
  ghost predicate IsPath<T>(edges: set<(T, T)>, p: seq<T>)
  {
    p != [] && forall i :: 0 <= i < |p| - 1 ==> (p[i], p[i + 1]) in edges
  }

  lemma ReachesSelf<T>(edges: set<(T, T)>, x: T)
    ensures Reaches(edges, x, x)
  {
    assert ReachesIn(edges, x, x, 0);
  }

  lemma ReachesStep<T>(edges: set<(T, T)>, x: T, e: (T, T))
    requires e in edges && Reaches(edges, x, e.0)
    ensures Reaches(edges, x, e.1)
  {
    var n: nat :| ReachesIn(edges, x, e.0, n);
    assert ReachesIn(edges, x, e.1, n + 1);
  }

  lemma {:induction false} ReachesTransIn<T>(edges: set<(T, T)>, x: T, y: T, z: T, n: nat)
    requires Reaches(edges, x, y) && ReachesIn(edges, y, z, n)
    ensures Reaches(edges, x, z)
    decreases n
  {
    if n > 0 {
      var e :| e in edges && e.1 == z && ReachesIn(edges, y, e.0, n - 1);
      ReachesTransIn(edges, x, y, e.0, n - 1);
      ReachesStep(edges, x, e);
    }
  }

  lemma ReachesTrans<T>(edges: set<(T, T)>, x: T, y: T, z: T)
    requires Reaches(edges, x, y) && Reaches(edges, y, z)
    ensures Reaches(edges, x, z)
  {
    var n: nat :| ReachesIn(edges, y, z, n);
    ReachesTransIn(edges, x, y, z, n);
  }

  /** A listed path is a proof of reachability. */
  lemma {:induction false} PathReaches<T>(edges: set<(T, T)>, p: seq<T>)
    requires IsPath(edges, p)
    ensures Reaches(edges, p[0], p[|p| - 1])
    decreases |p|
  {
    if |p| == 1 {
      ReachesSelf(edges, p[0]);
    } else {
      var q := p[..|p| - 1];
      assert forall i :: 0 <= i < |q| - 1 ==> (q[i], q[i + 1]) == (p[i], p[i + 1]);
      PathReaches(edges, q);
      ReachesStep(edges, p[0], (p[|p| - 2], p[|p| - 1]));
    }
  }

  /** A set closed under the edges holds everything reachable from its members. */
  lemma {:induction false} ClosedSetHolds<T>(edges: set<(T, T)>, s: set<T>, x: T, y: T, n: nat)
    requires x in s && ReachesIn(edges, x, y, n)
    requires forall e :: e in edges && e.0 in s ==> e.1 in s
    ensures y in s
    decreases n
  {
    if n > 0 {
      var e :| e in edges && e.1 == y && ReachesIn(edges, x, e.0, n - 1);
      ClosedSetHolds(edges, s, x, e.0, n - 1);
    }
  }

  lemma {:induction false} ReachesMoreIn<T>(small: set<(T, T)>, big: set<(T, T)>, x: T, y: T, n: nat)
    requires small <= big && ReachesIn(small, x, y, n)
    ensures ReachesIn(big, x, y, n)
    decreases n
  {
    if n > 0 {
      var e :| e in small && e.1 == y && ReachesIn(small, x, e.0, n - 1);
      ReachesMoreIn(small, big, x, e.0, n - 1);
    }
  }

  lemma {:induction false} ReachesWithEdge<T>(edges: set<(T, T)>, u: T, v: T, x: T, y: T, n: nat)
    requires ReachesIn(edges + {(u, v)}, x, y, n)
    ensures Reaches(edges, x, y) || (Reaches(edges, x, u) && Reaches(edges, v, y))
    decreases n
  {
    if n == 0 {
      ReachesSelf(edges, x);
    } else {
      var e :| e in edges + {(u, v)} && e.1 == y && ReachesIn(edges + {(u, v)}, x, e.0, n - 1);
      ReachesWithEdge(edges, u, v, x, e.0, n - 1);
      ReachesSelf(edges, v);
      if e in edges {
        if Reaches(edges, x, e.0) {
          ReachesStep(edges, x, e);
        } else {
          ReachesStep(edges, v, e);
        }
      }
    }
  }

  /** Adding an edge keeps a graph acyclic if and only if its head does not
      already reach its tail: the test waitFor makes. */
  lemma AcyclicWithEdge<T>(edges: set<(T, T)>, u: T, v: T)
    requires Acyclic(edges)
    ensures Acyclic(edges + {(u, v)}) <==> !Reaches(edges, v, u)
  {
    var more := edges + {(u, v)};
    if Reaches(edges, v, u) {
      var n: nat :| ReachesIn(edges, v, u, n);
      ReachesMoreIn(edges, more, v, u, n);
      assert (u, v) in more;
    } else {
      forall e | e in more ensures !Reaches(more, e.1, e.0) {
        if Reaches(more, e.1, e.0) {
          var n: nat :| ReachesIn(more, e.1, e.0, n);
          ReachesWithEdge(edges, u, v, e.1, e.0, n);
          if e in edges {
            ReachesSelf(edges, e.0);
            ReachesSelf(edges, v);
            ReachesStep(edges, e.0, e);
            assert Reaches(edges, e.1, u) && Reaches(edges, v, e.0);
            ReachesTrans(edges, v, e.0, e.1);
            ReachesTrans(edges, v, e.1, u);
          }
        }
      }
    }
  }

  lemma AcyclicWithout<T>(small: set<(T, T)>, big: set<(T, T)>)
    requires small <= big && Acyclic(big)
    ensures Acyclic(small)
  {
    forall e | e in small ensures !Reaches(small, e.1, e.0) {
      if Reaches(small, e.1, e.0) {
        var n: nat :| ReachesIn(small, e.1, e.0, n);
        ReachesMoreIn(small, big, e.1, e.0, n);
      }
    }
  }

  ghost function Below<T>(edges: set<(T, T)>, nodes: set<T>, x: T): set<T>
  {
    set y | y in nodes && Reaches(edges, x, y)
  }

  /** In a finite acyclic graph, from every node some node can be reached that
      has no edge into the set. */
  lemma {:induction false} SinkBelow<T>(edges: set<(T, T)>, nodes: set<T>, x: T) returns (sink: T)
    requires Acyclic(edges) && x in nodes
    ensures sink in nodes && Reaches(edges, x, sink)
    ensures forall e :: e in edges && e.0 == sink ==> e.1 !in nodes
    decreases |Below(edges, nodes, x)|
  {
    ReachesSelf(edges, x);
    if e :| e in edges && e.0 == x && e.1 in nodes {
      forall y | y in Below(edges, nodes, e.1) ensures y in Below(edges, nodes, x) {
        ReachesStep(edges, x, e);
        ReachesTrans(edges, x, e.1, y);
      }
      assert x in Below(edges, nodes, x) - Below(edges, nodes, e.1);
      Smaller(Below(edges, nodes, e.1), Below(edges, nodes, x), x);
      sink := SinkBelow(edges, nodes, e.1);
      ReachesStep(edges, x, e);
      ReachesTrans(edges, x, e.1, sink);
    } else {
      sink := x;
    }
  }

  lemma Smaller<T>(small: set<T>, big: set<T>, x: T)
    requires small <= big && x in big && x !in small
    ensures |small| < |big|
  {
    Fewer(small, big - {x});
  }

  lemma {:induction false} Fewer<T>(small: set<T>, big: set<T>)
    requires small <= big
    ensures |small| <= |big|
    decreases small
  {
    if x :| x in small {
      Fewer(small - {x}, big - {x});
    }
  }
}
