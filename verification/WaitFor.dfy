/** The wait-for graph as the runtime keeps it: attempts with a map of counts,
    searched depth first before every wait. */
module WaitFor {
  import opened Paths
  import State
  import Steps

  class Attempt {
    const site: nat
    var waits: map<Attempt, nat>

    constructor (at: nat)
      ensures site == at && waits == map[]
    {
      site, waits := at, map[];
    }
  }

  /** The visited map of one search, shared by all its recursive calls. */
  class Seen {
    var marked: set<Attempt>

    constructor ()
      ensures marked == {}
    {
      marked := {};
    }
  }

  ghost predicate Known(all: set<Attempt>)
    reads all
  {
    forall a :: a in all ==> a.waits.Keys <= all
  }

  ghost function WaitEdges(all: set<Attempt>): set<(Attempt, Attempt)>
    reads all
  {
    set a, b | a in all && b in a.waits :: (a, b)
  }

  function Counted<T>(waits: map<T, nat>, to: T): map<T, nat>
  {
    waits[to := (if to in waits then waits[to] else 0) + 1]
  }

  function Uncounted<T>(waits: map<T, nat>, to: T): map<T, nat>
    requires to in waits
  {
    if waits[to] <= 1 then waits - {to} else waits[to := waits[to] - 1]
  }

  ghost predicate Positive<T(!new)>(waits: map<T, nat>)
  {
    forall t :: t in waits ==> waits[t] > 0
  }

  /** A wait that ends takes exactly its own count away, whatever other waits
      began in between. */
  lemma CountsCancel<T(!new)>(waits: map<T, nat>, to: T, other: T)
    requires Positive(waits)
    ensures Uncounted(Counted(waits, to), to) == waits
    ensures Uncounted(Counted(Counted(waits, to), other), to) == Counted(waits, other)
    ensures Positive(Counted(waits, to))
    ensures to in waits ==> Positive(Uncounted(waits, to))
  {
    assert Counted(waits, to).Keys == waits.Keys + {to};
    assert Uncounted(Counted(waits, to), to).Keys == waits.Keys;
    var more := Counted(Counted(waits, to), other);
    assert Uncounted(more, to).Keys == Counted(waits, other).Keys;
  }

  /** The set a search without result has marked is closed under the edges, so
      it holds everything the start reaches. */
  lemma MarkedHolds(edges: set<(Attempt, Attempt)>, marked: set<Attempt>, start: Attempt, target: Attempt)
    requires start in marked && target !in marked && Explored(edges, marked, {})
    ensures !Reaches(edges, start, target)
  {
    if Reaches(edges, start, target) {
      var n: nat :| ReachesIn(edges, start, target, n);
      ClosedSetHolds(edges, marked, start, target, n);
    }
  }

  ghost predicate Leads(edges: set<(Attempt, Attempt)>, p: seq<Attempt>, start: Attempt, target: Attempt)
  {
    IsPath(edges, p) && p[0] == start && p[|p| - 1] == target
  }

  lemma PathExtended(edges: set<(Attempt, Attempt)>, start: Attempt, p: seq<Attempt>, next: Attempt, target: Attempt)
    requires Leads(edges, p, next, target) && (start, next) in edges
    ensures Leads(edges, [start] + p, start, target)
  {
    var q := [start] + p;
    forall i | 0 <= i < |q| - 1 ensures (q[i], q[i + 1]) in edges {
      if i > 0 { assert (q[i], q[i + 1]) == (p[i - 1], p[i - 1 + 1]); }
    }
  }

  /** Everything marked beyond before has its successors marked. */
  ghost predicate Explored(edges: set<(Attempt, Attempt)>, marked: set<Attempt>, before: set<Attempt>)
  {
    forall e :: e in edges && e.0 in marked && e.0 !in before ==> e.1 in marked
  }

  lemma ExploredFurther(edges: set<(Attempt, Attempt)>, first: set<Attempt>, second: set<Attempt>, before: set<Attempt>)
    requires before <= first <= second && Explored(edges, first, before) && Explored(edges, second, first)
    ensures Explored(edges, second, before)
  {
  }

  lemma StartExplored(edges: set<(Attempt, Attempt)>, marked: set<Attempt>, before: set<Attempt>,
                      around: set<Attempt>, start: Attempt, next: set<Attempt>)
    requires Explored(edges, marked, around) && around <= before + {start} && next <= marked
    requires forall e :: e in edges && e.0 == start ==> e.1 in next
    ensures Explored(edges, marked, before)
  {
  }

  /** Depth-first search for a path from start to target. Without one, everything
      it has newly marked has its successors marked too. */
  method Reach(start: Attempt, target: Attempt, seen: Seen,
               ghost all: set<Attempt>, ghost edges: set<(Attempt, Attempt)>)
    returns (path: seq<Attempt>)
    requires Known(all) && start in all && target in all && edges == WaitEdges(all)
    requires seen.marked <= all && target !in seen.marked
    modifies seen
    ensures old(seen.marked) <= seen.marked <= all && target !in seen.marked
    ensures path != [] ==> Leads(edges, path, start, target)
    ensures path == [] ==> start in seen.marked && Explored(edges, seen.marked, old(seen.marked))
    decreases all - seen.marked
  {
    if start == target {
      return [start];
    }
    if start in seen.marked {
      return [];
    }
    EdgesOf(all, start);
    hide Explored, Leads, WaitEdges, Known;
    ghost var before := seen.marked;
    seen.marked := seen.marked + {start};
    ghost var around := seen.marked;
    var waits := start.waits.Keys;
    var todo := waits;
    NothingNew(edges, seen.marked);
    while todo != {}
      invariant around <= seen.marked <= all && target !in seen.marked
      invariant todo <= waits && forall b :: b in waits && b !in todo ==> b in seen.marked
      invariant Explored(edges, seen.marked, around)
      decreases todo
    {
      var next :| next in todo;
      todo := todo - {next};
      ghost var first := seen.marked;
      var rest := Reach(next, target, seen, all, edges);
      if rest != [] {
        PathExtended(edges, start, rest, next, target);
        return [start] + rest;
      }
      ExploredFurther(edges, first, seen.marked, around);
    }
    StartExplored(edges, seen.marked, before, around, start, waits);
    return [];
  }

  lemma NothingNew(edges: set<(Attempt, Attempt)>, marked: set<Attempt>)
    ensures Explored(edges, marked, marked)
  {
  }

  lemma EdgesOf(all: set<Attempt>, a: Attempt)
    requires Known(all) && a in all
    ensures a.waits.Keys <= all
    ensures forall b :: b in a.waits <==> (a, b) in WaitEdges(all)
  {
  }

  function SitesOf(path: seq<Attempt>): (r: seq<nat>)
  {
    seq(|path|, i requires 0 <= i < |path| => path[i].site)
  }

  method Sites(path: seq<Attempt>) returns (sites: seq<nat>)
    ensures sites == SitesOf(path)
  {
    sites := [];
    for i := 0 to |path|
      invariant sites == SitesOf(path[..i])
    {
      sites := sites + [path[i].site];
    }
    assert path[..|path|] == path;
  }

  datatype Waited = Accepted | ErrCycle(sites: seq<nat>)

  /** A circle of waits that starts and ends at to, the last wait being the one
      asked for: from's. */
  ghost predicate Circle(edges: set<(Attempt, Attempt)>, circle: seq<Attempt>, from: Attempt, to: Attempt)
  {
    && |circle| >= 2 && circle[|circle| - 1] == to
    && Leads(edges, circle[..|circle| - 1], to, from)
  }

  lemma CircleClosed(edges: set<(Attempt, Attempt)>, p: seq<Attempt>, from: Attempt, to: Attempt)
    requires Leads(edges, p, to, from)
    ensures Circle(edges, p + [to], from, to) && Reaches(edges, to, from)
    ensures SitesOf(p + [to]) == SitesOf(p) + [to.site]
  {
    assert (p + [to])[..|p|] == p;
    PathReaches(edges, p);
  }

  lemma EdgesListed(all: set<Attempt>, from: Attempt)
    requires from in all && Known(all)
    ensures forall e :: e in WaitEdges(all) ==> e.1 in all
    ensures forall a, b :: a in all && a != from ==> (b in a.waits <==> (a, b) in WaitEdges(all))
    ensures forall e :: e in WaitEdges(all) ==> e.0 in all
    ensures forall b :: b in from.waits <==> (from, b) in WaitEdges(all)
  {
  }

  lemma EdgeAdded(all: set<Attempt>, from: Attempt, to: Attempt, before: set<(Attempt, Attempt)>, waits: set<Attempt>)
    requires from in all && to in all
    requires forall a, b :: a in all && a != from ==> (b in a.waits <==> (a, b) in before)
    requires forall e :: e in before ==> e.0 in all && e.1 in all
    requires from.waits.Keys == waits + {to} && forall b :: b in waits <==> (from, b) in before
    ensures Known(all) && WaitEdges(all) == before + {(from, to)}
    ensures Acyclic(before) && !Reaches(before, to, from) ==> Acyclic(WaitEdges(all))
  {
    hide Reaches, Acyclic;
    if Acyclic(before) { AcyclicWithEdge(before, from, to); }
  }

  /** waitFor refuses exactly when to already waits, directly or not, on from, and
      then names the circle this wait would close; otherwise it counts one more
      wait of from on to and nothing else. */
  method WaitFor(from: Attempt, to: Attempt, ghost all: set<Attempt>) returns (r: Waited, ghost circle: seq<Attempt>)
    requires Known(all) && from in all && to in all
    modifies from`waits
    ensures r.ErrCycle? <==> Reaches(old(WaitEdges(all)), to, from)
    ensures r.ErrCycle? ==> from.waits == old(from.waits)
    ensures r.ErrCycle? ==> Circle(old(WaitEdges(all)), circle, from, to) && r.sites == SitesOf(circle)
    ensures r.Accepted? ==> from.waits == Counted(old(from.waits), to)
    ensures r.Accepted? ==> Known(all) && WaitEdges(all) == old(WaitEdges(all)) + {(from, to)}
    ensures old(Acyclic(WaitEdges(all))) ==> Acyclic(WaitEdges(all))
  {
    hide Leads, Circle, Acyclic, WaitEdges, Known, Reaches, Explored, SitesOf;
    ghost var edges := WaitEdges(all);
    var seen := new Seen();
    var path := Reach(to, from, seen, all, edges);
    if path != [] {
      var sites := Sites(path);
      CircleClosed(edges, path, from, to);
      circle := path + [to];
      return ErrCycle(sites + [to.site]), circle;
    }
    MarkedHolds(edges, seen.marked, to, from);
    EdgesListed(all, from);
    from.waits := from.waits[to := (if to in from.waits then from.waits[to] else 0) + 1];
    EdgeAdded(all, from, to, edges, old(from.waits).Keys);
    circle := [];
    r := Accepted;
  }

  /** stopWaiting takes one count away, and the edge with the last one. */
  method StopWaiting(from: Attempt, to: Attempt, ghost all: set<Attempt>)
    requires from in all && to in from.waits
    modifies from`waits
    ensures from.waits == Uncounted(old(from.waits), to)
    ensures WaitEdges(all) ==
              if old(from.waits[to]) <= 1 then old(WaitEdges(all)) - {(from, to)} else old(WaitEdges(all))
    ensures old(Acyclic(WaitEdges(all))) ==> Acyclic(WaitEdges(all))
  {
    if from.waits[to] <= 1 {
      from.waits := from.waits - {to};
    } else {
      from.waits := from.waits[to := from.waits[to] - 1];
    }
    if old(Acyclic(WaitEdges(all))) {
      AcyclicWithout(WaitEdges(all), old(WaitEdges(all)));
    }
  }

  /** The step machine counts waits with the same two functions. */
  lemma MachineCounts(s: State.State, f: nat, a: nat)
    requires f < |s.builds|
    ensures Steps.CountWait(s, State.Some(f), a)
              == Steps.SetBuild(s, f, s.builds[f].(waits := Counted(s.builds[f].waits, a)))
    ensures a in s.builds[f].waits ==>
              Steps.UncountWait(s, State.Some(f), a)
                == Steps.SetBuild(s, f, s.builds[f].(waits := Uncounted(s.builds[f].waits, a)))
  {
    assert State.WaitCount(s.builds[f], a) == if a in s.builds[f].waits then s.builds[f].waits[a] else 0;
  }
}
