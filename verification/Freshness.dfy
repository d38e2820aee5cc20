/** Staleness: while the graph is open, whatever depends on a value that is no
    longer current is about to be invalidated. */
module Freshness {
  import opened State
  import opened Steps
  import opened Invariants

  /** An invalidation under way still has n to visit. */
  ghost predicate Doomed(walks: seq<Walk>, n: NodeId)
  {
    exists i :: 0 <= i < |walks| && n in walks[i].todo
  }

  /** d is current and would take n along if it were invalidated. */
  predicate Linked(nodes: seq<Node>, builds: seq<Build>, n: NodeId, d: BuildId)
  {
    && d < |builds| && builds[d].node < |nodes|
    && nodes[builds[d].node].val == Some(d)
    && (nodes[builds[d].node].eager || n in nodes[builds[d].node].dependents)
  }

  /** A build whose value is, or may still become, its provider's current one. */
  predicate Counts(nodes: seq<Node>, b: BuildId, x: Build)
  {
    && x.node < |nodes|
    && ((x.outcome == Pending && x.epoch == nodes[x.node].epoch) || nodes[x.node].val == Some(b))
  }

  ghost predicate BuildFresh(nodes: seq<Node>, builds: seq<Build>, walks: seq<Walk>, b: BuildId, x: Build)
  {
    Counts(nodes, b, x) && !Doomed(walks, x.node) ==>
      forall j :: 0 <= j < |x.deps| ==> Linked(nodes, builds, x.node, x.deps[j])
  }

  ghost predicate CallFresh(nodes: seq<Node>, builds: seq<Build>, walks: seq<Walk>, c: Call)
  {
    c.scope.Some? && InProgress(c) && c.scope.value < |builds| && c.node < |nodes|
    && Counts(nodes, c.scope.value, builds[c.scope.value])
    && !Doomed(walks, builds[c.scope.value].node) ==>
      && (!c.pc.AddEdge? ==>
           nodes[c.node].eager || builds[c.scope.value].node in nodes[c.node].dependents)
      && (c.pc.Claim? || c.pc.Got? ==> nodes[c.node].val == Some(c.pc.g))
  }

  ghost predicate FreshOk(nodes: seq<Node>, builds: seq<Build>, calls: seq<Call>, walks: seq<Walk>)
  {
    && (forall b :: 0 <= b < |builds| ==> BuildFresh(nodes, builds, walks, b, builds[b]))
    && (forall c :: 0 <= c < |calls| ==> CallFresh(nodes, builds, walks, calls[c]))
  }

  /** The part of a build this invariant reads. */
  predicate SameSource(x: Build, y: Build)
  {
    y.node == x.node && y.epoch == x.epoch && y.outcome == x.outcome && y.deps == x.deps
  }

  lemma FreshBuild(nodes: seq<Node>, builds: seq<Build>, calls: seq<Call>, walks: seq<Walk>, b: BuildId, y: Build)
    requires FreshOk(nodes, builds, calls, walks) && b < |builds| && SameSource(builds[b], y)
    ensures FreshOk(nodes, builds[b := y], calls, walks)
  {
    hide Doomed;
    var builds' := builds[b := y];
    forall i | 0 <= i < |builds'| ensures BuildFresh(nodes, builds', walks, i, builds'[i]) {
      assert BuildFresh(nodes, builds, walks, i, builds[i]);
    }
    forall i | 0 <= i < |calls| ensures CallFresh(nodes, builds', walks, calls[i]) {
      assert CallFresh(nodes, builds, walks, calls[i]);
    }
  }

  lemma FreshCall(nodes: seq<Node>, builds: seq<Build>, calls: seq<Call>, walks: seq<Walk>, c: CallId, y: Call)
    requires FreshOk(nodes, builds, calls, walks) && c < |calls| && CallFresh(nodes, builds, walks, y)
    ensures FreshOk(nodes, builds, calls[c := y], walks)
  {
    hide CallFresh, BuildFresh;
    var calls' := calls[c := y];
    forall i | 0 <= i < |calls'| ensures CallFresh(nodes, builds, walks, calls'[i]) {
      assert CallFresh(nodes, builds, walks, calls[i]);
    }
  }

  lemma FreshOfCall(nodes: seq<Node>, builds: seq<Build>, calls: seq<Call>, walks: seq<Walk>, c: CallId)
    requires FreshOk(nodes, builds, calls, walks) && c < |calls|
    ensures CallFresh(nodes, builds, walks, calls[c])
  {
  }
}
