/** Which value a provider has and a read returns. */
module Consistency {
  import opened Paths
  import opened State
  import opened Steps
  import opened Invariants
  import opened References
  import opened Freshness
  import opened Keeping
  import opened Runs
  import opened History
  import opened Lifetimes

  predicate Current(s: State, d: BuildId)
  {
    d < |s.builds| && s.builds[d].node < |s.nodes| && s.nodes[s.builds[d].node].val == Some(d)
  }

  // ---- Staleness ----------------------------------------------------------

  /** While the graph is open, a current value that read something no longer
      current is about to be invalidated. */
  lemma StaleIsDoomed(s: State, v: BuildId, j: nat)
    requires Reachable(s) && !s.closed && Current(s, v) && j < |s.builds[v].deps|
    ensures Current(s, s.builds[v].deps[j]) || Doomed(s.walks, s.builds[v].node)
  {
    hide Inv, Reachable;
    InvReachable(s);
    FreshFacts(s, v);
    hide Inv, Reachable, Doomed;
  }

  lemma FreshFacts(s: State, v: BuildId)
    requires Inv(s) && !s.closed && v < |s.builds|
    ensures s.builds[v].node < |s.nodes| && BuildFresh(s.nodes, s.builds, s.walks, v, s.builds[v])
  {
  }

  lemma {:induction false} FreshDownward(s: State, v: BuildId, d: BuildId, n: nat)
    requires Inv(s) && !s.closed && Current(s, v) && ReachesIn(DepEdges(s), v, d, n)
    requires forall m :: !Doomed(s.walks, m)
    ensures Current(s, d)
    decreases n
  {
    hide Inv, Doomed;
    if n > 0 {
      var e :| e in DepEdges(s) && e.1 == d && ReachesIn(DepEdges(s), v, e.0, n - 1);
      FreshDownward(s, v, e.0, n - 1);
      var j :| 0 <= j < |s.builds[e.0].deps| && s.builds[e.0].deps[j] == d;
      FreshFacts(s, e.0);
    }
  }

  /** Staleness safety: on an open graph with no invalidation in progress, every
      current value was built, at any depth, from current values only. */
  lemma NothingStale(s: State, n: NodeId, d: BuildId)
    requires Reachable(s) && !s.closed
    requires forall i :: 0 <= i < |s.walks| ==> s.walks[i].todo == {}
    requires n < |s.nodes| && s.nodes[n].val.Some? && BuiltFrom(s, s.nodes[n].val.value, d)
    ensures Current(s, d)
  {
    hide Inv, Reachable;
    InvReachable(s);
    NodeFacts(s, n);
    var v := s.nodes[n].val.value;
    var k: nat :| ReachesIn(DepEdges(s), v, d, k);
    FreshDownward(s, v, d, k);
  }

  // ---- Single flight --------------------------------------------------------

  lemma NodeFacts(s: State, n: NodeId)
    requires Inv(s) && n < |s.nodes|
    ensures NodeOk(s.nodes, s.builds, s.closed, n, s.nodes[n])
  {
  }

  lemma PendingFacts(s: State, b: BuildId)
    requires Inv(s) && b < |s.builds| && s.builds[b].outcome == Pending
    ensures s.builds[b].node < |s.nodes| && s.nodes[s.builds[b].node].cur == Some(b)
  {
    assert BuildOk(s.nodes, s.builds, s.calls, s.clock, b, s.builds[b]);
  }

  /** Each provider has at most one attempt whose outcome is open, and none while
      it has a value. */
  lemma SingleFlight(s: State, a: BuildId, b: BuildId)
    requires Reachable(s) && a < |s.builds| && b < |s.builds|
    requires s.builds[a].outcome == Pending && s.builds[b].node == s.builds[a].node
    ensures s.builds[b].outcome == Pending ==> a == b
    ensures !Current(s, b)
  {
    hide Inv, Reachable;
    InvReachable(s);
    PendingFacts(s, a);
    NodeFacts(s, s.builds[a].node);
    if s.builds[b].outcome == Pending { PendingFacts(s, b); }
  }

  /** A current value is that of a published attempt of the provider's present
      epoch: one created after the last invalidation. */
  lemma CurrentEpoch(s: State, n: NodeId)
    requires Reachable(s) && n < |s.nodes| && s.nodes[n].val.Some?
    ensures var v := s.nodes[n].val.value;
            && v < |s.builds| && s.builds[v].node == n && s.builds[v].outcome == Published
            && s.builds[v].epoch == s.nodes[n].epoch
    ensures s.nodes[n].cur.None?
  {
    hide Inv, Reachable;
    InvReachable(s);
    NodeFacts(s, n);
  }

  /** An eager read finds a value or a closed provider: it never tries to build. */
  lemma EagerNeverBuilds(s: State, c: CallId)
    requires Reachable(s) && c < |s.calls| && s.calls[c].pc == Enter
    requires s.calls[c].node < |s.nodes| && s.nodes[s.calls[c].node].eager
    ensures s.nodes[s.calls[c].node].closed || s.nodes[s.calls[c].node].val.Some?
  {
    hide Inv, Reachable;
    InvReachable(s);
    NodeFacts(s, s.calls[c].node);
    CallFacts(s, c);
  }

  lemma CallFacts(s: State, c: CallId)
    requires Inv(s) && c < |s.calls|
    ensures CallOk(s.nodes, s.builds, c, s.calls[c])
  {
  }

  /** acquire fails only on a value that is no longer current, so get cannot spin
      on a current one. */
  lemma RetryOnlyPastValues(s: State, c: CallId)
    requires Reachable(s) && c < |s.calls| && s.calls[c].pc.Claim?
    requires s.calls[c].pc.g < |s.builds| && s.builds[s.calls[c].pc.g].refs <= 0
    ensures !Current(s, s.calls[c].pc.g)
  {
    CountsAreHolders(s, s.calls[c].pc.g);
  }
}
