/** Builders never wait for each other in a circle, so some attempt can always
    go on; and every reported cycle is real. */
module Deadlocks {
  import opened Paths
  import opened State
  import opened Steps
  import opened Invariants
  import opened References
  import opened Waiting
  import opened Keeping
  import opened KeepWaiting
  import opened Runs
  import opened Consistency
  import opened Lifetimes

  // ---- The wait-for graph ---------------------------------------------------

  lemma WaitFacts(s: State)
    requires Inv(s)
    ensures WaitsOk(s)
  {
  }

  /** The wait-for graph is acyclic under every interleaving. */
  lemma WaitForIsAcyclic(s: State)
    requires Reachable(s)
    ensures Acyclic(Edges(s))
  {
    hide Inv, Reachable;
    InvReachable(s);
    WaitFacts(s);
  }

  /** An attempt waits on another exactly as long as one of its reads does. */
  lemma EdgesAreReads(s: State, x: BuildId, y: BuildId)
    requires Reachable(s) && x < |s.builds|
    ensures WaitCount(s.builds[x], y) == |Waiters(s.calls, x, y)|
    ensures (x, y) in Edges(s) <==>
              exists c :: 0 <= c < |s.calls| && s.calls[c].from == Some(x) && WaitsOn(s.calls[c]) == Some(y)
  {
    hide Inv, Reachable;
    InvReachable(s);
    WaitFacts(s);
    if c :| 0 <= c < |s.calls| && s.calls[c].from == Some(x) && WaitsOn(s.calls[c]) == Some(y) {
      assert c in Waiters(s.calls, x, y);
    }
    if (x, y) in Edges(s) {
      assert |Waiters(s.calls, x, y)| > 0;
      var c :| c in Waiters(s.calls, x, y);
    }
  }

  /** Only an attempt whose builder is running waits on anything. */
  lemma WaitersAreBuilding(s: State, e: (BuildId, BuildId))
    requires Reachable(s) && e in Edges(s)
    ensures e.0 < |s.builds| && s.builds[e.0].phase == Building
    ensures e.0 in s.inflight
  {
    hide Inv, Reachable;
    EdgesAreReads(s, e.0, e.1);
    var c :| 0 <= c < |s.calls| && s.calls[c].from == Some(e.0) && WaitsOn(s.calls[c]) == Some(e.1);
    InvReachable(s);
    CallFacts(s, c);
    InflightFacts(s, e.0);
  }

  lemma InflightFacts(s: State, b: BuildId)
    requires Inv(s) && b < |s.builds|
    ensures b in s.inflight <==> Unfinished(s.nodes, s.builds[b])
    ensures s.builds[b].node < |s.nodes|
  {
    hide RefsOk, FreshWhileOpen, WaitsOk, AwaitsOk, CallsOk, BuildsOk, NodesOk;
  }

  /** ErrCycle is never spurious: whatever path waitFor reports from the attempt
      it was asked to wait for back to the reader's own, every attempt on it is in
      progress and waits on the next, and the reader would close the circle. */
  lemma ReportedCyclesAreReal(s: State, s': State, c: CallId, p: seq<BuildId>, i: nat)
    requires Reachable(s) && Wf(s) && JoinCycle(s, s', c)
    requires IsPath(Edges(s), p) && i < |p|
    requires p[0] == s.calls[c].pc.a && p[|p| - 1] == s.calls[c].from.value
    ensures p[i] < |s.builds| && s.builds[p[i]].phase == Building && p[i] in s.inflight
    ensures i + 1 < |p| ==> p[i + 1] in s.builds[p[i]].waits
    ensures !Acyclic(Edges(s) + {(p[|p| - 1], p[0])})
  {
    hide Inv, Reachable;
    if i + 1 < |p| {
      assert (p[i], p[i + 1]) in Edges(s);
      WaitersAreBuilding(s, (p[i], p[i + 1]));
    } else {
      InvReachable(s);
      CallFacts(s, c);
      InflightFacts(s, p[i]);
    }
    WaitForIsAcyclic(s);
    AcyclicWithEdge(Edges(s), p[|p| - 1], p[0]);
  }
}
