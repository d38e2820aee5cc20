/** Invariance: every step keeps the invariant. This file holds the moves most
    steps are made of. */
module Keeping {
  import opened Paths
  import opened State
  import opened Steps
  import opened Invariants
  import opened References
  import opened Freshness
  import opened Waiting
  import opened Cleanups
  import opened Shutdown

  ghost predicate FreshWhileOpen(s: State)
  {
    !s.closed ==> FreshOk(s.nodes, s.builds, s.calls, s.walks)
  }

  ghost predicate Inv(s: State)
  {
    && Wf(s)
    && Shape(s)
    && RefsOk(s)
    && FreshWhileOpen(s)
    && WaitsOk(s)
    && ClosersOk(s.builds, s.forced, s.close)
    && AwaitsOk(s.builds, s.clock)
    && CloseOk(s)
  }

  predicate Starts(c: Call)
  {
    c.pc.Join? && c.pc.mine
  }

  lemma ShapeCall(s: State, c: CallId, pc: Pc)
    requires Shape(s) && c < |s.calls| && PcWf(pc, |s.builds|) && !Starts(s.calls[c])
    requires CallOk(s.nodes, s.builds, c, s.calls[c].(pc := pc))
    ensures Shape(SetCall(s, c, pc))
  {
    hide CallOk, NodesOk, ListsOk, WalksOk;
    var t := SetCall(s, c, pc);
    forall b | 0 <= b < |s.builds| ensures BuildOk(t.nodes, t.builds, t.calls, t.clock, b, t.builds[b]) {
      assert BuildOk(s.nodes, s.builds, s.calls, s.clock, b, s.builds[b]);
    }
  }

  /** The parts of a build other records refer to. */
  predicate Steady(x: Build, y: Build)
  {
    && y.node == x.node && y.epoch == x.epoch && y.creator == x.creator
    && y.phase == x.phase && y.outcome == x.outcome && y.stamp == x.stamp
    && (y.stage == Over <==> x.stage == Over)
  }

  lemma ShapeBuild(s: State, b: BuildId, y: Build)
    requires Shape(s) && b < |s.builds| && Steady(s.builds[b], y)
    requires BuildShape(y) && DepsOlder(s.builds, y, s.clock) && BuildWf(y, s)
    ensures Shape(SetBuild(s, b, y))
  {
    var t := SetBuild(s, b, y);
    WfBuild(s, b, y);
    CallsSteady(s, b, y);
    BuildsSteady(s, b, y);
    assert NodesOk(t.nodes, t.builds, t.closed) by {
      hide Wf, CallsOk, BuildsOk, ListsOk, WalksOk, DepsOlder;
    }
    assert ListsOk(t.nodes, t.builds, t.live, t.inflight) by {
      hide Wf, CallsOk, BuildsOk, NodesOk, WalksOk, DepsOlder;
    }
  }

  lemma WfBuild(s: State, b: BuildId, y: Build)
    requires Wf(s) && b < |s.builds| && BuildWf(y, s)
    ensures Wf(SetBuild(s, b, y))
  {
  }

  lemma CallsSteady(s: State, b: BuildId, y: Build)
    requires CallsOk(s.nodes, s.builds, s.calls) && b < |s.builds| && Steady(s.builds[b], y)
    ensures CallsOk(s.nodes, s.builds[b := y], s.calls)
  {
    forall c | 0 <= c < |s.calls| ensures CallOk(s.nodes, s.builds[b := y], c, s.calls[c]) {
      assert CallOk(s.nodes, s.builds, c, s.calls[c]);
    }
  }

  lemma BuildsSteady(s: State, b: BuildId, y: Build)
    requires BuildsOk(s.nodes, s.builds, s.calls, s.clock) && b < |s.builds| && Steady(s.builds[b], y)
    requires BuildShape(y) && DepsOlder(s.builds, y, s.clock)
    ensures BuildsOk(s.nodes, s.builds[b := y], s.calls, s.clock)
  {
    hide BuildShape;
    var t := s.builds[b := y];
    forall i | 0 <= i < |t| ensures BuildOk(s.nodes, t, s.calls, s.clock, i, t[i]) {
      assert BuildOk(s.nodes, s.builds, s.calls, s.clock, i, s.builds[i]);
      assert BuildOk(s.nodes, s.builds, s.calls, s.clock, b, s.builds[b]);
    }
  }

  /** A read may move to pc without touching what others see of it. */
  ghost predicate CanMove(s: State, c: CallId, pc: Pc)
  {
    && c < |s.calls| && PcWf(pc, |s.builds|) && !Starts(s.calls[c])
    && var y := s.calls[c].(pc := pc);
       && CallOk(s.nodes, s.builds, c, y)
       && (!s.closed ==> CallFresh(s.nodes, s.builds, s.walks, y))
       && (y.from.Some? ==> WaitsOn(y) == WaitsOn(s.calls[c]))
       && (y.ref ==> !s.calls[c].pc.Got? && !pc.Got?)
  }

  lemma PcMoved(s: State, c: CallId, pc: Pc)
    requires Inv(s) && CanMove(s, c, pc)
    ensures Inv(SetCall(s, c, pc))
  {
    ShapeCall(s, c, pc);
    FreshWhileCall(s, c, pc);
    ConservedCall(s, c, pc);
    WaitsCall(s, c, pc);
    hide Shape, CallOk, FreshWhileOpen, RefsOk, WaitsOk, ClosersOk, AwaitsOk;
  }

  lemma FreshWhileCall(s: State, c: CallId, pc: Pc)
    requires FreshWhileOpen(s) && c < |s.calls|
    requires !s.closed ==> CallFresh(s.nodes, s.builds, s.walks, s.calls[c].(pc := pc))
    ensures FreshWhileOpen(SetCall(s, c, pc))
  {
    hide CallFresh, FreshOk;
    if !s.closed {
      FreshCall(s.nodes, s.builds, s.calls, s.walks, c, s.calls[c].(pc := pc));
    }
  }

  lemma ConservedCall(s: State, c: CallId, pc: Pc)
    requires Wf(s) && RefsOk(s) && c < |s.calls|
    requires s.calls[c].ref ==> !s.calls[c].pc.Got? && !pc.Got?
    ensures RefsOk(SetCall(s, c, pc))
  {
    Conserved(s, SetCall(s, c, pc), None, None) by { hide RefsOk, Holders; }
  }

  lemma WaitsCall(s: State, c: CallId, pc: Pc)
    requires Wf(s) && WaitsOk(s) && c < |s.calls|
    requires s.calls[c].from.Some? ==> WaitsOn(s.calls[c].(pc := pc)) == WaitsOn(s.calls[c])
    ensures WaitsOk(SetCall(s, c, pc))
  {
    WaitsKept(s, SetCall(s, c, pc));
  }

  lemma AwaitsBuild(builds: seq<Build>, clock: nat, b: BuildId, y: Build)
    requires AwaitsOk(builds, clock) && b < |builds|
    requires y.outcome == builds[b].outcome && y.stamp == builds[b].stamp
    requires y.stage == Held ==> builds[b].stage == Held
    requires AwaitOk(builds, y, clock)
    ensures AwaitsOk(builds[b := y], clock)
  {
    var t := builds[b := y];
    forall i | 0 <= i < |t| ensures AwaitOk(t, t[i], clock) {
      assert AwaitOk(builds, builds[i], clock);
    }
  }

  /** A node's value, attempt and dependents change; the rest of it does not. */
  lemma ShapeNode(s: State, n: NodeId, y: Node)
    requires Shape(s) && n < |s.nodes| && NodeWf(y, s)
    requires y.eager == s.nodes[n].eager && y.ready == s.nodes[n].ready && y.epoch == s.nodes[n].epoch
    requires y.cur == s.nodes[n].cur
    requires NodeOk(s.nodes, s.builds, s.closed, n, y)
    ensures Shape(SetNode(s, n, y))
  {
    var t := SetNode(s, n, y);
    assert Wf(t) by { hide CallsOk, BuildsOk, ListsOk, NodesOk, WalksOk; }
    assert CallsOk(t.nodes, t.builds, t.calls) by { hide Wf, BuildsOk, ListsOk, NodesOk, WalksOk, NodeOk; }
    assert BuildsOk(t.nodes, t.builds, t.calls, t.clock) by {
      hide Wf, CallsOk, ListsOk, NodesOk, WalksOk, NodeOk, BuildShape;
    }
    assert NodesOk(t.nodes, t.builds, t.closed) by { hide Wf, CallsOk, BuildsOk, ListsOk, WalksOk; }
    assert ListsOk(t.nodes, t.builds, t.live, t.inflight) by { hide Wf, CallsOk, BuildsOk, NodesOk, WalksOk, NodeOk; }
    assert WalksOk(t.nodes, t.walks) by { hide Wf, CallsOk, BuildsOk, NodesOk, ListsOk, NodeOk; }
  }
}
