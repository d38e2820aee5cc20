/** Construction, builders and finish keep the invariant. */
module KeepBuilding {
  import opened Paths
  import opened State
  import opened Steps
  import opened Invariants
  import opened References
  import opened Freshness
  import opened Waiting
  import opened Cleanups
  import opened Shutdown
  import opened Keeping

  import opened KeepWaiting

  // ---- Construction ------------------------------------------------------------

  lemma KeepMakeLazy(s: State, s': State)
    requires Inv(s) && MakeLazy(s, s')
    ensures Inv(s')
  {
    MakeLazyShape(s, s');
    MakeRefs(s, s');
    MakeLazyFresh(s, s');
    assert WaitsOk(s') by { WaitsKept(s, s'); }
    MakeClose(s, s');
    hide Shape, RefsOk, FreshWhileOpen, WaitsOk, ClosersOk, AwaitsOk, CloseOk;
  }

  lemma MakeLazyShape(s: State, s': State)
    requires Shape(s) && MakeLazy(s, s')
    ensures Shape(s')
  {
  }

  lemma MakeRefs(s: State, s': State)
    requires Wf(s) && RefsOk(s) && (MakeLazy(s, s') || MakeEager(s, s'))
    ensures RefsOk(s')
  {
    hide RefsOk, Holders;
    Conserved(s, s', None, None);
  }

  lemma MakeLazyFresh(s: State, s': State)
    requires Wf(s) && FreshWhileOpen(s) && MakeLazy(s, s')
    ensures FreshWhileOpen(s')
  {
    if !s.closed {
      hide Doomed;
      forall b | 0 <= b < |s'.builds| ensures BuildFresh(s'.nodes, s'.builds, s'.walks, b, s'.builds[b]) {
        assert BuildFresh(s.nodes, s.builds, s.walks, b, s.builds[b]);
      }
      forall i | 0 <= i < |s'.calls| ensures CallFresh(s'.nodes, s'.builds, s'.walks, s'.calls[i]) {
        assert CallFresh(s.nodes, s.builds, s.walks, s.calls[i]);
      }
    }
  }

  lemma MakeClose(s: State, s': State)
    requires Wf(s) && CloseOk(s) && (MakeLazy(s, s') || MakeEager(s, s'))
    ensures CloseOk(s')
  {
  }

  lemma KeepMakeEager(s: State, s': State)
    requires Inv(s) && MakeEager(s, s')
    ensures Inv(s')
  {
    hide Shape, RefsOk, FreshWhileOpen, WaitsOk, ClosersOk, AwaitsOk, CloseOk;
    MakeEagerShape(s, s');
    MakeRefs(s, s');
    MakeEagerFresh(s, s');
    MakeEagerWaits(s, s');
    NewBuildRest(s.builds, s.forced, s.close, s.clock, s'.builds[|s.builds|]);
    MakeClose(s, s');
  }

  lemma MakeEagerShape(s: State, s': State)
    requires Shape(s) && MakeEager(s, s')
    ensures Shape(s')
  {
    MakeEagerCalls(s, s');
    MakeEagerBuilds(s, s');
    MakeEagerNodes(s, s');
    hide Wf, CallsOk, BuildsOk, ListsOk, NodesOk, WalksOk;
  }

  lemma MakeEagerCalls(s: State, s': State)
    requires Wf(s) && CallsOk(s.nodes, s.builds, s.calls) && WalksOk(s.nodes, s.walks) && MakeEager(s, s')
    ensures Wf(s') && CallsOk(s'.nodes, s'.builds, s'.calls) && WalksOk(s'.nodes, s'.walks)
  {
  }

  lemma MakeEagerBuilds(s: State, s': State)
    requires Wf(s) && BuildsOk(s.nodes, s.builds, s.calls, s.clock) && MakeEager(s, s')
    ensures BuildsOk(s'.nodes, s'.builds, s'.calls, s'.clock)
  {
    forall b | 0 <= b < |s'.builds| ensures BuildOk(s'.nodes, s'.builds, s'.calls, s'.clock, b, s'.builds[b]) {
      assert b < |s.builds| ==> BuildOk(s.nodes, s.builds, s.calls, s.clock, b, s.builds[b]);
    }
  }

  lemma MakeEagerNodes(s: State, s': State)
    requires Wf(s) && MakeEager(s, s')
    requires ListsOk(s.nodes, s.builds, s.live, s.inflight) && NodesOk(s.nodes, s.builds, s.closed)
    ensures ListsOk(s'.nodes, s'.builds, s'.live, s'.inflight) && NodesOk(s'.nodes, s'.builds, s'.closed)
  {
  }

  lemma MakeEagerWaits(s: State, s': State)
    requires Wf(s) && WaitsOk(s) && MakeEager(s, s')
    ensures WaitsOk(s')
  {
    hide WaitsOk;
    WaitsKept(s, s');
  }

  lemma MakeEagerFresh(s: State, s': State)
    requires Shape(s) && FreshWhileOpen(s) && MakeEager(s, s')
    ensures FreshWhileOpen(s')
  {
    if !s.closed {
      hide Doomed, BuildsOk, NodesOk, ListsOk, WalksOk;
      forall b | 0 <= b < |s'.builds| ensures BuildFresh(s'.nodes, s'.builds, s'.walks, b, s'.builds[b]) {
        assert b < |s.builds| ==> BuildFresh(s.nodes, s.builds, s.walks, b, s.builds[b]);
      }
      forall i | 0 <= i < |s'.calls| ensures CallFresh(s'.nodes, s'.builds, s'.walks, s'.calls[i]) {
        assert CallFresh(s.nodes, s.builds, s.walks, s.calls[i]);
        assert CallOk(s.nodes, s.builds, i, s.calls[i]);
      }
    }
  }

  // ---- One build changes, in a part only it refers to -----------------------------

  /** The build keeps its identity, its count and its dependencies. */
  predicate Local(x: Build, y: Build)
  {
    && Steady(x, y) && y.deps == x.deps && y.waits == x.waits && y.refs == x.refs
    && HeldDeps(y) == HeldDeps(x)
  }

  lemma LocalChange(s: State, b: BuildId, y: Build)
    requires Wf(s) && Shape(s) && RefsOk(s) && FreshWhileOpen(s) && WaitsOk(s)
    requires b < |s.builds| && Local(s.builds[b], y) && BuildShape(y) && BuildWf(y, s)
    ensures var t := SetBuild(s, b, y);
            Shape(t) && RefsOk(t) && FreshWhileOpen(t) && WaitsOk(t)
  {
    var t := SetBuild(s, b, y);
    LocalShape(s, b, y);
    LocalRefs(s, t, b);
    hide Shape, RefsOk, BuildWf, BuildShape;
    WaitsKept(s, t) by { hide WaitsOk, FreshWhileOpen; }
    hide WaitsOk, FreshOk;
    if !s.closed { FreshBuild(s.nodes, s.builds, s.calls, s.walks, b, y); }
  }

  lemma LocalShape(s: State, b: BuildId, y: Build)
    requires Shape(s) && b < |s.builds| && Local(s.builds[b], y) && BuildShape(y) && BuildWf(y, s)
    ensures Shape(SetBuild(s, b, y))
  {
    assert BuildOk(s.nodes, s.builds, s.calls, s.clock, b, s.builds[b]);
    hide CallsOk, BuildsOk, ListsOk, NodesOk, WalksOk, BuildShape;
    ShapeBuild(s, b, y);
  }

  lemma LocalRefs(s: State, t: State, b: BuildId)
    requires Wf(s) && RefsOk(s) && b < |s.builds| && |t.builds| == |s.builds| && Local(s.builds[b], t.builds[b])
    requires t == SetBuild(s, b, t.builds[b])
    ensures RefsOk(t)
  {
    hide RefsOk, Holders;
    Conserved(s, t, None, None);
  }

  lemma KeepRegister(s: State, s': State, b: BuildId)
    requires Inv(s) && Register(s, s', b)
    ensures Inv(s')
  {
    hide RefsOk, FreshWhileOpen, WaitsOk, CallsOk, NodesOk, ListsOk, WalksOk;
    assert BuildOk(s.nodes, s.builds, s.calls, s.clock, b, s.builds[b]);
    LocalChange(s, b, s'.builds[b]);
    RegisterRest(s, s', b);
    hide ClosersOk, AwaitsOk, Shape;
  }

  lemma RegisterRest(s: State, s': State, b: BuildId)
    requires Wf(s) && Register(s, s', b) && s.builds[b].stage == Scope && s.builds[b].outcome == Pending
    requires ClosersOk(s.builds, s.forced, s.close) && AwaitsOk(s.builds, s.clock)
    ensures ClosersOk(s'.builds, s'.forced, s'.close) && AwaitsOk(s'.builds, s'.clock)
  {
    forall i, j | 0 <= i < |s'.builds| && 0 <= j < |s'.builds[i].closers|
      ensures CloserOk(i, s'.builds[i], s'.forced, s'.close, j)
    {
      assert j < |s.builds[i].closers| ==> CloserOk(i, s.builds[i], s.forced, s.close, j);
    }
    assert AwaitOk(s.builds, s.builds[b], s.clock);
    AwaitsBuild(s.builds, s.clock, b, s'.builds[b]);
  }
}
