/** The steps of a read keep the invariant. */
module KeepReading {
  import opened Paths
  import opened State
  import opened Steps
  import opened Invariants
  import opened References
  import opened Freshness
  import opened Waiting
  import opened Cleanups
  import opened Shutdown
  import opened Keeping

  lemma KeepStartRead(s: State, s': State, n: NodeId, ref: bool, bound: bool)
    requires Inv(s) && StartRead(s, s', n, ref, bound)
    ensures Inv(s')
  {
    hide RefsOk, FreshWhileOpen, WaitsOk, ClosersOk, AwaitsOk, CloseOk;
    NewCall(s, s', s'.calls[|s.calls|]);
  }

  lemma KeepStartFrom(s: State, s': State, b: BuildId, n: NodeId)
    requires Inv(s) && StartFrom(s, s', b, n)
    ensures Inv(s')
  {
    hide RefsOk, FreshWhileOpen, WaitsOk, ClosersOk, AwaitsOk, CloseOk, BuildsOk, NodesOk, ListsOk, CallsOk;
    NewCall(s, s', s'.calls[|s.calls|]);
  }

  lemma NewCall(s: State, s': State, y: Call)
    requires Inv(s) && s' == s.(calls := s.calls + [y])
    requires CallWf(y, s) && CallOk(s.nodes, s.builds, |s.calls|, y)
    requires y.pc.Load? || y.pc.AddEdge?
    requires CallFresh(s.nodes, s.builds, s.walks, y)
    ensures Inv(s')
  {
    NewCallShape(s, s', y);
    NewCallRefs(s, s', y);
    NewCallWaits(s, s', y);
    NewCallFresh(s, s', y);
    hide Shape, RefsOk, WaitsOk, FreshWhileOpen, ClosersOk, AwaitsOk, CallWf, CallOk, CallFresh;
  }

  lemma NewCallShape(s: State, s': State, y: Call)
    requires Shape(s) && s' == s.(calls := s.calls + [y])
    requires CallWf(y, s) && CallOk(s.nodes, s.builds, |s.calls|, y)
    ensures Shape(s')
  {
    hide CallOk, NodesOk, ListsOk, WalksOk;
    forall b | 0 <= b < |s.builds| ensures BuildOk(s'.nodes, s'.builds, s'.calls, s'.clock, b, s'.builds[b]) {
      assert BuildOk(s.nodes, s.builds, s.calls, s.clock, b, s.builds[b]);
    }
  }

  lemma NewCallRefs(s: State, s': State, y: Call)
    requires Wf(s) && RefsOk(s) && s' == s.(calls := s.calls + [y]) && !y.pc.Got?
    ensures RefsOk(s')
  {
    hide RefsOk, Holders;
    Conserved(s, s', None, None);
  }

  lemma NewCallWaits(s: State, s': State, y: Call)
    requires Wf(s) && WaitsOk(s) && s' == s.(calls := s.calls + [y]) && WaitsOn(y).None?
    ensures WaitsOk(s')
  {
    hide WaitsOk;
    WaitsKept(s, s');
  }

  lemma NewCallFresh(s: State, s': State, y: Call)
    requires FreshWhileOpen(s) && s' == s.(calls := s.calls + [y])
    requires CallFresh(s.nodes, s.builds, s.walks, y)
    ensures FreshWhileOpen(s')
  {
    hide CallFresh, BuildFresh;
  }

  // ---- Steps that move only the read's own program counter ---------------

  lemma KeepLook(s: State, s': State, c: CallId)
    requires Inv(s)
    requires LoadValue(s, s', c) || Peek(s, s', c) || AcquireFails(s, s', c)
    ensures Inv(s')
  {
    hide Shape, RefsOk, FreshWhileOpen, WaitsOk, ClosersOk, AwaitsOk, CloseOk, Wf;
    LookMoves(s, s', c);
    PcMoved(s, c, s'.calls[c].pc);
  }

  lemma LookMoves(s: State, s': State, c: CallId)
    requires Shape(s) && FreshWhileOpen(s)
    requires LoadValue(s, s', c) || Peek(s, s', c) || AcquireFails(s, s', c)
    ensures CanMove(s, c, s'.calls[c].pc) && s' == SetCall(s, c, s'.calls[c].pc)
  {
    hide FreshWhileOpen, CanMove, Peek, AcquireFails, CallsOk, BuildsOk, ListsOk, NodesOk, WalksOk;
    if LoadValue(s, s', c) {
      LoadMoves(s, s', c);
    } else {
      ClaimMoves(s, s', c);
    }
  }

  lemma ClaimMoves(s: State, s': State, c: CallId)
    requires Shape(s) && FreshWhileOpen(s) && (Peek(s, s', c) || AcquireFails(s, s', c))
    ensures CanMove(s, c, s'.calls[c].pc) && s' == SetCall(s, c, s'.calls[c].pc)
  {
    assert CallOk(s.nodes, s.builds, c, s.calls[c]);
    assert !s.closed ==> CallFresh(s.nodes, s.builds, s.walks, s.calls[c]);
    hide BuildsOk, ListsOk, WalksOk, NodesOk, CallsOk, FreshOk, Doomed;
  }

  lemma LoadMoves(s: State, s': State, c: CallId)
    requires Shape(s) && FreshWhileOpen(s) && LoadValue(s, s', c)
    ensures CanMove(s, c, s'.calls[c].pc) && s' == SetCall(s, c, s'.calls[c].pc)
  {
    hide BuildsOk, ListsOk, WalksOk, Doomed;
    assert CallOk(s.nodes, s.builds, c, s.calls[c]);
    assert NodeOk(s.nodes, s.builds, s.closed, s.calls[c].node, s.nodes[s.calls[c].node]);
    assert !s.closed ==> CallFresh(s.nodes, s.builds, s.walks, s.calls[c]);
  }

  lemma KeepEnter(s: State, s': State, c: CallId)
    requires Inv(s)
    requires EnterClosed(s, s', c) || EnterRetry(s, s', c) || EnterJoin(s, s', c) || JoinCycle(s, s', c)
    ensures Inv(s')
  {
    hide Shape, RefsOk, FreshWhileOpen, WaitsOk, ClosersOk, AwaitsOk, CloseOk, Wf;
    if EnterJoin(s, s', c) {
      EnterJoinMoves(s, s', c);
    } else if JoinCycle(s, s', c) {
      JoinCycleMoves(s, s', c);
    } else {
      EnterMoves(s, s', c);
    }
    PcMoved(s, c, s'.calls[c].pc);
  }

  lemma EnterMoves(s: State, s': State, c: CallId)
    requires Shape(s) && FreshWhileOpen(s)
    requires EnterClosed(s, s', c) || EnterRetry(s, s', c)
    ensures CanMove(s, c, s'.calls[c].pc) && s' == SetCall(s, c, s'.calls[c].pc)
  {
    hide BuildsOk, ListsOk, WalksOk, NodesOk, Doomed;
    assert CallOk(s.nodes, s.builds, c, s.calls[c]);
    assert !s.closed ==> CallFresh(s.nodes, s.builds, s.walks, s.calls[c]);
  }

  lemma JoinCycleMoves(s: State, s': State, c: CallId)
    requires Shape(s) && FreshWhileOpen(s) && JoinCycle(s, s', c)
    ensures CanMove(s, c, s'.calls[c].pc) && s' == SetCall(s, c, s'.calls[c].pc)
  {
    hide BuildsOk, ListsOk, WalksOk, NodesOk, Doomed, Reaches;
    assert CallOk(s.nodes, s.builds, c, s.calls[c]);
    assert !s.closed ==> CallFresh(s.nodes, s.builds, s.walks, s.calls[c]);
  }

  lemma EnterJoinMoves(s: State, s': State, c: CallId)
    requires Shape(s) && FreshWhileOpen(s) && EnterJoin(s, s', c)
    ensures CanMove(s, c, s'.calls[c].pc) && s' == SetCall(s, c, s'.calls[c].pc)
  {
    hide BuildsOk, ListsOk, WalksOk, Doomed;
    assert CallOk(s.nodes, s.builds, c, s.calls[c]);
    assert NodeOk(s.nodes, s.builds, s.closed, s.calls[c].node, s.nodes[s.calls[c].node]);
    assert !s.closed ==> CallFresh(s.nodes, s.builds, s.walks, s.calls[c]);
  }

  lemma KeepWake(s: State, s': State, c: CallId, why: Failure)
    requires Inv(s)
    requires Wake(s, s', c) || Abandon(s, s', c, why) || AbortReturn(s, s', c)
    ensures Inv(s')
  {
    hide Shape, RefsOk, FreshWhileOpen, WaitsOk, ClosersOk, AwaitsOk, CloseOk, Wf;
    WakeMoves(s, s', c, why);
    PcMoved(s, c, s'.calls[c].pc);
  }

  lemma WakeMoves(s: State, s': State, c: CallId, why: Failure)
    requires Shape(s) && FreshWhileOpen(s)
    requires Wake(s, s', c) || Abandon(s, s', c, why) || AbortReturn(s, s', c)
    ensures CanMove(s, c, s'.calls[c].pc) && s' == SetCall(s, c, s'.calls[c].pc)
  {
    hide BuildsOk, ListsOk, WalksOk, NodesOk, Doomed;
    assert CallOk(s.nodes, s.builds, c, s.calls[c]);
    assert !s.closed ==> CallFresh(s.nodes, s.builds, s.walks, s.calls[c]);
  }

  // ---- addDependent ------------------------------------------------------

  lemma KeepAddDependent(s: State, s': State, c: CallId)
    requires Inv(s) && AddDependent(s, s', c)
    ensures Inv(s')
  {
    AddDependentShape(s, s', c);
    AddDependentFresh(s, s', c);
    AddDependentRest(s, s', c);
    AddDependentClose(s, s', c);
    hide Shape, RefsOk, WaitsOk, FreshWhileOpen, ClosersOk, AwaitsOk, CloseOk;
  }

  lemma AddDependentRest(s: State, s': State, c: CallId)
    requires Wf(s) && RefsOk(s) && WaitsOk(s) && AddDependent(s, s', c)
    ensures RefsOk(s') && WaitsOk(s')
  {
    hide RefsOk, Holders, WaitsOk;
    Conserved(s, s', None, None);
    WaitsKept(s, s');
  }

  lemma AddDependentClose(s: State, s': State, c: CallId)
    requires Wf(s) && CloseOk(s) && AddDependent(s, s', c)
    ensures CloseOk(s')
  {
  }

  lemma AddDependentShape(s: State, s': State, c: CallId)
    requires Shape(s) && AddDependent(s, s', c)
    ensures Shape(s')
  {
    var n := s.calls[c].node;
    assert CallOk(s.nodes, s.builds, c, s.calls[c]);
    ShapeCall(s, c, Load);
    ShapeNode(SetCall(s, c, Load), n, s'.nodes[n]) by { hide CallsOk, BuildsOk, ListsOk; }
  }

  lemma AddDependentFresh(s: State, s': State, c: CallId)
    requires Shape(s) && FreshWhileOpen(s) && AddDependent(s, s', c)
    ensures FreshWhileOpen(s')
  {
    if !s.closed {
      AddDependentFreshBuilds(s, s', c);
      AddDependentFreshCalls(s, s', c);
      hide CallFresh, BuildFresh, Shape;
    }
  }

  lemma AddDependentFreshBuilds(s: State, s': State, c: CallId)
    requires Wf(s) && FreshOk(s.nodes, s.builds, s.calls, s.walks) && AddDependent(s, s', c)
    ensures forall b :: 0 <= b < |s'.builds| ==> BuildFresh(s'.nodes, s'.builds, s'.walks, b, s'.builds[b])
  {
    hide Doomed, CallFresh;
    forall b | 0 <= b < |s'.builds| ensures BuildFresh(s'.nodes, s'.builds, s'.walks, b, s'.builds[b]) {
      assert BuildFresh(s.nodes, s.builds, s.walks, b, s.builds[b]);
    }
  }

  lemma AddDependentFreshCalls(s: State, s': State, c: CallId)
    requires Wf(s) && FreshOk(s.nodes, s.builds, s.calls, s.walks) && AddDependent(s, s', c)
    ensures forall i :: 0 <= i < |s'.calls| ==> CallFresh(s'.nodes, s'.builds, s'.walks, s'.calls[i])
  {
    hide Doomed, BuildFresh;
    forall i | 0 <= i < |s'.calls| ensures CallFresh(s'.nodes, s'.builds, s'.walks, s'.calls[i]) {
      assert CallFresh(s.nodes, s.builds, s.walks, s.calls[i]);
    }
  }

  // ---- acquire, and keeping the value ------------------------------------

  lemma KeepAcquire(s: State, s': State, c: CallId)
    requires Inv(s) && Acquire(s, s', c)
    ensures Inv(s')
  {
    AcquireShape(s, s', c);
    AcquireFresh(s, s', c);
    AcquireRefs(s, s', c);
    AcquireWaits(s, s', c);
    AcquireRest(s, s', c);
    hide Shape, RefsOk, WaitsOk, FreshWhileOpen, ClosersOk, AwaitsOk, CloseOk;
  }

  lemma AcquireShape(s: State, s': State, c: CallId)
    requires Shape(s) && Acquire(s, s', c)
    ensures Shape(s')
  {
    var g := s.calls[c].pc.g;
    assert CallOk(s.nodes, s.builds, c, s.calls[c]);
    assert BuildOk(s.nodes, s.builds, s.calls, s.clock, g, s.builds[g]);
    ShapeCall(s, c, Got(g));
    hide CallsOk, BuildsOk, ListsOk, NodesOk, WalksOk;
    ShapeBuild(SetCall(s, c, Got(g)), g, s'.builds[g]);
  }

  lemma AcquireFresh(s: State, s': State, c: CallId)
    requires Wf(s) && FreshWhileOpen(s) && Acquire(s, s', c)
    ensures FreshWhileOpen(s')
  {
    hide FreshOk, Doomed;
    if !s.closed {
      var g := s.calls[c].pc.g;
      FreshOfCall(s.nodes, s.builds, s.calls, s.walks, c);
      FreshCall(s.nodes, s.builds, s.calls, s.walks, c, s'.calls[c]);
      FreshBuild(s.nodes, s.builds, s'.calls, s.walks, g, s'.builds[g]);
    }
  }

  lemma AcquireRefs(s: State, s': State, c: CallId)
    requires Wf(s) && RefsOk(s) && Acquire(s, s', c)
    ensures RefsOk(s')
  {
    hide RefsOk, Holders;
    Conserved(s, s', None, Some(InCall(c)));
  }

  lemma AcquireWaits(s: State, s': State, c: CallId)
    requires Wf(s) && WaitsOk(s) && Acquire(s, s', c)
    ensures WaitsOk(s')
  {
    hide WaitsOk;
    WaitsKept(s, s');
  }

  lemma AcquireRest(s: State, s': State, c: CallId)
    requires Wf(s) && Acquire(s, s', c)
    requires ClosersOk(s.builds, s.forced, s.close) && AwaitsOk(s.builds, s.clock)
    ensures ClosersOk(s'.builds, s'.forced, s'.close) && AwaitsOk(s'.builds, s'.clock)
  {
    var g := s.calls[c].pc.g;
    assert AwaitOk(s.builds, s.builds[g], s.clock);
    hide ClosersOk, AwaitsOk;
    ClosersBuild(s.builds, s.forced, s.close, g, s'.builds[g]);
    AwaitsBuild(s.builds, s.clock, g, s'.builds[g]);
  }

  lemma KeepKeepDep(s: State, s': State, c: CallId)
    requires Inv(s) && KeepDep(s, s', c)
    ensures Inv(s')
  {
    KeepDepShape(s, s', c);
    KeepDepFresh(s, s', c);
    KeepDepRefs(s, s', c);
    KeepDepWaits(s, s', c);
    KeepDepRest(s, s', c);
    hide Shape, RefsOk, WaitsOk, FreshWhileOpen, ClosersOk, AwaitsOk, CloseOk;
  }

  lemma KeepDepShape(s: State, s': State, c: CallId)
    requires Shape(s) && KeepDep(s, s', c)
    ensures Shape(s')
  {
    var b, g := s.calls[c].scope.value, s.calls[c].pc.g;
    assert CallOk(s.nodes, s.builds, c, s.calls[c]);
    assert BuildOk(s.nodes, s.builds, s.calls, s.clock, b, s.builds[b]);
    assert BuildOk(s.nodes, s.builds, s.calls, s.clock, g, s.builds[g]);
    ShapeCall(s, c, Kept);
    hide CallsOk, BuildsOk, ListsOk, NodesOk, WalksOk;
    ShapeBuild(SetCall(s, c, Kept), b, s'.builds[b]);
  }

  lemma KeepDepRefs(s: State, s': State, c: CallId)
    requires Shape(s) && RefsOk(s) && KeepDep(s, s', c)
    ensures RefsOk(s')
  {
    var b := s.calls[c].scope.value;
    assert CallOk(s.nodes, s.builds, c, s.calls[c]);
    assert BuildOk(s.nodes, s.builds, s.calls, s.clock, b, s.builds[b]);
    KeepDepMoves(s, s', c);
  }

  lemma KeepDepMoves(s: State, s': State, c: CallId)
    requires Wf(s) && RefsOk(s) && KeepDep(s, s', c)
    requires s.calls[c].ref && s.builds[s.calls[c].scope.value].stage == Scope
    ensures RefsOk(s')
  {
    hide RefsOk, Holders;
    var b := s.calls[c].scope.value;
    Conserved(s, s', Some(InCall(c)), Some(InDeps(b, |s.builds[b].deps|)));
  }

  lemma KeepDepWaits(s: State, s': State, c: CallId)
    requires Wf(s) && WaitsOk(s) && KeepDep(s, s', c)
    ensures WaitsOk(s')
  {
    hide WaitsOk;
    WaitsKept(s, s');
  }

  lemma KeepDepRest(s: State, s': State, c: CallId)
    requires Wf(s) && KeepDep(s, s', c)
    requires ClosersOk(s.builds, s.forced, s.close) && AwaitsOk(s.builds, s.clock)
    ensures ClosersOk(s'.builds, s'.forced, s'.close) && AwaitsOk(s'.builds, s'.clock)
  {
    var b := s.calls[c].scope.value;
    assert AwaitOk(s.builds, s.builds[b], s.clock);
    hide ClosersOk, AwaitsOk;
    ClosersBuild(s.builds, s.forced, s.close, b, s'.builds[b]);
    AwaitsBuild(s.builds, s.clock, b, s'.builds[b]);
  }

  lemma KeepDepFresh(s: State, s': State, c: CallId)
    requires Shape(s) && FreshWhileOpen(s) && KeepDep(s, s', c)
    ensures FreshWhileOpen(s')
  {
    if !s.closed {
      hide Doomed, Wf, BuildsOk, NodesOk, ListsOk, WalksOk;
      assert CallOk(s.nodes, s.builds, c, s.calls[c]);
      assert CallFresh(s.nodes, s.builds, s.walks, s.calls[c]);
      forall b | 0 <= b < |s'.builds| ensures BuildFresh(s'.nodes, s'.builds, s'.walks, b, s'.builds[b]) {
        assert BuildFresh(s.nodes, s.builds, s.walks, b, s.builds[b]);
      }
      forall i | 0 <= i < |s'.calls| ensures CallFresh(s'.nodes, s'.builds, s'.walks, s'.calls[i]) {
        assert CallFresh(s.nodes, s.builds, s.walks, s.calls[i]);
      }
    }
  }

  lemma KeepTakeLease(s: State, s': State, c: CallId)
    requires Inv(s) && TakeLease(s, s', c)
    ensures Inv(s')
  {
    TakeLeaseShape(s, s', c);
    FreshWhileCall(s, c, Kept);
    TakeLeaseRefs(s, s', c);
    TakeLeaseWaits(s, s', c);
    hide Shape, RefsOk, WaitsOk, FreshOk, ClosersOk, AwaitsOk, CloseOk;
  }

  lemma TakeLeaseShape(s: State, s': State, c: CallId)
    requires Shape(s) && TakeLease(s, s', c)
    ensures Shape(s')
  {
    assert CallOk(s.nodes, s.builds, c, s.calls[c]);
    ShapeCall(s, c, Kept);
    hide CallsOk, BuildsOk, ListsOk, NodesOk, WalksOk;
  }

  lemma TakeLeaseWaits(s: State, s': State, c: CallId)
    requires Wf(s) && WaitsOk(s) && TakeLease(s, s', c)
    ensures WaitsOk(s')
  {
    hide WaitsOk;
    WaitsKept(s, s');
  }

  lemma TakeLeaseRefs(s: State, s': State, c: CallId)
    requires Wf(s) && RefsOk(s) && TakeLease(s, s', c)
    ensures RefsOk(s')
  {
    hide RefsOk, Holders;
    Conserved(s, s', Some(InCall(c)), Some(InLease(|s.leases|)));
  }
}
