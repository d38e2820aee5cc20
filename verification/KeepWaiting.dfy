/** Creating attempts, waiting for them and giving up keep the invariant. */
module KeepWaiting {
  import opened Paths
  import opened State
  import opened Steps
  import opened Invariants
  import opened References
  import opened Freshness
  import opened Waiting
  import opened Cleanups
  import opened Shutdown
  import opened Keeping

  // ---- Creating an attempt -------------------------------------------------

  lemma KeepEnterCreate(s: State, s': State, c: CallId)
    requires Inv(s) && EnterCreate(s, s', c)
    ensures Inv(s')
  {
    hide Shape, RefsOk, FreshWhileOpen, WaitsOk, ClosersOk, AwaitsOk, CloseOk;
    CreateShape(s, s', c);
    CreateRefs(s, s', c);
    CreateWaits(s, s', c);
    CreateFresh(s, s', c);
    NewBuildRest(s.builds, s.forced, s.close, s.clock, s'.builds[|s.builds|]);
    CreateClose(s, s', c);
  }

  lemma CreateShape(s: State, s': State, c: CallId)
    requires Shape(s) && EnterCreate(s, s', c)
    ensures Shape(s')
  {
    hide Wf, CallsOk, BuildsOk, ListsOk, NodesOk;
    CreateCalls(s, s', c);
    CreateBuilds(s, s', c);
    CreateNodes(s, s', c);
  }

  lemma CreateCalls(s: State, s': State, c: CallId)
    requires Wf(s) && CallsOk(s.nodes, s.builds, s.calls) && EnterCreate(s, s', c)
    ensures Wf(s') && CallsOk(s'.nodes, s'.builds, s'.calls)
  {
    CreateWf(s, s', c);
    hide Wf;
    forall i | 0 <= i < |s'.calls| ensures CallOk(s'.nodes, s'.builds, i, s'.calls[i]) {
      assert CallOk(s.nodes, s.builds, i, s.calls[i]);
    }
  }

  lemma CreateWf(s: State, s': State, c: CallId)
    requires Wf(s) && EnterCreate(s, s', c)
    ensures Wf(s')
  {
  }

  lemma CreateBuilds(s: State, s': State, c: CallId)
    requires Wf(s) && EnterCreate(s, s', c)
    requires BuildsOk(s.nodes, s.builds, s.calls, s.clock)
    ensures BuildsOk(s'.nodes, s'.builds, s'.calls, s'.clock)
  {
    forall b | 0 <= b < |s'.builds| ensures BuildOk(s'.nodes, s'.builds, s'.calls, s'.clock, b, s'.builds[b]) {
      assert b < |s.builds| ==> BuildOk(s.nodes, s.builds, s.calls, s.clock, b, s.builds[b]);
    }
  }

  lemma CreateNodes(s: State, s': State, c: CallId)
    requires Wf(s) && EnterCreate(s, s', c)
    requires ListsOk(s.nodes, s.builds, s.live, s.inflight)
    requires NodesOk(s.nodes, s.builds, s.closed) && WalksOk(s.nodes, s.walks)
    ensures ListsOk(s'.nodes, s'.builds, s'.live, s'.inflight)
    ensures NodesOk(s'.nodes, s'.builds, s'.closed) && WalksOk(s'.nodes, s'.walks)
  {
  }

  lemma CreateRefs(s: State, s': State, c: CallId)
    requires Wf(s) && RefsOk(s) && EnterCreate(s, s', c)
    ensures RefsOk(s')
  {
    hide RefsOk, Holders;
    Conserved(s, s', None, None);
  }

  lemma CreateWaits(s: State, s': State, c: CallId)
    requires Wf(s) && WaitsOk(s) && EnterCreate(s, s', c)
    ensures WaitsOk(s')
  {
    hide WaitsOk;
    WaitsKept(s, s');
  }

  lemma CreateFresh(s: State, s': State, c: CallId)
    requires Shape(s) && FreshWhileOpen(s) && EnterCreate(s, s', c)
    ensures FreshWhileOpen(s')
  {
    if !s.closed {
      CreateFreshBuilds(s, s', c);
      CreateFreshCalls(s, s', c);
    }
    hide Shape, BuildFresh, CallFresh;
  }

  lemma CreateFreshBuilds(s: State, s': State, c: CallId)
    requires Wf(s) && FreshOk(s.nodes, s.builds, s.calls, s.walks) && EnterCreate(s, s', c)
    ensures forall b :: 0 <= b < |s'.builds| ==> BuildFresh(s'.nodes, s'.builds, s'.walks, b, s'.builds[b])
  {
    hide Doomed, CallFresh;
    forall b | 0 <= b < |s'.builds| ensures BuildFresh(s'.nodes, s'.builds, s'.walks, b, s'.builds[b]) {
      assert b < |s.builds| ==> BuildFresh(s.nodes, s.builds, s.walks, b, s.builds[b]);
    }
  }

  lemma CreateFreshCalls(s: State, s': State, c: CallId)
    requires Wf(s) && FreshOk(s.nodes, s.builds, s.calls, s.walks) && EnterCreate(s, s', c)
    requires CallsOk(s.nodes, s.builds, s.calls)
    ensures forall i :: 0 <= i < |s'.calls| ==> CallFresh(s'.nodes, s'.builds, s'.walks, s'.calls[i])
  {
    hide Doomed, BuildFresh;
    forall i | 0 <= i < |s'.calls| ensures CallFresh(s'.nodes, s'.builds, s'.walks, s'.calls[i]) {
      assert CallFresh(s.nodes, s.builds, s.walks, s.calls[i]);
      assert CallOk(s.nodes, s.builds, i, s.calls[i]);
    }
  }

  lemma NewBuildRest(builds: seq<Build>, forced: bool, close: Closing, clock: nat, y: Build)
    requires ClosersOk(builds, forced, close) && AwaitsOk(builds, clock)
    requires y.closers == [] && y.stage == Scope
    ensures ClosersOk(builds + [y], forced, close) && AwaitsOk(builds + [y], clock)
  {
    var t := builds + [y];
    forall b, j | 0 <= b < |t| && 0 <= j < |t[b].closers| ensures CloserOk(b, t[b], forced, close, j) {
      assert CloserOk(b, builds[b], forced, close, j);
    }
    forall b | 0 <= b < |t| ensures AwaitOk(t, t[b], clock) {
      assert b < |builds| ==> AwaitOk(builds, builds[b], clock);
    }
  }

  lemma CreateClose(s: State, s': State, c: CallId)
    requires Wf(s) && CloseOk(s) && EnterCreate(s, s', c)
    ensures CloseOk(s')
  {
  }

  // ---- Waiting for another call's attempt -----------------------------------

  lemma KeepJoinWait(s: State, s': State, c: CallId)
    requires Inv(s) && JoinWait(s, s', c)
    ensures Inv(s')
  {
    hide Shape, RefsOk, FreshWhileOpen, WaitsOk, ClosersOk, AwaitsOk, CloseOk;
    if s.calls[c].from.None? {
      JoinMoves(s, s', c);
      PcMoved(s, c, Select(s.calls[c].pc.a));
    } else {
      var f := s.calls[c].from.value;
      JoinShape(s, s', c);
      WaitsOnlyRest(s, s', c, Select(s.calls[c].pc.a), f, s'.builds[f].waits);
      JoinCounted(s, s', c);
    }
  }

  lemma JoinMoves(s: State, s': State, c: CallId)
    requires Shape(s) && FreshWhileOpen(s) && JoinWait(s, s', c) && s.calls[c].from.None?
    ensures CanMove(s, c, Select(s.calls[c].pc.a))
  {
    hide BuildsOk, ListsOk, WalksOk, NodesOk, Doomed;
    assert CallOk(s.nodes, s.builds, c, s.calls[c]);
    assert !s.closed ==> CallFresh(s.nodes, s.builds, s.walks, s.calls[c]);
  }

  lemma JoinShape(s: State, s': State, c: CallId)
    requires Shape(s) && JoinWait(s, s', c) && s.calls[c].from.Some?
    ensures Shape(s') && Shape(SetCall(s, c, Select(s.calls[c].pc.a)))
  {
    var f := s.calls[c].from.value;
    assert CallOk(s.nodes, s.builds, c, s.calls[c]);
    ShapeCall(s, c, Select(s.calls[c].pc.a));
    assert BuildOk(s.nodes, s.builds, s.calls, s.clock, f, s.builds[f]);
    hide CallsOk, BuildsOk, ListsOk, NodesOk, WalksOk;
    ShapeBuild(SetCall(s, c, Select(s.calls[c].pc.a)), f, s'.builds[f]);
  }

  lemma JoinCounted(s: State, s': State, c: CallId)
    requires Wf(s) && WaitsOk(s) && JoinWait(s, s', c) && s.calls[c].from.Some?
    ensures WaitsOk(s')
  {
    hide WaitsOk;
    WaitCounted(s, s', c, s.calls[c].from.value, s.calls[c].pc.a);
  }

  /** What a change of one read's program counter and of its attempt's waits
      leaves alone. */
  lemma WaitsOnlyRest(s: State, s': State, c: CallId, pc: Pc, f: BuildId, waits: map<BuildId, nat>)
    requires Wf(s) && RefsOk(s) && FreshWhileOpen(s) && CloseOk(s)
    requires ClosersOk(s.builds, s.forced, s.close) && AwaitsOk(s.builds, s.clock)
    requires c < |s.calls| && !s.calls[c].pc.Got? && !s.calls[c].pc.AddEdge?
    requires !s.calls[c].pc.Failed? && !s.calls[c].pc.Kept?
    requires !pc.Claim? && !pc.Got? && f < |s.builds|
    requires s' == SetBuild(SetCall(s, c, pc), f, s.builds[f].(waits := waits))
    ensures RefsOk(s') && FreshWhileOpen(s') && CloseOk(s')
    ensures ClosersOk(s'.builds, s'.forced, s'.close) && AwaitsOk(s'.builds, s'.clock)
  {
    WaitsOnlyRefs(s, s', c, pc, f, waits);
    WaitsOnlyFresh(s, s', c, pc, f, waits);
    assert AwaitOk(s.builds, s.builds[f], s.clock);
    hide Wf, RefsOk, FreshWhileOpen, ClosersOk, AwaitsOk;
    ClosersBuild(s.builds, s.forced, s.close, f, s'.builds[f]);
    AwaitsBuild(s.builds, s.clock, f, s'.builds[f]);
  }

  lemma WaitsOnlyRefs(s: State, s': State, c: CallId, pc: Pc, f: BuildId, waits: map<BuildId, nat>)
    requires Wf(s) && RefsOk(s) && c < |s.calls| && f < |s.builds|
    requires !s.calls[c].pc.Got? && !pc.Got?
    requires s' == SetBuild(SetCall(s, c, pc), f, s.builds[f].(waits := waits))
    ensures RefsOk(s')
  {
    hide RefsOk, Holders;
    Conserved(s, s', None, None);
  }

  lemma WaitsOnlyFresh(s: State, s': State, c: CallId, pc: Pc, f: BuildId, waits: map<BuildId, nat>)
    requires FreshWhileOpen(s) && c < |s.calls| && f < |s.builds|
    requires !s.calls[c].pc.AddEdge? && !s.calls[c].pc.Failed? && !s.calls[c].pc.Kept?
    requires !pc.Claim? && !pc.Got?
    requires s' == SetBuild(SetCall(s, c, pc), f, s.builds[f].(waits := waits))
    ensures FreshWhileOpen(s')
  {
    hide FreshOk, Doomed;
    if !s.closed {
      FreshOfCall(s.nodes, s.builds, s.calls, s.walks, c);
      FreshCall(s.nodes, s.builds, s.calls, s.walks, c, s'.calls[c]);
      FreshBuild(s.nodes, s.builds, s'.calls, s.walks, f, s'.builds[f]);
    }
  }

  // ---- stopWaiting ----------------------------------------------------------

  lemma KeepStopWaiting(s: State, s': State, c: CallId)
    requires Inv(s) && StopWaiting(s, s', c)
    ensures Inv(s')
  {
    hide Shape, RefsOk, FreshWhileOpen, WaitsOk, ClosersOk, AwaitsOk, CloseOk;
    if s.calls[c].from.None? {
      StopMoves(s, s', c);
      PcMoved(s, c, Resume(s, c));
    } else {
      var f := s.calls[c].from.value;
      StopShape(s, s', c);
      WaitsOnlyRest(s, s', c, Resume(s, c), f, s'.builds[f].waits);
      StopUncounted(s, s', c);
    }
  }

  lemma StopMoves(s: State, s': State, c: CallId)
    requires Shape(s) && FreshWhileOpen(s) && StopWaiting(s, s', c) && s.calls[c].from.None?
    ensures CanMove(s, c, Resume(s, c))
  {
    hide BuildsOk, ListsOk, WalksOk, NodesOk, Doomed;
    assert CallOk(s.nodes, s.builds, c, s.calls[c]);
    assert !s.closed ==> CallFresh(s.nodes, s.builds, s.walks, s.calls[c]);
  }

  lemma StopShape(s: State, s': State, c: CallId)
    requires Shape(s) && StopWaiting(s, s', c) && s.calls[c].from.Some?
    ensures Shape(s')
  {
    var f := s.calls[c].from.value;
    assert CallOk(s.nodes, s.builds, c, s.calls[c]);
    ShapeCall(s, c, Resume(s, c));
    assert BuildOk(s.nodes, s.builds, s.calls, s.clock, f, s.builds[f]);
    hide CallsOk, BuildsOk, ListsOk, NodesOk, WalksOk;
    ShapeBuild(SetCall(s, c, Resume(s, c)), f, s'.builds[f]);
  }

  lemma StopUncounted(s: State, s': State, c: CallId)
    requires Wf(s) && WaitsOk(s) && StopWaiting(s, s', c) && s.calls[c].from.Some?
    ensures WaitsOk(s')
  {
    hide WaitsOk;
    WaitUncounted(s, s', c, s.calls[c].from.value, s.calls[c].pc.a);
  }

  // ---- Starting the builder --------------------------------------------------

  /** A fresh attempt waits on nothing, so waiting for it closes no cycle: its
      creator always starts it. */
  lemma FreshAttemptClosesNoCycle(s: State, c: CallId)
    requires Shape(s) && c < |s.calls| && Starts(s.calls[c]) && s.calls[c].from.Some?
    ensures !Reaches(Edges(s), s.calls[c].pc.a, s.calls[c].from.value)
  {
    var a, f := s.calls[c].pc.a, s.calls[c].from.value;
    assert CallOk(s.nodes, s.builds, c, s.calls[c]);
    assert BuildOk(s.nodes, s.builds, s.calls, s.clock, a, s.builds[a]);
    if Reaches(Edges(s), a, f) {
      NoWaitsNoPath(s, a, f);
    }
  }

  /** The path that releases the slot of an attempt that never started is dead. */
  lemma NeverAborts(s: State, s': State, c: CallId)
    requires Wf(s) && Shape(s)
    ensures !JoinAbort(s, s', c)
  {
    if JoinAbort(s, s', c) {
      FreshAttemptClosesNoCycle(s, c);
    }
  }

  function StartPc(x: Call): Pc
    requires x.pc.Join?
  {
    if x.from.Some? || !x.bound then Inline(x.pc.a) else Select(x.pc.a)
  }

  /** Starting the builder, before the wait is counted. */
  ghost predicate Launch(s: State, t: State, c: CallId)
    requires Wf(s)
  {
    && c < |s.calls| && Starts(s.calls[c])
    && var a := s.calls[c].pc.a;
       t == SetBuild(SetCall(s, c, StartPc(s.calls[c])), a, s.builds[a].(phase := Building))
  }

  lemma KeepJoinStart(s: State, s': State, c: CallId)
    requires Inv(s) && JoinStart(s, s', c)
    ensures Inv(s')
  {
    hide Shape, RefsOk, FreshWhileOpen, WaitsOk, ClosersOk, AwaitsOk, CloseOk;
    var x := s.calls[c];
    var t := SetBuild(SetCall(s, c, StartPc(x)), x.pc.a, s.builds[x.pc.a].(phase := Building));
    LaunchKept(s, t, c);
    if x.from.None? {
      LaunchWaits(s, t, c);
    } else {
      JoinStartCounted(s, t, s', c);
    }
  }

  lemma LaunchKept(s: State, t: State, c: CallId)
    requires Inv(s) && Launch(s, t, c)
    ensures Wf(t) && Shape(t) && RefsOk(t) && FreshWhileOpen(t) && CloseOk(t)
    ensures ClosersOk(t.builds, t.forced, t.close) && AwaitsOk(t.builds, t.clock)
  {
    hide RefsOk, FreshWhileOpen, WaitsOk, ClosersOk, AwaitsOk, CloseOk, Launch;
    hide CallsOk, BuildsOk, NodesOk, ListsOk, WalksOk;
    LaunchShape(s, t, c);
    LaunchRest(s, t, c);
    LaunchFresh(s, t, c);
  }

  lemma JoinStartCounted(s: State, t: State, s': State, c: CallId)
    requires Inv(s) && JoinStart(s, s', c) && Launch(s, t, c) && s.calls[c].from.Some?
    requires Wf(t) && Shape(t) && RefsOk(t) && FreshWhileOpen(t) && CloseOk(t)
    requires ClosersOk(t.builds, t.forced, t.close) && AwaitsOk(t.builds, t.clock)
    ensures Inv(s')
  {
    hide Shape, RefsOk, FreshWhileOpen, WaitsOk, ClosersOk, AwaitsOk, CloseOk;
    var f := s.calls[c].from.value;
    JoinStartWaits(s, s', c);
    assert SetCall(t, c, t.calls[c].pc) == t;
    WaitsOnlyRest(t, s', c, t.calls[c].pc, f, s'.builds[f].waits);
    JoinStartShape(t, s', f);
  }

  lemma JoinStartShape(t: State, s': State, f: BuildId)
    requires Shape(t) && f < |t.builds| && f < |s'.builds|
    requires s' == SetBuild(t, f, t.builds[f].(waits := s'.builds[f].waits))
    requires t.builds[f].phase == Building && AllBelow(s'.builds[f].waits.Keys, |t.builds|)
    ensures Shape(s')
  {
    assert BuildOk(t.nodes, t.builds, t.calls, t.clock, f, t.builds[f]);
    hide CallsOk, BuildsOk, ListsOk, NodesOk, WalksOk;
    ShapeBuild(t, f, s'.builds[f]);
  }

  lemma JoinStartWaits(s: State, s': State, c: CallId)
    requires Shape(s) && WaitsOk(s) && JoinStart(s, s', c) && s.calls[c].from.Some?
    ensures WaitsOk(s')
    ensures s.calls[c].from.value != s.calls[c].pc.a
    ensures s.builds[s.calls[c].from.value].phase == Building
  {
    assert CallOk(s.nodes, s.builds, c, s.calls[c]);
    hide WaitsOk, Shape, Reaches, Edges;
    WaitCounted(s, s', c, s.calls[c].from.value, s.calls[c].pc.a);
  }

  lemma LaunchWaits(s: State, t: State, c: CallId)
    requires Wf(s) && WaitsOk(s) && Launch(s, t, c) && s.calls[c].from.None?
    ensures WaitsOk(t)
  {
    hide WaitsOk;
    WaitsKept(s, t);
  }

  lemma LaunchRest(s: State, t: State, c: CallId)
    requires Wf(s) && RefsOk(s) && CloseOk(s) && Launch(s, t, c)
    requires ClosersOk(s.builds, s.forced, s.close) && AwaitsOk(s.builds, s.clock)
    ensures RefsOk(t) && CloseOk(t)
    ensures ClosersOk(t.builds, t.forced, t.close) && AwaitsOk(t.builds, t.clock)
  {
    var a := s.calls[c].pc.a;
    LaunchRefs(s, t, c);
    assert AwaitOk(s.builds, s.builds[a], s.clock);
    hide RefsOk, ClosersOk, AwaitsOk;
    ClosersBuild(s.builds, s.forced, s.close, a, t.builds[a]);
    AwaitsBuild(s.builds, s.clock, a, t.builds[a]);
  }

  lemma LaunchRefs(s: State, t: State, c: CallId)
    requires Wf(s) && RefsOk(s) && Launch(s, t, c)
    ensures RefsOk(t)
  {
    hide RefsOk, Holders;
    Conserved(s, t, None, None);
  }

  lemma LaunchFresh(s: State, t: State, c: CallId)
    requires Wf(s) && FreshWhileOpen(s) && Launch(s, t, c)
    ensures FreshWhileOpen(t)
  {
    hide FreshOk, Doomed;
    if !s.closed {
      var a := s.calls[c].pc.a;
      FreshOfCall(s.nodes, s.builds, s.calls, s.walks, c);
      FreshCall(s.nodes, s.builds, s.calls, s.walks, c, t.calls[c]);
      FreshBuild(s.nodes, s.builds, t.calls, s.walks, a, t.builds[a]);
    }
  }

  lemma LaunchShape(s: State, t: State, c: CallId)
    requires Shape(s) && Launch(s, t, c)
    ensures Shape(t)
  {
    LaunchCalls(s, t, c);
    LaunchBuilds(s, t, c);
    LaunchNodes(s, t, c);
    hide Wf, CallsOk, BuildsOk, ListsOk, NodesOk;
  }

  lemma LaunchCalls(s: State, t: State, c: CallId)
    requires Wf(s) && Launch(s, t, c) && CallsOk(s.nodes, s.builds, s.calls)
    ensures Wf(t) && CallsOk(t.nodes, t.builds, t.calls)
  {
    forall i | 0 <= i < |t.calls| ensures CallOk(t.nodes, t.builds, i, t.calls[i]) {
      assert CallOk(s.nodes, s.builds, i, s.calls[i]);
      assert CallOk(s.nodes, s.builds, c, s.calls[c]);
    }
  }

  lemma LaunchBuilds(s: State, t: State, c: CallId)
    requires Wf(s) && Launch(s, t, c)
    requires CallsOk(s.nodes, s.builds, s.calls) && BuildsOk(s.nodes, s.builds, s.calls, s.clock)
    ensures BuildsOk(t.nodes, t.builds, t.calls, t.clock)
  {
    forall b | 0 <= b < |t.builds| ensures BuildOk(t.nodes, t.builds, t.calls, t.clock, b, t.builds[b]) {
      assert BuildOk(s.nodes, s.builds, s.calls, s.clock, b, s.builds[b]);
      assert CallOk(s.nodes, s.builds, c, s.calls[c]);
    }
  }

  lemma LaunchNodes(s: State, t: State, c: CallId)
    requires Wf(s) && Launch(s, t, c)
    requires CallsOk(s.nodes, s.builds, s.calls)
    requires ListsOk(s.nodes, s.builds, s.live, s.inflight) && NodesOk(s.nodes, s.builds, s.closed)
    ensures ListsOk(t.nodes, t.builds, t.live, t.inflight) && NodesOk(t.nodes, t.builds, t.closed)
  {
    assert CallOk(s.nodes, s.builds, c, s.calls[c]);
    hide CallsOk;
  }
}
