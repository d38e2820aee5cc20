/** CloseContext keeps the invariant, its deadline branch included. */
module KeepShutting {
  import opened Paths
  import opened State
  import opened Steps
  import opened Invariants
  import opened References
  import opened Freshness
  import opened Waiting
  import opened Cleanups
  import opened Shutdown
  import opened Keeping

  import opened KeepBuilding
  import opened KeepReleasing
  import opened KeepInvalidating

  // ---- Steps that move only Close's program counter and the graph's flags ----------

  /** Only the graph's own flags and Close's program counter change. */
  ghost predicate FlagsOnly(s: State, t: State)
  {
    && t == s.(closed := t.closed, cancelled := t.cancelled, drained := t.drained,
               forced := t.forced, close := t.close)
    && (s.closed ==> t.closed)
    && CloseWf(t.close, s)
  }

  lemma FlagsMoved(s: State, t: State)
    requires Wf(s) && Shape(s) && FreshWhileOpen(s) && WaitsOk(s) && FlagsOnly(s, t)
    ensures Wf(t) && Shape(t) && FreshWhileOpen(t) && WaitsOk(t)
  {
    FlagsShape(s, t);
    hide Shape, FreshOk, WaitsOk;
    WaitsKept(s, t);
  }

  lemma FlagsShape(s: State, t: State)
    requires Shape(s) && FlagsOnly(s, t)
    ensures Shape(t)
  {
    hide CallsOk, BuildsOk, ListsOk, WalksOk;
    forall n | 0 <= n < |t.nodes| ensures NodeOk(t.nodes, t.builds, t.closed, n, t.nodes[n]) {
      assert NodeOk(s.nodes, s.builds, s.closed, n, s.nodes[n]);
    }
  }

  /** Neither state holds a value for Close. */
  lemma FlagsRefs(s: State, t: State)
    requires Wf(s) && RefsOk(s) && FlagsOnly(s, t)
    requires s.close.Shutting? ==> s.close.held.None?
    requires t.close.Shutting? ==> t.close.held.None?
    ensures RefsOk(t)
  {
    hide RefsOk, Holders;
    Conserved(s, t, None, None);
  }

  /** Outside the deadline branch, Close runs no cleanup. */
  lemma FlagsClosers(s: State, t: State)
    requires ClosersOk(s.builds, s.forced, s.close) && t.builds == s.builds
    requires !s.close.Forcing? && !t.close.Forcing? && t.forced == s.forced
    ensures ClosersOk(t.builds, t.forced, t.close)
  {
    forall b, j | 0 <= b < |t.builds| && 0 <= j < |t.builds[b].closers|
      ensures CloserOk(b, t.builds[b], t.forced, t.close, j)
    {
      assert CloserOk(b, s.builds[b], s.forced, s.close, j);
    }
  }

  lemma KeepBeginClose(s: State, s': State)
    requires Inv(s) && BeginClose(s, s')
    ensures Inv(s')
  {
    hide Shape, RefsOk, FreshWhileOpen, WaitsOk, ClosersOk, AwaitsOk, CloseOk;
    BeginCloseOk(s, s');
    FlagsMoved(s, s');
    FlagsRefs(s, s');
    FlagsClosers(s, s');
  }

  lemma BeginCloseOk(s: State, s': State)
    requires Wf(s) && CloseOk(s) && BeginClose(s, s')
    ensures CloseOk(s') && s.close.Open?
  {
  }

  lemma KeepCancel(s: State, s': State)
    requires Inv(s) && Cancel(s, s')
    ensures Inv(s')
  {
    hide Shape, RefsOk, FreshWhileOpen, WaitsOk, ClosersOk, AwaitsOk, CloseOk;
    CancelOk(s, s');
    FlagsMoved(s, s');
    FlagsRefs(s, s');
    FlagsClosers(s, s');
  }

  lemma CancelOk(s: State, s': State)
    requires Wf(s) && CloseOk(s) && Cancel(s, s')
    ensures CloseOk(s')
  {
  }

  lemma KeepEndShutting(s: State, s': State)
    requires Inv(s) && (EndShutting(s, s') || CloseOnTime(s, s'))
    ensures Inv(s')
  {
    hide Shape, RefsOk, FreshWhileOpen, WaitsOk, ClosersOk, AwaitsOk, CloseOk;
    EndShuttingOk(s, s');
    FlagsMoved(s, s');
    FlagsRefs(s, s');
    FlagsClosers(s, s');
  }

  lemma EndShuttingOk(s: State, s': State)
    requires Wf(s) && CloseOk(s) && (EndShutting(s, s') || CloseOnTime(s, s'))
    ensures CloseOk(s')
  {
  }

  // ---- shut ----------------------------------------------------------------------------

  lemma KeepShut(s: State, s': State)
    requires Inv(s) && Shut(s, s')
    ensures Inv(s')
  {
    hide Shape, RefsOk, FreshWhileOpen, WaitsOk, ClosersOk, AwaitsOk, CloseOk;
    ShutOk(s, s');
    ShutShape(s, s');
    ShutRefs(s, s');
    SectionWaits(s, s');
    FlagsClosers(s, s');
  }

  lemma ShutOk(s: State, s': State)
    requires Wf(s) && CloseOk(s) && Shut(s, s')
    ensures CloseOk(s') && FreshWhileOpen(s')
  {
    hide FreshOk;
    var k := |s.close.members| - 1;
    forall n | 0 <= n < |s'.nodes| && s'.nodes[n].ready
      ensures s'.nodes[n].closed || n in s'.close.members
    {
      if n in s.close.members && n != s.close.members[k] {
        var i :| 0 <= i < |s.close.members| && s.close.members[i] == n;
        assert s'.close.members[i] == n;
      }
    }
  }

  lemma ShutShape(s: State, s': State)
    requires Shape(s) && CloseOk(s) && Shut(s, s')
    ensures Shape(s')
  {
    var n := s.close.members[|s.close.members| - 1];
    assert NodeOk(s.nodes, s.builds, s.closed, n, s.nodes[n]);
    ShutWf(s, s');
    assert s.closed;
    hide Wf, CallsOk, BuildsOk, ListsOk, WalksOk, NodesOk, CloseOk;
    ShapeNode(s, n, s'.nodes[n]);
    ShutClose(SetNode(s, n, s'.nodes[n]), s');
  }

  lemma ShutWf(s: State, s': State)
    requires Wf(s) && Shut(s, s')
    ensures Wf(s')
  {
  }

  lemma ShutClose(t: State, s': State)
    requires Shape(t) && s' == t.(close := s'.close) && Wf(s')
    ensures Shape(s')
  {
    hide Wf, CallsOk, BuildsOk, ListsOk, WalksOk, NodesOk;
  }

  lemma ShutRefs(s: State, s': State)
    requires Wf(s) && RefsOk(s) && Shut(s, s')
    ensures RefsOk(s')
  {
    hide RefsOk, Holders;
    Conserved(s, s', Some(InSlot(s.close.members[|s.close.members| - 1])), Some(InShut));
  }

  lemma KeepShutRelease(s: State, s': State)
    requires Inv(s) && ShutRelease(s, s')
    ensures Inv(s')
  {
    hide Shape, RefsOk, FreshWhileOpen, WaitsOk, ClosersOk, AwaitsOk, CloseOk;
    var g := s.close.held.value;
    var t := s.(close := Shutting(s.close.members, None, Started(s, g)));
    HeldIsLive(s, InShut);
    FlagsMoved(s, t);
    FlagsClosers(s, t);
    DecrementKept(t, g);
    ShutReleaseCounts(s, s');
    ShutReleaseOk(s, s');
  }

  lemma ShutReleaseCounts(s: State, s': State)
    requires Wf(s) && RefsOk(s) && WaitsOk(s) && ShutRelease(s, s')
    requires s.builds[s.close.held.value].stage == Held
    ensures RefsOk(s') && WaitsOk(s')
  {
    hide RefsOk, Holders, WaitsOk;
    Conserved(s, s', Some(InShut), None);
    WaitsKept(s, s');
  }

  lemma ShutReleaseOk(s: State, s': State)
    requires Wf(s) && CloseOk(s) && ShutRelease(s, s')
    ensures CloseOk(s')
  {
  }

  // ---- The deadline branch --------------------------------------------------------------

  lemma KeepDeadline(s: State, s': State)
    requires Inv(s) && Deadline(s, s')
    ensures Inv(s')
  {
    hide Shape, RefsOk, FreshWhileOpen, WaitsOk, ClosersOk, AwaitsOk, CloseOk;
    DeadlineOk(s, s');
    DeadlineClosers(s, s');
    FlagsMoved(s, s');
    FlagsRefs(s, s');
  }

  lemma DeadlineOk(s: State, s': State)
    requires Wf(s) && CloseOk(s) && Deadline(s, s')
    ensures CloseOk(s') && !s.forced
  {
  }

  lemma DeadlineClosers(s: State, s': State)
    requires Shape(s) && ClosersOk(s.builds, s.forced, s.close) && Deadline(s, s')
    ensures ClosersOk(s'.builds, s'.forced, s'.close)
  {
    hide CallsOk, BuildsOk, NodesOk, WalksOk;
    forall b, j | 0 <= b < |s'.builds| && 0 <= j < |s'.builds[b].closers|
      ensures CloserOk(b, s'.builds[b], s'.forced, s'.close, j)
    {
      assert CloserOk(b, s.builds[b], s.forced, s.close, j);
    }
  }

  /** Moves of the forced close between cleanups. */
  lemma KeepForceMove(s: State, s': State, v: BuildId)
    requires Inv(s)
    requires ForceNext(s, s', v) || ForceSkip(s, s') || ForceDone(s, s') || CloseLate(s, s')
    ensures Inv(s')
  {
    hide Shape, RefsOk, FreshWhileOpen, WaitsOk, ClosersOk, AwaitsOk, CloseOk;
    ForceMoveOk(s, s', v);
    ForceMoveClosers(s, s', v);
    FlagsMoved(s, s');
    FlagsRefs(s, s');
  }

  lemma ForceMoveOk(s: State, s': State, v: BuildId)
    requires Wf(s) && CloseOk(s)
    requires ForceNext(s, s', v) || ForceSkip(s, s') || ForceDone(s, s') || CloseLate(s, s')
    ensures CloseOk(s') && FlagsOnly(s, s') && s.close.Forcing? && !s'.close.Shutting?
  {
  }

  lemma ForceMoveClosers(s: State, s': State, v: BuildId)
    requires Wf(s) && ClosersOk(s.builds, s.forced, s.close)
    requires ForceNext(s, s', v) || ForceSkip(s, s') || ForceDone(s, s') || CloseLate(s, s')
    ensures ClosersOk(s'.builds, s'.forced, s'.close)
  {
    hide Wf;
    forall b, j | 0 <= b < |s'.builds| && 0 <= j < |s'.builds[b].closers|
      ensures CloserOk(b, s'.builds[b], s'.forced, s'.close, j)
    {
      assert CloserOk(b, s.builds[b], s.forced, s.close, j);
    }
  }

  /** The forced close enters or leaves a cleanup. */
  lemma KeepForceCall(s: State, s': State)
    requires Inv(s) && (ForceBegin(s, s') || ForceEnd(s, s'))
    ensures Inv(s')
  {
    hide Shape, RefsOk, FreshWhileOpen, WaitsOk, ClosersOk, AwaitsOk, CloseOk;
    ForceCallOk(s, s');
    var v := s.close.on.value;
    var y := s'.builds[v];
    LocalChange(s, v, y);
    ForceCallAwaits(s, s', v);
    ForceCallClosers(s, s', v);
    ForceCallFlags(SetBuild(s, v, y), s');
    ForceCallClose(s, s');
  }

  lemma ForceCallOk(s: State, s': State)
    requires Shape(s) && (ForceBegin(s, s') || ForceEnd(s, s'))
    ensures var v := s.close.on.value;
            && v < |s.builds| == |s'.builds|
            && Local(s.builds[v], s'.builds[v]) && s'.builds[v].stage == s.builds[v].stage
            && BuildShape(s'.builds[v]) && BuildWf(s'.builds[v], s)
            && s' == SetBuild(s, v, s'.builds[v]).(close := s'.close)
            && CloseWf(s'.close, s) && s'.close.Forcing?
  {
    var v := s.close.on.value;
    assert BuildOk(s.nodes, s.builds, s.calls, s.clock, v, s.builds[v]);
    assert BuildWf(s.builds[v], s);
    hide CallsOk, BuildsOk, ListsOk, NodesOk, WalksOk, DepsOlder;
  }

  lemma ForceCallAwaits(s: State, s': State, v: BuildId)
    requires AwaitsOk(s.builds, s.clock) && v < |s.builds| && v < |s'.builds|
    requires Local(s.builds[v], s'.builds[v]) && s'.builds[v].stage == s.builds[v].stage
    requires s'.builds == s.builds[v := s'.builds[v]] && s'.clock == s.clock
    ensures AwaitsOk(s'.builds, s'.clock)
  {
    assert AwaitOk(s.builds, s.builds[v], s.clock);
    hide AwaitsOk;
    AwaitsBuild(s.builds, s.clock, v, s'.builds[v]);
  }

  lemma ForceCallClosers(s: State, s': State, v: BuildId)
    requires Wf(s) && ClosersOk(s.builds, s.forced, s.close) && s.close.Forcing? && s.close.on == Some(v)
    requires ForceBegin(s, s') || ForceEnd(s, s')
    ensures ClosersOk(s'.builds, s'.forced, s'.close)
  {
    hide Wf;
    forall b, j | 0 <= b < |s'.builds| && 0 <= j < |s'.builds[b].closers|
      ensures CloserOk(b, s'.builds[b], s'.forced, s'.close, j)
    {
      assert CloserOk(b, s.builds[b], s.forced, s.close, j);
    }
  }

  lemma ForceCallFlags(t: State, s': State)
    requires Wf(t) && Shape(t) && RefsOk(t) && FreshWhileOpen(t) && WaitsOk(t)
    requires s' == t.(close := s'.close) && CloseWf(s'.close, t) && t.close.Forcing? && s'.close.Forcing?
    ensures Wf(s') && Shape(s') && RefsOk(s') && FreshWhileOpen(s') && WaitsOk(s')
  {
    hide Shape, RefsOk, FreshWhileOpen, WaitsOk, CloseWf;
    FlagsMoved(t, s');
    FlagsRefs(t, s');
  }

  lemma ForceCallClose(s: State, s': State)
    requires Wf(s) && CloseOk(s) && (ForceBegin(s, s') || ForceEnd(s, s'))
    ensures CloseOk(s')
  {
  }
}
