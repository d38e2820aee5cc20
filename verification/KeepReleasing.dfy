/** Releasing references keeps the invariant: running cleanups, dropping
    dependencies, ending leases. */
module KeepReleasing {
  import opened Paths
  import opened State
  import opened Steps
  import opened Invariants
  import opened References
  import opened Freshness
  import opened Waiting
  import opened Cleanups
  import opened Shutdown
  import opened Keeping
  import opened KeepBuilding

  // ---- Cleanups of one build ----------------------------------------------------

  lemma ClosersOne(builds: seq<Build>, forced: bool, close: Closing, b: BuildId, y: Build)
    requires ClosersOk(builds, forced, close) && b < |builds|
    requires |y.closers| == |builds[b].closers| && y.outcome == builds[b].outcome
    requires forall j :: 0 <= j < |y.closers| ==> CloserOk(b, y, forced, close, j)
    ensures ClosersOk(builds[b := y], forced, close)
  {
    var t := builds[b := y];
    forall i, j | 0 <= i < |t| && 0 <= j < |t[i].closers| ensures CloserOk(i, t[i], forced, close, j) {
      assert i != b ==> CloserOk(i, builds[i], forced, close, j);
    }
  }

  /** The steps of runAll. */
  ghost predicate ClosingStep(s: State, s': State, b: BuildId)
    requires Wf(s)
  {
    BeginCloser(s, s', b) || SkipCloser(s, s', b) || EndCloser(s, s', b) || StartDropping(s, s', b)
  }

  /** Past the cleanups, or still at them, and waiting for nobody. */
  predicate Unawaiting(x: Build)
  {
    x.stage != Held && (x.stage.Dropping? ==> x.stage.await.None?)
  }

  lemma KeepClosing(s: State, s': State, b: BuildId)
    requires Inv(s) && ClosingStep(s, s', b)
    ensures Inv(s')
  {
    hide Shape, RefsOk, FreshWhileOpen, WaitsOk, ClosersOk, AwaitsOk, CloseOk;
    ClosingLocal(s, s', b);
    LocalChange(s, b, s'.builds[b]);
    AwaitsBuild(s.builds, s.clock, b, s'.builds[b]) by { ClosingStays(s.builds[b], s'.builds[b], s.builds, s.clock); }
    ClosingClosers(s, s', b);
    CloseBuild(s, b, s'.builds[b]);
  }

  lemma ClosingLocal(s: State, s': State, b: BuildId)
    requires Shape(s) && ClosingStep(s, s', b)
    ensures b < |s.builds| == |s'.builds| && s' == SetBuild(s, b, s'.builds[b])
    ensures Local(s.builds[b], s'.builds[b]) && BuildShape(s'.builds[b]) && BuildWf(s'.builds[b], s)
    ensures Unawaiting(s'.builds[b])
  {
    assert BuildOk(s.nodes, s.builds, s.calls, s.clock, b, s.builds[b]);
    assert BuildWf(s.builds[b], s);
    hide Shape, BuildOk;
    if BeginCloser(s, s', b) || SkipCloser(s, s', b) {
      TakenLocal(s, s', b);
    } else {
      LeftLocal(s, s', b);
    }
  }

  lemma TakenLocal(s: State, s': State, b: BuildId)
    requires Wf(s) && (BeginCloser(s, s', b) || SkipCloser(s, s', b))
    requires BuildShape(s.builds[b]) && BuildWf(s.builds[b], s)
    ensures b < |s.builds| == |s'.builds| && s' == SetBuild(s, b, s'.builds[b])
    ensures Local(s.builds[b], s'.builds[b]) && BuildShape(s'.builds[b]) && BuildWf(s'.builds[b], s)
    ensures Unawaiting(s'.builds[b])
  {
    hide Wf;
  }

  lemma LeftLocal(s: State, s': State, b: BuildId)
    requires Wf(s) && (EndCloser(s, s', b) || StartDropping(s, s', b))
    requires BuildShape(s.builds[b]) && BuildWf(s.builds[b], s)
    ensures b < |s.builds| == |s'.builds| && s' == SetBuild(s, b, s'.builds[b])
    ensures Local(s.builds[b], s'.builds[b]) && BuildShape(s'.builds[b]) && BuildWf(s'.builds[b], s)
    ensures Unawaiting(s'.builds[b])
  {
    hide Wf;
  }

  lemma ClosingStays(x: Build, y: Build, builds: seq<Build>, clock: nat)
    requires Local(x, y) && Unawaiting(y)
    ensures y.outcome == x.outcome && y.stamp == x.stamp && y.stage != Held && AwaitOk(builds, y, clock)
  {
  }

  /** Close reads nothing of the builds but the two lists. */
  lemma CloseBuild(s: State, b: BuildId, y: Build)
    requires CloseOk(s) && b < |s.builds|
    ensures CloseOk(SetBuild(s, b, y))
  {
  }

  lemma ClosingClosers(s: State, s': State, b: BuildId)
    requires Wf(s) && ClosersOk(s.builds, s.forced, s.close) && ClosingStep(s, s', b)
    ensures ClosersOk(s'.builds, s'.forced, s'.close)
  {
    if BeginCloser(s, s', b) || SkipCloser(s, s', b) {
      TakenClosers(s, s', b);
    } else {
      LeftClosers(s, s', b);
    }
  }

  lemma TakenClosers(s: State, s': State, b: BuildId)
    requires Wf(s) && ClosersOk(s.builds, s.forced, s.close)
    requires BeginCloser(s, s', b) || SkipCloser(s, s', b)
    ensures ClosersOk(s'.builds, s'.forced, s'.close)
  {
    forall j | 0 <= j < |s'.builds[b].closers| ensures CloserOk(b, s'.builds[b], s.forced, s.close, j) {
      assert CloserOk(b, s.builds[b], s.forced, s.close, j);
    }
    hide Wf, ForceOk, CloserOk;
    ClosersOne(s.builds, s.forced, s.close, b, s'.builds[b]);
  }

  lemma LeftClosers(s: State, s': State, b: BuildId)
    requires Wf(s) && ClosersOk(s.builds, s.forced, s.close)
    requires EndCloser(s, s', b) || StartDropping(s, s', b)
    ensures ClosersOk(s'.builds, s'.forced, s'.close)
  {
    forall j | 0 <= j < |s'.builds[b].closers| ensures CloserOk(b, s'.builds[b], s.forced, s.close, j) {
      assert CloserOk(b, s.builds[b], s.forced, s.close, j);
    }
    hide Wf, ForceOk, CloserOk;
    ClosersOne(s.builds, s.forced, s.close, b, s'.builds[b]);
  }

  // ---- refs.Add(-1) ---------------------------------------------------------------

  lemma DecrementShape(s: State, g: BuildId)
    requires Shape(s) && g < |s.builds| && s.builds[g].stage == Held
    ensures Shape(Decrement(s, g))
  {
    var y := Decrement(s, g).builds[g];
    assert BuildOk(s.nodes, s.builds, s.calls, s.clock, g, s.builds[g]);
    assert BuildWf(s.builds[g], s);
    hide CallsOk, BuildsOk, ListsOk, NodesOk, WalksOk, DepsOlder;
    assert DepsOlder(s.builds, y, s.clock) by { DepsOlderSame(s.builds, s.builds[g], y, s.clock); }
    ShapeBuild(s, g, y);
  }

  lemma DepsOlderSame(builds: seq<Build>, x: Build, y: Build, clock: nat)
    requires DepsOlder(builds, x, clock)
    requires y.deps == x.deps && y.outcome == x.outcome && y.stamp == x.stamp
    ensures DepsOlder(builds, y, clock)
  {
  }

  lemma DecrementFresh(s: State, g: BuildId)
    requires FreshWhileOpen(s) && g < |s.builds|
    ensures FreshWhileOpen(Decrement(s, g))
  {
    hide FreshOk;
    if !s.closed {
      FreshBuild(s.nodes, s.builds, s.calls, s.walks, g, Decrement(s, g).builds[g]);
    }
  }

  lemma DecrementClosers(s: State, g: BuildId)
    requires ClosersOk(s.builds, s.forced, s.close) && g < |s.builds| && s.builds[g].stage == Held
    ensures var t := Decrement(s, g); ClosersOk(t.builds, t.forced, t.close)
  {
    hide ClosersOk;
    ClosersBuild(s.builds, s.forced, s.close, g, Decrement(s, g).builds[g]);
  }

  lemma DecrementAwaits(s: State, g: BuildId)
    requires AwaitsOk(s.builds, s.clock) && g < |s.builds| && s.builds[g].stage == Held
    ensures AwaitsOk(Decrement(s, g).builds, s.clock)
  {
    hide AwaitsOk;
    AwaitsBuild(s.builds, s.clock, g, Decrement(s, g).builds[g]);
  }

  /** All but the counts and the waits, which are followed from the state the
      reference was still held in. */
  lemma DecrementKept(s: State, g: BuildId)
    requires Wf(s) && Shape(s) && FreshWhileOpen(s) && g < |s.builds| && s.builds[g].stage == Held
    requires ClosersOk(s.builds, s.forced, s.close) && AwaitsOk(s.builds, s.clock)
    ensures var t := Decrement(s, g);
            && Wf(t) && Shape(t) && FreshWhileOpen(t)
            && ClosersOk(t.builds, t.forced, t.close) && AwaitsOk(t.builds, t.clock)
  {
    DecrementShape(s, g);
    DecrementFresh(s, g);
    DecrementClosers(s, g);
    DecrementAwaits(s, g);
    hide Wf, CallsOk, BuildsOk, ListsOk, NodesOk, WalksOk, FreshWhileOpen, ClosersOk, AwaitsOk;
  }

  // ---- Leases -----------------------------------------------------------------------

  lemma KeepEndLease(s: State, s': State, l: nat)
    requires Inv(s) && EndLease(s, s', l)
    ensures Inv(s')
  {
    EndLeaseRest(s, s', l);
    hide CallsOk, BuildsOk, ListsOk, NodesOk, WalksOk, FreshWhileOpen, RefsOk, WaitsOk, ClosersOk, AwaitsOk, CloseOk;
    assert FreshWhileOpen(s') by { EndLeaseFresh(s, s', l); }
    assert CloseOk(s') by { EndLeaseClose(s, s', l); }
  }

  lemma EndLeaseRest(s: State, s': State, l: nat)
    requires Wf(s) && RefsOk(s) && WaitsOk(s) && EndLease(s, s', l)
    ensures RefsOk(s') && WaitsOk(s')
  {
    hide RefsOk, Holders, WaitsOk;
    Conserved(s, s', None, None);
    WaitsKept(s, s');
  }

  lemma EndLeaseFresh(s: State, s': State, l: nat)
    requires Wf(s) && FreshWhileOpen(s) && EndLease(s, s', l)
    ensures FreshWhileOpen(s')
  {
    hide FreshOk;
  }

  lemma EndLeaseClose(s: State, s': State, l: nat)
    requires Wf(s) && CloseOk(s) && EndLease(s, s', l)
    ensures CloseOk(s')
  {
  }

  lemma KeepDropLease(s: State, s': State, l: nat)
    requires Inv(s) && DropLease(s, s', l)
    ensures Inv(s')
  {
    hide Shape, RefsOk, FreshWhileOpen, WaitsOk, ClosersOk, AwaitsOk, CloseOk;
    var t := s.(leases := s.leases[l := s.leases[l].(phase := Ended)]);
    HeldIsLive(s, InLease(l));
    DropLeaseBefore(s, t, l);
    DecrementKept(t, s.leases[l].of);
    DropLeaseCounts(s, s', l);
    DropLeaseClose(s, s', l);
  }

  lemma DropLeaseBefore(s: State, t: State, l: nat)
    requires Wf(s) && Shape(s) && FreshWhileOpen(s) && l < |s.leases|
    requires t == s.(leases := s.leases[l := s.leases[l].(phase := Ended)])
    ensures Wf(t) && Shape(t) && FreshWhileOpen(t)
  {
    hide CallsOk, BuildsOk, ListsOk, NodesOk, WalksOk, FreshOk;
  }

  lemma DropLeaseCounts(s: State, s': State, l: nat)
    requires Wf(s) && RefsOk(s) && WaitsOk(s) && DropLease(s, s', l) && s.builds[s.leases[l].of].stage == Held
    ensures RefsOk(s') && WaitsOk(s')
  {
    hide RefsOk, Holders, WaitsOk;
    Conserved(s, s', Some(InLease(l)), None);
    WaitsKept(s, s');
  }

  lemma DropLeaseClose(s: State, s': State, l: nat)
    requires Wf(s) && CloseOk(s) && DropLease(s, s', l)
    ensures CloseOk(s')
  {
  }

  // ---- Dependencies -------------------------------------------------------------------

  lemma KeepDropDep(s: State, s': State, b: BuildId)
    requires Inv(s) && DropDep(s, s', b)
    ensures Inv(s')
  {
    hide Shape, RefsOk, FreshWhileOpen, WaitsOk, ClosersOk, AwaitsOk, CloseOk;
    var k := s.builds[b].stage.left;
    var d := s.builds[b].deps[k - 1];
    HeldIsLive(s, InDeps(b, k - 1));
    DropDepOlder(s, b);
    DropDepShape(s, s', b, k, d);
    DropDepFresh(s, s', b);
    DropDepRefs(s, s', b);
    DropDepWaits(s, s', b);
    DropDepClosers(s, s', b);
    DropDepAwaits(s, s', b);
    DropDepClose(s, s', b);
  }

  /** What a build was built from was published before it. */
  lemma DropDepOlder(s: State, b: BuildId)
    requires Shape(s) && b < |s.builds|
    ensures DepsOlder(s.builds, s.builds[b], s.clock)
  {
    assert BuildOk(s.nodes, s.builds, s.calls, s.clock, b, s.builds[b]);
  }

  lemma DropDepShape(s: State, s': State, b: BuildId, k: nat, d: BuildId)
    requires Shape(s) && b < |s.builds| && d < |s.builds|
    requires s.builds[b].stage.Dropping? && s.builds[b].stage.left == k >= 1 && s.builds[d].stage == Held
    requires s' == Decrement(SetStage(s, b, Dropping(k - 1, Started(s, d))), d)
    ensures Shape(s')
  {
    hide Shape;
    DroppingShape(s, b, d);
    DecrementShape(SetStage(s, b, Dropping(k - 1, Started(s, d))), d);
  }

  lemma DroppingShape(s: State, b: BuildId, d: BuildId)
    requires Shape(s) && b < |s.builds| && d < |s.builds|
    requires s.builds[b].stage.Dropping? && s.builds[b].stage.left >= 1
    ensures Shape(SetStage(s, b, Dropping(s.builds[b].stage.left - 1, Started(s, d))))
  {
    var y := s.builds[b].(stage := Dropping(s.builds[b].stage.left - 1, Started(s, d)));
    assert BuildOk(s.nodes, s.builds, s.calls, s.clock, b, s.builds[b]);
    assert BuildWf(s.builds[b], s);
    hide CallsOk, BuildsOk, ListsOk, NodesOk, WalksOk, DepsOlder;
    DepsOlderSame(s.builds, s.builds[b], y, s.clock);
    ShapeBuild(s, b, y);
  }

  lemma DropDepFresh(s: State, s': State, b: BuildId)
    requires Wf(s) && FreshWhileOpen(s) && DropDep(s, s', b)
    ensures FreshWhileOpen(s')
  {
    hide FreshOk;
    if !s.closed {
      var k := s.builds[b].stage.left;
      var d := s.builds[b].deps[k - 1];
      var t := SetStage(s, b, Dropping(k - 1, Started(s, d)));
      FreshBuild(s.nodes, s.builds, s.calls, s.walks, b, t.builds[b]);
      DecrementFresh(t, d);
    }
  }

  lemma DropDepRefs(s: State, s': State, b: BuildId)
    requires Wf(s) && RefsOk(s) && DropDep(s, s', b) && DepsOlder(s.builds, s.builds[b], s.clock)
    requires s.builds[b].stage.left <= |s.builds[b].deps|
    requires s.builds[s.builds[b].deps[s.builds[b].stage.left - 1]].stage == Held
    ensures RefsOk(s')
  {
    hide RefsOk, DepsOlder;
    var k := s.builds[b].stage.left;
    DroppedRefs(s, s', b, k, s.builds[b].deps[k - 1]);
  }

  lemma DroppedRefs(s: State, s': State, b: BuildId, k: nat, d: BuildId)
    requires Wf(s) && RefsOk(s) && b < |s.builds| && d < |s.builds| && s.builds[b].stage.Dropping?
    requires 1 <= k <= |s.builds[b].deps| && s.builds[b].stage.left == k && s.builds[b].deps[k - 1] == d
    requires s.builds[d].stage == Held
    requires s' == Decrement(SetStage(s, b, Dropping(k - 1, Started(s, d))), d)
    ensures RefsOk(s')
  {
    hide RefsOk, Holders, Wf;
    Conserved(s, s', Some(InDeps(b, k - 1)), None);
  }

  lemma DropDepWaits(s: State, s': State, b: BuildId)
    requires Wf(s) && WaitsOk(s) && DropDep(s, s', b)
    ensures WaitsOk(s')
  {
    hide WaitsOk;
    WaitsKept(s, s');
  }

  lemma DropDepClosers(s: State, s': State, b: BuildId)
    requires Wf(s) && ClosersOk(s.builds, s.forced, s.close) && DropDep(s, s', b)
    requires s.builds[s.builds[b].deps[s.builds[b].stage.left - 1]].stage == Held
    ensures ClosersOk(s'.builds, s'.forced, s'.close)
  {
    hide ClosersOk;
    var k := s.builds[b].stage.left;
    var d := s.builds[b].deps[k - 1];
    var t := SetStage(s, b, Dropping(k - 1, Started(s, d)));
    ClosersBuild(s.builds, s.forced, s.close, b, t.builds[b]);
    DecrementClosers(t, d);
  }

  lemma DropDepAwaits(s: State, s': State, b: BuildId)
    requires Wf(s) && AwaitsOk(s.builds, s.clock) && DropDep(s, s', b)
    requires DepsOlder(s.builds, s.builds[b], s.clock)
    requires s.builds[s.builds[b].deps[s.builds[b].stage.left - 1]].stage == Held
    ensures AwaitsOk(s'.builds, s'.clock)
  {
    hide AwaitsOk;
    var k := s.builds[b].stage.left;
    var d := s.builds[b].deps[k - 1];
    var t := Decrement(s, d);
    DecrementAwaits(s, d);
    AwaitsBuild(t.builds, s.clock, b, s.builds[b].(stage := Dropping(k - 1, Started(s, d))));
    assert s'.builds == t.builds[b := s.builds[b].(stage := Dropping(k - 1, Started(s, d)))];
  }

  lemma DropDepClose(s: State, s': State, b: BuildId)
    requires Wf(s) && CloseOk(s) && DropDep(s, s', b)
    ensures CloseOk(s')
  {
  }

  // ---- The end of a release --------------------------------------------------------------

  /** EndRelease and EndDiscard. */
  ghost predicate EndsAt(s: State, s': State, b: BuildId)
    requires Wf(s)
  {
    && b < |s.builds| && s.builds[b].stage.Dropping? && s.builds[b].stage.left == 0
    && s' == SetStage(s, b, Over).(live := s'.live, drained := s'.drained)
    && s'.live == s.live - {b}
  }

  lemma EndsAtIs(s: State, s': State, b: BuildId)
    requires Shape(s) && (EndRelease(s, s', b) || EndDiscard(s, s', b))
    ensures EndsAt(s, s', b)
  {
    assert b in s.live <==> s.builds[b].outcome == Published && s.builds[b].stage != Over;
    hide Wf, CallsOk, BuildsOk, ListsOk, NodesOk, WalksOk;
  }

  lemma KeepEndsAt(s: State, s': State, b: BuildId)
    requires Inv(s) && (EndRelease(s, s', b) || EndDiscard(s, s', b))
    ensures Inv(s')
  {
    hide Shape, RefsOk, FreshWhileOpen, WaitsOk, ClosersOk, AwaitsOk, CloseOk;
    EndsAtIs(s, s', b);
    EndsAtShape(s, s', b);
    EndsAtCounts(s, s', b);
    EndsAtRest(s, s', b);
    EndsAtClose(s, s', b);
  }

  lemma EndsAtShape(s: State, s': State, b: BuildId)
    requires Shape(s) && EndsAt(s, s', b)
    ensures Shape(s')
  {
    EndsAtCalls(s, s', b);
    EndsAtBuilds(s, s', b);
    EndsAtNodes(s, s', b);
    hide Wf, CallsOk, BuildsOk, ListsOk, NodesOk, WalksOk;
  }

  lemma EndsAtCalls(s: State, s': State, b: BuildId)
    requires Wf(s) && CallsOk(s.nodes, s.builds, s.calls) && WalksOk(s.nodes, s.walks) && EndsAt(s, s', b)
    ensures Wf(s') && CallsOk(s'.nodes, s'.builds, s'.calls) && WalksOk(s'.nodes, s'.walks)
  {
    forall i | 0 <= i < |s'.calls| ensures CallOk(s'.nodes, s'.builds, i, s'.calls[i]) {
      assert CallOk(s.nodes, s.builds, i, s.calls[i]);
    }
  }

  lemma EndsAtBuilds(s: State, s': State, b: BuildId)
    requires Wf(s) && BuildsOk(s.nodes, s.builds, s.calls, s.clock) && EndsAt(s, s', b)
    ensures BuildsOk(s'.nodes, s'.builds, s'.calls, s'.clock)
  {
    forall i | 0 <= i < |s'.builds| ensures BuildOk(s'.nodes, s'.builds, s'.calls, s'.clock, i, s'.builds[i]) {
      assert BuildOk(s.nodes, s.builds, s.calls, s.clock, i, s.builds[i]);
    }
  }

  lemma EndsAtNodes(s: State, s': State, b: BuildId)
    requires Wf(s) && EndsAt(s, s', b)
    requires ListsOk(s.nodes, s.builds, s.live, s.inflight) && NodesOk(s.nodes, s.builds, s.closed)
    ensures ListsOk(s'.nodes, s'.builds, s'.live, s'.inflight) && NodesOk(s'.nodes, s'.builds, s'.closed)
  {
    assert NodesOk(s'.nodes, s'.builds, s'.closed) by { hide ListsOk; }
    assert ListsOk(s'.nodes, s'.builds, s'.live, s'.inflight) by { hide NodesOk; }
  }

  lemma EndsAtCounts(s: State, s': State, b: BuildId)
    requires Wf(s) && RefsOk(s) && WaitsOk(s) && EndsAt(s, s', b)
    ensures RefsOk(s') && WaitsOk(s')
  {
    hide RefsOk, Holders, WaitsOk;
    Conserved(s, s', None, None);
    WaitsKept(s, s');
  }

  lemma EndsAtRest(s: State, s': State, b: BuildId)
    requires Wf(s) && FreshWhileOpen(s) && EndsAt(s, s', b)
    requires ClosersOk(s.builds, s.forced, s.close) && AwaitsOk(s.builds, s.clock)
    ensures FreshWhileOpen(s')
    ensures ClosersOk(s'.builds, s'.forced, s'.close) && AwaitsOk(s'.builds, s'.clock)
  {
    hide FreshOk, ClosersOk, AwaitsOk;
    if !s.closed {
      FreshBuild(s.nodes, s.builds, s.calls, s.walks, b, s'.builds[b]);
    }
    ClosersBuild(s.builds, s.forced, s.close, b, s'.builds[b]);
    AwaitsBuild(s.builds, s.clock, b, s'.builds[b]);
  }

  lemma EndsAtClose(s: State, s': State, b: BuildId)
    requires Wf(s) && CloseOk(s) && (EndRelease(s, s', b) || EndDiscard(s, s', b))
    ensures CloseOk(s')
  {
  }
}
