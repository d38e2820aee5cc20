/** Whatever is under way can be finished: from every reachable state, finishing
    the releases, leases, reads and builds there are leads to a state with none. */
module Finishing {
  import opened Paths
  import opened State
  import opened Steps
  import opened Invariants
  import opened References
  import opened Waiting
  import opened Cleanups
  import opened Shutdown
  import opened Keeping
  import opened KeepWaiting
  import opened Runs
  import opened History
  import opened Lifetimes
  import opened Consistency
  import opened Deadlocks
  import opened Progress
  import opened Continuations
  import opened Work

  // ---- Releases -----------------------------------------------------------------

  predicate SamePlan(x: Build, y: Build)
  {
    && y.node == x.node && y.epoch == x.epoch && y.creator == x.creator && y.phase == x.phase
    && y.outcome == x.outcome && y.waits == x.waits && y.deps == x.deps && y.stamp == x.stamp
    && |y.closers| == |x.closers|
  }

  /** Only cleanups ran and dependencies were dropped. */
  ghost predicate OnlyReleases(s: State, t: State)
  {
    && t.nodes == s.nodes && t.calls == s.calls && t.walks == s.walks && t.leases == s.leases
    && t.members == s.members && t.inflight == s.inflight && t.closed == s.closed
    && t.cancelled == s.cancelled && t.forced == s.forced && t.close == s.close
    && t.live <= s.live && (s.drained ==> t.drained)
    && |t.builds| == |s.builds|
    && forall b :: 0 <= b < |s.builds| ==> SamePlan(s.builds[b], t.builds[b])
  }

  lemma OnlyReleasesThen(s: State, t: State, u: State)
    requires OnlyReleases(s, t) && OnlyReleases(t, u)
    ensures OnlyReleases(s, u)
  {
    forall b | 0 <= b < |s.builds| ensures SamePlan(s.builds[b], u.builds[b]) {
      assert SamePlan(s.builds[b], t.builds[b]) && SamePlan(t.builds[b], u.builds[b]);
    }
  }

  lemma CleaningLess(s: State, y: ReleasingStep, s': State)
    requires Wf(s) && ReleasingNext(s, y, s') && !y.DoDropDep? && !y.DoEndLease? && !y.DoDropLease?
    ensures OnlyReleases(s, s') && BuildsWork(s'.builds) < BuildsWork(s.builds)
  {
    hide Wf, BuildsWork, OnlyReleases;
    if y.DoBeginCloser? || y.DoSkipCloser? || y.DoEndCloser? {
      CloserLess(s, y, s');
    } else {
      DroppingLess(s, y, s');
    }
  }

  lemma CloserLess(s: State, y: ReleasingStep, s': State)
    requires Wf(s) && ReleasingNext(s, y, s') && (y.DoBeginCloser? || y.DoSkipCloser? || y.DoEndCloser?)
    ensures OnlyReleases(s, s') && BuildsWork(s'.builds) < BuildsWork(s.builds)
  {
    hide Wf, BuildsWork;
    OneBuildWork(s.builds, y.b, s'.builds[y.b]);
  }

  lemma DroppingLess(s: State, y: ReleasingStep, s': State)
    requires Wf(s) && ReleasingNext(s, y, s') && (y.DoStartDropping? || y.DoEndRelease? || y.DoEndDiscard?)
    ensures OnlyReleases(s, s') && BuildsWork(s'.builds) < BuildsWork(s.builds)
  {
    hide Wf, BuildsWork;
    OneBuildWork(s.builds, y.b, s'.builds[y.b]);
  }

  lemma DropDepLess(s: State, s': State, b: BuildId)
    requires Inv(s) && Wf(s) && DropDep(s, s', b)
    ensures OnlyReleases(s, s') && BuildsWork(s'.builds) < BuildsWork(s.builds)
  {
    hide Inv, Wf, OnlyReleases, BuildsWork;
    var k := s.builds[b].stage.left;
    HeldPlace(s, InDeps(b, k - 1));
    DroppedLess(s, s', b, k, s.builds[b].deps[k - 1]);
  }

  lemma DroppedLess(s: State, s': State, b: BuildId, k: nat, d: BuildId)
    requires b < |s.builds| && d < |s.builds| && k > 0
    requires s.builds[b].stage.Dropping? && s.builds[b].stage.left == k
    requires s.builds[d].stage == Held
    requires s' == Decrement(SetStage(s, b, Dropping(k - 1, Started(s, d))), d)
    ensures OnlyReleases(s, s') && BuildsWork(s'.builds) < BuildsWork(s.builds)
  {
    hide BuildsWork;
    var t := SetStage(s, b, Dropping(k - 1, Started(s, d)));
    OneBuildWork(s.builds, b, t.builds[b]);
    OneBuildWork(t.builds, d, s'.builds[d]);
  }

  lemma ReleaseLess(s: State, y: ReleasingStep, s': State)
    requires Inv(s) && Wf(s) && ReleasingNext(s, y, s') && !y.DoEndLease? && !y.DoDropLease?
    ensures OnlyReleases(s, s') && BuildsWork(s'.builds) < BuildsWork(s.builds)
  {
    hide Inv, Wf, OnlyReleases, BuildsWork, DropDep;
    match y {
      case DoDropDep(b) => DropDepLess(s, s', b);
      case _ => CleaningLess(s, y, s');
    }
  }

  ghost predicate NoneReleasing(s: State)
  {
    forall b :: 0 <= b < |s.builds| ==> !Releasing(s.builds[b])
  }

  lemma OnlyReleasesSelf(s: State)
    ensures OnlyReleases(s, s)
  {
  }

  /** Every release under way can be finished, with nothing else happening. */
  lemma {:induction false} ReleasesEnd(s: State) returns (t: State)
    requires Reachable(s)
    ensures Leads(s, t) && Reachable(t) && OnlyReleases(s, t) && NoneReleasing(t)
    decreases BuildsWork(s.builds)
  {
    hide Reachable, Inv, Wf, ReleasingNext, OnlyReleases, Leads, Reaches, OfBuild;
    ReachableWf(s);
    LeadsSelf(s);
    OnlyReleasesSelf(s);
    t := s;
    if !NoneReleasing(s) {
      var b :| 0 <= b < |s.builds| && Releasing(s.builds[b]);
      var e, y, s' := ReleaseMoves(s, b);
      NotLease(y, e);
      ReleaseLess(s, y, s');
      Takes(s, ReleasingAction(y), s');
      t := ReleasesEnd(s');
      LeadsThen(s, s', t);
      OnlyReleasesThen(s, s', t);
    }
  }

  lemma NotLease(y: ReleasingStep, e: BuildId)
    requires OfBuild(ReleasingAction(y), e)
    ensures !y.DoEndLease? && !y.DoDropLease?
  {
  }

  // ---- Reads, builds and leases ------------------------------------------------------

  predicate SameDoor(x: Node, y: Node)
  {
    y.val == x.val && y.closed == x.closed && y.eager == x.eager && y.ready == x.ready && y.epoch == x.epoch
  }

  /** Nothing new was invalidated, published, shut or constructed. */
  ghost predicate OnlyFinishes(s: State, t: State)
  {
    && |t.nodes| == |s.nodes| && (forall n :: 0 <= n < |s.nodes| ==> SameDoor(s.nodes[n], t.nodes[n]))
    && t.walks == s.walks && t.members == s.members && t.closed == s.closed
    && t.cancelled == s.cancelled && t.forced == s.forced && t.close == s.close
    && (s.drained ==> t.drained)
  }

  lemma OnlyFinishesThen(s: State, t: State, u: State)
    requires OnlyFinishes(s, t) && OnlyFinishes(t, u)
    ensures OnlyFinishes(s, u)
  {
    forall n | 0 <= n < |s.nodes| ensures SameDoor(s.nodes[n], u.nodes[n]) {
      assert SameDoor(s.nodes[n], t.nodes[n]) && SameDoor(t.nodes[n], u.nodes[n]);
    }
  }

  lemma OnlyFinishesSelf(s: State)
    ensures OnlyFinishes(s, s)
  {
  }

  /** The step leaves less to do. */
  ghost predicate Finishes(s: State, s': State)
  {
    OnlyFinishes(s, s') && Left(s') < Left(s)
  }

  /** One read moves on; what providers and builds look like to the others stays. */
  lemma CallLess(s: State, s': State, c: CallId, y: Call)
    requires Wf(s) && c < |s.calls| && s'.calls == s.calls[c := y]
    requires SameSight(s.nodes, s'.nodes, s.builds, s'.builds)
    ensures CallsWork(s'.nodes, s'.builds, s'.calls) + CallWork(s.nodes, s.builds, s.calls[c])
            == CallsWork(s.nodes, s.builds, s.calls) + CallWork(s'.nodes, s'.builds, y)
  {
    assert forall i :: 0 <= i < |s.calls| ==> PcWf(s.calls[i].pc, |s.builds|);
    hide Wf, CallWork, CallsWork, SameSight;
    SameCallsWork(s.nodes, s'.nodes, s.builds, s'.builds, s.calls);
    OneCallWork(s'.nodes, s'.builds, s.calls, c, y);
    SameCallWork(s.nodes, s'.nodes, s.builds, s'.builds, s.calls[c]);
  }

  lemma LookingLess(s: State, y: ReadingStep, s': State)
    requires Wf(s) && ReadingNext(s, y, s')
    requires y.DoAddDependent? || y.DoLoadValue? || y.DoPeek?
    ensures Finishes(s, s')
  {
    assert s.calls[y.c].node < |s.nodes|;
    hide Wf, CallsWork, BuildsWork, LeasesWork;
    CallLess(s, s', y.c, s'.calls[y.c]);
  }

  lemma FailingLess(s: State, s': State, c: CallId)
    requires Wf(s) && AcquireFails(s, s', c) && s.nodes[s.calls[c].node].val != Some(s.calls[c].pc.g)
    ensures Finishes(s, s')
  {
    hide Wf, CallsWork, BuildsWork, LeasesWork;
    CallLess(s, s', c, s'.calls[c]);
  }

  lemma AcquiringLess(s: State, s': State, c: CallId)
    requires Wf(s) && Acquire(s, s', c)
    ensures Finishes(s, s')
  {
    var g := s.calls[c].pc.g;
    assert g < |s.builds|;
    hide Wf, CallsWork, BuildsWork, LeasesWork;
    CallLess(s, s', c, s'.calls[c]);
    OneBuildWork(s.builds, g, s'.builds[g]);
  }

  lemma KeepingLess(s: State, s': State, c: CallId)
    requires Wf(s) && KeepDep(s, s', c)
    ensures Finishes(s, s')
  {
    var b := s.calls[c].scope.value;
    assert b < |s.builds|;
    hide Wf, CallsWork, BuildsWork, LeasesWork;
    CallLess(s, s', c, s'.calls[c]);
    OneBuildWork(s.builds, b, s'.builds[b]);
  }

  lemma LeasingLess(s: State, s': State, c: CallId)
    requires Wf(s) && TakeLease(s, s', c)
    ensures Finishes(s, s')
  {
    hide Wf, CallsWork, BuildsWork, LeasesWork;
    CallLess(s, s', c, s'.calls[c]);
    NewLeaseWork(s.leases, Lease(s.calls[c].pc.g, Active));
  }

  lemma StaleClaim(s: State, s': State, c: CallId)
    requires Reachable(s) && Wf(s) && AcquireFails(s, s', c)
    ensures s.nodes[s.calls[c].node].val != Some(s.calls[c].pc.g)
  {
    hide Reachable;
    CountsAreHolders(s, s.calls[c].pc.g);
  }

  lemma ReadingLess(s: State, y: ReadingStep, s': State)
    requires Reachable(s) && Wf(s) && ReadingNext(s, y, s') && !y.DoStartRead? && !y.DoStartFrom?
    ensures Finishes(s, s')
  {
    hide Reachable, Finishes, AddDependent, LoadValue, Peek, Acquire, KeepDep, TakeLease;
    match y {
      case DoAcquire(c) => AcquiringLess(s, s', c);
      case DoAcquireFails(c) => StaleClaim(s, s', c); FailingLess(s, s', c);
      case DoKeepDep(c) => KeepingLess(s, s', c);
      case DoTakeLease(c) => LeasingLess(s, s', c);
      case _ => LookingLess(s, y, s');
    }
  }

  lemma EnteringOutLess(s: State, y: EnteringStep, s': State)
    requires Wf(s) && EnteringNext(s, y, s') && !y.DoEnterCreate?
    requires NodeOk(s.nodes, s.builds, s.closed, s.calls[y.c].node, s.nodes[s.calls[y.c].node])
    ensures Finishes(s, s')
  {
    assert s.calls[y.c].node < |s.nodes|;
    hide Wf, CallsWork, BuildsWork, LeasesWork;
    CallLess(s, s', y.c, s'.calls[y.c]);
  }

  lemma CreatingLess(s: State, s': State, c: CallId)
    requires Wf(s) && EnterCreate(s, s', c)
    ensures Finishes(s, s')
  {
    assert s.calls[c].node < |s.nodes|;
    hide Wf, CallsWork, BuildsWork, LeasesWork;
    CallLess(s, s', c, s'.calls[c]);
    NewBuildWork(s.builds, s'.builds[|s.builds|]);
  }

  lemma EnteringLess(s: State, y: EnteringStep, s': State)
    requires Inv(s) && Wf(s) && EnteringNext(s, y, s')
    ensures Finishes(s, s')
  {
    hide Inv, Finishes, NodeOk;
    match y {
      case DoEnterCreate(c) => CreatingLess(s, s', c);
      case DoEnterClosed(c) => EnterFacts(s, c); EnteringOutLess(s, y, s');
      case DoEnterRetry(c) => EnterFacts(s, c); EnteringOutLess(s, y, s');
      case DoEnterJoin(c) => EnterFacts(s, c); EnteringOutLess(s, y, s');
    }
  }

  lemma EnterFacts(s: State, c: CallId)
    requires Inv(s) && Wf(s)
    ensures c < |s.calls| ==>
              NodeOk(s.nodes, s.builds, s.closed, s.calls[c].node, s.nodes[s.calls[c].node])
  {
    if c < |s.calls| {
      hide Inv;
      NodeFacts(s, s.calls[c].node);
    }
  }

  lemma LeavingLess(s: State, y: WaitingStep, s': State)
    requires Wf(s) && WaitingNext(s, y, s') && (y.DoJoinCycle? || y.DoWake? || y.DoAbandon?)
    ensures Finishes(s, s')
  {
    hide Wf, CallsWork, BuildsWork, LeasesWork, Reaches, Edges;
    CallLess(s, s', y.c, s'.calls[y.c]);
  }

  /** Counting a wait, or no longer counting it, is no work. */
  lemma CountingLess(s: State, s': State, c: CallId, y: Call, f: BuildId, waits: map<BuildId, nat>)
    requires Wf(s) && c < |s.calls| && f < |s.builds|
    requires s' == SetBuild(s, f, s.builds[f].(waits := waits)).(calls := s.calls[c := y])
    requires CallWork(s.nodes, s.builds, y) < CallWork(s.nodes, s.builds, s.calls[c]) && PcWf(y.pc, |s.builds|)
    ensures Finishes(s, s')
  {
    hide Wf, CallsWork, BuildsWork, LeasesWork;
    CallLess(s, s', c, y);
    OneBuildWork(s.builds, f, s'.builds[f]);
    hide CallWork;
    SameCallWork(s.nodes, s'.nodes, s.builds, s'.builds, y);
  }

  lemma UncountedLess(s: State, s': State, c: CallId, y: Call)
    requires Wf(s) && c < |s.calls| && s' == s.(calls := s.calls[c := y])
    requires CallWork(s.nodes, s.builds, y) < CallWork(s.nodes, s.builds, s.calls[c])
    ensures Finishes(s, s')
  {
    hide Wf, CallWork, CallsWork, BuildsWork, LeasesWork;
    CallLess(s, s', c, y);
  }

  lemma JoinWaitLess(s: State, s': State, c: CallId)
    requires Wf(s) && JoinWait(s, s', c)
    ensures Finishes(s, s')
  {
    var y := s.calls[c].(pc := Select(s.calls[c].pc.a));
    var f := s.calls[c].from;
    assert f.Some? ==> f.value < |s.builds|;
    hide Wf, Accepted, Finishes;
    if f.None? {
      UncountedLess(s, s', c, y);
    } else {
      CountingLess(s, s', c, y, f.value, s'.builds[f.value].waits);
    }
  }

  /** A signalled attempt's outcome is known. */
  lemma LeaveFacts(s: State, c: CallId)
    requires Inv(s) && Wf(s) && c < |s.calls| && s.calls[c].pc.Leave?
    ensures s.calls[c].pc.err.None? ==> s.builds[s.calls[c].pc.a].outcome != Pending
  {
    hide Inv;
    CallFacts(s, c);
    BuildFacts(s, s.calls[c].pc.a);
  }

  lemma StopWaitingLess(s: State, s': State, c: CallId)
    requires Inv(s) && Wf(s) && StopWaiting(s, s', c)
    ensures Finishes(s, s')
  {
    LeaveFacts(s, c);
    var y := s.calls[c].(pc := Resume(s, c));
    var f := s.calls[c].from;
    assert f.Some? ==> f.value < |s.builds|;
    hide Wf, Inv, Finishes;
    if f.None? {
      UncountedLess(s, s', c, y);
    } else {
      CountingLess(s, s', c, y, f.value, s'.builds[f.value].waits);
    }
  }

  /** Starting the builder, before the wait is counted. */
  lemma LaunchLess(s: State, t: State, c: CallId)
    requires Wf(s) && Launch(s, t, c) && s.builds[s.calls[c].pc.a].phase == Created
    ensures OnlyFinishes(s, t) && Left(t) < Left(s) && |t.builds| == |s.builds|
  {
    var a := s.calls[c].pc.a;
    assert a < |s.builds|;
    hide Wf, CallsWork, BuildsWork, LeasesWork;
    CallLess(s, t, c, t.calls[c]);
    OneBuildWork(s.builds, a, t.builds[a]);
  }

  lemma WaitsOnlySame(t: State, s': State, f: BuildId, waits: map<BuildId, nat>)
    requires f < |t.builds| && s' == SetBuild(t, f, t.builds[f].(waits := waits))
    requires forall c :: 0 <= c < |t.calls| ==> PcWf(t.calls[c].pc, |t.builds|)
    ensures OnlyFinishes(t, s') && Left(s') == Left(t)
  {
    hide CallsWork, BuildsWork, LeasesWork;
    OneBuildWork(t.builds, f, s'.builds[f]);
    hide CallWork, BuildWork;
    SameCallsWork(t.nodes, s'.nodes, t.builds, s'.builds, t.calls);
  }

  lemma JoinStartLess(s: State, s': State, c: CallId)
    requires Inv(s) && Wf(s) && JoinStart(s, s', c)
    ensures Finishes(s, s')
  {
    CallFacts(s, c);
    var a, f := s.calls[c].pc.a, s.calls[c].from;
    var t := SetBuild(SetCall(s, c, StartPc(s.calls[c])), a, s.builds[a].(phase := Building));
    assert f.Some? ==> f.value < |s.builds|;
    assert forall i :: 0 <= i < |t.calls| ==> PcWf(t.calls[i].pc, |t.builds|);
    hide Inv, Wf, Accepted, Left, CallOk, OnlyFinishes;
    LaunchLess(s, t, c);
    if f.Some? {
      WaitsOnlySame(t, s', f.value, s'.builds[f.value].waits);
      OnlyFinishesThen(s, t, s');
    }
  }

  lemma WaitingLess(s: State, y: WaitingStep, s': State)
    requires Inv(s) && Wf(s) && WaitingNext(s, y, s')
    ensures Finishes(s, s')
  {
    InvWf(s);
    hide Inv, Wf, Shape, Finishes, JoinCycle, JoinWait, JoinStart, Wake, Abandon, StopWaiting, JoinAbort;
    match y {
      case DoJoinAbort(c) => NeverAborts(s, s', c);
      case DoAbortReturn(c) => CallFacts(s, c);
      case DoJoinWait(c) => JoinWaitLess(s, s', c);
      case DoJoinStart(c) => JoinStartLess(s, s', c);
      case DoStopWaiting(c) => StopWaitingLess(s, s', c);
      case _ => LeavingLess(s, y, s');
    }
  }

  // ---- Builders and leases ----------------------------------------------------------------

  lemma DiscardBrokenLess(s: State, s': State, b: BuildId)
    requires Wf(s) && DiscardBroken(s, s', b) && s.builds[b].stage == Scope && s.builds[b].outcome == Pending
    ensures Finishes(s, s')
  {
    assert s.builds[b].node < |s.nodes|;
    assert forall c :: 0 <= c < |s.calls| ==> PcWf(s.calls[c].pc, |s.builds|);
    hide Wf, NoCallsOf, CallsWork, BuildsWork, LeasesWork;
    OneBuildWork(s.builds, b, s'.builds[b]);
    hide CallWork, BuildWork;
    SameCallsWork(s.nodes, s'.nodes, s.builds, s'.builds, s.calls);
  }

  lemma PhaseLess(s: State, y: BuildingStep, s': State)
    requires Wf(s) && BuildingNext(s, y, s') && (y.DoUnlist? || y.DoSignal?)
    ensures Finishes(s, s')
  {
    assert forall c :: 0 <= c < |s.calls| ==> PcWf(s.calls[c].pc, |s.builds|);
    hide Wf, CallsWork, BuildsWork, LeasesWork, BuildWork;
    PhaseWorks(s, y, s');
    hide CallWork;
    SameCallsWork(s.nodes, s'.nodes, s.builds, s'.builds, s.calls);
  }

  lemma PhaseWorks(s: State, y: BuildingStep, s': State)
    requires Wf(s) && BuildingNext(s, y, s') && (y.DoUnlist? || y.DoSignal?)
    ensures BuildsWork(s'.builds) < BuildsWork(s.builds)
  {
    hide Wf, BuildsWork;
    OneBuildWork(s.builds, y.b, s'.builds[y.b]);
  }

  lemma BuildsLess(s: State, s': State)
    requires Wf(s) && OnlyReleases(s, s') && BuildsWork(s'.builds) < BuildsWork(s.builds)
    ensures Finishes(s, s')
  {
    assert forall c :: 0 <= c < |s.calls| ==> PcWf(s.calls[c].pc, |s.builds|);
    hide Wf, CallsWork, BuildsWork, LeasesWork;
    SameCallsWork(s.nodes, s'.nodes, s.builds, s'.builds, s.calls);
  }

  lemma EndLeaseLess(s: State, s': State, l: nat)
    requires Wf(s) && EndLease(s, s', l)
    ensures Finishes(s, s')
  {
    hide Wf, CallsWork, BuildsWork, LeasesWork;
    OneLeaseWork(s.leases, l, s'.leases[l]);
  }

  lemma DropLeaseLess(s: State, s': State, l: nat)
    requires Inv(s) && Wf(s) && DropLease(s, s', l)
    ensures Finishes(s, s')
  {
    HeldPlace(s, InLease(l));
    assert forall c :: 0 <= c < |s.calls| ==> PcWf(s.calls[c].pc, |s.builds|);
    hide Inv, Wf, Finishes;
    DroppedLeaseLess(s, s', l, s.leases[l].of);
  }

  lemma DroppedLeaseLess(s: State, s': State, l: nat, g: BuildId)
    requires l < |s.leases| && s.leases[l] == Lease(g, Ending) && g < |s.builds| && s.builds[g].stage == Held
    requires s' == Decrement(s.(leases := s.leases[l := Lease(g, Ended)]), g)
    requires forall c :: 0 <= c < |s.calls| ==> PcWf(s.calls[c].pc, |s.builds|)
    ensures Finishes(s, s')
  {
    hide CallsWork, BuildsWork, LeasesWork;
    OneLeaseWork(s.leases, l, s'.leases[l]);
    OneBuildWork(s.builds, g, s'.builds[g]);
    hide CallWork, BuildWork, LeaseWork;
    SameCallsWork(s.nodes, s'.nodes, s.builds, s'.builds, s.calls);
  }

  // ---- Nothing under way ------------------------------------------------------------------

  /** No release, lease, builder or attempt is left, and no read owns a reference. */
  ghost predicate AllSettled(s: State)
    requires Wf(s)
  {
    && NoneReleasing(s)
    && (forall l :: 0 <= l < |s.leases| ==> s.leases[l].phase == Ended)
    && (forall c :: 0 <= c < |s.calls| ==> !s.calls[c].pc.Got? || !s.calls[c].ref)
    && (forall b :: 0 <= b < |s.builds| ==>
         if IsEager(s, b) then s.builds[b].phase != Building else s.builds[b].phase == Signalled)
  }

  lemma CallFinishes(s: State, x: Action, s': State, c: CallId)
    requires Reachable(s) && Inv(s) && Wf(s) && OfCall(x, c) && Do(s, x, s')
    ensures Finishes(s, s')
  {
    hide Reachable, Inv, Wf, Finishes, ReadingNext, EnteringNext, WaitingNext;
    match x {
      case ReadingAction(y) => ReadingLess(s, y, s');
      case EnteringAction(y) => EnteringLess(s, y, s');
      case WaitingAction(y) => WaitingLess(s, y, s');
    }
  }

  lemma ReleaseFinishes(s: State, b: BuildId) returns (x: Action, s': State)
    requires Inv(s) && Wf(s) && b < |s.builds| && Releasing(s.builds[b])
    ensures Do(s, x, s') && Finishes(s, s')
  {
    hide Inv, Wf, ReleasingNext, OnlyReleases, Finishes, Reaches, OfBuild, BuildsWork;
    var e, y;
    e, y, s' := ReleaseMoves(s, b);
    NotLease(y, e);
    ReleaseLess(s, y, s');
    BuildsLess(s, s');
    x := ReleasingAction(y);
  }

  lemma LeaseFinishes(s: State, l: nat) returns (x: Action, s': State)
    requires Inv(s) && Wf(s) && l < |s.leases| && s.leases[l].phase != Ended
    ensures Do(s, x, s') && Finishes(s, s')
  {
    hide Inv, Wf, Finishes, EndLease, DropLease;
    var y;
    y, s' := LeaseMoves(s, l);
    match y {
      case DoEndLease(_) => EndLeaseLess(s, s', l);
      case DoDropLease(_) => DropLeaseLess(s, s', l);
    }
    x := ReleasingAction(y);
  }

  lemma LeaseMoves(s: State, l: nat) returns (y: ReleasingStep, s': State)
    requires Wf(s) && l < |s.leases| && s.leases[l].phase != Ended
    ensures ReleasingNext(s, y, s') && (y == DoEndLease(l) || y == DoDropLease(l))
  {
    assert s.leases[l].of < |s.builds|;
    hide Wf;
    if s.leases[l].phase == Active {
      y, s' := DoEndLease(l), s.(leases := s.leases[l := s.leases[l].(phase := Ending)]);
    } else {
      y := DoDropLease(l);
      s' := Decrement(s.(leases := s.leases[l := s.leases[l].(phase := Ended)]), s.leases[l].of);
    }
  }

  lemma GotFinishes(s: State, c: CallId) returns (x: Action, s': State)
    requires Inv(s) && Wf(s) && c < |s.calls| && s.calls[c].pc.Got? && s.calls[c].ref
    ensures Do(s, x, s') && Finishes(s, s')
  {
    hide Inv, Finishes;
    if s.calls[c].scope.Some? {
      var b := s.calls[c].scope.value;
      x := ReadingAction(DoKeepDep(c));
      s' := SetBuild(SetCall(s, c, Kept), b, s.builds[b].(deps := s.builds[b].deps + [s.calls[c].pc.g]));
      KeepingLess(s, s', c);
    } else {
      x := ReadingAction(DoTakeLease(c));
      s' := SetCall(s, c, Kept).(leases := s.leases + [Lease(s.calls[c].pc.g, Active)]);
      LeasingLess(s, s', c);
    }
  }

  /** A running builder whose reads are not held up ends: here, by failing. */
  lemma BuilderFinishes(s: State, b: BuildId) returns (x: Action, s': State)
    requires Reachable(s) && Inv(s) && Wf(s) && b < |s.builds| && s.builds[b].phase == Building
    requires forall c :: 0 <= c < |s.calls| && s.calls[c].scope == Some(b) ==> !Blocked(s, c)
    ensures Do(s, x, s') && Finishes(s, s')
  {
    hide Reachable, Inv, Wf, Finishes, Blocked, OfCall;
    if NoCallsOf(s, b) {
      hide NoCallsOf;
      BuildFacts(s, b);
      PendingFacts(s, b);
      x, s' := BuildingAction(DoDiscardBroken(b)), Discard(s, b, Broken);
      DiscardBrokenLess(s, s', b);
    } else {
      var c :| 0 <= c < |s.calls| && s.calls[c].scope == Some(b) && InProgress(s.calls[c]);
      x, s' := ReadMoves(s, c);
      CallFinishes(s, x, s', c);
    }
  }

  /** Reads of an Eager builder wait for nobody. */
  lemma EagerNotBlocked(s: State, b: BuildId, c: CallId)
    requires Inv(s) && Wf(s) && b < |s.builds| && IsEager(s, b) && c < |s.calls| && s.calls[c].scope == Some(b)
    ensures !Blocked(s, c)
  {
    hide Inv;
    CallFacts(s, c);
  }

  lemma AttemptFinishes(s: State, a: BuildId) returns (x: Action, s': State)
    requires Reachable(s) && Inv(s) && Wf(s) && NoneReleasing(s) && a in Going(s)
    requires forall e :: e in Edges(s) && e.0 == a ==> e.1 !in Going(s)
    ensures Do(s, x, s') && Finishes(s, s')
  {
    hide Reachable, Inv, Edges, OfCall, OfBuild, BuildingNext, Finishes, Reaches, NoCallsOf, BuildShape, Blocked;
    InvWf(s);
    CreatorFacts(s, a);
    ReleaseFacts(s, a);
    hide Shape;
    match s.builds[a].phase {
      case Created =>
        x, s' := JoiningMoves(s, s.builds[a].creator);
        CallFinishes(s, x, s', s.builds[a].creator);
      case Building =>
        forall c | 0 <= c < |s.calls| && s.calls[c].scope == Some(a) ensures !Blocked(s, c) { NotBlocked(s, a, c); }
        x, s' := BuilderFinishes(s, a);
      case Settled => EndedLeft(s.builds[a]); x, s' := EndingFinishes(s, a);
      case Unlisted => x, s' := EndingFinishes(s, a);
    }
  }

  lemma EndingFinishes(s: State, a: BuildId) returns (x: Action, s': State)
    requires Wf(s) && a < |s.builds| && !IsEager(s, a)
    requires (s.builds[a].phase == Settled && (s.builds[a].outcome == Published || s.builds[a].stage == Over))
             || s.builds[a].phase == Unlisted
    ensures Do(s, x, s') && Finishes(s, s')
  {
    hide Wf, BuildingNext, Finishes, OfBuild;
    var y;
    y, s' := FinishMoves(s, a);
    x := BuildingAction(y);
    PhaseLess(s, y, s');
  }

  lemma EndedLeft(x: Build)
    requires BuildShape(x) && !Releasing(x)
    ensures x.phase == Settled ==> x.outcome == Published || x.stage == Over
  {
  }

  /** As long as something is under way, some step finishes a part of it. */
  lemma FinishStep(s: State) returns (x: Action, s': State)
    requires Reachable(s) && Inv(s) && Wf(s) && !AllSettled(s)
    ensures Do(s, x, s') && Finishes(s, s')
  {
    hide Reachable, Inv, Wf, Do, Finishes, Edges, Releasing, Blocked;
    if b :| 0 <= b < |s.builds| && Releasing(s.builds[b]) {
      x, s' := ReleaseFinishes(s, b);
    } else if l :| 0 <= l < |s.leases| && s.leases[l].phase != Ended {
      x, s' := LeaseFinishes(s, l);
    } else if c :| 0 <= c < |s.calls| && s.calls[c].pc.Got? && s.calls[c].ref {
      x, s' := GotFinishes(s, c);
    } else {
      x, s' := BuildFinishes(s);
    }
  }

  lemma SinkGoing(s: State, a: BuildId) returns (e: BuildId)
    requires Reachable(s) && Wf(s) && a in Going(s)
    ensures e in Going(s) && forall w :: w in Edges(s) && w.0 == e ==> w.1 !in Going(s)
  {
    hide Reachable, Edges;
    WaitForIsAcyclic(s);
    e := SinkBelow(Edges(s), Going(s), a);
  }

  lemma BuildFinishes(s: State) returns (x: Action, s': State)
    requires Reachable(s) && Inv(s) && Wf(s) && NoneReleasing(s)
    requires exists b :: 0 <= b < |s.builds| &&
               if IsEager(s, b) then s.builds[b].phase == Building else s.builds[b].phase != Signalled
    ensures Do(s, x, s') && Finishes(s, s')
  {
    hide Reachable, Inv, Do, Finishes, Edges, Blocked, NoneReleasing;
    if b :| 0 <= b < |s.builds| && IsEager(s, b) && s.builds[b].phase == Building {
      forall c | 0 <= c < |s.calls| && s.calls[c].scope == Some(b) ensures !Blocked(s, c) { EagerNotBlocked(s, b, c); }
      x, s' := BuilderFinishes(s, b);
    } else {
      var a :| 0 <= a < |s.builds| && !IsEager(s, a) && s.builds[a].phase != Signalled;
      assert a in Going(s);
      var e := SinkGoing(s, a);
      x, s' := AttemptFinishes(s, e);
    }
  }

  /** Everything under way can be finished, with no provider losing its value or
      gaining one. */
  lemma {:induction false} Finish(s: State) returns (t: State)
    requires Reachable(s)
    ensures Leads(s, t) && Reachable(t) && Wf(t) && OnlyFinishes(s, t) && AllSettled(t)
    decreases Left(s)
  {
    hide Reachable, Inv, Wf, Do, Leads, OnlyFinishes, AllSettled, Left;
    ReachableWf(s);
    LeadsSelf(s);
    OnlyFinishesSelf(s);
    t := s;
    if !AllSettled(s) {
      var x, s' := FinishStep(s);
      Takes(s, x, s');
      t := Finish(s');
      LeadsThen(s, s', t);
      OnlyFinishesThen(s, s', t);
    }
  }
}
