/** What no step ever undoes. */
module History {
  import opened State
  import opened Steps
  import opened Invariants
  import opened Keeping
  import opened KeepWaiting
  import opened KeepFinishing
  import opened Runs
  import opened Waiting
  import Cleanups
  import Shutdown
  import opened References

  /** One cleanup, before and after. */
  predicate CloserLater(x: Closer, y: Closer)
  {
    && x.runs <= y.runs
    && (x.progress != Unrun ==> y.progress != Unrun)
    && (x.progress == Ran ==> y == x)
  }

  /** One provider, before and after. */
  predicate NodeLater(x: Node, y: Node)
  {
    && y.eager == x.eager
    && (x.ready ==> y.ready)
    && (x.closed ==> y.closed)
    && x.epoch <= y.epoch
  }

  /** One build, before and after, given the epoch its provider had before. */
  ghost predicate BuildLater(x: Build, y: Build, epoch: nat)
  {
    && y.node == x.node && y.epoch == x.epoch && y.creator == x.creator
    && (x.outcome != Pending ==> y.outcome == x.outcome && y.stamp == x.stamp && y.deps == x.deps
                                 && |y.closers| == |x.closers|)
    && (x.outcome == Published && x.refs == 0 ==> y.refs == 0)
    && (x.stage == Over ==> y.stage == Over)
    && (x.phase == Signalled ==> y.phase == Signalled)
    && (x.outcome == Pending && x.epoch < epoch ==> y.outcome != Published)
    && x.deps <= y.deps
    && |x.closers| <= |y.closers|
    && (forall j :: 0 <= j < |x.closers| ==> CloserLater(x.closers[j], y.closers[j]))
  }

  ghost predicate NodesLater(s: State, s': State)
  {
    |s.nodes| <= |s'.nodes| && forall n :: 0 <= n < |s.nodes| ==> NodeLater(s.nodes[n], s'.nodes[n])
  }

  ghost predicate BuildsLater(s: State, s': State)
  {
    && |s.builds| <= |s'.builds|
    && forall b :: 0 <= b < |s.builds| && s.builds[b].node < |s.nodes| ==>
         BuildLater(s.builds[b], s'.builds[b], s.nodes[s.builds[b].node].epoch)
  }

  /** The graph's own fields. */
  ghost predicate GraphLater(s: State, s': State)
  {
    && |s.calls| <= |s'.calls| && |s.leases| <= |s'.leases|
    && (s.closed ==> s'.closed && s'.live <= s.live)
    && (s.cancelled ==> s'.cancelled)
    && (s.drained ==> s'.drained)
    && (s.forced ==> s'.forced)
    && s.clock <= s'.clock
  }

  ghost predicate Later(s: State, s': State)
  {
    NodesLater(s, s') && BuildsLater(s, s') && GraphLater(s, s')
  }

  // ---- Step by step ------------------------------------------------------

  lemma BuildingPending(s: State, b: BuildId)
    requires Shape(s) && b < |s.builds| && (s.builds[b].phase == Building || s.builds[b].phase == Created)
    ensures s.builds[b].outcome == Pending && s.builds[b].stage == Scope
  {
    assert BuildOk(s.nodes, s.builds, s.calls, s.clock, b, s.builds[b]);
  }

  lemma ReaderPending(s: State, c: CallId)
    requires Shape(s) && c < |s.calls| && s.calls[c].scope.Some? && InProgress(s.calls[c])
    ensures s.calls[c].scope.value < |s.builds| && s.builds[s.calls[c].scope.value].outcome == Pending
  {
    assert CallOk(s.nodes, s.builds, c, s.calls[c]);
    BuildingPending(s, s.calls[c].scope.value);
  }

  lemma StarterPending(s: State, c: CallId)
    requires Shape(s) && c < |s.calls| && Starts(s.calls[c])
    ensures s.calls[c].pc.a < |s.builds| && s.builds[s.calls[c].pc.a].phase == Created
  {
    assert CallOk(s.nodes, s.builds, c, s.calls[c]);
  }

  lemma MakingLater(s: State, a: MakingStep, s': State)
    requires Wf(s) && MakingNext(s, a, s')
    ensures Later(s, s') && s'.calls == s.calls
  {
    hide Shape, RefsOk;
  }

  lemma ReadingLater(s: State, a: ReadingStep, s': State)
    requires Wf(s) && Shape(s) && ReadingNext(s, a, s')
    ensures Later(s, s')
  {
    hide Shape, RefsOk;
    match a {
      case DoKeepDep(c) => ReaderPending(s, c); KeepingLater(s, s', c);
      case DoAcquire(c) => AcquiringLater(s, s', c);
      case _ => ReadingMove(s, a, s');
    }
  }

  lemma ReadingMove(s: State, a: ReadingStep, s': State)
    requires Wf(s) && ReadingNext(s, a, s')
    requires !a.DoKeepDep? && !a.DoAcquire?
    ensures Later(s, s')
  {
  }

  lemma KeepingLater(s: State, s': State, c: CallId)
    requires Wf(s) && KeepDep(s, s', c) && s.builds[s.calls[c].scope.value].outcome == Pending
    ensures Later(s, s')
  {
  }

  lemma AcquiringLater(s: State, s': State, c: CallId)
    requires Wf(s) && Acquire(s, s', c)
    ensures Later(s, s')
  {
    hide Later;
    BuildsMoved(s, s');
  }

  lemma EnteringLater(s: State, a: EnteringStep, s': State)
    requires Wf(s) && EnteringNext(s, a, s')
    ensures Later(s, s')
  {
    hide Shape, RefsOk;
  }

  lemma WaitingLater(s: State, a: WaitingStep, s': State)
    requires Wf(s) && Shape(s) && WaitingNext(s, a, s')
    ensures Later(s, s')
  {
    match a {
      case DoJoinAbort(c) => NeverAborts(s, s', c);
      case DoJoinStart(c) => StarterPending(s, c); StartingLater(s, s', c);
      case DoJoinWait(c) => JoiningLater(s, s', c);
      case DoStopWaiting(c) => StoppingLater(s, s', c);
      case _ =>
    }
    hide Shape, RefsOk;
  }

  /** Only counts, waits, phases before the signal, and stages of a build move. */
  lemma BuildsMoved(s: State, s': State)
    requires |s'.builds| == |s.builds| && s'.nodes == s.nodes && GraphLater(s, s')
    requires forall b :: 0 <= b < |s.builds| ==>
               && s'.builds[b] == s.builds[b].(waits := s'.builds[b].waits, phase := s'.builds[b].phase,
                                               refs := s'.builds[b].refs, stage := s'.builds[b].stage)
               && (s.builds[b].phase == Signalled ==> s'.builds[b].phase == Signalled)
               && (s.builds[b].stage == Over ==> s'.builds[b].stage == Over)
               && (s.builds[b].outcome == Published && s.builds[b].refs == 0 ==> s'.builds[b].refs == 0)
    ensures Later(s, s')
  {
  }

  lemma StartingLater(s: State, s': State, c: CallId)
    requires Wf(s) && JoinStart(s, s', c) && s.builds[s.calls[c].pc.a].phase == Created
    ensures Later(s, s')
  {
    hide Later, Accepted;
    BuildsMoved(s, s');
  }

  lemma JoiningLater(s: State, s': State, c: CallId)
    requires Wf(s) && JoinWait(s, s', c)
    ensures Later(s, s')
  {
    hide Later, Accepted;
    BuildsMoved(s, s');
  }

  lemma StoppingLater(s: State, s': State, c: CallId)
    requires Wf(s) && StopWaiting(s, s', c)
    ensures Later(s, s')
  {
    hide Later;
    BuildsMoved(s, s');
  }

  lemma BuildingLater(s: State, a: BuildingStep, s': State)
    requires Wf(s) && Shape(s) && BuildingNext(s, a, s')
    ensures Later(s, s') && s'.calls == s.calls
  {
    match a {
      case DoRegister(b) => BuildingPending(s, b); RegisterLater(s, s', b);
      case DoPublishLazy(b) => PublishLater(s, s', b);
      case DoDiscardStale(b) => DiscardLater(s, s', b);
      case DoDiscardBroken(b) => DiscardLater(s, s', b);
      case DoPublishEager(b) => PublishLater(s, s', b);
      case DoUnlist(b) => PhaseLater(s, s', b);
      case DoSignal(b) => PhaseLater(s, s', b);
    }
    hide Shape;
  }

  lemma RegisterLater(s: State, s': State, b: BuildId)
    requires Wf(s) && Register(s, s', b) && s.builds[b].outcome == Pending
    ensures Later(s, s') && s'.calls == s.calls
  {
    hide Wf, Later;
    OneBuildLater(s, s', b, s'.builds[b]);
  }

  lemma PhaseLater(s: State, s': State, b: BuildId)
    requires Wf(s) && (Unlist(s, s', b) || Signal(s, s', b))
    ensures Later(s, s') && s'.calls == s.calls
  {
    hide Wf, Later;
    BuildsMoved(s, s');
  }

  lemma PublishLater(s: State, s': State, b: BuildId)
    requires Wf(s) && Shape(s) && (PublishLazy(s, s', b) || PublishEager(s, s', b))
    ensures Later(s, s') && s'.calls == s.calls
  {
    hide Shape;
    BuildingPending(s, b);
    if PublishEager(s, s', b) {
      PublishEagerMay(s, b);
    }
  }

  lemma DiscardLater(s: State, s': State, b: BuildId)
    requires Wf(s) && Shape(s) && (DiscardStale(s, s', b) || DiscardBroken(s, s', b))
    ensures Later(s, s') && s'.calls == s.calls
  {
    hide Shape;
    BuildingPending(s, b);
  }

  lemma ReleasingLater(s: State, a: ReleasingStep, s': State)
    requires Wf(s) && Shape(s) && RefsOk(s) && ReleasingNext(s, a, s')
    ensures Later(s, s') && s'.calls == s.calls
  {
    hide Shape, RefsOk;
    match a {
      case DoDropDep(b) => DropDepLater(s, s', b);
      case DoDropLease(l) => DropLeaseLater(s, s', l);
      case _ => CleaningLater(s, a, s');
    }
  }

  lemma CleaningLater(s: State, a: ReleasingStep, s': State)
    requires Wf(s) && ReleasingNext(s, a, s') && !a.DoDropDep? && !a.DoDropLease?
    ensures Later(s, s') && s'.calls == s.calls
  {
    match a {
      case DoBeginCloser(b) => hide Wf, Later; OneBuildLater(s, s', b, s'.builds[b]);
      case DoEndCloser(b) => hide Wf, Later; OneBuildLater(s, s', b, s'.builds[b]);
      case _ => ListsLater(s, a, s');
    }
  }

  lemma ListsLater(s: State, a: ReleasingStep, s': State)
    requires Wf(s) && ReleasingNext(s, a, s')
    requires !a.DoDropDep? && !a.DoDropLease? && !a.DoBeginCloser? && !a.DoEndCloser?
    ensures Later(s, s') && s'.calls == s.calls
  {
    hide Wf, Later;
    match a {
      case DoEndRelease(b) => BuildsMoved(s, s');
      case DoEndLease(l) => BuildsMoved(s, s');
      case _ => StageLater(s, a, s');
    }
  }

  lemma StageLater(s: State, a: ReleasingStep, s': State)
    requires Wf(s) && ReleasingNext(s, a, s') && (a.DoSkipCloser? || a.DoStartDropping? || a.DoEndDiscard?)
    ensures Later(s, s') && s'.calls == s.calls
  {
    hide Wf, Later;
    OneBuildLater(s, s', a.b, s'.builds[a.b]);
  }

  /** One build moves on, everything else stays. */
  lemma OneBuildLater(s: State, s': State, b: BuildId, y: Build)
    requires b < |s.builds| && s' == SetBuild(s, b, y)
    requires forall epoch: nat :: BuildLater(s.builds[b], y, epoch)
    ensures Later(s, s') && s'.calls == s.calls
  {
    forall i, epoch: nat | 0 <= i < |s.builds| ensures BuildLater(s.builds[i], s'.builds[i], epoch) {
      if i != b { SelfLater(s.builds[i], epoch); }
    }
    hide BuildLater;
  }

  lemma SelfLater(x: Build, epoch: nat)
    ensures BuildLater(x, x, epoch)
  {
  }

  lemma DropDepLater(s: State, s': State, b: BuildId)
    requires Wf(s) && Shape(s) && RefsOk(s) && DropDep(s, s', b)
    ensures Later(s, s') && s'.calls == s.calls
  {
    hide Shape, RefsOk, Later;
    var k := s.builds[b].stage.left;
    HeldIsLive(s, InDeps(b, k - 1));
    DroppedLater(s, s', b, k, s.builds[b].deps[k - 1]);
  }

  lemma DroppedLater(s: State, s': State, b: BuildId, k: nat, d: BuildId)
    requires b < |s.builds| && d < |s.builds| && k > 0 && s.builds[b].stage.Dropping?
    requires s.builds[d].refs > 0 && s.builds[d].stage == Held
    requires s' == Decrement(SetStage(s, b, Dropping(k - 1, Started(s, d))), d)
    ensures Later(s, s') && s'.calls == s.calls
  {
    hide Later;
    BuildsMoved(s, s');
  }

  lemma DropLeaseLater(s: State, s': State, l: nat)
    requires Wf(s) && Shape(s) && RefsOk(s) && DropLease(s, s', l)
    ensures Later(s, s') && s'.calls == s.calls
  {
    HeldIsLive(s, InLease(l));
    hide Shape, RefsOk;
  }

  lemma WalkingLater(s: State, a: WalkingStep, s': State)
    requires Wf(s) && Shape(s) && RefsOk(s) && WalkingNext(s, a, s')
    ensures Later(s, s') && s'.calls == s.calls
  {
    match a {
      case DoInvalidate(n) => InvalidateLater(s, s', n);
      case DoDescend(i, d) => DescendLater(s, s', i, d);
      case DoWalkRelease(i) => HeldIsLive(s, InWalk(i)); WalkReleaseLater(s, s', i);
      case DoWalkReturn(i) => hide Wf;
    }
    hide Shape, RefsOk;
  }

  lemma InvalidateLater(s: State, s': State, n: NodeId)
    requires Wf(s) && Invalidate(s, s', n)
    ensures Later(s, s') && s'.calls == s.calls
  {
    hide Wf;
  }

  lemma DescendLater(s: State, s': State, i: WalkId, d: NodeId)
    requires Wf(s) && Descend(s, s', i, d)
    ensures Later(s, s') && s'.calls == s.calls
  {
    assert d < |s.nodes|;
    hide Wf, ChildDone;
  }

  lemma WalkReleaseLater(s: State, s': State, i: WalkId)
    requires Wf(s) && WalkRelease(s, s', i) && s.builds[s.walks[i].held.value].refs > 0
    requires s.builds[s.walks[i].held.value].stage == Held
    ensures Later(s, s') && s'.calls == s.calls
  {
    var g := s.walks[i].held.value;
    assert g < |s.builds|;
    hide Wf, Later, ChildDone;
    BuildsMoved(s, s');
  }

  lemma ClosingLater(s: State, a: ClosingStep, s': State)
    requires Wf(s) && Shape(s) && RefsOk(s) && ClosingNext(s, a, s')
    ensures Later(s, s') && s'.calls == s.calls
  {
    match a {
      case DoShutRelease => HeldIsLive(s, InShut); ShutReleaseLater(s, s');
      case DoShut => ShutLater(s, s');
      case _ => hide Wf;
    }
    hide Shape, RefsOk;
  }

  lemma ShutLater(s: State, s': State)
    requires Wf(s) && Shut(s, s')
    ensures Later(s, s') && s'.calls == s.calls
  {
  }

  lemma ShutReleaseLater(s: State, s': State)
    requires Wf(s) && ShutRelease(s, s') && s.builds[s.close.held.value].refs > 0
    requires s.builds[s.close.held.value].stage == Held
    ensures Later(s, s') && s'.calls == s.calls
  {
    assert s.close.held.value < |s.builds|;
    hide Wf, Later;
    BuildsMoved(s, s');
  }

  lemma ForcingLater(s: State, a: ForcingStep, s': State)
    requires Wf(s) && ForcingNext(s, a, s')
    ensures Later(s, s') && s'.calls == s.calls
  {
    hide Shape, RefsOk;
  }

  // ---- Reads --------------------------------------------------------------

  /** The value a read has found. */
  function Found(x: Call): Option<BuildId>
  {
    match x.pc
    case Claim(g) => Some(g)
    case Got(g) => Some(g)
    case _ => None
  }

  /** The read has found nothing and joined nothing so far, or was refused. */
  predicate Refused(x: Call)
  {
    x.pc == AddEdge || x.pc == Load || x.pc == Enter || x.pc == Failed(ErrClosed)
  }

  /** One read, before and after: it finds only the value that is current when
      it looks, and nothing at a closed provider. */
  ghost predicate CallLater(s: State, x: Call, y: Call)
    requires x.node < |s.nodes|
  {
    && y.node == x.node && y.scope == x.scope && y.from == x.from && y.ref == x.ref
    && (!InProgress(x) ==> y == x)
    && (Found(y).Some? ==> Found(y) == Found(x) || (x.pc == Load && Found(y) == s.nodes[x.node].val))
    && (Refused(x) && s.nodes[x.node].closed && s.nodes[x.node].val.None? ==> Refused(y))
  }

  ghost predicate CallsLater(s: State, s': State)
    requires Wf(s)
  {
    && |s.calls| <= |s'.calls|
    && (forall c :: 0 <= c < |s.calls| ==> CallLater(s, s.calls[c], s'.calls[c]))
    && (forall c :: |s.calls| <= c < |s'.calls| ==> s'.calls[c].pc == Load || s'.calls[c].pc == AddEdge)
  }

  lemma OneCall(s: State, s': State, c: CallId)
    requires Wf(s) && c < |s.calls| && c < |s'.calls| && s'.calls == s.calls[c := s'.calls[c]]
    requires CallLater(s, s.calls[c], s'.calls[c])
    ensures CallsLater(s, s')
  {
  }

  lemma ReadingCalls(s: State, a: ReadingStep, s': State)
    requires Wf(s) && ReadingNext(s, a, s')
    ensures CallsLater(s, s')
  {
    match a {
      case DoAddDependent(c) => hide CallsLater; OneCall(s, s', c);
      case DoLoadValue(c) => hide CallsLater; OneCall(s, s', c);
      case DoPeek(c) => hide CallsLater; OneCall(s, s', c);
      case DoStartRead(_, _, _) =>
      case DoStartFrom(_, _) =>
      case _ => TakingCalls(s, a, s');
    }
  }

  lemma TakingCalls(s: State, a: ReadingStep, s': State)
    requires Wf(s) && ReadingNext(s, a, s')
    requires a.DoAcquire? || a.DoAcquireFails? || a.DoKeepDep? || a.DoTakeLease?
    ensures CallsLater(s, s')
  {
    hide CallsLater;
    OneCall(s, s', a.c);
  }

  lemma EnteringCalls(s: State, a: EnteringStep, s': State)
    requires Wf(s) && EnteringNext(s, a, s')
    ensures CallsLater(s, s')
  {
  }

  lemma WaitingCalls(s: State, a: WaitingStep, s': State)
    requires Wf(s) && WaitingNext(s, a, s')
    ensures CallsLater(s, s')
  {
    if a.DoStopWaiting? {
      StoppingCalls(s, s', a.c);
    } else if a.DoJoinWait? || a.DoJoinStart? {
      JoiningCalls(s, a, s');
    } else {
      hide CallsLater;
      OneCall(s, s', a.c);
    }
  }

  lemma StoppingCalls(s: State, s': State, c: CallId)
    requires Wf(s) && StopWaiting(s, s', c)
    ensures CallsLater(s, s')
  {
    hide CallsLater;
    OneCall(s, s', c);
  }

  lemma JoiningCalls(s: State, a: WaitingStep, s': State)
    requires Wf(s) && WaitingNext(s, a, s') && (a.DoJoinWait? || a.DoJoinStart?)
    ensures CallsLater(s, s')
  {
    hide CallsLater, Accepted;
    OneCall(s, s', a.c);
  }

  /** What no step ever undoes. */
  lemma NextLater(s: State, s': State)
    requires Reachable(s) && Next(s, s')
    ensures Later(s, s') && CallsLater(s, s')
  {
    hide Inv, Reachable, Next;
    InvReachable(s);
    StepLater(s, s');
  }

  lemma StepLater(s: State, s': State)
    requires Inv(s) && Next(s, s')
    ensures Later(s, s') && CallsLater(s, s')
  {
    hide Shape, RefsOk, FreshWhileOpen, WaitsOk, Cleanups.ClosersOk, AwaitsOk, Shutdown.CloseOk;
    hide MakingNext, ReadingNext, EnteringNext, WaitingNext, BuildingNext;
    hide ReleasingNext, WalkingNext, ClosingNext, ForcingNext;
    var a :| Do(s, a, s');
    match a {
      case MakingAction(x) => MakingLater(s, x, s');
      case ReadingAction(x) => ReadingLater(s, x, s'); ReadingCalls(s, x, s');
      case EnteringAction(x) => EnteringLater(s, x, s'); EnteringCalls(s, x, s');
      case WaitingAction(x) => WaitingLater(s, x, s'); WaitingCalls(s, x, s');
      case BuildingAction(x) => BuildingLater(s, x, s');
      case ReleasingAction(x) => ReleasingLater(s, x, s');
      case WalkingAction(x) => WalkingLater(s, x, s');
      case ClosingAction(x) => ClosingLater(s, x, s');
      case ForcingAction(x) => ForcingLater(s, x, s');
    }
  }
}
