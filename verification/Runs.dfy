/** The invariant holds in every state of every run. */
module Runs {
  import opened State
  import opened Steps
  import opened Keeping
  import opened KeepReading
  import opened KeepWaiting
  import opened KeepBuilding
  import opened KeepFinishing
  import opened KeepReleasing
  import opened KeepInvalidating
  import opened KeepShutting
  import opened References
  import opened Waiting

  lemma InvStart()
    ensures Inv(EMPTY)
  {
  }

  lemma ReadingKept(s: State, a: ReadingStep, s': State)
    requires Inv(s) && Wf(s) && ReadingNext(s, a, s')
    ensures Inv(s')
  {
    hide Inv, Wf, StartRead, StartFrom, AddDependent, LoadValue, Peek, Acquire, AcquireFails, KeepDep, TakeLease;
    match a {
      case DoStartRead(n, ref, bound) => KeepStartRead(s, s', n, ref, bound);
      case DoStartFrom(b, n) => KeepStartFrom(s, s', b, n);
      case DoAddDependent(c) => KeepAddDependent(s, s', c);
      case DoLoadValue(c) => KeepLook(s, s', c);
      case DoPeek(c) => KeepLook(s, s', c);
      case DoAcquire(c) => KeepAcquire(s, s', c);
      case DoAcquireFails(c) => KeepLook(s, s', c);
      case DoKeepDep(c) => KeepKeepDep(s, s', c);
      case DoTakeLease(c) => KeepTakeLease(s, s', c);
    }
  }

  lemma EnteringKept(s: State, a: EnteringStep, s': State)
    requires Inv(s) && Wf(s) && EnteringNext(s, a, s')
    ensures Inv(s')
  {
    hide Inv, Wf, EnterClosed, EnterRetry, EnterJoin, EnterCreate;
    match a {
      case DoEnterClosed(c) => KeepEnter(s, s', c);
      case DoEnterRetry(c) => KeepEnter(s, s', c);
      case DoEnterJoin(c) => KeepEnter(s, s', c);
      case DoEnterCreate(c) => KeepEnterCreate(s, s', c);
    }
  }

  lemma InvWf(s: State)
    requires Inv(s)
    ensures Wf(s) && Invariants.Shape(s)
  {
  }

  lemma WaitingKept(s: State, a: WaitingStep, s': State)
    requires Inv(s) && Wf(s) && WaitingNext(s, a, s')
    ensures Inv(s')
  {
    InvWf(s);
    hide Inv, Wf, Invariants.Shape, JoinCycle, JoinAbort, JoinWait, JoinStart, Wake, Abandon, StopWaiting, AbortReturn;
    hide EnterClosed, EnterRetry, EnterJoin;
    match a {
      case DoJoinCycle(c) => KeepEnter(s, s', c);
      case DoJoinAbort(c) => NeverAborts(s, s', c);
      case DoJoinWait(c) => KeepJoinWait(s, s', c);
      case DoJoinStart(c) => KeepJoinStart(s, s', c);
      case DoWake(c) => KeepWake(s, s', c, ErrCtx);
      case DoAbandon(c, why) => KeepWake(s, s', c, why);
      case DoStopWaiting(c) => KeepStopWaiting(s, s', c);
      case DoAbortReturn(c) => KeepWake(s, s', c, ErrCtx);
    }
  }

  lemma BuildingKept(s: State, a: BuildingStep, s': State)
    requires Inv(s) && Wf(s) && BuildingNext(s, a, s')
    ensures Inv(s')
  {
    hide Inv, Wf, Register, PublishLazy, DiscardStale, DiscardBroken, PublishEager, Unlist, Signal;
    match a {
      case DoRegister(b) => KeepRegister(s, s', b);
      case DoPublishLazy(b) => KeepPublishLazy(s, s', b);
      case DoDiscardStale(b) => KeepDiscard(s, s', b);
      case DoDiscardBroken(b) => KeepDiscard(s, s', b);
      case DoPublishEager(b) => KeepPublishEager(s, s', b);
      case DoUnlist(b) => KeepPhase(s, s', b);
      case DoSignal(b) => KeepPhase(s, s', b);
    }
  }

  lemma ReleasingKept(s: State, a: ReleasingStep, s': State)
    requires Inv(s) && Wf(s) && ReleasingNext(s, a, s')
    ensures Inv(s')
  {
    hide Inv, Wf, BeginCloser, SkipCloser, EndCloser, StartDropping;
    hide DropDep, EndRelease, EndDiscard, EndLease, DropLease;
    match a {
      case DoBeginCloser(b) => KeepClosing(s, s', b);
      case DoSkipCloser(b) => KeepClosing(s, s', b);
      case DoEndCloser(b) => KeepClosing(s, s', b);
      case DoStartDropping(b) => KeepClosing(s, s', b);
      case DoDropDep(b) => KeepDropDep(s, s', b);
      case DoEndRelease(b) => KeepEndsAt(s, s', b);
      case DoEndDiscard(b) => KeepEndsAt(s, s', b);
      case DoEndLease(l) => KeepEndLease(s, s', l);
      case DoDropLease(l) => KeepDropLease(s, s', l);
    }
  }

  lemma WalkingKept(s: State, a: WalkingStep, s': State)
    requires Inv(s) && Wf(s) && WalkingNext(s, a, s')
    ensures Inv(s')
  {
    hide Inv, Wf, Invalidate, Descend, WalkRelease, WalkReturn;
    match a {
      case DoInvalidate(n) => KeepInvalidate(s, s', n);
      case DoDescend(i, d) => KeepDescend(s, s', i, d);
      case DoWalkRelease(i) => KeepWalkRelease(s, s', i);
      case DoWalkReturn(i) => KeepWalkReturn(s, s', i);
    }
  }

  lemma ClosingKept(s: State, a: ClosingStep, s': State)
    requires Inv(s) && Wf(s) && ClosingNext(s, a, s')
    ensures Inv(s')
  {
    hide Inv, Wf, BeginClose, Cancel, Shut, ShutRelease, EndShutting, CloseOnTime;
    match a {
      case DoBeginClose => KeepBeginClose(s, s');
      case DoCancel => KeepCancel(s, s');
      case DoShut => KeepShut(s, s');
      case DoShutRelease => KeepShutRelease(s, s');
      case DoEndShutting => KeepEndShutting(s, s');
      case DoCloseOnTime => KeepEndShutting(s, s');
    }
  }

  lemma ForcingKept(s: State, a: ForcingStep, s': State)
    requires Inv(s) && Wf(s) && ForcingNext(s, a, s')
    ensures Inv(s')
  {
    hide Inv, Wf, Deadline, ForceNext, ForceBegin, ForceSkip, ForceEnd, ForceDone, CloseLate;
    match a {
      case DoDeadline => KeepDeadline(s, s');
      case DoForceNext(v) => KeepForceMove(s, s', v);
      case DoForceBegin => KeepForceCall(s, s');
      case DoForceSkip => KeepForceMove(s, s', 0);
      case DoForceEnd => KeepForceCall(s, s');
      case DoForceDone => KeepForceMove(s, s', 0);
      case DoCloseLate => KeepForceMove(s, s', 0);
    }
  }

  /** Every step of the runtime keeps the invariant. */
  lemma InvKept(s: State, a: Action, s': State)
    requires Inv(s) && Wf(s) && Do(s, a, s')
    ensures Inv(s')
  {
    hide Inv, Wf, ReadingNext, EnteringNext, WaitingNext, BuildingNext;
    hide ReleasingNext, WalkingNext, ClosingNext, ForcingNext;
    hide MakeLazy, MakeEager;
    match a {
      case MakingAction(x) =>
        match x {
          case DoMakeLazy => KeepMakeLazy(s, s');
          case DoMakeEager => KeepMakeEager(s, s');
        }
      case ReadingAction(x) => ReadingKept(s, x, s');
      case EnteringAction(x) => EnteringKept(s, x, s');
      case WaitingAction(x) => WaitingKept(s, x, s');
      case BuildingAction(x) => BuildingKept(s, x, s');
      case ReleasingAction(x) => ReleasingKept(s, x, s');
      case WalkingAction(x) => WalkingKept(s, x, s');
      case ClosingAction(x) => ClosingKept(s, x, s');
      case ForcingAction(x) => ForcingKept(s, x, s');
    }
  }

  lemma {:induction false} InvAlong(run: seq<State>, i: nat)
    requires IsRun(run) && i < |run|
    ensures Inv(run[i])
    decreases i
  {
    if i == 0 {
      InvStart();
    } else {
      InvAlong(run, i - 1);
      assert Next(run[i - 1], run[i - 1 + 1]);
      var a :| Do(run[i - 1], a, run[i]);
      InvKept(run[i - 1], a, run[i]);
    }
  }

  lemma InvReachable(s: State)
    requires Reachable(s)
    ensures Inv(s)
  {
    var run :| IsRun(run) && run[|run| - 1] == s;
    InvAlong(run, |run| - 1);
  }
}
