/** Releases are calls: whoever lets go of the last reference to a value goes on
    only when that value's cleanups, and all they set off, are over. */
module Cascades {
  import opened State
  import opened Steps
  import opened Invariants
  import opened References
  import opened Waiting
  import opened Keeping
  import opened Runs
  import opened History
  import opened Consistency
  import opened Lifetimes
  import opened ReadsOverRuns
  import opened Agenda
  import opened Invalidations
  import opened Draining
  import KeepWaiting
  import Cleanups

  /** Who releases: the cascade of a build, an invalidation, or Close. */
  datatype Releaser = Cascade(b: BuildId) | Invalidation(i: WalkId) | Shutdown

  /** In this step r gives back a reference to g. */
  ghost predicate GivesBack(s: State, s': State, r: Releaser, g: BuildId)
    requires Wf(s)
  {
    match r
    case Cascade(b) => DropDep(s, s', b) && g == s.builds[b].deps[s.builds[b].stage.left - 1]
    case Invalidation(i) => WalkRelease(s, s', i) && s.walks[i].held == Some(g)
    case Shutdown => ShutRelease(s, s') && s.close.held == Some(g)
  }

  /** In this step r goes on: with the next reference, the next provider, or its
      end. */
  ghost predicate GoesOn(s: State, s': State, r: Releaser)
    requires Wf(s)
  {
    match r
    case Cascade(b) => DropDep(s, s', b) || EndRelease(s, s', b) || EndDiscard(s, s', b)
    case Invalidation(i) => WalkReturn(s, s', i)
    case Shutdown => Shut(s, s') || EndShutting(s, s')
  }

  predicate IsOver(s: State, g: BuildId)
  {
    g < |s.builds| && s.builds[g].stage.Over?
  }

  /** r has given back its reference to g and waits for the cleanup this started. */
  predicate Awaiting(s: State, r: Releaser, g: BuildId)
  {
    match r
    case Cascade(b) =>
      b < |s.builds| && s.builds[b].stage.Dropping? && s.builds[b].stage.await == Some(g)
    case Invalidation(i) => i < |s.walks| && s.walks[i].held.None? && s.walks[i].await == Some(g)
    case Shutdown => s.close.Shutting? && s.close.held.None? && s.close.await == Some(g)
  }

  lemma DropDepAwaits(s: State, s': State, b: BuildId)
    requires Wf(s) && DropDep(s, s', b) && s.builds[b].deps[s.builds[b].stage.left - 1] < |s.builds|
    requires s.builds[s.builds[b].deps[s.builds[b].stage.left - 1]].stage == Held
    requires s.builds[s.builds[b].deps[s.builds[b].stage.left - 1]].refs == 1
    ensures Awaiting(s', Cascade(b), s.builds[b].deps[s.builds[b].stage.left - 1])
  {
    hide Wf;
    var k := s.builds[b].stage.left;
    var d := s.builds[b].deps[k - 1];
    var t := SetStage(s, b, Dropping(k - 1, Started(s, d)));
    DecrementStage(t, d, b);
  }

  lemma CascadeHeld(s: State, b: BuildId)
    requires Inv(s) && b < |s.builds|
    requires s.builds[b].stage.Dropping? && 1 <= s.builds[b].stage.left <= |s.builds[b].deps|
    ensures s.builds[b].deps[s.builds[b].stage.left - 1] < |s.builds|
    ensures s.builds[s.builds[b].deps[s.builds[b].stage.left - 1]].stage == Held
  {
    hide Inv;
    HeldPlace(s, InDeps(b, s.builds[b].stage.left - 1));
  }

  lemma CascadeAwaits(s: State, s': State, b: BuildId)
    requires Inv(s) && Wf(s) && DropDep(s, s', b)
    requires var g := s.builds[b].deps[s.builds[b].stage.left - 1]; g < |s.builds| && s.builds[g].refs == 1
    ensures Awaiting(s', Cascade(b), s.builds[b].deps[s.builds[b].stage.left - 1])
  {
    hide Inv, Wf, Awaiting;
    CascadeHeld(s, b);
    hide DropDep;
    DropDepAwaits(s, s', b);
  }

  lemma GivesBackAwaits(s: State, s': State, r: Releaser, g: BuildId)
    requires Inv(s) && Wf(s) && GivesBack(s, s', r, g) && g < |s.builds| && s.builds[g].refs == 1
    ensures Awaiting(s', r, g)
  {
    hide Inv, Wf, ChildDone, DropDep;
    match r {
      case Cascade(b) => hide Awaiting; CascadeAwaits(s, s', b);
      case Invalidation(i) =>
      case Shutdown =>
    }
  }

  lemma GoesOnOver(s: State, s': State, r: Releaser, g: BuildId)
    requires Wf(s) && GoesOn(s, s', r) && Awaiting(s, r, g)
    ensures IsOver(s, g)
  {
    assert g < |s.builds|;
    hide ChildDone;
  }

  // ---- Nobody else moves a release --------------------------------------------------------

  ghost predicate SameStage(s: State, s': State, b: BuildId)
    requires b < |s.builds|
  {
    b < |s'.builds| && s'.builds[b].stage == s.builds[b].stage
  }

  lemma MakingStage(s: State, a: MakingStep, s': State, b: BuildId)
    requires Wf(s) && MakingNext(s, a, s') && b < |s.builds|
    ensures SameStage(s, s', b)
  {
    hide Wf;
  }

  lemma ReadingStage(s: State, a: ReadingStep, s': State, b: BuildId)
    requires Wf(s) && ReadingNext(s, a, s') && b < |s.builds|
    ensures SameStage(s, s', b)
  {
  }

  lemma EnteringStage(s: State, a: EnteringStep, s': State, b: BuildId)
    requires Wf(s) && EnteringNext(s, a, s') && b < |s.builds|
    ensures SameStage(s, s', b)
  {
    hide Wf;
  }

  lemma WaitingStage(s: State, a: WaitingStep, s': State, b: BuildId)
    requires Wf(s) && WaitingNext(s, a, s') && b < |s.builds| && !a.DoJoinAbort?
    ensures SameStage(s, s', b)
  {
    if a.DoJoinWait? || a.DoJoinStart? {
      JoiningStage(s, a, s', b);
    } else if a.DoStopWaiting? {
      StoppingStage(s, s', a.c, b);
    } else {
      hide Wf, Accepted, Paths.Reaches, Edges;
    }
  }

  lemma JoiningStage(s: State, a: WaitingStep, s': State, b: BuildId)
    requires Wf(s) && WaitingNext(s, a, s') && b < |s.builds| && (a.DoJoinWait? || a.DoJoinStart?)
    ensures SameStage(s, s', b)
  {
    assert CallWf(s.calls[a.c], s);
    hide Wf, Accepted;
  }

  lemma StoppingStage(s: State, s': State, c: CallId, b: BuildId)
    requires Wf(s) && StopWaiting(s, s', c) && b < |s.builds|
    ensures SameStage(s, s', b)
  {
    assert CallWf(s.calls[c], s);
    hide Wf;
  }

  lemma BuildingStage(s: State, a: BuildingStep, s': State, b: BuildId)
    requires Wf(s) && BuildingNext(s, a, s') && b < |s.builds| && s.builds[b].phase != Building
    ensures SameStage(s, s', b)
  {
    assert a.b < |s.builds|;
    WfBuilds(s, a.b);
    hide NoCallsOf, Wf;
  }

  /** A release of g moves no other build on, and not one that is dropping. */
  lemma DecrementStage(s: State, g: BuildId, b: BuildId)
    requires g < |s.builds| && s.builds[g].stage == Held && b < |s.builds| && s.builds[b].stage.Dropping?
    ensures SameStage(s, Decrement(s, g), b)
  {
  }

  lemma ReleasingStage(s: State, a: ReleasingStep, s': State, b: BuildId)
    requires Inv(s) && Wf(s) && ReleasingNext(s, a, s') && b < |s.builds| && s.builds[b].stage.Dropping?
    ensures SameStage(s, s', b) || GoesOn(s, s', Cascade(b))
  {
    hide SameStage, Inv, Wf, GoesOn, DropDep, DropLease;
    match a {
      case DoDropDep(x) => if x == b { DropDepGoesOn(s, s', b); } else { DropDepApart(s, s', x, b); }
      case DoDropLease(l) => DropLeaseStage(s, s', l, b);
      case _ => PlainStage(s, a, s', b);
    }
  }

  lemma DropDepGoesOn(s: State, s': State, b: BuildId)
    requires Wf(s) && DropDep(s, s', b)
    ensures GoesOn(s, s', Cascade(b))
  {
    hide Wf, DropDep;
  }

  lemma DropLeaseStage(s: State, s': State, l: nat, b: BuildId)
    requires Inv(s) && Wf(s) && DropLease(s, s', l) && b < |s.builds| && s.builds[b].stage.Dropping?
    ensures SameStage(s, s', b)
  {
    hide Inv;
    HeldPlace(s, InLease(l));
    hide Wf;
  }

  lemma DropDepApart(s: State, s': State, x: BuildId, b: BuildId)
    requires Inv(s) && Wf(s) && DropDep(s, s', x) && b < |s.builds| && s.builds[b].stage.Dropping? && x != b
    ensures SameStage(s, s', b)
  {
    hide Inv;
    HeldPlace(s, InDeps(x, s.builds[x].stage.left - 1));
    hide DropDep, Wf;
    DropDepStage(s, s', x, b);
  }

  lemma DropDepStage(s: State, s': State, x: BuildId, b: BuildId)
    requires Wf(s) && DropDep(s, s', x) && b < |s.builds| && s.builds[b].stage.Dropping? && x != b
    requires s.builds[x].deps[s.builds[x].stage.left - 1] < |s.builds|
    requires s.builds[s.builds[x].deps[s.builds[x].stage.left - 1]].stage == Held
    ensures SameStage(s, s', b)
  {
    var k := s.builds[x].stage.left;
    var d := s.builds[x].deps[k - 1];
    assert d < |s.builds|;
    hide Wf;
    DecrementStage(SetStage(s, x, Dropping(k - 1, Started(s, d))), d, b);
  }

  lemma PlainStage(s: State, a: ReleasingStep, s': State, b: BuildId)
    requires Wf(s) && ReleasingNext(s, a, s') && !a.DoDropDep? && !a.DoDropLease?
    requires b < |s.builds| && s.builds[b].stage.Dropping?
    ensures SameStage(s, s', b) || GoesOn(s, s', Cascade(b))
  {
    hide Wf;
  }

  lemma WalkingStage(s: State, a: WalkingStep, s': State, b: BuildId)
    requires Inv(s) && Wf(s) && WalkingNext(s, a, s') && b < |s.builds| && s.builds[b].stage.Dropping?
    ensures SameStage(s, s', b)
  {
    if a.DoWalkRelease? { HeldPlace(s, InWalk(a.i)); }
    hide Inv;
    WalkingStageAt(s, a, s', b);
  }

  lemma WalkingStageAt(s: State, a: WalkingStep, s': State, b: BuildId)
    requires Wf(s) && WalkingNext(s, a, s') && b < |s.builds| && s.builds[b].stage.Dropping?
    requires a.DoWalkRelease? ==> s.builds[s.walks[a.i].held.value].stage == Held
    ensures SameStage(s, s', b)
  {
    hide ChildDone;
  }

  lemma ClosingStage(s: State, a: ClosingStep, s': State, b: BuildId)
    requires Inv(s) && Wf(s) && ClosingNext(s, a, s') && b < |s.builds| && s.builds[b].stage.Dropping?
    ensures SameStage(s, s', b)
  {
    if a.DoShutRelease? { HeldPlace(s, InShut); }
    hide Inv;
  }

  lemma ForcingStage(s: State, a: ForcingStep, s': State, b: BuildId)
    requires Wf(s) && ForcingNext(s, a, s') && b < |s.builds|
    ensures SameStage(s, s', b)
  {
  }

  lemma StepStage(s: State, a: Action, s': State, b: BuildId)
    requires Inv(s) && Wf(s) && Do(s, a, s') && b < |s.builds| && s.builds[b].stage.Dropping?
    ensures SameStage(s, s', b) || GoesOn(s, s', Cascade(b))
  {
    BuildFacts(s, b);
    InvWf(s);
    hide Inv, Wf, Shape, SameStage, GoesOn;
    hide MakingNext, ReadingNext, EnteringNext, WaitingNext, BuildingNext;
    hide ReleasingNext, WalkingNext, ClosingNext, ForcingNext;
    match a {
      case MakingAction(x) => MakingStage(s, x, s', b);
      case ReadingAction(x) => ReadingStage(s, x, s', b);
      case EnteringAction(x) => EnteringStage(s, x, s', b);
      case WaitingAction(x) => WaitStage(s, x, s', b);
      case BuildingAction(x) => BuildingStage(s, x, s', b);
      case ReleasingAction(x) => ReleasingStage(s, x, s', b);
      case WalkingAction(x) => WalkingStage(s, x, s', b);
      case ClosingAction(x) => ClosingStage(s, x, s', b);
      case ForcingAction(x) => ForcingStage(s, x, s', b);
    }
  }

  lemma WaitStage(s: State, x: WaitingStep, s': State, b: BuildId)
    requires Shape(s) && Wf(s) && WaitingNext(s, x, s') && b < |s.builds|
    ensures SameStage(s, s', b)
  {
    hide Wf, Shape, SameStage;
    if x.DoJoinAbort? {
      KeepWaiting.NeverAborts(s, s', x.c);
    } else {
      hide WaitingNext;
      WaitingStage(s, x, s', b);
    }
  }

  lemma WalkingAwaitsOn(s: State, a: WalkingStep, s': State, i: WalkId, g: BuildId)
    requires Wf(s) && WalkingNext(s, a, s') && Awaiting(s, Invalidation(i), g)
    ensures Awaiting(s', Invalidation(i), g)
  {
    assert a.DoDescend? ==> a.d < |s.nodes|;
    hide Wf, ChildDone;
  }

  lemma StepWalkAwaits(s: State, a: Action, s': State, i: WalkId, g: BuildId)
    requires Wf(s) && Do(s, a, s') && Awaiting(s, Invalidation(i), g)
    ensures Awaiting(s', Invalidation(i), g)
  {
    hide Wf, SameDoors;
    hide MakingNext, ReadingNext, EnteringNext, WaitingNext, BuildingNext;
    hide ReleasingNext, WalkingNext, ClosingNext, ForcingNext;
    match a {
      case MakingAction(x) => MakingWalks(s, x, s');
      case ReadingAction(x) => ReadingAside(s, x, s');
      case EnteringAction(x) => EnteringAside(s, x, s');
      case WaitingAction(x) => WaitingAside(s, x, s');
      case BuildingAction(x) => BuildingWalks(s, x, s');
      case ReleasingAction(x) => ReleasingAside(s, x, s');
      case WalkingAction(x) => WalkingAwaitsOn(s, x, s', i, g);
      case ClosingAction(x) => ClosingMembers(s, x, s');
      case ForcingAction(x) => ForcingMembers(s, x, s');
    }
  }

  lemma MakingClose(s: State, a: MakingStep, s': State)
    requires Wf(s) && MakingNext(s, a, s')
    ensures s'.close == s.close
  {
    hide Wf;
  }

  lemma BuildingClose(s: State, a: BuildingStep, s': State)
    requires Wf(s) && BuildingNext(s, a, s')
    ensures s'.close == s.close
  {
    hide NoCallsOf;
  }

  lemma ClosingGoesOn(s: State, a: ClosingStep, s': State, g: BuildId)
    requires Wf(s) && ClosingNext(s, a, s') && Awaiting(s, Shutdown, g) && s.closed
    ensures GoesOn(s, s', Shutdown)
  {
    hide Wf;
  }

  lemma StepCloseAwaits(s: State, a: Action, s': State, g: BuildId)
    requires Wf(s) && Do(s, a, s') && Awaiting(s, Shutdown, g) && s.closed
    ensures Awaiting(s', Shutdown, g) || GoesOn(s, s', Shutdown)
  {
    hide Wf, SameDoors, GoesOn;
    hide MakingNext, ReadingNext, EnteringNext, WaitingNext, BuildingNext;
    hide ReleasingNext, WalkingNext, ClosingNext, ForcingNext;
    match a {
      case MakingAction(x) => MakingClose(s, x, s');
      case ReadingAction(x) => ReadingAside(s, x, s');
      case EnteringAction(x) => EnteringAside(s, x, s');
      case WaitingAction(x) => WaitingAside(s, x, s');
      case BuildingAction(x) => BuildingClose(s, x, s');
      case ReleasingAction(x) => ReleasingAside(s, x, s');
      case WalkingAction(x) => WalkingDoors(s, x, s');
      case ClosingAction(x) => ClosingGoesOn(s, x, s', g);
      case ForcingAction(x) => ForcingMembers(s, x, s');
    }
  }

  // ---- Over a run -----------------------------------------------------------------------------

  lemma StepAwaits(s: State, a: Action, s': State, r: Releaser, g: BuildId)
    requires Inv(s) && Wf(s) && Do(s, a, s') && Awaiting(s, r, g)
    ensures Awaiting(s', r, g) || IsOver(s, g)
  {
    hide Inv, Wf, Do, GoesOn, IsOver;
    match r {
      case Cascade(b) => StepStage(s, a, s', b);
      case Invalidation(i) => hide Awaiting; StepWalkAwaits(s, a, s', i, g);
      case Shutdown => CloseFacts(s); hide Awaiting; StepCloseAwaits(s, a, s', g);
    }
    if GoesOn(s, s', r) { GoesOnOver(s, s', r, g); }
  }

  lemma OverStays(s: State, s': State, g: BuildId)
    requires Wf(s) && Later(s, s') && IsOver(s, g)
    ensures IsOver(s', g)
  {
    WfBuilds(s, g);
    assert BuildLater(s.builds[g], s'.builds[g], s.nodes[s.builds[g].node].epoch);
    hide Wf, BuildsLater;
  }

  lemma {:induction false} AwaitsOrOver(run: seq<State>, j: nat, k: nat, r: Releaser, g: BuildId)
    requires IsRun(run) && j <= k < |run| && Awaiting(run[j], r, g)
    ensures Awaiting(run[k], r, g) || IsOver(run[k], g)
    decreases k
  {
    hide Inv, Do, Later, CallsLater, Awaiting, IsOver, Wf;
    if j < k {
      AwaitsOrOver(run, j, k - 1, r, g);
      RunLater(run, k - 1);
      assert Next(run[k - 1], run[k - 1 + 1]);
      var a :| Do(run[k - 1], a, run[k]);
      if Awaiting(run[k - 1], r, g) { StepAwaits(run[k - 1], a, run[k], r, g); }
      if IsOver(run[k - 1], g) { OverStays(run[k - 1], run[k], g); }
    }
  }

  /** Whoever gives back the last reference to g, a cascade, an invalidation or Close,
      goes on only after g's cleanups and all they set off are over. */
  lemma LastReleaseIsACall(run: seq<State>, j: nat, k: nat, r: Releaser, g: BuildId)
    requires IsRun(run) && j < k < |run| - 1 && Wf(run[j]) && Wf(run[k])
    requires GivesBack(run[j], run[j + 1], r, g) && g < |run[j].builds| && run[j].builds[g].refs == 1
    requires GoesOn(run[k], run[k + 1], r)
    ensures g < |run[k].builds| && run[k].builds[g].stage == Over
  {
    hide Inv, Next, Later, CallsLater, GoesOn, GivesBack, Awaiting, Wf;
    RunLater(run, j);
    GivesBackAwaits(run[j], run[j + 1], r, g);
    AwaitsOrOver(run, j + 1, k, r, g);
    if Awaiting(run[k], r, g) { GoesOnOver(run[k], run[k + 1], r, g); }
  }
}
