/** The cleanups of one build are called last registered first, by its own release
    and by a forced close alike. */
module CloserOrder {
  import opened State
  import opened Steps
  import opened Invariants
  import opened Cleanups
  import opened Shutdown
  import opened Keeping
  import opened Runs
  import opened History
  import opened Lifetimes
  import opened ReadsOverRuns
  import opened Draining
  import References
  import Waiting

  /** Without a forced close, when a cleanup has begun, all registered after it have
      run to their ends. */
  lemma LastRegisteredFirst(s: State, b: BuildId, i: nat, j: nat)
    requires Reachable(s) && !s.forced && b < |s.builds| && i < j < |s.builds[b].closers|
    requires s.builds[b].closers[i].progress != Unrun
    ensures s.builds[b].closers[j] == Closer(Ran, 1)
  {
    hide Inv, Reachable;
    InvReachable(s);
    BuildFacts(s, b);
    assert CloserOk(b, s.builds[b], s.forced, s.close, i);
    assert CloserOk(b, s.builds[b], s.forced, s.close, j);
  }

  // ---- In a forced close ---------------------------------------------------------------

  /** The cleanups a forced close has passed have begun. */
  ghost predicate ForcedFrom(close: Closing, builds: seq<Build>)
  {
    close.Forcing? && close.on.Some? ==>
      && close.on.value < |builds|
      && StartedFrom(builds[close.on.value], if close.calling then close.left - 1 else close.left)
  }

  lemma ForcingFrom(s: State, a: ForcingStep, s': State)
    requires Wf(s) && ForcingNext(s, a, s') && ForcedFrom(s.close, s.builds)
    ensures ForcedFrom(s'.close, s'.builds)
  {
    if a.DoForceBegin? || a.DoForceEnd? {
      CallingFrom(s, a, s');
    } else {
      MovingFrom(s, a, s');
    }
  }

  lemma CallingFrom(s: State, a: ForcingStep, s': State)
    requires Wf(s) && ForcingNext(s, a, s') && ForcedFrom(s.close, s.builds) && (a.DoForceBegin? || a.DoForceEnd?)
    ensures ForcedFrom(s'.close, s'.builds)
  {
    hide Wf;
  }

  lemma MovingFrom(s: State, a: ForcingStep, s': State)
    requires Wf(s) && ForcingNext(s, a, s') && ForcedFrom(s.close, s.builds) && !a.DoForceBegin? && !a.DoForceEnd?
    ensures ForcedFrom(s'.close, s'.builds)
  {
  }

  lemma FromLater(s: State, s': State)
    requires Wf(s) && BuildsLater(s, s') && ForcedFrom(s.close, s.builds) && s'.close == s.close
    requires ForceOk(s.builds, s.forced, s.close)
    ensures ForcedFrom(s'.close, s'.builds)
  {
    if s.close.Forcing? && s.close.on.Some? {
      var v := s.close.on.value;
      WfBuilds(s, v);
      FromLaterAt(s.builds[v], s'.builds[v], s.nodes[s.builds[v].node].epoch,
                  if s.close.calling then s.close.left - 1 else s.close.left);
    }
  }

  lemma FromLaterAt(x: Build, y: Build, epoch: nat, k: int)
    requires BuildLater(x, y, epoch) && StartedFrom(x, k) && x.outcome != Pending
    ensures StartedFrom(y, k)
  {
    forall j | 0 <= j < |y.closers| && k <= j ensures y.closers[j].progress != Unrun {
      assert CloserLater(x.closers[j], y.closers[j]);
    }
  }

  lemma ClosingUnforced(s: State, a: ClosingStep, s': State)
    requires Wf(s) && ClosingNext(s, a, s') && CloseOk(s)
    ensures !s.close.Forcing? && !s'.close.Forcing?
  {
    hide Wf;
  }

  /** Only its own steps move a forced close. */
  lemma OthersDoNotForce(s: State, a: Action, s': State)
    requires Wf(s) && Do(s, a, s') && CloseOk(s) && Drains(s) && !a.ForcingAction?
    ensures s'.close.Forcing? ==> s'.close == s.close
  {
    hide Wf, CloseOk;
    hide MakingNext, ReadingNext, EnteringNext, WaitingNext, BuildingNext, ReleasingNext, WalkingNext, ClosingNext;
    match a {
      case MakingAction(x) => MakingLists(s, x, s');
      case ReadingAction(x) => ReadingLists(s, x, s');
      case EnteringAction(x) => EnteringLists(s, x, s');
      case WaitingAction(x) => WaitingLists(s, x, s');
      case BuildingAction(x) => BuildingLists(s, x, s');
      case ReleasingAction(x) => ReleasingLists(s, x, s');
      case WalkingAction(x) => WalkingLists(s, x, s');
      case ClosingAction(x) => ClosingUnforced(s, x, s');
    }
  }

  lemma StepFrom(s: State, a: Action, s': State)
    requires Wf(s) && Do(s, a, s') && CloseOk(s) && Drains(s) && BuildsLater(s, s')
    requires ForceOk(s.builds, s.forced, s.close) && ForcedFrom(s.close, s.builds)
    ensures ForcedFrom(s'.close, s'.builds)
  {
    hide Wf, CloseOk, BuildsLater, ForceOk, StartedFrom, ForcingNext;
    if a.ForcingAction? {
      ForcingFrom(s, a.forcing, s');
    } else {
      OthersDoNotForce(s, a, s');
      hide Do;
      if s'.close == s.close { FromLater(s, s'); }
    }
  }

  lemma ForceFacts(s: State)
    requires Inv(s)
    ensures ForceOk(s.builds, s.forced, s.close)
  {
    hide CloserOk;
  }

  lemma {:induction false} FromAlong(run: seq<State>, k: nat)
    requires IsRun(run) && k < |run|
    ensures ForcedFrom(run[k].close, run[k].builds)
    decreases k
  {
    hide Inv, Do, CallsLater, NodesLater, GraphLater, BuildsLater, StartedFrom;
    if k > 0 {
      FromAlong(run, k - 1);
      RunLater(run, k - 1);
      CloseFacts(run[k - 1]);
      ForceFacts(run[k - 1]);
      DrainsAlong(run, k - 1);
      assert Next(run[k - 1], run[k - 1 + 1]);
      var a :| Do(run[k - 1], a, run[k]);
      hide CloseOk, ForceOk, Drains, ForcedFrom;
      StepFrom(run[k - 1], a, run[k]);
    }
  }

  /** When a forced close calls a cleanup, all registered after it have begun: the
      forced close called them, or their own release did. */
  lemma ForcedLastFirst(s: State, s': State, b: BuildId, i: nat, j: nat)
    requires Reachable(s) && Wf(s) && ForceBegin(s, s')
    requires b < |s.builds| && b < |s'.builds| && i < j < |s.builds[b].closers| && i < |s'.builds[b].closers|
    requires s.builds[b].closers[i].progress == Unrun && s'.builds[b].closers[i].progress != Unrun
    ensures s.builds[b].closers[j].progress != Unrun
  {
    var run :| IsRun(run) && run[|run| - 1] == s;
    FromAlong(run, |run| - 1);
    hide Wf, IsRun;
    assert b == s.close.on.value && i == s.close.left - 1;
  }
}
