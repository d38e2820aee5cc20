/** Why a build goes to waste: finish rejects the value of a builder that succeeded
    only if the graph was closed or the provider invalidated meanwhile. */
module Waste {
  import opened Paths
  import opened State
  import opened Steps
  import opened Invariants
  import opened References
  import opened Waiting
  import opened Keeping
  import opened Runs
  import opened History
  import opened Consistency
  import opened ReadsOverRuns
  import Cleanups
  import Shutdown
  import KeepWaiting

  ghost predicate SameOutcomes(s: State, s': State)
  {
    |s.builds| <= |s'.builds| && forall b :: 0 <= b < |s.builds| ==> s'.builds[b].outcome == s.builds[b].outcome
  }

  lemma MakingOutcomes(s: State, a: MakingStep, s': State)
    requires Wf(s) && MakingNext(s, a, s')
    ensures SameOutcomes(s, s')
    ensures forall b :: |s.builds| <= b < |s'.builds| ==> s'.builds[b].outcome == Pending
  {
    hide Wf;
  }

  lemma ReadingOutcomes(s: State, a: ReadingStep, s': State)
    requires Wf(s) && ReadingNext(s, a, s')
    ensures SameOutcomes(s, s') && |s'.builds| == |s.builds|
  {
  }

  lemma EnteringOutcomes(s: State, a: EnteringStep, s': State)
    requires Wf(s) && EnteringNext(s, a, s')
    ensures SameOutcomes(s, s')
    ensures forall b :: |s.builds| <= b < |s'.builds| ==> s'.builds[b].outcome == Pending
  {
    hide Wf;
  }

  lemma WaitingOutcomes(s: State, a: WaitingStep, s': State)
    requires Wf(s) && WaitingNext(s, a, s') && !a.DoJoinAbort?
    ensures SameOutcomes(s, s') && |s'.builds| == |s.builds|
  {
    hide Accepted, Reaches, Edges;
  }

  lemma ReleasingOutcomes(s: State, a: ReleasingStep, s': State)
    requires Wf(s) && ReleasingNext(s, a, s')
    ensures SameOutcomes(s, s') && |s'.builds| == |s.builds|
  {
  }

  lemma WalkingOutcomes(s: State, a: WalkingStep, s': State)
    requires Wf(s) && WalkingNext(s, a, s')
    ensures SameOutcomes(s, s') && |s'.builds| == |s.builds|
  {
    hide ChildDone;
  }

  lemma ClosingOutcomes(s: State, a: ClosingStep, s': State)
    requires Wf(s) && ClosingNext(s, a, s')
    ensures SameOutcomes(s, s') && |s'.builds| == |s.builds|
  {
  }

  lemma ForcingOutcomes(s: State, a: ForcingStep, s': State)
    requires Wf(s) && ForcingNext(s, a, s')
    ensures SameOutcomes(s, s') && |s'.builds| == |s.builds|
  {
  }

  /** The graph has been closed, or the provider invalidated, since b began. */
  ghost predicate Overdue(s: State, b: BuildId)
  {
    s.closed
    || (b < |s.builds| && s.builds[b].node < |s.nodes| && s.builds[b].epoch < s.nodes[s.builds[b].node].epoch)
  }

  /** No attempt is stale without a reason. */
  ghost predicate WasteOk(s: State)
  {
    forall b :: 0 <= b < |s.builds| && s.builds[b].outcome == Stale ==> Overdue(s, b)
  }

  lemma OverdueStays(s: State, s': State, b: BuildId)
    requires Wf(s) && Later(s, s') && b < |s.builds| && Overdue(s, b)
    ensures Overdue(s', b)
  {
    WfBuilds(s, b);
    assert BuildLater(s.builds[b], s'.builds[b], s.nodes[s.builds[b].node].epoch);
    hide Wf, BuildsLater;
  }

  lemma SameOutcomesWaste(s: State, s': State)
    requires Wf(s) && Later(s, s') && WasteOk(s) && SameOutcomes(s, s')
    requires forall b :: |s.builds| <= b < |s'.builds| ==> s'.builds[b].outcome == Pending
    ensures WasteOk(s')
  {
    hide Wf, Later, Overdue;
    forall b | 0 <= b < |s'.builds| && s'.builds[b].outcome == Stale ensures Overdue(s', b) {
      OverdueStays(s, s', b);
    }
  }

  lemma BuildingOutcomes(s: State, a: BuildingStep, s': State)
    requires Wf(s) && BuildingNext(s, a, s') && (forall b :: 0 <= b < |s.builds| ==> EpochOk(s, b))
    ensures |s'.builds| == |s.builds|
    ensures forall b :: 0 <= b < |s.builds| && s'.builds[b].outcome == Stale ==>
              s.builds[b].outcome == Stale || Overdue(s, b)
  {
    assert a.b < |s.builds| && EpochOk(s, a.b);
    hide Wf, NoCallsOf;
  }

  /** A provider is only shut on a closed graph, and its attempts began at an epoch
      it has had. */
  ghost predicate EpochOk(s: State, b: BuildId)
    requires b < |s.builds|
  {
    && s.builds[b].node < |s.nodes|
    && s.builds[b].epoch <= s.nodes[s.builds[b].node].epoch
    && (s.nodes[s.builds[b].node].closed ==> s.closed)
  }

  lemma EpochsOk(s: State)
    requires Inv(s)
    ensures forall b :: 0 <= b < |s.builds| ==> EpochOk(s, b)
  {
    hide Inv;
    forall b | 0 <= b < |s.builds| ensures EpochOk(s, b) {
      EpochsBehind(s, b);
      NodeFacts(s, s.builds[b].node);
    }
  }

  lemma BuildingWaste(s: State, a: BuildingStep, s': State)
    requires Inv(s) && Wf(s) && BuildingNext(s, a, s') && Later(s, s') && WasteOk(s)
    ensures WasteOk(s')
  {
    hide Inv, Wf, Later, BuildingNext, Overdue, EpochOk;
    EpochsOk(s);
    BuildingOutcomes(s, a, s');
    forall b | 0 <= b < |s'.builds| && s'.builds[b].outcome == Stale ensures Overdue(s', b) {
      OverdueStays(s, s', b);
    }
  }

  lemma StepWaste(s: State, a: Action, s': State)
    requires Inv(s) && Wf(s) && Do(s, a, s') && Later(s, s') && WasteOk(s)
    ensures WasteOk(s')
  {
    hide Inv, Wf, Later, WasteOk, SameOutcomes;
    hide MakingNext, ReadingNext, EnteringNext, WaitingNext, BuildingNext;
    hide ReleasingNext, WalkingNext, ClosingNext, ForcingNext;
    match a {
      case MakingAction(x) => MakingOutcomes(s, x, s'); SameOutcomesWaste(s, s');
      case ReadingAction(x) => ReadingOutcomes(s, x, s'); SameOutcomesWaste(s, s');
      case EnteringAction(x) => EnteringOutcomes(s, x, s'); SameOutcomesWaste(s, s');
      case WaitingAction(x) => WaitingWaste(s, x, s');
      case BuildingAction(x) => BuildingWaste(s, x, s');
      case ReleasingAction(x) => ReleasingOutcomes(s, x, s'); SameOutcomesWaste(s, s');
      case WalkingAction(x) => WalkingOutcomes(s, x, s'); SameOutcomesWaste(s, s');
      case ClosingAction(x) => ClosingOutcomes(s, x, s'); SameOutcomesWaste(s, s');
      case ForcingAction(x) => ForcingOutcomes(s, x, s'); SameOutcomesWaste(s, s');
    }
  }

  lemma WaitingWaste(s: State, x: WaitingStep, s': State)
    requires Inv(s) && Wf(s) && WaitingNext(s, x, s') && Later(s, s') && WasteOk(s)
    ensures WasteOk(s')
  {
    InvWf(s);
    hide Inv, Wf, Shape, Later, WasteOk, SameOutcomes;
    if x.DoJoinAbort? {
      KeepWaiting.NeverAborts(s, s', x.c);
    } else {
      hide WaitingNext;
      WaitingOutcomes(s, x, s');
      SameOutcomesWaste(s, s');
    }
  }

  lemma {:induction false} RunWaste(run: seq<State>, k: nat)
    requires IsRun(run) && k < |run|
    ensures WasteOk(run[k])
    decreases k
  {
    hide Inv, Do, Later, CallsLater;
    if k > 0 {
      RunWaste(run, k - 1);
      RunLater(run, k - 1);
      assert Next(run[k - 1], run[k - 1 + 1]);
      var a :| Do(run[k - 1], a, run[k]);
      hide WasteOk;
      StepWaste(run[k - 1], a, run[k]);
    }
  }

  /** finish throws a value away only if the graph has been closed or the provider
      invalidated since the attempt began. */
  lemma StaleForAReason(s: State, b: BuildId)
    requires Reachable(s) && b < |s.builds| && s.builds[b].outcome == Stale
    ensures s.closed || (s.builds[b].node < |s.nodes| && s.builds[b].epoch < s.nodes[s.builds[b].node].epoch)
  {
    var run :| IsRun(run) && run[|run| - 1] == s;
    RunWaste(run, |run| - 1);
  }
}
