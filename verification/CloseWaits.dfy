/** Which builds CloseContext waits for: all that were in flight when it was
    called, and, if the provider constructed first is Eager, all there are. */
module CloseWaits {
  import opened Paths
  import opened State
  import opened Steps
  import opened Invariants
  import opened References
  import opened Waiting
  import opened Shutdown
  import opened Keeping
  import opened Runs
  import opened History
  import opened Lifetimes
  import opened Consistency
  import opened Deadlocks
  import opened ReadsOverRuns
  import opened Draining
  import opened Agenda

  // ---- inflight and drained, step by step ---------------------------------------

  /** Only a new attempt joins inflight, and drained is closed only when live and
      inflight are empty. */
  ghost predicate FlightStep(s: State, s': State)
  {
    && s'.inflight <= s.inflight + {|s.builds|}
    && (s'.drained && !s.drained ==> s'.live == {} && s'.inflight == {})
  }

  lemma EnteringFlight(s: State, a: EnteringStep, s': State)
    requires Wf(s) && EnteringNext(s, a, s')
    ensures FlightStep(s, s')
  {
    hide Wf;
  }

  lemma BuildingFlight(s: State, a: BuildingStep, s': State)
    requires Wf(s) && BuildingNext(s, a, s')
    ensures FlightStep(s, s') && s'.inflight <= s.inflight
  {
    hide Wf, NoCallsOf;
  }

  lemma ReleasingFlight(s: State, a: ReleasingStep, s': State)
    requires Wf(s) && ReleasingNext(s, a, s')
    ensures FlightStep(s, s') && s'.inflight == s.inflight
  {
    hide Wf;
  }

  lemma ClosingFlight(s: State, a: ClosingStep, s': State)
    requires Wf(s) && ClosingNext(s, a, s')
    ensures FlightStep(s, s') && s'.inflight == s.inflight
  {
    hide Wf;
  }

  lemma ForcingFlight(s: State, a: ForcingStep, s': State)
    requires Wf(s) && ForcingNext(s, a, s')
    ensures FlightStep(s, s') && s'.inflight == s.inflight
  {
    hide Wf;
  }

  lemma Flight(s: State, a: Action, s': State)
    requires Wf(s) && Do(s, a, s')
    ensures FlightStep(s, s')
  {
    hide Wf;
    hide MakingNext, ReadingNext, EnteringNext, WaitingNext, BuildingNext;
    hide ReleasingNext, WalkingNext, ClosingNext, ForcingNext;
    match a {
      case MakingAction(x) => MakingLists(s, x, s');
      case ReadingAction(x) => ReadingLists(s, x, s');
      case EnteringAction(x) => EnteringFlight(s, x, s');
      case WaitingAction(x) => WaitingLists(s, x, s');
      case BuildingAction(x) => BuildingFlight(s, x, s');
      case ReleasingAction(x) => ReleasingFlight(s, x, s');
      case WalkingAction(x) => WalkingLists(s, x, s');
      case ClosingAction(x) => ClosingFlight(s, x, s');
      case ForcingAction(x) => ForcingFlight(s, x, s');
    }
  }

  lemma FlightAt(run: seq<State>, i: nat)
    requires IsRun(run) && i + 1 < |run|
    ensures FlightStep(run[i], run[i + 1])
  {
    hide Do, FlightStep;
    assert Next(run[i], run[i + 1]);
    var a :| Do(run[i], a, run[i + 1]);
    Flight(run[i], a, run[i + 1]);
  }

  /** An attempt that has left inflight never returns to it. */
  lemma {:induction false} LeftForGood(run: seq<State>, i: nat, k: nat, b: BuildId)
    requires IsRun(run) && i <= k < |run| && b < |run[i].builds| && b !in run[i].inflight
    ensures b < |run[k].builds| && b !in run[k].inflight
    decreases k
  {
    hide IsRun, Inv, CallsLater, NodesLater, GraphLater, BuildLater;
    if i < k {
      LeftForGood(run, i, k - 1, b);
      FlightAt(run, k - 1);
      RunLater(run, k - 1);
    }
  }

  /** The step that closed drained. */
  lemma {:induction false} DrainedAt(run: seq<State>, k: nat) returns (j: nat)
    requires IsRun(run) && k < |run| && run[k].drained
    ensures j < k && !run[j].drained && run[j + 1].drained
    ensures run[j + 1].live == {} && run[j + 1].inflight == {}
    decreases k
  {
    hide Next;
    assert k > 0;
    if run[k - 1].drained {
      j := DrainedAt(run, k - 1);
    } else {
      j := k - 1;
      hide IsRun;
      FlightAt(run, j);
    }
  }

  lemma OpenNotDrained(run: seq<State>, i: nat)
    requires IsRun(run) && i < |run| && !run[i].closed
    ensures !run[i].drained
  {
    hide Inv, IsRun;
    InvAlong(run, i);
    CloseFacts(run[i]);
  }

  // ---- What was in flight when Close began ---------------------------------------

  /** When Close returns in time, whatever is in flight was created after Close
      began, and after drained was closed. */
  lemma OnlyLateBuildsEscape(run: seq<State>, i: nat, k: nat, b: BuildId)
    requires IsRun(run) && i < k < |run| && !run[i].closed && run[k].close == Closed(true)
    requires b in run[k].inflight
    ensures b >= |run[i].builds|
  {
    hide Inv, IsRun;
    InvAlong(run, k);
    CloseFacts(run[k]);
    var j := DrainedAt(run, k);
    OpenNotDrained(run, i);
    if j < i { LaterDrained(run, j + 1, i); }
    if b < |run[i].builds| {
      BuildsRemain(run, i, j + 1);
      LeftForGood(run, j + 1, k, b);
    }
  }

  lemma {:induction false} LaterDrained(run: seq<State>, i: nat, k: nat)
    requires IsRun(run) && i <= k < |run| && run[i].drained
    ensures run[k].drained
    decreases k
  {
    hide IsRun, Inv, CallsLater, NodesLater, BuildsLater;
    if i < k {
      LaterDrained(run, i, k - 1);
      RunLater(run, k - 1);
    }
  }

  lemma {:induction false} BuildsRemain(run: seq<State>, i: nat, k: nat)
    requires IsRun(run) && i <= k < |run|
    ensures |run[i].builds| <= |run[k].builds|
    decreases k
  {
    hide IsRun, Inv, CallsLater, NodesLater, GraphLater;
    if i < k {
      BuildsRemain(run, i, k - 1);
      RunLater(run, k - 1);
    }
  }

  /** So Close waits for every build that was in flight when it was called. */
  lemma CloseWaitsForBuilds(run: seq<State>, i: nat, k: nat, b: BuildId)
    requires IsRun(run) && i < k < |run| && Wf(run[i]) && BeginClose(run[i], run[i + 1])
    requires run[k].close == Closed(true) && b in run[i].inflight
    ensures b < |run[k].builds| && b !in run[k].inflight
    ensures run[k].builds[b].phase == Unlisted || run[k].builds[b].phase == Signalled
    ensures run[k].builds[b].outcome == Published || run[k].builds[b].stage == Over
  {
    hide Inv, IsRun;
    assert b < |run[i].builds|;
    hide Wf;
    BuildsRemain(run, i, k);
    if b in run[k].inflight { OnlyLateBuildsEscape(run, i, k, b); }
    NodeAlong(run, i, k, b);
    InvAlong(run, i);
    InvAlong(run, k);
    InflightFacts(run[i], b);
    InflightFacts(run[k], b);
    BuildFacts(run[k], b);
  }

  /** A build keeps its provider, and a provider its kind. */
  lemma {:induction false} NodeAlong(run: seq<State>, i: nat, k: nat, b: BuildId)
    requires IsRun(run) && i <= k < |run| && b < |run[i].builds|
    ensures b < |run[k].builds| && run[k].builds[b].node == run[i].builds[b].node
    ensures run[i].builds[b].node < |run[i].nodes| <= |run[k].nodes|
    ensures run[k].nodes[run[i].builds[b].node].eager == run[i].nodes[run[i].builds[b].node].eager
    decreases k
  {
    hide IsRun, Inv, CallsLater, GraphLater;
    if i < k {
      NodeAlong(run, i, k - 1, b);
      RunLater(run, k - 1);
      assert BuildLater(run[k - 1].builds[b], run[k].builds[b], run[k - 1].nodes[run[k - 1].builds[b].node].epoch);
      hide BuildsLater;
    } else {
      InvAlong(run, i);
      InvWf(run[i]);
      WfBuilds(run[i], b);
    }
  }
}
