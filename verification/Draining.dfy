/** What CloseContext has achieved by the time it returns, on either branch. */
module Draining {
  import opened Paths
  import opened State
  import opened Steps
  import opened Invariants
  import opened References
  import opened Waiting
  import opened Cleanups
  import opened Shutdown
  import opened Keeping
  import opened Runs
  import opened History
  import opened Lifetimes
  import opened Consistency
  import opened Deadlocks
  import opened ReadsOverRuns

  /** The loop over the members is over. */
  predicate PastShutting(close: Closing)
  {
    close.Waiting? || close.Forcing? || close.Closed?
  }

  lemma CloseFacts(s: State)
    requires Inv(s)
    ensures CloseOk(s)
  {
    hide Wf, Shape, RefsOk, FreshWhileOpen, WaitsOk, ClosersOk, AwaitsOk;
  }

  /** From then on every provider is shut: it has no value and never will. */
  lemma AllShut(s: State, n: NodeId)
    requires Reachable(s) && PastShutting(s.close) && n < |s.nodes| && s.nodes[n].ready
    ensures s.nodes[n].closed && s.nodes[n].val.None?
  {
    hide Inv, Reachable;
    InvReachable(s);
    CloseFacts(s);
    NodeFacts(s, n);
  }

  // ---- The drained branch -----------------------------------------------------

  /** Once drained is closed, every value ever registered has had each of its
      cleanups run exactly once and is held by nobody. */
  lemma DrainedIsClean(s: State, b: BuildId)
    requires Reachable(s) && s.drained && !s.close.Forcing?
    requires b < |s.builds| && s.builds[b].outcome == Published
    ensures s.live == {} && s.builds[b].refs == 0 && AllRanOnce(s.builds[b])
  {
    hide Inv, Reachable;
    InvReachable(s);
    CloseFacts(s);
    BuildFacts(s, b);
    RanWhenDismantled(s, b);
  }

  /** CloseContext passes its select in time only when that holds. */
  lemma ClosedOnTimeIsClean(s: State, b: BuildId)
    requires Reachable(s) && s.close == Closed(true)
    requires b < |s.builds| && s.builds[b].outcome == Published
    ensures s.live == {} && s.builds[b].refs == 0 && AllRanOnce(s.builds[b])
  {
    hide Inv, Reachable;
    InvReachable(s);
    CloseFacts(s);
    DrainedIsClean(s, b);
  }

  // ---- No lost wake-up ---------------------------------------------------------

  /** Nothing is left to wait for only if drained has been closed. */
  predicate Drains(s: State)
  {
    PastShutting(s.close) && s.live == {} && s.inflight == {} ==> s.drained
  }

  predicate SameLists(s: State, s': State)
  {
    s'.live == s.live && s'.inflight == s.inflight && s'.drained == s.drained && s'.close == s.close
  }

  lemma MakingLists(s: State, a: MakingStep, s': State)
    requires Wf(s) && MakingNext(s, a, s')
    ensures SameLists(s, s')
  {
    hide Wf;
  }

  lemma ReadingLists(s: State, a: ReadingStep, s': State)
    requires Wf(s) && ReadingNext(s, a, s')
    ensures SameLists(s, s')
  {
    hide Wf;
  }

  lemma WaitingLists(s: State, a: WaitingStep, s': State)
    requires Wf(s) && WaitingNext(s, a, s')
    ensures SameLists(s, s')
  {
    hide Wf, Reaches, Edges;
  }

  lemma EnteringLists(s: State, a: EnteringStep, s': State)
    requires Wf(s) && EnteringNext(s, a, s')
    ensures s'.inflight != {} || SameLists(s, s')
    ensures s'.close == s.close
  {
    hide Wf;
    if a.DoEnterCreate? { assert |s.builds| in s'.inflight; }
  }

  lemma BuildingLists(s: State, a: BuildingStep, s': State)
    requires Wf(s) && BuildingNext(s, a, s') && CloseOk(s) && Drains(s)
    ensures Drains(s') && s'.close == s.close
  {
    hide Wf, NoCallsOf;
    if a.DoPublishLazy? || a.DoPublishEager? { assert a.b in s'.live; }
  }

  lemma ReleasingLists(s: State, a: ReleasingStep, s': State)
    requires Wf(s) && ReleasingNext(s, a, s') && CloseOk(s) && Drains(s)
    ensures Drains(s') && s'.close == s.close
  {
    hide Wf;
  }

  lemma WalkingLists(s: State, a: WalkingStep, s': State)
    requires Wf(s) && WalkingNext(s, a, s')
    ensures SameLists(s, s')
  {
    hide Wf;
  }

  lemma ClosingLists(s: State, a: ClosingStep, s': State)
    requires Wf(s) && ClosingNext(s, a, s') && CloseOk(s) && Drains(s)
    ensures Drains(s')
  {
    hide Wf;
  }

  lemma ForcingLists(s: State, a: ForcingStep, s': State)
    requires Wf(s) && ForcingNext(s, a, s') && Drains(s)
    ensures Drains(s')
  {
    hide Wf;
  }

  lemma DrainsKept(s: State, a: Action, s': State)
    requires Wf(s) && Do(s, a, s') && CloseOk(s) && Drains(s)
    ensures Drains(s')
  {
    hide Wf, CloseOk;
    hide MakingNext, ReadingNext, EnteringNext, WaitingNext, BuildingNext;
    hide ReleasingNext, WalkingNext, ClosingNext, ForcingNext;
    match a {
      case MakingAction(x) => MakingLists(s, x, s');
      case ReadingAction(x) => ReadingLists(s, x, s');
      case EnteringAction(x) => EnteringLists(s, x, s');
      case WaitingAction(x) => WaitingLists(s, x, s');
      case BuildingAction(x) => BuildingLists(s, x, s');
      case ReleasingAction(x) => ReleasingLists(s, x, s');
      case WalkingAction(x) => WalkingLists(s, x, s');
      case ClosingAction(x) => ClosingLists(s, x, s');
      case ForcingAction(x) => ForcingLists(s, x, s');
    }
  }

  lemma {:induction false} DrainsAlong(run: seq<State>, i: nat)
    requires IsRun(run) && i < |run|
    ensures Drains(run[i])
    decreases i
  {
    hide Inv, Do, CloseOk;
    if i > 0 {
      DrainsAlong(run, i - 1);
      InvAlong(run, i - 1);
      CloseFacts(run[i - 1]);
      assert Next(run[i - 1], run[i - 1 + 1]);
      var a :| Do(run[i - 1], a, run[i]);
      DrainsKept(run[i - 1], a, run[i]);
    }
  }

  /** No lost wake-up: when CloseContext waits and nothing is live or in flight,
      drained is closed, whichever step emptied them. */
  lemma NoLostWakeup(s: State)
    requires Reachable(s) && s.close.Waiting? && s.live == {} && s.inflight == {}
    ensures s.drained
  {
    var run :| IsRun(run) && run[|run| - 1] == s;
    DrainsAlong(run, |run| - 1);
  }

  /** So Close returns in time once every lease, read, attempt and release is
      over. */
  lemma CloseReturns(s: State)
    requires Reachable(s) && Wf(s) && Quiescent(s) && s.close.Waiting?
    requires forall b :: 0 <= b < |s.builds| && !IsEager(s, b) ==> s.builds[b].phase == Signalled
    ensures exists s' :: CloseOnTime(s, s')
  {
    hide Inv, Reachable;
    NoLeak(s);
    InvReachable(s);
    forall b | 0 <= b < |s.builds| ensures b !in s.inflight { InflightFacts(s, b); }
    NoLostWakeup(s);
    assert CloseOnTime(s, s.(close := Closed(true)));
  }

  // ---- The deadline branch --------------------------------------------------------

  /** Every cleanup of x has been started, by whoever came first. */
  ghost predicate AllStarted(x: Build)
  {
    forall j :: 0 <= j < |x.closers| ==> x.closers[j].progress != Unrun
  }

  ghost predicate StartedFrom(x: Build, k: int)
  {
    forall j :: 0 <= j < |x.closers| && k <= j ==> x.closers[j].progress != Unrun
  }

  /** The forced close has dealt with b, is dealing with it, or still will. */
  ghost predicate ForceSees(close: Closing, b: BuildId, x: Build)
  {
    && x.outcome == Published
    && match close
       case Forcing(todo, on, left, calling) =>
         || b in todo
         || AllStarted(x)
         || (on == Some(b) && StartedFrom(x, if calling then left - 1 else left))
       case Closed(onTime) => !onTime && AllStarted(x)
       case _ => false
  }

  lemma SeenLater(close: Closing, b: BuildId, x: Build, y: Build, epoch: nat)
    requires ForceSees(close, b, x) && BuildLater(x, y, epoch)
    ensures ForceSees(close, b, y)
  {
    forall j | 0 <= j < |y.closers| && x.closers[j].progress != Unrun ensures y.closers[j].progress != Unrun {
      assert CloserLater(x.closers[j], y.closers[j]);
    }
  }

  lemma SeenForcing(s: State, a: ForcingStep, s': State, b: BuildId)
    requires Wf(s) && ForcingNext(s, a, s') && b < |s.builds| && b < |s'.builds|
    requires ForceSees(s.close, b, s.builds[b])
    ensures ForceSees(s'.close, b, s'.builds[b])
  {
    if a.DoForceBegin? || a.DoForceEnd? {
      SeenCalling(s, a, s', b);
    } else {
      SeenMoving(s, a, s', b);
    }
  }

  lemma SeenCalling(s: State, a: ForcingStep, s': State, b: BuildId)
    requires Wf(s) && ForcingNext(s, a, s') && b < |s.builds| && b < |s'.builds|
    requires (a.DoForceBegin? || a.DoForceEnd?) && ForceSees(s.close, b, s.builds[b])
    ensures ForceSees(s'.close, b, s'.builds[b])
  {
    hide Wf;
  }

  lemma SeenMoving(s: State, a: ForcingStep, s': State, b: BuildId)
    requires Wf(s) && ForcingNext(s, a, s') && b < |s.builds| && b < |s'.builds|
    requires !a.DoForceBegin? && !a.DoForceEnd? && ForceSees(s.close, b, s.builds[b])
    ensures ForceSees(s'.close, b, s'.builds[b])
  {
    hide Wf;
  }

  lemma CloseSettled(s: State, a: Action, s': State)
    requires Wf(s) && Do(s, a, s') && CloseOk(s) && Drains(s) && !a.ForcingAction?
    requires s.close.Forcing? || s.close == Closed(false)
    ensures s'.close == s.close
  {
    hide Wf;
    hide MakingNext, ReadingNext, EnteringNext, WaitingNext, BuildingNext, ReleasingNext, WalkingNext;
    match a {
      case MakingAction(x) => MakingLists(s, x, s');
      case ReadingAction(x) => ReadingLists(s, x, s');
      case EnteringAction(x) => EnteringLists(s, x, s');
      case WaitingAction(x) => WaitingLists(s, x, s');
      case BuildingAction(x) => BuildingLists(s, x, s');
      case ReleasingAction(x) => ReleasingLists(s, x, s');
      case WalkingAction(x) => WalkingLists(s, x, s');
      case ClosingAction(x) =>
    }
  }

  lemma SeenStep(run: seq<State>, k: nat, b: BuildId)
    requires IsRun(run) && k + 1 < |run| && b < |run[k].builds|
    requires ForceSees(run[k].close, b, run[k].builds[b])
    ensures b < |run[k + 1].builds| && ForceSees(run[k + 1].close, b, run[k + 1].builds[b])
  {
    hide Inv, Do, CloseOk, ForceSees, BuildLater, CallsLater, NodesLater, GraphLater;
    var s, s' := run[k], run[k + 1];
    RunLater(run, k);
    WfBuilds(s, b);
    CloseFacts(s);
    DrainsAlong(run, k);
    assert Next(s, s');
    var a :| Do(s, a, s');
    ForcingCases(s, a, s', b);
  }

  lemma ForcingCases(s: State, a: Action, s': State, b: BuildId)
    requires Wf(s) && Do(s, a, s') && CloseOk(s) && Drains(s) && BuildsLater(s, s')
    requires b < |s.builds| && s.builds[b].node < |s.nodes| && ForceSees(s.close, b, s.builds[b])
    ensures ForceSees(s'.close, b, s'.builds[b])
  {
    if a.ForcingAction? {
      hide Wf, ForceSees, BuildLater, ForcingNext;
      SeenForcing(s, a.forcing, s', b);
    } else {
      CloseSettled(s, a, s') by { assert ForceSees(s.close, b, s.builds[b]); hide Wf, Do, BuildsLater; }
      hide Wf, ForceSees, Do, BuildLater;
      SeenLater(s.close, b, s.builds[b], s'.builds[b], s.nodes[s.builds[b].node].epoch);
    }
  }

  lemma {:induction false} SeenAlong(run: seq<State>, i: nat, k: nat, b: BuildId)
    requires IsRun(run) && i <= k < |run| && b < |run[i].builds|
    requires ForceSees(run[i].close, b, run[i].builds[b])
    ensures b < |run[k].builds| && ForceSees(run[k].close, b, run[k].builds[b])
    decreases k
  {
    hide ForceSees, IsRun;
    if i < k {
      SeenAlong(run, i, k - 1, b);
      SeenStep(run, k - 1, b);
    }
  }

  /** A forced close cleans up what remains: when CloseContext returns after its
      deadline, each cleanup of every value that was live when the deadline
      passed has been called, exactly once. */
  lemma ForcedCloseCleansUp(run: seq<State>, i: nat, k: nat, b: BuildId)
    requires IsRun(run) && i < k < |run| && Deadline(run[i], run[i + 1])
    requires run[k].close == Closed(false) && b in run[i].live
    ensures b < |run[k].builds|
    ensures forall j :: 0 <= j < |run[k].builds[b].closers| ==> run[k].builds[b].closers[j].runs == 1
  {
    hide Inv, IsRun, CloserOk;
    RunPrefix(run, i);
    InvReachable(run[i]);
    LiveInRange(run[i]);
    BuildFacts(run[i], b);
    SeenAlong(run, i + 1, k, b);
    RunPrefix(run, k);
    InvReachable(run[k]);
    BuildFacts(run[k], b);
    StartedRanOnce(b, run[k]);
  }

  lemma StartedRanOnce(b: BuildId, s: State)
    requires b < |s.builds| && AllStarted(s.builds[b])
    requires forall j :: 0 <= j < |s.builds[b].closers| ==> CloserOk(b, s.builds[b], s.forced, s.close, j)
    ensures forall j :: 0 <= j < |s.builds[b].closers| ==> s.builds[b].closers[j].runs == 1
  {
    forall j | 0 <= j < |s.builds[b].closers| ensures s.builds[b].closers[j].runs == 1 {
      assert CloserOk(b, s.builds[b], s.forced, s.close, j);
    }
  }
}
