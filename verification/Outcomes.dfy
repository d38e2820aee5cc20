/** What a read returns: a failure only for a reason, and the current value when
    there is one. */
module Outcomes {
  import opened Paths
  import opened State
  import opened Steps
  import opened Invariants
  import opened References
  import opened Waiting
  import opened Keeping
  import opened Runs
  import opened History
  import opened Consistency
  import opened Lifetimes
  import opened Progress
  import opened Retries
  import opened ReadsOverRuns
  import opened Continuations
  import opened ShutReads
  import Cleanups
  import Shutdown

  // ---- One step of the read's own --------------------------------------------------

  /** The reason of a failure that get does not take from the attempt. */
  predicate Excused(s: State, x: Call, why: Failure)
  {
    match why
    case ErrClosed => s.cancelled || (x.node < |s.nodes| && s.nodes[x.node].closed)
    case ErrCtx => if x.scope.Some? then s.cancelled else x.bound
    case _ => false
  }

  /** A read that is failing or has failed, but for a broken attempt or a cycle, has
      an excuse; one that cannot leave its wait has no caller's context. */
  predicate FailsExcused(s: State, x: Call)
  {
    && (x.pc.Inline? ==> x.from.Some? || !x.bound)
    && (x.pc.Leave? && x.pc.err.Some? ==> Excused(s, x, x.pc.err.value))
    && (x.pc.Failed? ==> x.pc.why == ErrBuild || x.pc.why == ErrCycle || Excused(s, x, x.pc.why))
  }

  lemma ReadingExcused(s: State, a: ReadingStep, s': State)
    requires Wf(s) && ReadingNext(s, a, s') && !a.DoStartRead? && !a.DoStartFrom?
    ensures a.c < |s'.calls| && !s'.calls[a.c].pc.Failed? && !s'.calls[a.c].pc.Leave? && !s'.calls[a.c].pc.Inline?
  {
    hide Wf;
  }

  lemma EnteringExcused(s: State, a: EnteringStep, s': State)
    requires Wf(s) && EnteringNext(s, a, s')
    ensures a.c < |s'.calls| && !s'.calls[a.c].pc.Leave? && !s'.calls[a.c].pc.Inline?
    ensures s'.calls[a.c].pc.Failed? ==> s'.calls[a.c].pc.why == ErrClosed && FailsExcused(s', s'.calls[a.c])
  {
    assert a.c < |s.calls|;
    assert CallWf(s.calls[a.c], s);
    hide Wf;
  }

  /** How a read's own step in the wait ends it. */
  ghost predicate WaitEnds(s: State, s': State, c: CallId)
  {
    && c < |s.calls| && c < |s'.calls|
    && s'.calls[c].node == s.calls[c].node && s'.calls[c].scope == s.calls[c].scope
    && s'.calls[c].bound == s.calls[c].bound && s'.calls[c].from == s.calls[c].from
    && s'.cancelled == s.cancelled && s'.nodes == s.nodes
    && match s.calls[c].pc
       case Leave(a, None) =>
         a < |s.builds| && s'.calls[c].pc == if s.builds[a].outcome == Broken then Failed(ErrBuild) else Load
       case Leave(a, Some(why)) => s'.calls[c].pc == Failed(why)
       case Join(a, false) =>
         s'.calls[c].pc == Failed(ErrCycle) ==>
           s.calls[c].from.Some? && Reaches(Edges(s), a, s.calls[c].from.value)
       case _ => true
  }

  lemma StoppingEnds(s: State, s': State, c: CallId)
    requires Wf(s) && StopWaiting(s, s', c)
    ensures WaitEnds(s, s', c) && s.calls[c].pc.Leave?
  {
    hide Reaches, Edges;
    assert s.calls[c].pc.a < |s.builds|;
    hide Wf;
  }

  // ---- Failing only with an excuse ---------------------------------------------------

  lemma WaitingExcused(s: State, a: WaitingStep, s': State)
    requires Wf(s) && WaitingNext(s, a, s') && !a.DoStopWaiting? && !a.DoJoinAbort? && !a.DoAbortReturn?
    ensures a.c < |s'.calls| && FailsExcused(s', s'.calls[a.c])
    ensures s'.calls[a.c].pc.Failed? ==>
              a.c < |s.calls| && s'.calls[a.c].pc.why == ErrCycle && s.calls[a.c].pc.Join? && s.calls[a.c].from.Some?
              && Reaches(Edges(s), s.calls[a.c].pc.a, s.calls[a.c].from.value)
  {
    hide Wf, Accepted, Reaches, Edges;
  }

  lemma StoppingExcused(s: State, s': State, c: CallId)
    requires WaitEnds(s, s', c) && s.calls[c].pc.Leave? && FailsExcused(s, s.calls[c])
    ensures FailsExcused(s', s'.calls[c])
  {
  }

  /** Other steps leave an excuse standing. */
  lemma ExcuseStays(s: State, s': State, x: Call)
    requires Later(s, s') && FailsExcused(s, x)
    ensures FailsExcused(s', x)
  {
    hide BuildsLater;
  }

  lemma OwnStepExcused(s: State, x: Action, s': State, c: CallId)
    requires Inv(s) && Wf(s) && Do(s, x, s') && OfCall(x, c) && c < |s.calls| && FailsExcused(s, s.calls[c])
    ensures c < |s'.calls| && FailsExcused(s', s'.calls[c])
  {
    CallFacts(s, c);
    InvWf(s);
    hide Inv, Wf, FailsExcused, Shape, ReadingNext, EnteringNext, WaitingNext;
    match x {
      case ReadingAction(y) => ReadingExcused(s, y, s');
      case EnteringAction(y) => EnteringExcused(s, y, s');
      case WaitingAction(y) => OwnWaitExcused(s, y, s');
    }
  }

  lemma OwnWaitExcused(s: State, y: WaitingStep, s': State)
    requires Shape(s) && Wf(s) && WaitingNext(s, y, s') && y.c < |s.calls| && !s.calls[y.c].pc.Abort?
    requires FailsExcused(s, s.calls[y.c])
    ensures y.c < |s'.calls| && FailsExcused(s', s'.calls[y.c])
  {
    hide Wf, FailsExcused, Shape, Edges, Reaches, WaitEnds;
    if y.DoStopWaiting? {
      StoppingEnds(s, s', y.c);
      hide WaitingNext;
      StopKeeps(s, s', y.c);
      StoppingExcused(s, s', y.c);
    } else if y.DoJoinAbort? {
      KeepWaiting.NeverAborts(s, s', y.c);
    } else {
      WaitingExcused(s, y, s');
    }
  }

  lemma StopKeeps(s: State, s': State, c: CallId)
    requires WaitEnds(s, s', c)
    ensures c < |s'.calls|
  {
  }

  lemma StepExcused(s: State, x: Action, s': State, c: CallId)
    requires Inv(s) && Wf(s) && Do(s, x, s') && Later(s, s') && c < |s.calls| && FailsExcused(s, s.calls[c])
    ensures c < |s'.calls| && FailsExcused(s', s'.calls[c])
  {
    hide Inv, Wf, Do, Later, FailsExcused;
    if OfCall(x, c) {
      OwnStepExcused(s, x, s', c);
    } else {
      OthersLeaveCall(s, x, s', c);
      ExcuseStays(s, s', s.calls[c]);
    }
  }

  lemma {:induction false} RunExcused(run: seq<State>, k: nat, c: CallId)
    requires IsRun(run) && k < |run| && c < |run[k].calls|
    ensures FailsExcused(run[k], run[k].calls[c])
    decreases k
  {
    hide Inv, Later, Do;
    assert k > 0;
    RunLater(run, k - 1);
    var s, s' := run[k - 1], run[k];
    if c < |s.calls| {
      RunExcused(run, k - 1, c);
      assert Next(s, run[k - 1 + 1]);
      var x :| Do(s, x, s');
      hide CallsLater;
      StepExcused(s, x, s', c);
    } else {
      hide Wf;
      NewCallExcused(s, s', c);
    }
  }

  lemma NewCallExcused(s: State, s': State, c: CallId)
    requires Wf(s) && CallsLater(s, s') && |s.calls| <= c < |s'.calls|
    ensures FailsExcused(s', s'.calls[c])
  {
    hide Wf, CallLater;
  }

  /** A read fails with ErrClosed only when its provider is shut or the graph's
      context has ended, and with its context's error only if that can end: the
      caller's for a Try or an Acquire, the graph's for a read inside a builder. */
  lemma FailuresAreExcused(s: State, c: CallId)
    requires Reachable(s) && c < |s.calls|
    ensures s.calls[c].pc == Failed(ErrClosed) ==>
              s.cancelled || (s.calls[c].node < |s.nodes| && s.nodes[s.calls[c].node].closed)
    ensures s.calls[c].pc == Failed(ErrCtx) ==> if s.calls[c].scope.Some? then s.cancelled else s.calls[c].bound
  {
    var run :| IsRun(run) && run[|run| - 1] == s;
    RunExcused(run, |run| - 1, c);
  }

  // ---- Failing for a broken attempt, or a cycle ----------------------------------------

  /** At state i of the run c waited on an attempt of its provider that, by state k,
      has turned out broken. */
  ghost predicate WaitedOnBroken(run: seq<State>, i: nat, k: nat, c: CallId)
  {
    && i < |run| && k < |run| && c < |run[i].calls|
    && match WaitsOn(run[i].calls[c])
       case Some(a) =>
         a < |run[k].builds| && run[k].builds[a].node == run[i].calls[c].node && run[k].builds[a].outcome == Broken
       case None => false
  }

  /** At state i of the run waitFor had reason to refuse c: the attempt c found waits,
      over others, on c's own. */
  ghost predicate MetCycle(run: seq<State>, i: nat, c: CallId)
  {
    && i < |run| && c < |run[i].calls| && run[i].calls[c].pc.Join? && run[i].calls[c].from.Some?
    && run[i].calls[c].pc.a < |run[i].builds|
    && run[i].builds[run[i].calls[c].pc.a].node == run[i].calls[c].node
    && Reaches(Edges(run[i]), run[i].calls[c].pc.a, run[i].calls[c].from.value)
  }

  /** The step in which a read fails of itself. */
  ghost predicate FailingStep(s: State, s': State, c: CallId)
  {
    && c < |s.calls| && c < |s'.calls|
    && (s'.calls[c].pc == Failed(ErrBuild) && s.calls[c].pc != Failed(ErrBuild) ==>
         && s.calls[c].pc.Leave?
         && s.calls[c].pc.a < |s.builds| && s.builds[s.calls[c].pc.a].node == s.calls[c].node
         && s.builds[s.calls[c].pc.a].outcome == Broken)
    && (s'.calls[c].pc == Failed(ErrCycle) && s.calls[c].pc != Failed(ErrCycle) ==>
         && s.calls[c].pc.Join? && s.calls[c].from.Some?
         && s.calls[c].pc.a < |s.builds| && s.builds[s.calls[c].pc.a].node == s.calls[c].node
         && Reaches(Edges(s), s.calls[c].pc.a, s.calls[c].from.value))
  }

  lemma StoppingFails(s: State, s': State, c: CallId)
    requires WaitEnds(s, s', c) && s.calls[c].pc.Leave? && FailsExcused(s, s.calls[c])
    requires s.calls[c].pc.a < |s.builds| && s.builds[s.calls[c].pc.a].node == s.calls[c].node
    ensures FailingStep(s, s', c)
  {
    hide Reaches, Edges;
  }

  lemma WaitingFails(s: State, y: WaitingStep, s': State)
    requires Shape(s) && Wf(s) && WaitingNext(s, y, s') && y.c < |s.calls| && FailsExcused(s, s.calls[y.c])
    requires CallOk(s.nodes, s.builds, y.c, s.calls[y.c])
    ensures FailingStep(s, s', y.c)
  {
    assert !s.calls[y.c].pc.Abort?;
    assert s.calls[y.c].pc.Join? || s.calls[y.c].pc.Leave? ==>
        s.calls[y.c].pc.a < |s.builds| && s.builds[s.calls[y.c].pc.a].node == s.calls[y.c].node;
    hide Wf, Shape, CallOk, Edges, Reaches, WaitEnds, FailsExcused;
    if y.DoStopWaiting? {
      StoppingEnds(s, s', y.c);
      StoppingFails(s, s', y.c);
    } else if y.DoJoinAbort? {
      KeepWaiting.NeverAborts(s, s', y.c);
    } else {
      WaitingExcused(s, y, s');
    }
  }

  lemma StepFails(s: State, x: Action, s': State, c: CallId)
    requires Inv(s) && Wf(s) && Do(s, x, s') && c < |s.calls| && FailsExcused(s, s.calls[c])
    ensures FailingStep(s, s', c)
  {
    CallFacts(s, c);
    InvWf(s);
    hide Inv, Wf, Shape, FailsExcused, CallOk, Reaches, Edges, ReadingNext, EnteringNext, WaitingNext;
    if OfCall(x, c) {
      match x {
        case ReadingAction(y) => ReadingExcused(s, y, s');
        case EnteringAction(y) => EnteringExcused(s, y, s');
        case WaitingAction(y) => WaitingFails(s, y, s');
      }
    } else {
      hide Do;
      OthersLeaveCall(s, x, s', c);
    }
  }

  lemma RunFails(run: seq<State>, k: nat, c: CallId)
    requires IsRun(run) && k + 1 < |run| && c < |run[k].calls|
    ensures FailingStep(run[k], run[k + 1], c)
  {
    hide Inv, Do, Later, CallsLater, FailsExcused, FailingStep;
    RunLater(run, k);
    RunExcused(run, k, c);
    assert Next(run[k], run[k + 1]);
    var x :| Do(run[k], x, run[k + 1]);
    StepFails(run[k], x, run[k + 1], c);
  }

  lemma BrokenStays(run: seq<State>, i: nat, k: nat, c: CallId)
    requires IsRun(run) && k + 1 < |run| && WaitedOnBroken(run, i, k, c)
    ensures WaitedOnBroken(run, i, k + 1, c)
  {
    hide Inv, Next, CallsLater, GraphLater, NodesLater, IsRun;
    RunLater(run, k);
    var a := WaitsOn(run[i].calls[c]).value;
    WfBuilds(run[k], a);
    assert BuildLater(run[k].builds[a], run[k + 1].builds[a], run[k].nodes[run[k].builds[a].node].epoch);
  }

  /** A read fails with a builder's error only if it waited on an attempt of its
      provider that broke. */
  lemma {:induction false} BuildFailuresAreReal(run: seq<State>, k: nat, c: CallId)
    requires IsRun(run) && k < |run| && c < |run[k].calls| && run[k].calls[c].pc == Failed(ErrBuild)
    ensures exists i :: 0 <= i < k && WaitedOnBroken(run, i, k, c)
    decreases k
  {
    hide Inv, Later, Next, WaitedOnBroken;
    assert k > 0;
    RunLater(run, k - 1);
    assert c < |run[k - 1].calls|;
    hide CallsLater, Wf;
    RunFails(run, k - 1, c);
    var i := k - 1;
    if run[k - 1].calls[c].pc == Failed(ErrBuild) {
      BuildFailuresAreReal(run, k - 1, c);
      i :| 0 <= i < k - 1 && WaitedOnBroken(run, i, k - 1, c);
    } else {
      BrokeHere(run, k - 1, c);
    }
    BrokenStays(run, i, k - 1, c);
  }

  lemma BrokeHere(run: seq<State>, i: nat, c: CallId)
    requires i + 1 < |run| && FailingStep(run[i], run[i + 1], c)
    requires run[i + 1].calls[c].pc == Failed(ErrBuild) && run[i].calls[c].pc != Failed(ErrBuild)
    ensures WaitedOnBroken(run, i, i, c)
  {
    hide Reaches, Edges;
  }

  lemma MetHere(run: seq<State>, i: nat, c: CallId)
    requires i + 1 < |run| && FailingStep(run[i], run[i + 1], c)
    requires run[i + 1].calls[c].pc == Failed(ErrCycle) && run[i].calls[c].pc != Failed(ErrCycle)
    ensures MetCycle(run, i, c)
  {
    hide Reaches, Edges;
  }

  /** It fails with ErrCycle only if, when it was about to wait, the wait would have
      closed a circle of waits. */
  lemma {:induction false} CycleFailuresAreReal(run: seq<State>, k: nat, c: CallId)
    requires IsRun(run) && k < |run| && c < |run[k].calls| && run[k].calls[c].pc == Failed(ErrCycle)
    ensures exists i :: 0 <= i < k && MetCycle(run, i, c)
    decreases k
  {
    hide Inv, Later, Next, MetCycle;
    assert k > 0;
    RunLater(run, k - 1);
    assert c < |run[k - 1].calls|;
    hide CallsLater, Wf;
    RunFails(run, k - 1, c);
    if run[k - 1].calls[c].pc == Failed(ErrCycle) {
      CycleFailuresAreReal(run, k - 1, c);
    } else {
      MetHere(run, k - 1, c);
    }
  }

  // ---- After the wait ----------------------------------------------------------------

  lemma NotWaitingStep(s: State, x: Action, s': State, c: CallId)
    requires Wf(s) && Do(s, x, s') && OfCall(x, c) && c < |s.calls| && s.calls[c].pc.Leave?
    ensures x == WaitingAction(DoStopWaiting(c))
  {
    hide Wf, Reaches, Edges;
  }

  /** What a read does after its wait, whatever step of its own it takes: it fails if
      it was made to leave or the attempt broke, and otherwise looks again. */
  lemma AfterTheWait(s: State, x: Action, s': State, c: CallId)
    requires Reachable(s) && Wf(s) && Do(s, x, s') && OfCall(x, c) && c < |s.calls| && s.calls[c].pc.Leave?
    ensures c < |s'.calls| && s.calls[c].pc.a < |s.builds|
    ensures match s.calls[c].pc.err
            case Some(why) => s'.calls[c].pc == Failed(why)
            case None =>
              var outcome := s.builds[s.calls[c].pc.a].outcome;
              && outcome != Pending
              && (outcome == Broken ==> s'.calls[c].pc == Failed(ErrBuild))
              && (outcome == Published || outcome == Stale ==> s'.calls[c].pc == Load)
  {
    hide Reachable, Inv, Wf;
    InvReachable(s);
    NotWaitingStep(s, x, s', c);
    hide WaitingNext;
    StopsWaiting(s, s', c);
  }

  lemma StopsWaiting(s: State, s': State, c: CallId)
    requires Inv(s) && Wf(s) && WaitingNext(s, DoStopWaiting(c), s')
    ensures WaitEnds(s, s', c) && s.calls[c].pc.a < |s.builds|
    ensures s.calls[c].pc == Leave(s.calls[c].pc.a, None) ==> s.builds[s.calls[c].pc.a].outcome != Pending
  {
    hide Inv, Wf, Reaches, Edges, WaitEnds;
    StoppingEnds(s, s', c);
    CallFacts(s, c);
    BuildFacts(s, s.calls[c].pc.a);
  }

  // ---- Finding the current value -------------------------------------------------------

  /** The steps of its own a read has to take to return a value that is there. */
  function TurnsLeft(pc: Pc): nat
  {
    match pc
    case AddEdge => 3
    case Enter => 3
    case Leave(_, _) => 3
    case Load => 2
    case Claim(_) => 1
    case _ => 0
  }

  /** g is the current value of c's provider, and c is not waiting, nor failing, nor
      holding another value. */
  ghost predicate Sees(s: State, c: CallId, g: BuildId)
  {
    && c < |s.calls| && s.calls[c].node < |s.nodes| && s.nodes[s.calls[c].node].val == Some(g)
    && match s.calls[c].pc
       case AddEdge => true
       case Load => true
       case Enter => true
       case Claim(v) => v == g
       case Leave(a, err) => err.None? && a < |s.builds| && s.builds[a].outcome != Broken
       case Got(v) => v == g
       case _ => false
  }

  /** It still does, one step nearer. */
  ghost predicate Nearer(s: State, s': State, c: CallId, g: BuildId)
  {
    && c < |s.calls| && Sees(s', c, g) && TurnsLeft(s'.calls[c].pc) == TurnsLeft(s.calls[c].pc) - 1
  }

  lemma LookingNearer(s: State, y: ReadingStep, s': State, g: BuildId)
    requires Wf(s) && ReadingNext(s, y, s') && (y.DoAddDependent? || y.DoLoadValue?)
    requires Sees(s, y.c, g) && TurnsLeft(s.calls[y.c].pc) > 0
    ensures Nearer(s, s', y.c, g)
  {
    hide Wf;
  }

  lemma TakingNearer(s: State, y: ReadingStep, s': State, g: BuildId)
    requires Wf(s) && ReadingNext(s, y, s')
    requires !y.DoStartRead? && !y.DoStartFrom? && !y.DoAddDependent? && !y.DoLoadValue?
    requires Sees(s, y.c, g) && TurnsLeft(s.calls[y.c].pc) > 0
    requires s.calls[y.c].pc.Claim? ==> g < |s.builds| && s.builds[g].refs > 0
    ensures Nearer(s, s', y.c, g)
  {
    hide Wf;
  }

  lemma ReadingNearer(s: State, y: ReadingStep, s': State, g: BuildId)
    requires Wf(s) && ReadingNext(s, y, s') && !y.DoStartRead? && !y.DoStartFrom?
    requires Sees(s, y.c, g) && TurnsLeft(s.calls[y.c].pc) > 0
    requires s.calls[y.c].pc.Claim? ==> g < |s.builds| && s.builds[g].refs > 0
    ensures Nearer(s, s', y.c, g)
  {
    hide Wf, ReadingNext, Sees, Nearer;
    if y.DoAddDependent? || y.DoLoadValue? { LookingNearer(s, y, s', g); } else { TakingNearer(s, y, s', g); }
  }

  lemma EnteringNearer(s: State, y: EnteringStep, s': State, g: BuildId)
    requires Wf(s) && EnteringNext(s, y, s') && Sees(s, y.c, g)
    requires NodeOk(s.nodes, s.builds, s.closed, s.calls[y.c].node, s.nodes[s.calls[y.c].node])
    ensures Nearer(s, s', y.c, g)
  {
    hide Wf;
  }

  lemma WaitingNearer(s: State, y: WaitingStep, s': State, g: BuildId)
    requires Wf(s) && WaitingNext(s, y, s') && Sees(s, y.c, g)
    ensures Nearer(s, s', y.c, g)
  {
    WaitingLeaves(s, y, s', g);
    hide Wf, WaitingNext;
    StoppingEnds(s, s', y.c);
  }

  lemma WaitingLeaves(s: State, y: WaitingStep, s': State, g: BuildId)
    requires Wf(s) && WaitingNext(s, y, s') && Sees(s, y.c, g)
    ensures y.DoStopWaiting? && StopWaiting(s, s', y.c)
  {
    hide Wf, Accepted, Reaches, Edges;
  }

  /** Whatever step of its own it takes brings it one nearer to that value. */
  lemma OwnStepNearer(s: State, x: Action, s': State, c: CallId, g: BuildId)
    requires Reachable(s) && Wf(s) && Do(s, x, s') && OfCall(x, c)
    requires Sees(s, c, g) && TurnsLeft(s.calls[c].pc) > 0
    ensures Nearer(s, s', c, g)
  {
    hide Reachable, Inv, Nearer, ReadingNext, EnteringNext, WaitingNext;
    InvReachable(s);
    SlotFacts(s, c);
    match x {
      case ReadingAction(y) => ReadingNearer(s, y, s', g);
      case EnteringAction(y) => EnteringNearer(s, y, s', g);
      case WaitingAction(y) => WaitingNearer(s, y, s', g);
    }
  }

  lemma ClaimMoves(s: State, c: CallId) returns (x: Action, s': State)
    requires Wf(s) && c < |s.calls| && s.calls[c].pc.Claim?
    ensures OfCall(x, c) && Do(s, x, s')
  {
    var g := s.calls[c].pc.g;
    assert g < |s.builds|;
    if !s.calls[c].ref {
      x, s' := ReadingAction(DoPeek(c)), SetCall(s, c, Got(g));
    } else if s.builds[g].refs > 0 {
      x := ReadingAction(DoAcquire(c));
      s' := SetBuild(SetCall(s, c, Got(g)), g, s.builds[g].(refs := s.builds[g].refs + 1));
    } else {
      x, s' := ReadingAction(DoAcquireFails(c)), SetCall(s, c, Enter);
    }
    hide Wf;
  }

  /** Until it has returned the value it can always take one. */
  lemma SeeingMoves(s: State, c: CallId, g: BuildId) returns (x: Action, s': State)
    requires Reachable(s) && Wf(s) && Sees(s, c, g) && TurnsLeft(s.calls[c].pc) > 0
    ensures OfCall(x, c) && Do(s, x, s')
  {
    hide Reachable, Inv;
    InvReachable(s);
    SlotFacts(s, c);
    hide Wf, NodeOk, Do;
    match s.calls[c].pc {
      case AddEdge => x, s' := LookingMoves(s, c);
      case Load => x, s' := LoadMoves(s, c);
      case Claim(_) => x, s' := ClaimMoves(s, c);
      case Enter => x, s' := EnteringMoves(s, c);
      case Leave(_, _) => x, s' := LeavingMoves(s, c);
    }
  }

  lemma {:induction false} OwnPathToValue(s: State, c: CallId, g: BuildId) returns (path: seq<State>)
    requires Reachable(s) && Sees(s, c, g)
    ensures OwnPath(path, c) && path[0] == s && |path| == TurnsLeft(s.calls[c].pc) + 1 <= 4
    ensures c < |path[|path| - 1].calls| && path[|path| - 1].calls[c].pc == Got(g)
    decreases if c < |s.calls| then TurnsLeft(s.calls[c].pc) else 0
  {
    hide Reachable, Wf, Do, Leads;
    if TurnsLeft(s.calls[c].pc) == 0 {
      path := [s];
    } else {
      ReachableWf(s);
      var x, s' := SeeingMoves(s, c, g);
      OwnStepNearer(s, x, s', c, g);
      Takes(s, x, s');
      var rest := OwnPathToValue(s', c, g);
      path := [s] + rest;
      assert TakesOwn(s, s', c);
      forall i | 0 <= i < |path| - 1 ensures TakesOwn(path[i], path[i + 1], c) {
        if i > 0 { assert TakesOwn(rest[i - 1], rest[i - 1 + 1], c); }
      }
    }
  }

  /** A read that is not waiting, of a provider with a current value, can go on by
      itself and returns that value within three steps of its own; so does one whose
      wait for an attempt that did not break is over. */
  lemma CurrentValueIsReturned(s: State, c: CallId, g: BuildId)
    requires Reachable(s) && Sees(s, c, g)
    ensures exists path: seq<State> ::
              && OwnPath(path, c) && path[0] == s && |path| <= 4
              && c < |path[|path| - 1].calls| && path[|path| - 1].calls[c].pc == Got(g)
  {
    hide Reachable, Sees, OwnPath;
    var path := OwnPathToValue(s, c, g);
  }

  // ---- Leaving the wait ----------------------------------------------------------------

  lemma SelectMoves(s: State, c: CallId, why: Failure) returns (s': State)
    requires Wf(s) && c < |s.calls| && s.calls[c].pc.Select?
    requires (why == ErrClosed && s.cancelled) || (why == ErrCtx && s.calls[c].scope.None? && s.calls[c].bound)
    ensures Do(s, WaitingAction(DoAbandon(c, why)), s') && c < |s'.calls|
    ensures s'.calls[c].pc == Leave(s.calls[c].pc.a, Some(why)) && s'.calls[c].from == s.calls[c].from
  {
    hide Wf;
    s' := SetCall(s, c, Leave(s.calls[c].pc.a, Some(why)));
  }

  lemma LeaveFails(s: State, c: CallId, why: Failure) returns (s': State)
    requires Wf(s) && c < |s.calls| && s.calls[c].pc.Leave? && s.calls[c].pc.err == Some(why)
    ensures TakesOwn(s, s', c) && c < |s'.calls| && s'.calls[c].pc == Failed(why)
  {
    var x;
    x, s' := LeavingMoves(s, c);
    hide Wf, Do;
    assert TakesOwn(s, s', c);
    LeaveFailsAt(s, x, s', c);
  }

  lemma LeaveFailsAt(s: State, x: Action, s': State, c: CallId)
    requires Wf(s) && Do(s, x, s') && OfCall(x, c) && c < |s.calls| && s.calls[c].pc.Leave?
    requires s.calls[c].pc.err.Some?
    ensures c < |s'.calls| && s'.calls[c].pc == Failed(s.calls[c].pc.err.value)
  {
    hide Wf, WaitEnds;
    NotWaitingStep(s, x, s', c);
    hide WaitingNext;
    StopsWaitingAt(s, s', c);
  }

  lemma StopsWaitingAt(s: State, s': State, c: CallId)
    requires Wf(s) && WaitingNext(s, DoStopWaiting(c), s') && c < |s.calls| && s.calls[c].pc.err.Some?
    ensures c < |s'.calls| && s'.calls[c].pc == Failed(s.calls[c].pc.err.value)
  {
    hide Wf, Reaches, Edges;
    StoppingEnds(s, s', c);
  }

  /** A caller whose context can end never builds on its own goroutine, so it can leave
      whatever it waits for in two steps of its own; so can every read in the select
      once the graph's context has ended. */
  lemma WaitersCanLeave(s: State, c: CallId, why: Failure)
    requires Reachable(s) && c < |s.calls| && (s.calls[c].pc.Inline? || s.calls[c].pc.Select?)
    requires (why == ErrClosed && s.cancelled && s.calls[c].pc.Select?)
             || (why == ErrCtx && s.calls[c].scope.None? && s.calls[c].bound)
    ensures exists path: seq<State> ::
              && OwnPath(path, c) && path[0] == s && |path| == 3
              && c < |path[2].calls| && path[2].calls[c].pc == Failed(why)
  {
    hide Reachable, Inv, Wf, Do, OwnPath, TakesOwn, Leads;
    ReachableWf(s);
    NeverInline(s, c);
    var s1 := SelectMoves(s, c, why);
    Takes(s, WaitingAction(DoAbandon(c, why)), s1);
    AbandonIsOwn(s, s1, c, why);
    var s2 := LeaveFails(s1, c, why);
    TwoSteps(s, s1, s2, c);
    var path := [s, s1, s2];
  }

  lemma AbandonIsOwn(s: State, s': State, c: CallId, why: Failure)
    requires Wf(s) && Do(s, WaitingAction(DoAbandon(c, why)), s')
    ensures TakesOwn(s, s', c)
  {
    hide Wf, Do;
  }

  lemma TwoSteps(s: State, s1: State, s2: State, c: CallId)
    requires TakesOwn(s, s1, c) && TakesOwn(s1, s2, c)
    ensures OwnPath([s, s1, s2], c)
  {
    hide TakesOwn;
  }

  lemma NeverInline(s: State, c: CallId)
    requires Reachable(s) && Inv(s) && c < |s.calls|
    ensures s.calls[c].scope.None? && s.calls[c].bound ==> !s.calls[c].pc.Inline?
  {
    CallFacts(s, c);
    hide Inv;
    var run :| IsRun(run) && run[|run| - 1] == s;
    RunExcused(run, |run| - 1, c);
  }

  // ---- Staying for the attempt -----------------------------------------------------------

  /** A read that creates an attempt stays with it: it is about to start it or inside
      it, until the attempt is over. */
  ghost predicate Stays(s: State, c: CallId, a: BuildId)
  {
    && a < |s.builds|
    && (s.builds[a].phase == Signalled
        || (c < |s.calls| && (s.calls[c].from.Some? || !s.calls[c].bound)
            && (s.calls[c].pc == Join(a, true) || s.calls[c].pc == Inline(a))))
  }

  lemma WaitingStays(s: State, y: WaitingStep, s': State, a: BuildId)
    requires Wf(s) && WaitingNext(s, y, s') && Stays(s, y.c, a) && s.builds[a].phase != Signalled
    requires !y.DoJoinAbort?
    ensures y.c < |s'.calls| && s'.calls[y.c].pc == Inline(a)
    ensures s'.calls[y.c].from == s.calls[y.c].from && s'.calls[y.c].bound == s.calls[y.c].bound
  {
    hide Wf, Accepted, Reaches, Edges;
  }

  lemma ReadingElsewhere(s: State, y: ReadingStep, s': State)
    requires Wf(s) && ReadingNext(s, y, s') && !y.DoStartRead? && !y.DoStartFrom?
    ensures y.c < |s.calls| && !s.calls[y.c].pc.Join? && !s.calls[y.c].pc.Inline?
  {
    hide Wf;
  }

  lemma EnteringElsewhere(s: State, y: EnteringStep, s': State)
    requires Wf(s) && EnteringNext(s, y, s')
    ensures y.c < |s.calls| && !s.calls[y.c].pc.Join? && !s.calls[y.c].pc.Inline?
  {
    hide Wf;
  }

  lemma OwnStepStays(s: State, x: Action, s': State, c: CallId, a: BuildId)
    requires Shape(s) && Wf(s) && Do(s, x, s') && OfCall(x, c) && Stays(s, c, a) && s.builds[a].phase != Signalled
    ensures c < |s'.calls| && s'.calls[c].pc == Inline(a)
    ensures s'.calls[c].from == s.calls[c].from && s'.calls[c].bound == s.calls[c].bound
  {
    hide Wf, Shape, ReadingNext, EnteringNext;
    match x {
      case ReadingAction(y) => ReadingElsewhere(s, y, s');
      case EnteringAction(y) => EnteringElsewhere(s, y, s');
      case WaitingAction(y) =>
        if y.DoJoinAbort? { KeepWaiting.NeverAborts(s, s', y.c); }
        hide WaitingNext;
        WaitingStays(s, y, s', a);
    }
  }

  lemma StepStays(s: State, x: Action, s': State, c: CallId, a: BuildId)
    requires Inv(s) && Wf(s) && Do(s, x, s') && Later(s, s') && Stays(s, c, a)
    ensures Stays(s', c, a)
  {
    InvWf(s);
    hide Inv, Wf, Do, Shape, Later;
    SignalLater(s, s', a);
    if s.builds[a].phase != Signalled {
      if OfCall(x, c) { OwnStepStays(s, x, s', c, a); } else { OthersLeaveCall(s, x, s', c); }
    }
  }

  lemma SignalLater(s: State, s': State, a: BuildId)
    requires Wf(s) && Later(s, s') && a < |s.builds|
    ensures a < |s'.builds| && (s.builds[a].phase == Signalled ==> s'.builds[a].phase == Signalled)
  {
    WfBuilds(s, a);
    assert BuildLater(s.builds[a], s'.builds[a], s.nodes[s.builds[a].node].epoch);
    hide Wf, BuildsLater;
  }

  /** An attempt started inside a builder, or by a caller whose context cannot end, is
      seen through by whoever created it: it does nothing else until the attempt's
      done channel is closed. */
  lemma CreatorStays(run: seq<State>, i: nat, k: nat, c: CallId, a: BuildId)
    requires IsRun(run) && i <= k < |run| && c < |run[i].calls| && a < |run[i].builds|
    requires run[i].calls[c].pc == Join(a, true) && (run[i].calls[c].from.Some? || !run[i].calls[c].bound)
    ensures a < |run[k].builds|
    ensures run[k].builds[a].phase == Signalled
            || (c < |run[k].calls| && (run[k].calls[c].pc == Join(a, true) || run[k].calls[c].pc == Inline(a)))
  {
    StaysAlong(run, i, k, c, a);
  }

  lemma {:induction false} StaysAlong(run: seq<State>, i: nat, k: nat, c: CallId, a: BuildId)
    requires IsRun(run) && i <= k < |run| && Stays(run[i], c, a)
    ensures Stays(run[k], c, a)
    decreases k
  {
    hide Inv, Do, Later, CallsLater, Stays;
    if i < k {
      StaysAlong(run, i, k - 1, c, a);
      RunLater(run, k - 1);
      assert Next(run[k - 1], run[k - 1 + 1]);
      var x :| Do(run[k - 1], x, run[k]);
      StepStays(run[k - 1], x, run[k], c, a);
    }
  }
}
