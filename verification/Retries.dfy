/** Every extra turn of get's loop is paid for: between leaving the top of the
    loop and coming back to it, the provider's value changed or one of its
    attempts ended. */
module Retries {
  import opened Paths
  import opened State
  import opened Steps
  import opened Invariants
  import opened References
  import opened Waiting
  import opened Keeping
  import opened Runs
  import opened History
  import opened Consistency
  import opened Lifetimes
  import opened ReadsOverRuns
  import opened Freshness
  import opened Cleanups
  import opened Shutdown
  import KeepWaiting

  /** An attempt of provider n ends in this step. */
  ghost predicate Ends(s: State, s': State, n: NodeId)
  {
    exists b :: 0 <= b < |s.builds| && b < |s'.builds| && s.builds[b].node == n
                && s.builds[b].outcome == Pending && s'.builds[b].outcome != Pending
  }

  ghost predicate SlotMoved(s: State, s': State, n: NodeId)
  {
    n < |s.nodes| && n < |s'.nodes| && (s'.nodes[n].val != s.nodes[n].val || Ends(s, s', n))
  }

  /** Where a read that has left the top of the loop can be as long as neither
      has happened. */
  predicate OnTheWay(s: State, x: Call)
  {
    && x.node < |s.nodes|
    && match x.pc
       case Claim(g) => s.nodes[x.node].val == Some(g)
       case Enter => s.nodes[x.node].val == None
       case Join(a, _) => a < |s.builds| && s.builds[a].outcome == Pending && s.builds[a].node == x.node
       case Inline(a) => a < |s.builds| && s.builds[a].outcome == Pending && s.builds[a].node == x.node
       case Select(a) => a < |s.builds| && s.builds[a].outcome == Pending && s.builds[a].node == x.node
       case Leave(_, err) => err.Some?
       case Got(_) => true
       case Failed(_) => true
       case Kept => true
       case _ => false
  }

  lemma SlotFacts(s: State, c: CallId)
    requires Inv(s) && c < |s.calls|
    ensures Wf(s) && CallOk(s.nodes, s.builds, c, s.calls[c])
    ensures s.calls[c].node < |s.nodes|
    ensures NodeOk(s.nodes, s.builds, s.closed, s.calls[c].node, s.nodes[s.calls[c].node])
    ensures s.calls[c].pc.Claim? && s.nodes[s.calls[c].node].val == Some(s.calls[c].pc.g) ==>
              s.calls[c].pc.g < |s.builds| && s.builds[s.calls[c].pc.g].refs > 0
  {
    hide Inv;
    CallFacts(s, c);
    NodeFacts(s, s.calls[c].node);
    InvWf(s);
    if s.calls[c].pc.Claim? && s.nodes[s.calls[c].node].val == Some(s.calls[c].pc.g) {
      HeldPlace(s, InSlot(s.calls[c].node));
    }
  }

  lemma JoinedEnds(s: State, c: CallId)
    requires Inv(s) && c < |s.calls| && OnTheWay(s, s.calls[c])
    ensures s.calls[c].pc.Inline? || s.calls[c].pc.Select? ==> s.builds[s.calls[c].pc.a].phase != Signalled
  {
    hide Inv;
    if s.calls[c].pc.Inline? || s.calls[c].pc.Select? {
      BuildFacts(s, s.calls[c].pc.a);
    }
  }

  /** A step that leaves c where it is, or moves it without a change of its slot. */
  lemma OtherStep(s: State, s': State, x: Call)
    requires x.node < |s.nodes| && OnTheWay(s, x) && !SlotMoved(s, s', x.node)
    requires |s.nodes| <= |s'.nodes| && BuildsLater(s, s') && Wf(s)
    ensures OnTheWay(s', x)
  {
    hide Wf, BuildLater;
    if x.pc.Join? || x.pc.Inline? || x.pc.Select? {
      WfBuilds(s, x.pc.a);
      assert BuildLater(s.builds[x.pc.a], s'.builds[x.pc.a], s.nodes[s.builds[x.pc.a].node].epoch);
      SameNode(s.builds[x.pc.a], s'.builds[x.pc.a], s.nodes[s.builds[x.pc.a].node].epoch);
    }
  }

  lemma SameNode(x: Build, y: Build, epoch: nat)
    requires BuildLater(x, y, epoch)
    ensures y.node == x.node
  {
  }

  // ---- Steps of other reads ----------------------------------------------------

  predicate SameCall(s: State, s': State, c: CallId)
  {
    c < |s.calls| && c < |s'.calls| && s'.calls[c] == s.calls[c]
  }

  lemma ReadingOthers(s: State, a: ReadingStep, s': State, c: CallId)
    requires Wf(s) && ReadingNext(s, a, s') && c < |s.calls|
    requires a.DoStartRead? || a.DoStartFrom? || a.c != c
    ensures SameCall(s, s', c)
  {
    hide Wf;
  }

  lemma EnteringOthers(s: State, a: EnteringStep, s': State, c: CallId)
    requires Wf(s) && EnteringNext(s, a, s') && c < |s.calls| && a.c != c
    ensures SameCall(s, s', c)
  {
    hide Wf;
  }

  lemma WaitingOthers(s: State, a: WaitingStep, s': State, c: CallId)
    requires Wf(s) && WaitingNext(s, a, s') && c < |s.calls| && a.c != c
    ensures SameCall(s, s', c)
  {
    hide Wf, Reaches, Edges;
  }

  // ---- Steps of the read itself --------------------------------------------------

  lemma ReadingOn(s: State, a: ReadingStep, s': State)
    requires Wf(s) && ReadingNext(s, a, s') && !a.DoStartRead? && !a.DoStartFrom?
    requires a.c < |s.calls| && OnTheWay(s, s.calls[a.c])
    requires s.calls[a.c].pc.Claim? ==> s.builds[s.calls[a.c].pc.g].refs > 0
    ensures a.c < |s'.calls| && s'.calls[a.c] == s.calls[a.c].(pc := s'.calls[a.c].pc)
    ensures s'.calls[a.c].pc.Got? || s'.calls[a.c].pc.Kept?
  {
    hide Wf;
  }

  lemma EnteringOn(s: State, a: EnteringStep, s': State)
    requires Wf(s) && EnteringNext(s, a, s') && a.c < |s.calls| && OnTheWay(s, s.calls[a.c])
    requires NodeOk(s.nodes, s.builds, s.closed, s.calls[a.c].node, s.nodes[s.calls[a.c].node])
    ensures a.c < |s'.calls| && s'.calls[a.c] == s.calls[a.c].(pc := s'.calls[a.c].pc)
    ensures OnTheWay(s', s'.calls[a.c])
  {
    hide Wf;
  }

  lemma JoiningOn(s: State, a: WaitingStep, s': State)
    requires Wf(s) && WaitingNext(s, a, s') && a.c < |s.calls| && OnTheWay(s, s.calls[a.c])
    requires a.DoJoinWait? || a.DoJoinStart?
    requires CallWf(s.calls[a.c], s)
    ensures a.c < |s'.calls| && s'.calls[a.c] == s.calls[a.c].(pc := s'.calls[a.c].pc)
    ensures OnTheWay(s', s'.calls[a.c])
  {
    hide Wf, Accepted, Reaches, Edges;
  }

  lemma LeavingOn(s: State, a: WaitingStep, s': State)
    requires Wf(s) && WaitingNext(s, a, s') && a.c < |s.calls| && OnTheWay(s, s.calls[a.c])
    requires !a.DoJoinWait? && !a.DoJoinStart? && !a.DoJoinAbort?
    requires s.calls[a.c].pc.Inline? || s.calls[a.c].pc.Select? ==>
               s.builds[s.calls[a.c].pc.a].phase != Signalled
    requires CallWf(s.calls[a.c], s)
    ensures a.c < |s'.calls| && s'.calls[a.c] == s.calls[a.c].(pc := s'.calls[a.c].pc)
    ensures OnTheWay(s', s'.calls[a.c])
  {
    hide Wf, Accepted, Reaches, Edges;
  }

  // ---- Over a run --------------------------------------------------------------------

  lemma StepOn(s: State, a: Action, s': State, c: CallId)
    requires Inv(s) && Wf(s) && Do(s, a, s') && Later(s, s') && c < |s.calls|
    requires OnTheWay(s, s.calls[c]) && !SlotMoved(s, s', s.calls[c].node)
    ensures c < |s'.calls| && s'.calls[c].node == s.calls[c].node && OnTheWay(s', s'.calls[c])
  {
    SlotFacts(s, c);
    JoinedEnds(s, c);
    InvWf(s);
    hide Inv, Wf, Shape, RefsOk, NodeOk, CallOk, OnTheWay, SlotMoved, BuildsLater;
    hide MakingNext, ReadingNext, EnteringNext, WaitingNext, BuildingNext;
    hide ReleasingNext, WalkingNext, ClosingNext, ForcingNext;
    OtherStep(s, s', s.calls[c]);
    match a {
      case MakingAction(x) => MakingLater(s, x, s');
      case ReadingAction(x) => ReadStepOn(s, x, s', c);
      case EnteringAction(x) =>
        if x.c == c { EnteringOn(s, x, s'); } else { EnteringOthers(s, x, s', c); }
      case WaitingAction(x) =>
        if x.DoJoinAbort? { KeepWaiting.NeverAborts(s, s', x.c); }
        else if x.c != c { WaitingOthers(s, x, s', c); }
        else if x.DoJoinWait? || x.DoJoinStart? { JoiningOn(s, x, s'); } else { LeavingOn(s, x, s'); }
      case BuildingAction(x) => BuildingLater(s, x, s');
      case ReleasingAction(x) => ReleasingLater(s, x, s');
      case WalkingAction(x) => WalkingLater(s, x, s');
      case ClosingAction(x) => ClosingLater(s, x, s');
      case ForcingAction(x) => ForcingLater(s, x, s');
    }
  }

  lemma ReadStepOn(s: State, x: ReadingStep, s': State, c: CallId)
    requires Wf(s) && ReadingNext(s, x, s') && c < |s.calls|
    requires s.calls[c].pc.Claim? ==> s.builds[s.calls[c].pc.g].refs > 0
    requires OnTheWay(s, s.calls[c]) && OnTheWay(s', s.calls[c])
    ensures c < |s'.calls| && s'.calls[c].node == s.calls[c].node && OnTheWay(s', s'.calls[c])
  {
    hide Wf, ReadingNext;
    if x.DoStartRead? || x.DoStartFrom? || x.c != c {
      ReadingOthers(s, x, s', c);
    } else {
      ReadingOn(s, x, s');
    }
  }

  lemma {:induction false} StaysOnTheWay(run: seq<State>, i: nat, k: nat, c: CallId)
    requires IsRun(run) && i < k < |run| && c < |run[i].calls| && c < |run[i + 1].calls|
    requires run[i].calls[c].pc == Load && run[i + 1].calls[c].pc != Load
    requires forall m :: i <= m < k ==> !SlotMoved(run[m], run[m + 1], run[i].calls[c].node)
    ensures c < |run[k].calls| && run[k].calls[c].node == run[i].calls[c].node
    ensures OnTheWay(run[k], run[k].calls[c])
    decreases k
  {
    hide Inv, Do, Later, CallsLater, OnTheWay, SlotMoved;
    RunLater(run, k - 1);
    assert Next(run[k - 1], run[k - 1 + 1]);
    var a :| Do(run[k - 1], a, run[k]);
    if k == i + 1 {
      LeftTheTop(run[i], a, run[k], c);
    } else {
      StaysOnTheWay(run, i, k - 1, c);
      assert !SlotMoved(run[k - 1], run[k - 1 + 1], run[i].calls[c].node);
      StepOn(run[k - 1], a, run[k], c);
    }
  }

  lemma LeftTheTop(s: State, a: Action, s': State, c: CallId)
    requires Inv(s) && Wf(s) && Do(s, a, s') && Later(s, s') && CallsLater(s, s')
    requires c < |s.calls| && c < |s'.calls| && s.calls[c].pc == Load && s'.calls[c].pc != Load
    ensures s'.calls[c].node == s.calls[c].node && OnTheWay(s', s'.calls[c])
  {
    SlotFacts(s, c);
    InvWf(s);
    hide Inv, Wf, Shape, RefsOk, NodeOk, CallOk, OnTheWay, NodesLater, BuildsLater, GraphLater;
    hide MakingNext, ReadingNext, EnteringNext, WaitingNext, BuildingNext;
    hide ReleasingNext, WalkingNext, ClosingNext, ForcingNext;
    assert CallLater(s, s.calls[c], s'.calls[c]);
    match a {
      case MakingAction(x) => MakingLater(s, x, s');
      case ReadingAction(x) => LoadLeavesTop(s, x, s', c);
      case EnteringAction(x) =>
        if x.c == c { EnteringWants(s, x, s'); } else { EnteringOthers(s, x, s', c); }
      case WaitingAction(x) =>
        if x.c == c { WaitingWants(s, x, s'); } else { WaitingOthers(s, x, s', c); }
      case BuildingAction(x) => BuildingLater(s, x, s');
      case ReleasingAction(x) => ReleasingLater(s, x, s');
      case WalkingAction(x) => WalkingLater(s, x, s');
      case ClosingAction(x) => ClosingLater(s, x, s');
      case ForcingAction(x) => ForcingLater(s, x, s');
    }
  }

  lemma EnteringWants(s: State, a: EnteringStep, s': State)
    requires Wf(s) && EnteringNext(s, a, s')
    ensures a.c < |s.calls| && s.calls[a.c].pc != Load
  {
    hide Wf;
  }

  lemma WaitingWants(s: State, a: WaitingStep, s': State)
    requires Wf(s) && WaitingNext(s, a, s')
    ensures a.c < |s.calls| && s.calls[a.c].pc != Load
  {
    hide Wf, Accepted, Reaches, Edges;
  }

  lemma LoadLeavesTop(s: State, a: ReadingStep, s': State, c: CallId)
    requires Wf(s) && ReadingNext(s, a, s') && c < |s.calls| && c < |s'.calls|
    requires s.calls[c].pc == Load && s'.calls[c].pc != Load && s.calls[c].node < |s.nodes|
    ensures OnTheWay(s', s'.calls[c])
  {
    hide Wf;
    if a.DoStartRead? || a.DoStartFrom? || a.c != c {
      ReadingOthers(s, a, s', c);
    }
  }

  /** If a read leaves the top of its loop at i and is back there at k, then in
      between its provider's value changed, by a publication, an invalidation or
      the shutdown, or one of its provider's attempts ended. */
  lemma TurnsArePaidFor(run: seq<State>, i: nat, k: nat, c: CallId)
    requires IsRun(run) && i + 1 < k < |run| && c < |run[i].calls|
    requires c < |run[i + 1].calls| && c < |run[k].calls|
    requires run[i].calls[c].pc == Load && run[i + 1].calls[c].pc != Load && run[k].calls[c].pc == Load
    ensures exists m :: i <= m < k && SlotMoved(run[m], run[m + 1], run[i].calls[c].node)
  {
    hide IsRun, SlotMoved;
    if forall m :: i <= m < k ==> !SlotMoved(run[m], run[m + 1], run[i].calls[c].node) {
      StaysOnTheWay(run, i, k, c);
    }
  }
}
