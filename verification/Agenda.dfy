/** What Close and the invalidations under way still have to do: which providers
    are left to shut, and what they wait for. */
module Agenda {
  import opened Paths
  import opened State
  import opened Steps
  import opened Invariants
  import opened References
  import opened Waiting
  import opened Cleanups
  import opened Shutdown
  import opened Keeping
  import opened Runs
  import opened History
  import opened Lifetimes
  import opened Consistency
  import opened Deadlocks
  import opened ReadsOverRuns
  import opened Draining

  predicate Distinct(s: seq<nat>)
  {
    forall i, j :: 0 <= i < j < |s| ==> s[i] != s[j]
  }

  /** Every provider joins the graph once, when it is ready. */
  ghost predicate MembersOk(s: State)
  {
    && Distinct(s.members)
    && forall i :: 0 <= i < |s.members| ==> s.members[i] < |s.nodes| && s.nodes[s.members[i]].ready
  }

  /** The providers Close has still to shut: the first ones constructed, all open. */
  ghost predicate ToShutOk(s: State)
  {
    s.close.Cancelling? || s.close.Shutting? ==>
      && s.close.members <= s.members
      && forall i :: 0 <= i < |s.close.members| ==>
           s.close.members[i] < |s.nodes| && !s.nodes[s.close.members[i]].closed
  }

  /** g is a value nobody holds any more. */
  predicate Spent(s: State, g: Option<BuildId>)
  {
    g.Some? ==> g.value < |s.builds| && s.builds[g.value].outcome == Published && s.builds[g.value].refs == 0
  }

  ghost predicate AwaitedOk(s: State)
  {
    && (s.close.Shutting? ==> Spent(s, s.close.await))
    && forall i :: 0 <= i < |s.walks| ==> Spent(s, s.walks[i].await)
  }

  /** A recursive call of invalidate comes after its caller, and has nothing left to
      do when it returns. */
  ghost predicate CallsNested(walks: seq<Walk>)
  {
    forall i :: 0 <= i < |walks| ==>
      && (walks[i].child.Some? ==> i < walks[i].child.value < |walks|)
      && (walks[i].returned ==> walks[i].todo == {} && walks[i].held.None?)
  }

  ghost predicate AgendaOk(s: State)
  {
    MembersOk(s) && ToShutOk(s) && AwaitedOk(s) && CallsNested(s.walks)
  }

  // ---- Steps that leave the agenda alone --------------------------------------

  ghost predicate SameDoors(s: State, s': State)
  {
    |s.nodes| == |s'.nodes| && forall n :: 0 <= n < |s.nodes| ==> s'.nodes[n].closed == s.nodes[n].closed
  }

  ghost predicate Aside(s: State, s': State)
  {
    s'.members == s.members && s'.walks == s.walks && s'.close == s.close && SameDoors(s, s')
  }

  lemma ReadingAside(s: State, a: ReadingStep, s': State)
    requires Wf(s) && ReadingNext(s, a, s')
    ensures Aside(s, s')
  {
  }

  lemma EnteringAside(s: State, a: EnteringStep, s': State)
    requires Wf(s) && EnteringNext(s, a, s')
    ensures Aside(s, s')
  {
  }

  lemma WaitingAside(s: State, a: WaitingStep, s': State)
    requires Wf(s) && WaitingNext(s, a, s')
    ensures Aside(s, s')
  {
    if a.DoJoinAbort? {
      AbortAside(s, s', a.c);
    } else {
      hide Wf, Accepted, Reaches, Edges, Aside;
      AsideNodes(s, s') by { assert s'.nodes == s.nodes; hide WaitingNext; }
    }
  }

  lemma AbortAside(s: State, s': State, c: CallId)
    requires Wf(s) && JoinAbort(s, s', c)
    ensures Aside(s, s')
  {
    hide Reaches, Edges;
  }

  lemma AsideNodes(s: State, s': State)
    requires s'.nodes == s.nodes && s'.members == s.members && s'.walks == s.walks && s'.close == s.close
    ensures Aside(s, s')
  {
  }

  lemma BuildingAside(s: State, a: BuildingStep, s': State)
    requires Wf(s) && BuildingNext(s, a, s') && !a.DoPublishEager?
    ensures Aside(s, s')
  {
    hide NoCallsOf;
  }

  lemma ReleasingAside(s: State, a: ReleasingStep, s': State)
    requires Wf(s) && ReleasingNext(s, a, s')
    ensures Aside(s, s')
  {
    hide Wf;
  }

  lemma SpentLater(s: State, s': State, g: Option<BuildId>)
    requires Wf(s) && BuildsLater(s, s') && Spent(s, g)
    ensures Spent(s', g)
  {
    if g.Some? {
      WfBuilds(s, g.value);
      assert BuildLater(s.builds[g.value], s'.builds[g.value], s.nodes[s.builds[g.value].node].epoch);
    }
  }

  lemma AwaitedLater(s: State, s': State)
    requires Wf(s) && BuildsLater(s, s') && AwaitedOk(s) && s'.walks == s.walks && s'.close == s.close
    ensures AwaitedOk(s')
  {
    hide Wf, BuildsLater, Spent;
    if s.close.Shutting? { SpentLater(s, s', s.close.await); }
    forall i | 0 <= i < |s'.walks| ensures Spent(s', s'.walks[i].await) {
      SpentLater(s, s', s.walks[i].await);
    }
  }

  lemma MembersLater(s: State, s': State)
    requires MembersOk(s) && NodesLater(s, s') && s'.members == s.members
    ensures MembersOk(s')
  {
    hide Distinct;
  }

  lemma AsideKept(s: State, s': State)
    requires Wf(s) && Later(s, s') && AgendaOk(s) && Aside(s, s')
    ensures AgendaOk(s')
  {
    hide Wf, BuildsLater, AwaitedOk, CallsNested, MembersOk, GraphLater;
    MembersLater(s, s');
    AwaitedLater(s, s');
    hide NodesLater;
  }

  // ---- Construction -------------------------------------------------------------

  lemma MakingKept(s: State, a: MakingStep, s': State)
    requires Wf(s) && MakingNext(s, a, s') && AgendaOk(s)
    ensures AgendaOk(s')
  {
    hide Wf;
    assert MembersOk(s') by {
      hide AwaitedOk, CallsNested, ToShutOk;
      if a.DoMakeLazy? {
        assert s'.members == s.members + [|s.nodes|];
      }
    }
    hide MembersOk;
    assert AwaitedOk(s') by { hide CallsNested, ToShutOk; }
    hide AwaitedOk, CallsNested;
  }

  lemma PublishEagerKept(s: State, s': State, b: BuildId)
    requires Wf(s) && Later(s, s') && PublishEager(s, s', b) && AgendaOk(s)
    requires !s.nodes[s.builds[b].node].ready && (s.close.Open? <==> !s.closed)
    ensures AgendaOk(s')
  {
    hide NoCallsOf, Wf, BuildsLater, GraphLater;
    var n := s.builds[b].node;
    assert n < |s.nodes| by { WfBuilds(s, b); }
    assert MembersOk(s') by {
      hide AwaitedOk, CallsNested, ToShutOk;
      assert s'.members == s.members + [n];
    }
    hide MembersOk, NodesLater;
    AwaitedLater(s, s') by { assert s'.walks == s.walks && s'.close == s.close; hide AwaitedOk, CallsNested, ToShutOk; }
    hide AwaitedOk, CallsNested;
  }

  // ---- Invalidation ----------------------------------------------------------------

  lemma WalkingDoors(s: State, a: WalkingStep, s': State)
    requires Wf(s) && WalkingNext(s, a, s')
    ensures SameDoors(s, s') && s'.members == s.members && s'.close == s.close && |s.walks| <= |s'.walks|
  {
  }

  lemma WalkingNested(s: State, a: WalkingStep, s': State)
    requires Wf(s) && WalkingNext(s, a, s') && CallsNested(s.walks)
    ensures CallsNested(s'.walks)
  {
    hide Wf;
  }

  lemma WalkingAwaited(s: State, a: WalkingStep, s': State)
    requires Inv(s) && Wf(s) && WalkingNext(s, a, s') && BuildsLater(s, s') && AwaitedOk(s)
    ensures AwaitedOk(s')
  {
    hide Inv, AwaitedOk;
    WalkingDoors(s, a, s');
    if a.DoWalkRelease? {
      WalkReleaseSpent(s, s', a.i);
    }
    WalkingAwaits(s, a, s');
  }

  /** Awaits only change where a release starts one. */
  lemma WalkingAwaits(s: State, a: WalkingStep, s': State)
    requires Wf(s) && WalkingNext(s, a, s') && BuildsLater(s, s') && AwaitedOk(s) && s'.close == s.close
    requires a.DoWalkRelease? ==> a.i < |s'.walks| && Spent(s', s'.walks[a.i].await)
    ensures AwaitedOk(s')
  {
    if s.close.Shutting? { SpentLater(s, s', s.close.await); }
    forall i | 0 <= i < |s'.walks| ensures Spent(s', s'.walks[i].await) {
      if i < |s.walks| { SpentLater(s, s', s.walks[i].await); }
    }
  }

  lemma WalkReleaseSpent(s: State, s': State, i: WalkId)
    requires Inv(s) && Wf(s) && WalkRelease(s, s', i)
    ensures i < |s'.walks| && Spent(s', s'.walks[i].await)
  {
    hide Inv, Wf, ChildDone;
    HeldPlace(s, InWalk(i));
    BuildFacts(s, s.walks[i].held.value);
  }

  lemma ShutReleaseSpent(s: State, s': State)
    requires Inv(s) && Wf(s) && ShutRelease(s, s')
    ensures s'.close.Shutting? && Spent(s', s'.close.await)
  {
    hide Inv, Wf;
    HeldPlace(s, InShut);
    BuildFacts(s, s.close.held.value);
  }

  lemma WalkingKept(s: State, a: WalkingStep, s': State)
    requires Inv(s) && Wf(s) && WalkingNext(s, a, s') && Later(s, s') && AgendaOk(s)
    ensures AgendaOk(s')
  {
    hide Inv, Wf, MembersOk, AwaitedOk, CallsNested, BuildsLater, NodesLater, GraphLater, WalkingNext;
    WalkingDoors(s, a, s');
    WalkingNested(s, a, s');
    WalkingAwaited(s, a, s');
    MembersLater(s, s');
  }

  // ---- Close ------------------------------------------------------------------------

  lemma OpenNodes(s: State, n: NodeId)
    requires Inv(s) && !s.closed && n < |s.nodes|
    ensures !s.nodes[n].closed
  {
    assert NodeOk(s.nodes, s.builds, s.closed, n, s.nodes[n]);
  }

  lemma BeginCloseToShut(s: State, s': State)
    requires Inv(s) && Wf(s) && BeginClose(s, s') && MembersOk(s)
    ensures ToShutOk(s')
  {
    hide Inv, Wf, Distinct;
    forall i | 0 <= i < |s.members| ensures !s.nodes[s.members[i]].closed { OpenNodes(s, s.members[i]); }
  }

  lemma ShutToShut(s: State, s': State)
    requires Wf(s) && Shut(s, s') && MembersOk(s) && ToShutOk(s)
    ensures ToShutOk(s')
  {
    var ms, k := s.close.members, |s.close.members| - 1;
    assert ms[k] < |s.nodes|;
    hide Wf;
    forall i | 0 <= i < k ensures ms[i] < |s.nodes| && ms[i] != ms[k] {
      assert ms[i] == s.members[i] && ms[k] == s.members[k];
    }
  }

  lemma ClosingToShut(s: State, a: ClosingStep, s': State)
    requires Inv(s) && Wf(s) && ClosingNext(s, a, s') && MembersOk(s) && ToShutOk(s)
    ensures ToShutOk(s')
  {
    hide Inv, Wf, MembersOk;
    match a {
      case DoBeginClose => BeginCloseToShut(s, s');
      case DoShut => ShutToShut(s, s');
      case _ =>
    }
  }

  lemma ClosingAwaited(s: State, a: ClosingStep, s': State)
    requires Inv(s) && Wf(s) && ClosingNext(s, a, s') && BuildsLater(s, s') && AwaitedOk(s)
    ensures AwaitedOk(s')
  {
    hide Inv;
    if a.DoShutRelease? { ShutReleaseSpent(s, s'); }
    hide Wf, BuildsLater, Spent;
    assert s'.walks == s.walks;
    if s'.close.Shutting? && s.close.Shutting? && s'.close.await == s.close.await { SpentLater(s, s', s.close.await); }
    forall i | 0 <= i < |s'.walks| ensures Spent(s', s'.walks[i].await) {
      SpentLater(s, s', s.walks[i].await);
    }
    NoneSpent(s');
  }

  lemma NoneSpent(s: State)
    ensures Spent(s, None)
  {
  }

  lemma ClosingMembers(s: State, a: ClosingStep, s': State)
    requires Wf(s) && ClosingNext(s, a, s')
    ensures s'.members == s.members && s'.walks == s.walks
  {
    hide Wf;
  }

  lemma ClosingKept(s: State, a: ClosingStep, s': State)
    requires Inv(s) && Wf(s) && ClosingNext(s, a, s') && Later(s, s') && AgendaOk(s)
    ensures AgendaOk(s')
  {
    hide Inv, Wf, MembersOk, ToShutOk, AwaitedOk, CallsNested, BuildsLater, NodesLater, GraphLater, ClosingNext;
    ClosingMembers(s, a, s');
    ClosingToShut(s, a, s');
    ClosingAwaited(s, a, s');
    MembersLater(s, s');
  }

  lemma ForcingMembers(s: State, a: ForcingStep, s': State)
    requires Wf(s) && ForcingNext(s, a, s')
    ensures s'.members == s.members && s'.walks == s.walks && !s.close.Shutting?
    ensures !s'.close.Shutting? && !s'.close.Cancelling?
  {
    hide Wf;
  }

  lemma ForcingKept(s: State, a: ForcingStep, s': State)
    requires Wf(s) && ForcingNext(s, a, s') && Later(s, s') && AgendaOk(s)
    ensures AgendaOk(s')
  {
    hide Wf, MembersOk, CallsNested, BuildsLater, NodesLater, GraphLater, ForcingNext, Spent;
    ForcingMembers(s, a, s');
    MembersLater(s, s');
    forall i | 0 <= i < |s'.walks| ensures Spent(s', s'.walks[i].await) {
      SpentLater(s, s', s.walks[i].await);
    }
  }

  // ---- Every run ------------------------------------------------------------------------

  lemma BuildingKept(s: State, a: BuildingStep, s': State)
    requires Inv(s) && Wf(s) && BuildingNext(s, a, s') && Later(s, s') && AgendaOk(s)
    ensures AgendaOk(s')
  {
    hide AgendaOk, Later;
    match a {
      case DoPublishEager(b) =>
        PendingNotReady(s, b);
        CloseFacts(s);
        hide Inv, Wf;
        PublishEagerKept(s, s', b);
      case _ =>
        hide Inv, Wf, BuildingNext;
        BuildingAside(s, a, s');
        AsideKept(s, s');
    }
  }

  lemma PendingNotReady(s: State, b: BuildId)
    requires Inv(s) && Wf(s) && b < |s.builds| && s.builds[b].phase == Building && IsEager(s, b)
    ensures !s.nodes[s.builds[b].node].ready
  {
    hide Inv;
    BuildFacts(s, b);
    PendingFacts(s, b);
    NodeFacts(s, s.builds[b].node);
  }

  lemma AgendaKept(s: State, a: Action, s': State)
    requires Inv(s) && Wf(s) && Do(s, a, s') && Later(s, s') && AgendaOk(s)
    ensures AgendaOk(s')
  {
    hide Inv, Wf, AgendaOk, Later, Aside;
    hide MakingNext, ReadingNext, EnteringNext, WaitingNext, BuildingNext;
    hide ReleasingNext, WalkingNext, ClosingNext, ForcingNext;
    match a {
      case MakingAction(x) => MakingKept(s, x, s');
      case ReadingAction(x) => ReadingAside(s, x, s'); AsideKept(s, s');
      case EnteringAction(x) => EnteringAside(s, x, s'); AsideKept(s, s');
      case WaitingAction(x) => WaitingAside(s, x, s'); AsideKept(s, s');
      case BuildingAction(x) => BuildingKept(s, x, s');
      case ReleasingAction(x) => ReleasingAside(s, x, s'); AsideKept(s, s');
      case WalkingAction(x) => WalkingKept(s, x, s');
      case ClosingAction(x) => ClosingKept(s, x, s');
      case ForcingAction(x) => ForcingKept(s, x, s');
    }
  }

  lemma {:induction false} AgendaAlong(run: seq<State>, i: nat)
    requires IsRun(run) && i < |run|
    ensures AgendaOk(run[i])
    decreases i
  {
    hide Inv, Do, AgendaOk, Later, CallsLater;
    if i == 0 {
      AgendaStart();
    } else {
      AgendaAlong(run, i - 1);
      RunLater(run, i - 1);
      assert Next(run[i - 1], run[i - 1 + 1]);
      var a :| Do(run[i - 1], a, run[i]);
      AgendaKept(run[i - 1], a, run[i]);
    }
  }

  lemma AgendaStart()
    ensures AgendaOk(EMPTY)
  {
  }

  lemma AgendaReachable(s: State)
    requires Reachable(s)
    ensures AgendaOk(s)
  {
    hide AgendaOk;
    var run :| IsRun(run) && run[|run| - 1] == s;
    AgendaAlong(run, |run| - 1);
  }
}
