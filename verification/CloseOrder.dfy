/** The order of Close: it ends the graph's context first, then shuts the providers
    in the order opposite to that in which they were constructed. */
module CloseOrder {
  import opened Paths
  import opened State
  import opened Steps
  import opened Invariants
  import opened References
  import opened Waiting
  import opened Shutdown
  import opened Keeping
  import opened Runs
  import opened History
  import opened Consistency
  import opened Draining
  import opened ReadsOverRuns
  import opened Agenda
  import Cascades
  import FirstProvider

  /** Close has cancelled the graph's context before it shuts the first provider. */
  predicate CancelsFirst(s: State)
  {
    s.close.Open? || s.close.Cancelling? || s.cancelled
  }

  lemma ClosingCancels(s: State, a: ClosingStep, s': State)
    requires Wf(s) && ClosingNext(s, a, s') && CancelsFirst(s)
    ensures CancelsFirst(s')
  {
    hide Wf;
  }

  lemma ForcingCancels(s: State, a: ForcingStep, s': State)
    requires Wf(s) && ForcingNext(s, a, s') && CancelsFirst(s)
    ensures CancelsFirst(s')
  {
    hide Wf;
  }

  lemma OtherCancels(s: State, s': State)
    requires CancelsFirst(s) && GraphLater(s, s') && s'.close == s.close
    ensures CancelsFirst(s')
  {
  }

  lemma StepCancels(s: State, a: Action, s': State)
    requires Wf(s) && Do(s, a, s') && GraphLater(s, s') && CancelsFirst(s)
    ensures CancelsFirst(s')
  {
    hide Wf, SameDoors, GraphLater, CancelsFirst;
    hide MakingNext, ReadingNext, EnteringNext, WaitingNext, BuildingNext;
    hide ReleasingNext, WalkingNext, ClosingNext, ForcingNext;
    match a {
      case MakingAction(x) => Cascades.MakingClose(s, x, s'); OtherCancels(s, s');
      case ReadingAction(x) => ReadingAside(s, x, s'); OtherCancels(s, s');
      case EnteringAction(x) => EnteringAside(s, x, s'); OtherCancels(s, s');
      case WaitingAction(x) => WaitingAside(s, x, s'); OtherCancels(s, s');
      case BuildingAction(x) => Cascades.BuildingClose(s, x, s'); OtherCancels(s, s');
      case ReleasingAction(x) => ReleasingAside(s, x, s'); OtherCancels(s, s');
      case WalkingAction(x) => WalkingDoors(s, x, s'); OtherCancels(s, s');
      case ClosingAction(x) => ClosingCancels(s, x, s');
      case ForcingAction(x) => ForcingCancels(s, x, s');
    }
  }

  lemma {:induction false} CancelsAlong(run: seq<State>, k: nat)
    requires IsRun(run) && k < |run|
    ensures CancelsFirst(run[k])
    decreases k
  {
    hide Inv, Do, CallsLater, NodesLater, BuildsLater;
    if k > 0 {
      CancelsAlong(run, k - 1);
      RunLater(run, k - 1);
      assert Next(run[k - 1], run[k - 1 + 1]);
      var a :| Do(run[k - 1], a, run[k]);
      hide CancelsFirst, GraphLater;
      StepCancels(run[k - 1], a, run[k]);
    }
  }

  /** When Close shuts providers, and from then on, the graph's context has ended. */
  lemma CloseCancels(s: State)
    requires Reachable(s) && (s.close.Shutting? || PastShutting(s.close))
    ensures s.cancelled
  {
    var run :| IsRun(run) && run[|run| - 1] == s;
    CancelsAlong(run, |run| - 1);
  }

  // ---- The order of the providers ------------------------------------------------------------

  lemma {:induction false} MembersAlong(run: seq<State>, i: nat, k: nat)
    requires IsRun(run) && i <= k < |run|
    ensures run[i].members <= run[k].members
    decreases k
  {
    hide Inv, Do, Later, CallsLater;
    if i < k {
      MembersAlong(run, i, k - 1);
      RunLater(run, k - 1);
      assert Next(run[k - 1], run[k - 1 + 1]);
      var a :| Do(run[k - 1], a, run[k]);
      FirstProvider.MembersGrow(run[k - 1], a, run[k]);
    }
  }

  /** n stands at place p. */
  predicate MemberAt(s: State, p: nat, n: NodeId)
  {
    p < |s.members| && s.members[p] == n
  }

  predicate IsReady(s: State, n: NodeId)
  {
    n < |s.nodes| && s.nodes[n].ready
  }

  lemma ReadyIsMember(s: State, n: NodeId)
    requires Inv(s) && !s.closed && IsReady(s, n)
    ensures exists p: nat :: MemberAt(s, p, n)
  {
    CloseFacts(s);
    hide Inv;
    var p :| 0 <= p < |s.members| && s.members[p] == n;
    assert MemberAt(s, p, n);
  }

  lemma MemberIsReady(s: State, p: nat)
    requires MembersOk(s) && p < |s.members|
    ensures IsReady(s, s.members[p])
  {
  }

  lemma MembersOkAt(run: seq<State>, i: nat)
    requires IsRun(run) && i < |run|
    ensures MembersOk(run[i])
  {
    hide MembersOk, ToShutOk, AwaitedOk, CallsNested;
    AgendaAlong(run, i);
  }

  /** On a graph still open, a provider constructed before another stands before it in
      members. */
  lemma ConstructedInOrder(run: seq<State>, i: nat, k: nat, m: NodeId, n: NodeId)
    requires IsRun(run) && i <= k < |run| && !run[i].closed && !run[k].closed
    requires IsReady(run[i], m) && !IsReady(run[i], n) && IsReady(run[k], n)
    ensures exists p: nat, q: nat :: p < q && MemberAt(run[k], p, m) && MemberAt(run[k], q, n)
  {
    hide Inv, IsReady, IsRun, Reachable, MembersOk;
    RunPrefix(run, i);
    RunPrefix(run, k);
    InvReachable(run[i]);
    InvReachable(run[k]);
    ReadyIsMember(run[i], m);
    ReadyIsMember(run[k], n);
    var p: nat :| MemberAt(run[i], p, m);
    var q: nat :| MemberAt(run[k], q, n);
    MembersAlong(run, i, k);
    MembersOkAt(run, i);
    if q < |run[i].members| { MemberIsReady(run[i], q); }
    assert MemberAt(run[k], p, m);
  }

  /** A provider is shut only when all constructed after it are. */
  lemma ShutInReverse(s: State, p: nat, q: nat)
    requires Reachable(s) && p < q < |s.members| && s.members[p] < |s.nodes| && s.members[q] < |s.nodes|
    requires s.nodes[s.members[p]].closed
    ensures s.nodes[s.members[q]].closed
  {
    hide Inv, Reachable;
    InvReachable(s);
    AgendaReachable(s);
    CloseFacts(s);
    NodeFacts(s, s.members[p]);
    hide AwaitedOk, CallsNested;
    if !s.nodes[s.members[q]].closed { EarlierIsOpen(s, p, q); }
  }

  lemma EarlierIsOpen(s: State, p: nat, q: nat)
    requires MembersOk(s) && ToShutOk(s) && CloseOk(s) && s.closed && p < q < |s.members|
    requires s.members[p] < |s.nodes| && s.members[q] < |s.nodes| && !s.nodes[s.members[q]].closed
    ensures !s.nodes[s.members[p]].closed
  {
    assert IsReady(s, s.members[q]);
    assert s.members[q] in s.close.members;
    PlaceInPrefix(s.members, s.close.members, q);
    assert s.close.members[p] == s.members[p];
  }

  lemma PlaceInPrefix(all: seq<nat>, few: seq<nat>, q: nat)
    requires Distinct(all) && few <= all && q < |all| && all[q] in few
    ensures q < |few|
  {
    var i :| 0 <= i < |few| && few[i] == all[q];
    assert all[i] == few[i];
  }
}
