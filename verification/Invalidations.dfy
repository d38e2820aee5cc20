/** What an invalidation has achieved when it returns, whatever else goes on at the
    same time. */
module Invalidations {
  import opened Paths
  import opened State
  import opened Steps
  import opened Invariants
  import opened References
  import opened Waiting
  import opened Keeping
  import opened Runs
  import opened History
  import opened Consistency
  import opened ReadsOverRuns
  import opened Agenda

  /** One activation, before and after: a dependent leaves its list only by being
      invalidated, and it calls the next only when the last call has returned. */
  ghost predicate WalkLater(s: State, s': State, i: WalkId)
    requires Wf(s)
  {
    && i < |s.walks| && i < |s'.walks|
    && (s.walks[i].returned ==> s'.walks[i].returned)
    && (s'.walks[i].child != s.walks[i].child ==> ChildDone(s, i))
    && (forall d :: d in s.walks[i].todo && d !in s'.walks[i].todo ==> Descend(s, s', i, d))
  }

  lemma SameWalks(s: State, s': State, i: WalkId)
    requires Wf(s) && s'.walks == s.walks && i < |s.walks|
    ensures WalkLater(s, s', i)
  {
  }

  lemma WalkingMoves(s: State, a: WalkingStep, s': State, i: WalkId)
    requires Wf(s) && WalkingNext(s, a, s') && i < |s.walks|
    ensures WalkLater(s, s', i)
  {
    assert a.DoDescend? ==> a.d < |s.nodes|;
    hide Wf, ChildDone;
  }

  lemma MakingWalks(s: State, a: MakingStep, s': State)
    requires Wf(s) && MakingNext(s, a, s')
    ensures s'.walks == s.walks
  {
    hide Wf;
  }

  lemma BuildingWalks(s: State, a: BuildingStep, s': State)
    requires Wf(s) && BuildingNext(s, a, s')
    ensures s'.walks == s.walks
  {
    hide NoCallsOf;
  }

  lemma StepWalks(s: State, a: Action, s': State, i: WalkId)
    requires Wf(s) && Do(s, a, s') && i < |s.walks|
    ensures WalkLater(s, s', i)
  {
    hide Wf, WalkLater, SameDoors;
    hide MakingNext, ReadingNext, EnteringNext, WaitingNext, BuildingNext;
    hide ReleasingNext, WalkingNext, ClosingNext, ForcingNext;
    match a {
      case MakingAction(x) => MakingWalks(s, x, s'); SameWalks(s, s', i);
      case ReadingAction(x) => ReadingAside(s, x, s'); SameWalks(s, s', i);
      case EnteringAction(x) => EnteringAside(s, x, s'); SameWalks(s, s', i);
      case WaitingAction(x) => WaitingAside(s, x, s'); SameWalks(s, s', i);
      case BuildingAction(x) => BuildingWalks(s, x, s'); SameWalks(s, s', i);
      case ReleasingAction(x) => ReleasingAside(s, x, s'); SameWalks(s, s', i);
      case WalkingAction(x) => WalkingMoves(s, x, s', i);
      case ClosingAction(x) => ClosingMembers(s, x, s'); SameWalks(s, s', i);
      case ForcingAction(x) => ForcingMembers(s, x, s'); SameWalks(s, s', i);
    }
  }

  lemma RunWalks(run: seq<State>, k: nat, i: WalkId)
    requires IsRun(run) && k + 1 < |run| && i < |run[k].walks|
    ensures Wf(run[k]) && WalkLater(run[k], run[k + 1], i)
  {
    hide Do, WalkLater, Wf;
    assert Next(run[k], run[k + 1]);
    var a :| Do(run[k], a, run[k + 1]);
    StepWalks(run[k], a, run[k + 1], i);
  }

  // ---- Each dependent in turn ---------------------------------------------------------

  /** Between the states j and k of the run, m was invalidated. */
  ghost predicate Overtook(run: seq<State>, j: nat, k: nat, m: NodeId)
  {
    exists i :: j <= i < k && i + 1 < |run| && Wf(run[i]) && Invalidates(run[i], run[i + 1], m)
  }

  lemma OvertookLater(run: seq<State>, j: nat, k: nat, m: NodeId)
    requires Overtook(run, j, k, m)
    ensures Overtook(run, j, k + 1, m)
  {
  }

  lemma {:induction false} TodoOrDone(run: seq<State>, j: nat, k: nat, w: WalkId, m: NodeId)
    requires IsRun(run) && j <= k < |run| && w < |run[j].walks| && m in run[j].walks[w].todo
    ensures w < |run[k].walks| && (m in run[k].walks[w].todo || Overtook(run, j, k, m))
    decreases k
  {
    hide Next, Wf, Overtook;
    if j < k {
      TodoOrDone(run, j, k - 1, w, m);
      RunWalks(run, k - 1, w);
      if Overtook(run, j, k - 1, m) {
        OvertookLater(run, j, k - 1, m);
      } else if m !in run[k].walks[w].todo {
        DescendOvertakes(run, j, k - 1, w, m);
      }
    }
  }

  lemma DescendOvertakes(run: seq<State>, j: nat, k: nat, w: WalkId, m: NodeId)
    requires j <= k && k + 1 < |run| && Wf(run[k]) && Descend(run[k], run[k + 1], w, m)
    ensures Overtook(run, j, k + 1, m)
  {
    hide Wf, Descend, Invalidate;
    assert Invalidates(run[k], run[k + 1], m);
  }

  /** When an invalidation of n returns, every provider that had read n's value has
      been invalidated since it began. */
  lemma DependentsInvalidated(run: seq<State>, j: nat, k: nat, n: NodeId, m: NodeId)
    requires IsRun(run) && j < k < |run| && Wf(run[j]) && Invalidate(run[j], run[j + 1], n)
    requires |run[j].walks| < |run[k].walks| && run[k].walks[|run[j].walks|].returned
    requires m in run[j].nodes[n].dependents
    ensures Overtook(run, j, k, m)
  {
    var w := |run[j].walks|;
    assert run[j + 1].walks[w].todo == run[j].nodes[n].dependents;
    hide Next, Wf, Overtook, Invalidate, IsRun;
    TodoOrDone(run, j + 1, k, w, m);
    AgendaAlong(run, k);
    NestedReturned(run[k].walks, w);
    OvertookFrom(run, j, j + 1, k, m);
  }

  /** It gives its own value's reference back only after all that. */
  lemma OwnValueLast(run: seq<State>, j: nat, k: nat, n: NodeId, m: NodeId)
    requires IsRun(run) && j < k < |run| - 1 && Wf(run[j]) && Wf(run[k]) && Invalidate(run[j], run[j + 1], n)
    requires WalkRelease(run[k], run[k + 1], |run[j].walks|) && m in run[j].nodes[n].dependents
    ensures Overtook(run, j, k, m)
  {
    var w := |run[j].walks|;
    assert run[j + 1].walks[w].todo == run[j].nodes[n].dependents;
    assert run[k].walks[w].todo == {};
    hide Next, Wf, Overtook, Invalidate, IsRun;
    TodoOrDone(run, j + 1, k, w, m);
    OvertookFrom(run, j, j + 1, k, m);
  }

  lemma NestedReturned(walks: seq<Walk>, w: WalkId)
    requires CallsNested(walks) && w < |walks| && walks[w].returned
    ensures walks[w].todo == {} && walks[w].held.None?
  {
  }

  lemma OvertookFrom(run: seq<State>, j: nat, j': nat, k: nat, m: NodeId)
    requires j <= j' && Overtook(run, j', k, m)
    ensures Overtook(run, j, k, m)
  {
    hide Invalidates, Wf;
  }

  /** So whatever value such a provider has then comes from an attempt that began
      after the invalidation did; and so does n's own. */
  lemma NothingOldIsCurrent(run: seq<State>, j: nat, k: nat, n: NodeId, m: NodeId)
    requires IsRun(run) && j < k < |run| && Wf(run[j]) && Invalidate(run[j], run[j + 1], n)
    requires |run[j].walks| < |run[k].walks| && run[k].walks[|run[j].walks|].returned
    requires m == n || m in run[j].nodes[n].dependents
    requires m < |run[k].nodes| && run[k].nodes[m].val.Some?
    ensures run[k].nodes[m].val.value >= |run[j].builds|
  {
    hide Next, Wf, Overtook, Invalidate, IsRun;
    if m == n {
      assert Invalidates(run[j], run[j + 1], n);
      CurrentBeganAfter(run, j, k, n);
    } else {
      DependentsInvalidated(run, j, k, n, m);
      OvertakenIsNew(run, j, k, m);
    }
  }

  lemma OvertakenIsNew(run: seq<State>, j: nat, k: nat, m: NodeId)
    requires IsRun(run) && j < k < |run| && Overtook(run, j, k, m)
    requires m < |run[k].nodes| && run[k].nodes[m].val.Some?
    ensures run[k].nodes[m].val.value >= |run[j].builds|
  {
    var i :| j <= i < k && i + 1 < |run| && Wf(run[i]) && Invalidates(run[i], run[i + 1], m);
    hide Invalidates, Wf, IsRun;
    CurrentBeganAfter(run, i, k, m);
    BuildsGrow(run, j, i);
  }

  lemma {:induction false} BuildsGrow(run: seq<State>, j: nat, k: nat)
    requires IsRun(run) && j <= k < |run|
    ensures |run[j].builds| <= |run[k].builds|
    decreases k
  {
    hide Inv, Next, CallsLater, GraphLater, NodesLater, IsRun, Wf;
    if j < k {
      BuildsGrow(run, j, k - 1);
      RunLater(run, k - 1);
    }
  }

  // ---- One after the other, the own value last ------------------------------------------

  lemma {:induction false} CalledOrReturned(run: seq<State>, j: nat, k: nat, w: WalkId, v: WalkId)
    requires IsRun(run) && j <= k < |run| && w < |run[j].walks| && v < |run[j].walks|
    requires run[j].walks[w].child == Some(v)
    ensures w < |run[k].walks| && v < |run[k].walks|
    ensures run[k].walks[w].child == Some(v) || run[k].walks[v].returned
    decreases k
  {
    hide Next, Wf;
    if j < k {
      CalledOrReturned(run, j, k - 1, w, v);
      RunWalks(run, k - 1, w);
      RunWalks(run, k - 1, v);
    }
  }

  /** A step that the activation w takes after its locked section. */
  ghost predicate WalksOn(s: State, s': State, w: WalkId)
    requires Wf(s)
  {
    WalkRelease(s, s', w) || WalkReturn(s, s', w) || exists d: NodeId :: Descend(s, s', w, d)
  }

  /** invalidate goes through the dependents one at a time, and releases its own
      value after all of them: whatever w does next, the recursive call it made
      before has returned. */
  lemma OneCallAtATime(run: seq<State>, j: nat, k: nat, w: WalkId, d: NodeId)
    requires IsRun(run) && j < k < |run| - 1 && Wf(run[j]) && Wf(run[k])
    requires Descend(run[j], run[j + 1], w, d) && WalksOn(run[k], run[k + 1], w)
    ensures |run[j].walks| < |run[k].walks| && run[k].walks[|run[j].walks|].returned
  {
    var v := |run[j].walks|;
    DescendCalls(run[j], run[j + 1], w, d);
    hide Next, Wf, Descend;
    CalledOrReturned(run, j + 1, k, w, v);
    assert ChildDone(run[k], w);
  }

  lemma DescendCalls(s: State, s': State, w: WalkId, d: NodeId)
    requires Wf(s) && Descend(s, s', w, d)
    ensures w < |s.walks| < |s'.walks| && s'.walks[w].child == Some(|s.walks|)
  {
    assert d < |s.nodes|;
    hide Wf, ChildDone;
  }
}
