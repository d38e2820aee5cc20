/** The builds Close does not wait for. CloseContext is meant to wait for the
    builds in progress. A release inside the shutting loop can close drained while
    a provider is still open, and a read of that provider then builds again. That
    can happen exactly when the provider constructed first is not Eager. */
module LateBuilds {
  import opened Paths
  import opened State
  import opened Steps
  import opened Invariants
  import opened References
  import opened Waiting
  import opened Cleanups
  import opened Shutdown
  import opened Keeping
  import opened Runs
  import opened History
  import opened Lifetimes
  import opened Consistency
  import opened Deadlocks
  import opened ReadsOverRuns
  import opened Draining
  import opened Continuations
  import opened Agenda
  import opened CloseWaits
  import opened Work
  import opened Progress
  import opened Finishing
  import opened Unwinding
  import opened Returning

  /** Some Deferred provider still accepts reads. */
  predicate OpenAt(s: State, n: NodeId)
  {
    n < |s.nodes| && s.nodes[n].ready && !s.nodes[n].eager && !s.nodes[n].closed
  }

  // ---- With every provider shut -----------------------------------------------

  /** Closed, with no Deferred provider open. */
  ghost predicate AllDown(s: State)
  {
    s.closed && forall n :: 0 <= n < |s.nodes| && !s.nodes[n].eager ==> s.nodes[n].closed
  }

  lemma MakingDown(s: State, a: MakingStep, s': State)
    requires Wf(s) && MakingNext(s, a, s') && AllDown(s)
    ensures AllDown(s') && s'.inflight == s.inflight
  {
    hide Wf;
  }

  lemma EnteringDown(s: State, a: EnteringStep, s': State)
    requires Wf(s) && EnteringNext(s, a, s') && AllDown(s)
    ensures s'.inflight == s.inflight && s'.nodes == s.nodes && s'.closed == s.closed
  {
  }

  lemma ClosingDown(s: State, a: ClosingStep, s': State)
    requires Wf(s) && ClosingNext(s, a, s')
    ensures s'.inflight == s.inflight && |s'.nodes| == |s.nodes|
  {
  }

  lemma PublishEagerNodes(s: State, a: BuildingStep, s': State)
    requires Wf(s) && BuildingNext(s, a, s') && a.DoPublishEager?
    ensures |s'.nodes| == |s.nodes|
  {
    hide NoCallsOf;
  }

  lemma BuildingNodes(s: State, a: BuildingStep, s': State)
    requires Wf(s) && BuildingNext(s, a, s')
    ensures |s'.nodes| == |s.nodes|
  {
    hide BuildingNext;
    if a.DoPublishEager? { PublishEagerNodes(s, a, s'); } else { BuildingAside(s, a, s'); }
  }

  lemma DownKept(s: State, a: Action, s': State)
    requires Wf(s) && Do(s, a, s') && NodesLater(s, s') && (s.closed ==> s'.closed) && AllDown(s)
    ensures AllDown(s')
    ensures s'.inflight <= s.inflight
  {
    hide Wf;
    hide MakingNext, ReadingNext, EnteringNext, WaitingNext, BuildingNext;
    hide ReleasingNext, WalkingNext, ClosingNext, ForcingNext;
    match a {
      case MakingAction(x) => MakingDown(s, x, s');
      case ReadingAction(x) => ReadingAside(s, x, s'); ReadingLists(s, x, s');
      case EnteringAction(x) => EnteringDown(s, x, s');
      case WaitingAction(x) => WaitingAside(s, x, s'); WaitingLists(s, x, s');
      case BuildingAction(x) => BuildingNodes(s, x, s'); BuildingFlight(s, x, s');
      case ReleasingAction(x) => ReleasingAside(s, x, s'); ReleasingFlight(s, x, s');
      case WalkingAction(x) => WalkingDoors(s, x, s'); WalkingLists(s, x, s');
      case ClosingAction(x) => ClosingDown(s, x, s');
      case ForcingAction(x) => ForcingDown(s, x, s');
    }
  }

  lemma ForcingDown(s: State, a: ForcingStep, s': State)
    requires Wf(s) && ForcingNext(s, a, s')
    ensures s'.inflight == s.inflight && |s'.nodes| == |s.nodes|
  {
    hide Wf;
  }

  lemma {:induction false} DownAlong(path: seq<State>, i: nat)
    requires path != [] && i < |path| && Reachable(path[0]) && AllDown(path[0])
    requires forall j :: 0 <= j < |path| - 1 ==> Next(path[j], path[j + 1])
    ensures Reachable(path[i]) && AllDown(path[i]) && path[i].inflight <= path[0].inflight
    decreases i
  {
    hide Reachable, Do, AllDown, Inv, CallsLater, BuildsLater, NodesLater;
    if i > 0 {
      DownAlong(path, i - 1);
      assert Next(path[i - 1], path[i - 1 + 1]);
      Further(path[i - 1], path[i]);
      NextLater(path[i - 1], path[i]);
      var a :| Do(path[i - 1], a, path[i]);
      DownKept(path[i - 1], a, path[i]);
    }
  }

  // ---- With a provider still open --------------------------------------------------

  lemma OpenIsEmpty(s: State, n: NodeId)
    requires Inv(s) && s.drained && s.inflight == {} && OpenAt(s, n)
    ensures n < |s.nodes| && s.nodes[n].val.None? && s.nodes[n].cur.None?
  {
    hide Inv;
    NodeFacts(s, n);
    CloseFacts(s);
    if s.nodes[n].val.Some? {
      HeldPlace(s, InSlot(n));
      BuildFacts(s, s.nodes[n].val.value);
    }
    if s.nodes[n].cur.Some? {
      InflightFacts(s, s.nodes[n].cur.value);
      BuildFacts(s, s.nodes[n].cur.value);
    }
  }

  /** A read of an open provider without a value or an attempt creates an attempt. */
  lemma OpenBuilds(s: State, n: NodeId) returns (t: State)
    requires Reachable(s) && Wf(s) && OpenAt(s, n) && s.nodes[n].val.None? && s.nodes[n].cur.None?
    ensures Leads(s, t) && Reachable(t) && OpenAt(t, n) && t.inflight != {}
    ensures t.close == s.close && t.drained == s.drained && t.closed == s.closed && t.live == s.live
  {
    var c := |s.calls|;
    var s1 := s.(calls := s.calls + [Call(n, None, None, false, false, Load)]);
    var s2 := SetCall(s1, c, Enter);
    t := SetNode(SetCall(s2, c, Join(|s.builds|, true)), n, s.nodes[n].(cur := Some(|s.builds|)))
           .(builds := s.builds + [NewBuild(n, s.nodes[n].epoch, c, Created)], inflight := s.inflight + {|s.builds|});
    assert |s.builds| in t.inflight;
    hide Reachable, Wf, NewBuild;
    OpenSteps(s, s1, s2, t, n);
    assert Connects([s, s1, s2, t], s, t) by { hide Next; }
    LeadsReachable(s, t);
  }

  lemma OpenSteps(s: State, s1: State, s2: State, t: State, n: NodeId)
    requires Reachable(s) && Wf(s) && OpenAt(s, n) && s.nodes[n].val.None? && s.nodes[n].cur.None?
    requires s1 == s.(calls := s.calls + [Call(n, None, None, false, false, Load)])
    requires s2 == SetCall(s1, |s.calls|, Enter)
    requires t == SetNode(SetCall(s2, |s.calls|, Join(|s.builds|, true)), n, s.nodes[n].(cur := Some(|s.builds|)))
                    .(builds := s.builds + [NewBuild(n, s.nodes[n].epoch, |s.calls|, Created)],
                      inflight := s.inflight + {|s.builds|})
    ensures Next(s, s1) && Next(s1, s2) && Next(s2, t)
  {
    hide Inv, Reachable, Wf;
    assert StartRead(s, s1, n, false, false);
    assert Do(s, ReadingAction(DoStartRead(n, false, false)), s1);
    Further(s, s1);
    InvReachable(s1);
    InvWf(s1);
    assert LoadValue(s1, s2, |s.calls|);
    assert Do(s1, ReadingAction(DoLoadValue(|s.calls|)), s2);
    Further(s1, s2);
    InvReachable(s2);
    InvWf(s2);
    assert EnterCreate(s2, t, |s.calls|);
    assert Do(s2, EnteringAction(DoEnterCreate(|s.calls|)), t);
  }

  lemma NothingOpen(s: State)
    requires Reachable(s) && s.drained && forall n :: !OpenAt(s, n)
    ensures AllDown(s)
  {
    hide Inv, Reachable;
    InvReachable(s);
    CloseFacts(s);
    forall n | 0 <= n < |s.nodes| && !s.nodes[n].eager ensures s.nodes[n].closed {
      NodeFacts(s, n);
      assert !OpenAt(s, n);
    }
  }

  /** Close then goes on, finds drained closed and returns. */
  lemma ClosesOver(s: State) returns (t: State)
    requires Reachable(s) && s.drained && BeforeWaiting(s.close)
    ensures Leads(s, t) && t.close == Closed(true) && t.inflight == s.inflight
  {
    hide Reachable, Wf, Leads, Inv, AtRest, NoneReleasing;
    ReachableWf(s);
    var u := StartShutting(s);
    var v := ShutDown(u, 0);
    LeadsThen(s, u, v);
    assert v.close.members == [];
    var w := EndMoves(v);
    LeadsThen(s, v, w);
    t := w.(close := Closed(true));
    Takes(w, ClosingAction(DoCloseOnTime), t);
    LeadsThen(s, w, t);
  }

  lemma OpenIsBeforeWaiting(s: State, n: NodeId)
    requires Reachable(s) && s.drained && OpenAt(s, n)
    ensures BeforeWaiting(s.close)
  {
    hide Reachable, Inv;
    InvReachable(s);
    CloseFacts(s);
  }

  /** Once drained is closed with nothing in flight, Close can return in time over a
      build if and only if some Deferred provider was not shut at that moment. */
  lemma LateBuildIff(s: State)
    requires Reachable(s) && s.drained && s.inflight == {}
    ensures (exists t :: Leads(s, t) && t.close == Closed(true) && t.inflight != {}) <==> (exists n :: OpenAt(s, n))
  {
    hide Inv, Reachable, Next, Leads, AllDown, OpenAt;
    if n :| OpenAt(s, n) {
      ReachableWf(s);
      OpenIsEmpty(s, n);
      var u := OpenBuilds(s, n);
      OpenIsBeforeWaiting(s, n);
      var t := ClosesOver(u);
      LeadsThen(s, u, t);
    } else if t :| Leads(s, t) && t.inflight != {} {
      NothingOpen(s);
      StaysDown(s, t);
    }
  }

  lemma StaysDown(s: State, t: State)
    requires Reachable(s) && AllDown(s) && Leads(s, t)
    ensures t.inflight <= s.inflight
  {
    hide Reachable, Next, AllDown;
    var path :| Connects(path, s, t);
    DownAlong(path, |path| - 1);
  }
}
