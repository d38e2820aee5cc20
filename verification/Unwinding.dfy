/** Every invalidation under way can be finished, cycles among the dependents or
    not. */
module Unwinding {
  import opened Paths
  import opened State
  import opened Steps
  import opened Invariants
  import opened References
  import opened Waiting
  import opened Cleanups
  import opened Shutdown
  import opened Keeping
  import opened Runs
  import opened Lifetimes
  import opened Progress
  import opened Agenda
  import opened Continuations
  import opened Work
  import opened Finishing

  predicate SameHouse(x: Node, y: Node)
  {
    && y.closed == x.closed && y.eager == x.eager && y.ready == x.ready && y.cur == x.cur
    && (y.val == x.val || y.val.None?)
  }

  /** Only invalidations went on. */
  ghost predicate OnlyWalks(s: State, t: State)
  {
    && |t.nodes| == |s.nodes| && (forall n :: 0 <= n < |s.nodes| ==> SameHouse(s.nodes[n], t.nodes[n]))
    && t.calls == s.calls && t.leases == s.leases && t.members == s.members && t.inflight == s.inflight
    && t.closed == s.closed && t.cancelled == s.cancelled && t.forced == s.forced && t.close == s.close
    && t.live <= s.live && (s.drained ==> t.drained)
    && |t.builds| == |s.builds|
    && forall b :: 0 <= b < |s.builds| ==> SamePlan(s.builds[b], t.builds[b])
  }

  lemma OnlyWalksThen(s: State, t: State, u: State)
    requires OnlyWalks(s, t) && OnlyWalks(t, u)
    ensures OnlyWalks(s, u)
  {
    forall b | 0 <= b < |s.builds| ensures SamePlan(s.builds[b], u.builds[b]) {
      assert SamePlan(s.builds[b], t.builds[b]) && SamePlan(t.builds[b], u.builds[b]);
    }
    hide SamePlan;
    forall n | 0 <= n < |s.nodes| ensures SameHouse(s.nodes[n], u.nodes[n]) {
      assert SameHouse(s.nodes[n], t.nodes[n]) && SameHouse(t.nodes[n], u.nodes[n]);
    }
  }

  lemma ReleasesAreWalks(s: State, t: State)
    requires OnlyReleases(s, t)
    ensures OnlyWalks(s, t)
  {
    hide SamePlan;
  }

  lemma DescendLess(s: State, s': State, i: WalkId, d: NodeId)
    requires Wf(s) && Descend(s, s', i, d)
    ensures OnlyWalks(s, s') && WalksLeft(s') < WalksLeft(s)
  {
    assert d < |s.nodes|;
    hide Wf, ChildDone;
    DescendWork(s, s', i, d);
    hide WalksLeft;
  }

  lemma DescendWork(s: State, s': State, i: WalkId, d: NodeId)
    requires i < |s.walks| && d in s.walks[i].todo && d < |s.nodes|
    requires s' == Section(SetWalk(s, i, s.walks[i].(todo := s.walks[i].todo - {d}, child := Some(|s.walks|))), d)
    ensures WalksLeft(s') < WalksLeft(s)
  {
    var x := s.walks[i];
    var y := x.(todo := x.todo - {d}, child := Some(|s.walks|));
    OneWalkWork(s.walks, i, y);
    NewWalkWork(s.walks[i := y], s'.walks[|s.walks|]);
    OneEdgeWork(s.nodes, d, s'.nodes[d]);
    assert |x.todo - {d}| == |x.todo| - 1;
  }

  lemma WalkReleaseLess(s: State, s': State, i: WalkId)
    requires Inv(s) && Wf(s) && WalkRelease(s, s', i) && CallsNested(s.walks)
    ensures OnlyWalks(s, s') && WalksLeft(s') < WalksLeft(s)
  {
    hide Inv;
    HeldPlace(s, InWalk(i));
    hide Wf, ChildDone;
    OneWalkWork(s.walks, i, s'.walks[i]);
  }

  lemma WalkReturnLess(s: State, s': State, i: WalkId)
    requires Wf(s) && WalkReturn(s, s', i)
    ensures OnlyWalks(s, s') && WalksLeft(s') < WalksLeft(s)
  {
    hide Wf, ChildDone;
    OneWalkWork(s.walks, i, s'.walks[i]);
  }

  ghost predicate AllReturned(s: State)
  {
    forall i :: 0 <= i < |s.walks| ==> s.walks[i].returned
  }

  /** The last activation that has not returned. */
  lemma {:induction false} LastOpen(walks: seq<Walk>, k: nat) returns (i: nat)
    requires k <= |walks| && exists j :: 0 <= j < k && !walks[j].returned
    requires forall j :: k <= j < |walks| ==> walks[j].returned
    ensures i < |walks| && !walks[i].returned
    ensures forall j :: i < j < |walks| ==> walks[j].returned
    decreases k
  {
    if !walks[k - 1].returned {
      i := k - 1;
    } else {
      i := LastOpen(walks, k - 1);
    }
  }

  /** A spent value whose release is not under way is gone. */
  lemma SpentOver(s: State, g: Option<BuildId>)
    requires Inv(s) && Opt(g, |s.builds|) && Spent(s, g) && NoneReleasing(s)
    ensures Quiet(s, g)
  {
    hide Inv;
    if g.Some? { BuildFacts(s, g.value); }
  }

  lemma WalkStep(s: State, i: WalkId) returns (y: WalkingStep, s': State)
    requires Inv(s) && Wf(s) && AgendaOk(s) && NoneReleasing(s) && i < |s.walks| && !s.walks[i].returned
    requires forall j :: i < j < |s.walks| ==> s.walks[j].returned
    ensures WalkingNext(s, y, s') && OnlyWalks(s, s') && WalksLeft(s') < WalksLeft(s)
  {
    assert ChildDone(s, i) && Spent(s, s.walks[i].await) && Opt(s.walks[i].await, |s.builds|);
    hide Inv, OnlyWalks, WalksLeft, MembersOk, ToShutOk, AwaitedOk, ChildDone, Spent, NoneReleasing;
    if s.walks[i].todo != {} {
      var d :| d in s.walks[i].todo;
      y := DoDescend(i, d);
      s' := Section(SetWalk(s, i, s.walks[i].(todo := s.walks[i].todo - {d}, child := Some(|s.walks|))), d);
      DescendLess(s, s', i, d);
    } else if s.walks[i].held.Some? {
      var g := s.walks[i].held.value;
      y, s' := DoWalkRelease(i), Decrement(SetWalk(s, i, s.walks[i].(held := None, await := Started(s, g))), g);
      WalkReleaseLess(s, s', i);
    } else {
      SpentOver(s, s.walks[i].await);
      y, s' := DoWalkReturn(i), SetWalk(s, i, s.walks[i].(returned := true));
      WalkReturnLess(s, s', i);
    }
  }

  /** Every invalidation under way can be finished, with every release it starts. */
  lemma {:induction false} WalksEnd(s: State) returns (t: State)
    requires Reachable(s)
    ensures Leads(s, t) && Reachable(t) && OnlyWalks(s, t) && NoneReleasing(t) && AllReturned(t)
    decreases WalksLeft(s)
  {
    hide Reachable, Inv, Wf, WalkingNext, OnlyWalks, OnlyReleases, NoneReleasing, Leads, WalksLeft, AgendaOk;
    t := ReleasesEnd(s);
    ReleasesAreWalks(s, t);
    SameWalksLeft(s, t);
    if !AllReturned(t) {
      ReachableWf(t);
      AgendaReachable(t);
      var i := LastOpen(t.walks, |t.walks|);
      var y, u := WalkStep(t, i);
      Takes(t, WalkingAction(y), u);
      LeadsThen(s, t, u);
      OnlyWalksThen(s, t, u);
      t := WalksEnd(u);
      LeadsThen(s, u, t);
      OnlyWalksThen(s, u, t);
    }
  }

  lemma SameWalksLeft(s: State, t: State)
    requires OnlyReleases(s, t)
    ensures WalksLeft(t) == WalksLeft(s)
  {
  }
}
