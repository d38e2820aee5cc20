/** Close can always return: from every reachable state in which it has not passed
    its deadline, the work there is can be finished so that it returns in time. */
module Returning {
  import opened Paths
  import opened State
  import opened Steps
  import opened Invariants
  import opened References
  import opened Waiting
  import opened Cleanups
  import opened Shutdown
  import opened Keeping
  import opened Runs
  import opened Lifetimes
  import opened Consistency
  import opened Deadlocks
  import opened Progress
  import opened Draining
  import opened Agenda
  import opened Continuations
  import opened Finishing
  import opened Unwinding

  // ---- The shutting loop -----------------------------------------------------------

  predicate SameRoom(x: Node, y: Node)
  {
    y.eager == x.eager && y.ready == x.ready && y.cur == x.cur && (y.val == x.val || y.val.None?)
  }

  /** Only Close went on, with the providers in shut. */
  ghost predicate OnlyShuts(s: State, t: State, shut: seq<NodeId>)
  {
    && |t.nodes| == |s.nodes| && (forall n :: 0 <= n < |s.nodes| ==> SameRoom(s.nodes[n], t.nodes[n]))
    && (forall n :: 0 <= n < |s.nodes| && n !in shut ==> t.nodes[n] == s.nodes[n])
    && t.calls == s.calls && t.walks == s.walks && t.leases == s.leases && t.members == s.members
    && t.inflight == s.inflight && t.closed == s.closed && t.cancelled == s.cancelled && t.forced == s.forced
    && t.live <= s.live && (s.drained ==> t.drained)
    && |t.builds| == |s.builds|
    && forall b :: 0 <= b < |s.builds| ==> SamePlan(s.builds[b], t.builds[b])
  }

  lemma OnlyShutsThen(s: State, t: State, u: State, some: seq<NodeId>, all: seq<NodeId>)
    requires OnlyShuts(s, t, some) && OnlyShuts(t, u, all) && forall n :: n in some ==> n in all
    ensures OnlyShuts(s, u, all)
  {
    forall b | 0 <= b < |s.builds| ensures SamePlan(s.builds[b], u.builds[b]) {
      assert SamePlan(s.builds[b], t.builds[b]) && SamePlan(t.builds[b], u.builds[b]);
    }
    hide SamePlan;
    forall n | 0 <= n < |s.nodes| ensures SameRoom(s.nodes[n], u.nodes[n]) {
      assert SameRoom(s.nodes[n], t.nodes[n]) && SameRoom(t.nodes[n], u.nodes[n]);
    }
  }

  lemma ReleasesAreShuts(s: State, t: State, shut: seq<NodeId>)
    requires OnlyReleases(s, t)
    ensures OnlyShuts(s, t, shut)
  {
    hide SamePlan;
  }

  lemma ShutMoves(s: State) returns (s': State)
    requires Wf(s) && s.close.Shutting? && s.close.members != [] && s.close.held.None? && Quiet(s, s.close.await)
    ensures Shut(s, s') && OnlyShuts(s, s', [s.close.members[|s.close.members| - 1]]) && s'.close.Shutting?
    ensures s'.close.members == s.close.members[..|s.close.members| - 1]
  {
    var k := |s.close.members| - 1;
    var n := s.close.members[k];
    assert n < |s.nodes|;
    hide Wf;
    s' := SetNode(s, n, s.nodes[n].(closed := true, val := None))
            .(close := Shutting(s.close.members[..k], s.nodes[n].val, None));
  }

  lemma ShutReleaseMoves(s: State) returns (s': State)
    requires Inv(s) && Wf(s) && s.close.Shutting? && s.close.held.Some?
    ensures ShutRelease(s, s') && OnlyShuts(s, s', [])
    ensures s'.close.Shutting? && s'.close.members == s.close.members && s'.close.held.None?
  {
    hide Inv;
    HeldPlace(s, InShut);
    hide Wf;
    var g := s.close.held.value;
    s' := Decrement(s.(close := Shutting(s.close.members, None, Started(s, g))), g);
  }

  /** The value Close has swapped out, if any, is released and cleaned up. */
  lemma HeldEnds(s: State) returns (t: State)
    requires Reachable(s) && s.close.Shutting?
    ensures Leads(s, t) && Reachable(t) && OnlyShuts(s, t, []) && NoneReleasing(t)
    ensures t.close.Shutting? && t.close.members == s.close.members && t.close.held.None?
    ensures Wf(t) && Quiet(t, t.close.await)
  {
    hide Reachable, Inv, Wf, NoneReleasing, Leads, OnlyShuts, ShutRelease, AgendaOk;
    t := ReleasesEnd(s);
    ReleasesAreShuts(s, t, []);
    ReachableWf(t);
    if t.close.held.Some? {
      var u := ShutReleaseMoves(t);
      Takes(t, ClosingAction(DoShutRelease), u);
      LeadsThen(s, t, u);
      OnlyShutsThen(s, t, u, [], []);
      t := ReleasesEnd(u);
      ReleasesAreShuts(u, t, []);
      LeadsThen(s, u, t);
      OnlyShutsThen(s, u, t, [], []);
    }
    ReachableWf(t);
    AgendaReachable(t);
    CloseAwaits(t);
    SpentOver(t, t.close.await);
  }

  lemma CloseAwaits(s: State)
    requires AgendaOk(s) && s.close.Shutting? && Wf(s)
    ensures Spent(s, s.close.await) && Opt(s.close.await, |s.builds|)
  {
    hide MembersOk, ToShutOk, CallsNested;
  }

  /** The loop can be run down to the first keep providers. */
  lemma {:induction false} ShutDown(s: State, keep: nat) returns (t: State)
    requires Reachable(s) && s.close.Shutting? && keep <= |s.close.members|
    ensures Leads(s, t) && Reachable(t) && OnlyShuts(s, t, s.close.members[keep..]) && NoneReleasing(t)
    ensures t.close.Shutting? && t.close.members == s.close.members[..keep] && t.close.held.None?
    ensures Wf(t) && Quiet(t, t.close.await)
    decreases if s.close.Shutting? then |s.close.members| else 0
  {
    hide Reachable, Inv, NoneReleasing, Leads, OnlyShuts, Shut, Quiet;
    var ms := s.close.members;
    t := HeldEnds(s);
    OnlyShutsMore(s, t, [], ms[keep..]);
    if |ms| > keep {
      var u := ShutMoves(t);
      assert ms[|ms| - 1] == ms[keep..][|ms| - 1 - keep];
      OnlyShutsMore(t, u, [ms[|ms| - 1]], ms[keep..]);
      Takes(t, ClosingAction(DoShut), u);
      LeadsThen(s, t, u);
      OnlyShutsThen(s, t, u, ms[keep..], ms[keep..]);
      t := ShutDown(u, keep);
      assert ms[..|ms| - 1][keep..] == ms[keep..|ms| - 1] && ms[..|ms| - 1][..keep] == ms[..keep];
      LeadsThen(s, u, t);
      OnlyShutsMore(u, t, ms[keep..|ms| - 1], ms[keep..]);
      OnlyShutsThen(s, u, t, ms[keep..], ms[keep..]);
    } else {
      assert ms[..keep] == ms;
    }
  }

  lemma OnlyShutsMore(s: State, t: State, some: seq<NodeId>, all: seq<NodeId>)
    requires OnlyShuts(s, t, some) && forall n :: n in some ==> n in all
    ensures OnlyShuts(s, t, all)
  {
    hide SamePlan, SameRoom;
  }

  // ---- Everything else first ------------------------------------------------------------

  /** Nothing is under way but, perhaps, Close. */
  ghost predicate AtRest(s: State)
    requires Wf(s)
  {
    AllSettled(s) && AllReturned(s)
  }

  ghost predicate SameGraph(s: State, t: State)
  {
    && t.close == s.close && t.closed == s.closed && t.cancelled == s.cancelled && t.members == s.members
    && t.forced == s.forced && (s.drained ==> t.drained) && |t.nodes| == |s.nodes|
    && forall n :: 0 <= n < |s.nodes| ==>
         && t.nodes[n].closed == s.nodes[n].closed && t.nodes[n].eager == s.nodes[n].eager
         && t.nodes[n].ready == s.nodes[n].ready
         && (s.nodes[n].val.None? ==> t.nodes[n].val.None?)
  }

  lemma SameGraphThen(s: State, t: State, u: State)
    requires OnlyWalks(s, t) && OnlyFinishes(t, u)
    ensures SameGraph(s, u) && u.walks == t.walks
  {
    hide SamePlan;
    forall n | 0 <= n < |s.nodes|
      ensures u.nodes[n].closed == s.nodes[n].closed && u.nodes[n].eager == s.nodes[n].eager
      ensures u.nodes[n].ready == s.nodes[n].ready && (s.nodes[n].val.None? ==> u.nodes[n].val.None?)
    {
      assert SameHouse(s.nodes[n], t.nodes[n]) && SameDoor(t.nodes[n], u.nodes[n]);
    }
  }

  /** All that is under way can be finished, wherever Close has got to. */
  lemma Rests(s: State) returns (t: State)
    requires Reachable(s)
    ensures Leads(s, t) && Reachable(t) && Wf(t) && AtRest(t) && SameGraph(s, t)
  {
    hide Reachable, Wf, Leads, OnlyWalks, OnlyFinishes, AllSettled, NoneReleasing, SameGraph;
    var u := WalksEnd(s);
    t := Finish(u);
    LeadsThen(s, u, t);
    SameGraphThen(s, u, t);
  }

  // ---- Close, from rest -------------------------------------------------------------------

  lemma RestKept(s: State, t: State, shut: seq<NodeId>)
    requires Wf(s) && Wf(t) && AtRest(s) && OnlyShuts(s, t, shut) && NoneReleasing(t)
    ensures AtRest(t)
  {
    hide Releasing;
    forall b | 0 <= b < |t.builds|
      ensures if IsEager(t, b) then t.builds[b].phase != Building else t.builds[b].phase == Signalled
    {
      assert SamePlan(s.builds[b], t.builds[b]) && b < |s.builds|;
      BuildNode(s, b);
      BuildNode(t, b);
    }
  }

  lemma BuildNode(s: State, b: BuildId)
    requires Wf(s) && b < |s.builds|
    ensures s.builds[b].node < |s.nodes|
  {
  }

  /** The providers Close has to shut. */
  function ToShut(s: State): seq<NodeId>
  {
    match s.close
    case Open => s.members
    case Cancelling(ms) => ms
    case Shutting(ms, _, _) => ms
    case _ => []
  }

  predicate BeforeWaiting(close: Closing)
  {
    close.Open? || close.Cancelling? || close.Shutting?
  }

  lemma CancelMoves(s: State) returns (t: State)
    requires Reachable(s) && s.close.Cancelling? && Wf(s)
    ensures Leads(s, t) && Reachable(t) && Wf(t) && (AtRest(s) ==> AtRest(t))
    ensures t.close.Shutting? && t.close.members == ToShut(s) && t.nodes == s.nodes && t.members == s.members
    ensures t.inflight == s.inflight && (s.drained ==> t.drained)
  {
    hide Reachable, Wf, Leads;
    t := s.(cancelled := true, close := Shutting(s.close.members, None, None));
    Takes(s, ClosingAction(DoCancel), t);
  }

  lemma BeginMoves(s: State) returns (t: State)
    requires Reachable(s) && s.close.Open? && Wf(s)
    ensures Leads(s, t) && Reachable(t) && Wf(t) && (AtRest(s) ==> AtRest(t))
    ensures t.close.Cancelling? && ToShut(t) == ToShut(s) && t.nodes == s.nodes && t.members == s.members
    ensures t.inflight == s.inflight && (s.drained ==> t.drained)
  {
    hide Reachable, Wf, Leads, Inv;
    ReachableWf(s);
    CloseFacts(s);
    t := s.(closed := true, close := Cancelling(s.members));
    Takes(s, ClosingAction(DoBeginClose), t);
  }

  lemma StartShutting(s: State) returns (t: State)
    requires Reachable(s) && BeforeWaiting(s.close) && Wf(s)
    ensures Leads(s, t) && Reachable(t) && Wf(t) && (AtRest(s) ==> AtRest(t))
    ensures t.close.Shutting? && t.close.members == ToShut(s) && t.nodes == s.nodes && t.members == s.members
    ensures t.inflight == s.inflight && (s.drained ==> t.drained)
  {
    hide Reachable, Wf, Leads, AtRest;
    t := s;
    LeadsSelf(s);
    if t.close.Open? {
      t := BeginMoves(s);
    }
    if t.close.Cancelling? {
      var u := CancelMoves(t);
      LeadsThen(s, t, u);
      t := u;
    }
  }

  /** From rest, Close can shut all but the first keep providers. */
  lemma RunDown(s: State, keep: nat) returns (t: State)
    requires Reachable(s) && BeforeWaiting(s.close) && Wf(s) && AtRest(s) && keep <= |ToShut(s)|
    ensures Leads(s, t) && Reachable(t) && Wf(t) && AtRest(t) && |t.nodes| == |s.nodes|
    ensures t.close.Shutting? && t.close.members == ToShut(s)[..keep] && t.close.held.None?
    ensures Quiet(t, t.close.await) && t.members == s.members
    ensures forall n :: 0 <= n < |s.nodes| && n !in ToShut(s)[keep..] ==> t.nodes[n] == s.nodes[n]
  {
    hide Reachable, Wf, Leads, AtRest, NoneReleasing;
    var u := StartShutting(s);
    t := ShutDown(u, keep);
    LeadsThen(s, u, t);
    RestKept(u, t, ToShut(s)[keep..]);
  }

  lemma EndMoves(s: State) returns (t: State)
    requires Reachable(s) && Wf(s) && s.close.Shutting? && s.close.members == [] && s.close.held.None?
    requires Quiet(s, s.close.await)
    ensures t == CheckDrained(s).(close := Waiting)
    ensures Leads(s, t) && Reachable(t) && Wf(t)
  {
    hide Reachable, Wf, Leads;
    t := CheckDrained(s).(close := Waiting);
    Takes(s, ClosingAction(DoEndShutting), t);
  }

  lemma RestIsQuiescent(s: State)
    requires Reachable(s) && Wf(s) && AtRest(s) && s.close.Waiting?
    ensures Quiescent(s)
    ensures forall b :: 0 <= b < |s.builds| && !IsEager(s, b) ==> s.builds[b].phase == Signalled
  {
    hide Reachable, Inv, Wf;
    ReachableWf(s);
    CloseFacts(s);
    AgendaReachable(s);
    hide AgendaOk;
    forall n | 0 <= n < |s.nodes|
      ensures s.nodes[n].val.None? && (s.nodes[n].closed || !s.nodes[n].ready)
    {
      NodeFacts(s, n);
    }
    forall b | 0 <= b < |s.builds|
      ensures s.builds[b].outcome != Pending && (s.builds[b].stage == Held || s.builds[b].stage == Over)
    {
      BuildAtRest(s, b);
    }
    forall i | 0 <= i < |s.walks| ensures s.walks[i].held.None? { WalkAtRest(s, i); }
  }

  lemma WalkAtRest(s: State, i: WalkId)
    requires AgendaOk(s) && AllReturned(s) && i < |s.walks|
    ensures s.walks[i].held.None?
  {
    hide MembersOk, ToShutOk, AwaitedOk;
  }

  lemma BuildAtRest(s: State, b: BuildId)
    requires Inv(s) && Wf(s) && AtRest(s) && b < |s.builds|
    ensures s.builds[b].outcome != Pending && (s.builds[b].stage == Held || s.builds[b].stage == Over)
  {
    BuildNode(s, b);
    CreatedNotEager(s, b);
    BuildFacts(s, b);
    hide Inv, Wf;
  }

  lemma CreatedNotEager(s: State, b: BuildId)
    requires Inv(s) && Wf(s) && b < |s.builds|
    ensures IsEager(s, b) ==> s.builds[b].phase != Created
  {
    assert BuildOk(s.nodes, s.builds, s.calls, s.clock, b, s.builds[b]);
    hide RefsOk, FreshWhileOpen, WaitsOk, ClosersOk, CloseOk, ListsOk, NodesOk, CallsOk, WalksOk, BuildsOk;
  }

  lemma ReturnsFromWaiting(s: State) returns (t: State)
    requires Reachable(s) && Wf(s) && AtRest(s) && s.close.Waiting?
    ensures Leads(s, t) && t.close == Closed(true) && Quiescent(t)
  {
    hide Reachable, Wf, Leads, AtRest;
    RestIsQuiescent(s);
    CloseReturns(s);
    t :| CloseOnTime(s, t);
    Takes(s, ClosingAction(DoCloseOnTime), t);
  }

  /** Close can always return in time: from every reachable state in which it has
      neither returned nor passed its deadline, whatever leases, reads, builds,
      invalidations and releases there are, some continuation finishes them all, and
      Close returns with nothing left. */
  lemma CloseCanReturn(s: State)
    requires Reachable(s) && !s.close.Forcing? && !s.close.Closed?
    ensures exists t :: Leads(s, t) && t.close == Closed(true) && Quiescent(t)
  {
    hide Reachable, Wf, Leads, AtRest, Quiescent, Inv;
    var u := Rests(s);
    if !u.close.Waiting? {
      var v := RunDown(u, 0);
      LeadsThen(s, u, v);
      var w := EndMoves(v);
      LeadsThen(s, v, w);
      EndRest(v, w);
      u := w;
    }
    var t := ReturnsFromWaiting(u);
    LeadsThen(s, u, t);
  }

  lemma EndRest(s: State, t: State)
    requires Wf(s) && Wf(t) && AtRest(s) && t == CheckDrained(s).(close := Waiting)
    ensures AtRest(t)
  {
    hide Wf, Releasing;
  }
}
