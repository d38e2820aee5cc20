/** When Close waits for every build, whenever it began: exactly if the provider
    constructed first, which is shut last, is Eager. A caller knows that before
    calling Close. */
module FirstProvider {
  import opened Paths
  import opened State
  import opened Steps
  import opened Invariants
  import opened References
  import opened Waiting
  import opened Shutdown
  import opened Keeping
  import opened Runs
  import opened History
  import opened Lifetimes
  import opened Consistency
  import opened Deadlocks
  import opened Progress
  import opened ReadsOverRuns
  import opened Draining
  import opened Agenda
  import opened CloseWaits
  import opened Continuations
  import opened Finishing
  import opened Unwinding
  import opened Returning
  import opened LateBuilds

  /** The provider constructed first is Eager. */
  predicate FirstIsEager(s: State)
  {
    s.members != [] && s.members[0] < |s.nodes| && s.nodes[s.members[0]].eager
  }

  // ---- An Eager provider first ------------------------------------------------------

  lemma MakingMembers(s: State, a: MakingStep, s': State)
    requires Wf(s) && MakingNext(s, a, s')
    ensures s.members <= s'.members
  {
    hide Wf;
  }

  lemma PublishEagerMembers(s: State, a: BuildingStep, s': State)
    requires Wf(s) && BuildingNext(s, a, s') && a.DoPublishEager?
    ensures s.members <= s'.members
  {
    hide Wf, NoCallsOf;
  }

  lemma MembersGrow(s: State, a: Action, s': State)
    requires Wf(s) && Do(s, a, s')
    ensures s.members <= s'.members
  {
    hide Wf;
    hide MakingNext, ReadingNext, EnteringNext, WaitingNext, BuildingNext;
    hide ReleasingNext, WalkingNext, ClosingNext, ForcingNext;
    match a {
      case MakingAction(x) => MakingMembers(s, x, s');
      case ReadingAction(x) => ReadingAside(s, x, s');
      case EnteringAction(x) => EnteringAside(s, x, s');
      case WaitingAction(x) => WaitingAside(s, x, s');
      case BuildingAction(x) =>
        if x.DoPublishEager? { PublishEagerMembers(s, x, s'); } else { BuildingAside(s, x, s'); }
      case ReleasingAction(x) => ReleasingAside(s, x, s');
      case WalkingAction(x) => WalkingDoors(s, x, s');
      case ClosingAction(x) => ClosingMembers(s, x, s');
      case ForcingAction(x) => ForcingMembers(s, x, s');
    }
  }

  lemma {:induction false} FirstStays(run: seq<State>, i: nat, k: nat)
    requires IsRun(run) && i <= k < |run| && FirstIsEager(run[i])
    ensures FirstIsEager(run[k])
    decreases k
  {
    hide Do, Inv, CallsLater, BuildsLater, GraphLater;
    if i < k {
      FirstStays(run, i, k - 1);
      RunLater(run, k - 1);
      assert Next(run[k - 1], run[k - 1 + 1]);
      var a :| Do(run[k - 1], a, run[k]);
      MembersGrow(run[k - 1], a, run[k]);
    }
  }

  lemma FirstFacts(s: State)
    requires Inv(s) && AgendaOk(s) && FirstIsEager(s)
    ensures s.nodes[s.members[0]].ready
    ensures s.close.Cancelling? || s.close.Shutting? ==>
              s.close.members != [] ==> !s.nodes[s.members[0]].closed
  {
    hide Inv, AwaitedOk, CallsNested, Distinct;
    if s.close.Cancelling? || s.close.Shutting? {
      if s.close.members != [] { assert s.close.members[0] == s.members[0]; }
    }
  }

  /** With nothing live, an Eager provider is shut; if it is the first, all are. */
  lemma FirstShutLast(s: State)
    requires Reachable(s) && s.drained && s.live == {} && FirstIsEager(s)
    ensures AllDown(s)
  {
    hide Reachable, Inv, AgendaOk;
    ReachableWf(s);
    AgendaReachable(s);
    CloseFacts(s);
    FirstFacts(s);
    var n := s.members[0];
    NodeFacts(s, n);
    if s.nodes[n].val.Some? {
      HeldPlace(s, InSlot(n));
      BuildFacts(s, s.nodes[n].val.value);
    }
    assert s.nodes[n].closed;
    forall m | 0 <= m < |s.nodes| && !s.nodes[m].eager ensures s.nodes[m].closed {
      NodeFacts(s, m);
    }
  }

  /** With an Eager provider first, Close returns in time only when no build at all
      is in flight. */
  lemma EagerFirstWaits(run: seq<State>, i: nat, k: nat)
    requires IsRun(run) && i <= k < |run| && !run[i].closed && FirstIsEager(run[i])
    requires run[k].close == Closed(true)
    ensures run[k].inflight == {}
  {
    hide Inv, IsRun, AllDown, Next, FirstIsEager, Reachable;
    InvAlong(run, k);
    CloseFacts(run[k]);
    var j := DrainedAt(run, k);
    OpenNotDrained(run, i);
    if j < i { LaterDrained(run, j + 1, i); }
    FirstStays(run, i, j + 1);
    RunPrefix(run, j + 1);
    FirstShutLast(run[j + 1]);
    DownToEnd(run, j + 1, k);
  }

  lemma DownToEnd(run: seq<State>, i: nat, k: nat)
    requires IsRun(run) && i <= k < |run| && AllDown(run[i])
    ensures run[k].inflight <= run[i].inflight
  {
    hide Next, AllDown, Reachable;
    RunPrefix(run, i);
    var path := run[i..];
    forall j | 0 <= j < |path| - 1 ensures Next(path[j], path[j + 1]) {
      assert Next(run[i + j], run[i + j + 1]);
    }
    DownAlong(path, k - i);
  }

  // ---- A Deferred provider first --------------------------------------------------------

  /** Close is down to the provider constructed first, a Deferred one with no value,
      and nothing else is under way. */
  ghost predicate LastOne(s: State, n: NodeId)
    requires Wf(s)
  {
    && AtRest(s) && OpenAt(s, n) && s.nodes[n].val.None?
    && s.close.Shutting? && s.close.members == [n] && s.close.held.None?
  }

  lemma LastOneEmpty(s: State, n: NodeId)
    requires Reachable(s) && Wf(s) && LastOne(s, n)
    ensures s.closed && s.live == {} && s.inflight == {} && s.nodes[n].cur.None?
  {
    hide Reachable, Inv, Wf;
    ReachableWf(s);
    CloseFacts(s);
    AgendaReachable(s);
    hide AgendaOk;
    forall m | 0 <= m < |s.nodes| ensures s.nodes[m].val.None? { NodeFacts(s, m); }
    forall b | 0 <= b < |s.builds|
      ensures s.builds[b].outcome != Pending && (s.builds[b].stage == Held || s.builds[b].stage == Over)
    {
      BuildAtRest(s, b);
    }
    forall i | 0 <= i < |s.walks| ensures s.walks[i].held.None? { WalkAtRest(s, i); }
    NothingInFlight(s);
    NodeFacts(s, n);
    hide AtRest, LastOne;
    NoLeak(s);
  }

  lemma NothingInFlight(s: State)
    requires Reachable(s) && Wf(s) && AllSettled(s)
    ensures s.inflight == {}
  {
    hide Reachable, Inv;
    ReachableWf(s);
    forall b | 0 <= b < |s.builds| ensures b !in s.inflight { InflightFacts(s, b); }
    assert AllBelow(s.inflight, |s.builds|);
  }

  // ---- The last attempt closes drained ------------------------------------------------------

  /** Closed with nothing live, and drained is closed if nothing is in flight. */
  predicate Wakeful(s: State)
  {
    s.closed && s.live == {} && (s.inflight != {} || s.drained)
  }

  lemma BuildingWakes(s: State, a: BuildingStep, s': State)
    requires Wf(s) && BuildingNext(s, a, s') && Wakeful(s) && s'.live <= s.live
    ensures s'.inflight != {} || s'.drained
  {
    hide Wf, NoCallsOf;
  }

  lemma WakesKept(s: State, a: Action, s': State)
    requires Wf(s) && Do(s, a, s') && GraphLater(s, s') && Wakeful(s)
    ensures Wakeful(s')
  {
    hide Wf;
    hide MakingNext, ReadingNext, EnteringNext, WaitingNext, BuildingNext;
    hide ReleasingNext, WalkingNext, ClosingNext, ForcingNext;
    match a {
      case MakingAction(x) => MakingLists(s, x, s');
      case ReadingAction(x) => ReadingLists(s, x, s');
      case EnteringAction(x) => EnteringLists(s, x, s');
      case WaitingAction(x) => WaitingLists(s, x, s');
      case BuildingAction(x) => BuildingWakes(s, x, s');
      case ReleasingAction(x) => ReleasingFlight(s, x, s');
      case WalkingAction(x) => WalkingLists(s, x, s');
      case ClosingAction(x) => ClosingFlight(s, x, s');
      case ForcingAction(x) => ForcingFlight(s, x, s');
    }
  }

  lemma {:induction false} WakesAlong(run: seq<State>, i: nat, k: nat)
    requires IsRun(run) && i <= k < |run| && Wakeful(run[i])
    ensures Wakeful(run[k])
    decreases k
  {
    hide Do, Inv, CallsLater, BuildsLater, NodesLater, Wakeful;
    if i < k {
      WakesAlong(run, i, k - 1);
      RunLater(run, k - 1);
      assert Next(run[k - 1], run[k - 1 + 1]);
      var a :| Do(run[k - 1], a, run[k]);
      WakesKept(run[k - 1], a, run[k]);
    }
  }

  /** A read there builds; when the build has ended, drained is closed and the
      provider still open. */
  lemma DrainsEarly(s: State, n: NodeId) returns (t: State)
    requires Reachable(s) && Wf(s) && LastOne(s, n)
    ensures Leads(s, t) && Reachable(t) && t.drained && t.inflight == {} && OpenAt(t, n)
  {
    hide Reachable, Wf, Leads, Inv, AllSettled, IsRun;
    LastOneEmpty(s, n);
    hide AtRest;
    var u := OpenBuilds(s, n);
    assert Wakeful(u);
    t := Finish(u);
    LeadsThen(s, u, t);
    NothingInFlight(t);
    var run, i := LeadsRun(u, t);
    WakesAlong(run, i, |run| - 1);
    assert SameDoor(u.nodes[n], t.nodes[n]);
  }

  // ---- Getting there ------------------------------------------------------------------------

  /** An open graph whose first provider is Deferred. */
  ghost predicate DeferredFirst(s: State)
  {
    && !s.closed && s.members != [] && s.members[0] < |s.nodes|
    && !s.nodes[s.members[0]].eager && s.nodes[s.members[0]].ready
  }

  lemma MakesDeferred(s: State) returns (t: State)
    requires Reachable(s) && Wf(s) && !s.closed && !FirstIsEager(s)
    ensures Leads(s, t) && Reachable(t) && DeferredFirst(t)
  {
    hide Reachable, Wf, Leads, Inv;
    t := s;
    LeadsSelf(s);
    if s.members == [] {
      t := s.(nodes := s.nodes + [Node(false, true, s.closed, None, None, 0, {})], members := s.members + [|s.nodes|]);
      Takes(s, MakingAction(DoMakeLazy), t);
    } else {
      AgendaReachable(s);
      FirstMember(s);
    }
  }

  lemma FirstMember(s: State)
    requires AgendaOk(s) && s.members != []
    ensures s.members[0] < |s.nodes| && s.nodes[s.members[0]].ready
    ensures forall i :: 1 <= i < |s.members| ==> s.members[i] != s.members[0]
  {
    hide ToShutOk, AwaitedOk, CallsNested;
  }

  /** Everything else is finished and shut, ... */
  lemma ShutOthers(s: State) returns (t: State)
    requires Reachable(s) && DeferredFirst(s)
    ensures Leads(s, t) && Reachable(t) && Wf(t) && AtRest(t) && OpenAt(t, s.members[0])
    ensures t.close.Shutting? && t.close.members == [s.members[0]] && t.close.held.None?
  {
    hide Reachable, Wf, Leads, Inv, AtRest, AgendaOk;
    ReachableWf(s);
    CloseFacts(s);
    OpenNodes(s, s.members[0]);
    AgendaReachable(s);
    FirstMember(s);
    var u := Rests(s);
    t := RunDown(u, 1);
    LeadsThen(s, u, t);
    assert s.members[..1] == [s.members[0]];
    assert s.members[0] !in s.members[1..];
  }

  /** ... and the last provider's value forgotten, with all built from it. */
  lemma Forgets(s: State, n: NodeId) returns (t: State)
    requires Reachable(s) && Wf(s) && AtRest(s) && OpenAt(s, n)
    requires s.close.Shutting? && s.close.members == [n] && s.close.held.None?
    ensures Leads(s, t) && Reachable(t) && Wf(t) && LastOne(t, n)
  {
    hide Reachable, Wf, Leads, Inv, AllSettled, OnlyWalks, AllReturned, NoneReleasing;
    var u := Section(s, n);
    Takes(s, WalkingAction(DoInvalidate(n)), u);
    t := WalksEnd(u);
    LeadsThen(s, u, t);
    ReachableWf(t);
    ForgetsRest(s, u, t, n);
  }

  lemma ForgetsRest(s: State, u: State, t: State, n: NodeId)
    requires Wf(s) && Wf(t) && AtRest(s) && OpenAt(s, n) && u == Section(s, n) && OnlyWalks(u, t)
    requires NoneReleasing(t) && AllReturned(t)
    requires s.close.Shutting? && s.close.members == [n] && s.close.held.None?
    ensures LastOne(t, n)
  {
    hide Releasing;
    assert SameHouse(u.nodes[n], t.nodes[n]);
    forall b | 0 <= b < |t.builds|
      ensures if IsEager(t, b) then t.builds[b].phase != Building else t.builds[b].phase == Signalled
    {
      assert SamePlan(u.builds[b], t.builds[b]) && b < |s.builds|;
      BuildNode(s, b);
      BuildNode(t, b);
      assert SameHouse(u.nodes[s.builds[b].node], t.nodes[s.builds[b].node]);
    }
  }

  /** With a Deferred provider first, whatever the graph is doing, some continuation
      calls Close and has it return in time over a build. */
  lemma DeferredFirstCloses(s: State) returns (t: State)
    requires Reachable(s) && !s.closed && !FirstIsEager(s)
    ensures Leads(s, t) && t.close == Closed(true) && t.inflight != {}
  {
    hide Reachable, Wf, Leads, LastOne, AtRest, OpenAt, DeferredFirst, FirstIsEager;
    ReachableWf(s);
    var u := MakesDeferred(s);
    var n := DeferredMember(u);
    var v := ShutOthers(u);
    LeadsThen(s, u, v);
    var w := Forgets(v, n);
    LeadsThen(s, v, w);
    var x := DrainsEarly(w, n);
    LeadsThen(s, w, x);
    LateBuildIff(x);
    t :| Leads(x, t) && t.close == Closed(true) && t.inflight != {};
    LeadsThen(s, x, t);
  }

  lemma DeferredMember(s: State) returns (n: NodeId)
    requires DeferredFirst(s)
    ensures s.members != [] && n == s.members[0]
  {
    n := s.members[0];
  }

  /** The exact condition, on the graph as it is before Close is called: a
      continuation exists in which Close returns in time while a build is in flight
      if and only if the provider constructed first is not Eager. */
  lemma ClosesOverABuildIff(s: State)
    requires Reachable(s) && !s.closed
    ensures (exists t :: Leads(s, t) && t.close == Closed(true) && t.inflight != {}) <==> !FirstIsEager(s)
  {
    hide Reachable, Leads, FirstIsEager, IsRun;
    if !FirstIsEager(s) {
      var t := DeferredFirstCloses(s);
    } else if t :| Leads(s, t) && t.close == Closed(true) && t.inflight != {} {
      var run, i := LeadsRun(s, t);
      EagerFirstWaits(run, i, |run| - 1);
    }
  }
}
