/** No deadlock: from every unfinished attempt, following what it waits on leads
    to an attempt that can take a step of its own; and no release ever gets
    stuck. */
module Progress {
  import opened Paths
  import opened State
  import opened Steps
  import opened Invariants
  import opened References
  import opened Waiting
  import opened Cleanups
  import opened Shutdown
  import opened Keeping
  import opened KeepWaiting
  import opened Runs
  import opened Consistency
  import opened Lifetimes
  import opened Deadlocks

  // ---- Whose step an action is ---------------------------------------------

  /** A step of the read c. */
  predicate OfCall(x: Action, c: CallId)
  {
    match x
    case ReadingAction(y) => !y.DoStartRead? && !y.DoStartFrom? && y.c == c
    case EnteringAction(y) => y.c == c
    case WaitingAction(y) => y.c == c
    case _ => false
  }

  /** A step that takes the builder of b past its return, or releases what b
      holds. */
  predicate OfBuild(x: Action, b: BuildId)
  {
    match x
    case BuildingAction(y) => !y.DoRegister? && y.b == b
    case ReleasingAction(y) => !y.DoEndLease? && !y.DoDropLease? && y.b == b
    case _ => false
  }

  /** From each release to the cleanup it waits for. */
  ghost function AwaitEdges(s: State): set<(BuildId, BuildId)>
  {
    set b | 0 <= b < |s.builds| && s.builds[b].stage.Dropping? && s.builds[b].stage.await.Some?
      :: (b, s.builds[b].stage.await.value)
  }

  /** x is a step of attempt a: of the call about to start it, of a read of its
      builder, of its own end, or of a cleanup its end is waiting for. */
  ghost predicate StepOf(s: State, a: BuildId, x: Action)
  {
    && a < |s.builds|
    && ((s.builds[a].phase == Created && OfCall(x, s.builds[a].creator))
        || (exists c :: 0 <= c < |s.calls| && s.calls[c].scope == Some(a) && OfCall(x, c))
        || (exists b :: OfBuild(x, b) && Reaches(AwaitEdges(s), a, b)))
  }

  // ---- Releases ---------------------------------------------------------------

  predicate Releasing(x: Build)
  {
    x.stage.Closing? || x.stage.Calling? || x.stage.Dropping?
  }

  lemma ReleaseFacts(s: State, b: BuildId)
    requires Inv(s) && b < |s.builds|
    ensures BuildShape(s.builds[b]) && AwaitOk(s.builds, s.builds[b], s.clock)
    ensures s.builds[b].outcome == Published ==> s.builds[b].stamp < s.clock
    ensures s.builds[b].node < |s.nodes|
  {
    assert BuildOk(s.nodes, s.builds, s.calls, s.clock, b, s.builds[b]);
    hide RefsOk, FreshWhileOpen, WaitsOk, ClosersOk, CloseOk, ListsOk, NodesOk, CallsOk, WalksOk, BuildsOk;
  }

  lemma CloserMoves(s: State, b: BuildId) returns (y: ReleasingStep, s': State)
    requires Wf(s) && b < |s.builds| && BuildShape(s.builds[b])
    requires s.builds[b].stage.Closing? || s.builds[b].stage.Calling?
    ensures ReleasingNext(s, y, s') && OfBuild(ReleasingAction(y), b)
  {
    hide Wf;
    var x := s.builds[b];
    var k := x.stage.left;
    if x.stage.Calling? {
      y, s' := DoEndCloser(b), SetBuild(s, b, End(x, k - 1).(stage := Closing(k - 1)));
    } else if k == 0 {
      y, s' := DoStartDropping(b), SetStage(s, b, Dropping(|x.deps|, None));
    } else if x.closers[k - 1].progress == Unrun {
      y, s' := DoBeginCloser(b), SetBuild(s, b, Begin(x, k - 1).(stage := Calling(k)));
    } else {
      y, s' := DoSkipCloser(b), SetBuild(s, b, x.(stage := Closing(k - 1)));
    }
  }

  lemma DropMoves(s: State, b: BuildId) returns (y: ReleasingStep, s': State)
    requires Wf(s) && b < |s.builds| && BuildShape(s.builds[b])
    requires s.builds[b].stage.Dropping? && Quiet(s, s.builds[b].stage.await)
    ensures ReleasingNext(s, y, s') && OfBuild(ReleasingAction(y), b)
  {
    var x := s.builds[b];
    var k := x.stage.left;
    if k > 0 {
      var d := x.deps[k - 1];
      y, s' := DoDropDep(b), Decrement(SetStage(s, b, Dropping(k - 1, Started(s, d))), d);
    } else if x.outcome == Published {
      y, s' := DoEndRelease(b), CheckDrained(SetStage(s, b, Over).(live := s.live - {b}));
    } else {
      y, s' := DoEndDiscard(b), SetStage(s, b, Over);
    }
  }

  /** The end of the chain of cleanups b waits for, and a step it can take. */
  lemma {:induction false} ReleaseMoves(s: State, b: BuildId) returns (e: BuildId, y: ReleasingStep, s': State)
    requires Inv(s) && Wf(s) && b < |s.builds| && Releasing(s.builds[b])
    ensures Reaches(AwaitEdges(s), b, e) && OfBuild(ReleasingAction(y), e) && ReleasingNext(s, y, s')
    decreases Horizon(s.builds[b], s.clock)
  {
    hide Inv, Wf, ReleasingNext, OfBuild, BuildShape;
    ReleaseFacts(s, b);
    ReachesSelf(AwaitEdges(s), b);
    e := b;
    if !s.builds[b].stage.Dropping? {
      y, s' := CloserMoves(s, b);
    } else if Quiet(s, s.builds[b].stage.await) {
      y, s' := DropMoves(s, b);
    } else {
      var g := s.builds[b].stage.await.value;
      ReleaseFacts(s, g);
      StageLeft(s.builds[g]);
      e, y, s' := ReleaseMoves(s, g);
      assert (b, g) in AwaitEdges(s);
      ReachesStep(AwaitEdges(s), b, (b, g));
      ReachesTrans(AwaitEdges(s), b, g, e);
    }
  }

  /** A release never gets stuck: it, or the cleanup at the end of the chain it
      waits for, can take a step. */
  lemma NoReleaseStuck(s: State, b: BuildId)
    requires Reachable(s) && Wf(s) && b < |s.builds| && Releasing(s.builds[b])
    ensures exists e, y, s' ::
              Reaches(AwaitEdges(s), b, e) && OfBuild(ReleasingAction(y), e) && ReleasingNext(s, y, s')
  {
    hide Reachable, Inv, Wf, ReleasingNext, OfBuild;
    InvReachable(s);
    var e, y, s' := ReleaseMoves(s, b);
  }

  lemma StageLeft(x: Build)
    requires BuildShape(x) && x.outcome != Pending && x.stage != Held && x.stage != Over
    ensures Releasing(x)
  {
  }

  // ---- Reads --------------------------------------------------------------------

  /** A read of a builder can always move, unless it waits on an attempt that is
      still going. */
  ghost predicate Blocked(s: State, c: CallId)
    requires c < |s.calls|
  {
    (s.calls[c].pc.Inline? || s.calls[c].pc.Select?)
    && s.calls[c].pc.a < |s.builds| && s.builds[s.calls[c].pc.a].phase != Signalled
  }

  lemma LookingMoves(s: State, c: CallId) returns (x: Action, s': State)
    requires Wf(s) && c < |s.calls| && s.calls[c].scope.Some? && s.calls[c].ref
    requires s.calls[c].pc.AddEdge? || s.calls[c].pc.Load? || s.calls[c].pc.Claim? || s.calls[c].pc.Got?
    ensures OfCall(x, c) && Do(s, x, s')
  {
    var y := s.calls[c];
    var b := y.scope.value;
    match y.pc {
      case AddEdge =>
        var n := s.nodes[y.node];
        x := ReadingAction(DoAddDependent(c));
        s' := SetNode(SetCall(s, c, Load), y.node, n.(dependents := n.dependents + {s.builds[b].node}));
      case Load =>
        var v := s.nodes[y.node].val;
        x := ReadingAction(DoLoadValue(c));
        s' := SetCall(s, c, if v.Some? then Claim(v.value) else Enter);
      case Claim(g) =>
        if s.builds[g].refs > 0 {
          x := ReadingAction(DoAcquire(c));
          s' := SetBuild(SetCall(s, c, Got(g)), g, s.builds[g].(refs := s.builds[g].refs + 1));
        } else {
          x, s' := ReadingAction(DoAcquireFails(c)), SetCall(s, c, Enter);
        }
      case Got(g) =>
        x := ReadingAction(DoKeepDep(c));
        s' := SetBuild(SetCall(s, c, Kept), b, s.builds[b].(deps := s.builds[b].deps + [g]));
    }
  }

  lemma EnteringMoves(s: State, c: CallId) returns (x: Action, s': State)
    requires Wf(s) && c < |s.calls| && s.calls[c].pc == Enter
    requires NodeOk(s.nodes, s.builds, s.closed, s.calls[c].node, s.nodes[s.calls[c].node])
    requires s.nodes[s.calls[c].node].ready
    ensures OfCall(x, c) && Do(s, x, s')
  {
    var n := s.calls[c].node;
    var y := s.nodes[n];
    if y.closed {
      x, s' := EnteringAction(DoEnterClosed(c)), SetCall(s, c, Failed(ErrClosed));
    } else if y.val.Some? {
      x, s' := EnteringAction(DoEnterRetry(c)), SetCall(s, c, Load);
    } else if y.cur.Some? {
      x, s' := EnteringAction(DoEnterJoin(c)), SetCall(s, c, Join(y.cur.value, false));
    } else {
      var a := |s.builds|;
      x := EnteringAction(DoEnterCreate(c));
      s' := SetNode(SetCall(s, c, Join(a, true)), n, y.(cur := Some(a)))
              .(builds := s.builds + [NewBuild(n, y.epoch, c, Created)], inflight := s.inflight + {a});
    }
  }

  /** waitFor either accepts or reports a cycle; a fresh attempt is always
      accepted and started. */
  lemma JoiningMoves(s: State, c: CallId) returns (x: Action, s': State)
    requires Wf(s) && Shape(s) && c < |s.calls| && s.calls[c].pc.Join?
    ensures OfCall(x, c) && Do(s, x, s')
    ensures s.calls[c].pc.mine ==> x == WaitingAction(DoJoinStart(c))
  {
    hide Reaches, Edges, Shape;
    var y := s.calls[c];
    var a := y.pc.a;
    if y.pc.mine {
      if y.from.Some? { FreshAttemptClosesNoCycle(s, c); }
      var pc := if y.from.Some? || !y.bound then Inline(a) else Select(a);
      x := WaitingAction(DoJoinStart(c));
      s' := CountWait(SetBuild(SetCall(s, c, pc), a, s.builds[a].(phase := Building)), y.from, a);
    } else if y.from.Some? && Reaches(Edges(s), a, y.from.value) {
      x, s' := WaitingAction(DoJoinCycle(c)), SetCall(s, c, Failed(ErrCycle));
    } else {
      x, s' := WaitingAction(DoJoinWait(c)), CountWait(SetCall(s, c, Select(a)), y.from, a);
    }
  }

  lemma LeavingMoves(s: State, c: CallId) returns (x: Action, s': State)
    requires Wf(s) && c < |s.calls| && !Blocked(s, c)
    requires s.calls[c].pc.Inline? || s.calls[c].pc.Select? || s.calls[c].pc.Leave?
    ensures OfCall(x, c) && Do(s, x, s')
  {
    var y := s.calls[c];
    if y.pc.Leave? {
      x, s' := WaitingAction(DoStopWaiting(c)), UncountWait(SetCall(s, c, Resume(s, c)), y.from, y.pc.a);
    } else {
      x, s' := WaitingAction(DoWake(c)), SetCall(s, c, Leave(y.pc.a, None));
    }
  }

  lemma ReadMoves(s: State, c: CallId) returns (x: Action, s': State)
    requires Inv(s) && Wf(s) && c < |s.calls| && InProgress(s.calls[c]) && s.calls[c].scope.Some?
    requires !Blocked(s, c)
    ensures OfCall(x, c) && Do(s, x, s')
  {
    CallFacts(s, c);
    InvWf(s);
    NodeFacts(s, s.calls[c].node);
    hide Inv, Wf, Shape, Do, OfCall, Blocked, NodeOk;
    match s.calls[c].pc {
      case Enter => x, s' := EnteringMoves(s, c);
      case Join(_, _) => x, s' := JoiningMoves(s, c);
      case Inline(_) => x, s' := LeavingMoves(s, c);
      case Select(_) => x, s' := LeavingMoves(s, c);
      case Leave(_, _) => x, s' := LeavingMoves(s, c);
      case _ => x, s' := LookingMoves(s, c);
    }
  }

  // ---- Attempts --------------------------------------------------------------------

  /** Attempts whose done channel is still open. */
  ghost function Going(s: State): set<BuildId>
    requires Wf(s)
  {
    set b | 0 <= b < |s.builds| && !IsEager(s, b) && s.builds[b].phase != Signalled
  }

  /** A builder that has joined its reads can return, and its value is published
      or rejected. */
  lemma ReturnMoves(s: State, b: BuildId) returns (y: BuildingStep, s': State)
    requires Wf(s) && Returns(s, b) && !IsEager(s, b)
    ensures BuildingNext(s, y, s') && OfBuild(BuildingAction(y), b)
    ensures y == DoPublishLazy(b) || y == DoDiscardStale(b)
  {
    hide NoCallsOf;
    var n := s.nodes[s.builds[b].node];
    if n.closed || s.builds[b].epoch != n.epoch || s.closed {
      y, s' := DoDiscardStale(b), Discard(s, b, Stale);
    } else {
      y, s' := DoPublishLazy(b), Publish(s, b);
    }
  }

  lemma FinishMoves(s: State, b: BuildId) returns (y: BuildingStep, s': State)
    requires Wf(s) && b < |s.builds| && !IsEager(s, b)
    requires (s.builds[b].phase == Settled && (s.builds[b].outcome == Published || s.builds[b].stage == Over))
             || s.builds[b].phase == Unlisted
    ensures BuildingNext(s, y, s') && OfBuild(BuildingAction(y), b) && (y.DoUnlist? || y.DoSignal?)
  {
    if s.builds[b].phase == Unlisted {
      y, s' := DoSignal(b), SetBuild(s, b, s.builds[b].(phase := Signalled));
    } else {
      y := DoUnlist(b);
      s' := CheckDrained(SetBuild(s, b, s.builds[b].(phase := Unlisted)).(inflight := s.inflight - {b}));
    }
  }

  lemma CreatorFacts(s: State, a: BuildId)
    requires Inv(s) && a < |s.builds|
    ensures s.builds[a].phase == Created ==>
              s.builds[a].creator < |s.calls| && s.calls[s.builds[a].creator].pc == Join(a, true)
  {
    assert BuildOk(s.nodes, s.builds, s.calls, s.clock, a, s.builds[a]);
    hide RefsOk, FreshWhileOpen, WaitsOk, ClosersOk, CloseOk, ListsOk, NodesOk, CallsOk, WalksOk, BuildsOk;
  }

  /** Attempt a can take a step of its own now. */
  ghost predicate CanStep(s: State, a: BuildId)
    requires Wf(s)
  {
    exists x, s' :: StepOf(s, a, x) && Do(s, x, s')
  }

  /** An attempt that waits on no attempt still going can take a step. */
  lemma AttemptMoves(s: State, a: BuildId) returns (x: Action, s': State)
    requires Reachable(s) && Wf(s) && a in Going(s)
    requires forall e :: e in Edges(s) && e.0 == a ==> e.1 !in Going(s)
    ensures StepOf(s, a, x) && Do(s, x, s')
  {
    hide Reachable, Inv, Wf, Edges, OfCall, OfBuild, ReleasingNext, BuildingNext, Reaches, NoCallsOf, BuildShape;
    InvReachable(s);
    InvWf(s);
    CreatorFacts(s, a);
    ReleaseFacts(s, a);
    hide Shape;
    ReachesSelf(AwaitEdges(s), a);
    match s.builds[a].phase {
      case Created => x, s' := JoiningMoves(s, s.builds[a].creator);
      case Building => x, s' := BuilderMoves(s, a);
      case Settled =>
        if s.builds[a].outcome == Published || s.builds[a].stage == Over {
          var y;
          y, s' := FinishMoves(s, a);
          x := BuildingAction(y);
        } else {
          DiscardedLeft(s.builds[a]);
          var e, y;
          e, y, s' := ReleaseMoves(s, a);
          x := ReleasingAction(y);
        }
      case Unlisted =>
        var y;
        y, s' := FinishMoves(s, a);
        x := BuildingAction(y);
    }
  }

  lemma DiscardedLeft(x: Build)
    requires BuildShape(x) && x.phase == Settled && x.outcome != Published && x.stage != Over
    ensures Releasing(x)
  {
  }

  lemma BuilderMoves(s: State, a: BuildId) returns (x: Action, s': State)
    requires Reachable(s) && Wf(s) && a in Going(s) && s.builds[a].phase == Building
    requires forall e :: e in Edges(s) && e.0 == a ==> e.1 !in Going(s)
    ensures StepOf(s, a, x) && Do(s, x, s')
  {
    hide Reachable, Inv, Edges, OfCall, OfBuild, BuildingNext, Reaches, Blocked;
    InvReachable(s);
    if NoCallsOf(s, a) {
      var y;
      y, s' := ReturnMoves(s, a);
      x := BuildingAction(y);
      ReachesSelf(AwaitEdges(s), a);
    } else {
      var c :| 0 <= c < |s.calls| && s.calls[c].scope == Some(a) && InProgress(s.calls[c]);
      NotBlocked(s, a, c);
      x, s' := ReadMoves(s, c);
    }
  }

  lemma NotBlocked(s: State, a: BuildId, c: CallId)
    requires Reachable(s) && Wf(s) && a in Going(s) && c < |s.calls| && s.calls[c].scope == Some(a)
    requires forall e :: e in Edges(s) && e.0 == a ==> e.1 !in Going(s)
    ensures !Blocked(s, c)
  {
    hide Reachable, Inv, Edges;
    InvReachable(s);
    CallFacts(s, c);
    if s.calls[c].pc.Inline? || s.calls[c].pc.Select? {
      EdgesAreReads(s, a, s.calls[c].pc.a);
      assert (a, s.calls[c].pc.a) in Edges(s);
    }
  }

  /** Every attempt in flight is one of them. */
  lemma InflightIsGoing(s: State, a: BuildId)
    requires Reachable(s) && Wf(s) && a in s.inflight
    ensures a in Going(s)
  {
    hide Reachable, Inv;
    InvReachable(s);
    InflightFacts(s, a);
  }

  /** No deadlock among builders: from every unfinished attempt, what it waits on
      leads to an unfinished attempt that can take a step now. */
  lemma NoDeadlock(s: State, a: BuildId)
    requires Reachable(s) && Wf(s) && a in Going(s)
    ensures exists e :: e in Going(s) && Reaches(Edges(s), a, e) && CanStep(s, e)
  {
    hide Reachable, Edges, Do, StepOf;
    WaitForIsAcyclic(s);
    var e := SinkBelow(Edges(s), Going(s), a);
    var x, s' := AttemptMoves(s, e);
    assert CanStep(s, e);
  }

  /** In particular, while anything is in flight some attempt can go on. */
  lemma SomeoneCanGoOn(s: State)
    requires Reachable(s) && Wf(s) && s.inflight != {}
    ensures exists e :: e in Going(s) && CanStep(s, e)
  {
    hide Reachable, CanStep, Edges, Going;
    var a :| a in s.inflight;
    InflightIsGoing(s, a);
    NoDeadlock(s, a);
  }
}
