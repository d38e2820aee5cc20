/** The atomic steps of the runtime: one per mutex section and per atomic
    operation of the code, with the thread-local code after it. */
module Steps {
  import opened Paths
  import opened State

  // ---- Pieces shared by several steps ----------------------------------

  function SetCall(s: State, c: CallId, pc: Pc): (t: State)
    requires c < |s.calls|
  {
    s.(calls := s.calls[c := s.calls[c].(pc := pc)])
  }

  function SetBuild(s: State, b: BuildId, x: Build): State
    requires b < |s.builds|
  {
    s.(builds := s.builds[b := x])
  }

  function SetStage(s: State, b: BuildId, stage: Stage): State
    requires b < |s.builds|
  {
    SetBuild(s, b, s.builds[b].(stage := stage))
  }

  function SetNode(s: State, n: NodeId, x: Node): State
    requires n < |s.nodes|
  {
    s.(nodes := s.nodes[n := x])
  }

  function SetWalk(s: State, i: WalkId, x: Walk): State
    requires i < |s.walks|
  {
    s.(walks := s.walks[i := x])
  }

  /** refs.Add(-1): at zero the caller starts the cleanups. */
  function Decrement(s: State, g: BuildId): State
    requires g < |s.builds|
  {
    var x := s.builds[g];
    SetBuild(s, g, x.(refs := x.refs - 1, stage := if x.refs == 1 then Closing(|x.closers|) else x.stage))
  }

  /** What that caller then waits for. */
  function Started(s: State, g: BuildId): Option<BuildId>
    requires g < |s.builds|
  {
    if s.builds[g].refs == 1 then Some(g) else None
  }

  function CheckDrained(s: State): State
  {
    s.(drained := s.drained || (s.closed && s.live == {} && s.inflight == {}))
  }

  function Begin(x: Build, j: nat): Build
    requires j < |x.closers|
  {
    x.(closers := x.closers[j := Closer(Running, x.closers[j].runs + 1)])
  }

  function End(x: Build, j: nat): Build
    requires j < |x.closers|
  {
    x.(closers := x.closers[j := x.closers[j].(progress := Ran)])
  }

  function NewBuild(n: NodeId, epoch: nat, creator: CallId, phase: Phase): Build
  {
    Build(n, epoch, creator, phase, Pending, map[], [], [], 0, 0, Scope)
  }

  // ---- Construction: lazyOf and eagerOf --------------------------------

  ghost predicate MakeLazy(s: State, s': State)
    requires Wf(s)
  {
    s' == s.(nodes := s.nodes + [Node(false, true, s.closed, None, None, 0, {})],
             members := s.members + [|s.nodes|])
  }

  /** An eager builder starts. Its node is recorded now, with the builder as its
      cur, but no code can name it before the builder is done. */
  ghost predicate MakeEager(s: State, s': State)
    requires Wf(s)
  {
    s' == s.(nodes := s.nodes + [Node(true, false, false, None, Some(|s.builds|), 0, {})],
             builds := s.builds + [NewBuild(|s.nodes|, 0, 0, Building)])
  }

  // ---- Reads: get, From, Try, Acquire ----------------------------------

  /** Try (no reference) or Acquire. */
  ghost predicate StartRead(s: State, s': State, n: NodeId, ref: bool, bound: bool)
    requires Wf(s)
  {
    && n < |s.nodes| && s.nodes[n].ready
    && s' == s.(calls := s.calls + [Call(n, None, None, ref, bound, Load)])
  }

  /** From, inside a running builder. An eager scope reads eager providers only,
      and addDependent does nothing on an eager provider. */
  ghost predicate StartFrom(s: State, s': State, b: BuildId, n: NodeId)
    requires Wf(s)
  {
    && n < |s.nodes| && s.nodes[n].ready
    && b < |s.builds| && s.builds[b].phase == Building
    && (IsEager(s, b) ==> s.nodes[n].eager)
    && s' == s.(calls := s.calls + [
         Call(n, Some(b), if IsEager(s, b) then None else Some(b), true, true,
              if IsEager(s, b) || s.nodes[n].eager then Load else AddEdge)])
  }

  ghost predicate AddDependent(s: State, s': State, c: CallId)
    requires Wf(s)
  {
    && c < |s.calls| && s.calls[c].pc == AddEdge && s.calls[c].scope.Some?
    && var n := s.calls[c].node;
       var m := s.builds[s.calls[c].scope.value].node;
       var x := s.nodes[n];
       s' == SetNode(SetCall(s, c, Load), n, x.(dependents := x.dependents + {m}))
  }

  ghost predicate LoadValue(s: State, s': State, c: CallId)
    requires Wf(s)
  {
    && c < |s.calls| && s.calls[c].pc == Load
    && var v := s.nodes[s.calls[c].node].val;
       s' == SetCall(s, c, if v.Some? then Claim(v.value) else Enter)
  }

  /** Try takes no reference. */
  ghost predicate Peek(s: State, s': State, c: CallId)
    requires Wf(s)
  {
    && c < |s.calls| && s.calls[c].pc.Claim? && !s.calls[c].ref
    && s' == SetCall(s, c, Got(s.calls[c].pc.g))
  }

  /** acquire ends with a successful compare-and-swap from a positive count ... */
  ghost predicate Acquire(s: State, s': State, c: CallId)
    requires Wf(s)
  {
    && c < |s.calls| && s.calls[c].pc.Claim? && s.calls[c].ref
    && var g := s.calls[c].pc.g;
       var x := s.builds[g];
       && x.refs > 0
       && s' == SetBuild(SetCall(s, c, Got(g)), g, x.(refs := x.refs + 1))
  }

  /** ... or on a count that is not positive. */
  ghost predicate AcquireFails(s: State, s': State, c: CallId)
    requires Wf(s)
  {
    && c < |s.calls| && s.calls[c].pc.Claim? && s.calls[c].ref
    && s.builds[s.calls[c].pc.g].refs <= 0
    && s' == SetCall(s, c, Enter)
  }

  /** get's locked section, by outcome: the provider is closed, ... */
  ghost predicate EnterClosed(s: State, s': State, c: CallId)
    requires Wf(s)
  {
    && c < |s.calls| && s.calls[c].pc == Enter
    && s.nodes[s.calls[c].node].closed
    && s' == SetCall(s, c, Failed(ErrClosed))
  }

  /** ... a value is there again, ... */
  ghost predicate EnterRetry(s: State, s': State, c: CallId)
    requires Wf(s)
  {
    && c < |s.calls| && s.calls[c].pc == Enter
    && var x := s.nodes[s.calls[c].node];
       && !x.closed && x.val.Some?
       && s' == SetCall(s, c, Load)
  }

  /** ... an attempt is in progress, ... */
  ghost predicate EnterJoin(s: State, s': State, c: CallId)
    requires Wf(s)
  {
    && c < |s.calls| && s.calls[c].pc == Enter
    && var x := s.nodes[s.calls[c].node];
       && !x.closed && x.val.None? && x.cur.Some?
       && s' == SetCall(s, c, Join(x.cur.value, false))
  }

  /** ... or this read creates one. An eager node has no builder to call. */
  ghost predicate EnterCreate(s: State, s': State, c: CallId)
    requires Wf(s)
  {
    && c < |s.calls| && s.calls[c].pc == Enter
    && var n := s.calls[c].node;
       var x := s.nodes[n];
       var a := |s.builds|;
       && !x.closed && x.val.None? && x.cur.None? && !x.eager
       && s' == SetNode(SetCall(s, c, Join(a, true)), n, x.(cur := Some(a)))
                  .(builds := s.builds + [NewBuild(n, x.epoch, c, Created)], inflight := s.inflight + {a})
  }

  /** waitFor refuses, on an attempt another call created. */
  ghost predicate JoinCycle(s: State, s': State, c: CallId)
    requires Wf(s)
  {
    && c < |s.calls| && s.calls[c].pc.Join? && !s.calls[c].pc.mine && s.calls[c].from.Some?
    && Reaches(Edges(s), s.calls[c].pc.a, s.calls[c].from.value)
    && s' == SetCall(s, c, Failed(ErrCycle))
  }

  /** waitFor refuses, on the attempt this call has just created: finish it
      without a scope. */
  ghost predicate JoinAbort(s: State, s': State, c: CallId)
    requires Wf(s)
  {
    && c < |s.calls| && s.calls[c].pc.Join? && s.calls[c].pc.mine && s.calls[c].from.Some?
    && var a := s.calls[c].pc.a;
       var n := s.calls[c].node;
       && Reaches(Edges(s), a, s.calls[c].from.value)
       && s' == SetNode(
            SetBuild(SetCall(s, c, Abort(a)), a, s.builds[a].(phase := Settled, outcome := Broken, stage := Over)),
            n, s.nodes[n].(cur := None))
  }

  /** from.waits[a]++, or nothing without a reading attempt. */
  function CountWait(s: State, from: Option<BuildId>, a: BuildId): State
    requires Opt(from, |s.builds|)
  {
    if from.None? then s
    else
      var x := s.builds[from.value];
      SetBuild(s, from.value, x.(waits := x.waits[a := WaitCount(x, a) + 1]))
  }

  function UncountWait(s: State, from: Option<BuildId>, a: BuildId): State
    requires Opt(from, |s.builds|)
  {
    if from.None? then s
    else
      var x := s.builds[from.value];
      SetBuild(s, from.value, x.(waits :=
        if WaitCount(x, a) <= 1 then x.waits - {a} else x.waits[a := WaitCount(x, a) - 1]))
  }

  ghost predicate Accepted(s: State, c: CallId)
    requires Wf(s) && c < |s.calls| && s.calls[c].pc.Join?
  {
    s.calls[c].from.Some? ==> !Reaches(Edges(s), s.calls[c].pc.a, s.calls[c].from.value)
  }

  /** waitFor accepts, or there is nothing to record: wait for another call's
      attempt. */
  ghost predicate JoinWait(s: State, s': State, c: CallId)
    requires Wf(s)
  {
    && c < |s.calls| && s.calls[c].pc.Join? && !s.calls[c].pc.mine
    && Accepted(s, c)
    && s' == CountWait(SetCall(s, c, Select(s.calls[c].pc.a)), s.calls[c].from, s.calls[c].pc.a)
  }

  /** The creator then starts the builder, on this goroutine if nothing can make
      it leave. */
  ghost predicate JoinStart(s: State, s': State, c: CallId)
    requires Wf(s)
  {
    && c < |s.calls| && s.calls[c].pc.Join? && s.calls[c].pc.mine
    && Accepted(s, c)
    && var x := s.calls[c];
       var a := x.pc.a;
       var pc := if x.from.Some? || !x.bound then Inline(a) else Select(a);
       s' == CountWait(SetBuild(SetCall(s, c, pc), a, s.builds[a].(phase := Building)), x.from, a)
  }

  /** run returns, or the select sees done. */
  ghost predicate Wake(s: State, s': State, c: CallId)
    requires Wf(s)
  {
    && c < |s.calls| && (s.calls[c].pc.Inline? || s.calls[c].pc.Select?)
    && s.builds[s.calls[c].pc.a].phase == Signalled
    && s' == SetCall(s, c, Leave(s.calls[c].pc.a, None))
  }

  /** The select sees its context end, or the graph closed. */
  ghost predicate Abandon(s: State, s': State, c: CallId, why: Failure)
    requires Wf(s)
  {
    && c < |s.calls| && s.calls[c].pc.Select?
    && (why == ErrClosed || why == ErrCtx)
    && (why == ErrClosed ==> s.cancelled)
    && (why == ErrCtx ==> if s.calls[c].scope.Some? then s.cancelled else s.calls[c].bound)
    && s' == SetCall(s, c, Leave(s.calls[c].pc.a, Some(why)))
  }

  /** What get does after its wait: fail, or loop. */
  function Resume(s: State, c: CallId): Pc
    requires c < |s.calls| && s.calls[c].pc.Leave? && s.calls[c].pc.a < |s.builds|
  {
    if s.calls[c].pc.err.Some? then Failed(s.calls[c].pc.err.value)
    else if s.builds[s.calls[c].pc.a].outcome == Broken then Failed(ErrBuild)
    else Load
  }

  ghost predicate StopWaiting(s: State, s': State, c: CallId)
    requires Wf(s)
  {
    && c < |s.calls| && s.calls[c].pc.Leave?
    && s' == UncountWait(SetCall(s, c, Resume(s, c)), s.calls[c].from, s.calls[c].pc.a)
  }

  ghost predicate AbortReturn(s: State, s': State, c: CallId)
    requires Wf(s)
  {
    && c < |s.calls| && s.calls[c].pc.Abort?
    && s.builds[s.calls[c].pc.a].phase == Signalled
    && s' == SetCall(s, c, Failed(ErrCycle))
  }

  /** From appends the value to its scope. */
  ghost predicate KeepDep(s: State, s': State, c: CallId)
    requires Wf(s)
  {
    && c < |s.calls| && s.calls[c].pc.Got? && s.calls[c].scope.Some?
    && var b := s.calls[c].scope.value;
       s' == SetBuild(SetCall(s, c, Kept), b, s.builds[b].(deps := s.builds[b].deps + [s.calls[c].pc.g]))
  }

  /** Acquire wraps the value in a lease. */
  ghost predicate TakeLease(s: State, s': State, c: CallId)
    requires Wf(s)
  {
    && c < |s.calls| && s.calls[c].pc.Got? && s.calls[c].scope.None? && s.calls[c].ref
    && s' == SetCall(s, c, Kept).(leases := s.leases + [Lease(s.calls[c].pc.g, Active)])
  }

  // ---- Builders: OnClose, return, finish -------------------------------

  ghost predicate Register(s: State, s': State, b: BuildId)
    requires Wf(s)
  {
    && b < |s.builds| && s.builds[b].phase == Building
    && s' == SetBuild(s, b, s.builds[b].(closers := s.builds[b].closers + [Closer(Unrun, 0)]))
  }

  function Publish(s: State, b: BuildId): State
    requires b < |s.builds| && s.builds[b].node < |s.nodes|
  {
    var x := s.builds[b];
    var n := s.nodes[x.node];
    SetNode(SetBuild(s, b, x.(phase := if n.eager then Signalled else Settled, outcome := Published,
                              refs := 1, stamp := s.clock, stage := Held)),
            x.node, n.(val := Some(b), ready := true, cur := None))
      .(live := s.live + {b}, clock := s.clock + 1)
  }

  function Discard(s: State, b: BuildId, outcome: Outcome): State
    requires b < |s.builds| && s.builds[b].node < |s.nodes|
  {
    var x := s.builds[b];
    SetNode(SetBuild(s, b, x.(phase := Settled, outcome := outcome, stage := Closing(|x.closers|))),
            x.node, s.nodes[x.node].(cur := None))
  }

  /** A builder that has joined its reads returns. */
  ghost predicate Returns(s: State, b: BuildId)
  {
    b < |s.builds| && s.builds[b].phase == Building && NoCallsOf(s, b)
  }

  /** finish's locked section publishes the value. */
  ghost predicate PublishLazy(s: State, s': State, b: BuildId)
    requires Wf(s)
  {
    && Returns(s, b) && !IsEager(s, b)
    && var n := s.nodes[s.builds[b].node];
       && !n.closed && s.builds[b].epoch == n.epoch && !s.closed
       && s' == Publish(s, b)
  }

  /** finish's locked section rejects it: invalidated or closed meanwhile. */
  ghost predicate DiscardStale(s: State, s': State, b: BuildId)
    requires Wf(s)
  {
    && Returns(s, b) && !IsEager(s, b)
    && var n := s.nodes[s.builds[b].node];
       && (n.closed || s.builds[b].epoch != n.epoch || s.closed)
       && s' == Discard(s, b, Stale)
  }

  /** The builder failed; or it is eager and the graph is closed. */
  ghost predicate DiscardBroken(s: State, s': State, b: BuildId)
    requires Wf(s)
  {
    && Returns(s, b)
    && s' == Discard(s, b, Broken)
  }

  /** eagerOf registers its value and joins the graph. */
  ghost predicate PublishEager(s: State, s': State, b: BuildId)
    requires Wf(s)
  {
    && Returns(s, b) && IsEager(s, b) && !s.closed
    && s' == Publish(s, b).(members := s.members + [s.builds[b].node])
  }

  /** finish, after the releases: the attempt leaves inflight. */
  ghost predicate Unlist(s: State, s': State, b: BuildId)
    requires Wf(s)
  {
    && b < |s.builds| && s.builds[b].phase == Settled && !IsEager(s, b)
    && (s.builds[b].outcome == Published || s.builds[b].stage == Over)
    && s' == CheckDrained(SetBuild(s, b, s.builds[b].(phase := Unlisted)).(inflight := s.inflight - {b}))
  }

  ghost predicate Signal(s: State, s': State, b: BuildId)
    requires Wf(s)
  {
    && b < |s.builds| && s.builds[b].phase == Unlisted
    && s' == SetBuild(s, b, s.builds[b].(phase := Signalled))
  }

  // ---- Releasing what a build holds: runAll, releaseAll ----------------

  ghost predicate BeginCloser(s: State, s': State, b: BuildId)
    requires Wf(s)
  {
    && b < |s.builds| && s.builds[b].stage.Closing?
    && var x := s.builds[b];
       var k := x.stage.left;
       && 1 <= k <= |x.closers| && x.closers[k - 1].progress == Unrun
       && s' == SetBuild(s, b, Begin(x, k - 1).(stage := Calling(k)))
  }

  /** The flag is already set: someone else runs or ran this cleanup. */
  ghost predicate SkipCloser(s: State, s': State, b: BuildId)
    requires Wf(s)
  {
    && b < |s.builds| && s.builds[b].stage.Closing?
    && var x := s.builds[b];
       var k := x.stage.left;
       && 1 <= k <= |x.closers| && x.closers[k - 1].progress != Unrun
       && s' == SetBuild(s, b, x.(stage := Closing(k - 1)))
  }

  ghost predicate EndCloser(s: State, s': State, b: BuildId)
    requires Wf(s)
  {
    && b < |s.builds| && s.builds[b].stage.Calling?
    && var x := s.builds[b];
       var k := x.stage.left;
       && 1 <= k <= |x.closers|
       && s' == SetBuild(s, b, End(x, k - 1).(stage := Closing(k - 1)))
  }

  ghost predicate StartDropping(s: State, s': State, b: BuildId)
    requires Wf(s)
  {
    && b < |s.builds| && s.builds[b].stage == Closing(0)
    && s' == SetStage(s, b, Dropping(|s.builds[b].deps|, None))
  }

  ghost predicate DropDep(s: State, s': State, b: BuildId)
    requires Wf(s)
  {
    && b < |s.builds| && s.builds[b].stage.Dropping? && Quiet(s, s.builds[b].stage.await)
    && var x := s.builds[b];
       var k := x.stage.left;
       && 1 <= k <= |x.deps|
       && var d := x.deps[k - 1];
          s' == Decrement(SetStage(s, b, Dropping(k - 1, Started(s, d))), d)
  }

  /** The last step of release. */
  ghost predicate EndRelease(s: State, s': State, b: BuildId)
    requires Wf(s)
  {
    && b < |s.builds| && s.builds[b].stage.Dropping? && Quiet(s, s.builds[b].stage.await)
    && s.builds[b].stage.left == 0 && s.builds[b].outcome == Published
    && s' == CheckDrained(SetStage(s, b, Over).(live := s.live - {b}))
  }

  /** The releases of a discarded build are done: it was never in live. */
  ghost predicate EndDiscard(s: State, s': State, b: BuildId)
    requires Wf(s)
  {
    && b < |s.builds| && s.builds[b].stage.Dropping? && Quiet(s, s.builds[b].stage.await)
    && s.builds[b].stage.left == 0 && s.builds[b].outcome != Published
    && s' == SetStage(s, b, Over)
  }

  // ---- Invalidate ------------------------------------------------------

  /** invalidate's locked section, as activation |s.walks|. */
  function Section(s: State, n: NodeId): State
    requires n < |s.nodes|
  {
    var x := s.nodes[n];
    SetNode(s, n, x.(epoch := x.epoch + 1, val := None, dependents := {}))
      .(walks := s.walks + [Walk(n, x.dependents, x.val, None, None, false)])
  }

  ghost predicate Invalidate(s: State, s': State, n: NodeId)
    requires Wf(s)
  {
    && n < |s.nodes| && s.nodes[n].ready && !s.nodes[n].eager
    && s' == Section(s, n)
  }

  ghost predicate ChildDone(s: State, i: WalkId)
    requires Wf(s) && i < |s.walks|
  {
    s.walks[i].child.Some? ==> s.walks[s.walks[i].child.value].returned
  }

  ghost predicate Descend(s: State, s': State, i: WalkId, d: NodeId)
    requires Wf(s)
  {
    && i < |s.walks| && d in s.walks[i].todo && ChildDone(s, i)
    && s' == Section(SetWalk(s, i, s.walks[i].(todo := s.walks[i].todo - {d}, child := Some(|s.walks|))), d)
  }

  ghost predicate WalkRelease(s: State, s': State, i: WalkId)
    requires Wf(s)
  {
    && i < |s.walks| && s.walks[i].todo == {} && ChildDone(s, i) && s.walks[i].held.Some?
    && var g := s.walks[i].held.value;
       s' == Decrement(SetWalk(s, i, s.walks[i].(held := None, await := Started(s, g))), g)
  }

  ghost predicate WalkReturn(s: State, s': State, i: WalkId)
    requires Wf(s)
  {
    && i < |s.walks| && s.walks[i].todo == {} && ChildDone(s, i) && s.walks[i].held.None?
    && Quiet(s, s.walks[i].await) && !s.walks[i].returned
    && s' == SetWalk(s, i, s.walks[i].(returned := true))
  }

  // ---- Leases ----------------------------------------------------------

  /** Release wins the flag; later calls on the lease do nothing. */
  ghost predicate EndLease(s: State, s': State, l: nat)
    requires Wf(s)
  {
    && l < |s.leases| && s.leases[l].phase == Active
    && s' == s.(leases := s.leases[l := s.leases[l].(phase := Ending)])
  }

  ghost predicate DropLease(s: State, s': State, l: nat)
    requires Wf(s)
  {
    && l < |s.leases| && s.leases[l].phase == Ending
    && s' == Decrement(s.(leases := s.leases[l := s.leases[l].(phase := Ended)]), s.leases[l].of)
  }

  // ---- CloseContext ----------------------------------------------------

  ghost predicate BeginClose(s: State, s': State)
    requires Wf(s)
  {
    && !s.closed
    && s' == s.(closed := true, close := Cancelling(s.members))
  }

  ghost predicate Cancel(s: State, s': State)
    requires Wf(s)
  {
    && s.close.Cancelling?
    && s' == s.(cancelled := true, close := Shutting(s.close.members, None, None))
  }

  ghost predicate Shut(s: State, s': State)
    requires Wf(s)
  {
    && s.close.Shutting? && s.close.members != [] && s.close.held.None? && Quiet(s, s.close.await)
    && var k := |s.close.members| - 1;
       var n := s.close.members[k];
       s' == SetNode(s, n, s.nodes[n].(closed := true, val := None))
               .(close := Shutting(s.close.members[..k], s.nodes[n].val, None))
  }

  ghost predicate ShutRelease(s: State, s': State)
    requires Wf(s)
  {
    && s.close.Shutting? && s.close.held.Some?
    && var g := s.close.held.value;
       s' == Decrement(s.(close := Shutting(s.close.members, None, Started(s, g))), g)
  }

  ghost predicate EndShutting(s: State, s': State)
    requires Wf(s)
  {
    && s.close.Shutting? && s.close.members == [] && s.close.held.None? && Quiet(s, s.close.await)
    && s' == CheckDrained(s).(close := Waiting)
  }

  ghost predicate CloseOnTime(s: State, s': State)
    requires Wf(s)
  {
    && s.close.Waiting? && s.drained
    && s' == s.(close := Closed(true))
  }

  /** The deadline branch takes its snapshot of live. */
  ghost predicate Deadline(s: State, s': State)
    requires Wf(s)
  {
    && s.close.Waiting?
    && s' == s.(forced := true, close := Forcing(s.live, None, 0, false))
  }

  ghost predicate ForceNext(s: State, s': State, v: BuildId)
    requires Wf(s)
  {
    && s.close.Forcing? && s.close.on.None? && v in s.close.todo
    && s' == s.(close := Forcing(s.close.todo - {v}, Some(v), |s.builds[v].closers|, false))
  }

  /** The forced close is about to look at cleanup left-1 of on. */
  predicate AtCloser(s: State)
  {
    && s.close.Forcing? && s.close.on.Some? && !s.close.calling
    && s.close.on.value < |s.builds|
    && 1 <= s.close.left <= |s.builds[s.close.on.value].closers|
  }

  ghost predicate ForceBegin(s: State, s': State)
    requires Wf(s)
  {
    && AtCloser(s)
    && var v := s.close.on.value;
       var k := s.close.left;
       && s.builds[v].closers[k - 1].progress == Unrun
       && s' == SetBuild(s, v, Begin(s.builds[v], k - 1)).(close := s.close.(calling := true))
  }

  ghost predicate ForceSkip(s: State, s': State)
    requires Wf(s)
  {
    && AtCloser(s)
    && s.builds[s.close.on.value].closers[s.close.left - 1].progress != Unrun
    && s' == s.(close := s.close.(left := s.close.left - 1))
  }

  ghost predicate ForceDone(s: State, s': State)
    requires Wf(s)
  {
    && s.close.Forcing? && s.close.on.Some? && !s.close.calling && s.close.left == 0
    && s' == s.(close := Forcing(s.close.todo, None, 0, false))
  }

  ghost predicate ForceEnd(s: State, s': State)
    requires Wf(s)
  {
    && s.close.Forcing? && s.close.on.Some? && s.close.calling
    && var v := s.close.on.value;
       var k := s.close.left;
       && 1 <= k <= |s.builds[v].closers|
       && s' == SetBuild(s, v, End(s.builds[v], k - 1)).(close := s.close.(left := k - 1, calling := false))
  }

  ghost predicate CloseLate(s: State, s': State)
    requires Wf(s)
  {
    && s.close.Forcing? && s.close.on.None? && s.close.todo == {}
    && s' == s.(close := Closed(false))
  }

  // ---- Runs ------------------------------------------------------------

  datatype MakingStep =
    | DoMakeLazy | DoMakeEager

  datatype ReadingStep =
    | DoStartRead(n: NodeId, ref: bool, bound: bool) | DoStartFrom(b: BuildId, n: NodeId)
    | DoAddDependent(c: CallId) | DoLoadValue(c: CallId) | DoPeek(c: CallId) | DoAcquire(c: CallId)
    | DoAcquireFails(c: CallId) | DoKeepDep(c: CallId) | DoTakeLease(c: CallId)

  datatype EnteringStep =
    | DoEnterClosed(c: CallId) | DoEnterRetry(c: CallId) | DoEnterJoin(c: CallId) | DoEnterCreate(c: CallId)

  datatype WaitingStep =
    | DoJoinCycle(c: CallId) | DoJoinAbort(c: CallId) | DoJoinWait(c: CallId) | DoJoinStart(c: CallId)
    | DoWake(c: CallId) | DoAbandon(c: CallId, why: Failure) | DoStopWaiting(c: CallId)
    | DoAbortReturn(c: CallId)

  datatype BuildingStep =
    | DoRegister(b: BuildId) | DoPublishLazy(b: BuildId) | DoDiscardStale(b: BuildId)
    | DoDiscardBroken(b: BuildId) | DoPublishEager(b: BuildId) | DoUnlist(b: BuildId) | DoSignal(b: BuildId)

  datatype ReleasingStep =
    | DoBeginCloser(b: BuildId) | DoSkipCloser(b: BuildId) | DoEndCloser(b: BuildId)
    | DoStartDropping(b: BuildId) | DoDropDep(b: BuildId) | DoEndRelease(b: BuildId)
    | DoEndDiscard(b: BuildId) | DoEndLease(l: nat) | DoDropLease(l: nat)

  datatype WalkingStep =
    | DoInvalidate(n: NodeId) | DoDescend(i: WalkId, d: NodeId) | DoWalkRelease(i: WalkId)
    | DoWalkReturn(i: WalkId)

  datatype ClosingStep =
    | DoBeginClose | DoCancel | DoShut | DoShutRelease | DoEndShutting | DoCloseOnTime

  datatype ForcingStep =
    | DoDeadline | DoForceNext(v: BuildId) | DoForceBegin | DoForceSkip | DoForceEnd | DoForceDone
    | DoCloseLate

  datatype Action =
    | MakingAction(making: MakingStep)
    | ReadingAction(reading: ReadingStep)
    | EnteringAction(entering: EnteringStep)
    | WaitingAction(waiting: WaitingStep)
    | BuildingAction(building: BuildingStep)
    | ReleasingAction(releasing: ReleasingStep)
    | WalkingAction(walking: WalkingStep)
    | ClosingAction(closing: ClosingStep)
    | ForcingAction(forcing: ForcingStep)

  ghost predicate MakingNext(s: State, a: MakingStep, s': State)
    requires Wf(s)
  {
    match a
    case DoMakeLazy => MakeLazy(s, s')
    case DoMakeEager => MakeEager(s, s')
  }

  ghost predicate ReadingNext(s: State, a: ReadingStep, s': State)
    requires Wf(s)
  {
    match a
    case DoStartRead(n, ref, bound) => StartRead(s, s', n, ref, bound)
    case DoStartFrom(b, n) => StartFrom(s, s', b, n)
    case DoAddDependent(c) => AddDependent(s, s', c)
    case DoLoadValue(c) => LoadValue(s, s', c)
    case DoPeek(c) => Peek(s, s', c)
    case DoAcquire(c) => Acquire(s, s', c)
    case DoAcquireFails(c) => AcquireFails(s, s', c)
    case DoKeepDep(c) => KeepDep(s, s', c)
    case DoTakeLease(c) => TakeLease(s, s', c)
  }

  ghost predicate EnteringNext(s: State, a: EnteringStep, s': State)
    requires Wf(s)
  {
    match a
    case DoEnterClosed(c) => EnterClosed(s, s', c)
    case DoEnterRetry(c) => EnterRetry(s, s', c)
    case DoEnterJoin(c) => EnterJoin(s, s', c)
    case DoEnterCreate(c) => EnterCreate(s, s', c)
  }

  ghost predicate WaitingNext(s: State, a: WaitingStep, s': State)
    requires Wf(s)
  {
    match a
    case DoJoinCycle(c) => JoinCycle(s, s', c)
    case DoJoinAbort(c) => JoinAbort(s, s', c)
    case DoJoinWait(c) => JoinWait(s, s', c)
    case DoJoinStart(c) => JoinStart(s, s', c)
    case DoWake(c) => Wake(s, s', c)
    case DoAbandon(c, why) => Abandon(s, s', c, why)
    case DoStopWaiting(c) => StopWaiting(s, s', c)
    case DoAbortReturn(c) => AbortReturn(s, s', c)
  }

  ghost predicate BuildingNext(s: State, a: BuildingStep, s': State)
    requires Wf(s)
  {
    match a
    case DoRegister(b) => Register(s, s', b)
    case DoPublishLazy(b) => PublishLazy(s, s', b)
    case DoDiscardStale(b) => DiscardStale(s, s', b)
    case DoDiscardBroken(b) => DiscardBroken(s, s', b)
    case DoPublishEager(b) => PublishEager(s, s', b)
    case DoUnlist(b) => Unlist(s, s', b)
    case DoSignal(b) => Signal(s, s', b)
  }

  ghost predicate ReleasingNext(s: State, a: ReleasingStep, s': State)
    requires Wf(s)
  {
    match a
    case DoBeginCloser(b) => BeginCloser(s, s', b)
    case DoSkipCloser(b) => SkipCloser(s, s', b)
    case DoEndCloser(b) => EndCloser(s, s', b)
    case DoStartDropping(b) => StartDropping(s, s', b)
    case DoDropDep(b) => DropDep(s, s', b)
    case DoEndRelease(b) => EndRelease(s, s', b)
    case DoEndDiscard(b) => EndDiscard(s, s', b)
    case DoEndLease(l) => EndLease(s, s', l)
    case DoDropLease(l) => DropLease(s, s', l)
  }

  ghost predicate WalkingNext(s: State, a: WalkingStep, s': State)
    requires Wf(s)
  {
    match a
    case DoInvalidate(n) => Invalidate(s, s', n)
    case DoDescend(i, d) => Descend(s, s', i, d)
    case DoWalkRelease(i) => WalkRelease(s, s', i)
    case DoWalkReturn(i) => WalkReturn(s, s', i)
  }

  ghost predicate ClosingNext(s: State, a: ClosingStep, s': State)
    requires Wf(s)
  {
    match a
    case DoBeginClose => BeginClose(s, s')
    case DoCancel => Cancel(s, s')
    case DoShut => Shut(s, s')
    case DoShutRelease => ShutRelease(s, s')
    case DoEndShutting => EndShutting(s, s')
    case DoCloseOnTime => CloseOnTime(s, s')
  }

  ghost predicate ForcingNext(s: State, a: ForcingStep, s': State)
    requires Wf(s)
  {
    match a
    case DoDeadline => Deadline(s, s')
    case DoForceNext(v) => ForceNext(s, s', v)
    case DoForceBegin => ForceBegin(s, s')
    case DoForceSkip => ForceSkip(s, s')
    case DoForceEnd => ForceEnd(s, s')
    case DoForceDone => ForceDone(s, s')
    case DoCloseLate => CloseLate(s, s')
  }

  ghost predicate Do(s: State, a: Action, s': State)
    requires Wf(s)
  {
    match a
    case MakingAction(x) => MakingNext(s, x, s')
    case ReadingAction(x) => ReadingNext(s, x, s')
    case EnteringAction(x) => EnteringNext(s, x, s')
    case WaitingAction(x) => WaitingNext(s, x, s')
    case BuildingAction(x) => BuildingNext(s, x, s')
    case ReleasingAction(x) => ReleasingNext(s, x, s')
    case WalkingAction(x) => WalkingNext(s, x, s')
    case ClosingAction(x) => ClosingNext(s, x, s')
    case ForcingAction(x) => ForcingNext(s, x, s')
  }

  ghost predicate Next(s: State, s': State)
  {
    Wf(s) && exists a :: Do(s, a, s')
  }

  /** A run of the runtime, from a graph nothing has been added to. */
  ghost predicate IsRun(run: seq<State>)
  {
    && run != [] && run[0] == EMPTY
    && forall i :: 0 <= i < |run| - 1 ==> Next(run[i], run[i + 1])
  }

  ghost predicate Reachable(s: State)
  {
    exists run :: IsRun(run) && run[|run| - 1] == s
  }
}
