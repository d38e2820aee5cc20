/** What the runtime keeps: one record per provider node, per run of a builder,
    per read, per invalidation and per lease, and the graph's own fields.

    A Build is one run of a builder with everything that belongs to it alone:
    its attempt (node.go), its scope (kind.go) and, once published, the
    generation that takes over the scope's cleanups and dependencies
    (value.go). Records are numbered in the order they are created. */
module State {
  import opened Paths

  datatype Option<+T> = None | Some(value: T)

  type NodeId = nat
  type BuildId = nat
  type CallId = nat
  type WalkId = nat

  datatype Node = Node(
    eager: bool,                // no builder: its value is stored at construction
    ready: bool,                // constructed: other code can hold a Provider of it
    closed: bool,
    val: Option<BuildId>,       // the current value
    cur: Option<BuildId>,       // the attempt in progress
    epoch: nat,
    dependents: set<NodeId>)

  /** A registered cleanup. runs counts the calls of its function; the done flag
      is set exactly when progress is no longer Unrun. */
  datatype Progress = Unrun | Running | Ran
  datatype Closer = Closer(progress: Progress, runs: nat)

  /** Where an attempt stands. Settled: its outcome is fixed under the node's
      lock. Unlisted: gone from inflight. Signalled: its done channel is closed. */
  datatype Phase = Created | Building | Settled | Unlisted | Signalled
  datatype Outcome = Pending | Published | Stale | Broken

  /** Who holds a build's cleanups and dependencies, and how far their release
      has come: Closing(k) has cleanups k-1 .. 0 left to look at, Calling(k) is
      inside cleanup k-1, Dropping(k, _) has dependencies k-1 .. 0 left to
      release and first waits for the cleanup its last release started. */
  datatype Stage =
    | Scope
    | Held
    | Closing(left: nat)
    | Calling(left: nat)
    | Dropping(left: nat, await: Option<BuildId>)
    | Over

  datatype Build = Build(
    node: NodeId,
    epoch: nat,                 // the node's epoch when the attempt was created
    creator: CallId,
    phase: Phase,
    outcome: Outcome,
    waits: map<BuildId, nat>,   // attempts this one waits on
    closers: seq<Closer>,
    deps: seq<BuildId>,         // values read with From, one reference each
    refs: int,
    stamp: nat,                 // position in the order of publications
    stage: Stage)

  datatype Failure = ErrClosed | ErrCycle | ErrCtx | ErrBuild

  /** The program counter of a read: get, and the parts of From around it. */
  datatype Pc =
    | AddEdge                                       // From: before addDependent
    | Load                                          // before n.val.Load
    | Claim(g: BuildId)                             // loaded g: before acquire
    | Enter                                         // before n.mu.Lock
    | Join(a: BuildId, mine: bool)                  // before waitFor
    | Inline(a: BuildId)                            // runs a on this goroutine
    | Select(a: BuildId)                            // in the select
    | Abort(a: BuildId)                             // finishing an attempt that never started
    | Leave(a: BuildId, err: Option<Failure>)       // before stopWaiting
    | Got(g: BuildId)                               // get returned g
    | Failed(why: Failure)
    | Kept                                          // the result is stored

  datatype Call = Call(
    node: NodeId,
    scope: Option<BuildId>,     // the builder this read belongs to, if any
    from: Option<BuildId>,      // its attempt: none for eager builders
    ref: bool,
    bound: bool,                // the caller's context can end
    pc: Pc)

  /** One activation of invalidate, after its locked section. */
  datatype Walk = Walk(
    node: NodeId,
    todo: set<NodeId>,          // dependents still to invalidate
    held: Option<BuildId>,      // the value it swapped out
    child: Option<WalkId>,      // the recursive call in progress or done last
    await: Option<BuildId>,     // the cleanup its release started
    returned: bool)

  datatype LeasePhase = Active | Ending | Ended
  datatype Lease = Lease(of: BuildId, phase: LeasePhase)

  /** The program counter of CloseContext. */
  datatype Closing =
    | Open
    | Cancelling(members: seq<NodeId>)
    | Shutting(members: seq<NodeId>, held: Option<BuildId>, await: Option<BuildId>)
    | Waiting
    | Forcing(todo: set<BuildId>, on: Option<BuildId>, left: nat, calling: bool)
    | Closed(onTime: bool)

  datatype State = State(
    nodes: seq<Node>,
    builds: seq<Build>,
    calls: seq<Call>,
    walks: seq<Walk>,
    leases: seq<Lease>,
    members: seq<NodeId>,
    live: set<BuildId>,
    inflight: set<BuildId>,
    closed: bool,
    cancelled: bool,
    drained: bool,
    forced: bool,               // CloseContext has taken its deadline branch
    clock: nat,                 // publications so far
    close: Closing)

  const EMPTY := State([], [], [], [], [], [], {}, {}, false, false, false, false, 0, Open)

  // ---- Every number names a record -------------------------------------

  predicate Opt(o: Option<nat>, bound: nat)
  {
    o.Some? ==> o.value < bound
  }

  ghost predicate AllBelow(s: set<nat>, bound: nat)
  {
    forall x :: x in s ==> x < bound
  }

  ghost predicate EachBelow(s: seq<nat>, bound: nat)
  {
    forall i :: 0 <= i < |s| ==> s[i] < bound
  }

  predicate PcWf(pc: Pc, bound: nat)
  {
    match pc
    case Claim(g) => g < bound
    case Join(a, _) => a < bound
    case Inline(a) => a < bound
    case Select(a) => a < bound
    case Abort(a) => a < bound
    case Leave(a, _) => a < bound
    case Got(g) => g < bound
    case _ => true
  }

  ghost predicate NodeWf(x: Node, s: State)
  {
    Opt(x.val, |s.builds|) && Opt(x.cur, |s.builds|) && AllBelow(x.dependents, |s.nodes|)
  }

  ghost predicate BuildWf(x: Build, s: State)
  {
    && x.node < |s.nodes|
    && EachBelow(x.deps, |s.builds|)
    && AllBelow(x.waits.Keys, |s.builds|)
    && (x.stage.Dropping? ==> Opt(x.stage.await, |s.builds|))
  }

  ghost predicate CallWf(x: Call, s: State)
  {
    && x.node < |s.nodes|
    && Opt(x.scope, |s.builds|)
    && Opt(x.from, |s.builds|)
    && PcWf(x.pc, |s.builds|)
  }

  ghost predicate WalkWf(x: Walk, s: State)
  {
    && x.node < |s.nodes|
    && AllBelow(x.todo, |s.nodes|)
    && Opt(x.held, |s.builds|)
    && Opt(x.await, |s.builds|)
    && Opt(x.child, |s.walks|)
  }

  ghost predicate CloseWf(x: Closing, s: State)
  {
    match x
    case Cancelling(ms) => EachBelow(ms, |s.nodes|)
    case Shutting(ms, held, await) =>
      EachBelow(ms, |s.nodes|) && Opt(held, |s.builds|) && Opt(await, |s.builds|)
    case Forcing(todo, on, _, _) => AllBelow(todo, |s.builds|) && Opt(on, |s.builds|)
    case _ => true
  }

  ghost predicate Wf(s: State)
  {
    && (forall n :: 0 <= n < |s.nodes| ==> NodeWf(s.nodes[n], s))
    && (forall b :: 0 <= b < |s.builds| ==> BuildWf(s.builds[b], s))
    && (forall c :: 0 <= c < |s.calls| ==> CallWf(s.calls[c], s))
    && (forall i :: 0 <= i < |s.walks| ==> WalkWf(s.walks[i], s))
    && (forall l :: 0 <= l < |s.leases| ==> s.leases[l].of < |s.builds|)
    && EachBelow(s.members, |s.nodes|)
    && AllBelow(s.live, |s.builds|)
    && AllBelow(s.inflight, |s.builds|)
    && CloseWf(s.close, s)
  }

  // ---- Readings --------------------------------------------------------

  predicate IsEager(s: State, b: BuildId)
    requires b < |s.builds| && s.builds[b].node < |s.nodes|
  {
    s.nodes[s.builds[b].node].eager
  }

  /** The read has not returned to its caller. */
  predicate InProgress(c: Call)
  {
    !c.pc.Failed? && !c.pc.Kept?
  }

  /** The attempt a read is counted as waiting on, between waitFor and
      stopWaiting. */
  function WaitsOn(c: Call): Option<BuildId>
  {
    match c.pc
    case Inline(a) => Some(a)
    case Select(a) => Some(a)
    case Leave(a, _) => Some(a)
    case _ => None
  }

  function WaitCount(b: Build, y: BuildId): nat
  {
    if y in b.waits then b.waits[y] else 0
  }

  /** The wait-for graph. */
  ghost function Edges(s: State): set<(BuildId, BuildId)>
  {
    set x, y | 0 <= x < |s.builds| && y in s.builds[x].waits :: (x, y)
  }

  ghost predicate NoCallsOf(s: State, b: BuildId)
  {
    forall c :: 0 <= c < |s.calls| && s.calls[c].scope == Some(b) ==> !InProgress(s.calls[c])
  }

  /** The cleanup a release started, if any, has run to its end. */
  predicate Quiet(s: State, await: Option<BuildId>)
    requires Opt(await, |s.builds|)
  {
    await.Some? ==> s.builds[await.value].stage.Over?
  }
}
