/** What every reachable state satisfies, one predicate per concern. Each takes
    only the parts of the state it speaks of. */
module Invariants {
  import opened Paths
  import opened State
  import opened Steps

  // ---- Reads -----------------------------------------------------------

  /** A read is consistent with the attempt it joins, the value it found and the
      builder it belongs to. */
  ghost predicate CallOk(nodes: seq<Node>, builds: seq<Build>, id: CallId, c: Call)
  {
    && c.node < |nodes| && nodes[c.node].ready
    && (c.scope.Some? ==>
         && c.ref && c.scope.value < |builds|
         && (InProgress(c) ==> builds[c.scope.value].phase == Building)
         && (c.from.None? ==> nodes[c.node].eager))
    && (c.from.Some? ==>
         && c.scope == c.from
         && builds[c.from.value].node < |nodes| && !nodes[builds[c.from.value].node].eager)
    && (c.pc.AddEdge? ==> c.from.Some?)
    && !c.pc.Abort?
    && (c.pc.Claim? || c.pc.Got? ==>
         && c.pc.g < |builds|
         && builds[c.pc.g].outcome == Published && builds[c.pc.g].node == c.node)
    && (c.pc.Join? || c.pc.Inline? || c.pc.Select? || c.pc.Leave? ==>
         && c.pc.a < |builds| && builds[c.pc.a].node == c.node && !nodes[c.node].eager)
    && (c.pc.Join? && c.pc.mine ==> builds[c.pc.a].phase == Created && builds[c.pc.a].creator == id)
    && (c.pc.Leave? && c.pc.err.None? ==> builds[c.pc.a].phase == Signalled)
  }

  ghost predicate CallsOk(nodes: seq<Node>, builds: seq<Build>, calls: seq<Call>)
  {
    forall c :: 0 <= c < |calls| ==> CallOk(nodes, builds, c, calls[c])
  }

  // ---- Attempts and generations ----------------------------------------

  /** The next publication comes after everything this build may depend on. */
  function Horizon(x: Build, clock: nat): nat
  {
    if x.outcome == Published then x.stamp else clock
  }

  ghost predicate DepsOlder(builds: seq<Build>, x: Build, clock: nat)
  {
    forall j :: 0 <= j < |x.deps| ==>
      && x.deps[j] < |builds|
      && builds[x.deps[j]].outcome == Published
      && builds[x.deps[j]].stamp < Horizon(x, clock)
  }

  /** The outcome, the stage and the count of one build agree. */
  predicate BuildShape(x: Build)
  {
    && (x.phase == Created || x.phase == Building <==> x.outcome == Pending)
    && (x.outcome == Pending <==> x.stage == Scope)
    && 0 <= x.refs
    && (x.stage == Held <==> x.outcome == Published && x.refs > 0)
    && (x.outcome != Published ==> x.refs == 0)
    && (x.phase == Created ==> x.deps == [] && x.closers == [] && x.waits == map[])
    && (x.phase == Unlisted || x.phase == Signalled ==> x.outcome == Published || x.stage == Over)
    && (x.stage.Closing? ==> x.stage.left <= |x.closers|)
    && (x.stage.Calling? ==> 1 <= x.stage.left <= |x.closers|)
    && (x.stage.Dropping? ==> x.stage.left <= |x.deps|)
  }

  ghost predicate BuildOk(nodes: seq<Node>, builds: seq<Build>, calls: seq<Call>, clock: nat, b: BuildId, x: Build)
  {
    && BuildShape(x)
    && x.node < |nodes|
    && x.epoch <= nodes[x.node].epoch
    && (x.outcome == Pending ==> nodes[x.node].cur == Some(b))
    && (x.phase == Created ==>
         && x.creator < |calls| && calls[x.creator].pc == Join(b, true)
         && !nodes[x.node].eager)
    && (x.outcome == Published ==> x.stamp < clock)
    && DepsOlder(builds, x, clock)
  }

  ghost predicate BuildsOk(nodes: seq<Node>, builds: seq<Build>, calls: seq<Call>, clock: nat)
  {
    forall b :: 0 <= b < |builds| ==> BuildOk(nodes, builds, calls, clock, b, builds[b])
  }

  ghost predicate Unfinished(nodes: seq<Node>, x: Build)
  {
    && x.node < |nodes| && !nodes[x.node].eager
    && (x.phase == Created || x.phase == Building || x.phase == Settled)
  }

  /** live holds the registered values not yet cleaned up, inflight the attempts
      not yet finished. */
  ghost predicate ListsOk(nodes: seq<Node>, builds: seq<Build>, live: set<BuildId>, inflight: set<BuildId>)
  {
    && (forall b :: 0 <= b < |builds| ==>
         (b in live <==> builds[b].outcome == Published && builds[b].stage != Over))
    && (forall b :: 0 <= b < |builds| ==> (b in inflight <==> Unfinished(nodes, builds[b])))
  }

  // ---- Nodes -----------------------------------------------------------

  /** Single flight, and where a current value comes from. */
  ghost predicate NodeOk(nodes: seq<Node>, builds: seq<Build>, closed: bool, n: NodeId, x: Node)
  {
    && (x.cur.Some? ==>
         && x.cur.value < |builds|
         && builds[x.cur.value].node == n && builds[x.cur.value].outcome == Pending
         && x.val.None?)
    && (x.val.Some? ==>
         && x.val.value < |builds|
         && builds[x.val.value].node == n && builds[x.val.value].outcome == Published
         && builds[x.val.value].epoch == x.epoch
         && x.ready)
    && (x.closed ==> x.val.None? && closed)
    && (!x.ready ==> x.eager && x.dependents == {})
    && (x.eager && x.ready && !x.closed ==> x.val.Some?)
    && (x.cur.Some? && x.eager ==> !x.ready && builds[x.cur.value].epoch == x.epoch)
    && (forall m :: m in x.dependents ==> m < |nodes| && !nodes[m].eager)
  }

  ghost predicate NodesOk(nodes: seq<Node>, builds: seq<Build>, closed: bool)
  {
    forall n :: 0 <= n < |nodes| ==> NodeOk(nodes, builds, closed, n, nodes[n])
  }

  /** Invalidation only ever reaches Deferred providers. */
  ghost predicate WalkOk(nodes: seq<Node>, x: Walk)
  {
    forall m :: m in x.todo ==> m < |nodes| && !nodes[m].eager
  }

  ghost predicate WalksOk(nodes: seq<Node>, walks: seq<Walk>)
  {
    forall i :: 0 <= i < |walks| ==> WalkOk(nodes, walks[i])
  }

  /** A release waits for the cleanup of an older value, whose count is zero. */
  ghost predicate AwaitOk(builds: seq<Build>, x: Build, clock: nat)
  {
    x.stage.Dropping? && x.stage.await.Some? ==>
      && x.stage.await.value < |builds|
      && var g := builds[x.stage.await.value];
         g.outcome == Published && g.stage != Held && g.stamp < Horizon(x, clock)
  }

  ghost predicate AwaitsOk(builds: seq<Build>, clock: nat)
  {
    forall b :: 0 <= b < |builds| ==> AwaitOk(builds, builds[b], clock)
  }

  ghost predicate Shape(s: State)
  {
    && Wf(s)
    && CallsOk(s.nodes, s.builds, s.calls)
    && BuildsOk(s.nodes, s.builds, s.calls, s.clock)
    && ListsOk(s.nodes, s.builds, s.live, s.inflight)
    && NodesOk(s.nodes, s.builds, s.closed)
    && WalksOk(s.nodes, s.walks)
  }
}
