/** How much is left to do: a measure that every step of finishing what is under
    way makes smaller. */
module Work {
  import opened State
  import opened Steps
  import opened Invariants

  function Sum(ws: seq<nat>): nat
  {
    if ws == [] then 0 else ws[0] + Sum(ws[1..])
  }

  /** Changing one entry changes the sum by as much. */
  lemma {:induction false} SumUpdate(ws: seq<nat>, i: nat, w: nat)
    requires i < |ws|
    ensures Sum(ws[i := w]) + ws[i] == Sum(ws) + w
    decreases ws
  {
    if i > 0 {
      assert ws[i := w][1..] == ws[1..][i - 1 := w];
      SumUpdate(ws[1..], i - 1, w);
    }
  }

  lemma {:induction false} SumAppend(ws: seq<nat>, w: nat)
    ensures Sum(ws + [w]) == Sum(ws) + w
    decreases ws
  {
    if ws != [] {
      assert (ws + [w])[1..] == ws[1..] + [w];
      SumAppend(ws[1..], w);
    }
  }

  // ---- Builds ---------------------------------------------------------------------

  function PhaseWork(p: Phase): nat
  {
    match p
    case Created => 12
    case Building => 11
    case Settled => 2
    case Unlisted => 1
    case Signalled => 0
  }

  function StageWork(x: Build): nat
  {
    match x.stage
    case Closing(k) => 2 * k + |x.deps| + 3
    case Calling(k) => 2 * k + |x.deps| + 2
    case Dropping(k, _) => k + 2
    case Over => 0
    case _ => 2 * |x.closers| + |x.deps| + 4
  }

  function BuildWork(x: Build): nat
  {
    PhaseWork(x.phase) + StageWork(x)
  }

  function BuildWorks(builds: seq<Build>): seq<nat>
  {
    seq(|builds|, b requires 0 <= b < |builds| => BuildWork(builds[b]))
  }

  function BuildsWork(builds: seq<Build>): nat
  {
    Sum(BuildWorks(builds))
  }

  lemma OneBuildWork(builds: seq<Build>, b: BuildId, y: Build)
    requires b < |builds|
    ensures BuildsWork(builds[b := y]) + BuildWork(builds[b]) == BuildsWork(builds) + BuildWork(y)
  {
    hide BuildWork;
    assert BuildWorks(builds[b := y]) == BuildWorks(builds)[b := BuildWork(y)];
    SumUpdate(BuildWorks(builds), b, BuildWork(y));
  }

  lemma NewBuildWork(builds: seq<Build>, y: Build)
    ensures BuildsWork(builds + [y]) == BuildsWork(builds) + BuildWork(y)
  {
    hide BuildWork;
    assert BuildWorks(builds + [y]) == BuildWorks(builds) + [BuildWork(y)];
    SumAppend(BuildWorks(builds), BuildWork(y));
  }

  // ---- Reads -------------------------------------------------------------------------

  /** Waiting for a ends the read: a has failed or, if only failures happen from
      here on, will. */
  predicate Fails(builds: seq<Build>, a: BuildId)
  {
    a < |builds| && (builds[a].outcome == Pending || builds[a].outcome == Broken)
  }

  /** How far a read is from its return, as long as no provider's value changes. */
  function CallWork(nodes: seq<Node>, builds: seq<Build>, c: Call): nat
  {
    var v := if c.node < |nodes| then nodes[c.node].val else None;
    match c.pc
    case AddEdge => 70
    case Load => if v.Some? then 5 else 41
    case Claim(g) => if v == Some(g) then 4 else 41
    case Enter => 40
    case Join(a, _) => if Fails(builds, a) then 10 else 60
    case Inline(a) => if Fails(builds, a) then 9 else 59
    case Select(a) => if Fails(builds, a) then 9 else 59
    case Abort(_) => 0
    case Leave(a, err) => if err.Some? || Fails(builds, a) then 8 else 58
    case Got(_) => 3
    case Failed(_) => 0
    case Kept => 0
  }

  function CallWorks(nodes: seq<Node>, builds: seq<Build>, calls: seq<Call>): seq<nat>
  {
    seq(|calls|, c requires 0 <= c < |calls| => CallWork(nodes, builds, calls[c]))
  }

  function CallsWork(nodes: seq<Node>, builds: seq<Build>, calls: seq<Call>): nat
  {
    Sum(CallWorks(nodes, builds, calls))
  }

  lemma OneCallWork(nodes: seq<Node>, builds: seq<Build>, calls: seq<Call>, c: CallId, y: Call)
    requires c < |calls|
    ensures CallsWork(nodes, builds, calls[c := y]) + CallWork(nodes, builds, calls[c])
            == CallsWork(nodes, builds, calls) + CallWork(nodes, builds, y)
  {
    hide CallWork;
    assert CallWorks(nodes, builds, calls[c := y]) == CallWorks(nodes, builds, calls)[c := CallWork(nodes, builds, y)];
    SumUpdate(CallWorks(nodes, builds, calls), c, CallWork(nodes, builds, y));
  }

  /** The parts of providers and builds this measure reads. */
  ghost predicate SameSight(nodes: seq<Node>, nodes': seq<Node>, builds: seq<Build>, builds': seq<Build>)
  {
    && |nodes'| == |nodes| && |builds| <= |builds'|
    && (forall n :: 0 <= n < |nodes| ==> nodes'[n].val == nodes[n].val)
    && (forall b :: 0 <= b < |builds| ==> (Fails(builds', b) <==> Fails(builds, b)))
  }

  lemma SameCallWork(nodes: seq<Node>, nodes': seq<Node>, builds: seq<Build>, builds': seq<Build>, c: Call)
    requires SameSight(nodes, nodes', builds, builds') && PcWf(c.pc, |builds|)
    ensures CallWork(nodes', builds', c) == CallWork(nodes, builds, c)
  {
    hide Fails;
  }

  lemma SameCallsWork(nodes: seq<Node>, nodes': seq<Node>, builds: seq<Build>, builds': seq<Build>, calls: seq<Call>)
    requires SameSight(nodes, nodes', builds, builds') && forall c :: 0 <= c < |calls| ==> PcWf(calls[c].pc, |builds|)
    ensures CallsWork(nodes', builds', calls) == CallsWork(nodes, builds, calls)
  {
    hide SameSight, CallWork;
    forall c | 0 <= c < |calls| ensures CallWork(nodes', builds', calls[c]) == CallWork(nodes, builds, calls[c]) {
      SameCallWork(nodes, nodes', builds, builds', calls[c]);
    }
    assert CallWorks(nodes', builds', calls) == CallWorks(nodes, builds, calls);
  }

  // ---- Leases ----------------------------------------------------------------------------

  function LeaseWork(x: Lease): nat
  {
    match x.phase
    case Active => 2
    case Ending => 1
    case Ended => 0
  }

  function LeaseWorks(leases: seq<Lease>): seq<nat>
  {
    seq(|leases|, l requires 0 <= l < |leases| => LeaseWork(leases[l]))
  }

  function LeasesWork(leases: seq<Lease>): nat
  {
    Sum(LeaseWorks(leases))
  }

  lemma OneLeaseWork(leases: seq<Lease>, l: nat, y: Lease)
    requires l < |leases|
    ensures LeasesWork(leases[l := y]) + LeaseWork(leases[l]) == LeasesWork(leases) + LeaseWork(y)
  {
    assert LeaseWorks(leases[l := y]) == LeaseWorks(leases)[l := LeaseWork(y)];
    SumUpdate(LeaseWorks(leases), l, LeaseWork(y));
  }

  lemma NewLeaseWork(leases: seq<Lease>, y: Lease)
    ensures LeasesWork(leases + [y]) == LeasesWork(leases) + LeaseWork(y)
  {
    assert LeaseWorks(leases + [y]) == LeaseWorks(leases) + [LeaseWork(y)];
    SumAppend(LeaseWorks(leases), LeaseWork(y));
  }

  /** All of it. */
  function Left(s: State): nat
  {
    BuildsWork(s.builds) + CallsWork(s.nodes, s.builds, s.calls) + LeasesWork(s.leases)
  }

  // ---- Invalidations -------------------------------------------------------------------

  function WalkWork(x: Walk): nat
  {
    3 * |x.todo| + if x.returned then 0 else if x.held.Some? then 2 else 1
  }

  function WalkWorks(walks: seq<Walk>): seq<nat>
  {
    seq(|walks|, i requires 0 <= i < |walks| => WalkWork(walks[i]))
  }

  function EdgeWorks(nodes: seq<Node>): seq<nat>
  {
    seq(|nodes|, n requires 0 <= n < |nodes| => 3 * |nodes[n].dependents|)
  }

  /** Each edge that is left can be followed once. */
  function WalksLeft(s: State): nat
  {
    Sum(EdgeWorks(s.nodes)) + Sum(WalkWorks(s.walks))
  }

  lemma OneWalkWork(walks: seq<Walk>, i: WalkId, y: Walk)
    requires i < |walks|
    ensures Sum(WalkWorks(walks[i := y])) + WalkWork(walks[i]) == Sum(WalkWorks(walks)) + WalkWork(y)
  {
    hide WalkWork;
    assert WalkWorks(walks[i := y]) == WalkWorks(walks)[i := WalkWork(y)];
    SumUpdate(WalkWorks(walks), i, WalkWork(y));
  }

  lemma NewWalkWork(walks: seq<Walk>, y: Walk)
    ensures Sum(WalkWorks(walks + [y])) == Sum(WalkWorks(walks)) + WalkWork(y)
  {
    hide WalkWork;
    assert WalkWorks(walks + [y]) == WalkWorks(walks) + [WalkWork(y)];
    SumAppend(WalkWorks(walks), WalkWork(y));
  }

  lemma OneEdgeWork(nodes: seq<Node>, n: NodeId, y: Node)
    requires n < |nodes|
    ensures Sum(EdgeWorks(nodes[n := y])) + 3 * |nodes[n].dependents| == Sum(EdgeWorks(nodes)) + 3 * |y.dependents|
  {
    assert EdgeWorks(nodes[n := y]) == EdgeWorks(nodes)[n := 3 * |y.dependents|];
    SumUpdate(EdgeWorks(nodes), n, 3 * |y.dependents|);
  }
}
