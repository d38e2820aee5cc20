/** What a value may rely on: how long what it was built from stays open, in
    what order cleanups run, and that none is forgotten or repeated. */
module Lifetimes {
  import opened Paths
  import opened State
  import opened Steps
  import opened Invariants
  import opened References
  import opened Cleanups
  import opened Shutdown
  import opened Keeping
  import opened Runs

  /** From each build to the values it read. */
  ghost function DepEdges(s: State): set<(BuildId, BuildId)>
  {
    set b, j | 0 <= b < |s.builds| && 0 <= j < |s.builds[b].deps| :: (b, s.builds[b].deps[j])
  }

  /** v was built from d, directly or not; or is d. */
  ghost predicate BuiltFrom(s: State, v: BuildId, d: BuildId)
  {
    Reaches(DepEdges(s), v, d)
  }

  ghost predicate Untouched(x: Build)
  {
    forall j :: 0 <= j < |x.closers| ==> x.closers[j] == Closer(Unrun, 0)
  }

  ghost predicate AllRanOnce(x: Build)
  {
    forall j :: 0 <= j < |x.closers| ==> x.closers[j] == Closer(Ran, 1)
  }

  // ---- What the invariant says of one build and of one dependency -----------

  lemma BuildFacts(s: State, b: BuildId)
    requires Inv(s) && b < |s.builds|
    ensures BuildShape(s.builds[b]) && DepsOlder(s.builds, s.builds[b], s.clock)
    ensures s.builds[b].outcome == Published ==> s.builds[b].stamp < s.clock
    ensures s.builds[b].refs == |Holders(s, b)|
    ensures b in s.live <==> s.builds[b].outcome == Published && s.builds[b].stage != Over
    ensures forall j :: 0 <= j < |s.builds[b].closers| ==> CloserOk(b, s.builds[b], s.forced, s.close, j)
    ensures s.close.Forcing? ==> s.forced
  {
    assert BuildOk(s.nodes, s.builds, s.calls, s.clock, b, s.builds[b]);
    hide Wf, CallsOk, NodesOk, WalksOk, FreshWhileOpen, Waiting.WaitsOk, AwaitsOk, CloseOk, Holders, CloserOk;
  }

  /** A held dependency is a reference: it keeps the value's count positive. */
  lemma HeldDepIsHeld(s: State, b: BuildId, j: nat)
    requires Inv(s) && b < |s.builds| && j < HeldDeps(s.builds[b])
    ensures j < |s.builds[b].deps| && s.builds[b].deps[j] < |s.builds|
    ensures s.builds[s.builds[b].deps[j]].stage == Held && s.builds[s.builds[b].deps[j]].refs > 0
  {
    BuildFacts(s, b);
    HeldPlace(s, InDeps(b, j));
  }

  lemma HeldPlace(s: State, p: Place)
    requires Inv(s) && At(s, p).Some?
    ensures At(s, p).value < |s.builds|
    ensures s.builds[At(s, p).value].stage == Held && s.builds[At(s, p).value].refs > 0
  {
    hide Shape, FreshWhileOpen, Waiting.WaitsOk, ClosersOk, AwaitsOk, CloseOk, RefsOk, At;
    HeldIsLive(s, p);
  }

  // ---- Reference counts ----------------------------------------------------

  /** A count is the number of its holders, wherever they are; a current value
      always has one. */
  lemma CountsAreHolders(s: State, g: BuildId)
    requires Reachable(s) && g < |s.builds|
    ensures s.builds[g].refs == |Holders(s, g)|
    ensures forall n :: 0 <= n < |s.nodes| && s.nodes[n].val == Some(g) ==> s.builds[g].refs > 0
    ensures s.builds[g].refs == 0 ==> forall p :: At(s, p) != Some(g)
  {
    hide Inv, Reachable;
    InvReachable(s);
    BuildFacts(s, g);
    forall p | At(s, p) == Some(g) ensures s.builds[g].refs > 0 {
      HolderIff(s, g, p);
    }
    forall n | 0 <= n < |s.nodes| && s.nodes[n].val == Some(g) ensures s.builds[g].refs > 0 {
      assert At(s, InSlot(n)) == Some(g);
    }
  }

  // ---- Leases ----------------------------------------------------------------

  /** As long as a value is held, so is everything it was built from. */
  lemma {:induction false} HeldDownward(s: State, v: BuildId, d: BuildId, n: nat)
    requires Inv(s) && v < |s.builds| && s.builds[v].stage == Held
    requires ReachesIn(DepEdges(s), v, d, n)
    ensures d < |s.builds| && s.builds[d].stage == Held
    decreases n
  {
    hide Inv;
    if n > 0 {
      var e :| e in DepEdges(s) && e.1 == d && ReachesIn(DepEdges(s), v, e.0, n - 1);
      HeldDownward(s, v, e.0, n - 1);
      var j :| 0 <= j < |s.builds[e.0].deps| && s.builds[e.0].deps[j] == d;
      HeldDepIsHeld(s, e.0, j);
    }
  }

  lemma HeldKeepsOpen(s: State, v: BuildId, d: BuildId)
    requires Inv(s) && !s.forced && v < |s.builds| && s.builds[v].stage == Held && BuiltFrom(s, v, d)
    ensures d < |s.builds| && d in s.live && s.builds[d].refs > 0 && Untouched(s.builds[d])
  {
    hide Inv;
    var n: nat :| ReachesIn(DepEdges(s), v, d, n);
    HeldDownward(s, v, d, n);
    BuildFacts(s, d);
    forall j | 0 <= j < |s.builds[d].closers| ensures s.builds[d].closers[j] == Closer(Unrun, 0) {
      assert CloserOk(d, s.builds[d], s.forced, s.close, j);
    }
  }

  /** Lease safety: unless Close has taken its deadline branch, no cleanup of a
      leased value, or of anything it was built from, has started. */
  lemma LeaseKeepsOpen(s: State, l: nat, d: BuildId)
    requires Reachable(s) && !s.forced
    requires l < |s.leases| && s.leases[l].phase == Active
    requires BuiltFrom(s, s.leases[l].of, d)
    ensures d < |s.builds| && d in s.live && s.builds[d].refs > 0 && Untouched(s.builds[d])
  {
    hide Inv, Reachable, BuiltFrom;
    InvReachable(s);
    HeldPlace(s, InLease(l));
    HeldKeepsOpen(s, s.leases[l].of, d);
  }

  /** The same holds for a provider's current value. */
  lemma CurrentIsOpen(s: State, n: NodeId, d: BuildId)
    requires Reachable(s) && !s.forced
    requires n < |s.nodes| && s.nodes[n].val.Some? && BuiltFrom(s, s.nodes[n].val.value, d)
    ensures d < |s.builds| && d in s.live && s.builds[d].refs > 0 && Untouched(s.builds[d])
  {
    hide Inv, Reachable, BuiltFrom;
    InvReachable(s);
    HeldPlace(s, InSlot(n));
    HeldKeepsOpen(s, s.nodes[n].val.value, d);
  }

  // ---- The order of cleanups ----------------------------------------------------

  predicate Dismantled(x: Build)
  {
    x.stage.Dropping? || x.stage.Over?
  }

  /** Once a value is no longer held, all that was built from it is past its own
      cleanups. */
  lemma {:induction false} DismantledUpward(s: State, v: BuildId, d: BuildId, n: nat)
    requires Inv(s) && n > 0 && ReachesIn(DepEdges(s), v, d, n)
    requires d < |s.builds| && s.builds[d].outcome == Published && s.builds[d].stage != Held
    ensures v < |s.builds| && Dismantled(s.builds[v])
    decreases n
  {
    hide Inv;
    var e :| e in DepEdges(s) && e.1 == d && ReachesIn(DepEdges(s), v, e.0, n - 1);
    var j :| 0 <= j < |s.builds[e.0].deps| && s.builds[e.0].deps[j] == d;
    if j < HeldDeps(s.builds[e.0]) {
      HeldDepIsHeld(s, e.0, j);
    }
    if n > 1 {
      var f :| f in DepEdges(s) && f.1 == e.0 && ReachesIn(DepEdges(s), v, f.0, n - 2);
      BuildFacts(s, f.0);
      DismantledUpward(s, v, e.0, n - 1);
    }
  }

  lemma RanWhenDismantled(s: State, b: BuildId)
    requires Inv(s) && b < |s.builds| && Dismantled(s.builds[b])
    requires s.close.Forcing? ==> s.close.on != Some(b)
    ensures AllRanOnce(s.builds[b])
  {
    BuildFacts(s, b);
    hide Inv;
    forall j | 0 <= j < |s.builds[b].closers| ensures s.builds[b].closers[j] == Closer(Ran, 1) {
      assert CloserOk(b, s.builds[b], s.forced, s.close, j);
    }
  }

  /** Cleanup order: without a forced close, all cleanups of what was built from
      d have run, each once, before any cleanup of d begins. This covers values
      and discarded builds alike. */
  lemma DependentsFirst(s: State, v: BuildId, d: BuildId, j: nat)
    requires Reachable(s) && !s.forced
    requires v != d && BuiltFrom(s, v, d)
    requires d < |s.builds| && j < |s.builds[d].closers| && s.builds[d].closers[j].progress != Unrun
    ensures v < |s.builds| && AllRanOnce(s.builds[v])
  {
    hide Inv, Reachable;
    InvReachable(s);
    var n: nat :| ReachesIn(DepEdges(s), v, d, n);
    assert n > 0;
    StartedIsDropped(s, v, d, j, n);
    DismantledUpward(s, v, d, n);
    BuildFacts(s, d);
    RanWhenDismantled(s, v);
  }

  lemma StartedIsDropped(s: State, v: BuildId, d: BuildId, j: nat, n: nat)
    requires Inv(s) && !s.forced && n > 0 && ReachesIn(DepEdges(s), v, d, n)
    requires d < |s.builds| && j < |s.builds[d].closers| && s.builds[d].closers[j].progress != Unrun
    ensures s.builds[d].outcome == Published && s.builds[d].stage != Held
  {
    hide Inv;
    BuildFacts(s, d);
    var e :| e in DepEdges(s) && e.1 == d && ReachesIn(DepEdges(s), v, e.0, n - 1);
    BuildFacts(s, e.0);
    assert CloserOk(d, s.builds[d], s.forced, s.close, j);
  }

  // ---- Exactly once --------------------------------------------------------------

  /** No cleanup ever runs twice, forced close or not; and one that has been
      looked at by its own release is running or has run. */
  lemma AtMostOnce(s: State, b: BuildId, j: nat)
    requires Reachable(s) && b < |s.builds| && j < |s.builds[b].closers|
    ensures s.builds[b].closers[j].runs <= 1
    ensures Dismantled(s.builds[b]) ==> s.builds[b].closers[j].runs == 1
  {
    hide Inv, Reachable;
    InvReachable(s);
    BuildFacts(s, b);
    assert CloserOk(b, s.builds[b], s.forced, s.close, j);
  }

  /** Everything has been let go of: no provider has a value, no builder runs, every
      lease is over, no read is bringing a value to its caller, and no release,
      invalidation or forced cleanup is under way. */
  ghost predicate Empty(s: State)
  {
    && (forall n :: 0 <= n < |s.nodes| ==> s.nodes[n].val.None?)
    && (forall b :: 0 <= b < |s.builds| ==>
         s.builds[b].outcome != Pending && (s.builds[b].stage == Held || s.builds[b].stage == Over))
    && (forall l :: 0 <= l < |s.leases| ==> s.leases[l].phase == Ended)
    && (forall c :: 0 <= c < |s.calls| ==> !s.calls[c].pc.Got? || !s.calls[c].ref)
    && (forall i :: 0 <= i < |s.walks| ==> s.walks[i].held.None?)
    && (s.close.Shutting? ==> s.close.held.None?)
    && !s.close.Forcing?
  }

  /** And the graph is closed, with every provider shut. */
  ghost predicate Quiescent(s: State)
  {
    s.closed && Empty(s) && forall n :: 0 <= n < |s.nodes| ==> s.nodes[n].closed || !s.nodes[n].ready
  }

  /** Only another value, published later, can still hold one. */
  lemma EmptyHolder(s: State, g: BuildId, p: Place)
    requires Inv(s) && Empty(s) && At(s, p) == Some(g)
    ensures p.InDeps? && p.b < |s.builds| && s.builds[p.b].stage == Held
    ensures g < |s.builds| && s.builds[g].stamp < s.builds[p.b].stamp < s.clock
    ensures p.b in s.live
  {
    hide Inv;
    match p {
      case InSlot(n) =>
      case InWalk(i) =>
      case InShut =>
      case InDeps(b, j) => BuildFacts(s, b);
      case InCall(c) =>
      case InLease(l) =>
    }
  }

  /** A chain of such holders would climb for ever. */
  lemma {:induction false} NothingLive(s: State, g: BuildId)
    requires Inv(s) && Empty(s) && g < |s.builds|
    ensures g !in s.live
    decreases s.clock - (if g < |s.builds| then s.builds[g].stamp else 0)
  {
    hide Inv, Holders;
    BuildFacts(s, g);
    if g in s.live {
      assert s.builds[g].stage == Held;
      var p :| p in Holders(s, g);
      HolderIff(s, g, p);
      EmptyHolder(s, g, p);
      NothingLive(s, p.b);
    }
  }

  /** No leak: when nothing is held, live is empty, and every cleanup ever
      registered has run exactly once, whether its build was published, failed or
      was discarded, whether the graph is open or closed, and whether or not the
      close was forced. */
  lemma NoLeak(s: State)
    requires Reachable(s) && Empty(s)
    ensures s.live == {}
    ensures forall b :: 0 <= b < |s.builds| ==> s.builds[b].refs == 0 && AllRanOnce(s.builds[b])
  {
    hide Inv, Reachable;
    InvReachable(s);
    forall b | 0 <= b < |s.builds| ensures s.builds[b].refs == 0 && AllRanOnce(s.builds[b]) {
      NothingLive(s, b);
      BuildFacts(s, b);
      RanWhenDismantled(s, b);
    }
    LiveInRange(s);
    forall b | b in s.live ensures false { NothingLive(s, b); }
  }

  lemma LiveInRange(s: State)
    requires Inv(s)
    ensures AllBelow(s.live, |s.builds|)
  {
  }
}
