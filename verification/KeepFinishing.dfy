/** finish keeps the invariant: publishing a value, discarding a build, and
    telling the waiters. */
module KeepFinishing {
  import opened Paths
  import opened State
  import opened Steps
  import opened Invariants
  import opened References
  import opened Freshness
  import opened Waiting
  import opened Cleanups
  import opened Shutdown
  import opened Keeping

  import opened KeepBuilding

  // ---- Publishing -------------------------------------------------------------

  /** What finish and eagerOf check before they publish. */
  ghost predicate MayPublish(s: State, b: BuildId)
    requires Wf(s)
  {
    && Returns(s, b) && !s.closed
    && var n := s.nodes[s.builds[b].node];
       !n.closed && s.builds[b].epoch == n.epoch
  }

  lemma KeepPublishLazy(s: State, s': State, b: BuildId)
    requires Inv(s) && PublishLazy(s, s', b)
    ensures Inv(s')
  {
    hide Shape, RefsOk, FreshWhileOpen, WaitsOk, ClosersOk, AwaitsOk, CloseOk;
    PublishKept(s, s', b);
    PublishLazyReady(s, b);
    PublishClose(s, s', b);
  }

  lemma PublishLazyReady(s: State, b: BuildId)
    requires Shape(s) && b < |s.builds| && !IsEager(s, b)
    ensures s.nodes[s.builds[b].node].ready
  {
    assert NodeOk(s.nodes, s.builds, s.closed, s.builds[b].node, s.nodes[s.builds[b].node]);
  }

  lemma KeepPublishEager(s: State, s': State, b: BuildId)
    requires Inv(s) && PublishEager(s, s', b)
    ensures Inv(s')
  {
    hide Shape, RefsOk, FreshWhileOpen, WaitsOk, ClosersOk, AwaitsOk, CloseOk;
    var t := Publish(s, b);
    PublishEagerMay(s, b);
    PublishKept(s, t, b);
    JoinGraph(t, s', s.builds[b].node);
    PublishEagerClose(s, s', b);
  }

  lemma PublishEagerMay(s: State, b: BuildId)
    requires Shape(s) && Returns(s, b) && IsEager(s, b) && !s.closed
    ensures MayPublish(s, b)
  {
    hide CallsOk, ListsOk, WalksOk;
    assert BuildOk(s.nodes, s.builds, s.calls, s.clock, b, s.builds[b]);
    assert NodeOk(s.nodes, s.builds, s.closed, s.builds[b].node, s.nodes[s.builds[b].node]);
  }

  /** members concerns nothing but Close. */
  lemma JoinGraph(t: State, s': State, n: NodeId)
    requires Wf(t) && Shape(t) && RefsOk(t) && WaitsOk(t) && FreshWhileOpen(t)
    requires n < |t.nodes| && s' == t.(members := t.members + [n])
    ensures Wf(s') && Shape(s') && RefsOk(s') && WaitsOk(s') && FreshWhileOpen(s')
  {
    hide CallsOk, BuildsOk, ListsOk, NodesOk, WalksOk, FreshOk;
    assert WaitsOk(s') by { WaitsKept(t, s'); }
    assert RefsOk(s') by { Conserved(t, s', None, None) by { hide RefsOk, Holders; } }
  }

  lemma PublishKept(s: State, s': State, b: BuildId)
    requires Inv(s) && MayPublish(s, b) && s' == Publish(s, b)
    ensures Wf(s') && Shape(s') && RefsOk(s') && WaitsOk(s') && FreshWhileOpen(s')
    ensures ClosersOk(s'.builds, s'.forced, s'.close) && AwaitsOk(s'.builds, s'.clock)
  {
    hide Shape, RefsOk, FreshWhileOpen, WaitsOk, ClosersOk, AwaitsOk, CloseOk;
    PublishShape(s, s', b);
    PublishRefs(s, s', b);
    PublishWaits(s, s', b);
    PublishFresh(s, s', b);
    PublishRest(s, s', b);
  }

  lemma PublishShape(s: State, s': State, b: BuildId)
    requires Shape(s) && MayPublish(s, b) && s' == Publish(s, b)
    ensures Shape(s')
  {
    PublishCalls(s, s', b);
    PublishBuilds(s, s', b);
    PublishNodes(s, s', b);
    hide Wf, CallsOk, BuildsOk, ListsOk, NodesOk, WalksOk;
  }

  lemma PublishCalls(s: State, s': State, b: BuildId)
    requires Wf(s) && CallsOk(s.nodes, s.builds, s.calls) && WalksOk(s.nodes, s.walks)
    requires BuildsOk(s.nodes, s.builds, s.calls, s.clock)
    requires MayPublish(s, b) && s' == Publish(s, b)
    ensures Wf(s') && CallsOk(s'.nodes, s'.builds, s'.calls) && WalksOk(s'.nodes, s'.walks)
  {
    assert BuildOk(s.nodes, s.builds, s.calls, s.clock, b, s.builds[b]);
    hide BuildsOk, DepsOlder;
    forall i | 0 <= i < |s'.calls| ensures CallOk(s'.nodes, s'.builds, i, s'.calls[i]) {
      assert CallOk(s.nodes, s.builds, i, s.calls[i]);
    }
  }

  lemma PublishBuilds(s: State, s': State, b: BuildId)
    requires Wf(s) && BuildsOk(s.nodes, s.builds, s.calls, s.clock)
    requires MayPublish(s, b) && s' == Publish(s, b)
    ensures BuildsOk(s'.nodes, s'.builds, s'.calls, s'.clock)
  {
    assert BuildOk(s.nodes, s.builds, s.calls, s.clock, b, s.builds[b]);
    forall i | 0 <= i < |s'.builds| ensures BuildOk(s'.nodes, s'.builds, s'.calls, s'.clock, i, s'.builds[i]) {
      assert BuildOk(s.nodes, s.builds, s.calls, s.clock, i, s.builds[i]);
    }
  }

  lemma PublishNodes(s: State, s': State, b: BuildId)
    requires Wf(s) && MayPublish(s, b) && s' == Publish(s, b)
    requires BuildsOk(s.nodes, s.builds, s.calls, s.clock)
    requires ListsOk(s.nodes, s.builds, s.live, s.inflight) && NodesOk(s.nodes, s.builds, s.closed)
    ensures ListsOk(s'.nodes, s'.builds, s'.live, s'.inflight) && NodesOk(s'.nodes, s'.builds, s'.closed)
  {
    assert BuildOk(s.nodes, s.builds, s.calls, s.clock, b, s.builds[b]);
    hide BuildsOk, DepsOlder;
    assert NodesOk(s'.nodes, s'.builds, s'.closed) by { hide ListsOk; }
    assert ListsOk(s'.nodes, s'.builds, s'.live, s'.inflight) by { hide NodesOk, NodeOk; }
  }

  lemma PublishRefs(s: State, s': State, b: BuildId)
    requires Shape(s) && RefsOk(s) && MayPublish(s, b) && s' == Publish(s, b)
    ensures RefsOk(s')
  {
    assert BuildOk(s.nodes, s.builds, s.calls, s.clock, b, s.builds[b]);
    assert NodeOk(s.nodes, s.builds, s.closed, s.builds[b].node, s.nodes[s.builds[b].node]);
    PublishMoves(s, s', b);
  }

  lemma PublishMoves(s: State, s': State, b: BuildId)
    requires Wf(s) && RefsOk(s) && b < |s.builds| && s' == Publish(s, b)
    requires s.builds[b].stage == Scope && s.builds[b].refs == 0 && s.nodes[s.builds[b].node].val.None?
    ensures RefsOk(s')
  {
    hide RefsOk, Holders;
    Conserved(s, s', None, Some(InSlot(s.builds[b].node)));
  }

  lemma PublishWaits(s: State, s': State, b: BuildId)
    requires Wf(s) && WaitsOk(s) && b < |s.builds| && s' == Publish(s, b)
    ensures WaitsOk(s')
  {
    hide WaitsOk;
    WaitsKept(s, s');
  }

  lemma PublishFresh(s: State, s': State, b: BuildId)
    requires Shape(s) && FreshWhileOpen(s) && MayPublish(s, b) && s' == Publish(s, b)
    ensures FreshWhileOpen(s')
  {
    assert BuildOk(s.nodes, s.builds, s.calls, s.clock, b, s.builds[b]);
    assert NodeOk(s.nodes, s.builds, s.closed, s.builds[b].node, s.nodes[s.builds[b].node]);
    hide Doomed, BuildsOk, NodesOk, ListsOk, WalksOk, BuildOk, NodeOk, CallsOk;
    PublishFreshParts(s, s', b);
  }

  lemma PublishFreshParts(s: State, s': State, b: BuildId)
    requires Wf(s) && FreshOk(s.nodes, s.builds, s.calls, s.walks) && MayPublish(s, b) && s' == Publish(s, b)
    requires s.builds[b].outcome == Pending && s.nodes[s.builds[b].node].val.None?
    ensures FreshOk(s'.nodes, s'.builds, s'.calls, s'.walks)
  {
    hide Doomed;
    forall i | 0 <= i < |s'.builds| ensures BuildFresh(s'.nodes, s'.builds, s'.walks, i, s'.builds[i]) {
      hide Wf, CallFresh;
      assert BuildFresh(s.nodes, s.builds, s.walks, i, s.builds[i]);
    }
    forall i | 0 <= i < |s'.calls| ensures CallFresh(s'.nodes, s'.builds, s'.walks, s'.calls[i]) {
      hide BuildFresh;
      assert CallFresh(s.nodes, s.builds, s.walks, s.calls[i]);
    }
  }

  lemma PublishRest(s: State, s': State, b: BuildId)
    requires Shape(s) && MayPublish(s, b) && s' == Publish(s, b)
    requires ClosersOk(s.builds, s.forced, s.close) && AwaitsOk(s.builds, s.clock)
    ensures ClosersOk(s'.builds, s'.forced, s'.close) && AwaitsOk(s'.builds, s'.clock)
  {
    assert BuildOk(s.nodes, s.builds, s.calls, s.clock, b, s.builds[b]);
    hide Shape, ClosersOk, AwaitsOk, BuildOk;
    ClosersBuild(s.builds, s.forced, s.close, b, s'.builds[b]);
    AwaitsSettled(s.builds, s.clock, b, s'.builds[b], s'.clock);
  }

  /** Nothing waits for the cleanup of a build that was never published. */
  lemma AwaitsSettled(builds: seq<Build>, clock: nat, b: BuildId, y: Build, clock': nat)
    requires AwaitsOk(builds, clock) && b < |builds| && clock <= clock'
    requires builds[b].outcome != Published && !y.stage.Dropping?
    ensures AwaitsOk(builds[b := y], clock')
  {
    var t := builds[b := y];
    forall i | 0 <= i < |t| ensures AwaitOk(t, t[i], clock') {
      assert AwaitOk(builds, builds[i], clock);
    }
  }

  lemma PublishClose(s: State, s': State, b: BuildId)
    requires Wf(s) && CloseOk(s) && MayPublish(s, b) && s' == Publish(s, b)
    requires s.nodes[s.builds[b].node].ready
    ensures CloseOk(s')
  {
  }

  lemma PublishEagerClose(s: State, s': State, b: BuildId)
    requires Wf(s) && CloseOk(s) && PublishEager(s, s', b)
    ensures CloseOk(s')
  {
    forall n | 0 <= n < |s'.nodes| && s'.nodes[n].ready ensures n in s'.members {
      if n == s.builds[b].node { assert s'.members[|s.members|] == n; }
    }
  }

  // ---- Discarding ---------------------------------------------------------------

  lemma KeepDiscard(s: State, s': State, b: BuildId)
    requires Inv(s) && (DiscardStale(s, s', b) || DiscardBroken(s, s', b))
    ensures Inv(s')
  {
    hide Shape, RefsOk, FreshWhileOpen, WaitsOk, ClosersOk, AwaitsOk, CloseOk;
    var outcome := s'.builds[b].outcome;
    DiscardCalls(s, s', b, outcome);
    DiscardBuilds(s, s', b, outcome);
    DiscardNodes(s, s', b, outcome);
    DiscardShape(s');
    DiscardRest(s, s', b, outcome);
  }

  lemma DiscardShape(s': State)
    requires Wf(s') && CallsOk(s'.nodes, s'.builds, s'.calls) && WalksOk(s'.nodes, s'.walks)
    requires BuildsOk(s'.nodes, s'.builds, s'.calls, s'.clock)
    requires ListsOk(s'.nodes, s'.builds, s'.live, s'.inflight) && NodesOk(s'.nodes, s'.builds, s'.closed)
    ensures Shape(s')
  {
    hide Wf, CallsOk, BuildsOk, ListsOk, NodesOk, WalksOk;
  }

  lemma DiscardCalls(s: State, s': State, b: BuildId, outcome: Outcome)
    requires Shape(s) && Returns(s, b) && s' == Discard(s, b, outcome)
    ensures Wf(s') && CallsOk(s'.nodes, s'.builds, s'.calls) && WalksOk(s'.nodes, s'.walks)
  {
    assert BuildOk(s.nodes, s.builds, s.calls, s.clock, b, s.builds[b]);
    hide BuildsOk, ListsOk, NodesOk, DepsOlder;
    forall i | 0 <= i < |s'.calls| ensures CallOk(s'.nodes, s'.builds, i, s'.calls[i]) {
      assert CallOk(s.nodes, s.builds, i, s.calls[i]);
    }
  }

  lemma DiscardBuilds(s: State, s': State, b: BuildId, outcome: Outcome)
    requires Shape(s) && Returns(s, b) && s' == Discard(s, b, outcome)
    requires outcome == Stale || outcome == Broken
    ensures BuildsOk(s'.nodes, s'.builds, s'.calls, s'.clock)
  {
    assert BuildOk(s.nodes, s.builds, s.calls, s.clock, b, s.builds[b]);
    hide CallsOk, ListsOk, NodesOk, WalksOk;
    forall i | 0 <= i < |s'.builds| ensures BuildOk(s'.nodes, s'.builds, s'.calls, s'.clock, i, s'.builds[i]) {
      assert BuildOk(s.nodes, s.builds, s.calls, s.clock, i, s.builds[i]);
    }
  }

  lemma DiscardNodes(s: State, s': State, b: BuildId, outcome: Outcome)
    requires Shape(s) && Returns(s, b) && s' == Discard(s, b, outcome)
    requires outcome == Stale || outcome == Broken
    ensures ListsOk(s'.nodes, s'.builds, s'.live, s'.inflight) && NodesOk(s'.nodes, s'.builds, s'.closed)
  {
    assert BuildOk(s.nodes, s.builds, s.calls, s.clock, b, s.builds[b]);
    assert NodeOk(s.nodes, s.builds, s.closed, s.builds[b].node, s.nodes[s.builds[b].node]);
    hide BuildsOk, CallsOk, WalksOk, DepsOlder;
    assert NodesOk(s'.nodes, s'.builds, s'.closed) by { hide ListsOk; }
    assert ListsOk(s'.nodes, s'.builds, s'.live, s'.inflight) by { hide NodesOk, NodeOk; }
  }

  lemma DiscardRest(s: State, s': State, b: BuildId, outcome: Outcome)
    requires Inv(s) && Returns(s, b) && s' == Discard(s, b, outcome)
    requires outcome == Stale || outcome == Broken
    ensures RefsOk(s') && WaitsOk(s') && FreshWhileOpen(s') && CloseOk(s')
    ensures ClosersOk(s'.builds, s'.forced, s'.close) && AwaitsOk(s'.builds, s'.clock)
  {
    hide RefsOk, FreshWhileOpen, WaitsOk, ClosersOk, AwaitsOk, CallsOk, NodesOk, ListsOk, WalksOk;
    assert BuildOk(s.nodes, s.builds, s.calls, s.clock, b, s.builds[b]);
    DiscardCounts(s, s', b, outcome);
    DiscardFresh(s, s', b, outcome);
    DiscardCleanups(s, s', b, outcome);
  }

  lemma DiscardCounts(s: State, s': State, b: BuildId, outcome: Outcome)
    requires Wf(s) && RefsOk(s) && WaitsOk(s) && b < |s.builds| && s' == Discard(s, b, outcome)
    requires s.builds[b].stage == Scope
    ensures RefsOk(s') && WaitsOk(s')
  {
    hide RefsOk, Holders, WaitsOk;
    Conserved(s, s', None, None);
    WaitsKept(s, s');
  }

  lemma DiscardFresh(s: State, s': State, b: BuildId, outcome: Outcome)
    requires Wf(s) && FreshWhileOpen(s) && Returns(s, b) && s' == Discard(s, b, outcome)
    requires outcome != Pending
    ensures FreshWhileOpen(s')
  {
    if !s.closed {
      hide Doomed;
      forall i | 0 <= i < |s'.builds| ensures BuildFresh(s'.nodes, s'.builds, s'.walks, i, s'.builds[i]) {
        hide Wf, CallFresh;
        assert BuildFresh(s.nodes, s.builds, s.walks, i, s.builds[i]);
      }
      forall i | 0 <= i < |s'.calls| ensures CallFresh(s'.nodes, s'.builds, s'.walks, s'.calls[i]) {
        hide BuildFresh;
        assert CallFresh(s.nodes, s.builds, s.walks, s.calls[i]);
      }
    }
  }

  lemma DiscardCleanups(s: State, s': State, b: BuildId, outcome: Outcome)
    requires Wf(s) && b < |s.builds| && s' == Discard(s, b, outcome)
    requires s.builds[b].stage == Scope && s.builds[b].outcome == Pending
    requires ClosersOk(s.builds, s.forced, s.close) && AwaitsOk(s.builds, s.clock)
    ensures ClosersOk(s'.builds, s'.forced, s'.close) && AwaitsOk(s'.builds, s'.clock)
  {
    hide ClosersOk, AwaitsOk;
    ClosersBuild(s.builds, s.forced, s.close, b, s'.builds[b]);
    AwaitsSettled(s.builds, s.clock, b, s'.builds[b], s'.clock);
  }

  // ---- Telling the waiters ----------------------------------------------------------

  /** finish's last two steps move the attempt's phase on. */
  ghost predicate PhaseOn(s: State, s': State, b: BuildId)
    requires Wf(s)
  {
    && b < |s.builds| && b < |s'.builds|
    && var x := s.builds[b];
       var p := s'.builds[b].phase;
       && s' == SetBuild(s, b, x.(phase := p)).(inflight := s'.inflight, drained := s'.drained)
       && (x.phase == Settled || x.phase == Unlisted) && (p == Unlisted || p == Signalled)
       && (x.outcome == Published || x.stage == Over)
       && s'.inflight == s.inflight - {b}
  }

  lemma PhaseIsOn(s: State, s': State, b: BuildId)
    requires Shape(s) && (Unlist(s, s', b) || Signal(s, s', b))
    ensures PhaseOn(s, s', b)
  {
    assert BuildOk(s.nodes, s.builds, s.calls, s.clock, b, s.builds[b]);
    assert b in s.inflight <==> Unfinished(s.nodes, s.builds[b]);
    hide Wf, CallsOk, BuildsOk, NodesOk, WalksOk, ListsOk;
  }

  lemma KeepPhase(s: State, s': State, b: BuildId)
    requires Inv(s) && (Unlist(s, s', b) || Signal(s, s', b))
    ensures Inv(s')
  {
    hide Shape, RefsOk, FreshWhileOpen, WaitsOk, ClosersOk, AwaitsOk, CloseOk;
    PhaseIsOn(s, s', b);
    PhaseShape(s, s', b);
    PhaseCounts(s, s', b);
    PhaseFresh(s, s', b);
    PhaseCleanups(s, s', b);
    PhaseClose(s, s', b);
  }

  lemma PhaseShape(s: State, s': State, b: BuildId)
    requires Shape(s) && PhaseOn(s, s', b)
    ensures Shape(s')
  {
    PhaseCalls(s, s', b);
    PhaseBuilds(s, s', b);
    PhaseNodes(s, s', b);
    DiscardShape(s');
  }

  lemma PhaseCalls(s: State, s': State, b: BuildId)
    requires Wf(s) && CallsOk(s.nodes, s.builds, s.calls) && WalksOk(s.nodes, s.walks) && PhaseOn(s, s', b)
    ensures Wf(s') && CallsOk(s'.nodes, s'.builds, s'.calls) && WalksOk(s'.nodes, s'.walks)
  {
    forall i | 0 <= i < |s'.calls| ensures CallOk(s'.nodes, s'.builds, i, s'.calls[i]) {
      assert CallOk(s.nodes, s.builds, i, s.calls[i]);
    }
  }

  lemma PhaseBuilds(s: State, s': State, b: BuildId)
    requires Wf(s) && BuildsOk(s.nodes, s.builds, s.calls, s.clock) && PhaseOn(s, s', b)
    ensures BuildsOk(s'.nodes, s'.builds, s'.calls, s'.clock)
  {
    forall i | 0 <= i < |s'.builds| ensures BuildOk(s'.nodes, s'.builds, s'.calls, s'.clock, i, s'.builds[i]) {
      assert BuildOk(s.nodes, s.builds, s.calls, s.clock, i, s.builds[i]);
    }
  }

  lemma PhaseNodes(s: State, s': State, b: BuildId)
    requires Wf(s) && PhaseOn(s, s', b)
    requires ListsOk(s.nodes, s.builds, s.live, s.inflight) && NodesOk(s.nodes, s.builds, s.closed)
    ensures ListsOk(s'.nodes, s'.builds, s'.live, s'.inflight) && NodesOk(s'.nodes, s'.builds, s'.closed)
  {
    assert NodesOk(s'.nodes, s'.builds, s'.closed) by { hide ListsOk; }
    assert ListsOk(s'.nodes, s'.builds, s'.live, s'.inflight) by { hide NodesOk; }
  }

  lemma PhaseCounts(s: State, s': State, b: BuildId)
    requires Wf(s) && RefsOk(s) && WaitsOk(s) && PhaseOn(s, s', b)
    ensures RefsOk(s') && WaitsOk(s')
  {
    hide RefsOk, Holders, WaitsOk;
    Conserved(s, s', None, None);
    WaitsKept(s, s');
  }

  lemma PhaseFresh(s: State, s': State, b: BuildId)
    requires Wf(s) && FreshWhileOpen(s) && PhaseOn(s, s', b)
    ensures FreshWhileOpen(s')
  {
    hide FreshOk;
    if !s.closed {
      FreshBuild(s.nodes, s.builds, s.calls, s.walks, b, s'.builds[b]);
    }
  }

  lemma PhaseCleanups(s: State, s': State, b: BuildId)
    requires Wf(s) && PhaseOn(s, s', b)
    requires ClosersOk(s.builds, s.forced, s.close) && AwaitsOk(s.builds, s.clock)
    ensures ClosersOk(s'.builds, s'.forced, s'.close) && AwaitsOk(s'.builds, s'.clock)
  {
    assert AwaitOk(s.builds, s.builds[b], s.clock);
    hide ClosersOk, AwaitsOk;
    ClosersBuild(s.builds, s.forced, s.close, b, s'.builds[b]);
    AwaitsBuild(s.builds, s.clock, b, s'.builds[b]);
  }

  lemma PhaseClose(s: State, s': State, b: BuildId)
    requires Wf(s) && CloseOk(s) && (Unlist(s, s', b) || Signal(s, s', b))
    ensures CloseOk(s')
  {
  }
}
