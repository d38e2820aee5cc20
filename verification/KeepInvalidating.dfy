/** invalidate keeps the invariant. */
module KeepInvalidating {
  import opened Paths
  import opened State
  import opened Steps
  import opened Invariants
  import opened References
  import opened Freshness
  import opened Waiting
  import opened Cleanups
  import opened Shutdown
  import opened Keeping

  import opened KeepReleasing

  // ---- The locked section --------------------------------------------------------

  lemma SectionShape(s: State, n: NodeId)
    requires Shape(s) && n < |s.nodes| && !s.nodes[n].eager
    ensures Shape(Section(s, n))
  {
    var t := Section(s, n);
    SectionWf(s, n);
    SectionCalls(s, n);
    SectionBuilds(s, n);
    SectionNodes(s, n);
    hide Wf, CallsOk, BuildsOk, ListsOk, NodesOk, WalksOk;
  }

  lemma SectionWf(s: State, n: NodeId)
    requires Wf(s) && n < |s.nodes|
    ensures Wf(Section(s, n))
  {
  }

  lemma SectionCalls(s: State, n: NodeId)
    requires CallsOk(s.nodes, s.builds, s.calls) && n < |s.nodes|
    ensures var t := Section(s, n); CallsOk(t.nodes, t.builds, t.calls)
  {
    var t := Section(s, n);
    forall i | 0 <= i < |t.calls| ensures CallOk(t.nodes, t.builds, i, t.calls[i]) {
      assert CallOk(s.nodes, s.builds, i, s.calls[i]);
    }
  }

  lemma SectionBuilds(s: State, n: NodeId)
    requires BuildsOk(s.nodes, s.builds, s.calls, s.clock) && n < |s.nodes|
    ensures var t := Section(s, n); BuildsOk(t.nodes, t.builds, t.calls, t.clock)
  {
    var t := Section(s, n);
    hide BuildShape;
    forall i | 0 <= i < |t.builds| ensures BuildOk(t.nodes, t.builds, t.calls, t.clock, i, t.builds[i]) {
      assert BuildOk(s.nodes, s.builds, s.calls, s.clock, i, s.builds[i]);
    }
  }

  lemma SectionNodes(s: State, n: NodeId)
    requires NodesOk(s.nodes, s.builds, s.closed) && WalksOk(s.nodes, s.walks) && n < |s.nodes| && !s.nodes[n].eager
    requires ListsOk(s.nodes, s.builds, s.live, s.inflight)
    ensures var t := Section(s, n);
            && NodesOk(t.nodes, t.builds, t.closed) && WalksOk(t.nodes, t.walks)
            && ListsOk(t.nodes, t.builds, t.live, t.inflight)
  {
  }

  /** Whoever read the old value is now doomed, and the provider's own attempts
      no longer count. */
  lemma SectionFresh(s: State, nodes': seq<Node>, walks': seq<Walk>, n: NodeId)
    requires Shape(s) && FreshOk(s.nodes, s.builds, s.calls, s.walks)
    requires n < |s.nodes| && !s.nodes[n].eager
    requires nodes' == s.nodes[n := s.nodes[n].(epoch := s.nodes[n].epoch + 1, val := None, dependents := {})]
    requires forall m :: m != n && Doomed(s.walks, m) ==> Doomed(walks', m)
    requires forall m :: m in s.nodes[n].dependents ==> Doomed(walks', m)
    ensures FreshOk(nodes', s.builds, s.calls, walks')
  {
    hide Doomed, Wf, CallsOk, NodesOk, ListsOk, WalksOk, DepsOlder, BuildShape;
    forall b | 0 <= b < |s.builds| ensures BuildFresh(nodes', s.builds, walks', b, s.builds[b]) {
      assert BuildFresh(s.nodes, s.builds, s.walks, b, s.builds[b]);
      assert BuildOk(s.nodes, s.builds, s.calls, s.clock, b, s.builds[b]);
    }
    forall i | 0 <= i < |s.calls| ensures CallFresh(nodes', s.builds, walks', s.calls[i]) {
      assert CallFresh(s.nodes, s.builds, s.walks, s.calls[i]);
      assert s.calls[i].scope.Some? && s.calls[i].scope.value < |s.builds| ==>
          BuildOk(s.nodes, s.builds, s.calls, s.clock, s.calls[i].scope.value, s.builds[s.calls[i].scope.value]);
    }
  }

  lemma SectionRefs(s: State, s': State, n: NodeId)
    requires Wf(s) && RefsOk(s) && n < |s.nodes| && |s'.walks| > |s.walks|
    requires |s'.nodes| == |s.nodes| && (forall m :: 0 <= m < |s.nodes| && m != n ==> s'.nodes[m].val == s.nodes[m].val)
    requires s'.nodes[n].val.None? && s'.walks[|s.walks|].held == s.nodes[n].val
    requires |s'.walks| == |s.walks| + 1
    requires forall i :: 0 <= i < |s.walks| ==> s'.walks[i].held == s.walks[i].held
    requires s'.builds == s.builds && s'.calls == s.calls && s'.leases == s.leases && s'.close == s.close
    ensures RefsOk(s')
  {
    hide RefsOk, Holders;
    Conserved(s, s', Some(InSlot(n)), Some(InWalk(|s.walks|)));
  }

  // ---- Invalidate and its recursive calls -----------------------------------------

  lemma KeepInvalidate(s: State, s': State, n: NodeId)
    requires Inv(s) && Invalidate(s, s', n)
    ensures Inv(s')
  {
    hide Shape, RefsOk, FreshWhileOpen, WaitsOk, ClosersOk, AwaitsOk, CloseOk;
    SectionShape(s, n);
    InvalidateFresh(s, s', n);
    SectionRefs(s, s', n);
    SectionWaits(s, s');
    InvalidateClose(s, s', n);
  }

  lemma InvalidateFresh(s: State, s': State, n: NodeId)
    requires Wf(s) && Shape(s) && FreshWhileOpen(s) && Invalidate(s, s', n)
    ensures FreshWhileOpen(s')
  {
    hide Shape, FreshOk;
    if !s.closed {
      forall m | Doomed(s.walks, m) ensures Doomed(s'.walks, m) {
        var i :| 0 <= i < |s.walks| && m in s.walks[i].todo;
        assert m in s'.walks[i].todo;
      }
      forall m | m in s.nodes[n].dependents ensures Doomed(s'.walks, m) {
        assert m in s'.walks[|s.walks|].todo;
      }
      SectionFresh(s, s'.nodes, s'.walks, n);
    }
  }

  lemma SectionWaits(s: State, s': State)
    requires Wf(s) && WaitsOk(s) && s'.builds == s.builds && s'.calls == s.calls
    ensures WaitsOk(s')
  {
    hide WaitsOk;
    WaitsKept(s, s');
  }

  lemma InvalidateClose(s: State, s': State, n: NodeId)
    requires Wf(s) && CloseOk(s) && Invalidate(s, s', n)
    ensures CloseOk(s')
  {
  }

  lemma KeepDescend(s: State, s': State, i: WalkId, d: NodeId)
    requires Inv(s) && Descend(s, s', i, d)
    ensures Inv(s')
  {
    hide Shape, RefsOk, FreshWhileOpen, WaitsOk, ClosersOk, AwaitsOk, CloseOk;
    DescendShape(s, s', i, d);
    DescendFresh(s, s', i, d);
    SectionRefs(s, s', d);
    SectionWaits(s, s');
    DescendClose(s, s', i, d);
  }

  lemma DescendShape(s: State, s': State, i: WalkId, d: NodeId)
    requires Shape(s) && Descend(s, s', i, d)
    ensures Shape(s') && d < |s.nodes| && !s.nodes[d].eager
  {
    assert WalkOk(s.nodes, s.walks[i]);
    var y := s.walks[i].(todo := s.walks[i].todo - {d}, child := Some(|s.walks|));
    hide CallsOk, BuildsOk, ListsOk, NodesOk;
    DescendWf(s, s', i, d);
    SectionCalls(SetWalk(s, i, y), d);
    SectionBuilds(SetWalk(s, i, y), d);
    SectionNodes(SetWalk(s, i, y), d);
  }

  lemma DescendWf(s: State, s': State, i: WalkId, d: NodeId)
    requires Wf(s) && Descend(s, s', i, d)
    ensures Wf(s')
  {
  }

  lemma DescendFresh(s: State, s': State, i: WalkId, d: NodeId)
    requires Wf(s) && Shape(s) && FreshWhileOpen(s) && Descend(s, s', i, d)
    requires d < |s.nodes| && !s.nodes[d].eager
    ensures FreshWhileOpen(s')
  {
    hide Shape, FreshOk;
    if !s.closed {
      forall m | m != d && Doomed(s.walks, m) ensures Doomed(s'.walks, m) {
        var k :| 0 <= k < |s.walks| && m in s.walks[k].todo;
        assert m in s'.walks[k].todo;
      }
      forall m | m in s.nodes[d].dependents ensures Doomed(s'.walks, m) {
        assert m in s'.walks[|s.walks|].todo;
      }
      SectionFresh(s, s'.nodes, s'.walks, d);
    }
  }

  lemma DescendClose(s: State, s': State, i: WalkId, d: NodeId)
    requires Wf(s) && CloseOk(s) && Descend(s, s', i, d)
    ensures CloseOk(s')
  {
  }

  // ---- The end of an activation ------------------------------------------------------

  /** A walk changes, but not what it has still to visit. */
  ghost predicate WalkMoves(s: State, t: State, i: WalkId)
  {
    && i < |s.walks| && i < |t.walks| && t == SetWalk(s, i, t.walks[i])
    && t.walks[i].todo == s.walks[i].todo && WalkWf(t.walks[i], s)
  }

  lemma WalkMoved(s: State, t: State, i: WalkId)
    requires Wf(s) && Shape(s) && FreshWhileOpen(s) && WalkMoves(s, t, i)
    ensures Wf(t) && Shape(t) && FreshWhileOpen(t)
  {
    WalkMovedShape(s, t, i);
    hide Shape;
    if !s.closed {
      forall m ensures Doomed(s.walks, m) <==> Doomed(t.walks, m) {
        if k :| 0 <= k < |s.walks| && m in s.walks[k].todo { assert m in t.walks[k].todo; }
        if k :| 0 <= k < |t.walks| && m in t.walks[k].todo { assert m in s.walks[k].todo; }
      }
      SameDoom(s.nodes, s.builds, s.calls, s.walks, t.walks);
    }
  }

  lemma SameDoom(nodes: seq<Node>, builds: seq<Build>, calls: seq<Call>, walks: seq<Walk>, walks': seq<Walk>)
    requires FreshOk(nodes, builds, calls, walks)
    requires forall m :: Doomed(walks, m) <==> Doomed(walks', m)
    ensures FreshOk(nodes, builds, calls, walks')
  {
    hide Doomed;
    forall b | 0 <= b < |builds| ensures BuildFresh(nodes, builds, walks', b, builds[b]) {
      assert BuildFresh(nodes, builds, walks, b, builds[b]);
    }
    forall i | 0 <= i < |calls| ensures CallFresh(nodes, builds, walks', calls[i]) {
      assert CallFresh(nodes, builds, walks, calls[i]);
    }
  }

  lemma WalkMovedShape(s: State, t: State, i: WalkId)
    requires Shape(s) && WalkMoves(s, t, i)
    ensures Shape(t)
  {
    hide CallsOk, BuildsOk, ListsOk, NodesOk;
    assert WalkOk(s.nodes, s.walks[i]);
  }

  lemma KeepWalkReturn(s: State, s': State, i: WalkId)
    requires Inv(s) && WalkReturn(s, s', i)
    ensures Inv(s')
  {
    hide Shape, RefsOk, FreshWhileOpen, WaitsOk, ClosersOk, AwaitsOk, CloseOk;
    WalkMoved(s, s', i);
    WalkReturnRefs(s, s', i);
    SectionWaits(s, s');
    WalkReturnClose(s, s', i);
  }

  lemma WalkReturnRefs(s: State, s': State, i: WalkId)
    requires Wf(s) && RefsOk(s) && WalkReturn(s, s', i)
    ensures RefsOk(s')
  {
    hide RefsOk, Holders;
    Conserved(s, s', None, None);
  }

  lemma WalkReturnClose(s: State, s': State, i: WalkId)
    requires Wf(s) && CloseOk(s) && WalkReturn(s, s', i)
    ensures CloseOk(s')
  {
  }

  lemma KeepWalkRelease(s: State, s': State, i: WalkId)
    requires Inv(s) && WalkRelease(s, s', i)
    ensures Inv(s')
  {
    hide Shape, RefsOk, FreshWhileOpen, WaitsOk, ClosersOk, AwaitsOk, CloseOk;
    var g := s.walks[i].held.value;
    var t := SetWalk(s, i, s.walks[i].(held := None, await := Started(s, g)));
    HeldIsLive(s, InWalk(i));
    WalkMoved(s, t, i);
    DecrementKept(t, g);
    WalkReleaseCounts(s, s', i);
    WalkReleaseClose(s, s', i);
  }

  lemma WalkReleaseCounts(s: State, s': State, i: WalkId)
    requires Wf(s) && RefsOk(s) && WaitsOk(s) && WalkRelease(s, s', i)
    requires s.builds[s.walks[i].held.value].stage == Held
    ensures RefsOk(s') && WaitsOk(s')
  {
    hide RefsOk, Holders, WaitsOk;
    Conserved(s, s', Some(InWalk(i)), None);
    WaitsKept(s, s');
  }

  lemma WalkReleaseClose(s: State, s': State, i: WalkId)
    requires Wf(s) && CloseOk(s) && WalkRelease(s, s', i)
    ensures CloseOk(s')
  {
  }
}
