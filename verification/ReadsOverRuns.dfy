/** Reads, providers and attempts over whole runs. */
module ReadsOverRuns {
  import opened State
  import opened Steps
  import opened Invariants
  import opened Keeping
  import opened Runs
  import opened History
  import opened Consistency
  import opened References
  import opened Lifetimes
  import Paths

  lemma RunPrefix(run: seq<State>, i: nat)
    requires IsRun(run) && i < |run|
    ensures Reachable(run[i])
  {
    var p := run[..i + 1];
    assert IsRun(p) && p[|p| - 1] == run[i] by { hide Next; }
  }

  lemma RunLater(run: seq<State>, i: nat)
    requires IsRun(run) && i + 1 < |run|
    ensures Wf(run[i]) && Inv(run[i])
    ensures Later(run[i], run[i + 1]) && CallsLater(run[i], run[i + 1])
  {
    hide Inv, Reachable, Later, CallsLater;
    assert Next(run[i], run[i + 1]);
    RunPrefix(run, i);
    InvReachable(run[i]);
    NextLater(run[i], run[i + 1]);
  }

  /** At state i of the run, c is under way and g is its provider's value. */
  ghost predicate SawCurrent(run: seq<State>, i: nat, c: CallId, g: BuildId)
  {
    && i < |run| && c < |run[i].calls| && InProgress(run[i].calls[c])
    && run[i].calls[c].node < |run[i].nodes|
    && run[i].nodes[run[i].calls[c].node].val == Some(g)
  }

  lemma {:induction false} FoundWasCurrent(run: seq<State>, k: nat, c: CallId) returns (i: nat)
    requires IsRun(run) && k < |run| && c < |run[k].calls| && Found(run[k].calls[c]).Some?
    ensures i <= k && SawCurrent(run, i, c, Found(run[k].calls[c]).value)
    decreases k
  {
    hide Inv, Later, Next;
    assert k > 0;
    RunLater(run, k - 1);
    var s, s' := run[k - 1], run[k];
    if c < |s.calls| && Found(s.calls[c]) == Found(s'.calls[c]) {
      i := FoundWasCurrent(run, k - 1, c);
    } else {
      i := k - 1;
    }
  }

  /** Linearizable reads: every value a read returns was its provider's current
      value at some moment between the read's start and its return. */
  lemma ReadsAreLinearizable(run: seq<State>, k: nat, c: CallId)
    requires IsRun(run) && k < |run| && c < |run[k].calls| && run[k].calls[c].pc.Got?
    ensures exists i :: 0 <= i <= k && SawCurrent(run, i, c, run[k].calls[c].pc.g)
  {
    hide IsRun;
    var i := FoundWasCurrent(run, k, c);
  }

  /** Once a provider is shut it stays shut and never has a value again. */
  lemma {:induction false} ShutForGood(run: seq<State>, i: nat, k: nat, n: NodeId)
    requires IsRun(run) && i <= k < |run| && n < |run[i].nodes| && run[i].nodes[n].closed
    ensures n < |run[k].nodes| && run[k].nodes[n].closed && run[k].nodes[n].val.None?
    decreases k
  {
    hide Inv, Next, CallsLater, BuildsLater, GraphLater, Reachable;
    if i < k {
      ShutForGood(run, i, k - 1, n);
      RunLater(run, k - 1);
    }
    RunPrefix(run, k);
    InvReachable(run[k]);
    NodeFacts(run[k], n);
  }

  /** A read that has not got past its provider's lock when the provider is shut
      gets ErrClosed and nothing else. */
  lemma {:induction false} LateReadsFail(run: seq<State>, i: nat, k: nat, c: CallId)
    requires IsRun(run) && i <= k < |run| && c < |run[i].calls| && Refused(run[i].calls[c])
    requires run[i].calls[c].node < |run[i].nodes| && run[i].nodes[run[i].calls[c].node].closed
    ensures c < |run[k].calls| && run[k].calls[c].node == run[i].calls[c].node && Refused(run[k].calls[c])
    decreases k
  {
    hide Inv, Next, Later, Reachable;
    if i < k {
      LateReadsFail(run, i, k - 1, c);
      ShutForGood(run, i, k - 1, run[i].calls[c].node);
      RunLater(run, k - 1);
    }
  }

  /** An attempt is overtaken when its provider is invalidated after it began. */
  ghost predicate Overtaken(s: State, b: BuildId)
  {
    && b < |s.builds| && s.builds[b].node < |s.nodes|
    && (s.builds[b].outcome == Stale || s.builds[b].outcome == Broken
        || (s.builds[b].outcome == Pending && s.builds[b].epoch < s.nodes[s.builds[b].node].epoch))
  }

  /** A build overtaken by an invalidation is never published. */
  lemma {:induction false} OvertakenNeverPublished(run: seq<State>, i: nat, k: nat, b: BuildId)
    requires IsRun(run) && i <= k < |run| && Overtaken(run[i], b)
    ensures Overtaken(run[k], b)
    decreases k
  {
    hide Inv, Next, CallsLater, GraphLater, Reachable, IsRun;
    if i < k {
      OvertakenNeverPublished(run, i, k - 1, b);
      RunLater(run, k - 1);
      assert BuildLater(run[k - 1].builds[b], run[k].builds[b], run[k - 1].nodes[run[k - 1].builds[b].node].epoch);
    }
  }

  /** A value nobody holds any more is never held again. */
  lemma {:induction false} ReleasedForGood(run: seq<State>, i: nat, k: nat, g: BuildId)
    requires IsRun(run) && i <= k < |run| && g < |run[i].builds|
    requires run[i].builds[g].outcome == Published && run[i].builds[g].refs == 0
    ensures g < |run[k].builds| && run[k].builds[g].outcome == Published && run[k].builds[g].refs == 0
    decreases k
  {
    hide Inv, Next, CallsLater, GraphLater, NodesLater, Reachable, IsRun;
    if i < k {
      ReleasedForGood(run, i, k - 1, g);
      RunLater(run, k - 1);
      WfBuilds(run[k - 1], g);
      assert BuildLater(run[k - 1].builds[g], run[k].builds[g], run[k - 1].nodes[run[k - 1].builds[g].node].epoch);
    }
  }

  lemma WfBuilds(s: State, b: BuildId)
    requires Wf(s) && b < |s.builds|
    ensures s.builds[b].node < |s.nodes|
  {
  }

  /** After Close has begun, live only shrinks, and drained stays closed. */
  lemma {:induction false} LiveShrinks(run: seq<State>, i: nat, k: nat)
    requires IsRun(run) && i <= k < |run| && run[i].closed
    ensures run[k].closed && run[k].live <= run[i].live && (run[i].drained ==> run[k].drained)
    decreases k
  {
    hide Inv, Next, CallsLater, BuildsLater, NodesLater, Reachable, IsRun;
    if i < k {
      LiveShrinks(run, i, k - 1);
      RunLater(run, k - 1);
    }
  }

  /** An invalidation of a provider overtakes every attempt of it that is still
      open. */
  lemma InvalidationOvertakes(s: State, n: NodeId, b: BuildId)
    requires Reachable(s) && n < |s.nodes|
    requires b < |s.builds| && s.builds[b].outcome == Pending && s.builds[b].node == n
    ensures Overtaken(Section(s, n), b)
  {
    hide Inv, Reachable;
    InvReachable(s);
    EpochsBehind(s, b);
  }

  lemma EpochsBehind(s: State, b: BuildId)
    requires Inv(s) && b < |s.builds|
    ensures s.builds[b].node < |s.nodes| && s.builds[b].epoch <= s.nodes[s.builds[b].node].epoch
  {
    assert BuildOk(s.nodes, s.builds, s.calls, s.clock, b, s.builds[b]);
  }

  lemma {:induction false} SignalledForGood(run: seq<State>, i: nat, k: nat, b: BuildId)
    requires IsRun(run) && i <= k < |run| && b < |run[i].builds| && run[i].builds[b].phase == Signalled
    ensures b < |run[k].builds| && run[k].builds[b].phase == Signalled
    decreases k
  {
    hide Inv, Next, CallsLater, GraphLater, NodesLater, Reachable, IsRun;
    if i < k {
      SignalledForGood(run, i, k - 1, b);
      RunLater(run, k - 1);
      WfBuilds(run[k - 1], b);
      assert BuildLater(run[k - 1].builds[b], run[k].builds[b], run[k - 1].nodes[run[k - 1].builds[b].node].epoch);
    }
  }

  /** An attempt's done channel is closed at most once: finish runs once for each
      attempt. */
  lemma SignalledOnce(run: seq<State>, i: nat, k: nat, b: BuildId)
    requires IsRun(run) && i < k < |run| - 1 && Wf(run[i]) && Wf(run[k]) && Signal(run[i], run[i + 1], b)
    ensures !Signal(run[k], run[k + 1], b)
  {
    hide Inv, Next, Reachable, IsRun;
    SignalledForGood(run, i + 1, k, b);
  }

  /** A read that takes a reference owns one when it returns, until it hands it to
      its scope or its lease: nothing it was built from can be cleaned up. */
  lemma ReadOwnsReference(s: State, c: CallId, d: BuildId)
    requires Reachable(s) && c < |s.calls| && s.calls[c].pc.Got? && s.calls[c].ref
    requires BuiltFrom(s, s.calls[c].pc.g, d)
    ensures InCall(c) in Holders(s, s.calls[c].pc.g)
    ensures d < |s.builds| && s.builds[d].refs > 0
    ensures !s.forced ==> d in s.live && Untouched(s.builds[d])
  {
    hide Inv, Reachable, Holders;
    InvReachable(s);
    HolderIff(s, s.calls[c].pc.g, InCall(c));
    HeldPlace(s, InCall(c));
    if !s.forced {
      HeldKeepsOpen(s, s.calls[c].pc.g, d);
    } else {
      var n: nat :| Paths.ReachesIn(DepEdges(s), s.calls[c].pc.g, d, n);
      HeldDownward(s, s.calls[c].pc.g, d, n);
      BuildFacts(s, d);
    }
  }

  // ---- Values and invalidations ------------------------------------------------------

  /** This step is the locked section of an invalidation of n. */
  ghost predicate Invalidates(s: State, s': State, n: NodeId)
    requires Wf(s)
  {
    Invalidate(s, s', n) || exists i: nat :: Descend(s, s', i, n)
  }

  lemma InvalidatesBumps(s: State, s': State, n: NodeId)
    requires Wf(s) && Invalidates(s, s', n)
    ensures n < |s.nodes| == |s'.nodes| && s'.nodes[n].epoch == s.nodes[n].epoch + 1
  {
    if !Invalidate(s, s', n) {
      var i: nat :| Descend(s, s', i, n);
      DescendBumps(s, s', i, n);
    }
  }

  lemma DescendBumps(s: State, s': State, i: WalkId, n: NodeId)
    requires Wf(s) && Descend(s, s', i, n)
    ensures n < |s.nodes| == |s'.nodes| && s'.nodes[n].epoch == s.nodes[n].epoch + 1
  {
    assert n < |s.nodes|;
    hide Wf, ChildDone;
  }

  lemma {:induction false} EpochGrows(run: seq<State>, i: nat, k: nat, n: NodeId)
    requires IsRun(run) && i <= k < |run| && n < |run[i].nodes|
    ensures n < |run[k].nodes| && run[i].nodes[n].epoch <= run[k].nodes[n].epoch
    decreases k
  {
    hide Inv, Next, CallsLater, BuildsLater, GraphLater, Reachable, IsRun;
    if i < k {
      EpochGrows(run, i, k - 1, n);
      RunLater(run, k - 1);
    }
  }

  lemma {:induction false} AttemptStays(run: seq<State>, i: nat, k: nat, b: BuildId)
    requires IsRun(run) && i <= k < |run| && b < |run[i].builds|
    ensures b < |run[k].builds| && run[k].builds[b].node == run[i].builds[b].node
    ensures run[k].builds[b].epoch == run[i].builds[b].epoch
    decreases k
  {
    hide Inv, Next, CallsLater, GraphLater, NodesLater, Reachable, IsRun;
    if i < k {
      AttemptStays(run, i, k - 1, b);
      RunLater(run, k - 1);
      WfBuilds(run[k - 1], b);
      assert BuildLater(run[k - 1].builds[b], run[k].builds[b], run[k - 1].nodes[run[k - 1].builds[b].node].epoch);
    }
  }

  /** A current value comes from an attempt created after every invalidation of its
      provider so far. */
  lemma CurrentBeganAfter(run: seq<State>, i: nat, k: nat, n: NodeId)
    requires IsRun(run) && i < k < |run| && Wf(run[i]) && Invalidates(run[i], run[i + 1], n)
    requires n < |run[k].nodes| && run[k].nodes[n].val.Some?
    ensures run[k].nodes[n].val.value >= |run[i].builds|
  {
    hide Inv, Next, Reachable, IsRun, Invalidates;
    var v := run[k].nodes[n].val.value;
    InvalidatesBumps(run[i], run[i + 1], n);
    hide Wf;
    EpochGrows(run, i + 1, k, n);
    RunPrefix(run, k);
    CurrentEpoch(run[k], n);
    if v < |run[i].builds| {
      AttemptStays(run, i, k, v);
      RunPrefix(run, i);
      InvReachable(run[i]);
      EpochsBehind(run[i], v);
    }
  }
}
