/** The wait-for graph: its counts and its shape. */
module Waiting {
  import opened Paths
  import opened State
  import opened Steps

  /** The reads of attempt x that wait on attempt y. */
  ghost function Waiters(calls: seq<Call>, x: BuildId, y: BuildId): set<CallId>
  {
    set c | 0 <= c < |calls| && calls[c].from == Some(x) && WaitsOn(calls[c]) == Some(y)
  }

  ghost predicate CountsOk(builds: seq<Build>, calls: seq<Call>)
  {
    && (forall x, y: nat :: 0 <= x < |builds| ==> WaitCount(builds[x], y) == |Waiters(calls, x, y)|)
    && (forall x, y :: 0 <= x < |builds| && y in builds[x].waits ==> builds[x].waits[y] > 0)
  }

  ghost predicate WaitsOk(s: State)
  {
    CountsOk(s.builds, s.calls) && Acyclic(Edges(s))
  }

  /** Nothing this invariant reads has changed. */
  ghost predicate SameWaits(s: State, s': State)
  {
    && |s.calls| <= |s'.calls| && |s.builds| <= |s'.builds|
    && (forall c :: 0 <= c < |s.calls| ==>
         && s'.calls[c].from == s.calls[c].from
         && (s.calls[c].from.Some? ==> WaitsOn(s'.calls[c]) == WaitsOn(s.calls[c])))
    && (forall c :: |s.calls| <= c < |s'.calls| ==> WaitsOn(s'.calls[c]).None?)
    && (forall b :: 0 <= b < |s.builds| ==> s'.builds[b].waits == s.builds[b].waits)
    && (forall b :: |s.builds| <= b < |s'.builds| ==> s'.builds[b].waits == map[])
  }

  lemma WaitsKept(s: State, s': State)
    requires Wf(s) && WaitsOk(s) && SameWaits(s, s')
    ensures WaitsOk(s')
  {
    forall x, y: nat | 0 <= x < |s'.builds|
      ensures WaitCount(s'.builds[x], y) == |Waiters(s'.calls, x, y)|
    {
      assert Waiters(s'.calls, x, y) == Waiters(s.calls, x, y);
      if x >= |s.builds| {
        assert Waiters(s.calls, x, y) == {};
      }
    }
    assert Edges(s') == Edges(s);
  }

  /** Only the read c of attempt f and the waits of f change. */
  ghost predicate OnlyWait(s: State, t: State, c: CallId, f: BuildId)
  {
    && c < |s.calls| == |t.calls| && f < |s.builds| == |t.builds|
    && s.calls[c].from == Some(f) == t.calls[c].from
    && (forall i :: 0 <= i < |s.calls| && i != c ==> t.calls[i] == s.calls[i])
    && (forall b :: 0 <= b < |s.builds| && b != f ==> t.builds[b].waits == s.builds[b].waits)
  }

  /** c begins to wait on a, and is counted. */
  ghost predicate BeginsWait(s: State, t: State, c: CallId, f: BuildId, a: BuildId)
  {
    && OnlyWait(s, t, c, f)
    && WaitsOn(s.calls[c]).None? && WaitsOn(t.calls[c]) == Some(a)
    && t.builds[f].waits == s.builds[f].waits[a := WaitCount(s.builds[f], a) + 1]
  }

  /** c no longer waits on a, and is no longer counted. */
  ghost predicate EndsWait(s: State, t: State, c: CallId, f: BuildId, a: BuildId)
  {
    && OnlyWait(s, t, c, f)
    && WaitsOn(s.calls[c]) == Some(a) && WaitsOn(t.calls[c]).None?
    && t.builds[f].waits ==
         if WaitCount(s.builds[f], a) <= 1 then s.builds[f].waits - {a}
         else s.builds[f].waits[a := WaitCount(s.builds[f], a) - 1]
  }

  /** waitFor accepted: the read c of attempt f now waits on a. */
  lemma WaitCounted(s: State, t: State, c: CallId, f: BuildId, a: BuildId)
    requires Wf(s) && WaitsOk(s) && BeginsWait(s, t, c, f, a) && !Reaches(Edges(s), a, f)
    ensures WaitsOk(t)
  {
    hide Wf, WaitsOn;
    CountedOk(s, t, c, f, a);
    assert Edges(t) == Edges(s) + {(f, a)};
    AcyclicWithEdge(Edges(s), f, a);
  }

  /** stopWaiting: c no longer waits on a. */
  lemma WaitUncounted(s: State, t: State, c: CallId, f: BuildId, a: BuildId)
    requires Wf(s) && WaitsOk(s) && EndsWait(s, t, c, f, a)
    ensures WaitsOk(t)
  {
    hide Wf, WaitsOn;
    UncountedOk(s, t, c, f, a);
    assert Edges(t) <= Edges(s);
    AcyclicWithout(Edges(t), Edges(s));
  }

  lemma CountedOk(s: State, t: State, c: CallId, f: BuildId, a: BuildId)
    requires CountsOk(s.builds, s.calls) && BeginsWait(s, t, c, f, a)
    ensures CountsOk(t.builds, t.calls)
  {
    hide WaitsOn;
    OneWaiterLess(t.calls, s.calls, c, f, a);
    forall x, y: nat | 0 <= x < |t.builds| ensures WaitCount(t.builds[x], y) == |Waiters(t.calls, x, y)| {
      assert WaitCount(s.builds[x], y) == |Waiters(s.calls, x, y)|;
    }
    hide Waiters, WaitCount;
  }

  lemma UncountedOk(s: State, t: State, c: CallId, f: BuildId, a: BuildId)
    requires CountsOk(s.builds, s.calls) && EndsWait(s, t, c, f, a)
    ensures CountsOk(t.builds, t.calls)
  {
    hide WaitsOn;
    OneWaiterLess(s.calls, t.calls, c, f, a);
    forall x, y: nat | 0 <= x < |t.builds| ensures WaitCount(t.builds[x], y) == |Waiters(t.calls, x, y)| {
      assert WaitCount(s.builds[x], y) == |Waiters(s.calls, x, y)|;
    }
    hide Waiters, WaitCount;
  }

  lemma OneWaiterLess(calls: seq<Call>, calls': seq<Call>, c: CallId, f: BuildId, a: BuildId)
    requires c < |calls| == |calls'| && calls[c].from == Some(f) == calls'[c].from
    requires WaitsOn(calls[c]) == Some(a) && WaitsOn(calls'[c]).None?
    requires forall i :: 0 <= i < |calls| && i != c ==> calls'[i] == calls[i]
    ensures |Waiters(calls', f, a)| == |Waiters(calls, f, a)| - 1
    ensures forall x, y :: x != f || y != a ==> Waiters(calls', x, y) == Waiters(calls, x, y)
  {
    hide WaitsOn;
    assert c in Waiters(calls, f, a);
    assert Waiters(calls', f, a) == Waiters(calls, f, a) - {c};
  }

  /** An attempt that waits on nothing reaches nothing but itself. */
  lemma NoWaitsNoPath(s: State, a: BuildId, y: BuildId)
    requires a < |s.builds| && s.builds[a].waits == map[]
    requires Reaches(Edges(s), a, y)
    ensures y == a
  {
    var n: nat :| ReachesIn(Edges(s), a, y, n);
    assert forall e :: e in Edges(s) ==> e.1 in s.builds[e.0].waits;
    ClosedSetHolds(Edges(s), {a}, a, y, n);
  }
}
