/** What release achieves: a value stays registered exactly as long as something
    outside reaches it, its cleanups run exactly once when nothing does, and
    before those of anything it was built from. */
module Collecting {
  import opened Paths
  import opened Generations

  // ---- Who holds what ----------------------------------------------------------

  /** The references values in live hold to one another. */
  ghost function DepsOf(live: set<Gen>): multiset<Gen>
    decreases live
  {
    if live == {} then multiset{}
    else
      var x :| x in live;
      multiset(x.deps) + DepsOf(live - {x})
  }

  lemma {:induction false} DepsSplit(live: set<Gen>, g: Gen)
    requires g in live
    ensures DepsOf(live) == multiset(g.deps) + DepsOf(live - {g})
    decreases live
  {
    var x :| x in live && DepsOf(live) == multiset(x.deps) + DepsOf(live - {x});
    if x != g {
      DepsSplit(live - {x}, g);
      DepsSplit(live - {g}, x);
      assert live - {x} - {g} == live - {g} - {x};
    }
  }

  lemma {:induction false} DepsHeld(live: set<Gen>, d: Gen)
    requires d in DepsOf(live)
    ensures exists x :: x in live && d in x.deps
    decreases live
  {
    var x :| x in live && DepsOf(live) == multiset(x.deps) + DepsOf(live - {x});
    if d !in x.deps { DepsHeld(live - {x}, d); }
  }

  /** Every count is the number of references: held from outside, or by values
      that have not begun to let go. busy lists those that have. */
  ghost predicate Balanced(h: Heap, gens: set<Gen>, held: multiset<Gen>, busy: set<Gen>)
  {
    && h.refs.Keys == gens && Older(gens) && busy <= h.live <= gens
    && (forall g :: g in gens ==> h.refs[g] == held[g] + DepsOf(h.live - busy)[g])
    && (forall g :: g in gens ==> (h.refs[g] > 0 <==> g in h.live - busy))
  }

  lemma DecrementBalanced(h: Heap, g: Gen, gens: set<Gen>, held: multiset<Gen>, busy: set<Gen>)
    requires g in gens && Balanced(h, gens, held + multiset{g}, busy)
    ensures g in h.live - busy
    ensures Decremented(h, g).refs[g] != 0 ==> Balanced(Decremented(h, g), gens, held, busy)
    ensures Decremented(h, g).refs[g] == 0 ==>
              Balanced(Decremented(h, g), gens, held + multiset(g.deps), busy + {g})
  {
    hide DepsOf;
    assert (held + multiset{g})[g] >= 1;
    if Decremented(h, g).refs[g] == 0 {
      LastBalanced(h, g, gens, held, busy);
    }
  }

  lemma LastBalanced(h: Heap, g: Gen, gens: set<Gen>, held: multiset<Gen>, busy: set<Gen>)
    requires g in gens && Balanced(h, gens, held + multiset{g}, busy) && h.refs[g] == 1
    ensures Balanced(Decremented(h, g), gens, held + multiset(g.deps), busy + {g})
  {
    hide DepsOf;
    DepsSplit(h.live - busy, g);
    assert h.live - busy - {g} == h.live - (busy + {g});
    var h1 := Decremented(h, g);
    forall x | x in gens
      ensures h1.refs[x] == (held + multiset(g.deps))[x] + DepsOf(h1.live - (busy + {g}))[x]
    {
      assert h.refs[x] == (held + multiset{g})[x] + DepsOf(h.live - busy)[x];
    }
  }

  lemma CalledBalanced(h: Heap, cs: seq<Closer>, k: nat, gens: set<Gen>, held: multiset<Gen>, busy: set<Gen>)
    requires k <= |cs| && Balanced(h, gens, held, busy)
    ensures Balanced(CalledAll(h, cs, k), gens, held, busy)
  {
    CalledAllKeys(h, cs, k);
  }

  lemma ForgetBalanced(h: Heap, g: Gen, gens: set<Gen>, held: multiset<Gen>, busy: set<Gen>)
    requires g !in busy && Balanced(h, gens, held, busy + {g})
    ensures Balanced(Checked(h.(live := h.live - {g})), gens, held, busy)
  {
    assert h.live - {g} - busy == h.live - (busy + {g});
  }

  /** Conservation: release takes away the one reference it was given, whatever it
      cascades to. */
  lemma {:induction false} ReleasedBalanced(h: Heap, g: Gen, gens: set<Gen>, held: multiset<Gen>, busy: set<Gen>)
    requires g in gens && Balanced(h, gens, held + multiset{g}, busy)
    ensures Balanced(Released(h, g, gens), gens, held, busy)
    decreases g.stamp, 1, 0
  {
    hide Balanced, CalledAll;
    assert Older(gens) && h.refs.Keys == gens by { BalancedWorld(h, gens, held + multiset{g}, busy); }
    DecrementBalanced(h, g, gens, held, busy);
    var h1 := Decremented(h, g);
    if h1.refs[g] == 0 {
      BalancedLive(h, g, gens, held + multiset{g}, busy);
      CalledAllKeys(h1, g.closers, |g.closers|);
      var h2 := CalledAll(h1, g.closers, |g.closers|);
      CalledBalanced(h1, g.closers, |g.closers|, gens, held + multiset(g.deps), busy + {g});
      assert g.deps[..|g.deps|] == g.deps;
      ReleasedAllBalanced(h2, g.deps, |g.deps|, g.stamp, gens, held, busy + {g});
      ForgetBalanced(ReleasedAll(h2, g.deps, |g.deps|, g.stamp, gens), g, gens, held, busy);
    }
  }

  lemma BalancedWorld(h: Heap, gens: set<Gen>, held: multiset<Gen>, busy: set<Gen>)
    requires Balanced(h, gens, held, busy)
    ensures Older(gens) && h.refs.Keys == gens
  {
  }

  lemma BalancedLive(h: Heap, g: Gen, gens: set<Gen>, held: multiset<Gen>, busy: set<Gen>)
    requires Balanced(h, gens, held, busy) && g in held && g in gens
    ensures g in h.live && g !in busy
  {
  }

  lemma {:induction false} ReleasedAllBalanced(h: Heap, gs: seq<Gen>, k: nat, bound: nat, gens: set<Gen>,
                                               held: multiset<Gen>, busy: set<Gen>)
    requires k <= |gs| && forall g :: g in gs ==> g in gens && g.stamp < bound
    requires Balanced(h, gens, held + multiset(gs[..k]), busy)
    ensures Older(gens) && h.refs.Keys == gens
    ensures Balanced(ReleasedAll(h, gs, k, bound, gens), gens, held, busy)
    decreases bound, 0, k
  {
    hide Balanced, Released;
    BalancedWorld(h, gens, held + multiset(gs[..k]), busy);
    if k == 0 {
      assert held + multiset(gs[..k]) == held;
    } else {
      assert gs[..k] == gs[..k - 1] + [gs[k - 1]];
      assert held + multiset(gs[..k]) == held + multiset(gs[..k - 1]) + multiset{gs[k - 1]};
      ReleasedBalanced(h, gs[k - 1], gens, held + multiset(gs[..k - 1]), busy);
      ReleasedAllBalanced(Released(h, gs[k - 1], gens), gs, k - 1, bound, gens, held, busy);
    }
  }

  // ---- What stays registered ------------------------------------------------------

  ghost function DepEdges(gens: set<Gen>): set<(Gen, Gen)>
  {
    set g, d | g in gens && d in g.deps :: (g, d)
  }

  /** Some reference from outside leads to g. */
  ghost predicate Held(gens: set<Gen>, held: multiset<Gen>, g: Gen)
  {
    exists e :: e in held && Reaches(DepEdges(gens), e, g)
  }

  lemma {:induction false} LiveIsHeld(h: Heap, g: Gen, gens: set<Gen>, held: multiset<Gen>, top: nat)
    requires Balanced(h, gens, held, {}) && g in h.live
    requires forall x :: x in gens ==> x.stamp < top
    ensures Held(gens, held, g)
    decreases top - g.stamp
  {
    hide DepsOf;
    assert h.live - {} == h.live;
    if g in held {
      ReachesSelf(DepEdges(gens), g);
    } else {
      DepsHeld(h.live, g);
      var x :| x in h.live && g in x.deps;
      LiveIsHeld(h, x, gens, held, top);
      var e :| e in held && Reaches(DepEdges(gens), e, x);
      ReachesStep(DepEdges(gens), e, (x, g));
    }
  }

  lemma LiveDownward(h: Heap, gens: set<Gen>, held: multiset<Gen>, busy: set<Gen>, x: Gen, d: Gen)
    requires Balanced(h, gens, held, busy) && x in h.live - busy && d in x.deps
    ensures d in h.live - busy
  {
    hide DepsOf;
    DepsSplit(h.live - busy, x);
    assert DepsOf(h.live - busy)[d] >= multiset(x.deps)[d];
  }

  lemma {:induction false} HeldIsLiveIn(h: Heap, gens: set<Gen>, held: multiset<Gen>, busy: set<Gen>,
                                        x: Gen, d: Gen, n: nat)
    requires Balanced(h, gens, held, busy) && x in h.live - busy && ReachesIn(DepEdges(gens), x, d, n)
    ensures d in h.live - busy
    decreases n
  {
    hide Balanced;
    if n > 0 {
      var e :| e in DepEdges(gens) && e.1 == d && ReachesIn(DepEdges(gens), x, e.0, n - 1);
      HeldIsLiveIn(h, gens, held, busy, x, e.0, n - 1);
      LiveDownward(h, gens, held, busy, e.0, d);
    }
  }

  /** A value is registered if and only if a reference from outside leads to it. */
  lemma LiveIffHeld(h: Heap, g: Gen, gens: set<Gen>, held: multiset<Gen>, top: nat)
    requires Balanced(h, gens, held, {}) && (forall x :: x in gens ==> x.stamp < top)
    requires forall x :: x in held ==> x in gens
    ensures g in h.live <==> Held(gens, held, g)
  {
    hide DepsOf;
    if g in h.live {
      LiveIsHeld(h, g, gens, held, top);
    }
    if Held(gens, held, g) {
      var e :| e in held && Reaches(DepEdges(gens), e, g);
      var n: nat :| ReachesIn(DepEdges(gens), e, g, n);
      BalancedLive(h, e, gens, held, {});
      HeldIsLiveIn(h, gens, held, {}, e, g, n);
    }
  }

  // ---- Cleanups -----------------------------------------------------------------------

  /** No cleanup function is registered twice. */
  ghost predicate Owned(gens: set<Gen>)
  {
    forall x, y, i, j :: x in gens && y in gens && 0 <= i < |x.closers| && 0 <= j < |y.closers| ==>
      x.closers[i] == y.closers[j] ==> x == y && i == j
  }

  /** c may not be called before b: b belongs to something built from c's owner. */
  ghost predicate Before(gens: set<Gen>, b: Closer, c: Closer)
  {
    exists x, d :: x in gens && d in gens && x != d && Reaches(DepEdges(gens), x, d)
                   && b in x.closers && c in d.closers
  }

  ghost predicate Ordered(gens: set<Gen>, calls: seq<Closer>)
  {
    forall i, j :: 0 <= i < j < |calls| ==> calls[i] != calls[j] && !Before(gens, calls[j], calls[i])
  }

  predicate Untouched(h: Heap, g: Gen)
  {
    forall c :: c in g.closers ==> c !in h.done
  }

  predicate Finished(h: Heap, g: Gen)
  {
    forall c :: c in g.closers ==> c in h.done
  }

  /** Registered values have had none of their cleanups called, all others every
      one, each once, and in an order in which nothing goes before what was built
      from it. */
  ghost predicate Tidy(h: Heap, gens: set<Gen>, busy: set<Gen>)
  {
    && (forall c :: c in h.done ==> c in h.calls)
    && (forall c :: c in h.calls ==> c in h.done)
    && (forall g :: g in gens ==> if g in h.live - busy then Untouched(h, g) else Finished(h, g))
    && Ordered(gens, h.calls)
  }

  function Backwards(cs: seq<Closer>, k: nat): seq<Closer>
    requires k <= |cs|
  {
    seq(k, i requires 0 <= i < k => cs[k - 1 - i])
  }

  /** Cleanups that nobody has called are all called, last first. */
  lemma {:induction false} CalledFresh(h: Heap, cs: seq<Closer>, k: nat)
    requires k <= |cs| && forall i, j :: 0 <= i < j < |cs| ==> cs[i] != cs[j]
    requires forall i :: 0 <= i < k ==> cs[i] !in h.done
    ensures var t := CalledAll(h, cs, k);
            && t.calls == h.calls + Backwards(cs, k)
            && (forall c :: c in t.done <==> c in h.done || c in cs[..k])
    decreases k
  {
    if k > 0 {
      CalledFresh(Called(h, cs[k - 1]), cs, k - 1);
      assert Backwards(cs, k) == [cs[k - 1]] + Backwards(cs, k - 1);
      assert cs[..k] == cs[..k - 1] + [cs[k - 1]];
    }
  }

  lemma OwnedApart(gens: set<Gen>, x: Gen, y: Gen, c: Closer)
    requires Owned(gens) && x in gens && y in gens && c in x.closers && c in y.closers
    ensures x == y
  {
    var i :| 0 <= i < |x.closers| && x.closers[i] == c;
    var j :| 0 <= j < |y.closers| && y.closers[j] == c;
    assert x.closers[i] == y.closers[j];
  }

  lemma TidyOwners(h: Heap, t: Heap, g: Gen, gens: set<Gen>, busy: set<Gen>)
    requires Owned(gens) && Tidy(h, gens, busy) && g in gens && g in h.live - busy && t.live == h.live
    requires forall c :: c in t.done <==> c in h.done || c in g.closers
    ensures forall x :: x in gens ==> if x in t.live - (busy + {g}) then Untouched(t, x) else Finished(t, x)
  {
    hide Owned, Ordered;
    forall x | x in gens ensures if x in t.live - (busy + {g}) then Untouched(t, x) else Finished(t, x) {
      if x in t.live - (busy + {g}) {
        forall c | c in x.closers ensures c !in t.done {
          if c in g.closers { OwnedApart(gens, x, g, c); }
        }
      }
    }
  }

  /** A cleanup of g may come after every call so far: what g was built from is
      still untouched. */
  lemma NotTooLate(h: Heap, g: Gen, gens: set<Gen>, held: multiset<Gen>, busy: set<Gen>, b: Closer, c: Closer)
    requires Balanced(h, gens, held, busy) && Tidy(h, gens, busy) && Owned(gens)
    requires g in gens && g in h.live - busy && b in g.closers && c in h.calls
    ensures b != c && !Before(gens, b, c)
  {
    hide Balanced, Owned, Ordered;
    if Before(gens, b, c) {
      var x, d :| x in gens && d in gens && x != d && Reaches(DepEdges(gens), x, d) && b in x.closers && c in d.closers;
      OwnedApart(gens, x, g, b);
      var n: nat :| ReachesIn(DepEdges(gens), g, d, n);
      HeldIsLiveIn(h, gens, held, busy, g, d, n);
    }
  }

  lemma OwnAfterOwn(gens: set<Gen>, g: Gen, i: nat, j: nat)
    requires Owned(gens) && g in gens && i < |g.closers| && j < |g.closers|
    ensures !Before(gens, g.closers[j], g.closers[i])
    ensures i != j ==> g.closers[i] != g.closers[j]
  {
    hide Reaches;
  }

  lemma TidyOrder(h: Heap, t: Heap, g: Gen, gens: set<Gen>, held: multiset<Gen>, busy: set<Gen>)
    requires Balanced(h, gens, held, busy) && Tidy(h, gens, busy) && Owned(gens)
    requires g in gens && g in h.live - busy
    requires t.calls == h.calls + Backwards(g.closers, |g.closers|)
    ensures Ordered(gens, t.calls)
  {
    hide Balanced, Owned, Before;
    var n := |h.calls|;
    forall i, j | 0 <= i < j < |t.calls| ensures t.calls[i] != t.calls[j] && !Before(gens, t.calls[j], t.calls[i]) {
      if j >= n {
        var k := |g.closers| - 1 - (j - n);
        assert t.calls[j] == g.closers[k];
        if i < n {
          assert t.calls[i] == h.calls[i];
          NotTooLate(h, g, gens, held, busy, t.calls[j], t.calls[i]);
        } else {
          assert t.calls[i] == g.closers[|g.closers| - 1 - (i - n)];
          OwnAfterOwn(gens, g, |g.closers| - 1 - (i - n), k);
        }
      } else {
        assert t.calls[i] == h.calls[i] && t.calls[j] == h.calls[j];
      }
    }
  }

  lemma TidyCalled(h: Heap, g: Gen, gens: set<Gen>, held: multiset<Gen>, busy: set<Gen>)
    requires Balanced(h, gens, held, busy) && Tidy(h, gens, busy) && Owned(gens)
    requires g in gens && g in h.live - busy
    ensures Tidy(CalledAll(Decremented(h, g), g.closers, |g.closers|), gens, busy + {g})
  {
    hide Balanced, CalledAll;
    BalancedWorld(h, gens, held, busy);
    var h1 := Decremented(h, g);
    var t := CalledAll(h1, g.closers, |g.closers|);
    assert forall i, j :: 0 <= i < j < |g.closers| ==> g.closers[i] != g.closers[j] by { hide Ordered; }
    assert Untouched(h, g) by { hide Ordered, Owned; }
    hide Owned, Ordered, Tidy;
    CalledFresh(h1, g.closers, |g.closers|);
    CalledAllKeys(h1, g.closers, |g.closers|);
    assert g.closers[..|g.closers|] == g.closers;
    TidyOwners(h, t, g, gens, busy);
    TidyOrder(h, t, g, gens, held, busy);
    TidyGlue(h, t, g, gens, busy);
  }

  lemma TidyGlue(h: Heap, t: Heap, g: Gen, gens: set<Gen>, busy: set<Gen>)
    requires Tidy(h, gens, busy) && Ordered(gens, t.calls)
    requires forall c :: c in t.done <==> c in h.done || c in g.closers
    requires t.calls == h.calls + Backwards(g.closers, |g.closers|)
    requires forall x :: x in gens ==> if x in t.live - (busy + {g}) then Untouched(t, x) else Finished(t, x)
    ensures Tidy(t, gens, busy + {g})
  {
    hide Ordered, Untouched, Finished;
    var n := |h.calls|;
    forall c | c in t.done ensures c in t.calls {
      if c in h.done {
        var i :| 0 <= i < n && h.calls[i] == c;
        assert t.calls[i] == c;
      } else {
        var i :| 0 <= i < |g.closers| && g.closers[i] == c;
        assert t.calls[n + (|g.closers| - 1 - i)] == c;
      }
    }
    forall c | c in t.calls ensures c in t.done {
      var i :| 0 <= i < |t.calls| && t.calls[i] == c;
      if i < n {
        assert h.calls[i] == c;
      } else {
        assert c == g.closers[|g.closers| - 1 - (i - n)];
      }
    }
  }

  lemma TidySame(h: Heap, t: Heap, gens: set<Gen>, busy: set<Gen>, busy': set<Gen>)
    requires Tidy(h, gens, busy) && t.done == h.done && t.calls == h.calls && t.live - busy' == h.live - busy
    ensures Tidy(t, gens, busy')
  {
    hide Ordered;
  }

  lemma {:induction false} ReleasedTidy(h: Heap, g: Gen, gens: set<Gen>, held: multiset<Gen>, busy: set<Gen>)
    requires g in gens && Balanced(h, gens, held + multiset{g}, busy) && Tidy(h, gens, busy) && Owned(gens)
    ensures Older(gens) && h.refs.Keys == gens
    ensures Tidy(Released(h, g, gens), gens, busy)
    decreases g.stamp, 1, 0
  {
    hide Balanced, CalledAll, Tidy, Owned;
    BalancedWorld(h, gens, held + multiset{g}, busy);
    DecrementBalanced(h, g, gens, held, busy);
    var h1 := Decremented(h, g);
    if h1.refs[g] != 0 {
      TidySame(h, h1, gens, busy, busy);
    } else {
      BalancedLive(h, g, gens, held + multiset{g}, busy);
      CalledAllKeys(h1, g.closers, |g.closers|);
      var h2 := CalledAll(h1, g.closers, |g.closers|);
      TidyCalled(h, g, gens, held + multiset{g}, busy);
      CalledBalanced(h1, g.closers, |g.closers|, gens, held + multiset(g.deps), busy + {g});
      assert g.deps[..|g.deps|] == g.deps;
      ReleasedAllTidy(h2, g.deps, |g.deps|, g.stamp, gens, held, busy + {g});
      var h3 := ReleasedAll(h2, g.deps, |g.deps|, g.stamp, gens);
      TidySame(h3, Checked(h3.(live := h3.live - {g})), gens, busy + {g}, busy);
    }
  }

  lemma {:induction false} ReleasedAllTidy(h: Heap, gs: seq<Gen>, k: nat, bound: nat, gens: set<Gen>,
                                           held: multiset<Gen>, busy: set<Gen>)
    requires k <= |gs| && forall g :: g in gs ==> g in gens && g.stamp < bound
    requires Balanced(h, gens, held + multiset(gs[..k]), busy) && Tidy(h, gens, busy) && Owned(gens)
    ensures Older(gens) && h.refs.Keys == gens
    ensures Tidy(ReleasedAll(h, gs, k, bound, gens), gens, busy)
    decreases bound, 0, k
  {
    hide Balanced, Released, Tidy, Owned;
    BalancedWorld(h, gens, held + multiset(gs[..k]), busy);
    if k > 0 {
      assert gs[..k] == gs[..k - 1] + [gs[k - 1]];
      assert held + multiset(gs[..k]) == held + multiset(gs[..k - 1]) + multiset{gs[k - 1]};
      ReleasedTidy(h, gs[k - 1], gens, held + multiset(gs[..k - 1]), busy);
      ReleasedBalanced(h, gs[k - 1], gens, held + multiset(gs[..k - 1]), busy);
      ReleasedAllTidy(Released(h, gs[k - 1], gens), gs, k - 1, bound, gens, held, busy);
    }
  }

  // ---- The drained channel ---------------------------------------------------------------

  /** drained is closed only when there is nothing left to wait for, ... */
  predicate Signals(h: Heap)
  {
    h.drained ==> h.closed && h.live == {} && h.inflight == {}
  }

  /** ... and as soon as there is nothing. */
  predicate Woken(h: Heap)
  {
    h.closed && h.live == {} && h.inflight == {} ==> h.drained
  }

  lemma {:induction false} ReleasedSignals(h: Heap, g: Gen, gens: set<Gen>)
    requires Older(gens) && g in gens && h.refs.Keys == gens && Signals(h)
    ensures Signals(Released(h, g, gens))
    ensures Woken(h) ==> Woken(Released(h, g, gens))
    decreases g.stamp, 1, 0
  {
    hide CalledAll, Older;
    var h1 := Decremented(h, g);
    if h1.refs[g] == 0 {
      OlderDeps(gens, g);
      CalledAllKeys(h1, g.closers, |g.closers|);
      ReleasedAllSignals(CalledAll(h1, g.closers, |g.closers|), g.deps, |g.deps|, g.stamp, gens);
    }
  }

  lemma OlderDeps(gens: set<Gen>, g: Gen)
    requires Older(gens) && g in gens
    ensures forall d :: d in g.deps ==> d in gens && d.stamp < g.stamp
  {
  }

  lemma {:induction false} ReleasedAllSignals(h: Heap, gs: seq<Gen>, k: nat, bound: nat, gens: set<Gen>)
    requires Older(gens) && h.refs.Keys == gens && k <= |gs| && Signals(h)
    requires forall g :: g in gs ==> g in gens && g.stamp < bound
    ensures Signals(ReleasedAll(h, gs, k, bound, gens))
    ensures Woken(h) ==> Woken(ReleasedAll(h, gs, k, bound, gens))
    decreases bound, 0, k
  {
    hide Released, Older;
    if k > 0 {
      ReleasedSignals(h, gs[k - 1], gens);
      ReleasedAllSignals(Released(h, gs[k - 1], gens), gs, k - 1, bound, gens);
    }
  }

  // ---- Building ------------------------------------------------------------------------------

  /** newGen turns the references a scope collected into one: the provider's. */
  lemma RegisteredBalanced(h: Heap, g: Gen, gens: set<Gen>, held: multiset<Gen>)
    requires g !in gens && Balanced(h, gens, held + multiset(g.deps), {})
    requires forall d :: d in g.deps ==> d in gens && d.stamp < g.stamp
    requires forall x :: x in held ==> x in gens
    ensures Balanced(Registered(h, g), gens + {g}, held + multiset{g}, {})
  {
    hide DepsOf, Older;
    var t := Registered(h, g);
    assert t.live - {} == t.live && h.live - {} == h.live;
    NewGenApart(h, g, gens, held);
    forall x | x in gens + {g}
      ensures t.refs[x] == (held + multiset{g})[x] + DepsOf(t.live)[x] && (t.refs[x] > 0 <==> x in t.live)
    {
      RegisteredCount(h, g, gens, held, x);
    }
    OlderWith(gens, g);
  }

  lemma NewGenApart(h: Heap, g: Gen, gens: set<Gen>, held: multiset<Gen>)
    requires g !in gens && Older(gens) && h.live <= gens
    ensures g !in DepsOf(h.live) && DepsOf(h.live + {g}) == multiset(g.deps) + DepsOf(h.live)
  {
    DepsSplit(h.live + {g}, g);
    assert h.live + {g} - {g} == h.live;
    if g in DepsOf(h.live) { DepsHeld(h.live, g); }
  }

  lemma OlderWith(gens: set<Gen>, g: Gen)
    requires Older(gens) && forall d :: d in g.deps ==> d in gens && d.stamp < g.stamp
    ensures Older(gens + {g})
  {
  }

  lemma RegisteredCount(h: Heap, g: Gen, gens: set<Gen>, held: multiset<Gen>, x: Gen)
    requires g !in gens && Balanced(h, gens, held + multiset(g.deps), {}) && x in gens + {g}
    requires g !in g.deps && g !in held && g !in DepsOf(h.live)
    ensures Registered(h, g).refs[x] == (held + multiset{g})[x] + (multiset(g.deps) + DepsOf(h.live))[x]
    ensures Registered(h, g).refs[x] > 0 <==> x in h.live + {g}
  {
    hide DepsOf, Older;
    assert h.live - {} == h.live;
    if x != g {
      assert h.refs[x] == (held + multiset(g.deps))[x] + DepsOf(h.live)[x];
    }
  }

  // ---- The result ---------------------------------------------------------------------------

  /** release gives back one reference. Afterwards a value is registered if and
      only if some other reference from outside leads to it; registered values are
      untouched, and every cleanup of all others has been called once, dependents
      before what they were built from. */
  lemma ReleaseCollects(h: Heap, g: Gen, gens: set<Gen>, held: multiset<Gen>, top: nat, x: Gen)
    requires g in gens && Balanced(h, gens, held + multiset{g}, {}) && Tidy(h, gens, {}) && Owned(gens) && Signals(h)
    requires (forall y :: y in gens ==> y.stamp < top) && (forall y :: y in held ==> y in gens)
    ensures Older(gens) && h.refs.Keys == gens
    ensures var t := Released(h, g, gens);
            && Balanced(t, gens, held, {}) && Tidy(t, gens, {}) && Signals(t) && (Woken(h) ==> Woken(t))
            && (x in t.live <==> x in gens && Held(gens, held, x))
  {
    hide Balanced, Tidy, Owned, Released, Held;
    BalancedWorld(h, gens, held + multiset{g}, {});
    ReleasedBalanced(h, g, gens, held, {});
    ReleasedTidy(h, g, gens, held, {});
    ReleasedSignals(h, g, gens);
    var t := Released(h, g, gens);
    LiveIffHeld(t, x, gens, held, top);
    LiveKnown(t, gens, held);
  }

  lemma LiveKnown(h: Heap, gens: set<Gen>, held: multiset<Gen>)
    requires Balanced(h, gens, held, {})
    ensures h.live <= gens
  {
  }

  /** All of the above at rest. */
  ghost predicate Sound(h: Heap, gens: set<Gen>, held: multiset<Gen>)
  {
    Balanced(h, gens, held, {}) && Tidy(h, gens, {}) && Signals(h) && Owned(gens)
  }

  lemma ReleasedSound(h: Heap, g: Gen, gens: set<Gen>, held: multiset<Gen>)
    requires g in gens && Sound(h, gens, held + multiset{g})
    ensures Older(gens) && h.refs.Keys == gens
    ensures Sound(Released(h, g, gens), gens, held)
  {
    hide Balanced, Tidy, Owned, Released, Signals;
    BalancedWorld(h, gens, held + multiset{g}, {});
    ReleasedBalanced(h, g, gens, held, {});
    ReleasedTidy(h, g, gens, held, {});
    ReleasedSignals(h, g, gens);
  }

  /** With no reference left from outside, nothing is registered and every cleanup
      has been called. */
  lemma NothingHeld(h: Heap, gens: set<Gen>, top: nat)
    requires Sound(h, gens, multiset{}) && forall y :: y in gens ==> y.stamp < top
    ensures h.live == {} && forall g :: g in gens ==> Finished(h, g)
  {
    hide Balanced, Ordered, Owned, Untouched, Finished;
    LiveKnown(h, gens, multiset{});
    forall g | g in gens ensures g !in h.live {
      LiveIffHeld(h, g, gens, multiset{}, top);
    }
  }

  lemma AcquiredBalanced(h: Heap, g: Gen, gens: set<Gen>, held: multiset<Gen>)
    requires g in gens && Balanced(h, gens, held, {}) && h.refs[g] > 0
    ensures Balanced(h.(refs := h.refs[g := h.refs[g] + 1]), gens, held + multiset{g}, {})
  {
    hide DepsOf;
    assert h.live - {} == h.live;
  }

  /** acquire, when it succeeds, adds one reference to those held from outside and
      changes nothing else. */
  lemma AcquiredSound(h: Heap, g: Gen, gens: set<Gen>, held: multiset<Gen>)
    requires g in gens && Sound(h, gens, held) && h.refs.Keys == gens && h.refs[g] > 0
    ensures Sound(h.(refs := h.refs[g := h.refs[g] + 1]), gens, held + multiset{g})
  {
    hide Balanced, Ordered, Owned, Untouched, Finished;
    AcquiredBalanced(h, g, gens, held);
    TidySame(h, h.(refs := h.refs[g := h.refs[g] + 1]), gens, {}, {});
  }

  /** A value somebody holds can be acquired. */
  lemma HeldCanBeAcquired(h: Heap, g: Gen, gens: set<Gen>, held: multiset<Gen>)
    requires g in gens && g in held && Sound(h, gens, held)
    ensures h.refs.Keys == gens && h.refs[g] > 0
  {
    hide DepsOf, Tidy, Owned;
    BalancedLive(h, g, gens, held, {});
  }
}
