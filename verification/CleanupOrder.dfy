/** In which order a release calls the cleanups of what it lets go: its own first,
    then those of what was read last, and so on back to what was read first. */
module CleanupOrder {
  import opened Generations
  import opened Collecting

  ghost predicate NoRepeats(calls: seq<Closer>)
  {
    forall i, j :: 0 <= i < j < |calls| ==> calls[i] != calls[j]
  }

  /** Every cleanup of x and of y has been called, those of x before those of y. */
  ghost predicate CleanedFirst(calls: seq<Closer>, x: Gen, y: Gen)
  {
    && (forall c :: c in x.closers ==> c in calls)
    && (forall c :: c in y.closers ==> c in calls)
    && (forall i, j :: 0 <= i < |calls| && 0 <= j < |calls| && calls[i] in x.closers && calls[j] in y.closers ==>
          i < j)
  }

  lemma PlaceIn(calls: seq<Closer>, more: seq<Closer>, i: nat)
    requires calls <= more && NoRepeats(more) && i < |more| && more[i] in calls
    ensures i < |calls|
  {
    var k :| 0 <= k < |calls| && calls[k] == more[i];
    assert more[k] == more[i];
  }

  /** x is cleaned up before y if at some moment all of x has been and nothing of y. */
  lemma FirstBy(calls: seq<Closer>, more: seq<Closer>, x: Gen, y: Gen)
    requires calls <= more && NoRepeats(more)
    requires forall c :: c in x.closers ==> c in calls
    requires forall c :: c in y.closers ==> c !in calls && c in more
    ensures CleanedFirst(more, x, y)
  {
    forall c | c in calls ensures c in more { InLonger(calls, more, c); }
    assert forall j :: 0 <= j < |calls| ==> more[j] in calls;
    forall i, j | 0 <= i < |more| && 0 <= j < |more| && more[i] in x.closers && more[j] in y.closers
      ensures i < j
    {
      PlaceIn(calls, more, i);
    }
  }

  lemma InLonger(calls: seq<Closer>, more: seq<Closer>, c: Closer)
    requires calls <= more && c in calls
    ensures c in more
  {
    var k :| 0 <= k < |calls| && calls[k] == c;
    assert more[k] == c;
  }

  lemma FirstStays(calls: seq<Closer>, more: seq<Closer>, x: Gen, y: Gen)
    requires calls <= more && NoRepeats(more) && CleanedFirst(calls, x, y)
    ensures CleanedFirst(more, x, y)
  {
    forall c | c in calls ensures c in more { InLonger(calls, more, c); }
    forall i, j | 0 <= i < |more| && 0 <= j < |more| && more[i] in x.closers && more[j] in y.closers
      ensures i < j
    {
      PlaceIn(calls, more, i);
      PlaceIn(calls, more, j);
      assert calls[i] == more[i] && calls[j] == more[j];
    }
  }

  // ---- What a release can only add to ---------------------------------------------

  /** Counts fall, calls are added at the end. */
  ghost predicate Grown(h: Heap, t: Heap)
  {
    && t.refs.Keys == h.refs.Keys && (forall x :: x in h.refs ==> t.refs[x] <= h.refs[x])
    && h.calls <= t.calls && h.done <= t.done
  }

  lemma GrownTwice(h: Heap, t: Heap, u: Heap)
    requires Grown(h, t) && Grown(t, u)
    ensures Grown(h, u)
  {
  }

  lemma {:induction false} CalledAllGrows(h: Heap, cs: seq<Closer>, k: nat)
    requires k <= |cs|
    ensures Grown(h, CalledAll(h, cs, k))
    decreases k
  {
    if k > 0 { CalledAllGrows(Called(h, cs[k - 1]), cs, k - 1); }
  }

  lemma {:induction false} ReleasedGrows(h: Heap, g: Gen, gens: set<Gen>)
    requires Older(gens) && g in gens && h.refs.Keys == gens
    ensures Grown(h, Released(h, g, gens)) && Released(h, g, gens).refs[g] < h.refs[g]
    decreases g.stamp, 1, 0
  {
    hide CalledAll, Older;
    var h1 := Decremented(h, g);
    assert Grown(h, h1);
    if h1.refs[g] == 0 {
      OlderDeps(gens, g);
      var h2 := CalledAll(h1, g.closers, |g.closers|);
      CalledAllKeys(h1, g.closers, |g.closers|);
      CalledAllGrows(h1, g.closers, |g.closers|);
      ReleasedAllGrows(h2, g.deps, |g.deps|, g.stamp, gens);
    }
  }

  lemma {:induction false} ReleasedAllGrows(h: Heap, gs: seq<Gen>, k: nat, bound: nat, gens: set<Gen>)
    requires Older(gens) && h.refs.Keys == gens && k <= |gs|
    requires forall g :: g in gs ==> g in gens && g.stamp < bound
    ensures Grown(h, ReleasedAll(h, gs, k, bound, gens))
    decreases bound, 0, k
  {
    hide Released, Older;
    if k > 0 {
      ReleasedGrows(h, gs[k - 1], gens);
      ReleasedAllGrows(Released(h, gs[k - 1], gens), gs, k - 1, bound, gens);
    }
  }

  // ---- The order -------------------------------------------------------------------

  /** Balanced and tidy, with the references in held and those of gs from outside. */
  ghost predicate Releasing(h: Heap, gs: seq<Gen>, gens: set<Gen>, held: multiset<Gen>, busy: set<Gen>)
  {
    Balanced(h, gens, held + multiset(gs), busy) && Tidy(h, gens, busy) && Owned(gens)
  }

  lemma ReleasingOne(h: Heap, t: Heap, gs: seq<Gen>, gens: set<Gen>, held: multiset<Gen>, busy: set<Gen>)
    requires gs != [] && gs[|gs| - 1] in gens && Releasing(h, gs, gens, held, busy)
    requires Older(gens) && h.refs.Keys == gens && t == Released(h, gs[|gs| - 1], gens)
    ensures Releasing(t, gs[..|gs| - 1], gens, held, busy)
  {
    hide Balanced, Tidy, Owned, Released;
    var k := |gs| - 1;
    assert gs == gs[..k] + [gs[k]];
    assert held + multiset(gs) == held + multiset(gs[..k]) + multiset{gs[k]};
    ReleasedTidy(h, gs[k], gens, held + multiset(gs[..k]), busy);
    ReleasedBalanced(h, gs[k], gens, held + multiset(gs[..k]), busy);
  }

  /** What is still to be released is untouched, and its count positive. */
  lemma StillHeld(h: Heap, gs: seq<Gen>, gens: set<Gen>, held: multiset<Gen>, busy: set<Gen>, i: nat)
    requires i < |gs| && gs[i] in gens && Releasing(h, gs, gens, held, busy)
    ensures gs[i] in h.refs && h.refs[gs[i]] > 0 && Untouched(h, gs[i])
  {
    hide DepsOf, Owned, Ordered, Untouched, Finished;
    assert gs[i] in multiset(gs);
    assert gs[i] in held + multiset(gs);
    BalancedLive(h, gs[i], gens, held + multiset(gs), busy);
  }

  /** Releasing the last reference to a value calls all its cleanups. */
  lemma LastReference(h: Heap, t: Heap, gs: seq<Gen>, gens: set<Gen>, held: multiset<Gen>, busy: set<Gen>)
    requires gs != [] && gs[|gs| - 1] in gens && Releasing(h, gs, gens, held, busy)
    requires Older(gens) && h.refs.Keys == gens && t == Released(h, gs[|gs| - 1], gens)
    requires h.refs[gs[|gs| - 1]] == 1
    ensures forall c :: c in gs[|gs| - 1].closers ==> c in t.calls
  {
    hide DepsOf, Owned, Ordered, Untouched, Released;
    ReleasedGrows(h, gs[|gs| - 1], gens);
    ReleasingOne(h, t, gs, gens, held, busy);
    assert Finished(t, gs[|gs| - 1]);
  }

  lemma TidyNoRepeats(h: Heap, gens: set<Gen>, busy: set<Gen>)
    requires Tidy(h, gens, busy)
    ensures NoRepeats(h.calls)
  {
    hide Before, Untouched, Finished;
  }

  lemma {:induction false} AllCalled(h: Heap, gs: seq<Gen>, k: nat, bound: nat, gens: set<Gen>, held: multiset<Gen>,
                                     busy: set<Gen>, i: nat)
    requires i < k <= |gs| && Older(gens) && h.refs.Keys == gens && forall g :: g in gs ==> g in gens && g.stamp < bound
    requires Releasing(h, gs[..k], gens, held, busy) && h.refs[gs[i]] == 1
    ensures forall c :: c in gs[i].closers ==> c in ReleasedAll(h, gs, k, bound, gens).calls
    decreases k
  {
    hide Releasing, Released, Older;
    var t := Released(h, gs[k - 1], gens);
    assert gs[..k][..k - 1] == gs[..k - 1] && gs[..k][k - 1] == gs[k - 1];
    ReleasedGrows(h, gs[k - 1], gens);
    ReleasingOne(h, t, gs[..k], gens, held, busy);
    if i == k - 1 {
      LastReference(h, t, gs[..k], gens, held, busy);
      ReleasedAllGrows(t, gs, k - 1, bound, gens);
      forall c | c in gs[i].closers ensures c in ReleasedAll(t, gs, k - 1, bound, gens).calls {
        InLonger(t.calls, ReleasedAll(t, gs, k - 1, bound, gens).calls, c);
      }
    } else {
      StillHeld(t, gs[..k - 1], gens, held, busy, i);
      AllCalled(t, gs, k - 1, bound, gens, held, busy, i);
    }
  }

  lemma ReleasingEnds(h: Heap, gs: seq<Gen>, k: nat, bound: nat, gens: set<Gen>, held: multiset<Gen>, busy: set<Gen>)
    requires k <= |gs| && Older(gens) && h.refs.Keys == gens && forall g :: g in gs ==> g in gens && g.stamp < bound
    requires Releasing(h, gs[..k], gens, held, busy)
    ensures NoRepeats(ReleasedAll(h, gs, k, bound, gens).calls)
  {
    hide Balanced, Tidy, Owned, ReleasedAll;
    ReleasedAllTidy(h, gs, k, bound, gens, held, busy);
    TidyNoRepeats(ReleasedAll(h, gs, k, bound, gens), gens, busy);
  }

  /** releaseAll on the first k: of two values held by nothing else, the later one
      is cleaned up first. */
  lemma {:induction false} AllInOrder(h: Heap, gs: seq<Gen>, k: nat, bound: nat, gens: set<Gen>, held: multiset<Gen>,
                                      busy: set<Gen>, i: nat, j: nat)
    requires i < j < k <= |gs| && Older(gens) && h.refs.Keys == gens
    requires forall g :: g in gs ==> g in gens && g.stamp < bound
    requires Releasing(h, gs[..k], gens, held, busy) && h.refs[gs[i]] == 1 && h.refs[gs[j]] == 1
    ensures CleanedFirst(ReleasedAll(h, gs, k, bound, gens).calls, gs[j], gs[i])
    decreases k
  {
    hide Releasing, Released, Older, CleanedFirst, NoRepeats;
    var t := Released(h, gs[k - 1], gens);
    assert gs[..k][..k - 1] == gs[..k - 1] && gs[..k][k - 1] == gs[k - 1];
    ReleasedGrows(h, gs[k - 1], gens);
    ReleasingOne(h, t, gs[..k], gens, held, busy);
    StillHeld(t, gs[..k - 1], gens, held, busy, i);
    if j == k - 1 {
      LastReference(h, t, gs[..k], gens, held, busy);
      LastThenFirst(t, gs, k - 1, bound, gens, held, busy, i, gs[j]);
    } else {
      StillHeld(t, gs[..k - 1], gens, held, busy, j);
      AllInOrder(t, gs, k - 1, bound, gens, held, busy, i, j);
    }
  }

  lemma LastThenFirst(t: Heap, gs: seq<Gen>, k: nat, bound: nat, gens: set<Gen>, held: multiset<Gen>, busy: set<Gen>,
                      i: nat, x: Gen)
    requires i < k <= |gs| && Older(gens) && t.refs.Keys == gens
    requires forall g :: g in gs ==> g in gens && g.stamp < bound
    requires Releasing(t, gs[..k], gens, held, busy) && t.refs[gs[i]] == 1
    requires (forall c :: c in x.closers ==> c in t.calls) && Untouched(t, gs[i])
    ensures CleanedFirst(ReleasedAll(t, gs, k, bound, gens).calls, x, gs[i])
  {
    assert forall c :: c in t.calls ==> c in t.done by { hide Balanced, Owned, Ordered, Untouched, Finished; }
    hide Releasing, ReleasedAll, Older, CleanedFirst, NoRepeats;
    AllCalled(t, gs, k, bound, gens, held, busy, i);
    ReleasingEnds(t, gs, k, bound, gens, held, busy);
    ReleasedAllGrows(t, gs, k, bound, gens);
    FirstBy(t.calls, ReleasedAll(t, gs, k, bound, gens).calls, x, gs[i]);
  }

  /** Releasing all references of a scope: of two values held by nothing else, the
      one read later is cleaned up first. */
  lemma ReleasedAllInOrder(h: Heap, gs: seq<Gen>, bound: nat, gens: set<Gen>, held: multiset<Gen>, i: nat, j: nat)
    requires (forall g :: g in gs ==> g in gens && g.stamp < bound) && Sound(h, gens, held + multiset(gs))
    requires i < j < |gs| && h.refs.Keys == gens && h.refs[gs[i]] == 1 && h.refs[gs[j]] == 1
    ensures Older(gens) && CleanedFirst(ReleasedAll(h, gs, |gs|, bound, gens).calls, gs[j], gs[i])
  {
    hide Balanced, Tidy, Owned, ReleasedAll, CleanedFirst;
    BalancedWorld(h, gens, held + multiset(gs), {});
    assert gs[..|gs|] == gs;
    AllInOrder(h, gs, |gs|, bound, gens, held, {}, i, j);
  }

  /** A value's last release: its own cleanups come first, the last registered at
      their head. */
  lemma ReleasedOwnFirst(h: Heap, g: Gen, gens: set<Gen>, held: multiset<Gen>)
    requires g in gens && Sound(h, gens, held + multiset{g}) && h.refs.Keys == gens && h.refs[g] == 1
    ensures Older(gens) && h.calls + Backwards(g.closers, |g.closers|) <= Released(h, g, gens).calls
  {
    hide Balanced, CalledAll, Tidy, Owned, ReleasedAll;
    BalancedWorld(h, gens, held + multiset{g}, {});
    OwnCalls(h, g, gens, held);
    var h1 := Decremented(h, g);
    CalledAllKeys(h1, g.closers, |g.closers|);
    OlderDeps(gens, g);
    ReleasedAllGrows(CalledAll(h1, g.closers, |g.closers|), g.deps, |g.deps|, g.stamp, gens);
  }

  lemma OwnCalls(h: Heap, g: Gen, gens: set<Gen>, held: multiset<Gen>)
    requires g in gens && Sound(h, gens, held + multiset{g}) && h.refs.Keys == gens
    ensures CalledAll(Decremented(h, g), g.closers, |g.closers|).calls == h.calls + Backwards(g.closers, |g.closers|)
  {
    assert forall i, j :: 0 <= i < j < |g.closers| ==> g.closers[i] != g.closers[j] by { hide Balanced, Tidy; }
    hide DepsOf, Owned, Ordered, CalledAll;
    BalancedLive(h, g, gens, held + multiset{g}, {});
    assert Untouched(h, g);
    CalledFresh(Decremented(h, g), g.closers, |g.closers|);
  }

  /** Then what it was built from, in the order opposite to that of the reads: of two
      values that only g holds, the one read later is cleaned up first. */
  lemma ReleasedInOrder(h: Heap, g: Gen, gens: set<Gen>, held: multiset<Gen>, i: nat, j: nat)
    requires g in gens && Sound(h, gens, held + multiset{g}) && h.refs.Keys == gens && h.refs[g] == 1
    requires i < j < |g.deps| && g.deps[i] in gens && g.deps[j] in gens
    requires h.refs[g.deps[i]] == 1 && h.refs[g.deps[j]] == 1
    ensures Older(gens) && CleanedFirst(Released(h, g, gens).calls, g.deps[j], g.deps[i])
  {
    hide Balanced, CalledAll, Tidy, Owned, ReleasedAll, CleanedFirst;
    BalancedWorld(h, gens, held + multiset{g}, {});
    OlderDeps(gens, g);
    var h1 := Decremented(h, g);
    var h2 := CalledAll(h1, g.closers, |g.closers|);
    CalledAllKeys(h1, g.closers, |g.closers|);
    LettingGo(h, g, gens, held);
    assert g.deps[..|g.deps|] == g.deps;
    AllInOrder(h2, g.deps, |g.deps|, g.stamp, gens, held, {g}, i, j);
  }

  lemma LettingGo(h: Heap, g: Gen, gens: set<Gen>, held: multiset<Gen>)
    requires g in gens && Sound(h, gens, held + multiset{g}) && h.refs.Keys == gens && h.refs[g] == 1
    ensures Releasing(CalledAll(Decremented(h, g), g.closers, |g.closers|), g.deps, gens, held, {g})
  {
    hide Balanced, CalledAll, Tidy, Owned;
    DecrementBalanced(h, g, gens, held, {});
    BalancedLive(h, g, gens, held + multiset{g}, {});
    assert {} + {g} == {g};
    TidyCalled(h, g, gens, held + multiset{g}, {});
    CalledBalanced(Decremented(h, g), g.closers, |g.closers|, gens, held + multiset(g.deps), {g});
  }
}
