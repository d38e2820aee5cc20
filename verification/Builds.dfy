/** Scopes, and how a finished attempt hands what its builder collected either to
    a new generation or back. */
module Builds {
  import opened Paths
  import opened Generations
  import opened Collecting
  import opened CleanupOrder
  import opened Providers
  import S = State

  /** What one run of a builder collects. */
  class Scope {
    var done: bool
    var closers: seq<Closer>
    var deps: seq<Gen>

    constructor ()
      ensures !done && closers == [] && deps == []
    {
      done, closers, deps := false, [], [];
    }

    /** Refused once the builder has returned. */
    method OnClose(c: Closer) returns (ok: bool)
      modifies this`closers
      ensures ok <==> !done
      ensures closers == if ok then old(closers) + [c] else old(closers)
    {
      if done {
        return false;
      }
      closers := closers + [c];
      return true;
    }
  }

  class Lease {
    const of: Gen
    var released: bool

    constructor (g: Gen)
      ensures of == g && !released
    {
      of, released := g, false;
    }

    /** Gives the reference back on the first call; extra calls do nothing. */
    method Release(ghost gens: set<Gen>, ghost all: set<Closer>, ghost held: multiset<Gen>) returns (errs: seq<nat>)
      requires World(gens, all, of.graph) && of in gens
      requires Sound(Snap(gens, all, of.graph), gens, held + (if released then multiset{} else multiset{of}))
      modifies this`released, gens`refs, all, of.graph`live, of.graph`drained, of.graph`calls
      ensures released && Sound(Snap(gens, all, of.graph), gens, held)
      ensures old(released) ==> errs == [] && Snap(gens, all, of.graph) == old(Snap(gens, all, of.graph))
      ensures Reported(old(of.graph.calls), of.graph.calls, errs)
    {
      hide World, Sound, Snap, Reported;
      if released {
        assert held + multiset{} == held;
        NothingReported(of.graph.calls);
        return [];
      }
      released := true;
      ReleasedSound(Snap(gens, all, of.graph), of, gens, held);
      errs := of.Release(gens, all);
    }
  }

  // ---- Reading a current value ---------------------------------------------------

  /** get's fast path, run alone: a current value can always be acquired, for its
      provider holds it, and the reader then has a reference of its own. */
  method TakeCurrent(n: Node, ghost nodes: set<Node>, ghost gens: set<Gen>, ghost all: set<Closer>,
                     ghost held: multiset<Gen>)
    returns (r: S.Option<Gen>)
    requires n in nodes && Wired(Look(nodes), gens, n.graph) && World(gens, all, n.graph)
    requires Sound(Snap(gens, all, n.graph), gens, held + Slots(Look(nodes)))
    modifies gens`refs
    ensures r == n.val && Look(nodes) == old(Look(nodes))
    ensures Sound(Snap(gens, all, n.graph), gens, held + One(r) + Slots(Look(nodes)))
  {
    hide World, Wired, Sound, Snap, Slots, Look;
    LookAt(nodes, n);
    CurrentIsHeld(Look(nodes), n, gens, n.graph, held, Snap(gens, all, n.graph));
    if n.val == S.None {
      assert held + One(S.None) + Slots(Look(nodes)) == held + Slots(Look(nodes));
      return S.None;
    }
    var g := n.val.value;
    WorldOlder(gens, all, n.graph, g);
    SnapFields(gens, all, n.graph, g);
    AcquiredSound(Snap(gens, all, n.graph), g, gens, held + Slots(Look(nodes)));
    var ok := g.Acquire(gens, all);
    assert held + One(n.val) + Slots(Look(nodes)) == held + Slots(Look(nodes)) + multiset{g};
    r := if ok then S.Some(g) else S.None;
  }

  lemma CurrentIsHeld(m: map<Node, Slot>, n: Node, gens: set<Gen>, gr: Graph, held: multiset<Gen>, h: Heap)
    requires n in m && Wired(m, gens, gr) && Sound(h, gens, held + Slots(m))
    ensures m[n].val.Some? ==>
              m[n].val.value in gens && h.refs.Keys == gens && h.refs[m[n].val.value] > 0
  {
    hide Sound, Slots;
    if m[n].val.Some? {
      SlotTaken(m, n, m[n].(val := S.None));
      HeldCanBeAcquired(h, m[n].val.value, gens, held + Slots(m));
    }
  }

  /** Acquire, on a current value: the reference becomes the lease's. */
  method Acquire(n: Node, ghost nodes: set<Node>, ghost gens: set<Gen>, ghost all: set<Closer>,
                 ghost held: multiset<Gen>)
    returns (l: S.Option<Lease>)
    requires n in nodes && Wired(Look(nodes), gens, n.graph) && World(gens, all, n.graph)
    requires Sound(Snap(gens, all, n.graph), gens, held + Slots(Look(nodes)))
    modifies gens`refs
    ensures l.Some? <==> n.val.Some?
    ensures l.Some? ==> fresh(l.value) && !l.value.released && n.val == S.Some(l.value.of)
    ensures Sound(Snap(gens, all, n.graph), gens, held + One(n.val) + Slots(Look(nodes)))
  {
    hide World, Wired, Sound, Snap, Slots, Look;
    var r := TakeCurrent(n, nodes, gens, all, held);
    if r.None? {
      return S.None;
    }
    var lease := new Lease(r.value);
    return S.Some(lease);
  }

  // ---- Cleanups of a build that is discarded -----------------------------------

  /** Cleanups no value owns and nobody has called, each registered once. */
  ghost predicate Loose(h: Heap, gens: set<Gen>, cs: seq<Closer>)
  {
    && (forall i, j :: 0 <= i < j < |cs| ==> cs[i] != cs[j])
    && (forall c :: c in cs ==> c !in h.done)
    && (forall c, g :: c in cs && g in gens ==> c !in g.closers)
  }

  lemma LooseOrder(h: Heap, gens: set<Gen>, cs: seq<Closer>)
    requires Tidy(h, gens, {}) && Loose(h, gens, cs)
    ensures Ordered(gens, h.calls + Backwards(cs, |cs|))
  {
    hide Reaches, Untouched, Finished, DepEdges;
    var n, calls := |h.calls|, h.calls + Backwards(cs, |cs|);
    forall i, j | 0 <= i < j < |calls| ensures calls[i] != calls[j] && !Before(gens, calls[j], calls[i]) {
      if j >= n {
        assert calls[j] == cs[|cs| - 1 - (j - n)] && calls[j] in cs;
        if i < n {
          assert calls[i] == h.calls[i] && calls[i] in h.calls;
        } else {
          assert calls[i] == cs[|cs| - 1 - (i - n)];
        }
      } else {
        assert calls[i] == h.calls[i] && calls[j] == h.calls[j];
      }
    }
  }

  lemma LooseTidy(h: Heap, t: Heap, gens: set<Gen>, cs: seq<Closer>)
    requires Tidy(h, gens, {}) && Loose(h, gens, cs) && t == CalledAll(h, cs, |cs|)
    ensures Tidy(t, gens, {}) && forall c :: c in cs ==> c in t.done
  {
    hide CalledAll, Ordered;
    CalledFresh(h, cs, |cs|);
    CalledAllKeys(h, cs, |cs|);
    assert cs[..|cs|] == cs;
    LooseOrder(h, gens, cs);
    forall c | c in t.done ensures c in t.calls {
      if c in cs {
        var i :| 0 <= i < |cs| && cs[i] == c;
        assert t.calls[|h.calls| + (|cs| - 1 - i)] == c;
      }
    }
    forall c | c in t.calls ensures c in t.done {
      if c !in h.calls { assert c in Backwards(cs, |cs|); }
    }
  }

  lemma LooseSound(h: Heap, gens: set<Gen>, held: multiset<Gen>, cs: seq<Closer>)
    requires Sound(h, gens, held) && Loose(h, gens, cs)
    ensures Sound(CalledAll(h, cs, |cs|), gens, held)
    ensures forall c :: c in cs ==> c in CalledAll(h, cs, |cs|).done
  {
    hide Balanced, Tidy, Owned, CalledAll, Loose;
    LooseTidy(h, CalledAll(h, cs, |cs|), gens, cs);
    CalledBalanced(h, cs, |cs|, gens, held, {});
    CalledAllKeys(h, cs, |cs|);
  }

  lemma ReleasedAllSound(h: Heap, gs: seq<Gen>, bound: nat, gens: set<Gen>, held: multiset<Gen>)
    requires forall g :: g in gs ==> g in gens && g.stamp < bound
    requires Sound(h, gens, held + multiset(gs))
    ensures Older(gens) && h.refs.Keys == gens
    ensures Sound(ReleasedAll(h, gs, |gs|, bound, gens), gens, held)
  {
    hide Balanced, Tidy, Owned, ReleasedAll, Signals, Woken;
    BalancedWorld(h, gens, held + multiset(gs), {});
    assert gs[..|gs|] == gs;
    ReleasedAllBalanced(h, gs, |gs|, bound, gens, held, {});
    ReleasedAllTidy(h, gs, |gs|, bound, gens, held, {});
    ReleasedAllSignals(h, gs, |gs|, bound, gens);
  }

  // ---- A build that is published -------------------------------------------------

  lemma {:induction false} SameReach(gens: set<Gen>, more: set<Gen>, g: Gen, x: Gen, d: Gen, n: nat)
    requires Older(gens) && more == gens + {g} && x in gens && ReachesIn(DepEdges(more), x, d, n)
    ensures d in gens && ReachesIn(DepEdges(gens), x, d, n)
    decreases n
  {
    if n > 0 {
      var e :| e in DepEdges(more) && e.1 == d && ReachesIn(DepEdges(more), x, e.0, n - 1);
      SameReach(gens, more, g, x, e.0, n - 1);
      assert e in DepEdges(gens);
    }
  }

  lemma BeforeWith(gens: set<Gen>, more: set<Gen>, g: Gen, b: Closer, c: Closer)
    requires Older(gens) && more == gens + {g} && b !in g.closers && c !in g.closers && Before(more, b, c)
    ensures Before(gens, b, c)
  {
    hide Older, DepEdges;
    var x, d :| x in more && d in more && x != d && Reaches(DepEdges(more), x, d) && b in x.closers && c in d.closers;
    var n: nat :| ReachesIn(DepEdges(more), x, d, n);
    SameReach(gens, more, g, x, d, n);
  }

  lemma OwnedWith(h: Heap, gens: set<Gen>, g: Gen)
    requires Owned(gens) && g !in gens && Loose(h, gens, g.closers)
    ensures Owned(gens + {g})
  {
    forall x, y, i, j | x in gens + {g} && y in gens + {g} && 0 <= i < |x.closers| && 0 <= j < |y.closers|
                        && x.closers[i] == y.closers[j]
      ensures x == y && i == j
    {
      assert x.closers[i] in x.closers && y.closers[j] in y.closers;
    }
  }

  lemma RegisteredTidy(h: Heap, t: Heap, gens: set<Gen>, g: Gen)
    requires Tidy(h, gens, {}) && Older(gens) && g !in gens && Loose(h, gens, g.closers) && t == Registered(h, g)
    requires h.live <= gens
    ensures Tidy(t, gens + {g}, {})
  {
    hide Before, Older;
    forall i, j | 0 <= i < j < |t.calls|
      ensures t.calls[i] != t.calls[j] && !Before(gens + {g}, t.calls[j], t.calls[i])
    {
      assert h.calls[i] in h.calls && h.calls[j] in h.calls;
      if Before(gens + {g}, t.calls[j], t.calls[i]) { BeforeWith(gens, gens + {g}, g, t.calls[j], t.calls[i]); }
    }
    hide Ordered;
    assert t.live - {} == t.live && h.live - {} == h.live;
  }

  /** What the scope held is now the value's; the value is its provider's. */
  lemma RegisteredSound(h: Heap, gens: set<Gen>, g: Gen, held: multiset<Gen>)
    requires Sound(h, gens, held + multiset(g.deps)) && g !in gens && Loose(h, gens, g.closers) && !h.closed
    requires forall d :: d in g.deps ==> d in gens && d.stamp < g.stamp
    requires forall x :: x in held ==> x in gens
    ensures Sound(Registered(h, g), gens + {g}, held + multiset{g})
  {
    hide Balanced, Tidy, Owned, Loose;
    BalancedWorld(h, gens, held + multiset(g.deps), {});
    LiveKnown(h, gens, held + multiset(g.deps));
    RegisteredBalanced(h, g, gens, held);
    RegisteredTidy(h, Registered(h, g), gens, g);
    OwnedWith(h, gens, g);
  }

  // ---- finish ---------------------------------------------------------------------

  /** A slot that gains a value. */
  lemma SlotFilled(m: map<Node, Slot>, n: Node, y: Slot)
    requires n in m && m[n].val == S.None
    ensures Slots(m[n := y]) == Slots(m) + One(y.val)
  {
    SlotTaken(m[n := y], n, m[n]);
    assert m[n := y][n := m[n]] == m;
  }

  lemma UnlistedSound(h: Heap, gens: set<Gen>, held: multiset<Gen>, inflight: set<nat>)
    requires Sound(h, gens, held) && inflight <= h.inflight
    ensures Sound(h.(inflight := inflight), gens, held)
  {
    hide DepsOf, Ordered, Owned, Older;
  }

  ghost predicate AtRest(gens: set<Gen>, all: set<Closer>, gr: Graph, held: multiset<Gen>)
    reads gens, all, gr
  {
    Sound(Snap(gens, all, gr), gens, held) && Woken(Snap(gens, all, gr))
  }

  /** The attempt leaves inflight. */
  method Unlist(gr: Graph, att: nat, ghost gens: set<Gen>, ghost all: set<Closer>, ghost held: multiset<Gen>)
    requires Sound(Snap(gens, all, gr), gens, held)
    modifies gr`inflight, gr`drained
    ensures AtRest(gens, all, gr, held)
    ensures gr.inflight == old(gr.inflight) - {att}
  {
    hide Sound, Woken;
    ghost var h := Snap(gens, all, gr);
    gr.inflight := gr.inflight - {att};
    assert Snap(gens, all, gr) == h.(inflight := h.inflight - {att});
    UnlistedSound(h, gens, held, h.inflight - {att});
    CheckedSound(Snap(gens, all, gr), gens, held);
    gr.CheckDrained(gens, all);
  }

  /** One reference is all there is. */
  predicate OnlyHere(h: Heap, d: Gen)
  {
    d in h.refs && h.refs[d] == 1
  }

  /** A scope given back: after the calls so far its own cleanups, last registered
      first, then all others; of two values only the scope held, the one read later
      is cleaned up first. */
  ghost predicate GivenBack(h: Heap, cs: seq<Closer>, ds: seq<Gen>, calls: seq<Closer>)
  {
    && h.calls + Backwards(cs, |cs|) <= calls
    && forall i, j :: 0 <= i < j < |ds| && OnlyHere(h, ds[i]) && OnlyHere(h, ds[j]) ==>
         CleanedFirst(calls, ds[j], ds[i])
  }

  lemma LooseCalls(h: Heap, gens: set<Gen>, cs: seq<Closer>)
    requires Loose(h, gens, cs)
    ensures CalledAll(h, cs, |cs|).calls == h.calls + Backwards(cs, |cs|) && CalledAll(h, cs, |cs|).refs == h.refs
  {
    hide CalledAll;
    CalledFresh(h, cs, |cs|);
    CalledAllKeys(h, cs, |cs|);
  }

  lemma DiscardOrder(h: Heap, h1: Heap, t: Heap, cs: seq<Closer>, ds: seq<Gen>, bound: nat, gens: set<Gen>,
                     held: multiset<Gen>)
    requires (forall d :: d in ds ==> d in gens && d.stamp < bound) && Older(gens) && h1.refs.Keys == gens
    requires Sound(h1, gens, held + multiset(ds)) && t == ReleasedAll(h1, ds, |ds|, bound, gens)
    requires h1.calls == h.calls + Backwards(cs, |cs|) && h1.refs == h.refs
    ensures GivenBack(h, cs, ds, t.calls)
  {
    hide Sound, ReleasedAll, CleanedFirst, Older;
    ReleasedAllGrows(h1, ds, |ds|, bound, gens);
    forall i, j | 0 <= i < j < |ds| && OnlyHere(h, ds[i]) && OnlyHere(h, ds[j])
      ensures CleanedFirst(t.calls, ds[j], ds[i])
    {
      ReleasedAllInOrder(h1, ds, bound, gens, held, i, j);
    }
  }

  lemma GivenBackFirst(h: Heap, cs: seq<Closer>, ds: seq<Gen>, calls: seq<Closer>)
    requires GivenBack(h, cs, ds, calls)
    ensures h.calls + Backwards(cs, |cs|) <= calls
    ensures forall c :: c in cs ==> c in calls
  {
    hide CleanedFirst;
    forall c | c in cs ensures c in calls {
      var i :| 0 <= i < |cs| && cs[i] == c;
      assert (h.calls + Backwards(cs, |cs|))[|h.calls| + (|cs| - 1 - i)] == c;
    }
  }

  /** The build was not published: runs its cleanups, then gives back what it read. */
  method Discard(s: Scope, gr: Graph, ghost bound: nat, ghost gens: set<Gen>, ghost all: set<Closer>,
                 ghost held: multiset<Gen>)
    returns (errs: seq<nat>)
    requires World(gens, all, gr) && (forall c :: c in s.closers ==> c in all)
    requires forall d :: d in s.deps ==> d in gens && d.stamp < bound
    requires Sound(Snap(gens, all, gr), gens, held + multiset(s.deps)) && Loose(Snap(gens, all, gr), gens, s.closers)
    modifies gens`refs, all, gr`live, gr`drained, gr`calls
    ensures Sound(Snap(gens, all, gr), gens, held)
    ensures old(gr.calls) + Backwards(s.closers, |s.closers|) <= gr.calls
    ensures GivenBack(old(Snap(gens, all, gr)), s.closers, s.deps, gr.calls)
    ensures forall c :: c in s.closers ==> c in gr.calls
    ensures Reported(old(gr.calls), gr.calls, errs)
  {
    hide World, Sound, Reported, Snap, Loose, CalledAll, ReleasedAll, GivenBack;
    ghost var h0, calls0 := Snap(gens, all, gr), gr.calls;
    SnapCalls(gens, all, gr);
    errs := RunAll(s.closers, gr, gens, all);
    LooseSound(h0, gens, held + multiset(s.deps), s.closers);
    ghost var h1, calls1 := Snap(gens, all, gr), gr.calls;
    LooseCalls(h0, gens, s.closers);
    DepsWorld(gens, all, gr, s.deps, bound);
    ReleasedAllSound(h1, s.deps, bound, gens, held);
    var more := ReleaseAll(s.deps, bound, gr, gens, all);
    DiscardOrder(h0, h1, Snap(gens, all, gr), s.closers, s.deps, bound, gens, held);
    SnapCalls(gens, all, gr);
    GivenBackFirst(h0, s.closers, s.deps, gr.calls);
    ReportedTwice(calls0, calls1, gr.calls, errs, more);
    errs := errs + more;
  }

  lemma DepsWorld(gens: set<Gen>, all: set<Closer>, gr: Graph, ds: seq<Gen>, bound: nat)
    requires World(gens, all, gr) && forall d :: d in ds ==> d in gens && d.stamp < bound
    ensures Older(gens) && forall d :: d in ds ==> d.graph == gr
  {
  }

  lemma SlotsIn(m: map<Node, Slot>, gens: set<Gen>, gr: Graph)
    requires Wired(m, gens, gr)
    ensures forall g :: g in Slots(m) ==> g in gens
  {
    SlotsOfIn(m, m.Keys, gens);
  }

  lemma {:induction false} SlotsOfIn(m: map<Node, Slot>, ns: set<Node>, gens: set<Gen>)
    requires ns <= m.Keys && forall x :: x in ns && m[x].val.Some? ==> m[x].val.value in gens
    ensures forall g :: g in SlotsOf(m, ns) ==> g in gens
    decreases ns
  {
    if ns != {} {
      var x :| x in ns && SlotsOf(m, ns) == One(m[x].val) + SlotsOf(m, ns - {x});
      SlotsOfIn(m, ns - {x}, gens);
      forall g | g in SlotsOf(m, ns) ensures g in gens {
        assert g in One(m[x].val) || g in SlotsOf(m, ns - {x});
      }
    }
  }

  lemma PublishedSound(h: Heap, m: map<Node, Slot>, n: Node, g: Gen, gens: set<Gen>, gr: Graph, held: multiset<Gen>)
    requires Sound(h, gens, held + multiset(g.deps) + Slots(m)) && Wired(m, gens, gr)
    requires n in m && m[n].val == S.None && g !in gens && Loose(h, gens, g.closers) && !h.closed
    requires forall d :: d in g.deps ==> d in gens && d.stamp < g.stamp
    requires forall x :: x in held ==> x in gens
    ensures var m' := m[n := m[n].(val := S.Some(g))];
            Sound(Registered(h, g), gens + {g}, held + Slots(m')) && Wired(m', gens + {g}, gr)
  {
    hide Sound, Loose, Slots;
    var m' := m[n := m[n].(val := S.Some(g))];
    SlotsIn(m, gens, gr);
    SlotFilled(m, n, m'[n]);
    assert held + multiset(g.deps) + Slots(m) == held + Slots(m) + multiset(g.deps);
    RegisteredSound(h, gens, g, held + Slots(m));
    assert held + Slots(m) + multiset{g} == held + Slots(m');
  }

  lemma WorldWith(gens: set<Gen>, all: set<Closer>, gr: Graph, g: Gen)
    requires World(gens, all, gr) && g.graph == gr
    requires forall c :: c in g.closers ==> c in all
    requires forall d :: d in g.deps ==> d in gens && d.stamp < g.stamp
    ensures World(gens + {g}, all, gr)
  {
  }

  method Store(n: Node, g: Gen, ghost nodes: set<Node>)
    requires n in nodes
    modifies n`val
    ensures var m := old(Look(nodes)); Look(nodes) == m[n := m[n].(val := S.Some(g))]
  {
    n.val := S.Some(g);
  }

  /** finish's locked section: the value, if it may be published. */
  method Publish(n: Node, epoch: nat, s: Scope, failed: bool, ghost at: nat,
                 ghost nodes: set<Node>, ghost gens: set<Gen>, ghost all: set<Closer>, ghost held: multiset<Gen>)
    returns (g: S.Option<Gen>)
    requires n in nodes && Wired(Look(nodes), gens, n.graph) && World(gens, all, n.graph) && n.val == S.None
    requires (forall x :: x in gens ==> x.stamp < at) && (forall d :: d in s.deps ==> d in gens)
    requires (forall c :: c in s.closers ==> c in all) && (forall x :: x in held ==> x in gens)
    requires Sound(Snap(gens, all, n.graph), gens, held + multiset(s.deps) + Slots(Look(nodes)))
    requires Loose(Snap(gens, all, n.graph), gens, s.closers)
    modifies n`cur, n`val, n.graph`live
    ensures n.cur == S.None
    ensures g.Some? <==> !failed && !n.closed && epoch == n.epoch && !n.graph.closed
    ensures g.Some? ==> Took(n, g.value, s, old(Look(nodes)), nodes, gens, all)
    ensures g.Some? ==>
              Sound(Snap(gens + {g.value}, all, n.graph), gens + {g.value}, held + Slots(Look(nodes)))
    ensures g.None? ==> Look(nodes) == old(Look(nodes)) && Snap(gens, all, n.graph) == old(Snap(gens, all, n.graph))
  {
    hide World, Wired, Sound, Loose, Look, Slots, Registered, Snap;
    ghost var h0 := Snap(gens, all, n.graph);
    SnapOpen(gens, all, n.graph);
    Idle(n, nodes);
    LookAt(nodes, n);
    g := S.None;
    if !failed && !n.closed && epoch == n.epoch {
      g := NewGen(n.graph, s.closers, s.deps, at, gens, all);
      if g.Some? {
        PublishedSound(h0, Look(nodes), n, g.value, gens, n.graph, held);
        WorldWith(gens, all, n.graph, g.value);
        Store(n, g.value, nodes);
      }
    }
  }

  /** g has taken over what s held, and is n's value. */
  ghost predicate Took(n: Node, g: Gen, s: Scope, m: map<Node, Slot>, nodes: set<Node>, gens: set<Gen>,
                       all: set<Closer>)
    reads s, nodes
  {
    && g.closers == s.closers && g.deps == s.deps
    && n in m && Look(nodes) == m[n := m[n].(val := S.Some(g))]
    && World(gens + {g}, all, n.graph) && Wired(Look(nodes), gens + {g}, n.graph)
  }

  /** finish: publishes the value of attempt att, begun at epoch, if the builder
      succeeded and the provider was neither closed nor invalidated meanwhile and
      the graph is open; otherwise gives everything back. */
  method Finish(n: Node, att: nat, epoch: nat, s: Scope, failed: bool, ghost at: nat,
                ghost nodes: set<Node>, ghost gens: set<Gen>, ghost all: set<Closer>, ghost held: multiset<Gen>)
    returns (g: S.Option<Gen>, stale: bool, errs: seq<nat>)
    requires n in nodes && Wired(Look(nodes), gens, n.graph) && World(gens, all, n.graph) && n.val == S.None
    requires (forall x :: x in gens ==> x.stamp < at) && (forall d :: d in s.deps ==> d in gens)
    requires (forall c :: c in s.closers ==> c in all) && (forall x :: x in held ==> x in gens)
    requires Sound(Snap(gens, all, n.graph), gens, held + multiset(s.deps) + Slots(Look(nodes)))
    requires Loose(Snap(gens, all, n.graph), gens, s.closers)
    modifies n`cur, n`val, gens`refs, all
    modifies n.graph`live, n.graph`drained, n.graph`calls, n.graph`inflight
    ensures n.cur == S.None && n.graph.inflight == old(n.graph.inflight) - {att}
    ensures g.Some? <==> !failed && !n.closed && epoch == n.epoch && !n.graph.closed
    ensures stale <==> g.None? && !failed
    ensures Reported(old(n.graph.calls), n.graph.calls, errs)
    ensures g.Some? ==> errs == [] && Took(n, g.value, s, old(Look(nodes)), nodes, gens, all)
    ensures g.None? ==> Look(nodes) == old(Look(nodes))
    ensures Settled(old(Snap(gens, all, n.graph)), g, s, n.graph, gens, all, held + Slots(Look(nodes)))
  {
    hide World, Wired, Sound, Settled, Reported, Snap, Loose, Look, Slots, Took;
    ghost var m0, h0 := Look(nodes), Snap(gens, all, n.graph);
    g := Publish(n, epoch, s, failed, at, nodes, gens, all, held);
    stale := g.None? && !failed;
    assert held + multiset(s.deps) + Slots(m0) == held + Slots(m0) + multiset(s.deps);
    ghost var h1 := Snap(gens, all, n.graph);
    errs := Conclude(g, att, s, n.graph, at, gens, all, held + Slots(Look(nodes)));
    SettledSince(h0, h1, g, s, n.graph, gens, all, held + Slots(Look(nodes)));
  }

  lemma SettledSince(h: Heap, h1: Heap, g: S.Option<Gen>, s: Scope, gr: Graph, gens: set<Gen>, all: set<Closer>,
                     held: multiset<Gen>)
    requires Settled(h1, g, s, gr, gens, all, held) && (g.None? ==> h1 == h)
    ensures Settled(h, g, s, gr, gens, all, held)
  {
    hide AtRest, GivenBack;
  }

  /** Counts, cleanups and drained are as they should be, with the new value if
      there is one; if not, the scope has been given back since h. */
  ghost predicate Settled(h: Heap, g: S.Option<Gen>, s: Scope, gr: Graph, gens: set<Gen>, all: set<Closer>,
                          held: multiset<Gen>)
    reads s, gr, gens, all, if g.Some? then {g.value} else {}
  {
    if g.Some? then AtRest(gens + {g.value}, all, gr, held)
    else AtRest(gens, all, gr, held) && GivenBack(h, s.closers, s.deps, gr.calls)
  }

  /** The rest of finish. */
  method Conclude(g: S.Option<Gen>, att: nat, s: Scope, gr: Graph, ghost at: nat,
                  ghost gens: set<Gen>, ghost all: set<Closer>, ghost held: multiset<Gen>)
    returns (errs: seq<nat>)
    requires g.Some? ==> Sound(Snap(gens + {g.value}, all, gr), gens + {g.value}, held)
    requires g.None? ==>
               && World(gens, all, gr) && (forall c :: c in s.closers ==> c in all)
               && (forall d :: d in s.deps ==> d in gens && d.stamp < at)
               && Sound(Snap(gens, all, gr), gens, held + multiset(s.deps))
               && Loose(Snap(gens, all, gr), gens, s.closers)
    modifies gens`refs, all, gr`live, gr`drained, gr`calls, gr`inflight
    ensures gr.inflight == old(gr.inflight) - {att}
    ensures Reported(old(gr.calls), gr.calls, errs)
    ensures g.Some? ==> errs == []
    ensures Settled(old(Snap(gens, all, gr)), g, s, gr, gens, all, held)
  {
    hide World, Sound, AtRest, Reported, Snap, Loose, GivenBack;
    if g.None? {
      errs := Discard(s, gr, at, gens, all, held);
      Unlist(gr, att, gens, all, held);
    } else {
      NothingReported(gr.calls);
      errs := [];
      Unlist(gr, att, gens + {g.value}, all, held);
    }
  }

  /** n.cur = nil. */
  method Idle(n: Node, ghost nodes: set<Node>)
    requires n in nodes
    modifies n`cur
    ensures n.cur == S.None && Look(nodes) == old(Look(nodes))
  {
    n.cur := S.None;
  }

  lemma SnapOpen(gens: set<Gen>, all: set<Closer>, gr: Graph)
    ensures Snap(gens, all, gr).closed == gr.closed
  {
  }
}
