/** Generations as the runtime keeps them: counted values that, when nobody holds
    them any more, run their cleanups and let go of the values they were built
    from. Each method is proved equal to a function on snapshots. */
module Generations {
  import opened State

  class Graph {
    var closed: bool
    var live: set<Gen>
    var inflight: set<nat>
    var drained: bool           // the drained channel has been closed
    ghost var calls: seq<Closer>  // cleanup functions called so far

    constructor ()
      ensures !closed && live == {} && inflight == {} && !drained && calls == []
    {
      closed, live, inflight, drained, calls := false, {}, {}, false, [];
    }

    /** Closes the channel, once, when after Close nothing is left to wait for. */
    method CheckDrained(ghost gens: set<Gen>, ghost all: set<Closer>)
      modifies this`drained
      ensures Snap(gens, all, this) == Checked(old(Snap(gens, all, this)))
    {
      if closed && live == {} && inflight == {} {
        drained := true;
      }
    }

    /** The last part of release. */
    method Forget(g: Gen, ghost gens: set<Gen>, ghost all: set<Closer>)
      modifies this`live, this`drained
      ensures var h := old(Snap(gens, all, this)); Snap(gens, all, this) == Checked(h.(live := h.live - {g}))
    {
      live := live - {g};
      CheckDrained(gens, all);
    }
  }

  /** A registered cleanup; err is what its function returns. */
  class Closer {
    const graph: Graph
    const err: Option<nat>
    var done: bool

    constructor (g: Graph, e: Option<nat>)
      ensures graph == g && err == e && !done
    {
      graph, err, done := g, e, false;
    }

    /** Calls the cleanup unless somebody has already done so. */
    method Run(ghost gens: set<Gen>, ghost all: set<Closer>) returns (e: Option<nat>)
      requires this in all
      modifies this, graph`calls
      ensures Snap(gens, all, graph) == Called(old(Snap(gens, all, graph)), this)
      ensures Reported(old(graph.calls), graph.calls, if e.Some? then [e.value] else [])
    {
      if done {
        return None;
      }
      done := true;
      graph.calls := graph.calls + [this];
      return err;
    }
  }

  class Gen {
    const graph: Graph
    const closers: seq<Closer>
    const deps: seq<Gen>
    ghost const stamp: nat      // position in the order of creation
    var refs: int

    constructor (g: Graph, cs: seq<Closer>, ds: seq<Gen>, ghost at: nat)
      ensures graph == g && closers == cs && deps == ds && stamp == at && refs == 1
    {
      graph, closers, deps, stamp, refs := g, cs, ds, at, 1;
    }

    /** Takes a reference unless the value is already being cleaned up. */
    method Acquire(ghost gens: set<Gen>, ghost closers: set<Closer>) returns (ok: bool)
      requires this in gens
      modifies this`refs
      ensures ok <==> old(refs) > 0
      ensures var h := old(Snap(gens, closers, graph));
              Snap(gens, closers, graph) == if ok then h.(refs := h.refs[this := h.refs[this] + 1]) else h
    {
      if refs <= 0 {
        return false;
      }
      refs := refs + 1;
      return true;
    }

    method Decrement(ghost gens: set<Gen>, ghost all: set<Closer>)
      requires this in gens
      modifies this`refs
      ensures Snap(gens, all, graph) == Decremented(old(Snap(gens, all, graph)), this)
    {
      refs := refs - 1;
    }

    /** Drops a reference; the last one runs the cleanups and releases what the
        value was built from. */
    method Release(ghost gens: set<Gen>, ghost all: set<Closer>) returns (errs: seq<nat>)
      requires World(gens, all, graph) && this in gens
      modifies gens`refs, all, graph`live, graph`drained, graph`calls
      ensures Snap(gens, all, graph) == Released(old(Snap(gens, all, graph)), this, gens)
      ensures Reported(old(graph.calls), graph.calls, errs)
      decreases stamp, 1
    {
      hide CalledAll, World, Older, Reported, Snap, Checked;
      ghost var calls0 := graph.calls;
      WorldOlder(gens, all, graph, this);
      SnapFields(gens, all, graph, this);
      Decrement(gens, all);
      ghost var h1 := Snap(gens, all, graph);
      SnapFields(gens, all, graph, this);
      if refs != 0 {
        NothingReported(graph.calls);
        return [];
      }
      errs := RunAll(closers, graph, gens, all);
      CalledAllKeys(h1, closers, |closers|);
      ghost var calls2 := graph.calls;
      var more := ReleaseAll(deps, stamp, graph, gens, all);
      graph.Forget(this, gens, all);
      ReportedTwice(calls0, calls2, graph.calls, errs, more);
      errs := errs + more;
    }
  }

  /** All that changes, as a value. */
  datatype Heap = Heap(refs: map<Gen, int>, done: set<Closer>, calls: seq<Closer>, live: set<Gen>,
                       closed: bool, inflight: set<nat>, drained: bool)

  ghost function Snap(gens: set<Gen>, closers: set<Closer>, gr: Graph): (h: Heap)
    reads gens, closers, gr
    ensures h.refs.Keys == gens
  {
    Heap((map g | g in gens :: g.refs), (set c | c in closers && c.done), gr.calls, gr.live,
         gr.closed, gr.inflight, gr.drained)
  }

  /** The world is closed: everything a generation refers to is in it, and was
      there before it. */
  ghost predicate World(gens: set<Gen>, closers: set<Closer>, gr: Graph)
  {
    && (forall g :: g in gens ==>
         && g.graph == gr
         && (forall c :: c in g.closers ==> c in closers)
         && (forall d :: d in g.deps ==> d in gens && d.stamp < g.stamp))
    && (forall c :: c in closers ==> c.graph == gr)
  }

  // ---- What release does, as functions ---------------------------------------

  function Called(h: Heap, c: Closer): Heap
  {
    if c in h.done then h else h.(done := h.done + {c}, calls := h.calls + [c])
  }

  /** runAll on the first k cleanups, last first. */
  function CalledAll(h: Heap, cs: seq<Closer>, k: nat): Heap
    requires k <= |cs|
    decreases k
  {
    if k == 0 then h else CalledAll(Called(h, cs[k - 1]), cs, k - 1)
  }

  function Checked(h: Heap): Heap
  {
    h.(drained := h.drained || (h.closed && h.live == {} && h.inflight == {}))
  }

  function Decremented(h: Heap, g: Gen): Heap
    requires g in h.refs
  {
    h.(refs := h.refs[g := h.refs[g] - 1])
  }

  ghost predicate Older(gens: set<Gen>)
  {
    forall g, d :: g in gens && d in g.deps ==> d in gens && d.stamp < g.stamp
  }

  ghost function Released(h: Heap, g: Gen, gens: set<Gen>): (h': Heap)
    requires Older(gens) && g in gens && h.refs.Keys == gens
    ensures h'.refs.Keys == gens
    decreases g.stamp, 1, 0
  {
    var h1 := Decremented(h, g);
    if h1.refs[g] != 0 then h1
    else
      var h2 := CalledAll(h1, g.closers, |g.closers|);
      CalledAllKeys(h1, g.closers, |g.closers|);
      var h3 := ReleasedAll(h2, g.deps, |g.deps|, g.stamp, gens);
      Checked(h3.(live := h3.live - {g}))
  }

  /** releaseAll on the first k, last first. */
  ghost function ReleasedAll(h: Heap, gs: seq<Gen>, k: nat, bound: nat, gens: set<Gen>): (h': Heap)
    requires Older(gens) && h.refs.Keys == gens && k <= |gs|
    requires forall g :: g in gs ==> g in gens && g.stamp < bound
    ensures h'.refs.Keys == gens
    decreases bound, 0, k
  {
    if k == 0 then h else ReleasedAll(Released(h, gs[k - 1], gens), gs, k - 1, bound, gens)
  }

  lemma {:induction false} CalledAllKeys(h: Heap, cs: seq<Closer>, k: nat)
    requires k <= |cs|
    ensures CalledAll(h, cs, k) == h.(done := CalledAll(h, cs, k).done, calls := CalledAll(h, cs, k).calls)
    decreases k
  {
    if k > 0 { CalledAllKeys(Called(h, cs[k - 1]), cs, k - 1); }
  }

  // ---- The methods ---------------------------------------------------------------

  function ErrorsOf(cs: seq<Closer>): seq<nat>
  {
    if cs == [] then [] else
      (if cs[0].err.Some? then [cs[0].err.value] else []) + ErrorsOf(cs[1..])
  }

  lemma {:induction false} ErrorsJoined(a: seq<Closer>, b: seq<Closer>)
    ensures ErrorsOf(a + b) == ErrorsOf(a) + ErrorsOf(b)
    decreases a
  {
    if a == [] {
      assert a + b == b;
    } else {
      assert (a + b)[1..] == a[1..] + b;
      ErrorsJoined(a[1..], b);
    }
  }

  /** The errors returned between two states are those of the functions called. */
  ghost predicate Reported(before: seq<Closer>, after: seq<Closer>, errs: seq<nat>)
  {
    before <= after && errs == ErrorsOf(after[|before|..])
  }

  lemma ReportedTwice(a: seq<Closer>, b: seq<Closer>, c: seq<Closer>, e: seq<nat>, f: seq<nat>)
    requires Reported(a, b, e) && Reported(b, c, f)
    ensures Reported(a, c, e + f)
  {
    assert c[|a|..] == b[|a|..] + c[|b|..];
    ErrorsJoined(b[|a|..], c[|b|..]);
  }

  method RunAll(cs: seq<Closer>, gr: Graph, ghost gens: set<Gen>, ghost closers: set<Closer>) returns (errs: seq<nat>)
    requires World(gens, closers, gr) && forall c :: c in cs ==> c in closers
    modifies closers, gr`calls
    ensures Snap(gens, closers, gr) == CalledAll(old(Snap(gens, closers, gr)), cs, |cs|)
    ensures Reported(old(gr.calls), gr.calls, errs)
  {
    hide Snap, Reported, Called;
    errs := [];
    var i := |cs|;
    NothingReported(gr.calls);
    while i > 0
      invariant 0 <= i <= |cs|
      invariant CalledAll(Snap(gens, closers, gr), cs, i) == CalledAll(old(Snap(gens, closers, gr)), cs, |cs|)
      invariant Reported(old(gr.calls), gr.calls, errs)
    {
      i := i - 1;
      ghost var before := gr.calls;
      var e := cs[i].Run(gens, closers);
      ReportedTwice(old(gr.calls), before, gr.calls, errs, if e.Some? then [e.value] else []);
      assert errs + [] == errs;
      if e.Some? {
        errs := errs + [e.value];
      }
    }
  }

  lemma SnapFields(gens: set<Gen>, all: set<Closer>, gr: Graph, g: Gen)
    requires g in gens
    ensures var h := Snap(gens, all, gr); h.refs.Keys == gens && h.refs[g] == g.refs && h.calls == gr.calls
  {
  }

  lemma WorldOlder(gens: set<Gen>, all: set<Closer>, gr: Graph, g: Gen)
    requires World(gens, all, gr) && g in gens
    ensures Older(gens) && (forall c :: c in g.closers ==> c in all)
    ensures forall d :: d in g.deps ==> d in gens && d.stamp < g.stamp && d.graph == gr
    ensures g.graph == gr
  {
  }

  lemma NothingReported(calls: seq<Closer>)
    ensures Reported(calls, calls, [])
  {
  }

  method ReleaseAll(gs: seq<Gen>, ghost bound: nat, gr: Graph, ghost gens: set<Gen>, ghost all: set<Closer>)
    returns (errs: seq<nat>)
    requires World(gens, all, gr) && Older(gens)
    requires forall g :: g in gs ==> g in gens && g.stamp < bound && g.graph == gr
    modifies gens`refs, all, gr`live, gr`drained, gr`calls
    ensures Snap(gens, all, gr) == ReleasedAll(old(Snap(gens, all, gr)), gs, |gs|, bound, gens)
    ensures Reported(old(gr.calls), gr.calls, errs)
    decreases bound, 0
  {
    hide World, Older, Reported, Released, Snap;
    errs := [];
    var i := |gs|;
    NothingReported(gr.calls);
    while i > 0
      invariant 0 <= i <= |gs|
      invariant ReleasedAll(Snap(gens, all, gr), gs, i, bound, gens)
                == ReleasedAll(old(Snap(gens, all, gr)), gs, |gs|, bound, gens)
      invariant Reported(old(gr.calls), gr.calls, errs)
    {
      i := i - 1;
      ghost var before := gr.calls;
      var more := gs[i].Release(gens, all);
      ReportedTwice(old(gr.calls), before, gr.calls, errs, more);
      errs := errs + more;
    }
  }

  function Registered(h: Heap, g: Gen): Heap
  {
    h.(refs := h.refs[g := 1], live := h.live + {g})
  }

  /** newGen: registers a value its provider holds once, unless the graph is
      closed. */
  method NewGen(gr: Graph, cs: seq<Closer>, ds: seq<Gen>, ghost at: nat, ghost gens: set<Gen>, ghost all: set<Closer>)
    returns (r: Option<Gen>)
    modifies gr`live
    ensures r.Some? <==> !old(gr.closed)
    ensures r.None? ==> Snap(gens, all, gr) == old(Snap(gens, all, gr))
    ensures r.Some? ==>
              && fresh(r.value)
              && r.value.graph == gr && r.value.closers == cs && r.value.deps == ds && r.value.stamp == at
              && Snap(gens + {r.value}, all, gr) == Registered(old(Snap(gens, all, gr)), r.value)
  {
    var g := new Gen(gr, cs, ds, at);
    if gr.closed {
      return None;
    }
    gr.live := gr.live + {g};
    return Some(g);
  }
}
