/** Provider nodes as the runtime keeps them: recursive invalidation over a
    dependents graph that may contain cycles, and the shutdown of all nodes. */
module Providers {
  import opened Paths
  import opened Generations
  import opened Collecting
  import opened CleanupOrder
  import S = State

  datatype Slot = Slot(val: S.Option<Gen>, epoch: nat, closed: bool, dependents: set<Node>)

  // ---- Sweeps, on values ---------------------------------------------------------

  ghost function Edges(m: map<Node, Slot>): set<(Node, Node)>
  {
    set x, y | x in m && y in m[x].dependents :: (x, y)
  }

  ghost function PushersOf(m: map<Node, Slot>, touched: set<Node>, x: Node): set<Node>
    requires touched <= m.Keys
  {
    set y | y in touched && x in m[y].dependents
  }

  ghost predicate FromStarts(m: map<Node, Slot>, starts: multiset<Node>, x: Node)
  {
    exists f :: f in starts && Reaches(Edges(m), f, x)
  }

  /** touched holds the starts and, with a node, its dependents, and nothing that
      the starts do not reach. */
  ghost predicate Closure(m: map<Node, Slot>, touched: set<Node>, starts: multiset<Node>)
  {
    && touched <= m.Keys
    && (forall x :: x in starts ==> x in touched)
    && (forall x :: x in touched ==> m[x].dependents <= touched)
    && (forall x :: x in touched ==> FromStarts(m, starts, x))
  }

  /** A node an invalidation has been through: emptied, its epoch counting every
      start and every edge followed into it. */
  ghost function Emptied(m: map<Node, Slot>, touched: set<Node>, starts: multiset<Node>, x: Node): Slot
    requires touched <= m.Keys && x in m
  {
    Slot(S.None, m[x].epoch + starts[x] + |PushersOf(m, touched, x)|, m[x].closed, {})
  }

  /** From m0 to m1, invalidations of the nodes in starts have swept touched; all
      other nodes are as before. */
  ghost predicate Swept(m0: map<Node, Slot>, m1: map<Node, Slot>, touched: set<Node>, starts: multiset<Node>)
  {
    && m1.Keys == m0.Keys && Closure(m0, touched, starts)
    && (forall x :: x in m0 ==> m1[x] == if x in touched then Emptied(m0, touched, starts, x) else m0[x])
  }

  /** So touched is exactly what the starts reach through the dependents there
      were, cycles or not. */
  lemma SweptExactly(m0: map<Node, Slot>, m1: map<Node, Slot>, touched: set<Node>, start: Node, x: Node)
    requires Swept(m0, m1, touched, multiset{start})
    ensures x in touched <==> Reaches(Edges(m0), start, x)
  {
    if Reaches(Edges(m0), start, x) {
      var n: nat :| ReachesIn(Edges(m0), start, x, n);
      ClosedSetHolds(Edges(m0), touched, start, x, n);
    }
    if x in touched {
      assert FromStarts(m0, multiset{start}, x);
    }
  }

  lemma NothingSwept(m: map<Node, Slot>)
    ensures Swept(m, m, {}, multiset{})
  {
  }

  lemma EdgesShrink(m0: map<Node, Slot>, m1: map<Node, Slot>, touched: set<Node>, starts: multiset<Node>)
    requires Swept(m0, m1, touched, starts)
    ensures Edges(m1) <= Edges(m0)
    ensures forall x :: x in m1 ==> m1[x].dependents == if x in touched then {} else m0[x].dependents
  {
    hide Closure;
  }

  lemma ReachesBefore(m0: map<Node, Slot>, m1: map<Node, Slot>, starts: multiset<Node>, x: Node)
    requires Edges(m1) <= Edges(m0) && FromStarts(m1, starts, x)
    ensures FromStarts(m0, starts, x)
  {
    var f :| f in starts && Reaches(Edges(m1), f, x);
    var n: nat :| ReachesIn(Edges(m1), f, x, n);
    ReachesMoreIn(Edges(m1), Edges(m0), f, x, n);
  }

  lemma PushersAdd(m0: map<Node, Slot>, m1: map<Node, Slot>, t1: set<Node>, t2: set<Node>, x: Node)
    requires m1.Keys == m0.Keys && t1 <= m0.Keys && t2 <= m0.Keys
    requires forall y :: y in m1 ==> m1[y].dependents == if y in t1 then {} else m0[y].dependents
    ensures |PushersOf(m0, t1 + t2, x)| == |PushersOf(m0, t1, x)| + |PushersOf(m1, t2, x)|
  {
    assert PushersOf(m0, t1 + t2, x) == PushersOf(m0, t1, x) + PushersOf(m1, t2, x);
    assert PushersOf(m0, t1, x) !! PushersOf(m1, t2, x);
  }

  lemma ClosureThen(m0: map<Node, Slot>, m1: map<Node, Slot>, t1: set<Node>, t2: set<Node>,
                    s1: multiset<Node>, s2: multiset<Node>)
    requires Closure(m0, t1, s1) && Closure(m1, t2, s2) && m1.Keys == m0.Keys && Edges(m1) <= Edges(m0)
    requires forall x :: x in m1 ==> m1[x].dependents == if x in t1 then {} else m0[x].dependents
    ensures Closure(m0, t1 + t2, s1 + s2)
  {
    hide Edges, FromStarts;
    forall x | x in t1 + t2 ensures FromStarts(m0, s1 + s2, x) {
      if x in t1 {
        MoreStarts(m0, s1, s1 + s2, x);
      } else {
        ReachesBefore(m0, m1, s2, x);
        MoreStarts(m0, s2, s1 + s2, x);
      }
    }
  }

  lemma MoreStarts(m: map<Node, Slot>, few: multiset<Node>, many: multiset<Node>, x: Node)
    requires FromStarts(m, few, x) && forall f :: f in few ==> f in many
    ensures FromStarts(m, many, x)
  {
  }

  /** One sweep after another is a sweep. */
  lemma SweptThen(m0: map<Node, Slot>, m1: map<Node, Slot>, m2: map<Node, Slot>, t1: set<Node>, t2: set<Node>,
                  s1: multiset<Node>, s2: multiset<Node>)
    requires Swept(m0, m1, t1, s1) && Swept(m1, m2, t2, s2)
    ensures Swept(m0, m2, t1 + t2, s1 + s2)
  {
    EdgesShrink(m0, m1, t1, s1);
    ClosureThen(m0, m1, t1, t2, s1, s2);
    hide Edges;
    forall x | x in m0
      ensures m2[x] == if x in t1 + t2 then Emptied(m0, t1 + t2, s1 + s2, x) else m0[x]
    {
      PushersAdd(m0, m1, t1, t2, x);
      SweptThenOne(m0, m1, m2, t1, t2, s1, s2, x);
    }
  }

  lemma SweptThenOne(m0: map<Node, Slot>, m1: map<Node, Slot>, m2: map<Node, Slot>, t1: set<Node>, t2: set<Node>,
                     s1: multiset<Node>, s2: multiset<Node>, x: Node)
    requires Swept(m0, m1, t1, s1) && Swept(m1, m2, t2, s2) && x in m0
    requires |PushersOf(m0, t1 + t2, x)| == |PushersOf(m0, t1, x)| + |PushersOf(m1, t2, x)|
    ensures m2[x] == if x in t1 + t2 then Emptied(m0, t1 + t2, s1 + s2, x) else m0[x]
  {
    hide Edges, FromStarts, PushersOf;
    if x !in t1 {
      NotPushed(m0, t1, s1, x);
    }
    if x !in t2 {
      NotPushed(m1, t2, s2, x);
    }
  }

  lemma NotPushed(m: map<Node, Slot>, touched: set<Node>, starts: multiset<Node>, x: Node)
    requires Closure(m, touched, starts) && x !in touched
    ensures starts[x] == 0 && PushersOf(m, touched, x) == {}
  {
    hide FromStarts, Edges;
  }

  /** The locked section of invalidate. */
  function Bumped(m: map<Node, Slot>, n: Node): map<Node, Slot>
    requires n in m
  {
    m[n := Slot(S.None, m[n].epoch + 1, m[n].closed, {})]
  }

  lemma BumpedEdges(m: map<Node, Slot>, n: Node)
    requires n in m
    ensures Edges(Bumped(m, n)) <= Edges(m) && Bumped(m, n).Keys == m.Keys
    ensures forall y :: y in m ==> Bumped(m, n)[y].dependents == if y in {n} then {} else m[y].dependents
    ensures forall x :: PushersOf(m, {n}, x) == if x in m[n].dependents then {n} else {}
  {
  }

  /** The section of n, then a sweep from all its dependents, is the sweep from n. */
  lemma SweptFrom(m0: map<Node, Slot>, m2: map<Node, Slot>, n: Node, touched: set<Node>)
    requires n in m0 && Swept(Bumped(m0, n), m2, touched, multiset(m0[n].dependents))
    ensures Swept(m0, m2, touched + {n}, multiset{n})
  {
    hide Edges, FromStarts, PushersOf;
    BumpedEdges(m0, n);
    ClosureFrom(m0, n, touched);
    forall x | x in m0
      ensures m2[x] == if x in touched + {n} then Emptied(m0, touched + {n}, multiset{n}, x) else m0[x]
    {
      SweptFromOne(m0, m2, n, touched, x);
    }
  }

  lemma SweptFromOne(m0: map<Node, Slot>, m2: map<Node, Slot>, n: Node, touched: set<Node>, x: Node)
    requires n in m0 && x in m0 && Swept(Bumped(m0, n), m2, touched, multiset(m0[n].dependents))
    ensures m2[x] == if x in touched + {n} then Emptied(m0, touched + {n}, multiset{n}, x) else m0[x]
  {
    hide Edges, FromStarts, PushersOf;
    var m1 := Bumped(m0, n);
    BumpedEdges(m0, n);
    PushersAdd(m0, m1, {n}, touched, x);
    assert {n} + touched == touched + {n};
    if x !in touched { NotPushed(m1, touched, multiset(m0[n].dependents), x); }
  }

  lemma FromDependents(m: map<Node, Slot>, n: Node, x: Node)
    requires n in m && FromStarts(m, multiset(m[n].dependents), x)
    ensures FromStarts(m, multiset{n}, x)
  {
    var d :| d in multiset(m[n].dependents) && Reaches(Edges(m), d, x);
    hide Reaches;
    ReachesSelf(Edges(m), n);
    ReachesStep(Edges(m), n, (n, d));
    ReachesTrans(Edges(m), n, d, x);
    assert n in multiset{n};
  }

  lemma FromSelf(m: map<Node, Slot>, n: Node)
    ensures FromStarts(m, multiset{n}, n)
  {
    ReachesSelf(Edges(m), n);
    assert n in multiset{n};
  }

  lemma ClosureFrom(m0: map<Node, Slot>, n: Node, touched: set<Node>)
    requires n in m0 && Closure(Bumped(m0, n), touched, multiset(m0[n].dependents))
    requires Edges(Bumped(m0, n)) <= Edges(m0)
    ensures Closure(m0, touched + {n}, multiset{n})
  {
    hide Edges, FromStarts;
    var m1 := Bumped(m0, n);
    forall x | x in touched + {n} ensures FromStarts(m0, multiset{n}, x) {
      FromSelf(m0, n);
      if x != n {
        ReachesBefore(m0, m1, multiset(m0[n].dependents), x);
        FromDependents(m0, n, x);
      }
    }
    forall x | x in touched + {n} ensures m0[x].dependents <= touched + {n} {
      if x != n { assert m1[x] == m0[x]; }
    }
  }

  // ---- The references providers hold ---------------------------------------------

  function One(v: S.Option<Gen>): multiset<Gen>
  {
    if v.Some? then multiset{v.value} else multiset{}
  }

  ghost function SlotsOf(m: map<Node, Slot>, ns: set<Node>): multiset<Gen>
    requires ns <= m.Keys
    decreases ns
  {
    if ns == {} then multiset{}
    else
      var x :| x in ns;
      One(m[x].val) + SlotsOf(m, ns - {x})
  }

  ghost function Slots(m: map<Node, Slot>): multiset<Gen>
  {
    SlotsOf(m, m.Keys)
  }

  lemma {:induction false} SlotsSplit(m: map<Node, Slot>, ns: set<Node>, n: Node)
    requires ns <= m.Keys && n in ns
    ensures SlotsOf(m, ns) == One(m[n].val) + SlotsOf(m, ns - {n})
    decreases ns
  {
    hide One;
    var x :| x in ns && SlotsOf(m, ns) == One(m[x].val) + SlotsOf(m, ns - {x});
    if x != n {
      SlotsSplit(m, ns - {x}, n);
      SlotsSplit(m, ns - {n}, x);
      assert ns - {x} - {n} == ns - {n} - {x};
    }
  }

  lemma {:induction false} SlotsSame(m: map<Node, Slot>, m': map<Node, Slot>, ns: set<Node>)
    requires ns <= m.Keys && ns <= m'.Keys && forall x :: x in ns ==> m'[x].val == m[x].val
    ensures SlotsOf(m', ns) == SlotsOf(m, ns)
    decreases ns
  {
    hide One;
    if ns != {} {
      var x :| x in ns && SlotsOf(m, ns) == One(m[x].val) + SlotsOf(m, ns - {x});
      SlotsSplit(m', ns, x);
      SlotsSame(m, m', ns - {x});
    }
  }

  lemma SlotTaken(m: map<Node, Slot>, n: Node, y: Slot)
    requires n in m && y.val == S.None
    ensures Slots(m) == One(m[n].val) + Slots(m[n := y])
  {
    hide SlotsOf;
    var m' := m[n := y];
    assert m'.Keys == m.Keys;
    SlotsSplit(m, m.Keys, n);
    SlotsSplit(m', m.Keys, n);
    SlotsSame(m, m', m.Keys - {n});
  }

  lemma SlotsEmpty(m: map<Node, Slot>)
    requires forall x :: x in m ==> m[x].val == S.None
    ensures Slots(m) == multiset{}
  {
    NoSlots(m, m.Keys);
  }

  lemma {:induction false} NoSlots(m: map<Node, Slot>, ns: set<Node>)
    requires ns <= m.Keys && forall x :: x in ns ==> m[x].val == S.None
    ensures SlotsOf(m, ns) == multiset{}
    decreases ns
  {
    if ns != {} {
      var x :| x in ns && SlotsOf(m, ns) == One(m[x].val) + SlotsOf(m, ns - {x});
      NoSlots(m, ns - {x});
    }
  }

  /** Nodes whose dependents are not empty: each invalidation that recurses empties
      one more. */
  ghost function Spread(m: map<Node, Slot>): set<Node>
  {
    set x | x in m && m[x].dependents != {}
  }

  lemma SpreadShrinks(m0: map<Node, Slot>, m: map<Node, Slot>, n: Node, touched: set<Node>, starts: multiset<Node>)
    requires n in m0 && m0[n].dependents != {} && Swept(Bumped(m0, n), m, touched, starts)
    ensures Spread(m) < Spread(m0)
  {
    EdgesShrink(Bumped(m0, n), m, touched, starts);
    assert n in Spread(m0) && n !in Spread(m);
  }

  ghost predicate Wired(m: map<Node, Slot>, gens: set<Gen>, gr: Graph)
  {
    forall x :: x in m ==>
      x.graph == gr && m[x].dependents <= m.Keys && (m[x].val.Some? ==> m[x].val.value in gens)
  }

  lemma SweptWired(m0: map<Node, Slot>, m1: map<Node, Slot>, touched: set<Node>, starts: multiset<Node>,
                   gens: set<Gen>, gr: Graph)
    requires Wired(m0, gens, gr) && Swept(m0, m1, touched, starts)
    ensures Wired(m1, gens, gr)
  {
    hide Closure, PushersOf;
    assert touched <= m0.Keys by { ClosureIn(m0, touched, starts); }
  }

  lemma ClosureIn(m: map<Node, Slot>, touched: set<Node>, starts: multiset<Node>)
    requires Closure(m, touched, starts)
    ensures touched <= m.Keys
  {
  }

  ghost function Look(nodes: set<Node>): (m: map<Node, Slot>)
    reads nodes
    ensures m.Keys == nodes
  {
    map n | n in nodes :: Slot(n.val, n.epoch, n.closed, n.dependents)
  }

  /** Only n's slot holds its value. */
  ghost predicate Sole(m: map<Node, Slot>, h: Heap, n: Node)
  {
    n in m && m[n].val.Some? && m[n].val.value in h.refs && h.refs[m[n].val.value] == 1
  }

  /** The values only slots in touched held have been cleaned up. */
  ghost predicate SoleCleaned(m0: map<Node, Slot>, h0: Heap, touched: set<Node>, h: Heap)
  {
    && Grown(h0, h)
    && forall x, c :: x in touched && Sole(m0, h0, x) && c in m0[x].val.value.closers ==> c in h.calls
  }

  /** n's own value is cleaned up after those of all the others in touched. */
  ghost predicate OwnLast(m0: map<Node, Slot>, h0: Heap, touched: set<Node>, n: Node, calls: seq<Closer>)
  {
    forall x :: x in touched && x != n && Sole(m0, h0, x) && Sole(m0, h0, n) ==>
      CleanedFirst(calls, m0[x].val.value, m0[n].val.value)
  }

  /** A reference that was swapped out, if any, has been released. */
  ghost predicate Freed(h: Heap, b: S.Option<Gen>, gens: set<Gen>, t: Heap)
  {
    if b.Some? then Older(gens) && b.value in gens && h.refs.Keys == gens && t == Released(h, b.value, gens)
    else t == h
  }

  class Node {
    const graph: Graph
    const eager: bool
    var val: S.Option<Gen>
    var epoch: nat
    var closed: bool
    var cur: S.Option<nat>      // the attempt in progress, if any
    var dependents: set<Node>

    constructor (g: Graph, e: bool)
      ensures graph == g && eager == e && val == S.None && cur == S.None
      ensures epoch == 0 && !closed && dependents == {}
    {
      graph, eager, val, epoch, closed, cur, dependents := g, e, S.None, 0, false, S.None, {};
    }

    /** Eager providers are never invalidated: they keep no dependents. */
    method AddDependent(m: Node)
      modifies this`dependents
      ensures dependents == if eager then old(dependents) else old(dependents) + {m}
    {
      if eager {
        return;
      }
      dependents := dependents + {m};
    }

    /** The locked section of invalidate. */
    method Section(ghost nodes: set<Node>) returns (b: S.Option<Gen>, deps: set<Node>)
      requires this in nodes
      modifies this`epoch, this`val, this`dependents
      ensures b == old(val) && deps == old(dependents)
      ensures Look(nodes) == Bumped(old(Look(nodes)), this)
    {
      epoch := epoch + 1;
      b := val;
      val := S.None;
      deps := dependents;
      dependents := {};
    }

    /** Forgets the value and those of everything built from it. */
    method Invalidate(ghost nodes: set<Node>, ghost gens: set<Gen>, ghost all: set<Closer>, ghost held: multiset<Gen>)
      returns (errs: seq<nat>, ghost touched: set<Node>)
      requires this in nodes && Wired(Look(nodes), gens, graph) && World(gens, all, graph)
      requires Sound(Snap(gens, all, graph), gens, held + Slots(Look(nodes)))
      modifies nodes`val, nodes`epoch, nodes`dependents, gens`refs, all
      modifies graph`live, graph`drained, graph`calls
      ensures Swept(old(Look(nodes)), Look(nodes), touched, multiset{this})
      ensures Sound(Snap(gens, all, graph), gens, held + Slots(Look(nodes)))
      ensures SoleCleaned(old(Look(nodes)), old(Snap(gens, all, graph)), touched, Snap(gens, all, graph))
      ensures OwnLast(old(Look(nodes)), old(Snap(gens, all, graph)), touched, this, graph.calls)
      ensures Reported(old(graph.calls), graph.calls, errs)
      decreases Spread(Look(nodes))
    {
      hide Wired, World, Sound, Slots, Look, Swept, Bumped, Reported, Spread, Snap, Partway, One;
      hide SoleCleaned, OwnLast, Freed;
      ghost var m0, h0, calls0 := Look(nodes), Snap(gens, all, graph), graph.calls;
      LookAt(nodes, this);
      var b, deps := Section(nodes);
      ghost var m1, held1 := Look(nodes), held + One(b);
      SectionDone(m0, this, gens, graph, held, Snap(gens, all, graph));
      NothingReported(graph.calls);
      NothingCleaned(m1, h0);
      errs, touched := [], {};
      var todo := deps;
      while todo != {}
        invariant todo <= deps
        invariant Partway(m1, Look(nodes), touched, deps, todo, gens, graph, held1, Snap(gens, all, graph))
        invariant SoleCleaned(m1, h0, touched, Snap(gens, all, graph))
        invariant Reported(calls0, graph.calls, errs)
        decreases todo
      {
        var d :| d in todo;
        ghost var m, calls, h := Look(nodes), graph.calls, Snap(gens, all, graph);
        DependentReady(m0, this, m, touched, deps, todo, d, gens, graph, held1, h);
        var e, t := d.Invalidate(nodes, gens, all, held1);
        OneMore(m1, m, Look(nodes), touched, t, deps, todo, d, gens, graph, held1, h, Snap(gens, all, graph));
        MoreCleaned(m1, h0, m, h, Look(nodes), touched, t, deps, todo, d, gens, graph, held1, Snap(gens, all, graph));
        ReportedTwice(calls0, calls, graph.calls, errs, e);
        todo, errs, touched := todo - {d}, errs + e, touched + t;
      }
      AllDone(m0, Look(nodes), this, touched, gens, graph, held, b, Snap(gens, all, graph));
      ghost var calls, h := graph.calls, Snap(gens, all, graph);
      var e := LetGo(b, graph, gens, all, held + Slots(Look(nodes)));
      OwnCleaned(m0, h0, this, h, touched, gens, held + Slots(Look(nodes)), Snap(gens, all, graph));
      SnapCalls(gens, all, graph);
      touched := touched + {this};
      ReportedTwice(calls0, calls, graph.calls, errs, e);
      errs := errs + e;
    }

    /** The locked section of shut. */
    method TakeDown(ghost nodes: set<Node>) returns (b: S.Option<Gen>)
      requires this in nodes
      modifies this`closed, this`val
      ensures b == old(val)
      ensures var m := old(Look(nodes)); Look(nodes) == m[this := Down(m[this])]
    {
      closed := true;
      b := val;
      val := S.None;
    }

    /** Closes the provider and drops its value. */
    method Shut(ghost nodes: set<Node>, ghost gens: set<Gen>, ghost all: set<Closer>, ghost held: multiset<Gen>)
      returns (errs: seq<nat>)
      requires this in nodes && Wired(Look(nodes), gens, graph) && World(gens, all, graph)
      requires Sound(Snap(gens, all, graph), gens, held + Slots(Look(nodes)))
      modifies this`val, this`closed, gens`refs, all, graph`live, graph`drained, graph`calls
      ensures var m := old(Look(nodes)); Look(nodes) == m[this := Down(m[this])]
      ensures Sound(Snap(gens, all, graph), gens, held + Slots(Look(nodes)))
      ensures Freed(old(Snap(gens, all, graph)), old(val), gens, Snap(gens, all, graph))
      ensures Reported(old(graph.calls), graph.calls, errs)
    {
      hide World, Sound, Slots, Reported, Snap, Look, Freed;
      ghost var m := Look(nodes);
      LookAt(nodes, this);
      var b := TakeDown(nodes);
      SlotTaken(m, this, Down(m[this]));
      assert held + Slots(m) == held + Slots(Look(nodes)) + One(b);
      errs := LetGo(b, graph, gens, all, held + Slots(Look(nodes)));
    }
  }

  /** The value swapped out, if any, is released. */
  method LetGo(b: S.Option<Gen>, gr: Graph, ghost gens: set<Gen>, ghost all: set<Closer>, ghost held: multiset<Gen>)
    returns (errs: seq<nat>)
    requires World(gens, all, gr) && (b.Some? ==> b.value in gens)
    requires Sound(Snap(gens, all, gr), gens, held + One(b))
    modifies gens`refs, all, gr`live, gr`drained, gr`calls
    ensures Sound(Snap(gens, all, gr), gens, held)
    ensures Freed(old(Snap(gens, all, gr)), b, gens, Snap(gens, all, gr))
    ensures Reported(old(gr.calls), gr.calls, errs)
  {
    hide World, Sound, Reported, Snap, Released;
    if b.Some? {
      WorldOlder(gens, all, gr, b.value);
      ReleasedSound(Snap(gens, all, gr), b.value, gens, held);
      errs := b.value.Release(gens, all);
    } else {
      assert held + One(b) == held;
      NothingReported(gr.calls);
      errs := [];
    }
  }

  /** Invalidation of n, after its section (m1), with the dependents in todo still
      to visit. */
  ghost predicate Partway(m1: map<Node, Slot>, m: map<Node, Slot>, touched: set<Node>, deps: set<Node>, todo: set<Node>,
                          gens: set<Gen>, gr: Graph, held: multiset<Gen>, h: Heap)
  {
    && Wired(m, gens, gr)
    && Swept(m1, m, touched, multiset(deps - todo))
    && Sound(h, gens, held + Slots(m))
  }

  lemma SectionDone(m0: map<Node, Slot>, n: Node, gens: set<Gen>, gr: Graph, held: multiset<Gen>, h: Heap)
    requires n in m0 && Wired(m0, gens, gr) && Sound(h, gens, held + Slots(m0))
    ensures var m1, deps := Bumped(m0, n), m0[n].dependents;
            Partway(m1, m1, {}, deps, deps, gens, gr, held + One(m0[n].val), h)
  {
    hide Sound, Slots, Swept;
    var m1, deps := Bumped(m0, n), m0[n].dependents;
    NothingSwept(m1);
    assert multiset(deps - deps) == multiset{};
    SlotTaken(m0, n, m1[n]);
    assert held + One(m0[n].val) + Slots(m1) == held + Slots(m0);
  }

  lemma DependentReady(m0: map<Node, Slot>, n: Node, m: map<Node, Slot>, touched: set<Node>, deps: set<Node>,
                       todo: set<Node>, d: Node, gens: set<Gen>, gr: Graph, held: multiset<Gen>, h: Heap)
    requires n in m0 && Wired(m0, gens, gr) && deps == m0[n].dependents && d in deps
    requires Partway(Bumped(m0, n), m, touched, deps, todo, gens, gr, held, h)
    ensures d in m && d.graph == gr && Wired(m, gens, gr) && Sound(h, gens, held + Slots(m))
    ensures Spread(m) < Spread(m0)
  {
    hide Sound, Slots, Swept, Spread;
    SpreadShrinks(m0, m, n, touched, multiset(deps - todo));
    SweptKeys(Bumped(m0, n), m, touched, multiset(deps - todo));
  }

  lemma LookAt(nodes: set<Node>, n: Node)
    requires n in nodes
    ensures n in Look(nodes) && Look(nodes)[n] == Slot(n.val, n.epoch, n.closed, n.dependents)
  {
  }

  lemma SweptKeys(m0: map<Node, Slot>, m1: map<Node, Slot>, touched: set<Node>, starts: multiset<Node>)
    requires Swept(m0, m1, touched, starts)
    ensures m1.Keys == m0.Keys
  {
  }

  lemma OneMore(m1: map<Node, Slot>, m: map<Node, Slot>, m': map<Node, Slot>, touched: set<Node>, t: set<Node>,
                deps: set<Node>, todo: set<Node>, d: Node,
                gens: set<Gen>, gr: Graph, held: multiset<Gen>, h: Heap, h': Heap)
    requires Partway(m1, m, touched, deps, todo, gens, gr, held, h) && d in todo && todo <= deps
    requires Swept(m, m', t, multiset{d}) && Sound(h', gens, held + Slots(m'))
    ensures Partway(m1, m', touched + t, deps, todo - {d}, gens, gr, held, h')
  {
    hide Sound, Slots, Swept, Wired;
    SweptWired(m, m', t, multiset{d}, gens, gr);
    SweptThen(m1, m, m', touched, t, multiset(deps - todo), multiset{d});
    assert deps - (todo - {d}) == (deps - todo) + {d};
    assert multiset(deps - (todo - {d})) == multiset(deps - todo) + multiset{d};
  }

  lemma AllDone(m0: map<Node, Slot>, m: map<Node, Slot>, n: Node, touched: set<Node>,
                gens: set<Gen>, gr: Graph, held: multiset<Gen>, b: S.Option<Gen>, h: Heap)
    requires n in m0 && b == m0[n].val && Wired(m0, gens, gr)
    requires Partway(Bumped(m0, n), m, touched, m0[n].dependents, {}, gens, gr, held + One(b), h)
    ensures Swept(m0, m, touched + {n}, multiset{n})
    ensures Sound(h, gens, held + Slots(m) + One(b)) && (b.Some? ==> b.value in gens)
  {
    hide Sound, Slots, Swept;
    assert m0[n].dependents - {} == m0[n].dependents;
    SweptFrom(m0, m, n, touched);
    assert held + One(b) + Slots(m) == held + Slots(m) + One(b);
  }

  lemma SnapCalls(gens: set<Gen>, all: set<Closer>, gr: Graph)
    ensures Snap(gens, all, gr).calls == gr.calls
  {
  }

  lemma NothingCleaned(m: map<Node, Slot>, h: Heap)
    ensures SoleCleaned(m, h, {}, h)
  {
  }

  lemma FreedGrows(h: Heap, b: S.Option<Gen>, gens: set<Gen>, t: Heap)
    requires Freed(h, b, gens, t)
    ensures Grown(h, t)
  {
    hide Released, Older;
    if b.Some? { ReleasedGrows(h, b.value, gens); }
  }

  lemma SoundCalls(h: Heap, gens: set<Gen>, held: multiset<Gen>)
    requires Sound(h, gens, held)
    ensures NoRepeats(h.calls) && forall c :: c in h.calls ==> c in h.done
  {
    hide Balanced, Owned, Ordered, Untouched, Finished;
    TidyNoRepeats(h, gens, {});
  }

  lemma SlotReleasing(m: map<Node, Slot>, n: Node, h: Heap, gens: set<Gen>, held: multiset<Gen>)
    requires n in m && m[n].val.Some? && Sound(h, gens, held + Slots(m))
    ensures Releasing(h, [m[n].val.value], gens, held + Slots(m[n := Down(m[n])]), {})
  {
    hide Balanced, Tidy, Owned, Slots;
    SlotTaken(m, n, Down(m[n]));
    assert held + Slots(m) == held + Slots(m[n := Down(m[n])]) + multiset([m[n].val.value]);
  }

  /** A value its slot has held alone so far. */
  lemma StillSole(m0: map<Node, Slot>, h0: Heap, m: map<Node, Slot>, h: Heap, x: Node,
                  gens: set<Gen>, gr: Graph, held: multiset<Gen>)
    requires Sole(m0, h0, x) && Grown(h0, h) && x in m && m[x].val == m0[x].val
    requires Sound(h, gens, held + Slots(m)) && Wired(m, gens, gr)
    ensures Sole(m, h, x)
  {
    hide Sound, Slots, Releasing;
    SlotReleasing(m, x, h, gens, held);
    StillHeld(h, [m[x].val.value], gens, held + Slots(m[x := Down(m[x])]), {}, 0);
  }

  lemma MoreCleaned(m1: map<Node, Slot>, h0: Heap, m: map<Node, Slot>, h: Heap, m': map<Node, Slot>,
                    touched: set<Node>, t: set<Node>, deps: set<Node>, todo: set<Node>, d: Node,
                    gens: set<Gen>, gr: Graph, held: multiset<Gen>, h': Heap)
    requires Partway(m1, m, touched, deps, todo, gens, gr, held, h) && Swept(m, m', t, multiset{d})
    requires SoleCleaned(m1, h0, touched, h) && SoleCleaned(m, h, t, h')
    ensures SoleCleaned(m1, h0, touched + t, h')
  {
    ClosureIn(m, t, multiset{d});
    hide Sound, Slots, Closure, Wired;
    GrownTwice(h0, h, h');
    forall x, c | x in touched + t && Sole(m1, h0, x) && c in m1[x].val.value.closers ensures c in h'.calls {
      if x in touched {
        InLonger(h.calls, h'.calls, c);
      } else {
        StillSole(m1, h0, m, h, x, gens, gr, held);
      }
    }
  }

  /** The value taken out of n's slot is untouched until it is let go. */
  lemma OwnLetGo(v: Gen, h0: Heap, h: Heap, gens: set<Gen>, held: multiset<Gen>, t: Heap)
    requires v in h0.refs && h0.refs[v] == 1 && Grown(h0, h)
    requires Sound(h, gens, held + One(S.Some(v))) && Freed(h, S.Some(v), gens, t)
    ensures Untouched(h, v) && forall c :: c in v.closers ==> c in t.calls
  {
    hide Balanced, Tidy, Owned, Released, Untouched;
    assert multiset([v]) == multiset{v};
    StillHeld(h, [v], gens, held, {}, 0);
    LastReference(h, t, [v], gens, held, {});
  }

  lemma OwnCleaned(m0: map<Node, Slot>, h0: Heap, n: Node, h: Heap, touched: set<Node>,
                   gens: set<Gen>, held: multiset<Gen>, t: Heap)
    requires n in m0 && SoleCleaned(Bumped(m0, n), h0, touched, h)
    requires Sound(h, gens, held + One(m0[n].val)) && Freed(h, m0[n].val, gens, t) && Sound(t, gens, held)
    ensures SoleCleaned(m0, h0, touched + {n}, t) && OwnLast(m0, h0, touched + {n}, n, t.calls)
  {
    hide Sound, Freed, NoRepeats, CleanedFirst;
    FreedGrows(h, m0[n].val, gens, t);
    GrownTwice(h0, h, t);
    SoundCalls(h, gens, held + One(m0[n].val));
    SoundCalls(t, gens, held);
    if Sole(m0, h0, n) { OwnLetGo(m0[n].val.value, h0, h, gens, held, t); }
    forall x | x in touched && x != n && Sole(m0, h0, x) ensures Sole(Bumped(m0, n), h0, x) {}
    forall c | c in h.calls ensures c in t.calls { InLonger(h.calls, t.calls, c); }
    forall x | x in touched + {n} && x != n && Sole(m0, h0, x) && Sole(m0, h0, n)
      ensures CleanedFirst(t.calls, m0[x].val.value, m0[n].val.value)
    {
      FirstBy(h.calls, t.calls, m0[x].val.value, m0[n].val.value);
    }
  }

  // ---- Shutting down ---------------------------------------------------------------

  function Down(s: Slot): Slot
  {
    s.(val := S.None, closed := true)
  }

  lemma DownWired(m: map<Node, Slot>, n: Node, gens: set<Gen>, gr: Graph)
    requires n in m && Wired(m, gens, gr)
    ensures Wired(m[n := Down(m[n])], gens, gr)
  {
  }

  /** The members from k on are down, all other nodes as before. */
  ghost predicate DownFrom(m0: map<Node, Slot>, m: map<Node, Slot>, members: seq<Node>, k: nat)
    requires k <= |members|
  {
    m.Keys == m0.Keys && forall x :: x in m0 ==> m[x] == if x in members[k..] then Down(m0[x]) else m0[x]
  }

  lemma NoneDown(m: map<Node, Slot>, members: seq<Node>)
    ensures DownFrom(m, m, members, |members|)
  {
  }

  lemma OneMoreDown(m0: map<Node, Slot>, m: map<Node, Slot>, members: seq<Node>, i: nat)
    requires i < |members| && members[i] in m0 && DownFrom(m0, m, members, i + 1)
    ensures members[i] in m && DownFrom(m0, m[members[i] := Down(m[members[i]])], members, i)
  {
    assert members[i..] == [members[i]] + members[i + 1..];
  }

  ghost predicate AllCleaned(m0: map<Node, Slot>, h0: Heap, members: seq<Node>, k: nat, calls: seq<Closer>)
  {
    forall j, c :: k <= j < |members| && Sole(m0, h0, members[j]) && c in m0[members[j]].val.value.closers ==>
      c in calls
  }

  /** Of two members from k on whose values only their slots held, the later one's
      was cleaned up first. */
  ghost predicate LastFirst(m0: map<Node, Slot>, h0: Heap, members: seq<Node>, k: nat, calls: seq<Closer>)
  {
    forall i, j :: k <= i < j < |members| && members[i] !in members[i + 1..]
                   && Sole(m0, h0, members[i]) && Sole(m0, h0, members[j]) ==>
      CleanedFirst(calls, m0[members[j]].val.value, m0[members[i]].val.value)
  }

  /** Shutting down so far: members from k on were cleaned up in order. */
  ghost predicate ShutSoFar(m0: map<Node, Slot>, h0: Heap, members: seq<Node>, k: nat, h: Heap)
  {
    Grown(h0, h) && AllCleaned(m0, h0, members, k, h.calls) && LastFirst(m0, h0, members, k, h.calls)
  }

  /** A value only its slot held is untouched until the slot lets it go, and cleaned
      up then. */
  lemma SoleLetGo(m0: map<Node, Slot>, h0: Heap, m: map<Node, Slot>, h: Heap, t: Heap, n: Node,
                  gens: set<Gen>, held: multiset<Gen>)
    requires Sole(m0, h0, n) && Grown(h0, h) && n in m && m[n].val == m0[n].val
    requires Sound(h, gens, held + Slots(m)) && Freed(h, m[n].val, gens, t)
    ensures Untouched(h, m[n].val.value) && forall c :: c in m[n].val.value.closers ==> c in t.calls
  {
    hide Sound, Slots, Releasing, Released, Untouched;
    var v := m[n].val.value;
    SlotReleasing(m, n, h, gens, held);
    StillHeld(h, [v], gens, held + Slots(m[n := Down(m[n])]), {}, 0);
    LastReference(h, t, [v], gens, held + Slots(m[n := Down(m[n])]), {});
  }

  lemma OneMoreCleaned(m0: map<Node, Slot>, h0: Heap, m: map<Node, Slot>, h: Heap, t: Heap, members: seq<Node>, i: nat,
                       gens: set<Gen>, held: multiset<Gen>)
    requires i < |members| && members[i] in m0 && DownFrom(m0, m, members, i + 1)
    requires ShutSoFar(m0, h0, members, i + 1, h) && Sound(h, gens, held + Slots(m))
    requires Freed(h, m[members[i]].val, gens, t) && Grown(h, t)
    ensures AllCleaned(m0, h0, members, i, t.calls)
  {
    hide Sound, Slots, LastFirst, Freed;
    forall j, c | i <= j < |members| && Sole(m0, h0, members[j]) && c in m0[members[j]].val.value.closers
      ensures c in t.calls
    {
      if j > i || members[i] in members[i + 1..] {
        var k :| i + 1 <= k < |members| && members[k] == members[j];
        InLonger(h.calls, t.calls, c);
      } else {
        SoleLetGo(m0, h0, m, h, t, members[i], gens, held);
      }
    }
  }

  lemma OneMoreInOrder(m0: map<Node, Slot>, h0: Heap, m: map<Node, Slot>, h: Heap, t: Heap, members: seq<Node>, i: nat,
                       gens: set<Gen>, held: multiset<Gen>)
    requires i < |members| && members[i] in m0 && DownFrom(m0, m, members, i + 1)
    requires ShutSoFar(m0, h0, members, i + 1, h) && Sound(h, gens, held + Slots(m))
    requires Freed(h, m[members[i]].val, gens, t) && Grown(h, t) && NoRepeats(t.calls)
    requires forall c :: c in h.calls ==> c in h.done
    ensures LastFirst(m0, h0, members, i, t.calls)
  {
    hide Sound, Slots, Freed, CleanedFirst, NoRepeats;
    forall k, j | i <= k < j < |members| && members[k] !in members[k + 1..]
                  && Sole(m0, h0, members[k]) && Sole(m0, h0, members[j])
      ensures CleanedFirst(t.calls, m0[members[j]].val.value, m0[members[k]].val.value)
    {
      if k > i {
        FirstStays(h.calls, t.calls, m0[members[j]].val.value, m0[members[k]].val.value);
      } else {
        SoleLetGo(m0, h0, m, h, t, members[i], gens, held);
        FirstBy(h.calls, t.calls, m0[members[j]].val.value, m0[members[i]].val.value);
      }
    }
  }

  lemma OneMoreShut(m0: map<Node, Slot>, h0: Heap, m: map<Node, Slot>, h: Heap, t: Heap, members: seq<Node>, i: nat,
                    gens: set<Gen>, held: multiset<Gen>, held': multiset<Gen>)
    requires i < |members| && members[i] in m0 && DownFrom(m0, m, members, i + 1) && members[i] in m
    requires ShutSoFar(m0, h0, members, i + 1, h) && Sound(h, gens, held + Slots(m))
    requires Freed(h, m[members[i]].val, gens, t) && Sound(t, gens, held')
    ensures ShutSoFar(m0, h0, members, i, t)
  {
    hide Sound, Slots, Freed, LastFirst, AllCleaned, DownFrom, NoRepeats;
    FreedGrows(h, m[members[i]].val, gens, t);
    SoundCalls(h, gens, held + Slots(m));
    SoundCalls(t, gens, held');
    OneMoreCleaned(m0, h0, m, h, t, members, i, gens, held);
    OneMoreInOrder(m0, h0, m, h, t, members, i, gens, held);
  }

  lemma NothingShut(m0: map<Node, Slot>, h0: Heap, members: seq<Node>, h: Heap)
    requires h == h0.(closed := true)
    ensures ShutSoFar(m0, h0, members, |members|, h)
  {
  }

  method Seal(gr: Graph, ghost gens: set<Gen>, ghost all: set<Closer>)
    modifies gr`closed
    ensures Snap(gens, all, gr) == old(Snap(gens, all, gr)).(closed := true) && gr.closed
  {
    gr.closed := true;
  }

  lemma SealedSound(h: Heap, gens: set<Gen>, held: multiset<Gen>)
    requires Sound(h, gens, held)
    ensures Sound(h.(closed := true), gens, held)
  {
    hide DepsOf, Ordered, Owned, Older;
  }

  lemma CheckedSound(h: Heap, gens: set<Gen>, held: multiset<Gen>)
    requires Sound(h, gens, held)
    ensures Sound(Checked(h), gens, held) && Woken(Checked(h))
  {
    hide DepsOf, Ordered, Owned, Older;
  }

  /** CloseContext up to its wait, without interference: closes the graph, then
      every member, last constructed first. */
  method Close(gr: Graph, members: seq<Node>, ghost nodes: set<Node>, ghost gens: set<Gen>, ghost all: set<Closer>,
               ghost held: multiset<Gen>)
    returns (errs: seq<nat>)
    requires (forall n :: n in members ==> n in nodes) && Wired(Look(nodes), gens, gr) && World(gens, all, gr)
    requires Sound(Snap(gens, all, gr), gens, held + Slots(Look(nodes)))
    modifies nodes`val, nodes`closed, gens`refs, all, gr`closed, gr`live, gr`drained, gr`calls
    ensures old(gr.closed) ==>
              errs == [] && Look(nodes) == old(Look(nodes)) && Snap(gens, all, gr) == old(Snap(gens, all, gr))
    ensures !old(gr.closed) ==> gr.closed && DownFrom(old(Look(nodes)), Look(nodes), members, 0)
    ensures Sound(Snap(gens, all, gr), gens, held + Slots(Look(nodes)))
    ensures !old(gr.closed) ==> Woken(Snap(gens, all, gr))
    ensures !old(gr.closed) ==> LastFirst(old(Look(nodes)), old(Snap(gens, all, gr)), members, 0, gr.calls)
    ensures Reported(old(gr.calls), gr.calls, errs)
  {
    hide Wired, World, Sound, Slots, Reported, Snap, DownFrom, Look, ShutSoFar, Freed;
    NothingReported(gr.calls);
    errs := [];
    if gr.closed {
      return;
    }
    NoneDown(Look(nodes), members);
    ghost var m0, h0, calls0 := Look(nodes), Snap(gens, all, gr), gr.calls;
    SealedSound(Snap(gens, all, gr), gens, held + Slots(Look(nodes)));
    Seal(gr, gens, all);
    NothingShut(m0, h0, members, Snap(gens, all, gr));
    var i := |members|;
    while i > 0
      invariant 0 <= i <= |members| && gr.closed
      invariant Wired(Look(nodes), gens, gr)
      invariant DownFrom(m0, Look(nodes), members, i)
      invariant ShutSoFar(m0, h0, members, i, Snap(gens, all, gr))
      invariant Sound(Snap(gens, all, gr), gens, held + Slots(Look(nodes)))
      invariant Reported(calls0, gr.calls, errs)
    {
      i := i - 1;
      ghost var m, h, calls := Look(nodes), Snap(gens, all, gr), gr.calls;
      LookAt(nodes, members[i]);
      WiredGraph(m, members[i], gens, gr);
      DownWired(m, members[i], gens, gr);
      OneMoreDown(m0, m, members, i);
      var e := members[i].Shut(nodes, gens, all, held);
      OneMoreShut(m0, h0, m, h, Snap(gens, all, gr), members, i, gens, held, held + Slots(Look(nodes)));
      ReportedTwice(calls0, calls, gr.calls, errs, e);
      errs := errs + e;
    }
    ShutInOrder(m0, h0, members, gens, all, gr);
    CheckedSound(Snap(gens, all, gr), gens, held + Slots(Look(nodes)));
    gr.CheckDrained(gens, all);
  }

  lemma ShutInOrder(m0: map<Node, Slot>, h0: Heap, members: seq<Node>, gens: set<Gen>, all: set<Closer>, gr: Graph)
    requires ShutSoFar(m0, h0, members, 0, Snap(gens, all, gr))
    ensures LastFirst(m0, h0, members, 0, gr.calls)
  {
  }

  lemma WiredGraph(m: map<Node, Slot>, d: Node, gens: set<Gen>, gr: Graph)
    requires d in m && Wired(m, gens, gr)
    ensures d.graph == gr
  {
  }

  /** Closing a graph whose values only its providers hold cleans up everything at
      once: no value is left, every cleanup has been called, and drained is closed
      unless builds are still in flight. */
  lemma CloseIdle(m0: map<Node, Slot>, m: map<Node, Slot>, members: seq<Node>, h: Heap, gens: set<Gen>, top: nat)
    requires DownFrom(m0, m, members, 0) && forall x :: x in m0 ==> x in members
    requires Sound(h, gens, multiset{} + Slots(m)) && Woken(h) && h.closed
    requires forall y :: y in gens ==> y.stamp < top
    ensures h.live == {} && forall g :: g in gens ==> Finished(h, g)
    ensures h.drained <==> h.inflight == {}
  {
    hide Slots, Balanced, Tidy, Owned, Finished;
    assert members[0..] == members;
    SlotsEmpty(m);
    assert multiset{} + Slots(m) == multiset{};
    NothingHeld(h, gens, top);
  }
}
