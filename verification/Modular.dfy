/** Analysing packages one by one in import order, with exported facts, marks
    the same functions as one fixpoint over the whole program. */
module Modular {
  import opened Paths
  import opened Analyzer

  /** Calls go to the same package or to one analysed before it. */
  ghost predicate ImportOrder(prog: Sites)
  {
    && (forall f :: f in prog ==> f.instance == 0)
    && (forall e :: e in Calls(prog) ==> e.1.pkg <= e.0.pkg)
  }

  function Of(prog: Sites, k: nat): Sites
  {
    map f | f in prog && f.pkg == k :: prog[f]
  }

  /** Seen as a whole, the program has no imported facts. */
  ghost predicate WholeForces(prog: Sites, f: Func)
  {
    Forces(prog, 0, map[], f)
  }

  ghost predicate WholeGenuine(prog: Sites, f: Func, via: string)
  {
    Genuine(prog, 0, map[], f, via)
  }

  /** The facts of the packages before k are those of the whole program. */
  ghost predicate FactsUpTo(prog: Sites, k: nat, facts: Marks)
  {
    && (forall f :: f in facts <==> f in prog && f.pkg < k && WholeForces(prog, f))
    && (forall f :: f in facts ==> facts[f] != "" && WholeGenuine(prog, f, facts[f]))
  }

  lemma OfCalls(prog: Sites, k: nat)
    ensures forall e :: e in Calls(Of(prog, k)) <==> e in Calls(prog) && e.0.pkg == k
    ensures Calls(Of(prog, k)) <= Calls(prog)
    ensures forall e :: e in Calls(prog) ==> e.0 in prog && e.1 == Origin(e.1)
  {
    forall e | e in Calls(prog) && e.0.pkg == k ensures e in Calls(Of(prog, k)) {
      assert e.0 in Of(prog, k) && Of(prog, k)[e.0] == prog[e.0];
    }
    forall e | e in Calls(Of(prog, k)) ensures e in Calls(prog) && e.0.pkg == k {
      assert Of(prog, k)[e.0] == prog[e.0];
    }
  }

  /** How a root of package k looks in the whole program. */
  lemma RootWhole(prog: Sites, k: nat, facts: Marks, r: Func, tail: string)
    requires Forced(Of(prog, k), k, facts, r, tail)
    ensures Forced(prog, 0, map[], r, tail) || (r in facts && facts[r] == tail)
  {
  }

  lemma RootHere(prog: Sites, k: nat, facts: Marks, r: Func)
    requires Root(prog, 0, map[], r)
    ensures r in prog && (r.pkg == k ==> Root(Of(prog, k), k, facts, r))
  {
    var tail :| Forced(prog, 0, map[], r, tail);
    if r.pkg == k {
      assert Of(prog, k)[r] == prog[r];
      assert Forced(Of(prog, k), k, facts, r, tail);
    }
  }

  // ---- From the package to the program -------------------------------------------

  lemma PackageThenWhole(prog: Sites, k: nat, facts: Marks, f: Func)
    requires FactsUpTo(prog, k, facts) && Forces(Of(prog, k), k, facts, f)
    ensures WholeForces(prog, f)
  {
    hide Forced, Calls, Of, WholeGenuine;
    var r :| Reaches(Calls(Of(prog, k)), f, r) && Root(Of(prog, k), k, facts, r);
    var tail :| Forced(Of(prog, k), k, facts, r, tail);
    OfCalls(prog, k);
    RootWhole(prog, k, facts, r, tail);
    var n: nat :| ReachesIn(Calls(Of(prog, k)), f, r, n);
    ReachesMoreIn(Calls(Of(prog, k)), Calls(prog), f, r, n);
    if Forced(prog, 0, map[], r, tail) {
      assert Root(prog, 0, map[], r);
    } else {
      var q :| Reaches(Calls(prog), r, q) && Root(prog, 0, map[], q);
      ReachesTrans(Calls(prog), f, r, q);
    }
  }

  // ---- From the program to the package ----------------------------------------------

  lemma {:induction false} FirstStep<T>(edges: set<(T, T)>, x: T, y: T, n: nat) returns (e: (T, T))
    requires n > 0 && ReachesIn(edges, x, y, n)
    ensures e in edges && e.0 == x && ReachesIn(edges, e.1, y, n - 1)
    decreases n
  {
    var last :| last in edges && last.1 == y && ReachesIn(edges, x, last.0, n - 1);
    if n == 1 {
      e := last;
    } else {
      e := FirstStep(edges, x, last.0, n - 1);
      assert ReachesIn(edges, e.1, y, n - 1);
    }
  }

  lemma ForcesBack(fs: Sites, k: nat, facts: Marks, e: (Func, Func))
    requires e in Calls(fs) && Forces(fs, k, facts, e.1)
    ensures Forces(fs, k, facts, e.0)
  {
    hide Calls, Root;
    var r :| Reaches(Calls(fs), e.1, r) && Root(fs, k, facts, r);
    ReachesSelf(Calls(fs), e.0);
    ReachesStep(Calls(fs), e.0, e);
    ReachesTrans(Calls(fs), e.0, e.1, r);
  }

  lemma ReachesRootIn(prog: Sites, g: Func, r: Func, n: nat)
    requires ReachesIn(Calls(prog), g, r, n) && Root(prog, 0, map[], r)
    ensures g in prog && WholeForces(prog, g)
  {
    assert Reaches(Calls(prog), g, r);
    if n == 0 {
      RootHere(prog, 0, map[], r);
    } else {
      var e := FirstStep(Calls(prog), g, r, n);
      OfCalls(prog, 0);
    }
  }

  lemma FactRoot(prog: Sites, k: nat, facts: Marks, g: Func)
    requires FactsUpTo(prog, k, facts) && g in facts
    ensures Forces(Of(prog, k), k, facts, g)
  {
    hide Calls, Of, WholeForces, WholeGenuine;
    assert Forced(Of(prog, k), k, facts, g, facts[g]);
    assert Root(Of(prog, k), k, facts, g);
    ReachesSelf(Calls(Of(prog, k)), g);
  }

  lemma {:induction false} WholeThenPackage(prog: Sites, k: nat, facts: Marks,
                                            f: Func, r: Func, n: nat)
    requires ImportOrder(prog) && FactsUpTo(prog, k, facts) && f.pkg == k
    requires ReachesIn(Calls(prog), f, r, n) && Root(prog, 0, map[], r)
    ensures Forces(Of(prog, k), k, facts, f)
    decreases n
  {
    hide Calls, Of, WholeForces, WholeGenuine, Root;
    if n == 0 {
      RootHere(prog, k, facts, r);
      ReachesSelf(Calls(Of(prog, k)), f);
    } else {
      OfCalls(prog, k);
      var e := FirstStep(Calls(prog), f, r, n);
      if e.1.pkg == k {
        WholeThenPackage(prog, k, facts, e.1, r, n - 1);
      } else {
        ReachesRootIn(prog, e.1, r, n - 1);
        FactRoot(prog, k, facts, e.1);
      }
      ForcesBack(Of(prog, k), k, facts, e);
    }
  }

  /** For a function of package k, the package's own analysis and the program's
      agree. */
  lemma PackageIffWhole(prog: Sites, k: nat, facts: Marks, f: Func)
    requires ImportOrder(prog) && FactsUpTo(prog, k, facts) && f.pkg == k
    ensures Forces(Of(prog, k), k, facts, f) <==> WholeForces(prog, f)
  {
    hide ImportOrder, FactsUpTo, Calls, Of, Root, ReachesIn;
    if Forces(Of(prog, k), k, facts, f) {
      PackageThenWhole(prog, k, facts, f);
    }
    if WholeForces(prog, f) {
      var r :| Reaches(Calls(prog), f, r) && Root(prog, 0, map[], r);
      var n: nat :| ReachesIn(Calls(prog), f, r, n);
      WholeThenPackage(prog, k, facts, f, r, n);
    }
  }

  // ---- Via across packages -----------------------------------------------------------

  lemma {:induction false} TextJoined(p: seq<Func>, q: seq<Func>, tail: string)
    requires p != [] && q != [] && p[|p| - 1] == q[0]
    ensures Text(p + q[1..], tail) == Text(p, Text(q, tail))
    decreases p
  {
    if |p| == 1 {
      assert p + q[1..] == q;
    } else {
      assert (p + q[1..])[1..] == p[1..] + q[1..];
      TextJoined(p[1..], q, tail);
    }
  }

  lemma PathJoined<T>(edges: set<(T, T)>, p: seq<T>, q: seq<T>)
    requires IsPath(edges, p) && IsPath(edges, q) && p[|p| - 1] == q[0]
    ensures IsPath(edges, p + q[1..]) && (p + q[1..])[0] == p[0] && (p + q[1..])[|p| + |q| - 2] == q[|q| - 1]
  {
    var s := p + q[1..];
    forall i | 0 <= i < |s| - 1 ensures (s[i], s[i + 1]) in edges {
      if i < |p| - 1 {
        assert (s[i], s[i + 1]) == (p[i], p[i + 1]);
      } else {
        var j := i - (|p| - 1);
        assert (s[i], s[i + 1]) == (q[j], q[j + 1]);
      }
    }
  }

  /** A Via that continues with an imported fact names a path of the program. */
  lemma ViaAcross(prog: Sites, k: nat, facts: Marks, f: Func, via: string)
    requires FactsUpTo(prog, k, facts) && Genuine(Of(prog, k), k, facts, f, via)
    ensures WholeGenuine(prog, f, via)
  {
    hide Forced, Calls, Of, WholeForces;
    var p, tail :| IsPath(Calls(Of(prog, k)), p) && p[0] == f
                   && Forced(Of(prog, k), k, facts, p[|p| - 1], tail) && via == Text(p, tail);
    OfCalls(prog, k);
    RootWhole(prog, k, facts, p[|p| - 1], tail);
    assert IsPath(Calls(prog), p);
    if !Forced(prog, 0, map[], p[|p| - 1], tail) {
      var q, end :| IsPath(Calls(prog), q) && q[0] == p[|p| - 1]
                    && Forced(prog, 0, map[], q[|q| - 1], end) && tail == Text(q, end);
      PathJoined(Calls(prog), p, q);
      TextJoined(p, q, end);
    }
  }

  // ---- All packages ---------------------------------------------------------------------

  lemma OfPackage(prog: Sites, k: nat)
    requires ImportOrder(prog)
    ensures Package(Of(prog, k), k)
  {
  }

  lemma NextFacts(prog: Sites, k: nat, facts: Marks, forces: Marks)
    requires ImportOrder(prog) && FactsUpTo(prog, k, facts)
    requires AllGenuine(Of(prog, k), k, facts, forces)
    requires forall f :: f in forces <==> f in Of(prog, k) && Forces(Of(prog, k), k, facts, f)
    ensures FactsUpTo(prog, k + 1, facts + forces)
  {
    hide ImportOrder, Forces, Genuine, WholeForces, WholeGenuine;
    var next := facts + forces;
    forall f ensures f in next <==> f in prog && f.pkg < k + 1 && WholeForces(prog, f) {
      if f.pkg == k { PackageIffWhole(prog, k, facts, f); }
    }
    forall f | f in next ensures next[f] != "" && WholeGenuine(prog, f, next[f]) {
      if f in forces { ViaAcross(prog, k, facts, f, forces[f]); }
    }
  }

  /** The packages in import order, each with the facts of those before it. */
  method Analyze(prog: Sites, n: nat) returns (facts: Marks)
    requires ImportOrder(prog) && forall f :: f in prog ==> f.pkg < n
    ensures forall f :: f in facts <==> f in prog && WholeForces(prog, f)
    ensures forall f :: f in facts ==> WholeGenuine(prog, f, facts[f])
  {
    hide ImportOrder, Forces, WholeForces, WholeGenuine, AllGenuine, Of;
    facts := map[];
    for k := 0 to n
      invariant FactsUpTo(prog, k, facts)
    {
      OfPackage(prog, k);
      var forces := Fixpoint(Of(prog, k), k, facts);
      NextFacts(prog, k, facts, forces);
      facts := facts + forces;
    }
  }
}
