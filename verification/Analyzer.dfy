/** coldwirevet's interprocedural fixpoint: which functions, when called, force a
    Deferred provider. What each function executes is taken as a list of sites. */
module Analyzer {
  import opened Paths
  import opened State

  /** A declared function, or an instance of a generic one. */
  datatype Func = Func(pkg: nat, id: nat, name: string, instance: nat)

  function Origin(f: Func): Func
  {
    f.(instance := 0)
  }

  /** Something that happens when a function runs: a Get on the Deferred provider
      forced, or a static call. */
  datatype Site = Site(forced: string, callee: Option<Func>)

  /** What each declared function executes, and what is known of each. */
  type Sites = map<Func, seq<Site>>
  type Marks = map<Func, string>

  function Lookup(m: Marks, f: Func): string
  {
    if f in m then m[f] else ""
  }

  function ForcesVia(f: Func, pkg: nat, forces: Marks, facts: Marks): string
  {
    if Origin(f).pkg == pkg then Lookup(forces, Origin(f)) else Lookup(facts, Origin(f))
  }

  function FirstForce(sites: seq<Site>, pkg: nat, forces: Marks, facts: Marks): string
  {
    if sites == [] then ""
    else if sites[0].forced != "" then sites[0].forced
    else if sites[0].callee.Some? && ForcesVia(sites[0].callee.value, pkg, forces, facts) != "" then
      sites[0].callee.value.name + " → " + ForcesVia(sites[0].callee.value, pkg, forces, facts)
    else FirstForce(sites[1..], pkg, forces, facts)
  }

  // ---- What it means to force ----------------------------------------------------

  /** The static call graph. */
  ghost function Calls(fs: Sites): set<(Func, Func)>
  {
    set f, i | f in fs && 0 <= i < |fs[f]| && fs[f][i].callee.Some? :: (f, Origin(fs[f][i].callee.value))
  }

  /** r forces the provider named by tail itself, or its package's facts say that
      it forces one by way of tail. */
  ghost predicate Forced(fs: Sites, pkg: nat, facts: Marks, r: Func, tail: string)
  {
    && tail != ""
    && ((r in fs && exists i :: 0 <= i < |fs[r]| && fs[r][i].forced == tail)
        || (r.pkg != pkg && r in facts && facts[r] == tail))
  }

  ghost predicate Root(fs: Sites, pkg: nat, facts: Marks, r: Func)
  {
    exists tail :: Forced(fs, pkg, facts, r, tail)
  }

  /** The site calls g, a declared function, or an instance of it. */
  predicate CallsOrInstantiates(s: Site, g: Func)
  {
    && s.callee.Some? && g.instance == 0
    && s.callee.value.pkg == g.pkg && s.callee.value.id == g.id && s.callee.value.name == g.name
  }

  /** An edge for each site that calls a function, by way of an instance or not. */
  lemma CallsAreSites(fs: Sites, f: Func, g: Func)
    ensures (f, g) in Calls(fs) <==> f in fs && exists i :: 0 <= i < |fs[f]| && CallsOrInstantiates(fs[f][i], g)
  {
    if (f, g) in Calls(fs) {
      var i :| 0 <= i < |fs[f]| && fs[f][i].callee.Some? && g == Origin(fs[f][i].callee.value);
      assert CallsOrInstantiates(fs[f][i], g);
    }
    if f in fs && exists i :: 0 <= i < |fs[f]| && CallsOrInstantiates(fs[f][i], g) {
      var i :| 0 <= i < |fs[f]| && CallsOrInstantiates(fs[f][i], g);
      assert g == Origin(fs[f][i].callee.value);
    }
  }

  /** Some static call path leads from f to a forced site or an imported fact. */
  ghost predicate Forces(fs: Sites, pkg: nat, facts: Marks, f: Func)
  {
    exists r :: Reaches(Calls(fs), f, r) && Root(fs, pkg, facts, r)
  }

  /** What Via says of a path and of how it ends. */
  function Text(p: seq<Func>, tail: string): string
    requires p != []
  {
    if |p| == 1 then tail else p[1].name + " → " + Text(p[1..], tail)
  }

  /** via names a call path that exists, and the way it ends. */
  ghost predicate Genuine(fs: Sites, pkg: nat, facts: Marks, f: Func, via: string)
  {
    exists p, tail :: IsPath(Calls(fs), p) && p[0] == f && Forced(fs, pkg, facts, p[|p| - 1], tail)
                      && via == Text(p, tail)
  }

  /** The declared functions of one package. */
  predicate Package(fs: Sites, pkg: nat)
  {
    forall f :: f in fs ==> f.pkg == pkg && f.instance == 0
  }

  // ---- One step of the loop --------------------------------------------------------

  /** The site forces, directly or through a function marked so far. */
  predicate Hits(s: Site, pkg: nat, forces: Marks, facts: Marks)
  {
    s.forced != "" || (s.callee.Some? && ForcesVia(s.callee.value, pkg, forces, facts) != "")
  }

  /** firstForce finds something exactly when some site hits. */
  lemma {:induction false} FirstForceIff(sites: seq<Site>, pkg: nat, forces: Marks, facts: Marks)
    ensures FirstForce(sites, pkg, forces, facts) != "" <==>
              exists i :: 0 <= i < |sites| && Hits(sites[i], pkg, forces, facts)
    decreases sites
  {
    hide ForcesVia;
    if sites != [] {
      FirstForceIff(sites[1..], pkg, forces, facts);
      if i :| 0 <= i < |sites| - 1 && Hits(sites[1..][i], pkg, forces, facts) {
        assert sites[i + 1] == sites[1..][i];
      }
      if i :| 0 <= i < |sites| && Hits(sites[i], pkg, forces, facts) {
        if i > 0 { assert sites[1..][i - 1] == sites[i]; }
      }
    }
  }

  /** It is the first of them that firstForce reports, and what it says of it. */
  lemma {:induction false} FirstForceFound(sites: seq<Site>, pkg: nat, forces: Marks, facts: Marks)
      returns (i: nat)
    requires FirstForce(sites, pkg, forces, facts) != ""
    ensures i < |sites| && Hits(sites[i], pkg, forces, facts)
    ensures forall j :: 0 <= j < i ==> !Hits(sites[j], pkg, forces, facts)
    ensures if sites[i].forced != "" then FirstForce(sites, pkg, forces, facts) == sites[i].forced
            else sites[i].callee.Some?
                 && FirstForce(sites, pkg, forces, facts)
                    == sites[i].callee.value.name + " → " + ForcesVia(sites[i].callee.value, pkg, forces, facts)
    decreases sites
  {
    hide ForcesVia;
    if Hits(sites[0], pkg, forces, facts) {
      i := 0;
    } else {
      var k := FirstForceFound(sites[1..], pkg, forces, facts);
      i := k + 1;
      forall j | 0 <= j < i ensures !Hits(sites[j], pkg, forces, facts) {
        if j > 0 { assert sites[j] == sites[1..][j - 1]; }
      }
    }
  }

  lemma GenuineSite(fs: Sites, pkg: nat, facts: Marks, f: Func, i: nat)
    requires f in fs && i < |fs[f]| && fs[f][i].forced != ""
    ensures Genuine(fs, pkg, facts, f, fs[f][i].forced)
  {
    var p, tail := [f], fs[f][i].forced;
    assert IsPath(Calls(fs), p) && Forced(fs, pkg, facts, p[|p| - 1], tail) && Text(p, tail) == tail;
  }

  /** A callee that is marked with a genuine Via passes it on. */
  lemma GenuineCall(fs: Sites, pkg: nat, facts: Marks, f: Func, i: nat, via: string)
    requires f in fs && i < |fs[f]| && fs[f][i].callee.Some?
    requires Genuine(fs, pkg, facts, Origin(fs[f][i].callee.value), via)
    ensures Genuine(fs, pkg, facts, f, fs[f][i].callee.value.name + " → " + via)
  {
    var g := Origin(fs[f][i].callee.value);
    var q, tail :| IsPath(Calls(fs), q) && q[0] == g && Forced(fs, pkg, facts, q[|q| - 1], tail)
                   && via == Text(q, tail);
    var p := [f] + q;
    assert (f, g) in Calls(fs);
    PathFrom(Calls(fs), f, q);
    assert p[1..] == q;
    assert Text(p, tail) == g.name + " → " + Text(q, tail);
  }

  lemma PathFrom<T>(edges: set<(T, T)>, x: T, q: seq<T>)
    requires IsPath(edges, q) && (x, q[0]) in edges
    ensures IsPath(edges, [x] + q)
  {
    var p := [x] + q;
    forall i | 0 <= i < |p| - 1 ensures (p[i], p[i + 1]) in edges {
      if i > 0 { assert (p[i], p[i + 1]) == (q[i - 1], q[i - 1 + 1]); }
    }
  }

  lemma GenuineFact(fs: Sites, pkg: nat, facts: Marks, g: Func)
    requires g.pkg != pkg && g in facts && facts[g] != ""
    ensures Genuine(fs, pkg, facts, g, facts[g])
  {
    var p := [g];
    assert IsPath(Calls(fs), p) && Forced(fs, pkg, facts, p[|p| - 1], facts[g]) && Text(p, facts[g]) == facts[g];
  }

  ghost predicate AllGenuine(fs: Sites, pkg: nat, facts: Marks, forces: Marks)
  {
    forall f :: f in forces ==> f in fs && forces[f] != "" && Genuine(fs, pkg, facts, f, forces[f])
  }

  /** Marking a function by firstForce is genuine if the marks so far are. */
  lemma MarkGenuine(fs: Sites, pkg: nat, facts: Marks, forces: Marks, f: Func)
    requires f in fs && AllGenuine(fs, pkg, facts, forces)
    requires FirstForce(fs[f], pkg, forces, facts) != ""
    ensures Genuine(fs, pkg, facts, f, FirstForce(fs[f], pkg, forces, facts))
  {
    hide Genuine, FirstForce;
    var i := FirstForceFound(fs[f], pkg, forces, facts);
    if fs[f][i].forced != "" {
      GenuineSite(fs, pkg, facts, f, i);
    } else {
      var c := fs[f][i].callee.value;
      if Origin(c).pkg != pkg { GenuineFact(fs, pkg, facts, Origin(c)); }
      GenuineCall(fs, pkg, facts, f, i, ForcesVia(c, pkg, forces, facts));
    }
  }

  // ---- The loop -----------------------------------------------------------------------

  /** No unmarked function would be marked by another turn. */
  ghost predicate Stable(fs: Sites, pkg: nat, facts: Marks, forces: Marks, seen: set<Func>)
  {
    forall f :: f in seen && f in fs && f !in forces ==> FirstForce(fs[f], pkg, forces, facts) == ""
  }

  lemma GenuineForces(fs: Sites, pkg: nat, facts: Marks, f: Func, via: string)
    requires Genuine(fs, pkg, facts, f, via)
    ensures Forces(fs, pkg, facts, f)
  {
    var p, tail :| IsPath(Calls(fs), p) && p[0] == f && Forced(fs, pkg, facts, p[|p| - 1], tail)
                   && via == Text(p, tail);
    PathReaches(Calls(fs), p);
    assert Root(fs, pkg, facts, p[|p| - 1]);
  }

  lemma CallerMarked(fs: Sites, pkg: nat, facts: Marks, forces: Marks, e: (Func, Func))
    requires Package(fs, pkg) && AllGenuine(fs, pkg, facts, forces) && Stable(fs, pkg, facts, forces, fs.Keys)
    requires e in Calls(fs) && ForcesVia(e.1, pkg, forces, facts) != ""
    ensures ForcesVia(e.0, pkg, forces, facts) != ""
  {
    hide Genuine;
    var i :| 0 <= i < |fs[e.0]| && fs[e.0][i].callee.Some? && e.1 == Origin(fs[e.0][i].callee.value);
    assert Hits(fs[e.0][i], pkg, forces, facts);
    FirstForceIff(fs[e.0], pkg, forces, facts);
  }

  lemma {:induction false} MarkedBack(fs: Sites, pkg: nat, facts: Marks, forces: Marks,
                                      f: Func, y: Func, n: nat)
    requires Package(fs, pkg) && AllGenuine(fs, pkg, facts, forces) && Stable(fs, pkg, facts, forces, fs.Keys)
    requires ReachesIn(Calls(fs), f, y, n) && ForcesVia(y, pkg, forces, facts) != ""
    ensures ForcesVia(f, pkg, forces, facts) != ""
    decreases n
  {
    hide AllGenuine, Stable, ForcesVia, Package, Calls;
    if n > 0 {
      var e :| e in Calls(fs) && e.1 == y && ReachesIn(Calls(fs), f, e.0, n - 1);
      CallerMarked(fs, pkg, facts, forces, e);
      MarkedBack(fs, pkg, facts, forces, f, e.0, n - 1);
    }
  }

  lemma RootMarked(fs: Sites, pkg: nat, facts: Marks, forces: Marks, r: Func)
    requires Package(fs, pkg) && AllGenuine(fs, pkg, facts, forces) && Stable(fs, pkg, facts, forces, fs.Keys)
    requires Root(fs, pkg, facts, r) && r == Origin(r)
    ensures ForcesVia(r, pkg, forces, facts) != ""
  {
    hide Genuine;
    var tail :| Forced(fs, pkg, facts, r, tail);
    if r in fs && exists i :: 0 <= i < |fs[r]| && fs[r][i].forced == tail {
      var i :| 0 <= i < |fs[r]| && fs[r][i].forced == tail;
      assert Hits(fs[r][i], pkg, forces, facts);
      FirstForceIff(fs[r], pkg, forces, facts);
    }
  }

  lemma ReachedOrigin(fs: Sites, f: Func, r: Func)
    requires f == Origin(f) && Reaches(Calls(fs), f, r)
    ensures r == Origin(r)
  {
    var n: nat :| ReachesIn(Calls(fs), f, r, n);
    if n > 0 {
      var e :| e in Calls(fs) && e.1 == r && ReachesIn(Calls(fs), f, e.0, n - 1);
    }
  }

  /** The marks are the least fixpoint: a function is marked if and only if a call
      path leads from it to a forced site or an imported fact. */
  lemma MarkedIffForces(fs: Sites, pkg: nat, facts: Marks, forces: Marks, f: Func)
    requires Package(fs, pkg) && AllGenuine(fs, pkg, facts, forces) && Stable(fs, pkg, facts, forces, fs.Keys)
    ensures f in forces <==> f in fs && Forces(fs, pkg, facts, f)
  {
    hide Genuine, Stable, Calls, Root;
    if f in forces {
      GenuineForces(fs, pkg, facts, f, forces[f]);
    }
    if f in fs && Forces(fs, pkg, facts, f) {
      var r :| Reaches(Calls(fs), f, r) && Root(fs, pkg, facts, r);
      ReachedOrigin(fs, f, r);
      RootMarked(fs, pkg, facts, forces, r);
      var n: nat :| ReachesIn(Calls(fs), f, r, n);
      MarkedBack(fs, pkg, facts, forces, f, r, n);
    }
  }

  /** Marked by this analysis or, in another package, by an imported fact. */
  predicate Marked(pkg: nat, forces: Marks, facts: Marks, g: Func)
  {
    if g.pkg == pkg then g in forces else g in facts && facts[g] != ""
  }

  /** A site that calls a marked function, or an instance of one, marks its own. */
  lemma MarkedThroughInstance(fs: Sites, pkg: nat, facts: Marks, forces: Marks, f: Func, i: nat, g: Func)
    requires Package(fs, pkg) && AllGenuine(fs, pkg, facts, forces) && Stable(fs, pkg, facts, forces, fs.Keys)
    requires f in fs && i < |fs[f]| && CallsOrInstantiates(fs[f][i], g) && Marked(pkg, forces, facts, g)
    ensures f in forces
  {
    hide Genuine;
    assert g == Origin(fs[f][i].callee.value);
    assert Hits(fs[f][i], pkg, forces, facts);
    FirstForceIff(fs[f], pkg, forces, facts);
  }

  /** Marks functions until nothing changes, in any order. */
  method Fixpoint(fs: Sites, pkg: nat, facts: Marks) returns (forces: Marks)
    requires Package(fs, pkg)
    ensures AllGenuine(fs, pkg, facts, forces)
    ensures forall f :: f in forces <==> f in fs && Forces(fs, pkg, facts, f)
    ensures forall f, i, g ::
              f in fs && 0 <= i < |fs[f]| && CallsOrInstantiates(fs[f][i], g) && Marked(pkg, forces, facts, g) ==>
              f in forces
  {
    hide Genuine, FirstForce, Forces, CallsOrInstantiates, Marked;
    forces := map[];
    var changed := true;
    while changed
      invariant AllGenuine(fs, pkg, facts, forces)
      invariant !changed ==> Stable(fs, pkg, facts, forces, fs.Keys)
      decreases fs.Keys - forces.Keys, changed
    {
      changed := false;
      var todo := fs.Keys;
      ghost var before := forces;
      while todo != {}
        invariant todo <= fs.Keys
        invariant AllGenuine(fs, pkg, facts, forces)
        invariant before.Keys <= forces.Keys && (changed ==> before.Keys != forces.Keys)
        invariant !changed ==> Stable(fs, pkg, facts, forces, fs.Keys - todo)
        invariant !changed ==> forces == before
        decreases todo
      {
        var f :| f in todo;
        todo := todo - {f};
        if f !in forces {
          var via := FirstForce(fs[f], pkg, forces, facts);
          if via != "" {
            MarkGenuine(fs, pkg, facts, forces, f);
            forces := forces[f := via];
            changed := true;
          }
        }
      }
      assert fs.Keys - todo == fs.Keys;
    }
    forall f ensures f in forces <==> f in fs && Forces(fs, pkg, facts, f) {
      MarkedIffForces(fs, pkg, facts, forces, f);
    }
    forall f, i, g | f in fs && 0 <= i < |fs[f]| && CallsOrInstantiates(fs[f][i], g) && Marked(pkg, forces, facts, g)
      ensures f in forces
    {
      MarkedThroughInstance(fs, pkg, facts, forces, f, i, g);
    }
  }

  // ---- Reports ----------------------------------------------------------------------

  lemma NoCallsOut(fs: Sites, g: Func, r: Func)
    requires g !in fs && Reaches(Calls(fs), g, r)
    ensures r == g
  {
    var n: nat :| ReachesIn(Calls(fs), g, r, n);
    ClosedSetHolds(Calls(fs), {g}, g, r, n);
  }

  /** A site hits exactly when it, or a call path from its callee, forces a Deferred
      provider; whether the callee is declared here, elsewhere, or not at all. */
  lemma HitsIffForces(fs: Sites, pkg: nat, facts: Marks, forces: Marks, s: Site)
    requires Package(fs, pkg) && AllGenuine(fs, pkg, facts, forces)
    requires forall f :: f in forces <==> f in fs && Forces(fs, pkg, facts, f)
    ensures Hits(s, pkg, forces, facts) <==>
              s.forced != "" || (s.callee.Some? && Forces(fs, pkg, facts, Origin(s.callee.value)))
  {
    hide Genuine, Calls;
    if s.callee.Some? {
      var g := Origin(s.callee.value);
      if g !in fs {
        if Forces(fs, pkg, facts, g) {
          var r :| Reaches(Calls(fs), g, r) && Root(fs, pkg, facts, r);
          NoCallsOut(fs, g, r);
        }
        if g.pkg != pkg && Lookup(facts, g) != "" {
          assert Forced(fs, pkg, facts, g, facts[g]);
          ReachesSelf(Calls(fs), g);
        }
      }
    }
  }

  /** Reports, in order, the sites that force a Deferred provider. */
  method ReportEager(sites: seq<Site>, pkg: nat, forces: Marks, facts: Marks)
    returns (reported: seq<nat>)
    ensures forall i :: i in reported <==> 0 <= i < |sites| && Hits(sites[i], pkg, forces, facts)
    ensures forall i, j :: 0 <= i < j < |reported| ==> reported[i] < reported[j]
  {
    reported := [];
    for k := 0 to |sites|
      invariant forall i :: i in reported <==> 0 <= i < k && Hits(sites[i], pkg, forces, facts)
      invariant forall i :: 0 <= i < |reported| ==> reported[i] < k
      invariant forall i, j :: 0 <= i < j < |reported| ==> reported[i] < reported[j]
    {
      if sites[k].forced != "" {
        reported := reported + [k];
      } else if sites[k].callee.Some? && ForcesVia(sites[k].callee.value, pkg, forces, facts) != "" {
        reported := reported + [k];
      }
    }
  }
}
