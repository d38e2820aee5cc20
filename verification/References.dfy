/** Who holds a reference to which value: refs counts exactly these. */
module References {
  import opened State
  import opened Steps
  import opened Invariants

  /** The places of the runtime that own one reference while they are filled. */
  datatype Place =
    | InSlot(n: nat)            // the current value of a provider
    | InWalk(i: nat)            // swapped out by an invalidation, not yet released
    | InShut                    // swapped out by Close, not yet released
    | InDeps(b: nat, j: nat)    // a dependency of a scope or a value
    | InCall(c: nat)            // in transit to the reader
    | InLease(l: nat)

  /** How many of its dependencies a build still holds. */
  function HeldDeps(x: Build): nat
  {
    match x.stage
    case Dropping(k, _) => if k <= |x.deps| then k else |x.deps|
    case Over => 0
    case _ => |x.deps|
  }

  function At(s: State, p: Place): Option<BuildId>
  {
    match p
    case InSlot(n) => if n < |s.nodes| then s.nodes[n].val else None
    case InWalk(i) => if i < |s.walks| then s.walks[i].held else None
    case InShut => if s.close.Shutting? then s.close.held else None
    case InDeps(b, j) =>
      if b < |s.builds| && j < HeldDeps(s.builds[b]) then Some(s.builds[b].deps[j]) else None
    case InCall(c) =>
      if c < |s.calls| && s.calls[c].ref && s.calls[c].pc.Got? then Some(s.calls[c].pc.g) else None
    case InLease(l) => if l < |s.leases| && s.leases[l].phase != Ended then Some(s.leases[l].of) else None
  }

  ghost function Places(s: State): set<Place>
  {
    (set n | 0 <= n < |s.nodes| :: InSlot(n))
    + (set i | 0 <= i < |s.walks| :: InWalk(i))
    + {InShut}
    + (set b, j | 0 <= b < |s.builds| && 0 <= j < |s.builds[b].deps| :: InDeps(b, j))
    + (set c | 0 <= c < |s.calls| :: InCall(c))
    + (set l | 0 <= l < |s.leases| :: InLease(l))
  }

  ghost function Holders(s: State, g: BuildId): set<Place>
  {
    set p | p in Places(s) && At(s, p) == Some(g)
  }

  ghost predicate RefsOk(s: State)
  {
    forall g :: 0 <= g < |s.builds| ==> s.builds[g].refs == |Holders(s, g)|
  }

  lemma HolderIff(s: State, g: BuildId, p: Place)
    ensures p in Holders(s, g) <==> At(s, p) == Some(g)
  {
    match p {
      case InSlot(n) => assert n < |s.nodes| ==> p in Places(s);
      case InWalk(i) =>
      case InShut =>
      case InDeps(b, j) =>
      case InCall(c) =>
      case InLease(l) =>
    }
  }

  /** One place emptied and one filled change the count by what they held. */
  lemma Counted(s: State, s': State, off: Option<Place>, on: Option<Place>, g: BuildId)
    requires forall p :: Some(p) != off && Some(p) != on ==> At(s', p) == At(s, p)
    requires off.Some? ==> At(s', off.value).None? && off != on
    requires on.Some? ==> At(s, on.value).None?
    ensures |Holders(s', g)| == |Holders(s, g)|
                                - (if off.Some? && At(s, off.value) == Some(g) then 1 else 0)
                                + (if on.Some? && At(s', on.value) == Some(g) then 1 else 0)
  {
    hide At, Holders;
    var lost := if off.Some? && At(s, off.value) == Some(g) then {off.value} else {};
    var gained := if on.Some? && At(s', on.value) == Some(g) then {on.value} else {};
    forall p ensures p in Holders(s', g) <==> (p in Holders(s, g) && p !in lost) || p in gained {
      HolderIff(s, g, p);
      HolderIff(s', g, p);
    }
    forall p | p in lost ensures p in Holders(s, g) { HolderIff(s, g, p); }
    forall p | p in gained ensures p !in Holders(s, g) { HolderIff(s, g, p); }
    Exchanged(Holders(s, g), Holders(s', g), lost, gained);
  }

  lemma Exchanged(before: set<Place>, after: set<Place>, lost: set<Place>, gained: set<Place>)
    requires forall p :: p in after <==> (p in before && p !in lost) || p in gained
    requires forall p :: p in lost ==> p in before
    requires forall p :: p in gained ==> p !in before
    ensures |after| == |before| - |lost| + |gained|
  {
    assert after == (before - lost) + gained;
    assert before == (before - lost) + lost;
  }

  ghost predicate Moves(s: State, s': State, off: Option<Place>, on: Option<Place>)
  {
    && (forall p :: Some(p) != off && Some(p) != on ==> At(s', p) == At(s, p))
    && (off.Some? ==> At(s', off.value).None? && off != on)
    && (on.Some? ==> At(s, on.value).None?)
  }

  function Change(s: State, s': State, off: Option<Place>, on: Option<Place>, g: BuildId): int
  {
    (if on.Some? && At(s', on.value) == Some(g) then 1 else 0)
    - (if off.Some? && At(s, off.value) == Some(g) then 1 else 0)
  }

  /** Conservation for one step: the counts change exactly as references move. */
  lemma Conserved(s: State, s': State, off: Option<Place>, on: Option<Place>)
    requires Wf(s) && RefsOk(s) && |s.builds| <= |s'.builds|
    requires Moves(s, s', off, on)
    requires forall g :: 0 <= g < |s.builds| ==>
               s'.builds[g].refs == s.builds[g].refs + Change(s, s', off, on, g)
    requires forall g :: |s.builds| <= g < |s'.builds| ==>
               s'.builds[g].refs == Change(s, s', off, on, g)
    ensures RefsOk(s')
  {
    forall g | 0 <= g < |s'.builds| ensures s'.builds[g].refs == |Holders(s', g)| {
      Counted(s, s', off, on, g);
      if g >= |s.builds| { NoneHeld(s, g); }
    }
  }

  lemma NoneHeld(s: State, g: BuildId)
    requires Wf(s) && g >= |s.builds|
    ensures Holders(s, g) == {}
  {
    hide Places;
    forall p ensures p !in Holders(s, g) { AtBelow(s, p); }
  }

  lemma AtBelow(s: State, p: Place)
    requires Wf(s)
    ensures At(s, p).Some? ==> At(s, p).value < |s.builds|
  {
  }

  /** A held value is published and its count is positive. */
  lemma HeldIsLive(s: State, p: Place)
    requires Shape(s) && RefsOk(s) && At(s, p).Some?
    ensures At(s, p).value < |s.builds|
    ensures s.builds[At(s, p).value].refs > 0 && s.builds[At(s, p).value].stage == Held
  {
    var g := At(s, p).value;
    assert g < |s.builds| by { hide Holders; }
    assert BuildOk(s.nodes, s.builds, s.calls, s.clock, g, s.builds[g]);
    HolderIff(s, g, p);
    assert |Holders(s, g)| > 0;
  }
}
