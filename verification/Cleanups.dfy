/** Every cleanup runs at most once, and where it stands follows from the stage
    of the build it was registered with. */
module Cleanups {
  import opened State
  import opened Steps

  /** Cleanups from here on have been looked at. */
  function DoneFrom(x: Build): int
  {
    match x.stage
    case Closing(k) => k
    case Calling(k) => k - 1
    case Dropping(_, _) => 0
    case Over => 0
    case _ => |x.closers|
  }

  predicate ForceCalls(close: Closing, b: BuildId, j: nat)
  {
    close.Forcing? && close.on == Some(b) && close.calling && close.left == j + 1
  }

  ghost predicate CloserOk(b: BuildId, x: Build, forced: bool, close: Closing, j: nat)
    requires j < |x.closers|
  {
    && x.closers[j].runs == (if x.closers[j].progress == Unrun then 0 else 1)
    && (j >= DoneFrom(x) ==> x.closers[j].progress != Unrun)
    && (j < DoneFrom(x) && x.closers[j].progress != Unrun ==> forced && x.outcome == Published)
    && (x.closers[j].progress == Running <==> x.stage == Calling(j + 1) || ForceCalls(close, b, j))
    && !(x.stage == Calling(j + 1) && ForceCalls(close, b, j))
  }

  ghost predicate ForceOk(builds: seq<Build>, forced: bool, close: Closing)
  {
    close.Forcing? ==>
      && forced
      && (forall v :: v in close.todo ==> v < |builds| && builds[v].outcome == Published)
      && (close.on.None? ==> !close.calling)
      && (close.on.Some? ==>
           && close.on.value < |builds| && builds[close.on.value].outcome == Published
           && close.left <= |builds[close.on.value].closers|
           && (close.calling ==> close.left >= 1))
  }

  ghost predicate ClosersOk(builds: seq<Build>, forced: bool, close: Closing)
  {
    && ForceOk(builds, forced, close)
    && forall b, j :: 0 <= b < |builds| && 0 <= j < |builds[b].closers| ==>
         CloserOk(b, builds[b], forced, close, j)
  }

  /** A build may change its count and its dependencies freely. */
  predicate SameClosers(x: Build, y: Build)
  {
    && y.closers == x.closers && DoneFrom(y) == DoneFrom(x)
    && (y.stage.Calling? || x.stage.Calling? ==> y.stage == x.stage)
    && (x.outcome == Published ==> y.outcome == Published)
  }

  lemma ClosersBuild(builds: seq<Build>, forced: bool, close: Closing, b: BuildId, y: Build)
    requires ClosersOk(builds, forced, close) && b < |builds| && SameClosers(builds[b], y)
    ensures ClosersOk(builds[b := y], forced, close)
  {
    var builds' := builds[b := y];
    forall i, j | 0 <= i < |builds'| && 0 <= j < |builds'[i].closers|
      ensures CloserOk(i, builds'[i], forced, close, j)
    {
      assert CloserOk(i, builds[i], forced, close, j);
    }
  }
}
