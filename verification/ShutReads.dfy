/** Reads at a provider that has been shut: they go on, and end with ErrClosed. */
module ShutReads {
  import opened Paths
  import opened State
  import opened Steps
  import opened Invariants
  import opened References
  import opened Waiting
  import opened Keeping
  import opened Runs
  import opened History
  import opened Consistency
  import opened Progress
  import opened Retries
  import opened Continuations

  /** The steps such a read still has to take. */
  function StepsLeft(pc: Pc): nat
  {
    match pc
    case AddEdge => 3
    case Load => 2
    case Enter => 1
    case _ => 0
  }

  /** c has found nothing so far at a provider that is shut. */
  ghost predicate AtShut(s: State, c: CallId)
  {
    && c < |s.calls| && Refused(s.calls[c])
    && s.calls[c].node < |s.nodes| && s.nodes[s.calls[c].node].closed
  }

  /** The read is refused still, one step further. */
  ghost predicate Closer(s: State, s': State, c: CallId)
  {
    AtShut(s, c) && AtShut(s', c) && StepsLeft(s'.calls[c].pc) == StepsLeft(s.calls[c].pc) - 1
  }

  lemma ReadingCloser(s: State, y: ReadingStep, s': State)
    requires Wf(s) && ReadingNext(s, y, s') && !y.DoStartRead? && !y.DoStartFrom?
    requires AtShut(s, y.c) && s.nodes[s.calls[y.c].node].val.None?
    ensures Closer(s, s', y.c)
  {
    hide Wf;
  }

  lemma EnteringCloser(s: State, y: EnteringStep, s': State)
    requires Wf(s) && EnteringNext(s, y, s') && AtShut(s, y.c)
    ensures Closer(s, s', y.c)
  {
    hide Wf;
  }

  lemma WaitingApart(s: State, y: WaitingStep, s': State)
    requires Wf(s) && WaitingNext(s, y, s')
    ensures !AtShut(s, y.c)
  {
    hide Wf, Accepted, Reaches, Edges;
  }

  /** Whatever step of its own it takes brings it one closer to ErrClosed. */
  lemma OwnStepCloser(s: State, x: Action, s': State, c: CallId)
    requires Reachable(s) && Wf(s) && Do(s, x, s') && OfCall(x, c) && AtShut(s, c)
    ensures Closer(s, s', c)
  {
    hide Reachable, Inv, Closer, ReadingNext, EnteringNext, WaitingNext;
    InvReachable(s);
    NodeFacts(s, s.calls[c].node);
    match x {
      case ReadingAction(y) => ReadingCloser(s, y, s');
      case EnteringAction(y) => EnteringCloser(s, y, s');
      case WaitingAction(y) => WaitingApart(s, y, s');
    }
  }

  /** Until then it can always take one. */
  lemma OwnStep(s: State, c: CallId) returns (x: Action, s': State)
    requires Reachable(s) && Wf(s) && AtShut(s, c) && InProgress(s.calls[c])
    ensures OfCall(x, c) && Do(s, x, s')
  {
    hide Reachable, Inv;
    InvReachable(s);
    CallFacts(s, c);
    hide Inv, CallOk;
    match s.calls[c].pc {
      case AddEdge => x, s' := LookingMoves(s, c);
      case Load => x, s' := LoadMoves(s, c);
      case Enter => x, s' := EnteringAction(DoEnterClosed(c)), SetCall(s, c, Failed(ErrClosed));
    }
  }

  lemma LoadMoves(s: State, c: CallId) returns (x: Action, s': State)
    requires Wf(s) && c < |s.calls| && s.calls[c].pc == Load
    ensures OfCall(x, c) && Do(s, x, s')
  {
    var v := s.nodes[s.calls[c].node].val;
    x, s' := ReadingAction(DoLoadValue(c)), SetCall(s, c, if v.Some? then Claim(v.value) else Enter);
    hide Wf;
  }

  /** Every step of the path is one of read c's own. */
  ghost predicate OwnPath(path: seq<State>, c: CallId)
  {
    path != [] && forall i :: 0 <= i < |path| - 1 ==> TakesOwn(path[i], path[i + 1], c)
  }

  ghost predicate TakesOwn(s: State, s': State, c: CallId)
  {
    Wf(s) && exists x :: OfCall(x, c) && Do(s, x, s')
  }

  lemma {:induction false} OwnPathToEnd(s: State, c: CallId) returns (path: seq<State>)
    requires Reachable(s) && AtShut(s, c)
    ensures OwnPath(path, c) && path[0] == s && |path| == StepsLeft(s.calls[c].pc) + 1 <= 4
    ensures c < |path[|path| - 1].calls| && path[|path| - 1].calls[c].pc == Failed(ErrClosed)
    decreases if c < |s.calls| then StepsLeft(s.calls[c].pc) else 0
  {
    hide Reachable, Wf, Do, Leads;
    if !InProgress(s.calls[c]) {
      path := [s];
    } else {
      ReachableWf(s);
      var x, s' := OwnStep(s, c);
      OwnStepCloser(s, x, s', c);
      Takes(s, x, s');
      var rest := OwnPathToEnd(s', c);
      path := [s] + rest;
      assert TakesOwn(s, s', c);
      forall i | 0 <= i < |path| - 1 ensures TakesOwn(path[i], path[i + 1], c) {
        if i > 0 { assert TakesOwn(rest[i - 1], rest[i - 1 + 1], c); }
      }
    }
  }

  /** A read at a shut provider that has not returned can go on by itself and fails
      with ErrClosed within three steps of its own. */
  lemma ShutReadFails(s: State, c: CallId)
    requires Reachable(s) && AtShut(s, c)
    ensures exists path: seq<State> ::
              && OwnPath(path, c) && path[0] == s && |path| <= 4
              && c < |path[|path| - 1].calls| && path[|path| - 1].calls[c].pc == Failed(ErrClosed)
  {
    hide Reachable, AtShut, OwnPath;
    var path := OwnPathToEnd(s, c);
  }

  // ---- Between its steps -------------------------------------------------------------

  lemma OthersLeaveCall(s: State, x: Action, s': State, c: CallId)
    requires Inv(s) && Wf(s) && Do(s, x, s') && !OfCall(x, c) && c < |s.calls|
    ensures c < |s'.calls| && s'.calls[c] == s.calls[c]
  {
    InvWf(s);
    hide Inv, Wf, Shape, RefsOk, NodesLater, BuildsLater, GraphLater;
    hide MakingNext, ReadingNext, EnteringNext, WaitingNext, BuildingNext;
    hide ReleasingNext, WalkingNext, ClosingNext, ForcingNext;
    InvRefs(s);
    match x {
      case MakingAction(y) => MakingLater(s, y, s');
      case ReadingAction(y) => ReadingOthers(s, y, s', c);
      case EnteringAction(y) => EnteringOthers(s, y, s', c);
      case WaitingAction(y) => WaitingOthers(s, y, s', c);
      case BuildingAction(y) => BuildingLater(s, y, s');
      case ReleasingAction(y) => ReleasingLater(s, y, s');
      case WalkingAction(y) => WalkingLater(s, y, s');
      case ClosingAction(y) => ClosingLater(s, y, s');
      case ForcingAction(y) => ForcingLater(s, y, s');
    }
  }

  lemma InvRefs(s: State)
    requires Inv(s)
    ensures RefsOk(s)
  {
  }

  /** Steps of others leave it where it is, so its own are all it takes. */
  lemma OtherStepKeeps(s: State, x: Action, s': State, c: CallId)
    requires Reachable(s) && Wf(s) && Do(s, x, s') && !OfCall(x, c) && AtShut(s, c)
    ensures AtShut(s', c) && s'.calls[c] == s.calls[c]
  {
    hide Reachable, Inv, Wf, Do, BuildsLater, GraphLater, CallsLater;
    InvReachable(s);
    OthersLeaveCall(s, x, s', c);
    NextLater(s, s');
  }
}
