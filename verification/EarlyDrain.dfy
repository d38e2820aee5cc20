/** A run in which Close returns in time while a builder is still running: an
    attempt that ends inside the shutting loop closes drained, and a read then
    finds its provider not shut yet and builds again. */
module EarlyDrain {
  import opened State
  import opened Steps
  import opened Keeping
  import opened Runs
  import opened LateBuilds
  import opened Continuations

  const FRESH := Node(false, true, false, None, None, 0, {})
  const READ := Call(0, None, None, false, false, Load)

  // One Deferred provider; a read of it creates an attempt and runs its builder.
  const S1 := EMPTY.(nodes := [FRESH], members := [0])
  const S2 := S1.(calls := [READ])
  const S3 := S2.(calls := [READ.(pc := Enter)])
  const S4 := S3.(nodes := [FRESH.(cur := Some(0))], calls := [READ.(pc := Join(0, true))],
                  builds := [NewBuild(0, 0, 0, Created)], inflight := {0})
  const RUNNING := NewBuild(0, 0, 0, Building)
  const S5 := S4.(calls := [READ.(pc := Inline(0))], builds := [RUNNING])
  // Close begins; the builder fails and its attempt ends before the loop has
  // reached the provider: drained is closed.
  const S6 := S5.(closed := true, close := Cancelling([0]))
  const ENDED := RUNNING.(phase := Settled, outcome := Broken)
  const S7 := S6.(nodes := [FRESH], builds := [ENDED.(stage := Stage.Closing(0))])
  const S8 := S7.(builds := [ENDED.(stage := Dropping(0, None))])
  const S9 := S8.(builds := [ENDED.(stage := Over)])
  const GONE := ENDED.(stage := Over, phase := Unlisted)
  const S10 := S9.(builds := [GONE], inflight := {}, drained := true)
  // Another read builds again.
  const S11 := S10.(calls := [READ.(pc := Inline(0)), READ])
  const S12 := S10.(calls := [READ.(pc := Inline(0)), READ.(pc := Enter)])
  const S13 := S10.(nodes := [FRESH.(cur := Some(1))], calls := [READ.(pc := Inline(0)), READ.(pc := Join(1, true))],
                    builds := [GONE, NewBuild(0, 0, 1, Created)], inflight := {1})
  const S14 := S13.(calls := [READ.(pc := Inline(0)), READ.(pc := Inline(1))],
                    builds := [GONE, NewBuild(0, 0, 1, Building)])
  // Close goes on and finds drained closed.
  const S15 := S14.(cancelled := true, close := Shutting([0], None, None))
  const S16 := S15.(nodes := [FRESH.(cur := Some(1), closed := true)], close := Shutting([], None, None))
  const S17 := S16.(close := Closing.Waiting)
  const S18 := S17.(close := Closed(true))

  lemma Took(s: State, a: Action, s': State)
    requires Reachable(s) && Wf(s) && Do(s, a, s')
    ensures Reachable(s')
  {
    hide Do, Reachable, Wf;
    Further(s, s');
  }

  lemma Begins()
    ensures Reachable(EMPTY)
  {
    assert IsRun([EMPTY]);
  }

  lemma ReachWf(s: State)
    requires Reachable(s)
    ensures Wf(s)
  {
    hide Inv, Reachable;
    InvReachable(s);
    InvWf(s);
  }

  lemma Reads()
    ensures Reachable(S3)
  {
    hide Reachable, Wf;
    Begins();
    ReachWf(EMPTY);
    Took(EMPTY, MakingAction(DoMakeLazy), S1);
    ReachWf(S1);
    Took(S1, ReadingAction(DoStartRead(0, false, false)), S2);
    ReachWf(S2);
    Took(S2, ReadingAction(DoLoadValue(0)), S3);
  }

  lemma Builds()
    ensures Reachable(S6)
  {
    hide Reachable, Wf;
    Reads();
    ReachWf(S3);
    Took(S3, EnteringAction(DoEnterCreate(0)), S4);
    ReachWf(S4);
    Took(S4, WaitingAction(DoJoinStart(0)), S5);
    ReachWf(S5);
    Took(S5, ClosingAction(DoBeginClose), S6);
  }

  lemma Ends()
    ensures Reachable(S10)
  {
    hide Reachable, Wf;
    Builds();
    ReachWf(S6);
    Took(S6, BuildingAction(DoDiscardBroken(0)), S7);
    ReachWf(S7);
    Took(S7, ReleasingAction(DoStartDropping(0)), S8);
    ReachWf(S8);
    Took(S8, ReleasingAction(DoEndDiscard(0)), S9);
    ReachWf(S9);
    Took(S9, BuildingAction(DoUnlist(0)), S10);
  }

  lemma BuildsAgain()
    ensures Reachable(S14)
  {
    hide Reachable, Wf;
    Ends();
    ReachWf(S10);
    Took(S10, ReadingAction(DoStartRead(0, false, false)), S11);
    ReachWf(S11);
    Took(S11, ReadingAction(DoLoadValue(1)), S12);
    ReachWf(S12);
    Took(S12, EnteringAction(DoEnterCreate(1)), S13);
    ReachWf(S13);
    Took(S13, WaitingAction(DoJoinStart(1)), S14);
  }

  /** Close has returned in time, and a builder is running. */
  lemma ClosesOverABuild()
    ensures Reachable(S18) && S18.close == Closed(true)
    ensures S18.inflight == {1} && S18.builds[1].phase == Building
  {
    hide Reachable, Wf;
    BuildsAgain();
    ReachWf(S14);
    Took(S14, ClosingAction(DoCancel), S15);
    ReachWf(S15);
    Took(S15, ClosingAction(DoShut), S16);
    ReachWf(S16);
    Took(S16, ClosingAction(DoEndShutting), S17);
    ReachWf(S17);
    Took(S17, ClosingAction(DoCloseOnTime), S18);
  }

  /** The moment drained was closed, with the provider open. */
  lemma DrainedTooEarly()
    ensures Reachable(S10) && S10.drained && S10.inflight == {} && OpenAt(S10, 0)
  {
    hide Reachable;
    Ends();
  }
}
