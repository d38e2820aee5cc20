/** How a run can go on from a state it has reached. */
module Continuations {
  import opened State
  import opened Steps
  import opened Keeping
  import opened Runs

  ghost predicate Connects(path: seq<State>, s: State, t: State)
  {
    && path != [] && path[0] == s && path[|path| - 1] == t
    && forall i :: 0 <= i < |path| - 1 ==> Next(path[i], path[i + 1])
  }

  /** From s, some sequence of steps leads to t. */
  ghost predicate Leads(s: State, t: State)
  {
    exists path :: Connects(path, s, t)
  }

  lemma Further(s: State, s': State)
    requires Reachable(s) && Next(s, s')
    ensures Reachable(s')
  {
    hide Next;
    var run :| IsRun(run) && run[|run| - 1] == s;
    var more := run + [s'];
    assert more[|more| - 1] == s';
    forall i | 0 <= i < |more| - 1 ensures Next(more[i], more[i + 1]) {
      if i < |run| - 1 { assert Next(run[i], run[i + 1]); }
    }
    assert IsRun(more);
  }

  lemma LeadsSelf(s: State)
    ensures Leads(s, s)
  {
    assert Connects([s], s, s);
  }

  lemma LeadsThen(s: State, t: State, u: State)
    requires Leads(s, t) && Leads(t, u)
    ensures Leads(s, u)
  {
    hide Next;
    var p :| Connects(p, s, t);
    var q :| Connects(q, t, u);
    var r := p + q[1..];
    forall i | 0 <= i < |r| - 1 ensures Next(r[i], r[i + 1]) {
      if i < |p| - 1 {
        assert Next(p[i], p[i + 1]);
      } else {
        var j := i - (|p| - 1);
        assert r[i] == q[j] && r[i + 1] == q[j + 1];
        assert Next(q[j], q[j + 1]);
      }
    }
    assert Connects(r, s, u);
  }

  /** One step: the new state is reachable, well formed and led to. */
  lemma Takes(s: State, a: Action, s': State)
    requires Reachable(s) && Wf(s) && Do(s, a, s')
    ensures Next(s, s') && Leads(s, s') && Reachable(s') && Wf(s')
  {
    hide Do, Reachable, Wf, Inv;
    assert Next(s, s');
    Further(s, s');
    assert Connects([s, s'], s, s') by { hide Next; }
    InvReachable(s');
    InvWf(s');
  }

  /** A run through s to t. */
  lemma LeadsRun(s: State, t: State) returns (run: seq<State>, i: nat)
    requires Reachable(s) && Leads(s, t)
    ensures IsRun(run) && i < |run| && run[i] == s && run[|run| - 1] == t
  {
    hide Next;
    var p :| IsRun(p) && p[|p| - 1] == s;
    var q :| Connects(q, s, t);
    run, i := p + q[1..], |p| - 1;
    forall j | 0 <= j < |run| - 1 ensures Next(run[j], run[j + 1]) {
      if j < |p| - 1 {
        assert Next(p[j], p[j + 1]);
      } else {
        var k := j - (|p| - 1);
        assert run[j] == q[k] && run[j + 1] == q[k + 1];
        assert Next(q[k], q[k + 1]);
      }
    }
  }

  lemma LeadsReachable(s: State, t: State)
    requires Reachable(s) && Leads(s, t)
    ensures Reachable(t)
  {
    hide IsRun, Next;
    var run, i := LeadsRun(s, t);
  }

  lemma ReachableWf(s: State)
    requires Reachable(s)
    ensures Wf(s) && Inv(s)
  {
    hide Inv, Reachable;
    InvReachable(s);
    InvWf(s);
  }
}
