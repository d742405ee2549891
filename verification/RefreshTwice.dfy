/** Two calls that refresh the token one after the other, although the first has just done so. */
module RefreshTwice {
  import opened Wrappers
  import opened TokenRefresh

  const EXAMPLE := Config(false, 300)

  lemma RunGoesOn(c: Config, states: seq<State>, actions: seq<Action>, a: Action)
    requires IsRun(c, states, actions) && Enabled(states[|states| - 1], a)
    ensures IsRun(c, states + [After(c, states[|states| - 1], a)], actions + [a])
  {
    var last := states[|states| - 1];
    var states', actions' := states + [After(c, last, a)], actions + [a];
    forall k | 0 <= k < |actions'|
      ensures StepAt(c, states', actions', k)
    {
      if k < |actions| {
        assert StepAt(c, states, actions, k);
      }
    }
  }

  lemma OneStep(c: Config, states: seq<State>, actions: seq<Action>, a: Action)
    returns (states': seq<State>, actions': seq<Action>)
    requires IsRun(c, states, actions) && Enabled(states[|states| - 1], a)
    ensures IsRun(c, states', actions') && states'[|states'| - 1] == After(c, states[|states| - 1], a)
    ensures states' == states + [states'[|states'| - 1]] && actions' == actions + [a]
  {
    RunGoesOn(c, states, actions, a);
    states', actions' := states + [After(c, states[|states| - 1], a)], actions + [a];
  }

  /** Two different calls wait for the lock, which is free. */
  predicate BothWaiting(s: State, i: nat, j: nat) {
    i != j && i < |s.calls| && j < |s.calls| && s.calls[i].Waiting? && s.calls[j].Waiting? && s.holder == None
  }

  /** The first call gets the lock, refreshes the token and leaves the lock. */
  lemma FirstRefreshes(c: Config, states: seq<State>, actions: seq<Action>, i: nat, j: nat, expiresAt: int,
                       refreshToken: Option<string>)
    returns (states': seq<State>, actions': seq<Action>)
    requires IsRun(c, states, actions) && BothWaiting(states[|states| - 1], i, j)
    ensures IsRun(c, states', actions') && states <= states' && actions <= actions'
    ensures var s, s' := states[|states| - 1], states'[|states'| - 1];
            && s'.now == s.now && s'.holder == None && s'.answers == s.answers + 1
            && s'.expiry == Some(expiresAt) && s'.expiryNumber == s'.answers && s'.token == Some(s'.answers)
            && |s'.calls| == |s.calls| && s'.calls[j] == s.calls[j]
  {
    states', actions' := OneStep(c, states, actions, Acquire(i));
    states', actions' := OneStep(c, states', actions', Send(i));
    states', actions' := OneStep(c, states', actions', Receive(i, Success(expiresAt, refreshToken)));
    states', actions' := OneStep(c, states', actions', StoreToken(i));
    states', actions' := OneStep(c, states', actions', StoreExpiry(i));
    states', actions' := OneStep(c, states', actions', Release(i));
  }

  /**
   * From every state of every run in which two calls wait for the free lock, whatever the first one's refresh brings,
   * the run can go on so that the second sends another one directly after it, however long the new token lasts.
   */
  lemma SecondRefreshes(c: Config, states: seq<State>, actions: seq<Action>, i: nat, j: nat, expiresAt: int,
                        refreshToken: Option<string>)
    returns (states': seq<State>, actions': seq<Action>)
    requires IsRun(c, states, actions) && BothWaiting(states[|states| - 1], i, j)
    ensures IsRun(c, states', actions') && states <= states' && actions < actions'
    ensures actions'[|actions'| - 1] == Send(j)
    ensures var s, s' := states[|states| - 1], states'[|actions'| - 1];
            && s'.answers == s.answers + 1 && s'.expiry == Some(expiresAt)
            && (ExpiringSoon(c, s') <==> expiresAt <= s.now + c.threshold)
  {
    states', actions' := FirstRefreshes(c, states, actions, i, j, expiresAt, refreshToken);
    states', actions' := OneStep(c, states', actions', Acquire(j));
    states', actions' := OneStep(c, states', actions', Send(j));
  }

  /** Both of two calls have found the token expiring, twice, before either has the lock. */
  lemma BothWait() returns (states: seq<State>, actions: seq<Action>)
    ensures IsRun(EXAMPLE, states, actions) && BothWaiting(states[|states| - 1], 0, 1)
    ensures states[|states| - 1].now == 0 && states[|states| - 1].answers == 0
  {
    states, actions := [State(0, None, "r0", "r0", None, None, 0, 0, [Idle, Idle])], [];
    states, actions := OneStep(EXAMPLE, states, actions, Check(0));
    states, actions := OneStep(EXAMPLE, states, actions, Check(1));
    states, actions := OneStep(EXAMPLE, states, actions, CheckAgain(0));
    states, actions := OneStep(EXAMPLE, states, actions, CheckAgain(1));
  }

  /**
   * It does happen: two calls find the token expiring before either has the lock, and the second refreshes the token
   * that the first has just refreshed.
   */
  lemma NeedlessRefresh() returns (states: seq<State>, actions: seq<Action>)
    ensures IsRun(EXAMPLE, states, actions) && |actions| > 0 && actions[|actions| - 1] == Send(1)
    ensures !ExpiringSoon(EXAMPLE, states[|actions| - 1]) && states[|actions| - 1].answers == 1
  {
    states, actions := BothWait();
    states, actions := SecondRefreshes(EXAMPLE, states, actions, 0, 1, 3600, Some("r1"));
  }
}
