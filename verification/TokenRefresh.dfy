/** Concurrent calls for an access token: the steps of `get_access_token` and `refresh_token` over three locks. */
module TokenRefresh {
  import opened Wrappers

  /** Whether there is a database to reload credentials from, and how early a token counts as expiring. */
  datatype Config = Config(hasDatabase: bool, threshold: nat)

  /** The answer to a refresh: it may bring a new refresh token. Answers are numbered in the order of their arrival. */
  datatype Answer = Answer(number: nat, expiresAt: int, refreshToken: Option<string>)

  /**
   * Where a call stands. The numbers say which expiry it has last read. The access token and the expiry have locks of
   * their own, held for one read or write; the lock of the credentials is held from `Locked` to `Stored`.
   */
  datatype Call =
    | Idle
    | Recheck
    | Waiting(seen: nat)
    | Locked(seen: nat, retried: bool)
    | Exchanging(seen: nat, retried: bool)
    | Reloading(seen: nat)
    | Answered(answer: Answer)
    | TokenStored(answer: Answer)
    | Stored(answer: Answer)
    | Failed
    | Fallback(seen: nat)
    | Reading(seen: nat)
    | Returned(token: Option<nat>, seen: nat)

  /** The shared fields; a token and an expiry are known by the number of the answer they came with, 0 at the start. */
  datatype State = State(
    now: int,
    holder: Option<nat>,
    refreshToken: string,
    newest: string,
    token: Option<nat>,
    expiry: Option<int>,
    expiryNumber: nat,
    answers: nat,
    calls: seq<Call>)

  predicate ExpiringSoon(c: Config, s: State) {
    s.expiry.None? || s.expiry.value <= s.now + c.threshold
  }

  predicate Expired(s: State) {
    s.expiry.None? || s.now >= s.expiry.value
  }

  datatype Outcome = Success(expiresAt: int, refreshToken: Option<string>) | BadRequest | OtherFailure

  datatype Action =
    | Tick(now: int)
    | Check(i: nat)
    | CheckAgain(i: nat)
    | Acquire(i: nat)
    | Send(i: nat)
    | Receive(i: nat, outcome: Outcome)
    | Reload(i: nat, refreshToken: Option<string>)
    | StoreToken(i: nat)
    | StoreExpiry(i: nat)
    | Release(i: nat)
    | Degrade(i: nat)
    | Read(i: nat)

  predicate Enabled(s: State, a: Action) {
    match a
    case Tick(now) => s.now <= now
    case Check(i) => i < |s.calls| && (s.calls[i].Idle? || s.calls[i].Returned?)
    case CheckAgain(i) => i < |s.calls| && s.calls[i].Recheck?
    case Acquire(i) => i < |s.calls| && s.calls[i].Waiting? && s.holder == None
    case Send(i) => i < |s.calls| && s.calls[i].Locked?
    case Receive(i, _) => i < |s.calls| && s.calls[i].Exchanging?
    case Reload(i, _) => i < |s.calls| && s.calls[i].Reloading?
    case StoreToken(i) => i < |s.calls| && s.calls[i].Answered?
    case StoreExpiry(i) => i < |s.calls| && s.calls[i].TokenStored?
    case Release(i) => i < |s.calls| && s.calls[i].Stored?
    case Degrade(i) => i < |s.calls| && s.calls[i].Failed?
    case Read(i) => i < |s.calls| && (s.calls[i].Reading? || s.calls[i].Fallback?)
  }

  function At(s: State, i: nat, call: Call): State
    requires i < |s.calls|
  {
    s.(calls := s.calls[i := call])
  }

  /** One step of one call, or of the clock. */
  function After(c: Config, s: State, a: Action): State
    requires Enabled(s, a)
  {
    match a
    case Tick(now) => s.(now := now)
    case Check(i) => At(s, i, if ExpiringSoon(c, s) then Recheck else Reading(s.expiryNumber))
    case CheckAgain(i) => At(s, i, if ExpiringSoon(c, s) then Waiting(s.expiryNumber) else Reading(s.expiryNumber))
    case Acquire(i) => At(s, i, Locked(s.calls[i].seen, false)).(holder := Some(i))
    case Send(i) => At(s, i, Exchanging(s.calls[i].seen, s.calls[i].retried))
    case Receive(i, outcome) => Received(c, s, i, outcome)
    case Reload(i, None) => At(s, i, Failed).(holder := None)
    case Reload(i, Some(r)) => At(s, i, Locked(s.calls[i].seen, true)).(refreshToken := r)
    case StoreToken(i) => At(s, i, TokenStored(s.calls[i].answer)).(token := Some(s.calls[i].answer.number))
    case StoreExpiry(i) =>
      var answer := s.calls[i].answer;
      At(s, i, Stored(answer)).(expiry := Some(answer.expiresAt), expiryNumber := answer.number)
    case Release(i) =>
      var answer := s.calls[i].answer;
      At(s, i, Reading(answer.number)).(refreshToken := answer.refreshToken.GetOr(s.refreshToken), holder := None)
    case Degrade(i) => At(s, i, if Expired(s) then Returned(None, 0) else Fallback(s.expiryNumber))
    case Read(i) => At(s, i, Returned(s.token, s.calls[i].seen))
  }

  /** Only the first attempt is tried again, after a bad request and with credentials from the database. */
  function Received(c: Config, s: State, i: nat, outcome: Outcome): State
    requires i < |s.calls| && s.calls[i].Exchanging?
  {
    match outcome
    case Success(expiresAt, refreshToken) =>
      At(s, i, Answered(Answer(s.answers + 1, expiresAt, refreshToken)))
      .(answers := s.answers + 1, newest := refreshToken.GetOr(s.newest))
    case BadRequest =>
      if c.hasDatabase && !s.calls[i].retried then At(s, i, Reloading(s.calls[i].seen)) else At(s, i, Failed).(holder := None)
    case OtherFailure => At(s, i, Failed).(holder := None)
  }

  /** At the start no call has been made, and the credentials are as new as any. */
  predicate Initial(s: State) {
    && s.holder == None && s.refreshToken == s.newest
    && s.token.GetOr(0) == 0 && s.expiryNumber == 0 && s.answers == 0
    && forall i | 0 <= i < |s.calls| :: s.calls[i].Idle?
  }

  /** The states that a run goes through, in the order of its steps. */
  ghost predicate IsRun(c: Config, states: seq<State>, actions: seq<Action>) {
    && |states| == |actions| + 1 && Initial(states[0])
    && forall k {:trigger StepAt(c, states, actions, k)} | 0 <= k < |actions| :: StepAt(c, states, actions, k)
  }

  ghost predicate StepAt(c: Config, states: seq<State>, actions: seq<Action>, k: int)
    requires 0 <= k < |actions| && k + 1 < |states|
  {
    IsStep(c, states[k], actions[k], states[k + 1])
  }

  ghost predicate IsStep(c: Config, s: State, a: Action, s': State) {
    Enabled(s, a) && s' == After(c, s, a)
  }

  // ----- What every step keeps -----

  /** A call inside the critical section of the credentials. */
  predicate Inside(call: Call) {
    call.Locked? || call.Exchanging? || call.Reloading? || call.Answered? || call.TokenStored? || call.Stored?
  }

  predicate Exclusive(s: State) {
    && (s.holder.Some? ==> s.holder.value < |s.calls| && Inside(s.calls[s.holder.value]))
    && forall i | 0 <= i < |s.calls| :: Inside(s.calls[i]) ==> s.holder == Some(i)
  }

  /** The tokens and expiries in circulation: an expiry is never newer than the token. */
  predicate Ordered(s: State) {
    && s.expiryNumber <= s.token.GetOr(0) <= s.answers
    && (s.holder.Some? && s.holder.value < |s.calls| ==> HolderOrdered(s, s.calls[s.holder.value]))
    && forall i | 0 <= i < |s.calls| :: CallOrdered(s, s.calls[i])
  }

  predicate HolderOrdered(s: State, call: Call) {
    match call
    case Answered(answer) => answer.number == s.answers && s.expiryNumber < s.answers
    case TokenStored(answer) => answer.number == s.answers && s.token == Some(s.answers) && s.expiryNumber < s.answers
    case Stored(answer) => answer.number == s.answers && s.token == Some(s.answers) && s.expiryNumber == s.answers
    case _ => true
  }

  predicate CallOrdered(s: State, call: Call) {
    match call
    case Reading(seen) => seen <= s.token.GetOr(0)
    case Fallback(seen) => seen <= s.token.GetOr(0)
    case Returned(token, seen) => seen > 0 ==> token.Some? && seen <= token.value
    case Waiting(seen) => seen <= s.expiryNumber
    case Locked(seen, _) => seen <= s.expiryNumber
    case Exchanging(seen, _) => seen <= s.expiryNumber
    case Reloading(seen) => seen <= s.expiryNumber
    case _ => true
  }

  /** A call that waits to refresh, or refreshes, has read an expiry that is still expiring, if it is still there. */
  predicate Grounded(c: Config, s: State) {
    forall i | 0 <= i < |s.calls| :: CallGrounded(c, s, s.calls[i])
  }

  predicate CallGrounded(c: Config, s: State, call: Call) {
    call.Waiting? || call.Locked? || call.Exchanging? || call.Reloading? ==>
      call.seen == s.expiryNumber ==> ExpiringSoon(c, s)
  }

  /** The refresh token that the credentials will hold when the critical section is left. */
  function Settled(s: State): string {
    if s.holder.Some? && s.holder.value < |s.calls| then Pending(s.calls[s.holder.value]).GetOr(s.refreshToken)
    else s.refreshToken
  }

  function Pending(call: Call): Option<string> {
    match call
    case Answered(answer) => answer.refreshToken
    case TokenStored(answer) => answer.refreshToken
    case Stored(answer) => answer.refreshToken
    case _ => None
  }

  predicate Inv(c: Config, s: State) {
    Exclusive(s) && Ordered(s) && Grounded(c, s) && (!c.hasDatabase ==> Settled(s) == s.newest && NoReload(s))
  }

  predicate NoReload(s: State) {
    forall i | 0 <= i < |s.calls| :: !s.calls[i].Reloading?
  }

  lemma InitialInv(c: Config, s: State)
    requires Initial(s)
    ensures Inv(c, s)
  {
  }

  lemma StepKeepsExclusive(c: Config, s: State, a: Action)
    requires Exclusive(s) && Enabled(s, a)
    ensures Exclusive(After(c, s, a))
  {
  }

  lemma StepKeepsOrdered(c: Config, s: State, a: Action)
    requires Exclusive(s) && Ordered(s) && Enabled(s, a)
    ensures Ordered(After(c, s, a))
  {
    StepKeepsHolder(c, s, a);
    StepKeepsCalls(c, s, a);
  }

  lemma StepKeepsHolder(c: Config, s: State, a: Action)
    requires Exclusive(s) && Ordered(s) && Enabled(s, a)
    ensures var s' := After(c, s, a);
            && s'.expiryNumber <= s'.token.GetOr(0) <= s'.answers
            && (s'.holder.Some? && s'.holder.value < |s'.calls| ==> HolderOrdered(s', s'.calls[s'.holder.value]))
  {
  }

  lemma StepKeepsCalls(c: Config, s: State, a: Action)
    requires Exclusive(s) && Ordered(s) && Enabled(s, a)
    ensures var s' := After(c, s, a); forall i | 0 <= i < |s'.calls| :: CallOrdered(s', s'.calls[i])
  {
  }

  lemma StepKeepsGrounded(c: Config, s: State, a: Action)
    requires Exclusive(s) && Ordered(s) && Grounded(c, s) && Enabled(s, a)
    ensures Grounded(c, After(c, s, a))
  {
  }

  lemma StepKeepsNewest(c: Config, s: State, a: Action)
    requires Exclusive(s) && Enabled(s, a) && !c.hasDatabase && Settled(s) == s.newest && NoReload(s)
    ensures Settled(After(c, s, a)) == After(c, s, a).newest && NoReload(After(c, s, a))
  {
  }

  lemma StepKeepsInv(c: Config, s: State, a: Action)
    requires Inv(c, s) && Enabled(s, a)
    ensures Inv(c, After(c, s, a))
  {
    StepKeepsExclusive(c, s, a);
    StepKeepsOrdered(c, s, a);
    StepKeepsGrounded(c, s, a);
    if !c.hasDatabase {
      StepKeepsNewest(c, s, a);
    }
  }

  lemma {:induction false} RunKeepsInv(c: Config, states: seq<State>, actions: seq<Action>, k: nat)
    requires IsRun(c, states, actions) && k < |states|
    ensures Inv(c, states[k])
  {
    if k == 0 {
      InitialInv(c, states[0]);
    } else {
      RunKeepsInv(c, states, actions, k - 1);
      assert StepAt(c, states, actions, k - 1);
      StepKeepsInv(c, states[k - 1], actions[k - 1]);
    }
  }

  // ----- What holds in every run -----

  /** At most one call is exchanging a refresh token, in every state of every run of any number of calls. */
  lemma OneExchangeAtATime(c: Config, states: seq<State>, actions: seq<Action>, k: nat, i: nat, j: nat)
    requires IsRun(c, states, actions) && k < |states| && i < |states[k].calls| && j < |states[k].calls|
    requires states[k].calls[i].Exchanging? && states[k].calls[j].Exchanging?
    ensures i == j
  {
    RunKeepsInv(c, states, actions, k);
  }

  /** Without a database every exchange presents the newest refresh token that any answer has brought. */
  lemma NewestIsPresented(c: Config, states: seq<State>, actions: seq<Action>, k: nat)
    requires IsRun(c, states, actions) && !c.hasDatabase && k < |actions| && actions[k].Send?
    ensures states[k].refreshToken == states[k].newest
  {
    RunKeepsInv(c, states, actions, k);
    assert StepAt(c, states, actions, k);
  }

  /** A call that returns has a token at least as new as the expiry that it went by. */
  lemma TokenIsFresh(c: Config, states: seq<State>, actions: seq<Action>, k: nat, i: nat)
    requires IsRun(c, states, actions) && k < |states| && i < |states[k].calls| && states[k].calls[i].Returned?
    ensures var call := states[k].calls[i]; call.seen > 0 ==> call.token.Some? && call.seen <= call.token.value
  {
    RunKeepsInv(c, states, actions, k);
  }

  /** A token that is not expiring is refreshed only by a call that read the expiry before another refresh. */
  lemma NeedlessOnlyAfterAnother(c: Config, states: seq<State>, actions: seq<Action>, k: nat)
    requires IsRun(c, states, actions) && k < |actions| && actions[k].Send?
    ensures var i := actions[k].i;
            && i < |states[k].calls| && states[k].calls[i].Locked?
            && (!ExpiringSoon(c, states[k]) ==> states[k].calls[i].seen < states[k].expiryNumber)
  {
    RunKeepsInv(c, states, actions, k);
    assert StepAt(c, states, actions, k);
  }

  /**
   * A call that looks goes on to return the token exactly when that is still good for the threshold; it looks twice
   * before it waits for the lock.
   */
  lemma ExpiringIsRefreshed(c: Config, states: seq<State>, actions: seq<Action>, k: nat, i: nat)
    requires IsRun(c, states, actions) && k < |actions| && actions[k] in {Check(i), CheckAgain(i)}
    ensures i < |states[k].calls| && i < |states[k + 1].calls|
    ensures var s, call := states[k], states[k + 1].calls[i];
            && (call.Reading? <==> s.expiry.Some? && s.now + c.threshold < s.expiry.value)
            && (!call.Reading? ==> if actions[k] == Check(i) then call.Recheck? else call.Waiting?)
  {
    assert StepAt(c, states, actions, k);
  }

  /** After a failed refresh the call goes on to return the token exactly while that has not expired. */
  lemma FailureFallsBack(c: Config, states: seq<State>, actions: seq<Action>, k: nat, i: nat)
    requires IsRun(c, states, actions) && k < |actions| && actions[k] == Degrade(i)
    ensures i < |states[k].calls| && states[k].calls[i].Failed? && i < |states[k + 1].calls|
    ensures var s, call := states[k], states[k + 1].calls[i];
            if s.expiry.Some? && s.now < s.expiry.value then call.Fallback? else call == Returned(None, 0)
  {
    assert StepAt(c, states, actions, k);
  }

  /** What a call then returns is the token of that moment. */
  lemma CurrentIsReturned(c: Config, states: seq<State>, actions: seq<Action>, k: nat, i: nat)
    requires IsRun(c, states, actions) && k < |actions| && actions[k] == Read(i)
    ensures i < |states[k].calls| && i < |states[k + 1].calls|
    ensures states[k].calls[i].Fallback? || states[k].calls[i].Reading?
    ensures states[k + 1].calls[i].Returned? && states[k + 1].calls[i].token == states[k].token
  {
    assert StepAt(c, states, actions, k);
  }

  /** A refresh is tried again only after a bad request, with a database, and once. */
  lemma OnlyBadRequestsAreRetried(c: Config, states: seq<State>, actions: seq<Action>, k: nat, i: nat, outcome: Outcome)
    requires IsRun(c, states, actions) && k < |actions| && actions[k] == Receive(i, outcome)
    ensures i < |states[k].calls| && states[k].calls[i].Exchanging? && i < |states[k + 1].calls|
    ensures var retried, call := states[k].calls[i].retried, states[k + 1].calls[i];
            match outcome
            case Success(_, _) => call.Answered?
            case BadRequest => if c.hasDatabase && !retried then call.Reloading? else call.Failed?
            case OtherFailure => call.Failed?
    ensures states[k + 1].calls[i].Failed? ==> states[k + 1].holder == None
  {
    assert StepAt(c, states, actions, k);
  }

  /** With the answer all three fields are brought up to date before the lock is left. */
  lemma AnswerIsStored(c: Config, states: seq<State>, actions: seq<Action>, k: nat, i: nat)
    requires IsRun(c, states, actions) && k < |actions| && actions[k] == Release(i)
    ensures i < |states[k].calls| && states[k].calls[i].Stored?
    ensures var answer, s := states[k].calls[i].answer, states[k + 1];
            && s.token == Some(answer.number) && s.expiryNumber == answer.number && s.holder == None
            && (answer.refreshToken.Some? ==> s.refreshToken == answer.refreshToken.value)
            && (answer.refreshToken.None? ==> s.refreshToken == states[k].refreshToken)
  {
    RunKeepsInv(c, states, actions, k);
    assert StepAt(c, states, actions, k);
  }
}
