/** `AuthProvider`: the session state, the plain authentication check, logout, and the
    retry machine that follows an OAuth redirect. Calls into the auth service are answered
    by outcome values; timers are the delays they would be started with. */
module Auth {
  import opened Common

  /** The signed-in user as the auth service reports it; its fields play no part here. */
  type User(==)

  /** `user`, `isLoading` and `error` of the provider. */
  datatype AuthState = AuthState(user: Option<User>, isLoading: bool, error: Option<string>)

  /** The provider before any check: no user, loading. */
  const InitialAuth: AuthState := AuthState(None, true, None)

  const CheckFailedMessage: string := "Failed to check authentication status"
  const LogoutFailedMessage: string := "Logout failed"

  /** `isAuthenticated`: `!!user`. */
  predicate IsAuthenticated(s: AuthState) {
    s.user.Some?
  }

  // ---------------------------------------------------------------------------
  // checkAuth and logout

  /** How `authService.checkAuth()` ended: it threw, or it answered with a user or none. */
  datatype CheckOutcome = CheckThrew | Responded(user: Option<User>)

  /** `checkAuth`: the user from the answer, or none with the failure message when the call
      threw; loading ends in every case. The favourites migration after a sign-in cannot
      change the state, as its failure is swallowed. */
  function CheckAuth(s: AuthState, outcome: CheckOutcome): (t: AuthState)
    ensures !t.isLoading
    ensures IsAuthenticated(t) <==> outcome.Responded? && outcome.user.Some?
    ensures outcome.Responded? ==> t.user == outcome.user && t.error == None
    ensures outcome.CheckThrew? ==> t.user == None && t.error == Some(CheckFailedMessage)
  {
    match outcome
    case CheckThrew => AuthState(None, false, Some(CheckFailedMessage))
    case Responded(u) => AuthState(u, false, None)
  }

  /** How `authService.logout()` ended: it threw, or it answered with a success flag and a message. */
  datatype LogoutOutcome = LogoutThrew | LogoutResult(success: bool, message: string)

  /** `logout`: success signs out and clears the error; an unsuccessful answer shows its
      message; a throw shows the fixed failure message. Only success touches the user. */
  function Logout(s: AuthState, outcome: LogoutOutcome): (t: AuthState)
    ensures t.isLoading == s.isLoading
    ensures outcome.LogoutResult? && outcome.success ==> t.user == None && t.error == None
    ensures outcome.LogoutResult? && !outcome.success ==> t.user == s.user && t.error == Some(outcome.message)
    ensures outcome.LogoutThrew? ==> t.user == s.user && t.error == Some(LogoutFailedMessage)
    ensures IsAuthenticated(t) <==> IsAuthenticated(s) && !(outcome.LogoutResult? && outcome.success)
  {
    match outcome
    case LogoutThrew => s.(error := Some(LogoutFailedMessage))
    case LogoutResult(success, message) =>
      if success then s.(user := None, error := None) else s.(error := Some(message))
  }

  // ---------------------------------------------------------------------------
  // Retry after the OAuth redirect

  const MaxRetries: nat := 5
  const InitialDelay: nat := 300

  /** `2 ** k`: at least 1, and more than `k`, so the delays grow without bound. */
  function Pow2(k: nat): (r: nat)
    ensures r >= 1
    ensures r > k
  {
    if k == 0 then 1 else 2 * Pow2(k - 1)
  }

  /** The delay scheduled after the `k`-th failed attempt: 300·2^(k-1) ms. */
  function RetryDelay(k: nat): (r: nat)
    requires k >= 1
    ensures r >= InitialDelay
  {
    InitialDelay * Pow2(k - 1)
  }

  /** Each further failure doubles the wait. */
  lemma RetryDelayDoubles(k: nat)
    requires k >= 1
    ensures RetryDelay(k + 1) == 2 * RetryDelay(k)
  {
  }

  /** The retry machine: failed attempts so far, the provider state, and the delay of the
      attempt scheduled next (`None` once the machine has stopped). */
  datatype Retry = Retry(failures: nat, auth: AuthState, next: Option<nat>)

  /** The redirect path starts: the first attempt is scheduled after 300 ms. */
  function StartRetry(s: AuthState): (r: Retry)
    ensures r.failures == 0 && r.auth == s && r.next == Some(InitialDelay)
  {
    Retry(0, s, Some(InitialDelay))
  }

  /** The machine's invariant: fewer than five failures while an attempt is pending, the
      pending delay follows the schedule, and a stopped machine is not loading. */
  predicate RetryInvariant(r: Retry) {
    && r.failures <= MaxRetries
    && (r.next.Some? ==> r.failures < MaxRetries
                         && r.next.value == (if r.failures == 0 then InitialDelay else RetryDelay(r.failures)))
    && (r.next.None? ==> !r.auth.isLoading)
  }

  /** `attemptAuthCheck`: a user stops the machine signed in; no user or a throw counts a
      failure and schedules the next attempt, or after the fifth failure stops it signed out. */
  function Attempt(r: Retry, outcome: CheckOutcome): (r': Retry)
    requires r.next.Some?
    ensures outcome.Responded? && outcome.user.Some? ==>
              r'.next.None? && r'.auth == r.auth.(user := outcome.user, isLoading := false) && r'.failures == r.failures
    ensures !(outcome.Responded? && outcome.user.Some?) ==> r'.failures == r.failures + 1 && r'.auth.error == r.auth.error
    ensures !(outcome.Responded? && outcome.user.Some?) && r.failures + 1 < MaxRetries ==>
              r'.next == Some(RetryDelay(r.failures + 1)) && r'.auth == r.auth
    ensures !(outcome.Responded? && outcome.user.Some?) && r.failures + 1 >= MaxRetries ==>
              r'.next.None? && r'.auth == r.auth.(user := None, isLoading := false)
  {
    match outcome
    case Responded(Some(u)) => Retry(r.failures, r.auth.(user := Some(u), isLoading := false), None)
    case _ =>
      var k := r.failures + 1;
      if k < MaxRetries then Retry(k, r.auth, Some(RetryDelay(k)))
      else Retry(k, r.auth.(user := None, isLoading := false), None)
  }

  /** Every attempt keeps the invariant. */
  lemma AttemptKeepsInvariant(r: Retry, outcome: CheckOutcome)
    requires RetryInvariant(r) && r.next.Some?
    ensures RetryInvariant(Attempt(r, outcome))
  {
  }

  /** A thrown check counts exactly like an answer without a user. */
  lemma ThrowIsNoUser(r: Retry)
    requires r.next.Some?
    ensures Attempt(r, CheckThrew) == Attempt(r, Responded(None))
  {
  }

  /** Runs the scheduled attempts against the successive outcomes of the auth service until
      the machine stops or the outcomes run out; also returns the delays it scheduled. */
  function Run(r: Retry, outcomes: seq<CheckOutcome>): (res: (Retry, seq<nat>))
    requires RetryInvariant(r)
    ensures RetryInvariant(res.0)
    ensures res.0.failures <= MaxRetries
    ensures r.next.None? ==> res == (r, [])
    ensures |res.1| <= |outcomes|
    decreases |outcomes|
  {
    if r.next.None? || outcomes == [] then (r, [])
    else
      AttemptKeepsInvariant(r, outcomes[0]);
      var r' := Attempt(r, outcomes[0]);
      var rest := Run(r', outcomes[1..]);
      (rest.0, (if r'.next.Some? then [r'.next.value] else []) + rest.1)
  }

  /** A successful answer is final: nothing runs after it. */
  lemma SuccessIsTerminal(r: Retry, u: User, outcomes: seq<CheckOutcome>)
    requires RetryInvariant(r) && r.next.Some?
    ensures var r' := Attempt(r, Responded(Some(u)));
            r'.auth.user == Some(u) && !r'.auth.isLoading && Run(r', outcomes) == (r', [])
  {
    AttemptKeepsInvariant(r, Responded(Some(u)));
  }

  /** No attempt yields a user. */
  predicate AllFail(outcomes: seq<CheckOutcome>) {
    forall i :: 0 <= i < |outcomes| ==> !(outcomes[i].Responded? && outcomes[i].user.Some?)
  }

  /** From `k` failures with the next attempt pending, failing attempts schedule the rest of
      the doubling delays and the machine stops signed out after the fifth failure. */
  lemma {:induction false} FailingRun(r: Retry, outcomes: seq<CheckOutcome>)
    requires RetryInvariant(r) && r.next.Some?
    requires AllFail(outcomes) && |outcomes| >= MaxRetries - r.failures
    ensures var res := Run(r, outcomes);
            && res.0.failures == MaxRetries && res.0.next.None?
            && res.0.auth == r.auth.(user := None, isLoading := false)
            && res.1 == seq(MaxRetries - 1 - r.failures, i requires 0 <= i < MaxRetries - 1 - r.failures =>
                              RetryDelay(r.failures + 1 + i))
    decreases MaxRetries - r.failures
  {
    AttemptKeepsInvariant(r, outcomes[0]);
    var r' := Attempt(r, outcomes[0]);
    if r'.next.Some? {
      assert AllFail(outcomes[1..]) by {
        forall i | 0 <= i < |outcomes[1..]|
          ensures !(outcomes[1..][i].Responded? && outcomes[1..][i].user.Some?)
        {
          assert outcomes[1..][i] == outcomes[i + 1];
        }
      }
      FailingRun(r', outcomes[1..]);
    }
  }

  /** When every check after the redirect fails, the attempts run after 300, 300, 600, 1200
      and 2400 ms and the user ends signed out and no longer loading. */
  lemma RedirectAllFail(s: AuthState, outcomes: seq<CheckOutcome>)
    requires AllFail(outcomes) && |outcomes| >= MaxRetries
    ensures var res := Run(StartRetry(s), outcomes);
            && [StartRetry(s).next.value] + res.1 == [300, 300, 600, 1200, 2400]
            && res.0.auth == s.(user := None, isLoading := false)
            && res.0.failures == MaxRetries && res.0.next.None?
  {
    FailingRun(StartRetry(s), outcomes);
    var res := Run(StartRetry(s), outcomes);
    assert res.1 == [RetryDelay(1), RetryDelay(2), RetryDelay(3), RetryDelay(4)];
  }

  /** The number of attempts a run makes never exceeds five. */
  lemma {:induction false} AtMostFiveAttempts(r: Retry, outcomes: seq<CheckOutcome>)
    requires RetryInvariant(r)
    ensures Attempts(r, outcomes) + r.failures <= MaxRetries || (r.next.None? && Attempts(r, outcomes) == 0)
    decreases |outcomes|
  {
    if r.next.Some? && outcomes != [] {
      AttemptKeepsInvariant(r, outcomes[0]);
      AtMostFiveAttempts(Attempt(r, outcomes[0]), outcomes[1..]);
    }
  }

  /** How many attempts `Run` makes. */
  function Attempts(r: Retry, outcomes: seq<CheckOutcome>): (n: nat)
    requires RetryInvariant(r)
    ensures n <= |outcomes|
    ensures r.next.None? ==> n == 0
    decreases |outcomes|
  {
    if r.next.None? || outcomes == [] then 0
    else
      AttemptKeepsInvariant(r, outcomes[0]);
      1 + Attempts(Attempt(r, outcomes[0]), outcomes[1..])
  }

  // ---------------------------------------------------------------------------
  // Mount

  /** What the provider does on mount, given the `auth` query parameter: the retry machine
      only after a successful OAuth redirect, otherwise a single `checkAuth`. */
  datatype MountPlan = RetryAfterRedirect(machine: Retry) | SingleCheck

  function OnMount(authParam: Option<string>): (p: MountPlan)
    ensures p.RetryAfterRedirect? <==> authParam == Some("success")
    ensures p.RetryAfterRedirect? ==> p.machine == StartRetry(InitialAuth)
  {
    if authParam == Some("success") then RetryAfterRedirect(StartRetry(InitialAuth)) else SingleCheck
  }
}
