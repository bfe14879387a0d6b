/**
 * `RefreshTokenService`: renews the access token with the refresh token held by the
 * `SecurityService`, lets concurrent callers join an in-flight renewal, and schedules the next
 * renewal five minutes before expiry. The HTTP response and the timer are inputs of the model.
 */
module Refresh {
  import opened Wrappers
  import opened JsText
  import opened Browser
  import opened Security

  const AuthRoute := "/auth"

  /** Why `refreshToken` gave up (each failure runs `handleRefreshError`). */
  datatype FailReason = NoRefreshToken | SuspiciousActivityDetected | InsecureEnvironment

  /** The body of a refresh response: `token` and `refreshToken`, either possibly absent. */
  datatype Response = Response(token: Option<JsStr>, refreshToken: Option<JsStr>)

  /** What the POST to `refresh-token` produced: a (possibly null) body, or an HTTP error. */
  datatype Outcome = Responded(body: Option<Response>) | HttpFailed(status: int)

  /**
   * The observable `refreshToken` returns: an error, the shared subject (replaying its current
   * value, `null` being `None`), or a fresh POST carrying the refresh token.
   */
  datatype RefreshCall = Failed(reason: FailReason) | Joined(replayed: Option<Response>) | Started(refreshToken: JsStr)

  /**
   * The security service's storage together with this service's fields, the list of POST bodies
   * sent and the list of routes navigated to.
   */
  datatype RefreshState = RefreshState(
    store: Store,
    isRefreshing: bool,
    published: Option<Response>,
    posts: seq<JsStr>,
    navigations: seq<string>)

  function Fresh(store: Store): RefreshState {
    RefreshState(store, false, None, [], [])
  }

  /** `handleRefreshError`: clear every token and navigate to `/auth`. */
  function HandledError(st: RefreshState): (r: RefreshState)
    ensures r.store == Cleared(st.store) && r.navigations == st.navigations + [AuthRoute]
    ensures r.isRefreshing == st.isRefreshing && r.published == st.published && r.posts == st.posts
  {
    st.(store := Cleared(st.store), navigations := st.navigations + [AuthRoute])
  }

  datatype RefreshStep = RefreshStep(call: RefreshCall, after: RefreshState)

  /**
   * `refreshToken`: the three guards run in order (refresh token present, no suspicious activity,
   * secure environment), then an in-flight renewal is joined, else a new one starts.
   */
  function Refreshed(env: Platform, st: RefreshState): (r: RefreshStep)
    ensures !Truthy(ReadRefreshToken(env, st.store)) ==> r == RefreshStep(Failed(NoRefreshToken), HandledError(st))
    ensures r.call.Started? <==> Truthy(ReadRefreshToken(env, st.store)) && IsSecureEnvironment(env) && !st.isRefreshing
    ensures r.call.Started? ==>
      r.call.refreshToken == ReadRefreshToken(env, st.store).value
      && r.after == st.(store := ReadToken(env, st.store).after, isRefreshing := true, published := None,
                        posts := st.posts + [r.call.refreshToken])
    ensures r.call.Joined? ==> r.call.replayed == st.published && r.after == st.(store := ReadToken(env, st.store).after)
    ensures Truthy(ReadRefreshToken(env, st.store)) && IsSecureEnvironment(env) && st.isRefreshing ==>
      r.call == Joined(st.published)
    ensures Truthy(ReadRefreshToken(env, st.store)) && !IsSecureEnvironment(env) ==>
      r == RefreshStep(Failed(SuspiciousActivityDetected), HandledError(st.(store := ReadToken(env, st.store).after)))
  {
    var refreshToken := ReadRefreshToken(env, st.store);
    if !Truthy(refreshToken) then RefreshStep(Failed(NoRefreshToken), HandledError(st))
    else
      var check := SuspiciousActivity(env, st.store);
      var st1 := st.(store := check.after);
      if check.result then RefreshStep(Failed(SuspiciousActivityDetected), HandledError(st1))
      else if !IsSecureEnvironment(env) then RefreshStep(Failed(InsecureEnvironment), HandledError(st1))
      else if st1.isRefreshing then RefreshStep(Joined(st1.published), st1)
      else
        RefreshStep(Started(refreshToken.value),
                    st1.(isRefreshing := true, published := None, posts := st1.posts + [refreshToken.value]))
  }

  /** The insecure-environment guard is unreachable: the suspicious-activity guard before it fires first. */
  lemma InsecureGuardUnreachable(env: Platform, st: RefreshState)
    ensures Refreshed(env, st).call != Failed(InsecureEnvironment)
  {
  }

  /** Every failure clears the tokens and sends the user to `/auth`. */
  lemma FailureLogsOut(env: Platform, st: RefreshState)
    ensures Refreshed(env, st).call.Failed? ==>
      var after := Refreshed(env, st).after;
      TokenKey !in after.store.session && RefreshTokenKey !in after.store.session
      && after.navigations == st.navigations + [AuthRoute] && after.posts == st.posts
  {
  }

  /** A POST is sent exactly when a renewal starts. */
  lemma PostOnlyWhenStarted(env: Platform, st: RefreshState)
    ensures var r := Refreshed(env, st);
      (|r.after.posts| == |st.posts| + 1 <==> r.call.Started?) && (!r.call.Started? ==> r.after.posts == st.posts)
  {
  }

  /** Two calls in a row before the response arrives send at most one POST. */
  lemma {:induction false} SingleFlight(env: Platform, st: RefreshState)
    ensures var first := Refreshed(env, st);
      var second := Refreshed(env, first.after);
      first.call.Started? ==> !second.call.Started? && second.after.posts == first.after.posts
  {
    var first := Refreshed(env, st);
    if first.call.Started? {
      assert first.after.isRefreshing;
      PostOnlyWhenStarted(env, first.after);
    }
  }

  /**
   * The response of the POST: a body with a truthy `token` stores it (and a truthy `refreshToken`)
   * and publishes the body; then the flag drops. An HTTP error drops the flag and logs out.
   */
  function Completed(env: Platform, st: RefreshState, outcome: Outcome): (r: RefreshState)
    ensures !r.isRefreshing && r.posts == st.posts
    ensures outcome.HttpFailed? ==> r == HandledError(st.(isRefreshing := false))
    ensures outcome.Responded? && !(outcome.body.Some? && Truthy(outcome.body.value.token)) ==>
      r == st.(isRefreshing := false)
  {
    match outcome
    case HttpFailed(_) => HandledError(st.(isRefreshing := false))
    case Responded(body) =>
      if body.Some? && Truthy(body.value.token) then
        var s1 := StoredToken(env, st.store, body.value.token.value);
        var s2 := if Truthy(body.value.refreshToken) then StoredRefreshToken(env, s1, body.value.refreshToken.value) else s1;
        st.(store := s2, published := body, isRefreshing := false)
      else st.(isRefreshing := false)
  }

  /** A renewed byte-string token is what the security service reads back afterwards. */
  lemma {:induction false} RenewedTokenReadsBack(env: Platform, st: RefreshState, response: Response)
    requires Base64Laws(env) && EncryptionKey(env).Some?
    requires Truthy(response.token) && Latin1(response.token.value)
    requires response.refreshToken.Some? ==> Latin1(response.refreshToken.value)
    ensures var r := Completed(env, st, Responded(Some(response)));
      ReadToken(env, r.store).token == response.token && r.published == Some(response)
      && (Truthy(response.refreshToken) ==> ReadRefreshToken(env, r.store) == response.refreshToken)
      && (!Truthy(response.refreshToken) ==> ReadRefreshToken(env, r.store) == ReadRefreshToken(env, st.store))
  {
    var s1 := StoredToken(env, st.store, response.token.value);
    StoredTokenReadsBack(env, st.store, response.token.value);
    if Truthy(response.refreshToken) {
      var s2 := StoredRefreshToken(env, s1, response.refreshToken.value);
      StoredRefreshTokenReadsBack(env, s1, response.refreshToken.value);
      EncryptedSucceeds(env, response.refreshToken.value);
      assert s2.session[TokenKey] == s1.session[TokenKey];
    }
  }

  /** While a renewal is in flight the subject holds `null`. */
  predicate InFlightPublishesNull(st: RefreshState) {
    st.isRefreshing ==> st.published.None?
  }

  /** `refreshToken` and the response keep that invariant, so a joining caller always receives `null` first. */
  lemma InFlightInvariant(env: Platform, st: RefreshState, outcome: Outcome)
    requires InFlightPublishesNull(st)
    ensures InFlightPublishesNull(Refreshed(env, st).after)
    ensures InFlightPublishesNull(Completed(env, st, outcome))
    ensures Refreshed(env, st).call.Joined? ==> Refreshed(env, st).call.replayed.None?
  {
  }

  /** Whether `scheduleTokenRefresh` armed a timer, and its delay in seconds. */
  datatype Schedule = NotArmed | Armed(delaySeconds: int)

  datatype ScheduleStep = ScheduleStep(schedule: Schedule, after: Store)

  /**
   * `scheduleTokenRefresh`: with a readable token and a secure environment, a renewal is armed
   * `max(0, remaining - 300)` seconds ahead, and only when that is positive.
   */
  function Scheduled(env: Platform, s: Store, now: int): (r: ScheduleStep)
    ensures r.after == ReadToken(env, s).after
    ensures r.schedule.Armed? <==>
      Truthy(ReadToken(env, s).token) && IsSecureEnvironment(env) && TimeRemaining(env, ReadToken(env, s).token, now) > SoonWindow
    ensures r.schedule.Armed? ==> r.schedule.delaySeconds == TimeRemaining(env, ReadToken(env, s).token, now) - SoonWindow
  {
    var read := ReadToken(env, s);
    if !Truthy(read.token) || !IsValidJWT(read.token.value) then ScheduleStep(NotArmed, read.after)
    else
      var check := SuspiciousActivity(env, read.after);
      if check.result then ScheduleStep(NotArmed, check.after)
      else
        var remainingRead := ReadToken(env, check.after);
        var remaining := TimeRemaining(env, remainingRead.token, now);
        var refreshTime := if remaining - SoonWindow > 0 then remaining - SoonWindow else 0;
        if refreshTime > 0 then ScheduleStep(Armed(refreshTime), remainingRead.after)
        else ScheduleStep(NotArmed, remainingRead.after)
  }

  /** An armed renewal fires while the token is still live and before the expiry-soon window ends. */
  lemma {:induction false} ArmedBeforeExpiry(env: Platform, s: Store, now: int)
    ensures var r := Scheduled(env, s, now);
      r.schedule.Armed? ==>
        r.schedule.delaySeconds > 0 && !ExpiringSoon(env, ReadToken(env, s).token, now)
        && !IsTokenExpired(env, ReadToken(env, s).token.value, now + r.schedule.delaySeconds)
  {
    var r := Scheduled(env, s, now);
    if r.schedule.Armed? {
      NotExpiringSoonIffTimeLeft(env, ReadToken(env, s).token, now);
    }
  }

  /** What a renewal timer does when it fires, and the next schedule if it asks for one. */
  datatype Renewal = Renewal(call: RefreshCall, next: Option<Schedule>, after: RefreshState)

  /**
   * The timer callback: call `refreshToken` and subscribe. A join is answered at once by the
   * subject's replay and reschedules; a started renewal reschedules on a response and runs
   * `handleRefreshError` a second time on an HTTP error; a failed call runs it a second time too.
   */
  function TimerFired(env: Platform, st: RefreshState, now: int, outcome: Outcome): (r: Renewal)
    ensures r.call == Refreshed(env, st).call
    ensures r.call.Failed? ==> r.next.None? && r.after == HandledError(Refreshed(env, st).after)
    ensures r.call.Started? && outcome.HttpFailed? ==>
      r.next.None? && r.after == HandledError(Completed(env, Refreshed(env, st).after, outcome))
      && r.after.navigations == st.navigations + [AuthRoute, AuthRoute]
    ensures r.call.Started? && outcome.Responded? ==>
      var done := Completed(env, Refreshed(env, st).after, outcome);
      r.next == Some(Scheduled(env, done.store, now).schedule) && r.after == done.(store := ReadToken(env, done.store).after)
    ensures r.call.Joined? ==>
      var joined := Refreshed(env, st).after;
      r.next == Some(Scheduled(env, joined.store, now).schedule) && r.after == joined.(store := ReadToken(env, joined.store).after)
    ensures r.next.Some? <==> r.call.Joined? || (r.call.Started? && outcome.Responded?)
    ensures r.call.Started? ==> !r.after.isRefreshing
  {
    var step := Refreshed(env, st);
    match step.call
    case Failed(_) => Renewal(step.call, None, HandledError(step.after))
    case Joined(_) =>
      var next := Scheduled(env, step.after.store, now);
      Renewal(step.call, Some(next.schedule), step.after.(store := next.after))
    case Started(_) =>
      var done := Completed(env, step.after, outcome);
      if outcome.HttpFailed? then Renewal(step.call, None, HandledError(done))
      else
        var next := Scheduled(env, done.store, now);
        Renewal(step.call, Some(next.schedule), done.(store := next.after))
  }

  class RefreshTokenService {
    const security: SecurityService
    var isRefreshing: bool
    var published: Option<Response>
    var posts: seq<JsStr>
    var navigations: seq<string>

    function State(): RefreshState
      reads this, security
    {
      RefreshState(security.State(), isRefreshing, published, posts, navigations)
    }

    constructor(security: SecurityService)
      ensures this.security == security
      ensures State() == Fresh(security.State())
    {
      this.security := security;
      isRefreshing := false;
      published := None;
      posts := [];
      navigations := [];
    }

    method HandleRefreshError()
      modifies this, security
      ensures State() == HandledError(old(State()))
    {
      security.ClearAllTokens();
      navigations := navigations + [AuthRoute];
    }

    method RefreshToken() returns (call: RefreshCall)
      modifies this, security
      ensures RefreshStep(call, State()) == Refreshed(security.env, old(State()))
    {
      var refreshToken := security.GetSecureRefreshToken();
      if !Truthy(refreshToken) {
        HandleRefreshError();
        return Failed(NoRefreshToken);
      }
      var suspicious := security.DetectSuspiciousActivity();
      if suspicious {
        HandleRefreshError();
        return Failed(SuspiciousActivityDetected);
      }
      if !security.IsSecure() {
        // `detectSuspiciousActivity` already answered `!isSecureEnvironment()`
        assert false;
      }
      if isRefreshing {
        return Joined(published);
      }
      isRefreshing := true;
      published := None;
      posts := posts + [refreshToken.value];
      call := Started(refreshToken.value);
    }

    /** The `tap`/`catchError` stage of the POST, run when its outcome arrives. */
    method CompleteRefresh(outcome: Outcome)
      modifies this, security
      ensures State() == Completed(security.env, old(State()), outcome)
    {
      match outcome {
        case HttpFailed(_) =>
          isRefreshing := false;
          HandleRefreshError();
        case Responded(body) =>
          if body.Some? && Truthy(body.value.token) {
            security.SetSecureToken(body.value.token.value);
            if Truthy(body.value.refreshToken) {
              security.SetSecureRefreshToken(body.value.refreshToken.value);
            }
            published := body;
          }
          isRefreshing := false;
      }
    }

    /** `shouldRefreshToken`. */
    method ShouldRefreshToken(now: int) returns (should: bool)
      modifies security
      ensures should == ExpiringSoon(security.env, ReadToken(security.env, old(security.State())).token, now)
      ensures security.State() == ReadToken(security.env, old(security.State())).after
    {
      should := security.IsTokenExpiringSoon(now);
    }

    method ScheduleTokenRefresh(now: int) returns (schedule: Schedule)
      modifies security
      ensures ScheduleStep(schedule, security.State()) == Scheduled(security.env, old(security.State()), now)
    {
      var token := security.GetSecureToken();
      if !Truthy(token) || !IsValidJWT(token.value) {
        return NotArmed;
      }
      var suspicious := security.DetectSuspiciousActivity();
      if suspicious {
        return NotArmed;
      }
      var remaining := security.GetTokenTimeRemaining(now);
      var refreshTime := if remaining - SoonWindow > 0 then remaining - SoonWindow else 0;
      schedule := if refreshTime > 0 then Armed(refreshTime) else NotArmed;
    }

    /** The callback of an armed timer, given the outcome its POST will have if it sends one. */
    method RenewalTimerFired(now: int, outcome: Outcome) returns (call: RefreshCall, next: Option<Schedule>)
      modifies this, security
      ensures Renewal(call, next, State()) == TimerFired(security.env, old(State()), now, outcome)
    {
      call := RefreshToken();
      match call {
        case Failed(_) =>
          HandleRefreshError();
          next := None;
        case Joined(_) =>
          var schedule := ScheduleTokenRefresh(now);
          next := Some(schedule);
        case Started(_) =>
          CompleteRefresh(outcome);
          if outcome.HttpFailed? {
            HandleRefreshError();
            next := None;
          } else {
            var schedule := ScheduleTokenRefresh(now);
            next := Some(schedule);
          }
      }
    }

    function IsRefreshingToken(): (refreshing: bool)
      reads this
      ensures refreshing == isRefreshing
    {
      isRefreshing
    }
  }
}
