/**
 * The process-wide bearer-token memo (`cachedToken` and `authenticate` in the
 * registry controller). The clock reading and the login call's outcome are
 * parameters; no network is modelled.
 */
module TokenCache {
  import opened Wrappers

  /** Validity window added to the server-reported last-login instant: 3600 * 1000 ms. */
  const ValidityMs: int := 3600 * 1000

  /** The `{ value, expiry }` record; `None` stands for `null`, `undefined` or `NaN`. */
  datatype CacheState = CacheState(value: Option<string>, expiry: Option<int>)

  /** The `user` object of the login reply; `lastLogin` is `None` when missing or unparsable. */
  datatype LoginUser = LoginUser(lastLogin: Option<int>)

  /**
   * What `POST /api/sso/login` produced: `LoginFailed` when the call threw or
   * the reply had no body, otherwise the body's `token` and `user`.
   */
  datatype LoginReply =
    | LoginFailed
    | LoginReplied(token: Option<string>, user: Option<LoginUser>)

  /** What `authenticate` gives its caller: a (possibly null) token, or the thrown 'Authentication failed'. */
  datatype AuthOutcome = Authenticated(token: Option<string>) | AuthenticationFailed

  /** JavaScript truthiness of a string: present and not empty. */
  predicate TruthyString(s: Option<string>) {
    s.Some? && s.value != ""
  }

  /**
   * The cache-hit guard: a truthy expiry (present, not `NaN`, not 0), a truthy
   * value, and an expiry strictly after `now`.
   */
  predicate IsFresh(s: CacheState, now: int): (live: bool)
    ensures live ==> TruthyString(s.value) && s.expiry.Some? && now < s.expiry.value
    ensures s.expiry == Some(0) ==> !live
  {
    s.expiry.Some? && s.expiry.value != 0 && TruthyString(s.value) && s.expiry.value > now
  }

  /** `new Date(lastLogin).getTime() + expiresIn`, where `NaN` stays `NaN`. */
  function ExpiryFrom(lastLogin: Option<int>): (e: Option<int>)
    ensures e.Some? <==> lastLogin.Some?
    ensures e.Some? ==> e.value - lastLogin.value == 3600000
  {
    match lastLogin
    case Some(t) => Some(t + ValidityMs)
    case None => None
  }

  /**
   * One call of `authenticate` at clock reading `now`: the new cache and what
   * the caller receives. A returned token is always the one now cached, and a
   * failure leaves the cache as it was.
   */
  function AuthStep(s: CacheState, now: int, login: LoginReply): (r: (CacheState, AuthOutcome))
    ensures r.1.Authenticated? ==> r.1.token == r.0.value
    ensures r.1.AuthenticationFailed? ==> r.0 == s
    ensures r.0 != s ==> !IsFresh(s, now)
  {
    if IsFresh(s, now) then (s, Authenticated(s.value))
    else match login
      case LoginFailed => (s, AuthenticationFailed)
      case LoginReplied(token, user) =>
        match user
        case None => (s, AuthenticationFailed)
        case Some(u) => (CacheState(token, ExpiryFrom(u.lastLogin)), Authenticated(token))
  }

  /** The module-level `cachedToken` variable. */
  class Cache {
    var value: Option<string>
    var expiry: Option<int>

    function State(): CacheState
      reads this
    {
      CacheState(value, expiry)
    }

    /** The initial `{ value: null, expiry: null }`. */
    constructor ()
      ensures State() == CacheState(None, None)
    {
      value := None;
      expiry := None;
    }

    /** `authenticate()`: serve the cached token or log in and overwrite the whole record. */
    method Authenticate(now: int, login: LoginReply) returns (r: AuthOutcome)
      modifies this
      ensures (State(), r) == AuthStep(old(State()), now, login)
    {
      if expiry.Some? && expiry.value != 0 && value.Some? && value.value != "" && expiry.value > now {
        return Authenticated(value);
      }
      if login.LoginFailed? || login.user.None? {
        return AuthenticationFailed;
      }
      var token := login.token;
      var expiryTime := ExpiryFrom(login.user.value.lastLogin);
      value, expiry := token, expiryTime;
      r := Authenticated(token);
    }
  }
}

module TokenCacheFacts {
  import opened Wrappers
  import opened TokenCache

  /** A fresh cache is served as is: its value is returned and nothing changes, whatever a login would have said. */
  lemma CacheHit(s: CacheState, now: int, login: LoginReply)
    requires IsFresh(s, now)
    ensures AuthStep(s, now, login) == (s, Authenticated(s.value))
    ensures TruthyString(AuthStep(s, now, login).1.token)
  {
  }

  /** On a hit the login outcome is never consulted. */
  lemma HitIgnoresLogin(s: CacheState, now: int, login1: LoginReply, login2: LoginReply)
    requires IsFresh(s, now)
    ensures AuthStep(s, now, login1) == AuthStep(s, now, login2)
  {
  }

  /** The refresh cases: expiry reached, expiry missing or `NaN`, expiry 0, or no truthy value. */
  lemma RefreshWhenStale(s: CacheState, now: int)
    requires s.expiry == Some(now) || s.expiry.None? || s.expiry == Some(0) || !TruthyString(s.value)
    ensures !IsFresh(s, now)
  {
  }

  /**
   * A login reply with a `user` stores exactly its token and the expiry
   * computed from `lastLogin` (`NaN`, that is `None`, when it is missing or
   * unparsable), and returns that token.
   */
  lemma Refresh(s: CacheState, now: int, token: Option<string>, u: LoginUser)
    requires !IsFresh(s, now)
    ensures AuthStep(s, now, LoginReplied(token, Some(u)))
         == (CacheState(token, ExpiryFrom(u.lastLogin)), Authenticated(token))
    ensures u.lastLogin.Some? ==>
              AuthStep(s, now, LoginReplied(token, Some(u))).0.expiry == Some(u.lastLogin.value + 3600000)
  {
  }

  /**
   * A reply whose `lastLogin` is missing or unparsable still caches and
   * returns the token, with a `NaN` expiry: the next call, at any time,
   * logs in again.
   */
  lemma NaNExpiryNeverHits(s: CacheState, now: int, token: Option<string>, later: int)
    requires !IsFresh(s, now)
    ensures var (s1, r1) := AuthStep(s, now, LoginReplied(token, Some(LoginUser(None))));
            && s1 == CacheState(token, None) && r1 == Authenticated(token)
            && !IsFresh(s1, later)
  {
  }

  /** A fresh cache stays fresh until, and not at or after, its expiry instant. */
  lemma FreshUntilExpiry(s: CacheState, now: int, later: int)
    requires IsFresh(s, now)
    ensures IsFresh(s, later) <==> later < s.expiry.value
  {
  }

  /** The stored expiry is taken from the server's last-login instant, never from the local clock. */
  lemma RefreshIgnoresClock(s: CacheState, now1: int, now2: int, login: LoginReply)
    requires !IsFresh(s, now1) && !IsFresh(s, now2)
    ensures AuthStep(s, now1, login) == AuthStep(s, now2, login)
  {
  }

  /** A failed login, or a reply without `user`, raises and leaves the cache untouched. */
  lemma FailedLoginKeepsCache(s: CacheState, now: int, login: LoginReply)
    requires !IsFresh(s, now)
    requires login.LoginFailed? || login.user.None?
    ensures AuthStep(s, now, login) == (s, AuthenticationFailed)
  {
  }

  /**
   * After a successful refresh with a non-empty token, a later call made before
   * the new expiry is a hit on that token.
   */
  lemma RefreshThenHit(s: CacheState, now: int, token: string, lastLogin: int,
                        later: int, login: LoginReply)
    requires !IsFresh(s, now)
    requires token != "" && later < lastLogin + 3600000 && lastLogin + 3600000 != 0
    ensures var (s1, r1) := AuthStep(s, now, LoginReplied(Some(token), Some(LoginUser(Some(lastLogin)))));
            r1 == Authenticated(Some(token)) &&
            AuthStep(s1, later, login) == (s1, Authenticated(Some(token)))
  {
  }
}
