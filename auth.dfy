/** The login endpoint's in-memory rate limiter: per client address, the
    times of recent failed logins. Five failures inside five minutes lock
    the address out until the oldest of them is five minutes old. Times are
    seconds since the epoch, read from the clock by the caller. */
module Auth {
  import opened Common
  import opened Text

  const MaxLoginAttempts := 5
  const LockoutSeconds: real := 300.0

  const TooManyAttempts := HttpError(429, "Too many login attempts. Try again in a few minutes.")
  const InvalidCredentials := HttpError(401, "Invalid credentials")

  /** The failures still inside the lockout window at `now`, in order. */
  function Recent(times: seq<real>, now: real): (r: seq<real>)
    ensures |r| <= |times|
    ensures forall t :: t in r <==> t in times && now - t < LockoutSeconds
  {
    if times == [] then []
    else
      var last := times[|times| - 1];
      assert forall t :: t in times <==> t in times[..|times| - 1] || t == last;
      Recent(times[..|times| - 1], now) + (if now - last < LockoutSeconds then [last] else [])
  }

  /** Every time in `times` lies inside the window that ends at `now`. */
  predicate Within(times: seq<real>, now: real) {
    forall i :: 0 <= i < |times| ==> now - LockoutSeconds < times[i] <= now
  }

  /** A history that lies wholly inside the window is kept as it is. */
  lemma {:induction false} RecentKeepsWindow(times: seq<real>, now: real)
    requires forall i :: 0 <= i < |times| ==> now - times[i] < LockoutSeconds
    ensures Recent(times, now) == times
  {
    if times != [] {
      var init := times[..|times| - 1];
      RecentKeepsWindow(init, now);
      assert init + [times[|times| - 1]] == times;
    }
  }

  datatype Outcome = Locked | Refused | Accepted

  /** One login attempt for one address: the outcome and the address's
      history afterwards (empty after a success, whose entry is removed). */
  function Attempt(times: seq<real>, now: real, credentialsOk: bool): (r: (Outcome, seq<real>))
    ensures r.0 == Locked <==> |Recent(times, now)| >= MaxLoginAttempts
    ensures r.0 == Refused <==> |Recent(times, now)| < MaxLoginAttempts && !credentialsOk
    ensures r.0 == Accepted <==> |Recent(times, now)| < MaxLoginAttempts && credentialsOk
    ensures r.0 == Locked ==> r.1 == Recent(times, now)
    ensures r.0 == Refused ==> r.1 == Recent(times, now) + [now]
    ensures r.0 == Accepted ==> r.1 == []
  {
    var recent := Recent(times, now);
    if |recent| >= MaxLoginAttempts then (Locked, recent)
    else if !credentialsOk then (Refused, recent + [now])
    else (Accepted, [])
  }

  /** A history never grows beyond the lockout threshold. */
  lemma AttemptBounded(times: seq<real>, now: real, credentialsOk: bool)
    requires |times| <= MaxLoginAttempts
    ensures |Attempt(times, now, credentialsOk).1| <= MaxLoginAttempts
  {
  }

  /** Failed logins at `times`, one after another. */
  function Failures(history: seq<real>, times: seq<real>): (r: seq<real>)
    ensures |history| <= MaxLoginAttempts ==> |r| <= MaxLoginAttempts
    decreases |times|
  {
    if times == [] then history
    else Failures(Attempt(history, times[0], false).1, times[1..])
  }

  /** A failure inside the window of an unlocked history is appended. */
  lemma FailureStep(history: seq<real>, t: real, now: real)
    requires |history| < MaxLoginAttempts && Within(history, now) && now - LockoutSeconds < t <= now
    ensures Attempt(history, t, false).1 == history + [t]
  {
    RecentKeepsWindow(history, t);
  }

  /** Failures inside one window accumulate in the history. */
  lemma {:induction false} FailuresAccumulate(history: seq<real>, times: seq<real>, now: real)
    requires |history| + |times| <= MaxLoginAttempts
    requires Within(history, now) && Within(times, now)
    ensures Failures(history, times) == history + times
    decreases |times|
  {
    if times != [] {
      var t0, rest := times[0], times[1..];
      var next := history + [t0];
      calc {
        Failures(history, times);
        Failures(Attempt(history, t0, false).1, rest);
        { FailureStep(history, t0, now); }
        Failures(next, rest);
        { WithinSplit(history, times, now);
          FailuresAccumulate(next, rest, now); }
        next + rest;
        { assert next + rest == history + times; }
        history + times;
      }
    }
  }

  lemma WithinSplit(history: seq<real>, times: seq<real>, now: real)
    requires times != [] && Within(history, now) && Within(times, now)
    ensures Within(history + [times[0]], now) && Within(times[1..], now)
  {
  }

  /** Five failed logins within five minutes lock the address out: the next
      attempt inside the window is refused even with the right credentials. */
  lemma FiveFailuresLockOut(times: seq<real>, now: real)
    requires |times| == MaxLoginAttempts && Within(times, now)
    ensures Attempt(Failures([], times), now, true).0 == Locked
  {
    FailuresAccumulate([], times, now);
    assert [] + times == times;
    RecentKeepsWindow(times, now);
  }

  /** Once every recorded failure is older than the window, the address may
      log in again. */
  lemma {:induction false} WindowExpires(times: seq<real>, now: real, credentialsOk: bool)
    requires forall t :: t in times ==> now - t >= LockoutSeconds
    ensures Recent(times, now) == []
    ensures Attempt(times, now, credentialsOk).0 != Locked
  {
    if times != [] {
      var init := times[..|times| - 1];
      assert times[|times| - 1] in times;
      forall t | t in init ensures now - t >= LockoutSeconds {
        var i :| 0 <= i < |init| && init[i] == t;
        assert times[i] in times;
      }
      WindowExpires(init, now, credentialsOk);
    }
  }

  /** A successful login's session: 30 days with "remember me", else one
      day; the cookie's max-age is set only with "remember me". */
  datatype Session = Session(username: string, expireDays: nat, maxAge: Option<nat>)

  function SessionFor(username: string, rememberMe: bool): (r: Session)
    ensures r.username == username
    ensures r.expireDays == if rememberMe then 30 else 1
    ensures r.maxAge.Some? <==> rememberMe
    ensures r.maxAge.Some? ==> r.maxAge.value == r.expireDays * 86400
  {
    var days := if rememberMe then 30 else 1;
    Session(username, days, if rememberMe then Some(days * 86400) else None)
  }

  class LoginLimiter {
    /** `_login_attempts`: an address missing from the map has no history. */
    var attempts: map<string, seq<real>>

    /** No address holds more failures than the lockout threshold. */
    ghost predicate Valid()
      reads this
    {
      forall ip :: ip in attempts ==> |attempts[ip]| <= MaxLoginAttempts
    }

    constructor ()
      ensures Valid() && attempts == map[]
    {
      attempts := map[];
    }

    function History(ip: string): (r: seq<real>)
      reads this
      ensures ip in attempts ==> r == attempts[ip]
      ensures ip !in attempts ==> r == []
    {
      if ip in attempts then attempts[ip] else []
    }

    /** `_check_rate_limit`: prunes the address's history to the window and
        refuses when the threshold is reached. */
    method CheckRateLimit(ip: string, now: real) returns (r: Result<(), HttpError>)
      modifies this
      ensures attempts == old(attempts)[ip := Recent(old(History(ip)), now)]
      ensures r.Err? <==> |attempts[ip]| >= MaxLoginAttempts
      ensures r.Err? ==> r.error == TooManyAttempts
    {
      attempts := attempts[ip := Recent(History(ip), now)];
      if |attempts[ip]| >= MaxLoginAttempts {
        return Err(TooManyAttempts);
      }
      return Ok(());
    }

    /** `_record_failed_attempt` */
    method RecordFailedAttempt(ip: string, now: real)
      modifies this
      ensures attempts == old(attempts)[ip := old(History(ip)) + [now]]
    {
      attempts := attempts[ip := History(ip) + [now]];
    }

    /** `_clear_attempts` */
    method ClearAttempts(ip: string)
      modifies this
      ensures attempts == old(attempts) - {ip}
    {
      attempts := attempts - {ip};
    }

    /** `login`: the rate limit is checked before the credentials, a failure
        is recorded, and a success forgets the address's history. The
        configured user name and the password check (bcrypt against the
        configured hash) are parameters. */
    method Login(ip: string, now: real, username: string, password: string, rememberMe: bool,
                 configuredUser: string, passwordMatches: string -> bool)
      returns (r: Result<Session, HttpError>)
      requires Valid()
      modifies this
      ensures Valid()
      ensures var ok := Strip(username) == configuredUser && passwordMatches(Strip(password));
        var (outcome, history) := Attempt(old(History(ip)), now, ok);
        && (outcome == Locked ==> r == Err(TooManyAttempts) && attempts == old(attempts)[ip := history])
        && (outcome == Refused ==> r == Err(InvalidCredentials) && attempts == old(attempts)[ip := history])
        && (outcome == Accepted ==> r == Ok(SessionFor(Strip(username), rememberMe)) && attempts == old(attempts) - {ip})
    {
      ghost var before := History(ip);
      var check := CheckRateLimit(ip, now);
      if check.Err? {
        return Err(check.error);
      }
      var user := Strip(username);
      var pass := Strip(password);
      if user != configuredUser || !passwordMatches(pass) {
        RecordFailedAttempt(ip, now);
        assert attempts == old(attempts)[ip := Recent(before, now) + [now]];
        return Err(InvalidCredentials);
      }
      ClearAttempts(ip);
      assert attempts == old(attempts) - {ip};
      return Ok(SessionFor(user, rememberMe));
    }
  }
}
