/**
 * The authentication controller of the dashboard (`bank-main/js/login.js`): credentials are
 * checked against a fixed user table, failed attempts are counted in a persisted
 * `{count, lockUntil}` record that locks the account for five minutes after five failures,
 * and a session record is written only after a credential match (and, for accounts that
 * want a second factor, only once the second factor has been passed when a provider exists).
 *
 * Browser storage is modelled by the two keys the controller uses: `bankLoginAttempts`
 * (`Store.attempts`) and `bankSession` (`Store.session`). The clock, the login timestamp and
 * the random token are parameters.
 */
module AuthController {
  import opened JsText

  const MaxAttempts: int := 5
  const LockoutTimeMs: int := 5 * 60 * 1000

  datatype User = User(username: string, password: string, role: string, requires2FA: bool)

  /** The mock user database. */
  const Users: seq<User> := [
    User("admin", "admin123", "admin", true),
    User("huokaingthara", "dutyfree", "cybersecurity", false),
    User("auditor", "auditor123", "auditor", true)
  ]

  /** The persisted attempt record; `lockUntil` is `null` until the account is locked. */
  datatype Attempts = Attempts(count: int, lockUntil: Option<int>)

  /** The session record `finalizeLogin` writes. */
  datatype Session = Session(username: string, role: string, loginTime: string, token: string)

  /** What is stored under the session key: a session's JSON, or text that does not parse. */
  datatype SessionBlob = Encoded(session: Session) | Unparsable(raw: string)

  /** The two storage keys of the controller; `None` is an absent key. */
  datatype Store = Store(attempts: Option<Attempts>, session: Option<SessionBlob>)

  /** What a call of `handleLogin` ends in (the message it shows, or the hand-off it makes). */
  datatype Outcome =
    | MissingInput
    | Locked
    | InvalidCredentials(count: int)
    | LockedNow
    | AwaitingSecondFactor(user: User)
    | LoggedIn(session: Session)

  /** `getAttempts()`: the stored record, or `{count: 0, lockUntil: null}` when the key is absent. */
  function AttemptsOf(st: Store): Attempts {
    if st.attempts.Some? then st.attempts.value else Attempts(0, None)
  }

  /** `data.lockUntil` is truthy: present and not 0. */
  predicate LockSet(a: Attempts) {
    a.lockUntil.Some? && a.lockUntil.value != 0
  }

  /**
   * `isLocked()`: whether the account is locked at `now`, and the store afterwards (a lock
   * whose time has passed deletes the attempt record).
   */
  function CheckLock(st: Store, now: int): (bool, Store) {
    var data := AttemptsOf(st);
    if !LockSet(data) then (false, st)
    else if now > data.lockUntil.value then (false, st.(attempts := None))
    else (true, st)
  }

  /** `USERS.find(u => u.username === username)` */
  function FindUser(users: seq<User>, username: string): (r: Option<User>)
    ensures r.Some? ==> r.value in users && r.value.username == username
    ensures r.None? ==> forall u :: u in users ==> u.username != username
    ensures r.Some? ==> exists i :: 0 <= i < |users| && users[i] == r.value &&
                          forall j :: 0 <= j < i ==> users[j].username != username
  {
    if users == [] then None
    else if users[0].username == username then Some(users[0])
    else
      var r := FindUser(users[1..], username);
      assert forall u :: u in users[1..] ==> u in users;
      if r.Some? then
        var i :| 0 <= i < |users[1..]| && users[1..][i] == r.value &&
                 forall j :: 0 <= j < i ==> users[1..][j].username != username;
        assert users[i + 1] == r.value;
        r
      else r
  }

  /** The credentials name a user of the table and carry that user's password. */
  predicate Matches(username: string, password: string) {
    var u := FindUser(Users, username);
    u.Some? && u.value.password == password
  }

  /** `finalizeLogin(user)`: the session record holds the user's name and role. */
  function Finalize(st: Store, user: User, loginTime: string, token: string): Store {
    st.(session := Some(Encoded(Session(user.username, user.role, loginTime, token))))
  }

  /**
   * `handleLogin(username, password)` at time `now`. `secondFactor` says whether a
   * second-factor provider (`start2FA`) is present.
   */
  function LoginStep(st: Store, username: string, password: string, now: int,
                     secondFactor: bool, loginTime: string, token: string): (Store, Outcome)
  {
    if username == "" || password == "" then (st, MissingInput)
    else
      var (locked, st1) := CheckLock(st, now);
      if locked then (st1, Locked)
      else
        var user := FindUser(Users, username);
        if user.None? || user.value.password != password then
          var data := AttemptsOf(st1);
          var count := data.count + 1;
          if count >= MaxAttempts then
            (st1.(attempts := Some(Attempts(MaxAttempts, Some(now + LockoutTimeMs)))), LockedNow)
          else
            (st1.(attempts := Some(data.(count := count))), InvalidCredentials(count))
        else
          var st2 := st1.(attempts := None);
          if user.value.requires2FA && secondFactor then (st2, AwaitingSecondFactor(user.value))
          else
            var st3 := Finalize(st2, user.value, loginTime, token);
            (st3, LoggedIn(st3.session.value.session))
  }

  /** `logout()` removes the session key. */
  function LogoutStore(st: Store): (r: Store)
    ensures r.session.None? && r.attempts == st.attempts
  {
    st.(session := None)
  }

  /** `getSession()`: the parsed session, or null when the key is absent or does not parse. */
  function SessionOf(st: Store): (r: Option<Session>)
    ensures r.Some? <==> st.session.Some? && st.session.value.Encoded?
    ensures r.Some? ==> r.value == st.session.value.session
  {
    match st.session
    case None => None
    case Some(Unparsable(_)) => None
    case Some(Encoded(s)) => Some(s)
  }

  // ---------------------------------------------------------------------------------------
  // One call of handleLogin

  /** An empty username or password is refused before the attempt record is read or written. */
  lemma EmptyInputTouchesNothing(st: Store, username: string, password: string, now: int,
                                 secondFactor: bool, loginTime: string, token: string)
    requires username == "" || password == ""
    ensures LoginStep(st, username, password, now, secondFactor, loginTime, token) == (st, MissingInput)
  {
  }

  /** While the lock holds, every login is refused, whatever the credentials, and nothing changes. */
  lemma LockedRefusesAnyCredentials(st: Store, username: string, password: string, now: int,
                                    secondFactor: bool, loginTime: string, token: string)
    requires username != "" && password != ""
    requires LockSet(AttemptsOf(st)) && now <= AttemptsOf(st).lockUntil.value
    ensures LoginStep(st, username, password, now, secondFactor, loginTime, token) == (st, Locked)
  {
  }

  /** Once the lock has passed, the record is deleted, so a failure counts from zero again. */
  lemma ExpiredLockCountsFromZero(st: Store, username: string, password: string, now: int,
                                  secondFactor: bool, loginTime: string, token: string)
    requires username != "" && password != "" && !Matches(username, password)
    requires LockSet(AttemptsOf(st)) && now > AttemptsOf(st).lockUntil.value
    ensures LoginStep(st, username, password, now, secondFactor, loginTime, token)
            == (st.(attempts := Some(Attempts(1, None))), InvalidCredentials(1))
  {
  }

  /**
   * A failure (unknown user or wrong password) when not locked raises the count by exactly
   * one: below five it is saved with the lock field as it was, at five the account is locked
   * for five minutes. The session key is untouched.
   */
  lemma FailureCounts(st: Store, username: string, password: string, now: int,
                      secondFactor: bool, loginTime: string, token: string)
    requires username != "" && password != "" && !Matches(username, password)
    requires !LockSet(AttemptsOf(st))
    ensures var (st', o) := LoginStep(st, username, password, now, secondFactor, loginTime, token);
            var c := AttemptsOf(st).count + 1;
            && st'.session == st.session
            && (c < MaxAttempts ==>
                  st'.attempts == Some(Attempts(c, AttemptsOf(st).lockUntil)) && o == InvalidCredentials(c))
            && (c >= MaxAttempts ==>
                  st'.attempts == Some(Attempts(MaxAttempts, Some(now + LockoutTimeMs))) && o == LockedNow)
  {
  }

  /**
   * A credential match clears the attempt record. Without a second-factor hand-off the
   * session written holds the matched user's name and role; with one, nothing is written yet.
   */
  lemma MatchClearsAndOpensSession(st: Store, username: string, password: string, now: int,
                                   secondFactor: bool, loginTime: string, token: string)
    requires username != "" && password != "" && Matches(username, password)
    requires !(LockSet(AttemptsOf(st)) && now <= AttemptsOf(st).lockUntil.value)
    ensures var (st', o) := LoginStep(st, username, password, now, secondFactor, loginTime, token);
            var u := FindUser(Users, username).value;
            && st'.attempts.None?
            && (u.requires2FA && secondFactor ==> o == AwaitingSecondFactor(u) && st'.session == st.session)
            && (!(u.requires2FA && secondFactor) ==>
                  o.LoggedIn? && SessionOf(st') == Some(o.session) &&
                  o.session.username == username && o.session.role == u.role)
  {
  }

  /** Only a credential match writes the session key. */
  lemma SessionWrittenOnlyOnMatch(st: Store, username: string, password: string, now: int,
                                  secondFactor: bool, loginTime: string, token: string)
    ensures var (st', o) := LoginStep(st, username, password, now, secondFactor, loginTime, token);
            st'.session != st.session ==> Matches(username, password) && o.LoggedIn?
  {
  }

  // ---------------------------------------------------------------------------------------
  // Runs of attempts

  datatype Attempt = Attempt(username: string, password: string, now: int)

  /** A non-empty attempt whose credentials do not match. */
  predicate Fails(x: Attempt) {
    x.username != "" && x.password != "" && !Matches(x.username, x.password)
  }

  /** The store after submitting `xs` in order. */
  function Replay(st: Store, xs: seq<Attempt>, secondFactor: bool, loginTime: string, token: string): Store
    decreases |xs|
  {
    if xs == [] then st
    else
      var x := xs[|xs| - 1];
      LoginStep(Replay(st, xs[..|xs| - 1], secondFactor, loginTime, token),
                x.username, x.password, x.now, secondFactor, loginTime, token).0
  }

  /** From an empty record, k < 5 consecutive failures leave `{count: k, lockUntil: null}`. */
  lemma {:induction false} FailuresBelowThreshold(st: Store, xs: seq<Attempt>, secondFactor: bool,
                                                  loginTime: string, token: string)
    requires st.attempts.None?
    requires 1 <= |xs| < MaxAttempts
    requires forall i :: 0 <= i < |xs| ==> Fails(xs[i])
    ensures Replay(st, xs, secondFactor, loginTime, token) ==
            st.(attempts := Some(Attempts(|xs|, None)))
    decreases |xs|
  {
    var prefix := xs[..|xs| - 1];
    if |xs| > 1 {
      FailuresBelowThreshold(st, prefix, secondFactor, loginTime, token);
    }
  }

  /** The fifth consecutive failure locks the account for five minutes from that attempt. */
  lemma FifthFailureLocks(st: Store, xs: seq<Attempt>, secondFactor: bool, loginTime: string, token: string)
    requires st.attempts.None?
    requires |xs| == MaxAttempts
    requires forall i :: 0 <= i < |xs| ==> Fails(xs[i])
    ensures Replay(st, xs, secondFactor, loginTime, token) ==
            st.(attempts := Some(Attempts(MaxAttempts, Some(xs[4].now + LockoutTimeMs))))
  {
    FailuresBelowThreshold(st, xs[..4], secondFactor, loginTime, token);
    var x := xs[4];
    FailureAfter(Replay(st, xs[..4], secondFactor, loginTime, token), 4, x, secondFactor, loginTime, token);
  }

  /** A failure on an unlocked record of `k` failures counts the `k + 1`-th; the fifth sets the lock. */
  lemma FailureAfter(st: Store, k: nat, x: Attempt, secondFactor: bool, loginTime: string, token: string)
    requires st.attempts == Some(Attempts(k, None)) && k < MaxAttempts && Fails(x)
    ensures LoginStep(st, x.username, x.password, x.now, secondFactor, loginTime, token).0 ==
            st.(attempts := Some(Attempts(k + 1, if k + 1 >= MaxAttempts then Some(x.now + LockoutTimeMs) else None)))
  {
  }

  /**
   * After five failures a sixth attempt inside the lock window is refused even with correct
   * credentials; after the window it is evaluated normally and a correct login succeeds.
   */
  lemma LockoutWindow(st: Store, xs: seq<Attempt>, username: string, password: string, now: int,
                      loginTime: string, token: string)
    requires st.attempts.None?
    requires |xs| == MaxAttempts && forall i :: 0 <= i < |xs| ==> Fails(xs[i])
    requires xs[4].now + LockoutTimeMs != 0
    requires username != "" && password != "" && Matches(username, password)
    ensures var locked := Replay(st, xs, false, loginTime, token);
            var (st', o) := LoginStep(locked, username, password, now, false, loginTime, token);
            && (now <= xs[4].now + LockoutTimeMs ==> st' == locked && o == Locked)
            && (now > xs[4].now + LockoutTimeMs ==> o.LoggedIn? && st'.attempts.None?)
  {
    FifthFailureLocks(st, xs, false, loginTime, token);
  }

  // ---------------------------------------------------------------------------------------
  // Sessions

  /** `getSession` after `logout` is null, and logging out twice is logging out once. */
  lemma LogoutEndsSession(st: Store)
    ensures SessionOf(LogoutStore(st)).None?
    ensures LogoutStore(LogoutStore(st)) == LogoutStore(st)
  {
  }

  /** The scenario with a one-factor account: the session is issued at once. */
  lemma OneFactorScenario(st: Store, now: int, secondFactor: bool, loginTime: string, token: string)
    requires st.attempts.None?
    ensures var (st', o) := LoginStep(st, "huokaingthara", "dutyfree", now, secondFactor, loginTime, token);
            o == LoggedIn(Session("huokaingthara", "cybersecurity", loginTime, token)) &&
            SessionOf(st') == Some(o.session)
  {
  }

  /** The admin account hands off to the second factor when a provider exists, and logs in directly when none does. */
  lemma AdminScenario(st: Store, now: int, loginTime: string, token: string)
    requires st.attempts.None?
    ensures LoginStep(st, "admin", "admin123", now, true, loginTime, token).1 == AwaitingSecondFactor(Users[0])
    ensures LoginStep(st, "admin", "admin123", now, false, loginTime, token).1 ==
            LoggedIn(Session("admin", "admin", loginTime, token))
  {
  }

  // ---------------------------------------------------------------------------------------
  // The controller over browser storage

  class Controller {
    /** localStorage["bankLoginAttempts"] */
    var attempts: Option<Attempts>
    /** sessionStorage["bankSession"] */
    var session: Option<SessionBlob>

    constructor ()
      ensures attempts.None? && session.None?
    {
      attempts := None;
      session := None;
    }

    function Snapshot(): Store
      reads this
    {
      Store(attempts, session)
    }

    method GetAttempts() returns (data: Attempts)
      ensures data == AttemptsOf(Snapshot())
      ensures attempts.None? ==> data == Attempts(0, None)
    {
      if attempts.Some? {
        data := attempts.value;
      } else {
        data := Attempts(0, None);
      }
    }

    method SetAttempts(data: Attempts)
      modifies this
      ensures attempts == Some(data) && session == old(session)
    {
      attempts := Some(data);
    }

    method ClearAttempts()
      modifies this
      ensures attempts.None? && session == old(session)
    {
      attempts := None;
    }

    method IsLocked(now: int) returns (locked: bool)
      modifies this
      ensures (locked, Snapshot()) == CheckLock(old(Snapshot()), now)
    {
      var data := GetAttempts();
      if !LockSet(data) {
        return false;
      }
      if now > data.lockUntil.value {
        ClearAttempts();
        return false;
      }
      return true;
    }

    method LockAccount(now: int)
      modifies this
      ensures attempts == Some(Attempts(MaxAttempts, Some(now + LockoutTimeMs)))
      ensures session == old(session)
    {
      var lockUntil := now + LockoutTimeMs;
      SetAttempts(Attempts(MaxAttempts, Some(lockUntil)));
    }

    method HandleLogin(username: string, password: string, now: int, secondFactor: bool,
                       loginTime: string, token: string) returns (outcome: Outcome)
      modifies this
      ensures (Snapshot(), outcome) ==
              LoginStep(old(Snapshot()), username, password, now, secondFactor, loginTime, token)
    {
      if username == "" || password == "" {
        return MissingInput;
      }
      var locked := IsLocked(now);
      if locked {
        return Locked;
      }
      var user := FindUser(Users, username);
      if user.None? || user.value.password != password {
        var data := GetAttempts();
        data := data.(count := data.count + 1);
        if data.count >= MaxAttempts {
          LockAccount(now);
          return LockedNow;
        } else {
          SetAttempts(data);
          return InvalidCredentials(data.count);
        }
      }
      ClearAttempts();
      if user.value.requires2FA && secondFactor {
        return AwaitingSecondFactor(user.value);
      }
      var s := FinalizeLogin(user.value, loginTime, token);
      return LoggedIn(s);
    }

    method FinalizeLogin(user: User, loginTime: string, token: string) returns (s: Session)
      modifies this
      ensures Snapshot() == Finalize(old(Snapshot()), user, loginTime, token)
      ensures s == Session(user.username, user.role, loginTime, token)
    {
      s := Session(user.username, user.role, loginTime, token);
      session := Some(Encoded(s));
    }

    method Logout()
      modifies this
      ensures Snapshot() == LogoutStore(old(Snapshot()))
    {
      session := None;
    }

    method GetSession() returns (s: Option<Session>)
      ensures s == SessionOf(Snapshot())
      ensures s.Some? ==> session == Some(Encoded(s.value))
    {
      if session.None? {
        return None;
      }
      match session.value
      case Unparsable(_) => return None;
      case Encoded(v) => return Some(v);
    }
  }
}
