// The session protocol of one user record: login with lockout, refresh-token rotation, tenant switch and logout.
// Times are milliseconds. Each request is one atomic step.
module Sessions {
  import opened Option

  const MAX_FAILED_ATTEMPTS := 5
  const LOCKOUT_MS := 15 * 60_000
  const SESSION_ABSOLUTE_MS := 12 * 60 * 60 * 1000

  // A signed refresh token: its version claim and its unique id.
  datatype Token = Token(tv: nat, jti: int)

  // `refreshHash` stands for the stored hash of a token; hashing is injective, so the token itself is kept here.
  datatype User = User(active: bool, tokenVersion: nat, refreshHash: Option<Token>, sessionCreatedAt: Option<int>,
                       failedAttempts: nat, lockedUntil: Option<int>)

  // `jti` is the id drawn for the token the request may issue. `verifies` says that the signature and expiry check
  // passed.
  datatype Event =
    | Login(now: int, passwordOk: bool, jti: int)
    | Refresh(now: int, token: Token, verifies: bool, jti: int)
    | Switch(now: int, jti: int)
    | Logout

  datatype Outcome =
    | Issued(token: Token)
    | BadCredentials | Locked
    | InvalidToken | CeilingExceeded | ReplayDetected | TokenMismatch
    | UserNotFound | LoggedOut

  predicate IsLocked(u: User, now: int) {
    u.lockedUntil.Some? && u.lockedUntil.value > now
  }

  predicate PastCeiling(u: User, now: int) {
    u.sessionCreatedAt.Some? && now - u.sessionCreatedAt.value > SESSION_ABSOLUTE_MS
  }

  function Step(u: User, e: Event): (User, Outcome) {
    match e
    case Login(now, passwordOk, jti) =>
      if !u.active then (u, BadCredentials)
      else if IsLocked(u, now) then (u, Locked)
      else if !passwordOk then
        var failed := u.failedAttempts + 1;
        (u.(failedAttempts := failed,
            lockedUntil := if failed >= MAX_FAILED_ATTEMPTS then Some(now + LOCKOUT_MS) else u.lockedUntil),
         BadCredentials)
      else
        var token := Token(u.tokenVersion, jti);
        (u.(refreshHash := Some(token), failedAttempts := 0, lockedUntil := None, sessionCreatedAt := Some(now)),
         Issued(token))
    case Refresh(now, token, verifies, jti) =>
      if !verifies || !u.active || u.refreshHash.None? then (u, InvalidToken)
      else if PastCeiling(u, now) then
        (u.(refreshHash := None, tokenVersion := u.tokenVersion + 1, sessionCreatedAt := None), CeilingExceeded)
      else if token.tv != u.tokenVersion then
        (u.(refreshHash := None, tokenVersion := u.tokenVersion + 1), ReplayDetected)
      else if u.refreshHash != Some(token) then (u, TokenMismatch)
      else
        var fresh' := Token(u.tokenVersion + 1, jti);
        (u.(tokenVersion := u.tokenVersion + 1, refreshHash := Some(fresh')), Issued(fresh'))
    case Switch(now, jti) =>
      if !u.active then (u, UserNotFound)
      else
        var token := Token(u.tokenVersion + 1, jti);
        (u.(tokenVersion := u.tokenVersion + 1, sessionCreatedAt := Some(now), refreshHash := Some(token)),
         Issued(token))
    case Logout => (u.(refreshHash := None, tokenVersion := u.tokenVersion + 1), LoggedOut)
  }

  class AuthService {
    var active: bool
    var tokenVersion: nat
    var refreshHash: Option<Token>
    var sessionCreatedAt: Option<int>
    var failedAttempts: nat
    var lockedUntil: Option<int>

    function Record(): User
      reads this
    {
      User(active, tokenVersion, refreshHash, sessionCreatedAt, failedAttempts, lockedUntil)
    }

    // A newly registered user has never held a token.
    constructor Register()
      ensures Record() == User(true, 0, None, None, 0, None)
    {
      active, tokenVersion, refreshHash := true, 0, None;
      sessionCreatedAt, failedAttempts, lockedUntil := None, 0, None;
    }

    method Login(now: int, passwordOk: bool, jti: int) returns (outcome: Outcome)
      modifies this
      ensures (Record(), outcome) == Step(old(Record()), Event.Login(now, passwordOk, jti))
    {
      if !active {
        return BadCredentials;
      }
      if lockedUntil.Some? && lockedUntil.value > now {
        return Locked;
      }
      if !passwordOk {
        failedAttempts := failedAttempts + 1;
        if failedAttempts >= MAX_FAILED_ATTEMPTS {
          lockedUntil := Some(now + LOCKOUT_MS);
        }
        return BadCredentials;
      }
      var token := Token(tokenVersion, jti);
      refreshHash := Some(token);
      failedAttempts := 0;
      lockedUntil := None;
      sessionCreatedAt := Some(now);
      return Issued(token);
    }

    method RefreshToken(now: int, token: Token, verifies: bool, jti: int) returns (outcome: Outcome)
      modifies this
      ensures (Record(), outcome) == Step(old(Record()), Refresh(now, token, verifies, jti))
    {
      if !verifies || !active || refreshHash.None? {
        return InvalidToken;
      }
      if sessionCreatedAt.Some? && now - sessionCreatedAt.value > SESSION_ABSOLUTE_MS {
        refreshHash, tokenVersion, sessionCreatedAt := None, tokenVersion + 1, None;
        return CeilingExceeded;
      }
      if token.tv != tokenVersion {
        refreshHash, tokenVersion := None, tokenVersion + 1;
        return ReplayDetected;
      }
      if refreshHash != Some(token) {
        return TokenMismatch;
      }
      tokenVersion := tokenVersion + 1;
      var rotated := Token(tokenVersion, jti);
      refreshHash := Some(rotated);
      return Issued(rotated);
    }

    method MintTokensForTenantSwitch(now: int, jti: int) returns (outcome: Outcome)
      modifies this
      ensures (Record(), outcome) == Step(old(Record()), Switch(now, jti))
    {
      if !active {
        return UserNotFound;
      }
      tokenVersion := tokenVersion + 1;
      sessionCreatedAt := Some(now);
      var token := Token(tokenVersion, jti);
      refreshHash := Some(token);
      return Issued(token);
    }

    method LogOut() returns (outcome: Outcome)
      modifies this
      ensures (Record(), outcome) == Step(old(Record()), Logout)
    {
      refreshHash, tokenVersion := None, tokenVersion + 1;
      return LoggedOut;
    }
  }

  // ----- Runs ------------------------------------------------------------------------------------

  // The record together with what an observer remembers: every refresh token ever issued, in order, and the time of
  // the latest successful login or switch.
  datatype Trace = Trace(user: User, issued: seq<Token>, authenticatedAt: Option<int>)

  const REGISTERED := Trace(User(true, 0, None, None, 0, None), [], None)

  predicate Authenticates(t: Trace, e: Event) {
    (e.Login? || e.Switch?) && Step(t.user, e).1.Issued?
  }

  function Next(t: Trace, e: Event): Trace {
    var (user, outcome) := Step(t.user, e);
    Trace(user,
          if outcome.Issued? then t.issued + [outcome.token] else t.issued,
          if Authenticates(t, e) then Some(e.now) else t.authenticatedAt)
  }

  // Token ids are never drawn twice, and only tokens that were issued can verify.
  predicate Permitted(t: Trace, e: Event) {
    && (!e.Logout? ==> forall token | token in t.issued :: token.jti != e.jti)
    && (e.Refresh? && e.verifies ==> e.token in t.issued)
  }

  function Run(t: Trace, es: seq<Event>): Trace
    decreases |es|
  {
    if es == [] then t else Run(Next(t, es[0]), es[1..])
  }

  predicate PermittedRun(t: Trace, es: seq<Event>)
    decreases |es|
  {
    es == [] || (Permitted(t, es[0]) && PermittedRun(Next(t, es[0]), es[1..]))
  }

  ghost predicate Sound(t: Trace) {
    && (forall token | token in t.issued :: token.tv <= t.user.tokenVersion)
    && (t.user.refreshHash.Some? ==>
          && t.user.refreshHash.value in t.issued
          && t.user.refreshHash.value.tv == t.user.tokenVersion
          && t.authenticatedAt.Some?
          && t.user.sessionCreatedAt == t.authenticatedAt)
  }

  lemma StepKeepsSound(t: Trace, e: Event)
    requires Sound(t) && Permitted(t, e)
    ensures Sound(Next(t, e)) && t.user.tokenVersion <= Next(t, e).user.tokenVersion
    ensures t.issued <= Next(t, e).issued && Next(t, e).user.active == t.user.active
  {
  }

  // Issued tokens never carry a version above the record's, which never decreases.
  lemma {:induction false} RunKeepsSound(t: Trace, es: seq<Event>)
    requires Sound(t) && PermittedRun(t, es)
    ensures Sound(Run(t, es)) && t.user.tokenVersion <= Run(t, es).user.tokenVersion
    ensures t.issued <= Run(t, es).issued
    decreases |es|
  {
    if es != [] {
      StepKeepsSound(t, es[0]);
      RunKeepsSound(Next(t, es[0]), es[1..]);
    }
  }

  // Whether presenting a token now would be answered with new tokens.
  predicate Accepts(t: Trace, token: Token, now: int) {
    Step(t.user, Refresh(now, token, true, 0)).1.Issued?
  }

  // A refresh is accepted exactly for the stored token of an active user within twelve hours of the latest login or
  // switch; in particular at most one token is ever acceptable.
  lemma AcceptsIff(t: Trace, token: Token, now: int)
    requires Sound(t)
    ensures Accepts(t, token, now) <==>
            && t.user.active && t.user.refreshHash == Some(token)
            && t.authenticatedAt.Some? && now - t.authenticatedAt.value <= SESSION_ABSOLUTE_MS
  {
  }

  // The events that end the life of every token issued before them.
  predicate Ends(outcome: Outcome) {
    outcome.Issued? || outcome.LoggedOut? || outcome.ReplayDetected? || outcome.CeilingExceeded?
  }

  predicate Undisturbed(t: Trace, es: seq<Event>)
    decreases |es|
  {
    es == [] || (!Ends(Step(t.user, es[0]).1) && Undisturbed(Next(t, es[0]), es[1..]))
  }

  // ----- Tokens that do not verify ---------------------------------------------------------------

  // A refresh with a token that was not signed here, was altered, or has expired.
  predicate Forged(e: Event) {
    e.Refresh? && !e.verifies
  }

  // The run without them.
  function Genuine(es: seq<Event>): seq<Event> {
    if es == [] then [] else (if Forged(es[0]) then [] else [es[0]]) + Genuine(es[1..])
  }

  // They might as well not have been sent: record, issued tokens, every token's life and all that follows are the same.
  lemma {:induction false} ForgeriesAreInert(t: Trace, es: seq<Event>)
    ensures Run(t, es) == Run(t, Genuine(es))
    ensures Undisturbed(t, es) <==> Undisturbed(t, Genuine(es))
    ensures OnlyLogins(t, es) <==> OnlyLogins(t, Genuine(es))
    ensures PermittedRun(t, es) ==> PermittedRun(t, Genuine(es))
    decreases |es|
  {
    if es != [] {
      ForgeriesAreInert(Next(t, es[0]), es[1..]);
      if Forged(es[0]) {
        assert Next(t, es[0]) == t && Genuine(es) == Genuine(es[1..]);
      } else {
        assert Genuine(es)[1..] == Genuine(es[1..]);
      }
    }
  }

  // The request has an effect: on the record, on what was issued, or on the life of a token.
  predicate Acts(t: Trace, e: Event) {
    Next(t, e) != t || Ends(Step(t.user, e).1)
  }

  // Every refresh on the way that had an effect presented a token that verified and had been issued before.
  predicate RefreshesActOnIssued(t: Trace, es: seq<Event>)
    decreases |es|
  {
    es == [] || ((es[0].Refresh? && Acts(t, es[0]) ==> es[0].verifies && es[0].token in t.issued)
                 && RefreshesActOnIssued(Next(t, es[0]), es[1..]))
  }

  lemma {:induction false} OnlyIssuedTokensAct(t: Trace, es: seq<Event>)
    requires PermittedRun(t, es)
    ensures RefreshesActOnIssued(t, es)
    decreases |es|
  {
    if es != [] {
      OnlyIssuedTokensAct(Next(t, es[0]), es[1..]);
    }
  }

  // Once a token has been superseded it stays dead.
  lemma {:induction false} NeverAgain(t: Trace, token: Token, es: seq<Event>)
    requires token in t.issued && t.user.refreshHash != Some(token) && PermittedRun(t, es)
    ensures Run(t, es).user.refreshHash != Some(token)
    decreases |es|
  {
    if es != [] {
      NeverAgain(Next(t, es[0]), token, es[1..]);
    }
  }

  // The life of the stored token, over every run: it is still the stored one exactly when no login, refresh, switch,
  // logout, replay or ceiling event has happened among the requests other than refreshes that do not verify.
  lemma TokenLife(t: Trace, token: Token, es: seq<Event>)
    requires Sound(t) && t.user.refreshHash == Some(token) && PermittedRun(t, es)
    ensures Run(t, es).user.refreshHash == Some(token) <==> Undisturbed(t, Genuine(es))
    ensures Undisturbed(t, es) <==> Undisturbed(t, Genuine(es))
  {
    LifeOfStored(t, token, es);
    ForgeriesAreInert(t, es);
  }

  lemma {:induction false} LifeOfStored(t: Trace, token: Token, es: seq<Event>)
    requires Sound(t) && t.user.refreshHash == Some(token) && PermittedRun(t, es)
    ensures Run(t, es).user.refreshHash == Some(token) <==> Undisturbed(t, es)
    decreases |es|
  {
    if es != [] {
      var next := Next(t, es[0]);
      StepKeepsSound(t, es[0]);
      if Ends(Step(t.user, es[0]).1) {
        assert token in next.issued && next.user.refreshHash != Some(token);
        NeverAgain(next, token, es[1..]);
      } else {
        LifeOfStored(next, token, es[1..]);
      }
    }
  }

  predicate Reauthenticates(t: Trace, es: seq<Event>)
    decreases |es|
  {
    es != [] && (Authenticates(t, es[0]) || Reauthenticates(Next(t, es[0]), es[1..]))
  }

  // While no token is stored, none is accepted until the next login or switch.
  lemma {:induction false} DeadUntilReauthentication(t: Trace, es: seq<Event>, token: Token, now: int)
    requires t.user.refreshHash.None? && !Reauthenticates(t, es)
    ensures Run(t, es).user.refreshHash.None? && !Accepts(Run(t, es), token, now)
    decreases |es|
  {
    if es != [] {
      DeadUntilReauthentication(Next(t, es[0]), es[1..], token, now);
    }
  }

  // Of the events that end the life of tokens, only logins have occurred.
  predicate OnlyLogins(t: Trace, es: seq<Event>)
    decreases |es|
  {
    es == [] || ((Ends(Step(t.user, es[0]).1) ==> es[0].Login?) && OnlyLogins(Next(t, es[0]), es[1..]))
  }

  // A login is the one ending event that leaves the version alone.
  lemma {:induction false} VersionMovesUnlessOnlyLogins(t: Trace, es: seq<Event>)
    ensures Run(t, es).user.tokenVersion >= t.user.tokenVersion
    ensures Run(t, es).user.tokenVersion == t.user.tokenVersion <==> OnlyLogins(t, es)
    decreases |es|
  {
    if es != [] {
      VersionMovesUnlessOnlyLogins(Next(t, es[0]), es[1..]);
    }
  }

  // There is a session to refresh.
  predicate Live(u: User, now: int) {
    u.active && u.refreshHash.Some? && !PastCeiling(u, now)
  }

  // What became of a stored token, over every run. Presented in a live session it is taken for a replay exactly when a
  // refresh, switch, logout, replay or ceiling event has occurred since, it is refused without consequence exactly when
  // it has been displaced by logins alone, and it is accepted exactly when nothing has displaced it.
  lemma TokenAnswers(t: Trace, token: Token, es: seq<Event>, now: int, jti: int)
    requires Sound(t) && t.user.refreshHash == Some(token) && PermittedRun(t, es)
    ensures var u := Run(t, es).user;
            var answer := Step(u, Refresh(now, token, true, jti)).1;
            && (answer.ReplayDetected? <==> Live(u, now) && !OnlyLogins(t, es))
            && (answer.TokenMismatch? <==> Live(u, now) && OnlyLogins(t, es) && !Undisturbed(t, es))
            && (answer.Issued? <==> Live(u, now) && Undisturbed(t, es))
  {
    TokenLife(t, token, es);
    VersionMovesUnlessOnlyLogins(t, es);
    if Run(t, es).user.refreshHash == Some(token) {
      RunKeepsSound(t, es);
    }
  }

  // The consequences of presenting a displaced token: a detected replay leaves nothing acceptable until the next
  // login or switch, a mismatch changes nothing at all.
  lemma SupersededToken(t: Trace, token: Token, es: seq<Event>, now: int, jti: int, later: seq<Event>, other: Token,
                        then': int)
    requires Sound(t) && t.user.refreshHash == Some(token) && PermittedRun(t, es)
    requires Live(Run(t, es).user, now) && !Undisturbed(t, es)
    ensures var end := Run(t, es);
            var next := Next(end, Refresh(now, token, true, jti));
            if OnlyLogins(t, es) then next == end
            else !Reauthenticates(next, later) ==> !Accepts(Run(next, later), other, then')
  {
    TokenAnswers(t, token, es, now, jti);
    var next := Next(Run(t, es), Refresh(now, token, true, jti));
    if !OnlyLogins(t, es) && !Reauthenticates(next, later) {
      DeadUntilReauthentication(next, later, other, then');
    }
  }

  // Two logins, then the token of the first: a mismatch, after which the token of the second is still accepted.
  lemma SecondLoginDisplaces()
    ensures var es := [Event.Login(0, true, 1), Event.Login(1, true, 2)];
            var t := Run(REGISTERED, es);
            && PermittedRun(REGISTERED, es)
            && t.issued == [Token(0, 1), Token(0, 2)]
            && Step(t.user, Refresh(2, Token(0, 1), true, 3)) == (t.user, TokenMismatch)
            && Accepts(t, Token(0, 2), 2)
  {
    var es := [Event.Login(0, true, 1), Event.Login(1, true, 2)];
    assert es[1..] == [es[1]] && es[1..][1..] == [];
    var once := Next(REGISTERED, es[0]);
    assert once.issued == [Token(0, 1)];
    assert Run(REGISTERED, es) == Run(once, es[1..]) == Next(once, es[1]);
    assert PermittedRun(once, es[1..]);
  }

  // ----- Lockout ---------------------------------------------------------------------------------

  // A request whose password is actually checked.
  predicate IsCheck(u: User, e: Event) {
    e.Login? && u.active && !IsLocked(u, e.now)
  }

  // The times at which a password was actually checked.
  function Checks(t: Trace, es: seq<Event>): seq<int>
    decreases |es|
  {
    if es == [] then []
    else (if IsCheck(t.user, es[0]) then [es[0].now] else []) + Checks(Next(t, es[0]), es[1..])
  }

  predicate NoLoginSucceeds(t: Trace, es: seq<Event>)
    decreases |es|
  {
    es == [] || (!(es[0].Login? && Step(t.user, es[0]).1.Issued?) && NoLoginSucceeds(Next(t, es[0]), es[1..]))
  }

  // Once locked, every further check comes at least one lockout period after the one before.
  lemma {:induction false} LockedRate(t: Trace, es: seq<Event>, last: int)
    requires t.user.failedAttempts >= MAX_FAILED_ATTEMPTS && t.user.lockedUntil == Some(last + LOCKOUT_MS)
    requires NoLoginSucceeds(t, es)
    ensures var ts := Checks(t, es); ts != [] ==> ts[|ts| - 1] >= last + |ts| * LOCKOUT_MS
    decreases |es|
  {
    if es != [] {
      CheckCounts(t.user, es[0]);
      LockedRate(Next(t, es[0]), es[1..], if IsCheck(t.user, es[0]) then es[0].now else last);
    }
  }

  // From the last free check on, each further one takes a lockout period.
  predicate Spaced(ts: seq<int>, free: nat) {
    free > 0 && (|ts| >= free ==> ts[|ts| - 1] - ts[free - 1] >= (|ts| - free) * LOCKOUT_MS)
  }

  lemma SpacedPrepend(first: int, rest: seq<int>, free: nat)
    requires free > 1 && Spaced(rest, free - 1)
    ensures Spaced([first] + rest, free)
  {
  }

  lemma SpacedFromFirst(first: int, rest: seq<int>)
    requires rest != [] ==> rest[|rest| - 1] >= first + |rest| * LOCKOUT_MS
    ensures Spaced([first] + rest, 1)
  {
  }

  lemma ChecksUnfold(t: Trace, es: seq<Event>)
    requires es != []
    ensures Checks(t, es) == (if IsCheck(t.user, es[0]) then [es[0].now] else []) + Checks(Next(t, es[0]), es[1..])
  {
    hide Next;
  }

  lemma CheckCounts(u: User, e: Event)
    requires !(e.Login? && Step(u, e).1.Issued?)
    ensures var next, failed := Step(u, e).0, u.failedAttempts + if IsCheck(u, e) then 1 else 0;
            && next.failedAttempts == failed
            && (IsCheck(u, e) && failed >= MAX_FAILED_ATTEMPTS ==> next.lockedUntil == Some(e.now + LOCKOUT_MS))
  {
  }

  // With no successful login, only the first five checks are free: the n-th comes (n - 5) lockout periods or more
  // after the fifth. `t.user.failedAttempts` of those five may already be spent.
  lemma {:induction false} LockoutRate(t: Trace, es: seq<Event>)
    requires t.user.failedAttempts < MAX_FAILED_ATTEMPTS && NoLoginSucceeds(t, es)
    ensures Spaced(Checks(t, es), MAX_FAILED_ATTEMPTS - t.user.failedAttempts)
    decreases |es|
  {
    if es != [] {
      var next, free := Next(t, es[0]), MAX_FAILED_ATTEMPTS - t.user.failedAttempts;
      ChecksUnfold(t, es);
      CheckCounts(t.user, es[0]);
      hide Checks, Step, IsCheck, Spaced;
      var rest := Checks(next, es[1..]);
      if next.user.failedAttempts == t.user.failedAttempts {
        LockoutRate(next, es[1..]);
        assert [] + rest == rest;
      } else if free > 1 {
        LockoutRate(next, es[1..]);
        SpacedPrepend(es[0].now, rest, free);
      } else {
        LockedRate(next, es[1..], es[0].now);
        SpacedFromFirst(es[0].now, rest);
      }
    }
  }

  // ----- Passwords -------------------------------------------------------------------------------

  // The times of the wrong passwords that were checked since the latest right one, after those in `before`.
  function WrongStreak(t: Trace, es: seq<Event>, before: seq<int>): seq<int>
    decreases |es|
  {
    if es == [] then before
    else
      WrongStreak(Next(t, es[0]), es[1..],
                  if !IsCheck(t.user, es[0]) then before else if es[0].passwordOk then [] else before + [es[0].now])
  }

  // The counter and the lock are those of the streak.
  predicate StreakFits(u: User, streak: seq<int>) {
    && u.failedAttempts == |streak|
    && u.lockedUntil == if |streak| < 5 then None else Some(streak[|streak| - 1] + 900_000)
  }

  // After every run: five or more wrong passwords in a row, of those that were checked, lock the user for fifteen
  // minutes from the last of them, and nothing else does.
  lemma {:induction false} LockIsStreak(t: Trace, es: seq<Event>, before: seq<int>)
    requires StreakFits(t.user, before)
    ensures StreakFits(Run(t, es).user, WrongStreak(t, es, before))
    decreases |es|
  {
    if es != [] {
      var streak := if !IsCheck(t.user, es[0]) then before else if es[0].passwordOk then [] else before + [es[0].now];
      LockIsStreak(Next(t, es[0]), es[1..], streak);
    }
  }

  // A login request is answered with a token exactly when the user is active, not locked by a streak, and the password
  // is right.
  lemma LoginIssuesIff(es: seq<Event>, now: int, passwordOk: bool, jti: int)
    ensures var t, streak := Run(REGISTERED, es), WrongStreak(REGISTERED, es, []);
            Step(t.user, Event.Login(now, passwordOk, jti)).1.Issued? <==>
            t.user.active && passwordOk && (|streak| < 5 || streak[|streak| - 1] + 900_000 <= now)
  {
    LockIsStreak(REGISTERED, es, []);
  }

  // Everything about sessions, for every permitted run since registration.
  lemma SessionsOverRuns(es: seq<Event>, token: Token, token': Token, now: int)
    requires PermittedRun(REGISTERED, es)
    ensures var t := Run(REGISTERED, es);
            && t == Run(REGISTERED, Genuine(es))
            && RefreshesActOnIssued(REGISTERED, es)
            && StreakFits(t.user, WrongStreak(REGISTERED, es, []))
            && (forall issued | issued in t.issued :: issued.tv <= t.user.tokenVersion)
            && (Accepts(t, token, now) && Accepts(t, token', now) ==> token == token')
            && (Accepts(t, token, now) ==>
                  && token in t.issued
                  && t.authenticatedAt.Some? && now - t.authenticatedAt.value <= 43_200_000)
  {
    ForgeriesAreInert(REGISTERED, es);
    OnlyIssuedTokensAct(REGISTERED, es);
    LockIsStreak(REGISTERED, es, []);
    RunKeepsSound(REGISTERED, es);
    AcceptsIff(Run(REGISTERED, es), token, now);
    AcceptsIff(Run(REGISTERED, es), token', now);
  }
}
