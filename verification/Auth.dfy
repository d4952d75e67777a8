/**
 Sessions: an in-memory cache in front of the session table.
 */
module Auth {
  import opened Domain

  datatype Role = Prosecutor | Regulator | Operator | Inspector

  datatype User = User(id: string, passwordHash: string, role: Role)

  datatype Session = Session(token: Id, user: string, role: Role, expiresAt: int, revokedAt: Option<int>)

  datatype AuthError = InvalidCredentials | SessionRevoked | SessionExpired | Forbidden | PersistFailed

  type Answer = Result<Session, AuthError>

  datatype Auth = Auth(cache: map<Id, Session>, table: map<Id, Session>, now: int)

  /** The answer for the session that a lookup found; a session is good until just before it expires. */
  function Judge(found: Option<Session>, now: int): Answer {
    if found.None? || found.value.revokedAt.Some? then Err(SessionRevoked)
    else if now >= found.value.expiresAt then Err(SessionExpired)
    else Ok(found.value)
  }

  function Find(sessions: map<Id, Session>, token: Id): Option<Session> {
    if token in sessions then Some(sessions[token]) else None
  }

  /** The cache first, and the table only when the cache has nothing. */
  function Authenticated(a: Auth, token: Id): Answer {
    Judge(if token in a.cache then Find(a.cache, token) else Find(a.table, token), a.now)
  }

  /** The answer that the table alone would give. */
  function TableAnswer(a: Auth, token: Id): Answer {
    Judge(Find(a.table, token), a.now)
  }

  /** A token in the cache alone: the session of a login that could not be persisted. */
  predicate Orphaned(a: Auth, token: Id) { token in a.cache && token !in a.table }

  datatype Step =
    | Login(token: Id, user: User, ttl: int, persisted: bool)
    | Logout(token: Id)
    | LogoutKilled(token: Id)
    | Restart
    | Tick(now: int)

  /** Tokens are fresh and time does not run backwards. */
  predicate Enabled(a: Auth, step: Step) {
    match step
    case Login(token, _, _, _) => token !in a.cache && token !in a.table
    case Tick(now) => now >= a.now
    case _ => true
  }

  function Opened(token: Id, user: User, now: int, ttl: int): Session {
    Session(token, user.id, user.role, now + ttl, None)
  }

  /** The table is updated only for a stored session that is not yet revoked. */
  predicate Revocable(table: map<Id, Session>, token: Id) {
    token in table && table[token].revokedAt.None?
  }

  function Revoked(s: Session, now: int): Session { s.(revokedAt := Some(now)) }

  /** A logout succeeds when the caller is authenticated and the table update finds its row. */
  predicate LogsOut(a: Auth, token: Id) {
    Authenticated(a, token).Ok? && Revocable(a.table, token)
  }

  function After(a: Auth, step: Step): Auth {
    match step
    case Login(token, user, ttl, persisted) =>
      var s := Opened(token, user, a.now, ttl);
      a.(cache := a.cache[token := s], table := if persisted then a.table[token := s] else a.table)
    case Logout(token) =>
      if !LogsOut(a, token) then a
      else a.(cache := a.cache[token := Revoked(Authenticated(a, token).value, a.now)],
              table := a.table[token := Revoked(a.table[token], a.now)])
    case LogoutKilled(token) =>
      a.(cache := map[],
         table := if LogsOut(a, token) then a.table[token := Revoked(a.table[token], a.now)] else a.table)
    case Restart => a.(cache := map[])
    case Tick(now) => a.(now := now)
  }

  predicate Feasible(a: Auth, steps: seq<Step>)
    decreases steps
  {
    steps == [] || (Enabled(a, steps[0]) && Feasible(After(a, steps[0]), steps[1..]))
  }

  function Final(a: Auth, steps: seq<Step>): Auth
    decreases steps
  {
    if steps == [] then a else Final(After(a, steps[0]), steps[1..])
  }

  /** The cache agrees with the table wherever both know a token, and an orphan is never revoked. */
  ghost predicate Consistent(a: Auth) {
    forall token :: token in a.cache ==>
      if token in a.table then a.cache[token] == a.table[token] else a.cache[token].revokedAt.None?
  }

  lemma {:induction false} ConsistentForever(a: Auth, steps: seq<Step>)
    requires Consistent(a) && Feasible(a, steps)
    ensures Consistent(Final(a, steps))
    decreases steps
  {
    if steps == [] {
    } else {
      assert Consistent(After(a, steps[0]));
      hide Consistent, After;
      ConsistentForever(After(a, steps[0]), steps[1..]);
    }
  }

  /**
   Over any run of logins, logouts, crashes and restarts from an empty cache, a token is answered
   exactly as the table alone would answer if and only if it is not an orphan; so every
   persisted token is.
   */
  lemma CacheRefinesTable(start: Auth, steps: seq<Step>, token: Id)
    requires start.cache == map[] && Feasible(start, steps)
    ensures var a := Final(start, steps); Authenticated(a, token) == TableAnswer(a, token) <==> !Orphaned(a, token)
  {
    assert Consistent(start);
    ConsistentForever(start, steps);
    hide Final, Feasible;
  }

  /** Emptying the cache changes the answer for orphans and for no other token. */
  lemma RestartChangesNoAnswer(start: Auth, steps: seq<Step>, token: Id)
    requires start.cache == map[] && Feasible(start, steps)
    ensures var a := Final(start, steps);
            Authenticated(After(a, Restart), token) == Authenticated(a, token) <==> !Orphaned(a, token)
  {
    CacheRefinesTable(start, steps, token);
    hide Final, Feasible;
  }

  /** A persisted token that is revoked, or has expired, by now. */
  predicate Closed(a: Auth, token: Id) {
    token in a.table && (a.table[token].revokedAt.Some? || a.now >= a.table[token].expiresAt)
  }

  lemma {:induction false} ClosedForever(a: Auth, steps: seq<Step>, token: Id)
    requires Feasible(a, steps) && Closed(a, token)
    ensures var z := Final(a, steps);
            Closed(z, token) && (a.table[token].revokedAt.Some? ==> z.table[token].revokedAt.Some?)
    decreases steps
  {
    if steps == [] {
    } else {
      var b := After(a, steps[0]);
      assert Closed(b, token) && (a.table[token].revokedAt.Some? ==> b.table[token].revokedAt.Some?);
      hide After, Closed;
      ClosedForever(b, steps[1..], token);
    }
  }

  /** After a successful logout, killed before the cache was updated or not, every later answer is "revoked". */
  lemma LogoutIsForever(start: Auth, before: seq<Step>, token: Id, killed: bool, later: seq<Step>)
    requires start.cache == map[] && Feasible(start, before) && LogsOut(Final(start, before), token)
    requires Feasible(After(Final(start, before), if killed then LogoutKilled(token) else Logout(token)), later)
    ensures var a := After(Final(start, before), if killed then LogoutKilled(token) else Logout(token));
            Authenticated(Final(a, later), token) == Err(SessionRevoked)
  {
    assert Consistent(start);
    ConsistentForever(start, before);
    var a := After(Final(start, before), if killed then LogoutKilled(token) else Logout(token));
    assert Closed(a, token) && a.table[token].revokedAt.Some? && Consistent(a);
    hide After, Closed, LogsOut;
    ClosedForever(a, later, token);
    ConsistentForever(a, later);
    hide Final, Feasible;
    assert token in Final(a, later).table by { ClosedMeans(Final(a, later), token); }
  }

  lemma ClosedMeans(a: Auth, token: Id)
    requires Closed(a, token)
    ensures token in a.table
  {
  }

  /** Once a persisted token is refused, for whatever reason, it is never accepted again. */
  lemma RefusedForever(start: Auth, before: seq<Step>, token: Id, later: seq<Step>)
    requires start.cache == map[] && Feasible(start, before) && Feasible(Final(start, before), later)
    requires token in Final(start, before).table && Authenticated(Final(start, before), token).Err?
    ensures Authenticated(Final(Final(start, before), later), token).Err?
  {
    assert Consistent(start);
    ConsistentForever(start, before);
    var a := Final(start, before);
    assert Closed(a, token);
    ClosedForever(a, later, token);
    ConsistentForever(a, later);
    hide Final, Feasible;
  }

  // ---------------------------------------------------------------- how long a session lasts

  /** The step ends this session: a logout that succeeds, or, for one that was never persisted, a new process. */
  predicate Ends(a: Auth, step: Step, token: Id) {
    match step
    case Logout(t) => t == token && LogsOut(a, token)
    case LogoutKilled(t) => token !in a.table || (t == token && LogsOut(a, token))
    case Restart => token !in a.table
    case _ => false
  }

  predicate EndedIn(a: Auth, steps: seq<Step>, token: Id)
    decreases steps
  {
    steps != [] && (Ends(a, steps[0], token) || EndedIn(After(a, steps[0]), steps[1..], token))
  }

  /** The token stands for this session, unrevoked, in the table if it was persisted and in the cache if it was not. */
  ghost predicate Standing(a: Auth, token: Id, s: Session, persisted: bool) {
    && Consistent(a) && s.revokedAt.None?
    && if persisted then token in a.table && a.table[token] == s
       else token !in a.table && token in a.cache && a.cache[token] == s
  }

  ghost predicate Ended(a: Auth, token: Id, persisted: bool) {
    && Consistent(a)
    && if persisted then token in a.table && a.table[token].revokedAt.Some? else token !in a.table && token !in a.cache
  }

  predicate Reissues(steps: seq<Step>, token: Id) {
    exists i :: 0 <= i < |steps| && steps[i].Login? && steps[i].token == token
  }

  lemma StandingNext(a: Auth, step: Step, token: Id, s: Session, persisted: bool)
    requires Enabled(a, step) && Standing(a, token, s, persisted)
    ensures var b := After(a, step);
            if Ends(a, step, token) then Ended(b, token, persisted) else Standing(b, token, s, persisted)
  {
  }

  lemma EndedNext(a: Auth, step: Step, token: Id, persisted: bool)
    requires Enabled(a, step) && Ended(a, token, persisted)
    requires persisted || !(step.Login? && step.token == token)
    ensures Ended(After(a, step), token, persisted)
  {
  }

  lemma {:induction false} EndedForever(a: Auth, steps: seq<Step>, token: Id, persisted: bool)
    requires Feasible(a, steps) && Ended(a, token, persisted) && (persisted || !Reissues(steps, token))
    ensures Ended(Final(a, steps), token, persisted)
    decreases steps
  {
    if steps == [] {
    } else {
      EndedNext(a, steps[0], token, persisted);
      assert !persisted ==> !Reissues(steps[1..], token) by {
        assert forall i :: 0 <= i < |steps| - 1 ==> steps[1..][i] == steps[i + 1];
      }
      hide Ended, After, Reissues;
      EndedForever(After(a, steps[0]), steps[1..], token, persisted);
    }
  }

  lemma {:induction false} StandsUntilEnded(a: Auth, steps: seq<Step>, token: Id, s: Session, persisted: bool)
    requires Feasible(a, steps) && Standing(a, token, s, persisted) && (persisted || !Reissues(steps, token))
    ensures if EndedIn(a, steps, token) then Ended(Final(a, steps), token, persisted)
            else Standing(Final(a, steps), token, s, persisted)
    decreases steps
  {
    if steps == [] {
    } else {
      StandingNext(a, steps[0], token, s, persisted);
      assert !persisted ==> !Reissues(steps[1..], token) by {
        assert forall i :: 0 <= i < |steps| - 1 ==> steps[1..][i] == steps[i + 1];
      }
      hide Standing, Ended, Ends, After, Reissues;
      if Ends(a, steps[0], token) {
        EndedForever(After(a, steps[0]), steps[1..], token, persisted);
      } else {
        StandsUntilEnded(After(a, steps[0]), steps[1..], token, s, persisted);
      }
    }
  }

  /**
   A login opens a session for that user and role that lasts exactly its lifetime.  In any run,
   across restarts and crashes, its token is from then on revoked once a logout has succeeded,
   or, if the session could not be persisted, once there is a new process; and otherwise
   accepted, with that user and role, exactly while the clock is below login time plus lifetime.
   Tokens are random, so nothing issues the token of an unpersisted session again.
   */
  lemma SessionLasts(start: Auth, before: seq<Step>, token: Id, user: User, ttl: int, persisted: bool,
                     later: seq<Step>)
    requires start.cache == map[] && Feasible(start, before)
    requires Enabled(Final(start, before), Login(token, user, ttl, persisted))
    requires Feasible(After(Final(start, before), Login(token, user, ttl, persisted)), later)
    requires persisted || !Reissues(later, token)
    ensures var a := Final(start, before);
            var b := After(a, Login(token, user, ttl, persisted));
            var z := Final(b, later);
            Authenticated(z, token) ==
            if EndedIn(b, later, token) then Err(SessionRevoked)
            else if z.now < a.now + ttl then Ok(Session(token, user.id, user.role, a.now + ttl, None))
            else Err(SessionExpired)
  {
    assert Consistent(start);
    ConsistentForever(start, before);
    var a := Final(start, before);
    var b := After(a, Login(token, user, ttl, persisted));
    var s := Session(token, user.id, user.role, a.now + ttl, None);
    assert Standing(b, token, s, persisted);
    StandsUntilEnded(b, later, token, s, persisted);
    hide Final, Feasible, EndedIn, After;
  }

  /** So once the clock has reached login time plus lifetime the token is never accepted, whatever happens. */
  lemma ExpiredForever(start: Auth, before: seq<Step>, token: Id, user: User, ttl: int, persisted: bool,
                       later: seq<Step>)
    requires start.cache == map[] && Feasible(start, before)
    requires Enabled(Final(start, before), Login(token, user, ttl, persisted))
    requires Feasible(After(Final(start, before), Login(token, user, ttl, persisted)), later)
    requires persisted || !Reissues(later, token)
    ensures var a := Final(start, before);
            var z := Final(After(a, Login(token, user, ttl, persisted)), later);
            z.now >= a.now + ttl ==> Authenticated(z, token).Err?
  {
    SessionLasts(start, before, token, user, ttl, persisted, later);
    hide Final, Feasible, After;
  }

  // ---------------------------------------------------------------- the repository and the service

  class SessionTable {
    var rows: map<Id, Session>
    var accounts: map<string, User>

    constructor (accounts: map<string, User>)
      ensures rows == map[] && this.accounts == accounts
    {
      rows, this.accounts := map[], accounts;
    }

    /** Inserts a row; a failing database, or a token already stored, leaves the table alone. */
    method SaveSession(session: Session, fails: bool) returns (saved: bool)
      modifies this`rows
      ensures saved == (!fails && session.token !in old(rows))
      ensures rows == if saved then old(rows)[session.token := session] else old(rows)
    {
      saved := !fails && session.token !in rows;
      if saved {
        rows := rows[session.token := session];
      }
    }

    method FindSession(token: Id) returns (found: Option<Session>)
      ensures found == Find(rows, token)
    {
      found := if token in rows then Some(rows[token]) else None;
    }

    method RevokeSession(token: Id, now: int) returns (revoked: bool)
      modifies this`rows
      ensures revoked == (token in old(rows) && old(rows)[token].revokedAt.None?)
      ensures rows ==
              if revoked then old(rows)[token := old(rows)[token].(revokedAt := Some(now))] else old(rows)
    {
      if token in rows && rows[token].revokedAt.None? {
        rows := rows[token := rows[token].(revokedAt := Some(now))];
        return true;
      }
      return false;
    }
  }

  class AuthService {
    const repository: SessionTable
    const hash: string -> string
    const ttl: int
    var sessions: map<Id, Session>
    var now: int

    ghost function Value(): Auth
      reads this, repository
    {
      Auth(sessions, repository.rows, now)
    }

    /** A new process over an existing table: the cache starts empty, and a lifetime defaults to eight hours. */
    constructor (repository: SessionTable, hash: string -> string, ttl: int, now: int)
      ensures this.repository == repository && this.hash == hash
      ensures Value() == Auth(map[], repository.rows, now)
      ensures this.ttl == (if ttl <= 0 then 8 * 60 * 60 else ttl) && this.ttl > 0
    {
      this.repository, this.hash, this.now := repository, hash, now;
      this.ttl := if ttl <= 0 then 8 * 60 * 60 else ttl;
      sessions := map[];
    }

    /** The session is cached before it is persisted, so a failed login leaves an orphan behind. */
    method Login(username: string, password: string, token: Id, fails: bool) returns (answer: Answer)
      modifies this`sessions, repository`rows
      ensures var known := username in repository.accounts &&
          repository.accounts[username].passwordHash == hash(password);
              var persisted := !fails && token !in old(repository.rows);
              if !known then answer == Err(InvalidCredentials) && Value() == old(Value())
              else
                var user := repository.accounts[username];
                && Value() == After(old(Value()), Step.Login(token, user, ttl, persisted))
                && answer == if persisted then Ok(Session(token, user.id, user.role, now + ttl, None))
                             else Err(PersistFailed)
    {
      if username !in repository.accounts {
        return Err(InvalidCredentials);
      }
      var user := repository.accounts[username];
      if user.passwordHash != hash(password) {
        return Err(InvalidCredentials);
      }
      var session := Session(token, user.id, user.role, now + ttl, None);
      sessions := sessions[token := session];
      var saved := repository.SaveSession(session, fails);
      return if saved then Ok(session) else Err(PersistFailed);
    }

    /** The cache is asked first, the table only for a token that the cache lacks. */
    method Authenticate(token: Id) returns (answer: Answer)
      ensures var found := if token in sessions then Some(sessions[token])
                           else if token in repository.rows then Some(repository.rows[token]) else None;
              && (answer.Ok? <==> found.Some? && found.value.revokedAt.None? && now < found.value.expiresAt)
              && (answer.Ok? ==> answer.value == found.value)
              && (answer == Err(SessionRevoked) <==> found.None? || found.value.revokedAt.Some?)
              && (answer == Err(SessionExpired) <==>
                    found.Some? && found.value.revokedAt.None? && now >= found.value.expiresAt)
      ensures answer == Authenticated(Value(), token)
    {
      var found := if token in sessions then Some(sessions[token]) else None;
      if found == None {
        found := repository.FindSession(token);
      }
      if found == None {
        return Err(SessionRevoked);
      }
      var session := found.value;
      if session.revokedAt.Some? {
        return Err(SessionRevoked);
      }
      if !(now < session.expiresAt) {
        return Err(SessionExpired);
      }
      return Ok(session);
    }

    /** Revokes the session in the table and in the cache, and touches no other; or changes nothing. */
    method Logout(token: Id) returns (error: Option<AuthError>)
      modifies this`sessions, repository`rows
      ensures error.None? <==>
                && token in old(repository.rows) && old(repository.rows)[token].revokedAt.None?
                && var found := if token in old(sessions) then old(sessions)[token] else old(repository.rows)[token];
                   found.revokedAt.None? && now < found.expiresAt
      ensures error.None? ==>
                && repository.rows ==
                     old(repository.rows)[token := old(repository.rows)[token].(revokedAt := Some(now))]
                && token in sessions && sessions[token].revokedAt == Some(now)
                && sessions == old(sessions)[token := sessions[token]]
      ensures error.Some? ==> sessions == old(sessions) && repository.rows == old(repository.rows)
      ensures Value() == After(old(Value()), Step.Logout(token))
      ensures error == match Authenticated(old(Value()), token)
                       case Err(e) => Some(e)
                       case Ok(_) => if LogsOut(old(Value()), token) then None else Some(SessionRevoked)
    {
      var answer := Authenticate(token);
      if answer.Err? {
        return Some(answer.error);
      }
      var session := answer.value;
      var revoked := repository.RevokeSession(token, now);
      if !revoked {
        return Some(SessionRevoked);
      }
      sessions := sessions[token := session.(revokedAt := Some(now))];
      return None;
    }

    /** Any of the allowed roles will do. */
    method RequireRole(token: Id, allowed: seq<Role>) returns (answer: Answer)
      ensures answer.Ok? ==>
                answer.value.role in allowed && answer.value.revokedAt.None? && now < answer.value.expiresAt
      ensures answer == match Authenticated(Value(), token)
                        case Err(e) => Err(e)
                        case Ok(s) => if s.role in allowed then Ok(s) else Err(Forbidden)
    {
      answer := Authenticate(token);
      if answer.Err? {
        return;
      }
      for i := 0 to |allowed|
        invariant answer.value.role !in allowed[..i]
      {
        if answer.value.role == allowed[i] {
          return;
        }
        assert allowed[..i + 1] == allowed[..i] + [allowed[i]];
      }
      assert allowed[..|allowed|] == allowed;
      return Err(Forbidden);
    }
  }
}
