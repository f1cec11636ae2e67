/** Registering, logging in, refreshing a session and looking at one's own profile, run without faults: what each
    request does and replies, in terms of the request and the stores. */
module SignIns {
  import opened Wrappers
  import opened Text
  import opened Stores
  import opened Programs
  import opened Sequential
  import opened Sessions

  /** The claims of an access token: valid for an hour from the full second. */
  function HourFrom(user: string, email: string, now: nat): Claims {
    Claims(user, email, "access", now / 1_000_000_000, now / 1_000_000_000 + 3600)
  }

  /** The claims of a refresh token: valid for seven days from the full second. */
  function WeekFrom(user: string, email: string, now: nat): Claims {
    Claims(user, email, "refresh", now / 1_000_000_000, now / 1_000_000_000 + 604800)
  }

  function NewSession(user: string, email: string, now: nat): Pc {
    Finished(SessionReply(user, HourFrom(user, email, now), WeekFrom(user, email, now)))
  }

  lemma NewSessionIs(user: string, email: string, now: nat)
    ensures SessionFor(user, email, now) == NewSession(user, email, now)
  {
  }

  lemma InsertUserAlone(env: Env, s: Stores, email: string, hash: string, name: string, choices: seq<Choice>)
    requires FaultAt(choices, 0).NoFault?
    ensures var id := Head(choices).id;
            RunAlone(env, s, Account(UserInsert(email, hash, name)), choices) ==
            if id in s.issued then (s, Reject(Internal))
            else if email in s.accounts.users then (s, Reject(AlreadyExists))
            else (s.(accounts := s.accounts.(users := s.accounts.users[email := UserRow(id, hash, name)]),
                     issued := s.issued + {id}),
                  SessionFor(id, email, s.now))
  {
    AloneStep(env, s, Account(UserInsert(email, hash, name)), choices);
    hide ResumeGate, ResumeOrg, ResumeObj, IssueObj, IssueOrg, ExecuteTables, ExecuteCluster, AccessClaims;
    hide RefreshClaims;
  }

  /** A registration: rejected exactly if the address, the password or the name is missing, failing exactly if the
      password cannot be hashed or the identifier is not new, and told of the address exactly if it is taken.
      Otherwise the user is stored under the trimmed address, with the hash of the password and the trimmed name, and
      gets a session. */
  lemma RegistrationIsExact(env: Env, s: Stores, email: string, password: string, name: string, choices: seq<Choice>)
    requires FaultFree(choices)
    ensures var id := Head(choices).id;
            var hash := env.hashPassword(password);
            Handle(env, s, "", Register(email, password, name), choices) ==
            if TrimSpace(email) == "" || password == "" || TrimSpace(name) == "" then (s, Reject(InvalidArgument))
            else if hash.None? || id in s.issued then (s, Reject(Internal))
            else if TrimSpace(email) in s.accounts.users then (s, Reject(AlreadyExists))
            else
              var row := UserRow(id, hash.value, TrimSpace(name));
              (s.(accounts := s.accounts.(users := s.accounts.users[TrimSpace(email) := row]),
                  issued := s.issued + {id}),
               NewSession(id, TrimSpace(email), s.now))
  {
    NoFaults(choices);
    assert FaultAt(choices, 0) == NoFault;
    var hash := env.hashPassword(password);
    if hash.Some? {
      InsertUserAlone(env, s, TrimSpace(email), hash.value, TrimSpace(name), choices);
    }
    NewSessionIs(Head(choices).id, TrimSpace(email), s.now);
    HandleRuns(env, s, "", Register(email, password, name), choices);
    hide RunAlone, Handle, TrimSpace, SessionFor, NewSession;
  }

  lemma LoginAlone(env: Env, s: Stores, email: string, password: string, choices: seq<Choice>)
    requires FaultAt(choices, 0).NoFault?
    ensures var users := s.accounts.users;
            RunAlone(env, s, Account(LoginSelect(email, password)), choices) ==
            (s, if email in users && env.checkPassword(users[email].passwordHash, password)
                then SessionFor(users[email].id, email, s.now) else Reject(Unauthenticated))
  {
    AloneStep(env, s, Account(LoginSelect(email, password)), choices);
    hide ResumeGate, ResumeOrg, ResumeObj, IssueObj, IssueOrg, ExecuteTables, ExecuteCluster, AccessClaims;
    hide RefreshClaims;
  }

  /** A login changes nothing. It opens a session for the user stored under exactly the address that was sent if and
      only if the password passes for their hash; it does not say which of the two was wrong. */
  lemma LoginIsExact(env: Env, s: Stores, email: string, password: string, choices: seq<Choice>)
    requires FaultFree(choices)
    ensures var users := s.accounts.users;
            Handle(env, s, "", Login(email, password), choices) ==
            (s, if email == "" || password == "" then Reject(InvalidArgument)
                else if email in users && env.checkPassword(users[email].passwordHash, password)
                then NewSession(users[email].id, email, s.now) else Reject(Unauthenticated))
  {
    NoFaults(choices);
    assert FaultAt(choices, 0) == NoFault;
    LoginAlone(env, s, email, password, choices);
    if email in s.accounts.users {
      NewSessionIs(s.accounts.users[email].id, email, s.now);
    }
    HandleRuns(env, s, "", Login(email, password), choices);
    hide RunAlone, Handle, SessionFor, NewSession;
  }

  /** Whoever registered can log in with the same address, trimmed, and the same password, at any later time. */
  lemma RegisteredCanLogIn(env: Env, s: Stores, email: string, password: string, name: string, first: seq<Choice>,
                           later: nat, second: seq<Choice>)
    requires FaultFree(first) && FaultFree(second)
    requires env.hashPassword(password).Some? && env.checkPassword(env.hashPassword(password).value, password)
    requires Handle(env, s, "", Register(email, password, name), first).1.reply.SessionReply?
    ensures var (s', end) := Handle(env, s, "", Register(email, password, name), first);
            var t := s'.(now := later);
            Handle(env, t, "", Login(TrimSpace(email), password), second) ==
            (t, NewSession(end.reply.user, TrimSpace(email), later))
  {
    RegistrationIsExact(env, s, email, password, name, first);
    var s' := Handle(env, s, "", Register(email, password, name), first).0;
    LoginIsExact(env, s'.(now := later), TrimSpace(email), password, second);
    hide Handle, TrimSpace;
  }

  /** A refresh makes no call. It yields a fresh access token, for the same user, if and only if the token is a refresh
      token that has not expired. */
  lemma RefreshIsExact(env: Env, s: Stores, token: string, choices: seq<Choice>)
    ensures var claims := env.verify(token);
            Handle(env, s, "", RefreshToken(token), choices) ==
            (s, if token == "" then Reject(InvalidArgument)
                else if claims.Some? && claims.value.kind == "refresh"
                     && s.now < claims.value.expiresAt * 1_000_000_000
                then Finished(Refreshed(HourFrom(claims.value.user, claims.value.email, s.now)))
                else Reject(Unauthenticated))
  {
    HandleRuns(env, s, "", RefreshToken(token), choices);
    hide Handle;
  }

  /** The refresh token of a new session yields access tokens for its user until seven days are over. */
  lemma SessionsRefreshForAWeek(env: Env, s: Stores, email: string, password: string, first: seq<Choice>, token: string,
                                later: nat, second: seq<Choice>)
    requires FaultFree(first) && Handle(env, s, "", Login(email, password), first).1.reply.SessionReply?
    requires token != "" && env.verify(token) ==
                            Some(Handle(env, s, "", Login(email, password), first).1.reply.refresh)
    ensures var id := Handle(env, s, "", Login(email, password), first).1.reply.user;
            var t := s.(now := later);
            Handle(env, t, "", RefreshToken(token), second) ==
            (t, if later < s.now - s.now % 1_000_000_000 + 604800 * 1_000_000_000
                then Finished(Refreshed(HourFrom(id, email, later))) else Reject(Unauthenticated))
  {
    LoginIsExact(env, s, email, password, first);
    RefreshIsExact(env, s.(now := later), token, second);
    assert s.now / 1_000_000_000 * 1_000_000_000 == s.now - s.now % 1_000_000_000;
    hide Handle;
  }

  lemma ProfileReadAlone(env: Env, s: Stores, user: string, choices: seq<Choice>)
    requires FaultAt(choices, 0).NoFault?
    ensures var users := s.accounts.users;
            RunAlone(env, s, Account(ProfileRead(user)), choices) ==
            (s, if HasUser(s.accounts, user)
                then Finished(ProfileReply(map e | e in users && users[e].id == user :: users[e]))
                else Reject(NotFound))
  {
    AloneStep(env, s, Account(ProfileRead(user)), choices);
    hide ResumeGate, ResumeOrg, ResumeObj, IssueObj, IssueOrg, ExecuteTables, ExecuteCluster, HasUser;
  }

  /** The caller is shown exactly their own row, or told there is none; nothing changes. */
  lemma ProfileIsOwn(env: Env, s: Stores, user: string, choices: seq<Choice>)
    requires FaultFree(choices)
    ensures var (s', end) := Handle(env, s, user, GetMe, choices);
            && s' == s
            && if user == "" then end == Reject(Unauthenticated)
               else if !exists e :: e in s.accounts.users && s.accounts.users[e].id == user
               then end == Reject(NotFound)
               else && end.reply.ProfileReply?
                    && (forall e :: e in end.reply.rows <==>
                          e in s.accounts.users && s.accounts.users[e].id == user)
                    && (forall e | e in end.reply.rows :: end.reply.rows[e] == s.accounts.users[e])
  {
    NoFaults(choices);
    assert FaultAt(choices, 0) == NoFault;
    if user != "" {
      ProfileReadAlone(env, s, user, choices);
    }
    HandleRuns(env, s, user, GetMe, choices);
    hide RunAlone, Handle;
  }

  /** The health check makes no call and says the service is well. */
  lemma HealthIsConstant(env: Env, s: Stores, choices: seq<Choice>)
    ensures Handle(env, s, "", HealthCheck, choices) == (s, Finished(Healthy))
  {
    HandleRuns(env, s, "", HealthCheck, choices);
    hide Handle;
  }
}
