/** The users over interleaved runs: a stored user keeps address, id and password hash for good, the name changes only
    by their own request, and whoever registered can log in ever after. */
module UserRuns {
  import opened Stores
  import opened Programs
  import opened Runs
  import opened Saga
  import opened SignIns
  import KeyRuns

  predicate InsertsUser(pc: Pc, email: string) {
    pc.Account? && pc.a.UserInsert? && pc.a.email == email
  }

  predicate Renames(pc: Pc, user: string, name: string) {
    pc == Account(ProfileWrite(user, name))
  }

  /** What a call at this point may do to the row under an address. */
  predicate KeepsUser(pc: Pc, email: string, was: map<string, UserRow>, now: map<string, UserRow>) {
    && (email in was ==>
          && email in now && now[email].id == was[email].id && now[email].passwordHash == was[email].passwordHash
          && (now[email].name != was[email].name ==> Renames(pc, was[email].id, now[email].name)))
    && (email !in was && email in now ==>
          && InsertsUser(pc, email)
          && now[email].passwordHash == pc.a.passwordHash && now[email].name == pc.a.name)
  }

  ghost predicate KeepsUsers(e: Event) {
    forall email :: KeepsUser(e.pc, email, e.before.accounts.users, e.after.accounts.users)
  }

  lemma EventKeepsUsers(env: Env, y: Sys, rid: ReqId, c: Choice)
    requires InFlight(y, rid)
    ensures KeepsUsers(NextEvent(env, y, rid, c))
  {
    hide ExecuteTables, ExecuteCluster, Resume, IssueFirst, Respec, WakePatch;
  }

  /** In every run each call leaves the stored users as they are, but for a name changed by its own user's request, and
      adds one only by a registration under that address. */
  lemma {:induction false} UsersAreKept(env: Env, s0: Stores, acts: seq<Action>)
    ensures forall e | e in Run(env, Boot(s0), acts).log :: KeepsUsers(e)
  {
    hide Next;
    if acts != [] {
      var k := |acts| - 1;
      var y := Run(env, Boot(s0), acts[..k]);
      UsersAreKept(env, s0, acts[..k]);
      NextIsCallOrNot(env, y, acts[k]);
      if !NoCall(y, Next(env, y, acts[k])) {
        EventKeepsUsers(env, y, acts[k].rid, acts[k].choice);
      }
    }
    hide KeepsUsers, NextEvent, NewRequest;
  }

  /** From the event that stored it on, a row keeps its id and password hash. */
  lemma {:induction false} UserPersists(env: Env, y: Sys, email: string, i: nat, k: nat)
    requires KeyRuns.Chained(env, y) && i < k < |y.log|
    requires email in y.log[i].after.accounts.users && forall e | e in y.log :: KeepsUsers(e)
    ensures var was, now := y.log[i].after.accounts.users, y.log[k].before.accounts.users;
            email in now && now[email].id == was[email].id && now[email].passwordHash == was[email].passwordHash
    decreases k
  {
    if k > i + 1 {
      UserPersists(env, y, email, i, k - 1);
      var e := y.log[k - 1];
      assert KeepsUsers(e);
      assert KeepsUser(e.pc, email, e.before.accounts.users, e.after.accounts.users);
    }
    hide KeyRuns.KeyFacts;
  }

  /** A registration that opened a session. */
  predicate Registers(e: Event) {
    e.pc.Account? && e.pc.a.UserInsert? && e.next.Finished? && e.next.reply.SessionReply?
  }

  lemma RegistrationStores(env: Env, y: Sys, rid: ReqId, c: Choice)
    requires InFlight(y, rid) && Registers(NextEvent(env, y, rid, c))
    ensures Stored(NextEvent(env, y, rid, c))
  {
    hide ExecuteTables, ExecuteCluster, ResumeGate, ResumeOrg, ResumeObj, IssueOrg, IssueObj;
  }

  predicate Stored(e: Event)
    requires Registers(e)
  {
    var users := e.after.accounts.users;
    && e.pc.a.email in users && users[e.pc.a.email].id == e.next.reply.user
    && users[e.pc.a.email].passwordHash == e.pc.a.passwordHash
  }

  lemma LoginAnswers(env: Env, y: Sys, rid: ReqId, c: Choice)
    requires InFlight(y, rid) && LogsIn(NextEvent(env, y, rid, c))
    ensures Answered(env, NextEvent(env, y, rid, c))
  {
    var e := NextEvent(env, y, rid, c);
    if e.pc.a.email in y.s.accounts.users {
      NewSessionIs(y.s.accounts.users[e.pc.a.email].id, e.pc.a.email, e.before.now);
    }
    hide ExecuteTables, ExecuteCluster, ResumeGate, ResumeOrg, ResumeObj, IssueOrg, IssueObj, SessionFor, NewSession;
  }

  /** The look-up of a login that did not fail. */
  predicate LogsIn(e: Event) {
    e.pc.Account? && e.pc.a.LoginSelect? && e.fault.NoFault?
  }

  predicate Answered(env: Env, e: Event)
    requires LogsIn(e)
  {
    var users, email := e.before.accounts.users, e.pc.a.email;
    e.next == if email in users && env.checkPassword(users[email].passwordHash, e.pc.a.password)
              then NewSession(users[email].id, email, e.before.now) else Reject(Unauthenticated)
  }

  ghost predicate AllAnswered(env: Env, log: seq<Event>) {
    forall e | e in log :: (Registers(e) ==> Stored(e)) && (LogsIn(e) ==> Answered(env, e))
  }

  lemma {:induction false} LoginsAreAnswered(env: Env, s0: Stores, acts: seq<Action>)
    ensures AllAnswered(env, Run(env, Boot(s0), acts).log)
  {
    hide Next;
    if acts != [] {
      var k := |acts| - 1;
      var y := Run(env, Boot(s0), acts[..k]);
      LoginsAreAnswered(env, s0, acts[..k]);
      NextIsCallOrNot(env, y, acts[k]);
      if !NoCall(y, Next(env, y, acts[k])) {
        var e := NextEvent(env, y, acts[k].rid, acts[k].choice);
        if Registers(e) { RegistrationStores(env, y, acts[k].rid, acts[k].choice); }
        if LogsIn(e) { LoginAnswers(env, y, acts[k].rid, acts[k].choice); }
      }
    }
    hide Registers, LogsIn, Stored, Answered, NextEvent, NewRequest;
  }

  /** Over every run, whatever else happens in between: after a registration that opened a session, a login under its
      address opens one for the same user exactly if the password passes for the hash that was stored. */
  lemma RegisteredCanAlwaysLogIn(env: Env, s0: Stores, acts: seq<Action>, i: nat, k: nat)
    requires var log := Run(env, Boot(s0), acts).log;
             i < k < |log| && Registers(log[i]) && LogsIn(log[k]) && log[k].pc.a.email == log[i].pc.a.email
    ensures var log := Run(env, Boot(s0), acts).log;
            log[k].next ==
            if env.checkPassword(log[i].pc.a.passwordHash, log[k].pc.a.password)
            then NewSession(log[i].next.reply.user, log[i].pc.a.email, log[k].before.now) else Reject(Unauthenticated)
  {
    var y := Run(env, Boot(s0), acts);
    UsersAreKept(env, s0, acts);
    LoginsAreAnswered(env, s0, acts);
    KeyRuns.RunIsChained(env, s0, acts);
    assert y.log[i] in y.log && y.log[k] in y.log;
    assert Stored(y.log[i]) && Answered(env, y.log[k]);
    hide Run, KeyRuns.Chained, KeepsUsers, AllAnswered, NewSession;
    UserPersists(env, y, y.log[i].pc.a.email, i, k);
  }
}
