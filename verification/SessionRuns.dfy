/** How long a session lasts over whole runs: every access token in circulation goes back to a login or a
    registration, and is useless a fixed time after it. */
module SessionRuns {
  import opened Wrappers
  import opened Stores
  import opened Programs
  import opened Runs
  import opened Saga
  import opened Sessions
  import Bearer
  import Scopes
  import Slugs
  import Text
  import ApiKeys

  /** A login or registration succeeded. */
  predicate Opens(e: Event) {
    e.next.Finished? && e.next.reply.SessionReply?
  }

  /** The claims are of the session's own tokens or of an access token refreshed from it, at whatever time. */
  ghost predicate DescendsFrom(c: Claims, e: Event)
    requires Opens(e)
  {
    || c == e.next.reply.access || c == e.next.reply.refresh
    || exists t: nat :: Refresh(Some(e.next.reply.refresh), t) == Some(c)
  }

  /** The tokens of a session are made out to its user at its time. */
  ghost predicate WellOpened(e: Event)
    requires Opens(e)
  {
    var s := e.next.reply;
    exists email :: s.access == AccessClaims(s.user, email, e.after.now)
                 && s.refresh == RefreshClaims(s.user, email, e.after.now)
  }

  /** Some reply so far carried these claims. */
  ghost predicate Minted(y: Sys, c: Claims) {
    exists r | r in y.procs :: Carries(y.procs[r], c)
  }

  predicate Carries(pc: Pc, c: Claims) {
    && pc.Finished?
    && ((pc.reply.SessionReply? && (pc.reply.access == c || pc.reply.refresh == c)) || pc.reply == Refreshed(c))
  }

  ghost predicate Traced(log: seq<Event>, c: Claims) {
    exists i | 0 <= i < |log| :: Opens(log[i]) && DescendsFrom(c, log[i])
  }

  /** A caller known by an API key does not have full access. */
  predicate Confined(pc: Pc) {
    pc.Gate? && pc.g.KeyTouch? ==> !pc.g.who.fullAccess
  }

  ghost predicate SessionsTraced(y: Sys) {
    && (forall i | 0 <= i < |y.log| && Opens(y.log[i]) :: WellOpened(y.log[i]))
    && (forall r | r in y.procs :: Confined(y.procs[r]))
    && (forall c | Minted(y, c) :: Traced(y.log, c))
  }

  // ---- Calls ----

  lemma EnterSessionless(env: Env, now: nat, user: string, op: Op, c: Claims)
    ensures var p := Enter(env, now, user, op);
            && Confined(p) && !(p.Finished? && p.reply.SessionReply?)
            && (Carries(p, c) ==> op.RefreshToken? && Refresh(env.verify(op.token), now) == Some(c))
  {
    hide Scopes.Acceptable, Text.TrimSpace, Refresh, Slugs.ValidSlug, ApiKeys.Token, ApiKeys.DisplayPrefix;
  }

  lemma GateSessionless(env: Env, now: nat, p: GatePc, a: Answer, c: Claims)
    requires Confined(Gate(p))
    ensures var q := ResumeGate(env, now, p, a);
            Confined(q) && !(q.Finished? && q.reply.SessionReply?) && !Carries(q, c)
  {
    if p.KeyTouch? {
      EnterSessionless(env, now, p.who.user, p.op, c);
    }
    hide Enter;
  }

  lemma AccountOpens(env: Env, now: nat, p: AccountPc, a: Answer, c: Claims)
    ensures var q := ResumeAccount(env, now, p, a);
            && Confined(q)
            && (q.Finished? && q.reply.SessionReply? ==>
                  exists email :: q.reply.access == AccessClaims(q.reply.user, email, now)
                               && q.reply.refresh == RefreshClaims(q.reply.user, email, now))
            && (Carries(q, c) ==> q.reply.SessionReply?)
  {
  }

  lemma OthersSessionless(env: Env, now: nat, pc: Pc, a: Answer, c: Claims)
    requires pc.Org? || pc.Obj?
    ensures var q := Resume(env, now, pc, a); Confined(q) && !(q.Finished? && q.reply.SessionReply?) && !Carries(q, c)
  {
    hide ViewOf;
  }

  lemma EventSessions(env: Env, y: Sys, rid: ReqId, ch: Choice, c: Claims)
    requires InFlight(y, rid) && Confined(y.procs[rid])
    ensures var e := NextEvent(env, y, rid, ch);
            Confined(e.next) && (Opens(e) ==> WellOpened(e)) && (Carries(e.next, c) ==> Opens(e) && DescendsFrom(c, e))
  {
    var pc := y.procs[rid];
    var (s', a) := Perform(y.s, Issue(env, pc, ch.id), ch.fault);
    match pc
    case Gate(p) => GateSessionless(env, s'.now, p, a, c);
    case Account(p) => AccountOpens(env, s'.now, p, a, c);
    case _ => OthersSessionless(env, s'.now, pc, a, c);
    hide Execute, Issue, ResumeGate, ResumeAccount, ResumeOrg, ResumeObj, AccessClaims, RefreshClaims;
  }

  lemma TraceStays(log: seq<Event>, e: Event, c: Claims)
    requires Traced(log, c)
    ensures Traced(log + [e], c)
  {
    var i :| 0 <= i < |log| && Opens(log[i]) && DescendsFrom(c, log[i]);
    assert (log + [e])[i] == log[i];
    hide DescendsFrom;
  }

  lemma RecordKeepsTraced(y: Sys, e: Event)
    requires SessionsTraced(y) && Follows(y, e) && Confined(e.next) && (Opens(e) ==> WellOpened(e))
    requires forall c | Carries(e.next, c) :: Opens(e) && DescendsFrom(c, e)
    ensures SessionsTraced(Record(y, e))
  {
    var y' := Record(y, e);
    forall c | Minted(y', c) ensures Traced(y'.log, c) {
      if Minted(y, c) {
        TraceStays(y.log, e, c);
      } else {
        var r :| r in y'.procs && Carries(y'.procs[r], c);
        assert forall q | q in y.procs :: !Carries(y.procs[q], c);
        assert y'.log[|y.log|] == e;
      }
    }
    hide WellOpened, DescendsFrom, Traced;
  }

  // ---- Runs in which nobody forges a token ----

  /** The token a request presents, as a refresh token or in its header. */
  predicate Presents(req: Request, token: string) {
    || (req.op.RefreshToken? && req.op.token == token)
    || (req.authorization.Some? && Bearer.Extract(req.authorization.value) == Some(token))
  }

  /** A presented token whose signature checks was handed out in some reply before. */
  ghost predicate Unforged(env: Env, y: Sys, req: Request) {
    forall token, c | Presents(req, token) && env.verify(token) == Some(c) :: Minted(y, c)
  }

  ghost predicate UnforgedRun(env: Env, s0: Stores, acts: seq<Action>) {
    forall k | 0 <= k < |acts| && acts[k].Arrive? :: Unforged(env, Run(env, Boot(s0), acts[..k]), acts[k].req)
  }

  lemma RefreshedIsTraced(y: Sys, rc: Claims, now: nat, c: Claims)
    requires SessionsTraced(y) && Minted(y, rc) && Refresh(Some(rc), now) == Some(c)
    ensures Traced(y.log, c)
  {
    var i :| 0 <= i < |y.log| && Opens(y.log[i]) && DescendsFrom(rc, y.log[i]);
    var e := y.log[i];
    assert WellOpened(e);
    assert rc.kind == "refresh";
    assert rc == e.next.reply.refresh;
    assert DescendsFrom(c, e);
    hide WellOpened, Traced, Minted;
    assert Traced(y.log, c) by {
      assert Opens(y.log[i]) && DescendsFrom(c, y.log[i]);
    }
  }

  lemma ArrivalIsTraced(env: Env, y: Sys, req: Request, c: Claims)
    requires SessionsTraced(y) && Unforged(env, y, req)
    ensures var p := Begin(env, y.s.now, req);
            Confined(p) && (Carries(p, c) ==> Traced(y.log, c))
  {
    var p := Begin(env, y.s.now, req);
    forall user ensures var q := Enter(env, y.s.now, user, req.op);
            && Confined(q)
            && (Carries(q, c) ==> req.op.RefreshToken? && Refresh(env.verify(req.op.token), y.s.now) == Some(c))
    {
      EnterSessionless(env, y.s.now, user, req.op, c);
    }
    if Carries(p, c) {
      assert req.op.RefreshToken? && Refresh(env.verify(req.op.token), y.s.now) == Some(c);
      assert Presents(req, req.op.token);
      RefreshedIsTraced(y, env.verify(req.op.token).value, y.s.now, c);
    }
    hide Enter, MethodOf, SessionsTraced, Traced, Minted;
  }

  lemma NoCallKeepsTraced(env: Env, y: Sys, a: Action)
    requires SessionsTraced(y) && NoCall(y, Next(env, y, a))
    requires a.Arrive? ==> Unforged(env, y, a.req)
    ensures SessionsTraced(Next(env, y, a))
  {
    var y' := Next(env, y, a);
    assert |y'.log| == |y.log|;
    forall r | r in y'.procs ensures Confined(y'.procs[r]) {
      if r !in y.procs && a.Arrive? { ArrivalIsTraced(env, y, a.req, AccessClaims("", "", 0)); }
    }
    forall c | Minted(y', c) ensures Traced(y'.log, c) {
      var r :| r in y'.procs && Carries(y'.procs[r], c);
      if r !in y.procs {
        if a.Arrive? { ArrivalIsTraced(env, y, a.req, c); }
      } else {
        assert Carries(y.procs[r], c);
      }
    }
    hide Begin, NextEvent, Traced, WellOpened, Unforged, NewRequest;
  }

  lemma CallKeepsTraced(env: Env, y: Sys, rid: ReqId, ch: Choice)
    requires SessionsTraced(y) && InFlight(y, rid)
    ensures SessionsTraced(Record(y, NextEvent(env, y, rid, ch)))
  {
    var e := NextEvent(env, y, rid, ch);
    EventSessions(env, y, rid, ch, AccessClaims("", "", 0));
    forall c | Carries(e.next, c) ensures Opens(e) && DescendsFrom(c, e) {
      EventSessions(env, y, rid, ch, c);
    }
    assert Follows(y, e) by { hide Step, Issue; }
    hide NextEvent;
    RecordKeepsTraced(y, e);
    hide SessionsTraced, Carries, DescendsFrom, WellOpened;
  }

  lemma NextKeepsTraced(env: Env, y: Sys, a: Action)
    requires SessionsTraced(y) && (a.Arrive? ==> Unforged(env, y, a.req))
    ensures SessionsTraced(Next(env, y, a))
  {
    hide Next;
    NextIsCallOrNot(env, y, a);
    if NoCall(y, Next(env, y, a)) {
      NoCallKeepsTraced(env, y, a);
    } else {
      CallKeepsTraced(env, y, a.rid, a.choice);
    }
    hide NextEvent, SessionsTraced, NoCall, Unforged;
  }

  lemma {:induction false} RunSessionsTraced(env: Env, s0: Stores, acts: seq<Action>)
    requires UnforgedRun(env, s0, acts)
    ensures SessionsTraced(Run(env, Boot(s0), acts))
  {
    hide Next;
    if acts != [] {
      var k := |acts| - 1;
      assert UnforgedRun(env, s0, acts[..k]) by {
        assert forall j | 0 <= j < k :: acts[..k][..j] == acts[..j];
      }
      RunSessionsTraced(env, s0, acts[..k]);
      NextKeepsTraced(env, Run(env, Boot(s0), acts[..k]), acts[k]);
      hide SessionsTraced;
    }
    hide Unforged, Traced;
  }

  /** The user and the latest expiry of a descendant. */
  lemma DescendantBound(c: Claims, e: Event)
    requires Opens(e) && WellOpened(e) && DescendsFrom(c, e) && c.kind == "access"
    ensures c.user == e.next.reply.user
    ensures c.expiresAt * SECOND <= e.after.now + (REFRESH_LIFETIME + ACCESS_LIFETIME) * SECOND
  {
    if c != e.next.reply.access {
      var t: nat :| Refresh(Some(e.next.reply.refresh), t) == Some(c);
      RefreshedExpiry(e.next.reply.refresh, t);
    }
    assert e.after.now / SECOND * SECOND <= e.after.now;
  }

  /** In any run in which no token is forged, a session token that opens a request descends from a login or
      registration before: it opens it only for the user of that very login, and only until 604800 + 3600 seconds
      after it, however often it was refreshed and however often its user logged in again. */
  lemma SessionBound(env: Env, s0: Stores, acts: seq<Action>, req: Request, token: string, c: Claims)
    requires UnforgedRun(env, s0, acts) && Unforged(env, Run(env, Boot(s0), acts), req)
    requires req.authorization.Some? && Bearer.Extract(req.authorization.value) == Some(token)
    requires Validate(env.verify(token), "access", Run(env, Boot(s0), acts).s.now) == Some(c)
    ensures var y := Run(env, Boot(s0), acts);
            exists i | 0 <= i < |y.log| ::
              && Opens(y.log[i]) && DescendsFrom(c, y.log[i]) && y.log[i].next.reply.user == c.user
              && y.s.now < y.log[i].after.now + (REFRESH_LIFETIME + ACCESS_LIFETIME) * SECOND
  {
    var y := Run(env, Boot(s0), acts);
    RunSessionsTraced(env, s0, acts);
    assert Presents(req, token) && env.verify(token) == Some(c);
    assert Minted(y, c);
    var i :| 0 <= i < |y.log| && Opens(y.log[i]) && DescendsFrom(c, y.log[i]);
    DescendantBound(c, y.log[i]);
    hide Run, DescendsFrom, WellOpened, Minted, UnforgedRun;
  }

  // ---- What a session takes ----

  /** A registration that stored a new user under an unused address, or the right password for a stored user. */
  predicate Earned(env: Env, e: Event) {
    Opens(e) ==>
      && e.pc.Account? && e.fault.NoFault?
      && var was, now := e.before.accounts.users, e.after.accounts.users;
         match e.pc.a
         case UserInsert(email, hash, name) =>
           && email !in was && e.next.reply.user !in e.before.issued
           && now == was[email := UserRow(e.next.reply.user, hash, name)]
         case LoginSelect(email, password) =>
           && email in was && was[email].id == e.next.reply.user && env.checkPassword(was[email].passwordHash, password)
           && now == was
         case _ => false
  }

  lemma EventEarned(env: Env, y: Sys, rid: ReqId, ch: Choice)
    requires InFlight(y, rid) && Confined(y.procs[rid])
    ensures Earned(env, NextEvent(env, y, rid, ch))
  {
    if !y.procs[rid].Account? {
      OnlyAccountsOpen(env, y, rid, ch);
    }
    hide ExecuteTables, ExecuteCluster, ResumeGate, ResumeOrg, ResumeObj, IssueOrg, IssueObj, AccessClaims;
    hide RefreshClaims;
  }

  lemma OnlyAccountsOpen(env: Env, y: Sys, rid: ReqId, ch: Choice)
    requires InFlight(y, rid) && Confined(y.procs[rid]) && !y.procs[rid].Account?
    ensures !Opens(NextEvent(env, y, rid, ch))
  {
    var pc := y.procs[rid];
    var (s', a) := Perform(y.s, Issue(env, pc, ch.id), ch.fault);
    if pc.Gate? {
      GateSessionless(env, s'.now, pc.g, a, AccessClaims("", "", 0));
    } else {
      OthersSessionless(env, s'.now, pc, a, AccessClaims("", "", 0));
    }
    hide Execute, Issue, ResumeGate, ResumeOrg, ResumeObj;
  }

  ghost predicate AllEarned(env: Env, y: Sys) {
    && (forall i | 0 <= i < |y.log| :: Earned(env, y.log[i]) && (Opens(y.log[i]) ==> WellOpened(y.log[i])))
    && (forall r | r in y.procs :: Confined(y.procs[r]))
  }

  lemma NextKeepsEarned(env: Env, y: Sys, a: Action)
    requires AllEarned(env, y)
    ensures AllEarned(env, Next(env, y, a))
  {
    NextIsCallOrNot(env, y, a);
    if NoCall(y, Next(env, y, a)) {
      assert forall r | r in Next(env, y, a).procs && r !in y.procs :: NewRequest(Next(env, y, a).procs[r]);
    } else {
      EventEarned(env, y, a.rid, a.choice);
      EventSessions(env, y, a.rid, a.choice, AccessClaims("", "", 0));
    }
    hide Next, NextEvent, Earned, WellOpened;
  }

  /** In every run, forged tokens or not, a session is opened only for a newly stored user or for the right
      password of a stored one. */
  lemma {:induction false} SessionsAreEarned(env: Env, s0: Stores, acts: seq<Action>)
    ensures AllEarned(env, Run(env, Boot(s0), acts))
  {
    hide Next;
    if acts != [] {
      SessionsAreEarned(env, s0, acts[..|acts| - 1]);
      NextKeepsEarned(env, Run(env, Boot(s0), acts[..|acts| - 1]), acts[|acts| - 1]);
    }
    hide Earned, WellOpened;
  }

  /** In every run, all access tokens of a login or registration, its own and those refreshed from it at whatever
      time, stand for its user, and none is accepted 604800 + 3600 seconds after it or later. */
  lemma TokensEndWithTheirLogin(env: Env, s0: Stores, acts: seq<Action>, i: nat, c: Claims, now: nat)
    requires var log := Run(env, Boot(s0), acts).log; i < |log| && Opens(log[i]) && DescendsFrom(c, log[i])
    requires c.kind == "access"
    ensures var e := Run(env, Boot(s0), acts).log[i];
            && c.user == e.next.reply.user
            && (now >= e.after.now + (REFRESH_LIFETIME + ACCESS_LIFETIME) * SECOND ==>
                  Validate(Some(c), "access", now).None?)
  {
    SessionsAreEarned(env, s0, acts);
    DescendantBound(c, Run(env, Boot(s0), acts).log[i]);
    hide Run, DescendsFrom, WellOpened, Earned;
  }
}
