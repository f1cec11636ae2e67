/** The interceptors in front of every handler: who is calling, and may they? The unary and the stream interceptor
    take the same decision, and with it a request runs exactly its program. */
module Interceptors {
  import opened Wrappers
  import opened Stores
  import opened Programs
  import opened Sequential
  import opened Backends
  import opened Sessions
  import ApiKeys
  import Bearer
  import Scopes
  import Lifecycle

  datatype Decision = Turned(code: Code) | Through(user: string)

  /** What is left after some calls: the stores, what was found out, and the outcomes still to come. */
  datatype Progress<T> = Progress(s: Stores, value: T, choices: seq<Choice>)

  /** The look-up of a key, which also notes the time of its use, whatever becomes of that note. */
  function Lookup(env: Env, s: Stores, token: string, choices: seq<Choice>): Progress<Option<Scopes.Principal>> {
    if token == "" then Progress(s, None, choices)
    else
      var (s1, a) := Perform(s, OnAccounts(LookupKey(env.hash(token))), Head(choices).fault);
      if !a.KeyIs? then Progress(s1, None, Rest(choices))
      else
        var s2 := Perform(s1, OnAccounts(TouchKey(a.key.id)), Head(Rest(choices)).fault).0;
        Progress(s2, Some(Scopes.Principal(a.key.user, false, a.key.scopes)), Rest(Rest(choices)))
  }

  function Identify(env: Env, s: Stores, token: string, choices: seq<Choice>): Progress<Option<Scopes.Principal>> {
    if Bearer.LooksLikeJWT(token) then
      var c := Validate(env.verify(token), "access", s.now);
      Progress(s, if c.Some? then Some(Scopes.Principal(c.value.user, true, [])) else None, choices)
    else if !(ApiKeys.KEY_MARK <= token) then Progress(s, None, choices)
    else Lookup(env, s, token, choices)
  }

  function Verdict(who: Option<Scopes.Principal>, op: Op): Decision {
    if who.None? then Turned(Unauthenticated)
    else if !Scopes.Allowed(MethodOf(op), who.value) then Turned(PermissionDenied)
    else Through(who.value.user)
  }

  function Decide(env: Env, s: Stores, req: Request, choices: seq<Choice>): Progress<Decision> {
    if Scopes.Public(MethodOf(req.op)) then Progress(s, Through(""), choices)
    else
      var token := if req.authorization.None? then None else Bearer.Extract(req.authorization.value);
      if token.None? then Progress(s, Turned(Unauthenticated), choices)
      else
        var p := Identify(env, s, token.value, choices);
        Progress(p.s, Verdict(p.value, req.op), p.choices)
  }

  /** The program of a request, from its arrival on. */
  function Start(env: Env, now: nat, req: Request): (pc: Pc)
    ensures !pc.Crashed?
  {
    Lifecycle.BeginFirst(env, now, req);
    Begin(env, now, req)
  }

  /** Where a request goes on after the decision. */
  function Onward(env: Env, now: nat, d: Decision, op: Op): (pc: Pc)
    ensures !pc.Crashed?
  {
    if d.Turned? then Reject(d.code)
    else
      Lifecycle.EnterFirst(env, now, d.user, op);
      Enter(env, now, d.user, op)
  }

  /** The look-up, seen as the first calls of the request's program. */
  lemma LookupAlone(env: Env, s: Stores, token: string, op: Op, choices: seq<Choice>)
    requires token != ""
    ensures var p := Lookup(env, s, token, choices);
            RunAlone(env, s, Gate(KeyLookup(op, env.hash(token))), choices) ==
            RunAlone(env, p.s, Onward(env, p.s.now, Verdict(p.value, op), op), p.choices)
  {
    var (s1, a) := Perform(s, OnAccounts(LookupKey(env.hash(token))), Head(choices).fault);
    AloneStep(env, s, Gate(KeyLookup(op, env.hash(token))), choices);
    if a.KeyIs? {
      AloneStep(env, s1, Gate(KeyTouch(op, a.key.id, Scopes.Principal(a.key.user, false, a.key.scopes))),
          Rest(choices));
    }
    hide Perform, Enter, MethodOf, RunAlone, Scopes.Allowed, ResumeOrg, ResumeObj, ResumeAccount;
  }

  /** A request runs as the decision says: turned away with that error, or through to its handler as that user. */
  lemma DecisionIsGate(env: Env, s: Stores, req: Request, choices: seq<Choice>)
    ensures var p := Decide(env, s, req, choices);
            RunAlone(env, s, Start(env, s.now, req), choices) ==
            RunAlone(env, p.s, Onward(env, p.s.now, p.value, req.op), p.choices)
  {
    if !Scopes.Public(MethodOf(req.op)) && req.authorization.Some? {
      var token := Bearer.Extract(req.authorization.value);
      if token.Some? && !Bearer.LooksLikeJWT(token.value) && ApiKeys.KEY_MARK <= token.value {
        LookupAlone(env, s, token.value, req.op, choices);
      }
    }
    hide Enter, MethodOf, RunAlone, Bearer.Extract, Bearer.LooksLikeJWT, Lookup, Scopes.Allowed, Validate;
  }

  // ---- The interceptors ----

  method EnforceAccess(m: Scopes.Method, p: Scopes.Principal) returns (ok: bool)
    ensures ok == Scopes.Allowed(m, p)
  {
    if Scopes.SessionOnly(m) {
      return p.fullAccess;
    }
    var required := Scopes.RequiredScope(m);
    if required.Some? {
      if p.fullAccess {
        return true;
      }
      ok := Scopes.HasScope(p.scopes, required.value);
      return;
    }
    return p.fullAccess;
  }

  class Gatekeeper {
    const db: Backend

    constructor (db: Backend)
      ensures this.db == db
    {
      this.db := db;
    }

    method LookupAPIKey(token: string, ghost op: Op) returns (who: Option<Scopes.Principal>)
      modifies db
      ensures Progress(db.s, who, db.choices) == Lookup(db.env, old(db.s), token, old(db.choices))
    {
      hide RunAlone, Resume, Execute;
      if token == "" {
        return None;
      }
      var hash := db.env.hash(token);
      var a := db.Exec(Gate(KeyLookup(op, hash)), OnAccounts(LookupKey(hash)));
      if !a.KeyIs? {
        return None;
      }
      who := Some(Scopes.Principal(a.key.user, false, a.key.scopes));
      var _ := db.Exec(Gate(KeyTouch(op, a.key.id, who.value)), OnAccounts(TouchKey(a.key.id)));
    }

    method Authenticate(token: string, ghost op: Op) returns (who: Option<Scopes.Principal>)
      modifies db
      ensures Progress(db.s, who, db.choices) == Identify(db.env, old(db.s), token, old(db.choices))
    {
      hide Lookup;
      if Bearer.LooksLikeJWT(token) {
        var claims := Validate(db.env.verify(token), "access", db.s.now);
        if claims.None? {
          return None;
        }
        return Some(Scopes.Principal(claims.value.user, true, []));
      }
      if !(ApiKeys.KEY_MARK <= token) {
        return None;
      }
      who := LookupAPIKey(token, op);
    }

    method UnaryServerInterceptor(req: Request) returns (d: Decision)
      modifies db
      ensures Progress(db.s, d, db.choices) == Decide(db.env, old(db.s), req, old(db.choices))
    {
      hide Identify, Scopes.Allowed, MethodOf, Scopes.Public;
      if Scopes.Public(MethodOf(req.op)) {
        return Through("");
      }
      if req.authorization.None? {
        return Turned(Unauthenticated);
      }
      var token := Bearer.ExtractBearerToken(req.authorization.value);
      if token.None? {
        return Turned(Unauthenticated);
      }
      var p := Authenticate(token.value, req.op);
      if p.None? {
        return Turned(Unauthenticated);
      }
      var ok := EnforceAccess(MethodOf(req.op), p.value);
      if !ok {
        return Turned(PermissionDenied);
      }
      return Through(p.value.user);
    }

    /** The stream interceptor decides as the unary one does. */
    method StreamServerInterceptor(req: Request) returns (d: Decision)
      modifies db
      ensures Progress(db.s, d, db.choices) == Decide(db.env, old(db.s), req, old(db.choices))
    {
      hide Identify, Scopes.Allowed, MethodOf, Scopes.Public;
      if Scopes.Public(MethodOf(req.op)) {
        return Through("");
      }
      if req.authorization.None? {
        return Turned(Unauthenticated);
      }
      var token := Bearer.ExtractBearerToken(req.authorization.value);
      if token.None? {
        return Turned(Unauthenticated);
      }
      var p := Authenticate(token.value, req.op);
      if p.None? {
        return Turned(Unauthenticated);
      }
      var ok := EnforceAccess(MethodOf(req.op), p.value);
      if ok {
        return Through(p.value.user);
      }
      return Turned(PermissionDenied);
    }
  }
}
