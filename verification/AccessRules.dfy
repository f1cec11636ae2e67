/** Who may call what, in terms of the operations themselves: what a key's scopes open, what a session opens, and that
    an operation which needs only a read scope never changes anything. */
module AccessRules {
  import opened Wrappers
  import opened Text
  import opened Stores
  import opened Programs
  import opened Sequential
  import opened Interceptors
  import ApiKeys
  import B = Builders
  import Bearer
  import K = KeyRequests
  import Scopes

  predicate OpenToAll(op: Op) {
    op.Register? || op.Login? || op.RefreshToken? || op.HealthCheck?
  }

  predicate OnOwnAccount(op: Op) {
    op.GetMe? || op.UpdateProfile? || op.CreateUserApiKey? || op.ListUserApiKeys? || op.RevokeUserApiKey?
  }

  function KindName(kind: Kind): string {
    if kind == BuilderKind then "builders" else "templates"
  }

  /** What the operation works on. */
  function ResourceOf(op: Op): string {
    match op
    case OnObjects(List(kind, _)) => KindName(kind)
    case OnObjects(Get(kind, _, _)) => KindName(kind)
    case OnObjects(Create(_, _, arg)) =>
      if arg.ForTemplate? || arg == NoSpec(TemplateKind) then "templates" else "builders"
    case OnObjects(Update(_, _, arg)) =>
      if arg.ForTemplate? || arg == NoSpec(TemplateKind) then "templates" else "builders"
    case OnObjects(Delete(kind, _, _)) => KindName(kind)
    case OnObjects(Wake(_, _)) => "builders"
    case _ => "organizations"
  }

  predicate OnlyReads(op: Op) {
    || op.ListOrganizations? || op.GetOrganization? || op.ListOrganizationMembers?
    || (op.OnObjects? && (op.act.List? || op.act.Get?))
  }

  /** The scope a key needs for the operation. */
  function NeededScope(op: Op): string {
    ResourceOf(op) + (if OnlyReads(op) then ":read" else ":write")
  }

  lemma ScopeNames(op: Op)
    ensures NeededScope(op) ==
            if ResourceOf(op) == "organizations"
            then (if OnlyReads(op) then "organizations:read" else "organizations:write")
            else if ResourceOf(op) == "builders" then (if OnlyReads(op) then "builders:read" else "builders:write")
            else (if OnlyReads(op) then "templates:read" else "templates:write")
  {
    assert "organizations" + ":read" == "organizations:read";
    assert "organizations" + ":write" == "organizations:write";
    assert "builders" + ":read" == "builders:read" && "builders" + ":write" == "builders:write";
    assert "templates" + ":read" == "templates:read" && "templates" + ":write" == "templates:write";
  }

  lemma OnObjectsNeeds(act: Act)
    ensures Scopes.RequiredScope(MethodOf(OnObjects(act))) == Some(NeededScope(OnObjects(act)))
    ensures !Scopes.Public(MethodOf(OnObjects(act))) && !Scopes.SessionOnly(MethodOf(OnObjects(act)))
  {
    ScopeNames(OnObjects(act));
    hide NeededScope;
  }

  lemma OthersNeed(op: Op)
    requires !op.OnObjects?
    ensures Scopes.Public(MethodOf(op)) <==> OpenToAll(op)
    ensures Scopes.SessionOnly(MethodOf(op)) <==> OnOwnAccount(op)
    ensures !OpenToAll(op) && !OnOwnAccount(op) ==> Scopes.RequiredScope(MethodOf(op)) == Some(NeededScope(op))
  {
    ScopeNames(op);
    hide NeededScope;
  }

  lemma AllowedIff(op: Op, p: Scopes.Principal)
    requires !OpenToAll(op)
    ensures !Scopes.Public(MethodOf(op))
    ensures Scopes.Allowed(MethodOf(op), p) <==>
            p.fullAccess || (!OnOwnAccount(op) && NeededScope(op) in p.scopes)
  {
    if op.OnObjects? {
      OnObjectsNeeds(op.act);
    } else {
      OthersNeed(op);
    }
    hide MethodOf, Scopes.Public, Scopes.SessionOnly, Scopes.RequiredScope, NeededScope;
  }

  /** The request with its token in the header. */
  function With(op: Op, token: string): Request {
    Request(op, Some(["Bearer " + token]))
  }

  lemma HeaderCarries(token: string)
    requires token != "" && Trimmed(token)
    ensures Bearer.Extract(["Bearer " + token]) == Some(token)
  {
    Bearer.CredentialSurvives(token);
    assert ["Bearer " + token][1..] == [];
    hide Bearer.Credential, Trimmed;
  }

  /** A key opens exactly the operations whose scope it has: the name of what the operation works on, and whether it
      only reads. It opens nothing on its user's account. A key that is not stored, or has expired, opens nothing. */
  lemma KeyOpens(env: Env, s: Stores, token: string, op: Op, choices: seq<Choice>)
    requires !OpenToAll(op) && FaultAt(choices, 0).NoFault?
    requires "bh_" <= token && Trimmed(token) && !Bearer.LooksLikeJWT(token)
    ensures var keys, h := s.accounts.keys, env.hash(token);
            Decide(env, s, With(op, token), choices).value ==
            if h !in keys || (keys[h].expiresAt.Some? && keys[h].expiresAt.value <= s.now) then Turned(Unauthenticated)
            else if !OnOwnAccount(op) && NeededScope(op) in keys[h].scopes then Through(keys[h].user)
            else Turned(PermissionDenied)
  {
    HeaderCarries(token);
    var h := env.hash(token);
    if h in s.accounts.keys {
      AllowedIff(op, Scopes.Principal(s.accounts.keys[h].user, false, s.accounts.keys[h].scopes));
    } else {
      AllowedIff(op, Scopes.Principal("", false, []));
    }
    hide MethodOf, Scopes.Public, Scopes.Allowed, Bearer.Extract, Bearer.LooksLikeJWT, NeededScope, Trimmed;
    hide ExecuteTables, ExecuteCluster;
  }

  /** The keys with the time of use noted in the row of this id. */
  function Noted(keys: map<string, KeyRow>, id: string, now: nat): map<string, KeyRow> {
    map h | h in keys :: if keys[h].id == id then keys[h].(lastUsedAt := Some(now)) else keys[h]
  }

  /** Whether or not it opens the operation, a key that is found has its use noted, and nothing else changes; one that
      is not found leaves everything as it was. */
  lemma KeyUseIsNoted(env: Env, s: Stores, token: string, op: Op, choices: seq<Choice>)
    requires !OpenToAll(op) && FaultAt(choices, 0).NoFault? && FaultAt(choices, 1).NoFault?
    requires "bh_" <= token && Trimmed(token) && !Bearer.LooksLikeJWT(token)
    ensures var keys, h := s.accounts.keys, env.hash(token);
            Decide(env, s, With(op, token), choices).s ==
            if h !in keys || (keys[h].expiresAt.Some? && keys[h].expiresAt.value <= s.now) then s
            else s.(accounts := s.accounts.(keys := Noted(keys, keys[h].id, s.now)))
  {
    HeaderCarries(token);
    AllowedIff(op, Scopes.Principal("", false, []));
    assert FaultAt(choices, 1) == Head(Rest(choices)).fault;
    hide MethodOf, Scopes.Public, Scopes.Allowed, Bearer.Extract, Bearer.LooksLikeJWT, NeededScope, Trimmed;
    hide ExecuteTables, ExecuteCluster;
  }

  /** A key just created opens, until the end its request asked for, exactly the operations whose scopes the request
      listed as they are called. */
  lemma CreatedKeyOpens(env: Env, s: Stores, user: string, name: string, scopes: seq<string>, days: B.int32,
                        secret: seq<ApiKeys.byte>, first: seq<Choice>, later: nat, op: Op, choices: seq<Choice>)
    requires user != "" && |secret| == 32 && FaultFree(first)
    requires !OpenToAll(op) && FaultAt(choices, 0).NoFault?
    requires Handle(env, s, user, CreateUserApiKey(name, scopes, days, secret), first).1.reply.KeyIssued?
    ensures K.DaysInOrder(days)
    ensures var (s', end) := Handle(env, s, user, CreateUserApiKey(name, scopes, days, secret), first);
            var over := K.EndOf(days, s.now);
            Decide(env, s'.(now := later), With(op, end.reply.token), choices).value ==
            if over.Some? && over.value <= later then Turned(Unauthenticated)
            else if !OnOwnAccount(op) && NeededScope(op) in scopes then Through(user)
            else Turned(PermissionDenied)
  {
    K.KeyCreationIsExact(env, s, user, name, scopes, days, secret, first);
    var (s', end) := Handle(env, s, user, CreateUserApiKey(name, scopes, days, secret), first);
    var token := "bh_" + ApiKeys.Encode(secret);
    Bearer.IssuedKeyIsRecognised(secret);
    ApiKeys.TokenShape(secret);
    assert token == ApiKeys.Token(secret) && token[0] in token && token[|token| - 1] in token;
    hide Handle, K.ScopesInOrder, K.EndOf, Decide, NeededScope, Bearer.LooksLikeJWT, Bearer.Extract, ApiKeys.Encode;
    KeyOpens(env, s'.(now := later), token, op, choices);
  }

  /** A session opens everything, exactly while the token is an access token whose signature checks and that has not
      expired. */
  lemma SessionOpens(env: Env, s: Stores, token: string, op: Op, choices: seq<Choice>)
    requires !OpenToAll(op) && Trimmed(token) && Bearer.LooksLikeJWT(token)
    ensures var claims := env.verify(token);
            Decide(env, s, With(op, token), choices) ==
            Progress(s, if claims.Some? && claims.value.kind == "access"
                           && s.now < claims.value.expiresAt * 1_000_000_000
                        then Through(claims.value.user) else Turned(Unauthenticated), choices)
  {
    assert token != "" by {
      assert Split("", '.') == [""];
    }
    HeaderCarries(token);
    if env.verify(token).Some? {
      AllowedIff(op, Scopes.Principal(env.verify(token).value.user, true, []));
    } else {
      AllowedIff(op, Scopes.Principal("", true, []));
    }
    hide MethodOf, Scopes.Public, Scopes.Allowed, Bearer.Extract, Bearer.LooksLikeJWT, Trimmed;
  }

  /** Everything else is turned away without a call, but for the operations open to all. */
  lemma OthersAreTurnedAway(env: Env, s: Stores, req: Request, choices: seq<Choice>)
    requires || req.authorization.None? || Bearer.Extract(req.authorization.value).None?
             || (var token := Bearer.Extract(req.authorization.value).value;
                 !Bearer.LooksLikeJWT(token) && !("bh_" <= token))
    ensures Decide(env, s, req, choices) ==
            Progress(s, if OpenToAll(req.op) then Through("") else Turned(Unauthenticated), choices)
  {
    if req.op.OnObjects? {
      OnObjectsNeeds(req.op.act);
    } else {
      OthersNeed(req.op);
    }
    hide MethodOf, Scopes.Public, Scopes.SessionOnly, Scopes.RequiredScope, NeededScope, Bearer.Extract;
    hide Bearer.LooksLikeJWT;
  }

  /** Operations open to all go through as nobody, whatever the header says. */
  lemma PublicGoesThrough(env: Env, s: Stores, req: Request, choices: seq<Choice>)
    requires OpenToAll(req.op)
    ensures Decide(env, s, req, choices) == Progress(s, Through(""), choices)
  {
    OthersNeed(req.op);
    hide MethodOf;
  }

  /** The shape of a session token: three non-empty parts with dots between them. */
  lemma JWTShape(token: string)
    ensures Bearer.LooksLikeJWT(token) <==>
            exists a, b, c :: a != "" && b != "" && c != "" && '.' !in a && '.' !in b && '.' !in c
                              && token == a + "." + b + "." + c
  {
    var parts := Split(token, '.');
    JoinSplit(token, '.');
    if Bearer.LooksLikeJWT(token) {
      JoinThree(parts[0], parts[1], parts[2]);
      assert parts == [parts[0], parts[1], parts[2]];
      assert parts[0] in parts && parts[1] in parts && parts[2] in parts;
    }
    if a, b, c :| a != "" && b != "" && c != "" && '.' !in a && '.' !in b && '.' !in c
                  && token == a + "." + b + "." + c {
      JoinThree(a, b, c);
      SplitJoin([a, b, c], '.');
    }
    hide Split;
  }

  lemma JoinThree(a: string, b: string, c: string)
    ensures Join([a, b, c], '.') == a + "." + b + "." + c
  {
    assert [a, b, c][1..] == [b, c] && [b, c][1..] == [c];
    assert Join([b, c], '.') == b + "." + c;
  }
}
