/** Creating an API key, run without faults: for which requests it succeeds, when the key ends, and what is stored
    and shown. */
module KeyRequests {
  import opened Wrappers
  import opened Text
  import opened Stores
  import opened Programs
  import opened Sequential
  import ApiKeys
  import Scopes
  import B = Builders

  const SCOPES: set<string> := {"organizations:read", "organizations:write", "builders:read", "builders:write",
                                "templates:read", "templates:write"}

  /** At least one scope, each a known one once trimmed, and none twice. */
  ghost predicate ScopesInOrder(scopes: seq<string>) {
    && scopes != []
    && (forall i | 0 <= i < |scopes| :: TrimSpace(scopes[i]) in SCOPES)
    && (forall i, j | 0 <= i < j < |scopes| :: TrimSpace(scopes[i]) != TrimSpace(scopes[j]))
  }

  lemma KnownScopes(s: string)
    ensures Scopes.ValidScope(s) <==> s in SCOPES
  {
  }

  lemma AcceptableIff(scopes: seq<string>)
    ensures Scopes.Acceptable(scopes) <==> ScopesInOrder(scopes)
  {
    Scopes.AcceptableMeaning(scopes);
    forall i | 0 <= i < |scopes| ensures Scopes.ValidScope(TrimSpace(scopes[i])) <==> TrimSpace(scopes[i]) in SCOPES {
      KnownScopes(TrimSpace(scopes[i]));
    }
    hide TrimSpace, Scopes.ValidScope, Scopes.Acceptable;
    assert forall i | 0 <= i < |scopes| :: scopes[i] in scopes;
  }

  predicate DaysInOrder(days: B.int32) {
    days == -1 || days == 0 || 1 <= days <= 3650
  }

  /** When the key ends: -1 days is never, 0 days is a year, any other number of days is that many. */
  function EndOf(days: B.int32, now: nat): Option<nat>
    requires DaysInOrder(days)
  {
    if days == -1 then None
    else Some(now + (if days == 0 then 365 else days) * 86400 * 1_000_000_000)
  }

  lemma ExpiryIs(days: B.int32, now: nat)
    ensures KeyExpiry(days, now) == if DaysInOrder(days) then Some(EndOf(days, now)) else None
  {
    if 1 <= days <= 3650 {
      assert days * DAY == days * 86400 * 1_000_000_000;
    }
  }

  lemma EnterCreation(env: Env, now: nat, user: string, name: string, scopes: seq<string>, days: B.int32,
                      secret: seq<ApiKeys.byte>)
    requires |secret| == 32
    ensures var token := "bh_" + ApiKeys.Encode(secret);
            |token| == 46 &&
            Enter(env, now, user, CreateUserApiKey(name, scopes, days, secret)) ==
            if user == "" then Reject(Unauthenticated)
            else if TrimSpace(name) == "" || !ScopesInOrder(scopes) || !DaysInOrder(days) then Reject(InvalidArgument)
            else Account(KeyInsert(env.hash(token),
                          KeyRow("", user, TrimSpace(name), token[..12], scopes, 0, EndOf(days, now), None), token))
  {
    ApiKeys.TokenShape(secret);
    var token := "bh_" + ApiKeys.Encode(secret);
    assert ApiKeys.Token(secret) == token && ApiKeys.DisplayPrefix(token) == token[..12];
    hide ApiKeys.Token, ApiKeys.DisplayPrefix;
    AcceptableIff(scopes);
    ExpiryIs(days, now);
    hide TrimSpace, Scopes.Acceptable, ScopesInOrder, KeyExpiry, EndOf, DaysInOrder, ApiKeys.Encode;
  }

  lemma InsertKeyAlone(env: Env, s: Stores, hash: string, row: KeyRow, token: string, choices: seq<Choice>)
    requires FaultAt(choices, 0).NoFault?
    ensures var id := Head(choices).id;
            RunAlone(env, s, Account(KeyInsert(hash, row, token)), choices) ==
            if id in s.issued || !HasUser(s.accounts, row.user) || hash in s.accounts.keys then (s, Reject(Internal))
            else
              var stored := row.(id := id, createdAt := s.now, lastUsedAt := None);
              (s.(accounts := s.accounts.(keys := s.accounts.keys[hash := stored]), issued := s.issued + {id}),
               Finished(KeyIssued(row.(id := id, createdAt := s.now), token)))
  {
    AloneStep(env, s, Account(KeyInsert(hash, row, token)), choices);
    hide ResumeGate, ResumeOrg, ResumeObj, IssueObj, IssueOrg, ExecuteTables, ExecuteCluster, HasUser;
  }

  /** A creation is rejected exactly if the name is blank, the scopes are not in order or the days are not. It fails
      exactly if the user is gone or the identifier or the key's hash is taken. Otherwise one row is stored under the
      hash of the token, and shown: with the trimmed name, the token's first twelve characters, the scopes as sent,
      the time of creation, the end the days ask for, and no use yet. */
  lemma KeyCreationIsExact(env: Env, s: Stores, user: string, name: string, scopes: seq<string>, days: B.int32,
                           secret: seq<ApiKeys.byte>, choices: seq<Choice>)
    requires user != "" && |secret| == 32 && FaultFree(choices)
    ensures var token := "bh_" + ApiKeys.Encode(secret);
            |token| == 46 &&
            var (s', end) := Handle(env, s, user, CreateUserApiKey(name, scopes, days, secret), choices);
            var id, hash := Head(choices).id, env.hash(token);
            if TrimSpace(name) == "" || !ScopesInOrder(scopes) || !DaysInOrder(days)
            then s' == s && end == Reject(InvalidArgument)
            else if id in s.issued || !HasUser(s.accounts, user) || hash in s.accounts.keys
            then s' == s && end == Reject(Internal)
            else
              var row := KeyRow(id, user, TrimSpace(name), token[..12], scopes, s.now, EndOf(days, s.now), None);
              && s' == s.(accounts := s.accounts.(keys := s.accounts.keys[hash := row]), issued := s.issued + {id})
              && end == Finished(KeyIssued(row, token))
  {
    var token := "bh_" + ApiKeys.Encode(secret);
    NoFaults(choices);
    assert FaultAt(choices, 0) == NoFault;
    EnterCreation(env, s.now, user, name, scopes, days, secret);
    if DaysInOrder(days) {
      var row := KeyRow("", user, TrimSpace(name), token[..12], scopes, 0, EndOf(days, s.now), None);
      InsertKeyAlone(env, s, env.hash(token), row, token, choices);
    }
    HandleRuns(env, s, user, CreateUserApiKey(name, scopes, days, secret), choices);
    hide RunAlone, Handle, Enter, TrimSpace, ScopesInOrder, EndOf, HasUser, ApiKeys.Encode;
  }
}
