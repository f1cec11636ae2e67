/** The RPC methods, the scope each needs from an API key, and the scopes a key may be created with. */
module Scopes {
  import opened Wrappers
  import opened Text

  datatype Method =
    | Register | Login | RefreshToken | HealthCheck
    | GetMe | UpdateProfile | CreateUserApiKey | ListUserApiKeys | RevokeUserApiKey
    | ListOrganizations | GetOrganization | CreateOrganization | UpdateOrganization | DeleteOrganization
    | ListOrganizationMembers
    | ListBuilders | GetBuilder | CreateBuilder | UpdateBuilder | DeleteBuilder | WakeBuilder
    | ListTemplates | GetTemplate | CreateTemplate | UpdateTemplate | DeleteTemplate

  const ORGANIZATIONS_READ := "organizations:read"
  const ORGANIZATIONS_WRITE := "organizations:write"
  const BUILDERS_READ := "builders:read"
  const BUILDERS_WRITE := "builders:write"
  const TEMPLATES_READ := "templates:read"
  const TEMPLATES_WRITE := "templates:write"

  predicate IsReadScope(s: string) {
    s == ORGANIZATIONS_READ || s == BUILDERS_READ || s == TEMPLATES_READ
  }

  predicate ValidScope(s: string) {
    IsReadScope(s) || s == ORGANIZATIONS_WRITE || s == BUILDERS_WRITE || s == TEMPLATES_WRITE
  }

  const VALID_SCOPES: set<string> := {ORGANIZATIONS_READ, ORGANIZATIONS_WRITE, BUILDERS_READ, BUILDERS_WRITE,
                                      TEMPLATES_READ, TEMPLATES_WRITE}

  predicate Public(m: Method) {
    m.Register? || m.Login? || m.RefreshToken? || m.HealthCheck?
  }

  predicate SessionOnly(m: Method) {
    m.GetMe? || m.UpdateProfile? || m.CreateUserApiKey? || m.ListUserApiKeys? || m.RevokeUserApiKey?
  }

  function RequiredScope(m: Method): Option<string> {
    match m
    case ListOrganizations | GetOrganization | ListOrganizationMembers => Some(ORGANIZATIONS_READ)
    case CreateOrganization | UpdateOrganization | DeleteOrganization => Some(ORGANIZATIONS_WRITE)
    case ListBuilders | GetBuilder => Some(BUILDERS_READ)
    case CreateBuilder | UpdateBuilder | DeleteBuilder | WakeBuilder => Some(BUILDERS_WRITE)
    case ListTemplates | GetTemplate => Some(TEMPLATES_READ)
    case CreateTemplate | UpdateTemplate | DeleteTemplate => Some(TEMPLATES_WRITE)
    case _ => None
  }

  /** A session acts with full access; an API key is confined to its scopes. */
  datatype Principal = Principal(user: string, fullAccess: bool, scopes: seq<string>)

  function Allowed(m: Method, p: Principal): bool {
    if SessionOnly(m) then p.fullAccess
    else if RequiredScope(m).Some? then p.fullAccess || RequiredScope(m).value in p.scopes
    else p.fullAccess
  }

  method HasScope(scopes: seq<string>, required: string) returns (found: bool)
    ensures found <==> required in scopes
  {
    for i := 0 to |scopes|
      invariant required !in scopes[..i]
    {
      if scopes[i] == required {
        return true;
      }
    }
    return false;
  }

  datatype ScopeError = EmptyScope | UnknownScope(scope: string) | DuplicateScope(scope: string)

  /** The first entry that is blank, unknown or repeated once trimmed. */
  function CheckScopes(scopes: seq<string>, seen: set<string>): Option<ScopeError> {
    if scopes == [] then None
    else
      var sc := TrimSpace(scopes[0]);
      if sc == "" then Some(EmptyScope)
      else if !ValidScope(sc) then Some(UnknownScope(sc))
      else if sc in seen then Some(DuplicateScope(sc))
      else CheckScopes(scopes[1..], seen + {sc})
  }

  predicate Acceptable(scopes: seq<string>) {
    scopes != [] && CheckScopes(scopes, {}).None?
  }

  method ValidateScopes(scopes: seq<string>) returns (e: Option<ScopeError>)
    ensures e == CheckScopes(scopes, {})
  {
    var seen := {};
    for i := 0 to |scopes|
      invariant CheckScopes(scopes, {}) == CheckScopes(scopes[i..], seen)
    {
      assert scopes[i..][0] == scopes[i] && scopes[i..][1..] == scopes[i + 1..];
      var sc := TrimSpace(scopes[i]);
      if sc == "" {
        return Some(EmptyScope);
      }
      if !ValidScope(sc) {
        return Some(UnknownScope(sc));
      }
      if sc in seen {
        return Some(DuplicateScope(sc));
      }
      seen := seen + {sc};
    }
    return None;
  }

  ghost predicate TrimmedDistinct(scopes: seq<string>) {
    forall i, j | 0 <= i < j < |scopes| :: TrimSpace(scopes[i]) != TrimSpace(scopes[j])
  }

  lemma {:induction false} CheckScopesMeaning(scopes: seq<string>, seen: set<string>)
    ensures CheckScopes(scopes, seen).None? <==>
            && (forall s | s in scopes :: ValidScope(TrimSpace(s)) && TrimSpace(s) !in seen)
            && TrimmedDistinct(scopes)
  {
    if scopes != [] {
      var sc := TrimSpace(scopes[0]);
      CheckScopesMeaning(scopes[1..], seen + {sc});
      assert scopes == [scopes[0]] + scopes[1..];
      if TrimmedDistinct(scopes) {
        forall s | s in scopes[1..] ensures TrimSpace(s) != sc {
          var j :| 0 <= j < |scopes| - 1 && scopes[1..][j] == s;
          assert scopes[j + 1] == s;
        }
        assert TrimmedDistinct(scopes[1..]);
      }
      if TrimmedDistinct(scopes[1..]) && forall s | s in scopes[1..] :: TrimSpace(s) != sc {
        forall i, j | 0 <= i < j < |scopes| ensures TrimSpace(scopes[i]) != TrimSpace(scopes[j]) {
          assert scopes[j] == scopes[1..][j - 1];
          assert i > 0 ==> scopes[i] == scopes[1..][i - 1];
        }
      }
    }
  }

  function Trims(scopes: seq<string>): (ts: seq<string>)
    ensures |ts| == |scopes| && forall i | 0 <= i < |ts| :: ts[i] == TrimSpace(scopes[i])
  {
    seq(|scopes|, i requires 0 <= i < |scopes| => TrimSpace(scopes[i]))
  }

  lemma {:induction false} DistinctCount<T>(ts: seq<T>)
    requires forall i, j | 0 <= i < j < |ts| :: ts[i] != ts[j]
    ensures |set t | t in ts| == |ts|
  {
    if ts != [] {
      var n := |ts| - 1;
      DistinctCount(ts[..n]);
      assert (set t | t in ts) == (set t | t in ts[..n]) + {ts[n]};
    }
  }

  /** A list is acceptable exactly when it is non-empty and its trimmed entries are distinct valid
      scopes; so it has at most six entries. */
  lemma AcceptableMeaning(scopes: seq<string>)
    ensures Acceptable(scopes) <==>
            scopes != [] && TrimmedDistinct(scopes) && forall s | s in scopes :: ValidScope(TrimSpace(s))
    ensures Acceptable(scopes) ==> 1 <= |scopes| <= 6
  {
    CheckScopesMeaning(scopes, {});
    if Acceptable(scopes) {
      ValidScopesAreValid();
      hide ValidScope, TrimSpace;
      DistinctCount(Trims(scopes));
      SubsetSize((set t | t in Trims(scopes)), VALID_SCOPES);
    }
  }

  lemma {:induction false} SubsetSize<T>(a: set<T>, b: set<T>)
    requires a <= b
    ensures |a| <= |b|
  {
    if a != {} {
      var x :| x in a;
      SubsetSize(a - {x}, b - {x});
    }
  }

  /** The scopes a key with this stored list holds. */
  ghost function Granted(scopes: seq<string>): set<string> {
    set s | s in VALID_SCOPES && s in scopes
  }

  /** The scopes the request asked for. */
  ghost function Asked(scopes: seq<string>): set<string> {
    set s | s in scopes :: TrimSpace(s)
  }

  lemma ValidScopesAreValid()
    ensures forall s :: s in VALID_SCOPES <==> ValidScope(s)
    ensures |VALID_SCOPES| <= 6
  {
  }

  /** The list is stored as it was sent, so a key holds what was asked for exactly when every entry
      came without surrounding blanks; otherwise the padded entries grant nothing. */
  lemma GrantedIsAskedIffTrimmed(scopes: seq<string>)
    requires Acceptable(scopes)
    ensures Granted(scopes) <= Asked(scopes)
    ensures Granted(scopes) == Asked(scopes) <==> forall s | s in scopes :: Trimmed(s)
  {
    ValidScopesAreValid();
    hide ValidScope, CheckScopes, TrimSpace, Trimmed;
    forall s | s in Granted(scopes) ensures s in Asked(scopes) {
      ValidScopeTrimmed(s);
    }
    if s :| s in scopes && !Trimmed(s) {
      PaddedGrantsNothing(scopes, s);
      assert TrimSpace(s) in Asked(scopes);
    } else {
      forall t | t in Asked(scopes) ensures t in Granted(scopes) {
        var s :| s in scopes && TrimSpace(s) == t;
        TrimSpaceTrims(s);
        AcceptableMeaning(scopes);
      }
    }
  }

  /** The scope meant by a padded entry is nowhere in an acceptable list. */
  lemma PaddedGrantsNothing(scopes: seq<string>, s: string)
    requires Acceptable(scopes) && s in scopes && !Trimmed(s)
    ensures TrimSpace(s) !in scopes
  {
    AcceptableMeaning(scopes);
    TrimSpaceTrims(s);
    if TrimSpace(s) in scopes {
      var i :| 0 <= i < |scopes| && scopes[i] == s;
      var j :| 0 <= j < |scopes| && scopes[j] == TrimSpace(s);
      TrimSpaceTrims(scopes[j]);
    }
  }

  lemma ValidScopeTrimmed(s: string)
    requires ValidScope(s)
    ensures TrimSpace(s) == s
  {
    TrimSpaceTrims(s);
    assert Trimmed(s);
  }

  /** A key may call a method exactly when the method needs one of the scopes the key was granted; so a scope
      sent with blanks around it opens nothing. */
  lemma KeyRightsAreGrantedScopes(m: Method, user: string, scopes: seq<string>)
    ensures Allowed(m, Principal(user, false, scopes)) <==>
            RequiredScope(m).Some? && RequiredScope(m).value in Granted(scopes)
  {
    ValidScopesAreValid();
    assert RequiredScope(m).Some? ==> ValidScope(RequiredScope(m).value) && !SessionOnly(m);
    hide ValidScope;
  }

  /** Every method is public, needs a session, or needs a scope, and never two of these. */
  lemma TablesPartitionMethods(m: Method)
    ensures Public(m) ==> !SessionOnly(m) && RequiredScope(m).None?
    ensures SessionOnly(m) ==> RequiredScope(m).None?
    ensures Public(m) || SessionOnly(m) || RequiredScope(m).Some?
  {
  }
}
