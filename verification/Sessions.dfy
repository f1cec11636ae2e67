/** Session tokens: their claims, lifetimes and checks. The clock counts nanoseconds; the NumericDate of
    RFC 7519 keeps whole seconds. Signing is abstract: only the claims behind a signature appear. */
module Sessions {
  import opened Wrappers

  const SECOND: nat := 1_000_000_000
  const ACCESS_LIFETIME: nat := 3600
  const REFRESH_LIFETIME: nat := 604800

  datatype Claims = Claims(user: string, email: string, kind: string, issuedAt: nat, expiresAt: nat)

  function AccessClaims(user: string, email: string, now: nat): Claims {
    Claims(user, email, "access", now / SECOND, now / SECOND + ACCESS_LIFETIME)
  }

  function RefreshClaims(user: string, email: string, now: nat): Claims {
    Claims(user, email, "refresh", now / SECOND, now / SECOND + REFRESH_LIFETIME)
  }

  /** Section 4.1.4 of RFC 7519: the current time must be before the expiration time. */
  predicate Unexpired(c: Claims, now: nat) {
    now < c.expiresAt * SECOND
  }

  /** Accepts the claims behind a verified signature, if there is one, for the wanted token type. */
  function Validate(verified: Option<Claims>, kind: string, now: nat): Option<Claims> {
    if verified.Some? && Unexpired(verified.value, now) && verified.value.kind == kind then verified else None
  }

  /** The claims of the access token a refresh yields, if it is accepted. */
  function Refresh(verified: Option<Claims>, now: nat): Option<Claims> {
    var c := Validate(verified, "refresh", now);
    if c.Some? then Some(AccessClaims(c.value.user, c.value.email, now)) else None
  }

  /** An access token never refreshes and a refresh token never authenticates. */
  lemma KindsAreSeparate(c: Claims, now: nat)
    ensures c.kind == "access" ==> Refresh(Some(c), now).None?
    ensures c.kind == "refresh" ==> Validate(Some(c), "access", now).None?
  {
  }

  /** A token obtained by refreshing outlives its refresh token by at most one access lifetime. */
  lemma RefreshedExpiry(c: Claims, now: nat)
    requires Refresh(Some(c), now).Some?
    ensures Refresh(Some(c), now).value.expiresAt <= c.expiresAt + ACCESS_LIFETIME
    ensures Refresh(Some(c), now).value.user == c.user
  {
    assert now / SECOND <= c.expiresAt;
  }

  /** A session's tokens do their work until they expire and not a moment longer: the access token identifies its
      user for an hour, the refresh token yields fresh access tokens for seven days, counted from the full second. */
  lemma TokensWorkUntilExpiry(user: string, email: string, t: nat, now: nat)
    ensures Validate(Some(AccessClaims(user, email, t)), "access", now) ==
            if now < t - t % SECOND + 3600 * SECOND then Some(AccessClaims(user, email, t)) else None
    ensures Refresh(Some(RefreshClaims(user, email, t)), now) ==
            if now < t - t % SECOND + 604800 * SECOND then Some(AccessClaims(user, email, now)) else None
  {
    assert t / SECOND * SECOND == t - t % SECOND;
  }
}
