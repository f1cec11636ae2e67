/** Credentials in request metadata: the `Authorization: Bearer` header of RFC 6750 section 2.1. */
module Bearer {
  import opened Wrappers
  import opened Text
  import opened ApiKeys

  const SCHEME := "Bearer "

  /** The credential one header value carries, if any. */
  function Credential(v: string): (r: Option<string>)
    ensures r.Some? ==> r.value != ""
  {
    var t := TrimSpace(v);
    if SCHEME <= t && t != SCHEME then
      var s := TrimSpace(t[|SCHEME|..]);
      if s != "" then Some(s) else None
    else None
  }

  /** The first header value that carries a credential decides. */
  function Extract(vals: seq<string>): Option<string> {
    if vals == [] then None else FirstOf(Credential(vals[0]), Extract(vals[1..]))
  }

  function FirstOf(a: Option<string>, b: Option<string>): Option<string> {
    if a.Some? then a else b
  }

  /** Values before the first one that carries a credential do not matter. */
  lemma {:induction false} ExtractSkips(before: seq<string>, vals: seq<string>)
    requires forall v | v in before :: Credential(v).None?
    ensures Extract(before + vals) == Extract(vals)
  {
    if before == [] {
      assert before + vals == vals;
    } else {
      assert before[0] in before && (before + vals)[1..] == before[1..] + vals;
      ExtractSkips(before[1..], vals);
    }
  }

  /** A token without surrounding blanks survives the header unchanged. */
  lemma CredentialSurvives(token: string)
    requires token != "" && Trimmed(token)
    ensures Credential(SCHEME + token) == Some(token)
  {
    var v := SCHEME + token;
    assert v[0] == 'B' && v[|v| - 1] == token[|token| - 1];
    TrimSpaceTrims(v);
    TrimSpaceTrims(token);
    assert v[|SCHEME|..] == token;
  }

  lemma CredentialCases(v: string)
    ensures var t := TrimSpace(v);
            Credential(v) == if SCHEME <= t && t[|SCHEME|..] != "" && TrimSpace(t[|SCHEME|..]) != ""
                             then Some(TrimSpace(t[|SCHEME|..])) else None
  {
    var t := TrimSpace(v);
    if SCHEME <= t { assert t == SCHEME + t[|SCHEME|..]; }
  }

  lemma ExtractStep(vals: seq<string>, i: nat)
    requires i < |vals|
    ensures Extract(vals[i..]) == FirstOf(Credential(vals[i]), Extract(vals[i + 1..]))
  {
    assert vals[i..][0] == vals[i] && vals[i..][1..] == vals[i + 1..];
  }

  method ExtractBearerToken(vals: seq<string>) returns (r: Option<string>)
    ensures r == Extract(vals)
  {
    for i := 0 to |vals|
      invariant Extract(vals) == Extract(vals[i..])
    {
      ExtractStep(vals, i);
      CredentialCases(vals[i]);
      var v := TrimSpace(vals[i]);
      if SCHEME <= v {
        var s := v[|SCHEME|..];
        if s != "" {
          s := TrimSpace(s);
          if s != "" {
            return Some(s);
          }
        }
      }
    }
    return None;
  }

  /** Three non-empty parts separated by dots. */
  predicate LooksLikeJWT(token: string) {
    var parts := Split(token, '.');
    |parts| == 3 && parts[0] != "" && parts[1] != "" && parts[2] != ""
  }

  lemma {:induction false} SplitWithout(s: string, sep: char)
    requires sep !in s
    ensures Split(s, sep) == [s]
  {
    if s != "" {
      SplitWithout(s[1..], sep);
      assert s == [s[0]] + s[1..];
    }
  }

  /** An issued key passes through the header unchanged and is never taken for a JWT. */
  lemma IssuedKeyIsRecognised(secret: seq<byte>)
    requires |secret| == 32
    ensures Extract([SCHEME + Token(secret)]) == Some(Token(secret))
    ensures !LooksLikeJWT(Token(secret)) && KEY_MARK <= Token(secret)
  {
    TokenShape(secret);
    var t := Token(secret);
    assert t[0] in t && t[|t| - 1] in t;
    CredentialSurvives(t);
    SplitWithout(t, '.');
  }
}
