/**
 * The credential federator of envsec (envsec/pkg/awsfed/awsfed.go): it
 * trades a Jetpack identity token for temporary AWS credentials through the
 * Cognito identity pool, caching them per organization (or per token when
 * the token names no organization).
 *
 * SHA-256 is not part of this model: `sha256Hex` stands for the lower-case
 * hex digest of a string. The value of the ENVSEC_AUTH_DOMAIN environment
 * variable is passed in as `authDomain` (None when it is not set).
 */
module AwsFed {
  import opened Wrappers
  import opened Federation

  const CacheKeyPrefix: string := "awsfed"
  const CacheNamespace: string := "jetpack.io/envsec"
  const DefaultProvider: string := "accounts.jetpack.io"

  /** The claims of a session's ID token that the federator reads. */
  datatype Claims = Claims(issuer: string, orgId: string)

  /** A session token: the raw ID token and its claims, absent when they cannot be read. */
  datatype SessionToken = SessionToken(idToken: string, claims: Option<Claims>)

  /** The federation settings. */
  datatype AwsFed = AwsFed(accountId: string, identityPoolId: string, legacyProvider: string,
                           provider: string, region: string)

  /** What envsec needs to reach SSM. */
  datatype SSMConfig = SSMConfig(accessKeyId: string, secretAccessKey: string, sessionToken: string, region: string)

  /** `New`: the fixed settings, with the provider taken from ENVSEC_AUTH_DOMAIN when it is set. */
  function New(authDomain: Option<string>): (f: AwsFed)
    ensures f.accountId == "984256416385"
    ensures f.identityPoolId == "us-west-2:8111c156-085b-4ac5-b94d-f823205f6261"
    ensures f.legacyProvider == "auth.jetpack.io"
    ensures f.provider == if authDomain.Some? then authDomain.value else DefaultProvider
    ensures f.region == "us-west-2"
  {
    AwsFed("984256416385", "us-west-2:8111c156-085b-4ac5-b94d-f823205f6261", "auth.jetpack.io",
           if authDomain.Some? then authDomain.value else DefaultProvider, "us-west-2")
  }

  // ---------------------------------------------------------------------
  // The cache key

  /** Whether the token names an organization. */
  predicate HasOrg(t: SessionToken) {
    t.claims.Some? && t.claims.value.orgId != ""
  }

  /** What identifies the cached credentials: the organization, else the digest of the raw token. */
  function KeyId(t: SessionToken, sha256Hex: string -> string): string {
    if HasOrg(t) then t.claims.value.orgId else sha256Hex(t.idToken)
  }

  /** `cacheKey`: "awsfed-" followed by the key's identifier. */
  function CacheKey(t: SessionToken, sha256Hex: string -> string): (k: string)
    ensures |k| >= |CacheKeyPrefix| + 1 && k[..|CacheKeyPrefix| + 1] == "awsfed-"
  {
    CacheKeyPrefix + "-" + KeyId(t, sha256Hex)
  }

  /** Two cache keys are equal exactly when their identifiers are. */
  lemma CacheKeyInjective(t: SessionToken, t': SessionToken, sha256Hex: string -> string)
    ensures CacheKey(t, sha256Hex) == CacheKey(t', sha256Hex) <==> KeyId(t, sha256Hex) == KeyId(t', sha256Hex)
  {
    var k := CacheKey(t, sha256Hex);
    var k' := CacheKey(t', sha256Hex);
    if k == k' {
      assert KeyId(t, sha256Hex) == k[|CacheKeyPrefix| + 1..];
      assert KeyId(t', sha256Hex) == k'[|CacheKeyPrefix| + 1..];
    }
  }

  /** Tokens of the same organization share a cache entry, whatever else differs. */
  lemma SameOrgSameKey(t: SessionToken, t': SessionToken, sha256Hex: string -> string)
    requires HasOrg(t) && HasOrg(t') && t.claims.value.orgId == t'.claims.value.orgId
    ensures CacheKey(t, sha256Hex) == CacheKey(t', sha256Hex)
  {
  }

  /** Tokens of different organizations never share a cache entry. */
  lemma OtherOrgOtherKey(t: SessionToken, t': SessionToken, sha256Hex: string -> string)
    requires HasOrg(t) && HasOrg(t') && t.claims.value.orgId != t'.claims.value.orgId
    ensures CacheKey(t, sha256Hex) != CacheKey(t', sha256Hex)
  {
    CacheKeyInjective(t, t', sha256Hex);
  }

  /** Without an organization, the key is that of the token's digest. */
  lemma NoOrgKeyIsDigest(t: SessionToken, sha256Hex: string -> string)
    requires !HasOrg(t)
    ensures CacheKey(t, sha256Hex) == "awsfed-" + sha256Hex(t.idToken)
  {
  }

  // ---------------------------------------------------------------------
  // The logins map

  /** The issuer of tokens from the legacy provider. */
  function LegacyIssuer(f: AwsFed): string {
    "https://" + f.legacyProvider + "/"
  }

  /** The provider a token logs in with: the legacy one for its issuer, the current one otherwise. */
  function ProviderFor(f: AwsFed, c: Claims): string {
    if c.issuer == LegacyIssuer(f) then f.legacyProvider else f.provider
  }

  /** The logins map `AWSCreds` sends: empty without claims, else the raw token under its provider. */
  function LoginsFor(f: AwsFed, t: SessionToken): (logins: map<string, string>)
    ensures t.claims.None? ==> logins == map[]
    ensures t.claims.Some? ==> logins.Keys == {ProviderFor(f, t.claims.value)}
    ensures forall p :: p in logins ==> logins[p] == t.idToken
  {
    if t.claims.None? then map[] else map[ProviderFor(f, t.claims.value) := t.idToken]
  }

  /**
   * With claims, the logins map has exactly one entry: the legacy provider
   * for the legacy issuer, the current provider for every other issuer.
   */
  lemma LoginsChooseProvider(f: AwsFed, t: SessionToken)
    requires t.claims.Some?
    ensures t.claims.value.issuer == LegacyIssuer(f) ==> LoginsFor(f, t) == map[f.legacyProvider := t.idToken]
    ensures t.claims.value.issuer != LegacyIssuer(f) ==> LoginsFor(f, t) == map[f.provider := t.idToken]
    ensures |LoginsFor(f, t)| == 1
  {
    assert LoginsFor(f, t).Keys == {ProviderFor(f, t.claims.value)};
  }

  /** With the default settings, tokens issued by https://auth.jetpack.io/ log in with the legacy provider. */
  lemma LegacyIssuerOfNew(authDomain: Option<string>, t: SessionToken)
    requires t.claims.Some? && t.claims.value.issuer == "https://auth.jetpack.io/"
    ensures LoginsFor(New(authDomain), t) == map["auth.jetpack.io" := t.idToken]
  {
    assert LegacyIssuer(New(authDomain)) == "https://auth.jetpack.io/";
  }

  /** The logins block of `AWSCreds`: an empty map, then at most one insertion. */
  method BuildLogins(f: AwsFed, t: SessionToken) returns (logins: map<string, string>)
    ensures logins == LoginsFor(f, t)
  {
    logins := map[];
    if t.claims.None? {
      // no provider to log in with
    } else if t.claims.value.issuer == "https://" + f.legacyProvider + "/" {
      logins := logins[f.legacyProvider := t.idToken];
    } else {
      logins := logins[f.provider := t.idToken];
    }
  }

  // ---------------------------------------------------------------------
  // Federation

  /**
   * `AWSCreds`: cached credentials under the token's key when they
   * deserialise; otherwise the exchange with the token's logins, whose
   * credentials are cached under that key with their expiration.
   */
  method AWSCreds(f: AwsFed, tok: SessionToken, cache: FileCache, svc: Cognito, codec: Codec,
                  sha256Hex: string -> string)
    returns (r: Result<Credentials, FedError>)
    modifies cache, svc
    ensures r == ReadThroughResult(codec, old(cache.Read(CacheNamespace, CacheKey(tok, sha256Hex))), svc,
                                   f.accountId, f.identityPoolId, LoginsFor(f, tok), cache.writable)
    ensures Cached(codec, old(cache.Read(CacheNamespace, CacheKey(tok, sha256Hex)))).Some? ==>
      svc.log == old(svc.log) && cache.entries == old(cache.entries)
    ensures Cached(codec, old(cache.Read(CacheNamespace, CacheKey(tok, sha256Hex)))).None? ==>
      svc.log == old(svc.log) + ExchangeCalls(svc, f.accountId, f.identityPoolId, LoginsFor(f, tok))
    ensures r.Failure? ==> cache.entries == old(cache.entries)
    ensures r.Success? && Cached(codec, old(cache.Read(CacheNamespace, CacheKey(tok, sha256Hex)))).None? ==>
      codec.marshal(r.value).Some? &&
      cache.entries == old(cache.entries)[(CacheNamespace, CacheKey(tok, sha256Hex)) :=
                                           Entry(codec.marshal(r.value).value, r.value.expiration)]
  {
    var key := CacheKey(tok, sha256Hex);
    var logins := BuildLogins(f, tok);
    r := ReadThrough(cache, svc, codec, CacheNamespace, key, f.accountId, f.identityPoolId, logins);
  }

  /** `AWSCredsFromIdToken`: the exchange with the raw token under the current provider, and no cache. */
  method AWSCredsFromIdToken(f: AwsFed, idToken: JwtToken, svc: Cognito)
    returns (r: Result<Credentials, FedError>)
    modifies svc
    ensures r == ExchangeResult(svc, f.accountId, f.identityPoolId, map[f.provider := idToken.raw])
    ensures svc.log == old(svc.log) + ExchangeCalls(svc, f.accountId, f.identityPoolId, map[f.provider := idToken.raw])
  {
    var logins := map[f.provider := idToken.raw];
    r := Exchange(svc, f.accountId, f.identityPoolId, logins);
  }

  /** The SSM configuration made from credentials, or the federation's error. */
  function ConfigFrom(creds: Result<Credentials, FedError>, region: string): (r: Result<SSMConfig, FedError>)
    ensures r.Failure? <==> creds.Failure?
    ensures creds.Failure? ==> r.error == creds.error
    ensures creds.Success? ==>
      (r.value.accessKeyId == creds.value.accessKeyId && r.value.secretAccessKey == creds.value.secretKey &&
       r.value.sessionToken == creds.value.sessionToken && r.value.region == region)
  {
    if creds.Failure? then Failure(creds.error)
    else Success(SSMConfig(creds.value.accessKeyId, creds.value.secretKey, creds.value.sessionToken, region))
  }

  /** The configuration returned for a missing token: every field empty. */
  const EmptyConfig: SSMConfig := SSMConfig("", "", "", "")

  /** `GenSSMConfigForUser`: an empty configuration without a token, else one from `AWSCreds`. */
  method GenSSMConfigForUser(tok: Option<SessionToken>, authDomain: Option<string>, cache: FileCache, svc: Cognito,
                             codec: Codec, sha256Hex: string -> string)
    returns (r: Result<SSMConfig, FedError>)
    modifies cache, svc
    ensures tok.None? ==> r == Success(EmptyConfig) && unchanged(cache, svc)
    ensures tok.Some? ==>
      var f := New(authDomain);
      r == ConfigFrom(ReadThroughResult(codec, old(cache.Read(CacheNamespace, CacheKey(tok.value, sha256Hex))), svc,
                                        f.accountId, f.identityPoolId, LoginsFor(f, tok.value), cache.writable),
                      f.region)
    ensures tok.Some? ==>
      var f := New(authDomain);
      var key := CacheKey(tok.value, sha256Hex);
      var hit := Cached(codec, old(cache.Read(CacheNamespace, key))).Some?;
      var creds := ReadThroughResult(codec, old(cache.Read(CacheNamespace, key)), svc,
                                     f.accountId, f.identityPoolId, LoginsFor(f, tok.value), cache.writable);
      (hit ==> svc.log == old(svc.log) && cache.entries == old(cache.entries)) &&
      (!hit ==> svc.log == old(svc.log) + ExchangeCalls(svc, f.accountId, f.identityPoolId, LoginsFor(f, tok.value))) &&
      (creds.Failure? ==> cache.entries == old(cache.entries)) &&
      (creds.Success? && !hit ==>
         codec.marshal(creds.value).Some? &&
         cache.entries == old(cache.entries)[(CacheNamespace, key) := Entry(codec.marshal(creds.value).value, creds.value.expiration)])
  {
    if tok.None? {
      return Success(EmptyConfig);
    }
    var fed := New(authDomain);
    var creds := AWSCreds(fed, tok.value, cache, svc, codec, sha256Hex);
    r := ConfigFrom(creds, fed.region);
  }

  /** `GenSSMConfigFromIdToken`: an empty configuration without a token, else one from `AWSCredsFromIdToken`. */
  method GenSSMConfigFromIdToken(tok: Option<JwtToken>, authDomain: Option<string>, svc: Cognito)
    returns (r: Result<SSMConfig, FedError>)
    modifies svc
    ensures tok.None? ==> r == Success(EmptyConfig) && unchanged(svc)
    ensures tok.Some? ==>
      var f := New(authDomain);
      r == ConfigFrom(ExchangeResult(svc, f.accountId, f.identityPoolId, map[f.provider := tok.value.raw]), f.region)
    ensures tok.Some? ==>
      var f := New(authDomain);
      svc.log == old(svc.log) + ExchangeCalls(svc, f.accountId, f.identityPoolId, map[f.provider := tok.value.raw])
  {
    if tok.None? {
      return Success(EmptyConfig);
    }
    var fed := New(authDomain);
    var creds := AWSCredsFromIdToken(fed, tok.value, svc);
    r := ConfigFrom(creds, fed.region);
  }

  /**
   * Credentials obtained by an exchange and cached are served to the next
   * request of the same organization while they last, provided the codec
   * reads back what it writes.
   */
  lemma NextRequestHits(entries: map<(string, string), Entry>, now: int, codec: Codec, c: Credentials,
                        t: SessionToken, t': SessionToken, sha256Hex: string -> string)
    requires HasOrg(t) && HasOrg(t') && t.claims.value.orgId == t'.claims.value.orgId
    requires codec.marshal(c).Some? && RoundTrips(codec, c) && now < c.expiration
    ensures Cached(codec, CacheRead(entries[(CacheNamespace, CacheKey(t, sha256Hex)) := Entry(codec.marshal(c).value, c.expiration)],
                                    now, CacheNamespace, CacheKey(t', sha256Hex))) == Some(c)
  {
    SameOrgSameKey(t, t', sha256Hex);
    ReadAfterWrite(entries, now, CacheNamespace, CacheKey(t, sha256Hex), codec, c);
  }
}
