/**
 * The older credential federator of envsec (envsec/internal/awsfed/awsfed.go).
 * It differs from the current one in two ways: every token logs in with
 * the current provider, and the credentials are cached under one fixed key,
 * whoever the token belongs to.
 */
module AwsFedLegacy {
  import opened Wrappers
  import opened Federation
  import Current = AwsFed

  /** The one cache key, in the namespace of this federator. */
  const CacheKey: string := "awsfed"
  const CacheNamespace: string := "envsec"

  /** The federation settings. */
  datatype AwsFed = AwsFed(accountId: string, identityPoolId: string, provider: string, region: string)

  /** `New`: the fixed settings, with the provider taken from ENVSEC_AUTH_DOMAIN when it is set. */
  function New(authDomain: Option<string>): (f: AwsFed)
    ensures f.accountId == "984256416385"
    ensures f.identityPoolId == "us-west-2:8111c156-085b-4ac5-b94d-f823205f6261"
    ensures f.provider == if authDomain.Some? then authDomain.value else "accounts.jetpack.io"
    ensures f.region == "us-west-2"
  {
    AwsFed("984256416385", "us-west-2:8111c156-085b-4ac5-b94d-f823205f6261",
           if authDomain.Some? then authDomain.value else "accounts.jetpack.io", "us-west-2")
  }

  /** The logins map: exactly one entry, the raw token under the provider. */
  function Logins(f: AwsFed, token: JwtToken): (logins: map<string, string>)
    ensures logins.Keys == {f.provider}
    ensures logins[f.provider] == token.raw
  {
    map[f.provider := token.raw]
  }

  /**
   * `AWSCreds`: cached credentials under the fixed key when they
   * deserialise; otherwise the exchange, whose credentials are cached under
   * that key with their expiration.
   */
  method AWSCreds(f: AwsFed, token: JwtToken, cache: FileCache, svc: Cognito, codec: Codec)
    returns (r: Result<Credentials, FedError>)
    modifies cache, svc
    ensures r == ReadThroughResult(codec, old(cache.Read(CacheNamespace, CacheKey)), svc,
                                   f.accountId, f.identityPoolId, Logins(f, token), cache.writable)
    ensures Cached(codec, old(cache.Read(CacheNamespace, CacheKey))).Some? ==>
      svc.log == old(svc.log) && cache.entries == old(cache.entries)
    ensures Cached(codec, old(cache.Read(CacheNamespace, CacheKey))).None? ==>
      svc.log == old(svc.log) + ExchangeCalls(svc, f.accountId, f.identityPoolId, Logins(f, token))
    ensures r.Failure? ==> cache.entries == old(cache.entries)
    ensures r.Success? && Cached(codec, old(cache.Read(CacheNamespace, CacheKey))).None? ==>
      codec.marshal(r.value).Some? &&
      cache.entries == old(cache.entries)[(CacheNamespace, CacheKey) := Entry(codec.marshal(r.value).value, r.value.expiration)]
  {
    var logins := map[f.provider := token.raw];
    r := ReadThrough(cache, svc, codec, CacheNamespace, CacheKey, f.accountId, f.identityPoolId, logins);
  }

  /**
   * While the cache holds credentials that deserialise, every token is
   * handed those same credentials, whatever identity it carries.
   */
  lemma CachedCredsServeEveryToken(codec: Codec, read: Option<string>, svc: Cognito, f: AwsFed,
                                   token: JwtToken, token': JwtToken, writable: bool)
    requires Cached(codec, read).Some?
    ensures ReadThroughResult(codec, read, svc, f.accountId, f.identityPoolId, Logins(f, token), writable)
      == ReadThroughResult(codec, read, svc, f.accountId, f.identityPoolId, Logins(f, token'), writable)
      == Success(Cached(codec, read).value)
  {
    HitServesCache(codec, read, svc, f.accountId, f.identityPoolId, Logins(f, token), writable);
    HitServesCache(codec, read, svc, f.accountId, f.identityPoolId, Logins(f, token'), writable);
  }

  /**
   * Credentials one token obtained and cached are served to the next
   * token, of any user, while they last (provided the codec reads back what
   * it writes).
   */
  lemma NextTokenGetsCachedCreds(entries: map<(string, string), Entry>, now: int, codec: Codec, c: Credentials,
                                 svc: Cognito, f: AwsFed, token': JwtToken, writable: bool)
    requires codec.marshal(c).Some? && RoundTrips(codec, c) && now < c.expiration
    ensures ReadThroughResult(codec,
                              CacheRead(entries[(CacheNamespace, CacheKey) := Entry(codec.marshal(c).value, c.expiration)],
                                        now, CacheNamespace, CacheKey),
                              svc, f.accountId, f.identityPoolId, Logins(f, token'), writable) == Success(c)
  {
    ReadAfterWrite(entries, now, CacheNamespace, CacheKey, codec, c);
  }

  /** The two federators keep their entries in different namespaces: a write by one is never read by the other. */
  lemma SeparateNamespaces(entries: map<(string, string), Entry>, now: int, e: Entry, key: string)
    ensures CacheRead(entries[(CacheNamespace, CacheKey) := e], now, Current.CacheNamespace, key)
      == CacheRead(entries, now, Current.CacheNamespace, key)
    ensures CacheRead(entries[(Current.CacheNamespace, key) := e], now, CacheNamespace, CacheKey)
      == CacheRead(entries, now, CacheNamespace, CacheKey)
  {
    assert Current.CacheNamespace != CacheNamespace by {
      assert Current.CacheNamespace[0] != CacheNamespace[0];
    }
    ReadOtherKey(entries, now, CacheNamespace, CacheKey, e, Current.CacheNamespace, key);
    ReadOtherKey(entries, now, Current.CacheNamespace, key, e, CacheNamespace, CacheKey);
  }
}
