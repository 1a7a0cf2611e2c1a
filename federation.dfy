/**
 * What the two credential federators of envsec (envsec/pkg/awsfed/awsfed.go
 * and envsec/internal/awsfed/awsfed.go) have in common: the temporary
 * credentials, the local credential cache, the identity-pool service and
 * the read-through flow that ties them together.
 *
 * The AWS SDK, the `filecache` package and `encoding/json` are not part of
 * this model. They are stood for by oracles fixed for the duration of a
 * call: `Cognito` answers `GetId` and `GetCredentialsForIdentity` through two
 * functions and logs every request it receives; `FileCache` holds the
 * cache file as a map and says whether writes to it succeed; `Codec` is the
 * pair of JSON functions, either of which may fail.
 */
module Federation {
  import opened Wrappers

  /** A parsed JWT: only its raw text is used. */
  datatype JwtToken = JwtToken(raw: string)

  /** Temporary credentials; the expiration is an opaque timestamp. */
  datatype Credentials = Credentials(accessKeyId: string, secretKey: string, sessionToken: string, expiration: int)

  datatype FedError =
    | ServiceError(message: string)   // returned by the identity service
    | MarshalError                    // the credentials could not be serialised
    | CacheWriteError                 // the cache file could not be written

  /** One cache file entry: the serialised credentials and when they expire. */
  datatype Entry = Entry(blob: string, expiration: int)

  /** The JSON codec: serialisation may fail, and so may deserialisation of a blob. */
  datatype Codec = Codec(marshal: Credentials -> Option<string>, unmarshal: string -> Option<Credentials>)

  /** The codec reads back what it writes for `c`. */
  predicate RoundTrips(codec: Codec, c: Credentials) {
    codec.marshal(c).Some? ==> codec.unmarshal(codec.marshal(c).value) == Some(c)
  }

  // ---------------------------------------------------------------------
  // The credential cache

  /**
   * What a cache read finds under `key` of namespace `ns` at time `now`:
   * the blob of an entry that has not expired.
   */
  function CacheRead(entries: map<(string, string), Entry>, now: int, ns: string, key: string): (r: Option<string>)
    ensures r.Some? <==> (ns, key) in entries && now < entries[(ns, key)].expiration
    ensures r.Some? ==> r.value == entries[(ns, key)].blob
  {
    if (ns, key) in entries && now < entries[(ns, key)].expiration then Some(entries[(ns, key)].blob) else None
  }

  /** The credentials a cache read yields: a blob that was found and deserialises. */
  function Cached(codec: Codec, read: Option<string>): (r: Option<Credentials>)
    ensures read.None? ==> r.None?
    ensures read.Some? ==> r == codec.unmarshal(read.value)
  {
    if read.Some? then codec.unmarshal(read.value) else None
  }

  /** The cache files of all namespaces, keyed by (namespace, key). */
  class FileCache {
    var entries: map<(string, string), Entry>
    /** The clock reading during this call. */
    const now: int
    /** Whether writes to the cache file succeed. */
    const writable: bool

    constructor (entries: map<(string, string), Entry>, now: int, writable: bool)
      ensures this.entries == entries && this.now == now && this.writable == writable
    {
      this.entries := entries;
      this.now := now;
      this.writable := writable;
    }

    function Read(ns: string, key: string): Option<string>
      reads this
    {
      CacheRead(entries, now, ns, key)
    }

    /** `Get`: the blob under the key, or a miss when it is absent or expired. */
    method Get(ns: string, key: string) returns (r: Option<string>)
      ensures r.Some? <==> (ns, key) in entries && now < entries[(ns, key)].expiration
      ensures r.Some? ==> r.value == entries[(ns, key)].blob
    {
      r := CacheRead(entries, now, ns, key);
    }

    /** `SetT`: stores the blob under the key with its expiration, unless the file cannot be written. */
    method SetT(ns: string, key: string, blob: string, expiration: int) returns (err: Option<FedError>)
      modifies this
      ensures err.None? <==> writable
      ensures err.Some? ==> err.value == CacheWriteError && entries == old(entries)
      ensures err.None? ==> entries == old(entries)[(ns, key) := Entry(blob, expiration)]
    {
      if !writable {
        return Some(CacheWriteError);
      }
      entries := entries[(ns, key) := Entry(blob, expiration)];
      err := None;
    }
  }

  /**
   * An entry written with credentials the codec round-trips, and that have
   * not yet expired, is read back as those credentials.
   */
  lemma ReadAfterWrite(entries: map<(string, string), Entry>, now: int, ns: string, key: string,
                       codec: Codec, c: Credentials)
    requires codec.marshal(c).Some? && RoundTrips(codec, c)
    ensures Cached(codec, CacheRead(entries[(ns, key) := Entry(codec.marshal(c).value, c.expiration)], now, ns, key))
      == if now < c.expiration then Some(c) else None
  {
  }

  /** A write under one key leaves every other key, and every other namespace, as it was. */
  lemma ReadOtherKey(entries: map<(string, string), Entry>, now: int, ns: string, key: string, e: Entry,
                     ns': string, key': string)
    requires (ns', key') != (ns, key)
    ensures CacheRead(entries[(ns, key) := e], now, ns', key') == CacheRead(entries, now, ns', key')
  {
  }

  // ---------------------------------------------------------------------
  // The identity-pool service

  /** A request to the identity-pool service. */
  datatype Call =
    | GetIdCall(accountId: string, identityPoolId: string, logins: map<string, string>)
    | CredentialsCall(identityId: string, logins: map<string, string>)

  class Cognito {
    /** Every request received, in order. */
    var log: seq<Call>
    /** The answer to `GetId`: an identity ID or an error. */
    const getId: (string, string, map<string, string>) -> Result<string, FedError>
    /** The answer to `GetCredentialsForIdentity`. */
    const getCredentials: (string, map<string, string>) -> Result<Credentials, FedError>

    constructor (getId: (string, string, map<string, string>) -> Result<string, FedError>,
                 getCredentials: (string, map<string, string>) -> Result<Credentials, FedError>)
      ensures this.getId == getId && this.getCredentials == getCredentials && log == []
    {
      this.getId := getId;
      this.getCredentials := getCredentials;
      log := [];
    }

    method GetId(accountId: string, identityPoolId: string, logins: map<string, string>)
      returns (r: Result<string, FedError>)
      modifies this
      ensures r == getId(accountId, identityPoolId, logins)
      ensures log == old(log) + [GetIdCall(accountId, identityPoolId, logins)]
    {
      r := getId(accountId, identityPoolId, logins);
      log := log + [GetIdCall(accountId, identityPoolId, logins)];
    }

    method GetCredentialsForIdentity(identityId: string, logins: map<string, string>)
      returns (r: Result<Credentials, FedError>)
      modifies this
      ensures r == getCredentials(identityId, logins)
      ensures log == old(log) + [CredentialsCall(identityId, logins)]
    {
      r := getCredentials(identityId, logins);
      log := log + [CredentialsCall(identityId, logins)];
    }
  }

  // ---------------------------------------------------------------------
  // The exchange: GetId, then GetCredentialsForIdentity

  /**
   * The credentials the two-call exchange obtains: the error of `GetId`, or
   * the answer to the credentials request for the identity it returned.
   */
  function ExchangeResult(svc: Cognito, accountId: string, identityPoolId: string, logins: map<string, string>)
    : (r: Result<Credentials, FedError>)
    ensures svc.getId(accountId, identityPoolId, logins).Failure? ==>
      r == Failure(svc.getId(accountId, identityPoolId, logins).error)
    ensures svc.getId(accountId, identityPoolId, logins).Success? ==>
      r == svc.getCredentials(svc.getId(accountId, identityPoolId, logins).value, logins)
  {
    var id := svc.getId(accountId, identityPoolId, logins);
    if id.Failure? then Failure(id.error) else svc.getCredentials(id.value, logins)
  }

  /** The requests the exchange sends. */
  function ExchangeCalls(svc: Cognito, accountId: string, identityPoolId: string, logins: map<string, string>)
    : seq<Call>
  {
    var id := svc.getId(accountId, identityPoolId, logins);
    if id.Failure? then [GetIdCall(accountId, identityPoolId, logins)]
    else [GetIdCall(accountId, identityPoolId, logins), CredentialsCall(id.value, logins)]
  }

  /**
   * The exchange first asks for an identity with the account, pool and
   * logins; only when that succeeds does it ask for credentials, for the
   * identity it got and with the same logins.
   */
  lemma ExchangeProtocol(svc: Cognito, accountId: string, identityPoolId: string, logins: map<string, string>)
    ensures var calls := ExchangeCalls(svc, accountId, identityPoolId, logins);
      1 <= |calls| <= 2 &&
      calls[0] == GetIdCall(accountId, identityPoolId, logins) &&
      (|calls| == 2 <==> svc.getId(accountId, identityPoolId, logins).Success?) &&
      (|calls| == 2 ==> calls[1] == CredentialsCall(svc.getId(accountId, identityPoolId, logins).value, logins)) &&
      (forall i :: 0 <= i < |calls| ==> calls[i].logins == logins)
  {
  }

  /** `GetId` then `GetCredentialsForIdentity`, returning the first error. */
  method Exchange(svc: Cognito, accountId: string, identityPoolId: string, logins: map<string, string>)
    returns (r: Result<Credentials, FedError>)
    modifies svc
    ensures r == ExchangeResult(svc, accountId, identityPoolId, logins)
    ensures svc.log == old(svc.log) + ExchangeCalls(svc, accountId, identityPoolId, logins)
  {
    var id := svc.GetId(accountId, identityPoolId, logins);
    if id.Failure? {
      return Failure(id.error);
    }
    r := svc.GetCredentialsForIdentity(id.value, logins);
  }

  // ---------------------------------------------------------------------
  // Read-through

  /**
   * What a read-through federation returns: cached credentials that
   * deserialise; otherwise the exchange's error, or its credentials once
   * they are serialised and written to the cache.
   */
  function ReadThroughResult(codec: Codec, read: Option<string>, svc: Cognito, accountId: string,
                             identityPoolId: string, logins: map<string, string>, writable: bool)
    : Result<Credentials, FedError>
  {
    var hit := Cached(codec, read);
    if hit.Some? then Success(hit.value)
    else
      var x := ExchangeResult(svc, accountId, identityPoolId, logins);
      if x.Failure? then x
      else if codec.marshal(x.value).None? then Failure(MarshalError)
      else if !writable then Failure(CacheWriteError)
      else Success(x.value)
  }

  /** Whether the read-through writes the cache: a miss, then an exchange and a serialisation that succeed. */
  predicate WritesCache(codec: Codec, read: Option<string>, svc: Cognito, accountId: string,
                        identityPoolId: string, logins: map<string, string>)
  {
    Cached(codec, read).None? && ExchangeResult(svc, accountId, identityPoolId, logins).Success?
      && codec.marshal(ExchangeResult(svc, accountId, identityPoolId, logins).value).Some?
  }

  /** A cache hit that deserialises is returned as it is. */
  lemma HitServesCache(codec: Codec, read: Option<string>, svc: Cognito, accountId: string,
                       identityPoolId: string, logins: map<string, string>, writable: bool)
    requires Cached(codec, read).Some?
    ensures ReadThroughResult(codec, read, svc, accountId, identityPoolId, logins, writable)
      == Success(Cached(codec, read).value)
  {
  }

  /** On a miss, an error of either service call is returned unchanged. */
  lemma ExchangeErrorPropagates(codec: Codec, read: Option<string>, svc: Cognito, accountId: string,
                                identityPoolId: string, logins: map<string, string>, writable: bool)
    requires Cached(codec, read).None?
    requires ExchangeResult(svc, accountId, identityPoolId, logins).Failure?
    ensures ReadThroughResult(codec, read, svc, accountId, identityPoolId, logins, writable)
      == ExchangeResult(svc, accountId, identityPoolId, logins)
  {
  }

  /**
   * Credentials are returned only from the cache or from an exchange whose
   * credentials were serialised and written; a failed write is an error.
   */
  lemma ReadThroughSuccess(codec: Codec, read: Option<string>, svc: Cognito, accountId: string,
                           identityPoolId: string, logins: map<string, string>, writable: bool, c: Credentials)
    ensures ReadThroughResult(codec, read, svc, accountId, identityPoolId, logins, writable) == Success(c) <==>
      Cached(codec, read) == Some(c) ||
      (WritesCache(codec, read, svc, accountId, identityPoolId, logins) && writable
       && ExchangeResult(svc, accountId, identityPoolId, logins) == Success(c))
  {
  }

  /**
   * The read-through flow: cache lookup and deserialisation, then the
   * exchange, then serialisation and the cache write.
   */
  method ReadThrough(cache: FileCache, svc: Cognito, codec: Codec, ns: string, key: string,
                     accountId: string, identityPoolId: string, logins: map<string, string>)
    returns (r: Result<Credentials, FedError>)
    modifies cache, svc
    ensures r == ReadThroughResult(codec, old(cache.Read(ns, key)), svc, accountId, identityPoolId, logins, cache.writable)
    ensures Cached(codec, old(cache.Read(ns, key))).Some? ==> svc.log == old(svc.log)
    ensures Cached(codec, old(cache.Read(ns, key))).None? ==>
      svc.log == old(svc.log) + ExchangeCalls(svc, accountId, identityPoolId, logins)
    ensures cache.entries ==
      if WritesCache(codec, old(cache.Read(ns, key)), svc, accountId, identityPoolId, logins) && cache.writable
      then
        var c := ExchangeResult(svc, accountId, identityPoolId, logins).value;
        old(cache.entries)[(ns, key) := Entry(codec.marshal(c).value, c.expiration)]
      else old(cache.entries)
  {
    var read := cache.Get(ns, key);
    if read.Some? {
      var creds := codec.unmarshal(read.value);
      if creds.Some? {
        return Success(creds.value);
      }
    }
    var x := Exchange(svc, accountId, identityPoolId, logins);
    if x.Failure? {
      return x;
    }
    var blob := codec.marshal(x.value);
    if blob.None? {
      return Failure(MarshalError);
    }
    var err := cache.SetT(ns, key, blob.value, x.value.expiration);
    if err.Some? {
      return Failure(err.value);
    }
    r := Success(x.value);
  }
}
