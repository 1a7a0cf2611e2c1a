# envsec and typeid-go core, modelled in Dafny

This project models five files of the jetpack-io/opensource repository and
proves properties about them:

- `envsec/util.go`: where envsec keeps a variable in AWS SSM Parameter Store (module `EnvPaths`).
- `envsec/ssm_store.go`: the SSM-backed secret store, meaning the tags written
  with each parameter, the filters used to list a namespace, and the
  `SSMStore` façade with List, Get, GetAll, Set, SetAll, Delete and DeleteAll
  (module `SsmStore`).
- `envsec/pkg/awsfed/awsfed.go`: the current credential federator, which
  trades a login token for temporary AWS credentials through an AWS Cognito
  identity pool and caches them per organization (module `AwsFed`).
- `envsec/internal/awsfed/awsfed.go`: the older federator, which caches
  under one fixed key (module `AwsFedLegacy`).
- `typeid/typeid-go/base32/base32.go`: the fixed-width base32 codec of
  TypeID suffixes (module `Base32`).

Module `Federation` holds what both federators share: credentials, the
cache file and the identity-pool service, plus the read-through flow that
ties them together. Module `Wrappers` holds `Option` and `Result`.

The external services are stood in for by state and oracles:

- The remote parameter store is a class `ParameterStore`. It holds a map
  from path to value and tags. A flag says whether the service is
  reachable, and a set lists the paths whose writes it refuses.
- The identity-pool service is a class `Cognito`. It answers through two
  fixed functions and logs every request.
- The cache file is a class `FileCache` holding a map, a clock reading and
  a flag saying whether writes succeed.
- JSON and SHA-256 are function parameters.
- Environment variables (`ENVSEC_AUTH_DOMAIN`) are an optional parameter.

Four behaviours of the path code are worth knowing:

- **The environment name keeps its case in paths.** `envPath` and
  `varPath` (`envsec/util.go:27-30`, `:13-15`) use the name as given. Only
  the `env-name` tag and filter are lower-cased (`envsec/ssm_store.go:117`,
  `:140`). As a result, a listing matches variables whatever the case of
  their environment name (`SsmStore.FiltersIgnoreEnvCase`).
- **`varPath` is injective only over plain fields.** It is injective when
  every field is a plain path segment (`EnvPaths.VarPathInjective`). With
  empty fields, `path.Join` drops segments, so two different namespaces can
  share a path (`EnvPaths.VarPathCollision`).
- **The project ID appears twice in variable paths.**
  `varPath` = `projectPath` + project + env + name, and `projectPath`
  already ends in the project ID. `EnvPaths.SafeVarPath` states the path
  that results.
- **Paths can leave the project directory.** `path.Join` resolves `..`,
  so a field `..` climbs out of the project directory. For example, org
  `o`, project `""`, env `..` and name `x` give the path
  `/jetpack-data/env/x` (`EnvPaths.DotDotEnvEscapes`). A name containing
  `/` is stored below further directories and reads back as its last piece
  only. For these reasons the path lemmas below assume plain fields (empty
  or a safe segment) and a safe name (non-empty, not `.` or `..`, no `/`).

## Model

| member | source | states |
|---|---|---|
| EnvPaths.OrgPath | envsec/util.go:17-20 | the organization directory ends in '/' |
| EnvPaths.ProjectPath | envsec/util.go:22-25 | the project directory ends in '/' |
| EnvPaths.EnvPath | envsec/util.go:27-30 | the environment directory ends in '/' |
| EnvPaths.Split | envsec/util.go:33 | `strings.Split` on "/" yields at least one piece |
| EnvPaths.NonEmpty | envsec/util.go:14 | `path.Join` keeps only non-empty elements, in order |
| EnvPaths.Render | envsec/util.go:14 | a cleaned rooted path starts with '/' |
| EnvPaths.SplitJoin | envsec/util.go:33 | splitting a '/'-join of slash-free segments gives them back |
| EnvPaths.JoinSplit | envsec/util.go:33 | joining the pieces of a split gives back the string |
| EnvPaths.CleanRendered | envsec/util.go:14 | `path.Clean` leaves an already clean rooted path unchanged |
| EnvPaths.JoinPrefix | envsec/util.go:11-19 | joining the prefix with a field is the prefix segments resolved with the field's pieces |
| EnvPaths.JoinDirectoryAll | envsec/util.go:14 | joining a clean directory with further elements resolves their pieces onto it |
| EnvPaths.OrgPathSegments | envsec/util.go:17-20 | the organization directory is the rendering of its segments plus '/' |
| EnvPaths.ProjectPathSegments | envsec/util.go:22-25 | the project directory is the rendering of its (safe) segments plus '/' |
| EnvPaths.EnvPathSegments | envsec/util.go:27-30 | the environment directory is the rendering of its segments plus '/' |
| EnvPaths.VarPathSegments | envsec/util.go:13-15 | a variable path is the rendering of the project segments extended by project, env and name |
| EnvPaths.EmptyOrgCollapses | envsec/util.go:17-20 | an empty organization gives the bare prefix directory |
| EnvPaths.EmptyProjectCollapses | envsec/util.go:22-25 | an empty project gives the organization directory |
| EnvPaths.EmptyEnvCollapses | envsec/util.go:27-30 | an empty environment gives the project directory |
| EnvPaths.SafeVarPath | envsec/util.go:13-15 | with safe segments the path is prefix/org/project/project/env/name |
| EnvPaths.OrgDirInProjectDir | envsec/util.go:17-25 | with plain fields, the organization directory is a prefix of the project directory (equal to it when the project is empty) |
| EnvPaths.ProjectDirInEnvDir | envsec/util.go:22-30 | with plain fields, the project directory is a prefix of the environment directory (equal to it when the env is empty) |
| EnvPaths.ProjectDirInVarPath | envsec/util.go:13-25 | with plain fields and a safe name, every variable path lies below its project directory |
| EnvPaths.NameFromPathIsLastPiece | envsec/util.go:32-38 | the name is the slash-free suffix after the last '/'; the whole path when it has none; "" after a trailing '/' |
| EnvPaths.NameFromVarPath | envsec/util.go:13-38 | for a safe name (non-empty, not `.` or `..`, no `/`), the name read back from a variable's path is the variable's name |
| EnvPaths.RenderInjective | envsec/util.go:14 | different slash-free segment lists render to different paths |
| EnvPaths.VarPathInjective | envsec/util.go:13-15 | with safe fields, two variables share a path iff they have the same namespace and name |
| EnvPaths.VarPathCollision | envsec/util.go:13-25 | namespaces ("", p, "") and (p, "", p) give a variable the same path |
| EnvPaths.DotDotEnvEscapes | envsec/util.go:13-25 | an env name `..` puts a variable's path outside its project directory, directly under the prefix |
| SsmStore.LowerChar | envsec/ssm_store.go:140 | a lowered character is not an upper-case letter, and any other character is kept |
| SsmStore.LowerCharIsLetter | envsec/ssm_store.go:140 | a capital becomes the small letter at the same position in the alphabet "a".."z" |
| SsmStore.LowerCharSameIffCaseVariants | envsec/ssm_store.go:140 | two characters lower alike iff they are equal or the capital and small forms of one letter |
| SsmStore.LowerSameIffCaseVariants | envsec/ssm_store.go:117-140 | two strings lower alike iff they have the same length and differ at most in the case of letters |
| SsmStore.Lower | envsec/ssm_store.go:117-140 | lowering keeps the length, lowers each character as LowerChar does, leaves no upper-case letter and keeps every other character |
| SsmStore.LowerKeepsLower | envsec/ssm_store.go:140 | a string without upper-case letters is unchanged |
| SsmStore.LowerIdempotent | envsec/ssm_store.go:117-140 | lowering twice is lowering once |
| SsmStore.BuildTags | envsec/ssm_store.go:123-152 | the tags are project, org, lower-cased env and name, each only when non-empty, in that order |
| SsmStore.TagsCount | envsec/ssm_store.go:123-152 | there is exactly one tag per non-empty field |
| SsmStore.TagLookup | envsec/ssm_store.go:123-152 | a tag is present iff its value is non-empty and it is one of the four field tags |
| SsmStore.TagsIgnoreEnvCase | envsec/ssm_store.go:137-142 | namespaces whose env names differ only in case get the same tags |
| SsmStore.BuildFilters | envsec/ssm_store.go:94-122 | the filters are a recursive path filter on the project directory, then a tag filter per non-empty field with the env lower-cased |
| SsmStore.FiltersMatchTags | envsec/ssm_store.go:94-152 | after the path filter, the filters are exactly the namespace tags turned into tag filters |
| SsmStore.NamespaceFiltersAdmit | envsec/ssm_store.go:94-122 | a parameter below the directory that carries the namespace tags passes every filter |
| SsmStore.OwnParameterMatches | envsec/ssm_store.go:54-152 | with plain fields and a safe name, a parameter written by Set passes the listing filters of its namespace |
| SsmStore.FiltersIsolateNamespace | envsec/ssm_store.go:94-152 | for a fully set namespace, a parameter that passes its filters has the same org, project and env name up to case, and lies below the project directory |
| SsmStore.FiltersIgnoreEnvCase | envsec/ssm_store.go:94-122 | namespaces whose env names differ only in case get the same filters |
| SsmStore.ProjectPathIgnoresEnv | envsec/ssm_store.go:99 | the path filter does not depend on the environment |
| SsmStore.SafeNamesPathsDistinct | envsec/ssm_store.go:60 | in a namespace of safe segments, safe names never share a path |
| SsmStore.LookupAfterPut | envsec/ssm_store.go:54-69 | after writing one variable it reads back the new value, and every other safe variable reads back what it did |
| SsmStore.ParameterStore.PutError | envsec/ssm_store.go:68 | a write succeeds iff the store is reachable and does not refuse the path |
| SsmStore.ParameterStore.Found | envsec/ssm_store.go:50-52 | the variables found are exactly the requested names that have a parameter, with their stored values |
| SsmStore.ParameterStore.NewParameter | envsec/ssm_store.go:64-68 | creates or overwrites the parameter on success; changes nothing on failure |
| SsmStore.ParameterStore.GetAll | envsec/ssm_store.go:51 | the found variables, or the service error |
| SsmStore.ParameterStore.ListByTags | envsec/ssm_store.go:36 | the variables whose parameters pass the namespace's filters, or the service error |
| SsmStore.ParameterStore.DeleteAll | envsec/ssm_store.go:91 | removes exactly the named variables' paths on success; changes nothing on failure |
| SsmStore.ListedAfterSet | envsec/ssm_store.go:35-69 | with plain fields and a safe name, a variable written by Set is listed under its name with its value |
| SsmStore.Plan | envsec/ssm_store.go:71-84 | SetAll plans one write per given name |
| SsmStore.WriteStep | envsec/ssm_store.go:77-82 | one more write extends the written state by that name |
| SsmStore.FailedStep | envsec/ssm_store.go:79-81 | one more write adds its name to the failed names exactly when it fails |
| SsmStore.WrittenStateDistinct | envsec/ssm_store.go:71-84 | when paths are distinct, every successful write is in the final state with its value and tags |
| SsmStore.PlanOfDistinctPaths | envsec/ssm_store.go:60-84 | distinct names with distinct paths give a plan with distinct paths |
| SsmStore.LookupAfterSetAll | envsec/ssm_store.go:71-84 | after SetAll, every variable whose write succeeded reads back its given value |
| SsmStore.ApplyAllWritten | envsec/ssm_store.go:77-82 | applying writes in any duplicate-free order yields the declared written state |
| SsmStore.ErrorsOfFailed | envsec/ssm_store.go:79-81 | one error is collected per failed name; every failure's error is among them, and every collected error is some failure's error |
| SsmStore.SetAllOutcome | envsec/ssm_store.go:71-84 | whatever order the map is iterated in: the declared final state, no error iff no write failed, one error per failure and no other error |
| SsmStore.SSMStore.List | envsec/ssm_store.go:35-37 | the variables the namespace's filters admit, or the service error |
| SsmStore.SSMStore.Get | envsec/ssm_store.go:39-48 | the stored value, "" when the variable is absent, or the service error |
| SsmStore.SSMStore.GetAll | envsec/ssm_store.go:50-52 | the found variables, or the service error |
| SsmStore.SSMStore.Set | envsec/ssm_store.go:54-69 | writes the value with the namespace tags at the variable's path, or leaves the store unchanged and returns the error |
| SsmStore.SSMStore.SetAll | envsec/ssm_store.go:71-84 | every write that can succeed is made and nothing else changes; no error iff none failed; the errors are exactly those of the refused writes, one per refusal, in the order some walk of the map reached them |
| SsmStore.SSMStore.DeleteAll | envsec/ssm_store.go:90-92 | removes the named variables, or changes nothing and returns the service error |
| SsmStore.SSMStore.Delete | envsec/ssm_store.go:86-88 | removes the one variable, which then reads back as "" |
| Federation.CacheRead | envsec/pkg/awsfed/awsfed.go:47 | a cache read hits iff an entry is present and not expired, and yields its blob |
| Federation.Cached | envsec/pkg/awsfed/awsfed.go:46-52 | cached credentials exist only for a hit whose blob deserialises |
| Federation.FileCache.Get | envsec/pkg/awsfed/awsfed.go:47 | the blob of an unexpired entry, else a miss |
| Federation.FileCache.SetT | envsec/pkg/awsfed/awsfed.go:92-100 | stores blob and expiration under the key, or fails and changes nothing |
| Federation.ReadAfterWrite | envsec/pkg/awsfed/awsfed.go:46-100 | credentials written to the cache are read back while they have not expired |
| Federation.ReadOtherKey | envsec/pkg/awsfed/awsfed.go:92-100 | a write under one key leaves every other key and namespace unchanged |
| Federation.Cognito.GetId | envsec/pkg/awsfed/awsfed.go:67-74 | answers from the service and logs the request |
| Federation.Cognito.GetCredentialsForIdentity | envsec/pkg/awsfed/awsfed.go:79-85 | answers from the service and logs the request |
| Federation.ExchangeResult | envsec/pkg/awsfed/awsfed.go:67-88 | a GetId error is the result; otherwise the credentials answer for the identity GetId returned |
| Federation.ExchangeProtocol | envsec/pkg/awsfed/awsfed.go:67-88 | GetId comes first; the credentials request follows iff GetId succeeds, for its identity; both carry the same logins |
| Federation.Exchange | envsec/pkg/awsfed/awsfed.go:67-88 | returns the exchange result and logs exactly the exchange's requests |
| Federation.HitServesCache | envsec/pkg/awsfed/awsfed.go:46-52 | on a hit that deserialises, the cached credentials are the result |
| Federation.ExchangeErrorPropagates | envsec/pkg/awsfed/awsfed.go:73-88 | on a miss, an exchange error is the result |
| Federation.ReadThroughSuccess | envsec/pkg/awsfed/awsfed.go:42-101 | credentials are returned iff they were cached, or the exchange obtained them and they were serialised and written |
| Federation.ReadThrough | envsec/pkg/awsfed/awsfed.go:42-101 | a hit makes no request and writes nothing; a miss makes exactly the exchange's requests; the cache changes exactly when fresh credentials were serialised and the write succeeded |
| AwsFed.New | envsec/pkg/awsfed/awsfed.go:29-40 | the fixed account, pool, legacy provider and region; the provider from ENVSEC_AUTH_DOMAIN or accounts.jetpack.io |
| AwsFed.CacheKey | envsec/pkg/awsfed/awsfed.go:145-154 | every key starts with "awsfed-" |
| AwsFed.CacheKeyInjective | envsec/pkg/awsfed/awsfed.go:145-154 | two tokens share a key iff their identifiers (organization, else digest) agree |
| AwsFed.SameOrgSameKey | envsec/pkg/awsfed/awsfed.go:147-149 | tokens of the same organization share a key |
| AwsFed.OtherOrgOtherKey | envsec/pkg/awsfed/awsfed.go:147-149 | tokens of different organizations get different keys |
| AwsFed.NoOrgKeyIsDigest | envsec/pkg/awsfed/awsfed.go:150-153 | without an organization the key is "awsfed-" and the token's digest |
| AwsFed.LoginsFor | envsec/pkg/awsfed/awsfed.go:58-65 | no claims give empty logins; otherwise one entry, the raw token under the chosen provider |
| AwsFed.LoginsChooseProvider | envsec/pkg/awsfed/awsfed.go:58-65 | the legacy issuer logs in with the legacy provider, every other issuer with the current one |
| AwsFed.LegacyIssuerOfNew | envsec/pkg/awsfed/awsfed.go:29-65 | with the default settings, tokens from https://auth.jetpack.io/ log in as auth.jetpack.io |
| AwsFed.BuildLogins | envsec/pkg/awsfed/awsfed.go:58-65 | the logins map is built as the issuer dictates |
| AwsFed.AWSCreds | envsec/pkg/awsfed/awsfed.go:42-101 | the read-through result under the token's key in namespace jetpack.io/envsec; the hit, miss and write behaviour |
| AwsFed.AWSCredsFromIdToken | envsec/pkg/awsfed/awsfed.go:106-143 | the exchange with the raw token under the current provider; no cache involved |
| AwsFed.ConfigFrom | envsec/pkg/awsfed/awsfed.go:165-173 | an error propagates; credentials become the configuration with the federator's region |
| AwsFed.GenSSMConfigForUser | envsec/pkg/awsfed/awsfed.go:156-174 | no token gives the empty configuration with nothing touched; otherwise the configuration from AWSCreds, with the same requests made and the same cache effect (none on a hit; the fresh credentials written on a successful miss; none on failure) |
| AwsFed.GenSSMConfigFromIdToken | envsec/pkg/awsfed/awsfed.go:176-194 | no token gives the empty configuration with nothing touched; otherwise the configuration from AWSCredsFromIdToken, with exactly the exchange's requests made |
| AwsFed.NextRequestHits | envsec/pkg/awsfed/awsfed.go:46-154 | credentials cached for one token are served to any later token of the same organization, while unexpired, when the codec reads back what it writes |
| AwsFedLegacy.New | envsec/internal/awsfed/awsfed.go:23-33 | the fixed account, pool and region; the provider from ENVSEC_AUTH_DOMAIN or accounts.jetpack.io |
| AwsFedLegacy.Logins | envsec/internal/awsfed/awsfed.go:51 | exactly one entry: the raw token under the provider |
| AwsFedLegacy.AWSCreds | envsec/internal/awsfed/awsfed.go:35-86 | the read-through result under the fixed key "awsfed" in namespace envsec; the hit, miss and write behaviour |
| AwsFedLegacy.CachedCredsServeEveryToken | envsec/internal/awsfed/awsfed.go:14-45 | while the cache holds credentials, every token gets those same credentials |
| AwsFedLegacy.NextTokenGetsCachedCreds | envsec/internal/awsfed/awsfed.go:14-83 | credentials cached for one token are served to the next token of any user, while unexpired, when the codec reads back what it writes |
| AwsFedLegacy.SeparateNamespaces | envsec/internal/awsfed/awsfed.go:39 | the legacy and current federators never read each other's entries |
| Base32.AlphabetCodes | typeid/typeid-go/base32/base32.go:11 | the range formula for digit characters agrees with the alphabet string |
| Base32.DigitIsAlphabetEntry | typeid/typeid-go/base32/base32.go:11 | the digit of a 5-bit value is its alphabet entry |
| Base32.DigitsDistinct | typeid/typeid-go/base32/base32.go:11 | different values have different digits |
| Base32.Dec | typeid/typeid-go/base32/base32.go:51-80 | the decoding table has 256 entries |
| Base32.DecOfDigit | typeid/typeid-go/base32/base32.go:11-80 | the table maps each digit back to its value |
| Base32.DigitOfDec | typeid/typeid-go/base32/base32.go:11-80 | every valid table entry is a value whose digit is that character |
| Base32.DecAcceptsExactlyDigitChars | typeid/typeid-go/base32/base32.go:51-80 | the table has a valid entry exactly for the alphabet's characters |
| Base32.Group8Bits8 | typeid/typeid-go/base32/base32.go:14-49 | bytes to bits and back is the identity |
| Base32.Group5Bits5 | typeid/typeid-go/base32/base32.go:118-138 | 5-bit values to bits and back is the identity |
| Base32.EncodeSpec | typeid/typeid-go/base32/base32.go:14-49 | the encoding has 26 characters |
| Base32.DecodeSpec | typeid/typeid-go/base32/base32.go:82-141 | a successful decoding has 16 bytes |
| Base32.EncodeShape | typeid/typeid-go/base32/base32.go:14-49 | every encoded character is a digit, and the first is at most '7' |
| Base32.DecodeOutcomes | typeid/typeid-go/base32/base32.go:82-141 | length error iff not 26 characters; character error iff 26 with a non-digit; success otherwise |
| Base32.DecodeEncode | typeid/typeid-go/base32/base32.go:14-141 | decoding an encoding gives back the 16 bytes |
| Base32.EncodeDecode | typeid/typeid-go/base32/base32.go:14-141 | a decodable string whose first character is at most '7' is the encoding of its decoding |
| Base32.Encode | typeid/typeid-go/base32/base32.go:14-49 | the unrolled shifts produce the reference encoding |
| Base32.Assemble | typeid/typeid-go/base32/base32.go:118-138 | the unrolled shifts regroup the 26 values' bit stream, after its first two bits, into 16 bytes |
| Base32.Decode | typeid/typeid-go/base32/base32.go:82-141 | the result equals the reference decoding, including both error cases |
| Base32.OverflowingString | typeid/typeid-go/base32/base32.go:82-116 | a 26-digit string whose first value is 8 and the rest 0 |
| Base32.DecodeDropsOverflowBits | typeid/typeid-go/base32/base32.go:118-121 | "8000…0" decodes to 16 zero bytes, whose encoding is not "8000…0" |
| Base32.DecodeStrictSpec | typeid/typeid-go/base32/base32.go:82-141 | a strict decoding, when it succeeds, has 16 bytes |
| Base32.DecodeStrictExact | typeid/typeid-go/base32/base32.go:14-141 | strict decoding gives b iff the string is the encoding of b |
| Base32.DecodeStrict | typeid/typeid-go/base32/base32.go:82-141 | equals the strict reference decoding |

## Left out

- The AWS SDK calls are modelled through oracles: the SSM client behind the parameter store, and the Cognito identity client. The parameter store's own file is not part of this model, so its getAll, ListByTags, newParameter and deleteAll behave as stated in `ParameterStore`: reachable or not, writes refused per path, and the listing filters applied as AWS documents them.
- `filecache` is not part of this model. The cache reports a miss for an expired entry (`now < expiration`), and writes either succeed or fail as a whole.
- `encoding/json` and SHA-256 are function parameters. For JSON, only the round trip needed by `Federation.ReadAfterWrite` is assumed.
- Reading `ENVSEC_AUTH_DOMAIN` is an optional parameter.
- `newSSMStore` (`envsec/ssm_store.go:24-33`) builds the AWS client from a configuration. It is I/O only.
- Contexts, cancellation and `debug.Log` are not modelled.
- `errors.WithStack` and `multierror.Append` wrap errors. The model keeps the errors themselves: SetAll returns the sequence of collected errors.
- Nil credential pointers in a successful SDK answer are not modelled. Credentials are always present when the service succeeds.
- `SsmStore.SSMStore.SetAll`: Go's map iteration order is unspecified. The loop picks any remaining name, and the contract states the outcome for every order. The collected errors are stated as those of some walk of the map, and the walk itself is left open.
- `SsmStore.SSMStore.List`: the listing is a set. The order and duplicates of the remote store's answer are not modelled.
- `SsmStore.Lower`: `strings.ToLower` is modelled on ASCII letters only. Unicode case mapping is not modelled.
- `SsmStore.LookupAfterSetAll`: read-back is proved for names whose paths are distinct (`SsmStore.SafeNamesPathsDistinct` gives this for safe segments). With colliding paths the last write in iteration order wins, and that order is unspecified.
- `AwsFed.CacheKey`: the digest is an uninterpreted function of the raw token. Distinct tokens without an organization get distinct keys only when the digest separates them.
- `Base32.Encode` and `Base32.Decode` take sequences whose length the types leave open. `Encode` requires 16 bytes, as Go's `[16]byte` parameter guarantees.

## Findings

| source | as written | input that shows it | evidently intended | confidence | as-written member | corrected member |
|---|---|---|---|---|---|---|
| typeid/typeid-go/base32/base32.go:118-121 | Decode accepts any 26 alphabet characters and shifts the first value left by 5 into a byte, so its top two bits are lost | "8" followed by 25 "0": decodes to 16 zero bytes, whose encoding is 26 "0" | reject a first character above '7' (the ULID decoder this is based on does), so that decoding succeeds exactly on encodings | not executed | Base32.DecodeDropsOverflowBits | Base32.DecodeStrictExact |
