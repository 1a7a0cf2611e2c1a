/**
 * The SSM-backed secret store of envsec (envsec/ssm_store.go): the tags
 * written with every parameter, the filters used to list a namespace, and
 * the `SSMStore` façade over the remote parameter store.
 *
 * The remote store itself is not part of this model; `ParameterStore`
 * stands for it: a map from parameter path to stored value and tags, and a
 * fixed failure oracle (an unreachable service refuses every request, and
 * writes to the paths in `rejected` are refused).
 */
module SsmStore {
  import opened Wrappers
  import opened EnvPaths

  datatype Tag = Tag(key: string, value: string)

  /** A parameter filter: a key ("Path" or "tag:<key>"), an option, and the accepted values. */
  datatype Filter = Filter(key: string, option: Option<string>, values: seq<string>)

  datatype EnvVar = EnvVar(name: string, value: string)

  /** What the remote store keeps under a path. */
  datatype Stored = Stored(value: string, tags: seq<Tag>)

  datatype StoreError = Unreachable | Rejected(path: string)

  const ProjectIdKey: string := "project-id"
  const OrgIdKey: string := "org-id"
  const EnvNameKey: string := "env-name"
  const NameKey: string := "name"

  // ---------------------------------------------------------------------
  // strings.ToLower, on ASCII letters

  predicate IsUpper(c: char) {
    'A' <= c <= 'Z'
  }

  /** The lower-case ASCII letters, in alphabetical order. */
  const LowerLetters: string := "abcdefghijklmnopqrstuvwxyz"

  /** ASCII lower-casing of one character: the n-th capital becomes the n-th small letter. */
  function LowerChar(c: char): (r: char)
    ensures !IsUpper(r)
    ensures !IsUpper(c) ==> r == c
  {
    if IsUpper(c) then (c as int + 32) as char else c
  }

  /** A capital lowers to the small letter at the same place in the alphabet. */
  lemma LowerCharIsLetter(c: char)
    requires IsUpper(c)
    ensures LowerChar(c) == LowerLetters[c as int - 'A' as int]
  {
  }

  /** ASCII lower-casing: upper-case letters are lowered, every other character is kept. */
  function Lower(s: string): (r: string)
    ensures |r| == |s|
    ensures forall i :: 0 <= i < |r| ==> !IsUpper(r[i])
    ensures forall i :: 0 <= i < |s| && !IsUpper(s[i]) ==> r[i] == s[i]
    ensures forall i :: 0 <= i < |s| ==> r[i] == LowerChar(s[i])
  {
    if s == [] then [] else [LowerChar(s[0])] + Lower(s[1..])
  }

  /** `a` and `b` are the same character, or the capital and small forms of one letter. */
  predicate CaseVariants(a: char, b: char) {
    a == b || (IsUpper(a) && b as int == a as int + 32) || (IsUpper(b) && a as int == b as int + 32)
  }

  /** Two characters lower to the same character exactly when they are case variants. */
  lemma LowerCharSameIffCaseVariants(a: char, b: char)
    ensures LowerChar(a) == LowerChar(b) <==> CaseVariants(a, b)
  {
    if IsUpper(a) {
      assert LowerChar(a) as int == a as int + 32;
    }
    if IsUpper(b) {
      assert LowerChar(b) as int == b as int + 32;
    }
  }

  /** `s` and `t` differ at most in the case of their letters. */
  predicate SameUpToCase(s: string, t: string) {
    |s| == |t| && forall i :: 0 <= i < |s| ==> CaseVariants(s[i], t[i])
  }

  /** Two strings lower to the same string exactly when they differ at most in the case of their letters. */
  lemma LowerSameIffCaseVariants(s: string, t: string)
    ensures Lower(s) == Lower(t) <==> SameUpToCase(s, t)
  {
    if SameUpToCase(s, t) {
      CaseVariantsLowerSame(s, t);
    }
    if Lower(s) == Lower(t) {
      LowerSameCaseVariants(s, t);
    }
  }

  /** Case variants lower to the same string. */
  lemma CaseVariantsLowerSame(s: string, t: string)
    requires SameUpToCase(s, t)
    ensures Lower(s) == Lower(t)
  {
    var ls, lt := Lower(s), Lower(t);
    assert |ls| == |lt|;
    forall i | 0 <= i < |ls|
      ensures ls[i] == lt[i]
    {
      LowerCharSameIffCaseVariants(s[i], t[i]);
    }
  }

  /** Strings that lower to the same string are case variants. */
  lemma LowerSameCaseVariants(s: string, t: string)
    requires Lower(s) == Lower(t)
    ensures SameUpToCase(s, t)
  {
    var ls, lt := Lower(s), Lower(t);
    forall i | 0 <= i < |s|
      ensures CaseVariants(s[i], t[i])
    {
      assert ls[i] == lt[i];
      LowerCharSameIffCaseVariants(s[i], t[i]);
    }
  }

  /** A string without upper-case letters is its own lower-case form. */
  lemma {:induction false} LowerKeepsLower(s: string)
    requires forall i :: 0 <= i < |s| ==> !IsUpper(s[i])
    ensures Lower(s) == s
  {
    if s != [] {
      LowerKeepsLower(s[1..]);
    }
  }

  /** Lower-casing is idempotent. */
  lemma LowerIdempotent(s: string)
    ensures Lower(Lower(s)) == Lower(s)
  {
    LowerKeepsLower(Lower(s));
  }

  // ---------------------------------------------------------------------
  // Tags

  /** The tag `key: value`, or none when the value is empty. */
  function OptionalTag(key: string, value: string): seq<Tag> {
    if value == "" then [] else [Tag(key, value)]
  }

  /** The namespace tags of a parameter: project, org and lower-cased env, each only when set. */
  function NamespaceTags(e: EnvId): seq<Tag> {
    OptionalTag(ProjectIdKey, e.projectId) + OptionalTag(OrgIdKey, e.orgId)
      + (if e.envName == "" then [] else [Tag(EnvNameKey, Lower(e.envName))])
  }

  /** The tags `buildTags` attaches to a variable: the namespace tags, then the name when set. */
  function TagsSpec(e: EnvId, varName: string): seq<Tag> {
    NamespaceTags(e) + OptionalTag(NameKey, varName)
  }

  /** `buildTags`: one conditional append per field. */
  method BuildTags(e: EnvId, varName: string) returns (tags: seq<Tag>)
    ensures tags == TagsSpec(e, varName)
  {
    tags := [];
    if e.projectId != "" {
      tags := tags + [Tag(ProjectIdKey, e.projectId)];
    }
    if e.orgId != "" {
      tags := tags + [Tag(OrgIdKey, e.orgId)];
    }
    if e.envName != "" {
      tags := tags + [Tag(EnvNameKey, Lower(e.envName))];
    }
    if varName != "" {
      tags := tags + [Tag(NameKey, varName)];
    }
  }

  function Count(b: bool): nat {
    if b then 1 else 0
  }

  /** There is one tag per non-empty field. */
  lemma TagsCount(e: EnvId, varName: string)
    ensures |TagsSpec(e, varName)| ==
      Count(e.projectId != "") + Count(e.orgId != "") + Count(e.envName != "") + Count(varName != "")
  {
  }

  /** A tag is present exactly when its field is set, and it carries that field's value. */
  lemma TagLookup(e: EnvId, varName: string, t: Tag)
    ensures t in TagsSpec(e, varName) <==>
      t.value != "" &&
      ((t.key == ProjectIdKey && t.value == e.projectId) ||
       (t.key == OrgIdKey && t.value == e.orgId) ||
       (t.key == EnvNameKey && t.value == Lower(e.envName)) ||
       (t.key == NameKey && t.value == varName))
  {
    assert |Lower(e.envName)| == |e.envName|;
  }

  /** Environments whose names differ only in case get the same tags. */
  lemma TagsIgnoreEnvCase(e: EnvId, e': EnvId, varName: string)
    requires e'.orgId == e.orgId && e'.projectId == e.projectId
    requires Lower(e'.envName) == Lower(e.envName)
    ensures TagsSpec(e', varName) == TagsSpec(e, varName)
  {
    assert |Lower(e.envName)| == |e.envName|;
    assert |Lower(e'.envName)| == |e'.envName|;
  }

  // ---------------------------------------------------------------------
  // Filters

  const PathKey: string := "Path"
  const Recursive: string := "Recursive"
  const TagPrefix: string := "tag:"

  function TagFilter(t: Tag): Filter {
    Filter(TagPrefix + t.key, None, [t.value])
  }

  function TagFilters(ts: seq<Tag>): (r: seq<Filter>)
    ensures |r| == |ts|
  {
    seq(|ts|, i requires 0 <= i < |ts| => TagFilter(ts[i]))
  }

  /** The filter `tag:key = value`, or none when the value is empty. */
  function OptionalFilter(key: string, value: string): seq<Filter> {
    if value == "" then [] else [Filter(TagPrefix + key, None, [value])]
  }

  /**
   * The filters for listing below the directory `dir`: everything below
   * it, then a tag filter per set field of project, org and (lower-cased)
   * env.
   */
  function FiltersBelow(dir: string, e: EnvId): seq<Filter> {
    [Filter(PathKey, Some(Recursive), [dir])]
      + OptionalFilter(ProjectIdKey, e.projectId) + OptionalFilter(OrgIdKey, e.orgId)
      + (if e.envName == "" then [] else [Filter(TagPrefix + EnvNameKey, None, [Lower(e.envName)])])
  }

  /** The filters `buildFilters` queries a namespace with: those below its project directory. */
  function FiltersSpec(e: EnvId): seq<Filter> {
    FiltersBelow(ProjectPath(e), e)
  }

  /** `buildFilters`: the path filter, then one conditional append per namespace field. */
  method BuildFilters(e: EnvId) returns (filters: seq<Filter>)
    ensures filters == FiltersSpec(e)
  {
    var dir := ProjectPath(e);
    filters := [Filter(PathKey, Some(Recursive), [dir])];
    if e.projectId != "" {
      filters := filters + [Filter(TagPrefix + ProjectIdKey, None, [e.projectId])];
    }
    assert filters == [Filter(PathKey, Some(Recursive), [dir])] + OptionalFilter(ProjectIdKey, e.projectId);
    if e.orgId != "" {
      filters := filters + [Filter(TagPrefix + OrgIdKey, None, [e.orgId])];
    }
    assert filters == [Filter(PathKey, Some(Recursive), [dir])] + OptionalFilter(ProjectIdKey, e.projectId)
      + OptionalFilter(OrgIdKey, e.orgId);
    if e.envName != "" {
      filters := filters + [Filter(TagPrefix + EnvNameKey, None, [Lower(e.envName)])];
    }
  }

  lemma TagFiltersAppend(a: seq<Tag>, b: seq<Tag>)
    ensures TagFilters(a + b) == TagFilters(a) + TagFilters(b)
  {
  }

  /**
   * The filters are one recursive path filter on the project directory
   * followed by one tag filter per namespace tag, on the same key and value.
   */
  lemma FiltersMatchTags(dir: string, e: EnvId)
    ensures FiltersBelow(dir, e)[0] == Filter(PathKey, Some(Recursive), [dir])
    ensures FiltersBelow(dir, e)[1..] == TagFilters(NamespaceTags(e))
  {
    var env := if e.envName == "" then [] else [Tag(EnvNameKey, Lower(e.envName))];
    TagFiltersAppend(OptionalTag(ProjectIdKey, e.projectId), OptionalTag(OrgIdKey, e.orgId));
    TagFiltersAppend(OptionalTag(ProjectIdKey, e.projectId) + OptionalTag(OrgIdKey, e.orgId), env);
  }

  /**
   * How the remote store reads a filter: a recursive "Path" filter admits
   * every parameter below one of its values, a one-level one only direct
   * children; a "tag:<key>" filter admits parameters tagged <key> with one
   * of its values.
   */
  predicate Admits(f: Filter, id: string, tags: seq<Tag>) {
    if f.key == PathKey then
      exists v :: v in f.values && v <= id && (f.option == Some(Recursive) || '/' !in id[|v|..])
    else if |f.key| > |TagPrefix| && f.key[..|TagPrefix|] == TagPrefix then
      exists t :: t in tags && t.key == f.key[|TagPrefix|..] && t.value in f.values
    else false
  }

  predicate Matches(id: string, tags: seq<Tag>, filters: seq<Filter>) {
    forall i :: 0 <= i < |filters| ==> Admits(filters[i], id, tags)
  }

  lemma TagFilterAdmits(t: Tag, id: string, tags: seq<Tag>)
    requires t.key != "" && t in tags
    ensures Admits(TagFilter(t), id, tags)
  {
    var f := TagFilter(t);
    assert f.key[..|TagPrefix|] == TagPrefix;
    assert f.key[|TagPrefix|..] == t.key;
  }

  /**
   * A parameter below the project directory that carries every namespace
   * tag is admitted by the namespace's filters.
   */
  lemma NamespaceFiltersAdmit(dir: string, e: EnvId, id: string, tags: seq<Tag>)
    requires dir <= id
    requires forall t :: t in NamespaceTags(e) ==> t in tags
    ensures Matches(id, tags, FiltersBelow(dir, e))
  {
    var fs := FiltersBelow(dir, e);
    var ns := NamespaceTags(e);
    FiltersMatchTags(dir, e);
    assert Admits(fs[0], id, tags) by {
      assert dir in fs[0].values;
    }
    forall i | 1 <= i < |fs|
      ensures Admits(fs[i], id, tags)
    {
      var t := ns[i - 1];
      assert fs[i] == fs[1..][i - 1] == TagFilter(t);
      assert t in ns;
      assert t.key != "";
      TagFilterAdmits(t, id, tags);
    }
  }

  /** A variable stored by `Set` is admitted by the filters of its own namespace. */
  lemma OwnParameterMatches(e: EnvId, varName: string)
    requires IsPlainField(e.orgId) && IsPlainField(e.projectId) && IsPlainField(e.envName)
    requires IsSafeSegment(varName)
    ensures Matches(VarPath(e, varName), TagsSpec(e, varName), FiltersSpec(e))
  {
    ProjectDirInVarPath(e, varName);
    NamespaceFiltersAdmit(ProjectPath(e), e, VarPath(e, varName), TagsSpec(e, varName));
  }

  lemma TagFilterAdmitsOnly(t: Tag, id: string, tags: seq<Tag>)
    requires t.key != "" && Admits(TagFilter(t), id, tags)
    ensures Tag(t.key, t.value) in tags
  {
    var f := TagFilter(t);
    assert f.key[|TagPrefix|..] == t.key;
    var u :| u in tags && u.key == t.key && u.value in f.values;
    assert u == t;
  }

  /**
   * With all three namespace fields set, the filters below `dir` admit
   * only variables of a namespace with the same org and project IDs and an
   * env name equal up to case, stored below `dir`.
   */
  lemma FiltersBelowIsolate(dir: string, e: EnvId, id: string, e': EnvId, varName: string)
    requires e.orgId != "" && e.projectId != "" && e.envName != ""
    requires Matches(id, TagsSpec(e', varName), FiltersBelow(dir, e))
    ensures e'.projectId == e.projectId && e'.orgId == e.orgId
    ensures Lower(e'.envName) == Lower(e.envName)
    ensures dir <= id
  {
    var tags := TagsSpec(e', varName);
    var fs := FiltersBelow(dir, e);
    var p := Tag(ProjectIdKey, e.projectId);
    var o := Tag(OrgIdKey, e.orgId);
    var v := Tag(EnvNameKey, Lower(e.envName));
    assert |Lower(e.envName)| == |e.envName|;
    assert fs == [Filter(PathKey, Some(Recursive), [dir]), TagFilter(p), TagFilter(o), TagFilter(v)];
    assert Admits(fs[1], id, tags) && Admits(fs[2], id, tags) && Admits(fs[3], id, tags);
    TagFilterAdmitsOnly(p, id, tags);
    TagFilterAdmitsOnly(o, id, tags);
    TagFilterAdmitsOnly(v, id, tags);
    TagLookup(e', varName, p);
    TagLookup(e', varName, o);
    TagLookup(e', varName, v);
    assert Admits(fs[0], id, tags);
  }

  /**
   * The filters of a namespace with all three fields set admit only
   * variables of a namespace with the same org and project IDs and an env
   * name equal up to case, stored below the project directory.
   */
  lemma FiltersIsolateNamespace(e: EnvId, id: string, e': EnvId, varName: string)
    requires e.orgId != "" && e.projectId != "" && e.envName != ""
    requires Matches(id, TagsSpec(e', varName), FiltersSpec(e))
    ensures e'.projectId == e.projectId && e'.orgId == e.orgId
    ensures Lower(e'.envName) == Lower(e.envName)
    ensures ProjectPath(e) <= id
  {
    FiltersBelowIsolate(ProjectPath(e), e, id, e', varName);
  }

  /** The project directory does not depend on the env name. */
  lemma ProjectPathIgnoresEnv(e: EnvId, e': EnvId)
    requires e'.orgId == e.orgId && e'.projectId == e.projectId
    ensures ProjectPath(e') == ProjectPath(e)
  {
    assert OrgPath(e') == OrgPath(e);
  }

  /**
   * Environments whose names differ only in case are queried with the same
   * filters, so listing one also lists the other's variables.
   */
  lemma FiltersIgnoreEnvCase(e: EnvId, e': EnvId)
    requires e'.orgId == e.orgId && e'.projectId == e.projectId
    requires Lower(e'.envName) == Lower(e.envName)
    ensures FiltersSpec(e') == FiltersSpec(e)
  {
    ProjectPathIgnoresEnv(e, e');
  }

  // ---------------------------------------------------------------------
  // The remote parameter store

  /** Distinct names of the set are stored at distinct paths of the namespace. */
  predicate PathsDistinct(e: EnvId, names: set<string>) {
    forall n, m :: n in names && m in names && VarPath(e, n) == VarPath(e, m) ==> n == m
  }

  /** In a namespace of safe segments, safe names never share a path. */
  lemma SafeNamesPathsDistinct(e: EnvId, names: set<string>)
    requires IsSafeSegment(e.orgId) && IsSafeSegment(e.projectId) && IsSafeSegment(e.envName)
    requires forall n :: n in names ==> IsSafeSegment(n)
    ensures PathsDistinct(e, names)
  {
    forall n, m | n in names && m in names && VarPath(e, n) == VarPath(e, m)
      ensures n == m
    {
      VarPathInjective(e, n, e, m);
    }
  }

  /** The value `params` holds for a variable, or "" when it holds none. */
  function LookupIn(params: map<string, Stored>, e: EnvId, name: string): string {
    if VarPath(e, name) in params then params[VarPath(e, name)].value else ""
  }

  /**
   * Writing one variable of a namespace of safe segments makes it read back
   * the written value and leaves every other such variable as it was.
   */
  lemma LookupAfterPut(params: map<string, Stored>, e: EnvId, name: string, stored: Stored, e': EnvId, name': string)
    requires IsSafeSegment(e.orgId) && IsSafeSegment(e.projectId) && IsSafeSegment(e.envName) && IsSafeSegment(name)
    requires IsSafeSegment(e'.orgId) && IsSafeSegment(e'.projectId) && IsSafeSegment(e'.envName) && IsSafeSegment(name')
    ensures LookupIn(params[VarPath(e, name) := stored], e', name') ==
      if e' == e && name' == name then stored.value else LookupIn(params, e', name')
  {
    VarPathInjective(e, name, e', name');
  }

  /** Stands for the remote parameter store: its parameters and its failure oracle. */
  class ParameterStore {
    /** When false, every request fails. */
    const reachable: bool
    /** Paths whose writes the store refuses. */
    const rejected: set<string>
    var params: map<string, Stored>

    constructor (reachable: bool, rejected: set<string>, params: map<string, Stored>)
      ensures this.reachable == reachable && this.rejected == rejected && this.params == params
    {
      this.reachable := reachable;
      this.rejected := rejected;
      this.params := params;
    }

    /** The error a write to `id` meets, if any. */
    function PutError(id: string): (r: Option<StoreError>)
      ensures r.None? <==> reachable && id !in rejected
    {
      if !reachable then Some(Unreachable)
      else if id in rejected then Some(Rejected(id))
      else None
    }

    /** The value stored for a variable, or "" when there is none. */
    function Lookup(e: EnvId, name: string): string
      reads this
    {
      LookupIn(params, e, name)
    }

    /** The requested variables that are stored, in the order requested. */
    function Found(e: EnvId, names: seq<string>): (r: seq<EnvVar>)
      reads this
      ensures forall v :: v in r ==>
        v.name in names && VarPath(e, v.name) in params && v.value == params[VarPath(e, v.name)].value
      ensures forall n :: n in names && VarPath(e, n) in params ==>
        EnvVar(n, params[VarPath(e, n)].value) in r
    {
      if names == [] then []
      else
        var rest := Found(e, names[1..]);
        if VarPath(e, names[0]) in params then [EnvVar(names[0], params[VarPath(e, names[0])].value)] + rest
        else rest
    }

    /** The variables whose parameters the namespace's filters admit, named after their last path piece. */
    function Listed(e: EnvId): set<EnvVar>
      reads this
    {
      set id | id in params && Matches(id, params[id].tags, FiltersSpec(e)) ::
        EnvVar(NameFromPath(id), params[id].value)
    }

    /** Creates or overwrites the parameter `id`. */
    method NewParameter(id: string, tags: seq<Tag>, value: string) returns (err: Option<StoreError>)
      modifies this
      ensures err == PutError(id)
      ensures err.None? ==> params == old(params)[id := Stored(value, tags)]
      ensures err.Some? ==> params == old(params)
    {
      err := PutError(id);
      if err.None? {
        params := params[id := Stored(value, tags)];
      }
    }

    method GetAll(e: EnvId, names: seq<string>) returns (r: Result<seq<EnvVar>, StoreError>)
      ensures r == if reachable then Success(Found(e, names)) else Failure(Unreachable)
    {
      if !reachable {
        return Failure(Unreachable);
      }
      r := Success(Found(e, names));
    }

    method ListByTags(e: EnvId) returns (r: Result<set<EnvVar>, StoreError>)
      ensures r == if reachable then Success(Listed(e)) else Failure(Unreachable)
    {
      if !reachable {
        return Failure(Unreachable);
      }
      r := Success(Listed(e));
    }

    /** Deletes the named variables; names that are not stored are no error. */
    method DeleteAll(e: EnvId, names: seq<string>) returns (err: Option<StoreError>)
      modifies this
      ensures err == if reachable then None else Some(Unreachable)
      ensures err.None? ==> params == old(params) - (set n | n in names :: VarPath(e, n))
      ensures err.Some? ==> params == old(params)
    {
      if !reachable {
        return Some(Unreachable);
      }
      params := params - (set n | n in names :: VarPath(e, n));
      err := None;
    }
  }

  /** A variable written by `Set` is listed under its own name in its own namespace. */
  lemma ListedAfterSet(s: ParameterStore, e: EnvId, varName: string, value: string)
    requires IsPlainField(e.orgId) && IsPlainField(e.projectId) && IsPlainField(e.envName)
    requires IsSafeSegment(varName)
    requires VarPath(e, varName) in s.params
    requires s.params[VarPath(e, varName)] == Stored(value, TagsSpec(e, varName))
    ensures EnvVar(varName, value) in s.Listed(e)
  {
    var id := VarPath(e, varName);
    OwnParameterMatches(e, varName);
    NameFromVarPath(e, varName);
    assert EnvVar(NameFromPath(id), s.params[id].value) == EnvVar(varName, value);
  }

  // ---------------------------------------------------------------------
  // Writing several variables

  /** One intended write: a path and what to store there. */
  datatype Write = Write(path: string, stored: Stored)

  /** The writes `SetAll` intends: each entry at its variable path, with its tags. */
  function Plan(e: EnvId, values: map<string, string>): (plan: map<string, Write>)
    ensures plan.Keys == values.Keys
  {
    map n | n in values :: Write(VarPath(e, n), Stored(values[n], TagsSpec(e, n)))
  }

  /** The names among `names` whose planned write fails. */
  function FailedNames(s: ParameterStore, plan: map<string, Write>, names: set<string>): set<string> {
    set n | n in names && n in plan && s.PutError(plan[n].path).Some?
  }

  /** The paths of the names among `names` whose planned write succeeds. */
  function WrittenPaths(s: ParameterStore, plan: map<string, Write>, names: set<string>): set<string> {
    set n | n in names && n in plan && s.PutError(plan[n].path).None? :: plan[n].path
  }

  /**
   * `params` is `params0` after carrying out the planned writes of the
   * names in `done`, in some order: exactly the successfully written paths
   * are added, every other parameter is untouched, and each written path
   * holds what one of the names planned there stores.
   */
  ghost predicate WrittenState(s: ParameterStore, plan: map<string, Write>,
                               params0: map<string, Stored>, params: map<string, Stored>, done: set<string>)
  {
    (forall p :: p in params <==> p in params0 || p in WrittenPaths(s, plan, done)) &&
    (forall p :: p in params0 && p !in WrittenPaths(s, plan, done) ==> p in params && params[p] == params0[p]) &&
    (forall p :: p in WrittenPaths(s, plan, done) ==>
       exists n :: n in done && n in plan && plan[n].path == p && p in params && params[p] == plan[n].stored)
  }

  /** Carrying out one more planned write extends the written state by that name. */
  lemma WriteStep(s: ParameterStore, plan: map<string, Write>, params0: map<string, Stored>,
                  params: map<string, Stored>, done: set<string>, name: string, params': map<string, Stored>)
    requires name in plan && name !in done
    requires WrittenState(s, plan, params0, params, done)
    requires params' == if s.PutError(plan[name].path).None?
      then params[plan[name].path := plan[name].stored] else params
    ensures WrittenState(s, plan, params0, params', done + {name})
  {
    var q := plan[name].path;
    var w := WrittenPaths(s, plan, done);
    var w' := WrittenPaths(s, plan, done + {name});
    if s.PutError(q).None? {
      assert w' == w + {q};
      forall p | p in w'
        ensures exists n :: n in done + {name} && n in plan && plan[n].path == p && p in params' && params'[p] == plan[n].stored
      {
        if p == q {
          assert name in done + {name};
        } else {
          var n :| n in done && n in plan && plan[n].path == p && p in params && params[p] == plan[n].stored;
          assert n in done + {name};
        }
      }
    } else {
      assert w' == w;
      forall p | p in w'
        ensures exists n :: n in done + {name} && n in plan && plan[n].path == p && p in params' && params'[p] == plan[n].stored
      {
        var n :| n in done && n in plan && plan[n].path == p && p in params && params[p] == plan[n].stored;
        assert n in done + {name};
      }
    }
  }

  /** One more planned write adds its name to the failed ones exactly when the store refuses it. */
  lemma FailedStep(s: ParameterStore, plan: map<string, Write>, done: set<string>, name: string)
    requires name in plan
    ensures FailedNames(s, plan, done + {name}) ==
      FailedNames(s, plan, done) + (if s.PutError(plan[name].path).Some? then {name} else {})
  {
  }

  /** Distinct names of the plan write to distinct paths. */
  predicate PlanDistinct(plan: map<string, Write>) {
    forall n, m :: n in plan && m in plan && plan[n].path == plan[m].path ==> n == m
  }

  /** When the planned paths are distinct, each successfully written name holds its own value. */
  lemma WrittenStateDistinct(s: ParameterStore, plan: map<string, Write>,
                             params0: map<string, Stored>, params: map<string, Stored>)
    requires WrittenState(s, plan, params0, params, plan.Keys)
    requires PlanDistinct(plan)
    ensures forall n :: n in plan && s.PutError(plan[n].path).None? ==>
      plan[n].path in params && params[plan[n].path] == plan[n].stored
  {
    forall n | n in plan && s.PutError(plan[n].path).None?
      ensures plan[n].path in params && params[plan[n].path] == plan[n].stored
    {
      var p := plan[n].path;
      assert p in WrittenPaths(s, plan, plan.Keys);
      var m :| m in plan.Keys && m in plan && plan[m].path == p && p in params && params[p] == plan[m].stored;
    }
  }

  /** With distinct variable paths, the plan's paths are distinct. */
  lemma PlanOfDistinctPaths(e: EnvId, values: map<string, string>)
    requires PathsDistinct(e, values.Keys)
    ensures PlanDistinct(Plan(e, values))
  {
  }

  /** After all writes of distinct paths, each successfully written variable reads back its value. */
  lemma LookupAfterSetAll(s: ParameterStore, e: EnvId, values: map<string, string>, params0: map<string, Stored>)
    requires WrittenState(s, Plan(e, values), params0, s.params, values.Keys)
    requires PathsDistinct(e, values.Keys)
    ensures forall n :: n in values && s.PutError(VarPath(e, n)).None? ==> s.Lookup(e, n) == values[n]
  {
    var plan := Plan(e, values);
    PlanOfDistinctPaths(e, values);
    WrittenStateDistinct(s, plan, params0, s.params);
    forall n | n in values && s.PutError(VarPath(e, n)).None?
      ensures s.Lookup(e, n) == values[n]
    {
      assert plan[n].path == VarPath(e, n);
    }
  }

  /** One planned write carried out, or refused by the store. */
  function Apply(s: ParameterStore, plan: map<string, Write>, params: map<string, Stored>, name: string): map<string, Stored>
  {
    if name in plan && s.PutError(plan[name].path).None? then params[plan[name].path := plan[name].stored] else params
  }

  /** The planned writes of the names of `order` carried out one after the other. */
  function ApplyAll(s: ParameterStore, plan: map<string, Write>, params0: map<string, Stored>, order: seq<string>): map<string, Stored>
  {
    if order == [] then params0
    else Apply(s, plan, ApplyAll(s, plan, params0, order[..|order| - 1]), order[|order| - 1])
  }

  /** The errors of the refused writes of the names of `order`, in order. */
  function ErrorsOf(s: ParameterStore, plan: map<string, Write>, order: seq<string>): seq<StoreError>
  {
    if order == [] then []
    else
      var last := order[|order| - 1];
      ErrorsOf(s, plan, order[..|order| - 1]) + ErrorOf(s, plan, last)
  }

  /** The error of one planned write, if the store refuses it. */
  function ErrorOf(s: ParameterStore, plan: map<string, Write>, name: string): seq<StoreError>
  {
    if name in plan && s.PutError(plan[name].path).Some? then [s.PutError(plan[name].path).value] else []
  }

  /** One more write extends the written parameters and the errors by that write's outcome. */
  lemma ApplyAllSnoc(s: ParameterStore, plan: map<string, Write>, params0: map<string, Stored>, order: seq<string>, name: string)
    ensures ApplyAll(s, plan, params0, order + [name]) == Apply(s, plan, ApplyAll(s, plan, params0, order), name)
    ensures ErrorsOf(s, plan, order + [name]) == ErrorsOf(s, plan, order) + ErrorOf(s, plan, name)
  {
    assert (order + [name])[..|order|] == order;
  }

  /** No name occurs twice in `order`. */
  predicate Distinct(order: seq<string>) {
    forall i, j :: 0 <= i < j < |order| ==> order[i] != order[j]
  }

  /** The names of a sequence, as a set. */
  function Names(order: seq<string>): (r: set<string>)
    ensures forall n :: n in r <==> n in order
  {
    set n | n in order
  }

  /** A sequence of distinct names, split at its last name. */
  lemma SnocNames(order: seq<string>)
    requires order != [] && Distinct(order)
    ensures Distinct(order[..|order| - 1])
    ensures Names(order) == Names(order[..|order| - 1]) + {order[|order| - 1]}
    ensures order[|order| - 1] !in order[..|order| - 1]
  {
    var front := order[..|order| - 1];
    assert order == front + [order[|order| - 1]];
    forall i | 0 <= i < |front|
      ensures front[i] != order[|order| - 1]
    {
      assert front[i] == order[i];
    }
  }

  /**
   * Carrying out the planned writes of distinct names in any order gives
   * the written state of those names.
   */
  lemma {:induction false} ApplyAllWritten(s: ParameterStore, plan: map<string, Write>, params0: map<string, Stored>, order: seq<string>)
    requires forall n :: n in order ==> n in plan
    requires Distinct(order)
    ensures WrittenState(s, plan, params0, ApplyAll(s, plan, params0, order), Names(order))
  {
    if order == [] {
      assert Names(order) == {};
      assert WrittenPaths(s, plan, {}) == {};
    } else {
      var front := order[..|order| - 1];
      var last := order[|order| - 1];
      SnocNames(order);
      ApplyAllWritten(s, plan, params0, front);
      WriteStep(s, plan, params0, ApplyAll(s, plan, params0, front), Names(front), last, ApplyAll(s, plan, params0, order));
    }
  }

  /** Distinct names, written in any order, give one error per refused write, and each refusal's error. */
  lemma {:induction false} ErrorsOfFailed(s: ParameterStore, plan: map<string, Write>, order: seq<string>)
    requires forall n :: n in order ==> n in plan
    requires Distinct(order)
    ensures |ErrorsOf(s, plan, order)| == |FailedNames(s, plan, Names(order))|
    ensures forall n :: n in FailedNames(s, plan, Names(order)) ==>
      s.PutError(plan[n].path).value in ErrorsOf(s, plan, order)
    ensures forall x :: x in ErrorsOf(s, plan, order) ==>
      exists n :: n in FailedNames(s, plan, Names(order)) && s.PutError(plan[n].path).value == x
  {
    if order == [] {
      assert Names(order) == {};
      assert FailedNames(s, plan, {}) == {};
    } else {
      var front := order[..|order| - 1];
      var last := order[|order| - 1];
      SnocNames(order);
      ErrorsOfFailed(s, plan, front);
      FailedStep(s, plan, Names(front), last);
      forall x | x in ErrorsOf(s, plan, order)
        ensures exists n :: n in FailedNames(s, plan, Names(order)) && s.PutError(plan[n].path).value == x
      {
        if x in ErrorsOf(s, plan, front) {
          var n :| n in FailedNames(s, plan, Names(front)) && s.PutError(plan[n].path).value == x;
          assert n in FailedNames(s, plan, Names(order));
        } else {
          assert x in ErrorOf(s, plan, last);
          assert last in FailedNames(s, plan, Names(order));
        }
      }
    }
  }

  /** `order` lists the names of `keys`, each once. */
  predicate Enumerates(order: seq<string>, keys: set<string>)
    decreases |order|
  {
    if order == [] then keys == {}
    else order[|order| - 1] in keys && Enumerates(order[..|order| - 1], keys - {order[|order| - 1]})
  }

  /** Going through one more name that was not yet reached. */
  lemma EnumeratesSnoc(order: seq<string>, keys: set<string>, name: string)
    requires Enumerates(order, keys) && name !in keys
    ensures Enumerates(order + [name], keys + {name})
  {
    assert (order + [name])[..|order|] == order;
    assert (keys + {name}) - {name} == keys;
  }

  /** An enumeration is a sequence of distinct names holding exactly the enumerated names. */
  lemma {:induction false} EnumeratesDistinct(order: seq<string>, keys: set<string>)
    requires Enumerates(order, keys)
    ensures Distinct(order) && Names(order) == keys
  {
    if order != [] {
      var front := order[..|order| - 1];
      var last := order[|order| - 1];
      EnumeratesDistinct(front, keys - {last});
      assert order == front + [last];
    }
  }

  /** The planned writes of the names of `order` that have a value. */
  function PlanOf(e: EnvId, values: map<string, string>, order: seq<string>): map<string, Write>
    decreases |order|
  {
    if order == [] then map[]
    else
      var last := order[|order| - 1];
      var front := PlanOf(e, values, order[..|order| - 1]);
      if last in values then front[last := Write(VarPath(e, last), Stored(values[last], TagsSpec(e, last)))] else front
  }

  /** Planning one more name with a value adds its write. */
  lemma PlanOfSnoc(e: EnvId, values: map<string, string>, order: seq<string>, name: string)
    requires name in values
    ensures PlanOf(e, values, order + [name]) ==
      PlanOf(e, values, order)[name := Write(VarPath(e, name), Stored(values[name], TagsSpec(e, name)))]
  {
    assert (order + [name])[..|order|] == order;
  }

  /** Going through every name of `values` plans every write of `Plan`. */
  lemma {:induction false} PlanOfEnumerates(e: EnvId, values: map<string, string>, order: seq<string>, keys: set<string>)
    requires Enumerates(order, keys) && keys <= values.Keys
    ensures PlanOf(e, values, order) == map n | n in keys :: Plan(e, values)[n]
  {
    if order == [] {
    } else {
      var last := order[|order| - 1];
      PlanOfEnumerates(e, values, order[..|order| - 1], keys - {last});
    }
  }

  /** Going through all names of `values` plans exactly `Plan`. */
  lemma PlanOfAll(e: EnvId, values: map<string, string>, order: seq<string>)
    requires Enumerates(order, values.Keys)
    ensures PlanOf(e, values, order) == Plan(e, values)
  {
    PlanOfEnumerates(e, values, order, values.Keys);
  }

  /** A name outside the enumerated set does not occur in the enumeration. */
  lemma NotEnumerated(order: seq<string>, keys: set<string>, name: string)
    requires Enumerates(order, keys) && name !in keys
    ensures name !in order
  {
    EnumeratesDistinct(order, keys);
  }

  /** Planning a name that `order` does not reach changes nothing it does. */
  lemma {:induction false} ApplyAllFrame(s: ParameterStore, plan: map<string, Write>, params0: map<string, Stored>, order: seq<string>, name: string, w: Write)
    requires name !in order
    ensures ApplyAll(s, plan[name := w], params0, order) == ApplyAll(s, plan, params0, order)
    ensures ErrorsOf(s, plan[name := w], order) == ErrorsOf(s, plan, order)
  {
    if order != [] {
      assert order[|order| - 1] in order;
      ApplyAllFrame(s, plan, params0, order[..|order| - 1], name, w);
    }
  }

  /** What `SetAll` leaves behind, once it has gone through every name of `keys` in the order `order`. */
  lemma SetAllOutcome(s: ParameterStore, plan: map<string, Write>, params0: map<string, Stored>, order: seq<string>, keys: set<string>)
    requires keys <= plan.Keys
    requires Enumerates(order, keys)
    ensures WrittenState(s, plan, params0, ApplyAll(s, plan, params0, order), keys)
    ensures ErrorsOf(s, plan, order) == [] <==> FailedNames(s, plan, keys) == {}
    ensures |ErrorsOf(s, plan, order)| == |FailedNames(s, plan, keys)|
    ensures forall n :: n in FailedNames(s, plan, keys) ==> s.PutError(plan[n].path).value in ErrorsOf(s, plan, order)
    ensures forall x :: x in ErrorsOf(s, plan, order) ==>
      exists n :: n in FailedNames(s, plan, keys) && s.PutError(plan[n].path).value == x
  {
    EnumeratesDistinct(order, keys);
    ApplyAllWritten(s, plan, params0, order);
    ErrorsOfFailed(s, plan, order);
  }

  // ---------------------------------------------------------------------
  // The façade

  class SSMStore {
    const store: ParameterStore

    constructor (store: ParameterStore)
      ensures this.store == store
    {
      this.store := store;
    }

    method List(e: EnvId) returns (r: Result<set<EnvVar>, StoreError>)
      ensures r == if store.reachable then Success(store.Listed(e)) else Failure(Unreachable)
    {
      r := store.ListByTags(e);
    }

    method GetAll(e: EnvId, names: seq<string>) returns (r: Result<seq<EnvVar>, StoreError>)
      ensures r == if store.reachable then Success(store.Found(e, names)) else Failure(Unreachable)
    {
      r := store.GetAll(e, names);
    }

    /** The stored value of one variable, "" when it is not stored; store errors propagate. */
    method Get(e: EnvId, name: string) returns (r: Result<string, StoreError>)
      ensures !store.reachable ==> r == Failure(Unreachable)
      ensures store.reachable ==> r == Success(store.Lookup(e, name))
    {
      var vars := GetAll(e, [name]);
      if vars.Failure? {
        return Failure(vars.error);
      }
      if |vars.value| == 0 {
        return Success("");
      }
      assert vars.value[0] in vars.value;
      r := Success(vars.value[0].value);
    }

    /** Writes one variable at its path, with its tags. */
    method Set(e: EnvId, name: string, value: string) returns (err: Option<StoreError>)
      modifies store
      ensures err == store.PutError(VarPath(e, name))
      ensures err.None? ==> store.params == old(store.params)[VarPath(e, name) := Stored(value, TagsSpec(e, name))]
      ensures err.Some? ==> store.params == old(store.params)
    {
      var path := VarPath(e, name);
      var tags := BuildTags(e, name);
      err := store.NewParameter(path, tags, value);
    }

    /**
     * Writes every entry of `values`, in no particular order, without
     * stopping at a failure; the result lists one error per failed write.
     */
    method SetAll(e: EnvId, values: map<string, string>) returns (err: Option<seq<StoreError>>)
      modifies store
      ensures err.None? <==> FailedNames(store, Plan(e, values), values.Keys) == {}
      ensures err.Some? ==> |err.value| == |FailedNames(store, Plan(e, values), values.Keys)|
      ensures err.Some? ==> forall n :: n in FailedNames(store, Plan(e, values), values.Keys) ==>
        store.PutError(Plan(e, values)[n].path).value in err.value
      ensures err.Some? ==> forall x :: x in err.value ==>
        exists n :: n in FailedNames(store, Plan(e, values), values.Keys) && store.PutError(Plan(e, values)[n].path).value == x
      ensures err.Some? ==> exists order :: Enumerates(order, values.Keys) && err.value == ErrorsOf(store, Plan(e, values), order)
      ensures WrittenState(store, Plan(e, values), old(store.params), store.params, values.Keys)
    {
      ghost var plan: map<string, Write> := map[];
      ghost var order: seq<string> := [];
      ghost var done: set<string> := {};
      var remaining := values.Keys;
      var errs: seq<StoreError> := [];
      while remaining != {}
        invariant remaining !! done && remaining + done == values.Keys
        invariant Enumerates(order, done)
        invariant plan == PlanOf(e, values, order)
        invariant store.params == ApplyAll(store, plan, old(store.params), order)
        invariant errs == ErrorsOf(store, plan, order)
        decreases remaining
      {
        var name :| name in remaining;
        var r := Set(e, name, values[name]);
        if r.Some? {
          errs := errs + [r.value];
        }
        ghost var w := Write(VarPath(e, name), Stored(values[name], TagsSpec(e, name)));
        NotEnumerated(order, done, name);
        ApplyAllFrame(store, plan, old(store.params), order, name, w);
        ApplyAllSnoc(store, plan[name := w], old(store.params), order, name);
        EnumeratesSnoc(order, done, name);
        PlanOfSnoc(e, values, order, name);
        plan := plan[name := w];
        order := order + [name];
        done := done + {name};
        remaining := remaining - {name};
      }
      PlanOfAll(e, values, order);
      SetAllOutcome(store, plan, old(store.params), order, values.Keys);
      err := if errs == [] then None else Some(errs);
    }

    /** Deletes the named variables. */
    method DeleteAll(e: EnvId, names: seq<string>) returns (err: Option<StoreError>)
      modifies store
      ensures err == if store.reachable then None else Some(Unreachable)
      ensures err.None? ==> store.params == old(store.params) - (set n | n in names :: VarPath(e, n))
      ensures err.Some? ==> store.params == old(store.params)
    {
      err := store.DeleteAll(e, names);
    }

    /** Deletes one variable, as `DeleteAll` of just its name. */
    method Delete(e: EnvId, name: string) returns (err: Option<StoreError>)
      modifies store
      ensures err == if store.reachable then None else Some(Unreachable)
      ensures err.None? ==> store.params == old(store.params) - {VarPath(e, name)}
      ensures err.None? ==> store.Lookup(e, name) == ""
      ensures err.Some? ==> store.params == old(store.params)
    {
      err := DeleteAll(e, [name]);
      assert (set n | n in [name] :: VarPath(e, n)) == {VarPath(e, name)};
    }
  }
}
