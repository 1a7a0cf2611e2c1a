/**
 * Parameter-store paths of envsec (envsec/util.go): where the variables of
 * an environment live under `/jetpack-data/env`, and how a variable name
 * is read back from a path.
 *
 * The builders are written with Go's `path.Join`, which joins its
 * non-empty arguments with '/' and then cleans the result lexically:
 * empty and "." segments disappear and ".." removes the segment before it.
 * That is modelled here over segment lists: `Split` is `strings.Split(s,
 * "/")`, `Resolve` is the left-to-right walk of `path.Clean`.
 */
module EnvPaths {

  /** The namespace of a variable: organization, project and environment. */
  datatype EnvId = EnvId(orgId: string, projectId: string, envName: string)

  /** Every path sits under this prefix. */
  const PathPrefix: string := "/jetpack-data/env"

  /** The segments of PathPrefix. */
  const Base: seq<string> := ["jetpack-data", "env"]

  // ---------------------------------------------------------------------
  // Segments

  /** A segment that `path.Clean` keeps as it is. */
  predicate IsSafeSegment(s: string) {
    s != "" && s != "." && s != ".." && '/' !in s
  }

  /** A field that is either empty or a safe segment. */
  predicate IsPlainField(s: string) {
    s == "" || IsSafeSegment(s)
  }

  predicate AllSafe(segs: seq<string>) {
    forall i :: 0 <= i < |segs| ==> IsSafeSegment(segs[i])
  }

  predicate NoSlash(segs: seq<string>) {
    forall i :: 0 <= i < |segs| ==> '/' !in segs[i]
  }

  /** `strings.Split(s, "/")`: the pieces between the separators. */
  function Split(s: string): (r: seq<string>)
    ensures |r| >= 1
  {
    if s == [] then [""]
    else
      var rest := Split(s[1..]);
      if s[0] == '/' then [""] + rest
      else [[s[0]] + rest[0]] + rest[1..]
  }

  /** `strings.Join(segs, "/")`. */
  function JoinSep(segs: seq<string>): string {
    if |segs| == 0 then ""
    else if |segs| == 1 then segs[0]
    else segs[0] + "/" + JoinSep(segs[1..])
  }

  /** The elements of a list that are not empty, in order. */
  function NonEmpty(elems: seq<string>): (r: seq<string>)
    ensures |r| <= |elems|
    ensures forall i :: 0 <= i < |r| ==> r[i] != ""
  {
    if elems == [] then []
    else if elems[0] == "" then NonEmpty(elems[1..])
    else [elems[0]] + NonEmpty(elems[1..])
  }

  /** The segments of several strings, one after the other. */
  function SplitAll(xs: seq<string>): seq<string> {
    if xs == [] then [] else Split(xs[0]) + SplitAll(xs[1..])
  }

  /** The single segment of a plain field, or none for an empty one. */
  function Segs(x: string): seq<string> {
    if x == "" then [] else [x]
  }

  // ---------------------------------------------------------------------
  // path.Clean and path.Join

  /**
   * One step of the walk of `path.Clean`: empty and "." segments are
   * dropped; ".." removes the last kept segment, unless there is none (or
   * it is itself ".."), in which case a rooted path stays at the root and
   * a relative one keeps the "..".
   */
  function Step(out: seq<string>, seg: string, rooted: bool): seq<string> {
    if seg == "" || seg == "." then out
    else if seg == ".." then
      if |out| > 0 && out[|out| - 1] != ".." then out[..|out| - 1]
      else if rooted then out
      else out + [".."]
    else out + [seg]
  }

  function Resolve(out: seq<string>, segs: seq<string>, rooted: bool): seq<string>
    decreases |segs|
  {
    if segs == [] then out else Resolve(Step(out, segs[0], rooted), segs[1..], rooted)
  }

  /** A rooted path made of the given segments. */
  function Render(segs: seq<string>): (p: string)
    ensures |p| >= 1 && p[0] == '/'
  {
    "/" + JoinSep(segs)
  }

  /** `path.Clean`: the shortest lexically equivalent path; "." for "". */
  function Clean(p: string): string {
    if p == "" then "."
    else
      var rooted := p[0] == '/';
      var segs := Resolve([], Split(p), rooted);
      if rooted then Render(segs)
      else if segs == [] then "."
      else JoinSep(segs)
  }

  /** `path.Join`: "" when every element is empty, else the cleaned join of the non-empty ones. */
  function Join(elems: seq<string>): string {
    var kept := NonEmpty(elems);
    if kept == [] then "" else Clean(JoinSep(kept))
  }

  // ---------------------------------------------------------------------
  // The path builders

  /** `orgPath`: the organization's directory, with a trailing '/'. */
  function OrgPath(e: EnvId): (p: string)
    ensures |p| >= 1 && p[|p| - 1] == '/'
  {
    Join([PathPrefix, e.orgId]) + "/"
  }

  /** `projectPath`: the project's directory, with a trailing '/'. */
  function ProjectPath(e: EnvId): (p: string)
    ensures |p| >= 1 && p[|p| - 1] == '/'
  {
    Join([OrgPath(e), e.projectId]) + "/"
  }

  /** `envPath`: the environment's directory, with a trailing '/'. */
  function EnvPath(e: EnvId): (p: string)
    ensures |p| >= 1 && p[|p| - 1] == '/'
  {
    Join([ProjectPath(e), e.envName]) + "/"
  }

  /** `varPath`: the path of one variable; the project ID is repeated below the project directory. */
  function VarPath(e: EnvId, varName: string): string {
    Join([ProjectPath(e), e.projectId, e.envName, varName])
  }

  /** `nameFromPath`: the last '/'-separated piece of a path. */
  function NameFromPath(p: string): string {
    var subpaths := Split(p);
    if |subpaths| == 0 then "" else subpaths[|subpaths| - 1]
  }

  // ---------------------------------------------------------------------
  // The segments each path is made of

  function OrgSegs(e: EnvId): seq<string> {
    Resolve(Base, Split(e.orgId), true)
  }

  function ProjectSegs(e: EnvId): seq<string> {
    Resolve(OrgSegs(e), Split(e.projectId), true)
  }

  function EnvSegs(e: EnvId): seq<string> {
    Resolve(ProjectSegs(e), Split(e.envName), true)
  }

  function VarSegs(e: EnvId, varName: string): seq<string> {
    Resolve(ProjectSegs(e), SplitAll([e.projectId, e.envName, varName]), true)
  }

  // ---------------------------------------------------------------------
  // Lemmas about Split and JoinSep

  lemma {:induction false} SplitSlash(a: string, b: string)
    ensures Split(a + "/" + b) == Split(a) + Split(b)
  {
    if a == [] {
      assert a + "/" + b == "/" + b;
      assert ("/" + b)[1..] == b;
    } else {
      assert (a + "/" + b)[1..] == a[1..] + "/" + b;
      SplitSlash(a[1..], b);
    }
  }

  lemma {:induction false} SplitWithoutSlash(s: string)
    requires '/' !in s
    ensures Split(s) == [s]
  {
    if s != [] {
      assert '/' !in s[1..];
      SplitWithoutSlash(s[1..]);
      assert [s[0]] + s[1..] == s;
    }
  }

  lemma {:induction false} SplitPiecesHaveNoSlash(s: string)
    ensures NoSlash(Split(s))
  {
    if s != [] {
      SplitPiecesHaveNoSlash(s[1..]);
      var rest := Split(s[1..]);
      if s[0] != '/' {
        assert '/' !in [s[0]] + rest[0];
      }
    }
  }

  lemma {:induction false} JoinSepAppend(a: seq<string>, b: seq<string>)
    requires a != [] && b != []
    ensures JoinSep(a + b) == JoinSep(a) + "/" + JoinSep(b)
  {
    if |a| == 1 {
      assert (a + b)[1..] == b;
    } else {
      assert (a + b)[1..] == a[1..] + b;
      JoinSepAppend(a[1..], b);
    }
  }

  /** Joining pieces without '/' and splitting again gives the pieces back. */
  lemma {:induction false} SplitJoin(segs: seq<string>)
    requires |segs| >= 1 && NoSlash(segs)
    ensures Split(JoinSep(segs)) == segs
  {
    SplitWithoutSlash(segs[0]);
    if |segs| > 1 {
      SplitJoin(segs[1..]);
      SplitSlash(segs[0], JoinSep(segs[1..]));
      assert segs == [segs[0]] + segs[1..];
    }
  }

  /** Splitting a string and joining the pieces gives the string back. */
  lemma {:induction false} JoinSplit(s: string)
    ensures JoinSep(Split(s)) == s
  {
    if s != [] {
      JoinSplit(s[1..]);
      var rest := Split(s[1..]);
      if s[0] == '/' {
        if |rest| == 1 {
          assert JoinSep([""] + rest) == "" + "/" + rest[0];
        } else {
          assert JoinSep([""] + rest) == "" + "/" + JoinSep(rest);
        }
        assert s == "/" + s[1..];
      } else {
        var r := [[s[0]] + rest[0]] + rest[1..];
        if |rest| == 1 {
          assert JoinSep(r) == [s[0]] + rest[0];
        } else {
          assert JoinSep(r) == [s[0]] + rest[0] + "/" + JoinSep(rest[1..]);
          assert JoinSep(rest) == rest[0] + "/" + JoinSep(rest[1..]);
        }
        assert s == [s[0]] + s[1..];
      }
    }
  }

  lemma {:induction false} SplitJoinAll(ys: seq<string>)
    requires |ys| >= 1
    ensures Split(JoinSep(ys)) == SplitAll(ys)
  {
    if |ys| == 1 {
      assert SplitAll(ys) == Split(ys[0]) + SplitAll([]);
    } else {
      SplitJoinAll(ys[1..]);
      SplitSlash(ys[0], JoinSep(ys[1..]));
    }
  }

  // ---------------------------------------------------------------------
  // Lemmas about Resolve

  lemma {:induction false} ResolveAppend(out: seq<string>, a: seq<string>, b: seq<string>, rooted: bool)
    ensures Resolve(out, a + b, rooted) == Resolve(Resolve(out, a, rooted), b, rooted)
    decreases |a|
  {
    if a == [] {
      assert a + b == b;
    } else {
      assert (a + b)[1..] == a[1..] + b;
      ResolveAppend(Step(out, a[0], rooted), a[1..], b, rooted);
    }
  }

  /** Plain fields resolve to themselves, minus the empty ones. */
  lemma {:induction false} ResolvePlain(out: seq<string>, segs: seq<string>, rooted: bool)
    requires forall i :: 0 <= i < |segs| ==> IsPlainField(segs[i])
    ensures Resolve(out, segs, rooted) == out + NonEmpty(segs)
    decreases |segs|
  {
    if segs != [] {
      ResolvePlain(Step(out, segs[0], rooted), segs[1..], rooted);
    }
  }

  /** A rooted walk over pieces without '/' keeps only safe segments. */
  lemma {:induction false} RootedResolveSafe(out: seq<string>, segs: seq<string>)
    requires AllSafe(out) && NoSlash(segs)
    ensures AllSafe(Resolve(out, segs, true))
    decreases |segs|
  {
    if segs != [] {
      var next := Step(out, segs[0], true);
      assert AllSafe(next);
      RootedResolveSafe(next, segs[1..]);
    }
  }

  lemma {:induction false} ResolveSkipsEmpty(out: seq<string>, xs: seq<string>, rooted: bool)
    ensures Resolve(out, SplitAll(NonEmpty(xs)), rooted) == Resolve(out, SplitAll(xs), rooted)
    decreases |xs|
  {
    if xs != [] {
      var rest := SplitAll(xs[1..]);
      if xs[0] == "" {
        assert SplitAll(xs) == [""] + rest;
        ResolveSkipsEmpty(out, xs[1..], rooted);
      } else {
        var mid := Resolve(out, Split(xs[0]), rooted);
        assert NonEmpty(xs) == [xs[0]] + NonEmpty(xs[1..]);
        assert SplitAll(NonEmpty(xs)) == Split(xs[0]) + SplitAll(NonEmpty(xs[1..]));
        ResolveAppend(out, Split(xs[0]), SplitAll(NonEmpty(xs[1..])), rooted);
        ResolveAppend(out, Split(xs[0]), rest, rooted);
        ResolveSkipsEmpty(mid, xs[1..], rooted);
      }
    }
  }

  // ---------------------------------------------------------------------
  // Clean over a rendered path

  lemma SplitAfterRoot(y: string)
    ensures Split("/" + y) == [""] + Split(y)
  {
    assert ("/" + y)[1..] == y;
  }

  /** A rooted path is cleaned by walking the segments after the root. */
  lemma {:induction false} CleanRooted(y: string)
    ensures Clean("/" + y) == Render(Resolve([], Split(y), true))
  {
    SplitAfterRoot(y);
  }

  lemma {:induction false} NonEmptyOfNonEmpty(segs: seq<string>)
    requires forall i :: 0 <= i < |segs| ==> segs[i] != ""
    ensures NonEmpty(segs) == segs
  {
    if segs != [] {
      NonEmptyOfNonEmpty(segs[1..]);
    }
  }

  /** Safe segments are kept as they are. */
  lemma {:induction false} ResolveSafe(out: seq<string>, segs: seq<string>, rooted: bool)
    requires AllSafe(segs)
    ensures Resolve(out, segs, rooted) == out + segs
  {
    ResolvePlain(out, segs, rooted);
    NonEmptyOfNonEmpty(segs);
  }

  /** A rendered path of safe segments is already clean. */
  lemma {:induction false} CleanRendered(segs: seq<string>)
    requires AllSafe(segs)
    ensures Clean(Render(segs)) == Render(segs)
  {
    CleanRooted(JoinSep(segs));
    if segs == [] {
      assert Split("") == [""];
    } else {
      assert NoSlash(segs);
      SplitJoin(segs);
      ResolveSafe([], segs, true);
      assert [] + segs == segs;
    }
  }

  /**
   * Cleaning a clean rooted path followed by '/' and any text x continues
   * the walk over the segments of x.
   */
  lemma {:induction false} CleanOnto(segs: seq<string>, x: string)
    requires AllSafe(segs)
    ensures Clean(Render(segs) + "/" + x) == Render(Resolve(segs, Split(x), true))
  {
    var y := JoinSep(segs) + "/" + x;
    assert Render(segs) + "/" + x == "/" + y;
    CleanRooted(y);
    SplitSlash(JoinSep(segs), x);
    if segs == [] {
      assert Split("") == [""];
      ResolveAppend([], [""], Split(x), true);
    } else {
      SplitJoin(segs);
      assert Split(y) == segs + Split(x);
      ResolveAppend([], segs, Split(x), true);
      ResolveSafe([], segs, true);
      assert [] + segs == segs;
    }
  }

  /** Text that starts with '/' adds nothing but its segments. */
  lemma {:induction false} ResolveAfterSlash(segs: seq<string>, x: string)
    ensures Resolve(segs, Split("/" + x), true) == Resolve(segs, Split(x), true)
  {
    assert ("/" + x)[1..] == x;
    assert Split("/" + x) == [""] + Split(x);
  }

  // ---------------------------------------------------------------------
  // What the builders compute

  lemma SafeBase()
    ensures AllSafe(Base) && PathPrefix == Render(Base)
  {
    assert JoinSep(Base) == "jetpack-data" + "/" + JoinSep(["env"]);
  }

  /** Joining the prefix and a field walks the prefix segments on by the field's segments. */
  lemma {:induction false} JoinPrefix(x: string)
    ensures Join([PathPrefix, x]) == Render(Resolve(Base, Split(x), true))
  {
    SafeBase();
    if x == "" {
      assert NonEmpty([PathPrefix, x]) == [PathPrefix];
      CleanRendered(Base);
    } else {
      assert NonEmpty([PathPrefix, x]) == [PathPrefix, x];
      assert JoinSep([PathPrefix, x]) == Render(Base) + "/" + x;
      CleanOnto(Base, x);
    }
  }

  /** Joining a directory of safe segments and a field walks on by the field's segments. */
  lemma {:induction false} JoinDirectory(w: seq<string>, x: string)
    requires AllSafe(w)
    ensures Join([Render(w) + "/", x]) == Render(Resolve(w, Split(x), true))
  {
    var d := Render(w) + "/";
    if x == "" {
      assert NonEmpty([d, x]) == [d];
      assert Render(w) + "/" + "" == d;
      CleanOnto(w, "");
    } else {
      assert NonEmpty([d, x]) == [d, x];
      assert JoinSep([d, x]) == Render(w) + "/" + ("/" + x);
      CleanOnto(w, "/" + x);
      ResolveAfterSlash(w, x);
    }
  }

  /** Joining a directory of safe segments and several fields walks on by all their segments. */
  lemma {:induction false} JoinDirectoryAll(w: seq<string>, xs: seq<string>)
    requires AllSafe(w)
    ensures Join([Render(w) + "/"] + xs) == Render(Resolve(w, SplitAll(xs), true))
  {
    var d := Render(w) + "/";
    var rest := NonEmpty(xs);
    assert NonEmpty([d] + xs) == [d] + rest by {
      assert ([d] + xs)[1..] == xs;
    }
    ResolveSkipsEmpty(w, xs, true);
    if rest == [] {
      assert SplitAll(rest) == [];
      assert Render(w) + "/" + "" == d;
      CleanOnto(w, "");
      assert Split("") == [""];
    } else {
      JoinSepAppend([d], rest);
      assert JoinSep([d] + rest) == Render(w) + "/" + ("/" + JoinSep(rest));
      CleanOnto(w, "/" + JoinSep(rest));
      ResolveAfterSlash(w, JoinSep(rest));
      SplitJoinAll(rest);
    }
  }

  lemma {:induction false} ResolveFieldSafe(w: seq<string>, x: string)
    requires AllSafe(w)
    ensures AllSafe(Resolve(w, Split(x), true))
  {
    SplitPiecesHaveNoSlash(x);
    RootedResolveSafe(w, Split(x));
  }

  /** `orgPath` is the rendering of the prefix segments walked on by the org ID. */
  lemma {:induction false} OrgPathSegments(e: EnvId)
    ensures OrgPath(e) == Render(OrgSegs(e)) + "/"
  {
    JoinPrefix(e.orgId);
  }

  /** `projectPath` continues the walk of `orgPath` with the project ID. */
  lemma {:induction false} ProjectPathSegments(e: EnvId)
    ensures AllSafe(ProjectSegs(e))
    ensures ProjectPath(e) == Render(ProjectSegs(e)) + "/"
  {
    OrgPathSegments(e);
    SafeBase();
    ResolveFieldSafe(Base, e.orgId);
    ResolveFieldSafe(OrgSegs(e), e.projectId);
    JoinDirectory(OrgSegs(e), e.projectId);
  }

  /** `envPath` continues the walk of `projectPath` with the env name. */
  lemma {:induction false} EnvPathSegments(e: EnvId)
    ensures EnvPath(e) == Render(EnvSegs(e)) + "/"
  {
    ProjectPathSegments(e);
    JoinDirectory(ProjectSegs(e), e.envName);
  }

  /**
   * `varPath` continues the walk of `projectPath` with the project ID
   * (again), the env name and the variable name.
   */
  lemma {:induction false} VarPathSegments(e: EnvId, varName: string)
    ensures VarPath(e, varName) == Render(VarSegs(e, varName))
  {
    ProjectPathSegments(e);
    var xs := [e.projectId, e.envName, varName];
    assert [ProjectPath(e), e.projectId, e.envName, varName] == [ProjectPath(e)] + xs;
    JoinDirectoryAll(ProjectSegs(e), xs);
  }

  // ---------------------------------------------------------------------
  // Consequences

  /** An empty org ID contributes no segment: the org directory is the prefix directory. */
  lemma {:induction false} EmptyOrgCollapses(e: EnvId)
    requires e.orgId == ""
    ensures OrgPath(e) == PathPrefix + "/"
  {
    OrgPathSegments(e);
    SafeBase();
    assert OrgSegs(e) == Base by {
      assert Split(e.orgId) == [""];
      assert Resolve(Base, [""], true) == Resolve(Base, [], true);
    }
  }

  /** An empty project ID contributes no segment: the project directory is the org directory. */
  lemma {:induction false} EmptyProjectCollapses(e: EnvId)
    requires e.projectId == ""
    ensures ProjectPath(e) == OrgPath(e)
  {
    OrgPathSegments(e);
    ProjectPathSegments(e);
    assert ProjectSegs(e) == OrgSegs(e) by {
      assert Split(e.projectId) == [""];
      assert Resolve(OrgSegs(e), [""], true) == Resolve(OrgSegs(e), [], true);
    }
  }

  /** An empty env name contributes no segment: the env directory is the project directory. */
  lemma {:induction false} EmptyEnvCollapses(e: EnvId)
    requires e.envName == ""
    ensures EnvPath(e) == ProjectPath(e)
  {
    ProjectPathSegments(e);
    EnvPathSegments(e);
    assert EnvSegs(e) == ProjectSegs(e) by {
      assert Split(e.envName) == [""];
      assert Resolve(ProjectSegs(e), [""], true) == Resolve(ProjectSegs(e), [], true);
    }
  }

  lemma {:induction false} ResolvePlainField(w: seq<string>, x: string)
    requires IsPlainField(x)
    ensures Resolve(w, Split(x), true) == w + Segs(x)
  {
    SplitWithoutSlash(x);
  }

  lemma SplitAllThree(a: string, b: string, c: string)
    ensures SplitAll([a, b, c]) == Split(a) + Split(b) + Split(c)
  {
    assert [a, b, c][1..] == [b, c];
    assert [b, c][1..] == [c];
    assert [c][1..] == [];
    assert SplitAll([c]) == Split(c);
    assert SplitAll([b, c]) == Split(b) + Split(c);
  }

  /** Walking on by three fields walks on by each in turn. */
  lemma {:induction false} ResolveThree(w: seq<string>, a: string, b: string, c: string)
    ensures Resolve(w, SplitAll([a, b, c]), true)
      == Resolve(Resolve(Resolve(w, Split(a), true), Split(b), true), Split(c), true)
  {
    SplitAllThree(a, b, c);
    ResolveAppend(w, Split(a) + Split(b), Split(c), true);
    ResolveAppend(w, Split(a), Split(b), true);
  }

  /** For a plain org ID, the org walk adds the org ID unless it is empty. */
  lemma {:induction false} PlainOrgSegs(e: EnvId)
    requires IsPlainField(e.orgId)
    ensures OrgSegs(e) == Base + Segs(e.orgId)
  {
    ResolvePlainField(Base, e.orgId);
  }

  /** For plain org and project IDs, the project walk adds the non-empty ones. */
  lemma {:induction false} PlainProjectSegs(e: EnvId)
    requires IsPlainField(e.orgId) && IsPlainField(e.projectId)
    ensures ProjectSegs(e) == Base + Segs(e.orgId) + Segs(e.projectId)
  {
    PlainOrgSegs(e);
    ResolvePlainField(OrgSegs(e), e.projectId);
  }

  /** For plain fields, the env walk adds the non-empty ones. */
  lemma {:induction false} PlainEnvSegs(e: EnvId)
    requires IsPlainField(e.orgId) && IsPlainField(e.projectId) && IsPlainField(e.envName)
    ensures EnvSegs(e) == Base + Segs(e.orgId) + Segs(e.projectId) + Segs(e.envName)
  {
    PlainProjectSegs(e);
    ResolvePlainField(ProjectSegs(e), e.envName);
  }

  /** For plain fields, the variable walk adds the project ID again, the env name and the name. */
  lemma {:induction false} PlainVarSegs(e: EnvId, varName: string)
    requires IsPlainField(e.orgId) && IsPlainField(e.projectId) && IsPlainField(e.envName)
    requires IsPlainField(varName)
    ensures VarSegs(e, varName) ==
      ProjectSegs(e) + Segs(e.projectId) + Segs(e.envName) + Segs(varName)
    ensures VarSegs(e, varName) ==
      Base + Segs(e.orgId) + Segs(e.projectId) + Segs(e.projectId) + Segs(e.envName) + Segs(varName)
  {
    var w := ProjectSegs(e);
    PlainProjectSegs(e);
    ResolveThree(w, e.projectId, e.envName, varName);
    ResolvePlainField(w, e.projectId);
    ResolvePlainField(w + Segs(e.projectId), e.envName);
    ResolvePlainField(w + Segs(e.projectId) + Segs(e.envName), varName);
  }

  /** With safe fields, the variable's segments are the prefix's and the five fields. */
  lemma {:induction false} SafeVarSegs(e: EnvId, varName: string)
    requires IsSafeSegment(e.orgId) && IsSafeSegment(e.projectId) && IsSafeSegment(e.envName)
    requires IsSafeSegment(varName)
    ensures VarSegs(e, varName) == Base + [e.orgId, e.projectId, e.projectId, e.envName, varName]
  {
    PlainVarSegs(e, varName);
  }

  lemma JoinSepCons(x: string, rest: seq<string>)
    requires rest != []
    ensures JoinSep([x] + rest) == x + "/" + JoinSep(rest)
  {
    assert ([x] + rest)[1..] == rest;
  }

  /** Rendering the prefix segments followed by more segments spells them out after the prefix. */
  lemma {:induction false} RenderAfterBase(rest: seq<string>)
    requires rest != []
    ensures Render(Base + rest) == PathPrefix + "/" + JoinSep(rest)
  {
    SafeBase();
    JoinSepAppend(Base, rest);
  }

  /** The rendering of the prefix segments and five more segments, spelled out. */
  lemma {:induction false} RenderFive(a: string, b: string, c: string, d: string, f: string)
    ensures Render(Base + [a, b, c, d, f]) == PathPrefix + "/" + a + "/" + b + "/" + c + "/" + d + "/" + f
  {
    RenderAfterBase([a, b, c, d, f]);
    assert JoinSep([f]) == f;
    JoinSepCons(d, [f]);
    JoinSepCons(c, [d, f]);
    JoinSepCons(b, [c, d, f]);
    JoinSepCons(a, [b, c, d, f]);
    assert [a] + [b, c, d, f] == [a, b, c, d, f];
    assert [b] + [c, d, f] == [b, c, d, f];
    assert [c] + [d, f] == [c, d, f];
    assert [d] + [f] == [d, f];
  }

  /** With every field a safe segment, the variable path is spelled out in full. */
  lemma {:induction false} SafeVarPath(e: EnvId, varName: string)
    requires IsSafeSegment(e.orgId) && IsSafeSegment(e.projectId) && IsSafeSegment(e.envName)
    requires IsSafeSegment(varName)
    ensures VarPath(e, varName) ==
      PathPrefix + "/" + e.orgId + "/" + e.projectId + "/" + e.projectId + "/" + e.envName + "/" + varName
  {
    VarPathSegments(e, varName);
    SafeVarSegs(e, varName);
    RenderFive(e.orgId, e.projectId, e.projectId, e.envName, varName);
  }

  /** A non-empty directory, followed by '/', is a prefix of the rendering of any extension. */
  lemma {:induction false} RenderExtends(w: seq<string>, xs: seq<string>)
    requires w != [] && xs != []
    ensures Render(w) + "/" <= Render(w + xs)
    ensures Render(w) + "/" <= Render(w + xs) + "/"
  {
    JoinSepAppend(w, xs);
  }

  /** With plain fields and a non-empty project ID, the org directory's segments render as a prefix of the project's. */
  lemma {:induction false} OrgSegsInProjectSegs(e: EnvId)
    requires IsPlainField(e.orgId) && IsSafeSegment(e.projectId)
    ensures Render(OrgSegs(e)) + "/" <= Render(ProjectSegs(e)) + "/"
  {
    PlainOrgSegs(e);
    PlainProjectSegs(e);
    assert ProjectSegs(e) == OrgSegs(e) + [e.projectId];
    RenderExtends(OrgSegs(e), [e.projectId]);
  }

  /** With plain fields, the org directory is a prefix of the project directory (equal to it when the project ID is empty). */
  lemma {:induction false} OrgDirInProjectDir(e: EnvId)
    requires IsPlainField(e.orgId) && IsPlainField(e.projectId)
    ensures OrgPath(e) <= ProjectPath(e)
  {
    if e.projectId == "" {
      EmptyProjectCollapses(e);
    } else {
      OrgPathSegments(e);
      ProjectPathSegments(e);
      OrgSegsInProjectSegs(e);
    }
  }

  /** With plain fields and a non-empty env name, the project's segments render as a prefix of the env's. */
  lemma {:induction false} ProjectSegsInEnvSegs(e: EnvId)
    requires IsPlainField(e.orgId) && IsPlainField(e.projectId) && IsSafeSegment(e.envName)
    ensures Render(ProjectSegs(e)) + "/" <= Render(EnvSegs(e)) + "/"
  {
    PlainProjectSegs(e);
    PlainEnvSegs(e);
    assert EnvSegs(e) == ProjectSegs(e) + [e.envName];
    RenderExtends(ProjectSegs(e), [e.envName]);
  }

  /** With plain fields, the project directory is a prefix of the env directory (equal to it when the env name is empty). */
  lemma {:induction false} ProjectDirInEnvDir(e: EnvId)
    requires IsPlainField(e.orgId) && IsPlainField(e.projectId) && IsPlainField(e.envName)
    ensures ProjectPath(e) <= EnvPath(e)
  {
    if e.envName == "" {
      EmptyEnvCollapses(e);
    } else {
      ProjectPathSegments(e);
      EnvPathSegments(e);
      ProjectSegsInEnvSegs(e);
    }
  }

  /** With plain fields and a safe name, the project's segments render as a prefix of the variable's. */
  lemma {:induction false} ProjectSegsInVarSegs(e: EnvId, varName: string)
    requires IsPlainField(e.orgId) && IsPlainField(e.projectId) && IsPlainField(e.envName)
    requires IsSafeSegment(varName)
    ensures Render(ProjectSegs(e)) + "/" <= Render(VarSegs(e, varName))
  {
    PlainProjectSegs(e);
    PlainVarSegs(e, varName);
    RenderExtends(ProjectSegs(e), Segs(e.projectId) + Segs(e.envName) + Segs(varName));
    assert VarSegs(e, varName) == ProjectSegs(e) + (Segs(e.projectId) + Segs(e.envName) + Segs(varName));
  }

  /** With plain fields and a safe variable name, the project directory is a prefix of the variable path. */
  lemma {:induction false} ProjectDirInVarPath(e: EnvId, varName: string)
    requires IsPlainField(e.orgId) && IsPlainField(e.projectId) && IsPlainField(e.envName)
    requires IsSafeSegment(varName)
    ensures ProjectPath(e) <= VarPath(e, varName)
  {
    ProjectPathSegments(e);
    VarPathSegments(e, varName);
    ProjectSegsInVarSegs(e, varName);
  }

  /** A variable's segments are all safe and end with the variable name. */
  lemma {:induction false} VarSegsEnd(e: EnvId, varName: string)
    requires IsSafeSegment(varName)
    ensures |VarSegs(e, varName)| > 0
    ensures VarSegs(e, varName)[|VarSegs(e, varName)| - 1] == varName
    ensures AllSafe(VarSegs(e, varName))
  {
    SafeBase();
    ResolveFieldSafe(Base, e.orgId);
    ResolveFieldSafe(OrgSegs(e), e.projectId);
    var w := ProjectSegs(e);
    var u := Resolve(w, Split(e.projectId), true);
    var v := Resolve(u, Split(e.envName), true);
    ResolveFieldSafe(w, e.projectId);
    ResolveFieldSafe(u, e.envName);
    ResolveThree(w, e.projectId, e.envName, varName);
    ResolvePlainField(v, varName);
    assert VarSegs(e, varName) == v + [varName];
  }

  /** `nameFromPath` returns the text after the last '/', or the whole path when it has none. */
  lemma {:induction false} NameFromPathIsLastPiece(p: string)
    ensures '/' !in NameFromPath(p)
    ensures var n := NameFromPath(p);
      p == n || (|n| < |p| && p[|p| - |n| - 1] == '/' && p[|p| - |n|..] == n)
    ensures '/' !in p ==> NameFromPath(p) == p
    ensures |p| > 0 && p[|p| - 1] == '/' ==> NameFromPath(p) == ""
  {
    var s := Split(p);
    var n := s[|s| - 1];
    SplitPiecesHaveNoSlash(p);
    JoinSplit(p);
    if |s| > 1 {
      JoinSepAppend(s[..|s| - 1], [n]);
      assert s == s[..|s| - 1] + [n];
      var q := JoinSep(s[..|s| - 1]);
      assert p == q + "/" + n;
      assert p[|p| - |n|..] == n;
      assert p[|p| - |n| - 1] == '/';
    }
    if '/' !in p {
      SplitWithoutSlash(p);
    }
    if |p| > 0 && p[|p| - 1] == '/' {
      var front := p[..|p| - 1];
      assert p == front + "/" + "";
      SplitSlash(front, "");
      assert Split("") == [""];
    }
  }

  /** The last piece of a rendered list of segments without '/' is its last segment. */
  lemma {:induction false} NameFromRender(segs: seq<string>)
    requires segs != [] && NoSlash(segs)
    ensures NameFromPath(Render(segs)) == segs[|segs| - 1]
  {
    var p := Render(segs);
    assert p[1..] == JoinSep(segs);
    SplitJoin(segs);
    assert Split(p) == [""] + segs;
  }

  /** The variable name is recovered from any variable path, whatever the namespace fields. */
  lemma {:induction false} NameFromVarPath(e: EnvId, varName: string)
    requires IsSafeSegment(varName)
    ensures NameFromPath(VarPath(e, varName)) == varName
  {
    VarPathSegments(e, varName);
    VarSegsEnd(e, varName);
    NameFromRender(VarSegs(e, varName));
  }

  /** Renderings of segment lists without '/' are equal only for equal lists. */
  lemma {:induction false} RenderInjective(s: seq<string>, s': seq<string>)
    requires s != [] && s' != [] && NoSlash(s) && NoSlash(s')
    ensures Render(s) == Render(s') ==> s == s'
  {
    if Render(s) == Render(s') {
      assert Render(s)[1..] == JoinSep(s);
      assert Render(s')[1..] == JoinSep(s');
      SplitJoin(s);
      SplitJoin(s');
    }
  }

  /**
   * With safe fields, distinct namespaces or names give distinct variable
   * paths; in particular the case of the env name is kept.
   */
  lemma {:induction false} VarPathInjective(e: EnvId, n: string, e': EnvId, n': string)
    requires IsSafeSegment(e.orgId) && IsSafeSegment(e.projectId) && IsSafeSegment(e.envName)
    requires IsSafeSegment(e'.orgId) && IsSafeSegment(e'.projectId) && IsSafeSegment(e'.envName)
    requires IsSafeSegment(n) && IsSafeSegment(n')
    ensures VarPath(e, n) == VarPath(e', n') <==> e == e' && n == n'
  {
    var s := VarSegs(e, n);
    var s' := VarSegs(e', n');
    VarPathSegments(e, n);
    VarPathSegments(e', n');
    VarSegsEnd(e, n);
    VarSegsEnd(e', n');
    RenderInjective(s, s');
    SafeVarSegs(e, n);
    SafeVarSegs(e', n');
    if s == s' {
      assert s[2] == s'[2] && s[3] == s'[3] && s[5] == s'[5] && s[6] == s'[6];
    }
  }

  /** The walks of the two colliding namespaces end at the same segments. */
  lemma {:induction false} CollidingSegs(p: string, x: string)
    requires IsSafeSegment(p) && IsSafeSegment(x)
    ensures VarSegs(EnvId("", p, ""), x) == Base + [p, p, x]
    ensures VarSegs(EnvId(p, "", p), x) == Base + [p, p, x]
  {
    PlainVarSegs(EnvId("", p, ""), x);
    PlainVarSegs(EnvId(p, "", p), x);
    assert Segs("") == [] && Segs(p) == [p] && Segs(x) == [x];
  }

  /**
   * Empty fields make different namespaces share variable paths: the org
   * "" with project p and env "" and the org p with project "" and env p
   * both store x at the same path.
   */
  lemma {:induction false} VarPathCollision(p: string, x: string)
    requires IsSafeSegment(p) && IsSafeSegment(x)
    ensures VarPath(EnvId("", p, ""), x) == VarPath(EnvId(p, "", p), x)
    ensures EnvId("", p, "") != EnvId(p, "", p)
  {
    VarPathSegments(EnvId("", p, ""), x);
    VarPathSegments(EnvId(p, "", p), x);
    CollidingSegs(p, x);
  }

  /**
   * An env name ".." climbs out of the project directory: with org o and an
   * empty project ID, the variable x lands directly under the prefix, outside
   * the project directory.
   */
  lemma {:induction false} DotDotEnvEscapes(o: string, x: string)
    requires IsSafeSegment(o) && IsSafeSegment(x)
    ensures VarPath(EnvId(o, "", ".."), x) == PathPrefix + "/" + x
    ensures !(ProjectPath(EnvId(o, "", "..")) <= VarPath(EnvId(o, "", ".."), x))
  {
    var e := EnvId(o, "", "..");
    var w := ProjectSegs(e);
    PlainProjectSegs(e);
    assert w == Base + [o];
    VarPathSegments(e, x);
    ResolveThree(w, "", "..", x);
    assert Resolve(w, Split(""), true) == w;
    SplitWithoutSlash("..");
    assert Resolve(w, Split(".."), true) == Base;
    ResolvePlainField(Base, x);
    RenderAfterBase([x]);
    ProjectPathSegments(e);
    RenderAfterBase([o]);
  }
}
