/**
 * The code-writing action: one CODE artifact per entry of a design's file
 * list, each watched by the design and the system design, and the
 * decision whether a design update should regenerate a code artifact.
 */
module WriteCode {
  import opened Common
  import opened Schema

  /** One entry of a design's `File list`. */
  datatype FileEntry = FileEntry(path: string, fileType: string, description: string,
                                 dependencies: seq<string>, action: string)

  /** The watch kind `create_artifacts` registers. */
  const WriteCodeKind: string := "WRITE_CODE"

  // ---- Paths as pathlib parses them --------------------------------------

  /** The position of the first '/' in `s`, or `|s|` when there is none. */
  function SlashIndex(s: string): (i: nat)
    ensures i <= |s|
    decreases |s|
  {
    if s == [] then 0 else if s[0] == '/' then 0 else 1 + SlashIndex(s[1..])
  }

  /** `SlashIndex` finds the first '/', and only it. */
  lemma {:induction false} SlashIndexIsFirstSlash(s: string)
    ensures SlashIndex(s) < |s| ==> s[SlashIndex(s)] == '/'
    ensures forall j :: 0 <= j < SlashIndex(s) ==> s[j] != '/'
    decreases |s|
  {
    if s != [] && s[0] != '/' {
      SlashIndexIsFirstSlash(s[1..]);
      assert forall j :: 1 <= j < SlashIndex(s) ==> s[j] == s[1..][j - 1];
    }
  }

  /** A position is `SlashIndex(s)` when it holds the first '/' or is `|s|` with no '/' before it. */
  lemma SlashIndexUnique(s: string, k: nat)
    requires k <= |s| && (k < |s| ==> s[k] == '/')
    requires forall j :: 0 <= j < k ==> s[j] != '/'
    ensures SlashIndex(s) == k
  {
    SlashIndexIsFirstSlash(s);
  }

  /** The component a part contributes: nothing for an empty or "." part. */
  function Part(head: string): seq<string>
  {
    if |head| == 0 || (|head| == 1 && head[0] == '.') then [] else [head]
  }

  /** A path's components: the '/'-separated parts, without empty and "." parts. */
  function Components(s: string): seq<string>
    decreases |s|
  {
    if s == [] then []
    else if SlashIndex(s) < |s| then Part(s[..SlashIndex(s)]) + Components(s[SlashIndex(s) + 1..])
    else Part(s)
  }

  /** `s` names a single directory or file. */
  predicate IsName(s: string)
  {
    s != "" && s != "." && forall j :: 0 <= j < |s| ==> s[j] != '/'
  }

  predicate IsAbsolute(s: string)
  {
    |s| > 0 && s[0] == '/'
  }

  /** A pure path as pathlib holds it: whether it is rooted, and its parts. */
  datatype PurePath = PurePath(absolute: bool, parts: seq<string>)

  /** `PurePath(s)`. */
  function ParsePath(s: string): PurePath
  {
    PurePath(IsAbsolute(s), Components(s))
  }

  /** `p / rel`: an absolute right-hand side replaces the left, a relative one adds its parts. */
  function JoinPath(p: PurePath, rel: string): PurePath
  {
    if IsAbsolute(rel) then ParsePath(rel) else PurePath(p.absolute, p.parts + Components(rel))
  }

  /** The `k`-th part from the end (0: `.name`, 1: `.parent.name`), or "". */
  function FromEnd(cs: seq<string>, k: nat): string
  {
    if k < |cs| then cs[|cs| - 1 - k] else ""
  }

  /** `root / f'src/main/java/{package}' / filePath`. */
  function CodeFilePath(root: string, package: string, filePath: string): PurePath
  {
    JoinPath(JoinPath(ParsePath(root), "src/main/java/" + package), filePath)
  }

  /** `p.name`: the last part, or "" when there is none. */
  function Name(p: PurePath): string
  {
    FromEnd(p.parts, 0)
  }

  /** `p.parent.name`: the part before the last, or "" when there is none. */
  function ParentName(p: PurePath): string
  {
    FromEnd(p.parts, 1)
  }

  /** The name a new code artifact gets: the file's last part. */
  function CodeName(root: string, package: string, filePath: string): string
  {
    Name(CodeFilePath(root, package, filePath))
  }

  /** The path a new code artifact gets: the name of the file's directory. */
  function CodeDir(root: string, package: string, filePath: string): string
  {
    ParentName(CodeFilePath(root, package, filePath))
  }

  lemma SlashIndexAppend(a: string, t: string)
    ensures SlashIndex(a + t) == if SlashIndex(a) < |a| then SlashIndex(a) else |a| + SlashIndex(t)
  {
    SlashIndexIsFirstSlash(a);
    SlashIndexIsFirstSlash(t);
    var i := SlashIndex(a);
    if i < |a| {
      assert forall j :: 0 <= j < i ==> (a + t)[j] == a[j];
      SlashIndexUnique(a + t, i);
    } else {
      var k := SlashIndex(t);
      assert forall j :: 0 <= j < |a| ==> (a + t)[j] == a[j];
      assert forall j :: |a| <= j < |a| + k ==> (a + t)[j] == t[j - |a|];
      SlashIndexUnique(a + t, |a| + k);
    }
  }

  /** Joining onto the empty path keeps only the right-hand side's components. */
  lemma JoinEmpty(b: string)
    ensures Components("" + "/" + b) == Components("") + Components(b)
  {
    var s := "" + "/" + b;
    assert SlashIndex(s) == 0;
    assert s[..0] == [] && s[1..] == b;
  }
  /** Joining a single part onto a path. */
  lemma JoinNoSlash(a: string, b: string)
    requires a != [] && SlashIndex(a) == |a|
    ensures Components(a + "/" + b) == Components(a) + Components(b)
  {
    var s := a + "/" + b;
    SlashIndexAppend(a, "/" + b);
    assert s == a + ("/" + b);
    assert SlashIndex(s) == |a|;
    assert s[..|a|] == a && s[|a| + 1..] == b;
  }
  /** A path up to its first '/' contributes one part, the rest follows. */
  lemma ComponentsAt(s: string, i: nat)
    requires i == SlashIndex(s) < |s|
    ensures Components(s) == Part(s[..i]) + Components(s[i + 1..])
  {
  }

  /** Joining with '/' concatenates the components. */
  lemma {:induction false} ComponentsJoin(a: string, b: string)
    ensures Components(a + "/" + b) == Components(a) + Components(b)
    decreases |a|
  {
    if a == [] {
      JoinEmpty(b);
      assert a + "/" + b == "" + "/" + b;
    } else if SlashIndex(a) == |a| {
      JoinNoSlash(a, b);
    } else {
      var i := SlashIndex(a);
      var s := a + "/" + b;
      SlashIndexAppend(a, "/" + b);
      assert s == a + ("/" + b);
      assert s[..i] == a[..i];
      assert s[i + 1..] == a[i + 1..] + "/" + b;
      ComponentsJoin(a[i + 1..], b);
      ComponentsAt(s, i);
      ComponentsAt(a, i);
    }
  }

  /** A single name is its own only component. */
  lemma ComponentsOfName(n: string)
    requires IsName(n)
    ensures Components(n) == [n]
  {
    SlashIndexUnique(n, |n|);
  }

  /** The literal package prefix, one '/'-join at a time. */
  lemma PackagePrefixSplit(package: string)
    ensures "src/main/java/" + package == "src" + "/" + ("main" + "/" + ("java" + "/" + package))
  {
  }

  /** "src", "main" and "java" are single names. */
  lemma PackagePrefixNames()
    ensures IsName("src") && IsName("main") && IsName("java")
  {
  }

  /** Prefixing a single name adds that one component. */
  lemma ComponentsUnderName(n: string, rest: string)
    requires IsName(n)
    ensures Components(n + "/" + rest) == [n] + Components(rest)
  {
    ComponentsJoin(n, rest);
    ComponentsOfName(n);
  }

  /** Three single names in front of a path add exactly those three components. */
  lemma ComponentsUnderNames(a: string, b: string, c: string, rest: string)
    requires IsName(a) && IsName(b) && IsName(c)
    ensures Components(a + "/" + (b + "/" + (c + "/" + rest))) == [a, b, c] + Components(rest)
  {
    ComponentsUnderName(c, rest);
    ComponentsUnderName(b, c + "/" + rest);
    ComponentsUnderName(a, b + "/" + (c + "/" + rest));
  }

  /** The package directory's components: "src", "main", "java", then the package's own. */
  lemma PackageDirComponents(package: string)
    ensures Components("src/main/java/" + package) == ["src", "main", "java"] + Components(package)
  {
    PackagePrefixSplit(package);
    PackagePrefixNames();
    ComponentsUnderNames("src", "main", "java", package);
  }

  /** A relative file path's parts follow the root's and the package directory's. */
  lemma CodeFileParts(root: string, package: string, filePath: string)
    requires !IsAbsolute(filePath)
    ensures CodeFilePath(root, package, filePath).parts
         == Components(root) + ["src", "main", "java"] + Components(package) + Components(filePath)
  {
    var pkgDir := "src/main/java/" + package;
    assert pkgDir[0] == 's';
    PackageDirComponents(package);
  }

  /**
   * A relative file path lands under `src/main/java/<package>`: the new
   * artifact's name is the file's last component, and its directory is
   * the file's own directory or, for a bare file name, the package's last
   * component ("java" when the package name has none).
   */
  lemma RelativeFileTarget(root: string, package: string, filePath: string)
    requires !IsAbsolute(filePath) && Components(filePath) != []
    ensures var cs := Components(filePath);
      var ps := Components(package);
      && CodeName(root, package, filePath) == cs[|cs| - 1]
      && CodeDir(root, package, filePath)
         == (if |cs| >= 2 then cs[|cs| - 2] else if ps != [] then ps[|ps| - 1] else "java")
  {
    CodeFileParts(root, package, filePath);
    var cs, ps := Components(filePath), Components(package);
    var front := Components(root) + ["src", "main", "java"] + ps;
    var all := front + cs;
    assert CodeFilePath(root, package, filePath).parts == all;
    assert all[|all| - 1] == cs[|cs| - 1];
    if |cs| >= 2 {
      assert all[|all| - 2] == cs[|cs| - 2];
    } else if ps != [] {
      assert all[|all| - 2] == front[|front| - 1] == ps[|ps| - 1];
    } else {
      assert front == Components(root) + ["src", "main", "java"];
      assert all[|all| - 2] == front[|front| - 1] == "java";
    }
  }

  /** An absolute file path discards the workspace root and the package directory. */
  lemma AbsoluteFileTarget(root: string, package: string, filePath: string)
    requires IsAbsolute(filePath)
    ensures CodeName(root, package, filePath) == FromEnd(Components(filePath), 0)
    ensures CodeDir(root, package, filePath) == FromEnd(Components(filePath), 1)
  {
  }

  // ---- create_artifacts ---------------------------------------------------

  /** The watches registered for `created`: design first, then system design, per artifact. */
  function WatchesFor(design: Artifact, systemDesign: Artifact, created: seq<Artifact>): seq<Watch>
    decreases |created|
  {
    if created == [] then []
    else
      var n := |created| - 1;
      WatchesFor(design, systemDesign, created[..n])
      + [Watch(design, created[n], WriteCodeKind), Watch(systemDesign, created[n], WriteCodeKind)]
  }

  /** Watches `2i` and `2i+1` are the design's and the system design's watch of artifact `i`. */
  lemma {:induction false} WatchesForAt(design: Artifact, systemDesign: Artifact, created: seq<Artifact>)
    ensures var w := WatchesFor(design, systemDesign, created);
      && |w| == 2 * |created|
      && forall i :: 0 <= i < |created| ==>
           && w[2 * i] == Watch(design, created[i], WriteCodeKind)
           && w[2 * i + 1] == Watch(systemDesign, created[i], WriteCodeKind)
    decreases |created|
  {
    if created != [] {
      var n := |created| - 1;
      WatchesForAt(design, systemDesign, created[..n]);
    }
  }

  /** No artifact occurs twice in `s`, each one being new when it is appended. */
  predicate Distinct(s: seq<Artifact>)
    decreases |s|
  {
    s == [] || (Distinct(s[..|s| - 1]) && s[|s| - 1] !in s[..|s| - 1])
  }

  /** `Distinct` means pairwise different. */
  lemma {:induction false} DistinctPairwise(s: seq<Artifact>)
    ensures Distinct(s) <==> forall j, k :: 0 <= j < k < |s| ==> s[j] != s[k]
    decreases |s|
  {
    if s != [] {
      var n := |s| - 1;
      DistinctPairwise(s[..n]);
      assert forall j :: 0 <= j < n ==> s[..n][j] == s[j];
    }
  }

  /**
   * Every new artifact receives exactly two WRITE_CODE watches, one from
   * the design and one from the system design, and no other new artifact
   * shares them.
   */
  lemma ExactlyTwoWatches(design: Artifact, systemDesign: Artifact, created: seq<Artifact>, i: nat)
    requires i < |created|
    requires Distinct(created)
    ensures var w := WatchesFor(design, systemDesign, created);
      forall x :: 0 <= x < |w| ==> (w[x].downstream == created[i] <==> x == 2 * i || x == 2 * i + 1)
  {
    DistinctPairwise(created);
    var w := WatchesFor(design, systemDesign, created);
    WatchesForAt(design, systemDesign, created);
    forall x | 0 <= x < |w|
      ensures w[x].downstream == created[i] <==> x == 2 * i || x == 2 * i + 1
    {
      var k := x / 2;
      assert x == 2 * k || x == 2 * k + 1;
      assert w[x].downstream == created[k];
    }
  }

  /**
   * `a` is the code artifact `create_artifacts` makes for the file at
   * `target` with type `fileType`: kind CODE, named after the file, in the
   * file's directory, with the entry's type as sub-type.
   */
  predicate MadeAt(a: Artifact, target: PurePath, fileType: string)
    reads a
  {
    && a.kind == Code
    && a.name == Name(target)
    && a.path == ParentName(target)
    && a.subType == Some(fileType)
  }

  /** The file paths `create_artifacts` computes, one per entry, in entry order. */
  function FilePaths(root: string, package: string, files: seq<FileEntry>): (ps: seq<PurePath>)
    ensures |ps| == |files|
    decreases |files|
  {
    if files == [] then []
    else
      var n := |files| - 1;
      FilePaths(root, package, files[..n]) + [CodeFilePath(root, package, files[n].path)]
  }

  /** Entry `j` of `FilePaths` is the path of file `j`. */
  lemma {:induction false} FilePathAt(root: string, package: string, files: seq<FileEntry>, j: nat)
    requires j < |files|
    ensures FilePaths(root, package, files)[j] == CodeFilePath(root, package, files[j].path)
    decreases |files|
  {
    var n := |files| - 1;
    if j < n {
      FilePathAt(root, package, files[..n], j);
    }
  }

  /**
   * The body of `create_artifacts` for one file entry: a new CODE artifact
   * with the entry's type as sub-type, watched by the design and then by
   * the system design.
   */
  method CreateCodeArtifact(mgr: ArtifactMgr, design: Artifact, systemDesign: Artifact,
                            target: PurePath, fileType: string, ghost earlier: seq<Artifact>)
    returns (a: Artifact)
    modifies mgr
    ensures fresh(a) && MadeAt(a, target, fileType) && a !in earlier
    ensures mgr.created == old(mgr.created) + [a]
    ensures mgr.watches == old(mgr.watches)
                           + [Watch(design, a, WriteCodeKind), Watch(systemDesign, a, WriteCodeKind)]
  {
    a := mgr.CreateArtifact(Code, Name(target), ParentName(target));
    a.subType := Some(fileType);
    mgr.AddWatch(design, a, WriteCodeKind);
    mgr.AddWatch(systemDesign, a, WriteCodeKind);
  }

  /**
   * `create_artifacts`: for each file entry, in order, creates a CODE
   * artifact named after the file, sets its sub-type to the entry's type,
   * and registers the design's and the system design's WRITE_CODE watches.
   */
  method CreateArtifacts(mgr: ArtifactMgr, design: Artifact, systemDesign: Artifact,
                         root: string, package: string, files: seq<FileEntry>)
    returns (created: seq<Artifact>)
    modifies mgr
    ensures |created| == |files|
    ensures forall i :: 0 <= i < |files| ==>
              && fresh(created[i])
              && MadeAt(created[i], CodeFilePath(root, package, files[i].path), files[i].fileType)
    ensures Distinct(created)
    ensures mgr.created == old(mgr.created) + created
    ensures mgr.watches == old(mgr.watches) + WatchesFor(design, systemDesign, created)
  {
    var targets := FilePaths(root, package, files);
    created := [];
    // The invariant spells out `MadeAt(created[j], targets[j], files[j].fileType)`.
    var i := 0;
    while i < |files|
      invariant 0 <= i <= |files| && |created| == i
      invariant forall j :: 0 <= j < i ==> fresh(created[j])
      invariant forall j :: 0 <= j < i ==>
                  && created[j].kind == Code
                  && created[j].name == Name(targets[j]) && created[j].path == ParentName(targets[j])
                  && created[j].subType == Some(files[j].fileType)
      invariant Distinct(created)
      invariant mgr.created == old(mgr.created) + created
      invariant mgr.watches == old(mgr.watches) + WatchesFor(design, systemDesign, created)
    {
      var a := CreateCodeArtifact(mgr, design, systemDesign, targets[i], files[i].fileType, created);
      assert (created + [a])[..i] == created;
      AppendAssoc(old(mgr.created), created, [a]);
      AppendAssoc(old(mgr.watches), WatchesFor(design, systemDesign, created),
                  [Watch(design, a, WriteCodeKind), Watch(systemDesign, a, WriteCodeKind)]);
      created := created + [a];
      i := i + 1;
    }
    forall j | 0 <= j < |files|
      ensures targets[j] == CodeFilePath(root, package, files[j].path)
    {
      FilePathAt(root, package, files, j);
    }
  }

  // ---- _get_prompt_ -----------------------------------------------------

  /** The prompt kinds `_get_prompt_` is asked for. */
  datatype PromptType = Task | Comment | DependencyCreate | DependencyUpdate | NoAction

  /** What `_get_prompt_` does. */
  datatype PromptDecision =
    | Delegate           // returns the base action's `_get_prompt_` for the same type
    | CreateFromTemplate // the Dependency_Create template branch
    | Skip               // returns `(None, PromptType.No_Action)`
    | NoneReturned       // the loop found no entry and the method returns None

  /** The index of the first entry whose path is `target`, if any. */
  function FirstMatch(files: seq<FileEntry>, target: string): (r: Option<nat>)
    ensures r.Some? ==> r.value < |files| && files[r.value].path == target
    ensures r.Some? ==> forall j :: 0 <= j < r.value ==> files[j].path != target
    ensures r.None? ==> forall j :: 0 <= j < |files| ==> files[j].path != target
    decreases |files|
  {
    if files == [] then None
    else if files[0].path == target then Some(0)
    else match FirstMatch(files[1..], target)
      case None => None
      case Some(k) => Some(k + 1)
  }

  /** The key a code artifact is looked up by in the design's file list. */
  function ArtifactKey(artifactPath: string, artifactName: string): string
  {
    "/" + artifactPath + "/" + artifactName
  }

  /**
   * `_get_prompt_` of the code action for an artifact at
   * `artifactPath`/`artifactName`, given the design's file list.
   */
  method GetPrompt(promptType: PromptType, artifactPath: string, artifactName: string,
                   files: seq<FileEntry>)
    returns (d: PromptDecision)
    ensures promptType == DependencyCreate ==> d == CreateFromTemplate
    ensures promptType != DependencyCreate && promptType != DependencyUpdate ==> d == Delegate
    ensures promptType == DependencyUpdate ==>
              d == match FirstMatch(files, ArtifactKey(artifactPath, artifactName))
                   case None => NoneReturned
                   case Some(i) => if files[i].action == "Update" then Delegate else Skip
  {
    if promptType == DependencyCreate {
      return CreateFromTemplate;
    } else if promptType == DependencyUpdate {
      var key := ArtifactKey(artifactPath, artifactName);
      var i := 0;
      while i < |files|
        invariant 0 <= i <= |files|
        invariant forall j :: 0 <= j < i ==> files[j].path != key
      {
        if files[i].path == key {
          if files[i].action == "Update" {
            return Delegate;
          } else {
            return Skip;
          }
        }
        i := i + 1;
      }
      return NoneReturned;
    } else {
      return Delegate;
    }
  }

  /** A leading '/' adds no part. */
  lemma RootedComponents(rest: string)
    ensures Components("/" + rest) == Components(rest)
  {
    var s := "/" + rest;
    assert SlashIndex(s) == 0;
    assert s[..0] == [] && s[1..] == rest;
  }

  /** "/<dir>/<name>" has the parts `dir` and `name`. */
  lemma RootedTwoNames(dir: string, name: string)
    requires IsName(dir) && IsName(name)
    ensures Components("/" + dir + "/" + name) == [dir, name]
  {
    var tail := dir + "/" + name;
    assert "/" + dir + "/" + name == "/" + tail;
    RootedComponents(tail);
    ComponentsUnderName(dir, name);
    ComponentsOfName(name);
  }

  /** "/<outer>/<dir>/<name>" has the parts `outer`, `dir` and `name`. */
  lemma RootedThreeNames(outer: string, dir: string, name: string)
    requires IsName(outer) && IsName(dir) && IsName(name)
    ensures Components("/" + outer + "/" + dir + "/" + name) == [outer, dir, name]
  {
    var tail := dir + "/" + name;
    var mid := outer + "/" + tail;
    var x := "/" + outer;
    AppendAssoc(x + "/" + dir, "/", name);
    AppendAssoc(x + "/", dir, "/" + name);
    AppendAssoc(dir, "/", name);
    AppendAssoc(x, "/", tail);
    AppendAssoc("/", outer, "/" + tail);
    AppendAssoc(outer, "/", tail);
    assert "/" + outer + "/" + dir + "/" + name == "/" + mid;
    RootedComponents(mid);
    ComponentsUnderName(outer, tail);
    ComponentsUnderName(dir, name);
    ComponentsOfName(name);
  }

  /**
   * The file list's own entry finds the code artifact created from it
   * when the entry's path has the form "/<dir>/<name>".
   */
  lemma DirFileEntryMatchesItsArtifact(root: string, package: string, dir: string, name: string)
    requires IsName(dir) && IsName(name)
    ensures var p := "/" + dir + "/" + name;
      ArtifactKey(CodeDir(root, package, p), CodeName(root, package, p)) == p
  {
    var p := "/" + dir + "/" + name;
    RootedTwoNames(dir, name);
    AbsoluteFileTarget(root, package, p);
  }

  /**
   * A relative entry path never finds the artifact created from it: the
   * lookup key always starts with '/'.
   */
  lemma RelativeEntryNeverMatches(root: string, package: string, filePath: string)
    requires !IsAbsolute(filePath)
    ensures ArtifactKey(CodeDir(root, package, filePath), CodeName(root, package, filePath)) != filePath
  {
    var key := ArtifactKey(CodeDir(root, package, filePath), CodeName(root, package, filePath));
    assert key[0] == '/';
  }

  /**
   * An entry nested two directories deep never finds the artifact created
   * from it: the artifact keeps only the innermost directory.
   */
  lemma NestedEntryNeverMatches(root: string, package: string, outer: string, dir: string, name: string)
    requires IsName(outer) && IsName(dir) && IsName(name)
    ensures var p := "/" + outer + "/" + dir + "/" + name;
      ArtifactKey(CodeDir(root, package, p), CodeName(root, package, p)) != p
  {
    var p := "/" + outer + "/" + dir + "/" + name;
    RootedThreeNames(outer, dir, name);
    AbsoluteFileTarget(root, package, p);
    assert |ArtifactKey(dir, name)| < |p|;
  }
}
