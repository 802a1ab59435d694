/**
 * The target path resolver of the scaffolder: `getBaseDir` (index.js:30-53)
 * with the working directory as a parameter, and the two `path` operations
 * the generator uses.
 */
module Paths {
  import opened Text

  /**
   * `path.join` of two clean segments. Collapsing `.`, `..` and repeated
   * separators is not modelled.
   */
  function Join(a: string, b: string): (p: string)
    ensures |p| == |a| + 1 + |b|
    ensures a + "/" <= p && p[|a| + 1..] == b
  {
    a + "/" + b
  }

  /**
   * The base directory for a normalised module path, decided by ordered
   * substring tests of the working directory. However it is decided, it
   * lies under the working directory and ends with the module path.
   */
  function GetBaseDir(cwd: string, normalizedAppName: string): (baseDir: string)
    ensures cwd + "/" <= baseDir
    ensures |baseDir| >= |normalizedAppName| && baseDir[|baseDir| - |normalizedAppName|..] == normalizedAppName
  {
    if Contains(cwd, "src/main/java") then
      Join(cwd, normalizedAppName)
    else if Contains(cwd, "src") then
      Join(Join(Join(cwd, "main"), "java"), normalizedAppName)
    else if Contains(cwd, "src/main") then
      Join(Join(cwd, "java"), normalizedAppName)
    else
      Join(Join(Join(Join(cwd, "src"), "main"), "java"), normalizedAppName)
  }

  /** The joins of `getBaseDir`, spelled out. */
  lemma JoinedLayouts(cwd: string, n: string)
    ensures Join(Join(Join(cwd, "main"), "java"), n) == cwd + "/main/java/" + n
    ensures Join(Join(Join(Join(cwd, "src"), "main"), "java"), n) == cwd + "/src/main/java/" + n
  {
  }

  /** The `src/main` test (index.js:44) can never decide: `src` already matched. */
  lemma SrcMainRuleUnreachable(cwd: string)
    ensures Contains(cwd, "src/main") ==> Contains(cwd, "src")
  {
    assert "src" + "/main" == "src/main";
    ContainsPrefixOf(cwd, "src", "/main");
  }

  /** First rule: inside a Java source root the module path is appended. */
  lemma BaseDirRuleJavaRoot(cwd: string, normalizedAppName: string)
    requires Contains(cwd, "src/main/java")
    ensures GetBaseDir(cwd, normalizedAppName) == cwd + "/" + normalizedAppName
  {
  }

  /** Second rule: inside some other `src` the module path goes under `main/java`. */
  lemma BaseDirRuleSrc(cwd: string, normalizedAppName: string)
    requires !Contains(cwd, "src/main/java") && Contains(cwd, "src")
    ensures GetBaseDir(cwd, normalizedAppName) == cwd + "/main/java/" + normalizedAppName
  {
    JoinedLayouts(cwd, normalizedAppName);
  }

  /** Otherwise, the `src/main` test being dead, it goes under `src/main/java`. */
  lemma BaseDirRuleElsewhere(cwd: string, normalizedAppName: string)
    requires !Contains(cwd, "src")
    ensures GetBaseDir(cwd, normalizedAppName) == cwd + "/src/main/java/" + normalizedAppName
  {
    SrcMainRuleUnreachable(cwd);
    assert "src" + "/main/java" == "src/main/java";
    ContainsPrefixOf(cwd, "src", "/main/java");
    JoinedLayouts(cwd, normalizedAppName);
  }

  /** Run from a Java source root, the module path is placed right there. */
  lemma BaseDirInJavaRoot(root: string, normalizedAppName: string)
    ensures GetBaseDir(root + "src/main/java", normalizedAppName) == root + "src/main/java/" + normalizedAppName
  {
    ContainsSuffix(root, "src/main/java");
    BaseDirRuleJavaRoot(root + "src/main/java", normalizedAppName);
  }

  /** Run from a `src` directory, the module path lands in its `main/java`. */
  lemma BaseDirInSrc(root: string, normalizedAppName: string)
    requires !Contains(root + "src", "src/main/java")
    ensures GetBaseDir(root + "src", normalizedAppName) == root + "src/main/java/" + normalizedAppName
  {
    ContainsSuffix(root, "src");
    BaseDirRuleSrc(root + "src", normalizedAppName);
  }

  /** The index of the last `/` of `p` at position 1 or later, if any. */
  function LastSlash(p: string): (k: int)
    ensures -1 <= k < |p| && (k == -1 || k >= 1)
    ensures k >= 1 ==> p[k] == '/'
    decreases |p|
  {
    if |p| <= 1 then -1
    else if p[|p| - 1] == '/' then |p| - 1
    else LastSlash(p[..|p| - 1])
  }

  /** No separator follows the one `LastSlash` finds. */
  lemma {:induction false} LastSlashIsLast(p: string)
    ensures forall j :: LastSlash(p) < j < |p| && j >= 1 ==> p[j] != '/'
    decreases |p|
  {
    if |p| > 1 && p[|p| - 1] != '/' {
      var q := p[..|p| - 1];
      LastSlashIsLast(q);
      assert forall j :: 0 <= j < |q| ==> q[j] == p[j];
    }
  }

  /**
   * `path.dirname` of a path that does not end with `/`: everything before
   * the last separator; `/` for a file in the root, `.` without separator.
   */
  function Dirname(p: string): (d: string)
    ensures d != []
    ensures LastSlash(p) >= 1 ==> d == p[..LastSlash(p)]
  {
    var k := LastSlash(p);
    if k >= 1 then p[..k]
    else if p != [] && p[0] == '/' then "/"
    else "."
  }

  /** The parent of `dir/leaf` is `dir` when `leaf` has no separator. */
  lemma DirnameOfJoin(dir: string, leaf: string)
    requires dir != [] && '/' !in leaf
    ensures Dirname(Join(dir, leaf)) == dir
  {
    var p := Join(dir, leaf);
    LastSlashIsLast(p);
    assert p[|dir|] == '/';
    assert LastSlash(p) == |dir|;
    assert p[..|dir|] == dir;
  }

  /** `x` is `d` itself or a directory above it: a prefix ending at a separator of `d`. */
  predicate AncestorOrSelf(x: string, d: string)
  {
    x != [] && x <= d && (|x| == |d| || d[|x|] == '/')
  }

  /**
   * `mkdirSync(dir, { recursive: true })` creates `dir` and every ancestor:
   * each prefix of `dir` that ends just before a separator.
   */
  function DirChain(dir: string): (chain: set<string>)
    ensures dir != [] ==> dir in chain
    ensures forall d :: d in chain ==> AncestorOrSelf(d, dir)
  {
    assert dir[..|dir|] == dir;
    set k | 0 < k <= |dir| && (k == |dir| || dir[k] == '/') :: dir[..k]
  }

  /** The chain holds exactly `dir` and its ancestors. */
  lemma DirChainIsAncestors(dir: string)
    ensures forall x :: x in DirChain(dir) <==> AncestorOrSelf(x, dir)
  {
    forall x | AncestorOrSelf(x, dir)
      ensures x in DirChain(dir)
    {
      assert dir[..|x|] == x;
    }
  }
}
