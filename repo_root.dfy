/**
 * The repository-root search of src/server.ts: `findRepoRoot` climbs at
 * most ten directories looking for `package.json`, and `resolveCandidates`
 * returns the first existing candidate path under the repository root, the
 * module directory and the working directory. The file system is an
 * abstract `onDisk` predicate and `path.join` an abstract `join` function.
 */
module RepoRoot {
  import opened Optional

  /** `fs.existsSync`. */
  type Exists = string -> bool
  /** `path.join(dir, ...parts)`. */
  type Join = (string, seq<string>) -> string

  const MAX_SEARCH_DEPTH: nat := 10

  /** `join(dir, '..')`. */
  function Parent(join: Join, dir: string): string {
    join(dir, [".."])
  }

  /** `fs.existsSync(join(dir, 'package.json'))`. */
  predicate HasManifest(onDisk: Exists, join: Join, dir: string) {
    onDisk(join(dir, ["package.json"]))
  }

  /** The directory `k` parent steps above `dir`. */
  function Ancestor(join: Join, dir: string, k: nat): string
    decreases k
  {
    if k == 0 then dir else Ancestor(join, Parent(join, dir), k - 1)
  }

  /** The climb from `dir` reaches its `k`-th ancestor: none of the first `k` directories has a manifest or is its own parent. */
  ghost predicate Climbs(onDisk: Exists, join: Join, dir: string, k: nat) {
    forall j :: 0 <= j < k ==>
      !HasManifest(onDisk, join, Ancestor(join, dir, j)) && Parent(join, Ancestor(join, dir, j)) != Ancestor(join, dir, j)
  }

  /** The search from `cur` with `steps` iterations of the loop left. */
  function SearchFrom(onDisk: Exists, join: Join, cur: string, steps: nat): Option<string>
    decreases steps
  {
    if steps == 0 then None
    else if HasManifest(onDisk, join, cur) then Some(cur)
    else if Parent(join, cur) == cur then None
    else SearchFrom(onDisk, join, Parent(join, cur), steps - 1)
  }

  /** What `findRepoRoot(start)` returns; an empty (falsy) start gives undefined. */
  function RepoRootSearch(onDisk: Exists, join: Join, start: string): Option<string> {
    if start == "" then None else SearchFrom(onDisk, join, start, MAX_SEARCH_DEPTH)
  }

  method FindRepoRoot(start: string, onDisk: Exists, join: Join) returns (root: Option<string>)
    ensures root == RepoRootSearch(onDisk, join, start)
  {
    if start == "" {
      return None;
    }
    var cur := start;
    var i := 0;
    while i < MAX_SEARCH_DEPTH
      invariant 0 <= i <= MAX_SEARCH_DEPTH
      invariant SearchFrom(onDisk, join, cur, MAX_SEARCH_DEPTH - i) == SearchFrom(onDisk, join, start, MAX_SEARCH_DEPTH)
    {
      if onDisk(join(cur, ["package.json"])) {
        return Some(cur);
      }
      var parent := join(cur, [".."]);
      if parent == cur {
        break;
      }
      cur := parent;
      i := i + 1;
    }
    return None;
  }

  lemma {:induction false} ClimbsStep(onDisk: Exists, join: Join, dir: string, k: nat)
    requires Climbs(onDisk, join, dir, k + 1)
    ensures !HasManifest(onDisk, join, dir) && Parent(join, dir) != dir
    ensures Climbs(onDisk, join, Parent(join, dir), k)
  {
    assert Ancestor(join, dir, 0) == dir;
    forall j | 0 <= j < k
      ensures !HasManifest(onDisk, join, Ancestor(join, Parent(join, dir), j))
      ensures Parent(join, Ancestor(join, Parent(join, dir), j)) != Ancestor(join, Parent(join, dir), j)
    {
      assert Ancestor(join, dir, j + 1) == Ancestor(join, Parent(join, dir), j);
    }
  }

  /**
   * Soundness: a directory the search returns has a manifest and is the
   * `k`-th ancestor of the start for some `k` below the step budget, reached
   * through directories that have none.
   */
  lemma {:induction false} SearchFromSound(onDisk: Exists, join: Join, cur: string, steps: nat, root: string)
    requires SearchFrom(onDisk, join, cur, steps) == Some(root)
    ensures HasManifest(onDisk, join, root)
    ensures exists k :: 0 <= k < steps && Climbs(onDisk, join, cur, k) && root == Ancestor(join, cur, k)
    decreases steps
  {
    if HasManifest(onDisk, join, cur) {
      assert Climbs(onDisk, join, cur, 0) && root == Ancestor(join, cur, 0);
    } else {
      var up := Parent(join, cur);
      SearchFromSound(onDisk, join, up, steps - 1, root);
      var k :| 0 <= k < steps - 1 && Climbs(onDisk, join, up, k) && root == Ancestor(join, up, k);
      assert root == Ancestor(join, cur, k + 1);
      forall j | 0 <= j < k + 1
        ensures !HasManifest(onDisk, join, Ancestor(join, cur, j))
        ensures Parent(join, Ancestor(join, cur, j)) != Ancestor(join, cur, j)
      {
        if j > 0 {
          assert Ancestor(join, cur, j) == Ancestor(join, up, j - 1);
        }
      }
      assert Climbs(onDisk, join, cur, k + 1);
    }
  }

  /** Completeness: the first ancestor with a manifest within the step budget is found. */
  lemma {:induction false} SearchFromComplete(onDisk: Exists, join: Join, cur: string, steps: nat, k: nat)
    requires k < steps
    requires Climbs(onDisk, join, cur, k) && HasManifest(onDisk, join, Ancestor(join, cur, k))
    ensures SearchFrom(onDisk, join, cur, steps) == Some(Ancestor(join, cur, k))
    decreases k
  {
    if k > 0 {
      ClimbsStep(onDisk, join, cur, k - 1);
      SearchFromComplete(onDisk, join, Parent(join, cur), steps - 1, k - 1);
    }
  }

  /**
   * The search examines at most `steps` directories: two file systems that
   * agree on the manifests of the first `steps` ancestors give the same answer.
   */
  lemma {:induction false} SearchLooksAtMostSteps(e1: Exists, e2: Exists, join: Join, cur: string, steps: nat)
    requires forall j :: 0 <= j < steps ==>
      HasManifest(e1, join, Ancestor(join, cur, j)) == HasManifest(e2, join, Ancestor(join, cur, j))
    ensures SearchFrom(e1, join, cur, steps) == SearchFrom(e2, join, cur, steps)
    decreases steps
  {
    if steps > 0 {
      assert Ancestor(join, cur, 0) == cur;
      var up := Parent(join, cur);
      forall j | 0 <= j < steps - 1
        ensures HasManifest(e1, join, Ancestor(join, up, j)) == HasManifest(e2, join, Ancestor(join, up, j))
      {
        assert Ancestor(join, cur, j + 1) == Ancestor(join, up, j);
      }
      SearchLooksAtMostSteps(e1, e2, join, up, steps - 1);
    }
  }

  /** `findRepoRoot(process.cwd()) || findRepoRoot(import.meta.dirname) || process.cwd()`. */
  function RepoRootOf(onDisk: Exists, join: Join, cwd: string, moduleDir: string): (root: string)
    ensures var fromCwd := RepoRootSearch(onDisk, join, cwd);
      fromCwd.Some? && fromCwd.value != "" ==> root == fromCwd.value
    ensures var fromCwd := RepoRootSearch(onDisk, join, cwd);
      var fromModule := RepoRootSearch(onDisk, join, moduleDir);
      !(fromCwd.Some? && fromCwd.value != "") ==>
        root == (if fromModule.Some? && fromModule.value != "" then fromModule.value else cwd)
    ensures root == cwd || HasManifest(onDisk, join, root)
    ensures root == cwd ||
      exists k :: 0 <= k < MAX_SEARCH_DEPTH && (root == Ancestor(join, cwd, k) || root == Ancestor(join, moduleDir, k))
  {
    var fromCwd := RepoRootSearch(onDisk, join, cwd);
    if fromCwd.Some? && fromCwd.value != "" then
      SearchFromSound(onDisk, join, cwd, MAX_SEARCH_DEPTH, fromCwd.value);
      fromCwd.value
    else
      var fromModule := RepoRootSearch(onDisk, join, moduleDir);
      if fromModule.Some? && fromModule.value != "" then
        SearchFromSound(onDisk, join, moduleDir, MAX_SEARCH_DEPTH, fromModule.value);
        fromModule.value
      else cwd
  }

  /** The position of the first existing path, or `|candidates|` when none onDisk. */
  function FirstExistingIndex(onDisk: Exists, candidates: seq<string>): (k: nat)
    ensures k <= |candidates|
    ensures forall j :: 0 <= j < k ==> !onDisk(candidates[j])
    ensures k < |candidates| ==> onDisk(candidates[k])
    decreases |candidates|
  {
    if candidates == [] then 0
    else if onDisk(candidates[0]) then 0
    else 1 + FirstExistingIndex(onDisk, candidates[1..])
  }

  /** The three places `resolveCandidates` tries, best first. */
  function Candidates(join: Join, root: string, moduleDir: string, cwd: string, parts: seq<string>): seq<string> {
    [join(root, parts), join(moduleDir, parts), join(cwd, parts)]
  }

  /** The path `resolveCandidates(...parts)` returns. */
  function ResolvedPath(onDisk: Exists, join: Join, cwd: string, moduleDir: string, parts: seq<string>): string {
    var root := RepoRootOf(onDisk, join, cwd, moduleDir);
    var candidates := Candidates(join, root, moduleDir, cwd, parts);
    var k := FirstExistingIndex(onDisk, candidates);
    if k < |candidates| then candidates[k] else join(root, parts)
  }

  method ResolveCandidates(parts: seq<string>, cwd: string, moduleDir: string, onDisk: Exists, join: Join)
    returns (path: string)
    ensures path == ResolvedPath(onDisk, join, cwd, moduleDir, parts)
  {
    var fromCwd := FindRepoRoot(cwd, onDisk, join);
    var root: string;
    if fromCwd.Some? && fromCwd.value != "" {
      root := fromCwd.value;
    } else {
      var fromModule := FindRepoRoot(moduleDir, onDisk, join);
      root := if fromModule.Some? && fromModule.value != "" then fromModule.value else cwd;
    }
    assert root == RepoRootOf(onDisk, join, cwd, moduleDir);
    var candidates := [join(root, parts), join(moduleDir, parts), join(cwd, parts)];
    var i := 0;
    while i < |candidates|
      invariant 0 <= i <= |candidates|
      invariant forall j :: 0 <= j < i ==> !onDisk(candidates[j])
    {
      if onDisk(candidates[i]) {
        return candidates[i];
      }
      i := i + 1;
    }
    return join(root, parts);
  }

  /**
   * The order of preference: the repository-rooted candidate wins whenever it
   * onDisk, the module-directory one when only it and later ones exist, and
   * the repository-rooted path is the answer when nothing onDisk.
   */
  lemma ResolvedPathPreference(onDisk: Exists, join: Join, cwd: string, moduleDir: string, parts: seq<string>)
    ensures var root := RepoRootOf(onDisk, join, cwd, moduleDir);
      && (onDisk(join(root, parts)) ==> ResolvedPath(onDisk, join, cwd, moduleDir, parts) == join(root, parts))
      && (!onDisk(join(root, parts)) && onDisk(join(moduleDir, parts)) ==>
            ResolvedPath(onDisk, join, cwd, moduleDir, parts) == join(moduleDir, parts))
      && (!onDisk(join(root, parts)) && !onDisk(join(moduleDir, parts)) && onDisk(join(cwd, parts)) ==>
            ResolvedPath(onDisk, join, cwd, moduleDir, parts) == join(cwd, parts))
      && (!onDisk(join(root, parts)) && !onDisk(join(moduleDir, parts)) && !onDisk(join(cwd, parts)) ==>
            ResolvedPath(onDisk, join, cwd, moduleDir, parts) == join(root, parts))
  {
    var root := RepoRootOf(onDisk, join, cwd, moduleDir);
    var candidates := Candidates(join, root, moduleDir, cwd, parts);
    assert candidates[1..] == [join(moduleDir, parts), join(cwd, parts)];
    assert candidates[1..][1..] == [join(cwd, parts)];
    assert candidates[1..][1..][1..] == [];
    if !onDisk(candidates[0]) {
      assert FirstExistingIndex(onDisk, candidates) == 1 + FirstExistingIndex(onDisk, candidates[1..]);
      if !onDisk(candidates[1]) {
        assert FirstExistingIndex(onDisk, candidates[1..]) == 1 + FirstExistingIndex(onDisk, candidates[1..][1..]);
      }
    }
  }
}
