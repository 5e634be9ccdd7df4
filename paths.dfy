/** The service's directory layout and the parts of `pathlib` it relies on:
    joining with `/`, a path's final component (`name`) and its `stem`.
    Paths are the strings the service builds; no `..` or `.` component is
    resolved, as `pathlib` does not resolve them either. */
module Paths {

  const SessionDir: string := "session_files"
  const TempDir: string := "temp_files"
  const OutputDir: string := "outputs"
  const TemplateDir: string := "flowchart_templates"
  const PdfTemplate: string := "Template.pdf"

  /** `Path(dir) / name`. */
  function Join(dir: string, name: string): string {
    dir + "/" + name
  }

  /** `Path(dir) / name` for a name that comes from a request: an absolute
      name replaces the directory, an empty one adds nothing, and any other
      is appended after a `/`. */
  function Append(dir: string, name: string): string {
    if name == [] then dir
    else if name[0] == '/' then name
    else Join(dir, name)
  }

  /** `p` lies somewhere below the directory `dir`. */
  predicate Under(dir: string, p: string) {
    |p| > |dir| && p[..|dir| + 1] == dir + "/"
  }

  predicate EndsWith(s: string, suffix: string) {
    |suffix| <= |s| && s[|s| - |suffix|..] == suffix
  }

  /** A `..` component starts at `i`: two dots with a `/` or an end of the
      path on either side. */
  predicate ParentStepAt(p: string, i: int) {
    && 0 <= i && i + 2 <= |p|
    && p[i] == '.' && p[i + 1] == '.'
    && (i == 0 || p[i - 1] == '/')
    && (i + 2 == |p| || p[i + 2] == '/')
  }

  /** `p` has no `..` component, so the operating system resolves it to a
      place below its own leading components. */
  predicate NoParentStep(p: string) {
    forall i :: 0 <= i < |p| ==> !ParentStepAt(p, i)
  }

  /** Joining a dot-free directory and a plain name that does not end in a
      dot yields no `..` component. */
  lemma NoParentStepInJoin(dir: string, name: string)
    requires '.' !in dir && '/' !in name
    requires name != [] && name[|name| - 1] != '.'
    ensures NoParentStep(Join(dir, name))
  {
    var p := Join(dir, name);
    assert p[|p| - 1] == name[|name| - 1];
    forall j | 0 <= j < |dir|
      ensures p[j] != '.'
    {
      assert p[j] == dir[j];
    }
    forall j | |dir| < j < |p|
      ensures p[j] != '/'
    {
      assert p[j] == name[j - |dir| - 1];
    }
  }

  /** Where the final component of `p` starts: just after its last `/`. */
  function NameStart(p: string): (k: nat)
    ensures k <= |p|
    ensures forall i :: k <= i < |p| ==> p[i] != '/'
    ensures k > 0 ==> p[k - 1] == '/'
  {
    if p == [] then 0
    else if p[|p| - 1] == '/' then |p|
    else NameStart(p[..|p| - 1])
  }

  /** `PurePath.name`. */
  function Name(p: string): (r: string)
    ensures '/' !in r
  {
    p[NameStart(p)..]
  }

  /** Python's `name.rfind('.')`. */
  function LastDot(n: string): (i: int)
    ensures -1 <= i < |n|
    ensures i >= 0 ==> n[i] == '.'
    ensures forall j :: i < j < |n| ==> n[j] != '.'
  {
    if n == [] then -1
    else if n[|n| - 1] == '.' then |n| - 1
    else LastDot(n[..|n| - 1])
  }

  /** The last dot is at `k` when `k` holds a dot and nothing after it does. */
  lemma LastDotIs(n: string, k: int)
    requires 0 <= k < |n| && n[k] == '.'
    requires forall j :: k < j < |n| ==> n[j] != '.'
    ensures LastDot(n) == k
  {
  }

  /** `PurePath.stem`: the name without its suffix, where a dot that leads
      or ends the name does not start a suffix. */
  function Stem(p: string): (r: string)
    ensures '/' !in r
  {
    var n := Name(p);
    var i := LastDot(n);
    if 0 < i < |n| - 1 then n[..i] else n
  }

  /** What comes before the last `/` of the second part does not matter to the name. */
  lemma NameOfJoin(dir: string, rest: string)
    ensures Name(Join(dir, rest)) == Name(rest)
  {
    var p := Join(dir, rest);
    var kr := NameStart(rest);
    var k := NameStart(p);
    var target := |dir| + 1 + kr;
    assert p[|dir|] == '/';
    assert kr > 0 ==> p[|dir| + kr] == rest[kr - 1];
    assert p[target - 1] == '/';
    assert k == target;
    assert p[k..] == rest[kr..];
  }

  /** A string without `/` is its own name. */
  lemma NameOfPlain(n: string)
    requires '/' !in n
    ensures Name(n) == n
  {
  }

  /** The stem of `dir/base.ext` is `base`, when `base` is a plain non-empty
      name and `ext` a single suffix such as `.dot` or `.png`. */
  lemma StemOfFile(dir: string, base: string, ext: string)
    requires base != [] && '/' !in base
    requires |ext| >= 2 && ext[0] == '.' && '.' !in ext[1..] && '/' !in ext
    ensures Stem(Join(dir, base + ext)) == base
  {
    var n := base + ext;
    assert Name(Join(dir, n)) == n by {
      NameOfJoin(dir, n);
      NameOfPlain(n);
    }
    assert LastDot(n) == |base| by {
      assert n[|base|] == '.';
    }
    assert n[..|base|] == base;
  }

  /** Any path ending in `.dot` has a non-empty stem. */
  lemma StemOfDotPath(p: string)
    requires EndsWith(p, ".dot")
    ensures Stem(p) != []
  {
    var k := NameStart(p);
    assert p[|p| - 4..] == ".dot";
    assert p[|p| - 4] == '.' && p[|p| - 3] == 'd' && p[|p| - 2] == 'o' && p[|p| - 1] == 't';
    assert k <= |p| - 4;
    var n := Name(p);
    assert |n| >= 4 && n[|n| - 1] == 't' && n[|n| - 4] == '.';
  }
}
