/** The parts of Python's `posixpath` the core relies on: `dirname`,
    `basename` and `abspath`.  `abspath` joins a relative path onto the
    working directory; the `normpath` rewriting of "." ".." and repeated
    slashes is not modelled. */
module Paths {

  /** Index just after the last '/' of `p`, or 0 when `p` has none. */
  function SplitIndex(p: string): (i: nat)
    ensures i <= |p|
    ensures i > 0 ==> p[i - 1] == '/'
    ensures forall j :: i <= j < |p| ==> p[j] != '/'
  {
    if p == [] then 0
    else if p[|p| - 1] == '/' then |p|
    else SplitIndex(p[..|p| - 1])
  }

  predicate AllSlashes(s: string)
  {
    forall j :: 0 <= j < |s| ==> s[j] == '/'
  }

  function RStripSlashes(s: string): (r: string)
    ensures |r| <= |s| && r == s[..|r|]
    ensures r == [] || r[|r| - 1] != '/'
    ensures forall j :: |r| <= j < |s| ==> s[j] == '/'
  {
    if s == [] || s[|s| - 1] != '/' then s else RStripSlashes(s[..|s| - 1])
  }

  /** `posixpath.basename`: everything after the last '/'. */
  function Basename(p: string): (r: string)
    ensures '/' !in r
  {
    var i := SplitIndex(p);
    assert forall j :: 0 <= j < |p[i..]| ==> p[i..][j] == p[i + j];
    p[i..]
  }

  /** `posixpath.dirname`: everything before the last '/', trailing
      slashes removed unless the head is made of slashes only. */
  function Dirname(p: string): string
  {
    var head := p[..SplitIndex(p)];
    if head != [] && !AllSlashes(head) then RStripSlashes(head) else head
  }

  predicate IsAbsolute(p: string)
  {
    |p| > 0 && p[0] == '/'
  }

  /** `os.path.abspath` relative to the working directory `cwd`. */
  function Abspath(cwd: string, p: string): (r: string)
    ensures IsAbsolute(p) ==> r == p
    ensures IsAbsolute(cwd) ==> IsAbsolute(r)
  {
    if IsAbsolute(p) then p else if p == [] then cwd else cwd + "/" + p
  }

  /** A name that does not end in '/' is longer than its directory. */
  lemma DirnameShorter(p: string)
    requires p != [] && p[|p| - 1] != '/'
    ensures |Dirname(p)| < |p|
  {
  }

  /** The directory of an absolute path is absolute. */
  lemma DirnameAbsolute(p: string)
    requires IsAbsolute(p)
    ensures IsAbsolute(Dirname(p))
  {
  }

  /** A name that does not end in '/' has a non-empty basename. */
  lemma BasenameOfFileName(p: string)
    requires p != [] && p[|p| - 1] != '/'
    ensures Basename(p) != [] && Basename(p)[|Basename(p)| - 1] == p[|p| - 1]
  {
  }

  /** `f"{d}/{name}"` splits back into `d` and `name`. */
  lemma JoinSplits(d: string, name: string)
    requires d != [] && d[|d| - 1] != '/'
    requires name != [] && '/' !in name
    ensures Basename(d + "/" + name) == name
    ensures Dirname(d + "/" + name) == d
  {
    var p := d + "/" + name;
    assert p[|d|] == '/';
    forall j | |d| + 1 <= j < |p| ensures p[j] != '/' {
      assert p[j] == name[j - |d| - 1];
    }
    var i := SplitIndex(p);
    assert i == |d| + 1;
    assert p[i..] == name;
    var head := p[..i];
    assert head == d + "/";
    assert !AllSlashes(head) by { assert head[|d| - 1] == d[|d| - 1]; }
    var r := RStripSlashes(head);
    assert r == d by {
      assert RStripSlashes(head) == RStripSlashes(head[..|head| - 1]);
      assert head[..|head| - 1] == d;
    }
  }
}
