/** The two `os.path` functions the handlers use, as Python's `posixpath` defines them. */
module PosixPath {

  /** `os.path.basename(p)`: the part of `p` after its last `/` (all of `p` when it has none). */
  function Basename(p: string): (b: string)
    ensures '/' !in b
    ensures |b| <= |p| && p[|p| - |b|..] == b
    ensures |b| < |p| ==> p[|p| - |b| - 1] == '/'
  {
    if p == [] then []
    else if p[|p| - 1] == '/' then []
    else Basename(p[..|p| - 1]) + [p[|p| - 1]]
  }

  /** Whatever precedes the last `/` is dropped. */
  lemma {:induction false} BasenameAfterSlash(dir: string, name: string)
    requires '/' !in name
    ensures Basename(dir + "/" + name) == name
  {
    if name != [] {
      var p := dir + "/" + name;
      assert p[..|p| - 1] == dir + "/" + name[..|name| - 1];
      BasenameAfterSlash(dir, name[..|name| - 1]);
      assert name[..|name| - 1] + [name[|name| - 1]] == name;
    } else {
      assert dir + "/" + name == (dir + "/" + name)[..|dir| + 1];
    }
  }

  /** `os.path.join(a, b)` for two components: an absolute `b` replaces `a`;
      otherwise a `/` is inserted unless `a` is empty or already ends with one. */
  function Join(a: string, b: string): (r: string)
    ensures |b| > 0 && b[0] == '/' ==> r == b
    ensures |r| >= |b|
    ensures (|b| == 0 || b[0] != '/') ==> r[|r| - |b|..] == b
  {
    if |b| > 0 && b[0] == '/' then b
    else if a == [] || a[|a| - 1] == '/' then a + b
    else a + "/" + b
  }

  /** Joining a directory that ends in `/` with a bare name is plain concatenation. */
  lemma JoinUnderDirectory(dir: string, name: string)
    requires |dir| > 0 && dir[|dir| - 1] == '/'
    requires '/' !in name
    ensures Join(dir, name) == dir + name
  {
    if |name| > 0 { assert name[0] in name; }
  }

  /** Joining a directory that does not end in `/` with a bare name inserts one `/`. */
  lemma JoinAddsSeparator(dir: string, name: string)
    requires |dir| > 0 && dir[|dir| - 1] != '/'
    requires '/' !in name
    ensures Join(dir, name) == dir + "/" + name
  {
    if |name| > 0 { assert name[0] in name; }
  }
}
