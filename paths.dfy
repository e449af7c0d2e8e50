/** POSIX path helpers as Node's `path` module computes them for the paths
    the tool builds: `dirname`, `basename` (equivalently
    `split('/').pop()`) and `join`. Paths are taken as already normal: no
    `.`/`..` segments and no trailing separator. */
module Paths {

  /** The index of the last '/' in `p`, or -1 when there is none. */
  function LastSlash(p: string): (k: int)
    ensures -1 <= k < |p|
    ensures k >= 0 ==> p[k] == '/'
    ensures forall j :: k < j < |p| ==> p[j] != '/'
  {
    if p == [] then -1
    else if p[|p| - 1] == '/' then |p| - 1
    else LastSlash(p[..|p| - 1])
  }

  /** `path.basename(p)`, and also `p.split('/').pop()`: the last segment. */
  function Basename(p: string): (r: string)
    ensures '/' !in r
  {
    p[LastSlash(p) + 1..]
  }

  /** `path.dirname(p)`. */
  function Dirname(p: string): string {
    var k := LastSlash(p);
    if k < 0 then "." else if k == 0 then "/" else p[..k]
  }

  /** `path.join(a, b)` (and `path.resolve(a, b)` for relative `b`). */
  function Join(a: string, b: string): string {
    a + "/" + b
  }

  /** Joining a directory and a plain file name can be undone by `dirname`
      and `basename`. */
  lemma JoinSplits(dir: string, name: string)
    requires dir != [] && '/' !in name
    ensures Dirname(Join(dir, name)) == dir
    ensures Basename(Join(dir, name)) == name
  {
    var p := Join(dir, name);
    assert p[|dir|] == '/';
    assert forall j :: |dir| < j < |p| ==> p[j] == name[j - |dir| - 1];
    assert LastSlash(p) == |dir| by {
      LastSlashIsLast(p, |dir|);
    }
    assert p[..|dir|] == dir;
  }

  lemma {:induction false} LastSlashIsLast(p: string, k: int)
    requires 0 <= k < |p| && p[k] == '/'
    requires forall j :: k < j < |p| ==> p[j] != '/'
    ensures LastSlash(p) == k
    decreases |p|
  {
    if p[|p| - 1] != '/' {
      LastSlashIsLast(p[..|p| - 1], k);
    }
  }
}
