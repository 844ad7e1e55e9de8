/** `os.path.dirname` on POSIX paths, which the trainer uses to create the model's directory. */
module Paths {

  /** `p.rfind('/') + 1`: the index just past the last slash, 0 when there is none. */
  function AfterLastSlash(p: string): (i: nat)
    ensures i <= |p|
    ensures 0 < i ==> p[i - 1] == '/'
    ensures forall k :: i <= k < |p| ==> p[k] != '/'
  {
    if p == [] then 0
    else if p[|p| - 1] == '/' then |p|
    else AfterLastSlash(p[..|p| - 1])
  }

  /** `h.rstrip('/')`. */
  function RStripSlashes(h: string): (r: string)
    ensures |r| <= |h| && r == h[..|r|]
    ensures forall k :: |r| <= k < |h| ==> h[k] == '/'
    ensures r != [] ==> r[|r| - 1] != '/'
  {
    if h != [] && h[|h| - 1] == '/' then RStripSlashes(h[..|h| - 1]) else h
  }

  predicate AllSlashes(h: string) {
    forall k :: 0 <= k < |h| ==> h[k] == '/'
  }

  /**
   * posixpath.dirname: everything up to the last slash, with the trailing
   * slashes removed unless the head consists of slashes only. The result is
   * a prefix of the path, and it ends in a slash only when it is the root.
   */
  function Dirname(p: string): (r: string)
    ensures r <= p
    ensures r != [] && r[|r| - 1] == '/' ==> AllSlashes(r)
  {
    var head := p[..AfterLastSlash(p)];
    if head != [] && !AllSlashes(head) then RStripSlashes(head) else head
  }

  /** Joining a directory (without a trailing slash) and a file name is undone by dirname. */
  lemma DirnameOfJoin(dir: string, name: string)
    requires dir != [] && dir[|dir| - 1] != '/'
    requires forall k :: 0 <= k < |name| ==> name[k] != '/'
    ensures Dirname(dir + "/" + name) == dir
  {
    var p := dir + "/" + name;
    var i := AfterLastSlash(p);
    assert p[|dir|] == '/';
    assert forall k :: |dir| < k < |p| ==> p[k] == name[k - |dir| - 1];
    assert i == |dir| + 1;
    var head := p[..i];
    assert head == dir + "/";
    assert head[|dir| - 1] != '/';
    var r := RStripSlashes(head);
    assert r == dir;
  }

  /** A bare file name has an empty directory part. */
  lemma DirnameWithoutSlash(p: string)
    requires forall k :: 0 <= k < |p| ==> p[k] != '/'
    ensures Dirname(p) == ""
  {
  }
}
