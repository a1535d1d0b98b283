/** POSIX path helpers with the meaning `os.path` gives them: `join` of two parts,
    `basename` and `dirname`. */
module Paths {
  import opened Text

  /** `os.path.join(dir, name)`: an absolute `name` replaces `dir`; otherwise a `/` is put
      between the two unless `dir` is empty or already ends with one. */
  function PathJoin(dir: string, name: string): (p: string)
    ensures |name| > 0 && name[0] == '/' ==> p == name
    ensures !(|name| > 0 && name[0] == '/') ==> |p| >= |name| && p[|p| - |name|..] == name
    ensures !(|name| > 0 && name[0] == '/') && |dir| > 0 && dir[|dir| - 1] != '/' ==> p == dir + "/" + name
    ensures !(|name| > 0 && name[0] == '/') && (|dir| == 0 || dir[|dir| - 1] == '/') ==> p == dir + name
  {
    if |name| > 0 && name[0] == '/' then name
    else if |dir| == 0 || dir[|dir| - 1] == '/' then dir + name
    else dir + "/" + name
  }

  /** The position just after the last `/` among the first `j` characters of `p`, or 0
      when there is none. */
  function AfterLastSlash(p: string, j: nat): (i: nat)
    requires j <= |p|
    ensures i <= j
    ensures i > 0 ==> p[i - 1] == '/'
    ensures forall k :: i <= k < j ==> p[k] != '/'
    decreases j
  {
    if j == 0 || p[j - 1] == '/' then j else AfterLastSlash(p, j - 1)
  }

  /** The end of `p[..j]` once trailing slashes are dropped. */
  function TrimSlashes(p: string, j: nat): (e: nat)
    requires j <= |p|
    ensures e <= j
    ensures forall k :: e <= k < j ==> p[k] == '/'
    ensures e > 0 ==> p[e - 1] != '/'
    decreases j
  {
    if j == 0 || p[j - 1] != '/' then j else TrimSlashes(p, j - 1)
  }

  /** `os.path.basename(p)`: what follows the last slash. */
  function Basename(p: string): (b: string)
    ensures '/' !in b
    ensures |b| <= |p| && p[|p| - |b|..] == b
  {
    var i := AfterLastSlash(p, |p|);
    assert forall c :: c in p[i..] ==> c != '/';
    p[i..]
  }

  /** `os.path.dirname(p)`: what precedes the last slash, with trailing slashes dropped
      unless it consists of slashes only. */
  function Dirname(p: string): (d: string)
    ensures StartsWith(p, d)
  {
    var i := AfterLastSlash(p, |p|);
    var e := TrimSlashes(p, i);
    if e == 0 then p[..i] else p[..e]
  }

  /** Joining a directory and a plain file name and splitting the result again gives both
      parts back. */
  lemma SplitJoined(dir: string, name: string)
    requires |dir| > 0 && dir[|dir| - 1] != '/'
    requires '/' !in name
    ensures Basename(PathJoin(dir, name)) == name
    ensures Dirname(PathJoin(dir, name)) == dir
  {
    var p := PathJoin(dir, name);
    assert p == dir + "/" + name;
    var cut := |dir| + 1;
    assert p[cut - 1] == '/';
    forall k | cut <= k < |p| ensures p[k] != '/' {
      assert p[k] == name[k - cut];
    }
    AfterLastSlashAt(p, |p|, cut);
    assert p[cut..] == name;
    TrimSlashesAt(p, cut, |dir|);
    assert p[..|dir|] == dir;
  }

  /** The scan stops at a slash with no slash after it. */
  lemma {:induction false} AfterLastSlashAt(p: string, j: nat, cut: nat)
    requires 0 < cut <= j <= |p| && p[cut - 1] == '/'
    requires forall k :: cut <= k < j ==> p[k] != '/'
    ensures AfterLastSlash(p, j) == cut
    decreases j
  {
    if j > cut {
      AfterLastSlashAt(p, j - 1, cut);
    }
  }

  /** Trailing-slash trimming stops at the last character that is not a slash. */
  lemma {:induction false} TrimSlashesAt(p: string, j: nat, e: nat)
    requires 0 < e <= j <= |p| && p[e - 1] != '/'
    requires forall k :: e <= k < j ==> p[k] == '/'
    ensures TrimSlashes(p, j) == e
    decreases j
  {
    if j > e {
      TrimSlashesAt(p, j - 1, e);
    }
  }
}
