/** The parts of Python's `os.path` the packer relies on, for both target
    families: `join`, `split`, `basename` and `splitext`. Drive letters and
    UNC prefixes of Windows paths are not modelled. */
module Paths {
  import opened Text

  datatype Platform = Posix | Windows

  /** The separator `os.path.join` inserts. */
  function Sep(p: Platform): char {
    if p.Windows? then '\\' else '/'
  }

  /** The characters `os.path` accepts as separators. */
  predicate IsSep(p: Platform, c: char) {
    c == '/' || (p.Windows? && c == '\\')
  }

  predicate NoSep(p: Platform, s: string) {
    forall i :: 0 <= i < |s| ==> !IsSep(p, s[i])
  }

  /** `os.path.join(a, b)`: an absolute `b` replaces `a`; otherwise one
      separator is inserted unless `a` is empty or already ends in one. */
  function Join(p: Platform, a: string, b: string): string {
    if |b| > 0 && IsSep(p, b[0]) then b
    else if |a| == 0 || IsSep(p, a[|a| - 1]) then a + b
    else a + [Sep(p)] + b
  }

  /** Index just past the last separator of `s`, or 0 when it has none. */
  function AfterLastSep(p: Platform, s: string): (i: nat)
    ensures i <= |s|
    ensures i > 0 ==> IsSep(p, s[i - 1])
    ensures forall k :: i <= k < |s| ==> !IsSep(p, s[k])
  {
    if |s| == 0 then 0
    else if IsSep(p, s[|s| - 1]) then |s|
    else AfterLastSep(p, s[..|s| - 1])
  }

  /** Drops trailing separators. */
  function RStripSeps(p: Platform, s: string): (r: string)
    ensures |r| <= |s| && r == s[..|r|]
    ensures forall k :: |r| <= k < |s| ==> IsSep(p, s[k])
    ensures |r| > 0 ==> !IsSep(p, r[|r| - 1])
  {
    if |s| > 0 && IsSep(p, s[|s| - 1]) then RStripSeps(p, s[..|s| - 1]) else s
  }

  /** `os.path.split(path)`: the tail after the last separator, and the head
      before it with trailing separators removed unless the head is nothing
      but separators. */
  function Split(p: Platform, path: string): (string, string) {
    var i := AfterLastSep(p, path);
    var head := path[..i];
    var stripped := RStripSeps(p, head);
    (if |stripped| == 0 then head else stripped, path[i..])
  }

  /** `os.path.basename(path)`, the second half of `Split`. */
  function Basename(p: Platform, path: string): (b: string)
    ensures NoSep(p, b)
    ensures EndsWith(path, b)
  {
    path[AfterLastSep(p, path)..]
  }

  /** Index of the last '.' of `s`, or -1. */
  function LastDot(s: string): (i: int)
    ensures -1 <= i < |s|
    ensures i >= 0 ==> s[i] == '.'
    ensures forall k :: i < k < |s| ==> s[k] != '.'
  {
    if |s| == 0 then -1
    else if s[|s| - 1] == '.' then |s| - 1
    else LastDot(s[..|s| - 1])
  }

  /** `os.path.splitext(path)`: splits at the last '.' of the last component,
      unless everything before that dot in the component is dots too. */
  function SplitExt(p: Platform, path: string): (string, string) {
    var start := AfterLastSep(p, path);
    var dot := LastDot(path);
    if dot >= start && exists k :: start <= k < dot && path[k] != '.'
    then (path[..dot], path[dot..])
    else (path, "")
  }

  /** Joining a name to a directory and splitting it again gives both back. */
  lemma SplitJoin(p: Platform, dir: string, name: string)
    requires |dir| > 0 && !IsSep(p, dir[|dir| - 1])
    requires NoSep(p, name)
    ensures Split(p, Join(p, dir, name)) == (dir, name)
  {
    var path := Join(p, dir, name);
    assert path == dir + [Sep(p)] + name;
    var i := AfterLastSep(p, path);
    assert IsSep(p, path[|dir|]);
    assert i == |dir| + 1;
    assert path[..i] == dir + [Sep(p)];
    assert RStripSeps(p, dir + [Sep(p)]) == RStripSeps(p, dir);
    assert path[i..] == name;
  }

  /** A base name followed by an extension without dots splits at that
      extension, as long as the base name is not made of dots only. */
  lemma SplitExtOfName(p: Platform, stem: string, ext: string)
    requires NoSep(p, stem) && NoSep(p, ext)
    requires '.' !in ext
    requires exists k :: 0 <= k < |stem| && stem[k] != '.'
    ensures SplitExt(p, stem + "." + ext) == (stem, "." + ext)
  {
    var path := stem + "." + ext;
    assert path[|stem|] == '.';
    var start := AfterLastSep(p, path);
    assert start == 0;
    var dot := LastDot(path);
    assert dot == |stem|;
    var k :| 0 <= k < |stem| && stem[k] != '.';
    assert path[k] == stem[k];
    assert path[..dot] == stem;
    assert path[dot..] == "." + ext;
  }

  /** A joined path ends with what was joined on. */
  /** A relative name keeps its last character at the end of the join,
      which is longer than the directory. */
  lemma JoinLast(p: Platform, a: string, b: string)
    requires |b| > 0 && !IsSep(p, b[0])
    ensures var j := Join(p, a, b); |j| >= |a| + |b| && j[|j| - 1] == b[|b| - 1]
  {
  }

  lemma JoinEndsWith(p: Platform, a: string, b: string)
    ensures EndsWith(Join(p, a, b), b)
  {
    var j := Join(p, a, b);
    assert j[|j| - |b|..] == b;
  }

  /** A suffix of what is joined on is a suffix of the joined path. */
  lemma JoinKeepsSuffix(p: Platform, a: string, b: string, suf: string)
    requires EndsWith(b, suf)
    ensures EndsWith(Join(p, a, b), suf)
  {
    JoinEndsWith(p, a, b);
    var j := Join(p, a, b);
    assert j[|j| - |suf|..] == b[|b| - |suf|..];
  }

  /** A suffix without separators survives taking the base name. */
  lemma BasenameKeepsSuffix(p: Platform, path: string, suf: string)
    requires EndsWith(path, suf) && NoSep(p, suf)
    ensures EndsWith(Basename(p, path), suf)
  {
    var i := AfterLastSep(p, path);
    var n := |path| - |suf|;
    assert path[n..] == suf;
    assert forall k :: n <= k < |path| ==> path[k] == suf[k - n];
    assert i <= n;
    var b := path[i..];
    assert b[|b| - |suf|..] == path[n..];
  }

  /** What `Join` puts before a name that does not start with a separator. */
  function JoinHead(p: Platform, a: string): (h: string)
    ensures |h| == 0 || IsSep(p, h[|h| - 1])
  {
    if |a| == 0 || IsSep(p, a[|a| - 1]) then a else a + [Sep(p)]
  }

  lemma JoinOfName(p: Platform, a: string, b: string)
    requires NoSep(p, b)
    ensures Join(p, a, b) == JoinHead(p, a) + b
  {
  }

  /** Separator-free text after the last separator does not move it. */
  lemma {:induction false} AfterLastSepOfTail(p: Platform, x: string, b: string)
    requires NoSep(p, b)
    ensures AfterLastSep(p, x + b) == AfterLastSep(p, x)
    decreases |b|
  {
    if |b| > 0 {
      var s := x + b;
      assert !IsSep(p, s[|s| - 1]) by {
        assert s[|s| - 1] == b[|b| - 1];
      }
      assert s[..|s| - 1] == x + b[..|b| - 1];
      AfterLastSepOfTail(p, x, b[..|b| - 1]);
    } else {
      assert x + b == x;
    }
  }

  /** A name joined to a directory is the base name of the result. */
  lemma BasenameOfJoin(p: Platform, a: string, b: string)
    requires NoSep(p, b)
    ensures Basename(p, Join(p, a, b)) == b
  {
    var h := JoinHead(p, a);
    JoinOfName(p, a, b);
    AfterLastSepOfTail(p, h, b);
    assert AfterLastSep(p, h) == |h|;
    assert (h + b)[|h|..] == b;
  }

  /** Joining different names to one directory gives different paths. */
  lemma JoinDistinct(p: Platform, a: string, b1: string, b2: string)
    requires NoSep(p, b1) && NoSep(p, b2) && b1 != b2
    ensures Join(p, a, b1) != Join(p, a, b2)
  {
    var h := JoinHead(p, a);
    JoinOfName(p, a, b1);
    JoinOfName(p, a, b2);
    assert (h + b1)[|h|..] == b1;
    assert (h + b2)[|h|..] == b2;
  }
}
