/** Bytecode compaction in `_build_env`: each listed source file whose
    compiled form sits in the neighbouring `__pycache__` is replaced by that
    compiled file, moved next to where the source was. */
module Cache {
  import opened Wrappers
  import opened Text
  import opened Errors
  import opened Paths
  import opened FileSystem

  /** Names starting with '.' are not matched by glob wildcards unless the
      pattern starts with '.' too. */
  predicate Hidden(name: string) { |name| > 0 && name[0] == '.' }

  function Folder(plat: Platform, filename: Path): Path {
    Paths.Split(plat, filename).0
  }

  /** The base name without its extension. */
  function Stem(plat: Platform, filename: Path): string {
    SplitExt(plat, Paths.Split(plat, filename).1).0
  }

  function CacheDir(plat: Platform, filename: Path): Path {
    Join(plat, Folder(plat, filename), "__pycache__")
  }

  /** Where the compiled file ends up: `<folder>/<stem>.pyc`. */
  function CompiledPath(plat: Platform, filename: Path): Path {
    Join(plat, Folder(plat, filename), Stem(plat, filename) + ".pyc")
  }

  /** The literal start of the cache pattern: `<stem>` in the wildcard
      `<stem>*.pyc` as written, `<stem>.` in the intended `<stem>.*.pyc`,
      which CPython's `<stem>.<tag>.pyc` names match. */
  function CachePrefix(stem: string, exact: bool): string {
    if exact then stem + "." else stem
  }

  /** `name` matches `<prefix>*.pyc`, the prefix taken literally. */
  predicate MatchesCacheName(stem: string, name: string, exact: bool) {
    var lit := CachePrefix(stem, exact);
    && |name| >= |lit| + 4
    && StartsWith(name, lit)
    && EndsWith(name, ".pyc")
    && (Hidden(name) ==> Hidden(lit))
  }

  /** `k` is listed by the glob of the cache pattern in
      `<folder>/__pycache__`: an entry directly inside the cache directory
      with a matching name. */
  predicate IsCacheFor(plat: Platform, filename: Path, k: Path, exact: bool) {
    var d := CacheDir(plat, filename);
    && StartsWith(k, d + [Sep(plat)])
    && NoSep(plat, k[|d| + 1..])
    && MatchesCacheName(Stem(plat, filename), k[|d| + 1..], exact)
  }

  function CacheFiles(plat: Platform, fs: Fs, filename: Path, exact: bool): set<Path> {
    set k | k in fs && IsCacheFor(plat, filename, k, exact)
  }

  /** The wildcard as written also matches the cache of another module
      whose name extends the stem: for `a.py` it lists
      `ab.cpython-311.pyc`, which belongs to `ab.py`. The intended pattern
      does not. */
  lemma OtherModuleCacheMatchedAsWritten(stem: string, more: string, tag: string)
    requires |stem| > 0 && !Hidden(stem) && |more| > 0
    requires '.' !in stem && '.' !in more
    ensures var name := stem + more + "." + tag + ".pyc";
            && MatchesCacheName(stem, name, false)
            && !MatchesCacheName(stem, name, true)
            && MatchesCacheName(stem + more, name, true)
  {
    var name := stem + more + "." + tag + ".pyc";
    assert name[..|stem|] == stem;
    assert name[..|stem + more| + 1] == stem + more + ".";
    assert name[|stem|] == more[0];
    assert name[|name| - 4..] == ".pyc";
    assert (stem + ".")[|stem|] == '.';
  }

  /** With the intended pattern a cache name belongs to one stem only:
      module stems hold no `.`, and the one after the stem ends it. */
  lemma ExactMatchDeterminesStem(s1: string, s2: string, name: string)
    requires MatchesCacheName(s1, name, true) && MatchesCacheName(s2, name, true)
    requires '.' !in s1 && '.' !in s2
    ensures s1 == s2
  {
    StemEndsAtFirstDot(s1, name);
    StemEndsAtFirstDot(s2, name);
    assert s1 == name[..|s1|] && s2 == name[..|s2|];
  }

  /** Under the intended pattern the stem is what precedes the first `.`. */
  lemma StemEndsAtFirstDot(stem: string, name: string)
    requires MatchesCacheName(stem, name, true) && '.' !in stem
    ensures '.' in name && IndexOf(name, '.') == |stem| && name[..|stem|] == stem
  {
    var lit := stem + ".";
    assert name[..|lit|] == lit;
    assert name == stem + name[|stem|..];
    assert name[|stem|..][0] == lit[|stem|];
    IndexOfAppend(stem, name[|stem|..], '.');
  }

  /** Apart from `filename` and paths ending in `.pyc`, `a` and `b` hold
      the same entries. */
  predicate KeepsOthers(a: Fs, b: Fs, filename: Path) {
    && (forall k :: k in a && k != filename && !EndsWith(k, ".pyc") ==> k in b && b[k] == a[k])
    && (forall k :: k in b && k != filename && !EndsWith(k, ".pyc") ==> k in a)
  }

  lemma CacheFileIsPyc(plat: Platform, fs: Fs, filename: Path, c: Path, exact: bool)
    requires c in CacheFiles(plat, fs, filename, exact)
    ensures EndsWith(c, ".pyc")
  {
    var d := CacheDir(plat, filename);
    var name := c[|d| + 1..];
    assert c[|c| - 4..] == name[|name| - 4..];
  }

  lemma CompiledPathIsPyc(plat: Platform, filename: Path)
    ensures EndsWith(CompiledPath(plat, filename), ".pyc")
  {
    var stem := Stem(plat, filename);
    var dst := CompiledPath(plat, filename);
    JoinEndsWith(plat, Folder(plat, filename), stem + ".pyc");
    assert dst[|dst| - 4..] == (stem + ".pyc")[|stem|..];
  }

  /** Moving a `.pyc` file to a `.pyc` path, or into a directory there,
      lands on a `.pyc` path. */
  lemma TargetIsPyc(plat: Platform, fs: Fs, c: Path, dst: Path)
    requires EndsWith(c, ".pyc") && EndsWith(dst, ".pyc")
    ensures EndsWith(MoveTarget(plat, fs, c, dst), ".pyc")
  {
    if IsDir(fs, dst) {
      assert NoSep(plat, ".pyc");
      BasenameKeepsSuffix(plat, c, ".pyc");
      JoinKeepsSuffix(plat, dst, Basename(plat, c), ".pyc");
    }
  }

  /** `os.remove(filename)` then `shutil.move(c, dst)`. A failed move
      keeps the removal. */
  function RemoveThenMove(plat: Platform, fs: Fs, filename: Path, c: Path, dst: Path): (r: Effect)
    requires c in fs
    ensures !IsFile(fs, filename) ==> r.err.Some? && r.fs == fs
    ensures IsFile(fs, filename) && r.err.Some? ==> r.fs == fs - {filename}
    ensures IsFile(fs, filename) && c != filename && !IsDir(fs, dst) ==> r.err.None?
    ensures r.err.None? ==> Moved(plat, fs, filename, c, dst, r.fs)
  {
    match Remove(fs, filename)
    case Failure(e) => Effect(fs, Some(e))
    case Success(fs1) =>
      assert fs1 == fs - {filename};
      match Move(plat, fs1, c, dst)
      case Failure(e) => Effect(fs1, Some(e))
      case Success(fs2) => Effect(fs2, None)
  }

  /** Moving a `.pyc` file to a `.pyc` path changes no other kind of path. */
  lemma MovedKeepsOthers(plat: Platform, fs: Fs, filename: Path, c: Path, dst: Path, r: Fs)
    requires c in fs && EndsWith(c, ".pyc") && EndsWith(dst, ".pyc")
    requires Moved(plat, fs, filename, c, dst, r)
    ensures KeepsOthers(fs, r, filename)
  {
    TargetIsPyc(plat, fs - {filename}, c, dst);
  }

  /** Removes `filename`, then moves one of `found` to `dst`. */
  ghost function Replace(plat: Platform, fs: Fs, filename: Path, found: set<Path>, dst: Path): (r: Effect)
    requires found != {} && found <= fs.Keys
    requires forall c :: c in found ==> EndsWith(c, ".pyc")
    requires EndsWith(dst, ".pyc")
    ensures !IsFile(fs, filename) ==> r.err.Some? && r.fs == fs
    ensures IsFile(fs, filename) && r.err.Some? ==> r.fs == fs - {filename}
    ensures IsFile(fs, filename) && filename !in found && !IsDir(fs, dst) ==> r.err.None?
    ensures r.err.None? ==> exists c :: c in found && Moved(plat, fs, filename, c, dst, r.fs)
    ensures KeepsOthers(fs, r.fs, filename)
  {
    var c :| c in found;
    var r := RemoveThenMove(plat, fs, filename, c, dst);
    if r.err.None? then
      MovedKeepsOthers(plat, fs, filename, c, dst, r.fs);
      r
    else r
  }

  /** `r` is `fs` after removing `filename` and moving `c` to `dst` (or
      into it, when that is a directory): those three paths are the only
      ones that differ. */
  predicate Moved(plat: Platform, fs: Fs, filename: Path, c: Path, dst: Path, r: Fs)
    requires c in fs
  {
    var t := MoveTarget(plat, fs - {filename}, c, dst);
    && t in r && r[t] == fs[c]
    && (t != filename ==> filename !in r)
    && (t != c ==> c !in r)
    && SameExcept(fs, r, {filename, c, t})
  }

  /** `keepCache(filename)`, with the cache pattern as written (`exact`
      false) or as intended. When no compiled file matches, nothing
      happens. Otherwise the source is removed (which fails unless it is a
      file) and one of the matches, whichever the directory listing gives
      first, is moved to the compiled path; nothing else changes. A failed
      move leaves the source removed. */
  ghost function KeepCacheWith(plat: Platform, fs: Fs, filename: Path, exact: bool): (r: Effect)
    ensures CacheFiles(plat, fs, filename, exact) == {} ==> r == Effect(fs, None)
    ensures CacheFiles(plat, fs, filename, exact) != {} && !IsFile(fs, filename) ==> r.err.Some? && r.fs == fs
    ensures CacheFiles(plat, fs, filename, exact) != {} && IsFile(fs, filename) && r.err.Some? ==> r.fs == fs - {filename}
    ensures && CacheFiles(plat, fs, filename, exact) != {} && IsFile(fs, filename)
            && filename !in CacheFiles(plat, fs, filename, exact)
            && !IsDir(fs, CompiledPath(plat, filename))
            ==> r.err.None?
    ensures r.err.None? && CacheFiles(plat, fs, filename, exact) != {} ==>
              exists c :: c in CacheFiles(plat, fs, filename, exact)
                          && Moved(plat, fs, filename, c, CompiledPath(plat, filename), r.fs)
    ensures KeepsOthers(fs, r.fs, filename)
  {
    var found := CacheFiles(plat, fs, filename, exact);
    if found == {} then Effect(fs, None)
    else
      forall c | c in found ensures EndsWith(c, ".pyc") {
        CacheFileIsPyc(plat, fs, filename, c, exact);
      }
      CompiledPathIsPyc(plat, filename);
      Replace(plat, fs, filename, found, CompiledPath(plat, filename))
  }

  /** `keepCache` as written, with the wildcard `<stem>*.pyc`. */
  ghost function KeepCacheAsWritten(plat: Platform, fs: Fs, filename: Path): Effect {
    KeepCacheWith(plat, fs, filename, false)
  }

  /** `keepCache` with the intended pattern `<stem>.*.pyc`: the passes
      below with `exact` true. */
  ghost function KeepCache(plat: Platform, fs: Fs, filename: Path): Effect {
    KeepCacheWith(plat, fs, filename, true)
  }

  /** Runs `keepCache` over `files` in order, skipping those `skip` holds
      for; the first failure ends the pass, keeping what was done before.
      With `exact` false this is the pass as written, with the cache pattern
      `<stem>*.pyc`; with `exact` true it uses the intended `<stem>.*.pyc`. */
  ghost function CompactFiles(plat: Platform, fs: Fs, files: seq<Path>, skip: Path -> bool, exact: bool): Effect
    decreases |files|
  {
    if |files| == 0 then Effect(fs, None)
    else if skip(files[0]) then CompactFiles(plat, fs, files[1..], skip, exact)
    else
      var e := KeepCacheWith(plat, fs, files[0], exact);
      if e.err.Some? then e else CompactFiles(plat, e.fs, files[1..], skip, exact)
  }

  /** The package pass: with a non-empty `cache_block`, a path in which
      `re.search` of the joined patterns (`search`) finds a match is
      skipped. */
  ghost function PackagePass(plat: Platform, fs: Fs, files: seq<Path>, cacheBlock: seq<string>, search: Path -> bool, exact: bool): Effect {
    CompactFiles(plat, fs, files, p => |cacheBlock| > 0 && search(p), exact)
  }

  /** The standard-library pass: paths containing `encodings` are skipped. */
  ghost function StdlibPass(plat: Platform, fs: Fs, files: seq<Path>, exact: bool): Effect {
    CompactFiles(plat, fs, files, p => Contains(p, "encodings"), exact)
  }

  /** A pass, whether it completes or stops at a failure, leaves every path
      that is not a `.pyc` and is not a compacted source exactly as it was:
      in particular skipped sources. */
  lemma {:induction false} CompactKeepsSkipped(plat: Platform, fs: Fs, files: seq<Path>, skip: Path -> bool, k: Path, exact: bool)
    requires !EndsWith(k, ".pyc")
    requires k !in files || skip(k)
    ensures var r := CompactFiles(plat, fs, files, skip, exact).fs;
            (k in fs <==> k in r) && (k in fs ==> r[k] == fs[k])
    decreases |files|
  {
    if |files| > 0 {
      assert k !in files[1..] || skip(k) by {
        if k in files[1..] {
          var i :| 0 <= i < |files[1..]| && files[1..][i] == k;
          assert files[i + 1] == k;
        }
      }
      if skip(files[0]) {
        CompactKeepsSkipped(plat, fs, files[1..], skip, k, exact);
      } else {
        var e := KeepCacheWith(plat, fs, files[0], exact);
        assert k != files[0];
        if e.err.None? {
          CompactKeepsSkipped(plat, e.fs, files[1..], skip, k, exact);
        }
      }
    }
  }

  /** When every listed path is skipped, the pass changes nothing. */
  lemma {:induction false} CompactAllSkipped(plat: Platform, fs: Fs, files: seq<Path>, skip: Path -> bool, exact: bool)
    requires forall i :: 0 <= i < |files| ==> skip(files[i])
    ensures CompactFiles(plat, fs, files, skip, exact) == Effect(fs, None)
  {
    if |files| > 0 {
      assert forall i :: 0 <= i < |files[1..]| ==> skip(files[1..][i]) by {
        forall i | 0 <= i < |files[1..]| ensures skip(files[1..][i]) {
          assert files[1..][i] == files[i + 1];
        }
      }
      CompactAllSkipped(plat, fs, files[1..], skip, exact);
    }
  }

  /** Only the skip decisions on the listed paths matter. */
  lemma {:induction false} CompactSkipAgree(plat: Platform, fs: Fs, files: seq<Path>, s1: Path -> bool, s2: Path -> bool, exact: bool)
    requires forall i :: 0 <= i < |files| ==> s1(files[i]) == s2(files[i])
    ensures CompactFiles(plat, fs, files, s1, exact) == CompactFiles(plat, fs, files, s2, exact)
    decreases |files|
  {
    if |files| > 0 {
      assert forall i :: 0 <= i < |files[1..]| ==> s1(files[1..][i]) == s2(files[1..][i]) by {
        forall i | 0 <= i < |files[1..]| ensures s1(files[1..][i]) == s2(files[1..][i]) {
          assert files[1..][i] == files[i + 1];
        }
      }
      if !s1(files[0]) {
        var e := KeepCacheWith(plat, fs, files[0], exact);
        if e.err.None? {
          CompactSkipAgree(plat, e.fs, files[1..], s1, s2, exact);
        }
      } else {
        CompactSkipAgree(plat, fs, files[1..], s1, s2, exact);
      }
    }
  }

  /** With an empty `cache_block` the patterns are never consulted: the
      package pass skips no listed file: it is the pass with nothing skipped. */
  lemma EmptyCacheBlockSkipsNothing(plat: Platform, fs: Fs, files: seq<Path>, search: Path -> bool, exact: bool)
    ensures PackagePass(plat, fs, files, [], search, exact) == CompactFiles(plat, fs, files, p => false, exact)
  {
    var none: seq<string> := [];
    CompactSkipAgree(plat, fs, files, p => |none| > 0 && search(p), p => false, exact);
  }

  lemma ContainsExtends(root: string, p: string, sub: string)
    requires StartsWith(p, root) && Contains(root, sub)
    ensures Contains(p, sub)
  {
    var i :| 0 <= i <= |root| - |sub| && OccursAt(root, sub, i);
    assert p[i..i + |sub|] == root[i..i + |sub|];
    assert OccursAt(p, sub, i);
  }

  /** A standard library whose own path contains `encodings` is never
      compacted: every listed path below it is skipped. */
  lemma EncodingsRootUnchanged(plat: Platform, fs: Fs, root: Path, files: seq<Path>, exact: bool)
    requires Contains(root, "encodings")
    requires forall i :: 0 <= i < |files| ==> StartsWith(files[i], root)
    ensures StdlibPass(plat, fs, files, exact) == Effect(fs, None)
  {
    var skip := p => Contains(p, "encodings");
    forall i | 0 <= i < |files| ensures skip(files[i]) {
      ContainsExtends(root, files[i], "encodings");
    }
    CompactAllSkipped(plat, fs, files, skip, exact);
  }

  /** What `glob` lists, with `recursive=True`, for `root` followed by the
      components `*` and `**.py`: paths exactly two components below `root`,
      neither hidden, the second ending in `.py`. `**.py` is not the
      recursive wildcard, which must be a whole component, so it matches
      like `*.py`. */
  predicate IsPyCandidate(plat: Platform, root: Path, k: Path) {
    && StartsWith(k, root + [Sep(plat)])
    && var rest := k[|root| + 1..];
       && Sep(plat) in rest
       && var i := IndexOf(rest, Sep(plat));
          var d := rest[..i];
          var n := rest[i + 1..];
          && |d| > 0 && !Hidden(d) && NoSep(plat, d)
          && NoSep(plat, n) && !Hidden(n) && EndsWith(n, ".py")
  }

  /** `files` is such a listing of `fs`, in some order. */
  predicate ListsCandidates(plat: Platform, fs: Fs, root: Path, files: seq<Path>) {
    && (forall i :: 0 <= i < |files| ==> files[i] in fs && IsPyCandidate(plat, root, files[i]))
    && (forall k :: k in fs && IsPyCandidate(plat, root, k) ==> k in files)
  }

  /** A name two components below `root` is listed when neither component
      is hidden and the second ends in `.py`. */
  lemma CandidateTwoDown(plat: Platform, root: Path, d: string, n: string)
    requires |d| > 0 && !Hidden(d) && NoSep(plat, d)
    requires NoSep(plat, n) && !Hidden(n) && EndsWith(n, ".py")
    ensures IsPyCandidate(plat, root, root + [Sep(plat)] + (d + [Sep(plat)] + n))
  {
    var k := root + [Sep(plat)] + (d + [Sep(plat)] + n);
    var rest := k[|root| + 1..];
    assert rest == d + ([Sep(plat)] + n);
    assert forall j :: 0 <= j < |d| ==> d[j] != Sep(plat) by {
      assert IsSep(plat, Sep(plat));
    }
    IndexOfAppend(d, [Sep(plat)] + n, Sep(plat));
    assert rest[..|d|] == d;
    assert rest[|d| + 1..] == n;
  }

  /** A name directly below `root` is not listed. */
  lemma NotCandidateOneDown(plat: Platform, root: Path, n: string)
    requires NoSep(plat, n)
    ensures !IsPyCandidate(plat, root, root + [Sep(plat)] + n)
  {
    var k := root + [Sep(plat)] + n;
    assert k[|root| + 1..] == n;
    assert IsSep(plat, Sep(plat));
  }

  /** A top-level module `<venvLib>/site-packages/<m>.py` matches the
      standard-library pattern and not the package pattern. */
  lemma SitePackagesModuleCandidate(plat: Platform, venvLib: Path, m: string)
    requires |venvLib| > 0 && !IsSep(plat, venvLib[|venvLib| - 1])
    requires NoSep(plat, m) && !Hidden(m) && EndsWith(m, ".py")
    ensures var packageDir := Join(plat, venvLib, "site-packages");
            var k := Join(plat, packageDir, m);
            IsPyCandidate(plat, venvLib, k) && !IsPyCandidate(plat, packageDir, k)
  {
    var site := "site-packages";
    var packageDir := Join(plat, venvLib, site);
    assert packageDir == venvLib + [Sep(plat)] + site;
    assert |m| > 0;
    var k := Join(plat, packageDir, m);
    assert k == packageDir + [Sep(plat)] + m;
    assert k == venvLib + [Sep(plat)] + (site + [Sep(plat)] + m);
    assert NoSep(plat, site);
    CandidateTwoDown(plat, venvLib, site, m);
    NotCandidateOneDown(plat, packageDir, m);
  }

  /** A top-level module `<venvLib>/site-packages/<m>.py` is listed by the
      standard-library pass, which does not consult `cache_block`, and not
      by the package pass, which lists only modules inside packages. */
  lemma SitePackagesModuleInStdlibPass(plat: Platform, fs: Fs, venvLib: Path, m: string,
                                       stdlibFiles: seq<Path>, packageFiles: seq<Path>)
    requires |venvLib| > 0 && !IsSep(plat, venvLib[|venvLib| - 1])
    requires NoSep(plat, m) && !Hidden(m) && EndsWith(m, ".py")
    requires ListsCandidates(plat, fs, venvLib, stdlibFiles)
    requires ListsCandidates(plat, fs, Join(plat, venvLib, "site-packages"), packageFiles)
    requires Join(plat, Join(plat, venvLib, "site-packages"), m) in fs
    ensures var k := Join(plat, Join(plat, venvLib, "site-packages"), m);
            k in stdlibFiles && k !in packageFiles
  {
    var packageDir := Join(plat, venvLib, "site-packages");
    var k := Join(plat, packageDir, m);
    SitePackagesModuleCandidate(plat, venvLib, m);
    assert k in stdlibFiles;
  }
}
