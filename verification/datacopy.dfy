/** `_copy_data`: each `(glob, dest)` pair of `data_globs` copies the
    files its pattern matches, flat, into `<output>/<dest>`. What a pattern
    matches is an input: `listing(k)` is what the `k`-th pattern yields
    when it is expanded. */
module DataCopy {
  import opened Wrappers
  import opened Errors
  import opened Paths
  import opened FileSystem

  /** Copies each listed path that is a file into `outDir`, skipping
      anything else; the first failing copy ends the step, keeping the
      copies made before it. Copying only adds or overwrites files: nothing
      is removed, no file becomes a directory and no directory a file. */
  function CopyFiles(plat: Platform, fs: Fs, files: seq<Path>, outDir: Path): (r: Effect)
    ensures fs.Keys <= r.fs.Keys
    ensures forall k :: IsDir(fs, k) ==> IsDir(r.fs, k)
    ensures forall k :: IsFile(fs, k) ==> IsFile(r.fs, k)
    decreases |files|
  {
    if |files| == 0 then Effect(fs, None)
    else if !IsFile(fs, files[0]) then CopyFiles(plat, fs, files[1..], outDir)
    else
      match Copy(plat, fs, files[0], outDir)
      case Failure(e) => Effect(fs, Some(e))
      case Success(fs1) => CopyFiles(plat, fs1, files[1..], outDir)
  }

  /** Where the listed files land: `<outDir>/<base name>` of each listed
      path that is a file. */
  function FileTargets(plat: Platform, fs: Fs, files: seq<Path>, outDir: Path): set<Path> {
    set i | 0 <= i < |files| && IsFile(fs, files[i]) :: Join(plat, outDir, Basename(plat, files[i]))
  }

  /** The listed paths that are files, in order. */
  function FilesOf(fs: Fs, files: seq<Path>): seq<Path> {
    if |files| == 0 then []
    else (if IsFile(fs, files[0]) then [files[0]] else []) + FilesOf(fs, files[1..])
  }

  lemma SameExceptTrans(a: Fs, b: Fs, c: Fs, s1: set<Path>, s2: set<Path>, s: set<Path>)
    requires SameExcept(a, b, s1) && SameExcept(b, c, s2) && s1 + s2 <= s
    ensures SameExcept(a, c, s)
  {
  }

  /** Copying a file into a directory it is not the target of: the copy
      succeeds or fails as `Copy` says, and lands at `<outDir>/<base name>`. */
  lemma CopyInto(plat: Platform, fs: Fs, f: Path, outDir: Path)
    requires IsDir(fs, outDir) && IsFile(fs, f)
    ensures var t := Join(plat, outDir, Basename(plat, f));
            && CopyTarget(plat, fs, f, outDir) == t
            && Basename(plat, t) == Basename(plat, f)
            && (Copy(plat, fs, f, outDir).Success? ==> IsDir(Copy(plat, fs, f, outDir).value, outDir) && t != f)
  {
    BasenameOfJoin(plat, outDir, Basename(plat, f));
  }

  /** A path a copy landed on, if it were listed later, would be copied onto
      itself: so in a run that succeeds it is not listed later. */
  lemma {:induction false} TargetNotListedLater(plat: Platform, fs: Fs, files: seq<Path>, outDir: Path, b: string)
    requires IsDir(fs, outDir) && NoSep(plat, b) && IsFile(fs, Join(plat, outDir, b))
    requires CopyFiles(plat, fs, files, outDir).err.None?
    ensures forall j :: 0 <= j < |files| ==> files[j] != Join(plat, outDir, b)
    decreases |files|
  {
    var t := Join(plat, outDir, b);
    if |files| > 0 {
      if files[0] == t {
        CopyInto(plat, fs, t, outDir);
        BasenameOfJoin(plat, outDir, b);
        assert false;
      }
      if !IsFile(fs, files[0]) {
        TargetNotListedLater(plat, fs, files[1..], outDir, b);
      } else {
        CopyInto(plat, fs, files[0], outDir);
        var fs1 := Copy(plat, fs, files[0], outDir).value;
        TargetNotListedLater(plat, fs1, files[1..], outDir, b);
      }
      forall j | 0 <= j < |files| ensures files[j] != t {
        if j > 0 {
          assert files[j] == files[1..][j - 1];
        }
      }
    }
  }

  /** Into an existing directory, a copy run, whether it succeeds or stops
      at a failure, changes nothing but the `<outDir>/<base name>` paths of
      the listed files. */
  lemma {:induction false} CopyFilesFrame(plat: Platform, fs: Fs, files: seq<Path>, outDir: Path)
    requires IsDir(fs, outDir)
    ensures SameExcept(fs, CopyFiles(plat, fs, files, outDir).fs, FileTargets(plat, fs, files, outDir))
    decreases |files|
  {
    if |files| > 0 {
      var all := FileTargets(plat, fs, files, outDir);
      var r := CopyFiles(plat, fs, files, outDir).fs;
      if !IsFile(fs, files[0]) {
        CopyFilesFrame(plat, fs, files[1..], outDir);
        TargetsOfRest(plat, fs, files, outDir);
      } else if Copy(plat, fs, files[0], outDir).Success? {
        CopyInto(plat, fs, files[0], outDir);
        var fs1 := Copy(plat, fs, files[0], outDir).value;
        var t := Join(plat, outDir, Basename(plat, files[0]));
        assert t in all;
        CopyFilesFrame(plat, fs1, files[1..], outDir);
        TargetsAfterCopy(plat, fs, files, outDir);
        SameExceptTrans(fs, fs1, r, {t}, FileTargets(plat, fs1, files[1..], outDir), all);
      }
    }
  }

  /** The targets of the later files are targets of the whole list. */
  lemma TargetsOfRest(plat: Platform, fs: Fs, files: seq<Path>, outDir: Path)
    requires |files| > 0
    ensures FileTargets(plat, fs, files[1..], outDir) <= FileTargets(plat, fs, files, outDir)
  {
    forall t | t in FileTargets(plat, fs, files[1..], outDir) ensures t in FileTargets(plat, fs, files, outDir) {
      var i :| 0 <= i < |files[1..]| && IsFile(fs, files[1..][i])
               && t == Join(plat, outDir, Basename(plat, files[1..][i]));
      assert files[1..][i] == files[i + 1];
    }
  }

  /** After the first file is copied, the targets of the later files are
      still targets of the whole list: a later path that only became a file
      through the copy is that copy's target, whose base name it shares. */
  lemma TargetsAfterCopy(plat: Platform, fs: Fs, files: seq<Path>, outDir: Path)
    requires IsDir(fs, outDir) && |files| > 0 && IsFile(fs, files[0])
    requires Copy(plat, fs, files[0], outDir).Success?
    ensures var fs1 := Copy(plat, fs, files[0], outDir).value;
            FileTargets(plat, fs1, files[1..], outDir) <= FileTargets(plat, fs, files, outDir)
  {
    CopyInto(plat, fs, files[0], outDir);
    var fs1 := Copy(plat, fs, files[0], outDir).value;
    var t := Join(plat, outDir, Basename(plat, files[0]));
    var all := FileTargets(plat, fs, files, outDir);
    assert t in all;
    forall u | u in FileTargets(plat, fs1, files[1..], outDir) ensures u in all {
      var i :| 0 <= i < |files[1..]| && IsFile(fs1, files[1..][i])
               && u == Join(plat, outDir, Basename(plat, files[1..][i]));
      var f := files[i + 1];
      assert files[1..][i] == f;
      if f == t {
        BasenameOfJoin(plat, outDir, Basename(plat, files[0]));
        assert u == t;
      } else {
        assert IsFile(fs, f);
      }
    }
  }

  /** The first listed file, when no later listed file shares its base
      name, lands at `<outDir>/<base name>`. */
  lemma CopyFilesLandsFirst(plat: Platform, fs: Fs, files: seq<Path>, outDir: Path)
    requires IsDir(fs, outDir)
    requires CopyFiles(plat, fs, files, outDir).err.None?
    requires 0 < |files| && IsFile(fs, files[0])
    requires forall j :: 0 < j < |files| && IsFile(fs, files[j]) ==> Basename(plat, files[j]) != Basename(plat, files[0])
    ensures var t := Join(plat, outDir, Basename(plat, files[0]));
            var r := CopyFiles(plat, fs, files, outDir).fs;
            IsFile(r, t) && r[t] == fs[files[0]]
  {
    CopyInto(plat, fs, files[0], outDir);
    var fs1 := Copy(plat, fs, files[0], outDir).value;
    var b0 := Basename(plat, files[0]);
    var t := Join(plat, outDir, b0);
    var rest := files[1..];
    assert CopyFiles(plat, fs, files, outDir) == CopyFiles(plat, fs1, rest, outDir);
    TargetNotListedLater(plat, fs1, rest, outDir, b0);
    CopyFilesFrame(plat, fs1, rest, outDir);
    forall j | 0 <= j < |rest| && IsFile(fs1, rest[j])
      ensures Join(plat, outDir, Basename(plat, rest[j])) != t
    {
      assert rest[j] == files[j + 1];
      JoinDistinct(plat, outDir, Basename(plat, rest[j]), b0);
    }
    assert t !in FileTargets(plat, fs1, rest, outDir);
  }

  /** In a run that succeeds, each listed file lands at
      `<outDir>/<base name>` with its contents and permissions, unless a
      later listed file has the same base name and overwrites it. */
  lemma {:induction false} CopyFilesLands(plat: Platform, fs: Fs, files: seq<Path>, outDir: Path, i: nat)
    requires IsDir(fs, outDir)
    requires CopyFiles(plat, fs, files, outDir).err.None?
    requires i < |files| && IsFile(fs, files[i])
    requires forall j :: i < j < |files| && IsFile(fs, files[j]) ==> Basename(plat, files[j]) != Basename(plat, files[i])
    ensures var t := Join(plat, outDir, Basename(plat, files[i]));
            var r := CopyFiles(plat, fs, files, outDir).fs;
            IsFile(r, t) && r[t] == fs[files[i]]
    decreases |files|
  {
    var rest := files[1..];
    if i == 0 {
      CopyFilesLandsFirst(plat, fs, files, outDir);
    } else if !IsFile(fs, files[0]) {
      assert rest[i - 1] == files[i];
      forall j | i - 1 < j < |rest| && IsFile(fs, rest[j])
        ensures Basename(plat, rest[j]) != Basename(plat, rest[i - 1])
      {
        assert rest[j] == files[j + 1];
      }
      assert CopyFiles(plat, fs, files, outDir) == CopyFiles(plat, fs, rest, outDir);
      CopyFilesLands(plat, fs, rest, outDir, i - 1);
    } else {
      var fs1 := Copy(plat, fs, files[0], outDir).value;
      LandsAfterFirst(plat, fs, files, outDir, i);
      CopyFilesLands(plat, fs1, rest, outDir, i - 1);
    }
  }

  /** After the first listed file is copied, a later file that no file
      after it shares a base name with is still there, unchanged, and still
      has no later namesake. */
  lemma LandsAfterFirst(plat: Platform, fs: Fs, files: seq<Path>, outDir: Path, i: nat)
    requires IsDir(fs, outDir)
    requires CopyFiles(plat, fs, files, outDir).err.None?
    requires 0 < i < |files| && IsFile(fs, files[0]) && IsFile(fs, files[i])
    requires forall j :: i < j < |files| && IsFile(fs, files[j]) ==> Basename(plat, files[j]) != Basename(plat, files[i])
    ensures Copy(plat, fs, files[0], outDir).Success?
    ensures var fs1 := Copy(plat, fs, files[0], outDir).value;
            var rest := files[1..];
            && IsDir(fs1, outDir)
            && CopyFiles(plat, fs, files, outDir) == CopyFiles(plat, fs1, rest, outDir)
            && IsFile(fs1, rest[i - 1]) && fs1[rest[i - 1]] == fs[files[i]]
            && Basename(plat, rest[i - 1]) == Basename(plat, files[i])
            && forall j :: i - 1 < j < |rest| && IsFile(fs1, rest[j]) ==> Basename(plat, rest[j]) != Basename(plat, rest[i - 1])
  {
    CopyInto(plat, fs, files[0], outDir);
    var fs1 := Copy(plat, fs, files[0], outDir).value;
    var rest := files[1..];
    var b0 := Basename(plat, files[0]);
    var t0 := Join(plat, outDir, b0);
    assert CopyFiles(plat, fs, files, outDir) == CopyFiles(plat, fs1, rest, outDir);
    TargetNotListedLater(plat, fs1, rest, outDir, b0);
    assert rest[i - 1] == files[i] && files[i] != t0;
    forall j | i - 1 < j < |rest| && IsFile(fs1, rest[j])
      ensures Basename(plat, rest[j]) != Basename(plat, rest[i - 1])
    {
      assert rest[j] == files[j + 1] && rest[j] != t0;
    }
  }

  lemma {:induction false} FilesOfAgree(a: Fs, b: Fs, files: seq<Path>)
    requires forall j :: 0 <= j < |files| ==> IsFile(a, files[j]) == IsFile(b, files[j])
    ensures FilesOf(a, files) == FilesOf(b, files)
    decreases |files|
  {
    if |files| > 0 {
      assert IsFile(a, files[0]) == IsFile(b, files[0]);
      forall j | 0 <= j < |files[1..]| ensures IsFile(a, files[1..][j]) == IsFile(b, files[1..][j]) {
        assert files[1..][j] == files[j + 1];
      }
      FilesOfAgree(a, b, files[1..]);
    }
  }

  /** Listed paths that are not files (directories, say) are skipped: a run
      that succeeds does exactly what copying only the listed files does. */
  lemma {:induction false} CopyFilesSkipsNonFiles(plat: Platform, fs: Fs, files: seq<Path>, outDir: Path)
    requires IsDir(fs, outDir)
    requires CopyFiles(plat, fs, files, outDir).err.None?
    ensures CopyFiles(plat, fs, FilesOf(fs, files), outDir) == CopyFiles(plat, fs, files, outDir)
    decreases |files|
  {
    if |files| > 0 {
      var rest := files[1..];
      if !IsFile(fs, files[0]) {
        assert FilesOf(fs, files) == FilesOf(fs, rest);
        CopyFilesSkipsNonFiles(plat, fs, rest, outDir);
      } else {
        CopyInto(plat, fs, files[0], outDir);
        var fs1 := Copy(plat, fs, files[0], outDir).value;
        var b0 := Basename(plat, files[0]);
        TargetNotListedLater(plat, fs1, rest, outDir, b0);
        forall j | 0 <= j < |rest| ensures IsFile(fs, rest[j]) == IsFile(fs1, rest[j]) {
        }
        FilesOfAgree(fs, fs1, rest);
        CopyFilesSkipsNonFiles(plat, fs1, rest, outDir);
        var only := FilesOf(fs, files);
        assert only == [files[0]] + FilesOf(fs, rest);
        assert only[0] == files[0] && only[1..] == FilesOf(fs1, rest);
      }
    }
  }

  /** A single file lands, with its contents and permissions, at
      `<outDir>/<base name>`. */
  lemma CopyOneFile(plat: Platform, fs: Fs, f: Path, outDir: Path)
    requires IsFile(fs, f) && IsDir(fs, outDir)
    requires Join(plat, outDir, Basename(plat, f)) != f
    requires !IsDir(fs, Join(plat, outDir, Basename(plat, f)))
    ensures CopyFiles(plat, fs, [f], outDir) == Effect(fs[Join(plat, outDir, Basename(plat, f)) := fs[f]], None)
  {
    var fs1 := fs[Join(plat, outDir, Basename(plat, f)) := fs[f]];
    assert Copy(plat, fs, f, outDir) == Success(fs1);
    assert [f][1..] == [];
    assert CopyFiles(plat, fs1, [], outDir) == Effect(fs1, None);
  }

  /** `<output>/<dest>` is created, with its parents, unless something of
      that name already exists. */
  function EnsureDir(plat: Platform, fs: Fs, outDir: Path): (r: Result<Fs, Error>)
    ensures r.Success? ==> outDir in r.value
    ensures outDir in fs ==> r == Success(fs)
  {
    if outDir in fs then Success(fs) else MakeDirs(plat, fs, outDir)
  }

  /** The pair at position `k`: makes `<output>/<dest>` when nothing of
      that name exists, then copies the files its glob lists into it. */
  function PairStep(plat: Platform, fs: Fs, outputDir: Path, globs: seq<(string, string)>,
                    listing: nat -> seq<Path>, k: nat): (r: Effect)
    requires k < |globs|
    ensures fs.Keys <= r.fs.Keys
    ensures forall p :: IsDir(fs, p) ==> IsDir(r.fs, p)
  {
    var outDir := Join(plat, outputDir, globs[k].1);
    match EnsureDir(plat, fs, outDir)
    case Failure(e) => Effect(fs, Some(e))
    case Success(fs1) => CopyFiles(plat, fs1, listing(k), outDir)
  }

  /** The pairs from position `k` on; the first failure ends the step,
      keeping what was copied before it. */
  function CopyGlobs(plat: Platform, fs: Fs, outputDir: Path, globs: seq<(string, string)>,
                     listing: nat -> seq<Path>, k: nat): (r: Effect)
    requires k <= |globs|
    ensures fs.Keys <= r.fs.Keys
    ensures forall p :: IsDir(fs, p) ==> IsDir(r.fs, p)
  {
    PairsGrow(plat, outputDir, globs, listing);
    ChainGrows(PairAt(plat, outputDir, globs, listing), fs, k, |globs|);
    Chain(PairAt(plat, outputDir, globs, listing), fs, k, |globs|)
  }

  /** `_copy_data()`: with no pairs nothing happens; otherwise it only
      ever adds or overwrites files and creates directories, whether it
      succeeds or stops at a failure. */
  function CopyData(plat: Platform, fs: Fs, outputDir: Path, globs: seq<(string, string)>,
                    listing: nat -> seq<Path>): (r: Effect)
    ensures |globs| == 0 ==> r == Effect(fs, None)
    ensures fs.Keys <= r.fs.Keys
    ensures forall p :: IsDir(fs, p) ==> IsDir(r.fs, p)
  {
    if |globs| == 0 then Effect(fs, None) else CopyGlobs(plat, fs, outputDir, globs, listing, 0)
  }

  /** Runs `step` at positions `k`, `k + 1`, … below `n`; the first
      failure ends the run, with the state that step left. */
  function Chain(step: (Fs, nat) -> Effect, fs: Fs, k: nat, n: nat): Effect
    decreases n - k
  {
    if k >= n then Effect(fs, None)
    else
      var e := step(fs, k);
      if e.err.Some? then e else Chain(step, e.fs, k + 1, n)
  }

  /** `b` grows out of `a`: no path goes away and every directory stays
      one. */
  ghost predicate Grows(a: Fs, b: Fs) {
    a.Keys <= b.Keys && forall p :: IsDir(a, p) ==> IsDir(b, p)
  }

  /** A chain of steps that each only grow the state only grows it. */
  lemma {:induction false} ChainGrows(step: (Fs, nat) -> Effect, fs: Fs, k: nat, n: nat)
    requires forall f: Fs, j: nat :: Grows(f, step(f, j).fs)
    ensures Grows(fs, Chain(step, fs, k, n).fs)
    decreases n - k
  {
    if k < n {
      var e := step(fs, k);
      if e.err.None? {
        ChainGrows(step, e.fs, k + 1, n);
      }
    }
  }

  /** Every pair only grows the state. */
  lemma PairsGrow(plat: Platform, outputDir: Path, globs: seq<(string, string)>, listing: nat -> seq<Path>)
    ensures forall f: Fs, j: nat :: Grows(f, PairAt(plat, outputDir, globs, listing)(f, j).fs)
  {
  }

  /** The state in which position `k` starts when a run of `step` starts
      at `k0` in `fs` and every step before `k` succeeds. */
  function ChainState(step: (Fs, nat) -> Effect, fs: Fs, k0: nat, k: nat): Fs
    requires k0 <= k
    decreases k - k0
  {
    if k == k0 then fs else step(ChainState(step, fs, k0, k - 1), k - 1).fs
  }

  /** A run that succeeds from `k0` is, from position `k` on, the run from
      `k` in the state that position starts in. */
  lemma {:induction false} ChainFrom(step: (Fs, nat) -> Effect, fs: Fs, k0: nat, k: nat, n: nat)
    requires k0 <= k <= n && Chain(step, fs, k0, n).err.None?
    ensures Chain(step, fs, k0, n) == Chain(step, ChainState(step, fs, k0, k), k, n)
    decreases k - k0
  {
    if k0 < k {
      ChainFrom(step, fs, k0, k - 1, n);
    }
  }

  /** The pairs of `_copy_data` as one step function over positions. */
  function PairAt(plat: Platform, outputDir: Path, globs: seq<(string, string)>,
                  listing: nat -> seq<Path>): (Fs, nat) -> Effect
  {
    (f: Fs, j: nat) => if j < |globs| then PairStep(plat, f, outputDir, globs, listing, j) else Effect(f, None)
  }

  /** The state in which the pair at `k` starts when every pair before it
      succeeds. */
  function PairStart(plat: Platform, fs: Fs, outputDir: Path, globs: seq<(string, string)>,
                     listing: nat -> seq<Path>, k: nat): Fs
  {
    ChainState(PairAt(plat, outputDir, globs, listing), fs, 0, k)
  }

  /** Every path copying `files` into `outDir` could write: `outDir`
      itself, when it is a file, and `<outDir>/<base name>` of each listed
      path. */
  function ListTargets(plat: Platform, files: seq<Path>, outDir: Path): set<Path> {
    {outDir} + set m | 0 <= m < |files| :: Join(plat, outDir, Basename(plat, files[m]))
  }

  /** Copying a list changes no path it could not write, whatever is in
      the way and whether it succeeds or stops at a failure. */
  lemma {:induction false} CopyFilesWrites(plat: Platform, fs: Fs, files: seq<Path>, outDir: Path)
    ensures SameExcept(fs, CopyFiles(plat, fs, files, outDir).fs, ListTargets(plat, files, outDir))
    decreases |files|
  {
    if |files| > 0 {
      var all := ListTargets(plat, files, outDir);
      var rest := files[1..];
      forall u | u in ListTargets(plat, rest, outDir) ensures u in all {
        if u != outDir {
          var m :| 0 <= m < |rest| && u == Join(plat, outDir, Basename(plat, rest[m]));
          assert rest[m] == files[m + 1];
        }
      }
      if !IsFile(fs, files[0]) {
        CopyFilesWrites(plat, fs, rest, outDir);
      } else {
        match Copy(plat, fs, files[0], outDir)
        case Failure(_) =>
        case Success(fs1) =>
          var t := CopyTarget(plat, fs, files[0], outDir);
          assert t in all;
          CopyFilesWrites(plat, fs1, rest, outDir);
          SameExceptTrans(fs, fs1, CopyFiles(plat, fs1, rest, outDir).fs, {t}, ListTargets(plat, rest, outDir), all);
      }
    }
  }

  /** A run of the pairs that succeeds is, from the pair at `k` on, the
      run from `k` in the state that pair starts in. */
  lemma GlobsFrom(plat: Platform, fs: Fs, outputDir: Path, globs: seq<(string, string)>,
                  listing: nat -> seq<Path>, k: nat)
    requires k <= |globs|
    requires CopyGlobs(plat, fs, outputDir, globs, listing, 0).err.None?
    ensures CopyGlobs(plat, fs, outputDir, globs, listing, 0)
            == CopyGlobs(plat, PairStart(plat, fs, outputDir, globs, listing, k), outputDir, globs, listing, k)
  {
    ChainFrom(PairAt(plat, outputDir, globs, listing), fs, 0, k, |globs|);
  }

  /** A run that succeeds from `k0` passed the pair at `k0` and went on
      from the state it left. */
  lemma GlobsStep(plat: Platform, fs: Fs, outputDir: Path, globs: seq<(string, string)>,
                  listing: nat -> seq<Path>, k0: nat)
    requires k0 < |globs|
    requires CopyGlobs(plat, fs, outputDir, globs, listing, k0).err.None?
    ensures var e := PairStep(plat, fs, outputDir, globs, listing, k0);
            && e.err.None?
            && CopyGlobs(plat, fs, outputDir, globs, listing, k0) == CopyGlobs(plat, e.fs, outputDir, globs, listing, k0 + 1)
  {
  }

  /** A file that no pair from `k` on could write keeps its entry, whether
      the run succeeds or stops at a failure. */
  lemma {:induction false} GlobsKeep(plat: Platform, fs: Fs, outputDir: Path, globs: seq<(string, string)>,
                                     listing: nat -> seq<Path>, k: nat, t: Path)
    requires k <= |globs| && IsFile(fs, t)
    requires forall j :: k <= j < |globs| ==> t !in ListTargets(plat, listing(j), Join(plat, outputDir, globs[j].1))
    ensures var r := CopyGlobs(plat, fs, outputDir, globs, listing, k).fs;
            IsFile(r, t) && r[t] == fs[t]
    decreases |globs| - k
  {
    if k < |globs| {
      var outDir := Join(plat, outputDir, globs[k].1);
      match EnsureDir(plat, fs, outDir)
      case Failure(_) =>
      case Success(fs1) =>
        assert t in fs1 && fs1[t] == fs[t];
        CopyFilesWrites(plat, fs1, listing(k), outDir);
        var c := CopyFiles(plat, fs1, listing(k), outDir);
        assert c == PairStep(plat, fs, outputDir, globs, listing, k);
        if c.err.None? {
          GlobsKeep(plat, c.fs, outputDir, globs, listing, k + 1, t);
        }
    }
  }

  /** In a run of `_copy_data` that succeeds, a file the glob of pair `k`
      lists lands at `<output>/<dest>/<base name>` with its contents and
      permissions, as it was when that pair started, unless a later file of
      the same pair has the same base name or a later pair could write
      there. The destination must not already exist as a file: then every
      match is copied onto that file instead. */
  lemma CopyDataLands(plat: Platform, fs: Fs, outputDir: Path, globs: seq<(string, string)>,
                      listing: nat -> seq<Path>, k: nat, i: nat)
    requires k < |globs|
    requires CopyData(plat, fs, outputDir, globs, listing).err.None?
    requires var s := PairStart(plat, fs, outputDir, globs, listing, k);
             var outDir := Join(plat, outputDir, globs[k].1);
             var files := listing(k);
             && !IsFile(s, outDir)
             && i < |files| && IsFile(s, files[i])
             && (forall j :: i < j < |files| && IsFile(s, files[j]) ==> Basename(plat, files[j]) != Basename(plat, files[i]))
             && (forall j :: k < j < |globs| ==>
                   Join(plat, outDir, Basename(plat, files[i])) !in ListTargets(plat, listing(j), Join(plat, outputDir, globs[j].1)))
    ensures var s := PairStart(plat, fs, outputDir, globs, listing, k);
            var f := listing(k)[i];
            var t := Join(plat, Join(plat, outputDir, globs[k].1), Basename(plat, f));
            var r := CopyData(plat, fs, outputDir, globs, listing).fs;
            IsFile(r, t) && r[t] == s[f]
  {
    var s := PairStart(plat, fs, outputDir, globs, listing, k);
    var outDir := Join(plat, outputDir, globs[k].1);
    var files := listing(k);
    var t := Join(plat, outDir, Basename(plat, files[i]));
    GlobsFrom(plat, fs, outputDir, globs, listing, k);
    GlobsStep(plat, s, outputDir, globs, listing, k);
    var e := PairStep(plat, s, outputDir, globs, listing, k);
    var s1 := EnsureDir(plat, s, outDir).value;
    EnsureDirAddsDirs(plat, s, outDir);
    CopyFilesLands(plat, s1, files, outDir, i);
    GlobsKeep(plat, e.fs, outputDir, globs, listing, k + 1, t);
  }

  /** Making the destination adds only directories: files are exactly
      those before, and a destination that was not a file is a directory
      afterwards. */
  lemma EnsureDirAddsDirs(plat: Platform, fs: Fs, outDir: Path)
    requires EnsureDir(plat, fs, outDir).Success? && !IsFile(fs, outDir)
    ensures var fs1 := EnsureDir(plat, fs, outDir).value;
            && IsDir(fs1, outDir)
            && (forall p :: IsFile(fs1, p) <==> IsFile(fs, p))
            && (forall p :: IsFile(fs, p) ==> fs1[p] == fs[p])
  {
  }
}
