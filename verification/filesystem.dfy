/** The file system as a finite map from path strings to entries, with the
    handful of `os`/`shutil` operations the packer performs. Paths are
    compared as strings: two spellings of one location are two keys. */
module FileSystem {
  import opened Wrappers
  import opened Errors
  import opened Paths

  type Path = string

  /** Permission bits: whatever creating the file gave it, or set explicitly. */
  datatype Perm = CreationDefault | Mode(bits: nat)

  datatype Entry = File(data: string, perm: Perm) | Dir

  type Fs = map<Path, Entry>

  /** The state a step leaves behind, and the exception it raised if any:
      a step that raises part-way keeps the changes it made before. */
  datatype Effect = Effect(fs: Fs, err: Option<Error>)

  /** `0o755`: owner read/write/execute, group and others read/execute. */
  const Executable: Perm := Mode(493)

  predicate IsFile(fs: Fs, p: Path) { p in fs && fs[p].File? }

  predicate IsDir(fs: Fs, p: Path) { p in fs && fs[p].Dir? }

  /** Every path outside `changed` is present in `b` exactly when it is
      present in `a`, with the same entry. */
  predicate SameExcept(a: Fs, b: Fs, changed: set<Path>) {
    && (forall k :: k in a && k !in changed ==> k in b && b[k] == a[k])
    && (forall k :: k in b && k !in changed ==> k in a)
  }

  /** The state after `open(p, 'w')`, writing `data` and closing: the file is
      created, or truncated and refilled keeping its permission bits. */
  function Written(fs: Fs, p: Path, data: string): (r: Fs)
    requires !IsDir(fs, p)
    ensures IsFile(r, p) && r[p].data == data
    ensures IsFile(fs, p) ==> r[p].perm == fs[p].perm
    ensures SameExcept(fs, r, {p})
  {
    fs[p := File(data, if IsFile(fs, p) then fs[p].perm else CreationDefault)]
  }

  /** `os.chmod(p, perm)` on a file. */
  function Chmod(fs: Fs, p: Path, perm: Perm): (r: Fs)
    requires IsFile(fs, p)
    ensures IsFile(r, p) && r[p] == File(fs[p].data, perm)
    ensures SameExcept(fs, r, {p})
  {
    fs[p := File(fs[p].data, perm)]
  }

  /** Where `shutil.copy(src, dst)` writes: inside `dst` under the source's
      base name when `dst` is a directory, otherwise `dst` itself. */
  function CopyTarget(plat: Platform, fs: Fs, src: Path, dst: Path): Path {
    if IsDir(fs, dst) then Join(plat, dst, Basename(plat, src)) else dst
  }

  /** `shutil.copy(src, dst)`: copies the contents and permission bits of a
      file; a missing source, a directory source, a target that is the
      source itself, or a directory in the way of the target raise. */
  function Copy(plat: Platform, fs: Fs, src: Path, dst: Path): (r: Result<Fs, Error>)
    ensures r.Success? <==> IsFile(fs, src) && CopyTarget(plat, fs, src, dst) != src
                            && !IsDir(fs, CopyTarget(plat, fs, src, dst))
    ensures IsFile(fs, src) && CopyTarget(plat, fs, src, dst) == src ==> r == Failure(SameFile(src))
    ensures r.Success? ==> var t := CopyTarget(plat, fs, src, dst);
                           IsFile(r.value, t) && r.value[t] == fs[src]
                           && SameExcept(fs, r.value, {t})
  {
    var t := CopyTarget(plat, fs, src, dst);
    if src !in fs then Failure(NotFound(src))
    else if fs[src].Dir? then Failure(IsADirectory(src))
    else if t == src then Failure(SameFile(src))
    else if IsDir(fs, t) then Failure(IsADirectory(t))
    else Success(fs[t := fs[src]])
  }

  /** `os.remove(p)`: only files can be removed. */
  function Remove(fs: Fs, p: Path): (r: Result<Fs, Error>)
    ensures r.Success? <==> IsFile(fs, p)
    ensures r.Success? ==> p !in r.value && SameExcept(fs, r.value, {p})
  {
    if p !in fs then Failure(NotFound(p))
    else if fs[p].Dir? then Failure(IsADirectory(p))
    else Success(fs - {p})
  }

  /** Where `shutil.move(src, dst)` puts `src`. */
  function MoveTarget(plat: Platform, fs: Fs, src: Path, dst: Path): Path {
    if IsDir(fs, dst) then Join(plat, dst, Basename(plat, src)) else dst
  }

  /** `shutil.move(src, dst)`: renames the entry, replacing an existing file
      at the target; moving into a directory that already holds the name
      raises. Only the entry itself is moved: entries below a moved
      directory are not tracked. */
  function Move(plat: Platform, fs: Fs, src: Path, dst: Path): (r: Result<Fs, Error>)
    ensures r.Success? <==> src in fs && (IsDir(fs, dst) ==> MoveTarget(plat, fs, src, dst) !in fs)
    ensures r.Success? ==> var t := MoveTarget(plat, fs, src, dst);
                           t in r.value && r.value[t] == fs[src]
                           && (src != t ==> src !in r.value)
                           && SameExcept(fs, r.value, {src, t})
  {
    var t := MoveTarget(plat, fs, src, dst);
    if src !in fs then Failure(NotFound(src))
    else if IsDir(fs, dst) && t in fs then Failure(AlreadyExists(t))
    else Success((fs - {src})[t := fs[src]])
  }

  /** `p` and each ancestor directory named by a prefix of `p` that ends just
      before a separator. */
  function Ancestors(plat: Platform, p: Path): set<Path> {
    set i | 0 < i <= |p| && (i == |p| || (IsSep(plat, p[i]) && !IsSep(plat, p[i - 1]))) :: p[..i]
  }

  /** `os.makedirs(p, exist_ok=True)`: creates `p` and its missing ancestors
      as directories; fails when `p` is empty or any of them is a file. */
  function MakeDirs(plat: Platform, fs: Fs, p: Path): (r: Result<Fs, Error>)
    ensures r.Success? <==> |p| > 0 && forall q :: q in Ancestors(plat, p) ==> !IsFile(fs, q)
    ensures r.Success? ==> IsDir(r.value, p)
    ensures r.Success? ==> forall k :: k in fs ==> k in r.value && r.value[k] == fs[k]
    ensures r.Success? ==> forall k :: k in r.value && k !in fs ==> k in Ancestors(plat, p) && r.value[k] == Dir
  {
    var anc := Ancestors(plat, p);
    if |p| == 0 then Failure(NotFound(p))
    else if exists q :: q in anc && IsFile(fs, q) then Failure(NotADirectory(p))
    else
      assert p[..|p|] == p;
      assert p in anc;
      Success(fs + map q | q in anc && q !in fs :: Dir)
  }

  /** A file that survives a frame was there before, with the same contents. */
  lemma FileKept(a: Fs, b: Fs, changed: set<Path>, k: Path)
    requires SameExcept(a, b, changed) && k !in changed && IsFile(b, k)
    ensures IsFile(a, k) && a[k] == b[k]
  {
  }

  /** A directory outside a frame's changed paths stays a directory. */
  lemma DirKept(a: Fs, b: Fs, changed: set<Path>, k: Path)
    requires SameExcept(a, b, changed) && k !in changed && IsDir(a, k)
    ensures IsDir(b, k)
  {
  }

  /** `os.makedirs` creates only directories, so every file after it was
      there before. */
  lemma MakeDirsKeepsFile(plat: Platform, fs: Fs, p: Path, k: Path)
    requires MakeDirs(plat, fs, p).Success? && IsFile(MakeDirs(plat, fs, p).value, k)
    ensures k in fs && fs[k] == MakeDirs(plat, fs, p).value[k]
  {
  }
}
