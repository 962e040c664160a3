/** `_make_exec`: builds a native launcher with CMake. Setting up the
    source directory is pure file-system work; the two CMake runs are
    inputs, each an exit status and the entries it wrote. */
module Native {
  import opened Wrappers
  import opened Errors
  import opened Paths
  import opened FileSystem
  import opened Config
  import opened Command
  import opened Generate
  import opened Template

  /** What one external run did: its exit status and what it wrote. */
  datatype ToolRun = ToolRun(exit: int, writes: Fs)

  /** How the native build ended. */
  datatype Outcome = Failed(err: Error) | Copied(dest: Path)

  /** The final state, the argument lists that were run, in order, and the
      outcome. */
  datatype BuildResult = BuildResult(fs: Fs, ran: seq<seq<string>>, outcome: Outcome)

  function CMakeBuildDir(plat: Platform, buildDir: Path): Path { Join(plat, buildDir, "dp-cmake-build") }

  function CMakeSourceDir(plat: Platform, buildDir: Path): Path { Join(plat, buildDir, "dp-app-src-dir") }

  /** The configure command: source and build directories and the
      executable name, then the release build type off Windows, then the
      debug-log switch when asked for. */
  function ConfigureArgs(plat: Platform, src: Path, build: Path, name: string, debugLogs: bool): seq<string> {
    ["cmake", "-S", src, "-B", build, "-DEXEC_NAME=" + name]
    + (if plat.Windows? then [] else ["-DCMAKE_BUILD_TYPE=Release"])
    + (if debugLogs then ["-DDEBUG_LOGS=ON"] else [])
  }

  /** The build command; Windows selects the release configuration here. */
  function BuildArgs(plat: Platform, build: Path): seq<string> {
    ["cmake", "--build", build] + (if plat.Windows? then ["--config=Release"] else [])
  }

  /** The leading arguments hold neither optional switch. */
  lemma HeadHasNoSwitch(src: Path, build: Path, name: string)
    requires |src| > 0 && |build| > 0 && src[0] != '-' && build[0] != '-'
    ensures var head := ["cmake", "-S", src, "-B", build, "-DEXEC_NAME=" + name];
            && "-DCMAKE_BUILD_TYPE=Release" !in head && "-DDEBUG_LOGS=ON" !in head
            && "--config=Release" !in ["cmake", "--build", build]
  {
    var e := "-DEXEC_NAME=" + name;
    assert e[2] == 'E';
    assert "-DCMAKE_BUILD_TYPE=Release"[0] == '-' && "-DDEBUG_LOGS=ON"[0] == '-' && "--config=Release"[0] == '-';
    assert "-DCMAKE_BUILD_TYPE=Release"[2] == 'C' && "-DDEBUG_LOGS=ON"[2] == 'D';
  }

  /** Exactly one of the two commands selects a release build: the
      configure step off Windows, the build step on Windows. Debug logging
      is switched on exactly when asked for, as the last argument. */
  lemma ReleaseSelectedOnce(plat: Platform, src: Path, build: Path, name: string, debugLogs: bool)
    requires |src| > 0 && |build| > 0 && src[0] != '-' && build[0] != '-'
    ensures var c := ConfigureArgs(plat, src, build, name, debugLogs);
            var b := BuildArgs(plat, build);
            && c[..6] == ["cmake", "-S", src, "-B", build, "-DEXEC_NAME=" + name]
            && b[..3] == ["cmake", "--build", build]
            && ("-DCMAKE_BUILD_TYPE=Release" in c <==> plat.Posix?)
            && ("--config=Release" in b <==> plat.Windows?)
            && ("-DDEBUG_LOGS=ON" in c <==> debugLogs)
            && (debugLogs ==> c[|c| - 1] == "-DDEBUG_LOGS=ON")
  {
    var head := ["cmake", "-S", src, "-B", build, "-DEXEC_NAME=" + name];
    var release, debug := "-DCMAKE_BUILD_TYPE=Release", "-DDEBUG_LOGS=ON";
    HeadHasNoSwitch(src, build, name);
    var c := ConfigureArgs(plat, src, build, name, debugLogs);
    var rel: seq<string> := if plat.Windows? then [] else [release];
    var dbg: seq<string> := if debugLogs then [debug] else [];
    assert c == head + rel + dbg;
    assert c[..6] == head by {
      assert (head + rel + dbg)[..6] == head;
    }
    assert release != debug by {
      assert |release| != |debug|;
    }
    assert release in c <==> release in rel;
    assert debug in c <==> debug in dbg;
    var bh := ["cmake", "--build", build];
    var bw: seq<string> := if plat.Windows? then ["--config=Release"] else [];
    assert BuildArgs(plat, build) == bh + bw;
    assert (bh + bw)[..3] == bh;
  }

  /** Where the built executable appears: under `Release` on Windows, with
      the `.exe` suffix. */
  function ExecName(plat: Platform, name: string): string {
    if plat.Windows? then name + ".exe" else name
  }

  function ExecPath(plat: Platform, build: Path, name: string): Path {
    if plat.Windows? then Join(plat, Join(plat, build, "Release"), ExecName(plat, name))
    else Join(plat, build, ExecName(plat, name))
  }

  /** The running of the two CMake commands and the copy of the artifact:
      a failed configure stops before the build runs, a failed build stops
      before looking for the artifact, and a missing artifact stops before
      anything is copied. */
  function RunBuild(plat: Platform, fs: Fs, buildDir: Path, outputDir: Path, name: string, debugLogs: bool,
                    configure: ToolRun, build: ToolRun): (r: BuildResult)
    ensures var c := ConfigureArgs(plat, CMakeSourceDir(plat, buildDir), CMakeBuildDir(plat, buildDir), name, debugLogs);
            var b := BuildArgs(plat, CMakeBuildDir(plat, buildDir));
            && |r.ran| >= 1 && r.ran[0] == c
            && (configure.exit != 0 <==> r.ran == [c])
            && (configure.exit != 0 ==> r.outcome == Failed(ConfigureFailed(configure.exit)) && r.fs == fs + configure.writes)
            && (configure.exit == 0 ==> r.ran == [c, b])
            && (configure.exit == 0 && build.exit != 0 ==> r.outcome == Failed(BuildFailed(build.exit)))
            && (r.outcome.Copied? ==> IsFile(r.fs, r.outcome.dest))
  {
    var cmakeBuild := CMakeBuildDir(plat, buildDir);
    var c := ConfigureArgs(plat, CMakeSourceDir(plat, buildDir), cmakeBuild, name, debugLogs);
    var b := BuildArgs(plat, cmakeBuild);
    var fs1 := fs + configure.writes;
    if configure.exit != 0 then BuildResult(fs1, [c], Failed(ConfigureFailed(configure.exit)))
    else
      var fs2 := fs1 + build.writes;
      if build.exit != 0 then BuildResult(fs2, [c, b], Failed(BuildFailed(build.exit)))
      else
        var execPath := ExecPath(plat, cmakeBuild, name);
        if !IsFile(fs2, execPath) then BuildResult(fs2, [c, b], Failed(ArtifactMissing(execPath)))
        else
          match Copy(plat, fs2, execPath, Join(plat, outputDir, ExecName(plat, name)))
          case Failure(e) => BuildResult(fs2, [c, b], Failed(e))
          case Success(fs3) => BuildResult(fs3, [c, b], Copied(CopyTarget(plat, fs2, execPath, Join(plat, outputDir, ExecName(plat, name)))))
  }

  /** After both runs succeed: a missing artifact fails with its path and
      copies nothing. Otherwise the artifact is copied to `<output>/<exec
      name>`, or inside it under the artifact's base name when that is a
      directory (an app named `venv` off Windows). A target that is the
      artifact itself fails as a copy onto itself, one that is a directory
      fails as such, and any other receives the artifact's contents with
      nothing else changed. */
  lemma RunBuildArtifact(plat: Platform, fs: Fs, buildDir: Path, outputDir: Path, name: string, debugLogs: bool,
                         configure: ToolRun, build: ToolRun)
    requires configure.exit == 0 && build.exit == 0
    ensures var built := fs + configure.writes + build.writes;
            var execPath := ExecPath(plat, CMakeBuildDir(plat, buildDir), name);
            var dest := Join(plat, outputDir, ExecName(plat, name));
            var t := CopyTarget(plat, built, execPath, dest);
            var r := RunBuild(plat, fs, buildDir, outputDir, name, debugLogs, configure, build);
            && (!IsDir(built, dest) ==> t == dest)
            && (IsDir(built, dest) ==> t == Join(plat, dest, Basename(plat, execPath)))
            && (!IsFile(built, execPath) ==> r.outcome == Failed(ArtifactMissing(execPath)) && r.fs == built)
            && (IsFile(built, execPath) && t == execPath ==> r.outcome == Failed(SameFile(execPath)) && r.fs == built)
            && (IsFile(built, execPath) && t != execPath && IsDir(built, t) ==>
                  r.outcome == Failed(IsADirectory(t)) && r.fs == built)
            && (IsFile(built, execPath) && t != execPath && !IsDir(built, t) ==>
                  && r.outcome == Copied(t)
                  && IsFile(r.fs, t) && r.fs[t] == built[execPath]
                  && SameExcept(built, r.fs, {t}))
  {
  }

  /** Prepares `<build>/dp-app-src-dir`: creates it, renders `app.cpp` into
      it with the quote-escaped interpreter arguments, and copies
      `CMakeLists.txt` next to it. */
  function Prepare(plat: Platform, fs: Fs, templateDir: Path, buildDir: Path, pyVersion: string, app: App): Effect {
    var src := CMakeSourceDir(plat, buildDir);
    match MakeDirs(plat, fs, src)
    case Failure(e) => Effect(fs, Some(e))
    case Success(fs1) =>
      var e := DoReplace(plat, fs1, templateDir, "app.cpp", Join(plat, src, "app.cpp"),
                         Replacements(EscapeQuotes(GetCmd(app)), pyVersion));
      if e.err.Some? then e
      else
        match Copy(plat, e.fs, Join(plat, templateDir, "CMakeLists.txt"), src)
        case Failure(err) => Effect(e.fs, Some(err))
        case Success(fs2) => Effect(fs2, None)
  }

  /** `_make_exec(app)`: a failure while preparing the sources raises
      before any CMake command runs. */
  function MakeExec(plat: Platform, fs: Fs, templateDir: Path, buildDir: Path, outputDir: Path, pyVersion: string,
                    debugLogs: bool, app: App, configure: ToolRun, build: ToolRun): (r: BuildResult)
    ensures r.outcome.Copied? ==> |r.ran| == 2 && IsFile(r.fs, r.outcome.dest)
    ensures r.ran == [] <==> Prepare(plat, fs, templateDir, buildDir, pyVersion, app).err.Some?
  {
    var p := Prepare(plat, fs, templateDir, buildDir, pyVersion, app);
    if p.err.Some? then BuildResult(p.fs, [], Failed(p.err.value))
    else RunBuild(plat, p.fs, buildDir, outputDir, app.name, debugLogs, configure, build)
  }

  /** What preparing the sources leaves when it succeeds: the source
      directory, `app.cpp` holding the template rendered with the
      quote-escaped command and the version string, and beside it a copy of
      the template directory's `CMakeLists.txt`. */
  lemma PrepareWritesSources(plat: Platform, fs: Fs, templateDir: Path, buildDir: Path, pyVersion: string, app: App)
    requires Join(plat, templateDir, "app.cpp") != Join(plat, CMakeSourceDir(plat, buildDir), "app.cpp")
    ensures var src := CMakeSourceDir(plat, buildDir);
            var tmpl := Join(plat, templateDir, "app.cpp");
            var lists := Join(plat, templateDir, "CMakeLists.txt");
            var r := Prepare(plat, fs, templateDir, buildDir, pyVersion, app);
            r.err.None? ==>
              && IsDir(r.fs, src) && IsFile(fs, tmpl)
              && IsFile(r.fs, Join(plat, src, "app.cpp"))
              && Render(fs[tmpl].data, Replacements(EscapeQuotes(GetCmd(app)), pyVersion))
                 == Success(r.fs[Join(plat, src, "app.cpp")].data)
              && IsFile(r.fs, Join(plat, src, "CMakeLists.txt"))
              && lists in fs && r.fs[Join(plat, src, "CMakeLists.txt")] == fs[lists]
  {
    PrepareRendersApp(plat, fs, templateDir, buildDir, pyVersion, app);
    PrepareCopiesLists(plat, fs, templateDir, buildDir, pyVersion, app);
  }

  /** The `app.cpp` half of `PrepareWritesSources`. */
  lemma PrepareRendersApp(plat: Platform, fs: Fs, templateDir: Path, buildDir: Path, pyVersion: string, app: App)
    requires Join(plat, templateDir, "app.cpp") != Join(plat, CMakeSourceDir(plat, buildDir), "app.cpp")
    ensures var src := CMakeSourceDir(plat, buildDir);
            var tmpl := Join(plat, templateDir, "app.cpp");
            var r := Prepare(plat, fs, templateDir, buildDir, pyVersion, app);
            r.err.None? ==>
              && IsDir(r.fs, src) && IsFile(fs, tmpl)
              && IsFile(r.fs, Join(plat, src, "app.cpp"))
              && Render(fs[tmpl].data, Replacements(EscapeQuotes(GetCmd(app)), pyVersion))
                 == Success(r.fs[Join(plat, src, "app.cpp")].data)
  {
    var src := CMakeSourceDir(plat, buildDir);
    var out := Join(plat, src, "app.cpp");
    var m := Replacements(EscapeQuotes(GetCmd(app)), pyVersion);
    var r := Prepare(plat, fs, templateDir, buildDir, pyVersion, app);
    if r.err.None? {
      var fs1 := MakeDirs(plat, fs, src).value;
      var e := DoReplace(plat, fs1, templateDir, "app.cpp", out, m);
      var c := Copy(plat, e.fs, Join(plat, templateDir, "CMakeLists.txt"), src);
      PrepareSucceeded(plat, fs, templateDir, buildDir, pyVersion, app);
      RenderThenCopy(plat, fs, fs1, templateDir, src, m);
    }
  }

  /** Rendering `app.cpp` and then copying `CMakeLists.txt` beside it leaves
      the rendering in place. */
  lemma RenderThenCopy(plat: Platform, fs: Fs, fs1: Fs, templateDir: Path, src: Path, m: map<string, string>)
    requires MakeDirs(plat, fs, src) == Success(fs1)
    requires Join(plat, templateDir, "app.cpp") != Join(plat, src, "app.cpp")
    ensures var tmpl := Join(plat, templateDir, "app.cpp");
            var out := Join(plat, src, "app.cpp");
            var e := DoReplace(plat, fs1, templateDir, "app.cpp", out, m);
            var c := Copy(plat, e.fs, Join(plat, templateDir, "CMakeLists.txt"), src);
            e.err.None? && c.Success? ==>
              && IsDir(c.value, src) && IsFile(fs, tmpl) && IsFile(c.value, out)
              && Render(fs[tmpl].data, m) == Success(c.value[out].data)
  {
    var out := Join(plat, src, "app.cpp");
    var e := DoReplace(plat, fs1, templateDir, "app.cpp", out, m);
    var c := Copy(plat, e.fs, Join(plat, templateDir, "CMakeLists.txt"), src);
    if e.err.None? && c.Success? {
      RenderStep(plat, fs, fs1, templateDir, src, m);
      SourcesDistinct(plat, templateDir, src);
      DirKept(fs1, e.fs, {out}, src);
      CopyListsBeside(plat, e.fs, templateDir, src);
    }
  }

  /** A preparation that succeeded made the source directory, rendered
      `app.cpp` and copied `CMakeLists.txt`, in that order. */
  lemma PrepareSucceeded(plat: Platform, fs: Fs, templateDir: Path, buildDir: Path, pyVersion: string, app: App)
    requires Prepare(plat, fs, templateDir, buildDir, pyVersion, app).err.None?
    ensures var src := CMakeSourceDir(plat, buildDir);
            var m := Replacements(EscapeQuotes(GetCmd(app)), pyVersion);
            && MakeDirs(plat, fs, src).Success?
            && var e := DoReplace(plat, MakeDirs(plat, fs, src).value, templateDir, "app.cpp", Join(plat, src, "app.cpp"), m);
               && e.err.None?
               && var c := Copy(plat, e.fs, Join(plat, templateDir, "CMakeLists.txt"), src);
                  c.Success? && Prepare(plat, fs, templateDir, buildDir, pyVersion, app).fs == c.value
  {
  }

  /** Rendering `app.cpp` into a freshly made source directory. */
  lemma RenderStep(plat: Platform, fs: Fs, fs1: Fs, templateDir: Path, src: Path, m: map<string, string>)
    requires MakeDirs(plat, fs, src) == Success(fs1)
    requires Join(plat, templateDir, "app.cpp") != Join(plat, src, "app.cpp")
    ensures var tmpl := Join(plat, templateDir, "app.cpp");
            var out := Join(plat, src, "app.cpp");
            var e := DoReplace(plat, fs1, templateDir, "app.cpp", out, m);
            e.err.None? ==>
              && IsFile(fs, tmpl) && IsFile(e.fs, out) && SameExcept(fs1, e.fs, {out})
              && Render(fs[tmpl].data, m) == Success(e.fs[out].data)
  {
    var tmpl := Join(plat, templateDir, "app.cpp");
    var out := Join(plat, src, "app.cpp");
    var e := DoReplace(plat, fs1, templateDir, "app.cpp", out, m);
    if e.err.None? {
      assert !IsDir(fs1, out);
      assert IsFile(fs1, tmpl);
      MakeDirsKeepsFile(plat, fs, src, tmpl);
      DoReplaceRenders(plat, fs1, templateDir, "app.cpp", out, m);
    }
  }

  /** The `CMakeLists.txt` half of `PrepareWritesSources`. */
  lemma PrepareCopiesLists(plat: Platform, fs: Fs, templateDir: Path, buildDir: Path, pyVersion: string, app: App)
    ensures var src := CMakeSourceDir(plat, buildDir);
            var lists := Join(plat, templateDir, "CMakeLists.txt");
            var r := Prepare(plat, fs, templateDir, buildDir, pyVersion, app);
            r.err.None? ==>
              && IsFile(r.fs, Join(plat, src, "CMakeLists.txt"))
              && lists in fs && r.fs[Join(plat, src, "CMakeLists.txt")] == fs[lists]
  {
    var src := CMakeSourceDir(plat, buildDir);
    var out := Join(plat, src, "app.cpp");
    var m := Replacements(EscapeQuotes(GetCmd(app)), pyVersion);
    var r := Prepare(plat, fs, templateDir, buildDir, pyVersion, app);
    if r.err.None? {
      var fs1 := MakeDirs(plat, fs, src).value;
      var e := DoReplace(plat, fs1, templateDir, "app.cpp", out, m);
      var c := Copy(plat, e.fs, Join(plat, templateDir, "CMakeLists.txt"), src);
      PrepareSucceeded(plat, fs, templateDir, buildDir, pyVersion, app);
      assert !IsDir(fs1, out);
      ListsStep(plat, fs, fs1, e.fs, templateDir, src);
    }
  }

  /** Copying `CMakeLists.txt` after a step that changed only `app.cpp` in a
      freshly made source directory. */
  lemma ListsStep(plat: Platform, fs: Fs, fs1: Fs, fs2: Fs, templateDir: Path, src: Path)
    requires MakeDirs(plat, fs, src) == Success(fs1)
    requires SameExcept(fs1, fs2, {Join(plat, src, "app.cpp")})
    ensures var lists := Join(plat, templateDir, "CMakeLists.txt");
            var t := Join(plat, src, "CMakeLists.txt");
            var c := Copy(plat, fs2, lists, src);
            c.Success? ==> IsFile(c.value, t) && lists in fs && c.value[t] == fs[lists]
  {
    var lists := Join(plat, templateDir, "CMakeLists.txt");
    var out := Join(plat, src, "app.cpp");
    var c := Copy(plat, fs2, lists, src);
    if c.Success? {
      SourcesDistinct(plat, templateDir, src);
      DirKept(fs1, fs2, {out}, src);
      CopyListsBeside(plat, fs2, templateDir, src);
      FileKept(fs1, fs2, {out}, lists);
      MakeDirsKeepsFile(plat, fs, src, lists);
    }
  }

  /** The copied `CMakeLists.txt`, template or destination, is never the
      rendered `app.cpp`, and neither is the source directory. */
  lemma SourcesDistinct(plat: Platform, templateDir: Path, src: Path)
    ensures src != Join(plat, src, "app.cpp")
    ensures Join(plat, templateDir, "CMakeLists.txt") != Join(plat, src, "app.cpp")
    ensures Join(plat, src, "CMakeLists.txt") != Join(plat, src, "app.cpp")
  {
    assert !IsSep(plat, 'C') && !IsSep(plat, 'a');
    JoinLast(plat, templateDir, "CMakeLists.txt");
    JoinLast(plat, src, "CMakeLists.txt");
    JoinLast(plat, src, "app.cpp");
  }

  /** Copying the template's `CMakeLists.txt` into an existing source
      directory writes `<src>/CMakeLists.txt` and nothing else. */
  lemma CopyListsBeside(plat: Platform, fs: Fs, templateDir: Path, src: Path)
    requires IsDir(fs, src)
    ensures var lists := Join(plat, templateDir, "CMakeLists.txt");
            var t := Join(plat, src, "CMakeLists.txt");
            var c := Copy(plat, fs, lists, src);
            c.Success? ==> IsFile(c.value, t) && c.value[t] == fs[lists] && SameExcept(fs, c.value, {t})
  {
    assert NoSep(plat, "CMakeLists.txt");
    BasenameOfJoin(plat, templateDir, "CMakeLists.txt");
  }
}
