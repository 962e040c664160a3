/** The native launcher the packer compiles, from its three templates:
    `app.cpp` built with a POSIX compiler or with MSVC, `app-linux.cpp`, and
    `app-windows.cpp` as a console or a GUI program. The launcher finds its
    install directory, sets the interpreter's environment, and assembles
    the command line it hands to the system. */
module Launcher {
  import opened Wrappers
  import opened Text
  import opened Config
  import opened Command

  datatype Variant =
    | PosixApp            // app.cpp, not MSVC
    | MsvcApp             // app.cpp under MSVC
    | LinuxApp            // app-linux.cpp
    | WindowsApp(gui: bool) // app-windows.cpp, `gui` when built as GUI_APP

  predicate IsSlash(c: char) { c == '/' || c == '\\' }

  /** Index of the last `/` or `\` of `s`; 0 when there is none. */
  function LastSlash(s: string): (r: nat)
    ensures r == 0 || (r < |s| && IsSlash(s[r]))
    ensures forall k :: r < k < |s| ==> !IsSlash(s[k])
  {
    if |s| == 0 then 0
    else if IsSlash(s[|s| - 1]) then |s| - 1
    else LastSlash(s[..|s| - 1])
  }

  /** The scan of `main`: one pass over `argv[0]`, remembering the
      position of each separator met, starting from 0. */
  method FindLastSlash(path: string) returns (lastSlash: nat)
    ensures lastSlash == LastSlash(path)
  {
    lastSlash := 0;
    var i := 0;
    while i < |path|
      invariant 0 <= i <= |path|
      invariant lastSlash == LastSlash(path[..i])
    {
      assert path[..i + 1][..i] == path[..i];
      if IsSlash(path[i]) {
        lastSlash := i;
      }
      i := i + 1;
    }
    assert path[..|path|] == path;
  }

  /** The install directory: `argv[0]` up to its last separator, or the
      working directory when that prefix is empty. */
  function InstallDir(argv0: string, cwd: string): string {
    var d := argv0[..LastSlash(argv0)];
    if |d| == 0 then cwd else d
  }

  /** The working directory is used exactly when `argv[0]` has no
      separator past its first character; otherwise the install directory
      is the part of `argv[0]` before its last separator. */
  lemma InstallDirChoice(argv0: string, cwd: string)
    ensures InstallDir(argv0, cwd) == cwd || |cwd| == 0 ||
            (exists k :: 0 < k < |argv0| && IsSlash(argv0[k]))
    ensures (forall k :: 0 < k < |argv0| ==> !IsSlash(argv0[k])) ==> InstallDir(argv0, cwd) == cwd
    ensures (exists k :: 0 < k < |argv0| && IsSlash(argv0[k])) ==>
              var d := InstallDir(argv0, cwd);
              && |d| < |argv0| && argv0[..|d|] == d && IsSlash(argv0[|d|])
              && forall k :: |d| < k < |argv0| ==> !IsSlash(argv0[k])
  {
    var r := LastSlash(argv0);
    if exists k :: 0 < k < |argv0| && IsSlash(argv0[k]) {
      var k :| 0 < k < |argv0| && IsSlash(argv0[k]);
      assert r >= k;
    }
  }

  /** The separator `main` puts before `venv` in PYTHONHOME. */
  function HomeSep(v: Variant): string {
    if v.MsvcApp? || v.WindowsApp? then "\\" else "/"
  }

  /** `" " + argv[i]` for each later argument, in order and unquoted. */
  function JoinArgs(args: seq<string>): string {
    if |args| == 0 then "" else " " + args[0] + JoinArgs(args[1..])
  }

  /** The interpreter a launcher starts, inside the bundle's `venv`. */
  function Interpreter(v: Variant, dir: string): string {
    match v
    case PosixApp => dir + "/venv/bin/python"
    case LinuxApp => dir + "/venv/bin/python"
    case MsvcApp => dir + "\\venv\\Scripts\\python.exe"
    case WindowsApp(gui) => dir + "\\venv\\Scripts\\" + (if gui then "pythonw.exe" else "python.exe")
  }

  /** What follows the quoted interpreter: the command, then the later
      arguments. Under MSVC the closing quote of the outer pair stands
      between them. */
  function AfterProgram(v: Variant, cmd: string, args: seq<string>): string {
    " " + cmd + (if v.MsvcApp? then " \"" else " ") + JoinArgs(args)
  }

  /** Reads a line that starts with a double-quoted program: the program,
      and what follows its closing quote. */
  function ReadQuoted(s: string): Option<(string, string)> {
    if |s| == 0 || s[0] != '"' || '"' !in s[1..] then None
    else
      var i := IndexOf(s[1..], '"');
      Some((s[1..][..i], s[1..][i + 1..]))
  }

  lemma ReadQuotedOf(prog: string, after: string)
    requires '"' !in prog
    ensures ReadQuoted("\"" + prog + "\"" + after) == Some((prog, after))
  {
    var s := "\"" + prog + "\"" + after;
    assert s[1..] == prog + ("\"" + after);
    IndexOfAppend(prog, "\"" + after, '"');
    assert s[1..][..|prog|] == prog;
    assert s[1..][|prog| + 1..] == after;
  }

  /** The command line reads back as the quoted interpreter followed by the
      command and the later arguments; under MSVC the whole is wrapped in
      one more opening quote, which the shell strips. An install directory
      holding a double quote would end the quoted program early. */
  lemma CommandLineReadsBack(v: Variant, dir: string, cmd: string, args: seq<string>)
    requires '"' !in dir
    ensures var line := CommandLine(v, dir, cmd, args);
            && |line| > 0 && line[0] == '"'
            && ReadQuoted(if v.MsvcApp? then line[1..] else line)
               == Some((Interpreter(v, dir), AfterProgram(v, cmd, args)))
  {
    var prog := Interpreter(v, dir);
    var after := AfterProgram(v, cmd, args);
    var inner := "\"" + prog + "\"" + after;
    var line := CommandLine(v, dir, cmd, args);
    InterpreterUnquoted(v, dir);
    ReadQuotedOf(prog, after);
    if v.MsvcApp? {
      assert line == "\"" + inner;
      assert line[1..] == inner;
    } else {
      assert line == inner;
    }
  }

  /** The interpreter path holds a quote only if the install directory
      does. */
  lemma InterpreterUnquoted(v: Variant, dir: string)
    requires '"' !in dir
    ensures '"' !in Interpreter(v, dir)
  {
  }

  /** The command line handed to `std::system` or `CreateProcessW`: the
      interpreter in double quotes, then the command and the later
      arguments. The MSVC build wraps the interpreter and the command in one
      more pair of quotes, since `cmd /c` strips the outermost pair. */
  function CommandLine(v: Variant, dir: string, cmd: string, args: seq<string>): string {
    var quoted := "\"" + Interpreter(v, dir) + "\"";
    (if v.MsvcApp? then "\"" + quoted else quoted) + AfterProgram(v, cmd, args)
  }

  /** What the launcher ends in: running the interpreter with this command
      line and environment, or returning an exit status first. */
  datatype Launch = Exec(cmdline: string, env: map<string, string>) | Exit(code: int)

  /** `main`. `env` is the process environment, `failing` the variables
      whose setting fails, `cwd` the working directory. A failed setting
      ends the launcher with -1, except under MSVC, whose `write_env`
      reports success whatever happened; on Windows an absent or empty PATH
      ends it with 1. Windows looks variable names up without regard to
      case; on the Windows builds `env` is taken to spell each name in
      upper case, so `PATH` stands for `Path` too. */
  function Run(v: Variant, argv: seq<string>, cwd: string, cmd: string, env: map<string, string>,
               failing: set<string>): Launch
    requires |argv| >= 1
  {
    var dir := InstallDir(argv[0], cwd);
    var home := dir + HomeSep(v) + "venv";
    if "PYTHONHOME" in failing && !v.MsvcApp? then Exit(-1)
    else
      var env1 := if "PYTHONHOME" in failing then env else env["PYTHONHOME" := home];
      var line := CommandLine(v, dir, cmd, argv[1..]);
      match v
      case MsvcApp => Exec(line, env1)
      case WindowsApp(_) =>
        if "PATH" !in env || env["PATH"] == "" then Exit(1)
        else if "PATH" in failing then Exit(-1)
        else Exec(line, env1["PATH" := dir + "/venv/Lib;" + env["PATH"] + ";"])
      case _ =>
        if "LD_LIBRARY_PATH" in failing then Exit(-1)
        else Exec(line, env1["LD_LIBRARY_PATH" := dir + "/venv/bin"])
  }

  /** The variables a launcher sets. */
  function SetVars(v: Variant): set<string> {
    if v.WindowsApp? then {"PYTHONHOME", "PATH"}
    else if v.MsvcApp? then {"PYTHONHOME"}
    else {"PYTHONHOME", "LD_LIBRARY_PATH"}
  }

  /** The launcher ends early exactly when a setting it checks fails, or on
      Windows when PATH cannot be read; the MSVC build never ends early. A
      failed setting ends it with -1; on Windows it ends with 1 exactly when
      PYTHONHOME was set and PATH then cannot be read. */
  lemma RunExitsEarly(v: Variant, argv: seq<string>, cwd: string, cmd: string, env: map<string, string>,
                      failing: set<string>)
    requires |argv| >= 1
    ensures var r := Run(v, argv, cwd, cmd, env, failing);
            && (v.MsvcApp? ==> r.Exec?)
            && (r.Exit? ==> r.code == -1 || (r.code == 1 && v.WindowsApp?))
            && (v.WindowsApp? && r.Exit? ==>
                  (r.code == 1 <==> "PYTHONHOME" !in failing && ("PATH" !in env || env["PATH"] == "")))
            && (!v.MsvcApp? ==>
                  (r.Exec? <==> (SetVars(v) !! failing && (v.WindowsApp? ==> "PATH" in env && env["PATH"] != ""))))
  {
  }

  /** When the interpreter is started: PYTHONHOME is `<dir><sep>venv`
      (unless MSVC failed to set it), the library or search path points into
      the bundle, and no other variable changes. */
  lemma RunEnvironment(v: Variant, argv: seq<string>, cwd: string, cmd: string, env: map<string, string>,
                       failing: set<string>)
    requires |argv| >= 1
    requires Run(v, argv, cwd, cmd, env, failing).Exec?
    ensures var dir := InstallDir(argv[0], cwd);
            var e := Run(v, argv, cwd, cmd, env, failing).env;
            && ("PYTHONHOME" !in failing ==> "PYTHONHOME" in e && e["PYTHONHOME"] == dir + HomeSep(v) + "venv")
            && (v.PosixApp? || v.LinuxApp? ==> "LD_LIBRARY_PATH" in e && e["LD_LIBRARY_PATH"] == dir + "/venv/bin")
            && (v.WindowsApp? ==> "PATH" in env && "PATH" in e && e["PATH"] == dir + "/venv/Lib;" + env["PATH"] + ";")
            && (forall k :: k !in SetVars(v) ==> (k in e <==> k in env) && (k in env ==> e[k] == env[k]))
  {
  }

  /** The later arguments follow one leading space, joined by single
      spaces. */
  lemma {:induction false} JoinArgsIsJoin(args: seq<string>)
    ensures JoinArgs(args) == JoinWith([""] + args, ' ')
    decreases |args|
  {
    if |args| > 0 {
      JoinArgsIsJoin(args[1..]);
      var parts := [""] + args;
      assert parts[1..] == args;
      assert JoinWith(parts, ' ') == "" + [' '] + JoinWith(args, ' ');
      if |args| > 1 {
        assert JoinWith(args, ' ') == args[0] + [' '] + JoinWith(args[1..], ' ');
        assert JoinWith([""] + args[1..], ' ') == "" + [' '] + JoinWith(args[1..], ' ');
      }
    }
  }

  /** The later arguments are unquoted: splitting what follows the command
      at spaces gives them back, in order, when none holds a space. */
  lemma JoinArgsSplit(args: seq<string>)
    requires forall i :: 0 <= i < |args| ==> ' ' !in args[i]
    ensures Text.Split(JoinArgs(args), ' ') == [""] + args
  {
    JoinArgsIsJoin(args);
    var parts := [""] + args;
    forall k | 0 <= k < |parts|
      ensures ' ' !in parts[k]
    {
      if k > 0 {
        assert parts[k] == args[k - 1];
      }
    }
    SplitJoinWith(parts, ' ');
  }

  /** An argument holding a space comes back as two: the launcher does not
      quote what it passes on. */
  lemma SpacedArgumentSplits()
    ensures Text.Split(JoinArgs(["a b"]), ' ') == ["", "a", "b"]
  {
    JoinArgsIsJoin(["a b"]);
    assert JoinWith(["", "a b"], ' ') == JoinWith(["", "a", "b"], ' ');
    SplitJoinWith(["", "a", "b"], ' ');
  }

  /** The command `_make_exec` writes into the source, quote-escaped inside
      a C++ string literal, stands for exactly `_get_cmd(app)` when that
      command holds no backslash and no line break (module paths and entry
      points are dotted Python names), and a started interpreter's command
      line reads back as the quoted interpreter, then that command, then
      the later arguments. */
  lemma LauncherRunsAppCommand(v: Variant, app: App, argv: seq<string>, cwd: string,
                               env: map<string, string>, failing: set<string>)
    requires |argv| >= 1
    requires '\\' !in GetCmd(app) && '\n' !in GetCmd(app)
    requires '"' !in InstallDir(argv[0], cwd)
    ensures CppLiteral(EscapeQuotes(GetCmd(app))) == Some(GetCmd(app))
    ensures var dir := InstallDir(argv[0], cwd);
            var r := Run(v, argv, cwd, GetCmd(app), env, failing);
            r.Exec? ==>
              && |r.cmdline| > 0
              && ReadQuoted(if v.MsvcApp? then r.cmdline[1..] else r.cmdline)
                 == Some((Interpreter(v, dir), AfterProgram(v, GetCmd(app), argv[1..])))
  {
    var c := GetCmd(app);
    EscapedLiteralReadsBack(c);
    RunCommandLine(v, argv, cwd, c, env, failing);
    CommandLineReadsBack(v, InstallDir(argv[0], cwd), c, argv[1..]);
  }

  /** A started interpreter gets the command line built from the install
      directory, the command and the later arguments. */
  lemma RunCommandLine(v: Variant, argv: seq<string>, cwd: string, cmd: string, env: map<string, string>,
                       failing: set<string>)
    requires |argv| >= 1
    ensures var r := Run(v, argv, cwd, cmd, env, failing);
            r.Exec? ==> r.cmdline == CommandLine(v, InstallDir(argv[0], cwd), cmd, argv[1..])
  {
  }

  /** `app-linux.cpp` behaves as `app.cpp` built without MSVC. */
  lemma LinuxMatchesPosix(argv: seq<string>, cwd: string, cmd: string, env: map<string, string>,
                          failing: set<string>)
    requires |argv| >= 1
    ensures Run(LinuxApp, argv, cwd, cmd, env, failing) == Run(PosixApp, argv, cwd, cmd, env, failing)
  {
  }

  /** On Windows an unreadable PATH (absent or empty) ends the launcher
      with 1 once PYTHONHOME is set. */
  lemma WindowsPathUnreadable(gui: bool, argv: seq<string>, cwd: string, cmd: string, env: map<string, string>,
                              failing: set<string>)
    requires |argv| >= 1
    requires "PYTHONHOME" !in failing
    requires "PATH" !in env || env["PATH"] == ""
    ensures Run(WindowsApp(gui), argv, cwd, cmd, env, failing) == Exit(1)
  {
  }

  /** The GUI build differs from the console build only in running
      `pythonw.exe` instead of `python.exe`. */
  lemma GuiOnlyChangesInterpreter(argv: seq<string>, cwd: string, cmd: string, env: map<string, string>,
                                  failing: set<string>)
    requires |argv| >= 1
    ensures var g := Run(WindowsApp(true), argv, cwd, cmd, env, failing);
            var c := Run(WindowsApp(false), argv, cwd, cmd, env, failing);
            var pre := "\"" + InstallDir(argv[0], cwd) + "\\venv\\Scripts\\python";
            && g.Exec? == c.Exec?
            && (g.Exit? ==> g == c)
            && (g.Exec? ==> g.env == c.env && StartsWith(c.cmdline, pre)
                            && g.cmdline == pre + "w" + c.cmdline[|pre|..])
  {
    var g := Run(WindowsApp(true), argv, cwd, cmd, env, failing);
    var c := Run(WindowsApp(false), argv, cwd, cmd, env, failing);
    assert g.Exec? == c.Exec? && (g.Exit? ==> g == c) && (g.Exec? ==> g.env == c.env);
    GuiCommandLine(InstallDir(argv[0], cwd), cmd, argv[1..]);
  }

  lemma GuiCommandLine(dir: string, cmd: string, args: seq<string>)
    ensures var pre := "\"" + dir + "\\venv\\Scripts\\python";
            var c := CommandLine(WindowsApp(false), dir, cmd, args);
            && StartsWith(c, pre)
            && CommandLine(WindowsApp(true), dir, cmd, args) == pre + "w" + c[|pre|..]
  {
    var p := "\"" + dir + "\\venv\\Scripts\\";
    var r := "\"" + AfterProgram(WindowsApp(false), cmd, args);
    WindowsLine(false, dir, cmd, args);
    WindowsLine(true, dir, cmd, args);
    ScriptsPython(dir);
    InsertW(p, r);
  }

  /** The Windows command line around the interpreter's file name. */
  lemma WindowsLine(gui: bool, dir: string, cmd: string, args: seq<string>)
    ensures CommandLine(WindowsApp(gui), dir, cmd, args)
            == "\"" + dir + "\\venv\\Scripts\\" + (if gui then "pythonw.exe" else "python.exe")
               + ("\"" + AfterProgram(WindowsApp(false), cmd, args))
  {
    assert AfterProgram(WindowsApp(gui), cmd, args) == AfterProgram(WindowsApp(false), cmd, args);
  }

  /** The interpreter prefix splits before `python`. */
  lemma ScriptsPython(dir: string)
    ensures "\"" + dir + "\\venv\\Scripts\\python" == "\"" + dir + "\\venv\\Scripts\\" + "python"
  {
  }

  /** `pythonw.exe` is `python.exe` with a `w` after `python`. */
  lemma InsertW(p: string, r: string)
    ensures var pre := p + "python";
            var c := p + "python.exe" + r;
            && StartsWith(c, pre)
            && p + "pythonw.exe" + r == pre + "w" + c[|pre|..]
  {
    var pre := p + "python";
    var c := p + "python.exe" + r;
    assert c == pre + (".exe" + r);
    assert c[|pre|..] == ".exe" + r;
    assert p + "pythonw.exe" + r == pre + "w" + (".exe" + r);
  }
}
