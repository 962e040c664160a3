/** Writing files from the launcher templates: `_do_replace` against the
    file system, and the shell or batch launcher of `_make_script`. */
module Generate {
  import opened Wrappers
  import opened Errors
  import opened Paths
  import opened FileSystem
  import opened Template
  import opened Config
  import opened Command

  const CommandKey := "@@COMMAND@@"
  const PythonKey := "@@PYTHON@@"

  /** The replacements both generators pass. */
  function Replacements(cmd: string, pyVersion: string): map<string, string> {
    map[CommandKey := cmd, PythonKey := pyVersion]
  }

  /** `_do_replace(template, outfile, m)`. The output file is opened for
      writing first, which truncates it; then the template is read from
      the template directory and written out line by line, each line
      rendered on its own. A missing template leaves the output empty, and
      a line with an unknown token leaves the lines before it written. */
  function DoReplace(plat: Platform, fs: Fs, templateDir: Path, template: string, outfile: Path,
                     m: map<string, string>): (r: Effect)
    ensures IsDir(fs, outfile) ==> r == Effect(fs, Some(IsADirectory(outfile)))
    ensures !IsDir(fs, outfile) ==> IsFile(r.fs, outfile) && SameExcept(fs, r.fs, {outfile})
    ensures && !IsDir(fs, outfile) && !IsFile(fs, Join(plat, templateDir, template))
            && Join(plat, templateDir, template) != outfile
            ==> r.err.Some? && r.fs[outfile].data == ""
  {
    if IsDir(fs, outfile) then Effect(fs, Some(IsADirectory(outfile)))
    else
      var fs1 := Written(fs, outfile, "");
      var src := Join(plat, templateDir, template);
      if src !in fs1 then Effect(fs1, Some(NotFound(src)))
      else if fs1[src].Dir? then Effect(fs1, Some(IsADirectory(src)))
      else
        var p := RenderByLines(fs1[src].data, m);
        Effect(Written(fs1, outfile, p.written), p.err)
  }

  /** With the template present (and distinct from the output), the output
      holds the whole rendering when every token has a value. Otherwise the
      step raises the error of the whole-text rendering and the output holds
      the rendering of the complete lines before the failing one. */
  lemma DoReplaceRenders(plat: Platform, fs: Fs, templateDir: Path, template: string, outfile: Path,
                         m: map<string, string>)
    requires !IsDir(fs, outfile)
    requires IsFile(fs, Join(plat, templateDir, template)) && Join(plat, templateDir, template) != outfile
    ensures var text := fs[Join(plat, templateDir, template)].data;
            var r := DoReplace(plat, fs, templateDir, template, outfile, m);
            && (r.err.None? <==> Render(text, m).Success?)
            && (r.err.None? ==> r.fs[outfile].data == Render(text, m).value)
            && (r.err.Some? ==> r.err.value == Render(text, m).error)
            && (r.err.Some? ==> exists n: nat :: LineBoundary(text, n) && Render(text[..n], m) == Success(r.fs[outfile].data))
  {
    var text := fs[Join(plat, templateDir, template)].data;
    RenderByLinesAgrees(text, m);
    var p := RenderByLines(text, m);
    if p.err.Some? {
      assert LineBoundary(text, p.consumed);
    }
  }

  /** `n` is the start of a line of `text` other than the end. */
  predicate LineBoundary(text: string, n: nat) {
    n < |text| && (n == 0 || text[n - 1] == '\n')
  }

  /** `.bat` on Windows, `.sh` elsewhere. */
  function ScriptExtension(plat: Platform): string {
    if plat.Windows? then ".bat" else ".sh"
  }

  function ScriptPath(plat: Platform, outputDir: Path, app: App): Path {
    Join(plat, outputDir, app.name + ScriptExtension(plat))
  }

  /** `_make_script(app)`: renders `app.sh` or `app.bat` with the app's
      interpreter arguments and the version string into
      `<output>/<name>.sh` or `.bat`, then marks it executable, off Windows
      only. */
  function MakeScript(plat: Platform, fs: Fs, templateDir: Path, outputDir: Path, pyVersion: string, app: App): Effect {
    var ext := ScriptExtension(plat);
    var outfile := ScriptPath(plat, outputDir, app);
    var e := DoReplace(plat, fs, templateDir, "app" + ext, outfile, Replacements(GetCmd(app), pyVersion));
    if e.err.Some? || plat.Windows? then e
    else Effect(Chmod(e.fs, outfile, Executable), None)
  }

  /** A generated script: only the script file changes; it holds the
      rendered template exactly when all its tokens are `@@COMMAND@@` or
      `@@PYTHON@@`; and it is made executable only off Windows, keeping the
      permissions it had otherwise. */
  lemma MakeScriptResult(plat: Platform, fs: Fs, templateDir: Path, outputDir: Path, pyVersion: string, app: App)
    requires var src := Join(plat, templateDir, "app" + ScriptExtension(plat));
             IsFile(fs, src) && src != ScriptPath(plat, outputDir, app)
    requires !IsDir(fs, ScriptPath(plat, outputDir, app))
    ensures var text := fs[Join(plat, templateDir, "app" + ScriptExtension(plat))].data;
            var out := ScriptPath(plat, outputDir, app);
            var r := MakeScript(plat, fs, templateDir, outputDir, pyVersion, app);
            && SameExcept(fs, r.fs, {out}) && IsFile(r.fs, out)
            && (r.err.None? <==> Tokens(text) <= {CommandKey, PythonKey})
            && (r.err.None? ==> Render(text, Replacements(GetCmd(app), pyVersion)) == Success(r.fs[out].data))
            && (r.err.None? && plat.Posix? ==> r.fs[out].perm == Executable)
            && (plat.Windows? && IsFile(fs, out) ==> r.fs[out].perm == fs[out].perm)
  {
    var template := "app" + ScriptExtension(plat);
    var src := Join(plat, templateDir, template);
    var text := fs[src].data;
    var out := ScriptPath(plat, outputDir, app);
    var m := Replacements(GetCmd(app), pyVersion);
    var e := DoReplace(plat, fs, templateDir, template, out, m);
    DoReplaceRenders(plat, fs, templateDir, template, out, m);
    RenderOutcome(text, m);
    assert m.Keys == {CommandKey, PythonKey};
    assert e.err.None? <==> Tokens(text) <= {CommandKey, PythonKey};
    var r := MakeScript(plat, fs, templateDir, outputDir, pyVersion, app);
    if e.err.Some? || plat.Windows? {
      assert r == e;
    } else {
      assert r == Effect(Chmod(e.fs, out, Executable), None);
    }
  }
}
