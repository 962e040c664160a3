/** Where a bundle's parts go, as `DiamondPacker.__init__` and `_build_env`
    compute them from the configuration and the target family. */
module Layout {
  import opened Text
  import opened Paths
  import opened Config

  datatype Layout = Layout(
    buildDir: string,
    outputDir: string,
    venvDir: string,
    venvBin: string,
    venvLib: string
  )

  /** `dist/<name>`, its `venv`, and the runtime's executable and library
      directories: `Scripts` and `Lib` on Windows, `bin` and
      `lib/<python version>` elsewhere. */
  function MakeLayout(plat: Platform, cfg: PackConfig, pyVersion: string): Layout {
    var outputDir := Join(plat, "dist", cfg.name);
    var venvDir := Join(plat, outputDir, "venv");
    Layout(
      cfg.buildDir,
      outputDir,
      venvDir,
      if plat.Windows? then Join(plat, venvDir, "Scripts") else Join(plat, venvDir, "bin"),
      if plat.Windows? then Join(plat, venvDir, "Lib") else Join(plat, Join(plat, venvDir, "lib"), pyVersion)
    )
  }

  /** The installed-package directory `_build_env` cleans and compacts. */
  function PackageDir(plat: Platform, l: Layout, pyVersion: string): string {
    if plat.Windows? then Join(plat, Join(plat, l.venvDir, "Lib"), "site-packages")
    else Join(plat, Join(plat, Join(plat, l.venvDir, "lib"), pyVersion), "site-packages")
  }

  /** A name made of ordinary characters: not empty, no separator. */
  predicate PlainName(plat: Platform, s: string) {
    |s| > 0 && NoSep(plat, s)
  }

  /** For a plain bundle name (and, off Windows, a plain version string)
      the layout is the nested tree `dist/<name>/venv/...` with `Scripts`
      and `Lib` on Windows and `bin` and `lib/<version>` elsewhere, the
      build directory is the configured one, and the package directory lies
      directly inside the copied standard library. */
  lemma LayoutNesting(plat: Platform, cfg: PackConfig, pyVersion: string)
    requires PlainName(plat, cfg.name)
    requires plat.Posix? ==> PlainName(plat, pyVersion)
    ensures var l := MakeLayout(plat, cfg, pyVersion);
            && l.outputDir == "dist" + [Sep(plat)] + cfg.name
            && l.venvDir == l.outputDir + [Sep(plat)] + "venv"
            && l.venvBin == l.venvDir + [Sep(plat)] + (if plat.Windows? then "Scripts" else "bin")
            && l.venvLib == l.venvDir + [Sep(plat)] + (if plat.Windows? then "Lib" else "lib" + [Sep(plat)] + pyVersion)
            && l.buildDir == cfg.buildDir
            && PackageDir(plat, l, pyVersion) == l.venvLib + [Sep(plat)] + "site-packages"
  {
    var l := MakeLayout(plat, cfg, pyVersion);
    assert l.outputDir[|l.outputDir| - 1] == cfg.name[|cfg.name| - 1];
    var pre := l.venvDir + [Sep(plat)];
    if plat.Windows? {
      assert l.venvBin == pre + "Scripts";
      assert l.venvLib == pre + "Lib";
    } else {
      assert l.venvBin == pre + "bin";
      var lib := Join(plat, l.venvDir, "lib");
      assert lib == pre + "lib";
      assert l.venvLib == lib + [Sep(plat)] + pyVersion;
      assert l.venvLib == pre + ("lib" + [Sep(plat)] + pyVersion);
      assert l.venvLib[|l.venvLib| - 1] == pyVersion[|pyVersion| - 1];
    }
  }
}
