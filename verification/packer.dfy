/** `DiamondPacker.pack`: builds the environment, generates one launcher
    per entry of `scripts` in order, then copies the data files. Building
    the environment is an input here: its resulting state and whether it
    raised. */
module Packer {
  import opened Wrappers
  import opened Errors
  import opened Paths
  import opened FileSystem
  import opened Config
  import opened Command
  import opened Layout
  import opened Generate
  import opened Native
  import opened DataCopy

  /** The stages of a run, in the order they start. */
  datatype Stage = BuildEnv | NativeApp(name: string) | ScriptApp(name: string) | CopyDataFiles

  /** The state a run leaves, the stages it started, and what it raised. */
  datatype PackResult = PackResult(fs: Fs, trace: seq<Stage>, err: Option<Error>)

  /** Application mode builds native launchers; any other mode, scripts. */
  function AppStage(mode: DPMode, app: App): Stage {
    if mode == APP then NativeApp(app.name) else ScriptApp(app.name)
  }

  /** The stages of the launchers of `apps`, in order. */
  function AppStages(mode: DPMode, apps: seq<App>): seq<Stage> {
    seq(|apps|, i requires 0 <= i < |apps| => AppStage(mode, apps[i]))
  }

  /** Launcher stages are never the data stage. */
  lemma NoDataStage(mode: DPMode, apps: seq<App>, trace: seq<Stage>)
    requires IsPrefix(trace, AppStages(mode, apps))
    ensures CopyDataFiles !in trace
  {
    forall i | 0 <= i < |trace| ensures trace[i] != CopyDataFiles {
      assert trace[i] == AppStages(mode, apps)[i];
    }
  }

  /** The stages of a run that raises nothing. */
  function Plan(cfg: PackConfig): seq<Stage> {
    [BuildEnv] + AppStages(cfg.mode, cfg.scripts) + [CopyDataFiles]
  }

  predicate IsPrefix(a: seq<Stage>, b: seq<Stage>) {
    |a| <= |b| && b[..|a|] == a
  }

  /** What the run needs from outside: the target, the interpreter version
      string, the template directory, what building the environment did,
      the CMake runs of the `k`-th app, and what the `k`-th data pattern
      lists. */
  datatype World = World(
    plat: Platform,
    pyVersion: string,
    templateDir: Path,
    env: Effect,
    tools: nat -> (ToolRun, ToolRun),
    listing: nat -> seq<Path>
  )

  /** One launcher: a native build or a script. */
  function MakeApp(w: World, cfg: PackConfig, fs: Fs, k: nat, app: App): Effect {
    var outputDir := MakeLayout(w.plat, cfg, w.pyVersion).outputDir;
    if cfg.mode == APP then
      var r := MakeExec(w.plat, fs, w.templateDir, cfg.buildDir, outputDir, w.pyVersion, cfg.debugLogs, app,
                        w.tools(k).0, w.tools(k).1);
      Effect(r.fs, if r.outcome.Failed? then Some(r.outcome.err) else None)
    else MakeScript(w.plat, fs, w.templateDir, outputDir, w.pyVersion, app)
  }

  /** In application mode a launcher is the native build of that app with
      the `k`-th CMake runs, succeeding exactly when the executable was
      copied, which then is a file; in any other mode it is the generated
      script. */
  lemma MakeAppDispatch(w: World, cfg: PackConfig, fs: Fs, k: nat, app: App)
    ensures var outputDir := MakeLayout(w.plat, cfg, w.pyVersion).outputDir;
            var r := MakeApp(w, cfg, fs, k, app);
            var b := MakeExec(w.plat, fs, w.templateDir, cfg.buildDir, outputDir, w.pyVersion, cfg.debugLogs, app,
                              w.tools(k).0, w.tools(k).1);
            && (cfg.mode == APP ==>
                  && r.fs == b.fs
                  && (r.err.None? <==> b.outcome.Copied?)
                  && (r.err.None? ==> IsFile(r.fs, b.outcome.dest))
                  && (r.err.Some? ==> r.err.value == b.outcome.err))
            && (cfg.mode != APP ==> r == MakeScript(w.plat, fs, w.templateDir, outputDir, w.pyVersion, app))
  {
  }

  /** The state in which `apps[j]` starts when the run begins at `k` in
      `fs` and every app before `j` returns. */
  function StateAt(apps: seq<App>, run: (Fs, nat, App) -> Effect, fs: Fs, k: nat, j: nat): Fs
    requires k <= j <= |apps|
    decreases j - k
  {
    if j == k then fs else StateAt(apps, run, run(fs, k, apps[k]).fs, k + 1, j)
  }

  /** No app in `apps[k..j]` raises, each started in the state the one
      before it left. */
  predicate AllReturn(apps: seq<App>, run: (Fs, nat, App) -> Effect, fs: Fs, k: nat, j: nat)
    requires k <= j <= |apps|
  {
    forall i :: k <= i < j ==> run(StateAt(apps, run, fs, k, i), i, apps[i]).err.None?
  }

  /** Runs `run` on `apps[k..]` in order, stopping at the first that
      raises: a run that raises nothing leaves the state after the last
      app; one that raises stops at the first app that raised, with that
      app's state and error, and started no app after it. */
  function RunApps(mode: DPMode, apps: seq<App>, run: (Fs, nat, App) -> Effect, fs: Fs, k: nat): (r: PackResult)
    requires k <= |apps|
    ensures IsPrefix(r.trace, AppStages(mode, apps[k..]))
    ensures r.err.None? ==> r.trace == AppStages(mode, apps[k..])
    ensures r.err.None? <==> AllReturn(apps, run, fs, k, |apps|)
    ensures r.err.None? ==> r.fs == StateAt(apps, run, fs, k, |apps|)
    ensures r.err.Some? ==>
              var last := k + |r.trace| - 1;
              && |r.trace| > 0 && last < |apps| && AllReturn(apps, run, fs, k, last)
              && Effect(r.fs, r.err) == run(StateAt(apps, run, fs, k, last), last, apps[last])
    decreases |apps| - k
  {
    if k == |apps| then PackResult(fs, [], None)
    else
      var e := run(fs, k, apps[k]);
      var here := AppStage(mode, apps[k]);
      assert AppStages(mode, apps[k..]) == [here] + AppStages(mode, apps[k + 1..]);
      if e.err.Some? then PackResult(e.fs, [here], e.err)
      else
        var rest := RunApps(mode, apps, run, e.fs, k + 1);
        StepAllReturn(apps, run, fs, k);
        PackResult(rest.fs, [here] + rest.trace, rest.err)
  }

  /** Starting one app later, after an app that returned, shifts nothing. */
  lemma StepAllReturn(apps: seq<App>, run: (Fs, nat, App) -> Effect, fs: Fs, k: nat)
    requires k < |apps| && run(fs, k, apps[k]).err.None?
    ensures forall j :: k + 1 <= j <= |apps| ==>
              (AllReturn(apps, run, fs, k, j) <==> AllReturn(apps, run, run(fs, k, apps[k]).fs, k + 1, j))
  {
    var fs1 := run(fs, k, apps[k]).fs;
    forall i | k + 1 <= i <= |apps|
      ensures StateAt(apps, run, fs, k, i) == StateAt(apps, run, fs1, k + 1, i)
    {
    }
  }

  /** Only what `run` does on the listed apps matters. */
  lemma {:induction false} RunAppsAgree(mode: DPMode, apps: seq<App>, run: (Fs, nat, App) -> Effect,
                                        run': (Fs, nat, App) -> Effect, fs: Fs, k: nat)
    requires k <= |apps|
    requires forall f, i, a :: run(f, i, a) == run'(f, i, a)
    ensures RunApps(mode, apps, run, fs, k) == RunApps(mode, apps, run', fs, k)
    decreases |apps| - k
  {
    if k < |apps| {
      var e := run(fs, k, apps[k]);
      if e.err.None? {
        RunAppsAgree(mode, apps, run, run', e.fs, k + 1);
      }
    }
  }

  /** The launchers of `cfg.scripts`, in order. */
  function MakeApps(w: World, cfg: PackConfig, fs: Fs): PackResult {
    RunApps(cfg.mode, cfg.scripts, (f: Fs, i: nat, a: App) => MakeApp(w, cfg, f, i, a), fs, 0)
  }

  /** `pack()`: the environment, then the apps, then the data. A run that
      raises nothing goes through every stage of the plan, in order; one
      that raises stops at a stage of it, having started the stages before.
      An app that raises ends the run before any data is copied; once every
      app returns, the run ends as copying the data files into the output
      directory does. */
  function Pack(w: World, cfg: PackConfig): (r: PackResult)
    ensures IsPrefix(r.trace, Plan(cfg)) && |r.trace| >= 1 && r.trace[0] == BuildEnv
    ensures r.err.None? ==> r.trace == Plan(cfg)
    ensures w.env.err.Some? ==> r == PackResult(w.env.fs, [BuildEnv], w.env.err)
    ensures var apps := MakeApps(w, cfg, w.env.fs);
            w.env.err.None? && apps.err.Some? ==>
              && CopyDataFiles !in r.trace && r.fs == apps.fs && r.err == apps.err
    ensures var apps := MakeApps(w, cfg, w.env.fs);
            var outputDir := MakeLayout(w.plat, cfg, w.pyVersion).outputDir;
            w.env.err.None? && apps.err.None? ==>
              && r.trace == Plan(cfg)
              && Effect(r.fs, r.err) == CopyData(w.plat, apps.fs, outputDir, cfg.dataGlobs, w.listing)
  {
    if w.env.err.Some? then PackResult(w.env.fs, [BuildEnv], w.env.err)
    else
      var apps := MakeApps(w, cfg, w.env.fs);
      assert cfg.scripts[0..] == cfg.scripts;
      if apps.err.Some? then
        NoDataStage(cfg.mode, cfg.scripts, apps.trace);
        PackResult(apps.fs, [BuildEnv] + apps.trace, apps.err)
      else
        var outputDir := MakeLayout(w.plat, cfg, w.pyVersion).outputDir;
        var d := CopyData(w.plat, apps.fs, outputDir, cfg.dataGlobs, w.listing);
        PackResult(d.fs, Plan(cfg), d.err)
  }

  /** `gui_scripts` plays no part in a run. */
  lemma GuiScriptsIgnored(w: World, cfg: PackConfig, gui: seq<App>)
    ensures Pack(w, cfg.(guiScripts := gui)) == Pack(w, cfg)
  {
    var cfg' := cfg.(guiScripts := gui);
    assert MakeLayout(w.plat, cfg', w.pyVersion) == MakeLayout(w.plat, cfg, w.pyVersion);
    forall f, i, a ensures MakeApp(w, cfg', f, i, a) == MakeApp(w, cfg, f, i, a) {
    }
    RunAppsAgree(cfg.mode, cfg.scripts, (f: Fs, i: nat, a: App) => MakeApp(w, cfg', f, i, a),
                 (f: Fs, i: nat, a: App) => MakeApp(w, cfg, f, i, a), w.env.fs, 0);
  }
}
