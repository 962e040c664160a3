/** The configuration the packer consumes: the packaging mode, one `App`
    per launcher to generate, and the `PackConfig` record with its
    defaults. Loading and validating it happen elsewhere. */
module Config {
  import opened Wrappers

  /** Packaging mode, an `IntEnum` whose members are numbered from 1. */
  datatype DPMode = APP | SCRIPT

  function ModeValue(m: DPMode): int {
    match m
    case APP => 1
    case SCRIPT => 2
  }

  /** The two modes are distinct and every mode is one of them. */
  lemma ModesDistinct(m: DPMode)
    ensures m == APP || m == SCRIPT
    ensures APP != SCRIPT && ModeValue(APP) != ModeValue(SCRIPT)
    ensures ModeValue(m) == 1 <==> m == APP
  {
  }

  /** One launcher: its output name, the dotted module to run and an
      optional zero-argument callable inside that module. */
  datatype App = App(name: string, path: string, entry: Option<string>)

  /** `App(name, path, entry)`: the three values are stored as given. */
  function NewApp(name: string, path: string, entry: Option<string>): (a: App)
    ensures a.name == name && a.path == path && a.entry == entry
  {
    App(name, path, entry)
  }

  datatype PackConfig = PackConfig(
    projectName: string,
    version: string,
    wheels: seq<string>,
    scripts: seq<App>,
    guiScripts: seq<App>,
    name: string,
    mode: DPMode,
    buildDir: string,
    cacheBlock: seq<string>,
    stdlibWhitelist: Option<seq<string>>,
    stdlibBlacklist: Option<seq<string>>,
    includeTk: bool,
    dataGlobs: seq<(string, string)>,
    debugLogs: bool,
    devMode: bool
  )

  /** `PackConfig()`: a configuration nobody has filled in yet. */
  function DefaultConfig(): (c: PackConfig)
    ensures c.mode == APP && c.buildDir == "build"
    ensures c.projectName == "" && c.version == "" && c.name == ""
    ensures c.wheels == [] && c.scripts == [] && c.guiScripts == []
    ensures c.cacheBlock == [] && c.dataGlobs == []
    ensures c.stdlibWhitelist == None && c.stdlibBlacklist == None
    ensures !c.includeTk && !c.debugLogs && !c.devMode
  {
    PackConfig("", "", [], [], [], "", APP, "build", [], None, None, false, [], false, false)
  }
}
