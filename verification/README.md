# DiamondPack core, modelled in Dafny

DiamondPack turns a Python project into a self-contained bundle. It creates a
private runtime under `dist/<name>/venv`, replaces installed sources by their
compiled `.pyc` files, and generates one launcher per configured app. In
application mode a launcher is a native executable built with CMake from a
C++ template. In script mode it is a `.sh` or `.bat` file rendered from a
template. Finally it copies data files into the bundle.

This project models the deterministic core of that pipeline:

- the `@@KEY@@` template renderer and its line-by-line use (`Template`, `Generate`);
- the interpreter version string, the `-m` / `-c` command of an app, and its
  quote escaping (`Command`);
- the parser for `ldd` output (`Ldd`);
- the bundle layout (`Layout`) and the order of the `pack` stages (`Packer`);
- the CMake argument lists and the configure/build/copy outcome (`Native`);
- the bytecode compaction of `keepCache` and its filters (`Cache`);
- the flat data copy (`DataCopy`);
- the runtime logic of the three C++ launcher templates (`Launcher`);
- the configuration records and their defaults (`Config`).

The file system is a finite map from path strings to entries (`FileSystem`).
A single `os` or `shutil` call either changes nothing and raises, or
succeeds with a new map (`Result`). A step made of several calls returns an
`Effect` instead: the map as it stands when the step ends, together with the
exception that ended it, if any. The writes made before a failure are
therefore kept, as they are on disk. "Nothing else changes" becomes a
statement about maps (`FileSystem.SameExcept`). Python's string
and path helpers (`str.strip`, `str.split`, `os.path.join/split/splitext`)
are modelled in `Text` and `Paths`, for both POSIX and Windows separators.

External programs are inputs. The result of building the environment, the
exit status of each CMake run and what it wrote, and what each glob lists
all come from a `World` value. The launcher's environment, the variables
whose setting fails, and the working directory are parameters of
`Launcher.Run`.

Behaviour the model follows because the code does it:

- `_do_replace` opens the output for writing before it reads the template.
  It then writes line by line. A missing template therefore leaves an empty
  output file. An unknown placeholder leaves the lines before the failing
  one written (`Generate.DoReplace`, `Generate.DoReplaceRenders`).
- The glob `<dir>/*/**.py` with `recursive=True` lists only files exactly two
  levels below `<dir>`. The component `**.py` is not the recursive wildcard,
  which must be a whole component (`Cache.IsPyCandidate`).
- `keepCache` looks for `<stem>*.pyc`, which for `a.py` also matches the
  cache of `ab.py` (`Cache.KeepCacheWith`, see Findings). The passes take
  the pattern as a parameter: with `exact` false they are the passes as
  written, and every pass lemma holds for both patterns.
- In the package pass, top-level modules `site-packages/<m>.py` are not
  listed. They are compacted by the standard-library pass, which never
  consults `cache_block` (`Cache.SitePackagesModuleInStdlibPass`).
- A launcher whose `argv[0]` has its only separator at index 0 (`/app`)
  falls back to the working directory, like one with no separator at all
  (`Launcher.InstallDirChoice`).
- Arguments are appended to the command line unquoted, so an argument
  holding a space arrives as two (`Launcher.SpacedArgumentSplits`).
- The MSVC build of `app.cpp` reports success from `write_env` even when
  setting a variable fails (`Launcher.RunExitsEarly`).
- `_make_exec` escapes only the double quotes of the command before placing
  it inside a C++ string literal. A command holding a backslash would be
  read differently by the compiler (`Command.BackslashMisread`). The
  commands `_get_cmd` builds from dotted Python names hold none.
- `shutil.copy` of a file onto itself raises `SameFileError`
  (`FileSystem.Copy`, `Native.RunBuildArtifact`).

## Model

| member | source | states |
|---|---|---|
| `Template.TokenLenComplete` | diamondpack/pack.py:22 | the placeholder match at a position is the only token that starts there: tokens never extend one another |
| `Template.TokenHasNoNewline` | diamondpack/pack.py:22 | no character of a `@@[A-Z]+@@` match is a line break |
| `Template.ScanIsTheReading` | diamondpack/pack.py:36 | the scan is exactly the leftmost, non-overlapping reading of the text into tokens and literal characters, and the only such reading |
| `Template.ScanRoundTrip` | diamondpack/pack.py:36 | spelling out the scanned pieces gives the text back |
| `Template.RenderOutcome` | diamondpack/pack.py:36 | rendering succeeds exactly when every token of the text has a key; a failure is a `KeyError` naming one of the missing tokens |
| `Template.RenderCopiesText` | diamondpack/pack.py:36 | everything other than the tokens is copied verbatim: with each token mapped to itself the output equals the input |
| `Template.RenderPlainText` | diamondpack/pack.py:36 | a text without tokens renders to itself under any map |
| `Template.RenderIgnoresUnusedKeys` | diamondpack/pack.py:36 | keys that never occur as tokens, such as `@@PYTHON@@` for `app.cpp`, do not affect the result |
| `Template.RenderToken` | diamondpack/pack.py:36 | a token is replaced by its value as is; the value is not scanned again |
| `Template.ScanAppendLine` | diamondpack/pack.py:35-36 | scanning never crosses a line break: a text ending in `\n` scans independently of what follows |
| `Template.RenderAppendLine` | diamondpack/pack.py:35-36 | rendering a line and what follows it is rendering each and joining the results, the first failure winning |
| `Template.RenderByLinesAgrees` | diamondpack/pack.py:34-37 | line-by-line rendering equals whole-text rendering on success; on failure it raises the same error after writing the rendering of the whole lines before the failing one |
| `Generate.DoReplace` | diamondpack/pack.py:27-37 | a directory at the output raises and changes nothing; otherwise only the output file changes, and a missing template raises with the output truncated to empty |
| `Generate.DoReplaceRenders` | diamondpack/pack.py:34-37 | with the template present, the step succeeds iff the whole-text rendering does, and the output is that rendering; on failure it raises the rendering's error and the output is the rendering of a prefix that ends at a line boundary |
| `Generate.MakeScriptResult` | diamondpack/pack.py:255-277 | only `<output>/<name>.sh` (or `.bat`) changes; it holds the rendered template exactly when its only tokens are `@@COMMAND@@` and `@@PYTHON@@`; it is made `0o755` off Windows and keeps its permissions on Windows |
| `Command.PyVersionInjective` | diamondpack/pack.py:24 | `python<major>.<minor>` determines the major and minor version |
| `Text.DecimalRoundTrip` | diamondpack/pack.py:24 | the decimal rendering of a version number reads back as that number |
| `Text.NatToStringInjective` | diamondpack/pack.py:24 | distinct numbers render to distinct decimal strings |
| `Command.GetCmdForm` | diamondpack/pack.py:241-247 | the command starts with `-c "from ` exactly when the app has an entry point, and with `-m ` exactly when it has none |
| `Command.ParseGetCmd` | diamondpack/pack.py:241-247 | the module path and the entry point can be read back from the command (for paths without spaces and entries without `;`) |
| `Command.GetCmdInjective` | diamondpack/pack.py:235-247 | apps with different module paths or entry points get different commands |
| `Command.EscapeQuotes` | diamondpack/pack.py:290 | the escaped text grows by one character per `"`, every `"` in it is preceded by a backslash, and it never starts with `"` |
| `Command.EscapeRoundTrip` | diamondpack/pack.py:290 | deleting the backslash before each escaped quote gives the original command back |
| `Command.EscapeIdentity` | diamondpack/pack.py:290 | escaping changes the text exactly when it holds a double quote |
| `Command.EscapedOnlyQuoteEscapes` | diamondpack/pack.py:290 | for a command without backslashes, every backslash of the escaped text stands before a quote |
| `Command.EscapedLiteralReadsBack` | diamondpack/pack.py:288-290 | for a command with no backslash and no line break, the quote-escaped text is the body of a C++ string literal that stands for exactly that command |
| `Command.BackslashMisread` | diamondpack/pack.py:290 | escaping only the quotes leaves `\n` unchanged, and a C++ compiler reads it as one line break |
| `Native.ReleaseSelectedOnce` | diamondpack/pack.py:310-320 | configure starts `cmake -S src -B build -DEXEC_NAME=name`; the release build is selected in configure off Windows and in build on Windows; `-DDEBUG_LOGS=ON` appears iff debug logs are on, and then last |
| `Native.HeadHasNoSwitch` | diamondpack/pack.py:310-312 | the fixed leading arguments hold none of the optional switches |
| `Native.RunBuild` | diamondpack/pack.py:324-346 | configure always runs first; a nonzero configure exit fails with that status and runs nothing else; otherwise build runs, and a nonzero build exit fails with that status |
| `Native.RunBuildArtifact` | diamondpack/pack.py:336-346 | after both runs succeed, a missing `build/Release/<name>.exe` or `build/<name>` fails with that path and copies nothing; the copy target is `<output>/<exec name>`, or inside it when that is a directory (an app named `venv`); a target that is the artifact itself fails as a copy onto itself, a target that is a directory fails, and either failure copies nothing; otherwise the artifact is copied to the target and nothing else changes |
| `Native.PrepareWritesSources` | diamondpack/pack.py:288-308 | a successful preparation leaves the source directory holding `app.cpp`, the template rendered with the quote-escaped command and the version string, and beside it a copy of the template directory's `CMakeLists.txt` |
| `Native.MakeExec` | diamondpack/pack.py:288-308 | no CMake command runs when preparing the sources raises; a copied executable means both commands ran |
| `Ldd.MatchSound` | diamondpack/pack.py:52 | a captured path comes from a line matched in full as `name => path (0xhex)` |
| `Ldd.MatchComplete` | diamondpack/pack.py:52 | every line of that shape is matched, capturing its path |
| `Ldd.MatchPathSound` | diamondpack/pack.py:52 | the part after ` => ` is matched only as a path followed by ` (0x<hex digits>)` |
| `Ldd.MatchPathComplete` | diamondpack/pack.py:52 | a path followed by an address is always matched, capturing the path |
| `Ldd.AsWrittenIsStricter` | diamondpack/pack.py:52 | what the pattern as written matches is matched with the same capture once `+` is admitted in paths |
| `Ldd.PlusPathDroppedAsWritten` | diamondpack/pack.py:52 | the `libstdc++` line is rejected by the pattern as written and accepted by the corrected one |
| `Ldd.MatchNeedsArrow` | diamondpack/pack.py:60-62 | a line without ` => `, such as the vDSO line, is skipped |
| `Ldd.LineLibs` | diamondpack/pack.py:58-64 | a line yields one library exactly when its stripped text matches the pattern (as written, or with `+` admitted in paths), with the captured path and the base name after its last `/` |
| `Ldd.LineLibsAsWrittenStricter` | diamondpack/pack.py:52-64 | a line the pattern as written accepts yields the same library once `+` is admitted in paths |
| `Ldd.ParseLddLine` | diamondpack/pack.py:57-64 | a single line of output yields exactly what that line yields, under either pattern |
| `Ldd.ParseLddAppend` | diamondpack/pack.py:57-59 | output is read line by line, in order: the libraries of the first line, then those of the rest, under either pattern |
| `Ldd.LibstdcxxDroppedAsWritten` | diamondpack/pack.py:52-64 | for the `libstdc++` line, the loop as written finds nothing, and the corrected one finds `libstdc++.so.6` at its resolved path |
| `Ldd.CollectOrigin` | diamondpack/pack.py:59-63 | every library found comes from one of the lines |
| `Text.Strip` | diamondpack/pack.py:58 | `strip()` keeps a contiguous slice and drops only white space at the ends, leaving ends that are not white space |
| `Text.SplitJoinWith` | diamondpack/pack.py:58 | `split(sep)` of parts joined by `sep` gives the parts back when none holds `sep` |
| `Paths.SplitJoin` | diamondpack/pack.py:64 | `os.path.split` of a name joined to a directory gives back the directory and the name |
| `Paths.SplitExtOfName` | diamondpack/pack.py:202 | `os.path.splitext` cuts a name at its extension |
| `Layout.LayoutNesting` | diamondpack/pack.py:70-80 | the bundle is `dist/<name>`, holding `venv`; the bin directory is `venv/Scripts` on Windows and `venv/bin` elsewhere; the lib directory is `venv/Lib` on Windows and `venv/lib/<version>` elsewhere; the build directory is the configured one; the package directory is `<lib>/site-packages` |
| `Packer.RunApps` | diamondpack/pack.py:89-94 | apps are handled in order, each starting in the state the one before left; the run raises nothing exactly when every app returns, and then ends in the state after the last; otherwise it ends with the state and error of the first app that raised, every app before it having returned and none after it started |
| `Packer.MakeAppDispatch` | diamondpack/pack.py:91-94 | in application mode a launcher is the native build of that app, succeeding exactly when the executable was copied, which then is a file, and raising the build's error otherwise; in script mode it is the generated script |
| `Packer.Pack` | diamondpack/pack.py:82-96 | the stages run are a prefix of environment, apps in order, data; an environment failure stops before any app with the environment's state and error; an app failure stops before the data with that app's state and error; once every app returns, the run ends as copying the data files into the output directory does |
| `Packer.GuiScriptsIgnored` | diamondpack/pack.py:89 | `gui_scripts` has no effect on a run |
| `Cache.KeepCacheWith` | diamondpack/pack.py:200-211 | for the cache pattern as written (`<stem>*.pyc`) or as intended (`<stem>.*.pyc`): with no match in `<folder>/__pycache__` nothing changes; otherwise a source that is not a file raises and changes nothing, a failed move leaves only the source removed, and a success removes the source and moves one match to `<folder>/<stem>.pyc`, changing no path but those three |
| `Cache.CacheFileIsPyc` | diamondpack/pack.py:203-205 | every cache match ends in `.pyc`, under either pattern |
| `Cache.OtherModuleCacheMatchedAsWritten` | diamondpack/pack.py:203-205 | for a stem `a` the pattern as written matches `ab.<tag>.pyc`, the cache of `ab.py`, which the intended pattern rejects and which is `ab.py`'s own match |
| `Cache.ExactMatchDeterminesStem` | diamondpack/pack.py:203-205 | under the intended pattern a cache name matches the pattern of at most one module stem |
| `Cache.CompiledPathIsPyc` | diamondpack/pack.py:211 | the compiled file's destination ends in `.pyc` |
| `Cache.CompactKeepsSkipped` | diamondpack/pack.py:218-229 | a pass, with the cache pattern as written or as intended, leaves every skipped or unlisted non-`.pyc` path exactly as it was |
| `Cache.CompactAllSkipped` | diamondpack/pack.py:218-229 | a pass that skips every listed path changes nothing, under either cache pattern |
| `Cache.EmptyCacheBlockSkipsNothing` | diamondpack/pack.py:213-221 | with an empty `cache_block` the package pass skips no listed file: it is the pass with nothing skipped, under either cache pattern |
| `Cache.EncodingsRootUnchanged` | diamondpack/pack.py:223-229 | below a standard-library root whose path contains `encodings`, nothing is compacted, under either cache pattern |
| `Cache.SitePackagesModuleCandidate` | diamondpack/pack.py:218-226 | `site-packages/<m>.py` matches the standard-library glob `<lib>/*/**.py` and not the package glob `<site-packages>/*/**.py` |
| `Cache.SitePackagesModuleInStdlibPass` | diamondpack/pack.py:218-226 | given listings of exactly what the two globs match, `site-packages/<m>.py` is listed by the standard-library pass and not by the package pass |
| `DataCopy.CopyFiles` | diamondpack/pack.py:363-367 | copying only adds or overwrites files, whether it succeeds or stops at a failure: no path disappears, every directory stays a directory and every file a file |
| `DataCopy.CopyFilesFrame` | diamondpack/pack.py:363-367 | into an existing directory, the only paths that change are `<outDir>/<base name>` of the listed paths that are files |
| `DataCopy.CopyFilesSkipsNonFiles` | diamondpack/pack.py:364-365 | in a run that succeeds, copying the listed paths has the same outcome as copying only those that are files |
| `DataCopy.CopyFilesLands` | diamondpack/pack.py:363-367 | in a run that succeeds, each listed file lands at `<outDir>/<base name>` with its contents and permissions, unless a later listed file has the same base name |
| `DataCopy.CopyOneFile` | diamondpack/pack.py:367 | a file lands, with contents and permissions, at `<outDir>/<base name>` |
| `DataCopy.EnsureDir` | diamondpack/pack.py:360-362 | the destination exists afterwards, and an existing one is left alone |
| `DataCopy.CopyData` | diamondpack/pack.py:354-369 | with no `data_globs` nothing happens; otherwise paths and directories are only ever added, whether it succeeds or stops at a failure |
| `DataCopy.CopyFilesWrites` | diamondpack/pack.py:363-367 | copying a listing changes no path but the destination and `<outDir>/<base name>` of the listed paths, whether it succeeds or stops at a failure |
| `DataCopy.GlobsFrom` | diamondpack/pack.py:359-367 | the pairs run in order: a successful run is, from pair `k` on, the run from `k` in the state the earlier pairs left |
| `DataCopy.GlobsKeep` | diamondpack/pack.py:359-367 | a file no later pair could write keeps its contents and permissions to the end of the step, whether it succeeds or stops at a failure |
| `DataCopy.CopyDataLands` | diamondpack/pack.py:359-367 | in a step that succeeds, each file pair `k` lists lands at `<output>/<dest_k>/<base name>` with its contents and permissions as pair `k` found it, unless a later file of that pair has the same base name or a later pair could write there |
| `FileSystem.Written` | diamondpack/pack.py:34 | opening for writing and writing leaves a file with the data, keeps an existing file's permissions, and changes no other path |
| `FileSystem.Remove` | diamondpack/pack.py:209 | `os.remove` succeeds exactly on a file and removes only it |
| `FileSystem.Move` | diamondpack/pack.py:211 | `shutil.move` puts the source's entry at the target (inside the target if it is a directory) and changes only those two paths |
| `FileSystem.Copy` | diamondpack/pack.py:367 | `shutil.copy` succeeds exactly for a file source whose target (inside the destination when that is a directory) is neither the source nor a directory; a target that is the source raises `SameFileError`; success puts the source's contents and permissions at the target and changes no other path |
| `FileSystem.Chmod` | diamondpack/pack.py:277 | `os.chmod` replaces a file's permissions only |
| `FileSystem.MakeDirs` | diamondpack/pack.py:295 | `os.makedirs(exist_ok=True)` leaves the directory in place, keeps every existing entry, and adds only ancestor directories |
| `Config.ModesDistinct` | diamondpack/config.py:5-7 | there are exactly two modes, APP (value 1) and SCRIPT, and they differ |
| `Config.NewApp` | diamondpack/config.py:12-24 | an app stores its name, path and optional entry as given |
| `Config.DefaultConfig` | diamondpack/config.py:32-62 | a fresh configuration has mode APP, build dir `build`, empty lists, no allow-list or block-list, and every flag off |
| `Launcher.LastSlash` | diamondpack/app-templates/app.cpp:82-92 | the index is that of the last `/` or `\`, or 0 when there is none |
| `Launcher.FindLastSlash` | diamondpack/app-templates/app.cpp:82-92 | the scan over `argv[0]`, starting from 0, ends with the index of the last separator |
| `Launcher.InstallDirChoice` | diamondpack/app-templates/app.cpp:92-98 | the working directory is used when `argv[0]` has no separator after index 0; otherwise the install directory is `argv[0]` up to its last separator |
| `Launcher.CommandLineReadsBack` | diamondpack/app-templates/app.cpp:120-148 | the command line starts with a quote and reads back as the quoted interpreter inside `venv`, followed by the command and the later arguments; under MSVC one more leading quote wraps the whole |
| `Launcher.RunExitsEarly` | diamondpack/app-templates/app.cpp:34-117 | the MSVC build never stops early; the others start the interpreter exactly when no variable they set fails and, on Windows, PATH is present and non-empty; an early end is -1, or on Windows 1 exactly when PYTHONHOME was set and PATH is absent or empty |
| `Launcher.RunEnvironment` | diamondpack/app-templates/app.cpp:102-117 | PYTHONHOME is `<dir><sep>venv`; LD_LIBRARY_PATH is `<dir>/venv/bin` on POSIX; PATH is `<dir>/venv/Lib;<old PATH>;` on Windows; no other variable changes |
| `Launcher.LauncherRunsAppCommand` | diamondpack/app-templates/app.cpp:120-148 | the quote-escaped command placed in the C++ literal stands for exactly the app's command, and a started launcher's command line reads back as the quoted interpreter, then that command, then the later arguments |
| `Launcher.JoinArgsIsJoin` | diamondpack/app-templates/app.cpp:143-147 | the later arguments follow one space each, in order |
| `Launcher.JoinArgsSplit` | diamondpack/app-templates/app.cpp:143-147 | splitting the argument tail at spaces gives the arguments back when none holds a space |
| `Launcher.SpacedArgumentSplits` | diamondpack/app-templates/app.cpp:143-147 | an argument holding a space is passed on as two |
| `Launcher.LinuxMatchesPosix` | diamondpack/app-templates/app-linux.cpp:37-90 | `app-linux.cpp` behaves as `app.cpp` built without MSVC |
| `Launcher.WindowsPathUnreadable` | diamondpack/app-templates/app-windows.cpp:70-80 | an absent or empty PATH ends the Windows launcher with 1 |
| `Launcher.GuiOnlyChangesInterpreter` | diamondpack/app-templates/app-windows.cpp:135-141 | the GUI build differs from the console build only in running `pythonw.exe` instead of `python.exe` |

## Findings

| source | as written | input that shows it | evidently intended | confidence | as-written member | corrected member |
|---|---|---|---|---|---|---|
| diamondpack/pack.py:52 | the path class `[a-zA-Z._0-9\-/\\]` lacks `+`, which the name class has | the `ldd` line `libstdc++.so.6 => /usr/lib/libstdc++.so.6 (0x7f0000000000)` does not match, so `libstdc++` is never copied into the bundle | `+` allowed in resolved paths, as in library names | not executed | `Ldd.ParseLddAsWritten` with `Ldd.LibstdcxxDroppedAsWritten` (line level: `Ldd.MatchAsWritten` with `Ldd.PlusPathDroppedAsWritten`) | `Ldd.ParseLdd` with `Ldd.MatchSound`, `Ldd.MatchComplete` and `Ldd.LineLibs` |
| diamondpack/pack.py:203 | the cache pattern `<stem>*.pyc` lets anything follow the stem | `a.py` whose `__pycache__` holds only `ab.cpython-311.pyc`: `keepCache` deletes `a.py` and moves the cache of `ab.py` to `a.pyc` | `<stem>.*.pyc`, the `<stem>.<tag>.pyc` names CPython writes | not executed | `Cache.KeepCacheAsWritten` with `Cache.OtherModuleCacheMatchedAsWritten`; the passes `Cache.CompactFiles`, `Cache.PackagePass`, `Cache.StdlibPass` with `exact` false | `Cache.KeepCache` with `Cache.ExactMatchDeterminesStem`; the same passes with `exact` true |

## Left out

- `execute` and the subprocess runs of `venv`, `pip`, `ldd` and `cmake`: process I/O. Exit statuses and written entries are inputs. The `ldd` and `venv` exit statuses are never looked at, and the model does not invent a check.
- The rest of `_build_env`: recursive deletion, script removal, DLL, `tk` and interpreter copying, and the standard-library `copytree`. These are bulk `shutil` effects. The copytree also reads `stdlib_copy_block`, which `PackConfig` does not define. The result of the whole step is the `World.env` input of `Packer.Pack`.
- The copies `_copy_linux_required_libs` performs: `Ldd.ParseLddAsWritten` and `Ldd.ParseLdd` return the list of `(base name, path)` pairs to copy instead. It is called for the interpreter and `libtk` by `_build_env`, whose result is the `World.env` input; its call in `_make_exec` is commented out.
- Glob ordering: `Cache.KeepCacheWith` moves an arbitrary match, and data-glob listings are inputs. Glob metacharacters inside file stems are taken literally. Windows' case-insensitive matching is not modelled.
- The `cache_block` patterns as regular expressions: `re.search` of the joined patterns is the `search` parameter of `Cache.PackagePass`.
- `stdlib_whitelist`, `stdlib_blacklist`, `dev_mode`, `include_tk` and `gui_scripts` are stored but never consulted by the modelled steps.
- `dpconfig.py`, `__main__.py`, `dplog.py`, logging, `run_test.py` and the example apps are not part of this model.
- The Win32 and POSIX calls in the launchers (`setenv`, `SetEnvironmentVariable`, `CreateProcessW`, `std::system`, message boxes) and the 1024-character buffer of `get_env`. Only the strings they receive are modelled.
- `argv` entries are C strings, which end at the first NUL. The model's strings are taken to hold none.
- Drive letters and UNC prefixes in Windows paths, text encodings and newline translation.
- `FileSystem.Move` moves a single entry: entries below a moved directory are not tracked.
- `DataCopy.CopyData`: its own contract states only that paths and directories are kept. Where files land is stated by `DataCopy.CopyDataLands`.
- `DataCopy.CopyDataLands`: it excludes a destination that already exists as a file, onto which every match is copied in turn. It also excludes any later pair that could write the landing path, whether or not that pair lists a file there.
- `Native.RunBuild`: it does not state the file-system contents after a failed build. Only the outcome and the commands run are stated.
- `FileSystem.Written`, `FileSystem.Copy`, `FileSystem.Move`: a target whose parent directory is missing does not raise `FileNotFoundError`; paths are plain strings, and the parent is not looked up.
- `FileSystem.Copy`: `SameFileError` is raised only when the target is the source path spelled the same way. Two spellings of one file (`a/./b`, links, case on Windows) are not recognised as one.
- `Launcher.RunEnvironment`: on Windows `get_env` reads PATH into a 1024-character buffer. For a longer PATH, `GetEnvironmentVariableW` returns the size it needs without filling the buffer, so the launcher goes on with undefined contents. The model instead prepends `<dir>/venv/Lib;` to the whole PATH, whatever its length.
- `Launcher.Run`, `Launcher.RunEnvironment`, `Launcher.WindowsPathUnreadable`: on the Windows builds variable names are taken to be spelled in upper case. Windows looks names up regardless of case, so an environment holding `Path` and no `PATH` still finds it. The model does not fold case, and it reads such an environment as one without PATH.
- `Launcher.LauncherRunsAppCommand`: it requires a command with no backslash and no line break and an install directory with no double quote. `Command.BackslashMisread` shows what goes wrong otherwise. Octal, hexadecimal and universal-name escapes in C++ literals are not modelled by `Command.CppLiteral`.
- `Launcher.CommandLineReadsBack`: how `cmd /c` and `CreateProcessW` split the rest of the line into arguments is not modelled. Only the quoted program and the text after it are read back.
