# IREE PJRT plugin: compiler-library discovery and once-per-process loading

This project models the bootstrap layer of the IREE PJRT plugin's dynamic-library platform
(`DylibPlatform`). The platform locates the separately shipped compiler library
`libIREECompiler.so`. It loads and globally initialises that library at most once per host
process, then sets up the plugin instance's logger, in-process compiler and artifact dumper.

The model has five modules:

- `Options`: the optional value used wherever the source returns `std::optional<std::string>`.
- `Prober`: the candidate loop shared by the binary- and library-directory resolvers. It joins
  each candidate name onto the home directory and keeps the first joined path that exists. A
  candidate whose join fails is skipped. The filesystem is a `FileSystem` value: a join function
  that may fail and a set of existing paths. `FirstExisting` is the specification. The method
  `ProbeFirstExisting` is the source's `for` loop with `continue` and early return, proved equal
  to it.
- `Locator`: the resolvers `HomeDir`, `BinaryDir`, `LibraryDir` and `CompilerLibraryPath`, as
  functions of the configuration and the filesystem. An explicit configuration value wins
  outright. Otherwise the path is derived: `bin` then `tools`, or `lib` then `lib64`, under
  `HOME_DIR`, and `libIREECompiler.so` under the library directory.
- `Loader`: the once-loader. The class `CompilerStub` holds the function-local static
  `loaded_path` as a two-state value (`Uninit` or `Done(result)`). It also keeps a ghost log of
  the calls made into the native library. Whether a load succeeds for a given path is the
  constant oracle `loads`. The pure functions `Step` and `Run` specify one call and a sequence
  of calls. Lemmas over `Run` prove four things: there is at most one attempt, every call
  returns the first call's result, a later call's path is ignored, and a failure is permanent.
- `Platform`: the class `DylibPlatform`. Its `Get*` methods follow the source's control flow and
  are proved equal to the `Locator` functions. `SubclassInitialize` is the short-circuiting
  start-up sequence.

Where the source's behaviour looks unintended, the model follows the code as written:

- Both start-up failures return `UNAVAILABLE`. There is no separate "not found" status.
- The "not found" message tells operators to set `COMPILER_LIBRARY_PATH`. The key actually
  looked up is `COMPILER_LIB_PATH`. `Locator.AdvertisedKeyIsIgnored` proves that setting the
  advertised key changes nothing.
- The derived compiler library path is never checked for existence.
  `Locator.DerivedPathNotProbed` shows a returned path that does not exist.
- The directory probes call `iree_file_exists` on the buffer that was just freed. The model
  applies the existence check to the joined string, which is what the code evidently means.
- The success log names the path that was actually loaded. This can be another instance's path,
  not the one this instance requested.

## Model

| member | source | states |
|---|---|---|
| `Prober.FirstExisting` | pjrt-plugin/iree/integrations/pjrt/common/dylib_platform.cc:108-123 | a result, when present, is an existing path; the result is absent exactly when no candidate both joins and exists |
| `Prober.FirstExistingAt` | pjrt-plugin/iree/integrations/pjrt/common/dylib_platform.cc:110-121 | priority order: if candidate i is found and no earlier one is, the result is candidate i's joined path, whatever comes after it |
| `Prober.FirstExistingWitness` | pjrt-plugin/iree/integrations/pjrt/common/dylib_platform.cc:110-121 | a present result is always the joined path of the first candidate that is found |
| `Prober.ProbeFirstExisting` | pjrt-plugin/iree/integrations/pjrt/common/dylib_platform.cc:109-123 | the loop (continue on join failure, return on the first existing path, none after the loop) computes `FirstExisting` |
| `Locator.HomeDir` | pjrt-plugin/iree/integrations/pjrt/common/dylib_platform.cc:90-96 | present exactly when `HOME_DIR` is configured, and then that value verbatim; no filesystem input, so no probing |
| `Locator.BinaryDir` | pjrt-plugin/iree/integrations/pjrt/common/dylib_platform.cc:98-124 | `BIN_DIR` verbatim whatever the home dir and filesystem; else none without a home; else `home/bin` if found, else `home/tools` if found, else none; a derived result exists |
| `Locator.LibraryDir` | pjrt-plugin/iree/integrations/pjrt/common/dylib_platform.cc:126-151 | `LIB_DIR` verbatim; else none without a home; else `home/lib` before `home/lib64`, none if neither is found; a derived result exists |
| `Locator.CompilerLibraryPath` | pjrt-plugin/iree/integrations/pjrt/common/dylib_platform.cc:153-173 | `COMPILER_LIB_PATH` verbatim even with no library dir; else present exactly when the library dir resolves and the join with `libIREECompiler.so` succeeds, and then that joined path |
| `Locator.NothingConfiguredNothingFound` | pjrt-plugin/iree/integrations/pjrt/common/dylib_platform.cc:90-173 | with an empty configuration every resolver yields none, whatever the filesystem holds |
| `Locator.AdvertisedKeyIsIgnored` | pjrt-plugin/iree/integrations/pjrt/common/dylib_platform.cc:53-59 | setting the key named in the not-found message (`COMPILER_LIBRARY_PATH`) never changes the resolved compiler library path |
| `Locator.LibPreferredOverLib64` | pjrt-plugin/iree/integrations/pjrt/common/dylib_platform.cc:136-148 | home `/opt/x` with both `lib` and `lib64` present resolves the library dir to `/opt/x/lib` |
| `Locator.ToolsWhenNoBin` | pjrt-plugin/iree/integrations/pjrt/common/dylib_platform.cc:108-121 | home `/opt/x` with only `tools` present resolves the binary dir to `/opt/x/tools` |
| `Locator.DerivedPathNotProbed` | pjrt-plugin/iree/integrations/pjrt/common/dylib_platform.cc:163-172 | with only `LIB_DIR=/l` and an empty filesystem the path `/l/libIREECompiler.so` is returned though it does not exist |
| `Loader.InitCallsCounts` | pjrt-plugin/iree/integrations/pjrt/common/dylib_platform.cc:20-29 | one attempt loads once, runs the global initialiser once exactly when the load succeeded, and never with command-line parsing |
| `Loader.RunFromDone` | pjrt-plugin/iree/integrations/pjrt/common/dylib_platform.cc:34-41 | once the static is set, any number of calls leave it unchanged, make no native call and all return the stored result |
| `Loader.FirstCallDecides` | pjrt-plugin/iree/integrations/pjrt/common/dylib_platform.cc:31-41 | from a fresh process every call returns the first call's result whatever path it passes, and the only native calls are the first call's attempt |
| `Loader.AtMostOneAttempt` | pjrt-plugin/iree/integrations/pjrt/common/dylib_platform.cc:31-41 | across any call sequence the library is loaded exactly once (none for no call) and initialised once only if the first load succeeded |
| `Loader.FailureIsPermanent` | pjrt-plugin/iree/integrations/pjrt/common/dylib_platform.cc:31-41 | after a failed first load every later call, even with a loadable path, returns none with no retry and no initialisation |
| `Loader.CompilerStub.AtMostOneLoad` | pjrt-plugin/iree/integrations/pjrt/common/dylib_platform.cc:36-39 | in every valid process state the native log holds at most one load and at most one global initialisation |
| `Loader.CompilerStub.InitializeCompilerForProcess` | pjrt-plugin/iree/integrations/pjrt/common/dylib_platform.cc:20-29 | returns the path exactly when the load succeeds, none otherwise; logs the load, then `GlobalInitialize(false)` only on success |
| `Loader.CompilerStub.LoadCompilerStubOnce` | pjrt-plugin/iree/integrations/pjrt/common/dylib_platform.cc:34-41 | the new static, the result and the native calls are those of `Step` from the old static; keeps the at-most-one-attempt invariant |
| `Loader.SecondCallerObservesFirst` | pjrt-plugin/iree/integrations/pjrt/common/dylib_platform.cc:31-41 | two calls with different paths both return the first path's load result |
| `Platform.DylibPlatform.GetBinaryDir` | pjrt-plugin/iree/integrations/pjrt/common/dylib_platform.cc:98-124 | the source's lookup-then-probe control flow computes `BinaryDir` |
| `Platform.DylibPlatform.GetLibraryDir` | pjrt-plugin/iree/integrations/pjrt/common/dylib_platform.cc:126-151 | the source's lookup-then-probe control flow computes `LibraryDir` |
| `Platform.DylibPlatform.GetCompilerLibraryPath` | pjrt-plugin/iree/integrations/pjrt/common/dylib_platform.cc:153-173 | the source's lookup, library-dir call and join compute `CompilerLibraryPath` |
| `Platform.DylibPlatform.SubclassInitialize` | pjrt-plugin/iree/integrations/pjrt/common/dylib_platform.cc:45-88 | enables the `IREE_PJRT_` fallback and a fresh logger; no path gives UNAVAILABLE with the not-found message and no load attempt; a failed load gives UNAVAILABLE naming the requested path and one error log; otherwise it logs the loaded path and sets the compiler and a dumper on `SAVE_ARTIFACTS` without retain-all, returning OK |
| `Platform.ArtifactPath` | pjrt-plugin/iree/integrations/pjrt/common/dylib_platform.cc:80-82 | the dumper's path supplier yields the `SAVE_ARTIFACTS` value when configured and none otherwise |
| `Platform.TwoInstancesShareOneLoad` | pjrt-plugin/iree/integrations/pjrt/common/dylib_platform.cc:62-74 | two instances pinning different paths in one process: the second succeeds or fails as the first did, and on success it logs the first instance's path |
| `Platform.NothingConfiguredFails` | pjrt-plugin/iree/integrations/pjrt/common/dylib_platform.cc:52-60 | with no home directory and no overrides start-up fails with UNAVAILABLE and the not-found message |

## Left out

- Thread safety of the function-local static: only the sequential "first call decides, later calls observe" behaviour is modelled. Concurrent callers blocking until the first call finishes is not.
- The configuration resolver's environment fallback (`EnableEnvFallback`, `Lookup`): its code is not part of this model. The configuration is an opaque map of the values it resolves. `SubclassInitialize` only records that the `IREE_PJRT_` fallback was enabled.
- `iree_file_path_join` and `iree_file_exists`, including separator normalisation: they are not part of this model. They are the abstract `join` function and `existing` set of a `FileSystem`.
- `ireeCompilerLoadLibrary` and `ireeCompilerGlobalInitialize` are foreign calls. The first is the oracle `loads`. Both are entries in a ghost call log.
- `Logger`, `InprocessCompiler` and `FilesArtifactDumper` are foreign classes. They are modelled as a log of messages, a presence flag and the dumper's configuration (path key, retain-all flag). The dumper's own behaviour is out of scope.
- `Platform.DylibPlatform.SubclassInitialize`: the status is a code plus a message. The `%s` formatting is modelled as string concatenation. IREE's status objects and their ownership are not modelled.
- The use-after-free in the directory probes (`iree_file_exists` on a freed buffer) is undefined behaviour and cannot be modelled. The existence check is applied to the joined string.
- The PJRT C API wrappers in `api_impl.h` and the end-to-end JAX test `test_simple.py` are outside this core.
