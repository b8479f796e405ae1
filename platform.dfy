/**
 * The dynamic-library platform: directory discovery over the platform's configuration, and the
 * start-up sequence that locates the compiler library, loads it once per process and wires up
 * the logger, the in-process compiler and the artifact dumper.
 */
module Platform {

  import opened Options
  import opened Prober
  import opened Locator
  import opened Loader

  datatype StatusCode = Ok | Unavailable

  datatype Status = Status(code: StatusCode, message: string)

  const OkStatus := Status(Ok, "")

  /** The prefix of the environment variables the configuration falls back to. */
  const EnvFallbackPrefix := "IREE_PJRT_"

  /** The configuration key the artifact dumper reads, lazily, for its output directory. */
  const SaveArtifactsKey := "SAVE_ARTIFACTS"

  const NotFoundMessage :=
    "the compiler library could not be found. It can be configured via the "
    + "'COMPILER_LIBRARY_PATH' config var ('IREE_PJRT_COMPILER_LIBRARY_PATH' env var)"

  function LoadFailedMessage(path: string): string
  {
    "unable to locate IREE compiler shared library: " + path
  }

  const LoadFailedLogText := "Could not initialize compiler shared library"

  function UsingCompilerLogText(loadedPath: string): string
  {
    "Using IREE compiler binary: " + loadedPath
  }

  datatype LogEntry = Debug(text: string) | Error(text: string)

  /** The files artifact dumper as configured: which key supplies its path, and whether it retains all artifacts. */
  datatype ArtifactDumper = FilesArtifactDumper(pathKey: string, retainAll: bool)

  class DylibPlatform {
    /** The configuration resolver's view: explicit settings and, once enabled, the environment. */
    var config: Config
    var envFallback: Option<string>
    /** The logger: whether it exists, and the messages it received. */
    var hasLogger: bool
    var log: seq<LogEntry>
    /** Whether the in-process compiler handle exists. */
    var hasCompiler: bool
    var artifactDumper: Option<ArtifactDumper>

    constructor(config: Config)
      ensures this.config == config && envFallback == None
      ensures !hasLogger && log == [] && !hasCompiler && artifactDumper == None
    {
      this.config := config;
      envFallback := None;
      hasLogger := false;
      log := [];
      hasCompiler := false;
      artifactDumper := None;
    }

    /** `BIN_DIR` if configured; otherwise `bin`, then `tools`, under the home directory. */
    method GetBinaryDir(fs: FileSystem) returns (r: Option<string>)
      ensures r == BinaryDir(config, fs)
    {
      var foundExplicit := Lookup(config, BinDirKey);
      if foundExplicit.Some? {
        return foundExplicit;
      }
      var homeDir := HomeDir(config);
      if homeDir.None? {
        return None;
      }
      r := ProbeFirstExisting(fs, homeDir.value, BinaryDirNames);
    }

    /** `LIB_DIR` if configured; otherwise `lib`, then `lib64`, under the home directory. */
    method GetLibraryDir(fs: FileSystem) returns (r: Option<string>)
      ensures r == LibraryDir(config, fs)
    {
      var foundExplicit := Lookup(config, LibDirKey);
      if foundExplicit.Some? {
        return foundExplicit;
      }
      var homeDir := HomeDir(config);
      if homeDir.None? {
        return None;
      }
      r := ProbeFirstExisting(fs, homeDir.value, LibraryDirNames);
    }

    /** `COMPILER_LIB_PATH` if configured; otherwise the library file name joined onto the library directory. */
    method GetCompilerLibraryPath(fs: FileSystem) returns (r: Option<string>)
      ensures r == CompilerLibraryPath(config, fs)
    {
      var foundExplicit := Lookup(config, CompilerLibPathKey);
      if foundExplicit.Some? {
        return foundExplicit;
      }
      var libDir := GetLibraryDir(fs);
      if libDir.None? {
        return None;
      }
      r := fs.join(libDir.value, CompilerLibraryName);
    }

    /**
     * Start-up: enable the environment fallback, create the logger, resolve the compiler library
     * path, load it through the process-wide once-loader, then create the compiler and the artifact
     * dumper. Each failure ends the sequence with an UNAVAILABLE status.
     */
    method SubclassInitialize(fs: FileSystem, stub: CompilerStub) returns (status: Status)
      requires stub.Valid()
      modifies this, stub
      ensures stub.Valid()
      ensures config == old(config) && envFallback == Some(EnvFallbackPrefix) && hasLogger
      // no path: fail before any load attempt
      ensures CompilerLibraryPath(config, fs).None? ==>
        && status == Status(Unavailable, NotFoundMessage)
        && log == []
        && stub.loaded == old(stub.loaded) && stub.calls == old(stub.calls)
        && hasCompiler == old(hasCompiler) && artifactDumper == old(artifactDumper)
      // a path: the once-loader decides
      ensures CompilerLibraryPath(config, fs).Some? ==>
        var requested := CompilerLibraryPath(config, fs).value;
        var o := Step(old(stub.loaded), stub.loads, requested);
        && stub.loaded == o.next && stub.calls == old(stub.calls) + o.calls
        && (o.result.None? ==>
              && status == Status(Unavailable, LoadFailedMessage(requested))
              && log == [Error(LoadFailedLogText)]
              && hasCompiler == old(hasCompiler) && artifactDumper == old(artifactDumper))
        && (o.result.Some? ==>
              && status == OkStatus
              && log == [Debug(UsingCompilerLogText(o.result.value))]
              && hasCompiler
              && artifactDumper == Some(FilesArtifactDumper(SaveArtifactsKey, false)))
    {
      envFallback := Some(EnvFallbackPrefix);

      hasLogger := true;
      log := [];

      var libraryPath := GetCompilerLibraryPath(fs);
      if libraryPath.None? {
        return Status(Unavailable, NotFoundMessage);
      }

      var loadedCompiler := stub.LoadCompilerStubOnce(libraryPath.value);
      if loadedCompiler.None? {
        log := log + [Error(LoadFailedLogText)];
        return Status(Unavailable, LoadFailedMessage(libraryPath.value));
      }
      log := log + [Debug(UsingCompilerLogText(loadedCompiler.value))];

      hasCompiler := true;

      artifactDumper := Some(FilesArtifactDumper(SaveArtifactsKey, false));

      return OkStatus;
    }
  }

  /** The lazy path supplier of the artifact dumper: dumping is off unless its key resolves. */
  function ArtifactPath(config: Config, dumper: ArtifactDumper): (r: Option<string>)
    ensures r.Some? <==> dumper.pathKey in config
    ensures r.Some? ==> r.value == config[dumper.pathKey]
  {
    Lookup(config, dumper.pathKey)
  }

  /**
   * Two plugin instances in one process whose configurations pin different library paths: the
   * second succeeds or fails as the first did, logs the first instance's loaded path, and the
   * native library is loaded at most once.
   */
  method TwoInstancesShareOneLoad(fs: FileSystem, loads: string -> bool, p: string, q: string)
    returns (first: Status, second: Status, secondLog: seq<LogEntry>)
    ensures first.code == second.code
    ensures loads(p) ==> first == second == OkStatus && secondLog == [Debug(UsingCompilerLogText(p))]
    ensures !loads(p) ==> second == Status(Unavailable, LoadFailedMessage(q))
  {
    var stub := new CompilerStub(loads);
    var a := new DylibPlatform(map[CompilerLibPathKey := p]);
    var b := new DylibPlatform(map[CompilerLibPathKey := q]);
    first := a.SubclassInitialize(fs, stub);
    second := b.SubclassInitialize(fs, stub);
    secondLog := b.log;
    stub.AtMostOneLoad();
    assert LoadCount(stub.calls) <= 1;
  }

  /** With no home directory and no overrides, start-up fails without touching the native library. */
  method NothingConfiguredFails(fs: FileSystem, loads: string -> bool) returns (status: Status)
    ensures status == Status(Unavailable, NotFoundMessage)
  {
    var stub := new CompilerStub(loads);
    var platform := new DylibPlatform(map[]);
    NothingConfiguredNothingFound(fs);
    status := platform.SubclassInitialize(fs, stub);
    assert stub.calls == [];
  }
}
