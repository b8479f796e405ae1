/**
 * The library locator of the dynamic-library platform: every resolver lets an explicit
 * configuration value win outright, and otherwise derives its path from a parent directory
 * (home -> bin/tools, home -> lib/lib64, lib -> compiler library file).
 */
module Locator {

  import opened Options
  import opened Prober

  /**
   * The configuration resolver, seen as a map from key to value. Its environment-variable
   * fallback is folded into the map: a key is present when either source supplies it.
   */
  type Config = map<string, string>

  const HomeDirKey := "HOME_DIR"
  const BinDirKey := "BIN_DIR"
  const LibDirKey := "LIB_DIR"
  const CompilerLibPathKey := "COMPILER_LIB_PATH"

  /** Candidate subdirectories, in priority order; the development tree uses `tools`. */
  const BinaryDirNames := ["bin", "tools"]
  const LibraryDirNames := ["lib", "lib64"]
  const CompilerLibraryName := "libIREECompiler.so"

  function Lookup(config: Config, key: string): Option<string>
  {
    if key in config then Some(config[key]) else None
  }

  /** The resolution root: the `HOME_DIR` value as configured, with no derivation and no probing. */
  function HomeDir(config: Config): (r: Option<string>)
    ensures r.Some? <==> HomeDirKey in config
    ensures r.Some? ==> r.value == config[HomeDirKey]
  {
    Lookup(config, HomeDirKey)
  }

  function BinaryDir(config: Config, fs: FileSystem): (r: Option<string>)
    // an explicit BIN_DIR wins, whatever the home directory and the filesystem hold
    ensures BinDirKey in config ==> r == Some(config[BinDirKey])
    // otherwise nothing without a home directory
    ensures BinDirKey !in config && HomeDirKey !in config ==> r == None
    // otherwise `bin` is tried before `tools`, and a derived result always exists
    ensures BinDirKey !in config && HomeDirKey in config ==>
      var home := config[HomeDirKey];
      && (Hit(fs, home, "bin") ==> r == fs.join(home, "bin"))
      && (!Hit(fs, home, "bin") && Hit(fs, home, "tools") ==> r == fs.join(home, "tools"))
      && (!Hit(fs, home, "bin") && !Hit(fs, home, "tools") ==> r == None)
      && (r.Some? ==> r.value in fs.existing)
  {
    match Lookup(config, BinDirKey)
    case Some(explicit) => Some(explicit)
    case None =>
      match HomeDir(config)
      case None => None
      case Some(home) =>
        assert BinaryDirNames[1..] == ["tools"];
        FirstExisting(fs, home, BinaryDirNames)
  }

  function LibraryDir(config: Config, fs: FileSystem): (r: Option<string>)
    // an explicit LIB_DIR wins, whatever the home directory and the filesystem hold
    ensures LibDirKey in config ==> r == Some(config[LibDirKey])
    // otherwise nothing without a home directory
    ensures LibDirKey !in config && HomeDirKey !in config ==> r == None
    // otherwise `lib` is tried before `lib64`, and a derived result always exists
    ensures LibDirKey !in config && HomeDirKey in config ==>
      var home := config[HomeDirKey];
      && (Hit(fs, home, "lib") ==> r == fs.join(home, "lib"))
      && (!Hit(fs, home, "lib") && Hit(fs, home, "lib64") ==> r == fs.join(home, "lib64"))
      && (!Hit(fs, home, "lib") && !Hit(fs, home, "lib64") ==> r == None)
      && (r.Some? ==> r.value in fs.existing)
  {
    match Lookup(config, LibDirKey)
    case Some(explicit) => Some(explicit)
    case None =>
      match HomeDir(config)
      case None => None
      case Some(home) =>
        assert LibraryDirNames[1..] == ["lib64"];
        FirstExisting(fs, home, LibraryDirNames)
  }

  function CompilerLibraryPath(config: Config, fs: FileSystem): (r: Option<string>)
    // an explicit COMPILER_LIB_PATH wins, even when no library directory resolves
    ensures CompilerLibPathKey in config ==> r == Some(config[CompilerLibPathKey])
    // otherwise the library file name joined onto the library directory; absent when
    // there is no library directory or the join fails (the joined file is not probed)
    ensures CompilerLibPathKey !in config ==>
      (r.Some? <==> LibraryDir(config, fs).Some?
                    && fs.join(LibraryDir(config, fs).value, CompilerLibraryName).Some?)
    ensures CompilerLibPathKey !in config && r.Some? ==>
      r == fs.join(LibraryDir(config, fs).value, CompilerLibraryName)
  {
    match Lookup(config, CompilerLibPathKey)
    case Some(explicit) => Some(explicit)
    case None =>
      match LibraryDir(config, fs)
      case None => None
      case Some(libDir) => fs.join(libDir, CompilerLibraryName)
  }

  /** With nothing configured, no compiler library path resolves, whatever the filesystem holds. */
  lemma NothingConfiguredNothingFound(fs: FileSystem)
    ensures HomeDir(map[]) == None
    ensures BinaryDir(map[], fs) == None
    ensures LibraryDir(map[], fs) == None
    ensures CompilerLibraryPath(map[], fs) == None
  {
  }

  /**
   * The error raised when no path resolves tells operators to set `COMPILER_LIBRARY_PATH`,
   * but the key looked up is `COMPILER_LIB_PATH`: setting the advertised key changes nothing.
   */
  const AdvertisedCompilerLibPathKey := "COMPILER_LIBRARY_PATH"

  lemma AdvertisedKeyIsIgnored(config: Config, fs: FileSystem, value: string)
    ensures CompilerLibraryPath(config[AdvertisedCompilerLibPathKey := value], fs)
         == CompilerLibraryPath(config, fs)
  {
  }

  /** A join that puts one `/` between base and name and never fails. */
  function SlashJoin(base: string, name: string): Option<string>
  {
    Some(base + "/" + name)
  }

  /** Home `/opt/x` with both `lib` and `lib64` present: the library directory is the `lib` one. */
  lemma LibPreferredOverLib64()
    ensures LibraryDir(map[HomeDirKey := "/opt/x"], FileSystem(SlashJoin, {"/opt/x/lib", "/opt/x/lib64"}))
         == Some("/opt/x/lib")
  {
    var fs := FileSystem(SlashJoin, {"/opt/x/lib", "/opt/x/lib64"});
    assert "/opt/x" + "/" + "lib" == "/opt/x/lib";
    assert Hit(fs, "/opt/x", "lib");
  }

  /** Home `/opt/x` holding only `tools`: the binary directory is the `tools` one. */
  lemma ToolsWhenNoBin()
    ensures BinaryDir(map[HomeDirKey := "/opt/x"], FileSystem(SlashJoin, {"/opt/x/tools"}))
         == Some("/opt/x/tools")
  {
    var fs := FileSystem(SlashJoin, {"/opt/x/tools"});
    assert "/opt/x" + "/" + "bin" == "/opt/x/bin";
    assert "/opt/x" + "/" + "tools" == "/opt/x/tools";
    assert "/opt/x/bin" != "/opt/x/tools";
    assert !Hit(fs, "/opt/x", "bin") && Hit(fs, "/opt/x", "tools");
  }

  /**
   * The derived compiler library path is not checked for existence: with only `LIB_DIR` set
   * and an empty filesystem a path is still returned.
   */
  lemma DerivedPathNotProbed()
    ensures var fs := FileSystem(SlashJoin, {});
            var r := CompilerLibraryPath(map[LibDirKey := "/l"], fs);
            r == Some("/l/libIREECompiler.so") && r.value !in fs.existing
  {
    assert |LibDirKey| != |CompilerLibPathKey|;
    assert "/l" + "/" + CompilerLibraryName == "/l/libIREECompiler.so";
  }

}
