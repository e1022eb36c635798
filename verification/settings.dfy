/**
 * The root settings object and the entry point that loads it: find the root
 * file in the configuration directory, parse it with the strict root schema,
 * then fold the imported fragments into it in place.
 */
module SettingsLoader {
  import opened Wrappers
  import opened Paths
  import opened SettingsModel
  import MergeEngine
  import opened PathResolver
  import opened ImportResolver

  /** The root settings, updated in place by the merges of the import pass. */
  class Settings<Dot, DotOverride> {
    var dotfilesDir: Path
    var gpgUserId: Option<string>
    var settings: ActiveProfile<Dot>
    var profiles: map<string, Profile<DotOverride>>
    var imports: seq<ImportPath>

    /** The object's fields as a value. */
    function View(): SettingsValue<Dot, DotOverride>
      reads this
    {
      SettingsValue(dotfilesDir, gpgUserId, settings, profiles, imports)
    }

    /** The object a successful parse of the root file yields. */
    constructor (v: SettingsValue<Dot, DotOverride>)
      ensures View() == v
    {
      dotfilesDir, gpgUserId, settings, profiles, imports :=
        v.dotfilesDir, v.gpgUserId, v.settings, v.profiles, v.imports;
    }

    /** `Settings::merge`: fold fragment `f` into this object, field by field. */
    method Merge(f: ImportedSettings<Dot, DotOverride>)
      modifies this
      ensures View() == MergeEngine.Merge(old(View()), f)
      ensures dotfilesDir == old(dotfilesDir) && gpgUserId == old(gpgUserId)
    {
      settings := settings.(prehooks := settings.prehooks + f.settings.prehooks);
      settings := settings.(posthooks := settings.posthooks + f.settings.posthooks);
      settings := settings.(vars := settings.vars + f.settings.vars);
      imports := imports + f.imports;
      settings := settings.(dots := settings.dots + f.settings.dots);
      profiles := profiles + f.profiles;
    }

    /**
     * `Settings::merge_imports`: snapshot and anchor the imports present on
     * entry, then load and merge each in order. `log` is what the loop writes
     * to the error channel.
     */
    method MergeImports(home: Option<Path>, onDisk: Path -> bool,
                        read: Path -> Loaded<ImportedSettings<Dot, DotOverride>>)
      returns (result: Result<(), Error>, log: seq<Diagnostic>)
      modifies this
      ensures var p := ImportPass(old(View()), home, onDisk, read);
        && View() == p.settings
        && log == p.log
        && result == (if p.failure.None? then Ok(()) else Err(p.failure.value))
    {
      var resolved := ResolveImportPaths(imports, DotfilesPath(dotfilesDir, home, onDisk));
      if resolved.Err? {
        return Err(resolved.error), [];
      }
      var paths := resolved.value;
      ghost var start := View();
      assert ImportPass(start, home, onDisk, read) == RunImports(start, paths, onDisk, read);
      log := [];
      for i := 0 to |paths|
        invariant RunImports(start, paths[..i], onDisk, read) == Pass(View(), log, None)
      {
        var path := paths[i];
        RunImportsNext(start, paths, onDisk, read, i);
        if onDisk(path) {
          match read(path)
          case SourceError =>
            RunImportsStops(start, paths, onDisk, read, i + 1);
            return Err(ConfigSource(path)), log;
          case SchemaError =>
            log := log + [ImportLoadFailed(path)];
          case Parsed(f) =>
            Merge(f);
        } else {
          log := log + [ImportNotFound(path)];
        }
      }
      assert paths[..|paths|] == paths;
      result := Ok(());
    }

    /**
     * `Settings::get`: locate, parse and complete the root settings. The
     * environment and the file system are the parameters.
     */
    static method Get(configDir: Option<Path>, home: Option<Path>, onDisk: Path -> bool,
                      readRoot: Path -> Loaded<SettingsValue<Dot, DotOverride>>,
                      readImport: Path -> Loaded<ImportedSettings<Dot, DotOverride>>)
      returns (r: Result<Settings<Dot, DotOverride>, Error>, log: seq<Diagnostic>)
      ensures var expected := Load(configDir, home, onDisk, readRoot, readImport);
        && log == expected.log
        && (r.Ok? <==> expected.result.Ok?)
        && (r.Err? ==> expected.result == Err(r.error))
        && (r.Ok? ==> fresh(r.value) && r.value.View() == expected.result.value)
    {
      match ConfigXdgPath(configDir)
      case Err(e) =>
        return Err(e), [];
      case Ok(path) =>
        if !onDisk(path) {
          return Err(ConfigNotFound(path)), [];
        }
        match readRoot(path)
        case SourceError =>
          return Err(ConfigSource(path)), [];
        case SchemaError =>
          return Err(ConfigFormat), [];
        case Parsed(root) =>
          var s := new Settings(root);
          var outcome;
          outcome, log := s.MergeImports(home, onDisk, readImport);
          if outcome.Err? {
            return Err(outcome.error), log;
          }
          return Ok(s), log;
    }
  }

  /** The result of loading the settings, and the diagnostics written meanwhile. */
  datatype LoadOutcome<Dot, DotOverride> = LoadOutcome(
    result: Result<SettingsValue<Dot, DotOverride>, Error>,
    log: seq<Diagnostic>)

  /**
   * What `Settings::get` yields. Every failure before the import pass
   * leaves the diagnostics empty, since no import was looked at; a missing
   * home or dotfiles directory is never returned as an error of its own.
   */
  function Load<Dot, DotOverride>(configDir: Option<Path>, home: Option<Path>, onDisk: Path -> bool,
                                  readRoot: Path -> Loaded<SettingsValue<Dot, DotOverride>>,
                                  readImport: Path -> Loaded<ImportedSettings<Dot, DotOverride>>)
    : (r: LoadOutcome<Dot, DotOverride>)
    ensures configDir.None? ==> r == LoadOutcome(Err(ConfigDirNotFound), [])
    ensures configDir.Some? ==>
      var path := Join(configDir.value, Path(false, [CONFIG_FILE_NAME]));
      && (!onDisk(path) ==> r == LoadOutcome(Err(ConfigNotFound(path)), []))
      && (onDisk(path) && readRoot(path).SourceError? ==> r == LoadOutcome(Err(ConfigSource(path)), []))
      && (onDisk(path) && readRoot(path).SchemaError? ==> r == LoadOutcome(Err(ConfigFormat), []))
      && (onDisk(path) && readRoot(path).Parsed? && r.result.Ok? ==>
            r.result.value.dotfilesDir == readRoot(path).value.dotfilesDir &&
            r.result.value.gpgUserId == readRoot(path).value.gpgUserId)
    ensures r.result.Err? ==> !r.result.error.HomeNotFound? && !r.result.error.DotfilesDirMissing?
    ensures r.log != [] ==> configDir.Some? && readRoot(ConfigXdgPath(configDir).value).Parsed?
  {
    match ConfigXdgPath(configDir)
    case Err(e) => LoadOutcome(Err(e), [])
    case Ok(path) =>
      if !onDisk(path) then LoadOutcome(Err(ConfigNotFound(path)), [])
      else
        match readRoot(path)
        case SourceError => LoadOutcome(Err(ConfigSource(path)), [])
        case SchemaError => LoadOutcome(Err(ConfigFormat), [])
        case Parsed(root) =>
          var pass := ImportPass(root, home, onDisk, readImport);
          LoadOutcome(if pass.failure.None? then Ok(pass.settings) else Err(pass.failure.value), pass.log)
  }

  /**
   * A root file without imports loads as parsed, even when the home or the
   * dotfiles directory is missing: the dotfiles path is never resolved.
   */
  lemma LoadWithoutImports<Dot, DotOverride>(configDir: Path, home: Option<Path>, onDisk: Path -> bool,
                                             readRoot: Path -> Loaded<SettingsValue<Dot, DotOverride>>,
                                             readImport: Path -> Loaded<ImportedSettings<Dot, DotOverride>>)
    requires var path := Join(configDir, Path(false, [CONFIG_FILE_NAME]));
      onDisk(path) && readRoot(path).Parsed? && readRoot(path).value.imports == []
    ensures Load(Some(configDir), home, onDisk, readRoot, readImport)
         == LoadOutcome(Ok(readRoot(Join(configDir, Path(false, [CONFIG_FILE_NAME]))).value), [])
  {
  }

  /**
   * A relative import when the dotfiles path cannot be resolved aborts the
   * load through the unwrap, before any import is read.
   */
  lemma LoadRelativeImportPanics<Dot, DotOverride>(configDir: Path, home: Option<Path>, onDisk: Path -> bool,
                                                   readRoot: Path -> Loaded<SettingsValue<Dot, DotOverride>>,
                                                   readImport: Path -> Loaded<ImportedSettings<Dot, DotOverride>>, j: nat)
    requires var path := Join(configDir, Path(false, [CONFIG_FILE_NAME]));
      && onDisk(path) && readRoot(path).Parsed?
      && j < |readRoot(path).value.imports| && !readRoot(path).value.imports[j].path.absolute
      && DotfilesPath(readRoot(path).value.dotfilesDir, home, onDisk).Err?
    ensures var root := readRoot(Join(configDir, Path(false, [CONFIG_FILE_NAME]))).value;
      Load(Some(configDir), home, onDisk, readRoot, readImport)
        == LoadOutcome(Err(UnwrapPanic(DotfilesPath(root.dotfilesDir, home, onDisk).error)), [])
  {
  }

  /**
   * A root file with an absolute, existing `dotfilesDir` and one relative
   * import that defines dot `k` loads with `dotfilesDir` kept and `k`
   * present with the imported definition.
   */
  lemma LoadMergesImport<Dot, DotOverride>(configDir: Path, home: Path, onDisk: Path -> bool,
                                           readRoot: Path -> Loaded<SettingsValue<Dot, DotOverride>>,
                                           readImport: Path -> Loaded<ImportedSettings<Dot, DotOverride>>,
                                           name: string, k: string)
    requires var path := Join(configDir, Path(false, [CONFIG_FILE_NAME]));
      && onDisk(path) && readRoot(path).Parsed?
      && readRoot(path).value.dotfilesDir.absolute && onDisk(readRoot(path).value.dotfilesDir)
      && readRoot(path).value.imports == [ImportPath(Path(false, [name]))]
    requires var dir := readRoot(Join(configDir, Path(false, [CONFIG_FILE_NAME]))).value.dotfilesDir;
      var file := Join(dir, Path(false, [name]));
      onDisk(file) && readImport(file).Parsed? && k in readImport(file).value.settings.dots
    ensures var root := readRoot(Join(configDir, Path(false, [CONFIG_FILE_NAME]))).value;
      var file := Join(root.dotfilesDir, Path(false, [name]));
      var r := Load(Some(configDir), Some(home), onDisk, readRoot, readImport);
      && r == LoadOutcome(Ok(MergeEngine.Merge(root, readImport(file).value)), [])
      && r.result.value.dotfilesDir == root.dotfilesDir
      && k in r.result.value.settings.dots
      && r.result.value.settings.dots[k] == readImport(file).value.settings.dots[k]
  {
    var root := readRoot(Join(configDir, Path(false, [CONFIG_FILE_NAME]))).value;
    var file := Join(root.dotfilesDir, Path(false, [name]));
    assert DotfilesPath(root.dotfilesDir, Some(home), onDisk) == Ok(root.dotfilesDir);
    assert root.imports[..0] == [];
    assert ResolveImportPaths(root.imports[..0], Ok(root.dotfilesDir)) == Ok([]);
    assert Anchor(Path(false, [name]), Ok(root.dotfilesDir)) == file;
    assert [] + [file] == [file];
    assert ResolveImportPaths(root.imports, Ok(root.dotfilesDir)) == Ok([file]);
    assert [file][..0] == [];
    assert RunImports(root, [file], onDisk, readImport) == Pass(MergeEngine.Merge(root, readImport(file).value), [], None);
    assert ImportPass(root, Some(home), onDisk, readImport) == Pass(MergeEngine.Merge(root, readImport(file).value), [], None);
  }
}
