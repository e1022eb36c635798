/**
 * One pass of import resolution over the snapshot of import paths: a
 * missing file or a fragment that does not fit the schema is skipped with
 * one diagnostic, a file that cannot be read or parsed as TOML ends the pass
 * with an error, and every fragment that loads is merged at once, in order.
 */
module ImportResolver {
  import opened Wrappers
  import opened Paths
  import opened SettingsModel
  import opened MergeEngine
  import opened PathResolver

  /** The settings, the diagnostics emitted and the error, if any, after some imports. */
  datatype Pass<Dot, DotOverride> = Pass(
    settings: SettingsValue<Dot, DotOverride>,
    log: seq<Diagnostic>,
    failure: Option<Error>)

  /** The file at `path` exists and deserializes to a fragment. */
  predicate Loads<Dot, DotOverride>(path: Path, onDisk: Path -> bool, read: Path -> Loaded<ImportedSettings<Dot, DotOverride>>) {
    onDisk(path) && read(path).Parsed?
  }

  /** The file at `path` exists but cannot be read or is not valid TOML. */
  predicate Fatal<Dot, DotOverride>(path: Path, onDisk: Path -> bool, read: Path -> Loaded<ImportedSettings<Dot, DotOverride>>) {
    onDisk(path) && read(path).SourceError?
  }

  /** One iteration of the import loop, applied to settings `s`. */
  function ImportOne<Dot, DotOverride>(s: SettingsValue<Dot, DotOverride>, path: Path, onDisk: Path -> bool,
                                       read: Path -> Loaded<ImportedSettings<Dot, DotOverride>>)
    : (r: Pass<Dot, DotOverride>)
    ensures r.failure.Some? <==> Fatal(path, onDisk, read)
    ensures r.failure.Some? ==> r.failure.value == ConfigSource(path)
    ensures Loads(path, onDisk, read) ==> r.settings == Merge(s, read(path).value) && r.log == []
    ensures !Loads(path, onDisk, read) ==> r.settings == s
    ensures !Loads(path, onDisk, read) && !Fatal(path, onDisk, read) ==> |r.log| == 1 && r.log[0].path == path
    ensures Fatal(path, onDisk, read) ==> r.log == []
  {
    if !onDisk(path) then Pass(s, [ImportNotFound(path)], None)
    else
      match read(path)
      case SourceError => Pass(s, [], Some(ConfigSource(path)))
      case SchemaError => Pass(s, [ImportLoadFailed(path)], None)
      case Parsed(f) => Pass(Merge(s, f), [], None)
  }

  /** The import loop over `paths`, stopping at the first error. */
  function RunImports<Dot, DotOverride>(s: SettingsValue<Dot, DotOverride>, paths: seq<Path>, onDisk: Path -> bool,
                                        read: Path -> Loaded<ImportedSettings<Dot, DotOverride>>)
    : (r: Pass<Dot, DotOverride>)
    ensures |r.log| <= |paths|
    ensures r.failure.Some? ==> r.failure.value.ConfigSource?
    ensures r.settings.dotfilesDir == s.dotfilesDir && r.settings.gpgUserId == s.gpgUserId
    decreases |paths|
  {
    if paths == [] then Pass(s, [], None)
    else
      var prev := RunImports(s, paths[..|paths| - 1], onDisk, read);
      if prev.failure.Some? then prev
      else
        var step := ImportOne(prev.settings, paths[|paths| - 1], onDisk, read);
        Pass(step.settings, prev.log + step.log, step.failure)
  }

  /** The fragments that load from `paths`, in order. */
  function Fragments<Dot, DotOverride>(paths: seq<Path>, onDisk: Path -> bool,
                                       read: Path -> Loaded<ImportedSettings<Dot, DotOverride>>)
    : seq<ImportedSettings<Dot, DotOverride>>
    decreases |paths|
  {
    if paths == [] then []
    else
      var last := paths[|paths| - 1];
      Fragments(paths[..|paths| - 1], onDisk, read) + (if Loads(last, onDisk, read) then [read(last).value] else [])
  }

  /** The diagnostics the paths that do not load give, in order: one each for a missing file or a schema failure. */
  function Diagnostics<Dot, DotOverride>(paths: seq<Path>, onDisk: Path -> bool,
                                         read: Path -> Loaded<ImportedSettings<Dot, DotOverride>>)
    : seq<Diagnostic>
    decreases |paths|
  {
    if paths == [] then []
    else
      var last := paths[|paths| - 1];
      Diagnostics(paths[..|paths| - 1], onDisk, read) +
        (if !onDisk(last) then [ImportNotFound(last)]
         else if read(last).SchemaError? then [ImportLoadFailed(last)]
         else [])
  }

  /** No path in `paths` ends the pass with an error. */
  predicate NoFatal<Dot, DotOverride>(paths: seq<Path>, onDisk: Path -> bool,
                                      read: Path -> Loaded<ImportedSettings<Dot, DotOverride>>) {
    forall i :: 0 <= i < |paths| ==> !Fatal(paths[i], onDisk, read)
  }

  /** Once the pass has failed, later paths are not looked at. */
  lemma {:induction false} RunImportsStops<Dot, DotOverride>(s: SettingsValue<Dot, DotOverride>, paths: seq<Path>,
                                                             onDisk: Path -> bool,
                                                             read: Path -> Loaded<ImportedSettings<Dot, DotOverride>>, j: nat)
    requires j <= |paths| && RunImports(s, paths[..j], onDisk, read).failure.Some?
    ensures RunImports(s, paths, onDisk, read) == RunImports(s, paths[..j], onDisk, read)
    decreases |paths|
  {
    if j < |paths| {
      var init := paths[..|paths| - 1];
      assert init[..j] == paths[..j];
      RunImportsStops(s, init, onDisk, read, j);
    } else {
      assert paths[..j] == paths;
    }
  }

  /** The pass over one more path is the pass so far followed by one loop iteration. */
  lemma RunImportsNext<Dot, DotOverride>(s: SettingsValue<Dot, DotOverride>, paths: seq<Path>, onDisk: Path -> bool,
                                         read: Path -> Loaded<ImportedSettings<Dot, DotOverride>>, i: nat)
    requires i < |paths| && RunImports(s, paths[..i], onDisk, read).failure.None?
    ensures var prev := RunImports(s, paths[..i], onDisk, read);
      var step := ImportOne(prev.settings, paths[i], onDisk, read);
      RunImports(s, paths[..i + 1], onDisk, read) == Pass(step.settings, prev.log + step.log, step.failure)
  {
    assert paths[..i + 1][..i] == paths[..i];
  }

  /**
   * Without a fatal file the pass succeeds, the settings are the old ones
   * with every fragment that loads merged in list order, and every other
   * path gave exactly one diagnostic, in list order.
   */
  lemma {:induction false} RunImportsWithoutFatal<Dot, DotOverride>(s: SettingsValue<Dot, DotOverride>, paths: seq<Path>,
                                                                    onDisk: Path -> bool,
                                                                    read: Path -> Loaded<ImportedSettings<Dot, DotOverride>>)
    requires NoFatal(paths, onDisk, read)
    ensures var r := RunImports(s, paths, onDisk, read);
      && r.failure.None?
      && r.settings == MergeAll(s, Fragments(paths, onDisk, read))
      && r.log == Diagnostics(paths, onDisk, read)
      && |r.log| + |Fragments(paths, onDisk, read)| == |paths|
    decreases |paths|
  {
    if paths != [] {
      var init := paths[..|paths| - 1];
      assert NoFatal(init, onDisk, read) by {
        forall i | 0 <= i < |init| ensures !Fatal(init[i], onDisk, read) {
          assert init[i] == paths[i];
        }
      }
      var last := paths[|paths| - 1];
      assert !Fatal(last, onDisk, read);
      RunImportsWithoutFatal(s, init, onDisk, read);
      var fs := Fragments(paths, onDisk, read);
      if Loads(last, onDisk, read) {
        assert fs[..|fs| - 1] == Fragments(init, onDisk, read);
      } else {
        assert fs == Fragments(init, onDisk, read);
      }
    }
  }

  /**
   * Fragments are merged in list order: on a dot name, the last loaded
   * fragment that defines it wins; the same holds for profile names.
   */
  lemma LaterImportWins<Dot, DotOverride>(s: SettingsValue<Dot, DotOverride>, paths: seq<Path>, onDisk: Path -> bool,
                                          read: Path -> Loaded<ImportedSettings<Dot, DotOverride>>, k: string, j: nat)
    requires NoFatal(paths, onDisk, read)
    requires var fs := Fragments(paths, onDisk, read);
      && j < |fs| && k in fs[j].settings.dots
      && forall i :: j < i < |fs| ==> k !in fs[i].settings.dots
    ensures var dots := RunImports(s, paths, onDisk, read).settings.settings.dots;
      k in dots && dots[k] == Fragments(paths, onDisk, read)[j].settings.dots[k]
  {
    var fs := Fragments(paths, onDisk, read);
    RunImportsWithoutFatal(s, paths, onDisk, read);
    MergeAllMaps(s, fs);
    OverlayLastWins(s.settings.dots, fs, DotsOf, k, j);
  }

  lemma LaterImportWinsProfile<Dot, DotOverride>(s: SettingsValue<Dot, DotOverride>, paths: seq<Path>, onDisk: Path -> bool,
                                                 read: Path -> Loaded<ImportedSettings<Dot, DotOverride>>, name: string, j: nat)
    requires NoFatal(paths, onDisk, read)
    requires var fs := Fragments(paths, onDisk, read);
      && j < |fs| && name in fs[j].profiles
      && forall i :: j < i < |fs| ==> name !in fs[i].profiles
    ensures var profiles := RunImports(s, paths, onDisk, read).settings.profiles;
      name in profiles && profiles[name] == Fragments(paths, onDisk, read)[j].profiles[name]
  {
    var fs := Fragments(paths, onDisk, read);
    RunImportsWithoutFatal(s, paths, onDisk, read);
    MergeAllMaps(s, fs);
    OverlayLastWins(s.profiles, fs, ProfilesOf, name, j);
  }

  /**
   * The first fatal file ends the pass with its error; the settings keep the
   * merges done before it and the diagnostics emitted before it.
   */
  lemma RunImportsFirstFatal<Dot, DotOverride>(s: SettingsValue<Dot, DotOverride>, paths: seq<Path>,
                                               onDisk: Path -> bool,
                                               read: Path -> Loaded<ImportedSettings<Dot, DotOverride>>, j: nat)
    requires j < |paths| && NoFatal(paths[..j], onDisk, read) && Fatal(paths[j], onDisk, read)
    ensures var r := RunImports(s, paths, onDisk, read);
      && r.failure == Some(ConfigSource(paths[j]))
      && r.settings == MergeAll(s, Fragments(paths[..j], onDisk, read))
      && r.log == RunImports(s, paths[..j], onDisk, read).log
  {
    RunImportsWithoutFatal(s, paths[..j], onDisk, read);
    RunImportsNext(s, paths, onDisk, read, j);
    RunImportsStops(s, paths, onDisk, read, j + 1);
  }

  /** When no import file exists, the pass succeeds, changes nothing and reports each path once, in order. */
  lemma {:induction false} RunImportsAllMissing<Dot, DotOverride>(s: SettingsValue<Dot, DotOverride>, paths: seq<Path>,
                                                                  onDisk: Path -> bool,
                                                                  read: Path -> Loaded<ImportedSettings<Dot, DotOverride>>)
    requires forall i :: 0 <= i < |paths| ==> !onDisk(paths[i])
    ensures var r := RunImports(s, paths, onDisk, read);
      && r.failure.None? && r.settings == s
      && |r.log| == |paths|
      && forall i :: 0 <= i < |paths| ==> r.log[i] == ImportNotFound(paths[i])
    decreases |paths|
  {
    if paths != [] {
      RunImportsAllMissing(s, paths[..|paths| - 1], onDisk, read);
    }
  }

  /**
   * Which files are read, which diagnostics appear and whether the pass
   * fails depend on the path list alone, not on the settings being merged
   * into: imports a fragment appends are never consulted.
   */
  lemma {:induction false} RunImportsIgnoresSettings<Dot, DotOverride>(s1: SettingsValue<Dot, DotOverride>,
                                                                       s2: SettingsValue<Dot, DotOverride>,
                                                                       paths: seq<Path>, onDisk: Path -> bool,
                                                                       read: Path -> Loaded<ImportedSettings<Dot, DotOverride>>)
    ensures RunImports(s1, paths, onDisk, read).log == RunImports(s2, paths, onDisk, read).log
    ensures RunImports(s1, paths, onDisk, read).failure == RunImports(s2, paths, onDisk, read).failure
    decreases |paths|
  {
    if paths != [] {
      RunImportsIgnoresSettings(s1, s2, paths[..|paths| - 1], onDisk, read);
    }
  }

  /**
   * `merge_imports` as a value: snapshot and anchor the entry imports, then
   * run the loop over that snapshot. A panic in the snapshot leaves the
   * settings as they were and emits nothing.
   */
  function ImportPass<Dot, DotOverride>(s: SettingsValue<Dot, DotOverride>, home: Option<Path>, onDisk: Path -> bool,
                                        read: Path -> Loaded<ImportedSettings<Dot, DotOverride>>)
    : (r: Pass<Dot, DotOverride>)
    ensures r.settings.dotfilesDir == s.dotfilesDir && r.settings.gpgUserId == s.gpgUserId
    ensures r.failure.Some? ==> r.failure.value.ConfigSource? || r.failure.value.UnwrapPanic?
    ensures r.failure.Some? && r.failure.value.UnwrapPanic? ==> r.settings == s && r.log == []
    ensures |r.log| <= |s.imports|
  {
    match ResolveImportPaths(s.imports, DotfilesPath(s.dotfilesDir, home, onDisk))
    case Err(e) => Pass(s, [], Some(e))
    case Ok(paths) => RunImports(s, paths, onDisk, read)
  }

  /**
   * A fragment's own imports are appended but not loaded in the same pass,
   * even one that would be fatal; and absolute entries alone never need the
   * dotfiles path, so a missing home does not matter.
   */
  lemma FragmentImportNotLoaded<Dot, DotOverride>(s: SettingsValue<Dot, DotOverride>, onDisk: Path -> bool,
                                                  read: Path -> Loaded<ImportedSettings<Dot, DotOverride>>, p: Path, q: Path)
    requires s.imports == [ImportPath(p)] && p.absolute
    requires Loads(p, onDisk, read) && read(p).value.imports == [ImportPath(q)]
    requires Fatal(q, onDisk, read)
    ensures var r := ImportPass(s, None, onDisk, read);
      && r.failure.None? && r.log == []
      && r.settings.imports == [ImportPath(p), ImportPath(q)]
  {
    assert s.imports[..0] == [];
    assert ResolveImportPaths(s.imports[..0], Err(HomeNotFound)) == Ok([]);
    assert [] + [p] == [p];
    assert ResolveImportPaths(s.imports, DotfilesPath(s.dotfilesDir, None, onDisk)) == Ok([p]);
    assert [p][..0] == [];
    assert RunImports(s, [p], onDisk, read) == Pass(Merge(s, read(p).value), [], None);
  }

  /** With an empty import list the pass succeeds and changes nothing. */
  lemma ImportPassEmpty<Dot, DotOverride>(s: SettingsValue<Dot, DotOverride>, home: Option<Path>, onDisk: Path -> bool,
                                          read: Path -> Loaded<ImportedSettings<Dot, DotOverride>>)
    requires s.imports == []
    ensures ImportPass(s, home, onDisk, read) == Pass(s, [], None)
  {
  }

  /**
   * Exactly the imports present on entry are processed, each once: without
   * a fatal file every entry either merges a fragment or yields one
   * diagnostic, while the imports the fragments bring are only appended.
   */
  lemma SinglePass<Dot, DotOverride>(s: SettingsValue<Dot, DotOverride>, home: Option<Path>, onDisk: Path -> bool,
                                     read: Path -> Loaded<ImportedSettings<Dot, DotOverride>>, paths: seq<Path>)
    requires ResolveImportPaths(s.imports, DotfilesPath(s.dotfilesDir, home, onDisk)) == Ok(paths)
    requires NoFatal(paths, onDisk, read)
    ensures var r := ImportPass(s, home, onDisk, read); var fs := Fragments(paths, onDisk, read);
      && r.failure.None?
      && |r.log| + |fs| == |s.imports|
      && r.settings.imports == s.imports + Concat(fs, ImportsOf)
  {
    RunImportsWithoutFatal(s, paths, onDisk, read);
    MergeAllLists(s, Fragments(paths, onDisk, read));
  }
}
