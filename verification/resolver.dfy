/**
 * Path resolution: where the root configuration file lives, where the
 * dotfiles directory is, and how each import entry is anchored. The host's
 * configuration and home directories and the file system's `exists` are
 * parameters (`configDir`, `home`, `onDisk`).
 */
module PathResolver {
  import opened Wrappers
  import opened Paths
  import opened SettingsModel

  /** The fixed base name of the root configuration file. */
  const CONFIG_FILE_NAME: string := "bombadil.toml"

  /** `bombadil_config_xdg_path`: the configuration directory followed by the fixed file name. */
  function ConfigXdgPath(configDir: Option<Path>): (r: Result<Path, Error>)
    ensures configDir.None? <==> r.Err?
    ensures r.Err? ==> r.error == ConfigDirNotFound
    ensures r.Ok? ==> r.value.absolute == configDir.value.absolute
    ensures r.Ok? ==> r.value.parts == configDir.value.parts + [CONFIG_FILE_NAME]
  {
    match configDir
    case None => Err(ConfigDirNotFound)
    case Some(dir) => Ok(Join(dir, Path(false, [CONFIG_FILE_NAME])))
  }

  /**
   * `get_dotfiles_path`: no home directory is an error even for an absolute
   * `dotfilesDir`; an absolute one is kept, a relative one is put under home;
   * the result must exist.
   */
  function DotfilesPath(dotfilesDir: Path, home: Option<Path>, onDisk: Path -> bool): (r: Result<Path, Error>)
    ensures home.None? ==> r == Err(HomeNotFound)
    ensures home.Some? && dotfilesDir.absolute ==>
      r == if onDisk(dotfilesDir) then Ok(dotfilesDir) else Err(DotfilesDirMissing(dotfilesDir))
    ensures home.Some? && !dotfilesDir.absolute ==>
      var candidate := Path(home.value.absolute, home.value.parts + dotfilesDir.parts);
      r == if onDisk(candidate) then Ok(candidate) else Err(DotfilesDirMissing(candidate))
    ensures r.Ok? ==> onDisk(r.value)
  {
    if home.None? then Err(HomeNotFound)
    else
      var path := if dotfilesDir.absolute then dotfilesDir else Join(home.value, dotfilesDir);
      if !onDisk(path) then Err(DotfilesDirMissing(path)) else Ok(path)
  }

  /** The absolute or dotfiles-anchored path of one import entry, given the resolved dotfiles path. */
  function Anchor(p: Path, dotfiles: Result<Path, Error>): Path
    requires p.absolute || dotfiles.Ok?
  {
    if p.absolute then p else Join(dotfiles.value, p)
  }

  /**
   * The snapshot of import paths taken before any import is loaded. The
   * dotfiles path is only needed, and unwrapped, for a relative entry: if it
   * failed, that unwrap panics and no path list is produced.
   */
  function ResolveImportPaths(imports: seq<ImportPath>, dotfiles: Result<Path, Error>): (r: Result<seq<Path>, Error>)
    ensures r.Ok? <==> dotfiles.Ok? || forall i :: 0 <= i < |imports| ==> imports[i].path.absolute
    ensures r.Err? ==> dotfiles.Err? && r.error == UnwrapPanic(dotfiles.error)
    ensures r.Ok? ==> |r.value| == |imports|
    ensures r.Ok? ==> forall i :: 0 <= i < |imports| ==>
      (imports[i].path.absolute ==> r.value[i] == imports[i].path) &&
      (!imports[i].path.absolute ==> r.value[i].absolute == dotfiles.value.absolute &&
                                     r.value[i].parts == dotfiles.value.parts + imports[i].path.parts)
    decreases |imports|
  {
    if imports == [] then Ok([])
    else
      var last := imports[|imports| - 1].path;
      match ResolveImportPaths(imports[..|imports| - 1], dotfiles)
      case Err(e) => Err(e)
      case Ok(init) =>
        if last.absolute || dotfiles.Ok? then Ok(init + [Anchor(last, dotfiles)])
        else Err(UnwrapPanic(dotfiles.error))
  }
}
