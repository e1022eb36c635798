/**
 * The typed settings model: the root settings, the imported fragment, the
 * active profile, named profiles, import entries, and the errors and
 * diagnostics the loader produces. `Dot` and `DotOverride` belong to the
 * symlink engine and stay opaque type parameters.
 */
module SettingsModel {
  import opened Wrappers
  import opened Paths

  /** The always-enabled profile: dots, hooks and template variable files. */
  datatype ActiveProfile<Dot> = ActiveProfile(
    dots: map<string, Dot>,
    prehooks: seq<string>,
    posthooks: seq<string>,
    vars: seq<Path>)

  /** A named, opt-in profile overriding the active one. */
  datatype Profile<DotOverride> = Profile(
    dots: map<string, DotOverride>,
    extraProfiles: seq<string>,
    prehooks: seq<string>,
    posthooks: seq<string>,
    vars: seq<Path>)

  /** One entry of an `import` list. */
  datatype ImportPath = ImportPath(path: Path)

  /** An imported fragment: the root settings without `dotfiles_dir` and `gpg_user_id`. */
  datatype ImportedSettings<Dot, DotOverride> = ImportedSettings(
    settings: ActiveProfile<Dot>,
    profiles: map<string, Profile<DotOverride>>,
    imports: seq<ImportPath>)

  /** The root settings as a value (the parsed root file, and the state of a `Settings` object). */
  datatype SettingsValue<Dot, DotOverride> = SettingsValue(
    dotfilesDir: Path,
    gpgUserId: Option<string>,
    settings: ActiveProfile<Dot>,
    profiles: map<string, Profile<DotOverride>>,
    imports: seq<ImportPath>)

  /**
   * Outcome of reading and deserializing one file: reading it or its TOML
   * syntax failed, it did not fit the schema, or it gave a value.
   */
  datatype Loaded<T> = SourceError | SchemaError | Parsed(value: T)

  datatype Error =
    | ConfigDirNotFound              // no standard configuration directory
    | ConfigNotFound(path: Path)     // the root file does not exist
    | ConfigSource(path: Path)       // reading or TOML syntax failed (the `?` on `Config::merge`)
    | ConfigFormat                   // the root file does not fit the strict schema
    | HomeNotFound                   // no home directory
    | DotfilesDirMissing(path: Path) // the resolved dotfiles directory does not exist
    | UnwrapPanic(cause: Error)      // the `unwrap()` on the dotfiles path aborted the process

  /** One line on the error channel during import resolution. */
  datatype Diagnostic =
    | ImportNotFound(path: Path)     // "Unable to find bombadil import file"
    | ImportLoadFailed(path: Path)   // "Error loading settings from"
}
