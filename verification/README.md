# Bombadil settings resolution, modelled in Dafny

This project models how the dotfile manager Bombadil (`toml-bombadil`) loads its
configuration. It covers `src/settings.rs`:

- **Locating the root file.** `Settings::bombadil_config_xdg_path` gives
  `<config dir>/bombadil.toml`.
- **The load decision tree.** `Settings::get` reports a missing configuration
  directory, a missing root file, a read failure or a format error.
  Only when the root file parses does it run the import pass.
- **Resolving the dotfiles directory.** `Settings::get_dotfiles_path`: an
  absolute `dotfiles_dir` is kept, a relative one is put under the home
  directory, and the result must exist.
- **The import pass.** `Settings::merge_imports` first snapshots the import
  list and anchors each relative entry on the dotfiles directory. It then
  loads each file in order:
  - a missing file, or one that does not fit the fragment schema, is
    skipped with one diagnostic;
  - a file that cannot be read, or is not valid TOML, ends the pass with an
    error;
  - every fragment that loads is merged at once.
- **The merge.** `Settings::merge` appends `prehooks`, `posthooks`, `vars`
  and `import`. It unions `dots` and `profiles`, and the fragment wins on a
  key collision. `dotfiles_dir` and `gpg_user_id` are never touched.

Modules:

- `Paths` (paths.dfy): a path is an `absolute` flag plus its components.
  `Join` follows `PathBuf::join`.
- `SettingsModel` (model.dfy): the settings datatypes, the errors and the
  diagnostics. `Dot` and `DotOverride` are type parameters.
- `MergeEngine` (merge.dfy): `Merge` as a function on values, its folds over
  several fragments, and their lemmas.
- `PathResolver` (resolver.dfy): the configuration path, the dotfiles path
  and the import-path snapshot.
- `ImportResolver` (imports.dfy): one import pass as a function on values
  (`ImportOne`, `RunImports`, `ImportPass`), and its lemmas.
- `SettingsLoader` (settings.dfy): the class `Settings`, whose fields are
  the Rust struct's. Its methods `Merge` and `MergeImports` update the object
  in place, and each is proved equal to the corresponding function on
  `View()`. The static method `Get` builds the object and is proved against
  the function `Load`.

Environment and file-system access are parameters:

- `configDir` and `home` stand for `dirs::config_dir()` and `dirs::home_dir()`;
- `onDisk` stands for `Path::exists`;
- `readRoot` and `readImport` stand for reading and deserializing one file,
  as `Config::merge` followed by `try_into`. Their outcome is a `Loaded`
  value: `SourceError` (read or TOML failure), `SchemaError` (the
  deserialization failed) or `Parsed(value)`.

Two parsers stand for the two schemas: the root schema is strict
(`deny_unknown_fields`) and the fragment schema is not. That strictness shows
up only as which files give `SchemaError`.

Three behaviours of the source are easy to miss; the model follows the source in each:

- An import file that cannot be read, or whose TOML syntax is invalid, is
  fatal. It makes `merge_imports` return `Err` through the `?` at
  src/settings.rs:140, with the merges done so far kept in the object. Only a
  schema mismatch is skipped with a diagnostic.
- `Settings::get` never returns a missing home or dotfiles directory as an
  error. `get_dotfiles_path` is only reached through the `unwrap()` at
  src/settings.rs:132, and only for a relative import. A missing directory
  then panics (`UnwrapPanic`). With no relative import, it is never checked
  (`LoadWithoutImports`, `LoadRelativeImportPanics`).
- `get_dotfiles_path` fails without a home directory even when
  `dotfiles_dir` is absolute (src/settings.rs:189-192).

## Model

| member | source | states |
|---|---|---|
| Paths.Join | src/settings.rs:194-198 | joining a relative path appends its components to the base and keeps the base's rootedness; an absolute argument replaces the base |
| MergeEngine.MergePolicy | src/settings.rs:164-177 | after a merge, each of prehooks, posthooks, vars and imports is the old list followed by the fragment's; dots and profiles hold every old and every fragment key, with the fragment's value on each fragment key and the old value on every other key; dotfiles dir and gpg id are unchanged |
| MergeEngine.MergeTwice | src/settings.rs:164-177 | merging the same fragment twice holds the fragment's lists twice (no deduplication) while dots and profiles equal those after one merge |
| MergeEngine.MergeLastWins | src/settings.rs:175 | merging A then B gives B's dot on a colliding key, B then A gives A's: merge is order-dependent |
| MergeEngine.MergeLastWinsProfile | src/settings.rs:176 | the same order dependence for colliding profile names |
| MergeEngine.ProfileReplacedWhole | src/settings.rs:176 | a colliding profile is replaced by the fragment's whole profile, with no field-level sub-merge |
| MergeEngine.MergeAllLists | src/settings.rs:137-177 | merging fragments in order keeps the identity fields and makes each list the old one followed by the concatenation of all fragments' lists |
| MergeEngine.MergeAllMaps | src/settings.rs:137-177 | merging fragments in order makes dots and profiles the old map overridden by each fragment's map in turn |
| MergeEngine.OverlayLastWins | src/settings.rs:175-176 | in such an overlay, a key takes the value of the last fragment that defines it |
| MergeEngine.OverlayUntouched | src/settings.rs:175-176 | a key no fragment defines keeps its old presence and value |
| PathResolver.ConfigXdgPath | src/settings.rs:180-186 | fails with ConfigDirNotFound exactly when there is no config dir, otherwise gives the config dir followed by `bombadil.toml` |
| PathResolver.DotfilesPath | src/settings.rs:188-205 | no home is an error even for an absolute dotfiles dir; an absolute dir is kept, a relative one is appended to home; the result must exist, else DotfilesDirMissing of the candidate; a returned path exists |
| PathResolver.ResolveImportPaths | src/settings.rs:124-135 | the snapshot succeeds iff the dotfiles path resolved or every import is absolute; it then has one path per import, each absolute import unchanged and each relative one appended to the dotfiles path; otherwise it is the unwrap panic with the dotfiles error |
| ImportResolver.ImportOne | src/settings.rs:138-158 | a loadable fragment is merged with no diagnostic; a missing file or schema failure leaves the settings unchanged with exactly one diagnostic naming the path; an unreadable file fails with ConfigSource and no diagnostic |
| ImportResolver.RunImports | src/settings.rs:137-161 | the loop emits at most one diagnostic per path, only fails with ConfigSource, and never changes dotfiles dir or gpg id |
| ImportResolver.RunImportsNext | src/settings.rs:137-159 | the pass over one more path is the pass so far followed by one loop iteration |
| ImportResolver.RunImportsStops | src/settings.rs:140 | once the pass has failed, later paths are not looked at |
| ImportResolver.RunImportsWithoutFatal | src/settings.rs:137-161 | without a fatal file the pass returns Ok, the settings are the old ones with every loaded fragment merged in list order, the log is exactly one diagnostic per path that does not load, in list order, and diagnostics plus loaded fragments number exactly the paths |
| ImportResolver.FragmentImportNotLoaded | src/settings.rs:124-147 | an import that a fragment brings is appended to the imports but not loaded in the same pass, even when loading it would be fatal; an import list of absolute paths never needs the home directory |
| ImportResolver.LaterImportWins | src/settings.rs:137-175 | on a dot name, the last loaded fragment defining it wins |
| ImportResolver.LaterImportWinsProfile | src/settings.rs:137-176 | on a profile name, the last loaded fragment defining it wins |
| ImportResolver.RunImportsFirstFatal | src/settings.rs:139-140 | the first unreadable file ends the pass with its ConfigSource error, keeping the earlier merges and diagnostics |
| ImportResolver.RunImportsAllMissing | src/settings.rs:152-158 | when no import file exists, the pass succeeds, the settings are unchanged and the log is one ImportNotFound per path, in order |
| ImportResolver.RunImportsIgnoresSettings | src/settings.rs:124-137 | diagnostics and failure depend on the path snapshot alone, so imports appended by fragments are never consulted |
| ImportResolver.ImportPass | src/settings.rs:123-162 | the whole pass keeps the identity fields, fails only with ConfigSource or the unwrap panic, leaves settings and log untouched on the panic, and emits at most one diagnostic per entry import |
| ImportResolver.ImportPassEmpty | src/settings.rs:123-162 | with an empty import list the pass succeeds and changes nothing |
| ImportResolver.SinglePass | src/settings.rs:124-137 | without a fatal file, exactly the entry imports are processed, each merging or yielding one diagnostic, while the fragments' imports are only appended |
| SettingsLoader.Settings.constructor | src/settings.rs:103-105 | the object holds the parsed root settings |
| SettingsLoader.Settings.Merge | src/settings.rs:164-177 | updating the fields in place gives MergeEngine.Merge of the old state and leaves dotfiles dir and gpg id unchanged |
| SettingsLoader.Settings.MergeImports | src/settings.rs:123-162 | the loop over the snapshot leaves the object, the diagnostics and the result exactly as ImportPass of the entry state says |
| SettingsLoader.Settings.Get | src/settings.rs:96-121 | the returned object, error and diagnostics are those of Load, and a returned object is fresh |
| SettingsLoader.Load | src/settings.rs:96-121 | config dir missing, then root file missing, then read failure, then format error, each returned with no diagnostic and no import looked at; a successful load keeps the root's dotfiles dir and gpg id; a missing home or dotfiles dir is never returned as an error |
| SettingsLoader.LoadWithoutImports | src/settings.rs:107-109 | a root file without imports loads exactly as parsed, whatever the home and dotfiles directories |
| SettingsLoader.LoadRelativeImportPanics | src/settings.rs:128-133 | a relative import with an unresolvable dotfiles path aborts the load through the unwrap before any import is read |
| SettingsLoader.LoadMergesImport | src/settings.rs:215-235 | a root with an absolute, existing dotfiles dir and one relative import defining a dot loads with the dotfiles dir kept and that dot present with the imported definition |

## Left out

- Parsing TOML and deserializing through the `config` and `serde` crates. Each read is an
  oracle returning `SourceError`, `SchemaError` or a value. Error detail strings are not
  modelled.
- `dirs::config_dir`, `dirs::home_dir` and `Path::exists` are parameters. The file system is
  taken as fixed during one load.
- The text and colouring of the messages written with `eprintln!`. Only which diagnostic is
  written, with its path, and how many, are modelled.
- The structure of `Dot` and `DotOverride`, which belong to the symlink engine. They are type
  parameters.
- A panic is modelled as the error value `UnwrapPanic`, not as process termination.
- The value of `BOMBADIL_CONFIG` is defined outside src/settings.rs. It is taken to be
  `bombadil.toml`, as the comments at src/settings.rs:95 and 179 say.
- The unit tests at src/settings.rs:208-242 use temporary directories and the symlink engine.
  `LoadMergesImport` states the first test's expected outcome over the abstract file system.
