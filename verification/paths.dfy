/** Small shared vocabulary: optional values, results, and file-system paths. */
module Wrappers {

  datatype Option<+T> = None | Some(value: T)

  datatype Result<+T, +E> = Ok(value: T) | Err(error: E)
}

/** File-system paths as the configuration loader sees them. */
module Paths {

  /** A path: whether it is rooted, and its components in order. */
  datatype Path = Path(absolute: bool, parts: seq<string>)

  /** `PathBuf::join`: an absolute argument replaces the base, a relative one extends it. */
  function Join(base: Path, p: Path): (r: Path)
    ensures p.absolute ==> r == p
    ensures !p.absolute ==> r.absolute == base.absolute && |r.parts| == |base.parts| + |p.parts|
    ensures !p.absolute ==> r.parts[..|base.parts|] == base.parts && r.parts[|base.parts|..] == p.parts
  {
    if p.absolute then p else Path(base.absolute, base.parts + p.parts)
  }
}
