/** `CacheMixin.save` (`src/fr24/base.py`): writes a result's table to a
    given file, or to the result's own cache path, in parquet or csv. */
module Save {
  import opened Wrappers
  import opened Paths

  datatype SaveError = UnsupportedFormat(format: string) | NoName(PathError)

  /** `file or self.file_path`: paths and file-like objects are always
      truthy, so only a missing file falls back to the cache path. */
  function SaveTarget(file: Option<Target>, filePath: Path): (t: Target)
    ensures file.Some? ==> t == file.value
    ensures file.None? ==> t == PlainPath(filePath)
  {
    file.GetOr(PlainPath(filePath))
  }

  /** What `save` finally writes to: a path gets the format's suffix in
      place of its own, a file-like object is used as it is; an unsupported
      format, or a path without a name, fails. */
  function SaveDestination(target: Target, format: string): (r: Result<Target, SaveError>)
    ensures r.IsErr() <==> format !in {"parquet", "csv"} || (target.IsPath() && Name(target.path) == "")
    ensures format !in {"parquet", "csv"} ==> r == Err(UnsupportedFormat(format))
    ensures r.IsOk() && target.FileLike? ==> r.value == target
    ensures r.IsOk() && target.IsPath() ==>
      && r.value.IsPath() && r.value.PlainPath? == target.PlainPath?
      && Parent(r.value.path) == Parent(target.path)
      && Suffix(Name(r.value.path)) == "." + format
  {
    match FormatSuffix(format)
    case None => Err(UnsupportedFormat(format))
    case Some(suffix) =>
      match target
      case FileLike(_) => Ok(target)
      case PlainPath(p) =>
        (match WithSuffix(p, suffix)
         case Ok(q) => Ok(PlainPath(q))
         case Err(e) => Err(NoName(e)))
      case BarePath(p) =>
        (match WithSuffix(p, suffix)
         case Ok(q) => Ok(BarePath(q))
         case Err(e) => Err(NoName(e)))
  }

  /** Saving twice in the same format writes to the same place. */
  lemma SaveDestinationIdempotent(target: Target, format: string)
    requires SaveDestination(target, format).IsOk()
    ensures SaveDestination(SaveDestination(target, format).value, format) == SaveDestination(target, format)
  {
    var suffix := FormatSuffix(format).value;
    if target.IsPath() {
      WithSuffixIdempotent(target.path, suffix);
    }
  }

  /** `save(file, format=format)` on a result `self` whose cache path is
      `filePath`: the parent directory of a path target is created first,
      whatever happens next; the table is written only when the format is
      supported; on success the result itself is returned. */
  method SaveResult<R>(fs: FileSystem, self: R, file: Option<Target>, filePath: Path, format: string)
      returns (r: Result<R, SaveError>)
    modifies fs
    ensures var t := SaveTarget(file, filePath);
      fs.dirs == old(fs.dirs) + (if t.IsPath() then Ancestors(Parent(t.path)) else {})
    ensures r.IsOk() <==> SaveDestination(SaveTarget(file, filePath), format).IsOk()
    ensures r.IsOk() ==> r.value == self
    ensures r.IsOk() ==> fs.writes == old(fs.writes) + [Write(SaveDestination(SaveTarget(file, filePath), format).value, format)]
    ensures r.IsErr() ==> fs.writes == old(fs.writes)
    ensures r.IsErr() ==> r.ErrValue() == SaveDestination(SaveTarget(file, filePath), format).ErrValue()
  {
    var target := SaveTarget(file, filePath);
    if target.IsPath() {
      fs.MakeDirs(Parent(target.path));
    }
    var destination := SaveDestination(target, format);
    if destination.IsErr() {
      return Err(destination.error);
    }
    fs.WriteTable(destination.value, format);
    return Ok(self);
  }
}
