/** `write_table` and `to_unix_timestamp` (`src/fr24/utils.py`). */
module TableUtils {
  import opened Wrappers
  import opened Paths

  datatype WriteError = UnsupportedFormat(format: string) | NoName(PathError)

  /** What `write_table` writes to, when it gets that far: a bare path gets
      the format's suffix (an unsupported format is refused right away); any
      other target is kept exactly as given. */
  function WriteDestination(file: Target, format: string): (r: Result<Target, WriteError>)
    ensures file.BarePath? && format !in {"parquet", "csv"} ==> r == Err(UnsupportedFormat(format))
    ensures !file.BarePath? ==> r == Ok(file)
    ensures file.BarePath? && format in {"parquet", "csv"} ==>
      (r.IsOk() <==> Name(file.path) != "")
    ensures file.BarePath? && r.IsOk() ==>
      && r.value.BarePath?
      && Parent(r.value.path) == Parent(file.path)
      && Suffix(Name(r.value.path)) == "." + format
  {
    match file
    case BarePath(p) =>
      (match FormatSuffix(format)
       case Some(suffix) =>
         (match WithSuffix(p, suffix)
          case Ok(q) => Ok(BarePath(q))
          case Err(e) => Err(NoName(e)))
       case None => Err(UnsupportedFormat(format)))
    case _ => Ok(file)
  }

  /** Writing to the place a first write went changes the place no more. */
  lemma WriteDestinationIdempotent(file: Target, format: string)
    requires WriteDestination(file, format).IsOk()
    ensures WriteDestination(WriteDestination(file, format).value, format) == WriteDestination(file, format)
  {
    if file.BarePath? {
      WithSuffixIdempotent(file.path, FormatSuffix(format).value);
    }
  }

  /** `write_table(result, file, format=format)`: a bare path with an
      unsupported format fails before anything is touched; otherwise the
      parent directory of a path is created, and only then is an
      unsupported format refused. */
  method WriteTable(fs: FileSystem, file: Target, format: string) returns (r: Result<(), WriteError>)
    modifies fs
    ensures WriteDestination(file, format).IsErr() ==>
      fs.dirs == old(fs.dirs) && r.ErrValue() == WriteDestination(file, format).ErrValue()
    ensures WriteDestination(file, format).IsOk() ==>
      var t := WriteDestination(file, format).value;
      fs.dirs == old(fs.dirs) + (if t.IsPath() then Ancestors(Parent(t.path)) else {})
    ensures r.IsOk() <==> WriteDestination(file, format).IsOk() && format in {"parquet", "csv"}
    ensures r.IsOk() ==> fs.writes == old(fs.writes) + [Write(WriteDestination(file, format).value, format)]
    ensures r.IsErr() ==> fs.writes == old(fs.writes)
    ensures WriteDestination(file, format).IsOk() && format !in {"parquet", "csv"} ==> r == Err(UnsupportedFormat(format))
  {
    var destination := WriteDestination(file, format);
    if destination.IsErr() {
      return Err(destination.error);
    }
    var target := destination.value;
    if target.IsPath() {
      fs.MakeDirs(Parent(target.path));
    }
    if format == "parquet" || format == "csv" {
      fs.WriteTable(target, format);
      return Ok(());
    }
    return Err(UnsupportedFormat(format));
  }

  /** The text or date-time a caller may give as a timestamp. */
  type TimeText(==)

  /** A timestamp-like argument. */
  datatype TimestampLike = UnixSeconds(seconds: int) | NoTimestamp | Parsable(text: TimeText)

  /** `to_unix_timestamp`: integers and `None` pass through unchanged; any
      other form is converted by `parse`. */
  function ToUnixTimestamp(t: TimestampLike, parse: TimeText -> int): (r: Option<int>)
    ensures t.UnixSeconds? ==> r == Some(t.seconds)
    ensures t.NoTimestamp? ==> r == None
    ensures t.Parsable? ==> r == Some(parse(t.text))
  {
    match t
    case UnixSeconds(s) => Some(s)
    case NoTimestamp => None
    case Parsable(x) => Some(parse(x))
  }

  function FromOption(t: Option<int>): TimestampLike {
    match t
    case Some(s) => UnixSeconds(s)
    case None => NoTimestamp
  }

  /** Converting an already converted timestamp changes nothing. */
  lemma ToUnixTimestampIdempotent(t: TimestampLike, parse: TimeText -> int)
    ensures ToUnixTimestamp(FromOption(ToUnixTimestamp(t, parse)), parse) == ToUnixTimestamp(t, parse)
  {
  }
}
