/** File-system paths and the two effects the client has on a disk:
    creating directories (`mkdir(parents=True, exist_ok=True)`) and writing
    a table to a path or to a file-like object.

    A path is its sequence of parts; its suffix is derived from the last
    part by the rule of Python's `pathlib`: the text from the last dot on,
    when that dot is neither the first nor the last character. */
module Paths {
  import opened Wrappers

  datatype Path = Path(parts: seq<string>)

  /** `p / segment`; an empty segment adds nothing. */
  function Join(p: Path, segment: string): (r: Path)
    ensures segment != "" ==> |r.parts| == |p.parts| + 1 && r.parts[..|p.parts|] == p.parts
    ensures segment != "" ==> r.parts[|p.parts|] == segment
    ensures segment == "" ==> r == p
  {
    if segment == "" then p else Path(p.parts + [segment])
  }

  /** `p.name`: the last part, or "" for a path without parts. */
  function Name(p: Path): string {
    if p.parts == [] then "" else p.parts[|p.parts| - 1]
  }

  /** `p.parent`: the path without its last part. */
  function Parent(p: Path): Path {
    if p.parts == [] then p else Path(p.parts[..|p.parts| - 1])
  }

  /** The position of the last '.' of a name. */
  function LastDot(name: string): (i: Option<nat>)
    ensures i.Some? ==> i.value < |name| && name[i.value] == '.'
    ensures i.Some? ==> forall j :: i.value < j < |name| ==> name[j] != '.'
    ensures i.None? ==> forall j :: 0 <= j < |name| ==> name[j] != '.'
  {
    if name == [] then None
    else if name[|name| - 1] == '.' then Some(|name| - 1)
    else LastDot(name[..|name| - 1])
  }

  /** `PurePath.suffix` of a name. */
  function Suffix(name: string): (s: string)
    ensures s != "" ==> 0 < |name| - |s| && s == name[|name| - |s|..] && s[0] == '.' && |s| >= 2
  {
    match LastDot(name)
    case Some(i) => if 0 < i < |name| - 1 then name[i..] else ""
    case None => ""
  }

  /** A suffix the client asks for: a dot followed by a dot-free extension. */
  predicate ValidSuffix(s: string) {
    |s| >= 2 && s[0] == '.' && forall j :: 1 <= j < |s| ==> s[j] != '.' && s[j] != '/'
  }

  /** The suffix a table format gives a path: `.parquet` or `.csv`. */
  function FormatSuffix(format: string): (s: Option<string>)
    ensures s.Some? <==> format in {"parquet", "csv"}
    ensures s.Some? ==> ValidSuffix(s.value) && s.value == "." + format
  {
    if format == "parquet" then Some(".parquet")
    else if format == "csv" then Some(".csv")
    else None
  }

  datatype PathError = EmptyName

  /** `p.with_suffix(s)`: replaces the suffix of the last part, or adds `s`
      when there is none; a path whose name is empty is refused. */
  function WithSuffix(p: Path, s: string): (r: Result<Path, PathError>)
    requires ValidSuffix(s)
    ensures r.IsOk() <==> Name(p) != ""
    ensures r.IsOk() ==> Parent(r.value) == Parent(p) && Suffix(Name(r.value)) == s
  {
    var name := Name(p);
    if name == "" then Err(EmptyName)
    else
      var oldSuffix := Suffix(name);
      var stem := name[..|name| - |oldSuffix|];
      var newName := stem + s;
      assert LastDot(newName) == Some(|stem|) by {
        assert newName[|stem|] == '.';
        assert forall j :: |stem| < j < |newName| ==> newName[j] == s[j - |stem|];
        LastDotAt(newName, |stem|);
      }
      var r := Path(p.parts[..|p.parts| - 1] + [newName]);
      assert r.parts[..|r.parts| - 1] == p.parts[..|p.parts| - 1];
      Ok(r)
  }

  lemma LastDotAt(name: string, i: nat)
    requires i < |name| && name[i] == '.'
    requires forall j :: i < j < |name| ==> name[j] != '.'
    ensures LastDot(name) == Some(i)
    decreases |name|
  {
    if i < |name| - 1 {
      LastDotAt(name[..|name| - 1], i);
    }
  }

  /** Giving a path the suffix it already has changes nothing. */
  lemma WithSuffixIdempotent(p: Path, s: string)
    requires ValidSuffix(s) && Name(p) != ""
    ensures WithSuffix(WithSuffix(p, s).value, s) == WithSuffix(p, s)
  {
    var q := WithSuffix(p, s).value;
    var name := Name(q);
    var stem := name[..|name| - |s|];
    assert stem + s == name;
    assert q.parts[..|q.parts| - 1] + [name] == q.parts;
  }

  //
  // the disk
  //

  /** Where a table is written: a path, a path that still lacks its suffix
      (`BarePath`), or an already opened file-like object. */
  datatype Target = PlainPath(path: Path) | BarePath(path: Path) | FileLike(handle: nat) {
    /** `isinstance(file, Path)`: a bare path is a path too. */
    predicate IsPath() {
      PlainPath? || BarePath?
    }
  }

  datatype Write = Write(target: Target, format: string)

  /** A path and every path above it, as `mkdir(parents=True)` creates them. */
  function Ancestors(p: Path): (s: set<Path>)
    ensures p.parts != [] ==> p in s
    ensures forall q :: q in s ==> 1 <= |q.parts| <= |p.parts| && q.parts == p.parts[..|q.parts|]
  {
    assert p.parts[..|p.parts|] == p.parts;
    set k | 1 <= k <= |p.parts| :: Path(p.parts[..k])
  }

  /** The directories that exist and the tables written so far. */
  class FileSystem {
    var dirs: set<Path>
    var writes: seq<Write>

    constructor (dirs: set<Path>)
      ensures this.dirs == dirs && writes == []
    {
      this.dirs := dirs;
      writes := [];
    }

    /** `p.mkdir(parents=True, exist_ok=True)`. */
    method MakeDirs(p: Path)
      modifies this
      ensures dirs == old(dirs) + Ancestors(p)
      ensures writes == old(writes)
    {
      dirs := dirs + Ancestors(p);
    }

    /** Writes a table in the given format. */
    method WriteTable(target: Target, format: string)
      modifies this
      ensures writes == old(writes) + [Write(target, format)]
      ensures dirs == old(dirs)
    {
      writes := writes + [Write(target, format)];
    }
  }
}
