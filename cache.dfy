/** The file-based cache (`src/fr24/cache.py`): under its root it keeps
    `flight_list/{kind}/{ident}`, `playback/{flight_id}` and
    `feed/{timestamp}`, and creating a cache creates the four directories
    those files live in. */
module FileCache {
  import opened Paths
  import Service

  /** `base_dir/flight_list/kind`. */
  function FlightListDir(base: Path, kind: string): (p: Path)
    requires kind != ""
    ensures p.parts == base.parts + ["flight_list", kind]
  {
    Join(Join(base, "flight_list"), kind)
  }

  /** `base_dir/playback`. */
  function PlaybackDir(base: Path): (p: Path)
    ensures p.parts == base.parts + ["playback"]
  {
    Join(base, "playback")
  }

  /** `base_dir/feed`. */
  function FeedDir(base: Path): (p: Path)
    ensures p.parts == base.parts + ["feed"]
  {
    Join(base, "feed")
  }

  /** The four directories a cache makes, in the order it makes them. */
  function CacheLeaves(base: Path): seq<Path> {
    [FlightListDir(base, "reg"), FlightListDir(base, "flight"), PlaybackDir(base), FeedDir(base)]
  }

  /** Every directory `mkdir(parents=True)` creates for a list of paths. */
  function AllAncestors(ps: seq<Path>): set<Path> {
    if ps == [] then {} else AllAncestors(ps[..|ps| - 1]) + Ancestors(ps[|ps| - 1])
  }

  /** The directories that exist once a cache rooted at `base` is made. */
  function CacheDirs(base: Path): set<Path> {
    AllAncestors(CacheLeaves(base))
  }

  /** `q` is `p` or a directory above it. */
  predicate IsAncestor(q: Path, p: Path) {
    1 <= |q.parts| <= |p.parts| && q.parts == p.parts[..|q.parts|]
  }

  lemma {:induction false} AllAncestorsCover(ps: seq<Path>)
    ensures forall p :: p in ps && p.parts != [] ==> p in AllAncestors(ps)
  {
    if ps != [] {
      var init := ps[..|ps| - 1];
      AllAncestorsCover(init);
      forall p | p in ps && p.parts != []
        ensures p in AllAncestors(ps)
      {
        if p != ps[|ps| - 1] {
          var k :| 0 <= k < |ps| && ps[k] == p;
          assert init[k] == p;
        }
      }
    }
  }

  lemma {:induction false} AllAncestorsBounded(ps: seq<Path>)
    ensures forall q :: q in AllAncestors(ps) ==> exists k :: 0 <= k < |ps| && IsAncestor(q, ps[k])
  {
    if ps != [] {
      var init := ps[..|ps| - 1];
      AllAncestorsBounded(init);
      forall q | q in AllAncestors(ps)
        ensures exists k :: 0 <= k < |ps| && IsAncestor(q, ps[k])
      {
        if q in AllAncestors(init) {
          var k :| 0 <= k < |init| && IsAncestor(q, init[k]);
          assert ps[k] == init[k];
        } else {
          assert IsAncestor(q, ps[|ps| - 1]);
        }
      }
    }
  }

  lemma {:induction false} AncestorsWithin(ps: seq<Path>, k: nat)
    requires k < |ps|
    ensures Ancestors(ps[k]) <= AllAncestors(ps)
  {
    if k < |ps| - 1 {
      AncestorsWithin(ps[..|ps| - 1], k);
      assert ps[..|ps| - 1][k] == ps[k];
    }
  }

  /** A cache holds the four directories, and nothing but them and the
      directories above them. */
  lemma CacheDirsShape(base: Path)
    ensures forall p :: p in CacheLeaves(base) ==> p in CacheDirs(base)
    ensures forall q :: q in CacheDirs(base) ==> exists k :: 0 <= k < 4 && IsAncestor(q, CacheLeaves(base)[k])
  {
    AllAncestorsCover(CacheLeaves(base));
    AllAncestorsBounded(CacheLeaves(base));
  }

  /** Every cached file lands in one of the cache's directories. */
  lemma FilesInCacheDirs(base: Path, r: Service.FlightListResult, pb: Service.PlaybackResult, lf: Service.LiveFeedResult)
    requires r.baseDir == base && r.request.kind in {"reg", "flight"}
    requires pb.baseDir == base && Service.FlightIdText(pb.flightId) != ""
    requires lf.baseDir == base
    ensures Parent(Service.FlightListFilePath(r)) in CacheDirs(base)
    ensures Parent(Service.PlaybackFilePath(pb)) in CacheDirs(base)
    ensures Parent(Service.LiveFeedFilePath(lf)) in CacheDirs(base)
  {
    CacheDirsShape(base);
    var fl := Service.FlightListFilePath(r);
    var leaf := FlightListDir(base, r.request.kind);
    assert leaf in CacheLeaves(base);
    assert Parent(fl).parts == fl.parts[..|fl.parts| - 1];
    if r.request.ident != "" {
      assert Parent(fl) == leaf;
    } else {
      // An empty ident names the kind's directory, whose parent lies above it.
      var k := |leaf.parts| - 1;
      assert Parent(fl) == Path(leaf.parts[..k]);
      assert Parent(fl) in Ancestors(leaf);
      AncestorsWithin(CacheLeaves(base), 0);
    }
    var p := Service.PlaybackFilePath(pb);
    assert Parent(p).parts == p.parts[..|p.parts| - 1];
    assert Parent(p) == PlaybackDir(base);
    var f := Service.LiveFeedFilePath(lf);
    assert Parent(f).parts == f.parts[..|f.parts| - 1];
    assert Parent(f) == FeedDir(base);
  }

  /** The cache of `src/fr24/cache.py`. */
  class Cache {
    const baseDir: Path

    /** `Cache(base_dir)`: `__post_init__` makes the four directories, with
        their parents, and leaves every existing directory in place. */
    constructor (baseDir: Path, fs: FileSystem)
      modifies fs
      ensures this.baseDir == baseDir
      ensures fs.dirs == old(fs.dirs) + CacheDirs(baseDir)
      ensures fs.writes == old(fs.writes)
    {
      this.baseDir := baseDir;
      new;
      var paths := [FlightListPath("reg"), FlightListPath("flight"), PlaybackPath(), FeedPath()];
      assert paths == CacheLeaves(baseDir);
      for k := 0 to |paths|
        invariant fs.dirs == old(fs.dirs) + AllAncestors(paths[..k])
        invariant fs.writes == old(fs.writes)
      {
        assert paths[..k + 1][..k] == paths[..k];
        fs.MakeDirs(paths[k]);
      }
      assert paths[..|paths|] == paths;
    }

    /** `Cache.default()`: a cache rooted at `PATH_CACHE`. */
    static method Default(pathCache: Path, fs: FileSystem) returns (c: Cache)
      modifies fs
      ensures fresh(c) && c.baseDir == pathCache
      ensures fs.dirs == old(fs.dirs) + CacheDirs(pathCache)
      ensures fs.writes == old(fs.writes)
    {
      c := new Cache(pathCache, fs);
    }

    /** `_flight_list_path(kind)`. */
    function FlightListPath(kind: string): (p: Path)
      requires kind != ""
      ensures p.parts == baseDir.parts + ["flight_list", kind]
    {
      FlightListDir(baseDir, kind)
    }

    /** `_playback_path()`. */
    function PlaybackPath(): (p: Path)
      ensures p.parts == baseDir.parts + ["playback"]
    {
      PlaybackDir(baseDir)
    }

    /** `_feed_path()`. */
    function FeedPath(): (p: Path)
      ensures p.parts == baseDir.parts + ["feed"]
    {
      FeedDir(baseDir)
    }
  }

  /** The four directories are distinct. */
  lemma CacheLeavesDistinct(base: Path)
    ensures forall i, j :: 0 <= i < j < 4 ==> CacheLeaves(base)[i] != CacheLeaves(base)[j]
  {
    var n := |base.parts|;
    var ls := CacheLeaves(base);
    assert ls[0].parts[n + 1] == "reg" && ls[1].parts[n + 1] == "flight";
    assert ls[2].parts[n] == "playback" && ls[3].parts[n] == "feed";
    assert ls[0].parts[n] == "flight_list" && ls[1].parts[n] == "flight_list";
  }
}
