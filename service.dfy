/** The flight list, playback and live feed results of the service layer
    (`src/fr24/service.py`, and its older twin `src/fr24/core.py`): where each
    result is cached, how a collection of flight list pages is merged into
    one list, and how `fetch_all` walks the pages of a flight list. */
module Service {
  import opened Wrappers
  import opened Text
  import opened Paths

  //
  // flight lists
  //

  /** The part of a flight list response the client does not interpret. */
  type ListMetadata(==)
  /** The fields of a flight list entry the client does not interpret. */
  type EntryDetails(==)

  /** One flight of a flight list: its id (`identification.id`, nullable),
      its scheduled departure (`time.scheduled.departure`, nullable) and the
      rest. */
  datatype FlightListEntry = FlightListEntry(id: Option<string>, scheduledDeparture: Option<int>, details: EntryDetails)

  /** A parsed flight list response: `result.response.data` (nullable),
      `result.response.page.more`, and everything else. */
  datatype FlightList = FlightList(metadata: ListMetadata, data: Option<seq<FlightListEntry>>, more: bool)

  /** The request of a flight list call: by registration or flight number. */
  datatype FlightListRequest = FlightListRequest(kind: string, ident: string)

  /** A flight list result: the request, its parsed response (`to_dict()`)
      and the cache root. */
  datatype FlightListResult = FlightListResult(request: FlightListRequest, parsed: FlightList, baseDir: Path)

  /** `FlightListResult.file_path`: base_dir/flight_list/kind/IDENT; an
      empty ident adds no part, so the path is the kind's directory. */
  function FlightListFilePath(r: FlightListResult): (p: Path)
    requires r.request.kind != ""
    ensures r.request.ident != "" ==>
      p.parts == r.baseDir.parts + ["flight_list", r.request.kind, Upper(r.request.ident)]
    ensures r.request.ident == "" ==> p.parts == r.baseDir.parts + ["flight_list", r.request.kind]
  {
    Join(Join(Join(r.baseDir, "flight_list"), r.request.kind), Upper(r.request.ident))
  }

  /** Two flight lists share a cache file exactly when they have the same
      root and kind and their idents differ at most in letter case. */
  lemma FlightListFilePathInjective(r1: FlightListResult, r2: FlightListResult)
    requires r1.request.kind != "" && r2.request.kind != ""
    requires r1.baseDir == r2.baseDir
    ensures FlightListFilePath(r1) == FlightListFilePath(r2)
        <==> r1.request.kind == r2.request.kind && Upper(r1.request.ident) == Upper(r2.request.ident)
  {
    var n := |r1.baseDir.parts|;
    var p1, p2 := FlightListFilePath(r1), FlightListFilePath(r2);
    if p1 == p2 {
      assert p1.parts[n + 1] == r1.request.kind;
      assert p2.parts[n + 1] == r2.request.kind;
      assert |Upper(r1.request.ident)| == |r1.request.ident|;
      assert |Upper(r2.request.ident)| == |r2.request.ident|;
      if r1.request.ident != "" {
        assert p1.parts[n + 2] == Upper(r1.request.ident);
        assert p2.parts[n + 2] == Upper(r2.request.ident);
      }
    }
  }

  //
  // playback and live feed results
  //

  /** A flight id as callers pass it: an integer or hex text. */
  datatype FlightIdValue = IntId(number: int) | TextId(text: string)

  /** `str(flight_id)`. */
  function FlightIdText(f: FlightIdValue): (s: string)
    ensures f.TextId? ==> s == f.text
    ensures f.IntId? ==> ParseInt(s) == Some(f.number)
  {
    match f
    case IntId(n) => IntToStringRoundTrip(n); IntToString(n)
    case TextId(t) => t
  }

  datatype PlaybackResult = PlaybackResult(flightId: FlightIdValue, baseDir: Path)

  /** `PlaybackResult.file_path`: base_dir/playback/str(flight_id). */
  function PlaybackFilePath(r: PlaybackResult): (p: Path)
    ensures FlightIdText(r.flightId) != "" ==> p.parts == r.baseDir.parts + ["playback", FlightIdText(r.flightId)]
    ensures FlightIdText(r.flightId) == "" ==> p.parts == r.baseDir.parts + ["playback"]
  {
    Join(Join(r.baseDir, "playback"), FlightIdText(r.flightId))
  }

  /** Distinct integer flight ids are cached in distinct files. */
  lemma PlaybackFilePathInjective(r1: PlaybackResult, r2: PlaybackResult)
    requires r1.baseDir == r2.baseDir && r1.flightId.IntId? && r2.flightId.IntId?
    requires PlaybackFilePath(r1) == PlaybackFilePath(r2)
    ensures r1.flightId == r2.flightId
  {
    var n := |r1.baseDir.parts|;
    IntToStringRoundTrip(r1.flightId.number);
    assert PlaybackFilePath(r1).parts[n + 1] == FlightIdText(r1.flightId);
    assert PlaybackFilePath(r2).parts[n + 1] == FlightIdText(r2.flightId);
  }

  datatype LiveFeedResult = LiveFeedResult(timestamp: Option<int>, baseDir: Path)

  /** `str(timestamp)` of an optional integer: `None` prints as "None". */
  function OptionalIntText(t: Option<int>): (s: string)
    ensures t.Some? ==> ParseInt(s) == Some(t.value)
    ensures t.None? ==> s == "None"
  {
    match t
    case Some(i) => IntToStringRoundTrip(i); IntToString(i)
    case None => "None"
  }

  /** `LiveFeedResult.file_path`: base_dir/feed/str(timestamp). */
  function LiveFeedFilePath(r: LiveFeedResult): (p: Path)
    ensures p.parts == r.baseDir.parts + ["feed", OptionalIntText(r.timestamp)]
  {
    Join(Join(r.baseDir, "feed"), OptionalIntText(r.timestamp))
  }

  /** Distinct snapshots are cached in distinct files, and a snapshot
      without timestamp never shares a file with one that has one. */
  lemma LiveFeedFilePathInjective(r1: LiveFeedResult, r2: LiveFeedResult)
    requires r1.baseDir == r2.baseDir
    requires LiveFeedFilePath(r1) == LiveFeedFilePath(r2)
    ensures r1.timestamp == r2.timestamp
  {
    var n := |r1.baseDir.parts|;
    assert LiveFeedFilePath(r1).parts[n + 1] == OptionalIntText(r1.timestamp);
    assert LiveFeedFilePath(r2).parts[n + 1] == OptionalIntText(r2.timestamp);
  }

  //
  // merging a collection of flight list pages
  //

  /** The flights of a page; a page whose data is null contributes none. */
  function Flights(r: FlightListResult): seq<FlightListEntry> {
    r.parsed.data.GetOr([])
  }

  /** All flights of the results, result after result, in list order. */
  function AllFlights(rs: seq<FlightListResult>): seq<FlightListEntry> {
    if rs == [] then [] else Flights(rs[0]) + AllFlights(rs[1..])
  }

  /** The deduplication `to_dict` performs, given the ids already seen: an
      entry whose id is not null and already seen is dropped; every other
      entry is kept and its id becomes seen. */
  function Dedup(xs: seq<FlightListEntry>, seen: set<Option<string>>): seq<FlightListEntry> {
    if xs == [] then []
    else if xs[0].id.Some? && xs[0].id in seen then Dedup(xs[1..], seen)
    else [xs[0]] + Dedup(xs[1..], seen + {xs[0].id})
  }

  /** `a` is `b` with some elements removed. */
  predicate IsSubsequence<T(==)>(a: seq<T>, b: seq<T>) {
    a == [] || (b != [] && ((a[0] == b[0] && IsSubsequence(a[1..], b[1..])) || IsSubsequence(a, b[1..])))
  }

  /** No two entries share a non-null id. */
  predicate DistinctIds(xs: seq<FlightListEntry>) {
    forall i, j :: 0 <= i < j < |xs| && xs[i].id.Some? ==> xs[i].id != xs[j].id
  }

  /** Entry i is the first with its id. */
  predicate FirstOfItsId(xs: seq<FlightListEntry>, i: int)
    requires 0 <= i < |xs|
  {
    forall j :: 0 <= j < i ==> xs[j].id != xs[i].id
  }

  lemma {:induction false} DedupIsSubsequence(xs: seq<FlightListEntry>, seen: set<Option<string>>)
    ensures IsSubsequence(Dedup(xs, seen), xs)
  {
    if xs != [] {
      if xs[0].id.Some? && xs[0].id in seen {
        DedupIsSubsequence(xs[1..], seen);
      } else {
        DedupIsSubsequence(xs[1..], seen + {xs[0].id});
        var out := Dedup(xs, seen);
        assert out[0] == xs[0] && out[1..] == Dedup(xs[1..], seen + {xs[0].id});
      }
    }
  }

  /** What the merge keeps: no id seen before, no id twice. */
  lemma {:induction false} DedupDistinct(xs: seq<FlightListEntry>, seen: set<Option<string>>)
    ensures var out := Dedup(xs, seen);
      && DistinctIds(out)
      && (forall k :: 0 <= k < |out| && out[k].id.Some? ==> out[k].id !in seen)
  {
    if xs != [] {
      if xs[0].id.Some? && xs[0].id in seen {
        DedupDistinct(xs[1..], seen);
      } else {
        var seen' := seen + {xs[0].id};
        DedupDistinct(xs[1..], seen');
        var out := Dedup(xs, seen);
        var rest := Dedup(xs[1..], seen');
        assert out == [xs[0]] + rest;
        forall i, j | 0 <= i < j < |out| && out[i].id.Some?
          ensures out[i].id != out[j].id
        {
          assert out[j] == rest[j - 1];
          if i > 0 {
            assert out[i] == rest[i - 1];
          }
        }
      }
    }
  }

  /** The merge only keeps entries of its input. */
  lemma {:induction false} DedupFrom(xs: seq<FlightListEntry>, seen: set<Option<string>>)
    ensures forall e :: e in Dedup(xs, seen) ==> e in xs
  {
    if xs != [] {
      var seen' := if xs[0].id.Some? && xs[0].id in seen then seen else seen + {xs[0].id};
      DedupFrom(xs[1..], seen');
      assert forall e :: e in xs[1..] ==> e in xs;
    }
  }

  /** What the merge keeps, the other way: the first entry of every id not
      seen before is in the output. */
  lemma {:induction false} DedupKeepsFirst(xs: seq<FlightListEntry>, seen: set<Option<string>>, i: nat)
    requires i < |xs| && xs[i].id.Some? && xs[i].id !in seen && FirstOfItsId(xs, i)
    ensures xs[i] in Dedup(xs, seen)
  {
    if i > 0 {
      assert xs[0].id != xs[i].id;
      var seen' := if xs[0].id.Some? && xs[0].id in seen then seen else seen + {xs[0].id};
      assert xs[1..][i - 1] == xs[i];
      assert FirstOfItsId(xs[1..], i - 1) by {
        forall j | 0 <= j < i - 1 ensures xs[1..][j].id != xs[1..][i - 1].id {
          assert xs[1..][j] == xs[j + 1];
        }
      }
      DedupKeepsFirst(xs[1..], seen', i - 1);
    }
  }

  /** Flights without id are never dropped: each occurs as often in the
      output as in the input. */
  lemma {:induction false} DedupKeepsAnonymous(xs: seq<FlightListEntry>, seen: set<Option<string>>, e: FlightListEntry)
    requires e.id.None?
    ensures multiset(Dedup(xs, seen))[e] == multiset(xs)[e]
  {
    if xs != [] {
      assert xs == [xs[0]] + xs[1..];
      if xs[0].id.Some? && xs[0].id in seen {
        DedupKeepsAnonymous(xs[1..], seen, e);
      } else {
        DedupKeepsAnonymous(xs[1..], seen + {xs[0].id}, e);
      }
    }
  }

  /** Entry i survives the merge: it has no id, or its id was not seen
      before and no earlier entry carries it. */
  predicate KeptAt(xs: seq<FlightListEntry>, seen: set<Option<string>>, i: int)
    requires 0 <= i < |xs|
  {
    xs[i].id.None? || (xs[i].id !in seen && FirstOfItsId(xs, i))
  }

  /** The entries of `xs` from position i on that survive the merge, in
      their order in `xs`. */
  function KeptFrom(xs: seq<FlightListEntry>, seen: set<Option<string>>, i: nat): seq<FlightListEntry>
    requires i <= |xs|
    decreases |xs| - i
  {
    if i == |xs| then []
    else (if KeptAt(xs, seen, i) then [xs[i]] else []) + KeptFrom(xs, seen, i + 1)
  }

  /** The ids of the first i entries. */
  function PrefixIds(xs: seq<FlightListEntry>, i: nat): set<Option<string>>
    requires i <= |xs|
  {
    set k | 0 <= k < i :: xs[k].id
  }

  lemma {:induction false} DedupKeptFrom(xs: seq<FlightListEntry>, seen: set<Option<string>>, i: nat)
    requires i <= |xs|
    ensures Dedup(xs[i..], seen + PrefixIds(xs, i)) == KeptFrom(xs, seen, i)
    decreases |xs| - i
  {
    if i < |xs| {
      var s := seen + PrefixIds(xs, i);
      assert xs[i..][0] == xs[i] && xs[i..][1..] == xs[i + 1..];
      assert PrefixIds(xs, i + 1) == PrefixIds(xs, i) + {xs[i].id};
      assert xs[i].id in PrefixIds(xs, i) <==> !FirstOfItsId(xs, i);
      DedupKeptFrom(xs, seen, i + 1);
      if xs[i].id.Some? && xs[i].id in s {
        assert !KeptAt(xs, seen, i);
        assert seen + PrefixIds(xs, i + 1) == s;
        assert Dedup(xs[i..], s) == Dedup(xs[i + 1..], s);
      } else {
        assert KeptAt(xs, seen, i);
        assert s + {xs[i].id} == seen + PrefixIds(xs, i + 1);
        assert Dedup(xs[i..], s) == [xs[i]] + Dedup(xs[i + 1..], s + {xs[i].id});
      }
    }
  }

  /** The merge is the input filtered by position: it keeps exactly the
      entries without an id and the first entry of each id not seen
      before, in input order. */
  lemma DedupIsFilter(xs: seq<FlightListEntry>, seen: set<Option<string>>)
    ensures Dedup(xs, seen) == KeptFrom(xs, seen, 0)
  {
    DedupKeptFrom(xs, seen, 0);
    assert xs[0..] == xs;
    assert seen + PrefixIds(xs, 0) == seen;
  }

  /** `FLIGHT_LIST_EMPTY`, or the first page with its data replaced by the
      merged flights of all pages. */
  function Merged(rs: seq<FlightListResult>, empty: FlightList): (d: FlightList)
    ensures rs == [] ==> d == empty
    ensures rs != [] ==> d.metadata == rs[0].parsed.metadata && d.more == rs[0].parsed.more
    ensures rs != [] ==> d.data == Some(Dedup(AllFlights(rs), {}))
  {
    if rs == [] then empty else rs[0].parsed.(data := Some(Dedup(AllFlights(rs), {})))
  }

  /** Everything the merge promises, about the merged flights of a
      non-empty collection. */
  lemma MergedFlights(rs: seq<FlightListResult>, empty: FlightList)
    requires rs != []
    ensures var out := Merged(rs, empty).data.value;
      && IsSubsequence(out, AllFlights(rs))
      && DistinctIds(out)
      && (forall i :: 0 <= i < |AllFlights(rs)| && AllFlights(rs)[i].id.Some? && FirstOfItsId(AllFlights(rs), i)
            ==> AllFlights(rs)[i] in out)
      && (forall e: FlightListEntry :: e.id.None? ==> multiset(out)[e] == multiset(AllFlights(rs))[e])
      && out == KeptFrom(AllFlights(rs), {}, 0)
  {
    var xs := AllFlights(rs);
    DedupIsFilter(xs, {});
    DedupIsSubsequence(xs, {});
    DedupDistinct(xs, {});
    forall i | 0 <= i < |xs| && xs[i].id.Some? && FirstOfItsId(xs, i)
      ensures xs[i] in Dedup(xs, {})
    {
      DedupKeepsFirst(xs, {}, i);
    }
    forall e: FlightListEntry | e.id.None?
      ensures multiset(Dedup(xs, {}))[e] == multiset(xs)[e]
    {
      DedupKeepsAnonymous(xs, {}, e);
    }
  }

  lemma AllFlightsFrom(rs: seq<FlightListResult>, i: nat)
    requires i < |rs|
    ensures AllFlights(rs[i..]) == Flights(rs[i]) + AllFlights(rs[i + 1..])
  {
    assert rs[i..][1..] == rs[i + 1..];
  }

  /** The save error of an empty collection. */
  datatype CollectionError = EmptyFlightList

  /** A list of flight list results that callers append to. */
  class FlightListResultCollection {
    var results: seq<FlightListResult>

    constructor ()
      ensures results == []
    {
      results := [];
    }

    method Append(r: FlightListResult)
      modifies this
      ensures results == old(results) + [r]
    {
      results := results + [r];
    }

    /** `to_dict`: merges the pages, walking them as the source does with a
        set of ids seen so far. */
    method ToDict(empty: FlightList) returns (d: FlightList)
      ensures d == Merged(results, empty)
    {
      if |results| == 0 {
        return empty;
      }
      var seen: set<Option<string>> := {};
      var all := AllFlights(results);
      var flightsAll: seq<FlightListEntry> := [];
      var i := 0;
      while i < |results|
        invariant 0 <= i <= |results|
        invariant flightsAll + Dedup(AllFlights(results[i..]), seen) == Dedup(all, {})
      {
        AllFlightsFrom(results, i);
        var data := results[i].parsed.data;
        if data.None? {
          assert Flights(results[i]) == [];
          assert AllFlights(results[i..]) == AllFlights(results[i + 1..]);
          i := i + 1;
          continue;
        }
        var flights := data.value;
        var j := 0;
        assert flights[j..] == Flights(results[i]);
        while j < |flights|
          invariant 0 <= j <= |flights|
          invariant flightsAll + Dedup(flights[j..] + AllFlights(results[i + 1..]), seen) == Dedup(all, {})
        {
          var rest := flights[j..] + AllFlights(results[i + 1..]);
          assert rest[0] == flights[j] && rest[1..] == flights[j + 1..] + AllFlights(results[i + 1..]);
          var flight := flights[j];
          if flight.id.Some? && flight.id in seen {
            j := j + 1;
            continue;
          }
          seen := seen + {flight.id};
          flightsAll := flightsAll + [flight];
          j := j + 1;
        }
        assert flights[j..] + AllFlights(results[i + 1..]) == AllFlights(results[i + 1..]);
        assert flightsAll + Dedup(AllFlights(results[i + 1..]), seen) == Dedup(all, {});
        i := i + 1;
      }
      assert results[i..] == [];
      assert flightsAll + Dedup(AllFlights(results[i..]), seen) == flightsAll;
      d := results[0].parsed.(data := Some(flightsAll));
    }

    /** `file_path` of the collection: that of its first page; an empty
        collection has none. */
    function FilePath(): (r: Result<Path, CollectionError>)
      reads this
      requires forall k :: 0 <= k < |results| ==> results[k].request.kind != ""
      ensures r.IsErr() <==> results == []
      ensures r.IsOk() ==> r.value == FlightListFilePath(results[0])
      ensures r.IsOk() && results[0].request.ident != "" ==> Name(r.value) == Upper(results[0].request.ident)
      ensures r.IsOk() && results[0].request.ident == "" ==> Name(r.value) == results[0].request.kind
    {
      if |results| == 0 then Err(EmptyFlightList) else Ok(FlightListFilePath(results[0]))
    }
  }

  //
  // fetching every page
  //

  /** A keyword argument value: an integer, or anything else. */
  type OtherValue(==)
  datatype Arg = IntArg(number: int) | OtherArg(other: OtherValue)

  type Kwargs = map<string, Arg>

  /** The earliest scheduled departure among the flights, if any has one. */
  function MinDeparture(xs: seq<FlightListEntry>): Option<int> {
    if xs == [] then None
    else
      var rest := MinDeparture(xs[1..]);
      match xs[0].scheduledDeparture
      case None => rest
      case Some(t) =>
        if rest.Some? && rest.value < t then rest else Some(t)
  }

  /** `min` over the non-null scheduled departures: none exactly when every
      departure is null, and otherwise one of them and no larger than any. */
  lemma {:induction false} MinDepartureSpec(xs: seq<FlightListEntry>)
    ensures MinDeparture(xs).None? <==> forall i :: 0 <= i < |xs| ==> xs[i].scheduledDeparture.None?
    ensures MinDeparture(xs).Some? ==> exists i :: 0 <= i < |xs| && xs[i].scheduledDeparture == MinDeparture(xs)
    ensures MinDeparture(xs).Some? ==>
      forall i :: 0 <= i < |xs| && xs[i].scheduledDeparture.Some? ==> MinDeparture(xs).value <= xs[i].scheduledDeparture.value
  {
    if xs != [] {
      MinDepartureSpec(xs[1..]);
      assert forall i :: 1 <= i < |xs| ==> xs[i] == xs[1..][i - 1];
    }
  }

  /** Why the pages stopped coming. */
  datatype Stop =
    | ConsumerDone  // the consumer asked for no more pages
    | NoData        // a response had no data: nothing more was yielded
    | LastPage      // the page yielded last said there are no more
    | NoDeparture   // `min` of no scheduled departures raised ValueError

  /** The pages a consumer received, the requests sent, and how it ended. */
  datatype Trace = Trace(pages: seq<FlightList>, requests: seq<Kwargs>, stop: Stop)

  function Prefixed(page: FlightList, request: Kwargs, t: Trace): Trace {
    Trace([page] + t.pages, [request] + t.requests, t.stop)
  }

  /** The trace `t`, after the pages and requests already seen. */
  function Then(pages: seq<FlightList>, requests: seq<Kwargs>, t: Trace): Trace {
    Trace(pages + t.pages, requests + t.requests, t.stop)
  }

  lemma ThenAppend(ps: seq<FlightList>, rs: seq<Kwargs>, p: seq<FlightList>, r: seq<Kwargs>, t: Trace)
    ensures Then(ps, rs, Trace(p + t.pages, r + t.requests, t.stop)) == Then(ps + p, rs + r, t)
  {
    assert ps + (p + t.pages) == (ps + p) + t.pages;
    assert rs + (r + t.requests) == (rs + r) + t.requests;
  }

  /** The first page `fetch_all` requests: `kwargs["page"]`, or 1. */
  function StartPage(kwargs: Kwargs): int
    requires "page" in kwargs ==> kwargs["page"].IntArg?
  {
    if "page" in kwargs then kwargs["page"].number else 1
  }

  /** What `fetch_all` does once `response` arrived on the pull that has
      `n` pulls left, as written: `Some(stop)` ends the run, `None` sends
      the next request. The timestamp for that next request is computed
      before `page.more` is read, so a page without any scheduled departure
      ends the run with ValueError even when it is the last. */
  function After(response: FlightList, n: nat): Option<Stop> {
    if response.data.None? then Some(NoData)
    else if n <= 1 then Some(ConsumerDone)
    else if MinDeparture(response.data.value).None? then Some(NoDeparture)
    else if !response.more then Some(LastPage)
    else None
  }

  /** The arguments of the request after `request`: its arguments with the
      earliest scheduled departure of `response` as `timestamp`. */
  function NextArgs(request: Kwargs, response: FlightList): Kwargs {
    match if response.data.Some? then MinDeparture(response.data.value) else None
    case Some(t) => request["timestamp" := IntArg(t)]
    case None => request
  }

  /** The trace of a run that stopped right after `response`. */
  function Stopped(response: FlightList, request: Kwargs, stop: Stop): Trace {
    Trace(if stop == NoData then [] else [response], [request], stop)
  }

  /** What a consumer that asks for at most `n` pages receives from
      `fetch_all`, the arguments being `args` and the page `page`. */
  function Pages(fetch: Kwargs -> FlightList, args: Kwargs, page: int, n: nat): Trace
    decreases n
  {
    if n == 0 then Trace([], [], ConsumerDone)
    else
      var request := args["page" := IntArg(page)];
      var response := fetch(request);
      match After(response, n)
      case Some(stop) => Stopped(response, request, stop)
      case None => Prefixed(response, request, Pages(fetch, NextArgs(request, response), page + 1, n - 1))
  }

  /** `Pages` with the pages and requests already seen carried along, the
      way the loop of `fetch_all` accumulates them. */
  function PagesFrom(fetch: Kwargs -> FlightList, args: Kwargs, page: int, n: nat,
                     pages: seq<FlightList>, requests: seq<Kwargs>): Trace
    decreases n
  {
    if n == 0 then Trace(pages, requests, ConsumerDone)
    else
      var request := args["page" := IntArg(page)];
      var response := fetch(request);
      match After(response, n)
      case Some(stop) => Then(pages, requests, Stopped(response, request, stop))
      case None => PagesFrom(fetch, NextArgs(request, response), page + 1, n - 1, pages + [response], requests + [request])
  }

  lemma {:induction false} PagesFromThen(fetch: Kwargs -> FlightList, args: Kwargs, page: int, n: nat,
                                         pages: seq<FlightList>, requests: seq<Kwargs>)
    ensures PagesFrom(fetch, args, page, n, pages, requests) == Then(pages, requests, Pages(fetch, args, page, n))
    decreases n
  {
    if n >= 1 {
      var request := args["page" := IntArg(page)];
      var response := fetch(request);
      if After(response, n).None? {
        var next := NextArgs(request, response);
        PagesFromThen(fetch, next, page + 1, n - 1, pages + [response], requests + [request]);
        ThenAppend(pages, requests, [response], [request], Pages(fetch, next, page + 1, n - 1));
      }
    }
  }

  /** `FlightListService.fetch_all`, pulled `n` times: the generator runs up
      to its n-th `yield` and is then left suspended. */
  method FetchAll(fetch: Kwargs -> FlightList, kwargs: Kwargs, n: nat)
      returns (pages: seq<FlightList>, requests: seq<Kwargs>, stop: Stop)
    requires "page" in kwargs ==> kwargs["page"].IntArg?
    ensures Trace(pages, requests, stop) == Pages(fetch, kwargs - {"delay"}, StartPage(kwargs), n)
  {
    pages, requests := [], [];
    if n == 0 {
      return pages, requests, ConsumerDone;
    }
    var args := kwargs;
    var more := true;
    var page := StartPage(args);
    args := args - {"delay"};
    stop := LastPage;
    ghost var args0, page0 := args, page;
    ghost var goal := PagesFrom(fetch, args, page, n, [], []);
    while more
      invariant |pages| < n
      invariant more ==> goal == PagesFrom(fetch, args, page, n - |pages|, pages, requests)
      invariant !more ==> goal == Trace(pages, requests, LastPage)
      decreases n - |pages|, if more then 1 else 0
    {
      ghost var m := n - |pages|;
      var request := args["page" := IntArg(page)];
      var response := fetch(request);
      requests := requests + [request];
      if response.data.None? {
        assert pages + [] == pages;
        stop := NoData;
        break;
      }
      pages := pages + [response];
      if |pages| == n {
        stop := ConsumerDone;
        break;
      }
      var timestamp := MinDeparture(response.data.value);
      if timestamp.None? {
        stop := NoDeparture;
        break;
      }
      page := page + 1;
      args := request["timestamp" := IntArg(timestamp.value)];
      more := response.more;
      assert args == NextArgs(request, response);
      assert After(response, m) == if more then None else Some(LastPage);
      assert n - |pages| == m - 1;
    }
    PagesFromThen(fetch, args0, page0, n, [], []);
  }

  /** The pages requested are consecutive, starting from the first, and
      `delay` is never sent. */
  lemma {:induction false} PagesNumbered(fetch: Kwargs -> FlightList, args: Kwargs, page: int, n: nat)
    requires "delay" !in args
    ensures forall i :: 0 <= i < |Pages(fetch, args, page, n).requests| ==>
      var r := Pages(fetch, args, page, n).requests[i];
      "page" in r && r["page"] == IntArg(page + i) && "delay" !in r
    decreases n
  {
    if n >= 1 {
      var request := args["page" := IntArg(page)];
      var response := fetch(request);
      if After(response, n).None? {
        var next := NextArgs(request, response);
        PagesNumbered(fetch, next, page + 1, n - 1);
        var rest := Pages(fetch, next, page + 1, n - 1);
        var t := Pages(fetch, args, page, n);
        assert t.requests == [request] + rest.requests;
        forall i | 0 < i < |t.requests|
          ensures "page" in t.requests[i] && t.requests[i]["page"] == IntArg(page + i) && "delay" !in t.requests[i]
        {
          var r := rest.requests[i - 1];
          assert "page" in r && r["page"] == IntArg(page + 1 + (i - 1)) && "delay" !in r;
          assert t.requests[i] == r;
        }
      }
    }
  }

  /** Every page received is the response to its request and has data;
      only a response without data goes unyielded, and it ends the run. */
  lemma {:induction false} PagesAnswered(fetch: Kwargs -> FlightList, args: Kwargs, page: int, n: nat)
    ensures |Pages(fetch, args, page, n).pages| <= n
    ensures var t := Pages(fetch, args, page, n);
      |t.requests| == (if t.stop == NoData then |t.pages| + 1 else |t.pages|)
    ensures forall i :: 0 <= i < |Pages(fetch, args, page, n).pages| ==>
      var t := Pages(fetch, args, page, n);
      t.pages[i] == fetch(t.requests[i]) && t.pages[i].data.Some?
    ensures var t := Pages(fetch, args, page, n);
      t.stop == NoData ==> fetch(t.requests[|t.pages|]).data.None?
    decreases n
  {
    if n >= 1 {
      var request := args["page" := IntArg(page)];
      var response := fetch(request);
      if After(response, n).None? {
        var next := NextArgs(request, response);
        PagesAnswered(fetch, next, page + 1, n - 1);
        var rest := Pages(fetch, next, page + 1, n - 1);
        var t := Pages(fetch, args, page, n);
        assert t.pages == [response] + rest.pages && t.requests == [request] + rest.requests && t.stop == rest.stop;
        forall i | 0 < i < |t.pages|
          ensures t.pages[i] == fetch(t.requests[i]) && t.pages[i].data.Some?
        {
          assert t.pages[i] == rest.pages[i - 1] && t.requests[i] == rest.requests[i - 1];
        }
        if t.stop == NoData {
          assert t.requests[|t.pages|] == rest.requests[|rest.pages|];
        }
      }
    }
  }

  /** Every request after the first carries as timestamp the earliest
      scheduled departure of the page before it, and asks for the next page
      only because that page said there were more. */
  predicate TimestampsFollow(t: Trace) {
    forall i :: 0 < i < |t.requests| ==> FollowsAt(t, i)
  }

  /** Request i carries the earliest departure of page i - 1, which said
      there were more. */
  predicate FollowsAt(t: Trace, i: int)
    requires 0 < i < |t.requests|
  {
    && i - 1 < |t.pages| && t.pages[i - 1].more && t.pages[i - 1].data.Some?
    && MinDeparture(t.pages[i - 1].data.value).Some?
    && "timestamp" in t.requests[i]
    && t.requests[i]["timestamp"] == IntArg(MinDeparture(t.pages[i - 1].data.value).value)
  }

  /** A page that announced more, followed by a run whose first request
      carries that page's earliest departure, keeps the timestamps in step. */
  lemma FollowsPrefixed(response: FlightList, request: Kwargs, rest: Trace)
    requires TimestampsFollow(rest)
    requires response.more && response.data.Some? && MinDeparture(response.data.value).Some?
    requires rest.requests != [] ==>
      "timestamp" in rest.requests[0] && rest.requests[0]["timestamp"] == IntArg(MinDeparture(response.data.value).value)
    requires |rest.requests| <= |rest.pages| + 1
    ensures TimestampsFollow(Prefixed(response, request, rest))
  {
    var t := Prefixed(response, request, rest);
    forall i | 0 < i < |t.requests|
      ensures FollowsAt(t, i)
    {
      assert t.requests[i] == rest.requests[i - 1];
      if i == 1 {
        assert t.pages[0] == response;
      } else {
        assert FollowsAt(rest, i - 1);
        assert t.pages[i - 1] == rest.pages[i - 2];
      }
    }
  }

  lemma {:induction false} PagesTimestamps(fetch: Kwargs -> FlightList, args: Kwargs, page: int, n: nat)
    ensures TimestampsFollow(Pages(fetch, args, page, n))
    decreases n
  {
    if n >= 1 {
      var request := args["page" := IntArg(page)];
      var response := fetch(request);
      if After(response, n).None? {
        var next := NextArgs(request, response);
        var m := MinDeparture(response.data.value).value;
        assert next == request["timestamp" := IntArg(m)];
        PagesTimestamps(fetch, next, page + 1, n - 1);
        PagesRequests0(fetch, next, page + 1, n - 1);
        PagesAnswered(fetch, next, page + 1, n - 1);
        FollowsPrefixed(response, request, Pages(fetch, next, page + 1, n - 1));
      } else {
        var stop := After(response, n).value;
        assert After(response, n) == Some(stop);
        assert Pages(fetch, args, page, n).requests == Stopped(response, request, stop).requests;
      }
    }
  }

  /** The first request of a run is made from its own arguments. */
  lemma PagesRequests0(fetch: Kwargs -> FlightList, args: Kwargs, page: int, n: nat)
    ensures var t := Pages(fetch, args, page, n);
      n > 0 ==> |t.requests| > 0 && t.requests[0] == args["page" := IntArg(page)]
  {
  }

  /** How a run ends: after a page that said there were no more, after a
      page without any scheduled departure, or with the consumer's last
      pull. */
  lemma {:induction false} PagesStop(fetch: Kwargs -> FlightList, args: Kwargs, page: int, n: nat)
    ensures var t := Pages(fetch, args, page, n);
      && (t.stop == LastPage ==> t.pages != [] && !t.pages[|t.pages| - 1].more)
      && (t.stop == NoDeparture ==> t.pages != [] && t.pages[|t.pages| - 1].data.Some?
                                    && MinDeparture(t.pages[|t.pages| - 1].data.value).None?)
      && (t.stop == ConsumerDone ==> |t.pages| == n)
    decreases n
  {
    if n >= 1 {
      var request := args["page" := IntArg(page)];
      var response := fetch(request);
      if After(response, n).None? {
        PagesStop(fetch, NextArgs(request, response), page + 1, n - 1);
      }
    }
  }

  /** As written, a last page (`more` false) whose flights have no
      scheduled departure, for instance an empty list, ends the run with
      ValueError instead of ending it normally. */
  lemma LastPageWithoutDepartureRaises(fetch: Kwargs -> FlightList, args: Kwargs, page: int, n: nat)
    requires n >= 2
    requires var response := fetch(args["page" := IntArg(page)]);
      response.data == Some([]) && !response.more
    ensures Pages(fetch, args, page, n).stop == NoDeparture
  {
  }

  /** The step of `fetch_all` as intended: `page.more` is read before the
      timestamp of a next request that will not be sent is computed. */
  function AfterIntended(response: FlightList, n: nat): Option<Stop> {
    if response.data.None? then Some(NoData)
    else if n <= 1 then Some(ConsumerDone)
    else if !response.more then Some(LastPage)
    else if MinDeparture(response.data.value).None? then Some(NoDeparture)
    else None
  }

  /** `fetch_all` as intended. */
  function PagesIntended(fetch: Kwargs -> FlightList, args: Kwargs, page: int, n: nat): Trace
    decreases n
  {
    if n == 0 then Trace([], [], ConsumerDone)
    else
      var request := args["page" := IntArg(page)];
      var response := fetch(request);
      match AfterIntended(response, n)
      case Some(stop) => Stopped(response, request, stop)
      case None => Prefixed(response, request, PagesIntended(fetch, NextArgs(request, response), page + 1, n - 1))
  }

  /** As intended, a run fails for lack of a departure only on a page that
      announces more pages, and a last page always ends it normally. */
  lemma {:induction false} PagesIntendedStop(fetch: Kwargs -> FlightList, args: Kwargs, page: int, n: nat)
    ensures var t := PagesIntended(fetch, args, page, n);
      && (t.stop == NoDeparture ==> t.pages != [] && t.pages[|t.pages| - 1].more)
      && (forall i :: 0 <= i < |t.pages| - 1 ==> t.pages[i].more)
      && (t.pages != [] && !t.pages[|t.pages| - 1].more ==> t.stop in {LastPage, ConsumerDone})
    decreases n
  {
    if n >= 1 {
      var request := args["page" := IntArg(page)];
      var response := fetch(request);
      if AfterIntended(response, n).None? {
        PagesIntendedStop(fetch, NextArgs(request, response), page + 1, n - 1);
      }
    }
  }

  /** The correction changes nothing for runs that do not raise. */
  lemma {:induction false} PagesIntendedAgrees(fetch: Kwargs -> FlightList, args: Kwargs, page: int, n: nat)
    requires Pages(fetch, args, page, n).stop != NoDeparture
    ensures PagesIntended(fetch, args, page, n) == Pages(fetch, args, page, n)
    decreases n
  {
    if n >= 1 {
      var request := args["page" := IntArg(page)];
      var response := fetch(request);
      if After(response, n).None? {
        PagesIntendedAgrees(fetch, NextArgs(request, response), page + 1, n - 1);
      }
    }
  }
}
