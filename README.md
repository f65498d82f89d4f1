# fr24 client core, modelled in Dafny

This project models the deterministic core of the `fr24` Python client for
Flightradar24's gRPC-Web feed. It also states and proves what that core
promises.

- **Request builders** (`grpc.dfy`):
  - every call is a POST to `https://data-feed.flightradar24.com/fr24.feed.api.v1.Feed/<Method>`, which follows the gRPC path rule `/Service-Name/Method-Name` of the gRPC over HTTP/2 protocol ("Requests" section);
  - the nine builders each use one fixed method name;
  - `LiveFeedParams` and `LiveFeedPlaybackParams` become request messages;
  - a live feed response is projected into flat rows;
  - the batched calls give one outcome per input, in input order.
- **Response decoding** (`frame.dfy`, `wrappers.dfy`, `text.dfy`):
  - gRPC-Web message framing: a flag byte whose most significant bit marks a trailers frame, a 4-byte big-endian length, then the payload;
  - trailer payloads are CRLF-terminated `key:value` lines;
  - decoding returns a `Result`: a trailer becomes `Err(GrpcError(status, message))` instead of raising.
- **Flight lists** (`service.dfy`):
  - the cache path of each kind of result;
  - the deduplicating merge of a collection of flight list pages;
  - the paging loop `fetch_all`, modelled against a page oracle.
- **Disk layout** (`paths.dfy`, `cache.dfy`, `base.dfy`, `utils.dfy`):
  - the cache directories;
  - the suffix rules of `save` and `write_table`;
  - the order in which these create directories, write tables and refuse formats.
- **Terminal labels** (`formatters.dfy`): the fallback rules for airport and aircraft labels.

Paths are sequences of parts. A path's suffix follows the rule of Python's
`pathlib`: the text from the last dot on, when that dot is neither the first
nor the last character of the name.

Inputs are passed in as parameters:

- the file system is a `FileSystem` object holding the set of directories and the list of writes;
- the clock is a `now` argument;
- message serialisation is an `encode` function;
- sending a request is a `send` function;
- the flight list service is a `fetch` function.

## Model

| member | source | states |
|---|---|---|
| `Wrappers.Result.IsErr` | tests/api/test_grpc_misc.py:187 | `is_err()` holds exactly when `is_ok()` does not |
| `Wrappers.Result.Unwrap` | tests/api/test_grpc_misc.py:144-145 | `unwrap()` of a success gives the value the success holds |
| `Wrappers.Result.ErrValue` | tests/api/test_grpc_misc.py:188-189 | `err()` gives a value exactly for an error result, and that value is its error |
| `Text.ParseNatToString` | tests/api/test_grpc_misc.py:190 | a decimal numeral reads back as the number it was written from, so `grpc-status:5` gives status 5 |
| `Text.IntToStringRoundTrip` | src/fr24/service.py:276 | `str()` of any integer, negative ones included, reads back as that integer |
| `Text.IntToStringInjective` | src/fr24/core.py:312 | distinct integers give distinct file names |
| `Text.Upper` | src/fr24/service.py:174 | `upper()` keeps the length, replaces each ASCII lower-case letter by its capital, leaves every other character alone, and leaves no lower-case letter |
| `Text.UpperIdempotent` | src/fr24/core.py:261 | upper-casing an upper-cased ident changes nothing |
| `Frame.EncodeFrame` | tests/api/test_grpc_misc.py:181-183 | a frame is its flag, then the payload length in 4 big-endian bytes, then the payload |
| `Frame.BigEndian32RoundTrip` | tests/api/test_grpc_misc.py:182 | the 4-byte big-endian length prefix reads back as the length written |
| `Frame.SplitField` | tests/api/test_grpc_misc.py:182 | a trailer line splits at its first colon into a colon-free key and the raw value, exactly when it holds a colon |
| `Frame.LinesCons` | tests/api/test_grpc_misc.py:182 | a CRLF ends a trailer line: a CRLF-free line followed by CRLF is the first line of the split |
| `Frame.TrailerError` | tests/api/test_grpc_misc.py:188-191 | a trailer gives a `GrpcError` only when it has a `grpc-status` line; otherwise the trailer is malformed |
| `Frame.TrailerErrorRoundTrip` | tests/api/test_grpc_misc.py:188-191 | a trailer with a status and a CRLF-free message reports that status and exactly that message, with the CRLF removed |
| `Frame.Decode` | tests/api/test_grpc_misc.py:176-191 | a success only comes from a complete data frame and is the parse of its payload; a status error only comes from a trailers frame; the `empty DATA frame` error comes exactly from an empty body; a body shorter than a header, or whose length runs past its end, is malformed |
| `Frame.TruncatedTrailerIsMalformed` | tests/api/test_grpc_misc.py:181-183 | a trailers header announcing 99 bytes with none following is malformed, not a status error |
| `Frame.TrailerFrameIsErr` | tests/api/test_grpc_misc.py:185-187 | a body starting with a flag that has its top bit set decodes to an error, never to a message and never by raising |
| `Frame.DecodeDataFrame` | docs/usage/scripts/00_introduction.py:182-196 | round trip: a data frame carrying a serialised message decodes to that message, whatever bytes follow it |
| `Frame.TrailerLines` | tests/api/test_grpc_misc.py:182 | a trailer written for a status and a CRLF-free message splits into exactly two lines, the status line and the message line |
| `Frame.StatusOnlyTrailer` | docs/usage/scripts/00_introduction.py:196 | a trailer holding only a status line reports that status with an empty message |
| `Frame.DecodeTrailerPayload` | tests/api/test_grpc_misc.py:176-187 | a trailers frame decodes to the error its payload reports, whatever follows it |
| `Frame.DecodeTrailerFrame` | tests/api/test_grpc_misc.py:176-191 | round trip: a trailers frame with no data frame before it decodes to `GrpcError` with the status and message it was written with |
| `Frame.FlightNotFoundTrailer` | tests/api/test_grpc_misc.py:182 | the 47 bytes after the header are the trailer a server writes for status 5 and the message `Flight not found!` |
| `Frame.FlightNotFoundBodyIsTrailerFrame` | tests/api/test_grpc_misc.py:181-183 | the length `0x0000002f` (the byte `/`) is the length of the 47-byte trailer that follows it |
| `Frame.DecodeFlightNotFound` | tests/api/test_grpc_misc.py:181-191 | the recorded body decodes to `Err(GrpcError(5, b"Flight not found!"))` |
| `Frame.StatusOkTrailer` | docs/usage/scripts/00_introduction.py:196 | the recorded `grpc-status:0` frame is a trailers frame whose payload is the status-0 line alone |
| `Frame.DecodeResponseWithOkTrailer` | docs/usage/scripts/00_introduction.py:196 | a data frame followed by the `grpc-status:0` trailer decodes to the data frame's message |
| `Grpc.FeedMethod` | src/fr24/grpc.py:83 | a feed URL names a method only when it is the endpoint, the service path and that method |
| `Grpc.ConstructRequest` | src/fr24/grpc.py:75-86 | a POST whose URL names exactly the given method of `fr24.feed.api.v1.Feed`, whose body is `encode_message(message)` and whose headers come from `auth` |
| `Grpc.LiveFeedRequestCreate` | src/fr24/grpc.py:151-155 | calls `LiveFeed` with the `to_proto` of its argument |
| `Grpc.PlaybackRequestCreate` | src/fr24/grpc.py:295-299 | calls `Playback` with the `to_proto` of its argument |
| `Grpc.NearestFlightsRequestCreate` | src/fr24/grpc.py:388-392 | calls `NearestFlights` with the message as given |
| `Grpc.LiveFlightsStatusRequestCreate` | src/fr24/grpc.py:401-405 | calls `LiveFlightsStatus` with the message as given |
| `Grpc.SearchIndexRequestCreate` | src/fr24/grpc.py:414-418 | calls `FetchSearchIndex` with the message as given |
| `Grpc.FollowFlightRequestCreate` | src/fr24/grpc.py:427-431 | calls `FollowFlight` with the message as given |
| `Grpc.TopFlightsRequestCreate` | src/fr24/grpc.py:441-445 | calls `TopFlights` with the message as given |
| `Grpc.LiveTrailRequestCreate` | src/fr24/grpc.py:454-459 | calls `LiveTrail` with the message as given |
| `Grpc.HistoricTrailRequestCreate` | src/fr24/grpc.py:469-473 | calls `HistoricTrail` with the message as given |
| `Grpc.BuildersCallDistinctMethods` | src/fr24/grpc.py:388-473 | whatever their arguments, the URLs of the nine builders' requests name nine different methods |
| `Grpc.DefaultLiveFeedParams` | src/fr24/grpc.py:159-172 | by default: the France UIR box, no stats, limit 1500, maxage 14400, and exactly the four fields flight, reg, route and type |
| `Grpc.LiveFeedToProto` | src/fr24/grpc.py:181-201 | the request copies the box edges, stats, limit and maxage unchanged, and its field mask is the field set. It always asks for sources 0..9, services 0..11, all traffic, not only restricted flights, no highlighting, and restricted flights not visible |
| `Grpc.LiveFeedToProtoInjective` | src/fr24/grpc.py:181-201 | distinct parameters give distinct requests: nothing is normalised away |
| `Grpc.DefaultLiveFeedRequest` | src/fr24/grpc.py:160-200 | the default request asks for the four default fields with limit 1500 and maxage 14400, with the standard visibility |
| `Grpc.DefaultPlaybackParams` | src/fr24/grpc.py:306-316 | playback defaults: no timestamp, duration 7, no high-frequency mode |
| `Grpc.PlaybackToProto` | src/fr24/grpc.py:318-326 | the start is the timestamp when it is non-zero, else `now - duration`. Prefetch is start plus duration, so prefetch is `now` without a timestamp. `hfreq` passes through, and the embedded request is the live feed request of the same filters |
| `Grpc.PlaybackZeroTimestampIsAbsent` | src/fr24/grpc.py:320 | a timestamp of 0 gives the same request as no timestamp |
| `Grpc.LiveFeedLikeToProto` | src/fr24/grpc.py:146-155 | parameters are turned into their request; a request message is used as it is |
| `Grpc.PlaybackLikeToProto` | src/fr24/grpc.py:290-299 | playback parameters are turned into their request by `to_proto` (start, prefetch, high-frequency mode and the embedded live feed request); a request message is used as it is |
| `Grpc.PositionBufferRecords` | src/fr24/grpc.py:233-243 | one record per recent position, in the same order, with `delta_lat`, `delta_lon` and `delta_ms` copied |
| `Grpc.PositionBufferRoundTrip` | src/fr24/grpc.py:233-243 | the positions can be recovered from the records, so the copy loses nothing |
| `Grpc.FlightRecordOf` | src/fr24/grpc.py:246-269 | total. Top-level fields are copied. origin comes from `route.from`, destination from `route.to`, registration from `extra_info.reg`, vertical speed from `extra_info.vspeed`, eta from `schedule.eta`, plus typecode and squawk. Absent sub-messages read as their defaults |
| `Grpc.FlightRecordOfBareFlight` | src/fr24/grpc.py:246-269 | a flight with no extra info and no position buffer still gives a row: empty strings, zeros, no positions |
| `Grpc.FlightRecordOfPartialExtraInfo` | src/fr24/grpc.py:258-266 | extra info without a route or schedule keeps its registration, with empty origin and destination and eta 0 |
| `Grpc.MapInOrder` | src/fr24/grpc.py:278-281 | one output per input, output i being the function of input i |
| `Grpc.LiveFeedRows` | src/fr24/grpc.py:272-282 | exactly one row per flight, in the response's order |
| `Grpc.LiveFeedBatched` | src/fr24/grpc.py:214-224 | as many outcomes as inputs; slot i holds what sending input i's request gave, whatever the other sends gave, so a failure stays in its slot |
| `Grpc.PlaybackBatched` | src/fr24/grpc.py:316-358 | as many outcomes as inputs; slot i holds what sending input i's playback request, converted at its own clock reading, gave |
| `Grpc.LiveFeedBatchedAppend` | src/fr24/grpc.py:218-221 | a batch over two lists is the batch over the first followed by the batch over the second |
| `Service.FlightListFilePath` | src/fr24/service.py:168-175 | `base_dir/flight_list/kind/IDENT`, with the ident upper-cased; an empty ident adds no part, as in `pathlib`, so the path is `base_dir/flight_list/kind` |
| `Service.FlightListFilePathInjective` | src/fr24/core.py:255-262 | two flight lists in one cache share a file exactly when their kinds match and their idents differ at most in letter case, the empty ident included |
| `Service.FlightIdText` | src/fr24/service.py:276 | `str(flight_id)`: text as given, an integer as its decimal numeral |
| `Service.PlaybackFilePath` | src/fr24/service.py:274-276 | `base_dir/playback/str(flight_id)` |
| `Service.PlaybackFilePathInjective` | src/fr24/core.py:310-312 | distinct integer flight ids get distinct files |
| `Service.OptionalIntText` | src/fr24/service.py:333 | `str(timestamp)`: an integer's numeral, or `None` for no timestamp |
| `Service.LiveFeedFilePath` | src/fr24/service.py:331-333 | `base_dir/feed/str(timestamp)` |
| `Service.LiveFeedFilePathInjective` | src/fr24/core.py:375-377 | distinct timestamps get distinct files, and no timestamp never shares a file with a timestamp |
| `Service.Merged` | src/fr24/service.py:184-213 | an empty collection gives `FLIGHT_LIST_EMPTY`. Otherwise the result is the first page with only its data replaced by the deduplicated flights of all pages |
| `Service.DedupIsSubsequence` | src/fr24/service.py:199-210 | the merged flights are the pages' flights in order, with some removed |
| `Service.DedupDistinct` | src/fr24/service.py:204-209 | no non-null id occurs twice in the merge, and no id seen before is kept |
| `Service.DedupFrom` | src/fr24/service.py:199-210 | every flight of the merge comes from the pages |
| `Service.DedupKeepsFirst` | src/fr24/service.py:204-210 | for each non-null id, the first flight with that id is kept |
| `Service.DedupKeepsAnonymous` | src/fr24/service.py:205-210 | every flight without an id is kept, as many times as it occurs |
| `Service.DedupIsFilter` | src/fr24/service.py:199-210 | the merge is its input filtered by position, in input order: an entry is kept exactly when it has no id, or its id was not seen before and no earlier entry carries it |
| `Service.MergedFlights` | src/fr24/service.py:196-212 | all of these properties hold of a collection's merged flights, which are the pages' flights filtered by position; pages with null data contribute nothing |
| `Service.FlightListResultCollection.ToDict` | src/fr24/service.py:193-213 | the nested loop with its seen-set computes exactly the merge |
| `Service.FlightListResultCollection.FilePath` | src/fr24/service.py:218-225 | an empty collection has no file path (the `ValueError`); otherwise the path is the first result's path, named by its upper-cased ident, or by its kind when the ident is empty |
| `Service.FlightListResultCollection.Append` | src/fr24/service.py:178-181 | callers append results at the end of the collection |
| `Service.FlightListResultCollection.constructor` | src/fr24/service.py:149-151 | a new collection is empty |
| `Service.MinDepartureSpec` | src/fr24/service.py:139-143 | the smallest non-null scheduled departure of a page; none exactly when every departure is null |
| `Service.FetchAll` | src/fr24/core.py:184-210 | the paging loop, pulled at most n times, sends exactly the requests and yields exactly the pages of the page-trace function |
| `Service.PagesNumbered` | src/fr24/service.py:121-133 | pages are requested consecutively from the start page, and `delay` is never sent |
| `Service.PagesAnswered` | src/fr24/service.py:121-133 | each yielded page answers its own request and has data; only a response without data goes unyielded, and it ends the run |
| `Service.PagesRequests0` | src/fr24/core.py:188-189 | the first request is the arguments with the start page |
| `Service.PagesTimestamps` | src/fr24/service.py:135-146 | each request after the first carries the earliest scheduled departure of the page before it, and follows a page that said there were more |
| `Service.FollowsPrefixed` | src/fr24/service.py:135-146 | a page that announces more, followed by a run whose first request carries that page's earliest departure, keeps every request after the first following the page before it |
| `Service.PagesStop` | src/fr24/service.py:124-146 | a run stopped as a last page follows a page with `more` false; one stopped by the `ValueError` follows a page with data but no scheduled departure; one the consumer stopped yielded all n pages |
| `Service.LastPageWithoutDepartureRaises` | src/fr24/service.py:139-146 | as written, a last page with an empty flight list raises instead of ending the run |
| `Service.PagesIntendedStop` | src/fr24/core.py:202-209 | once `more` is read first: a last page always ends the run normally, and only a page that announces more can fail for lack of a departure |
| `Service.PagesIntendedAgrees` | src/fr24/core.py:187-210 | the corrected loop agrees with the original on every run that does not raise |
| `Paths.WithSuffix` | src/fr24/base.py:146-150 | `with_suffix` keeps the parent and gives the name the new suffix, replacing any old one; a path with an empty name is refused |
| `Paths.WithSuffixIdempotent` | src/fr24/utils.py:82 | giving a path the suffix it already has changes nothing |
| `Paths.FormatSuffix` | src/fr24/utils.py:75-80 | `parquet` gives `.parquet`, `csv` gives `.csv`, and no other format has a suffix |
| `Paths.Ancestors` | src/fr24/utils.py:84 | `mkdir(parents=True)` creates the path and the directories above it, and nothing else |
| `Paths.FileSystem.MakeDirs` | src/fr24/base.py:141 | creating directories leaves every existing one in place and writes nothing |
| `Paths.FileSystem.WriteTable` | src/fr24/utils.py:92-94 | a write is appended to the writes, and no directory is created |
| `FileCache.Cache.FlightListPath` | src/fr24/cache.py:42-43 | `base_dir/flight_list/kind` |
| `FileCache.Cache.PlaybackPath` | src/fr24/cache.py:45-46 | `base_dir/playback` |
| `FileCache.Cache.FeedPath` | src/fr24/cache.py:48-49 | `base_dir/feed` |
| `FileCache.Cache.constructor` | src/fr24/cache.py:26-33 | making a cache adds its four directories and their parents, keeps existing directories, and writes nothing |
| `FileCache.Cache.Default` | src/fr24/cache.py:35-40 | the default cache is rooted at `PATH_CACHE` |
| `FileCache.CacheDirsShape` | src/fr24/cache.py:27-31 | the cache holds flight_list/reg, flight_list/flight, playback and feed, and no directory that is not one of them or above them |
| `FileCache.CacheLeavesDistinct` | src/fr24/cache.py:28-31 | the four directories are distinct |
| `FileCache.FilesInCacheDirs` | src/fr24/cache.py:18-22 | every flight list, playback and feed file lands in one of the cache's directories, whatever the ident |
| `Save.SaveTarget` | src/fr24/base.py:139 | no file means the result's own `file_path`; a given path or file-like object is used |
| `Save.SaveDestination` | src/fr24/base.py:140-153 | a path gets `.parquet` or `.csv` in place of its suffix, keeping its parent, and a file-like object is never renamed. An unsupported format is a `ValueError` |
| `Save.SaveDestinationIdempotent` | src/fr24/base.py:144-151 | saving again in the same format targets the same place |
| `Save.SaveResult` | src/fr24/base.py:125-155 | the parent of a path target is created first, even when the format is then refused. The table is written only for a supported format, and `self` is returned |
| `TableUtils.WriteDestination` | src/fr24/utils.py:74-83 | a bare path gets the format's suffix, and an unsupported format is refused at once; any other target keeps its name exactly |
| `TableUtils.WriteDestinationIdempotent` | src/fr24/utils.py:74-82 | writing again in the same format targets the same place |
| `TableUtils.WriteTable` | src/fr24/utils.py:60-96 | a bare path with an unsupported format fails before any directory is made; any other path gets its parent made and then fails; the table is written only for parquet or csv |
| `TableUtils.ToUnixTimestamp` | src/fr24/utils.py:37-50 | an integer or `None` is returned unchanged; text and date-times go through the conversion |
| `TableUtils.ToUnixTimestampIdempotent` | src/fr24/utils.py:50 | converting a converted timestamp again changes nothing |
| `Formatters.FormatTime` | src/fr24/tui/formatters.py:17-21 | no timestamp formats as the empty string |
| `Formatters.AirportCity` | src/fr24/tui/formatters.py:35-40 | the city is `position.region.city` when that is non-empty, and otherwise the airport name; it is empty exactly when both are |
| `Formatters.AirportText` | src/fr24/tui/formatters.py:28-30 | no airport gives empty text |
| `Formatters.AirportTextParts` | src/fr24/tui/formatters.py:42-55 | the label is exactly "city (icao)" when both are present, the city alone without an ICAO code, "(icao)" without a city, and "" without either; so it starts with the city, ends with the ICAO code in parentheses, and is empty exactly when neither is present |
| `Formatters.AirportTextFallsBackToName` | src/fr24/tui/formatters.py:39-40 | an airport without a position is labelled by its name |
| `Formatters.AircraftText` | src/fr24/tui/formatters.py:62-64 | no aircraft gives empty text |
| `Formatters.AircraftTextParts` | src/fr24/tui/formatters.py:66-75 | with a registration the label is "reg (typecode)", even for an empty typecode; otherwise it is the typecode alone |

## Left out

- `fr24.proto.parse_data` is not part of this model. Decoding is built from the test vector, the recorded response body and the `empty DATA frame` error:
  - only the first frame of a body is read;
  - a short header, a length past the end of the body, or a trailer line without a colon or without a decimal `grpc-status` is reported as `Malformed`;
  - a trailer with status 0 is still an error;
  - decoding the payload into a message is the `parse` parameter.
- Frame.Decode: the source's empty-body error is `GrpcError('empty DATA frame')`, a `GrpcError` with a message and no status; the model gives it its own variant, `EmptyDataFrame`, and keeps `GrpcError` for errors that carry a status.
- Wrappers.Result.Unwrap: `unwrap()` on an error raises; the model only allows it on a success.
- Protobuf encoding, `FieldMask`, the generated message classes and their other fields are not modelled. `encode_message` is a parameter, and only the fields the builders set are modelled.
- HTTP sending, headers (`get_headers`), authentication, `post_unary` and `post_stream` are not modelled. `send` is a parameter, and credentials are an opaque type.
- The concurrency of `asyncio.gather` and the `asyncio.sleep(delay)` pauses are not modelled; a batch is a sequential map.
- The async generator `fetch_all` is modelled as a consumer pulling at most `n` pages.
- Service.FetchAll: the `fetch` oracle is a function of the arguments, so a service whose answers change over time is not modelled.
- `time.time()` is the `now` argument; in a playback batch each element is converted at its own reading, given as the `clock` sequence. Bounding-box edges, coordinates and other floats are opaque and only copied.
- `BBOX_FRANCE_UIR`, `PATH_CACHE` and `FLIGHT_LIST_EMPTY` are defined in files that are not part of this model. They are parameters.
- polars data frames, schemas and parquet/csv serialisation are not modelled. A write is recorded as its target and format.
- Paths are not modelled in full:
  - a segment containing `/` is one part, whereas `pathlib` would split it;
  - absolute and relative roots are not distinguished;
  - `with_suffix` on a name such as `.hidden` behaves as in `pathlib` (no suffix); names ending in a dot are not rejected.
- Text.Upper: only ASCII letters are upper-cased; Unicode case mapping is not modelled.
- Text.Bytes: characters are taken modulo 256, which is exact for the ASCII text used here.
- `to_unix_timestamp` parsing of strings and date-times (pandas) is the `parse` parameter. `Time`'s date-time formatting is the `format` parameter.
- Formatters: Rich styles are not modelled, and labels are plain strings. A JSON `null` is treated like a missing key. The source instead fails in three cases:
  - a `null` region, taken here as absent;
  - an aircraft whose `model` is `null` (`None.get` raises an `AttributeError`), whose typecode is taken here as "";
  - a `null` `model.code`, which gives a typecode of `None` that `Text()` and `Text.append` reject, and which is also taken here as "".
- `LiveFeedService.fetch` and `LiveFeedResult.to_dict` call the wrong functions in the source and are not modelled; only `LiveFeedResult.file_path` is.
- The terminal interface, the command line, the documentation scripts and the tooling scripts are not modelled.

## Findings

| source | as written | input that shows it | evidently intended | confidence | as-written member | corrected member |
|---|---|---|---|---|---|---|
| src/fr24/service.py:139-146 (same in src/fr24/core.py:202-209) | the next timestamp, `min(...)` over the page's non-null scheduled departures, is computed before `page.more` is read | a consumer that pulls twice, and a first response with `data == []` and `page.more == False`: `min()` of an empty sequence raises `ValueError` | the iteration ends after the last page; the timestamp is only needed when another page is requested | medium, not executed | `Service.LastPageWithoutDepartureRaises` | `Service.PagesIntendedStop` |

`Service.FetchAll` and `Service.Pages` model the loop as written.
`Service.PagesIntended` reads `more` first. `Service.PagesIntendedAgrees`
shows the two agree on every run that does not raise.
