/** Request builders, response projection and batching of the gRPC feed
    client (`src/fr24/grpc.py`).

    Every call is an HTTP POST to
    `https://data-feed.flightradar24.com/fr24.feed.api.v1.Feed/<Method>`,
    whose path follows the gRPC rule `/Service-Name/Method-Name`; the body is
    the encoded message. Message serialisation, HTTP headers and the network
    are outside this model: they arrive as function parameters and opaque
    types. */
module Grpc {
  import opened Wrappers
  import opened Text

  /** A floating-point coordinate; the client only copies them. */
  type Coordinate(==)
  /** The optional credential a request carries into its headers. */
  type Credential(==)
  /** A request message that callers build themselves. */
  type CallerMessage(==)

  //
  // endpoint
  //

  const Host: string := "https://data-feed.flightradar24.com"
  const ServiceName: string := "fr24.feed.api.v1.Feed"

  /** An HTTP request: verb, URL, the credential its headers are made from,
      and the encoded body. */
  datatype HttpRequest = HttpRequest(verb: string, url: string, auth: Option<Credential>, content: seq<byte>)

  /** The path of a gRPC call: "/" Service-Name "/" Method-Name. */
  function GrpcPath(service: string, methodName: string): string {
    "/" + service + "/" + methodName
  }

  /** The method a feed URL calls, when it is one. */
  function FeedMethod(url: string): (m: Option<string>)
    ensures m.Some? ==> url == Host + GrpcPath(ServiceName, m.value) && '/' !in m.value
  {
    var prefix := Host + "/" + ServiceName + "/";
    if |prefix| <= |url| && url[..|prefix|] == prefix && '/' !in url[|prefix|..] then
      assert url == prefix + url[|prefix|..];
      Some(url[|prefix|..])
    else None
  }

  /** `construct_request`: a POST to the feed service's method whose body is
      the encoded message and whose headers come from `auth`. */
  function ConstructRequest(methodName: string, message: WireMessage, auth: Option<Credential>,
                            encode: WireMessage -> seq<byte>): (r: HttpRequest)
    requires methodName != "" && '/' !in methodName
    ensures r.verb == "POST" && FeedMethod(r.url) == Some(methodName)
    ensures r.content == encode(message) && r.auth == auth
  {
    var prefix := Host + "/" + ServiceName + "/";
    var url := Host + GrpcPath(ServiceName, methodName);
    assert url == prefix + methodName;
    assert url[|prefix|..] == methodName;
    HttpRequest("POST", url, auth, encode(message))
  }

  //
  // wire messages: only the fields the builders set
  //

  datatype LocationBoundaries = LocationBoundaries(north: Coordinate, south: Coordinate, west: Coordinate, east: Coordinate)

  /** `TrafficType.ALL`, or another value of the enumeration by its number. */
  datatype TrafficType = TrafficAll | TrafficOther(number: nat)

  /** `RestrictionVisibility.NOT_VISIBLE`, or another value by its number. */
  datatype RestrictionVisibility = NotVisible | RestrictionOther(number: nat)

  datatype VisibilitySettings = VisibilitySettings(
    sourcesList: seq<int>, servicesList: seq<int>, trafficType: TrafficType, onlyRestricted: bool)

  datatype LiveFeedRequest = LiveFeedRequest(
    bounds: LocationBoundaries,
    settings: VisibilitySettings,
    fieldMask: set<string>,
    highlightMode: bool,
    stats: bool,
    limit: int,
    maxage: int,
    restrictionMode: RestrictionVisibility)

  datatype PlaybackRequest = PlaybackRequest(
    liveFeedRequest: LiveFeedRequest, timestamp: int, prefetch: int, hfreq: Option<int>)

  /** The request messages of the nine methods. */
  datatype WireMessage =
    | LiveFeedMessage(liveFeed: LiveFeedRequest)
    | PlaybackMessage(playback: PlaybackRequest)
    | NearestFlightsMessage(CallerMessage)
    | LiveFlightsStatusMessage(CallerMessage)
    | FetchSearchIndexMessage(CallerMessage)
    | FollowFlightMessage(CallerMessage)
    | TopFlightsMessage(CallerMessage)
    | LiveTrailMessage(CallerMessage)
    | HistoricTrailMessage(CallerMessage)

  //
  // live feed parameters
  //

  datatype BoundingBox = BoundingBox(south: Coordinate, north: Coordinate, west: Coordinate, east: Coordinate)

  datatype LiveFeedParams = LiveFeedParams(
    boundingBox: BoundingBox, stats: bool, limit: int, maxage: int, fields: set<string>)

  /** The parameters a `LiveFeedParams()` holds when nothing is given; the
      default box `BBOX_FRANCE_UIR` is passed in. */
  function DefaultLiveFeedParams(franceUir: BoundingBox): (p: LiveFeedParams)
    ensures p.boundingBox == franceUir && !p.stats
    ensures p.limit == 1500 && p.maxage == 14400
    ensures p.fields == {"flight", "reg", "route", "type"} && |p.fields| == 4
  {
    LiveFeedParams(franceUir, false, 1500, 14400, {"flight", "reg", "route", "type"})
  }

  /** `range(n)`. */
  function Range(n: nat): (r: seq<int>)
    ensures |r| == n && forall i :: 0 <= i < n ==> r[i] == i
  {
    seq(n, i => i)
  }

  /** The visibility every live feed request is sent with: all ten sources,
      all twelve services, all traffic, not only restricted flights, no
      highlighting, restricted flights not shown. */
  predicate StandardVisibility(r: LiveFeedRequest) {
    && r.settings == VisibilitySettings(Range(10), Range(12), TrafficAll, false)
    && !r.highlightMode
    && r.restrictionMode == NotVisible
  }

  /** What a live feed request asks for, read back from the message. */
  function LiveFeedParamsOf(r: LiveFeedRequest): LiveFeedParams {
    LiveFeedParams(
      BoundingBox(r.bounds.south, r.bounds.north, r.bounds.west, r.bounds.east),
      r.stats, r.limit, r.maxage, r.fieldMask)
  }

  /** `LiveFeedParams.to_proto`: the request carries the parameters exactly
      (no normalisation of the box, the field mask is the field set) with the
      standard visibility. */
  function LiveFeedToProto(p: LiveFeedParams): (r: LiveFeedRequest)
    ensures StandardVisibility(r)
    ensures LiveFeedParamsOf(r) == p
  {
    LiveFeedRequest(
      LocationBoundaries(p.boundingBox.north, p.boundingBox.south, p.boundingBox.west, p.boundingBox.east),
      VisibilitySettings(Range(10), Range(12), TrafficAll, false),
      p.fields,
      false,
      p.stats,
      p.limit,
      p.maxage,
      NotVisible)
  }

  /** Parameters are never lost: distinct parameters give distinct requests. */
  lemma LiveFeedToProtoInjective(p: LiveFeedParams, q: LiveFeedParams)
    requires LiveFeedToProto(p) == LiveFeedToProto(q)
    ensures p == q
  {
    assert LiveFeedParamsOf(LiveFeedToProto(p)) == p;
  }

  /** The default request asks for exactly the four fields an anonymous
      caller may have and at most 1500 flights. */
  lemma DefaultLiveFeedRequest(franceUir: BoundingBox)
    ensures var r := LiveFeedToProto(DefaultLiveFeedParams(franceUir));
      && r.fieldMask == {"flight", "reg", "route", "type"} && r.limit == 1500 && r.maxage == 14400
      && !r.stats && StandardVisibility(r)
  {
    var p := DefaultLiveFeedParams(franceUir);
    assert LiveFeedParamsOf(LiveFeedToProto(p)) == p;
  }

  //
  // playback parameters
  //

  /** Playback parameters: the live feed parameters they filter with, plus
      the start of the window, its length and the high-frequency mode. */
  datatype LiveFeedPlaybackParams = LiveFeedPlaybackParams(
    liveFeed: LiveFeedParams, timestamp: Option<int>, duration: int, hfreq: Option<int>)

  function DefaultPlaybackParams(liveFeed: LiveFeedParams): (p: LiveFeedPlaybackParams)
    ensures p.liveFeed == liveFeed && p.timestamp.None? && p.duration == 7 && p.hfreq.None?
  {
    LiveFeedPlaybackParams(liveFeed, None, 7, None)
  }

  /** `self.timestamp or ...`: a timestamp of 0 counts as absent. */
  predicate HasStart(p: LiveFeedPlaybackParams) {
    p.timestamp.Some? && p.timestamp.value != 0
  }

  /** `LiveFeedPlaybackParams.to_proto` at clock reading `now`: the window
      starts at the given timestamp, or `duration` seconds before now; the
      prefetch point is `duration` after the start; the embedded request is
      the live feed request of the same filters. */
  function PlaybackToProto(p: LiveFeedPlaybackParams, now: int): (r: PlaybackRequest)
    ensures r.liveFeedRequest == LiveFeedToProto(p.liveFeed)
    ensures r.prefetch - r.timestamp == p.duration
    ensures HasStart(p) ==> r.timestamp == p.timestamp.value
    ensures !HasStart(p) ==> r.prefetch == now
    ensures r.hfreq == p.hfreq
  {
    var timestamp := if HasStart(p) then p.timestamp.value else now - p.duration;
    PlaybackRequest(LiveFeedToProto(p.liveFeed), timestamp, timestamp + p.duration, p.hfreq)
  }

  /** Without a start the request does not depend on the stored timestamp
      being `None` or `0`. */
  lemma PlaybackZeroTimestampIsAbsent(p: LiveFeedPlaybackParams, now: int)
    requires p.timestamp == Some(0)
    ensures PlaybackToProto(p, now) == PlaybackToProto(p.(timestamp := None), now)
  {
  }

  //
  // builders
  //

  /** A message, or something that turns into one with `to_proto`. */
  datatype LiveFeedRequestLike = LiveFeedFromParams(params: LiveFeedParams) | LiveFeedFromMessage(message: LiveFeedRequest)

  datatype PlaybackRequestLike = PlaybackFromParams(params: LiveFeedPlaybackParams) | PlaybackFromMessage(message: PlaybackRequest)

  /** `to_proto(message_like)` for a live feed request. */
  function LiveFeedLikeToProto(m: LiveFeedRequestLike): (r: LiveFeedRequest)
    ensures m.LiveFeedFromParams? ==> LiveFeedParamsOf(r) == m.params && StandardVisibility(r)
    ensures m.LiveFeedFromMessage? ==> r == m.message
  {
    match m
    case LiveFeedFromParams(p) => LiveFeedToProto(p)
    case LiveFeedFromMessage(r) => r
  }

  /** `to_proto(message_like)` for a playback request, at clock reading `now`. */
  function PlaybackLikeToProto(m: PlaybackRequestLike, now: int): (r: PlaybackRequest)
    ensures m.PlaybackFromParams? ==> r == PlaybackToProto(m.params, now)
    ensures m.PlaybackFromParams? ==> r.liveFeedRequest == LiveFeedToProto(m.params.liveFeed)
    ensures m.PlaybackFromMessage? ==> r == m.message
  {
    match m
    case PlaybackFromParams(p) => PlaybackToProto(p, now)
    case PlaybackFromMessage(r) => r
  }

  function LiveFeedRequestCreate(m: LiveFeedRequestLike, auth: Option<Credential>,
                                 encode: WireMessage -> seq<byte>): (r: HttpRequest)
    ensures FeedMethod(r.url) == Some("LiveFeed")
    ensures r.content == encode(LiveFeedMessage(LiveFeedLikeToProto(m))) && r.auth == auth
  {
    ConstructRequest("LiveFeed", LiveFeedMessage(LiveFeedLikeToProto(m)), auth, encode)
  }

  function PlaybackRequestCreate(m: PlaybackRequestLike, now: int, auth: Option<Credential>,
                                 encode: WireMessage -> seq<byte>): (r: HttpRequest)
    ensures FeedMethod(r.url) == Some("Playback")
    ensures r.content == encode(PlaybackMessage(PlaybackLikeToProto(m, now))) && r.auth == auth
  {
    ConstructRequest("Playback", PlaybackMessage(PlaybackLikeToProto(m, now)), auth, encode)
  }

  function NearestFlightsRequestCreate(m: CallerMessage, auth: Option<Credential>,
                                       encode: WireMessage -> seq<byte>): (r: HttpRequest)
    ensures FeedMethod(r.url) == Some("NearestFlights")
    ensures r.content == encode(NearestFlightsMessage(m)) && r.auth == auth
  {
    ConstructRequest("NearestFlights", NearestFlightsMessage(m), auth, encode)
  }

  function LiveFlightsStatusRequestCreate(m: CallerMessage, auth: Option<Credential>,
                                          encode: WireMessage -> seq<byte>): (r: HttpRequest)
    ensures FeedMethod(r.url) == Some("LiveFlightsStatus")
    ensures r.content == encode(LiveFlightsStatusMessage(m)) && r.auth == auth
  {
    ConstructRequest("LiveFlightsStatus", LiveFlightsStatusMessage(m), auth, encode)
  }

  function SearchIndexRequestCreate(m: CallerMessage, auth: Option<Credential>,
                                    encode: WireMessage -> seq<byte>): (r: HttpRequest)
    ensures FeedMethod(r.url) == Some("FetchSearchIndex")
    ensures r.content == encode(FetchSearchIndexMessage(m)) && r.auth == auth
  {
    ConstructRequest("FetchSearchIndex", FetchSearchIndexMessage(m), auth, encode)
  }

  function FollowFlightRequestCreate(m: CallerMessage, auth: Option<Credential>,
                                     encode: WireMessage -> seq<byte>): (r: HttpRequest)
    ensures FeedMethod(r.url) == Some("FollowFlight")
    ensures r.content == encode(FollowFlightMessage(m)) && r.auth == auth
  {
    ConstructRequest("FollowFlight", FollowFlightMessage(m), auth, encode)
  }

  function TopFlightsRequestCreate(m: CallerMessage, auth: Option<Credential>,
                                   encode: WireMessage -> seq<byte>): (r: HttpRequest)
    ensures FeedMethod(r.url) == Some("TopFlights")
    ensures r.content == encode(TopFlightsMessage(m)) && r.auth == auth
  {
    ConstructRequest("TopFlights", TopFlightsMessage(m), auth, encode)
  }

  function LiveTrailRequestCreate(m: CallerMessage, auth: Option<Credential>,
                                  encode: WireMessage -> seq<byte>): (r: HttpRequest)
    ensures FeedMethod(r.url) == Some("LiveTrail")
    ensures r.content == encode(LiveTrailMessage(m)) && r.auth == auth
  {
    ConstructRequest("LiveTrail", LiveTrailMessage(m), auth, encode)
  }

  function HistoricTrailRequestCreate(m: CallerMessage, auth: Option<Credential>,
                                      encode: WireMessage -> seq<byte>): (r: HttpRequest)
    ensures FeedMethod(r.url) == Some("HistoricTrail")
    ensures r.content == encode(HistoricTrailMessage(m)) && r.auth == auth
  {
    ConstructRequest("HistoricTrail", HistoricTrailMessage(m), auth, encode)
  }

  //
  // projection of a response into rows
  //

  datatype RecentPosition = RecentPosition(deltaLat: int, deltaLon: int, deltaMs: int)
  datatype PositionBuffer = PositionBuffer(recentPositionsList: seq<RecentPosition>)
  datatype Route = Route(from: string, to: string)
  datatype Schedule = Schedule(eta: int)
  datatype ExtraInfo = ExtraInfo(
    reg: string, route: Option<Route>, aircraftType: string, schedule: Option<Schedule>,
    squawk: int, vspeed: int)

  /** A flight of a live feed response. Sub-messages may be absent; reading
      an absent one gives its default value, as protobuf does. */
  datatype Flight = Flight(
    timestamp: int, flightid: int, lat: Coordinate, lon: Coordinate, track: int, alt: int,
    speed: int, onGround: bool, callsign: string, source: int,
    extraInfo: Option<ExtraInfo>, positionBuffer: Option<PositionBuffer>)

  datatype LiveFeedResponse = LiveFeedResponse(flightsList: seq<Flight>)

  /** A row: one flight, flattened. */
  datatype RecentPositionRecord = RecentPositionRecord(deltaLat: int, deltaLon: int, deltaMs: int)
  datatype FlightRecord = FlightRecord(
    timestamp: int, flightid: int, latitude: Coordinate, longitude: Coordinate, track: int,
    altitude: int, groundSpeed: int, verticalSpeed: int, onGround: bool, callsign: string,
    source: int, registration: string, origin: string, destination: string, typecode: string,
    eta: int, squawk: int, positionBuffer: seq<RecentPositionRecord>)

  function ExtraInfoOf(f: Flight): ExtraInfo {
    f.extraInfo.GetOr(ExtraInfo("", None, "", None, 0, 0))
  }

  function RouteOf(e: ExtraInfo): Route {
    e.route.GetOr(Route("", ""))
  }

  function ScheduleOf(e: ExtraInfo): Schedule {
    e.schedule.GetOr(Schedule(0))
  }

  function PositionBufferOf(f: Flight): PositionBuffer {
    f.positionBuffer.GetOr(PositionBuffer([]))
  }

  /** `live_feed_position_buffer_dict`: one record per recent position, in
      the same order, with the three deltas copied. */
  function PositionBufferRecords(pb: PositionBuffer): (r: seq<RecentPositionRecord>)
    ensures |r| == |pb.recentPositionsList|
    ensures forall i :: 0 <= i < |r| ==>
      var p := pb.recentPositionsList[i];
      r[i] == RecentPositionRecord(p.deltaLat, p.deltaLon, p.deltaMs)
  {
    var ps := pb.recentPositionsList;
    seq(|ps|, i requires 0 <= i < |ps| => RecentPositionRecord(ps[i].deltaLat, ps[i].deltaLon, ps[i].deltaMs))
  }

  /** The positions a list of records was copied from. */
  function PositionsOfRecords(rs: seq<RecentPositionRecord>): (pb: PositionBuffer)
    ensures |pb.recentPositionsList| == |rs|
  {
    PositionBuffer(seq(|rs|, i requires 0 <= i < |rs| => RecentPosition(rs[i].deltaLat, rs[i].deltaLon, rs[i].deltaMs)))
  }

  /** The copy loses nothing: the positions can be read back from the rows. */
  lemma PositionBufferRoundTrip(pb: PositionBuffer)
    ensures PositionsOfRecords(PositionBufferRecords(pb)) == pb
  {
  }

  /** `live_feed_flightdata_dict`: total; top-level fields are copied, the
      route, registration, vertical speed, type, ETA and squawk are read
      from the extra info (defaults when it or its parts are absent). */
  function FlightRecordOf(f: Flight): (r: FlightRecord)
    ensures r.timestamp == f.timestamp && r.flightid == f.flightid
    ensures r.latitude == f.lat && r.longitude == f.lon && r.track == f.track
    ensures r.altitude == f.alt && r.groundSpeed == f.speed && r.onGround == f.onGround
    ensures r.callsign == f.callsign && r.source == f.source
    ensures r.registration == ExtraInfoOf(f).reg && r.verticalSpeed == ExtraInfoOf(f).vspeed
    ensures r.origin == RouteOf(ExtraInfoOf(f)).from && r.destination == RouteOf(ExtraInfoOf(f)).to
    ensures r.typecode == ExtraInfoOf(f).aircraftType && r.squawk == ExtraInfoOf(f).squawk
    ensures r.eta == ScheduleOf(ExtraInfoOf(f)).eta
    ensures PositionsOfRecords(r.positionBuffer) == PositionBufferOf(f)
  {
    var e := ExtraInfoOf(f);
    var route := RouteOf(e);
    PositionBufferRoundTrip(PositionBufferOf(f));
    FlightRecord(
      f.timestamp, f.flightid, f.lat, f.lon, f.track, f.alt, f.speed, e.vspeed, f.onGround,
      f.callsign, f.source, e.reg, route.from, route.to, e.aircraftType,
      ScheduleOf(e).eta, e.squawk, PositionBufferRecords(PositionBufferOf(f)))
  }

  /** A flight with none of its optional parts yields a row of empty
      strings, zeros and no positions, and no failure. */
  lemma FlightRecordOfBareFlight(f: Flight)
    requires f.extraInfo.None? && f.positionBuffer.None?
    ensures var r := FlightRecordOf(f);
      && r.registration == "" && r.origin == "" && r.destination == "" && r.typecode == ""
      && r.eta == 0 && r.squawk == 0 && r.verticalSpeed == 0 && r.positionBuffer == []
  {
    assert |FlightRecordOf(f).positionBuffer| == 0;
  }

  /** An extra info without route or schedule still gives its registration,
      with empty origin and destination and a zero ETA. */
  lemma FlightRecordOfPartialExtraInfo(f: Flight, e: ExtraInfo)
    requires f.extraInfo == Some(e) && e.route.None? && e.schedule.None?
    ensures var r := FlightRecordOf(f);
      r.registration == e.reg && r.origin == "" && r.destination == "" && r.eta == 0
  {
  }

  /** Applies `f` to each element, keeping the order: the shape of a list
      comprehension, and of `asyncio.gather` over one task per input. */
  function MapInOrder<A, B>(xs: seq<A>, f: A -> B): (ys: seq<B>)
    ensures |ys| == |xs|
    ensures forall i :: 0 <= i < |xs| ==> ys[i] == f(xs[i])
  {
    if xs == [] then [] else [f(xs[0])] + MapInOrder(xs[1..], f)
  }

  lemma {:induction false} MapInOrderAppend<A, B>(xs: seq<A>, ys: seq<A>, f: A -> B)
    ensures MapInOrder(xs + ys, f) == MapInOrder(xs, f) + MapInOrder(ys, f)
  {
    if xs != [] {
      MapInOrderAppend(xs[1..], ys, f);
      assert (xs + ys)[1..] == xs[1..] + ys;
    }
  }

  /** `live_feed_df`: exactly one row per flight, in the response's order. */
  function LiveFeedRows(resp: LiveFeedResponse): (rows: seq<FlightRecord>)
    ensures |rows| == |resp.flightsList|
    ensures forall i :: 0 <= i < |rows| ==> rows[i] == FlightRecordOf(resp.flightsList[i])
  {
    MapInOrder(resp.flightsList, FlightRecordOf)
  }

  //
  // batches
  //

  /** What `client.send` gives: a response body, or the exception it raised. */
  datatype SendOutcome = Response(body: seq<byte>) | Raised(exception: string)

  /** `live_feed_batched`: slot i holds what sending the request built from
      input i gave, whatever the other sends gave. */
  function LiveFeedBatched(send: HttpRequest -> SendOutcome, ms: seq<LiveFeedRequestLike>,
                           auth: Option<Credential>, encode: WireMessage -> seq<byte>): (rs: seq<SendOutcome>)
    ensures |rs| == |ms|
    ensures forall i :: 0 <= i < |ms| ==> rs[i] == send(LiveFeedRequestCreate(ms[i], auth, encode))
  {
    MapInOrder(ms, m => send(LiveFeedRequestCreate(m, auth, encode)))
  }

  /** `live_feed_playback_batched`: each request is built when its task is
      made, so input i is converted at its own clock reading `clock[i]`. */
  function PlaybackBatched(send: HttpRequest -> SendOutcome, ms: seq<PlaybackRequestLike>, clock: seq<int>,
                           auth: Option<Credential>, encode: WireMessage -> seq<byte>): (rs: seq<SendOutcome>)
    requires |clock| == |ms|
    ensures |rs| == |ms|
    ensures forall i :: 0 <= i < |ms| ==> rs[i] == send(PlaybackRequestCreate(ms[i], clock[i], auth, encode))
  {
    if ms == [] then []
    else [send(PlaybackRequestCreate(ms[0], clock[0], auth, encode))]
         + PlaybackBatched(send, ms[1..], clock[1..], auth, encode)
  }

  /** A batch of two lists is the batch of the first followed by the batch
      of the second. */
  lemma LiveFeedBatchedAppend(send: HttpRequest -> SendOutcome, ms: seq<LiveFeedRequestLike>,
                              ns: seq<LiveFeedRequestLike>, auth: Option<Credential>,
                              encode: WireMessage -> seq<byte>)
    ensures LiveFeedBatched(send, ms + ns, auth, encode)
         == LiveFeedBatched(send, ms, auth, encode) + LiveFeedBatched(send, ns, auth, encode)
  {
    MapInOrderAppend(ms, ns, m => send(LiveFeedRequestCreate(m, auth, encode)));
  }

  /** The nine builders call nine different methods of the same service:
      whatever their arguments, no two of their URLs name the same method. */
  lemma BuildersCallDistinctMethods(lf: LiveFeedRequestLike, pb: PlaybackRequestLike, now: int,
                                    nf: CallerMessage, lfs: CallerMessage, si: CallerMessage,
                                    ff: CallerMessage, tf: CallerMessage, lt: CallerMessage,
                                    ht: CallerMessage, auth: Option<Credential>,
                                    encode: WireMessage -> seq<byte>)
    ensures var urls := [LiveFeedRequestCreate(lf, auth, encode).url,
                         PlaybackRequestCreate(pb, now, auth, encode).url,
                         NearestFlightsRequestCreate(nf, auth, encode).url,
                         LiveFlightsStatusRequestCreate(lfs, auth, encode).url,
                         SearchIndexRequestCreate(si, auth, encode).url,
                         FollowFlightRequestCreate(ff, auth, encode).url,
                         TopFlightsRequestCreate(tf, auth, encode).url,
                         LiveTrailRequestCreate(lt, auth, encode).url,
                         HistoricTrailRequestCreate(ht, auth, encode).url];
      forall i, j :: 0 <= i < j < |urls| ==> FeedMethod(urls[i]) != FeedMethod(urls[j])
  {
  }
}
