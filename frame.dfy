/** gRPC-Web message framing, as the client decodes a response body.

    A frame is one flag byte, a 4-byte big-endian length and that many bytes
    of payload (the Length-Prefixed-Message of the "Requests" and "Responses"
    sections of the gRPC over HTTP/2 protocol). In gRPC-Web the most
    significant bit of the flag marks a trailers frame, whose payload is a
    list of CRLF-terminated `key:value` lines such as `grpc-status:5` and
    `grpc-message:Flight not found!`. Decoding turns such a trailer into an
    error value instead of failing, so that a status reported by the service
    can be inspected like any other result. */
module Frame {
  import opened Wrappers
  import opened Text

  const HeaderSize: nat := 5
  const LengthLimit: nat := 0x1_0000_0000
  const TrailerFlag: byte := 0x80
  const DataFlag: byte := 0x00

  const CR: byte := 0x0D
  const LF: byte := 0x0A
  const Colon: byte := 0x3A

  datatype Malformation = TruncatedHeader | TruncatedPayload | BadTrailer

  /** Why a response did not yield a message. */
  datatype Error =
    | GrpcError(status: nat, statusMessage: seq<byte>)
    | EmptyDataFrame
    | Malformed(reason: Malformation)

  /** The most significant bit of the flag byte marks a trailers frame. */
  predicate IsTrailerFlag(flag: byte) {
    flag >= 0x80
  }

  //
  // length prefix
  //

  function BigEndian32(b: seq<byte>): (n: nat)
    requires |b| == 4
    ensures n < LengthLimit
  {
    ((b[0] as nat * 0x100 + b[1] as nat) * 0x100 + b[2] as nat) * 0x100 + b[3] as nat
  }

  function EncodeBigEndian32(n: nat): (b: seq<byte>)
    requires n < LengthLimit
    ensures |b| == 4
  {
    [(n / 0x100_0000) as byte, (n / 0x1_0000 % 0x100) as byte,
     (n / 0x100 % 0x100) as byte, (n % 0x100) as byte]
  }

  lemma BigEndian32RoundTrip(n: nat)
    requires n < LengthLimit
    ensures BigEndian32(EncodeBigEndian32(n)) == n
  {
    var b := EncodeBigEndian32(n);
    assert n == (n / 0x100) * 0x100 + n % 0x100;
    assert n / 0x100 == (n / 0x1_0000) * 0x100 + n / 0x100 % 0x100;
    assert n / 0x1_0000 == (n / 0x100_0000) * 0x100 + n / 0x1_0000 % 0x100;
    assert b[0] as nat == n / 0x100_0000;
  }

  /** One frame: flag, big-endian length, payload. */
  function EncodeFrame(flag: byte, payload: seq<byte>): (f: seq<byte>)
    requires |payload| < LengthLimit
    ensures |f| == HeaderSize + |payload|
    ensures f[0] == flag && BigEndian32(f[1..HeaderSize]) == |payload|
    ensures f[HeaderSize..] == payload
  {
    BigEndian32RoundTrip(|payload|);
    [flag] + EncodeBigEndian32(|payload|) + payload
  }

  //
  // trailer lines
  //

  predicate CrlfAt(p: seq<byte>, i: int) {
    0 <= i && i + 1 < |p| && p[i] == CR && p[i + 1] == LF
  }

  predicate NoCrlf(p: seq<byte>) {
    forall i :: 0 <= i < |p| ==> !CrlfAt(p, i)
  }

  /** The position of the first CRLF in `p`, or `|p|` when there is none. */
  function CrlfIndex(p: seq<byte>): (i: nat)
    ensures i <= |p|
    ensures i < |p| ==> CrlfAt(p, i)
    ensures forall j :: 0 <= j < i ==> !CrlfAt(p, j)
    decreases |p|
  {
    if |p| < 2 then |p|
    else if p[0] == CR && p[1] == LF then 0
    else
      var k := CrlfIndex(p[1..]);
      assert forall j :: 1 <= j <= k + 1 ==> (CrlfAt(p, j) <==> CrlfAt(p[1..], j - 1));
      k + 1
  }

  /** The payload cut at every CRLF; the part after the last CRLF is a line
      too when it is not empty. */
  function Lines(p: seq<byte>): (ls: seq<seq<byte>>)
    ensures forall k :: 0 <= k < |ls| ==> NoCrlf(ls[k])
    decreases |p|
  {
    if p == [] then []
    else
      var i := CrlfIndex(p);
      assert NoCrlf(p[..i]) by {
        forall j | 0 <= j < i ensures !CrlfAt(p[..i], j) {
          assert CrlfAt(p[..i], j) ==> CrlfAt(p, j);
        }
      }
      if i == |p| then [p] else [p[..i]] + Lines(p[i + 2..])
  }

  lemma LinesCons(line: seq<byte>, rest: seq<byte>)
    requires NoCrlf(line)
    ensures Lines(line + [CR, LF] + rest) == [line] + Lines(rest)
  {
    var p := line + [CR, LF] + rest;
    assert CrlfAt(p, |line|);
    forall j | 0 <= j < |line| ensures !CrlfAt(p, j) {
      if j + 1 < |line| {
        assert !CrlfAt(line, j);
      }
    }
    assert CrlfIndex(p) == |line|;
    assert p[..|line|] == line;
    assert p[|line| + 2..] == rest;
  }

  /** The position of the first colon of a line, or its length. */
  function ColonIndex(line: seq<byte>): (i: nat)
    ensures i <= |line|
    ensures i < |line| ==> line[i] == Colon
    ensures forall j :: 0 <= j < i ==> line[j] != Colon
  {
    if line == [] then 0
    else if line[0] == Colon then 0
    else ColonIndex(line[1..]) + 1
  }

  lemma ColonIndexOf(key: seq<byte>, value: seq<byte>)
    requires Colon !in key
    ensures ColonIndex(key + [Colon] + value) == |key|
  {
    var line := key + [Colon] + value;
    assert forall j :: 0 <= j < |key| ==> line[j] == key[j] && line[j] != Colon;
    assert line[|key|] == Colon;
  }

  /** A `key:value` line split at its first colon. */
  function SplitField(line: seq<byte>): (kv: Option<(seq<byte>, seq<byte>)>)
    ensures kv.Some? <==> Colon in line
    ensures kv.Some? ==> line == kv.value.0 + [Colon] + kv.value.1 && Colon !in kv.value.0
  {
    var i := ColonIndex(line);
    if i == |line| then None
    else
      assert line == line[..i] + [Colon] + line[i + 1..];
      Some((line[..i], line[i + 1..]))
  }

  /** The value of the last line whose key is `key`. */
  function LookupField(lines: seq<seq<byte>>, key: seq<byte>): (v: Option<seq<byte>>)
    ensures v.Some? ==> exists k :: 0 <= k < |lines| && lines[k] == key + [Colon] + v.value
  {
    if lines == [] then None
    else
      var last := lines[|lines| - 1];
      match SplitField(last)
      case Some((k, v)) =>
        if k == key then Some(v) else LookupField(lines[..|lines| - 1], key)
      case None => LookupField(lines[..|lines| - 1], key)
  }

  /** Every non-empty line of a well-formed trailer holds a colon. */
  predicate WellFormedLines(lines: seq<seq<byte>>) {
    forall k :: 0 <= k < |lines| ==> lines[k] == [] || Colon in lines[k]
  }

  function StatusKey(): (b: seq<byte>)
    ensures Colon !in b
  {
    Bytes("grpc-status")
  }

  function MessageKey(): (b: seq<byte>)
    ensures Colon !in b
  {
    Bytes("grpc-message")
  }

  /** The error a trailers frame reports: its `grpc-status` as a number and
      its `grpc-message` as raw bytes (empty when absent). A trailer without
      a decimal `grpc-status` is malformed. */
  function TrailerError(payload: seq<byte>): (e: Error)
    ensures e.GrpcError? || e == Malformed(BadTrailer)
    ensures e.GrpcError? ==> LookupField(Lines(payload), StatusKey()).Some?
  {
    var lines := Lines(payload);
    if !WellFormedLines(lines) then Malformed(BadTrailer)
    else
      match LookupField(lines, StatusKey())
      case None => Malformed(BadTrailer)
      case Some(v) =>
        match ParseNat(Chars(v))
        case None => Malformed(BadTrailer)
        case Some(status) => GrpcError(status, LookupField(lines, MessageKey()).GetOr([]))
  }

  /** The trailer a server writes for a status and a message. */
  function EncodeTrailer(status: nat, message: seq<byte>): (p: seq<byte>)
  {
    StatusKey() + [Colon] + Bytes(NatToString(status)) + [CR, LF]
      + MessageKey() + [Colon] + message + [CR, LF]
  }

  //
  // decoding
  //

  /** Decodes the first frame of a response body. A trailers frame yields
      its status as an error; a data frame yields its payload parsed by
      `parse`; anything after the first frame is not looked at. */
  function Decode<M>(buf: seq<byte>, parse: seq<byte> -> M): (r: Result<M, Error>)
    ensures r.IsOk() ==> |buf| >= HeaderSize && !IsTrailerFlag(buf[0])
    ensures r.IsOk() ==>
              && HeaderSize + BigEndian32(buf[1..HeaderSize]) <= |buf|
              && r.value == parse(buf[HeaderSize..HeaderSize + BigEndian32(buf[1..HeaderSize])])
    ensures r.IsErr() && r.error.GrpcError? ==> buf != [] && IsTrailerFlag(buf[0])
    ensures r == Err(EmptyDataFrame) <==> buf == []
    ensures 0 < |buf| < HeaderSize ==> r == Err(Malformed(TruncatedHeader))
    ensures |buf| >= HeaderSize && HeaderSize + BigEndian32(buf[1..HeaderSize]) > |buf| ==>
              r == Err(Malformed(TruncatedPayload))
  {
    if buf == [] then Err(EmptyDataFrame)
    else if |buf| < HeaderSize then Err(Malformed(TruncatedHeader))
    else
      var length := BigEndian32(buf[1..HeaderSize]);
      if HeaderSize + length > |buf| then Err(Malformed(TruncatedPayload))
      else
        var payload := buf[HeaderSize..HeaderSize + length];
        if IsTrailerFlag(buf[0]) then Err(TrailerError(payload))
        else Ok(parse(payload))
  }

  /** A trailers frame whose length runs past the end of the body is
      malformed, not a status error. */
  lemma TruncatedTrailerIsMalformed<M>(parse: seq<byte> -> M)
    ensures Decode([0x80, 0x00, 0x00, 0x00, 0x63], parse) == Err(Malformed(TruncatedPayload))
  {
    var buf: seq<byte> := [0x80, 0x00, 0x00, 0x00, 0x63];
    assert buf[1..HeaderSize] == [0x00, 0x00, 0x00, 0x63];
  }

  /** A body that starts with a trailers frame is an error, never a message. */
  lemma TrailerFrameIsErr<M>(buf: seq<byte>, parse: seq<byte> -> M)
    requires buf != [] && IsTrailerFlag(buf[0])
    ensures Decode(buf, parse).IsErr()
  {
  }

  /** Round trip: a data frame carrying the serialised message decodes to
      that message, whatever follows the frame. */
  lemma DecodeDataFrame<M>(m: M, serialize: M -> seq<byte>, parse: seq<byte> -> M, rest: seq<byte>)
    requires |serialize(m)| < LengthLimit
    requires parse(serialize(m)) == m
    ensures Decode(EncodeFrame(DataFlag, serialize(m)) + rest, parse) == Ok(m)
  {
    var f := EncodeFrame(DataFlag, serialize(m));
    var buf := f + rest;
    assert buf[1..HeaderSize] == f[1..HeaderSize];
    assert buf[HeaderSize..HeaderSize + |serialize(m)|] == serialize(m);
  }

  /** The two lines of a trailer written by `EncodeTrailer`. */
  function StatusLine(status: nat): seq<byte> {
    StatusKey() + [Colon] + Bytes(NatToString(status))
  }

  function MessageLine(message: seq<byte>): seq<byte> {
    MessageKey() + [Colon] + message
  }

  lemma StatusLineNoCrlf(status: nat)
    ensures NoCrlf(StatusLine(status))
  {
    var statusLine := StatusLine(status);
    forall j | 0 <= j < |statusLine| ensures !CrlfAt(statusLine, j) {
      if j < |StatusKey()| {
        assert statusLine[j] == StatusKey()[j];
        assert "grpc-status"[j] in "grpc-status";
      } else if j > |StatusKey()| {
        var d := NatToString(status);
        assert statusLine[j] as int == d[j - |StatusKey()| - 1] as int;
      }
    }
  }

  lemma MessageLineNoCrlf(message: seq<byte>)
    requires NoCrlf(message)
    ensures NoCrlf(MessageLine(message))
  {
    var messageLine := MessageLine(message);
    forall j | 0 <= j < |messageLine| ensures !CrlfAt(messageLine, j) {
      if j < |MessageKey()| {
        assert messageLine[j] == MessageKey()[j];
        assert "grpc-message"[j] in "grpc-message";
      } else if j > |MessageKey()| {
        assert !CrlfAt(message, j - |MessageKey()| - 1);
      }
    }
  }

  /** A trailer is its status line and its message line, each ended by CRLF. */
  lemma EncodeTrailerLines(status: nat, message: seq<byte>)
    ensures EncodeTrailer(status, message) == (StatusLine(status) + [CR, LF]) + (MessageLine(message) + [CR, LF])
  {
  }

  lemma TrailerLines(status: nat, message: seq<byte>)
    requires NoCrlf(message)
    ensures Lines(EncodeTrailer(status, message)) == [StatusLine(status), MessageLine(message)]
  {
    var statusLine, messageLine := StatusLine(status), MessageLine(message);
    EncodeTrailerLines(status, message);
    assert messageLine + [CR, LF] == messageLine + [CR, LF] + [];
    StatusLineNoCrlf(status);
    MessageLineNoCrlf(message);
    LinesCons(statusLine, messageLine + [CR, LF] + []);
    LinesCons(messageLine, []);
  }

  lemma StatusKeyIsNotMessageKey()
    ensures StatusKey() != MessageKey()
  {
    assert |StatusKey()| != |MessageKey()|;
  }

  /** The status line splits into the status key and the digits. */
  lemma StatusLineField(status: nat)
    ensures Colon in StatusLine(status)
    ensures SplitField(StatusLine(status)) == Some((StatusKey(), Bytes(NatToString(status))))
  {
    var statusLine, digits := StatusLine(status), Bytes(NatToString(status));
    ColonIndexOf(StatusKey(), digits);
    assert statusLine[|StatusKey()|] == Colon;
    assert statusLine[..|StatusKey()|] == StatusKey();
    assert statusLine[|StatusKey()| + 1..] == digits;
  }

  /** The message line splits into the message key and the message. */
  lemma MessageLineField(message: seq<byte>)
    ensures Colon in MessageLine(message)
    ensures SplitField(MessageLine(message)) == Some((MessageKey(), message))
  {
    var messageLine := MessageLine(message);
    ColonIndexOf(MessageKey(), message);
    assert messageLine[|MessageKey()|] == Colon;
    assert messageLine[..|MessageKey()|] == MessageKey();
    assert messageLine[|MessageKey()| + 1..] == message;
  }

  /** The digits of the status line read back as the status. */
  lemma StatusDigits(status: nat)
    ensures ParseNat(Chars(Bytes(NatToString(status)))) == Some(status)
  {
    assert forall i :: 0 <= i < |NatToString(status)| ==> IsDigit(NatToString(status)[i]);
    CharsOfBytes(NatToString(status));
    ParseNatToString(status);
  }

  /** A trailer written by `EncodeTrailer` reports the status and message it
      was written with. */
  lemma TrailerErrorRoundTrip(status: nat, message: seq<byte>)
    requires NoCrlf(message)
    ensures TrailerError(EncodeTrailer(status, message)) == GrpcError(status, message)
  {
    var statusLine, messageLine := StatusLine(status), MessageLine(message);
    var digits := Bytes(NatToString(status));
    TrailerLines(status, message);
    var lines := [statusLine, messageLine];
    StatusLineField(status);
    MessageLineField(message);
    assert WellFormedLines(lines);
    assert LookupField(lines, MessageKey()) == Some(message);
    StatusKeyIsNotMessageKey();
    assert lines[..1] == [statusLine];
    assert LookupField(lines, StatusKey()) == Some(digits);
    StatusDigits(status);
  }

  /** A trailers frame, whatever follows it, decodes to the error its
      payload reports. */
  lemma DecodeTrailerPayload<M>(p: seq<byte>, parse: seq<byte> -> M, rest: seq<byte>)
    requires |p| < LengthLimit
    ensures Decode(EncodeFrame(TrailerFlag, p) + rest, parse) == Err(TrailerError(p))
  {
    var f := EncodeFrame(TrailerFlag, p);
    var buf := f + rest;
    assert buf[1..HeaderSize] == f[1..HeaderSize];
    assert buf[HeaderSize..HeaderSize + |p|] == p;
  }

  /** Round trip for trailers: the status and message a server writes are
      the ones decoding reports, provided the message holds no CRLF. */
  lemma DecodeTrailerFrame<M>(status: nat, message: seq<byte>, parse: seq<byte> -> M, rest: seq<byte>)
    requires NoCrlf(message)
    requires |EncodeTrailer(status, message)| < LengthLimit
    ensures Decode(EncodeFrame(TrailerFlag, EncodeTrailer(status, message)) + rest, parse)
         == Err(GrpcError(status, message))
  {
    DecodeTrailerPayload(EncodeTrailer(status, message), parse, rest);
    TrailerErrorRoundTrip(status, message);
  }

  /** A trailer with a status line only reports an empty message. */
  lemma StatusOnlyTrailer(status: nat)
    ensures TrailerError(StatusLine(status) + [CR, LF]) == GrpcError(status, [])
  {
    var statusLine := StatusLine(status);
    var digits := Bytes(NatToString(status));
    StatusLineNoCrlf(status);
    assert statusLine + [CR, LF] == statusLine + [CR, LF] + [];
    LinesCons(statusLine, []);
    var lines := [statusLine];
    assert Lines(statusLine + [CR, LF]) == lines;
    StatusLineField(status);
    assert WellFormedLines(lines);
    assert LookupField(lines, StatusKey()) == Some(digits);
    StatusKeyIsNotMessageKey();
    assert lines[..0] == [];
    assert LookupField(lines, MessageKey()) == None;
    StatusDigits(status);
  }

  //
  // observed bodies
  //

  /** The trailer the service sent for an unknown flight: flag 0x80, length
      0x0000002f (the byte `/`), then 47 bytes of trailer. */
  function FlightNotFoundBody(): seq<byte>
  {
    [0x80, 0x00, 0x00, 0x00, 0x2f] + Bytes("grpc-status:5\r\ngrpc-message:Flight not found!\r\n")
  }

  /** The status line of a trailer, with its CRLF, as ASCII text. */
  lemma StatusLineText(status: nat)
    ensures Bytes("grpc-status" + ":" + NatToString(status) + "\r\n") == StatusLine(status) + [CR, LF]
  {
    assert Bytes(":") == [Colon];
    assert Bytes("\r\n") == [CR, LF];
    BytesAppend("grpc-status", ":");
    BytesAppend("grpc-status" + ":", NatToString(status));
    BytesAppend("grpc-status" + ":" + NatToString(status), "\r\n");
  }

  /** The message line of a trailer, with its CRLF, as ASCII text. */
  lemma MessageLineText(message: string)
    ensures Bytes("grpc-message" + ":" + message + "\r\n") == MessageLine(Bytes(message)) + [CR, LF]
  {
    assert Bytes(":") == [Colon];
    assert Bytes("\r\n") == [CR, LF];
    BytesAppend("grpc-message", ":");
    BytesAppend("grpc-message" + ":", message);
    BytesAppend("grpc-message" + ":" + message, "\r\n");
  }

  /** The recorded trailer is its two lines, one after the other. */
  lemma FlightNotFoundLines()
    ensures "grpc-status:5\r\ngrpc-message:Flight not found!\r\n"
         == "grpc-status:5\r\n" + "grpc-message:Flight not found!\r\n"
  {
  }

  lemma FlightNotFoundStatusLine()
    ensures Bytes("grpc-status:5\r\n") == StatusLine(5) + [CR, LF]
  {
    assert NatToString(5) == "5";
    StatusLineText(5);
    assert "grpc-status" + ":" + "5" + "\r\n" == "grpc-status:5\r\n";
  }

  lemma FlightNotFoundMessageLine()
    ensures Bytes("grpc-message:Flight not found!\r\n") == MessageLine(Bytes("Flight not found!")) + [CR, LF]
  {
    MessageLineText("Flight not found!");
    assert "grpc-message" + ":" + "Flight not found!" + "\r\n" == "grpc-message:Flight not found!\r\n";
  }

  lemma FlightNotFoundTrailer()
    ensures Bytes("grpc-status:5\r\ngrpc-message:Flight not found!\r\n")
         == EncodeTrailer(5, Bytes("Flight not found!"))
  {
    FlightNotFoundLines();
    BytesAppend("grpc-status:5\r\n", "grpc-message:Flight not found!\r\n");
    FlightNotFoundStatusLine();
    FlightNotFoundMessageLine();
    EncodeTrailerLines(5, Bytes("Flight not found!"));
  }

  lemma FlightNotFoundBodyIsTrailerFrame()
    ensures FlightNotFoundBody() == EncodeFrame(TrailerFlag, EncodeTrailer(5, Bytes("Flight not found!")))
  {
    FlightNotFoundTrailer();
    assert EncodeBigEndian32(47) == [0x00, 0x00, 0x00, 0x2f];
  }

  lemma FlightNotFoundMessageNoCrlf()
    ensures NoCrlf(Bytes("Flight not found!"))
  {
    var message := Bytes("Flight not found!");
    forall j | 0 <= j < |message| ensures !CrlfAt(message, j) {
      assert "Flight not found!"[j] in "Flight not found!";
    }
  }

  /** The body of the recorded "Flight not found!" response decodes to
      status 5 with exactly the bytes of that message. */
  lemma DecodeFlightNotFound<M>(parse: seq<byte> -> M)
    ensures Decode(FlightNotFoundBody(), parse) == Err(GrpcError(5, Bytes("Flight not found!")))
  {
    var message := Bytes("Flight not found!");
    FlightNotFoundMessageNoCrlf();
    FlightNotFoundBodyIsTrailerFrame();
    assert FlightNotFoundBody() == FlightNotFoundBody() + [];
    DecodeTrailerFrame(5, message, parse, []);
  }

  /** The trailer that closes a successful response: `grpc-status:0`. */
  function StatusOkTrailerFrame(): seq<byte>
  {
    [0x80, 0x00, 0x00, 0x00, 0x0f] + Bytes("grpc-status:0\r\n")
  }

  lemma StatusOkTrailer()
    ensures StatusOkTrailerFrame() == EncodeFrame(TrailerFlag, StatusLine(0) + [CR, LF])
  {
    assert NatToString(0) == "0";
    StatusLineText(0);
    assert "grpc-status" + ":" + "0" + "\r\n" == "grpc-status:0\r\n";
    assert EncodeBigEndian32(15) == [0x00, 0x00, 0x00, 0x0f];
  }

  /** A response body made of one data frame followed by the `grpc-status:0`
      trailer decodes to the message of the data frame; the trailer on its
      own is a status-0 error, since it carries no message. */
  lemma DecodeResponseWithOkTrailer<M>(m: M, serialize: M -> seq<byte>, parse: seq<byte> -> M)
    requires |serialize(m)| < LengthLimit
    requires parse(serialize(m)) == m
    ensures Decode(EncodeFrame(DataFlag, serialize(m)) + StatusOkTrailerFrame(), parse) == Ok(m)
    ensures Decode(StatusOkTrailerFrame(), parse) == Err(GrpcError(0, []))
  {
    DecodeDataFrame(m, serialize, parse, StatusOkTrailerFrame());
    var t := StatusLine(0) + [CR, LF];
    StatusOkTrailer();
    assert StatusOkTrailerFrame() == EncodeFrame(TrailerFlag, t) + [];
    DecodeTrailerPayload(t, parse, []);
    StatusOnlyTrailer(0);
  }
}
