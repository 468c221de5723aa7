/**
 * A response body on its way from a worker's backend to the gateway's pipe
 * (tokiame/client_data.go, tokilake-core/tunnel_stream.go, tokilake-core/roundtrip.go,
 * tokilake-core/ws_conn.go).
 *
 * The body is cut into reads, each read becomes a frame, frames become newline-terminated JSON,
 * and the byte stream arrives in arbitrary pieces. Methods are the code; each is tied to a
 * function of the bytes it consumed, so the end-to-end theorem quantifies over every cut.
 */
module TunnelStream {
  import opened Basics
  import opened Text

  const NEWLINE: byte := 10

  /** The ASCII part of bytes.TrimSpace. */
  predicate IsSpaceByte(b: byte) {
    9 <= b <= 13 || b == 32
  }

  datatype ErrorMessage = ErrorMessage(code: string, message: string)

  /** `TunnelResponse`. */
  datatype Frame = Frame(
    requestId: string, statusCode: int, headers: map<string, string>, bodyChunk: seq<byte>, eof: bool,
    error: Option<ErrorMessage>)

  /** JSON marshalling: any encoding that decodes back and is one non-empty line without outer space. */
  datatype Json = Json(encode: Frame -> seq<byte>, decode: seq<byte> -> Option<Frame>)

  ghost predicate Lawful(json: Json) {
    forall f :: LawfulOn(json, f)
  }

  ghost predicate LawfulOn(json: Json, f: Frame) {
    var text := json.encode(f);
    text != [] && NEWLINE !in text && Trimmed(text, IsSpaceByte) && json.decode(text) == Some(f)
  }

  // ----- The worker: one frame per local read

  datatype ReadStatus = More | Eof | Fail(message: string)

  /** One result of `response.Body.Read`. */
  datatype LocalRead = LocalRead(data: seq<byte>, status: ReadStatus)

  const CHUNK_SIZE: nat := 32 * 1024

  /** What a reader may do: any number of reads that fit the buffer, the last of which ends the body. */
  predicate IsScript(script: seq<LocalRead>) {
    && script != []
    && (forall i :: 0 <= i < |script| ==> |script[i].data| <= CHUNK_SIZE)
    && (forall i :: 0 <= i < |script| ==> (script[i].status == More <==> i < |script| - 1))
  }

  function Body(script: seq<LocalRead>): seq<byte> {
    if script == [] then [] else script[0].data + Body(script[1..])
  }

  function HeaderFrame(requestId: string, statusCode: int, headers: map<string, string>): Frame {
    Frame(requestId, statusCode, headers, [], false, None)
  }

  function ChunkFrame(requestId: string, data: seq<byte>): Frame {
    Frame(requestId, 0, map[], data, false, None)
  }

  function EofFrame(requestId: string): Frame {
    Frame(requestId, 0, map[], [], true, None)
  }

  function FailFrame(requestId: string, message: string): Frame {
    Frame(requestId, 0, map[], [], false, Some(ErrorMessage("read_local_response_failed", message)))
  }

  /** The frames one read gives rise to. */
  function ReadFrames(requestId: string, r: LocalRead): seq<Frame> {
    (if r.data == [] then [] else [ChunkFrame(requestId, r.data)]) + EndFrames(requestId, r.status)
  }

  function EndFrames(requestId: string, status: ReadStatus): seq<Frame> {
    match status
    case More => []
    case Eof => [EofFrame(requestId)]
    case Fail(message) => [FailFrame(requestId, message)]
  }

  /** The frames of a body, header excluded. */
  function BodyFrames(requestId: string, script: seq<LocalRead>): seq<Frame> {
    if script == [] then [] else ReadFrames(requestId, script[0]) + BodyFrames(requestId, script[1..])
  }

  /** A frame on the stream. */
  function Line(json: Json, f: Frame): seq<byte> {
    json.encode(f) + [NEWLINE]
  }

  function EncodeAll(json: Json, frames: seq<Frame>): seq<byte> {
    if frames == [] then [] else Line(json, frames[0]) + EncodeAll(json, frames[1..])
  }

  function Min(a: nat, b: nat): nat {
    if a < b then a else b
  }

  /** Writing `all` to a stream with room for `room` bytes: what fits is sent, and it succeeds if everything fits. */
  ghost predicate Sent(before: seq<byte>, room: nat, all: seq<byte>, after: seq<byte>, left: nat, ok: bool) {
    var n := Min(room, |all|);
    after == before + all[..n] && left == room - n && ok == (|all| <= room)
  }

  lemma SentThen(before: seq<byte>, room: nat, a: seq<byte>, between: seq<byte>, rest: nat,
                 b: seq<byte>, after: seq<byte>, left: nat, ok: bool)
    requires Sent(before, room, a, between, rest, true) && Sent(between, rest, b, after, left, ok)
    ensures Sent(before, room, a + b, after, left, ok)
  {
    var n := Min(rest, |b|);
    TakeOfConcat(a, b, |a| + n);
    Assoc(before, a, b[..n]);
  }

  lemma SentInPart(before: seq<byte>, room: nat, a: seq<byte>, b: seq<byte>, after: seq<byte>, left: nat)
    requires Sent(before, room, a, after, left, false)
    ensures Sent(before, room, a + b, after, left, false)
  {
    assert (a + b)[..room] == a[..room];
  }

  /** The worker's end of the stream, which takes `room` more bytes and then breaks, inside a line or between two. */
  class FrameWriter {
    const json: Json
    var sent: seq<byte>
    var room: nat

    constructor (json: Json, room: nat)
      ensures sent == [] && this.json == json && this.room == room
    {
      this.json := json;
      this.room := room;
      sent := [];
    }

    method WriteResponse(f: Frame) returns (ok: bool)
      modifies this
      ensures Sent(old(sent), old(room), Line(json, f), sent, room, ok)
    {
      var data := json.encode(f) + [NEWLINE];
      if |data| > room {
        sent, room := sent + data[..room], 0;
        return false;
      }
      sent, room := sent + data, room - |data|;
      assert data[..|data|] == data;
      return true;
    }

    /** The loop body of `WriteHTTPResponse`. */
    method WriteRead(requestId: string, r: LocalRead) returns (ok: bool)
      modifies this
      ensures Sent(old(sent), old(room), EncodeAll(json, ReadFrames(requestId, r)), sent, room, ok)
    {
      ghost var chunk := if r.data == [] then [] else [ChunkFrame(requestId, r.data)];
      ghost var last := EndFrames(requestId, r.status);
      EncodeConcat(json, chunk, last);
      ok := true;
      if |r.data| > 0 {
        EncodeOne(json, chunk[0]);
        ok := WriteResponse(ChunkFrame(requestId, r.data));
        if !ok {
          SentInPart(old(sent), old(room), EncodeAll(json, chunk), EncodeAll(json, last), sent, room);
          return;
        }
      }
      ghost var between, rest := sent, room;
      if r.status == Eof {
        EncodeOne(json, last[0]);
        ok := WriteResponse(EofFrame(requestId));
      } else if r.status.Fail? {
        EncodeOne(json, last[0]);
        ok := WriteResponse(FailFrame(requestId, r.status.message));
      }
      SentThen(old(sent), old(room), EncodeAll(json, chunk), between, rest, EncodeAll(json, last), sent, room, ok);
    }

    /** The loop of `WriteHTTPResponse`. */
    method WriteBody(requestId: string, script: seq<LocalRead>) returns (ok: bool)
      requires IsScript(script)
      modifies this
      ensures Sent(old(sent), old(room), EncodeAll(json, BodyFrames(requestId, script)), sent, room, ok)
    {
      ghost var done: seq<Frame> := [];
      ghost var all := BodyFrames(requestId, script);
      for i := 0 to |script|
        invariant done + BodyFrames(requestId, script[i..]) == all
        invariant Sent(old(sent), old(room), EncodeAll(json, done), sent, room, true)
      {
        assert script[i..][0] == script[i] && script[i..][1..] == script[i + 1..];
        ghost var now, later := ReadFrames(requestId, script[i]), BodyFrames(requestId, script[i + 1..]);
        Assoc(done, now, later);
        ghost var between, rest := sent, room;
        ok := WriteRead(requestId, script[i]);
        EncodeConcat(json, done, now);
        SentThen(old(sent), old(room), EncodeAll(json, done), between, rest, EncodeAll(json, now), sent, room, ok);
        if !ok {
          EncodeConcat(json, done + now, later);
          SentInPart(old(sent), old(room), EncodeAll(json, done + now), EncodeAll(json, later), sent, room);
          return;
        }
        done := done + now;
      }
      assert done == all;
      ok := true;
    }

    /**
     * Sends the header, then the body read by read. What gets out is a prefix of the whole encoding, cut at any byte;
     * `ok` says that the body ended well and all of it was sent.
     */
    method WriteHTTPResponse(requestId: string, statusCode: int, headers: map<string, string>, script: seq<LocalRead>)
      returns (ok: bool)
      requires IsScript(script)
      modifies this
      ensures var all := EncodeAll(json, [HeaderFrame(requestId, statusCode, headers)] + BodyFrames(requestId, script));
        && Sent(old(sent), old(room), all, sent, room, |all| <= old(room))
        && ok == (|all| <= old(room) && script[|script| - 1].status == Eof)
    {
      ghost var header, body := HeaderFrame(requestId, statusCode, headers), BodyFrames(requestId, script);
      EncodeConcat(json, [header], body);
      EncodeOne(json, header);
      ok := WriteResponse(HeaderFrame(requestId, statusCode, headers));
      if !ok {
        SentInPart(old(sent), old(room), EncodeAll(json, [header]), EncodeAll(json, body), sent, room);
        return;
      }
      ghost var between, rest := sent, room;
      ok := WriteBody(requestId, script);
      SentThen(old(sent), old(room), EncodeAll(json, [header]), between, rest, EncodeAll(json, body), sent, room, ok);
      ok := ok && script[|script| - 1].status == Eof;
    }
  }

  lemma EncodeOne(json: Json, f: Frame)
    ensures EncodeAll(json, [f]) == Line(json, f)
  {
    assert [f][1..] == [];
  }

  lemma {:induction false} EncodeConcat(json: Json, a: seq<Frame>, b: seq<Frame>)
    ensures EncodeAll(json, a + b) == EncodeAll(json, a) + EncodeAll(json, b)
  {
    if a == [] {
      assert a + b == b;
    } else {
      var line, rest, later := Line(json, a[0]), EncodeAll(json, a[1..]), EncodeAll(json, b);
      EncodeConcat(json, a[1..], b);
      TailOfConcat(a, b);
      Assoc(line, rest, later);
    }
  }

  // ----- The gateway: lines out of a byte stream that arrives in pieces

  function Flatten(pieces: seq<seq<byte>>): seq<byte> {
    if pieces == [] then [] else pieces[0] + Flatten(pieces[1..])
  }

  /** Position of the first newline, or the length. */
  function FirstNewline(bytes: seq<byte>): (n: nat)
    ensures n <= |bytes| && NEWLINE !in bytes[..n] && (n < |bytes| ==> bytes[n] == NEWLINE)
  {
    if bytes == [] || bytes[0] == NEWLINE then 0
    else
      var n := 1 + FirstNewline(bytes[1..]);
      assert bytes[..n] == [bytes[0]] + bytes[1..][..n - 1];
      n
  }

  datatype Outcome =
    | Got(frame: Frame, rest: seq<byte>)
    | Undecodable(rest: seq<byte>)
    | EndOfStream

  /** What `ReadResponse` returns on a stream that holds exactly these bytes. */
  function NextFrame(json: Json, bytes: seq<byte>): (o: Outcome)
    ensures o.Got? ==> |o.rest| < |bytes|
    decreases |bytes|
  {
    var n := FirstNewline(bytes);
    if n == |bytes| then EndOfStream
    else
      var line, rest := Trim(bytes[..n + 1], IsSpaceByte), bytes[n + 1..];
      if line == [] then NextFrame(json, rest)
      else match json.decode(line)
        case None => Undecodable(rest)
        case Some(f) => Got(f, rest)
  }

  /** The error a stream ends with: io.EOF after a close by the other side, or something else. */
  datatype StreamError = IoEof | OtherError

  /** bufio.Reader over a stream whose successive reads return `pieces` and then `last`. */
  class FrameReader {
    const json: Json
    const last: StreamError
    var buffer: seq<byte>
    var pieces: seq<seq<byte>>

    ghost function Unread(): seq<byte>
      reads this
    {
      buffer + Flatten(pieces)
    }

    constructor (json: Json, pieces: seq<seq<byte>>, last: StreamError)
      ensures this.json == json && this.last == last && Unread() == Flatten(pieces)
    {
      this.json := json;
      this.last := last;
      this.pieces := pieces;
      buffer := [];
    }

    /** Up to and including the next newline, however the bytes arrive. */
    method ReadLine() returns (line: seq<byte>, ok: bool)
      modifies this
      ensures var n := FirstNewline(old(Unread()));
        && ok == (n < |old(Unread())|)
        && (ok ==> line == old(Unread())[..n + 1] && Unread() == old(Unread())[n + 1..])
    {
      while true
        invariant Unread() == old(Unread())
        decreases |pieces|
      {
        var n := FirstNewline(buffer);
        NewlineInPrefix(buffer, Flatten(pieces));
        if n < |buffer| {
          line, buffer := buffer[..n + 1], buffer[n + 1..];
          return line, true;
        }
        if pieces == [] {
          return buffer, false;
        }
        buffer, pieces := buffer + pieces[0], pieces[1..];
      }
    }

    /** The next frame, or how a pipe closed with the error ends for its reader: a stream's own error is not wrapped. */
    method ReadResponse() returns (f: Option<Frame>, end: End)
      modifies this
      ensures match NextFrame(json, old(Unread()))
        case Got(frame, rest) => f == Some(frame) && Unread() == rest
        case EndOfStream => f == None && end == SeenAs(last)
        case Undecodable(_) => f == None && end == StreamBroken
    {
      while true
        invariant NextFrame(json, Unread()) == NextFrame(json, old(Unread()))
        decreases |Unread()|
      {
        var line, ok := ReadLine();
        if !ok {
          return None, SeenAs(last);
        }
        line := Trim(line, IsSpaceByte);
        if |line| == 0 {
          continue;
        }
        return json.decode(line), StreamBroken;
      }
    }
  }

  lemma {:induction false} NewlineInPrefix(a: seq<byte>, b: seq<byte>)
    ensures FirstNewline(a) < |a| ==> FirstNewline(a + b) == FirstNewline(a)
    ensures FirstNewline(a) == |a| ==> FirstNewline(a + b) == |a| + FirstNewline(b)
  {
    if a == [] {
      assert a + b == b;
    } else if a[0] != NEWLINE {
      TailOfConcat(a, b);
      NewlineInPrefix(a[1..], b);
    }
  }

  /** A frame written is the frame read, and nothing after it is touched. */
  lemma NextOfEncoded(json: Json, f: Frame, rest: seq<byte>)
    requires LawfulOn(json, f)
    ensures NextFrame(json, Line(json, f) + rest) == Got(f, rest)
  {
    var text := json.encode(f);
    var bytes := text + [NEWLINE] + rest;
    NoNewline(text);
    NewlineInPrefix(text, [NEWLINE] + rest);
    assert bytes == text + ([NEWLINE] + rest);
    assert FirstNewline([NEWLINE] + rest) == 0;
    assert bytes[..|text| + 1] == text + [NEWLINE] && bytes[|text| + 1..] == rest;
    TrimLine(text);
  }

  lemma {:induction false} NoNewline(text: seq<byte>)
    requires NEWLINE !in text
    ensures FirstNewline(text) == |text|
  {
    if text != [] {
      NoNewline(text[1..]);
    }
  }

  lemma TrimLine(text: seq<byte>)
    requires text != [] && Trimmed(text, IsSpaceByte)
    ensures Trim(text + [NEWLINE], IsSpaceByte) == text
  {
    var line := text + [NEWLINE];
    assert TrimLeft(line, IsSpaceByte) == line;
    assert line[..|line| - 1] == text;
    assert TrimRight(line, IsSpaceByte) == TrimRight(text, IsSpaceByte) == text;
  }

  // ----- The pump

  /** How the pipe ends for its reader; `Clean` is a plain end of file. */
  datatype End = Clean | StreamBroken | WorkerFailed(error: ErrorMessage) | ReaderGone

  /** Closing a pipe with io.EOF is closing it: its reader sees a plain end of file. */
  function SeenAs(e: StreamError): End {
    if e.IoEof? then Clean else StreamBroken
  }

  /** Bytes delivered, and how the pipe was closed. */
  datatype Delivery = Delivery(bytes: seq<byte>, end: End)

  function After(chunk: seq<byte>, d: Delivery): Delivery {
    Delivery(chunk + d.bytes, d.end)
  }

  /** Whether a frame ends the pump, and how; the pipe's reader takes `accepts` more writes. */
  function Verdict(f: Frame, accepts: nat): Option<End> {
    if f.error.Some? then Some(WorkerFailed(f.error.value))
    else if f.bodyChunk != [] && accepts == 0 then Some(ReaderGone)
    else if f.eof then Some(Clean)
    else None
  }

  /** The bytes of a frame that reach the pipe. */
  function Taken(f: Frame, accepts: nat): seq<byte> {
    if f.error.Some? || accepts == 0 then [] else f.bodyChunk
  }

  function Left(f: Frame, accepts: nat): nat {
    if f.bodyChunk != [] && accepts > 0 then accepts - 1 else accepts
  }

  /** The pump loop on the rest of the stream, which ends with `last`. */
  function Drain(json: Json, bytes: seq<byte>, accepts: nat, last: StreamError): Delivery
    decreases |bytes|, 0
  {
    match NextFrame(json, bytes)
    case EndOfStream => Delivery([], SeenAs(last))
    case Undecodable(_) => Delivery([], StreamBroken)
    case Got(f, rest) => Pumped(json, f, rest, accepts, last)
  }

  /** The pump on a frame already read and the rest of the stream. */
  function Pumped(json: Json, f: Frame, rest: seq<byte>, accepts: nat, last: StreamError): Delivery
    decreases |rest|, 1
  {
    match Verdict(f, accepts)
    case Some(end) => Delivery(Taken(f, accepts), end)
    case None => After(Taken(f, accepts), Drain(json, rest, Left(f, accepts), last))
  }

  class Pipe {
    var delivered: seq<byte>
    var accepts: nat

    constructor (accepts: nat)
      ensures delivered == [] && this.accepts == accepts
    {
      delivered, this.accepts := [], accepts;
    }

    method Write(data: seq<byte>) returns (ok: bool)
      modifies this
      ensures ok == (old(accepts) > 0)
      ensures ok ==> delivered == old(delivered) + data && accepts == old(accepts) - 1
      ensures !ok ==> delivered == old(delivered) && accepts == 0
    {
      ok := accepts > 0;
      if ok {
        delivered, accepts := delivered + data, accepts - 1;
      }
    }
  }

  /** Writes one frame to the pipe. */
  method PumpFrame(pipe: Pipe, f: Frame) returns (end: Option<End>)
    modifies pipe
    ensures end == Verdict(f, old(pipe.accepts))
    ensures pipe.delivered == old(pipe.delivered) + Taken(f, old(pipe.accepts))
    ensures end == None ==> pipe.accepts == Left(f, old(pipe.accepts))
  {
    if f.error != None {
      return Some(WorkerFailed(f.error.value));
    }
    if |f.bodyChunk| > 0 {
      var ok := pipe.Write(f.bodyChunk);
      if !ok {
        return Some(ReaderGone);
      }
    }
    return if f.eof then Some(Clean) else None;
  }

  method PumpTunnelBody(reader: FrameReader, pipe: Pipe, first: Frame) returns (end: End)
    requires pipe.delivered == [] && first.error == None
    modifies reader, pipe
    ensures var d := Pumped(reader.json, first, old(reader.Unread()), old(pipe.accepts), reader.last);
      pipe.delivered == d.bytes && end == d.end
  {
    ghost var want := Pumped(reader.json, first, reader.Unread(), pipe.accepts, reader.last);
    var frame := first;
    while true
      invariant want.bytes == pipe.delivered + Pumped(reader.json, frame, reader.Unread(), pipe.accepts, reader.last).bytes
      invariant want.end == Pumped(reader.json, frame, reader.Unread(), pipe.accepts, reader.last).end
      decreases |reader.Unread()|
    {
      ghost var before, accepts := pipe.delivered, pipe.accepts;
      var verdict := PumpFrame(pipe, frame);
      if verdict != None {
        return verdict.value;
      }
      ghost var later := Drain(reader.json, reader.Unread(), pipe.accepts, reader.last);
      Assoc(before, Taken(frame, accepts), later.bytes);
      var next, failure := reader.ReadResponse();
      if next == None {
        return failure;
      }
      frame := next.value;
    }
  }

  const BAD_GATEWAY: int := 502

  /** What the gateway makes of a stream: no usable first frame, or a response with a body. */
  datatype Received = NoResponse | Response(statusCode: int, headers: map<string, string>, body: Delivery)

  function Receive(json: Json, bytes: seq<byte>, accepts: nat, last: StreamError): Received {
    match NextFrame(json, bytes)
    case Got(f, rest) =>
      if f.error.Some? then NoResponse
      else
        Response(if f.statusCode == 0 then BAD_GATEWAY else f.statusCode, Expanded(f.headers), Pumped(json, f, rest, accepts, last))
    case _ => NoResponse
  }

  /** The reading half of `doTunnelRequestWithSession`, with the pump run to its end. */
  method ReceiveResponse(reader: FrameReader, pipe: Pipe) returns (r: Received)
    requires pipe.delivered == []
    modifies reader, pipe
    ensures r == Receive(reader.json, old(reader.Unread()), old(pipe.accepts), reader.last)
    ensures r.Response? ==> pipe.delivered == r.body.bytes
  {
    var first, _ := reader.ReadResponse();
    if first == None || first.value.error != None {
      return NoResponse;
    }
    var f := first.value;
    var end := PumpTunnelBody(reader, pipe, f);
    var header := ExpandHeaders(f.headers);
    return Response(if f.statusCode == 0 then BAD_GATEWAY else f.statusCode, header, Delivery(pipe.delivered, end));
  }

  predicate Blank(text: string) {
    TrimSpace(text) == ""
  }

  /** The headers with a name and a value. */
  function Expanded(headers: map<string, string>): map<string, string> {
    map key | key in headers && !Blank(key) && !Blank(headers[key]) :: headers[key]
  }

  method ExpandHeaders(headers: map<string, string>) returns (result: map<string, string>)
    ensures result == Expanded(headers)
  {
    result := map[];
    var keys := headers.Keys;
    while keys != {}
      invariant keys <= headers.Keys
      invariant forall key :: key in result <==> key in headers && key !in keys && !Blank(key) && !Blank(headers[key])
      invariant forall key :: key in result ==> result[key] == headers[key]
      decreases keys
    {
      var key :| key in keys;
      keys := keys - {key};
      if Blank(key) || Blank(headers[key]) {
        continue;
      }
      result := result[key := headers[key]];
    }
  }

  // ----- End to end

  /** How the last local read ends the body. */
  function Ending(script: seq<LocalRead>): End
    requires IsScript(script)
  {
    match script[|script| - 1].status
    case Fail(message) => WorkerFailed(ErrorMessage("read_local_response_failed", message))
    case _ => Clean
  }

  /** The pump's view of frames: no bytes, no encoding. */
  function Played(frames: seq<Frame>, accepts: nat, last: StreamError): Delivery {
    if frames == [] then Delivery([], SeenAs(last))
    else match Verdict(frames[0], accepts)
      case Some(end) => Delivery(Taken(frames[0], accepts), end)
      case None => After(Taken(frames[0], accepts), Played(frames[1..], Left(frames[0], accepts), last))
  }

  /** The byte stream carries frames faithfully: pumping the encoding is playing the frames. */
  lemma {:induction false} DrainPlays(json: Json, frames: seq<Frame>, accepts: nat, last: StreamError)
    requires Lawful(json)
    ensures Drain(json, EncodeAll(json, frames), accepts, last) == Played(frames, accepts, last)
    decreases |frames|
  {
    if frames != [] {
      var f := frames[0];
      assert LawfulOn(json, f) && frames == [f] + frames[1..];
      DrainPlays(json, frames[1..], Left(f, accepts), last);
      PumpsNext(json, f, EncodeAll(json, frames[1..]), frames[1..], accepts, last);
    }
  }

  lemma PlayRead(requestId: string, r: LocalRead, later: seq<Frame>, accepts: nat, last: StreamError)
    requires accepts >= 1
    ensures Played(ReadFrames(requestId, r) + later, accepts, last)
      == match r.status
         case More => After(r.data, Played(later, if r.data == [] then accepts else accepts - 1, last))
         case Eof => Delivery(r.data, Clean)
         case Fail(m) => Delivery(r.data, WorkerFailed(ErrorMessage("read_local_response_failed", m)))
  {
    var own := ReadFrames(requestId, r);
    var frames := own + later;
    if own == [] {
      assert frames == later;
    } else {
      assert frames[1..] == own[1..] + later;
      if |own| == 2 {
        assert frames[1..][0] == own[1];
      } else {
        assert own[1..] == [] && frames[1..] == later;
      }
    }
  }

  lemma {:induction false} PlayBody(requestId: string, script: seq<LocalRead>, accepts: nat, last: StreamError)
    requires IsScript(script) && accepts >= |script|
    ensures Played(BodyFrames(requestId, script), accepts, last) == Delivery(Body(script), Ending(script))
    decreases |script|
  {
    var r, later := script[0], BodyFrames(requestId, script[1..]);
    PlayRead(requestId, r, later, accepts, last);
    if r.status == More {
      PlayBody(requestId, script[1..], if r.data == [] then accepts else accepts - 1, last);
    } else {
      assert script[1..] == [];
    }
  }

  /**
   * Every body, however it is cut into local reads and however the stream is cut into pieces, comes out of the pipe
   * whole and cleanly closed; after a failed local read, exactly the bytes read before come out, then the error.
   */
  lemma BodyArrives(json: Json, requestId: string, statusCode: int, headers: map<string, string>,
                    script: seq<LocalRead>, pieces: seq<seq<byte>>, accepts: nat, last: StreamError)
    requires Lawful(json) && IsScript(script) && accepts >= |script|
    requires Flatten(pieces) == Stream(json, requestId, statusCode, headers, script)
    ensures Receive(json, Flatten(pieces), accepts, last)
      == Response(if statusCode == 0 then BAD_GATEWAY else statusCode, Expanded(headers), Delivery(Body(script), Ending(script)))
  {
    var header, body := HeaderFrame(requestId, statusCode, headers), BodyFrames(requestId, script);
    assert LawfulOn(json, header);
    StreamIs(json, requestId, statusCode, headers, script);
    NextOfEncoded(json, header, EncodeAll(json, body));
    PumpsHeader(json, header, EncodeAll(json, body), accepts, last);
    DrainPlays(json, body, accepts, last);
    PlayBody(requestId, script, accepts, last);
  }

  /** All the bytes of a response. */
  function Stream(json: Json, requestId: string, statusCode: int, headers: map<string, string>, script: seq<LocalRead>): seq<byte> {
    EncodeAll(json, [HeaderFrame(requestId, statusCode, headers)] + BodyFrames(requestId, script))
  }

  // ----- A stream that ends early

  /**
   * Playing fewer frames, or to a reader that leaves, loses only the end of the body; a clean end that is not the
   * stream's own comes only with everything.
   */
  lemma {:induction false} PartialIsPrefix(frames: seq<Frame>, sent: nat, accepts: nat, enough: nat, last: StreamError)
    requires sent <= |frames| && accepts <= enough
    ensures var part, whole := Played(frames[..sent], accepts, last), Played(frames, enough, last);
      part.bytes <= whole.bytes && (part.end == Clean && last != IoEof ==> part == whole)
    decreases |frames|
  {
    if sent > 0 {
      assert frames[..sent][1..] == frames[1..][..sent - 1];
      PartialIsPrefix(frames[1..], sent - 1, Left(frames[0], accepts), Left(frames[0], enough), last);
    }
  }

  /** A stream cut at any byte is played as some of its first frames. */
  lemma {:induction false} CutPlays(json: Json, frames: seq<Frame>, k: nat, accepts: nat, last: StreamError)
    returns (sent: nat)
    requires Lawful(json) && k <= |EncodeAll(json, frames)|
    ensures sent <= |frames|
    ensures Drain(json, EncodeAll(json, frames)[..k], accepts, last) == Played(frames[..sent], accepts, last)
    decreases |frames|
  {
    hide *;
    if frames == [] {
      sent := 0;
      NothingPlays(json, frames, accepts, last);
    } else {
      var f, rest := frames[0], EncodeAll(json, frames[1..]);
      var n := |Line(json, f)|;
      EncodeSplits(json, frames);
      if k < n {
        sent := 0;
        DrainsCutLine(json, f, rest, k, accepts, last);
        NothingPlays(json, frames[..0], accepts, last);
      } else {
        var later := CutPlays(json, frames[1..], k - n, Left(f, accepts), last);
        sent := later + 1;
        TakeOfConcat(Line(json, f), rest, k);
        PumpsNext(json, f, rest[..k - n], frames[1..][..later], accepts, last);
        TakeOfTail(frames, later);
      }
    }
  }

  lemma NothingPlays(json: Json, frames: seq<Frame>, accepts: nat, last: StreamError)
    requires frames == []
    ensures EncodeAll(json, frames) == [] && Drain(json, [], accepts, last) == Delivery([], SeenAs(last))
    ensures Played(frames, accepts, last) == Delivery([], SeenAs(last))
  {
  }

  lemma EncodeSplits(json: Json, frames: seq<Frame>)
    requires Lawful(json) && frames != []
    ensures LawfulOn(json, frames[0])
    ensures EncodeAll(json, frames) == Line(json, frames[0]) + EncodeAll(json, frames[1..])
  {
  }

  lemma DrainsCutLine(json: Json, f: Frame, rest: seq<byte>, k: nat, accepts: nat, last: StreamError)
    requires LawfulOn(json, f) && k < |Line(json, f)|
    ensures Drain(json, (Line(json, f) + rest)[..k], accepts, last) == Delivery([], SeenAs(last))
  {
    CutInLine(json, f, rest, k);
    hide NextFrame;
  }

  /** Draining a line and what follows is playing its frame and what follows. */
  lemma PumpsNext(json: Json, f: Frame, rest: seq<byte>, later: seq<Frame>, accepts: nat, last: StreamError)
    requires LawfulOn(json, f)
    requires Drain(json, rest, Left(f, accepts), last) == Played(later, Left(f, accepts), last)
    ensures Drain(json, Line(json, f) + rest, accepts, last) == Played([f] + later, accepts, last)
  {
    NextOfEncoded(json, f, rest);
    assert ([f] + later)[1..] == later;
  }

  /** An unfinished line yields no frame. */
  lemma CutInLine(json: Json, f: Frame, rest: seq<byte>, k: nat)
    requires LawfulOn(json, f) && k <= |json.encode(f)|
    ensures NextFrame(json, (Line(json, f) + rest)[..k]) == EndOfStream
  {
    var text := json.encode(f);
    assert (text + [NEWLINE] + rest)[..k] == text[..k];
    NoNewline(text[..k]);
  }

  lemma StreamIs(json: Json, requestId: string, statusCode: int, headers: map<string, string>, script: seq<LocalRead>)
    requires Lawful(json)
    ensures var header := HeaderFrame(requestId, statusCode, headers);
      LawfulOn(json, header) && Plain(header) && header.bodyChunk == []
    ensures Stream(json, requestId, statusCode, headers, script)
         == Line(json, HeaderFrame(requestId, statusCode, headers)) + EncodeAll(json, BodyFrames(requestId, script))
  {
    var header, body := HeaderFrame(requestId, statusCode, headers), BodyFrames(requestId, script);
    assert ([header] + body)[0] == header && ([header] + body)[1..] == body;
    assert LawfulOn(json, header);
  }

  /** The first frame carries no body: what follows it is drained. */
  lemma PumpsHeader(json: Json, header: Frame, rest: seq<byte>, accepts: nat, last: StreamError)
    requires Plain(header) && header.bodyChunk == []
    ensures Pumped(json, header, rest, accepts, last) == Drain(json, rest, accepts, last)
  {
    var d := Drain(json, rest, accepts, last);
    assert [] + d.bytes == d.bytes;
  }

  lemma ReceiveHeader(json: Json, header: Frame, rest: seq<byte>, accepts: nat, last: StreamError)
    requires LawfulOn(json, header) && Plain(header) && header.bodyChunk == []
    ensures var r := Receive(json, Line(json, header) + rest, accepts, last);
      r.Response? && r.body == Drain(json, rest, accepts, last)
  {
    NextOfEncoded(json, header, rest);
    PumpsHeader(json, header, rest, accepts, last);
  }

  /** Either the first frame is cut, or the rest of the cut stream is drained. */
  lemma ReceiveCut(json: Json, header: Frame, rest: seq<byte>, all: seq<byte>, k: nat, accepts: nat, last: StreamError)
    requires LawfulOn(json, header) && Plain(header) && header.bodyChunk == []
    requires all == Line(json, header) + rest && k <= |all|
    ensures var n, r := |Line(json, header)|, Receive(json, all[..k], accepts, last);
      if k < n then r == NoResponse else r.Response? && r.body == Drain(json, rest[..k - n], accepts, last)
  {
    var line := Line(json, header);
    if k < |line| {
      CutInLine(json, header, rest, k);
      hide NextFrame;
    } else {
      hide *;
      TakeOfConcat(line, rest, k);
      ReceiveHeader(json, header, rest[..k - |line|], accepts, last);
    }
  }

  /** A prefix of the body, and a clean end that is not the stream's own only with all of it and if it ended well. */
  ghost predicate Fair(d: Delivery, script: seq<LocalRead>, last: StreamError)
    requires IsScript(script)
  {
    d.bytes <= Body(script) && (d.end == Clean && last != IoEof ==> d.bytes == Body(script) && Ending(script) == Clean)
  }

  lemma BodyCut(json: Json, requestId: string, script: seq<LocalRead>, k: nat, accepts: nat, last: StreamError)
    requires Lawful(json) && IsScript(script) && k <= |EncodeAll(json, BodyFrames(requestId, script))|
    ensures Fair(Drain(json, EncodeAll(json, BodyFrames(requestId, script))[..k], accepts, last), script, last)
  {
    hide *;
    var body := BodyFrames(requestId, script);
    var sent := CutPlays(json, body, k, accepts, last);
    PartialIsPrefix(body, sent, accepts, accepts + |script|, last);
    PlayBody(requestId, script, accepts + |script|, last);
    PartIsFair(Played(body[..sent], accepts, last), script, last);
  }

  lemma PartIsFair(part: Delivery, script: seq<LocalRead>, last: StreamError)
    requires IsScript(script) && part.bytes <= Body(script)
    requires part.end == Clean && last != IoEof ==> part == Delivery(Body(script), Ending(script))
    ensures Fair(part, script, last)
  {
  }

  /**
   * Wherever the stream is cut, the reader gets a prefix of the body. If the stream does not end with io.EOF, a plain
   * end of file comes only after the whole of a body that ended well.
   */
  lemma CutDelivers(json: Json, requestId: string, statusCode: int, headers: map<string, string>,
                    script: seq<LocalRead>, k: nat, accepts: nat, last: StreamError)
    requires Lawful(json) && IsScript(script) && k <= |Stream(json, requestId, statusCode, headers, script)|
    ensures var r := Receive(json, Stream(json, requestId, statusCode, headers, script)[..k], accepts, last);
      r.Response? ==> Fair(r.body, script, last)
  {
    hide *;
    var header, rest := HeaderFrame(requestId, statusCode, headers), EncodeAll(json, BodyFrames(requestId, script));
    var n := |Line(json, header)|;
    StreamIs(json, requestId, statusCode, headers, script);
    ReceiveCut(json, header, rest, Stream(json, requestId, statusCode, headers, script), k, accepts, last);
    if k >= n {
      BodyCut(json, requestId, script, k - n, accepts, last);
    }
  }

  /** A stream that ends with io.EOF right after the header looks like a complete response without a body. */
  lemma HeaderOnlyLooksComplete(json: Json, requestId: string, statusCode: int, headers: map<string, string>,
                                script: seq<LocalRead>, accepts: nat)
    returns (k: nat)
    requires Lawful(json) && IsScript(script)
    ensures k <= |Stream(json, requestId, statusCode, headers, script)|
    ensures var r := Receive(json, Stream(json, requestId, statusCode, headers, script)[..k], accepts, IoEof);
      r.Response? && r.body == Delivery([], Clean)
  {
    var header, rest := HeaderFrame(requestId, statusCode, headers), EncodeAll(json, BodyFrames(requestId, script));
    k := |Line(json, header)|;
    StreamIs(json, requestId, statusCode, headers, script);
    ReceiveCut(json, header, rest, Stream(json, requestId, statusCode, headers, script), k, accepts, IoEof);
    assert rest[..0] == [];
  }

  /** With a stream cut at byte k, a reader that sees a plain end of file has the whole of a body that ended well. */
  ghost predicate CleanIsWhole(json: Json, requestId: string, statusCode: int, headers: map<string, string>,
                               script: seq<LocalRead>, k: nat, accepts: nat, last: StreamError)
    requires IsScript(script) && k <= |Stream(json, requestId, statusCode, headers, script)|
  {
    var r := Receive(json, Stream(json, requestId, statusCode, headers, script)[..k], accepts, last);
    r.Response? && r.body.end == Clean ==> r.body.bytes == Body(script) && Ending(script) == Clean
  }

  /**
   * At whatever byte the stream ends, a plain end of file means a whole body that ended well, exactly when the stream
   * does not end with io.EOF or there is no body to lose and no error to report.
   */
  lemma CleanMeansWholeExactlyWhen(json: Json, requestId: string, statusCode: int, headers: map<string, string>,
                                   script: seq<LocalRead>, last: StreamError)
    requires Lawful(json) && IsScript(script)
    ensures (forall k: nat, accepts: nat :: k <= |Stream(json, requestId, statusCode, headers, script)| ==>
               CleanIsWhole(json, requestId, statusCode, headers, script, k, accepts, last))
       <==> last != IoEof || (Body(script) == [] && Ending(script) == Clean)
  {
    if last != IoEof || (Body(script) == [] && Ending(script) == Clean) {
      forall k: nat, accepts: nat | k <= |Stream(json, requestId, statusCode, headers, script)|
        ensures CleanIsWhole(json, requestId, statusCode, headers, script, k, accepts, last)
      {
        CutDelivers(json, requestId, statusCode, headers, script, k, accepts, last);
      }
    } else {
      var k := HeaderOnlyLooksComplete(json, requestId, statusCode, headers, script, 0);
      assert !CleanIsWhole(json, requestId, statusCode, headers, script, k, 0, last);
    }
  }

  /** A frame that neither ends the body nor reports an error. */
  predicate Plain(f: Frame) {
    f.error.None? && !f.eof
  }

  lemma {:induction false} PlainPlays(frames: seq<Frame>, accepts: nat, last: StreamError)
    requires (forall i :: 0 <= i < |frames| ==> Plain(frames[i])) && accepts >= |frames|
    ensures Played(frames, accepts, last).end == SeenAs(last)
    decreases |frames|
  {
    if frames != [] {
      PlainPlays(frames[1..], Left(frames[0], accepts), last);
    }
  }

  lemma {:induction false} OnlyLastEnds(requestId: string, script: seq<LocalRead>)
    requires IsScript(script)
    ensures var frames := BodyFrames(requestId, script);
      0 < |frames| <= |script| + 1 && forall i :: 0 <= i < |frames| - 1 ==> Plain(frames[i])
    decreases |script|
  {
    var own, later := ReadFrames(requestId, script[0]), BodyFrames(requestId, script[1..]);
    if script[0].status == More {
      OnlyLastEnds(requestId, script[1..]);
      assert |own| <= 1 && forall i :: 0 <= i < |own| ==> Plain(own[i]);
    } else {
      assert script[1..] == [] && own + later == own;
    }
  }

  /** Before the last frame of a body a reader that stays sees the stream's own end, whatever it has got. */
  lemma StrictPrefixIsCut(requestId: string, script: seq<LocalRead>, sent: nat, accepts: nat, last: StreamError)
    requires IsScript(script) && accepts >= |script| && sent < |BodyFrames(requestId, script)|
    ensures Played(BodyFrames(requestId, script)[..sent], accepts, last).end == SeenAs(last)
  {
    OnlyLastEnds(requestId, script);
    PlainPlays(BodyFrames(requestId, script)[..sent], accepts, last);
  }

  // ----- A stream that is garbled

  /** A line that is neither blank nor a frame. */
  ghost predicate IsGarbage(json: Json, line: seq<byte>) {
    && NEWLINE !in line && Trim(line + [NEWLINE], IsSpaceByte) != []
    && json.decode(Trim(line + [NEWLINE], IsSpaceByte)) == None
  }

  lemma GarbageIsUndecodable(json: Json, line: seq<byte>, rest: seq<byte>)
    requires IsGarbage(json, line)
    ensures NextFrame(json, line + [NEWLINE] + rest) == Undecodable(rest)
  {
    var bytes := line + [NEWLINE] + rest;
    NewlineInPrefix(line, [NEWLINE] + rest);
    assert bytes == line + ([NEWLINE] + rest);
    assert FirstNewline([NEWLINE] + rest) == 0;
    assert bytes[..|line| + 1] == line + [NEWLINE] && bytes[|line| + 1..] == rest;
  }

  /** All the chunks of some frames. */
  function Chunks(frames: seq<Frame>): seq<byte> {
    if frames == [] then [] else frames[0].bodyChunk + Chunks(frames[1..])
  }

  lemma {:induction false} GarbageBreaksBody(
    json: Json, frames: seq<Frame>, line: seq<byte>, rest: seq<byte>, accepts: nat, last: StreamError)
    requires Lawful(json) && IsGarbage(json, line) && accepts >= |frames|
    requires forall i :: 0 <= i < |frames| ==> Plain(frames[i])
    ensures Drain(json, EncodeAll(json, frames) + (line + [NEWLINE] + rest), accepts, last)
         == Delivery(Chunks(frames), StreamBroken)
    decreases |frames|
  {
    var tail := line + [NEWLINE] + rest;
    if frames == [] {
      GarbageIsUndecodable(json, line, rest);
      assert EncodeAll(json, frames) + tail == tail;
    } else {
      var f, later := frames[0], EncodeAll(json, frames[1..]);
      assert LawfulOn(json, f);
      assert EncodeAll(json, frames) + tail == Line(json, f) + (later + tail);
      NextOfEncoded(json, f, later + tail);
      hide NextFrame, FirstNewline, EncodeAll;
      GarbageBreaksBody(json, frames[1..], line, rest, Left(f, accepts), last);
    }
  }

  /**
   * A garbled line never looks like an end: in place of the first frame there is no response, and after it the reader
   * gets the chunks before it and then the failure, whatever follows.
   */
  lemma {:induction false} GarbageIsNoticed(
    json: Json, header: Frame, frames: seq<Frame>, line: seq<byte>, rest: seq<byte>, accepts: nat, last: StreamError)
    requires Lawful(json) && IsGarbage(json, line) && accepts >= |frames|
    requires Plain(header) && header.bodyChunk == [] && forall i :: 0 <= i < |frames| ==> Plain(frames[i])
    ensures Receive(json, line + [NEWLINE] + rest, accepts, last) == NoResponse
    ensures var r := Receive(json, Line(json, header) + (EncodeAll(json, frames) + (line + [NEWLINE] + rest)), accepts, last);
      r.Response? && r.body == Delivery(Chunks(frames), StreamBroken)
  {
    GarbageIsUndecodable(json, line, rest);
    assert LawfulOn(json, header);
    hide NextFrame, Drain;
    ReceiveHeader(json, header, EncodeAll(json, frames) + (line + [NEWLINE] + rest), accepts, last);
    GarbageBreaksBody(json, frames, line, rest, accepts, last);
  }

  /** A first frame that reports an error is no response. */
  lemma ErrorIsNoResponse(json: Json, f: Frame, rest: seq<byte>, accepts: nat, last: StreamError)
    requires Lawful(json) && f.error.Some?
    ensures Receive(json, Line(json, f) + rest, accepts, last) == NoResponse
  {
    assert LawfulOn(json, f);
    NextOfEncoded(json, f, rest);
    hide NextFrame;
  }

  /** Exactly the headers whose name and value both hold something besides white space arrive, unchanged. */
  lemma HeadersArrive(headers: map<string, string>, key: string)
    ensures key in Expanded(headers)
       <==> key in headers && (exists c <- key :: !IsSpace(c)) && exists c <- headers[key] :: !IsSpace(c)
    ensures key in Expanded(headers) ==> Expanded(headers)[key] == headers[key]
  {
    BlankIs(key);
    if key in headers {
      BlankIs(headers[key]);
    }
  }

  lemma BlankIs(text: string)
    ensures Blank(text) <==> forall c <- text :: IsSpace(c)
  {
    TrimLeftEnds(text, IsSpace);
    TrimRightEnds(TrimLeft(text, IsSpace), IsSpace);
    var t := TrimLeft(text, IsSpace);
    if forall c <- text :: IsSpace(c) {
      assert t == [];
    } else {
      var i :| 0 <= i < |text| && !IsSpace(text[i]);
      assert i >= |text| - |t|;
      assert t[i - (|text| - |t|)] == text[i];
    }
    hide IsSpace;
  }
}
