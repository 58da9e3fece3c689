/**
 * The web side of txopenbci/web.py: Server-Sent-Event formatting (`sseMsg`), the live stream's
 * subscriber set (`SampleStreamer`) and the control resource's command lookup
 * (`CommandResource`). HTTP routing and response codes are Twisted's, and are not modelled.
 */
module Web {
  import opened Wrappers
  import opened Protocol
  import opened Json
  import opened Transports

  // ---------------------------------------------------------------------------
  // sseMsg
  // ---------------------------------------------------------------------------

  /** The `assert '\n' not in jsonData` of `sseMsg`. */
  datatype SseError = AssertionError

  /** `if name:` -- a name counts only when given and non-empty. */
  predicate Named(name: Option<string>)
  {
    name.Some? && name.value != ""
  }

  /**
   * Format an already encoded event: an `event:` line when named, a `data:` line, and the blank
   * line that ends the event. Data with a line break is refused, because it would need one
   * `data:` line per line.
   */
  function SseFormat(jsonData: string, name: Option<string>): (r: Result<string, SseError>)
    ensures r.Success? <==> '\n' !in jsonData
  {
    if '\n' in jsonData then Failure(AssertionError)
    else
      var head := if Named(name) then "event: " + name.value + "\n" else "";
      Success(head + "data: " + jsonData + "\n\n")
  }

  /** `sseMsg(data, name)`: encode, then format. It never fails, since encodings have no newline. */
  function SseMsg(data: Json, name: Option<string>): (r: Result<string, SseError>)
    ensures r.Success?
  {
    SseFormat(Encode(data), name)
  }

  /** The lines of a text split at each `\n` (a text ending in `\n` ends in an empty line). */
  function Lines(s: string): (ls: seq<string>)
    ensures 1 <= |ls|
  {
    if s == [] then [""]
    else if s[0] == '\n' then [""] + Lines(s[1..])
    else
      var rest := Lines(s[1..]);
      [[s[0]] + rest[0]] + rest[1..]
  }

  lemma {:induction false} LinesAfterLine(x: string, y: string)
    requires '\n' !in x
    ensures Lines(x + "\n" + y) == [x] + Lines(y)
    decreases |x|
  {
    if x == [] {
      assert x + "\n" + y == "\n" + y;
      assert ("\n" + y)[1..] == y;
    } else {
      LinesAfterLine(x[1..], y);
      assert (x + "\n" + y)[1..] == x[1..] + "\n" + y;
      assert [x[0]] + x[1..] == x;
    }
  }

  /**
   * What an SSE client reads from a message: when named, one `event:` line with the name; then
   * one `data:` line holding the encoded data intact; then the blank line that dispatches the
   * event. The message therefore always ends with a blank line.
   */
  lemma {:induction false} SseMessageLines(jsonData: string, name: Option<string>)
    requires '\n' !in jsonData
    requires name.Some? ==> '\n' !in name.value
    ensures SseFormat(jsonData, name).Success?
    ensures var msg := SseFormat(jsonData, name).value;
            Lines(msg) == (if Named(name) then ["event: " + name.value] else []) + ["data: " + jsonData, "", ""]
    ensures var msg := SseFormat(jsonData, name).value;
            |msg| >= 2 && msg[|msg| - 2..] == "\n\n"
  {
    var msg := SseFormat(jsonData, name).value;
    var dataLine := "data: " + jsonData;
    assert '\n' !in dataLine;
    var tail := dataLine + "\n" + "\n";
    LinesAfterLine("", "");
    assert "" + "\n" + "" == "\n";
    LinesAfterLine(dataLine, "\n");
    assert Lines(tail) == [dataLine, "", ""];
    if Named(name) {
      var eventLine := "event: " + name.value;
      assert '\n' !in eventLine;
      LinesAfterLine(eventLine, tail);
      assert msg == eventLine + "\n" + tail;
    } else {
      assert msg == tail;
    }
  }

  /** The message a sample becomes: `sensorData` with `[counter, [eeg...], [x, y, z]]`. */
  function SampleJson(sample: RawSample): (j: Json)
    ensures j.JList? && |j.items| == 3 && j.items[0] == JInt(sample.counter)
    ensures j.items[1].JList? && |j.items[1].items| == |sample.eeg|
    ensures forall k :: 0 <= k < |sample.eeg| ==> j.items[1].items[k] == JInt(sample.eeg[k])
    ensures j.items[2].JList? && |j.items[2].items| == |sample.accelerometer|
    ensures forall k :: 0 <= k < |sample.accelerometer| ==> j.items[2].items[k] == JInt(sample.accelerometer[k])
  {
    JList([JInt(sample.counter), IntList(sample.eeg), IntList(sample.accelerometer)])
  }

  function SensorDataMessage(sample: RawSample): string
  {
    SseMsg(SampleJson(sample), Some("sensorData")).value
  }

  /** The greeting a new subscriber receives. */
  function KeepaliveMessage(): string
  {
    SseMsg(JStr("hello"), Some("keepalive")).value
  }

  /** The greeting is a `keepalive` event whose data is the encoding of `"hello"`. */
  lemma KeepaliveText()
    ensures Lines(KeepaliveMessage()) == ["event: " + "keepalive", "data: " + Encode(JStr("hello")), "", ""]
  {
    SseMessageLines(Encode(JStr("hello")), Some("keepalive"));
  }

  /** A sample becomes a `sensorData` event whose one data line is the encoding of the sample. */
  lemma SensorDataText(sample: RawSample)
    ensures Lines(SensorDataMessage(sample)) == ["event: " + "sensorData", "data: " + Encode(SampleJson(sample)), "", ""]
  {
    SseMessageLines(Encode(SampleJson(sample)), Some("sensorData"));
  }

  // ---------------------------------------------------------------------------
  // SampleStreamer
  // ---------------------------------------------------------------------------

  /** A pending `GET /stream` request: the subscriber the streamer writes to. */
  class Request {
    const transport: Transport
    var headers: map<string, string>
    /** Everything passed to `request.write`, oldest first. */
    var written: seq<string>

    constructor(transport: Transport)
      ensures this.transport == transport && headers == map[] && written == []
    {
      this.transport := transport;
      headers := map[];
      written := [];
    }

    method SetHeader(key: string, value: string)
      modifies this
      ensures headers == old(headers)[key := value] && written == old(written)
    {
      headers := headers[key := value];
    }

    method Write(data: string)
      modifies this
      ensures written == old(written) + [data] && headers == old(headers)
    {
      written := written + [data];
    }
  }

  class SampleStreamer {
    var subscribers: set<Request>

    constructor()
      ensures subscribers == {}
    {
      subscribers := {};
    }

    /**
     * Write the sample's message once to every subscriber whose transport is still connected,
     * then forget the disconnected ones (collected while writing, removed afterwards). With
     * no subscribers nothing is formatted or written.
     */
    method HandleSample(sample: RawSample)
      modifies this, subscribers
      ensures subscribers == old(subscribers) - set r | r in old(subscribers) && r.transport.disconnected
      ensures forall r :: r in old(subscribers) ==>
                r.written == (if r.transport.disconnected then old(r.written)
                              else old(r.written) + [SensorDataMessage(sample)])
      ensures forall r :: r in old(subscribers) ==> r.headers == old(r.headers)
    {
      if subscribers == {} {
        return;
      }
      var dropouts := Broadcast(SensorDataMessage(sample));
      RemoveAll(dropouts);
    }

    /** The writing loop: returns the disconnected subscribers, each once. */
    method Broadcast(s: string) returns (dropouts: seq<Request>)
      modifies subscribers
      ensures forall r :: r in subscribers ==>
                r.written == (if r.transport.disconnected then old(r.written) else old(r.written) + [s])
      ensures forall r :: r in subscribers ==> r.headers == old(r.headers)
      ensures forall r :: r in dropouts <==> r in subscribers && r.transport.disconnected
      ensures forall i, j :: 0 <= i < j < |dropouts| ==> dropouts[i] != dropouts[j]
    {
      dropouts := [];
      var todo := subscribers;
      while todo != {}
        invariant todo <= subscribers
        invariant forall r :: r in todo ==> r.written == old(r.written)
        invariant forall r :: r in subscribers && r !in todo ==>
                    r.written == (if r.transport.disconnected then old(r.written) else old(r.written) + [s])
        invariant forall r :: r in subscribers ==> r.headers == old(r.headers)
        invariant forall r :: r in dropouts <==> r in subscribers && r !in todo && r.transport.disconnected
        invariant forall i, j :: 0 <= i < j < |dropouts| ==> dropouts[i] != dropouts[j]
        decreases |todo|
      {
        var subscriber :| subscriber in todo;
        if !subscriber.transport.disconnected {
          subscriber.Write(s);
        } else {
          // the set cannot change while it is being iterated over
          dropouts := dropouts + [subscriber];
        }
        todo := todo - {subscriber};
      }
    }

    /** The removal loop; `set.remove` would raise KeyError on a repeated dropout: never the case. */
    method RemoveAll(dropouts: seq<Request>)
      requires forall i :: 0 <= i < |dropouts| ==> dropouts[i] in subscribers
      requires forall i, j :: 0 <= i < j < |dropouts| ==> dropouts[i] != dropouts[j]
      modifies this
      ensures subscribers == old(subscribers) - set r | r in dropouts
    {
      for i := 0 to |dropouts|
        invariant subscribers == old(subscribers) - set r | r in dropouts[..i]
        invariant forall k :: i <= k < |dropouts| ==> dropouts[k] in subscribers
      {
        assert dropouts[..i + 1] == dropouts[..i] + [dropouts[i]];
        subscribers := subscribers - {dropouts[i]};
      }
      assert dropouts[..|dropouts|] == dropouts;
    }

    /** Announce the event stream, greet the client, then subscribe it. */
    method RenderGet(request: Request)
      modifies this, request
      ensures request.headers == old(request.headers)["Content-type" := "text/event-stream"]
      ensures request.written == old(request.written) + [KeepaliveMessage()]
      ensures subscribers == old(subscribers) + {request}
    {
      request.SetHeader("Content-type", "text/event-stream");
      request.Write(SseMsg(JStr("hello"), Some("keepalive")).value);
      subscribers := subscribers + {request};
    }
  }

  // ---------------------------------------------------------------------------
  // CommandResource
  // ---------------------------------------------------------------------------

  /** The commander methods `commandMap` refers to. */
  datatype Command = StartStream | StopStream | Reset

  const COMMAND_MAP: map<string, Command> := map["start" := StartStream, "stop" := StopStream, "reset" := Reset]

  /** A dictionary key as Python sees it: hashable strings, unhashable lists. */
  datatype Key = Str(s: string) | List(segments: seq<string>)

  datatype LookupError = TypeError  // unhashable key

  /** `dict.get(key)`: hashing a list raises before any lookup. */
  function DictGet(m: map<string, Command>, key: Key): (r: Result<Option<Command>, LookupError>)
    ensures key.List? <==> r.Failure?
    ensures key.Str? ==> r == Success(if key.s in m then Some(m[key.s]) else None)
  {
    match key
    case List(_) => Failure(TypeError)
    case Str(s) => Success(if s in m then Some(m[s]) else None)
  }

  /** The outcome of `render_POST`: a command run and 202 Accepted, a 404 page, or an exception. */
  datatype PostOutcome = Accepted(command: Command) | NotFound | Raised(error: LookupError)

  /** `render_POST` as written: the key is `request.postpath`, a list of path segments. */
  function RenderPostAsWritten(postpath: seq<string>): (r: PostOutcome)
    ensures r == Raised(TypeError)
  {
    match DictGet(COMMAND_MAP, List(postpath))
    case Failure(e) => Raised(e)
    case Success(None) => NotFound
    case Success(Some(command)) => Accepted(command)
  }

  /** As written, even `POST /control/start` raises instead of starting the stream. */
  lemma PostStartRaises()
    ensures RenderPostAsWritten(["start"]) == Raised(TypeError)
  {
  }

  /** `render_POST` looking up the single path segment, as evidently intended. */
  function RenderPost(postpath: seq<string>): (r: PostOutcome)
    ensures !r.Raised?
    ensures r.Accepted? <==> |postpath| == 1 && postpath[0] in {"start", "stop", "reset"}
    ensures r.Accepted? ==> (r.command == StartStream <==> postpath[0] == "start")
    ensures r.Accepted? ==> (r.command == StopStream <==> postpath[0] == "stop")
    ensures r.Accepted? ==> (r.command == Reset <==> postpath[0] == "reset")
  {
    if |postpath| != 1 then NotFound
    else match DictGet(COMMAND_MAP, Str(postpath[0]))
      case Failure(e) => Raised(e)
      case Success(None) => NotFound
      case Success(Some(command)) => Accepted(command)
  }
}
