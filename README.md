# txOpenBCI in Dafny

A model of the core of txOpenBCI, a Twisted client for the OpenBCI EEG board. The model covers:

- **Serial protocol.** The three grammar rules; the receiver selects one as its current rule:
  - *idle* collects a text response up to the `$$$` terminator;
  - *sample stream* reads 33-byte frames: `0xA0`, a counter byte, 30 payload bytes, then `0xC0`;
  - *debug* logs every byte.
- **The parser around the grammar.** `ParserProtocol` in `txopenbci/_sausage.py`:
  - it feeds incoming chunks to the receiver's current rule; a switch the receiver makes in the action of the match that ends the buffered input applies from the next chunk on;
  - it delivers each match to the receiver;
  - when parsing fails, it closes down exactly once.
- **The 24-bit decoders.** Two strategies turn big-endian two's-complement channel values into integers:
  - a pure-Python one built from `struct` layouts;
  - a numpy one.
- **Device control.** In `txopenbci/control.py`:
  - the commander writes the single-byte commands `v` (reset) and `s` (stop);
  - the protocol resets the board on connect and stops it on hangup;
  - the service connects and disconnects.
- **The sinks.** In `txopenbci/sink.py`:
  - the timing watchdog detects dropped samples and times each window of 250 samples;
  - the CSV sensor log writes one row per sample into a reused row buffer.
- **The web side.** In `txopenbci/web.py`:
  - Server-Sent-Event formatting with its JSON encoding;
  - the live stream's subscriber set;
  - the control resource's command lookup.

Modules:

- `Wrappers`: Option and Result.
- `Protocol`: constants, 24-bit reassembly, both decoders.
- `Grammar`: the three rules and running a rule over a buffer.
- `Transports`: a recording transport, in the style of `StringTransport`.
- `Sausage`: `ParserProtocol`.
- `Sink`: `TimingWatchdog` and `SensorLog`.
- `Json`: the encoder.
- `Web`: `sseMsg`, `SampleStreamer` and `CommandResource`.
- `Control`: `DeviceCommander`, `DeviceProtocol` and `DeviceService`.

Classes are used where the source mutates objects: the parser, the watchdog, the log, the streamer and its requests, the transport and the control classes. The grammar, the encoders and the formatting are functions.

Behaviour of the code worth knowing:

- **No in-progress guard on connect.** Nothing marks a connection as in progress. A second `connect` before the first attempt's callback is accepted (`Control.TwoConnectsBeforeCallback`). Only a delivered client makes `connect` raise `RuntimeError`.
- **No resynchronisation.** A sample-stream buffer that does not start with `0xA0` makes the parse fail. That closes the parser; no bytes are skipped.
- **Empty responses fail.** The idle rule needs at least one byte before `$$$`, so a bare `$$$` is a parse failure rather than an empty response.
- **Hangup after a lost connection raises.** `connectionLost` deletes the commander. A later hangup, and so `stopService`, raises `AttributeError`; the client stays held and the service stays running (`Control.StopAfterConnectionLost`).
- **Missing `NaN` slots.** The watchdog sums the whole window, including slots never filled. The total is then `NaN`, modelled as `None`.
- **`hangUp` does not exist.** `txopenbci/test_control.py` calls `hangUp`, but the protocol defines `hangup`. The scenario methods call the defined method.
- **`web.py` uses names `control.py` lacks.** It refers to `deviceService.commander`, `startStream`, `stopStream` and `receiver`, none of which the control classes in `txopenbci/control.py` define. The web model stops at the lookup: it names the command that would run.

External effects are parameters:

- the clock: `now` for the watchdog and `clock` for the log, which is `time.time() - time0`;
- the transports and their `disconnected` flag;
- the result of an asynchronous connect, through the `SetClient` callback.

Log messages are recorded in ghost logs: the watchdog's `drops` and `totals`, and the parser's receiver `calls`.

## Model

| member | source | states |
|---|---|---|
| Protocol.Signed8 | txopenbci/protocol.py:43-46 | the signed high byte lies in -128..127 and is congruent to the raw byte modulo 256 |
| Protocol.UnsignedBE16 | txopenbci/protocol.py:43-46 | the unsigned big-endian 16-bit part lies in 0..65535, with the first byte as high byte and the second as low byte |
| Protocol.Reassemble | txopenbci/protocol.py:59-63 | shift-then-or reassembly of one group equals the 24-bit two's-complement value of its three bytes and lies in the 24-bit range |
| Protocol.ReassembleSteps | txopenbci/protocol.py:59-63 | the `<<= 16` then `\|= low` steps give the two's-complement value |
| Protocol.Int24RoundTrip | txopenbci/protocol.py:37-44 | every 24-bit integer, encoded as three big-endian bytes, decodes back to itself |
| Protocol.Int24BytesRoundTrip | txopenbci/protocol.py:37-44 | every three bytes decode to a value that re-encodes to the same bytes, so decoding is injective |
| Protocol.Int24Examples | txopenbci/protocol.py:37-40 | the extreme and sample values: 7FFFFF is 8388607, 800000 is -8388608, FFFFFF is -1 |
| Protocol.PythonLayout | txopenbci/protocol.py:54-58 | as written: count 1..8 selects that many groups, and fails exactly when the buffer is too short for them after the offset; count above 8 is IndexError. The default `-1` selects `len(buf) / 3` groups whatever the offset: it succeeds exactly when they fit after the offset, is IndexError above 8 groups and a struct error below 3 bytes |
| Protocol.NumpyLayout | txopenbci/protocol.py:76 | `frombuffer` with a non-negative count needs that many 3-byte items after the offset; with a negative count the rest of the buffer must be a whole number of items; failures are ValueError |
| Protocol.LayoutsAgree | txopenbci/protocol.py:83-86 | for count -1 or 1..8 the two strategies succeed together (count at least 1) and, when both succeed, select the same number of groups |
| Protocol.CountZeroDisagrees | txopenbci/protocol.py:56 | as written, count 0 selects 8 groups through negative indexing while numpy selects none; count -2 selects 6 groups where numpy reads all 8; count -8 raises IndexError |
| Protocol.DefaultCountDisagrees | txopenbci/protocol.py:54-56 | as written, the default count ignores a partial trailing group that numpy refuses (25 bytes), and runs past the end when there is an offset, where numpy reads the groups after it (24 bytes from offset 3) |
| Protocol.IntendedLayout | txopenbci/protocol.py:54-56 | the corrected selection: any count other than -1 or 1..8 is refused with IndexError; an explicit count agrees with the written one; the default succeeds exactly when the bytes after the offset are 1..8 whole groups, and reads all of them |
| Protocol.IntendedLayoutAgrees | txopenbci/protocol.py:83-86 | whenever the corrected Python selection and numpy both succeed, they select the same group count; for an explicit count 1..8, and for the default on 1..8 groups of input after the offset, they succeed together |
| Protocol.ReassembleGroups | txopenbci/protocol.py:58-63 | the high parts, then shift and or per group, yield exactly the two's-complement value of each group in order |
| Protocol.PythonInt32From3Bytes | txopenbci/protocol.py:49-64 | as written: fails exactly when the layout selection fails, with the same error; otherwise returns the decoded value of each selected group |
| Protocol.Int32From3Bytes | txopenbci/protocol.py:49-64 | the corrected decoder: fails exactly when the corrected selection fails, with its error; otherwise returns every selected group's value, each in the 24-bit range |
| Protocol.NumpyInt32From3Bytes | txopenbci/protocol.py:71-80 | fails (ValueError) exactly when `frombuffer` would; otherwise returns each item's value, the `i1` high part shifted and or-ed with the `>u2` low part |
| Protocol.CompareStrategies | txopenbci/protocol.py:83-86 | for count -1 or 1..8, the two interchangeable decoders return the same integers whenever both succeed, and succeed together for positive counts |
| Grammar.EotFrom | txopenbci/protocol.py:24 | finds the first `$$$` at or after a position, or reports that there is none |
| Grammar.ScanIdle | txopenbci/protocol.py:23-24 | the idle rule fails exactly when the input starts with `$$$`; it needs more input exactly when there is no `$$$`; otherwise it emits the non-empty text before the first `$$$` and consumes through it |
| Grammar.IdleRecognisesResponse | txopenbci/protocol.py:23-24 | any non-empty text free of `$$$`, followed by `$$$`, is delivered as exactly that response, and the rest is left |
| Grammar.EncodeFrame | txopenbci/protocol.py:27-32 | reference definition of the frame layout the `sample` rule reads: a frame is 33 bytes |
| Grammar.ScanSample | txopenbci/protocol.py:26-32 | a sample matches exactly when 33 bytes start with 0xA0 and end with 0xC0; it fails exactly when a marker present is wrong; a match is the frame of its counter and 30-byte payload |
| Grammar.SampleRecognisesFrame | txopenbci/protocol.py:27-30 | every encoded frame is parsed back to its own counter and payload |
| Grammar.ScanDebug | txopenbci/protocol.py:34 | the debug rule never fails, waits only on empty input, and logs one byte at a time |
| Grammar.Scan | txopenbci/protocol.py:22-35 | every match consumes input and leaves a suffix |
| Grammar.RunRule | txopenbci/protocol.py:22-35 | repeated matching leaves a suffix of the input; it stops with a failure exactly when the rule fails there, and otherwise only because more input is needed |
| Grammar.ScanExtends | txopenbci/protocol.py:22-35 | more input never changes a match or a failure |
| Grammar.ChunkIndependence | txopenbci/_sausage.py:55-66 | feeding `a` then `b` gives the same receiver calls and the same leftover as feeding `a + b` at once |
| Grammar.FailureIsFinal | txopenbci/_sausage.py:62-80 | once a rule failed, further input produces no events |
| Grammar.SampleEvents | txopenbci/protocol.py:26-30 | one sample event per frame, carrying that frame's counter and payload, in order |
| Grammar.IdleExtends | txopenbci/protocol.py:23-24 | more input never changes an idle match or failure |
| Grammar.SampleExtends | txopenbci/protocol.py:26-32 | more input never changes a sample match or failure |
| Grammar.DebugExtends | txopenbci/protocol.py:34 | more input never changes a debug match, and the debug rule never fails |
| Grammar.RunWaiting | txopenbci/protocol.py:22-35 | a rule that neither matches nor fails at the start emits nothing and keeps the whole input |
| Grammar.SampleStreamInOrder | txopenbci/protocol.py:26 | a run of well-formed frames yields one sample event per frame, in stream order, consuming everything |
| Grammar.DebugLogsEveryByte | txopenbci/protocol.py:34 | the debug rule logs every byte, in order |
| Grammar.IdleGreeting | txopenbci/protocol.py:23-24 | the board's `OpenBCI ready$$$` greeting is one response |
| Transports.Controls | txopenbci/test_control.py:25 | keeps only non-write requests |
| Transports.ControlsKeepDisconnects | txopenbci/test_control.py:25-28 | dropping the writes forgets all written bytes and keeps a disconnect request exactly when there was one |
| Transports.Transport.Write | txopenbci/control.py:38-39 | appends the write; the written value grows by the data |
| Transports.Transport.LoseConnection | txopenbci/_sausage.py:77 | appends the close request; nothing is written; the transport is disconnecting |
| Transports.Transport.AbortConnection | txopenbci/_sausage.py:73-79 | only on transports that offer it: appends the abort; the transport is disconnecting |
| Transports.Transport.Clear | txopenbci/test_control.py:25 | forgets the written bytes and keeps the disconnecting state |
| Sausage.Deliveries | txopenbci/_sausage.py:66 | one receiver call per event, in order |
| Sausage.ParserProtocol.constructor | txopenbci/_sausage.py:39-45 | a fresh parser is not disconnecting, has no transport, no buffered input and no calls |
| Sausage.ParserProtocol.MakeConnection | txopenbci/_sausage.py:47-53 | keeps the transport; `setTransport` then `prepareParsing` |
| Sausage.ParserProtocol.ConnectionMade | txopenbci/_sausage.py:47-53 | `setTransport` then `prepareParsing`, nothing else changes |
| Sausage.ParserProtocol.DataReceived | txopenbci/_sausage.py:55-80 | ignored once disconnecting; otherwise every match of the buffered and new input is delivered in order. On a failure it stops the flow and finishes with the parse failure, then aborts the transport, or loses the connection when abort is unavailable. `finishParsing` happens at most once, and nothing is delivered after it. The transport's `disconnected` flag is never changed |
| Sausage.ParserProtocol.SelectRule | txopenbci/_sausage.py:44-45 | the receiver switches its current rule in the action of the match that ended the buffered input; the buffered input, the calls and the disconnect state are kept |
| Sausage.ParserProtocol.Deliver | txopenbci/_sausage.py:62-66 | before disconnecting, each match reaches the receiver in order and the parser stays open |
| Sausage.UnfinishedIsOrdered | txopenbci/_sausage.py:89-93 | with no `finishParsing` yet, no delivery can follow one |
| Sausage.AppendControlsKeepsOrder | txopenbci/_sausage.py:89-93 | stopping the flow and finishing never put a delivery after `finishParsing` |
| Sausage.FinishesOfDeliveries | txopenbci/_sausage.py:66 | delivering matches never calls `finishParsing` |
| Sausage.ParserProtocol.ConnectionLost | txopenbci/_sausage.py:82-93 | the first call stops the flow and finishes parsing with its reason; later calls do nothing |
| Sink.DropReport | txopenbci/sink.py:57-62 | no report for the first sample. A later sample is reported exactly when its counter does not follow the last modulo 256. The report runs from the last counter to this one, and its count is the number skipped, from -1 to 254 |
| Sink.NoDropsIffConsecutive | txopenbci/sink.py:57-63 | a counter sequence produces no drop reports exactly when each counter follows the previous one modulo 256 |
| Sink.CountingHasNoDrops | txopenbci/sink.py:57-62 | counting up from 0 to 15 produces no drop report |
| Sink.WrapIsSilent | txopenbci/sink.py:57-62 | the counter wrapping from 255 to 0 is not a drop |
| Sink.SkipIsReported | txopenbci/sink.py:57-62 | 0, 1, 3 reports one dropped sample between 1 and 3 |
| Sink.RepeatIsReported | txopenbci/sink.py:57-62 | a repeated counter is reported with a count of -1 |
| Sink.WindowTotalDefined | txopenbci/sink.py:67-68 | the window sum is a number exactly when no slot is `NaN` |
| Sink.TimingWatchdog.constructor | txopenbci/sink.py:51-54 | 250 `NaN` slots, no last time, no last count |
| Sink.TimingWatchdog.HandleSample | txopenbci/sink.py:56-70 | records the drop report; stores the time since the last sample in slot `c % 250` and no other; reports the window total when that slot is 0 and the delta is a number; remembers the count and the time |
| Sink.TimingWatchdog.Total | txopenbci/sink.py:68 | the loop's sum is the window total |
| Sink.FeedWatchdog | txopenbci/sink.py:56-63 | a fresh watchdog fed a counter sequence reports exactly the drops of that sequence |
| Sink.Ints | txopenbci/sink.py:43-44 | one integer cell per value |
| Sink.SliceAssign | txopenbci/sink.py:43-44 | Python slice assignment: the prefix before the slice is kept, and the length changes by the difference between the new and replaced lengths |
| Sink.StageRow | txopenbci/sink.py:42-44 | the staged row is never empty |
| Sink.SensorRow | txopenbci/sink.py:27-32 | a row is 13 cells: counter, eight channels, x, y, z, clock |
| Sink.StagedRowIsLayout | txopenbci/sink.py:42-45 | with 8 channels and 3 axes, filling a 13-cell buffer and then the clock gives exactly that row |
| Sink.SensorLog.constructor | txopenbci/sink.py:18-19 | a 13-cell buffer of empty strings, no log open |
| Sink.SensorLog.HandleSample | txopenbci/sink.py:35-47 | opens the log with its header on first use; fills the buffer in place; writes it when the clock cell exists, and otherwise raises IndexError without writing |
| Sink.LogOneSample | txopenbci/sink.py:22-47 | a fresh log given one well-formed sample writes the header and then that sample's row |
| Json.NatToDecimal | txopenbci/web.py:24 | decimal digits without leading zeros |
| Json.IntToDecimal | txopenbci/web.py:24 | printable, with a minus sign exactly for negative integers |
| Json.NatToDecimalValue | txopenbci/web.py:24 | the digits read back as the number printed |
| Json.UnicodeEscape | txopenbci/web.py:24 | a `\uXXXX` escape is six printable characters |
| Json.EscapeChar | txopenbci/web.py:24 | every character's escape is printable ASCII |
| Json.EscapeString | txopenbci/web.py:24 | an escaped string is printable ASCII |
| Json.EscapePlain | txopenbci/web.py:24 | printable text without quotes or backslashes is left as it is |
| Json.Join | txopenbci/web.py:24 | joining printable parts gives printable text |
| Json.Encode | txopenbci/web.py:128-132 | every encoding is printable ASCII and so has no newline, which is the assertion `sseMsg` relies on |
| Json.IntList | txopenbci/web.py:17-21 | `tolist()` of an array: a list of the same length holding each element, in order |
| Web.SseFormat | txopenbci/web.py:132 | refuses (AssertionError) exactly data with a newline |
| Web.SseMsg | txopenbci/web.py:120-140 | formatting an encoded value never raises |
| Web.Lines | txopenbci/web.py:134-139 | reference definition of how an event-stream client reads a message, split at each newline: there is always at least one line |
| Web.SseMessageLines | txopenbci/web.py:134-139 | a message is an `event:` line (only for a non-empty name), one `data:` line with the encoding intact, then the blank line that ends the event |
| Web.SampleJson | txopenbci/web.py:90-91 | the value sent for a sample is the list of its counter, its EEG channels and its accelerometer axes, each value kept in order |
| Web.SensorDataText | txopenbci/web.py:90-91 | a sample's message is a `sensorData` event line, one `data:` line holding the encoding of that value, then the blank line |
| Web.KeepaliveText | txopenbci/web.py:111 | the greeting is an `event: keepalive` line, a `data:` line holding the JSON encoding of `"hello"`, then the blank line |
| Web.Request.SetHeader | txopenbci/web.py:107 | sets one header, writes nothing |
| Web.Request.Write | txopenbci/web.py:97 | appends one chunk to the response |
| Web.SampleStreamer.constructor | txopenbci/web.py:78 | no subscribers |
| Web.SampleStreamer.HandleSample | txopenbci/web.py:83-103 | every connected subscriber receives the sample's `sensorData` message exactly once; disconnected subscribers receive nothing and are removed; nothing else changes |
| Web.SampleStreamer.Broadcast | txopenbci/web.py:93-100 | the writing loop: each connected subscriber written once; the dropouts are exactly the disconnected subscribers, each listed once |
| Web.SampleStreamer.RemoveAll | txopenbci/web.py:102-103 | removing the listed dropouts leaves the old set minus them |
| Web.SampleStreamer.RenderGet | txopenbci/web.py:106-115 | sets the event-stream content type, writes the keepalive greeting, subscribes the request |
| Web.DictGet | txopenbci/web.py:59 | `dict.get` raises TypeError exactly for an unhashable (list) key, and otherwise finds the entry or nothing |
| Web.RenderPostAsWritten | txopenbci/web.py:57-63 | as written, every POST raises TypeError, because the key is the list of path segments |
| Web.PostStartRaises | txopenbci/web.py:57-59 | as written, `POST /control/start` raises TypeError |
| Web.RenderPost | txopenbci/web.py:50-63 | the corrected lookup never raises; it accepts exactly a single `start`, `stop` or `reset` segment and picks the command of that name |
| Control.DeviceCommander.constructor | txopenbci/control.py:35-36 | remembers its protocol |
| Control.DeviceCommander.Send | txopenbci/control.py:38-39 | writes to the protocol's transport, or raises AttributeError when there is none |
| Control.DeviceCommander.Reset | txopenbci/control.py:41-42 | writes exactly `v` |
| Control.DeviceCommander.StopStream | txopenbci/control.py:44-45 | writes exactly `s` |
| Control.DeviceProtocol.constructor | txopenbci/control.py:50-51 | a commander that commands this protocol |
| Control.DeviceProtocol.MakeConnection | txopenbci/control.py:53-55 | keeps the transport and writes the reset command, or raises when the commander is gone |
| Control.DeviceProtocol.ConnectionMade | txopenbci/control.py:53-55 | sends reset; raises without writing when the commander was deleted |
| Control.DeviceProtocol.ConnectionLost | txopenbci/control.py:57-59 | deletes the commander; a second call raises AttributeError |
| Control.DeviceProtocol.Hangup | txopenbci/control.py:64-66 | writes `s` then requests closure; raises without writing when the commander or the transport is missing; the transport's `disconnected` flag is never changed |
| Control.DeviceService.constructor | txopenbci/control.py:74-78 | no client, not running |
| Control.DeviceService.Connect | txopenbci/control.py:80-84 | raises RuntimeError while a client is held; otherwise starts one more connection attempt |
| Control.DeviceService.SetClient | txopenbci/control.py:86-87 | holds the connected client |
| Control.DeviceService.StartService | txopenbci/control.py:89-92 | marks running, then connects |
| Control.DeviceService.StopService | txopenbci/control.py:94-98 | hangs up and forgets the client, then stops; a hangup that raises leaves the client held and the service running; a raising hangup leaves the client's transport untouched, and its `disconnected` flag never changes |
| Control.ResetOnConnect | txopenbci/test_control.py:19-21 | a new connection's transport holds exactly `v` |
| Control.StopOnHangup | txopenbci/test_control.py:23-28 | after clearing, hanging up writes exactly `s` and the transport is disconnecting |
| Control.TwoConnectsBeforeCallback | txopenbci/control.py:80-84 | two connects before the callback both succeed |
| Control.ConnectWhileConnected | txopenbci/control.py:81-82 | connecting while a client is held raises RuntimeError |
| Control.StopAfterConnectionLost | txopenbci/control.py:57-59 | stopping after the connection was lost raises AttributeError and keeps the client and the running state |
| Control.ConnectThenStop | txopenbci/control.py:89-98 | a full session writes `v` then `s`, closes the transport and forgets the client |

## Left out

- Twisted itself is not modelled: the reactor, Deferreds, `log.msg` and `Resource` rendering. Only the logs listed above are kept, as ghost records; the `log.msg` lines of `txopenbci/control.py` are dropped. A Deferred is split into the call and its callback.
- The serial endpoint (`txopenbci/serial_endpoint.py`) and `serialOpenBCI` are not modelled: they open a port.
- `datastream.js` and the web pages are not modelled: browser code.
- The OMeta/Parsley machinery (`makeProtocol`, `TrampolinedParser`) is modelled only by what it does with the three rules: match repeatedly from the start of the buffered input and keep the rest. Exceptions raised inside receiver callbacks are not modelled; only parse failures close the parser.
- The receiver that turns a sample frame into a `RawSample` is not part of this model. `RawSample` is taken as given by the sinks and the streamer.
- `DeviceProtocol.dataReceived` only logs, so it is not modelled.
- `Root` and `SampleStreamer`'s `subscribeToSampleData` registration are not modelled. They wire objects together through attributes the control classes do not define.
- The HTTP response of `render_POST` (the 404 page, 202 Accepted) is not modelled; the model stops at the command chosen. Running the command is not modelled either, because the commander methods it names do not exist in `txopenbci/control.py`.
- Protocol.PythonInt32From3Bytes: the offset is a `nat`, so Python's negative offsets are not modelled. Python 2's `array('l')` holds the 24-bit values without overflow, so its width is not modelled.
- Protocol.NumpyInt32From3Bytes: returns integers rather than an `int32` array. The 24-bit values fit, so no wrap-around arises.
- Sink.TimingWatchdog.HandleSample: times are `real`, not IEEE doubles. `NaN` is `None`, so rounding in the window sum is not modelled.
- Sink.SensorLog.HandleSample: the clock is passed in rather than read from `time.time()`. The file name, the file and the CSV quoting are not modelled. The row is recorded as cells.
- Json.Encode: covers integers, strings and lists, the values the stream sends. Floats, dicts, `None` and booleans are not modelled.
- Sausage.ParserProtocol.DataReceived: requires a transport, because Twisted delivers data only after `makeConnection` has set one.
- Sausage.ParserProtocol.DataReceived: matches a whole chunk with the rule selected when the chunk arrives. The trampolined parser re-reads `receiver.currentRule` after every match, so a switch made in a grammar action takes effect for the rest of the same chunk. The model admits switches only between chunks (`SelectRule`). The receiver that sets the rule is not part of this model.
- Sausage.ParserProtocol.SelectRule: stands for a switch made in the action of the match that ended the buffered input, so the next match starts with the new rule. The trampolined parser reads `receiver.currentRule` only when it sets up an interpreter: when it is built and after each completed match. A switch made outside a grammar action, while a match is in progress, therefore takes effect only after that match completes under the old rule; the model does not capture this and applies the new rule to the buffered input at once.

## Findings

| source | as written | input that shows it | evidently intended | confidence | as-written member | corrected member |
|---|---|---|---|---|---|---|
| txopenbci/protocol.py:54-56 | `_i3Struct[count - 1]` indexes a Python list, so count 0 selects 8 groups and counts -7..-2 select 1 to 6 groups; -8 and below raise IndexError | `python_int32From3Bytes(buf, count=0)` on a 24-byte buffer decodes 8 groups; the numpy strategy it stands in for decodes none | only -1 or 1..8 selects a layout; other counts are refused | not executed | Protocol.CountZeroDisagrees | Protocol.IntendedLayoutAgrees |
| txopenbci/protocol.py:54-55 | the default count is `len(buf) / 3`, whatever the offset and whether or not the length is a multiple of 3 | `python_int32From3Bytes(buf)` on 25 bytes decodes 8 groups and ignores the last byte, where numpy raises ValueError; with `offset=3` on 24 bytes it raises a struct error, where numpy decodes 7 groups | the default reads every byte after the offset as whole groups, as numpy does | not executed | Protocol.DefaultCountDisagrees | Protocol.IntendedLayoutAgrees |
| txopenbci/web.py:58-59 | `commandMap.get(request.postpath)` uses the list of path segments as the key | `POST /control/start` (postpath `['start']`) raises TypeError (unhashable list) | look up the single path segment | not executed | Web.PostStartRaises | Web.RenderPost |
