# Command channel to the engine, modelled in Dafny

This project models the command channel of the avatar backend. It covers
two parts:

- `UnrealTCPClient` (backend/tcp_client.js) sends newline-terminated text
  commands to the engine. Each command goes over its own short-lived
  connection. The client buffers commands in a FIFO queue and drains the
  queue one command at a time. It counts reconnect attempts up to a cap of 5
  and schedules each retry after a linear delay. It can also probe a list of
  candidate ports to find the engine.
- `UnrealTCPServer` (backend/tcp_server.js) is the development peer. It
  tracks the open client sockets in a set and answers every received chunk
  with `Received: <trimmed chunk>\n`. On stop it destroys every tracked
  socket.

The socket library is not modelled. Every outcome it would decide is a
parameter of the operation that needs it:

- whether an ephemeral send succeeds (`ok`);
- whether the j-th send of a stream succeeds (`sendOk(j)`);
- whether the j-th port probe is accepted within its 1000 ms timeout
  (tcp_client.js:186-189) (`accepts(j)`);
- whether the server's listen succeeds.

Socket events (`connect`, `error`, `close` on the client; accept, `end`,
`error`, `data` on the server) are methods that the caller invokes when the
event happens. Timers are not run. Each delay a stream pauses for is
appended to a log field instead. Each reconnect timer scheduled is appended
to `reconnectDelays`, which covers only the attempts since the last
successful connect: `OnConnect` clears it, although in the program a timer
scheduled before that connect still fires. Every ephemeral send is logged
as a `Delivery`: the port, the frame the send writes once the connection
opens, and whether it was delivered.

Files:

- `outcomes.dfy` holds Option and Result.
- `wire.dfy` holds the framing (`command + "\n"`), a line splitter for the
  receiving side, and JavaScript's `trim`.
- `payloads.dfy` holds the command texts the client builds and a parser
  that reads them back.
- `client_spec.dfy` holds the specification functions for streaming,
  reconnecting and probing, with their lemmas.
- `tcp_client.dfy` holds the client class.
- `tcp_server.dfy` holds the server class and the trace specification of
  its tracked set.
- `scenarios.dfy` holds concrete runs of the client and server, proved
  from their contracts alone.

The client's invariant `Valid()` ties its fields together:

- a connected client has a socket;
- `reconnectAttempts` equals what the attempts since the last successful
  connect make it, so it never exceeds 5;
- the drained commands, the running drain's snapshot and the queue,
  concatenated, equal every command ever queued, in submission order. Order
  is kept and no command is lost. A failed drain may still send a command
  twice.

Two points where the code does something its readers may not expect:

- A failed drain puts back the whole snapshot, including the commands
  already sent (tcp_client.js:134). For queue `[A, B, C]` where B fails,
  the queue afterwards is `[A, B, C]`, not `[B, C]`. `FinishDrain`,
  `ProcessQueue` and `Scenarios.DrainFailureRestoresWholeQueue` state this.
- The code comment at tcp_client.js:57 says "Exponential backoff". The code
  computes `2000 * reconnectAttempts`, which is linear. The model is linear.

## Model

| member | source | states |
|---|---|---|
| Wire.LinesOfFrame | backend/tcp_client.js:67 | a receiver that splits at line terminators reads one frame of a single-line command back as exactly that command |
| Wire.LinesOfFrameAll | backend/tcp_client.js:66-67 | single-line commands written back to back split back into exactly those commands, in order, so framing needs nothing but the terminator |
| Wire.Trim | backend/tcp_server.js:17 | `trim` yields text that is empty or starts and ends with a non-white-space character |
| Wire.TrimSplits | backend/tcp_server.js:17 | `trim` removes only white space: the input is the trimmed text with white space before and after it |
| Wire.TrimOfPadded | backend/tcp_server.js:17 | `trim` is determined by its shape: any text with non-white-space ends, padded by white space, trims to itself |
| Wire.TrimIdempotent | backend/tcp_server.js:17 | trimming twice equals trimming once |
| Wire.TrimFrame | backend/tcp_server.js:17 | the `\n` a frame adds is white space, so trimming a frame gives the trimmed command |
| Payloads.Decimal | backend/tcp_client.js:150 | the byte count is printed as non-empty decimal digits with no leading zero |
| Payloads.DecimalRoundTrip | backend/tcp_client.js:150 | reading back the printed byte count gives the count |
| Payloads.DecimalUnique | backend/tcp_client.js:150 | a digit string that reads as n is exactly the printing of n |
| Payloads.ParsePayload | backend/tcp_client.js:140-160 | every command text the client builds (`startspeaking`, `stopspeaking`, `BLENDSHAPES.` + json, `AUDIO.` + count + `bytes`) parses back to the command it was built from |
| Payloads.PayloadOfParse | backend/tcp_client.js:140-160 | any text that parses as a command is exactly the text the client builds for it |
| Payloads.PayloadInjective | backend/tcp_client.js:140-160 | two different commands are never sent as the same text |
| ClientSpec.StreamFrom | backend/tcp_client.js:95-108 | the stream fails exactly when some send fails, and it reports the first failing send |
| ClientSpec.StreamDeliversAll | backend/tcp_client.js:95-110 | when every send succeeds, each command is sent once, framed, in order, with n-1 pauses of `delayMs` when `delayMs > 0` and none otherwise |
| ClientSpec.StreamStopsAtFirstFailure | backend/tcp_client.js:95-108 | when send k fails first, only commands 0..k were attempted, in order; the first k were delivered; k pauses were taken (none when `delayMs <= 0`); the error is send k's |
| ClientSpec.ReconnectSchedule | backend/tcp_client.js:48-59 | from a counter at or below the cap, n attempts raise it to min(start + n, cap) and schedule one timer per step, the j-th with delay 2000 * (start + j + 1) |
| ClientSpec.ReconnectCapped | backend/tcp_client.js:48-59 | from 0, cap + 1 attempts leave the counter at the cap and schedule exactly cap timers, 2000, 4000, ..., 2000 * cap; the last attempt schedules none |
| ClientSpec.FirstAccepting | backend/tcp_client.js:180-217 | the adopted candidate is the first one accepted: every earlier candidate was refused; none is adopted only when all are refused |
| TcpClient.UnrealTcpClient.constructor | backend/tcp_client.js:4-13 | a new client holds the given host and port, has no socket, is not connected, has 0 of 5 attempts used, an empty queue and no drain running |
| TcpClient.UnrealTcpClient.Connect | backend/tcp_client.js:15-17 | `connect` creates the persistent socket and changes nothing else |
| TcpClient.UnrealTcpClient.OnConnect | backend/tcp_client.js:19-24 | the `connect` event sets the client connected and resets the reconnect counter to 0 |
| TcpClient.UnrealTcpClient.OnError | backend/tcp_client.js:30-34 | the `error` event clears the connected flag and changes nothing else |
| TcpClient.UnrealTcpClient.OnClose | backend/tcp_client.js:36-40 | the `close` event clears the connected flag and makes one attempt to reconnect |
| TcpClient.UnrealTcpClient.AttemptReconnect | backend/tcp_client.js:48-59 | below the cap the counter grows by one and one timer of 2000 * new count ms is scheduled; at the cap nothing changes; the counter never exceeds the cap |
| TcpClient.UnrealTcpClient.SendCommand | backend/tcp_client.js:62-85 | one send to the current port writing exactly the command and `\n`; it succeeds or fails as the connection does |
| TcpClient.UnrealTcpClient.StreamCommands | backend/tcp_client.js:88-111 | when not connected, fails with "not connected" before sending anything; otherwise sends and pauses exactly as `StreamFrom` says and fails exactly when a send fails |
| TcpClient.UnrealTcpClient.QueueCommand | backend/tcp_client.js:114-117 | the queue becomes the old queue followed by the command; nothing else changes |
| TcpClient.UnrealTcpClient.BeginDrain | backend/tcp_client.js:120-127 | a no-op while a drain runs or when the queue is empty; otherwise the drain is marked running, the queue moves into its snapshot and the queue is emptied |
| TcpClient.UnrealTcpClient.FinishDrain | backend/tcp_client.js:129-137 | with S the snapshot and N the commands queued meanwhile: on success the queue is N; on failure it is S followed by N; the drain flag is cleared either way |
| TcpClient.UnrealTcpClient.ProcessQueue | backend/tcp_client.js:120-138 | a no-op while draining or when the queue is empty; otherwise streams the whole queue, leaves it empty when the stream succeeds, and restores all of it otherwise (including when disconnected); the flag ends cleared |
| TcpClient.UnrealTcpClient.SendBlendshapes | backend/tcp_client.js:140-145 | sends exactly `BLENDSHAPES.` + json + `\n` |
| TcpClient.UnrealTcpClient.SendAudioData | backend/tcp_client.js:147-152 | sends exactly `AUDIO.` + decimal byte count + `bytes\n` |
| TcpClient.UnrealTcpClient.StartSpeaking | backend/tcp_client.js:154-156 | sends exactly `startspeaking\n` |
| TcpClient.UnrealTcpClient.StopSpeaking | backend/tcp_client.js:158-160 | sends exactly `stopspeaking\n` |
| TcpClient.UnrealTcpClient.SendEmoteSequence | backend/tcp_client.js:163-165 | an emote sequence is streamed exactly as `StreamCommands` streams it |
| TcpClient.UnrealTcpClient.GetQueueStatus | backend/tcp_client.js:168-174 | reports the queue length and the draining and connected flags |
| TcpClient.UnrealTcpClient.TestPorts | backend/tcp_client.js:177-218 | probes candidates in order up to the first accepted one, adopts and returns it and probes no later one; when none is accepted, probes all, keeps the port and fails with "no server found" |
| TcpClient.UnrealTcpClient.Disconnect | backend/tcp_client.js:220-225 | afterwards the client is not connected; a second call changes nothing |
| TcpServer.TrackedIff | backend/tcp_server.js:14-33 | a socket is tracked exactly when it was accepted and no later `end`, `error` or stop dropped it |
| TcpServer.AckOfFrame | backend/tcp_server.js:16-23 | the reply ignores the frame's `\n`; a single-line command gets back exactly one line, `Received: ` and the trimmed command |
| TcpServer.UnrealTcpServer.constructor | backend/tcp_server.js:4-8 | a new server has no listener and an empty set of clients |
| TcpServer.UnrealTcpServer.Start | backend/tcp_server.js:10-47 | `start` creates the server; it listens exactly when the listen succeeds and fails otherwise |
| TcpServer.UnrealTcpServer.Accept | backend/tcp_server.js:12-14 | an accepted socket is added to the set |
| TcpServer.UnrealTcpServer.OnEnd | backend/tcp_server.js:26-29 | `end` removes exactly that socket; the others stay tracked |
| TcpServer.UnrealTcpServer.OnError | backend/tcp_server.js:31-34 | `error` removes exactly that socket; the others stay tracked |
| TcpServer.UnrealTcpServer.OnData | backend/tcp_server.js:16-24 | the reply written on the socket is `Received: ` + trimmed chunk + `\n` |
| TcpServer.UnrealTcpServer.Stop | backend/tcp_server.js:49-66 | on a started server, every tracked socket is destroyed exactly once, the set ends empty and the server stops listening; on a server never started, nothing changes |
| Scenarios.DrainFailureRestoresWholeQueue | backend/tcp_client.js:120-138 | with queue [A, B, C] and the second send failing: A is delivered, B is attempted, and the queue is again [A, B, C] with the flag cleared |
| Scenarios.ArrivalDuringFailedDrain | backend/tcp_client.js:114-137 | a command queued during a failed drain of [a, b] ends up behind them: [a, b, x] |
| Scenarios.ProcessWhileDisconnected | backend/tcp_client.js:89-91 | while disconnected, processing sends nothing and keeps the queue |
| Scenarios.QueueThenProcess | backend/tcp_client.js:114-138 | on a connected client, queueing x and processing sends x exactly once and empties the queue |
| Scenarios.ProbeThenSpeak | backend/tcp_client.js:177-218 | probing [7777, 7778] with only 7778 accepting adopts 7778, and `startSpeaking` then writes `startspeaking\n` to 7778 |
| Scenarios.ProbeFindsNothing | backend/tcp_client.js:177-217 | probing the default candidates with none accepting fails with "no server found" and keeps port 7777 |
| Scenarios.SixClosesInARow | backend/tcp_client.js:36-59 | six closes schedule reconnects at 2000, 4000, 6000, 8000 and 10000 ms and leave the counter at 5; a later connect resets it to 0 |
| Scenarios.DisconnectTwice | backend/tcp_client.js:220-225 | after either of two disconnects the client is not connected, and the second changes nothing |
| Scenarios.StopDestroysEverySocket | backend/tcp_server.js:49-56 | after accepting 1, 2 and 3 and an `end` on 3, stop destroys exactly 1 and 2 and leaves nothing tracked |

## Left out

- Socket I/O, Promises and the event loop are not modelled. Connect, write
  and probe outcomes are parameters. Events are methods the caller invokes.
  The Promise that `connect()` returns is not modelled; its outcome is the
  event that follows.
- Timers are not modelled. A scheduled reconnect is only logged with its
  delay. Its firing is the caller calling `Connect`. Stream pauses are only
  logged.
- Interleaving is not modelled: ad-hoc `sendCommand` calls during a drain,
  events from a replaced socket, the `error` then `close` order of Node
  sockets, and `close` fired by `destroy()` during `disconnect`. These are
  runtime behaviours of the socket library.
- The code does not cancel pending reconnect timers on `disconnect` and has
  no terminal "reconnect exhausted" state, so neither is modelled.
- TcpClient.UnrealTcpClient.SendCommand: it does not tell a connect failure
  from a write failure, and the socket's error value is opaque
  (`SendFailed`). Both reject the Promise in the same way.
- TcpClient.UnrealTcpClient.SendBlendshapes: the blendshape object is taken
  as its JSON text, since `JSON.stringify` is a library call.
- TcpClient.UnrealTcpClient.SendAudioData: the audio data is taken as its
  length, a natural number. A missing argument, which throws in the source,
  is not modelled.
- TcpClient.UnrealTcpClient.StreamCommands: `delayMs` is an integer;
  fractional JavaScript numbers are not modelled.
- The client's `data` handler (tcp_client.js:26-28) and all console output,
  including the server's hex dump (tcp_server.js:18), only log, so they are
  not modelled.
- The server treats each received chunk as one payload. How TCP splits or
  joins writes into chunks, and the UTF-8 decoding of the chunk, are not
  modelled.
- `isRunning` (tcp_server.js:68-70) only reads the library's `listening`
  flag, so it is not modelled. A failed `server.close` callback is also not
  modelled.
- The host never changes, so it is kept as a field but not recorded in the
  send log.
- frontend/src/App.js is not part of this model. It holds the UI and its
  IPC calls.
- python/tcp_test_client.py is not part of this model. It is a console loop
  whose framing (tcp_test_client.py:22) is the same as tcp_client.js:67.
