/**
 * The command client of the engine's control channel. Socket I/O is
 * replaced by outcome oracles passed in by the caller, timers by logged
 * delays, and the socket's event handlers by methods the caller invokes
 * when the event happens.
 */
module TcpClient {
  import opened Outcomes
  import opened Wire
  import opened Payloads
  import opened ClientSpec

  const DefaultHost: string := "127.0.0.1"
  const DefaultPort: int := 7777
  /** The pause between streamed commands when the caller names none. */
  const DefaultDelayMs: int := 100

  /** Why a send, a stream or a probe was rejected. */
  datatype ClientError =
    | NotConnected   // "Not connected to Unreal Engine"
    | SendFailed     // the socket's connect or write error, passed on as is
    | NoServerFound  // "No TCP server found on any tested port"

  /** What getQueueStatus reports to callers. */
  datatype QueueStatus = QueueStatus(queueLength: nat, isProcessing: bool, isConnected: bool)

  class UnrealTcpClient {
    var host: string
    var port: int
    /** Whether a persistent socket has been created (the source's `client` is not null). */
    var hasSocket: bool
    var isConnected: bool
    var reconnectAttempts: nat
    const maxReconnectAttempts: nat
    var commandQueue: seq<string>
    var isProcessing: bool
    /** The snapshot a running processQueue took of the queue; empty when none runs. */
    var inFlight: seq<string>

    /** Every ephemeral send attempted, in order. */
    var wire: seq<Delivery>
    /** Every pause a stream took between two sends, in order. */
    var pauses: seq<int>
    /** Attempts to reconnect since the last successful connect, and the timers they scheduled. */
    ghost var reconnectCalls: nat
    var reconnectDelays: seq<nat>
    /** Every candidate port probed, in order. */
    var probes: seq<int>
    /** Every command ever queued, and those a successful drain has delivered. */
    ghost var queued: seq<string>
    ghost var drained: seq<string>

    /**
     * The client's invariant: only a created socket can be connected; the
     * reconnect counter is what the attempts since the last connect make
     * it, so it never passes the cap; and, in submission order, every
     * queued command has been drained, is being drained, or still waits.
     */
    ghost predicate Valid()
      reads this
    {
      && (isConnected ==> hasSocket)
      && reconnectAttempts == AttemptsAfter(0, maxReconnectAttempts, reconnectCalls)
      && reconnectDelays == ReconnectDelays(0, maxReconnectAttempts, reconnectCalls)
      && reconnectAttempts <= maxReconnectAttempts
      && (!isProcessing ==> inFlight == [])
      && drained + inFlight + commandQueue == queued
    }

    constructor (host: string := DefaultHost, port: int := DefaultPort)
      ensures Valid()
      ensures this.host == host && this.port == port
      ensures !hasSocket && !isConnected && reconnectAttempts == 0 && reconnectDelays == []
      ensures maxReconnectAttempts == MaxReconnectAttempts
      ensures commandQueue == [] && !isProcessing
      ensures wire == [] && pauses == [] && probes == [] && queued == [] && drained == []
    {
      this.host := host;
      this.port := port;
      hasSocket := false;
      isConnected := false;
      reconnectAttempts := 0;
      maxReconnectAttempts := MaxReconnectAttempts;
      commandQueue := [];
      isProcessing := false;
      inFlight := [];
      wire, pauses, probes := [], [], [];
      reconnectCalls, reconnectDelays := 0, [];
      queued, drained := [], [];
    }

    /** connect(): creates the persistent socket; the outcome arrives as OnConnect, OnError or OnClose. */
    method Connect()
      requires Valid()
      modifies this`hasSocket
      ensures Valid() && hasSocket
    {
      hasSocket := true;
    }

    /** The socket's 'connect' event: connected, and the reconnect counter starts over. */
    method OnConnect()
      requires Valid() && hasSocket
      modifies this`isConnected, this`reconnectAttempts, this`reconnectCalls, this`reconnectDelays
      ensures Valid()
      ensures isConnected && reconnectAttempts == 0
      ensures reconnectCalls == 0 && reconnectDelays == []
    {
      isConnected := true;
      reconnectAttempts := 0;
      reconnectCalls, reconnectDelays := 0, [];
    }

    /** The socket's 'error' event. */
    method OnError()
      requires Valid()
      modifies this`isConnected
      ensures Valid() && !isConnected
    {
      isConnected := false;
    }

    /** The socket's 'close' event: disconnected, then one attempt to reconnect. */
    method OnClose()
      requires Valid()
      modifies this`isConnected, this`reconnectAttempts, this`reconnectCalls, this`reconnectDelays
      ensures Valid() && !isConnected
      ensures reconnectAttempts == NextAttempts(old(reconnectAttempts), maxReconnectAttempts)
      ensures reconnectDelays == old(reconnectDelays) + Scheduled(old(reconnectAttempts), maxReconnectAttempts)
    {
      isConnected := false;
      AttemptReconnect();
    }

    /**
     * attemptReconnect(): below the cap, counts one more attempt and
     * schedules a connect after 2000 ms times the new count; at the cap it
     * does nothing.
     */
    method AttemptReconnect()
      requires Valid()
      modifies this`reconnectAttempts, this`reconnectCalls, this`reconnectDelays
      ensures Valid()
      ensures reconnectAttempts == if old(reconnectAttempts) < maxReconnectAttempts
                                   then old(reconnectAttempts) + 1 else old(reconnectAttempts)
      ensures reconnectDelays == old(reconnectDelays) + if old(reconnectAttempts) < maxReconnectAttempts
                                                         then [Backoff(old(reconnectAttempts) + 1)] else []
      ensures reconnectCalls == old(reconnectCalls) + 1
    {
      ReconnectSnoc(0, maxReconnectAttempts, reconnectCalls);
      if reconnectAttempts < maxReconnectAttempts {
        reconnectAttempts := reconnectAttempts + 1;
        reconnectDelays := reconnectDelays + [Backoff(reconnectAttempts)];
      }
      reconnectCalls := reconnectCalls + 1;
    }

    /**
     * sendCommand(command): one ephemeral connection to the current port
     * that writes the command and a single '\n'; `ok` says whether the
     * connect and the write succeed.
     */
    method SendCommand(command: string, ok: bool) returns (r: Result<(), ClientError>)
      modifies this`wire
      ensures wire == old(wire) + [Delivery(port, Frame(command), ok)]
      ensures r == if ok then Ok(()) else Err(SendFailed)
    {
      wire := wire + [Delivery(port, Frame(command), ok)];
      r := if ok then Ok(()) else Err(SendFailed);
    }

    /**
     * streamCommands(commands, delayMs): refused unless connected;
     * otherwise sends the commands one at a time, each after the previous
     * one succeeded, pausing between them, and stops at the first failure.
     * `sendOk(j)` says whether the j-th send succeeds.
     */
    method StreamCommands(commands: seq<string>, sendOk: nat -> bool, delayMs: int := DefaultDelayMs) returns (r: Result<(), ClientError>)
      modifies this`wire, this`pauses
      ensures !(isConnected && hasSocket) ==>
        r == Err(NotConnected) && wire == old(wire) && pauses == old(pauses)
      ensures isConnected && hasSocket ==>
        var run := StreamFrom(port, commands, delayMs, sendOk, 0);
        && wire == old(wire) + run.sends
        && pauses == old(pauses) + run.pauses
        && r == (if run.failedAt.None? then Ok(()) else Err(SendFailed))
    {
      if !isConnected || !hasSocket {
        return Err(NotConnected);
      }
      ghost var run := StreamFrom(port, commands, delayMs, sendOk, 0);
      ghost var todo := run;
      var i := 0;
      while i < |commands|
        invariant 0 <= i <= |commands|
        invariant todo == StreamFrom(port, commands, delayMs, sendOk, i)
        invariant wire + todo.sends == old(wire) + run.sends
        invariant pauses + todo.pauses == old(pauses) + run.pauses
        invariant todo.failedAt == run.failedAt
      {
        ghost var wireBefore, pausesBefore := wire, pauses;
        var sent := SendCommand(commands[i], sendOk(i));
        if sent.Err? {
          return sent;
        }
        ghost var rest := StreamFrom(port, commands, delayMs, sendOk, i + 1);
        ghost var delivery := Delivery(port, Frame(commands[i]), true);
        assert todo.sends == [delivery] + rest.sends && todo.failedAt == rest.failedAt;
        assert (wireBefore + [delivery]) + rest.sends == wireBefore + ([delivery] + rest.sends);
        if i < |commands| - 1 && delayMs > 0 {
          pauses := pauses + [delayMs];
          assert todo.pauses == [delayMs] + rest.pauses;
          assert (pausesBefore + [delayMs]) + rest.pauses == pausesBefore + ([delayMs] + rest.pauses);
        } else {
          assert todo.pauses == rest.pauses;
        }
        todo := rest;
        i := i + 1;
      }
      r := Ok(());
    }

    /** queueCommand(command): appends at the tail; nothing else changes. */
    method QueueCommand(command: string)
      requires Valid()
      modifies this`commandQueue, this`queued
      ensures Valid()
      ensures commandQueue == old(commandQueue) + [command]
      ensures queued == old(queued) + [command]
    {
      commandQueue := commandQueue + [command];
      queued := queued + [command];
    }

    /**
     * The first half of processQueue: a no-op while a drain runs or when
     * the queue is empty; otherwise marks the drain as running and moves
     * the whole queue into the drain's snapshot.
     */
    method BeginDrain() returns (started: bool)
      requires Valid()
      modifies this`isProcessing, this`commandQueue, this`inFlight
      ensures Valid()
      ensures started == (!old(isProcessing) && old(commandQueue) != [])
      ensures started ==> isProcessing && inFlight == old(commandQueue) && commandQueue == []
      ensures !started ==> isProcessing == old(isProcessing) && inFlight == old(inFlight)
                           && commandQueue == old(commandQueue)
    {
      if isProcessing || |commandQueue| == 0 {
        return false;
      }
      isProcessing := true;
      inFlight := commandQueue;
      commandQueue := [];
      started := true;
    }

    /**
     * The second half of processQueue, once the stream has settled: on
     * failure the whole snapshot, sent or not, goes back in front of
     * whatever was queued meanwhile; either way the drain is over.
     */
    method FinishDrain(streamed: Result<(), ClientError>)
      requires Valid() && isProcessing
      modifies this`isProcessing, this`commandQueue, this`inFlight, this`drained
      ensures Valid()
      ensures !isProcessing && inFlight == []
      ensures commandQueue == if streamed.Ok? then old(commandQueue) else old(inFlight) + old(commandQueue)
      ensures drained == if streamed.Ok? then old(drained) + old(inFlight) else old(drained)
    {
      if streamed.Ok? {
        drained := drained + inFlight;
      } else {
        commandQueue := inFlight + commandQueue;
      }
      inFlight := [];
      isProcessing := false;
    }

    /**
     * processQueue(delayMs): a no-op while a drain runs or when the queue
     * is empty; otherwise streams the whole queue and, on any failure
     * (including not being connected), restores all of it.
     */
    method ProcessQueue(sendOk: nat -> bool, delayMs: int := DefaultDelayMs)
      requires Valid()
      modifies this`isProcessing, this`commandQueue, this`inFlight, this`drained, this`wire, this`pauses
      ensures Valid()
      ensures old(isProcessing) || old(commandQueue) == [] ==>
        && isProcessing == old(isProcessing) && commandQueue == old(commandQueue)
        && inFlight == old(inFlight) && drained == old(drained)
        && wire == old(wire) && pauses == old(pauses)
      ensures !old(isProcessing) && old(commandQueue) != [] ==>
        var run := StreamFrom(port, old(commandQueue), delayMs, sendOk, 0);
        var live := isConnected && hasSocket;
        var ok := live && run.failedAt.None?;
        && !isProcessing && inFlight == []
        && commandQueue == (if ok then [] else old(commandQueue))
        && drained == old(drained) + (if ok then old(commandQueue) else [])
        && wire == old(wire) + (if live then run.sends else [])
        && pauses == old(pauses) + (if live then run.pauses else [])
    {
      var started := BeginDrain();
      if started {
        var streamed := StreamCommands(inFlight, sendOk, delayMs);
        FinishDrain(streamed);
      }
    }

    /** sendBlendshapes(blendshapes): one send of "BLENDSHAPES." and the JSON text. */
    method SendBlendshapes(json: string, ok: bool) returns (r: Result<(), ClientError>)
      modifies this`wire
      ensures wire == old(wire) + [Delivery(port, Frame(Payload(Blendshapes(json))), ok)]
      ensures r == if ok then Ok(()) else Err(SendFailed)
    {
      r := SendCommand(BlendshapesPrefix + json, ok);
    }

    /** sendAudioData(audioData): one send of "AUDIO.", the byte count and "bytes". */
    method SendAudioData(byteCount: nat, ok: bool) returns (r: Result<(), ClientError>)
      modifies this`wire
      ensures wire == old(wire) + [Delivery(port, Frame(Payload(Audio(byteCount))), ok)]
      ensures r == if ok then Ok(()) else Err(SendFailed)
    {
      r := SendCommand(AudioPrefix + Decimal(byteCount) + AudioSuffix, ok);
    }

    method StartSpeaking(ok: bool) returns (r: Result<(), ClientError>)
      modifies this`wire
      ensures wire == old(wire) + [Delivery(port, Frame(Payload(Command.StartSpeaking)), ok)]
      ensures r == if ok then Ok(()) else Err(SendFailed)
    {
      r := SendCommand(StartSpeakingText, ok);
    }

    method StopSpeaking(ok: bool) returns (r: Result<(), ClientError>)
      modifies this`wire
      ensures wire == old(wire) + [Delivery(port, Frame(Payload(Command.StopSpeaking)), ok)]
      ensures r == if ok then Ok(()) else Err(SendFailed)
    {
      r := SendCommand(StopSpeakingText, ok);
    }

    /** sendEmoteSequence(emotes, delayMs): a stream of the emote commands. */
    method SendEmoteSequence(emotes: seq<string>, sendOk: nat -> bool, delayMs: int := DefaultDelayMs) returns (r: Result<(), ClientError>)
      modifies this`wire, this`pauses
      ensures var run := StreamFrom(port, emotes, delayMs, sendOk, 0);
        if isConnected && hasSocket then
          wire == old(wire) + run.sends && pauses == old(pauses) + run.pauses
          && r == (if run.failedAt.None? then Ok(()) else Err(SendFailed))
        else
          r == Err(NotConnected) && wire == old(wire) && pauses == old(pauses)
    {
      r := StreamCommands(emotes, sendOk, delayMs);
    }

    /** getQueueStatus(): the queue length and the two flags, read without change. */
    method GetQueueStatus() returns (s: QueueStatus)
      ensures s.queueLength == |commandQueue|
      ensures s.isProcessing == isProcessing && s.isConnected == isConnected
    {
      s := QueueStatus(|commandQueue|, isProcessing, isConnected);
    }

    /**
     * testPorts(ports): probes the candidates one after another; the first
     * that accepts within the timeout becomes the client's port and is
     * returned, and later candidates are not probed. When none accepts the
     * port is kept and the call fails. `accepts(j)` says whether the j-th
     * probe is accepted in time.
     */
    method TestPorts(accepts: nat -> bool, ports: seq<int> := DefaultProbePorts) returns (r: Result<int, ClientError>)
      modifies this`port, this`probes
      ensures match FirstAccepting(ports, accepts, 0)
        case Some(k) => r == Ok(ports[k]) && port == ports[k] && probes == old(probes) + ports[..k + 1]
        case None => r == Err(NoServerFound) && port == old(port) && probes == old(probes) + ports
    {
      var i := 0;
      while i < |ports|
        invariant 0 <= i <= |ports|
        invariant FirstAccepting(ports, accepts, i) == FirstAccepting(ports, accepts, 0)
        invariant probes == old(probes) + ports[..i]
        invariant port == old(port)
      {
        probes := probes + [ports[i]];
        if accepts(i) {
          assert ports[..i + 1] == ports[..i] + [ports[i]];
          port := ports[i];
          return Ok(port);
        }
        assert ports[..i + 1] == ports[..i] + [ports[i]];
        i := i + 1;
      }
      assert ports[..i] == ports;
      r := Err(NoServerFound);
    }

    /** disconnect(): destroys the persistent socket if there is one; afterwards the client is not connected. */
    method Disconnect()
      requires Valid()
      modifies this`isConnected
      ensures Valid() && !isConnected
    {
      if hasSocket {
        isConnected := false;
      }
    }
  }
}
