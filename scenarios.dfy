/**
 * Concrete runs of the client, each returning what a caller would
 * observe afterwards. They are proved from the client's and the
 * server's contracts alone.
 */
module Scenarios {
  import opened Outcomes
  import opened Wire
  import opened Payloads
  import opened ClientSpec
  import opened TcpClient
  import opened TcpServer

  /** A connected client with the queue [A, B, C] whose second send fails keeps all three queued, in order. */
  method DrainFailureRestoresWholeQueue() returns (queue: seq<string>, processing: bool, sent: seq<Delivery>)
    ensures queue == ["A", "B", "C"] && !processing
    ensures sent == [Delivery(DefaultPort, Frame("A"), true), Delivery(DefaultPort, Frame("B"), false)]
  {
    var c := new UnrealTcpClient();
    c.Connect();
    c.OnConnect();
    c.QueueCommand("A");
    c.QueueCommand("B");
    c.QueueCommand("C");
    c.ProcessQueue(j => j != 1);
    queue, processing, sent := c.commandQueue, c.isProcessing, c.wire;
  }

  /**
   * A command x queued while a drain of [a, b] runs stays behind the
   * snapshot: when the drain fails (here because the client is not
   * connected) the queue is [a, b, x], the whole snapshot back in front,
   * and the drain is over.
   */
  method ArrivalDuringFailedDrain(a: string, b: string, x: string) returns (queue: seq<string>, processing: bool)
    ensures queue == [a, b, x] && !processing
  {
    var c := new UnrealTcpClient();
    c.QueueCommand(a);
    c.QueueCommand(b);
    var started := c.BeginDrain();
    c.QueueCommand(x);
    var streamed := c.StreamCommands(c.inFlight, j => true);
    c.FinishDrain(streamed);
    queue, processing := c.commandQueue, c.isProcessing;
  }

  /** While disconnected, processing the queue sends nothing and keeps the queue. */
  method ProcessWhileDisconnected() returns (queue: seq<string>, sent: seq<Delivery>)
    ensures queue == ["startspeaking"] && sent == []
  {
    var c := new UnrealTcpClient();
    c.QueueCommand(StartSpeakingText);
    c.ProcessQueue(j => true);
    queue, sent := c.commandQueue, c.wire;
  }

  /** Queueing x on a connected client and processing the queue sends x exactly once and empties the queue. */
  method QueueThenProcess(x: string) returns (queue: seq<string>, sent: seq<Delivery>)
    ensures queue == [] && sent == [Delivery(DefaultPort, Frame(x), true)]
  {
    var c := new UnrealTcpClient();
    c.Connect();
    c.OnConnect();
    c.QueueCommand(x);
    c.ProcessQueue(j => true);
    queue, sent := c.commandQueue, c.wire;
  }

  /**
   * Probing [7777, 7778] with only 7778 listening adopts 7778, and the
   * next send, startSpeaking, goes to 7778 as the literal "startspeaking"
   * line.
   */
  method ProbeThenSpeak() returns (found: Result<int, ClientError>, sent: seq<Delivery>)
    ensures found == Ok(7778)
    ensures sent == [Delivery(7778, "startspeaking\n", true)]
  {
    var c := new UnrealTcpClient();
    var accepts: nat -> bool := j => j == 1;
    assert FirstAccepting([7777, 7778], accepts, 0) == Some(1);
    found := c.TestPorts(accepts, [7777, 7778]);
    var r := c.StartSpeaking(true);
    assert Frame(Payload(Command.StartSpeaking)) == "startspeaking\n";
    sent := c.wire;
  }

  /** When no candidate accepts, the probe fails and the port stays the default. */
  method ProbeFindsNothing() returns (found: Result<int, ClientError>, port: int)
    ensures found == Err(NoServerFound) && port == DefaultPort
  {
    var c := new UnrealTcpClient();
    found := c.TestPorts(j => false);
    port := c.port;
  }

  /**
   * Six closes in a row schedule five reconnects, 2, 4, 6, 8 and 10
   * seconds out, and leave the counter at the cap; a successful connect
   * resets it.
   */
  method SixClosesInARow() returns (attempts: nat, delays: seq<nat>, afterConnect: nat)
    ensures attempts == 5 && delays == [2000, 4000, 6000, 8000, 10000]
    ensures afterConnect == 0
  {
    var c := new UnrealTcpClient();
    c.Connect();
    c.OnClose();
    c.OnClose();
    c.OnClose();
    c.OnClose();
    c.OnClose();
    c.OnClose();
    attempts, delays := c.reconnectAttempts, c.reconnectDelays;
    c.OnConnect();
    afterConnect := c.reconnectAttempts;
  }

  /** Disconnecting twice is harmless: the client is disconnected after each call and nothing else changes. */
  method DisconnectTwice() returns (first: QueueStatus, second: QueueStatus)
    ensures !first.isConnected && first == second
  {
    var c := new UnrealTcpClient();
    c.Connect();
    c.OnConnect();
    c.QueueCommand("A");
    c.Disconnect();
    first := c.GetQueueStatus();
    c.Disconnect();
    second := c.GetQueueStatus();
  }

  /** A stopped server tracks nothing, and every socket it tracked was destroyed exactly once. */
  method StopDestroysEverySocket() returns (tracked: set<SocketId>, destroyed: seq<SocketId>)
    ensures tracked == {} && multiset(destroyed) == multiset{1, 2}
  {
    var server := new UnrealTcpServer(DefaultPort);
    var started := server.Start(true);
    server.Accept(1);
    server.Accept(2);
    server.Accept(3);
    server.OnEnd(3);
    server.Stop();
    tracked, destroyed := server.clients, server.destroyed;
    assert destroyed[0..] == destroyed;
  }
}
