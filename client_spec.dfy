/**
 * Specification functions for the command client: what one command
 * stream sends and pauses for, what a run of reconnect attempts
 * schedules, and which candidate port a probe adopts. The client class
 * in module TcpClient is proved against these; the lemmas here say what
 * they mean.
 */
module ClientSpec {
  import opened Outcomes
  import opened Wire

  /** One ephemeral send: its port, the frame it writes once the connection opens, whether it was delivered. */
  datatype Delivery = Delivery(port: int, payload: string, delivered: bool)

  /**
   * The observable effect of streaming commands from index `i` on: the
   * sends attempted in order, the pauses taken between them, and the
   * index of the send that failed, if one did.
   */
  datatype StreamRun = StreamRun(sends: seq<Delivery>, pauses: seq<int>, failedAt: Option<nat>)

  /**
   * Streaming `commands[i..]`: send command i; if it fails, stop with
   * that error; otherwise pause `delayMs` unless it was the last command
   * or the delay is not positive, and go on with i + 1. `sendOk(j)` says
   * whether the j-th send of the stream succeeds.
   */
  function StreamFrom(port: int, commands: seq<string>, delayMs: int, sendOk: nat -> bool, i: nat): (run: StreamRun)
    requires i <= |commands|
    ensures run.failedAt.None? <==> forall j :: i <= j < |commands| ==> sendOk(j)
    ensures run.failedAt.Some? ==>
      var k := run.failedAt.value;
      i <= k < |commands| && !sendOk(k) && forall j :: i <= j < k ==> sendOk(j)
    decreases |commands| - i
  {
    if i == |commands| then StreamRun([], [], None)
    else if !sendOk(i) then StreamRun([Delivery(port, Frame(commands[i]), false)], [], Some(i))
    else
      var rest := StreamFrom(port, commands, delayMs, sendOk, i + 1);
      var pause := if i < |commands| - 1 && delayMs > 0 then [delayMs] else [];
      StreamRun([Delivery(port, Frame(commands[i]), true)] + rest.sends, pause + rest.pauses, rest.failedAt)
  }

  lemma {:induction false} StreamFromAllDelivered(port: int, commands: seq<string>, delayMs: int, sendOk: nat -> bool, i: nat)
    requires i <= |commands|
    requires forall j :: i <= j < |commands| ==> sendOk(j)
    ensures var run := StreamFrom(port, commands, delayMs, sendOk, i);
      && |run.sends| == |commands| - i
      && (forall j :: 0 <= j < |run.sends| ==> run.sends[j] == Delivery(port, Frame(commands[i + j]), true))
      && |run.pauses| == (if delayMs > 0 && i < |commands| then |commands| - 1 - i else 0)
      && (forall j :: 0 <= j < |run.pauses| ==> run.pauses[j] == delayMs)
    decreases |commands| - i
  {
    if i < |commands| {
      StreamFromAllDelivered(port, commands, delayMs, sendOk, i + 1);
    }
  }

  /**
   * When every send succeeds, each command is sent exactly once, framed,
   * in its original order, with `delayMs` between consecutive sends: n - 1
   * pauses for n commands when the delay is positive, none otherwise.
   */
  lemma StreamDeliversAll(port: int, commands: seq<string>, delayMs: int, sendOk: nat -> bool)
    requires forall j :: 0 <= j < |commands| ==> sendOk(j)
    ensures var run := StreamFrom(port, commands, delayMs, sendOk, 0);
      && run.failedAt == None
      && |run.sends| == |commands|
      && (forall j :: 0 <= j < |commands| ==> run.sends[j] == Delivery(port, Frame(commands[j]), true))
      && |run.pauses| == (if delayMs > 0 && |commands| > 0 then |commands| - 1 else 0)
      && (forall j :: 0 <= j < |run.pauses| ==> run.pauses[j] == delayMs)
  {
    StreamFromAllDelivered(port, commands, delayMs, sendOk, 0);
  }

  lemma {:induction false} StreamFromStops(port: int, commands: seq<string>, delayMs: int, sendOk: nat -> bool, i: nat, k: nat)
    requires i <= k < |commands|
    requires !sendOk(k) && forall j :: i <= j < k ==> sendOk(j)
    ensures var run := StreamFrom(port, commands, delayMs, sendOk, i);
      && run.failedAt == Some(k)
      && |run.sends| == k - i + 1
      && (forall j :: 0 <= j < |run.sends| ==> run.sends[j] == Delivery(port, Frame(commands[i + j]), i + j < k))
      && |run.pauses| == (if delayMs > 0 then k - i else 0)
      && (forall j :: 0 <= j < |run.pauses| ==> run.pauses[j] == delayMs)
    decreases k - i
  {
    if i < k {
      StreamFromStops(port, commands, delayMs, sendOk, i + 1, k);
    }
  }

  /**
   * When send k is the first to fail, exactly commands 0..k were
   * attempted, in order, the first k of them delivered; k pauses were
   * taken (none when the delay is not positive); and the stream reports
   * the failure of send k.
   */
  lemma StreamStopsAtFirstFailure(port: int, commands: seq<string>, delayMs: int, sendOk: nat -> bool, k: nat)
    requires k < |commands|
    requires !sendOk(k) && forall j :: 0 <= j < k ==> sendOk(j)
    ensures var run := StreamFrom(port, commands, delayMs, sendOk, 0);
      && run.failedAt == Some(k)
      && |run.sends| == k + 1
      && (forall j :: 0 <= j <= k ==> run.sends[j] == Delivery(port, Frame(commands[j]), j < k))
      && |run.pauses| == (if delayMs > 0 then k else 0)
      && (forall j :: 0 <= j < |run.pauses| ==> run.pauses[j] == delayMs)
  {
    StreamFromStops(port, commands, delayMs, sendOk, 0, k);
  }

  // ---------------------------------------------------------------- reconnect

  const MaxReconnectAttempts: nat := 5
  const BackoffBaseMs: nat := 2000

  /** The delay before the k-th reconnect attempt: linear in k. */
  function Backoff(attempt: nat): nat {
    BackoffBaseMs * attempt
  }

  /** The counter after one attempt to reconnect: it grows only while below the cap. */
  function NextAttempts(attempts: nat, max: nat): nat {
    if attempts < max then attempts + 1 else attempts
  }

  /** The timers one attempt to reconnect schedules: one, for the new count, while below the cap. */
  function Scheduled(attempts: nat, max: nat): seq<nat> {
    if attempts < max then [Backoff(attempts + 1)] else []
  }

  /** The counter after `calls` attempts to reconnect with no successful connect in between. */
  function AttemptsAfter(attempts: nat, max: nat, calls: nat): nat
    decreases calls
  {
    if calls == 0 then attempts else AttemptsAfter(NextAttempts(attempts, max), max, calls - 1)
  }

  /** The delays of the timers those `calls` attempts schedule, in order. */
  function ReconnectDelays(attempts: nat, max: nat, calls: nat): seq<nat>
    decreases calls
  {
    if calls == 0 then [] else Scheduled(attempts, max) + ReconnectDelays(NextAttempts(attempts, max), max, calls - 1)
  }

  /** One more attempt extends the run by exactly that attempt's step. */
  lemma {:induction false} ReconnectSnoc(attempts: nat, max: nat, calls: nat)
    ensures AttemptsAfter(attempts, max, calls + 1) == NextAttempts(AttemptsAfter(attempts, max, calls), max)
    ensures ReconnectDelays(attempts, max, calls + 1)
         == ReconnectDelays(attempts, max, calls) + Scheduled(AttemptsAfter(attempts, max, calls), max)
    decreases calls
  {
    if calls > 0 {
      ReconnectSnoc(NextAttempts(attempts, max), max, calls - 1);
    }
  }

  /**
   * Starting below the cap, `calls` attempts raise the counter to
   * min(attempts + calls, max) and never past the cap, and schedule one
   * timer per step taken, the j-th with delay 2000 * (attempts + j + 1).
   */
  lemma {:induction false} ReconnectSchedule(attempts: nat, max: nat, calls: nat)
    requires attempts <= max
    ensures var after := AttemptsAfter(attempts, max, calls);
      var delays := ReconnectDelays(attempts, max, calls);
      && after == (if attempts + calls < max then attempts + calls else max)
      && |delays| == after - attempts
      && forall j :: 0 <= j < |delays| ==> delays[j] == Backoff(attempts + j + 1)
    decreases calls
  {
    if calls > 0 {
      ReconnectSchedule(NextAttempts(attempts, max), max, calls - 1);
    }
  }

  /**
   * From a fresh counter, max + 1 calls schedule exactly `max` reconnects
   * with delays 2000, 4000, ..., 2000 * max; the last call schedules none.
   */
  lemma ReconnectCapped(max: nat)
    ensures AttemptsAfter(0, max, max + 1) == max
    ensures ReconnectDelays(0, max, max + 1) == ReconnectDelays(0, max, max)
    ensures |ReconnectDelays(0, max, max)| == max
    ensures forall j :: 0 <= j < max ==> ReconnectDelays(0, max, max)[j] == Backoff(j + 1)
  {
    ReconnectSchedule(0, max, max);
    ReconnectSchedule(0, max, max + 1);
    ReconnectSnoc(0, max, max);
  }

  // ---------------------------------------------------------------- probing

  /** The candidate ports probed when the caller names none. */
  const DefaultProbePorts: seq<int> := [7777, 7778, 7779, 7780, 11111]

  /**
   * The index of the first candidate, from `i` on, whose probe is
   * accepted within the timeout (`accepts(j)` for the j-th probe), or
   * None when no candidate accepts.
   */
  function FirstAccepting(ports: seq<int>, accepts: nat -> bool, i: nat): (k: Option<nat>)
    requires i <= |ports|
    ensures k.None? <==> forall j :: i <= j < |ports| ==> !accepts(j)
    ensures k.Some? ==> i <= k.value < |ports| && accepts(k.value) && forall j :: i <= j < k.value ==> !accepts(j)
    decreases |ports| - i
  {
    if i == |ports| then None
    else if accepts(i) then Some(i)
    else FirstAccepting(ports, accepts, i + 1)
  }
}
