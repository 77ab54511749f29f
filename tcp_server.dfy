/**
 * The development peer: it accepts connections, keeps the set of open
 * client sockets, answers every received chunk with an acknowledgement
 * line, and on stop destroys every tracked socket. Sockets are abstract
 * identifiers; the socket library's events become methods.
 */
module TcpServer {
  import opened Outcomes
  import opened Wire

  type SocketId = nat

  /** What happened to the tracked set, in order: an accept, an 'end', an 'error', or stop's clear. */
  datatype Event = Accepted(socket: SocketId) | Ended(socket: SocketId) | Errored(socket: SocketId) | Cleared

  /** One acknowledgement written back on a client socket. */
  datatype Reply = Reply(socket: SocketId, text: string)

  datatype ServerError = ListenFailed

  const AckPrefix: string := "Received: "

  /** The reply to a received chunk: "Received: ", the trimmed chunk, and '\n'. */
  function Acknowledgement(payload: string): string {
    Frame(AckPrefix + Trim(payload))
  }

  /** The sockets tracked after a sequence of events. */
  function Tracked(events: seq<Event>): set<SocketId> {
    if events == [] then {}
    else
      var prior := Tracked(events[..|events| - 1]);
      match events[|events| - 1]
      case Accepted(s) => prior + {s}
      case Ended(s) => prior - {s}
      case Errored(s) => prior - {s}
      case Cleared => {}
  }

  /** Whether event `e` drops socket `s` from the tracked set. */
  predicate Drops(e: Event, s: SocketId) {
    e == Ended(s) || e == Errored(s) || e == Cleared
  }

  /** Event i accepted `s` and no later event dropped it. */
  predicate KeptSince(events: seq<Event>, s: SocketId, i: int) {
    && 0 <= i < |events|
    && events[i] == Accepted(s)
    && forall j :: i < j < |events| ==> !Drops(events[j], s)
  }

  /**
   * A socket is tracked exactly when it was accepted and has not since
   * ended, failed, or been cleared by stop.
   */
  lemma {:induction false} TrackedIff(events: seq<Event>, s: SocketId)
    ensures s in Tracked(events) <==> exists i :: KeptSince(events, s, i)
    decreases |events|
  {
    if events != [] {
      var n := |events| - 1;
      var init := events[..n];
      var e := events[n];
      TrackedIff(init, s);
      if e == Accepted(s) {
        assert KeptSince(events, s, n);
      } else if Drops(e, s) {
        forall i | 0 <= i < |events|
          ensures !KeptSince(events, s, i)
        {
          if i < n {
            assert Drops(events[n], s);
          }
        }
      } else {
        forall i | 0 <= i < n
          ensures KeptSince(events, s, i) <==> KeptSince(init, s, i)
        {
          assert events[i] == init[i];
          assert forall j :: i < j < n ==> events[j] == init[j];
        }
        if s in Tracked(events) {
          var i :| KeptSince(init, s, i);
          assert KeptSince(events, s, i);
        }
        if exists i :: KeptSince(events, s, i) {
          var i :| KeptSince(events, s, i);
          assert i != n;
          assert KeptSince(init, s, i);
        }
      }
    }
  }

  /**
   * The trailing '\n' of a frame does not show in the acknowledgement,
   * and a single-line command is acknowledged by exactly one line,
   * "Received: " and the trimmed command.
   */
  lemma AckOfFrame(command: string)
    requires SingleLine(command)
    ensures Acknowledgement(Frame(command)) == Acknowledgement(command)
    ensures Lines(Acknowledgement(Frame(command))) == [AckPrefix + Trim(command)]
  {
    TrimFrame(command);
    var before, after := TrimSplits(command);
    var line := AckPrefix + Trim(command);
    forall i | 0 <= i < |line|
      ensures line[i] != LineTerminator
    {
      if i >= |AckPrefix| {
        assert line[i] == command[|before| + i - |AckPrefix|];
      }
    }
    LinesOfFrame(line);
  }

  class UnrealTcpServer {
    var port: int
    /** Whether a server object has been created (the source's `server` is not null). */
    var hasServer: bool
    /** Whether the server accepts connections. */
    var listening: bool
    var clients: set<SocketId>

    ghost var events: seq<Event>
    /** The sockets stop destroyed, in the order it destroyed them. */
    var destroyed: seq<SocketId>
    var replies: seq<Reply>

    /** The tracked set is what the events so far make it; only a created server listens. */
    ghost predicate Valid()
      reads this
    {
      clients == Tracked(events) && (listening ==> hasServer)
    }

    constructor (port: int)
      ensures Valid()
      ensures this.port == port && !hasServer && !listening && clients == {}
      ensures events == [] && destroyed == [] && replies == []
    {
      this.port := port;
      hasServer := false;
      listening := false;
      clients := {};
      events, destroyed, replies := [], [], [];
    }

    /** start(): creates the server and listens; `ok` says whether the listen succeeds. */
    method Start(ok: bool) returns (r: Result<(), ServerError>)
      requires Valid()
      modifies this`hasServer, this`listening
      ensures Valid()
      ensures hasServer && listening == ok
      ensures r == if ok then Ok(()) else Err(ListenFailed)
    {
      hasServer := true;
      listening := ok;
      r := if ok then Ok(()) else Err(ListenFailed);
    }

    /** A connection accepted by the listening server is tracked. */
    method Accept(s: SocketId)
      requires Valid() && listening
      modifies this`clients, this`events
      ensures Valid()
      ensures clients == old(clients) + {s}
      ensures events == old(events) + [Accepted(s)]
    {
      clients := clients + {s};
      events := events + [Accepted(s)];
    }

    /** A socket's 'end' event: that socket, and only it, is no longer tracked. */
    method OnEnd(s: SocketId)
      requires Valid()
      modifies this`clients, this`events
      ensures Valid()
      ensures clients == old(clients) - {s}
      ensures events == old(events) + [Ended(s)]
    {
      clients := clients - {s};
      events := events + [Ended(s)];
    }

    /** A socket's 'error' event: that socket, and only it, is no longer tracked. */
    method OnError(s: SocketId)
      requires Valid()
      modifies this`clients, this`events
      ensures Valid()
      ensures clients == old(clients) - {s}
      ensures events == old(events) + [Errored(s)]
    {
      clients := clients - {s};
      events := events + [Errored(s)];
    }

    /** A socket's 'data' event: the acknowledgement is written back on that socket. */
    method OnData(s: SocketId, payload: string) returns (reply: string)
      modifies this`replies
      ensures reply == Acknowledgement(payload)
      ensures replies == old(replies) + [Reply(s, reply)]
    {
      reply := AckPrefix + Trim(payload) + [LineTerminator];
      replies := replies + [Reply(s, reply)];
    }

    /**
     * stop(): on a created server, destroys every tracked socket exactly
     * once, working from a snapshot of the set, then empties the set and
     * stops listening; on a server never started, changes nothing.
     */
    method Stop()
      requires Valid()
      modifies this`clients, this`events, this`destroyed, this`listening
      ensures Valid()
      ensures old(hasServer) ==>
        && clients == {} && !listening
        && events == old(events) + [Cleared]
        && |destroyed| == |old(destroyed)| + |old(clients)|
        && destroyed[..|old(destroyed)|] == old(destroyed)
        && multiset(destroyed[|old(destroyed)|..]) == multiset(old(clients))
      ensures !old(hasServer) ==>
        clients == old(clients) && listening == old(listening)
        && events == old(events) && destroyed == old(destroyed)
    {
      if hasServer {
        var remaining := clients;
        ghost var done: seq<SocketId> := [];
        while remaining != {}
          invariant clients == old(clients) && events == old(events)
          invariant remaining <= clients
          invariant multiset(done) + multiset(remaining) == multiset(clients)
          invariant destroyed == old(destroyed) + done
          decreases |remaining|
        {
          var s :| s in remaining;
          destroyed := destroyed + [s];
          done := done + [s];
          remaining := remaining - {s};
        }
        assert destroyed[|old(destroyed)|..] == done;
        assert |done| == |multiset(done)| == |multiset(clients)|;
        clients := {};
        events := events + [Cleared];
        listening := false;
      }
    }
  }
}
