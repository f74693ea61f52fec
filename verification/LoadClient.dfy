/**
 The load generator's connection in the form of the source: offsets, buffer and state updated in
 place by an event handler with inner send and receive loops, while the echo server at the other
 end of the connection moves whenever it likes.

 The ghost field `log` is a schedule of the composed system, and `Valid` says that the fields are
 the state that this schedule leads to.
 */
module LoadClient {
  import opened Basics
  import opened EchoSession
  import L = EchoLink

  /** What the composed system guarantees about the client's fields. */
  lemma Facts(payload: seq<byte>, size: nat, log: seq<L.Action>, l: L.Link)
    requires L.Leads(L.Init(payload, size), log, l)
    ensures l.buffer == payload && l.read <= l.written <= |payload|
    ensures (l.phase.Sending? ==> l.read == 0) && (l.phase.Receiving? ==> l.written == |payload|)
  {
    L.LeadsToAfter(L.Init(payload, size), log, l);
    L.EchoComesBack(payload, size, log);
  }

  /** And about what it has counted. */
  lemma Counts(payload: seq<byte>, size: nat, log: seq<L.Action>, l: L.Link)
    requires L.Leads(L.Init(payload, size), log, l)
    ensures l.requests * |payload| + l.read == L.Echoed(L.Init(payload, size), log)
  {
    L.LeadsToAfter(L.Init(payload, size), log, l);
    L.CountedRequestsAreEchoed(payload, size, log);
  }

  /** How many of `room` bytes a loop of calls moves that the kernel answers in turn, up to one that fails. */
  function Moved(answers: seq<int>, room: int): (n: nat)
    ensures n == 0 || n <= room
  {
    if answers == [] || answers[0] <= 0 || answers[0] > room then 0
    else answers[0] + Moved(answers[1..], room - answers[0])
  }

  /** At position `at` of `length`, the answers from the `k`-th on lead to `goal`. */
  predicate Due(answers: seq<int>, k: nat, length: int, at: int, goal: int) {
    k <= |answers| && at + Moved(answers[k..], length - at) == goal
  }

  lemma DueFirst(answers: seq<int>, length: int, at: int)
    ensures Due(answers, 0, length, at, at + Moved(answers, length - at))
  {
    assert answers[0..] == answers;
  }

  lemma DueOn(answers: seq<int>, k: nat, length: int, at: int, goal: int)
    requires Due(answers, k, length, at, goal)
    ensures if k < |answers| && 1 <= answers[k] <= length - at then Due(answers, k + 1, length, at + answers[k], goal)
      else at == goal
  {
    if k < |answers| { assert answers[k..][1..] == answers[k + 1..]; }
  }

  /**
   A readiness event, with what the kernel answers to the calls of the handler: to its sends, to its
   receives, and to its sends again once it has begun the next request.
   */
  datatype Event = Event(writable: bool, readable: bool, sends: seq<int>, receives: seq<int>, again: seq<int>)

  /**
   What an event does to a client with a payload of `n` bytes.  At most one request is counted, on a
   readable event, and no whole echo is left uncounted after a readable event, nor between events.
   A writable event sends what the kernel takes; a readable one receives what it gives, as far as
   that has arrived, and counts the request and begins the next one if that is the rest of it.
   */
  ghost predicate Reaction(e: Event, n: nat, a: L.Link, b: L.Link) {
    && (b.requests == a.requests || (b.requests == a.requests + 1 && e.readable && b.read == 0))
    && (n > 0 && (e.readable || a.read < n) ==> b.read < n)
    && (a.phase.Sending? && !e.writable ==> b.phase.Sending? && b.written == a.written)
    && (a.phase.Sending? && e.writable && !e.readable ==> b.written == a.written + Moved(e.sends, n - a.written))
    && (a.phase.Receiving? && e.readable ==> Received(e, n, a, b))
  }

  ghost predicate Received(e: Event, n: nat, a: L.Link, b: L.Link) {
    var got := Moved(e.receives, n - a.read);
    got <= |a.down| ==>
      if a.read + got < n then b.requests == a.requests && b.read == a.read + got
      else b.requests == a.requests + 1 && b.written == Moved(e.again, n)
  }

  class Connection {
    ghost const payload: seq<byte>
    ghost const size: nat
    var sending: bool
    var written: nat
    var read: nat
    var buffer: array<byte>
    var requests: nat
    var up: seq<byte>
    var server: Session
    var down: seq<byte>
    ghost var log: seq<L.Action>

    ghost function State(): L.Link
      reads this, buffer
    {
      L.Link(if sending then L.Sending else L.Receiving, written, read, buffer[..], requests, up, server, down)
    }

    ghost predicate Valid()
      reads this, buffer
    {
      L.Leads(L.Init(payload, size), log, State())
    }

    constructor (bytes: seq<byte>, serverSize: nat)
      ensures Valid() && fresh(buffer) && payload == bytes && size == serverSize && log == []
      ensures State() == L.Init(bytes, serverSize)
    {
      payload, size := bytes, serverSize;
      sending, written, read, requests := true, 0, 0, 0;
      buffer := new byte[|bytes|](i requires 0 <= i < |bytes| => bytes[i]);
      up, server, down := [], Start(serverSize), [];
      log := [];
      new;
      assert buffer[..] == bytes;
      L.LeadsNowhere(L.Init(bytes, serverSize));
    }

    /** Records a step: the fields have just moved from `l` as the composed system does on `act`. */
    ghost method Record(l: L.Link, act: L.Action)
      requires L.Leads(L.Init(payload, size), log, l) && State() == L.Step(l, act)
      modifies `log
      ensures Valid() && log == old(log) + [act]
    {
      L.LeadsOn(L.Init(payload, size), log, l, act);
      log := log + [act];
    }

    /** Any number of steps of the server. */
    method Network()
      requires Valid()
      modifies `up, `server, `down, `log
      ensures Valid() && old(log) <= log && |old(down)| <= |down|
    {
      var k: nat := *;
      while k > 0
        modifies `up, `server, `down, `log
        invariant Valid() && old(log) <= log && |old(down)| <= |down|
      {
        var act: L.Action := *;
        if act.ServerReceive? || act.ServerSend? || act.ServerFail? {
          ServerMoves(act);
        }
        k := k - 1;
      }
    }

    method ServerMoves(act: L.Action)
      requires Valid() && (act.ServerReceive? || act.ServerSend? || act.ServerFail?)
      modifies `up, `server, `down, `log
      ensures Valid() && log == old(log) + [act] && |old(down)| <= |down|
    {
      ghost var l := State();
      match act {
        case ServerReceive(n) =>
          if server.inflight == [Receive] && n <= |up| && n <= |server.buffer| {
            server, up := Complete(server, Received(up[..n])), up[n..];
          }
        case ServerSend(n) =>
          if server.inflight != [] && server.inflight[0].Send? && n <= |Unsent(server)| {
            server, down := Complete(server, Sent(n)), down + Unsent(server)[..n];
          }
        case ServerFail => server := Complete(server, Failed);
      }
      Record(l, act);
    }

    /** One successful send. */
    method Ship(n: nat)
      requires Valid() && sending && 1 <= n <= buffer.Length - written
      modifies `up, `written, `log
      ensures Valid() && log == old(log) + [L.ClientSend(n)]
      ensures written == old(written) + n && up == old(up) + buffer[old(written)..written]
    {
      ghost var l := State();
      up := up + buffer[written..written + n];
      written := written + n;
      Record(l, L.ClientSend(n));
    }

    /** The whole payload is sent: turns to receiving. */
    method Turn()
      requires Valid() && sending && written == buffer.Length
      modifies `sending, `log
      ensures Valid() && !sending && log == old(log) + [L.ClientTurn]
    {
      ghost var l := State();
      sending := false;
      Record(l, L.ClientTurn);
    }

    /** The sends of the send loop: each after whatever the server has done meanwhile. */
    method ShipAll(answers: seq<int>)
      requires Valid() && sending && written <= buffer.Length
      modifies `written, `up, `server, `down, `log
      ensures Valid() && old(log) <= log && old(written) <= written <= buffer.Length
      ensures written == old(written) + Moved(answers, buffer.Length - old(written))
    {
      ghost var goal := written + Moved(answers, buffer.Length - written);
      DueFirst(answers, buffer.Length, written);
      var k := 0;
      while written < buffer.Length && k < |answers| && 0 < answers[k] <= buffer.Length - written
        invariant Valid() && old(log) <= log
        invariant old(written) <= written <= buffer.Length && Due(answers, k, buffer.Length, written, goal)
        decreases |answers| - k
      {
        DueOn(answers, k, buffer.Length, written, goal);
        Network();
        Ship(answers[k]);
        k := k + 1;
      }
      DueOn(answers, k, buffer.Length, written, goal);
    }

    /**
     The send loop: ships the rest of the payload until a send fails, then turns to receiving if all
     is sent.  `answers` are what the sends return.
     */
    method SendLoop(answers: seq<int>)
      requires Valid() && sending
      modifies `written, `sending, `up, `server, `down, `log
      ensures Valid() && old(log) <= log && buffer[..] == payload && read == 0
      ensures written == old(written) + Moved(answers, buffer.Length - old(written)) <= buffer.Length
      ensures sending <==> written < buffer.Length
    {
      Facts(payload, size, log, State());
      ShipAll(answers);
      if written == buffer.Length {
        Turn();
      }
    }

    /** One successful receive: overwrites the buffer from the read offset on. */
    method Take(n: nat)
      requires Valid() && !sending && 1 <= n <= |down| && n <= buffer.Length - read
      modifies `down, `read, `log, buffer
      ensures Valid() && log == old(log) + [L.ClientReceive(n)]
      ensures read == old(read) + n && down == old(down)[n..]
    {
      ghost var l := State();
      forall i | 0 <= i < n {
        buffer[read + i] := down[i];
      }
      down, read := down[n..], read + n;
      assert buffer[..] == l.buffer[..l.read] + l.down[..n] + l.buffer[l.read + n..];
      Record(l, L.ClientReceive(n));
    }

    /** The receives of the receive loop, as far as there is something to receive. */
    method TakeAll(answers: seq<int>)
      requires Valid() && !sending && read <= buffer.Length
      modifies `read, `up, `server, `down, `log, buffer
      ensures Valid() && old(log) <= log && old(read) <= read <= buffer.Length
      ensures var n := Moved(answers, buffer.Length - old(read));
        read <= old(read) + n && (n <= |old(down)| ==> read == old(read) + n)
    {
      ghost var goal := read + Moved(answers, buffer.Length - read);
      DueFirst(answers, buffer.Length, read);
      var k := 0;
      while read < buffer.Length && k < |answers| && 0 < answers[k] <= buffer.Length - read
        invariant Valid() && old(log) <= log && |down| >= |old(down)| - (read - old(read))
        invariant old(read) <= read <= buffer.Length && Due(answers, k, buffer.Length, read, goal)
        decreases |answers| - k
      {
        DueOn(answers, k, buffer.Length, read, goal);
        Network();
        if answers[k] > |down| {
          return;
        }
        Take(answers[k]);
        k := k + 1;
      }
      DueOn(answers, k, buffer.Length, read, goal);
    }

    /**
     The receive loop: overwrites the buffer with the echo until a receive fails or the echo is
     complete.  `answers` are what the receives return.
     */
    method ReceiveLoop(answers: seq<int>)
      requires Valid() && !sending
      modifies `read, `up, `server, `down, `log, buffer
      ensures Valid() && old(log) <= log && buffer[..] == payload
      ensures old(read) <= read <= buffer.Length
      ensures var n := Moved(answers, buffer.Length - old(read));
        read <= old(read) + n && (n <= |old(down)| ==> read == old(read) + n)
    {
      Facts(payload, size, log, State());
      TakeAll(answers);
      Facts(payload, size, log, State());
    }

    /** The whole echo is back: counts the request and begins the next one. */
    method Finish()
      requires Valid() && !sending && read == buffer.Length
      modifies `requests, `sending, `read, `written, `log
      ensures Valid() && log == old(log) + [L.ClientFinish]
      ensures sending && read == 0 && written == 0 && requests == old(requests) + 1
    {
      ghost var l := State();
      requests := requests + 1;
      sending, read, written := true, 0, 0;
      Record(l, L.ClientFinish);
    }

    /** The receive loop, and if the whole echo is back, the next request. */
    method ReceiveAndCount(receives: seq<int>, again: seq<int>)
      requires Valid() && !sending
      modifies this, buffer
      ensures Valid() && old(log) <= log && buffer == old(buffer) && read <= buffer.Length
      ensures requests == old(requests) || (requests == old(requests) + 1 && read == 0)
      ensures buffer.Length > 0 ==> read < buffer.Length
      ensures var n := Moved(receives, buffer.Length - old(read)); n <= |old(down)| && old(read) <= buffer.Length ==>
        if old(read) + n < buffer.Length then requests == old(requests) && read == old(read) + n
        else requests == old(requests) + 1 && written == Moved(again, buffer.Length)
    {
      ReceiveLoop(receives);
      if read == buffer.Length {
        Finish();
        SendLoop(again);
      }
    }

    /** The handler itself. */
    method React(e: Event)
      requires Valid()
      modifies this, buffer
      ensures Valid() && old(log) <= log && buffer == old(buffer) && Reaction(e, buffer.Length, old(State()), State())
    {
      Facts(payload, size, log, State());
      if e.writable && sending {
        SendLoop(e.sends);
      }
      if e.readable && !sending {
        ReceiveAndCount(e.receives, e.again);
      }
    }

    /**
     One readiness event.  Whatever the kernel and the server do, the buffer holds the payload
     again afterwards, and the requests counted are exactly those whose whole echo has come back,
     as the run records it.
     */
    method HandleEvent(e: Event)
      requires Valid()
      modifies this, buffer
      ensures Valid() && old(log) <= log && buffer == old(buffer) && buffer[..] == payload
      ensures Reaction(e, |payload|, old(State()), State())
      ensures requests * |payload| + read == L.Echoed(L.Init(payload, size), log) && read <= |payload|
    {
      React(e);
      Facts(payload, size, log, State());
      Counts(payload, size, log, State());
    }
  }
}
