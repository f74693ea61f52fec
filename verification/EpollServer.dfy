/**
 One connection of the epoll reactor: an edge-triggered event handler that drains the socket
 into a growing buffer, echoes as much as the socket takes, and asks for write readiness while
 something is left.
 */
module EpollServer {
  import opened Basics

  const INITIAL_SIZE: nat := 4096

  /** How the drain of the socket ended: nothing left for now, the peer closed, or an error. */
  datatype Ending = Drained | EndOfFile | Broken

  /** How a send ended: it took so many bytes, the socket is full, or an error. */
  datatype SendResult = Took(n: nat) | Full | Fatal

  /** A readiness event, with what the kernel does while it is handled. */
  datatype Event = Event(
    hangup: bool, readable: bool, writable: bool,
    incoming: seq<byte>, ending: Ending, first: SendResult, second: SendResult)

  function Min(a: nat, b: nat): nat { if a < b then a else b }

  /** How many of the offered bytes a send takes. */
  function Taken(r: SendResult, offered: nat): nat {
    if r.Took? then Min(r.n, offered) else 0
  }

  /** The bytes that an event brings. */
  function Delivered(e: Event): seq<byte> {
    if !e.hangup && e.readable then e.incoming else []
  }

  function AllDelivered(events: seq<Event>): seq<byte> {
    if events == [] then [] else AllDelivered(events[..|events| - 1]) + Delivered(events[|events| - 1])
  }

  /** Bytes shipped, and whether the connection survives, when an event finds `unsent` bytes waiting. */
  datatype Outcome = Outcome(shipped: nat, open: bool)

  function Readable(e: Event, unsent: nat): Outcome {
    if !e.readable then Outcome(0, true)
    else if !e.ending.Drained? then Outcome(0, false)
    else Outcome(Taken(e.first, unsent), unsent > 0 ==> !e.first.Fatal?)
  }

  function Expected(e: Event, unsent: nat): Outcome {
    if e.hangup then Outcome(0, false) else
    var waiting := unsent + |Delivered(e)|;
    var r := Readable(e, waiting);
    if !r.open || !e.writable then r
    else Outcome(r.shipped + Taken(e.second, waiting - r.shipped), waiting > r.shipped ==> !e.second.Fatal?)
  }

  /** How far a connection is: bytes received, bytes sent, and whether it is open. */
  datatype Progress = Progress(got: nat, sent: nat, open: bool)

  function Onward(p: Progress, e: Event): (q: Progress)
    requires p.sent <= p.got
    ensures q.sent <= q.got
  {
    if !p.open then p else
    var o := Expected(e, p.got - p.sent);
    Progress(p.got + |Delivered(e)|, p.sent + o.shipped, o.open)
  }

  function Replay(events: seq<Event>): (p: Progress)
    ensures p.sent <= p.got
  {
    if events == [] then Progress(0, 0, true) else Onward(Replay(events[..|events| - 1]), events[|events| - 1])
  }

  /** Bytes move from the front of a range of the buffer to the end of what was sent. */
  lemma Cut(sent: seq<byte>, buffer: array<byte>, lo: nat, mid: nat, hi: nat)
    requires lo <= mid <= hi <= buffer.Length
    ensures (sent + buffer[lo..mid]) + buffer[mid..hi] == sent + buffer[lo..hi]
  {
    assert buffer[lo..mid] + buffer[mid..hi] == buffer[lo..hi];
  }

  class ConnectionContext {
    var buffer: array<byte>
    var readBytes: nat
    var writeBytes: nat
    var wantWrite: bool
    var isOpen: bool
    var writeInterest: bool           // whether EPOLLOUT is registered for the descriptor
    ghost var received: seq<byte>     // every byte received so far
    ghost var sent: seq<byte>         // every byte sent so far

    /** The buffer always has room, and holds exactly what has been received and not sent. */
    ghost predicate Valid()
      reads this, buffer
    {
      && writeBytes <= readBytes < buffer.Length
      && sent + buffer[writeBytes..readBytes] == received
      && writeInterest == wantWrite
    }

    /** Between events: on an open connection unsent bytes mean that write readiness is being watched. */
    ghost predicate AtRest()
      reads this, buffer
    {
      Valid() && (isOpen && writeBytes < readBytes ==> writeInterest)
    }

    ghost predicate Reached(p: Progress)
      reads this
    {
      |received| == p.got && |sent| == p.sent && isOpen == p.open
    }

    constructor ()
      ensures AtRest() && isOpen && fresh(buffer) && buffer.Length == INITIAL_SIZE
      ensures received == [] && sent == [] && readBytes == 0
    {
      buffer := new byte[INITIAL_SIZE](_ => 0);
      readBytes, writeBytes, wantWrite := 0, 0, false;
      isOpen, writeInterest := true, false;
      received, sent := [], [];
    }

    /** The full buffer is replaced by one of twice the size with the same bytes in front. */
    method Double()
      requires readBytes == buffer.Length
      modifies `buffer
      ensures fresh(buffer) && buffer.Length == 2 * old(buffer.Length) && buffer[..readBytes] == old(buffer[..])
    {
      var bigger := new byte[2 * buffer.Length](_ => 0);
      forall i | 0 <= i < buffer.Length {
        bigger[i] := buffer[i];
      }
      buffer := bigger;
    }

    /** Stores freshly received bytes behind the others, doubling the buffer when it is full. */
    method Store(data: seq<byte>)
      requires Valid() && |data| <= buffer.Length - readBytes
      modifies this, buffer
      ensures Valid() && received == old(received) + data && sent == old(sent)
      ensures unchanged(`writeBytes, `wantWrite, `isOpen) && readBytes == old(readBytes) + |data|
      ensures buffer == old(buffer) || (fresh(buffer) && buffer.Length == 2 * old(buffer.Length))
    {
      ghost var unsent := buffer[writeBytes..readBytes];
      forall i | 0 <= i < |data| {
        buffer[readBytes + i] := data[i];
      }
      received := received + data;
      readBytes := readBytes + |data|;
      assert buffer[writeBytes..readBytes] == unsent + data;
      assert sent + (unsent + data) == (sent + unsent) + data;
      if readBytes == buffer.Length {
        Double();
      }
    }

    /**
     Drains the socket: the kernel delivers `incoming` in pieces of its own choosing, never more
     at once than the room that the buffer has.  Every byte is kept, in order.
     */
    method ReceiveLoop(incoming: seq<byte>, ending: Ending) returns (closed: bool)
      requires Valid()
      modifies this, buffer
      ensures Valid() && sent == old(sent) && received == old(received) + incoming
      ensures unchanged(`writeBytes, `wantWrite, `isOpen) && readBytes == old(readBytes) + |incoming|
      ensures closed <==> !ending.Drained?
      ensures buffer == old(buffer) || fresh(buffer)
    {
      var done := 0;
      while done < |incoming|
        invariant 0 <= done <= |incoming|
        invariant Valid() && sent == old(sent) && received == old(received) + incoming[..done]
        invariant unchanged(`writeBytes, `wantWrite, `isOpen) && readBytes == old(readBytes) + done
        invariant buffer == old(buffer) || fresh(buffer)
      {
        var most := Min(|incoming| - done, buffer.Length - readBytes);
        var n: int := *;
        if n <= 0 || n > most {
          n := most;
        }
        Store(incoming[done..done + n]);
        assert incoming[..done + n] == incoming[..done] + incoming[done..done + n];
        done := done + n;
      }
      assert incoming[..|incoming|] == incoming;
      closed := ending != Drained;
    }

    /** One `send` of the unsent bytes.  The kernel takes at most what it is offered. */
    method SendOnce(result: SendResult) returns (failed: bool)
      requires Valid()
      modifies `writeBytes, `sent
      ensures Valid() && (failed <==> result.Fatal?)
      ensures writeBytes == old(writeBytes) + Taken(result, readBytes - old(writeBytes))
      ensures sent == old(sent) + buffer[old(writeBytes)..writeBytes]
    {
      failed := result.Fatal?;
      var n := Taken(result, readBytes - writeBytes);
      Cut(sent, buffer, writeBytes, writeBytes + n, readBytes);
      sent := sent + buffer[writeBytes..writeBytes + n];
      writeBytes := writeBytes + n;
    }

    /** The readable half of an event. */
    method OnReadable(incoming: seq<byte>, ending: Ending, result: SendResult)
      requires AtRest() && isOpen
      modifies this, buffer
      ensures AtRest() && received == old(received) + incoming && old(sent) <= sent
      ensures |sent| == |old(sent)| + if ending.Drained? then Taken(result, |received| - |old(sent)|) else 0
      ensures isOpen <==> ending.Drained? && (result.Fatal? ==> old(writeBytes) == old(readBytes) + |incoming|)
      ensures buffer == old(buffer) || fresh(buffer)
    {
      var closed := ReceiveLoop(incoming, ending);
      if closed {
        isOpen := false;
        return;
      }
      if readBytes > writeBytes {
        var failed := SendOnce(result);
        if failed {
          isOpen := false;
          return;
        }
        if writeBytes < readBytes {
          if !wantWrite {
            writeInterest := true;
            wantWrite := true;
          }
        } else {
          readBytes, writeBytes := 0, 0;
        }
      }
    }

    /** The writable half of an event: write readiness is watched afterwards exactly if bytes are left. */
    method OnWritable(result: SendResult)
      requires AtRest() && isOpen
      modifies this
      ensures AtRest() && received == old(received) && old(sent) <= sent && buffer == old(buffer)
      ensures |sent| == |old(sent)| + Taken(result, |received| - |old(sent)|)
      ensures isOpen <==> (result.Fatal? ==> old(writeBytes) == old(readBytes))
      ensures isOpen ==> (writeInterest <==> sent != received)
    {
      if readBytes > writeBytes {
        var failed := SendOnce(result);
        if failed {
          isOpen := false;
          return;
        }
      }
      if writeBytes == readBytes {
        writeInterest := false;
        wantWrite := false;
        readBytes, writeBytes := 0, 0;
      }
    }

    /**
     One event.  Whatever it reports and however the kernel splits receives and sends: the bytes
     sent stay a prefix of the bytes received and grow by what the sends took, the connection
     closes exactly on a hang-up, an end of file or a fatal error, and write readiness is watched
     while bytes are left.
     */
    method HandleEvent(e: Event)
      requires AtRest() && isOpen
      modifies this, buffer
      ensures AtRest() && received == old(received) + Delivered(e)
      ensures old(sent) <= sent <= received
      ensures var o := Expected(e, |old(received)| - |old(sent)|);
        isOpen == o.open && |sent| == |old(sent)| + o.shipped
      ensures e.hangup ==> !isOpen && sent == old(sent)
      ensures !e.hangup && e.readable && !e.ending.Drained? ==> !isOpen && sent == old(sent)
      ensures !e.hangup && e.writable && !e.readable && e.second.Took? ==> var k := |old(sent)| + e.second.n;
        isOpen && sent == if k < |received| then received[..k] else received
      ensures !e.hangup && e.readable && !e.writable && e.ending.Drained? && e.first.Took? ==> var k := |old(sent)| + e.first.n;
        isOpen && sent == if k < |received| then received[..k] else received
      ensures !e.hangup && e.readable && e.writable && e.ending.Drained? && e.first.Took? && e.second.Took? ==>
        var k := |old(sent)| + e.first.n + e.second.n;
        isOpen && sent == if k < |received| then received[..k] else received
      ensures !e.hangup && e.writable && !e.readable && e.second.Fatal? ==> isOpen == (old(sent) == received) && sent == old(sent)
      ensures buffer == old(buffer) || fresh(buffer)
    {
      if e.hangup {
        isOpen := false;
      } else {
        if e.readable {
          OnReadable(e.incoming, e.ending, e.first);
        }
        if isOpen && e.writable {
          OnWritable(e.second);
        }
      }
    }

    /** The same, told as progress. */
    method Advance(e: Event, ghost p: Progress)
      requires AtRest() && isOpen && Reached(p) && p.sent <= p.got
      modifies this, buffer
      ensures AtRest() && Reached(Onward(p, e)) && received == old(received) + Delivered(e)
      ensures buffer == old(buffer) || fresh(buffer)
    {
      HandleEvent(e);
    }
  }

  lemma OneMore(events: seq<Event>, k: nat)
    requires k < |events|
    ensures Replay(events[..k + 1]) == Onward(Replay(events[..k]), events[k])
    ensures AllDelivered(events[..k + 1]) == AllDelivered(events[..k]) + Delivered(events[k])
  {
    assert events[..k + 1][..k] == events[..k];
  }

  /**
   A connection under any sequence of events, from accept until it closes or the events end.  It
   has received exactly what the handled events brought, and sent a prefix of it, as long as the
   sends of all the events took.
   */
  method Serve(events: seq<Event>) returns (c: ConnectionContext, handled: nat)
    ensures handled <= |events| && (handled < |events| ==> !c.isOpen)
    ensures c.AtRest() && c.received == AllDelivered(events[..handled]) && c.sent <= c.received
    ensures c.Reached(Replay(events[..handled]))
    ensures c.isOpen && c.sent != c.received ==> c.writeInterest
  {
    c := new ConnectionContext();
    handled := 0;
    while handled < |events| && c.isOpen
      invariant handled <= |events|
      invariant c.AtRest() && fresh(c) && fresh(c.buffer)
      invariant c.received == AllDelivered(events[..handled])
      invariant c.Reached(Replay(events[..handled]))
    {
      OneMore(events, handled);
      c.Advance(events[handled], Replay(events[..handled]));
      handled := handled + 1;
    }
  }
}
