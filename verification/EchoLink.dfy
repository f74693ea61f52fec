/**
 One connection of the load generator composed with an echo session over two FIFO byte
 channels.  The client sends its buffer, receives the echo into the same buffer and starts
 again; the kernel splits every transfer as it likes.
 */
module EchoLink {
  import opened Basics
  import opened EchoSession

  datatype Phase = Sending | Receiving

  /** `up` and `down` are the bytes on the wire to and from the server. */
  datatype Link = Link(
    phase: Phase, written: nat, read: nat, buffer: seq<byte>, requests: nat,
    up: seq<byte>, server: Session, down: seq<byte>)

  datatype Action =
    | ClientSend(n: nat)       // one send of the client, of n bytes
    | ClientTurn               // the whole payload is sent: the client starts to receive
    | ClientReceive(n: nat)    // one receive of the client, of n bytes
    | ClientFinish             // the whole echo is back: the next request begins
    | ServerReceive(n: nat)
    | ServerSend(n: nat)
    | ServerFail               // the server's operation fails and its session ends

  function Init(payload: seq<byte>, size: nat): Link {
    Link(Sending, 0, 0, payload, 0, [], Start(size), [])
  }

  function Step(l: Link, act: Action): Link {
    match act
    case ClientSend(n) =>
      if l.phase.Sending? && l.written + n <= |l.buffer| then
        l.(written := l.written + n, up := l.up + l.buffer[l.written..l.written + n])
      else l
    case ClientTurn =>
      if l.phase.Sending? && l.written == |l.buffer| then l.(phase := Receiving) else l
    case ClientReceive(n) =>
      if l.phase.Receiving? && n <= |l.down| && l.read + n <= |l.buffer| then
        l.(buffer := l.buffer[..l.read] + l.down[..n] + l.buffer[l.read + n..], read := l.read + n, down := l.down[n..])
      else l
    case ClientFinish =>
      if l.phase.Receiving? && l.read == |l.buffer| then
        l.(phase := Sending, written := 0, read := 0, requests := l.requests + 1)
      else l
    case ServerReceive(n) =>
      if l.server.inflight == [Receive] && n <= |l.up| && n <= |l.server.buffer| then
        l.(server := Complete(l.server, Received(l.up[..n])), up := l.up[n..])
      else l
    case ServerSend(n) =>
      if l.server.inflight != [] && l.server.inflight[0].Send? && n <= |Unsent(l.server)| then
        l.(server := Complete(l.server, Sent(n)), down := l.down + Unsent(l.server)[..n])
      else l
    case ServerFail => l.(server := Complete(l.server, Failed))
  }

  function After(l: Link, acts: seq<Action>): Link {
    if acts == [] then l else Step(After(l, acts[..|acts| - 1]), acts[|acts| - 1])
  }

  /** The bytes under way, in the order in which they will come back. */
  function UnderWay(l: Link): seq<byte> {
    l.down + Unsent(l.server) + l.up
  }

  ghost predicate Sound(l: Link, payload: seq<byte>) {
    && l.buffer == payload
    && l.read <= l.written <= |payload|
    && (l.phase.Sending? ==> l.read == 0)
    && (l.phase.Receiving? ==> l.written == |payload|)
    && EchoSession.Inv(l.server)
    && (l.server.inflight != [] ==> UnderWay(l) == payload[l.read..l.written])
    && l.down <= payload[l.read..l.written]
  }

  /** Appending to the last of three parts, or moving a piece between neighbours, keeps the whole. */
  lemma Parts(d: seq<byte>, u: seq<byte>, p: seq<byte>, n: nat, x: seq<byte>)
    ensures d + u + (p + x) == (d + u + p) + x
    ensures n <= |d| ==> d[n..] + u + p == (d + u + p)[n..]
    ensures n <= |u| ==> (d + u[..n]) + u[n..] + p == d + u + p
    ensures n <= |p| ==> d + p[..n] + p[n..] == d + p
  {
    if n <= |u| { assert u == u[..n] + u[n..]; }
    if n <= |p| { assert p == p[..n] + p[n..]; }
  }

  lemma SendOk(l: Link, n: nat, payload: seq<byte>)
    requires Sound(l, payload) && l.phase.Sending? && l.written + n <= |payload|
    ensures Sound(Step(l, ClientSend(n)), payload)
  {
    var x := payload[l.written..l.written + n];
    assert payload[l.read..l.written + n] == payload[l.read..l.written] + x;
    Parts(l.down, Unsent(l.server), l.up, 0, x);
  }

  /** Overwriting a piece of the payload with the front of what follows changes nothing. */
  lemma Overwrites(payload: seq<byte>, read: nat, written: nat, down: seq<byte>, n: nat)
    requires read <= written <= |payload| && down <= payload[read..written] && n <= |down|
    ensures read + n <= |payload| && payload[..read] + down[..n] + payload[read + n..] == payload
  {
    assert down[..n] == payload[read..read + n];
  }

  /** What is under way loses its front. */
  lemma DropFront(payload: seq<byte>, read: nat, written: nat, d: seq<byte>, u: seq<byte>, p: seq<byte>, n: nat)
    requires read <= written <= |payload| && d <= payload[read..written] && n <= |d|
    ensures read + n <= written && d[n..] <= payload[read + n..written]
    ensures d + u + p == payload[read..written] ==> d[n..] + u + p == payload[read + n..written]
  {
    assert payload[read..written][n..] == payload[read + n..written];
    assert (d + u + p)[n..] == d[n..] + u + p;
  }

  lemma ReceiveOk(l: Link, n: nat, payload: seq<byte>)
    requires Sound(l, payload) && l.phase.Receiving? && n <= |l.down| && l.read + n <= |payload|
    ensures Sound(Step(l, ClientReceive(n)), payload)
  {
    Overwrites(payload, l.read, l.written, l.down, n);
    DropFront(payload, l.read, l.written, l.down, Unsent(l.server), l.up, n);
  }

  lemma ClientStep(l: Link, act: Action, payload: seq<byte>)
    requires Sound(l, payload) && (act.ClientSend? || act.ClientTurn? || act.ClientReceive? || act.ClientFinish?)
    ensures Sound(Step(l, act), payload)
  {
    if Step(l, act) != l {
      match act
      case ClientSend(n) => SendOk(l, n, payload);
      case ClientReceive(n) => ReceiveOk(l, n, payload);
      case _ =>
    }
  }

  lemma ServerReceiveOk(l: Link, n: nat, payload: seq<byte>)
    requires Sound(l, payload) && l.server.inflight == [Receive] && n <= |l.up| && n <= |l.server.buffer|
    ensures Sound(Step(l, ServerReceive(n)), payload)
  {
    var s' := Complete(l.server, Received(l.up[..n]));
    CompleteOk(l.server, Received(l.up[..n]));
    Parts(l.down, [], l.up, n, []);
    assert l.down + [] == l.down;
    assert s'.inflight != [] ==> Unsent(s') == l.up[..n];
  }

  lemma ServerSendOk(l: Link, n: nat, payload: seq<byte>)
    requires Sound(l, payload) && l.server.inflight != [] && l.server.inflight[0].Send? && n <= |Unsent(l.server)|
    ensures Sound(Step(l, ServerSend(n)), payload)
  {
    var u := Unsent(l.server);
    CompleteOk(l.server, Sent(n));
    Parts(l.down, u, l.up, n, []);
    if n > 0 {
      WritePhaseShrinks(l.server, n);
      AskedShrinks(l.server, n);
    }
  }

  lemma AskedShrinks(s: Session, n: nat)
    requires EchoSession.Inv(s) && s.inflight != [] && s.inflight[0].Send? && 0 < n <= |Unsent(s)|
    ensures Unsent(Complete(s, Sent(n))) == Unsent(s)[n..]
  {
    WritePhaseShrinks(s, n);
  }

  lemma ServerStep(l: Link, act: Action, payload: seq<byte>)
    requires Sound(l, payload) && (act.ServerReceive? || act.ServerSend? || act.ServerFail?)
    ensures Sound(Step(l, act), payload)
  {
    if Step(l, act) != l {
      match act
      case ServerReceive(n) => ServerReceiveOk(l, n, payload);
      case ServerSend(n) => ServerSendOk(l, n, payload);
      case ServerFail => CompleteOk(l.server, Failed);
    }
  }

  /**
   For every interleaving of client and server and every way of splitting the transfers: the
   client's buffer is the payload in every state, although each receive overwrites it; and while
   the server's session lives, the bytes on the wire down, the bytes the server has yet to send
   and the bytes on the wire up are, in this order, exactly the payload from the client's read
   offset to its write offset.
   */
  lemma {:induction false} EchoComesBack(payload: seq<byte>, size: nat, acts: seq<Action>)
    ensures Sound(After(Init(payload, size), acts), payload)
    ensures var l := After(Init(payload, size), acts);
      && l.buffer == payload
      && (l.server.inflight != [] ==>
            && UnderWay(l) == payload[l.read..l.written]
            && |l.down| + |Unsent(l.server)| + |l.up| + l.read == l.written)
  {
    if acts != [] {
      var before, act := acts[..|acts| - 1], acts[|acts| - 1];
      EchoComesBack(payload, size, before);
      var l := After(Init(payload, size), before);
      if act.ServerReceive? || act.ServerSend? || act.ServerFail? {
        ServerStep(l, act, payload);
      } else {
        ClientStep(l, act, payload);
      }
    }
  }

  /** When a request completes over a live session nothing of it is left anywhere. */
  lemma CompletedRequestLeavesNothing(payload: seq<byte>, size: nat, acts: seq<Action>)
    ensures var l := After(Init(payload, size), acts); var l' := Step(l, ClientFinish);
      l'.requests == l.requests + 1 && l.server.inflight != [] ==>
        l'.up == [] && l'.down == [] && Unsent(l'.server) == [] && l'.buffer == payload
  {
    EchoComesBack(payload, size, acts);
  }

  // ------------------------------------------------------------------ what a counted request stands for

  /** Bytes of the echo that the client gets in a step. */
  function Gain(l: Link, act: Action): nat {
    if act.ClientReceive? && l.phase.Receiving? && act.n <= |l.down| && l.read + act.n <= |l.buffer| then act.n else 0
  }

  /** Bytes of the echo that it gets in a run. */
  function Echoed(l: Link, acts: seq<Action>): nat {
    if acts == [] then 0 else
    var before := acts[..|acts| - 1];
    Echoed(l, before) + Gain(After(l, before), acts[|acts| - 1])
  }

  lemma OneMore(requests: nat, size: nat)
    ensures (requests + 1) * size == requests * size + size
  {
  }

  lemma GainStep(l: Link, act: Action)
    ensures var l' := Step(l, act);
      && |l'.buffer| == |l.buffer| && l.requests <= l'.requests <= l.requests + 1
      && l'.requests * |l.buffer| + l'.read == l.requests * |l.buffer| + l.read + Gain(l, act)
  {
    OneMore(l.requests, |l.buffer|);
  }

  /**
   The client counts a request exactly when a whole payload of echo has come back: in every run,
   requests counted times the payload's size, and what has been read of the next echo, are all
   the bytes that came back.
   */
  lemma {:induction false} CountedRequestsAreEchoed(payload: seq<byte>, size: nat, acts: seq<Action>)
    ensures var l := After(Init(payload, size), acts);
      |l.buffer| == |payload| && l.requests * |payload| + l.read == Echoed(Init(payload, size), acts)
  {
    if acts != [] {
      var before := acts[..|acts| - 1];
      CountedRequestsAreEchoed(payload, size, before);
      GainStep(After(Init(payload, size), before), acts[|acts| - 1]);
    }
  }

  // ------------------------------------------------------------------ runs as traces

  ghost predicate IsTrace(trace: seq<Link>, log: seq<Action>) {
    |trace| == |log| + 1 && forall i {:trigger log[i]} :: 0 <= i < |log| ==> trace[i + 1] == Step(trace[i], log[i])
  }

  /** The schedule `log` leads from `l` to `l'`. */
  ghost predicate Leads(l: Link, log: seq<Action>, l': Link) {
    exists trace :: IsTrace(trace, log) && trace[0] == l && trace[|log|] == l'
  }

  lemma LeadsNowhere(l: Link)
    ensures Leads(l, [], l)
  {
    assert IsTrace([l], []);
  }

  lemma LeadsOn(l: Link, log: seq<Action>, l': Link, act: Action)
    requires Leads(l, log, l')
    ensures Leads(l, log + [act], Step(l', act))
  {
    var trace :| IsTrace(trace, log) && trace[0] == l && trace[|log|] == l';
    assert IsTrace(trace + [Step(l', act)], log + [act]);
  }

  lemma {:induction false} TraceIsRun(trace: seq<Link>, log: seq<Action>)
    requires IsTrace(trace, log)
    ensures trace[|log|] == After(trace[0], log)
  {
    if log != [] {
      var n := |log| - 1;
      assert IsTrace(trace[..n + 1], log[..n]);
      TraceIsRun(trace[..n + 1], log[..n]);
    }
  }

  lemma LeadsToAfter(l: Link, log: seq<Action>, l': Link)
    requires Leads(l, log, l')
    ensures l' == After(l, log)
  {
    var trace :| IsTrace(trace, log) && trace[0] == l && trace[|log|] == l';
    TraceIsRun(trace, log);
  }
}
