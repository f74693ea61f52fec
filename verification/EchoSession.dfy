/**
 The echo session of the sender-based servers: `read_loop` and `write_loop` are callbacks that
 start one another, carrying the byte counts as arguments, over one buffer that every receive
 overwrites.  The buffer size is a parameter (4096 bytes, or 128 with fixed buffers).
 */
module EchoSession {
  import opened Basics

  /** An asynchronous operation that has been started, with what its callback captured. */
  datatype Request = Receive | Send(total: nat, sent: nat)

  /**
   `inflight` holds the operations started and not completed; the session lives while a callback
   holds a reference to it.  `input` and `output` are the bytes received and sent so far.
   */
  datatype Session = Session(buffer: seq<byte>, inflight: seq<Request>, input: seq<byte>, output: seq<byte>)

  /** How the kernel completes an operation. */
  datatype Completion =
    | Received(data: seq<byte>)    // a receive of |data| bytes; none means the peer closed
    | Sent(count: nat)             // a send of `count` bytes
    | Failed                       // an error or a cancellation

  function ReadLoop(s: Session): Session {
    s.(inflight := s.inflight + [Receive])
  }

  function WriteLoop(s: Session, total: nat, sent: nat): Session {
    s.(inflight := s.inflight + [Send(total, sent)])
  }

  /** A session on a buffer that may still hold anything. */
  function Begin(buffer: seq<byte>): Session {
    ReadLoop(Session(buffer, [], [], []))
  }

  function Start(size: nat): Session {
    Begin(seq(size, _ => 0))
  }

  /** The bytes that a send asks for: from the captured offset to the captured total. */
  function Asked(s: Session, r: Request): seq<byte> {
    if r.Send? && r.sent <= r.total <= |s.buffer| then s.buffer[r.sent..r.total] else []
  }

  /** The kernel receives no more than the buffer holds and sends no more than it was asked to. */
  predicate Possible(s: Session, r: Request, c: Completion) {
    match c
    case Received(data) => r.Receive? && |data| <= |s.buffer|
    case Sent(count) => r.Send? && count <= |Asked(s, r)|
    case Failed => true
  }

  /** The callback of the first operation in flight runs. */
  function Complete(s: Session, c: Completion): Session {
    if s.inflight == [] || !Possible(s, s.inflight[0], c) then s else
    var r, s' := s.inflight[0], s.(inflight := s.inflight[1..]);
    match c
    case Received(data) =>
      var filled := s'.(buffer := data + s.buffer[|data|..], input := s.input + data);
      if |data| == 0 then s' else WriteLoop(filled, |data|, 0)
    case Sent(count) =>
      var shipped := s'.(output := s.output + Asked(s, r)[..count]);
      if count == 0 then s'
      else if r.sent + count < r.total then WriteLoop(shipped, r.total, r.sent + count)
      else ReadLoop(shipped)
    case Failed => s'
  }

  function After(s: Session, cs: seq<Completion>): Session {
    if cs == [] then s else Complete(After(s, cs[..|cs| - 1]), cs[|cs| - 1])
  }

  /** What has been received and not yet sent back. */
  function Unsent(s: Session): seq<byte> {
    if s.inflight == [] then [] else Asked(s, s.inflight[0])
  }

  ghost predicate Inv(s: Session) {
    && |s.inflight| <= 1
    && (s.inflight != [] && s.inflight[0].Send? ==> s.inflight[0].sent < s.inflight[0].total <= |s.buffer|)
    && (s.inflight != [] ==> s.output + Unsent(s) == s.input)
    && s.output <= s.input
  }

  lemma CompleteOk(s: Session, c: Completion)
    requires Inv(s)
    ensures Inv(Complete(s, c)) && |Complete(s, c).buffer| == |s.buffer|
  {
    if s.inflight != [] && Possible(s, s.inflight[0], c) {
      var s' := Complete(s, c);
      match c
      case Received(data) =>
        assert s.output == s.input;
        if |data| > 0 { assert Unsent(s') == data; }
      case Sent(count) =>
        var u := Unsent(s);
        assert s.output + u[..count] + u[count..] == s.input;
        if 0 < count && s.inflight[0].sent + count < s.inflight[0].total {
          assert Unsent(s') == u[count..];
        }
      case Failed =>
    }
  }

  /**
   For every sequence of completions, however the kernel splits receives and sends: the output
   is a prefix of the input, a live session has exactly one operation in flight, every send lies
   inside the buffer and asks for at least a byte, and whenever a receive is outstanding every
   byte received has been sent back.
   */
  lemma {:induction false} EchoesEverything(buffer: seq<byte>, cs: seq<Completion>)
    ensures var s := After(Begin(buffer), cs);
      && Inv(s) && |s.buffer| == |buffer|
      && s.output <= s.input && |s.inflight| <= 1
      && (s.inflight == [Receive] ==> s.output == s.input)
      && (s.inflight != [] && s.inflight[0].Send? ==> 0 < |Unsent(s)| <= |buffer| && s.output + Unsent(s) == s.input)
  {
    if cs != [] {
      EchoesEverything(buffer, cs[..|cs| - 1]);
      CompleteOk(After(Begin(buffer), cs[..|cs| - 1]), cs[|cs| - 1]);
    }
  }

  /** Within a write phase every successful send leaves strictly less to send. */
  lemma WritePhaseShrinks(s: Session, count: nat)
    requires Inv(s) && s.inflight != [] && s.inflight[0].Send?
    requires 0 < count <= |Unsent(s)|
    ensures var s' := Complete(s, Sent(count));
      && s'.input == s.input && s'.buffer == s.buffer && |Unsent(s')| == |Unsent(s)| - count
      && s'.inflight == if count < |Unsent(s)| then [Send(s.inflight[0].total, s.inflight[0].sent + count)] else [Receive]
  {
  }

  /** A live session ends exactly on an empty receive, an empty send or a failure. */
  lemma EndsExactly(s: Session, c: Completion)
    requires Inv(s) && s.inflight != [] && Possible(s, s.inflight[0], c)
    ensures Complete(s, c).inflight == [] <==> c == Received([]) || c == Sent(0) || c == Failed
  {
  }

  /** The bytes that arrived, and how many were taken, over a sequence of completions. */
  function Arrived(s: Session, cs: seq<Completion>): seq<byte> {
    if cs == [] then [] else
    var before, c := After(s, cs[..|cs| - 1]), cs[|cs| - 1];
    Arrived(s, cs[..|cs| - 1])
      + if c.Received? && before.inflight == [Receive] && |c.data| <= |before.buffer| then c.data else []
  }

  function Taken(s: Session, cs: seq<Completion>): nat {
    if cs == [] then 0 else
    var before, c := After(s, cs[..|cs| - 1]), cs[|cs| - 1];
    Taken(s, cs[..|cs| - 1]) + if c.Sent? && c.count <= |Unsent(before)| then c.count else 0
  }

  lemma CompleteAccounts(s: Session, c: Completion)
    requires Inv(s)
    ensures Complete(s, c).input == s.input + if c.Received? && s.inflight == [Receive] && |c.data| <= |s.buffer| then c.data else []
    ensures |Complete(s, c).output| == |s.output| + if c.Sent? && c.count <= |Unsent(s)| then c.count else 0
  {
  }

  /** The output is exactly the first bytes of what arrived, as many as the sends took. */
  lemma {:induction false} EchoesInOrder(buffer: seq<byte>, cs: seq<Completion>)
    ensures var s, arrived, taken := After(Begin(buffer), cs), Arrived(Begin(buffer), cs), Taken(Begin(buffer), cs);
      s.input == arrived && taken <= |arrived| && s.output == arrived[..taken]
  {
    EchoesEverything(buffer, cs);
    if cs != [] {
      var before := cs[..|cs| - 1];
      EchoesInOrder(buffer, before);
      EchoesEverything(buffer, before);
      CompleteAccounts(After(Begin(buffer), before), cs[|cs| - 1]);
    }
  }
}
