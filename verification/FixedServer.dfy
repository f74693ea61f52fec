/**
 The fixed-buffer echo server: the connections of one thread run their echo sessions on spans of
 one registered array, or on private buffers when no span is free.  A connection's span is
 released when no callback holds the connection any more, that is, when a completion leaves it
 without an operation in flight.

 `Sessions` is the server as it would be if every connection had a buffer of its own; every
 method is proved to act on it as that server would.
 */
module FixedServer {
  import opened Basics
  import opened EchoSession
  import opened FixedBuffers

  /** `fallback` is the private buffer of a connection without an index. */
  datatype Conn = Conn(index: Option<nat>, fallback: seq<byte>, inflight: seq<Request>, input: seq<byte>, output: seq<byte>)

  /** Free and held indices are disjoint, each held once, and together they are all of them. */
  ghost predicate Partition(count: nat, registered: bool, free: seq<nat>, conns: map<int, Conn>, holder: map<nat, int>) {
    && (forall i :: i in holder ==>
          i < count && holder[i] in conns && conns[holder[i]].index == Some(i) && i !in free)
    && (forall fd :: fd in conns && conns[fd].index.Some? ==>
          conns[fd].index.value in holder && holder[conns[fd].index.value] == fd)
    && (registered ==> forall i :: 0 <= i < count ==> i in free || i in holder)
    && (!registered ==> holder == map[])
  }

  lemma Opens(count: nat, registered: bool, free: seq<nat>, conns: map<int, Conn>, holder: map<nat, int>,
              fd: int, c: Conn, free': seq<nat>)
    requires Partition(count, registered, free, conns, holder) && fd !in conns
    requires if c.index.Some? then free == free' + [c.index.value] && c.index.value < count && c.index.value !in free' && registered
      else free' == free
    ensures Partition(count, registered, free', conns[fd := c], if c.index.Some? then holder[c.index.value := fd] else holder)
  {
    assert forall i :: i in free ==> i in free' || c.index == Some(i);
  }

  lemma Closes(count: nat, registered: bool, free: seq<nat>, conns: map<int, Conn>, holder: map<nat, int>, fd: int)
    requires Partition(count, registered, free, conns, holder) && fd in conns
    ensures var index := conns[fd].index;
      && (index.Some? ==> registered && index.value < count && index.value !in free)
      && Partition(count, registered, if index.Some? then free + [index.value] else free, conns - {fd},
                   if index.Some? then holder - {index.value} else holder)
  {
    var index := conns[fd].index;
    if index.Some? { assert holder[index.value] == fd; }
  }

  /** A connection that is still in use: exactly one operation is in flight. */
  ghost predicate Live(s: Session) {
    |s.buffer| == BUFFER_SIZE && |s.inflight| == 1 && Inv(s)
  }

  ghost predicate AllLive(sessions: map<int, Session>) {
    forall fd :: fd in sessions ==> Live(sessions[fd])
  }

  /** Every session that is over has echoed a prefix of its input. */
  ghost predicate AllEchoed(finished: seq<Session>) {
    forall k :: 0 <= k < |finished| ==> finished[k].output <= finished[k].input
  }

  lemma PutLive(sessions: map<int, Session>, fd: int, s: Session)
    ensures AllLive(sessions) ==> AllLive(sessions - {fd})
    ensures AllLive(sessions - {fd}) && Live(s) ==> AllLive(sessions[fd := s])
    ensures sessions[fd := s] - {fd} == sessions - {fd}
  {
    if AllLive(sessions - {fd}) && Live(s) {
      var m := sessions[fd := s];
      forall g | g in m
        ensures Live(m[g])
      {
        assert g != fd ==> g in sessions - {fd};
      }
    }
  }

  /** What the kernel can answer to the operation in flight. */
  predicate Allowed(c: Conn, a: Completion) {
    |c.inflight| == 1 &&
    match a
    case Received(data) => c.inflight[0].Receive? && |data| <= BUFFER_SIZE
    case Sent(count) => c.inflight[0].Send? && c.inflight[0].sent + count <= c.inflight[0].total
    case Failed => true
  }

  /** The part of the registered array that an operation on buffer `i` may touch. */
  function Low(i: nat, r: Request): nat {
    if r.Send? then Offset(i) + r.sent else Offset(i)
  }

  function High(i: nat, r: Request): nat {
    if r.Send? then Offset(i) + r.total else Offset(i) + BUFFER_SIZE
  }

  /** The bytes of a connection's buffer, given those of the registered array. */
  function BytesIn(memory: seq<byte>, c: Conn): seq<byte> {
    if c.index.Some? && Offset(c.index.value) + BUFFER_SIZE <= |memory|
    then memory[Offset(c.index.value)..Offset(c.index.value) + BUFFER_SIZE] else c.fallback
  }

  /** The registered array after `data` is written to the front of buffer `i`. */
  function Written(memory: seq<byte>, i: nat, data: seq<byte>): (r: seq<byte>)
    requires |data| <= BUFFER_SIZE && Offset(i) + BUFFER_SIZE <= |memory|
    ensures |r| == |memory|
  {
    memory[..Offset(i)] + data + memory[Offset(i) + |data|..]
  }

  lemma RangeInRange(memory: seq<byte>, base: nat, lo: nat, count: nat)
    requires base + BUFFER_SIZE <= |memory| && lo + count <= BUFFER_SIZE
    ensures memory[base..base + BUFFER_SIZE][lo..lo + count] == memory[base + lo..base + lo + count]
  {
    var span := memory[base..base + BUFFER_SIZE];
    var a, b := span[lo..lo + count], memory[base + lo..base + lo + count];
    assert forall k :: 0 <= k < count ==> a[k] == b[k];
  }

  lemma WriteOwn(memory: seq<byte>, c: Conn, data: seq<byte>)
    requires c.index.Some? && |data| <= BUFFER_SIZE && Offset(c.index.value) + BUFFER_SIZE <= |memory|
    ensures BytesIn(Written(memory, c.index.value, data), c) == data + BytesIn(memory, c)[|data|..]
  {
    var lo, m := Offset(c.index.value), Written(memory, c.index.value, data);
    assert m[lo..lo + BUFFER_SIZE] == data + memory[lo + |data|..lo + BUFFER_SIZE];
    assert memory[lo..lo + BUFFER_SIZE][|data|..] == memory[lo + |data|..lo + BUFFER_SIZE];
  }

  lemma WriteOther(memory: seq<byte>, i: nat, data: seq<byte>, c: Conn)
    requires |data| <= BUFFER_SIZE && Offset(i) + BUFFER_SIZE <= |memory| && (c.index.Some? ==> c.index.value != i)
    ensures BytesIn(Written(memory, i, data), c) == BytesIn(memory, c)
  {
    if c.index.Some? { SpansDisjoint(i, c.index.value); }
  }

  // ------------------------------------------------------------------ the server with a buffer for everyone

  function SessionIn(memory: seq<byte>, c: Conn): Session {
    Session(BytesIn(memory, c), c.inflight, c.input, c.output)
  }

  function SessionsIn(memory: seq<byte>, conns: map<int, Conn>): map<int, Session> {
    map fd | fd in conns :: SessionIn(memory, conns[fd])
  }

  lemma PutSession(memory: seq<byte>, conns: map<int, Conn>, fd: int, c: Conn)
    ensures SessionsIn(memory, conns[fd := c]) == SessionsIn(memory, conns)[fd := SessionIn(memory, c)]
    ensures SessionsIn(memory, conns - {fd}) == SessionsIn(memory, conns) - {fd}
  {
  }

  /** A write to one connection's buffer is seen by that connection only. */
  lemma WriteSessions(memory: seq<byte>, conns: map<int, Conn>, fd: int, data: seq<byte>)
    requires fd in conns && conns[fd].index.Some? && |data| <= BUFFER_SIZE
    requires Offset(conns[fd].index.value) + BUFFER_SIZE <= |memory|
    requires forall g :: g in conns && g != fd ==> conns[g].index != conns[fd].index
    ensures var s := SessionIn(memory, conns[fd]);
      SessionsIn(Written(memory, conns[fd].index.value, data), conns)
        == SessionsIn(memory, conns)[fd := s.(buffer := data + s.buffer[|data|..])]
  {
    WriteOwn(memory, conns[fd], data);
    forall g | g in conns && g != fd
      ensures BytesIn(Written(memory, conns[fd].index.value, data), conns[g]) == BytesIn(memory, conns[g])
    {
      WriteOther(memory, conns[fd].index.value, data, conns[g]);
    }
  }

  lemma BeginIsLive(buffer: seq<byte>)
    requires |buffer| == BUFFER_SIZE
    ensures Live(Begin(buffer)) && Begin(buffer) == Session(buffer, [Receive], [], [])
  {
  }

  /** A possible completion leaves a live session, or one without an operation. */
  lemma CompleteLive(s: Session, c: Conn, a: Completion)
    requires Live(s) && s.inflight == c.inflight && Allowed(c, a)
    ensures Possible(s, s.inflight[0], a)
    ensures var s' := Complete(s, a); s'.output <= s'.input && (s'.inflight != [] ==> Live(s'))
  {
    CompleteOk(s, a);
  }

  /** What happens to the server, in any order. */
  datatype Event = Accepted(fd: int) | Landed(fd: int, data: seq<byte>) | Completed(fd: int, a: Completion)

  /** The server with a buffer for everyone: its live sessions, and those that are over. */
  datatype Ideal = Ideal(live: map<int, Session>, over: seq<Session>)

  /** Bytes of a receive that is still outstanding land in the buffer. */
  function Landing(s: Session, data: seq<byte>): Session {
    if s.inflight == [Receive] && |data| <= |s.buffer| then s.(buffer := data + s.buffer[|data|..]) else s
  }

  /** A completion; a session without an operation in flight is over. */
  function Completing(i: Ideal, fd: int, a: Completion): Ideal
    requires fd in i.live
  {
    var s' := Complete(i.live[fd], a);
    if s'.inflight == [] then Ideal(i.live - {fd}, i.over + [s']) else i.(live := i.live[fd := s'])
  }

  /** One event; `buffer` is what is in the buffer of a connection that it accepts. */
  function Next(i: Ideal, e: Event, buffer: seq<byte>): Ideal {
    match e
    case Accepted(fd) => if fd in i.live then i else i.(live := i.live[fd := Begin(buffer)])
    case Landed(fd, data) => if fd in i.live then i.(live := i.live[fd := Landing(i.live[fd], data)]) else i
    case Completed(fd, a) => if fd in i.live then Completing(i, fd, a) else i
  }

  function Replay(events: seq<Event>, buffers: seq<seq<byte>>): Ideal
    requires |buffers| == |events|
  {
    if events == [] then Ideal(map[], []) else
    var n := |events| - 1;
    Next(Replay(events[..n], buffers[..n]), events[n], buffers[n])
  }

  /** Every connection that the events accept finds a whole buffer, and `i` is where they lead. */
  ghost predicate Follows(events: seq<Event>, buffers: seq<seq<byte>>, i: Ideal) {
    && |buffers| == |events| && i == Replay(events, buffers)
    && forall k :: 0 <= k < |events| && events[k].Accepted? ==> |buffers[k]| == BUFFER_SIZE
  }

  lemma OneMore(events: seq<Event>, n: nat, buffers: seq<seq<byte>>, i: Ideal, buffer: seq<byte>)
    requires n < |events| && Follows(events[..n], buffers, i) && (events[n].Accepted? ==> |buffer| == BUFFER_SIZE)
    ensures Follows(events[..n + 1], buffers + [buffer], Next(i, events[n], buffer))
  {
    var past, bs := events[..n + 1], buffers + [buffer];
    assert past[..n] == events[..n] && bs[..n] == buffers;
    forall k | 0 <= k < |past| && past[k].Accepted? ensures |bs[k]| == BUFFER_SIZE {
      if k < n { assert events[..n][k] == past[k]; }
    }
  }

  /** An event that the kernel cannot produce changes nothing. */
  lemma ImpossibleIsNothing(i: Ideal, fd: int, a: Completion, c: Conn)
    requires fd in i.live && Live(i.live[fd]) && i.live[fd].inflight == c.inflight && !Allowed(c, a)
    ensures Completing(i, fd, a) == i
  {
    assert Complete(i.live[fd], a) == i.live[fd];
    assert i.live[fd := i.live[fd]] == i.live;
  }

  class Server {
    const pool: FixedBufferPool
    var conns: map<int, Conn>
    ghost var holder: map<nat, int>       // which connection holds an index
    ghost var finished: seq<Session>      // the sessions that are over

    /** The bytes of a connection's buffer, wherever they are. */
    ghost function Bytes(c: Conn): seq<byte>
      reads pool`memory, pool.memory
    {
      BytesIn(pool.memory[..], c)
    }

    ghost function Sessions(): map<int, Session>
      reads `conns, pool`memory, pool.memory
    {
      SessionsIn(pool.memory[..], conns)
    }

    ghost predicate Partitioned()
      reads this, pool
    {
      Partition(pool.count, pool.registered, pool.free, conns, holder)
    }

    ghost predicate Valid()
      reads this, pool, pool.memory
    {
      && pool.Valid() && Partitioned()
      && AllLive(Sessions()) && AllEchoed(finished)
    }

    constructor (p: FixedBufferPool)
      requires p.Valid() && (p.registered ==> forall i :: 0 <= i < p.count ==> i in p.free)
      ensures Valid() && pool == p && conns == map[] && finished == []
    {
      pool := p;
      conns, holder, finished := map[], map[], [];
    }

    lemma InMemory(fd: int)
      requires pool.Valid() && Partitioned() && fd in conns && conns[fd].index.Some?
      ensures var i := conns[fd].index.value;
        && i < pool.count && i !in pool.free
        && Offset(i) + BUFFER_SIZE <= pool.memory.Length
    {
      WithinMemory(conns[fd].index.value, pool.count);
    }

    /** Two live connections never share a byte of registered memory. */
    lemma LiveSpansDisjoint(f: int, g: int)
      requires Partitioned() && f in conns && g in conns && f != g
      requires conns[f].index.Some? && conns[g].index.Some?
      ensures var i, j := Offset(conns[f].index.value), Offset(conns[g].index.value);
        i + BUFFER_SIZE <= j || j + BUFFER_SIZE <= i
    {
      SpansDisjoint(conns[f].index.value, conns[g].index.value);
    }

    /**
     The operation that a live connection has in flight on registered memory touches at least one
     byte and only bytes of the buffer of its index, which is not free; and no operation of another
     connection touches any of them.
     */
    lemma OperationsApart(f: int, g: int)
      requires Valid() && f in conns && conns[f].index.Some?
      ensures var i, r := conns[f].index.value, Sessions()[f].inflight[0];
        && i !in pool.free
        && Offset(i) <= Low(i, r) < High(i, r) <= Offset(i) + BUFFER_SIZE <= pool.memory.Length
        && (g in conns && g != f && conns[g].index.Some? ==>
              var j, q := conns[g].index.value, Sessions()[g].inflight[0];
              High(i, r) <= Low(j, q) || High(j, q) <= Low(i, r))
    {
      InMemory(f);
      assert Live(Sessions()[f]);
      if g in conns && g != f && conns[g].index.Some? {
        LiveSpansDisjoint(f, g);
        assert Live(Sessions()[g]);
      }
    }

    /** A connection is accepted: it takes a registered buffer if there is one, and starts to receive. */
    method Accept(fd: int)
      requires Valid() && fd !in conns
      modifies this, pool`free
      ensures Valid() && fd in conns && finished == old(finished)
      ensures Sessions() == old(Sessions())[fd := Begin(Bytes(conns[fd]))]
      ensures conns[fd].index.None? <==> old(pool.free) == []
      ensures conns == old(conns)[fd := conns[fd]]
    {
      var index := pool.Acquire();
      var private := if index.Some? then [] else seq(BUFFER_SIZE, _ => 0 as byte);
      var c := Conn(index, private, [Receive], [], []);
      Opens(pool.count, pool.registered, old(pool.free), conns, holder, fd, c, pool.free);
      if index.Some? {
        holder := holder[index.value := fd];
        WithinMemory(index.value, pool.count);
      }
      BeginIsLive(Bytes(c));
      PutLive(Sessions(), fd, Begin(Bytes(c)));
      PutSession(pool.memory[..], conns, fd, c);
      conns := conns[fd := c];
    }

    /**
     The completion `a` leaves a connection without an operation in flight, so its last callback is
     gone: its registered buffer becomes available again.
     */
    method Close(fd: int, ghost a: Completion)
      requires Valid() && fd in conns && Allowed(conns[fd], a) && Complete(Sessions()[fd], a).inflight == []
      modifies this, pool`free
      ensures Valid() && conns == old(conns) - {fd} && finished == old(finished) + [Complete(old(Sessions())[fd], a)]
      ensures Sessions() == old(Sessions()) - {fd}
      ensures pool.free == old(pool.free) + if old(conns)[fd].index.Some? then [old(conns)[fd].index.value] else []
    {
      ghost var last := Complete(Sessions()[fd], a);
      CompleteLive(Sessions()[fd], conns[fd], a);
      var index := conns[fd].index;
      Closes(pool.count, pool.registered, pool.free, conns, holder, fd);
      PutSession(pool.memory[..], conns, fd, conns[fd]);
      PutLive(Sessions(), fd, last);
      conns := conns - {fd};
      if index.Some? {
        holder := holder - {index.value};
        pool.Release(index.value);
      }
      finished := finished + [last];
    }

    /** Writes to the front of buffer `i` of the registered array. */
    method Fill(i: nat, data: seq<byte>)
      requires |data| <= BUFFER_SIZE && Offset(i) + BUFFER_SIZE <= pool.memory.Length
      modifies pool.memory
      ensures pool.memory[..] == Written(old(pool.memory[..]), i, data)
    {
      forall k | 0 <= k < |data| {
        pool.memory[Offset(i) + k] := data[k];
      }
    }

    /** The kernel writes into the buffer of a receive: into the connection's own span and nothing else. */
    method Write(fd: int, data: seq<byte>)
      requires Valid() && fd in conns && conns[fd].index.Some? && |data| <= BUFFER_SIZE
      modifies pool.memory
      ensures pool.Valid() && Partitioned() && AllLive(Sessions() - {fd})
      ensures var s := old(Sessions())[fd];
        Sessions() == old(Sessions())[fd := s.(buffer := data + s.buffer[|data|..])]
    {
      InMemory(fd);
      WriteSessions(pool.memory[..], conns, fd, data);
      PutLive(Sessions(), fd, Sessions()[fd].(buffer := data + Sessions()[fd].buffer[|data|..]));
      Fill(conns[fd].index.value, data);
    }

    /** Puts a connection's new record in its place. */
    method Update(fd: int, c: Conn)
      requires pool.Valid() && Partitioned() && fd in conns && c.index == conns[fd].index
      requires AllLive(Sessions() - {fd}) && Live(SessionIn(pool.memory[..], c)) && AllEchoed(finished)
      modifies `conns
      ensures Valid() && conns == old(conns)[fd := c]
      ensures Sessions() == old(Sessions())[fd := SessionIn(pool.memory[..], c)]
    {
      PutSession(pool.memory[..], conns, fd, c);
      PutLive(Sessions(), fd, SessionIn(pool.memory[..], c));
      conns := conns[fd := c];
    }

    /** Bytes of a receive land in the buffer before the receive completes. */
    method Land(fd: int, data: seq<byte>)
      requires Valid() && fd in conns && |data| <= BUFFER_SIZE && conns[fd].inflight == [Receive]
      modifies `conns, pool.memory
      ensures Valid() && conns.Keys == old(conns.Keys)
      ensures Sessions() == old(Sessions())[fd := Landing(old(Sessions())[fd], data)]
    {
      ghost var s := Sessions()[fd];
      ReceivingIgnoresBuffer(s, data);
      PutLive(Sessions(), fd, Landing(s, data));
      var c := conns[fd];
      if c.index.Some? {
        Write(fd, data);
      } else {
        Update(fd, c.(fallback := data + c.fallback[|data|..]));
      }
    }

    /** A receive completes with at least one byte: the session turns to sending. */
    method Receives(fd: int, data: seq<byte>)
      requires Valid() && fd in conns && Allowed(conns[fd], Received(data)) && data != []
      modifies `conns, pool.memory
      ensures Valid() && conns.Keys == old(conns.Keys)
      ensures Sessions() == old(Sessions())[fd := Complete(old(Sessions())[fd], Received(data))]
    {
      var c := conns[fd];
      if c.index.Some? {
        ReceivesFixed(fd, data);
      } else {
        ReceivesPrivate(fd, data);
      }
    }

    method ReceivesFixed(fd: int, data: seq<byte>)
      requires Valid() && fd in conns && Allowed(conns[fd], Received(data)) && data != [] && conns[fd].index.Some?
      modifies `conns, pool.memory
      ensures Valid() && conns.Keys == old(conns.Keys)
      ensures Sessions() == old(Sessions())[fd := Complete(old(Sessions())[fd], Received(data))]
    {
      ghost var s := Sessions()[fd];
      CompleteLive(s, conns[fd], Received(data));
      ReceivedSession(s, data);
      Write(fd, data);
      var c := conns[fd].(inflight := [Send(|data|, 0)], input := conns[fd].input + data);
      assert SessionIn(pool.memory[..], c) == Complete(s, Received(data)) by {
        assert Sessions()[fd].buffer == data + s.buffer[|data|..];
      }
      Update(fd, c);
    }

    method ReceivesPrivate(fd: int, data: seq<byte>)
      requires Valid() && fd in conns && Allowed(conns[fd], Received(data)) && data != [] && conns[fd].index.None?
      modifies `conns
      ensures Valid() && conns.Keys == old(conns.Keys)
      ensures Sessions() == old(Sessions())[fd := Complete(old(Sessions())[fd], Received(data))]
    {
      ghost var s := Sessions()[fd];
      CompleteLive(s, conns[fd], Received(data));
      ReceivedSession(s, data);
      PutLive(Sessions(), fd, s);
      var c := conns[fd];
      Update(fd, c.(fallback := data + c.fallback[|data|..], inflight := [Send(|data|, 0)], input := c.input + data));
    }

    /** The bytes that a send of the buffer from `lo` on has taken. */
    method Peek(fd: int, lo: nat, count: nat) returns (bytes: seq<byte>)
      requires pool.Valid() && Partitioned() && fd in conns && Live(Sessions()[fd]) && lo + count <= BUFFER_SIZE
      ensures bytes == Sessions()[fd].buffer[lo..lo + count]
    {
      var c := conns[fd];
      if c.index.Some? {
        InMemory(fd);
        var base := Offset(c.index.value);
        bytes := pool.memory[base + lo..base + lo + count];
        assert bytes == pool.memory[..][base + lo..base + lo + count];
        RangeInRange(pool.memory[..], base, lo, count);
      } else {
        bytes := c.fallback[lo..lo + count];
      }
    }

    /** A send completes with at least one byte: the session sends the rest, or receives again. */
    method Sends(fd: int, count: nat)
      requires Valid() && fd in conns && Allowed(conns[fd], Sent(count)) && count > 0
      modifies `conns
      ensures Valid() && conns.Keys == old(conns.Keys)
      ensures Sessions() == old(Sessions())[fd := Complete(old(Sessions())[fd], Sent(count))]
    {
      var c := conns[fd];
      assert Live(Sessions()[fd]);
      var bytes := Peek(fd, c.inflight[0].sent, count);
      SentConn(pool.memory[..], c, count, bytes);
      PutLive(Sessions(), fd, Sessions()[fd]);
      Update(fd, AfterSend(c, count, bytes));
    }

    /**
     A completion: the callback goes on with the session, and the connection is closed and its
     buffer released exactly when that leaves no operation in flight.  Every connection's session
     moves, or stays, as if it had a buffer of its own.
     */
    method Completes(fd: int, a: Completion)
      requires Valid() && fd in conns && Allowed(conns[fd], a)
      modifies this, pool`free, pool.memory
      ensures Valid()
      ensures var s' := Complete(old(Sessions())[fd], a);
        if s'.inflight == [] then Sessions() == old(Sessions()) - {fd} && finished == old(finished) + [s']
        else Sessions() == old(Sessions())[fd := s'] && finished == old(finished)
      ensures Total() == old(Total())
      ensures var closed, index := Complete(old(Sessions())[fd], a).inflight == [], old(conns)[fd].index;
        pool.free == old(pool.free) + if closed && index.Some? then [index.value] else []
    {
      ghost var s := Sessions()[fd];
      CompleteLive(s, conns[fd], a);
      if a.Received? && a.data != [] {
        ReceivedSession(s, a.data);
        Receives(fd, a.data);
      } else if a.Sent? && a.count > 0 {
        SentSession(s, a.count);
        Sends(fd, a.count);
      } else {
        EndedSession(s, a);
        Close(fd, a);
      }
    }

    /** Connections accepted so far: those that live and those that are over. */
    ghost function Total(): nat
      reads this
    {
      |conns| + |finished|
    }

    /** The server as it would be with a buffer for everyone. */
    ghost function Abstract(): Ideal
      reads this, pool`memory, pool.memory
    {
      Ideal(Sessions(), finished)
    }

    lemma EchoedSoFar()
      requires Valid()
      ensures forall fd :: fd in Sessions() ==> Sessions()[fd].output <= Sessions()[fd].input
      ensures forall k :: 0 <= k < |finished| ==> finished[k].output <= finished[k].input
    {
    }

    /** A connection is accepted, unless its descriptor is still in use. */
    method HandleAccept(fd: int) returns (accepted: bool, ghost buffer: seq<byte>)
      requires Valid()
      modifies this, pool`free
      ensures Valid() && Total() == old(Total()) + if accepted then 1 else 0
      ensures (accepted <==> fd !in old(conns)) && |buffer| == BUFFER_SIZE
      ensures Abstract() == Next(old(Abstract()), Accepted(fd), buffer)
    {
      accepted, buffer := fd !in conns, seq(BUFFER_SIZE, _ => 0);
      if accepted {
        Accept(fd);
        buffer := Bytes(conns[fd]);
        assert Live(Sessions()[fd]);
      }
    }

    method HandleLanded(fd: int, data: seq<byte>)
      requires Valid()
      modifies `conns, pool.memory
      ensures Valid() && Total() == old(Total())
      ensures Abstract() == Next(old(Abstract()), Landed(fd, data), [])
    {
      if fd in conns {
        ghost var i := Abstract();
        assert Live(i.live[fd]);
        if |data| <= BUFFER_SIZE && conns[fd].inflight == [Receive] {
          Land(fd, data);
        } else {
          assert i.live[fd := i.live[fd]] == i.live;
        }
      }
    }

    method HandleCompleted(fd: int, a: Completion)
      requires Valid()
      modifies this, pool`free, pool.memory
      ensures Valid() && Total() == old(Total())
      ensures Abstract() == Next(old(Abstract()), Completed(fd, a), [])
    {
      if fd in conns {
        assert Live(Sessions()[fd]);
        if Allowed(conns[fd], a) {
          Completes(fd, a);
        } else {
          ImpossibleIsNothing(Abstract(), fd, a, conns[fd]);
        }
      }
    }

    /**
     One event, if the kernel can produce it now.  The server moves exactly as the one with a buffer
     for everyone; `buffer` is what a new connection finds in its own.
     */
    method Handle(e: Event) returns (accepted: bool, ghost buffer: seq<byte>)
      requires Valid()
      modifies this, pool`free, pool.memory
      ensures Valid() && Total() == old(Total()) + if accepted then 1 else 0
      ensures (accepted <==> e.Accepted? && e.fd !in old(conns)) && (e.Accepted? ==> |buffer| == BUFFER_SIZE)
      ensures Abstract() == Next(old(Abstract()), e, buffer)
    {
      accepted, buffer := false, [];
      match e
      case Accepted(fd) => accepted, buffer := HandleAccept(fd);
      case Landed(fd, data) => HandleLanded(fd, data);
      case Completed(fd, a) => HandleCompleted(fd, a);
    }

    /** The next event of a sequence. */
    method HandleNext(events: seq<Event>, n: nat, accepted: nat, ghost buffers: seq<seq<byte>>)
      returns (accepted': nat, ghost buffers': seq<seq<byte>>)
      requires Valid() && n < |events| && Total() == accepted <= n && Follows(events[..n], buffers, Abstract())
      modifies this, pool`free, pool.memory
      ensures Valid() && Total() == accepted' <= n + 1 && Follows(events[..n + 1], buffers', Abstract())
    {
      ghost var i, buffer := Abstract(), [];
      var one;
      one, buffer := Handle(events[n]);
      OneMore(events, n, buffers, i, buffer);
      buffers' := buffers + [buffer];
      accepted' := if one then accepted + 1 else accepted;
    }
  }

  lemma ReceivingIgnoresBuffer(s: Session, data: seq<byte>)
    requires Live(s) && s.inflight == [Receive] && |data| <= BUFFER_SIZE
    ensures Live(Landing(s, data)) && Landing(s, data) == s.(buffer := data + s.buffer[|data|..])
  {
  }

  lemma ReceivedSession(s: Session, data: seq<byte>)
    requires Live(s) && s.inflight[0].Receive? && 0 < |data| <= BUFFER_SIZE
    ensures Complete(s, Received(data))
      == Session(data + s.buffer[|data|..], [Send(|data|, 0)], s.input + data, s.output)
  {
  }

  lemma SentSession(s: Session, count: nat)
    requires Live(s) && s.inflight[0].Send? && 0 < count && s.inflight[0].sent + count <= s.inflight[0].total
    ensures var r := s.inflight[0];
      Complete(s, Sent(count)) == Session(s.buffer,
        [if r.sent + count < r.total then Send(r.total, r.sent + count) else Receive],
        s.input, s.output + s.buffer[r.sent..r.sent + count])
  {
    var r := s.inflight[0];
    assert s.buffer[r.sent..r.total][..count] == s.buffer[r.sent..r.sent + count];
  }

  /** A connection after a send of `count` bytes, which were `bytes`. */
  function AfterSend(c: Conn, count: nat, bytes: seq<byte>): Conn
    requires |c.inflight| == 1 && c.inflight[0].Send?
  {
    var r := c.inflight[0];
    c.(inflight := [if r.sent + count < r.total then Send(r.total, r.sent + count) else Receive], output := c.output + bytes)
  }

  lemma SentConn(memory: seq<byte>, c: Conn, count: nat, bytes: seq<byte>)
    requires Live(SessionIn(memory, c)) && Allowed(c, Sent(count)) && count > 0
    requires bytes == BytesIn(memory, c)[c.inflight[0].sent..c.inflight[0].sent + count]
    ensures var s := SessionIn(memory, c);
      Live(Complete(s, Sent(count))) && SessionIn(memory, AfterSend(c, count, bytes)) == Complete(s, Sent(count))
  {
    CompleteLive(SessionIn(memory, c), c, Sent(count));
    SentSession(SessionIn(memory, c), count);
  }

  lemma EndedSession(s: Session, a: Completion)
    requires Live(s) && Possible(s, s.inflight[0], a)
    requires !(a.Received? && a.data != []) && !(a.Sent? && a.count > 0)
    ensures Complete(s, a).inflight == []
  {
  }

  /**
   A server under any sequence of events that the kernel can produce.  In the end, as at any
   moment, its sessions are exactly those of the server with a buffer for everyone, its connections
   are partitioned, every session has echoed a prefix of its own input, and every connection
   accepted is live or finished.
   */
  method Serve(count: nat, ok: bool, events: seq<Event>)
    returns (server: Server, accepted: nat, ghost buffers: seq<seq<byte>>)
    ensures server.Valid() && server.Total() == accepted <= |events|
    ensures Follows(events, buffers, server.Abstract())
    ensures forall fd :: fd in server.Sessions() ==> server.Sessions()[fd].output <= server.Sessions()[fd].input
    ensures forall k :: 0 <= k < |server.finished| ==> server.finished[k].output <= server.finished[k].input
  {
    var pool := new FixedBufferPool(count, ok);
    server := new Server(pool);
    accepted, buffers := 0, [];
    for n := 0 to |events|
      invariant server.Valid() && fresh(server) && fresh(server.pool) && fresh(server.pool.memory)
      invariant server.Total() == accepted <= n && Follows(events[..n], buffers, server.Abstract())
    {
      accepted, buffers := server.HandleNext(events, n, accepted, buffers);
    }
    assert events[..|events|] == events;
    server.EchoedSoFar();
  }
}
