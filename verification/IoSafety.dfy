/**
 What every run of the I/O machine keeps: a cancel is neither lost nor misdirected, callbacks
 are freed exactly when their completion has been handled, completions are handled once and
 in order, every receiver is completed at most once, and `stop` always reaches the event loop.
 */
module IoSafety {
  import opened Basics
  import opened Io

  // ------------------------------------------------------------------ the handshake of start and stop callback

  predicate BeforeSubmit(pc: StartPc) {
    pc.Unstarted? || pc.AtRequested? || pc.AtPossible? || pc.Inline? || pc.AtSubmit? || pc.EarlyStopped?
  }

  /** The stop callback has not been registered, and never will be if the operation stopped early. */
  predicate BeforeRegister(pc: StartPc) {
    pc.Unstarted? || pc.AtRequested? || pc.AtPossible? || pc.EarlyStopped?
  }

  /** The pointer that `start` still carries in a local. */
  function Carried(pc: StartPc): Ptr {
    match pc
    case AtStore(p) => p
    case AtCheck(p) => p
    case AtCancel(p) => p
    case _ => NULL
  }

  ghost predicate Handshake(op: Op) {
    && (BeforeSubmit(op.pc) <==> op.submitted == NULL)
    && (op.pc.AtStore? || op.pc.AtCheck? || op.pc.AtCancel? ==> Carried(op.pc) == op.submitted)
    && op.cbPtr == (if BeforeSubmit(op.pc) || op.pc.AtStore? then NULL else op.submitted)
    && (op.stopCalled <==> op.stop.StopLoad? || op.stop.StopCancel? || op.stop.StopDone?)
    && (op.stop.StopCancel? ==> op.stop.ptr == op.cbPtr != NULL)
    && (op.requested ==> op.possible)
    && (op.stop.Unregistered? <==> BeforeRegister(op.pc) || !op.possible)
    && (!BeforeRegister(op.pc) && op.possible ==> (op.stop.Armed? <==> !op.requested))
    && (op.stopCancels == [] || (op.stopCancels == [op.submitted] && op.stop.StopDone? && op.submitted != NULL))
    && (op.startCancels == [] || (op.startCancels == [op.submitted] && op.pc.Started? && op.submitted != NULL))
    // no cancel without a stop request
    && (!op.stopCalled && op.pc.Started? ==> op.startCancels == [])
    && (op.pc.AtCancel? ==> op.stopCalled)
    // whoever comes second sees the other: a stop callback that found no pointer leaves the cancel to start
    && (op.stop.StopDone? && op.stopCancels == [] && op.pc.Started? ==> op.startCancels != [])
    && (op.pc.EarlyStopped? ==> op.done == [Stopped])
    && (BeforeSubmit(op.pc) && !op.pc.EarlyStopped? ==> op.done == [])
  }

  lemma HandshakeStart(op: Op, ptr: Ptr)
    requires Handshake(op) && ptr != NULL
    ensures Handshake(StartOp(op, ptr))
  {
  }

  lemma HandshakeStop(op: Op)
    requires Handshake(op)
    ensures Handshake(StopOp(op)) && Handshake(RequestOp(op))
  {
  }

  // ------------------------------------------------------------------ callbacks and completions

  /** How many completions from entry `from` on carry callback `x`. */
  function Posted(cq: seq<Cqe>, from: nat, x: Ptr): nat
    decreases |cq| - from
  {
    if from >= |cq| then 0 else (if cq[from].data == x then 1 else 0) + Posted(cq, from + 1, x)
  }

  lemma {:induction false} PostedAppend(cq: seq<Cqe>, c: Cqe, from: nat, x: Ptr)
    requires from <= |cq|
    ensures Posted(cq + [c], from, x) == Posted(cq, from, x) + (if c.data == x then 1 else 0)
    decreases |cq| - from
  {
    if from < |cq| { PostedAppend(cq, c, from + 1, x); }
  }

  /** The first completion that the event loop has not finished with. */
  function Head(s: Io): nat {
    match s.run
    case Batch(h, _) => h
    case AtInvoke(h, _) => h
    case AtDelete(h, _) => h
    case AtAdvance(h, _) => h
    case _ => s.consumed
  }

  /** Completions handled in this batch and not yet reported to the ring. */
  function Count(s: Io): nat {
    match s.run
    case Batch(_, c) => c
    case AtInvoke(_, c) => c
    case AtDelete(_, c) => c
    case AtAdvance(_, c) => c
    case _ => 0
  }

  ghost predicate LoopOk(s: Io) {
    && s.consumed + Count(s) == Head(s) <= |s.cq|
    && (s.run.AtInvoke? || s.run.AtDelete? ==> Head(s) < |s.cq| && s.cq[Head(s)].data != NULL)
    // a cleared flag that the loop has not seen is on its way as a nop
    && (s.run.Waiting? && !s.running ==> s.stoppers > 0 || Nop in s.inflight || s.consumed < |s.cq|)
  }

  /** Allocated pointers are exactly those below `next`, each belonging to the operation that submitted it. */
  ghost predicate OwnersOk(s: Io) {
    && s.next != NULL
    && (forall x :: x in s.owner <==> NULL < x < s.next)
    && (forall x :: x in s.owner ==> s.owner[x] < |s.ops| && s.ops[s.owner[x]].submitted == x)
    && (forall o :: 0 <= o < |s.ops| ==> Handshake(s.ops[o]))
    && (forall o :: 0 <= o < |s.ops| && s.ops[o].submitted != NULL ==>
          s.ops[o].submitted in s.owner && s.owner[s.ops[o].submitted] == o)
  }

  predicate InvokedNow(s: Io, x: Ptr) {
    s.run.AtDelete? && Head(s) < |s.cq| && s.cq[Head(s)].data == x
  }

  /** A callback is live exactly while its completion is outstanding: in flight, or posted and not yet handled. */
  ghost predicate Outstanding(inflight: multiset<Sqe>, cq: seq<Cqe>, head: nat, heap: set<Ptr>) {
    forall x :: x != NULL ==> inflight[Request(x)] + Posted(cq, head, x) == (if x in heap then 1 else 0)
  }

  /** The kernel completes each submission once: over the whole run, a callback flies or has one completion. */
  ghost predicate OncePosted(inflight: multiset<Sqe>, cq: seq<Cqe>, owner: map<Ptr, nat>) {
    forall x :: x != NULL ==> inflight[Request(x)] + Posted(cq, 0, x) == (if x in owner then 1 else 0)
  }

  /** A receiver is untouched while its callback is live, and completed once afterwards. */
  ghost predicate ReceiversOk(s: Io) {
    forall x :: x in s.owner && s.owner[x] < |s.ops| ==>
      |s.ops[s.owner[x]].done| == (if x in s.heap && !InvokedNow(s, x) then 0 else 1)
  }

  /** Entries whose callback has been called. */
  function Called(s: Io): nat {
    if s.run.AtDelete? then Head(s) + 1 else Head(s)
  }

  /**
   A result of 0 or more is a value, -125 (the kernel's answer to a cancelled operation) is
   stopped, and any other negative result is an error with the positive code.
   */
  predicate OnChannel(c: Channel, res: int) {
    && (c.Value? <==> res >= 0) && (c.Value? ==> c.res == res)
    && (c.Stopped? <==> res == -125)
    && (c.Error? <==> res < 0 && res != -125) && (c.Error? ==> c.code == -res > 0)
  }

  /** A receiver was completed once, on the channel of the given result. */
  predicate Delivered(done: seq<Channel>, res: int) {
    |done| == 1 && OnChannel(done[0], res)
  }

  lemma RouteDelivers(res: int)
    ensures OnChannel(Route(res), res)
  {
  }

  /** A handled completion has completed its receiver, on the channel that its result selects. */
  ghost predicate ChannelsOk(s: Io) {
    forall j :: 0 <= j < Called(s) && j < |s.cq| && s.cq[j].data != NULL ==>
      && s.cq[j].data in s.owner && s.owner[s.cq[j].data] < |s.ops|
      && Delivered(s.ops[s.owner[s.cq[j].data]].done, s.cq[j].res)
  }

  /** Completions among the first `k` that carry a callback. */
  function WithCallback(cq: seq<Cqe>, k: nat): nat {
    if k == 0 || k > |cq| then 0 else WithCallback(cq, k - 1) + (if cq[k - 1].data != NULL then 1 else 0)
  }

  lemma {:induction false} WithCallbackAppend(cq: seq<Cqe>, c: Cqe, k: nat)
    requires k <= |cq|
    ensures WithCallback(cq + [c], k) == WithCallback(cq, k)
  {
    if k > 0 { WithCallbackAppend(cq, c, k - 1); }
  }

  ghost predicate HeapOk(s: Io) {
    && |s.heap| + WithCallback(s.cq, Head(s)) == s.next - 1
    && (forall x :: x in s.heap ==> NULL < x < s.next)
  }

  /** The ring, the heap and the event loop. */
  ghost predicate RingOk(s: Io) {
    && LoopOk(s) && HeapOk(s)
    && (forall x :: x in s.owner <==> NULL < x < s.next)
    && Outstanding(s.inflight, s.cq, Head(s), s.heap) && OncePosted(s.inflight, s.cq, s.owner)
  }

  /** The operations and their receivers. */
  ghost predicate OpsOk(s: Io) {
    OwnersOk(s) && ReceiversOk(s) && ChannelsOk(s)
  }

  ghost predicate Inv(s: Io) {
    RingOk(s) && OpsOk(s)
  }

  // ------------------------------------------------------------------ steps of operations

  /** An operation changes nothing that the ring or the other operations depend on. */
  lemma OpMoves(s: Io, o: nat, op: Op)
    requires Inv(s) && o < |s.ops|
    requires Handshake(op) && op.submitted == s.ops[o].submitted
    requires op.submitted != NULL ==> op.done == s.ops[o].done
    ensures Inv(SetOp(s, o, op))
  {
    OpMovesOps(s, o, op);
  }

  lemma OpMovesOwners(s: Io, o: nat, op: Op)
    requires OwnersOk(s) && o < |s.ops| && Handshake(op) && op.submitted == s.ops[o].submitted
    ensures OwnersOk(SetOp(s, o, op))
  {
  }

  lemma OpMovesReceivers(s: Io, o: nat, op: Op)
    requires OwnersOk(s) && ReceiversOk(s) && ChannelsOk(s) && o < |s.ops| && op.submitted == s.ops[o].submitted
    requires op.submitted != NULL ==> op.done == s.ops[o].done
    ensures ReceiversOk(SetOp(s, o, op)) && ChannelsOk(SetOp(s, o, op))
  {
  }

  lemma OpMovesOps(s: Io, o: nat, op: Op)
    requires OpsOk(s) && o < |s.ops|
    requires Handshake(op) && op.submitted == s.ops[o].submitted
    requires op.submitted != NULL ==> op.done == s.ops[o].done
    ensures OpsOk(SetOp(s, o, op))
  {
    OpMovesOwners(s, o, op);
    OpMovesReceivers(s, o, op);
  }

  lemma FliesRing(s: Io, e: Sqe)
    requires RingOk(s) && !e.Request?
    ensures RingOk(s.(inflight := s.inflight + multiset{e}))
  {
    var f := s.inflight + multiset{e};
    assert forall x :: f[Request(x)] == s.inflight[Request(x)];
  }

  /** A submission without a callback concerns no receiver. */
  lemma CancelFlies(s: Io, e: Sqe)
    requires Inv(s) && !e.Request?
    ensures Inv(s.(inflight := s.inflight + multiset{e}))
  {
    FliesRing(s, e);
  }

  lemma SubmitOutstanding(inflight: multiset<Sqe>, cq: seq<Cqe>, head: nat, heap: set<Ptr>, owner: map<Ptr, nat>, y: Ptr, o: nat)
    requires Outstanding(inflight, cq, head, heap) && OncePosted(inflight, cq, owner) && y !in heap && y !in owner && y != NULL
    ensures Outstanding(inflight + multiset{Request(y)}, cq, head, heap + {y})
    ensures OncePosted(inflight + multiset{Request(y)}, cq, owner[y := o])
  {
    var f := inflight + multiset{Request(y)};
    assert forall x :: x != NULL && x != y ==> f[Request(x)] == inflight[Request(x)];
    assert f[Request(y)] == inflight[Request(y)] + 1;
  }

  lemma SubmitHeap(s: Io, o: nat)
    requires LoopOk(s) && HeapOk(s) && o < |s.ops| && s.ops[o].pc.AtSubmit?
    ensures s.next !in s.heap && LoopOk(StartStep(s, o)) && HeapOk(StartStep(s, o))
    ensures Head(StartStep(s, o)) == Head(s) && StartStep(s, o).cq == s.cq
  {
  }

  lemma SubmitRing(s: Io, o: nat)
    requires RingOk(s) && o < |s.ops| && s.ops[o].pc.AtSubmit?
    ensures RingOk(StartStep(s, o))
  {
    SubmitHeap(s, o);
    SubmitOutstanding(s.inflight, s.cq, Head(s), s.heap, s.owner, s.next, o);
  }

  lemma SubmitOwners(s: Io, o: nat)
    requires OwnersOk(s) && o < |s.ops| && s.ops[o].pc.AtSubmit?
    ensures OwnersOk(StartStep(s, o))
  {
    HandshakeStart(s.ops[o], s.next);
    assert s.next !in s.owner;
  }

  /** A new callback belongs to an operation that no earlier callback belongs to. */
  lemma SubmitsFirst(s: Io, o: nat)
    requires OwnersOk(s) && o < |s.ops| && s.ops[o].pc.AtSubmit?
    ensures s.next !in s.owner && s.ops[o].done == [] && forall x :: x in s.owner ==> s.owner[x] != o
  {
    assert Handshake(s.ops[o]);
  }

  lemma SubmitReceivers(s: Io, o: nat)
    requires ReceiversOk(s) && o < |s.ops| && s.ops[o].pc.AtSubmit? && !InvokedNow(s, s.next)
    requires s.next !in s.owner && s.ops[o].done == [] && forall x :: x in s.owner ==> s.owner[x] != o
    ensures ReceiversOk(StartStep(s, o))
  {
  }

  lemma SubmitChannels(s: Io, o: nat)
    requires ChannelsOk(s) && o < |s.ops| && s.ops[o].pc.AtSubmit?
    requires s.next !in s.owner && s.ops[o].done == [] && forall x :: x in s.owner ==> s.owner[x] != o
    ensures ChannelsOk(StartStep(s, o))
  {
  }

  lemma SubmitOps(s: Io, o: nat)
    requires OpsOk(s) && HeapOk(s) && LoopOk(s) && o < |s.ops| && s.ops[o].pc.AtSubmit?
    ensures OpsOk(StartStep(s, o))
  {
    SubmitOwners(s, o);
    SubmitsFirst(s, o);
    SubmitReceivers(s, o);
    SubmitChannels(s, o);
  }

  lemma StartOk(s: Io, o: nat)
    requires Inv(s) && o < |s.ops|
    ensures Inv(StartStep(s, o))
  {
    if s.ops[o].pc.AtSubmit? {
      SubmitRing(s, o);
      SubmitOps(s, o);
    } else {
      HandshakeStart(s.ops[o], s.next);
      OpMoves(s, o, StartOp(s.ops[o], s.next));
      if s.ops[o].pc.AtCancel? {
        CancelFlies(SetOp(s, o, StartOp(s.ops[o], s.next)), Cancel(s.ops[o].pc.ptr));
      }
    }
  }

  lemma RequestOk(s: Io, o: nat)
    requires Inv(s) && o < |s.ops|
    ensures Inv(SetOp(s, o, RequestOp(s.ops[o])))
  {
    HandshakeStop(s.ops[o]);
    OpMoves(s, o, RequestOp(s.ops[o]));
  }

  lemma StopOk(s: Io, o: nat)
    requires Inv(s) && o < |s.ops|
    ensures Inv(StopCallback(s, o))
  {
    HandshakeStop(s.ops[o]);
    OpMoves(s, o, StopOp(s.ops[o]));
    if s.ops[o].stop.StopCancel? {
      CancelFlies(SetOp(s, o, StopOp(s.ops[o])), Cancel(s.ops[o].stop.ptr));
    }
  }

  lemma CreateOps(s: Io, possible: bool)
    requires OpsOk(s)
    ensures OpsOk(s.(ops := s.ops + [NewOp(possible)]))
  {
    assert Handshake(NewOp(possible));
  }

  // ------------------------------------------------------------------ steps of the kernel and the event loop

  lemma CompleteRing(s: Io, e: Sqe, res: int)
    requires RingOk(s) && e in s.inflight
    ensures RingOk(Step(s, Complete(e, res)))
  {
    var c, f := Cqe(DataOf(e), res), s.inflight - multiset{e};
    WithCallbackAppend(s.cq, c, Head(s));
    forall x: Ptr | x != NULL
      ensures f[Request(x)] + Posted(s.cq + [c], Head(s), x) == s.inflight[Request(x)] + Posted(s.cq, Head(s), x)
      ensures f[Request(x)] + Posted(s.cq + [c], 0, x) == s.inflight[Request(x)] + Posted(s.cq, 0, x)
    {
      PostedAppend(s.cq, c, Head(s), x);
      PostedAppend(s.cq, c, 0, x);
    }
  }

  lemma CompleteOps(s: Io, e: Sqe, res: int)
    requires OpsOk(s) && LoopOk(s)
    ensures OpsOk(Step(s, Complete(e, res)))
  {
  }

  /** A move of the loop that handles nothing. */
  lemma LoopFrame(s: Io, s': Io)
    requires Inv(s) && LoopOk(s')
    requires SameRing(s, s') && s'.ops == s.ops && s'.heap == s.heap
    requires Head(s') == Head(s) && (s'.run.AtDelete? <==> s.run.AtDelete?)
    ensures Inv(s')
  {
  }

  /** Everything but the operations and the loop itself. */
  predicate SameRing(s: Io, s': Io) {
    s'.inflight == s.inflight && s'.cq == s.cq && s'.owner == s.owner && s'.next == s.next
  }

  predicate Handling(s: Io) {
    s.run.AtInvoke? || s.run.AtDelete? || (s.run.Batch? && Head(s) < |s.cq| && s.cq[Head(s)].data == NULL)
  }

  lemma LoopStays(s: Io, intr: bool, fail: bool)
    requires LoopOk(s) && !Handling(s)
    ensures var s' := RunStep(s, intr, fail);
      && LoopOk(s') && SameRing(s, s') && s'.ops == s.ops && s'.heap == s.heap
      && Head(s') == Head(s) && !s'.run.AtDelete?
  {
  }

  lemma LoopPasses(s: Io, intr: bool, fail: bool)
    requires LoopOk(s) && Handling(s) && !s.run.AtInvoke?
    ensures var s' := RunStep(s, intr, fail);
      && LoopOk(s') && SameRing(s, s') && s'.ops == s.ops && !s'.run.AtDelete?
      && s'.heap == (if s.run.AtDelete? then s.heap - {s.cq[Head(s)].data} else s.heap)
      && Head(s') == Head(s) + 1
  {
  }

  lemma PassedOutstanding(inflight: multiset<Sqe>, cq: seq<Cqe>, head: nat, heap: set<Ptr>)
    requires head < |cq| && Outstanding(inflight, cq, head, heap)
    ensures Outstanding(inflight, cq, head + 1, heap - {cq[head].data})
    ensures cq[head].data != NULL ==> cq[head].data in heap
  {
    var y := cq[head].data;
    assert Posted(cq, head, y) >= 1;
    forall x: Ptr | x != NULL
      ensures inflight[Request(x)] + Posted(cq, head + 1, x) == (if x in heap - {y} then 1 else 0)
    {
      assert Posted(cq, head, x) == (if y == x then 1 else 0) + Posted(cq, head + 1, x);
    }
  }

  lemma PassedHeap(s: Io, s': Io)
    requires HeapOk(s) && LoopOk(s) && Head(s) < |s.cq| && Head(s') == Head(s) + 1 && SameRing(s, s')
    requires s'.heap == s.heap - {s.cq[Head(s)].data}
    requires s.cq[Head(s)].data != NULL ==> s.cq[Head(s)].data in s.heap
    ensures HeapOk(s')
  {
    if s.cq[Head(s)].data == NULL { assert s'.heap == s.heap; }
  }

  /** One entry further, its callback being deleted if it has one. */
  lemma PassedRing(s: Io, s': Io)
    requires RingOk(s) && LoopOk(s') && Head(s) < |s.cq| && Head(s') == Head(s) + 1 && SameRing(s, s')
    requires s'.heap == s.heap - {s.cq[Head(s)].data}
    ensures RingOk(s')
  {
    PassedOutstanding(s.inflight, s.cq, Head(s), s.heap);
    PassedHeap(s, s');
  }

  lemma PassedOps(s: Io, s': Io)
    requires OpsOk(s) && LoopOk(s) && Head(s) < |s.cq| && Head(s') == Head(s) + 1 && !s'.run.AtDelete?
    requires SameRing(s, s') && s'.ops == s.ops
    requires s'.heap == s.heap - {s.cq[Head(s)].data}
    requires s.run.AtDelete? || s.cq[Head(s)].data == NULL
    ensures OpsOk(s')
  {
  }

  /** A completion of a nop or a cancel is passed over; one with a callback is passed once it is deleted. */
  lemma PassesOk(s: Io, intr: bool, fail: bool)
    requires Inv(s) && Handling(s) && !s.run.AtInvoke?
    ensures Inv(RunStep(s, intr, fail))
  {
    var s' := RunStep(s, intr, fail);
    LoopPasses(s, intr, fail);
    assert NULL !in s.heap;
    assert s.heap - {NULL} == s.heap;
    PassedRing(s, s');
    PassedOps(s, s');
  }

  lemma HandshakeDone(op: Op, c: Channel)
    requires Handshake(op) && op.submitted != NULL
    ensures Handshake(op.(done := op.done + [c]))
  {
  }

  lemma InvokedOwners(s: Io, y: Ptr, res: int)
    requires OwnersOk(s) && y in s.owner
    ensures OwnersOk(Invoke(s, y, res))
  {
    HandshakeDone(s.ops[s.owner[y]], Route(res));
  }

  /** The step that calls the callback of the entry at the head. */
  lemma InvokeStep(s: Io, intr: bool, fail: bool)
    requires LoopOk(s) && s.run.AtInvoke?
    ensures var c := s.cq[Head(s)]; var s' := RunStep(s, intr, fail);
      s' == Invoke(s, c.data, c.res).(run := AtDelete(s.run.head, s.run.count)) && Head(s') == Head(s) && SameRing(s, s')
  {
  }

  lemma InvokedReceivers(s: Io, s': Io)
    requires OwnersOk(s) && ReceiversOk(s) && Head(s) < |s.cq| && !s.run.AtDelete? && s'.run.AtDelete?
    requires SameRing(s, s') && s'.heap == s.heap && Head(s') == Head(s)
    requires s.cq[Head(s)].data in s.heap && s.cq[Head(s)].data in s.owner
    requires s'.ops == Invoke(s, s.cq[Head(s)].data, s.cq[Head(s)].res).ops
    ensures ReceiversOk(s') && s.ops[s.owner[s.cq[Head(s)].data]].done == []
  {
  }

  lemma InvokedChannels(s: Io, s': Io)
    requires OwnersOk(s) && ChannelsOk(s) && Head(s) < |s.cq| && !s.run.AtDelete? && s'.run.AtDelete?
    requires SameRing(s, s') && Head(s') == Head(s) && s.cq[Head(s)].data in s.owner
    requires s.ops[s.owner[s.cq[Head(s)].data]].done == []
    requires s'.ops == Invoke(s, s.cq[Head(s)].data, s.cq[Head(s)].res).ops
    ensures ChannelsOk(s')
  {
    RouteDelivers(s.cq[Head(s)].res);
  }

  lemma InvokedRing(s: Io, intr: bool, fail: bool)
    requires RingOk(s) && s.run.AtInvoke?
    ensures RingOk(RunStep(s, intr, fail))
    ensures s.cq[Head(s)].data in s.heap && s.cq[Head(s)].data in s.owner
  {
    assert Posted(s.cq, Head(s), s.cq[Head(s)].data) >= 1;
  }

  lemma InvokeOk(s: Io, intr: bool, fail: bool)
    requires Inv(s) && s.run.AtInvoke?
    ensures Inv(RunStep(s, intr, fail))
  {
    var c, s' := s.cq[Head(s)], RunStep(s, intr, fail);
    InvokedRing(s, intr, fail);
    InvokeStep(s, intr, fail);
    InvokedOwners(s, c.data, c.res);
    InvokedReceivers(s, s');
    InvokedChannels(s, s');
  }

  lemma RunOk(s: Io, intr: bool, fail: bool)
    requires Inv(s)
    ensures Inv(RunStep(s, intr, fail))
  {
    if s.run.AtInvoke? {
      InvokeOk(s, intr, fail);
    } else if Handling(s) {
      PassesOk(s, intr, fail);
    } else {
      LoopStays(s, intr, fail);
      LoopFrame(s, RunStep(s, intr, fail));
    }
  }

  lemma WakeOk(s: Io)
    requires Inv(s)
    ensures Inv(Step(s, StopSubmit))
  {
    if s.stoppers > 0 {
      CancelFlies(s, Nop);
      LoopFrame(s.(inflight := s.inflight + multiset{Nop}), Step(s, StopSubmit));
    }
  }

  lemma FlagOk(s: Io, act: Action)
    requires Inv(s) && (act.RunCall? || act.StopCall? || act.StopSubmit?)
    ensures Inv(Step(s, act))
  {
    if act.StopSubmit? {
      WakeOk(s);
    } else {
      LoopFrame(s, Step(s, act));
    }
  }

  /** The steps of operations and of their stop callbacks. */
  lemma OperationOk(s: Io, act: Action)
    requires Inv(s) && (act.Create? || act.Start? || act.RequestStop? || act.StopStep?)
    ensures Inv(Step(s, act))
  {
    match act
    case Create(possible) => CreateOps(s, possible);
    case Start(o) => if o < |s.ops| { StartOk(s, o); }
    case RequestStop(o) => if o < |s.ops| { RequestOk(s, o); }
    case StopStep(o) => if o < |s.ops| { StopOk(s, o); }
  }

  lemma CompleteOk(s: Io, e: Sqe, res: int)
    requires Inv(s)
    ensures Inv(Step(s, Complete(e, res)))
  {
    if e in s.inflight {
      CompleteRing(s, e, res);
      CompleteOps(s, e, res);
    }
  }

  lemma StepOk(s: Io, act: Action)
    requires Inv(s)
    ensures Inv(Step(s, act))
  {
    match act
    case Complete(e, res) => CompleteOk(s, e, res);
    case Run(intr, fail) => RunOk(s, intr, fail);
    case RunCall => FlagOk(s, act);
    case StopCall => FlagOk(s, act);
    case StopSubmit => FlagOk(s, act);
    case _ => OperationOk(s, act);
  }

  // ------------------------------------------------------------------ over whole runs

  lemma {:induction false} AlwaysInv(acts: seq<Action>)
    ensures Inv(After(Init(), acts))
  {
    if acts == [] {
    } else {
      AlwaysInv(acts[..|acts| - 1]);
      StepOk(After(Init(), acts[..|acts| - 1]), acts[|acts| - 1]);
    }
  }

  /** All the cancels that an operation has issued, by whichever thread. */
  function Cancels(op: Op): seq<Ptr> {
    op.startCancels + op.stopCancels
  }

  /**
   The cancellation handshake, for every interleaving of `start` with the stop callback.  A
   cancel always names the callback that was submitted and is never issued before.  Once
   `start` has finished after a submission, and the stop callback too if a stop was requested:
   a requested stop has issued one cancel or two, and without a request there is none.  An
   operation stopped early has submitted nothing.
   */
  lemma CancellationHandshake(acts: seq<Action>, o: nat)
    requires o < |After(Init(), acts).ops|
    ensures var op := After(Init(), acts).ops[o];
      && (forall c :: c in Cancels(op) ==> c == op.submitted != NULL)
      && (op.pc.Started? && op.requested && op.stop.StopDone? ==> 1 <= |Cancels(op)| <= 2)
      && (op.pc.Started? && op.requested ==> !op.stop.Armed? && !op.stop.Unregistered?)
      && (op.pc.Started? && !op.requested ==> Cancels(op) == [])
      && (op.pc.EarlyStopped? ==> op.submitted == NULL && Cancels(op) == [])
  {
    AlwaysInv(acts);
    var op := After(Init(), acts).ops[o];
    assert Handshake(op);
    assert op.startCancels == [] || op.startCancels == [op.submitted];
  }

  lemma {:induction false} HandledEntry(cq: seq<Cqe>, from: nat, head: nat, x: Ptr) returns (j: nat)
    requires from <= head <= |cq| && Posted(cq, from, x) > Posted(cq, head, x)
    ensures from <= j < head && cq[j].data == x
    decreases head - from
  {
    if cq[from].data == x { j := from; } else { j := HandledEntry(cq, from + 1, head, x); }
  }

  /**
   One completion per started operation.  The receiver of an operation stopped early has been
   completed with stopped; that of a submitted operation is untouched while its callback is
   live and otherwise completed once, on the channel selected by the result of the one
   completion that carried its callback.
   */
  lemma OneCompletion(acts: seq<Action>, o: nat)
    requires o < |After(Init(), acts).ops|
    ensures var s := After(Init(), acts); var op := s.ops[o]; var x := op.submitted;
      && |op.done| <= 1
      && (op.pc.EarlyStopped? <==> x == NULL && op.done != [])
      && (op.pc.EarlyStopped? ==> op.done == [Stopped])
      && (x != NULL ==> (op.done == [] <==> x in s.heap && !InvokedNow(s, x)))
      && (x != NULL && op.done != [] ==>
            exists j :: 0 <= j < Called(s) && j < |s.cq| && s.cq[j].data == x && Delivered(op.done, s.cq[j].res))
      && (x != NULL ==> s.inflight[Request(x)] + Posted(s.cq, 0, x) == 1)
  {
    AlwaysInv(acts);
    var s := After(Init(), acts);
    var op := s.ops[o];
    var x := op.submitted;
    assert Handshake(op);
    if x != NULL {
      assert Posted(s.cq, 0, x) <= 1;
      if InvokedNow(s, x) {
        assert s.cq[Head(s)].data == x;
      } else if x !in s.heap {
        var j := HandledEntry(s.cq, 0, Head(s), x);
        assert s.cq[j].data == x;
      }
    }
  }

  /** Live heap callbacks are the submissions less the handled completions that carried one. */
  lemma LiveCallbacks(acts: seq<Action>)
    ensures var s := After(Init(), acts);
      |s.heap| == (s.next - 1) - WithCallback(s.cq, Head(s))
  {
    AlwaysInv(acts);
  }

  lemma RunHandlesOne(s: Io, intr: bool, fail: bool)
    requires LoopOk(s)
    ensures var s' := RunStep(s, intr, fail);
      && s'.cq == s.cq && Head(s) <= Head(s') <= Head(s) + 1
      && (Head(s') == Head(s) + 1 ==> s.cq[Head(s)].data == NULL || s.cq[Head(s)].data !in s'.heap)
      && (s.run.AtAdvance? ==> s'.consumed == Head(s) == Head(s'))
      && (s.run.Batch? ==> s'.ops == s.ops && s'.heap == s.heap)
  {
  }

  lemma OperationsHandleNothing(s: Io, act: Action)
    requires act.Create? || act.Start? || act.RequestStop? || act.StopStep?
    ensures var s' := Step(s, act); s'.cq == s.cq && s'.run == s.run && s'.consumed == s.consumed
  {
  }

  lemma OthersHandleNothing(s: Io, act: Action)
    requires LoopOk(s) && !act.Run?
    ensures s.cq <= Step(s, act).cq && Head(Step(s, act)) == Head(s)
  {
    if act.Create? || act.Start? || act.RequestStop? || act.StopStep? {
      OperationsHandleNothing(s, act);
    }
  }

  /**
   Completions are handled one at a time and in order, and the batched advance reports exactly
   those that were handled: whatever the kernel posts meanwhile is neither skipped nor handled
   twice.  An entry without a callback touches no receiver and frees nothing.
   */
  lemma HandledInOrder(acts: seq<Action>, act: Action)
    ensures var s := After(Init(), acts); s.consumed <= Head(s) <= |s.cq|
    ensures Handles(After(Init(), acts), act)
  {
    AlwaysInv(acts);
    var s := After(Init(), acts);
    if act.Run? { RunHandlesOne(s, act.intr, act.fail); } else { OthersHandleNothing(s, act); }
  }

  ghost predicate Handles(s: Io, act: Action) {
    var s' := Step(s, act);
    && s.cq <= s'.cq && Head(s) <= Head(s') <= Head(s) + 1
    && (Head(s') == Head(s) + 1 ==>
          Head(s) < |s.cq| && act.Run? && (s.cq[Head(s)].data == NULL || s.cq[Head(s)].data !in s'.heap))
    && (s.run.AtAdvance? && act.Run? ==> s'.consumed == Head(s) == Head(s'))
    && (s.run.Batch? && act.Run? ==> s'.ops == s.ops && s'.heap == s.heap)
  }

  /** If `stop` has cleared the flag while the loop waits, something will wake the loop. */
  lemma StopReachesTheLoop(acts: seq<Action>)
    ensures var s := After(Init(), acts);
      s.run.Waiting? && !s.running ==> s.stoppers > 0 || Nop in s.inflight || s.consumed < |s.cq|
  {
    AlwaysInv(acts);
  }
}
