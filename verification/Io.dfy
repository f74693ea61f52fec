/**
 I/O operations on the completion ring, with cancellation.

 Any number of operations are started by any threads; each may have a stop callback that a
 stop request runs concurrently; one thread runs the event loop; the kernel completes each
 submission once, in any order and with any result.  Each atomic access, each submission
 (under the submission mutex) and each move of the event loop is one step.  An action that is
 not enabled leaves the state as it is.
 */
module Io {
  import opened Basics

  const ECANCELED: int := 125

  /** The three completion channels of a receiver. */
  datatype Channel = Value(res: int) | Error(code: int) | Stopped

  /** `make_io_callback`: the channel that a result is delivered on. */
  function Route(res: int): Channel {
    if res == -ECANCELED then Stopped else if res < 0 then Error(-res) else Value(res)
  }

  /** Where a thread is inside `stop_helper::start`. */
  datatype StartPc =
    | Unstarted
    | AtRequested                // about to ask whether a stop was already requested
    | AtPossible                 // about to register the stop callback, if stopping is possible
    | Inline                     // the registration found a request and runs the callback itself
    | AtSubmit                   // about to submit
    | AtStore(ptr: Ptr)          // about to store cb_ptr
    | AtCheck(ptr: Ptr)          // about to load stop_called
    | AtCancel(ptr: Ptr)         // about to submit a cancel
    | Started
    | EarlyStopped               // completed the receiver with stopped, nothing submitted

  /** Where the stop callback of an operation is. */
  datatype StopPc =
    | Unregistered
    | Armed
    | StopStore                  // about to store stop_called
    | StopLoad                   // about to load cb_ptr
    | StopCancel(ptr: Ptr)       // about to submit a cancel
    | StopDone

  /**
   An operation.  The last four fields are history: the callback it submitted, the cancels
   that its start and its stop callback issued, and the completions of its receiver.
   */
  datatype Op = Op(
    pc: StartPc, stop: StopPc, possible: bool, requested: bool, cbPtr: Ptr, stopCalled: bool,
    submitted: Ptr, startCancels: seq<Ptr>, stopCancels: seq<Ptr>, done: seq<Channel>)

  function NewOp(possible: bool): Op {
    Op(Unstarted, Unregistered, possible, false, NULL, false, NULL, [], [], [])
  }

  /** A submission; cancels and the wake-up of `stop` carry no callback. */
  datatype Sqe = Request(cb: Ptr) | Nop | Cancel(target: Ptr)

  datatype Cqe = Cqe(data: Ptr, res: int)

  function DataOf(e: Sqe): Ptr {
    if e.Request? then e.cb else NULL
  }

  /** Where the event loop is.  `head` and `count` are the locals of its inner loop. */
  datatype RunPc =
    | NotRunning
    | AtRunning                                 // about to load running
    | Waiting                                   // in wait_cqe
    | Batch(head: nat, count: nat)              // about to look for the next completion
    | AtInvoke(head: nat, count: nat)           // about to call the callback of entry head
    | AtDelete(head: nat, count: nat)           // about to delete it
    | AtAdvance(head: nat, count: nat)          // about to consume count entries

  /**
   `cq` is every completion ever posted and `consumed` how many of them the ring has been told
   are consumed.  `owner` (which operation each callback belongs to) is history.
   */
  datatype Io = Io(
    ops: seq<Op>, heap: set<Ptr>, next: Ptr, owner: map<Ptr, nat>,
    inflight: multiset<Sqe>, cq: seq<Cqe>, consumed: nat,
    run: RunPc, running: bool, stoppers: nat)

  datatype Action =
    | Create(possible: bool)           // a new operation is connected
    | Start(o: nat)                    // the next step of start of operation o
    | RequestStop(o: nat)              // a stop request reaches operation o's token
    | StopStep(o: nat)                 // the next step of its stop callback
    | Complete(e: Sqe, res: int)       // the kernel completes a submission
    | RunCall                          // the event loop is entered
    | Run(intr: bool, fail: bool)      // its next step; wait_cqe may be interrupted or fail
    | StopCall                         // io_context::stop clears running
    | StopSubmit                       // and submits a nop

  function Init(): Io {
    Io([], {}, 1, map[], multiset{}, [], 0, NotRunning, false, 0)
  }

  // ------------------------------------------------------------------ the steps

  function SetOp(s: Io, o: nat, op: Op): Io
    requires o < |s.ops|
  {
    s.(ops := s.ops[o := op])
  }

  /** The operation's own part of a step of `start`; `ptr` is where a new callback would be. */
  function StartOp(op: Op, ptr: Ptr): Op {
    match op.pc
    case Unstarted => op.(pc := AtRequested)
    case AtRequested =>
      if op.requested then op.(pc := EarlyStopped, done := op.done + [Stopped]) else op.(pc := AtPossible)
    case AtPossible =>
      if !op.possible then op.(pc := AtSubmit)
      else if op.requested then op.(pc := Inline, stop := StopStore)
      else op.(pc := AtSubmit, stop := Armed)
    case Inline => if op.stop.StopDone? then op.(pc := AtSubmit) else op
    case AtSubmit => op.(pc := AtStore(ptr), submitted := ptr)
    case AtStore(p) => op.(pc := AtCheck(p), cbPtr := p)
    case AtCheck(p) => op.(pc := if op.stopCalled then AtCancel(p) else Started)
    case AtCancel(p) => op.(pc := Started, startCancels := op.startCancels + [p])
    case Started => op
    case EarlyStopped => op
  }

  /** A submission allocates its callback and hands it to the kernel under the submission mutex. */
  function StartStep(s: Io, o: nat): Io
    requires o < |s.ops|
  {
    var s' := SetOp(s, o, StartOp(s.ops[o], s.next));
    match s.ops[o].pc
    case AtSubmit =>
      s'.(heap := s.heap + {s.next}, next := s.next + 1, owner := s.owner[s.next := o],
          inflight := s.inflight + multiset{Request(s.next)})
    case AtCancel(p) => s'.(inflight := s.inflight + multiset{Cancel(p)})
    case _ => s'
  }

  /** The stop callback. */
  function StopOp(op: Op): Op {
    match op.stop
    case StopStore => op.(stop := StopLoad, stopCalled := true)
    case StopLoad => op.(stop := if op.cbPtr != NULL then StopCancel(op.cbPtr) else StopDone)
    case StopCancel(p) => op.(stop := StopDone, stopCancels := op.stopCancels + [p])
    case _ => op
  }

  function StopCallback(s: Io, o: nat): Io
    requires o < |s.ops|
  {
    var s' := SetOp(s, o, StopOp(s.ops[o]));
    if s.ops[o].stop.StopCancel? then s'.(inflight := s.inflight + multiset{Cancel(s.ops[o].stop.ptr)}) else s'
  }

  function RequestOp(op: Op): Op {
    if op.possible then op.(requested := true, stop := if op.stop.Armed? then StopStore else op.stop) else op
  }

  /** The receiver of the callback's operation is completed on the channel of the result. */
  function Invoke(s: Io, ptr: Ptr, res: int): Io {
    if ptr in s.owner && s.owner[ptr] < |s.ops| then
      var o := s.owner[ptr];
      SetOp(s, o, s.ops[o].(done := s.ops[o].done + [Route(res)]))
    else s
  }

  function RunStep(s: Io, intr: bool, fail: bool): Io {
    match s.run
    case NotRunning => s
    case AtRunning => s.(run := if s.running then Waiting else NotRunning)
    case Waiting =>
      if intr then s.(run := AtRunning)
      else if fail then s.(run := NotRunning)
      else if s.consumed < |s.cq| then s.(run := Batch(s.consumed, 0))
      else s
    case Batch(head, count) =>
      if head >= |s.cq| then s.(run := AtAdvance(head, count))
      else if s.cq[head].data == NULL then s.(run := Batch(head + 1, count + 1))
      else s.(run := AtInvoke(head, count))
    case AtInvoke(head, count) =>
      if head < |s.cq| then Invoke(s, s.cq[head].data, s.cq[head].res).(run := AtDelete(head, count)) else s
    case AtDelete(head, count) =>
      if head < |s.cq| then s.(heap := s.heap - {s.cq[head].data}, run := Batch(head + 1, count + 1)) else s
    case AtAdvance(_, count) => s.(consumed := s.consumed + count, run := AtRunning)
  }

  /** The kernel completes one of the submissions in flight. */
  function CompleteStep(s: Io, e: Sqe, res: int): Io {
    if e in s.inflight then
      s.(inflight := s.inflight - multiset{e}, cq := s.cq + [Cqe(DataOf(e), res)])
    else s
  }

  function EnterStep(s: Io): Io {
    if s.run.NotRunning? then s.(run := AtRunning, running := true) else s
  }

  /** `stop` is not called before the event loop has set `running`. */
  function StopCallStep(s: Io): Io {
    if !s.run.NotRunning? then s.(running := false, stoppers := s.stoppers + 1) else s
  }

  function StopSubmitStep(s: Io): Io {
    if s.stoppers > 0 then s.(stoppers := s.stoppers - 1, inflight := s.inflight + multiset{Nop}) else s
  }

  function Step(s: Io, act: Action): Io {
    match act
    case Create(possible) => s.(ops := s.ops + [NewOp(possible)])
    case Start(o) => if o < |s.ops| then StartStep(s, o) else s
    case RequestStop(o) => if o < |s.ops| then SetOp(s, o, RequestOp(s.ops[o])) else s
    case StopStep(o) => if o < |s.ops| then StopCallback(s, o) else s
    case Complete(e, res) => CompleteStep(s, e, res)
    case RunCall => EnterStep(s)
    case Run(intr, fail) => RunStep(s, intr, fail)
    case StopCall => StopCallStep(s)
    case StopSubmit => StopSubmitStep(s)
  }

  function After(s: Io, acts: seq<Action>): Io {
    if acts == [] then s else Step(After(s, acts[..|acts| - 1]), acts[|acts| - 1])
  }
}
