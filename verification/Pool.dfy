/**
 The thread pool as a step machine over the deque machine: a global queue, one deque per
 worker, work stealing, the spin phase, sleeping and waking through a mutex and a condition
 variable, shutdown and teardown.

 Steps interleave in any order (sequential consistency).  The deques inside are the deque
 machine itself, so a pop, push or steal of a worker is as interleaved here as it is there.
 A critical section of the global queue's own mutex is one step.  An action that is not
 enabled leaves the pool as it is.
 */
module Pool {
  import opened Basics
  import opened Ring
  import D = Deque

  /** Spins between the first failed search and going to sleep. */
  const SPINS: nat := 32

  /** Looking for a task.  `round` is 0 in the first search and the number of the spin otherwise. */
  datatype SearchPc =
    | AtPop                                            // about to call pop on its own deque
    | InPop
    | AtQueue(round: nat)                              // about to pop the global queue
    | AtSweep(round: nat)                              // about to choose where to start stealing
    | Sweeping(round: nat, start: nat, i: nat)
    | InSteal(round: nat, start: nat, i: nat)
    | AtStop                                           // about to load stop after the first search

  /** Executing a task, which may enqueue other tasks. */
  datatype RunPc =
    | Body
    | InPush                                           // enqueue: inside push on its own deque
    | AtCheck                                          // about to load sleeping_workers
    | AtMutex
    | AtNotify                                         // holds the mutex, about to notify
    | AtRelease

  /**
   Going to sleep.  `waiting` tells the predicate of the condition variable from the scan
   before it.
   */
  datatype SleepPc =
    | AtLock                                           // about to take the mutex
    | AtStopLocked                                     // holds the mutex from here on
    | ScanQueue(waiting: bool)
    | ScanBottom(waiting: bool, j: nat)                // about to load bottom of deque j
    | ScanTop(waiting: bool, j: nat, b: int)           // about to load top of deque j
    | AddSleeper
    | PredStop                                         // predicate: about to load stop
    | Blocked                                          // released the mutex, waiting for a notify
    | Woken                                            // about to take the mutex again
    | SubSleeper
    | Unlock(exit: bool)

  /** Where a worker is in its loop. */
  datatype WorkerPc = Search(at: SearchPc) | Running(x: Ptr, run: RunPc) | Sleep(zz: SleepPc) | Exited

  /** An external thread inside `enqueue`. */
  datatype ClientPc =
    | Outside
    | Pushing(x: Ptr)                                  // about to append to the global queue
    | Checking                                         // about to load sleeping_workers
    | Locking
    | Notifying                                        // holds the mutex, about to notify
    | Unlocking

  /** The thread that destroys the pool. */
  datatype DtorPc =
    | Alive
    | DtorLock | DtorNotify | DtorUnlock
    | Joining(j: nat)
    | FreeDeques(j: nat)
    | FreeQueue
    | Gone

  datatype Holder = Free | ByWorker(w: nat) | ByClient(e: nat) | ByDtor

  /**
   The last four fields are history: every task ever enqueued, those of them enqueued from
   inside a task, and the tasks that have been run to the end or deleted without running.
   */
  datatype Pool = Pool(
    queue: seq<Ptr>, deques: seq<D.Deque>,
    stop: bool, sleeping: int, mutex: Holder,
    workers: seq<WorkerPc>, clients: seq<ClientPc>, dtor: DtorPc,
    enqueued: seq<Ptr>, nested: set<Ptr>, executed: seq<Ptr>, freed: seq<Ptr>)

  datatype Action =
    | Work(w: nat, start: nat)           // the next step of worker w; start seeds a steal sweep
    | Spawn(w: nat, x: Ptr)              // the task that w runs enqueues x
    | Finish(w: nat)                     // the task that w runs returns
    | WorkNotify(w: nat, victim: nat)    // notify_one by worker w
    | Spurious(w: nat)                   // a spurious wake-up
    | Enqueue(e: nat, x: Ptr)            // external thread e enqueues x
    | Client(e: nat)
    | ClientNotify(e: nat, victim: nat)
    | Destroy                            // the destructor is called
    | Dtor

  /** A pool of `n` workers (at least one), with `m` external threads around it. */
  function Init(n: nat, m: nat, capacity: nat): Pool {
    var k := if n == 0 then 1 else n;
    Pool([], seq(k, _ => D.Init(capacity)), false, 0, Free,
         seq(k, _ => Search(AtPop)), seq(m, _ => Outside), Alive, [], {}, [], [])
  }

  // ------------------------------------------------------------------ the steps

  function Goto(p: Pool, w: nat, pc: WorkerPc): (r: Pool)
    requires w < |p.workers|
    ensures |r.workers| == |p.workers| && |r.deques| == |p.deques| && |r.clients| == |p.clients|
  {
    p.(workers := p.workers[w := pc])
  }

  /** The step of a deque that a step of the pool contains, if any. */
  datatype Touched = Nothing | At(d: nat, a: D.Action)

  function Touching(deques: seq<D.Deque>, t: Touched): (r: seq<D.Deque>)
    ensures |r| == |deques|
  {
    if t.At? && t.d < |deques| then deques[t.d := D.Step(deques[t.d], t.a).next] else deques
  }

  function EventOf(deques: seq<D.Deque>, t: Touched): D.Event {
    if t.At? && t.d < |deques| then D.Step(deques[t.d], t.a).event else D.Quiet
  }

  function Target(n: nat, start: nat, i: nat): nat
    requires n > 0
    ensures Target(n, start, i) < n
  {
    (start + i) % n
  }

  /** The deque step that worker `w` takes next. */
  function Wants(n: nat, w: nat, pc: WorkerPc): Touched
    requires n > 0
  {
    match pc
    case Search(AtPop) => At(w, D.Pop)
    case Search(InPop) => At(w, D.Owner)
    case Search(Sweeping(_, st, i)) =>
      if i < n && Target(n, st, i) != w then At(Target(n, st, i), D.Steal(w)) else Nothing
    case Search(InSteal(_, st, i)) => At(Target(n, st, i), D.Thief(w))
    case Running(_, InPush) => At(w, D.Owner)
    case _ => Nothing
  }

  function AfterSweep(round: nat): WorkerPc {
    if round == 0 then Search(AtStop) else if round < SPINS then Search(AtQueue(round + 1)) else Sleep(AtLock)
  }

  function RunOr(x: Ptr, at: SearchPc): WorkerPc {
    if x != NULL then Running(x, Body) else Search(at)
  }

  /** Own deque, global queue, steal sweep.  `e` is what the deque step did. */
  function SearchStep(p: Pool, w: nat, start: nat, e: D.Event): (r: Pool)
    requires w < |p.workers| == |p.deques| && p.workers[w].Search?
    ensures |r.workers| == |p.workers| && |r.deques| == |p.deques| && |r.clients| == |p.clients|
  {
    var n := |p.deques|;
    match p.workers[w].at
    case AtPop => Goto(p, w, Search(InPop))
    case InPop => Goto(p, w, if e.PopDone? then RunOr(e.r, AtQueue(0)) else Search(InPop))
    case AtQueue(k) =>
      if p.queue != [] then Goto(p.(queue := p.queue[1..]), w, Running(p.queue[0], Body))
      else Goto(p, w, Search(AtSweep(k)))
    case AtSweep(k) =>
      Goto(p, w, if n <= 1 then AfterSweep(k) else Search(Sweeping(k, start % n, 0)))
    case Sweeping(k, st, i) =>
      Goto(p, w, if i >= n then AfterSweep(k)
                 else if Target(n, st, i) == w then Search(Sweeping(k, st, i + 1))
                 else Search(InSteal(k, st, i)))
    case InSteal(k, st, i) =>
      Goto(p, w, if e.StealDone? then RunOr(e.r, Sweeping(k, st, i + 1)) else Search(InSteal(k, st, i)))
    case AtStop => Goto(p, w, if p.stop then Exited else Search(AtQueue(1)))
  }

  /** A task that enqueues another one. */
  function RunStep(p: Pool, w: nat, e: D.Event): (r: Pool)
    requires w < |p.workers| && p.workers[w].Running?
    ensures |r.workers| == |p.workers| && |r.deques| == |p.deques| && |r.clients| == |p.clients|
  {
    var x := p.workers[w].x;
    match p.workers[w].run
    case InPush => Goto(p, w, Running(x, if e.PushDone? then AtCheck else InPush))
    case AtCheck => Goto(p, w, Running(x, if p.sleeping > 0 then AtMutex else Body))
    case AtMutex => if p.mutex.Free? then Goto(p.(mutex := ByWorker(w)), w, Running(x, AtNotify)) else p
    case AtRelease => Goto(p.(mutex := Free), w, Running(x, Body))
    case _ => p
  }

  function Found(waiting: bool): WorkerPc {
    Sleep(if waiting then SubSleeper else Unlock(false))
  }

  /** Going to sleep and waking up. */
  function SleepStep(p: Pool, w: nat): (r: Pool)
    requires w < |p.workers| && p.workers[w].Sleep?
    ensures |r.workers| == |p.workers| && |r.deques| == |p.deques| && |r.clients| == |p.clients|
  {
    match p.workers[w].zz
    case AtLock => if p.mutex.Free? then Goto(p.(mutex := ByWorker(w)), w, Sleep(AtStopLocked)) else p
    case AtStopLocked => Goto(p, w, Sleep(if p.stop then Unlock(true) else ScanQueue(false)))
    case ScanQueue(g) => Goto(p, w, if p.queue != [] then Found(g) else Sleep(ScanBottom(g, 0)))
    case ScanBottom(g, j) =>
      if j < |p.deques| then Goto(p, w, Sleep(ScanTop(g, j, p.deques[j].bottom)))
      else if g then Goto(p.(mutex := Free), w, Sleep(Blocked))
      else Goto(p, w, Sleep(AddSleeper))
    case ScanTop(g, j, b) =>
      if j < |p.deques| then Goto(p, w, if b <= p.deques[j].top then Sleep(ScanBottom(g, j + 1)) else Found(g)) else p
    case AddSleeper => Goto(p.(sleeping := p.sleeping + 1), w, Sleep(PredStop))
    case PredStop => Goto(p, w, Sleep(if p.stop then SubSleeper else ScanQueue(true)))
    case Blocked => p
    case Woken => if p.mutex.Free? then Goto(p.(mutex := ByWorker(w)), w, Sleep(PredStop)) else p
    case SubSleeper => Goto(p.(sleeping := p.sleeping - 1), w, Sleep(Unlock(false)))
    case Unlock(exit) => Goto(p.(mutex := Free), w, if exit then Exited else Search(AtPop))
  }

  function Advance(p: Pool, w: nat, start: nat, e: D.Event): (r: Pool)
    requires w < |p.workers| == |p.deques|
    ensures |r.workers| == |p.workers| && |r.deques| == |p.deques| && |r.clients| == |p.clients|
  {
    match p.workers[w]
    case Search(_) => SearchStep(p, w, start, e)
    case Running(_, _) => RunStep(p, w, e)
    case Sleep(_) => SleepStep(p, w)
    case Exited => p
  }

  /** The next atomic step of worker `w`, inside a deque or outside. */
  function WorkStep(p: Pool, w: nat, start: nat): (r: Pool)
    requires w < |p.workers| == |p.deques|
    ensures |r.workers| == |p.workers| && |r.deques| == |p.deques| && |r.clients| == |p.clients|
  {
    var t := Wants(|p.deques|, w, p.workers[w]);
    Advance(p.(deques := Touching(p.deques, t)), w, start, EventOf(p.deques, t))
  }

  /** notify_one wakes a blocked worker, whichever, if there is one. */
  predicate MayWake(p: Pool, victim: nat) {
    || (victim < |p.workers| && p.workers[victim] == Sleep(Blocked))
    || (forall v :: 0 <= v < |p.workers| ==> p.workers[v] != Sleep(Blocked))
  }

  function Wake(p: Pool, victim: nat): (r: Pool)
    ensures |r.workers| == |p.workers| && |r.deques| == |p.deques| && |r.clients| == |p.clients|
  {
    if victim < |p.workers| && p.workers[victim] == Sleep(Blocked) then Goto(p, victim, Sleep(Woken)) else p
  }

  function WakeAll(workers: seq<WorkerPc>): (r: seq<WorkerPc>)
    ensures |r| == |workers|
    ensures forall v :: 0 <= v < |r| ==> r[v] == if workers[v] == Sleep(Blocked) then Sleep(Woken) else workers[v]
  {
    if workers == [] then [] else
    WakeAll(workers[..|workers| - 1]) +
    [if workers[|workers| - 1] == Sleep(Blocked) then Sleep(Woken) else workers[|workers| - 1]]
  }

  function ClientGoto(p: Pool, e: nat, pc: ClientPc): (r: Pool)
    requires e < |p.clients|
    ensures |r.workers| == |p.workers| && |r.deques| == |p.deques| && |r.clients| == |p.clients|
  {
    p.(clients := p.clients[e := pc])
  }

  function ClientStep(p: Pool, e: nat): (r: Pool)
    requires e < |p.clients|
    ensures |r.workers| == |p.workers| && |r.deques| == |p.deques| && |r.clients| == |p.clients|
  {
    match p.clients[e]
    case Pushing(x) => ClientGoto(p.(queue := p.queue + [x]), e, Checking)
    case Checking => ClientGoto(p, e, if p.sleeping > 0 then Locking else Outside)
    case Locking => if p.mutex.Free? then ClientGoto(p.(mutex := ByClient(e)), e, Notifying) else p
    case Unlocking => ClientGoto(p.(mutex := Free), e, Outside)
    case _ => p
  }

  /** The deque destructor deletes the tasks between top and bottom. */
  function DtorStep(p: Pool): (r: Pool)
    ensures |r.workers| == |p.workers| && |r.deques| == |p.deques| && |r.clients| == |p.clients|
  {
    match p.dtor
    case DtorLock => if p.mutex.Free? then p.(mutex := ByDtor, dtor := DtorNotify) else p
    case DtorNotify => p.(workers := WakeAll(p.workers), dtor := DtorUnlock)
    case DtorUnlock => p.(mutex := Free, dtor := Joining(0))
    case Joining(j) =>
      if j >= |p.workers| then p.(dtor := FreeDeques(0))
      else if p.workers[j].Exited? then p.(dtor := Joining(j + 1)) else p
    case FreeDeques(j) =>
      if j >= |p.deques| then p.(dtor := FreeQueue)
      else
        var s := p.deques[j];
        p.(deques := p.deques[j := s.(top := s.bottom)], freed := p.freed + Slice(D.Now(s), s.top, s.bottom), dtor := FreeDeques(j + 1))
    case FreeQueue => p.(queue := [], freed := p.freed + p.queue, dtor := Gone)
    case _ => p
  }

  /** An allocation that has not been handed out before. */
  predicate NewTask(p: Pool, x: Ptr) {
    x != NULL && x !in p.enqueued
  }

  /** The task that worker `w` runs calls enqueue, which starts a push on the worker's own deque. */
  function SpawnStep(p: Pool, w: nat, x: Ptr): (r: Pool)
    requires |p.workers| == |p.deques|
    ensures |r.workers| == |p.workers| && |r.deques| == |p.deques| && |r.clients| == |p.clients|
  {
    if w < |p.workers| && p.workers[w].Running? && p.workers[w].run == Body && NewTask(p, x) then
      Goto(p.(deques := Touching(p.deques, At(w, D.Push(x)))), w, p.workers[w].(run := InPush))
        .(enqueued := p.enqueued + [x], nested := p.nested + {x})
    else p
  }

  function FinishStep(p: Pool, w: nat): (r: Pool)
    ensures |r.workers| == |p.workers| && |r.deques| == |p.deques| && |r.clients| == |p.clients|
  {
    if w < |p.workers| && p.workers[w].Running? && p.workers[w].run == Body then
      Goto(p, w, Search(AtPop)).(executed := p.executed + [p.workers[w].x])
    else p
  }

  function WorkNotifyStep(p: Pool, w: nat, victim: nat): (r: Pool)
    ensures |r.workers| == |p.workers| && |r.deques| == |p.deques| && |r.clients| == |p.clients|
  {
    if w < |p.workers| && p.workers[w].Running? && p.workers[w].run == AtNotify && MayWake(p, victim) then
      Goto(Wake(p, victim), w, p.workers[w].(run := AtRelease))
    else p
  }

  /** An external thread calls enqueue; none does once the pool is being destroyed. */
  function EnqueueStep(p: Pool, e: nat, x: Ptr): (r: Pool)
    ensures |r.workers| == |p.workers| && |r.deques| == |p.deques| && |r.clients| == |p.clients|
  {
    if e < |p.clients| && p.clients[e].Outside? && p.dtor.Alive? && NewTask(p, x) then
      ClientGoto(p, e, Pushing(x)).(enqueued := p.enqueued + [x])
    else p
  }

  function ClientNotifyStep(p: Pool, e: nat, victim: nat): (r: Pool)
    ensures |r.workers| == |p.workers| && |r.deques| == |p.deques| && |r.clients| == |p.clients|
  {
    if e < |p.clients| && p.clients[e].Notifying? && MayWake(p, victim) then
      ClientGoto(Wake(p, victim), e, Unlocking)
    else p
  }

  /** The destructor is called when no external call is under way. */
  function DestroyStep(p: Pool): (r: Pool)
    ensures |r.workers| == |p.workers| && |r.deques| == |p.deques| && |r.clients| == |p.clients|
  {
    if p.dtor.Alive? && (forall e :: 0 <= e < |p.clients| ==> p.clients[e].Outside?) then
      p.(stop := true, dtor := DtorLock)
    else p
  }

  function Step(p: Pool, act: Action): (r: Pool)
    requires |p.workers| == |p.deques|
    ensures |r.workers| == |p.workers| && |r.deques| == |p.deques| && |r.clients| == |p.clients|
  {
    match act
    case Work(w, start) => if w < |p.workers| then WorkStep(p, w, start) else p
    case Spawn(w, x) => SpawnStep(p, w, x)
    case Finish(w) => FinishStep(p, w)
    case WorkNotify(w, victim) => WorkNotifyStep(p, w, victim)
    case Spurious(w) => Wake(p, w)
    case Enqueue(e, x) => EnqueueStep(p, e, x)
    case Client(e) => if e < |p.clients| then ClientStep(p, e) else p
    case ClientNotify(e, victim) => ClientNotifyStep(p, e, victim)
    case Destroy => DestroyStep(p)
    case Dtor => DtorStep(p)
  }
}
