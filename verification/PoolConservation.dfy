/**
 Every task that enters the pool is, at every moment, in exactly one place; and at the end of
 teardown it has been run exactly once or deleted unrun exactly once, never both.
 */
module PoolConservation {
  import opened Basics
  import opened Ring
  import D = Deque
  import DS = DequeSafety
  import DR = DequeRuns
  import opened Pool
  import opened PoolSafety
  import opened PoolWakeups

  // ------------------------------------------------------------------ counting

  function Sum<T>(f: T -> nat, xs: seq<T>): nat {
    if xs == [] then 0 else Sum(f, xs[..|xs| - 1]) + f(xs[|xs| - 1])
  }

  lemma {:induction false} SumUpdate<T>(f: T -> nat, xs: seq<T>, i: nat, x: T)
    requires i < |xs|
    ensures Sum(f, xs[i := x]) + f(xs[i]) == Sum(f, xs) + f(x)
  {
    var n := |xs| - 1;
    if i < n {
      SumUpdate(f, xs[..n], i, x);
      assert xs[i := x][..n] == xs[..n][i := x];
    } else {
      assert xs[i := x][..n] == xs[..n];
    }
  }

  lemma {:induction false} SumZero<T>(f: T -> nat, xs: seq<T>)
    ensures Sum(f, xs) == 0 <==> forall i :: 0 <= i < |xs| ==> f(xs[i]) == 0
  {
    if xs != [] {
      var n := |xs| - 1;
      SumZero(f, xs[..n]);
      assert forall i :: 0 <= i < n ==> xs[..n][i] == xs[i];
    }
  }

  /** How often a task is inside a deque, in a worker's hands, in an external caller's hands. */
  function InsideOf(x: Ptr): D.Deque -> nat { (s: D.Deque) => DR.Inside(s, x) }

  function HandOf(x: Ptr): WorkerPc -> nat { (pc: WorkerPc) => if pc.Running? && pc.x == x then 1 else 0 }

  function CarryOf(x: Ptr): ClientPc -> nat { (c: ClientPc) => if c.Pushing? && c.x == x then 1 else 0 }

  /** Tasks that are still waiting to run, or running. */
  function Live(p: Pool, x: Ptr): nat {
    DR.CountIn(p.queue, x) + Sum(InsideOf(x), p.deques) + Sum(HandOf(x), p.workers) + Sum(CarryOf(x), p.clients)
  }

  function Places(p: Pool, x: Ptr): nat {
    Live(p, x) + DR.CountIn(p.executed, x) + DR.CountIn(p.freed, x)
  }

  ghost predicate Balanced(p: Pool, x: Ptr) {
    Places(p, x) == DR.CountIn(p.enqueued, x)
  }

  // ------------------------------------------------------------------ a step of a worker

  /** The answers that a deque can give to the step that a worker takes. */
  predicate Expected(pc: WorkerPc, e: D.Event) {
    if pc == Search(InPop) then e.Quiet? || e.PopDone?
    else if pc.Search? && pc.at.InSteal? then e.Quiet? || e.StealDone?
    else !e.PopDone? && !e.StealDone?
  }

  lemma OwnerAnswers(s: D.Deque)
    ensures var e := D.OwnerStep(s).event;
      && !e.PushCalled? && !e.StealDone?
      && (PopPc(s.owner) ==> e.Quiet? || e.PopDone?)
      && (!PopPc(s.owner) ==> !e.PopDone?)
  {
  }

  lemma WorkExpected(p: Pool, w: nat)
    requires w < |p.workers| == |p.deques| && OwnerAgrees(p.workers[w], p.deques[w].owner)
    ensures var e := EventOf(p.deques, Wants(|p.deques|, w, p.workers[w]));
      Expected(p.workers[w], e) && !e.PushCalled?
  {
    OwnerAnswers(p.deques[w]);
  }

  /** The task in a worker's hands, the task that leaves a deque; null if none. */
  function InHand(pc: WorkerPc): Ptr { if pc.Running? then pc.x else NULL }

  function Delivered(e: D.Event): Ptr { if e.PopDone? || e.StealDone? then e.r else NULL }

  /** A worker takes what its deque step delivered, or the front of the global queue, or nothing. */
  ghost predicate HandsMove(p: Pool, w: nat, e: D.Event, p': Pool) {
    && w < |p.workers| == |p'.workers|
    && p'.enqueued == p.enqueued && p'.nested == p.nested && p'.executed == p.executed && p'.freed == p.freed
    && var x, x' := InHand(p.workers[w]), InHand(p'.workers[w]);
       || (p'.queue == p.queue && x' == x && Delivered(e) == NULL)
       || (p'.queue == p.queue && x == NULL && x' == Delivered(e))
       || (p.queue != [] && p'.queue == p.queue[1..] && x == NULL && x' == p.queue[0] && Delivered(e) == NULL)
  }

  lemma SearchHands(p: Pool, w: nat, start: nat, e: D.Event)
    requires w < |p.workers| == |p.deques| && p.workers[w].Search? && Expected(p.workers[w], e)
    ensures HandsMove(p, w, e, SearchStep(p, w, start, e))
  {
  }

  lemma RunHands(p: Pool, w: nat, e: D.Event)
    requires w < |p.workers| && p.workers[w].Running? && Expected(p.workers[w], e)
    ensures HandsMove(p, w, e, RunStep(p, w, e))
  {
  }

  lemma SleepHands(p: Pool, w: nat, e: D.Event)
    requires w < |p.workers| && p.workers[w].Sleep? && Expected(p.workers[w], e)
    ensures HandsMove(p, w, e, SleepStep(p, w))
  {
  }

  lemma AdvanceHands(p: Pool, w: nat, start: nat, e: D.Event)
    requires w < |p.workers| == |p.deques| && Expected(p.workers[w], e)
    ensures HandsMove(p, w, e, Advance(p, w, start, e))
  {
    match p.workers[w]
    case Search(_) => SearchHands(p, w, start, e);
    case Running(_, _) => RunHands(p, w, e);
    case Sleep(_) => SleepHands(p, w, e);
    case Exited =>
  }

  lemma HandsBalance(p: Pool, w: nat, e: D.Event, p': Pool, x: Ptr)
    requires HandsMove(p, w, e, p') && x != NULL
    ensures HandOf(x)(p'.workers[w]) + DR.CountIn(p'.queue, x)
         == HandOf(x)(p.workers[w]) + DR.CountIn(p.queue, x) + DR.Leaving(e, x)
  {
    if p'.queue != p.queue {
      assert p.queue == [p.queue[0]] + p.queue[1..];
      DR.CountConcat([p.queue[0]], p.queue[1..], x);
    }
  }

  /** What a deque gains or loses by the step a worker takes in it. */
  lemma TouchBalance(deques: seq<D.Deque>, t: Touched, x: Ptr)
    requires forall d :: 0 <= d < |deques| ==> D.Inv(deques[d])
    requires t.At? ==> t.d < |deques|
    requires x != NULL
    ensures Sum(InsideOf(x), Touching(deques, t)) + DR.Leaving(EventOf(deques, t), x)
         == Sum(InsideOf(x), deques) + DR.Entering(EventOf(deques, t), x)
  {
    if t.At? {
      SumUpdate(InsideOf(x), deques, t.d, D.Step(deques[t.d], t.a).next);
      DR.StepConserves(deques[t.d], t.a, x);
    }
  }

  /** The part of a worker's step outside the deque. */
  lemma WorkHands(p: Pool, w: nat, start: nat)
    requires w < |p.workers| == |p.deques| && OwnerAgrees(p.workers[w], p.deques[w].owner)
    ensures var e := EventOf(p.deques, Wants(|p.deques|, w, p.workers[w]));
      HandsMove(p, w, e, WorkStep(p, w, start)) && !e.PushCalled?
  {
    var t := Wants(|p.deques|, w, p.workers[w]);
    WorkExpected(p, w);
    AdvanceHands(p.(deques := Touching(p.deques, t)), w, start, EventOf(p.deques, t));
  }

  /** A worker's step only ever takes from the global queue, and leaves the rest of the books alone. */
  ghost predicate TakesOnly(p: Pool, p': Pool) {
    && p'.enqueued == p.enqueued && p'.nested == p.nested && p'.clients == p.clients
    && p'.freed == p.freed && p'.dtor == p.dtor
    && (forall x :: x in p'.queue ==> x in p.queue) && (p.queue == [] ==> p'.queue == [])
  }

  lemma HandsTakeOnly(p: Pool, w: nat, e: D.Event, p': Pool)
    requires HandsMove(p, w, e, p') && p'.clients == p.clients && p'.dtor == p.dtor
    ensures TakesOnly(p, p')
  {
  }

  lemma WorkTakesOnly(p: Pool, w: nat, start: nat)
    requires w < |p.workers| == |p.deques| && OwnerAgrees(p.workers[w], p.deques[w].owner)
    ensures TakesOnly(p, WorkStep(p, w, start))
  {
    WorkHands(p, w, start);
    WorkMovesItself(p, w, start);
    HandsTakeOnly(p, w, EventOf(p.deques, Wants(|p.deques|, w, p.workers[w])), WorkStep(p, w, start));
  }

  lemma Rebalance(p: Pool, w: nat, p': Pool, x: Ptr)
    requires Balanced(p, x) && w < |p.workers| == |p'.workers|
    requires p'.workers == p.workers[w := p'.workers[w]] && p'.clients == p.clients
    requires p'.executed == p.executed && p'.freed == p.freed && p'.enqueued == p.enqueued
    requires HandOf(x)(p'.workers[w]) + DR.CountIn(p'.queue, x) + Sum(InsideOf(x), p'.deques)
          == HandOf(x)(p.workers[w]) + DR.CountIn(p.queue, x) + Sum(InsideOf(x), p.deques)
    ensures Balanced(p', x)
  {
    SumUpdate(HandOf(x), p.workers, w, p'.workers[w]);
  }

  lemma EffectBalance(p: Pool, w: nat, t: Touched, p': Pool, x: Ptr)
    requires x != NULL && Balanced(p, x)
    requires forall d :: 0 <= d < |p.deques| ==> D.Inv(p.deques[d])
    requires t.At? ==> t.d < |p.deques|
    requires HandsMove(p, w, EventOf(p.deques, t), p') && !EventOf(p.deques, t).PushCalled?
    requires p'.workers == p.workers[w := p'.workers[w]] && p'.clients == p.clients
    requires p'.deques == Touching(p.deques, t)
    ensures Balanced(p', x)
  {
    HandsBalance(p, w, EventOf(p.deques, t), p', x);
    TouchBalance(p.deques, t, x);
    Rebalance(p, w, p', x);
  }

  lemma WorkBalance(p: Pool, w: nat, start: nat, x: Ptr)
    requires Shaped(p) && OwnersOk(p) && w < |p.workers| && x != NULL && Balanced(p, x)
    ensures Balanced(WorkStep(p, w, start), x)
  {
    WorkHands(p, w, start);
    WorkMovesItself(p, w, start);
    WorkTouches(p, w, start);
    EffectBalance(p, w, Wants(|p.deques|, w, p.workers[w]), WorkStep(p, w, start), x);
  }

  lemma WorkTouches(p: Pool, w: nat, start: nat)
    requires w < |p.workers| == |p.deques|
    ensures WorkStep(p, w, start).deques == Touching(p.deques, Wants(|p.deques|, w, p.workers[w]))
  {
    var t := Wants(|p.deques|, w, p.workers[w]);
    if !p.workers[w].Exited? {
      AdvanceMoves(p.(deques := Touching(p.deques, t)), w, start, EventOf(p.deques, t));
    }
  }

  // ------------------------------------------------------------------ the other steps

  lemma PushBalance(deques: seq<D.Deque>, w: nat, y: Ptr, x: Ptr)
    requires forall d :: 0 <= d < |deques| ==> D.Inv(deques[d])
    requires w < |deques| && deques[w].owner.Idle? && x != NULL && y != NULL
    ensures Sum(InsideOf(x), Touching(deques, At(w, D.Push(y)))) == Sum(InsideOf(x), deques) + DR.CountIn([y], x)
  {
    assert EventOf(deques, At(w, D.Push(y))) == D.PushCalled(y);
    TouchBalance(deques, At(w, D.Push(y)), x);
  }

  lemma SpawnedBalance(p: Pool, w: nat, y: Ptr, x: Ptr)
    requires w < |p.workers| == |p.deques| && p.workers[w].Running? && p.workers[w].run == Body && NewTask(p, y)
    requires Sum(InsideOf(x), Touching(p.deques, At(w, D.Push(y)))) == Sum(InsideOf(x), p.deques) + DR.CountIn([y], x)
    requires Balanced(p, x)
    ensures Balanced(SpawnStep(p, w, y), x)
  {
    SumUpdate(HandOf(x), p.workers, w, p.workers[w].(run := InPush));
    DR.CountConcat(p.enqueued, [y], x);
  }

  lemma SpawnBalance(p: Pool, w: nat, y: Ptr, x: Ptr)
    requires Shaped(p) && OwnersOk(p) && x != NULL && Balanced(p, x)
    ensures Balanced(SpawnStep(p, w, y), x)
  {
    if SpawnStep(p, w, y) != p {
      assert OwnerAgrees(p.workers[w], p.deques[w].owner);
      PushBalance(p.deques, w, y, x);
      SpawnedBalance(p, w, y, x);
    }
  }

  lemma FinishBalance(p: Pool, w: nat, x: Ptr)
    requires Balanced(p, x)
    ensures Balanced(FinishStep(p, w), x)
  {
    var p' := FinishStep(p, w);
    if p' != p {
      SumUpdate(HandOf(x), p.workers, w, p'.workers[w]);
      DR.CountConcat(p.executed, [p.workers[w].x], x);
    }
  }

  /** A wake-up moves no task. */
  lemma WakeBalance(p: Pool, v: nat, x: Ptr)
    requires Balanced(p, x)
    ensures Balanced(Wake(p, v), x)
  {
    if v < |p.workers| { SumUpdate(HandOf(x), p.workers, v, Sleep(Woken)); }
  }

  lemma {:induction false} WakeAllBalance(workers: seq<WorkerPc>, x: Ptr)
    ensures Sum(HandOf(x), WakeAll(workers)) == Sum(HandOf(x), workers)
  {
    if workers != [] {
      var n := |workers| - 1;
      WakeAllBalance(workers[..n], x);
      assert WakeAll(workers)[..n] == WakeAll(workers[..n]);
    }
  }

  lemma NotifierBalance(p: Pool, w: nat, x: Ptr)
    requires w < |p.workers| && p.workers[w].Running? && Balanced(p, x)
    ensures Balanced(Goto(p, w, p.workers[w].(run := AtRelease)), x)
  {
    SumUpdate(HandOf(x), p.workers, w, p.workers[w].(run := AtRelease));
  }

  lemma ClientMoves(p: Pool, e: nat, pc: ClientPc, x: Ptr)
    requires e < |p.clients| && !p.clients[e].Pushing? && !pc.Pushing? && Balanced(p, x)
    ensures Balanced(ClientGoto(p, e, pc), x)
  {
    SumUpdate(CarryOf(x), p.clients, e, pc);
  }

  lemma WorkNotifyBalance(p: Pool, w: nat, victim: nat, x: Ptr)
    requires Balanced(p, x)
    ensures Balanced(WorkNotifyStep(p, w, victim), x)
  {
    if WorkNotifyStep(p, w, victim) != p {
      WakeBalance(p, victim, x);
      NotifierBalance(Wake(p, victim), w, x);
    }
  }

  lemma ClientNotifyBalance(p: Pool, e: nat, victim: nat, x: Ptr)
    requires Balanced(p, x)
    ensures Balanced(ClientNotifyStep(p, e, victim), x)
  {
    if ClientNotifyStep(p, e, victim) != p {
      WakeBalance(p, victim, x);
      ClientMoves(Wake(p, victim), e, Unlocking, x);
    }
  }

  lemma EnqueueBalance(p: Pool, e: nat, y: Ptr, x: Ptr)
    requires Balanced(p, x)
    ensures Balanced(EnqueueStep(p, e, y), x)
  {
    if EnqueueStep(p, e, y) != p {
      SumUpdate(CarryOf(x), p.clients, e, Pushing(y));
      DR.CountConcat(p.enqueued, [y], x);
    }
  }

  lemma ClientPushes(p: Pool, e: nat, x: Ptr)
    requires e < |p.clients| && p.clients[e].Pushing? && Balanced(p, x)
    ensures Balanced(ClientStep(p, e), x)
  {
    SumUpdate(CarryOf(x), p.clients, e, Checking);
    DR.CountConcat(p.queue, [p.clients[e].x], x);
  }

  /** A step that touches no collection of tasks. */
  lemma SameTasks(p: Pool, p': Pool, x: Ptr)
    requires Balanced(p, x)
    requires p'.queue == p.queue && p'.deques == p.deques && p'.workers == p.workers && p'.clients == p.clients
    requires p'.executed == p.executed && p'.freed == p.freed && p'.enqueued == p.enqueued
    ensures Balanced(p', x)
  {
  }

  lemma ClientBalance(p: Pool, e: nat, x: Ptr)
    requires e < |p.clients| && Balanced(p, x)
    ensures Balanced(ClientStep(p, e), x)
  {
    match p.clients[e]
    case Pushing(_) => ClientPushes(p, e, x);
    case Checking => ClientMoves(p, e, if p.sleeping > 0 then Locking else Outside, x);
    case Locking => if p.mutex.Free? { ClientMoves(p.(mutex := ByClient(e)), e, Notifying, x); }
    case Unlocking => ClientMoves(p.(mutex := Free), e, Outside, x);
    case _ =>
  }

  lemma FreeDequesBalance(p: Pool, x: Ptr)
    requires Safe(p) && p.dtor.FreeDeques? && Balanced(p, x)
    ensures Balanced(DtorStep(p), x)
  {
    FreeingFindsNothing(p);
    SameTasks(p, DtorStep(p), x);
  }

  lemma DrainBalance(p: Pool, x: Ptr)
    requires Balanced(p, x)
    ensures Balanced(p.(queue := [], freed := p.freed + p.queue, dtor := Gone), x)
  {
    DR.CountConcat(p.freed, p.queue, x);
  }

  lemma DrainsQueue(p: Pool)
    requires p.dtor.FreeQueue?
    ensures DtorStep(p) == p.(queue := [], freed := p.freed + p.queue, dtor := Gone)
  {
  }

  lemma FreeQueueBalance(p: Pool, x: Ptr)
    requires p.dtor.FreeQueue? && Balanced(p, x)
    ensures Balanced(DtorStep(p), x)
  {
    DrainBalance(p, x);
    DrainsQueue(p);
  }

  lemma NotifyAllBalance(p: Pool, x: Ptr)
    requires p.dtor.DtorNotify? && Balanced(p, x)
    ensures Balanced(DtorStep(p), x)
  {
    WakeAllBalance(p.workers, x);
  }

  lemma JoiningMovesNothing(p: Pool)
    requires !p.dtor.FreeDeques? && !p.dtor.FreeQueue? && !p.dtor.DtorNotify?
    ensures DtorStep(p) == p.(mutex := DtorStep(p).mutex, dtor := DtorStep(p).dtor)
  {
  }

  lemma JoiningBalance(p: Pool, x: Ptr)
    requires !p.dtor.FreeDeques? && !p.dtor.FreeQueue? && !p.dtor.DtorNotify? && Balanced(p, x)
    ensures Balanced(DtorStep(p), x)
  {
    JoiningMovesNothing(p);
    SameTasks(p, DtorStep(p), x);
  }

  lemma DtorBalance(p: Pool, x: Ptr)
    requires Safe(p) && Balanced(p, x)
    ensures Balanced(Step(p, Dtor), x)
  {
    assert Step(p, Dtor) == DtorStep(p);
    if p.dtor.FreeDeques? {
      FreeDequesBalance(p, x);
    } else if p.dtor.FreeQueue? {
      FreeQueueBalance(p, x);
    } else if p.dtor.DtorNotify? {
      NotifyAllBalance(p, x);
    } else {
      JoiningBalance(p, x);
    }
  }

  lemma EnqueueCallBalance(p: Pool, e: nat, y: Ptr, x: Ptr)
    requires |p.workers| == |p.deques| && Balanced(p, x)
    ensures Balanced(Step(p, Enqueue(e, y)), x)
  {
    EnqueueBalance(p, e, y, x);
  }

  lemma ClientCallBalance(p: Pool, e: nat, x: Ptr)
    requires |p.workers| == |p.deques| && Balanced(p, x)
    ensures Balanced(Step(p, Client(e)), x)
  {
    if e < |p.clients| { ClientBalance(p, e, x); }
  }

  lemma ClientWakeBalance(p: Pool, e: nat, victim: nat, x: Ptr)
    requires |p.workers| == |p.deques| && Balanced(p, x)
    ensures Balanced(Step(p, ClientNotify(e, victim)), x)
  {
    ClientNotifyBalance(p, e, victim, x);
  }

  lemma WorkerWakeBalance(p: Pool, w: nat, victim: nat, x: Ptr)
    requires |p.workers| == |p.deques| && Balanced(p, x)
    ensures Balanced(Step(p, WorkNotify(w, victim)), x)
  {
    WorkNotifyBalance(p, w, victim, x);
  }

  lemma SpuriousBalance(p: Pool, w: nat, x: Ptr)
    requires |p.workers| == |p.deques| && Balanced(p, x)
    ensures Balanced(Step(p, Spurious(w)), x)
  {
    WakeBalance(p, w, x);
  }

  lemma DestroyBalance(p: Pool, x: Ptr)
    requires |p.workers| == |p.deques| && Balanced(p, x)
    ensures Balanced(Step(p, Destroy), x)
  {
    SameTasks(p, DestroyStep(p), x);
  }

  /** A worker, and the calls and the return of the task that it runs. */
  lemma WorkerBalance(p: Pool, act: Action, x: Ptr)
    requires Safe(p) && x != NULL && Balanced(p, x)
    requires act.Work? || act.Spawn? || act.Finish?
    ensures Balanced(Step(p, act), x)
  {
    if act.Work? {
      if act.w < |p.workers| { WorkBalance(p, act.w, act.start, x); }
    } else if act.Spawn? {
      SpawnBalance(p, act.w, act.x, x);
    } else {
      FinishBalance(p, act.w, x);
    }
  }

  lemma StepBalance(p: Pool, act: Action, x: Ptr)
    requires Safe(p) && x != NULL && Balanced(p, x)
    ensures Balanced(Step(p, act), x)
  {
    match act {
      case WorkNotify(w, victim) => WorkerWakeBalance(p, w, victim, x);
      case Spurious(w) => SpuriousBalance(p, w, x);
      case Enqueue(e, y) => EnqueueCallBalance(p, e, y, x);
      case Client(e) => ClientCallBalance(p, e, x);
      case ClientNotify(e, victim) => ClientWakeBalance(p, e, victim, x);
      case Destroy => DestroyBalance(p, x);
      case Dtor => DtorBalance(p, x);
      case _ => WorkerBalance(p, act, x);
    }
  }

  // ------------------------------------------------------------------ tasks are distinct, and know where they came from

  /** Allocations are distinct, and a task that another task enqueued never enters the global queue. */
  ghost predicate Origins(p: Pool) {
    && (forall x :: DR.CountIn(p.enqueued, x) <= 1)
    && NULL !in p.enqueued
    && (forall x :: x in p.nested ==> x in p.enqueued)
    && (forall x :: x in p.queue || x in p.freed ==> x !in p.nested)
    && (p.dtor.Gone? ==> p.queue == [])
    && (forall e :: 0 <= e < |p.clients| && p.clients[e].Pushing? ==> p.clients[e].x !in p.nested)
  }

  lemma NewIsNowhere(p: Pool, x: Ptr)
    requires NewTask(p, x) && Balanced(p, x)
    ensures x !in p.queue && x !in p.freed
    ensures forall e :: 0 <= e < |p.clients| && p.clients[e].Pushing? ==> p.clients[e].x != x
  {
    DR.CountZero(p.enqueued, x);
    DR.CountZero(p.queue, x);
    DR.CountZero(p.freed, x);
    SumZero(CarryOf(x), p.clients);
    assert forall e :: 0 <= e < |p.clients| ==> CarryOf(x)(p.clients[e]) == 0;
  }

  lemma EnqueuedOnce(q: seq<Ptr>, y: Ptr)
    requires (forall x :: DR.CountIn(q, x) <= 1) && y !in q
    ensures forall x :: DR.CountIn(q + [y], x) <= 1
  {
    DR.CountZero(q, y);
    forall x: Ptr ensures DR.CountIn(q + [y], x) <= 1 { DR.CountConcat(q, [y], x); }
  }

  lemma OriginsSpawn(p: Pool, w: nat, y: Ptr)
    requires |p.workers| == |p.deques| && Origins(p) && (y != NULL ==> Balanced(p, y))
    ensures Origins(SpawnStep(p, w, y))
  {
    if SpawnStep(p, w, y) != p {
      NewIsNowhere(p, y);
      EnqueuedOnce(p.enqueued, y);
    }
  }

  lemma OriginsEnqueue(p: Pool, e: nat, y: Ptr)
    requires Origins(p)
    ensures Origins(EnqueueStep(p, e, y))
  {
    if EnqueueStep(p, e, y) != p { EnqueuedOnce(p.enqueued, y); }
  }

  lemma OriginsFrame(p: Pool, p': Pool)
    requires Origins(p) && p'.enqueued == p.enqueued && p'.nested == p.nested
    requires forall x :: x in p'.queue || x in p'.freed ==> x in p.queue || x in p.freed
    requires p'.dtor.Gone? ==> p'.queue == []
    requires |p'.clients| == |p.clients|
    requires forall e :: 0 <= e < |p.clients| && p'.clients[e].Pushing? ==> p'.clients[e] == p.clients[e]
    ensures Origins(p')
  {
  }

  lemma OriginsClient(p: Pool, e: nat)
    requires Origins(p) && DtorOk(p) && e < |p.clients|
    ensures Origins(ClientStep(p, e))
  {
    if !p.clients[e].Pushing? {
      OriginsFrame(p, ClientStep(p, e));
    }
  }

  lemma OriginsDtor(p: Pool)
    requires Safe(p) && Origins(p)
    ensures Origins(DtorStep(p))
  {
    if p.dtor.FreeDeques? { FreeingFindsNothing(p); }
    OriginsFrame(p, DtorStep(p));
  }

  lemma OriginsWork(p: Pool, w: nat, start: nat)
    requires Safe(p) && Origins(p) && w < |p.workers|
    ensures Origins(WorkStep(p, w, start))
  {
    assert OwnerAgrees(p.workers[w], p.deques[w].owner);
    WorkTakesOnly(p, w, start);
    OriginsFrame(p, WorkStep(p, w, start));
  }

  lemma OriginsOthers(p: Pool, act: Action)
    requires |p.workers| == |p.deques| && Origins(p)
    requires act.Finish? || act.WorkNotify? || act.Spurious? || act.ClientNotify? || act.Destroy?
    ensures Origins(Step(p, act))
  {
    OriginsFrame(p, Step(p, act));
  }

  lemma OriginsStep(p: Pool, act: Action)
    requires Safe(p) && Origins(p) && (act.Spawn? && act.x != NULL ==> Balanced(p, act.x))
    ensures Origins(Step(p, act))
  {
    match act
    case Work(w, start) => if w < |p.workers| { OriginsWork(p, w, start); }
    case Spawn(w, y) => OriginsSpawn(p, w, y);
    case Enqueue(e, y) => OriginsEnqueue(p, e, y);
    case Client(e) => if e < |p.clients| { OriginsClient(p, e); }
    case Dtor => OriginsDtor(p);
    case _ => OriginsOthers(p, act);
  }

  // ------------------------------------------------------------------ over whole runs

  lemma {:induction false} AlwaysBalanced(n: nat, m: nat, capacity: nat, acts: seq<Action>, x: Ptr)
    requires PowerOfTwo(capacity) && x != NULL
    ensures Balanced(After(Init(n, m, capacity), acts), x)
  {
    if acts == [] {
      InitBalanced(n, m, capacity, x);
    } else {
      var before := acts[..|acts| - 1];
      AlwaysBalanced(n, m, capacity, before, x);
      AlwaysSafe(n, m, capacity, before);
      StepBalance(After(Init(n, m, capacity), before), acts[|acts| - 1], x);
    }
  }

  lemma {:induction false} AlwaysOrigins(n: nat, m: nat, capacity: nat, acts: seq<Action>)
    requires PowerOfTwo(capacity)
    ensures Origins(After(Init(n, m, capacity), acts))
  {
    if acts != [] {
      var before, act := acts[..|acts| - 1], acts[|acts| - 1];
      AlwaysOrigins(n, m, capacity, before);
      AlwaysSafe(n, m, capacity, before);
      if act.Spawn? && act.x != NULL { AlwaysBalanced(n, m, capacity, before, act.x); }
      OriginsStep(After(Init(n, m, capacity), before), act);
    }
  }

  lemma InitBalanced(n: nat, m: nat, capacity: nat, x: Ptr)
    requires PowerOfTwo(capacity) && x != NULL
    ensures Balanced(Init(n, m, capacity), x)
  {
    var p := Init(n, m, capacity);
    DS.InitOk(capacity);
    SumZero(InsideOf(x), p.deques);
    SumZero(HandOf(x), p.workers);
    SumZero(CarryOf(x), p.clients);
  }

  lemma OnePlace(p: Pool, x: Ptr)
    requires Origins(p) && Balanced(p, x) && x in p.enqueued
    ensures Places(p, x) == 1
  {
    DR.CountZero(p.enqueued, x);
    assert DR.CountIn(p.enqueued, x) <= 1;
  }

  /**
   In every reachable state a task that was ever enqueued is in exactly one place: the hands of
   the external caller, the global queue, one deque, the hands of one worker, executed, or
   deleted unrun.
   */
  lemma EveryTaskInOnePlace(n: nat, m: nat, capacity: nat, acts: seq<Action>, x: Ptr)
    requires PowerOfTwo(capacity)
    ensures var p := After(Init(n, m, capacity), acts); x in p.enqueued ==> Places(p, x) == 1
  {
    AlwaysOrigins(n, m, capacity, acts);
    if x in After(Init(n, m, capacity), acts).enqueued {
      AlwaysBalanced(n, m, capacity, acts, x);
      OnePlace(After(Init(n, m, capacity), acts), x);
    }
  }

  /** The destructor has joined every worker. */
  predicate Joined(p: Pool) {
    p.dtor.FreeDeques? || p.dtor.FreeQueue? || p.dtor.Gone?
  }

  lemma NothingLeftInside(p: Pool, x: Ptr)
    requires Safe(p) && Joined(p) && x != NULL
    ensures Live(p, x) == DR.CountIn(p.queue, x)
  {
    forall d | 0 <= d < |p.deques|
      ensures InsideOf(x)(p.deques[d]) == 0
    {
      assert p.workers[d].Exited?;
      assert OwnerAgrees(p.workers[d], p.deques[d].owner);
      assert D.Contents(p.deques[d]) == [];
    }
    SumZero(InsideOf(x), p.deques);
    SumZero(HandOf(x), p.workers);
    SumZero(CarryOf(x), p.clients);
  }

  lemma JoinedCounts(p: Pool, x: Ptr)
    requires Safe(p) && Origins(p) && Joined(p) && x in p.enqueued && Balanced(p, x)
    ensures DR.CountIn(p.executed, x) + DR.CountIn(p.queue, x) + DR.CountIn(p.freed, x) == 1
  {
    NothingLeftInside(p, x);
    DR.CountZero(p.enqueued, x);
    assert DR.CountIn(p.enqueued, x) <= 1;
  }

  /**
   After all joins every deque is empty, and a task was executed exactly once, or is still in
   the global queue, or was deleted from it unrun: exactly one of the three.
   */
  lemma AfterJoins(n: nat, m: nat, capacity: nat, acts: seq<Action>, x: Ptr)
    requires PowerOfTwo(capacity)
    requires Joined(After(Init(n, m, capacity), acts))
    ensures var p := After(Init(n, m, capacity), acts);
      && (forall d :: 0 <= d < |p.deques| ==> D.Contents(p.deques[d]) == [])
      && (x in p.enqueued ==>
            DR.CountIn(p.executed, x) + DR.CountIn(p.queue, x) + DR.CountIn(p.freed, x) == 1)
  {
    AlwaysSafe(n, m, capacity, acts);
    AlwaysOrigins(n, m, capacity, acts);
    var p := After(Init(n, m, capacity), acts);
    if x in p.enqueued {
      AlwaysBalanced(n, m, capacity, acts, x);
      JoinedCounts(p, x);
    }
  }

  /** A task that a worker's task enqueued is executed before the last join, exactly once. */
  lemma NestedTasksAreExecuted(n: nat, m: nat, capacity: nat, acts: seq<Action>, x: Ptr)
    requires PowerOfTwo(capacity)
    requires var p := After(Init(n, m, capacity), acts); Joined(p) && x in p.nested
    ensures DR.CountIn(After(Init(n, m, capacity), acts).executed, x) == 1
  {
    AfterJoins(n, m, capacity, acts, x);
    AlwaysOrigins(n, m, capacity, acts);
    DR.CountZero(After(Init(n, m, capacity), acts).queue, x);
    DR.CountZero(After(Init(n, m, capacity), acts).freed, x);
  }

  /** After teardown every task has been run or deleted unrun: exactly once, and never both. */
  lemma TeardownSettlesEveryTask(n: nat, m: nat, capacity: nat, acts: seq<Action>, x: Ptr)
    requires PowerOfTwo(capacity)
    requires var p := After(Init(n, m, capacity), acts); p.dtor.Gone? && x in p.enqueued
    ensures var p := After(Init(n, m, capacity), acts);
      DR.CountIn(p.executed, x) + DR.CountIn(p.freed, x) == 1
  {
    AfterJoins(n, m, capacity, acts, x);
    AlwaysOrigins(n, m, capacity, acts);
  }
}
