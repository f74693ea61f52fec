/**
 What every step of the pool keeps: the deques inside stay sound, the mutex has one holder,
 the sleeper count is exact, and a worker that found nothing has an empty deque.
 */
module PoolSafety {
  import opened Basics
  import opened Ring
  import D = Deque
  import DS = DequeSafety
  import opened Pool

  // ------------------------------------------------------------------ the invariant

  ghost predicate Shaped(p: Pool) {
    && |p.workers| == |p.deques| >= 1
    && (forall d :: 0 <= d < |p.deques| ==> D.Inv(p.deques[d]))
  }

  predicate PopPc(o: D.OwnerPc) {
    o.PopArray? || o.PopStore? || o.PopTop? || o.PopRead? || o.PopCas? || o.PopRestore?
  }

  /** A deque's owner is inside pop or push exactly while its worker is. */
  predicate OwnerAgrees(pc: WorkerPc, o: D.OwnerPc) {
    if pc == Search(InPop) then PopPc(o)
    else if pc.Running? && pc.run == InPush then !PopPc(o) && !o.Idle?
    else o.Idle?
  }

  ghost predicate OwnersOk(p: Pool)
    requires |p.workers| == |p.deques|
  {
    forall w :: 0 <= w < |p.workers| ==> OwnerAgrees(p.workers[w], p.deques[w].owner)
  }

  predicate Holds(pc: WorkerPc) {
    || (pc.Running? && (pc.run.AtNotify? || pc.run.AtRelease?))
    || (pc.Sleep? && !(pc.zz.AtLock? || pc.zz.Blocked? || pc.zz.Woken?))
  }

  ghost predicate MutexOk(p: Pool) {
    && (forall w :: 0 <= w < |p.workers| ==> (Holds(p.workers[w]) <==> p.mutex == ByWorker(w)))
    && (forall e :: 0 <= e < |p.clients| ==>
          (p.clients[e].Notifying? || p.clients[e].Unlocking? <==> p.mutex == ByClient(e)))
    && (p.dtor.DtorNotify? || p.dtor.DtorUnlock? <==> p.mutex == ByDtor)
  }

  /** Between the worker's increment and decrement of `sleeping_workers`. */
  predicate Sleeper(pc: WorkerPc) {
    pc.Sleep? && (pc.zz.PredStop? || pc.zz.Blocked? || pc.zz.Woken? || pc.zz.SubSleeper? || Probing(pc))
  }

  /** Evaluating the predicate of the condition variable, having read stop as false. */
  predicate Probing(pc: WorkerPc) {
    pc.Sleep? && (pc.zz.ScanQueue? || pc.zz.ScanBottom? || pc.zz.ScanTop?) && pc.zz.waiting
  }

  function Sleepers(workers: seq<WorkerPc>): set<nat> {
    set w | 0 <= w < |workers| && Sleeper(workers[w])
  }

  ghost predicate SleepOk(p: Pool) {
    p.sleeping == |Sleepers(p.workers)|
  }

  /** From a pop that returned null until the next task: the worker's own deque is empty. */
  predicate Drained(pc: WorkerPc) {
    || (pc.Search? && !pc.at.AtPop? && !pc.at.InPop?)
    || (pc.Sleep? && pc.zz != Unlock(false))
    || pc.Exited?
  }

  ghost predicate DrainOk(p: Pool)
    requires |p.workers| == |p.deques|
  {
    forall w :: 0 <= w < |p.workers| && Drained(p.workers[w]) ==> D.Contents(p.deques[w]) == []
  }

  /** The flag has been raised and every blocked worker notified. */
  predicate Notified(dtor: DtorPc) {
    !(dtor.Alive? || dtor.DtorLock? || dtor.DtorNotify?)
  }

  /** On the way to blocking: the predicate has already read stop as false. */
  predicate Committed(pc: WorkerPc) {
    pc == Sleep(Blocked) || Probing(pc)
  }

  predicate Leaving(pc: WorkerPc) {
    pc.Exited? || pc == Sleep(Unlock(true))
  }

  ghost predicate DtorOk(p: Pool) {
    && (p.stop <==> !p.dtor.Alive?)
    && (!p.dtor.Alive? ==> forall e :: 0 <= e < |p.clients| ==> p.clients[e].Outside?)
    && (forall w :: 0 <= w < |p.workers| && Leaving(p.workers[w]) ==> p.stop)
    && (Notified(p.dtor) ==> forall w :: 0 <= w < |p.workers| ==> !Committed(p.workers[w]))
    && (p.dtor.Joining? ==> forall w :: 0 <= w < |p.workers| && w < p.dtor.j ==> p.workers[w].Exited?)
    && (p.dtor.FreeDeques? || p.dtor.FreeQueue? || p.dtor.Gone? ==>
          forall w :: 0 <= w < |p.workers| ==> p.workers[w].Exited?)
  }

  ghost predicate Safe(p: Pool) {
    Shaped(p) && OwnersOk(p) && MutexOk(p) && SleepOk(p) && DrainOk(p) && DtorOk(p)
  }

  // ------------------------------------------------------------------ moves of one worker

  predicate MutexMoves(w: nat, pc: WorkerPc, m: Holder, pc': WorkerPc, m': Holder) {
    || (m' == m && (Holds(pc') <==> Holds(pc)))
    || (m == Free && m' == ByWorker(w) && !Holds(pc) && Holds(pc'))
    || (m' == Free && Holds(pc) && !Holds(pc'))
  }

  function One(b: bool): int { if b then 1 else 0 }

  /** What a step of one worker may do to the state shared with the others, deques aside. */
  ghost predicate Moves(p: Pool, w: nat, p': Pool) {
    && w < |p.workers| && |p'.workers| == |p.workers|
    && var pc, pc' := p.workers[w], p'.workers[w];
    && p'.workers == p.workers[w := pc']
    && p'.deques == p.deques && p'.clients == p.clients && p'.dtor == p.dtor && p'.stop == p.stop
    && MutexMoves(w, pc, p.mutex, pc', p'.mutex)
    && p'.sleeping == p.sleeping + One(Sleeper(pc')) - One(Sleeper(pc))
    && (Leaving(pc') ==> p.stop || Leaving(pc))
    && (Committed(pc') ==> Committed(pc) || !p.stop)
    && !pc.Exited?
  }

  lemma LookMoves(p: Pool, w: nat, start: nat, e: D.Event)
    requires w < |p.workers| == |p.deques| && p.workers[w].Search?
    requires p.workers[w].at.AtPop? || p.workers[w].at.InPop? || p.workers[w].at.AtQueue? || p.workers[w].at.AtStop?
    ensures Moves(p, w, SearchStep(p, w, start, e))
  {
  }

  lemma SweepMoves(p: Pool, w: nat, start: nat, e: D.Event)
    requires w < |p.workers| == |p.deques| && p.workers[w].Search?
    requires p.workers[w].at.AtSweep? || p.workers[w].at.Sweeping? || p.workers[w].at.InSteal?
    ensures Moves(p, w, SearchStep(p, w, start, e))
  {
  }

  lemma SearchMoves(p: Pool, w: nat, start: nat, e: D.Event)
    requires w < |p.workers| == |p.deques| && p.workers[w].Search?
    ensures Moves(p, w, SearchStep(p, w, start, e))
  {
    var at := p.workers[w].at;
    if at.AtSweep? || at.Sweeping? || at.InSteal? { SweepMoves(p, w, start, e); } else { LookMoves(p, w, start, e); }
  }

  lemma RunMoves(p: Pool, w: nat, e: D.Event)
    requires w < |p.workers| && p.workers[w].Running?
    ensures Moves(p, w, RunStep(p, w, e))
  {
  }

  lemma ScanMoves(p: Pool, w: nat)
    requires w < |p.workers| && p.workers[w].Sleep?
    requires p.workers[w].zz.ScanQueue? || p.workers[w].zz.ScanBottom? || p.workers[w].zz.ScanTop?
    ensures Moves(p, w, SleepStep(p, w))
  {
  }

  lemma LockMoves(p: Pool, w: nat)
    requires w < |p.workers| && p.workers[w].Sleep?
    requires p.workers[w].zz.AtLock? || p.workers[w].zz.Woken? || p.workers[w].zz.Unlock? || p.workers[w].zz.Blocked?
    ensures Moves(p, w, SleepStep(p, w))
  {
  }

  lemma LockedMoves(p: Pool, w: nat)
    requires w < |p.workers| && p.workers[w].Sleep?
    requires p.workers[w].zz.AtStopLocked? || p.workers[w].zz.AddSleeper? || p.workers[w].zz.PredStop? || p.workers[w].zz.SubSleeper?
    ensures Moves(p, w, SleepStep(p, w))
  {
  }

  lemma SleepMoves(p: Pool, w: nat)
    requires w < |p.workers| && p.workers[w].Sleep?
    ensures Moves(p, w, SleepStep(p, w))
  {
    var zz := p.workers[w].zz;
    if zz.ScanQueue? || zz.ScanBottom? || zz.ScanTop? {
      ScanMoves(p, w);
    } else if zz.AtLock? || zz.Woken? || zz.Unlock? || zz.Blocked? {
      LockMoves(p, w);
    } else {
      LockedMoves(p, w);
    }
  }

  lemma AdvanceMoves(p: Pool, w: nat, start: nat, e: D.Event)
    requires w < |p.workers| == |p.deques| && !p.workers[w].Exited?
    ensures Moves(p, w, Advance(p, w, start, e))
  {
    match p.workers[w]
    case Search(_) => SearchMoves(p, w, start, e);
    case Running(_, _) => RunMoves(p, w, e);
    case Sleep(_) => SleepMoves(p, w);
  }

  predicate OwnerAction(a: D.Action) {
    a.Push? || a.Pop? || a.Owner?
  }

  /** A worker acts as the owner of its own deque only, and as a thief on the others. */
  ghost predicate Acts(p: Pool, w: nat, t: Touched, p': Pool) {
    && w < |p.workers| == |p.deques|
    && Moves(p.(deques := Touching(p.deques, t)), w, p')
    && (t.At? ==> t.d < |p.deques| && (OwnerAction(t.a) ==> t.d == w && !Drained(p.workers[w])))
    && OwnerAgrees(p'.workers[w], p'.deques[w].owner)
    && (Drained(p'.workers[w]) && !Drained(p.workers[w]) ==> D.Contents(p'.deques[w]) == [])
  }

  // ------------------------------------------------------------------ each action is such a move

  lemma OwnerPcMoves(s: D.Deque)
    ensures var o := D.OwnerStep(s);
      && (PopPc(s.owner) ==> if o.event.PopDone? then o.next.owner.Idle? else PopPc(o.next.owner))
      && (!PopPc(s.owner) && !s.owner.Idle? ==>
            if o.event.PushDone? then o.next.owner.Idle? else !PopPc(o.next.owner) && !o.next.owner.Idle?)
  {
  }

  lemma ThiefTouch(s: D.Deque, a: D.Action)
    requires D.Inv(s) && !OwnerAction(a)
    ensures D.Step(s, a).next.owner == s.owner
    ensures D.Contents(s) == [] ==> D.Contents(D.Step(s, a).next) == []
  {
    DS.StepRefines(s, a);
  }

  lemma NullPop(s: D.Deque)
    requires D.Inv(s) && D.OwnerStep(s).event == D.PopDone(NULL)
    ensures D.Contents(D.OwnerStep(s).next) == []
  {
    DS.OwnerStepOk(s);
  }

  predicate Busy(pc: WorkerPc) {
    pc == Search(InPop) || (pc.Running? && pc.run == InPush)
  }

  /** How the deque's answer to its step decides where a worker goes. */
  predicate Answers(pc: WorkerPc, e: D.Event, pc': WorkerPc) {
    if pc == Search(AtPop) then pc' == Search(InPop)
    else if pc == Search(InPop) then
      if e.PopDone? then !Busy(pc') && (Drained(pc') ==> e.r == NULL) else pc' == pc
    else if pc.Running? && pc.run == InPush then
      pc' == Running(pc.x, if e.PushDone? then AtCheck else InPush)
    else !Busy(pc') && (Drained(pc') ==> Drained(pc))
  }

  lemma SearchAnswers(p: Pool, w: nat, start: nat, e: D.Event)
    requires w < |p.workers| == |p.deques| && p.workers[w].Search?
    ensures Answers(p.workers[w], e, SearchStep(p, w, start, e).workers[w])
  {
  }

  lemma SleepAnswers(p: Pool, w: nat, e: D.Event)
    requires w < |p.workers| && p.workers[w].Sleep?
    ensures Answers(p.workers[w], e, SleepStep(p, w).workers[w])
  {
  }

  lemma AdvanceAnswers(p: Pool, w: nat, start: nat, e: D.Event)
    requires w < |p.workers| == |p.deques| && !p.workers[w].Exited?
    ensures Answers(p.workers[w], e, Advance(p, w, start, e).workers[w])
  {
    match p.workers[w]
    case Search(_) => SearchAnswers(p, w, start, e);
    case Running(_, _) =>
    case Sleep(_) => SleepAnswers(p, w, e);
  }

  /** The worker's next program counter fits what its deque's owner is doing. */
  lemma RolesFit(s: D.Deque, s': D.Deque, pc: WorkerPc, a: D.Action, pc': WorkerPc)
    requires D.Inv(s) && OwnerAgrees(pc, s.owner) && s' == D.Step(s, a).next
    requires Answers(pc, D.Step(s, a).event, pc')
    requires pc == Search(AtPop) ==> a.Pop?
    requires Busy(pc) ==> a.Owner?
    requires pc != Search(AtPop) && !Busy(pc) ==> !OwnerAction(a)
    ensures OwnerAgrees(pc', s'.owner)
    ensures Drained(pc') && !Drained(pc) ==> D.Contents(s') == []
  {
    if a.Owner? {
      OwnerPcMoves(s);
      if D.OwnerStep(s).event == D.PopDone(NULL) { NullPop(s); }
    } else if !OwnerAction(a) {
      ThiefTouch(s, a);
    }
  }

  lemma WorkActs(p: Pool, w: nat, start: nat)
    requires Safe(p) && w < |p.workers| && !p.workers[w].Exited?
    ensures Acts(p, w, Wants(|p.deques|, w, p.workers[w]), WorkStep(p, w, start))
  {
    var t := Wants(|p.deques|, w, p.workers[w]);
    var p1, e := p.(deques := Touching(p.deques, t)), EventOf(p.deques, t);
    AdvanceMoves(p1, w, start, e);
    AdvanceAnswers(p1, w, start, e);
    if t.At? && t.d == w {
      RolesFit(p.deques[w], p1.deques[w], p.workers[w], t.a, WorkStep(p, w, start).workers[w]);
    }
  }

  lemma SpawnActs(p: Pool, w: nat, x: Ptr)
    requires Safe(p) && SpawnStep(p, w, x) != p
    ensures Acts(p, w, At(w, D.Push(x)), SpawnStep(p, w, x))
  {
  }

  lemma FinishActs(p: Pool, w: nat)
    requires Safe(p) && FinishStep(p, w) != p
    ensures Acts(p, w, Nothing, FinishStep(p, w))
  {
  }

  lemma WakeActs(p: Pool, v: nat)
    requires Safe(p)
    ensures Wake(p, v) == p || Acts(p, v, Nothing, Wake(p, v))
  {
  }

  // ------------------------------------------------------------------ moves keep the invariant

  lemma ActsInv(p: Pool, w: nat, t: Touched, p': Pool)
    requires Shaped(p) && Acts(p, w, t, p')
    ensures Shaped(p')
  {
    if t.At? { DS.StepRefines(p.deques[t.d], t.a); }
  }

  lemma ActsOwners(p: Pool, w: nat, t: Touched, p': Pool)
    requires Shaped(p) && OwnersOk(p) && DrainOk(p) && Acts(p, w, t, p')
    ensures |p'.workers| == |p'.deques| && OwnersOk(p') && DrainOk(p')
  {
    if t.At? && !OwnerAction(t.a) { ThiefTouch(p.deques[t.d], t.a); }
  }

  lemma SleeperMoves(workers: seq<WorkerPc>, w: nat, pc: WorkerPc)
    requires w < |workers|
    ensures |Sleepers(workers[w := pc])| == |Sleepers(workers)| + One(Sleeper(pc)) - One(Sleeper(workers[w]))
  {
    var s, s' := Sleepers(workers), Sleepers(workers[w := pc]);
    assert s - {w} == s' - {w};
    assert s == if Sleeper(workers[w]) then (s - {w}) + {w} else s - {w};
    assert s' == if Sleeper(pc) then (s' - {w}) + {w} else s' - {w};
  }

  lemma ActsLocks(p: Pool, w: nat, t: Touched, p': Pool)
    requires Safe(p) && Acts(p, w, t, p')
    ensures MutexOk(p') && SleepOk(p') && DtorOk(p')
  {
    SleeperMoves(p.workers, w, p'.workers[w]);
  }

  lemma ActsSafe(p: Pool, w: nat, t: Touched, p': Pool)
    requires Safe(p) && Acts(p, w, t, p')
    ensures Safe(p')
  {
    ActsInv(p, w, t, p');
    ActsOwners(p, w, t, p');
    ActsLocks(p, w, t, p');
  }

  /** A step that leaves workers, deques and the sleeper count alone concerns the locks only. */
  lemma OnlyLocks(p: Pool, p': Pool)
    requires Safe(p)
    requires p'.workers == p.workers && p'.deques == p.deques && p'.sleeping == p.sleeping
    requires MutexOk(p') && DtorOk(p')
    ensures Safe(p')
  {
  }

  lemma ClientLocks(p: Pool, e: nat)
    requires MutexOk(p) && DtorOk(p) && e < |p.clients|
    ensures MutexOk(ClientStep(p, e)) && DtorOk(ClientStep(p, e))
  {
  }

  lemma EnqueueLocks(p: Pool, e: nat, x: Ptr)
    requires MutexOk(p) && DtorOk(p)
    ensures MutexOk(EnqueueStep(p, e, x)) && DtorOk(EnqueueStep(p, e, x))
  {
  }

  lemma EnqueueSafe(p: Pool, e: nat, x: Ptr)
    requires Safe(p)
    ensures Safe(EnqueueStep(p, e, x))
  {
    EnqueueLocks(p, e, x);
    OnlyLocks(p, EnqueueStep(p, e, x));
  }

  lemma ClientSafe(p: Pool, e: nat)
    requires Safe(p) && e < |p.clients|
    ensures Safe(ClientStep(p, e))
  {
    ClientLocks(p, e);
    OnlyLocks(p, ClientStep(p, e));
  }

  /** The second half of notify_one: the notifier goes on to release the mutex. */
  lemma NotifierSafe(p: Pool, w: nat)
    requires Safe(p) && w < |p.workers| && p.workers[w].Running? && p.workers[w].run == AtNotify
    ensures Safe(Goto(p, w, p.workers[w].(run := AtRelease)))
  {
    ActsSafe(p, w, Nothing, Goto(p, w, p.workers[w].(run := AtRelease)));
  }

  lemma ClientNotifierSafe(p: Pool, e: nat)
    requires Safe(p) && e < |p.clients| && p.clients[e].Notifying?
    ensures Safe(ClientGoto(p, e, Unlocking))
  {
  }

  lemma WakeSafe(p: Pool, v: nat)
    requires Safe(p)
    ensures Safe(Wake(p, v))
  {
    WakeActs(p, v);
    if Wake(p, v) != p { ActsSafe(p, v, Nothing, Wake(p, v)); }
  }

  /** After all joins the destructor of a deque finds nothing to delete. */
  lemma FreeingFindsNothing(p: Pool)
    requires Safe(p) && p.dtor.FreeDeques?
    ensures DtorStep(p) == p.(dtor := DtorStep(p).dtor)
  {
    var j := p.dtor.j;
    if j < |p.deques| {
      var s := p.deques[j];
      assert p.workers[j].Exited?;
      assert D.Inv(s) && s.owner.Idle? && D.Contents(s) == [];
      assert s.top == s.bottom;
      assert p.freed + [] == p.freed;
    }
  }

  lemma NotifyAllLocks(p: Pool)
    requires MutexOk(p) && DtorOk(p) && p.dtor.DtorNotify?
    ensures MutexOk(DtorStep(p)) && DtorOk(DtorStep(p))
  {
  }

  lemma NotifyAllSafe(p: Pool)
    requires Safe(p) && p.dtor.DtorNotify?
    ensures Safe(DtorStep(p))
  {
    var p' := DtorStep(p);
    NotifyAllLocks(p);
    assert Sleepers(p'.workers) == Sleepers(p.workers);
    assert p'.deques == p.deques && p'.sleeping == p.sleeping;
  }

  lemma DtorLocks(p: Pool)
    requires MutexOk(p) && DtorOk(p) && !p.dtor.DtorNotify?
    ensures MutexOk(DtorStep(p)) && DtorOk(DtorStep(p))
  {
  }

  lemma DestroyLocks(p: Pool)
    requires MutexOk(p) && DtorOk(p)
    ensures MutexOk(DestroyStep(p)) && DtorOk(DestroyStep(p))
  {
  }

  lemma DtorSafe(p: Pool)
    requires Safe(p)
    ensures Safe(DtorStep(p))
  {
    if p.dtor.DtorNotify? {
      NotifyAllSafe(p);
    } else {
      DtorLocks(p);
      if p.dtor.FreeDeques? { FreeingFindsNothing(p); }
      OnlyLocks(p, DtorStep(p));
    }
  }

  lemma WakeSparesRunners(p: Pool, w: nat, victim: nat)
    requires w < |p.workers| && p.workers[w].Running?
    ensures Wake(p, victim).workers[w] == p.workers[w]
  {
  }

  lemma WorkNotifySafe(p: Pool, w: nat, victim: nat)
    requires Safe(p)
    ensures Safe(WorkNotifyStep(p, w, victim))
  {
    if WorkNotifyStep(p, w, victim) != p {
      WakeSafe(p, victim);
      WakeSparesRunners(p, w, victim);
      NotifierSafe(Wake(p, victim), w);
    }
  }

  lemma ClientNotifySafe(p: Pool, e: nat, victim: nat)
    requires Safe(p)
    ensures Safe(ClientNotifyStep(p, e, victim))
  {
    if ClientNotifyStep(p, e, victim) != p {
      WakeSafe(p, victim);
      ClientNotifierSafe(Wake(p, victim), e);
    }
  }

  lemma DestroySafe(p: Pool)
    requires Safe(p)
    ensures Safe(DestroyStep(p))
  {
    DestroyLocks(p);
    OnlyLocks(p, DestroyStep(p));
  }

  lemma WorkSafe(p: Pool, w: nat, start: nat)
    requires Safe(p) && w < |p.workers|
    ensures Safe(WorkStep(p, w, start))
  {
    if !p.workers[w].Exited? {
      WorkActs(p, w, start);
      ActsSafe(p, w, Wants(|p.deques|, w, p.workers[w]), WorkStep(p, w, start));
    }
  }

  /** The steps of a worker and of the task that it runs. */
  lemma WorkerSafe(p: Pool, act: Action)
    requires Safe(p) && (act.Work? || act.Spawn? || act.Finish?)
    ensures Safe(Step(p, act))
  {
    match act
    case Work(w, start) => if w < |p.workers| { WorkSafe(p, w, start); }
    case Spawn(w, x) =>
      if SpawnStep(p, w, x) != p { SpawnActs(p, w, x); ActsSafe(p, w, At(w, D.Push(x)), SpawnStep(p, w, x)); }
    case Finish(w) =>
      if FinishStep(p, w) != p { FinishActs(p, w); ActsSafe(p, w, Nothing, FinishStep(p, w)); }
  }

  lemma WorkerNotifySafe(p: Pool, w: nat, victim: nat)
    requires Safe(p)
    ensures Safe(Step(p, WorkNotify(w, victim)))
  {
    WorkNotifySafe(p, w, victim);
  }

  lemma CallerNotifySafe(p: Pool, e: nat, victim: nat)
    requires Safe(p)
    ensures Safe(Step(p, ClientNotify(e, victim)))
  {
    ClientNotifySafe(p, e, victim);
  }

  lemma SpuriousSafe(p: Pool, w: nat)
    requires Safe(p)
    ensures Safe(Step(p, Spurious(w)))
  {
    WakeSafe(p, w);
  }

  lemma CallSafe(p: Pool, e: nat, x: Ptr)
    requires Safe(p)
    ensures Safe(Step(p, Enqueue(e, x)))
  {
    EnqueueSafe(p, e, x);
  }

  lemma CallerSafe(p: Pool, e: nat)
    requires Safe(p)
    ensures Safe(Step(p, Client(e)))
  {
    if e < |p.clients| { ClientSafe(p, e); }
  }

  lemma DestructorSafe(p: Pool, act: Action)
    requires Safe(p) && (act.Destroy? || act.Dtor?)
    ensures Safe(Step(p, act))
  {
    if act.Destroy? { DestroySafe(p); } else { DtorSafe(p); }
  }

  /** Every step of the pool keeps the invariant. */
  lemma StepSafe(p: Pool, act: Action)
    requires Safe(p)
    ensures Safe(Step(p, act))
  {
    match act {
      case WorkNotify(w, victim) => WorkerNotifySafe(p, w, victim);
      case Spurious(w) => SpuriousSafe(p, w);
      case Enqueue(e, x) => CallSafe(p, e, x);
      case Client(e) => CallerSafe(p, e);
      case ClientNotify(e, victim) => CallerNotifySafe(p, e, victim);
      case Destroy => DestructorSafe(p, act);
      case Dtor => DestructorSafe(p, act);
      case _ => WorkerSafe(p, act);
    }
  }

  lemma InitSafe(n: nat, m: nat, capacity: nat)
    requires PowerOfTwo(capacity)
    ensures Safe(Init(n, m, capacity))
  {
    DS.InitOk(capacity);
    assert Sleepers(Init(n, m, capacity).workers) == {};
  }
}
