/**
 The calls into the pool, when nobody gets in their way: an enqueue appends its task and wakes a
 sleeper if there is one, from outside and from inside a task alike, and the destructor gets
 through once the workers have left.
 */
module PoolCalls {
  import opened Basics
  import opened Ring
  import opened Iteration
  import D = Deque
  import opened Pool
  import opened PoolWakeups

  // ------------------------------------------------------------------ enqueue from outside

  lemma CallSteps(p: Pool, e: nat, x: Ptr)
    requires |p.workers| == |p.deques| && e < |p.clients| && p.clients[e].Outside? && p.dtor.Alive? && NewTask(p, x)
    ensures Step(Step(p, Enqueue(e, x)), Client(e))
      == ClientGoto(p.(queue := p.queue + [x], enqueued := p.enqueued + [x]), e, Checking)
  {
  }

  lemma CheckSteps(p: Pool, e: nat)
    requires |p.workers| == |p.deques| && e < |p.clients| && p.clients[e].Checking?
    ensures Step(p, Client(e)) == ClientGoto(p, e, if p.sleeping > 0 then Locking else Outside)
  {
  }

  lemma LockSteps(p: Pool, e: nat)
    requires |p.workers| == |p.deques| && e < |p.clients| && p.clients[e].Locking? && p.mutex.Free?
    ensures Step(p, Client(e)) == ClientGoto(p.(mutex := ByClient(e)), e, Notifying)
  {
  }

  lemma NotifySteps(p: Pool, e: nat, v: nat)
    requires |p.workers| == |p.deques| && e < |p.clients| && p.clients[e].Notifying?
    requires v < |p.workers| && p.workers[v] == Sleep(Blocked)
    ensures Step(p, ClientNotify(e, v)) == ClientGoto(Goto(p, v, Sleep(Woken)), e, Unlocking)
  {
  }

  lemma UnlockSteps(p: Pool, e: nat)
    requires |p.workers| == |p.deques| && e < |p.clients| && p.clients[e].Unlocking?
    ensures Step(p, Client(e)) == ClientGoto(p.(mutex := Free), e, Outside)
  {
  }

  lemma BackOutside(p: Pool, e: nat, pc: ClientPc)
    requires e < |p.clients| && p.clients[e].Outside?
    ensures ClientGoto(ClientGoto(p, e, pc), e, Outside) == p
  {
    assert p.clients[e := pc][e := Outside] == p.clients;
  }

  /** With no sleeper, an enqueue from outside appends its task and is done. */
  lemma EnqueueAppends(p: Pool, e: nat, x: Ptr)
    requires |p.workers| == |p.deques| && e < |p.clients| && p.clients[e].Outside? && p.dtor.Alive? && NewTask(p, x)
    requires p.sleeping <= 0
    ensures Step(Step(Step(p, Enqueue(e, x)), Client(e)), Client(e))
      == p.(queue := p.queue + [x], enqueued := p.enqueued + [x])
  {
    var q := p.(queue := p.queue + [x], enqueued := p.enqueued + [x]);
    CallSteps(p, e, x);
    CheckSteps(ClientGoto(q, e, Checking), e);
    BackOutside(q, e, Checking);
  }

  /** The caller sees a sleeper, takes the mutex, wakes worker `v` and lets go. */
  lemma CallerWakes(p: Pool, e: nat, v: nat)
    requires |p.workers| == |p.deques| && e < |p.clients| && p.clients[e].Checking? && p.sleeping > 0 && p.mutex.Free?
    requires v < |p.workers| && p.workers[v] == Sleep(Blocked)
    ensures Step(Step(Step(Step(p, Client(e)), Client(e)), ClientNotify(e, v)), Client(e))
      == ClientGoto(Goto(p, v, Sleep(Woken)), e, Outside)
  {
    CheckSteps(p, e);
    var p1 := Step(p, Client(e));
    LockSteps(p1, e);
    var p2 := Step(p1, Client(e));
    NotifySteps(p2, e, v);
    var p3 := Step(p2, ClientNotify(e, v));
    UnlockSteps(p3, e);
    assert p.clients[e := Locking][e := Notifying][e := Unlocking][e := Outside] == p.clients[e := Outside];
  }

  /** With a sleeper, an enqueue from outside appends its task and wakes one. */
  lemma EnqueueWakes(p: Pool, e: nat, x: Ptr, v: nat)
    requires |p.workers| == |p.deques| && e < |p.clients| && p.clients[e].Outside? && p.dtor.Alive? && NewTask(p, x)
    requires p.sleeping > 0 && p.mutex.Free? && v < |p.workers| && p.workers[v] == Sleep(Blocked)
    ensures var called := Step(Step(p, Enqueue(e, x)), Client(e));
      Step(Step(Step(Step(called, Client(e)), Client(e)), ClientNotify(e, v)), Client(e))
        == p.(queue := p.queue + [x], enqueued := p.enqueued + [x], workers := p.workers[v := Sleep(Woken)])
  {
    var q := p.(queue := p.queue + [x], enqueued := p.enqueued + [x]);
    CallSteps(p, e, x);
    CallerWakes(ClientGoto(q, e, Checking), e, v);
    assert q.clients[e := Checking][e := Outside] == q.clients;
  }

  // ------------------------------------------------------------------ enqueue from inside a task

  lemma TaskChecks(p: Pool, w: nat, start: nat)
    requires w < |p.workers| == |p.deques| && p.workers[w].Running? && p.workers[w].run == AtCheck
    ensures Step(p, Work(w, start)) == Goto(p, w, p.workers[w].(run := if p.sleeping > 0 then AtMutex else Body))
  {
  }

  lemma TaskLocks(p: Pool, w: nat, start: nat)
    requires w < |p.workers| == |p.deques| && p.workers[w].Running? && p.workers[w].run == AtMutex && p.mutex.Free?
    ensures Step(p, Work(w, start)) == Goto(p.(mutex := ByWorker(w)), w, p.workers[w].(run := AtNotify))
  {
  }

  lemma TaskNotifies(p: Pool, w: nat, v: nat)
    requires w < |p.workers| == |p.deques| && p.workers[w].Running? && p.workers[w].run == AtNotify
    requires v < |p.workers| && p.workers[v] == Sleep(Blocked)
    ensures Step(p, WorkNotify(w, v)) == Goto(Goto(p, v, Sleep(Woken)), w, p.workers[w].(run := AtRelease))
  {
  }

  lemma TaskReleases(p: Pool, w: nat, start: nat)
    requires w < |p.workers| == |p.deques| && p.workers[w].Running? && p.workers[w].run == AtRelease
    ensures Step(p, Work(w, start)) == Goto(p.(mutex := Free), w, p.workers[w].(run := Body))
  {
  }

  /**
   The rest of an enqueue from inside a task, once its push is done: without a sleeper the task goes
   on at once; with one it wakes worker `v` first.
   */
  lemma NestedEnqueueWakes(p: Pool, w: nat, v: nat)
    requires w < |p.workers| == |p.deques| && p.workers[w].Running? && p.workers[w].run == AtCheck
    ensures p.sleeping <= 0 ==> Step(p, Work(w, 0)) == Goto(p, w, p.workers[w].(run := Body))
    ensures p.sleeping > 0 && p.mutex.Free? && v < |p.workers| && p.workers[v] == Sleep(Blocked) ==>
      Step(Step(Step(Step(p, Work(w, 0)), Work(w, 0)), WorkNotify(w, v)), Work(w, 0))
        == p.(workers := p.workers[v := Sleep(Woken)][w := p.workers[w].(run := Body)])
  {
    TaskChecks(p, w, 0);
    if p.sleeping > 0 && p.mutex.Free? && v < |p.workers| && p.workers[v] == Sleep(Blocked) {
      var p1 := Step(p, Work(w, 0));
      TaskLocks(p1, w, 0);
      var p2 := Step(p1, Work(w, 0));
      TaskNotifies(p2, w, v);
      var p3 := Step(p2, WorkNotify(w, v));
      TaskReleases(p3, w, 0);
      assert v != w;
      assert p3.workers[w := p.workers[w].(run := Body)] == p.workers[v := Sleep(Woken)][w := p.workers[w].(run := Body)];
    }
  }

  // ------------------------------------------------------------------ the destructor

  function Teardown(): Pool -> Pool { (p: Pool) => DtorStep(p) }

  /** The destructor takes `k` steps, nobody else does, and the pool goes from `p` to `q`. */
  ghost predicate TearsDown(p: Pool, k: nat, q: Pool) {
    Leads(Teardown(), p, k, q)
  }

  lemma TearsDownOnce(p: Pool)
    ensures TearsDown(p, 1, DtorStep(p))
  {
    LeadsOnce(Teardown(), p);
  }

  lemma TearsDownThen(p: Pool, j: nat, q: Pool, k: nat, r: Pool)
    requires TearsDown(p, j, q) && TearsDown(q, k, r)
    ensures TearsDown(p, j + k, r)
  {
    LeadsThen(Teardown(), p, j, q, k, r);
  }

  lemma {:induction false} TeardownIsARun(p: Pool, k: nat)
    requires |p.workers| == |p.deques|
    ensures Iterate(Teardown(), p, k) == After(p, seq(k, _ => Dtor))
  {
    if k > 0 {
      TeardownIsARun(p, k - 1);
      IterateMore(Teardown(), p, k - 1);
      var acts := seq(k, _ => Dtor);
      assert acts[..|acts| - 1] == seq(k - 1, _ => Dtor);
    }
  }

  /** Such a walk is a run of the pool, and there is no other. */
  lemma TearsDownIsARun(p: Pool, k: nat, q: Pool)
    requires |p.workers| == |p.deques| && TearsDown(p, k, q)
    ensures q == After(p, seq(k, _ => Dtor))
  {
    LeadsIterates(Teardown(), p, k, q);
    TeardownIsARun(p, k);
  }

  /** Every worker has left, and its deque is empty. */
  ghost predicate AllLeft(p: Pool) {
    && (forall v :: 0 <= v < |p.workers| ==> p.workers[v].Exited?)
    && (forall d :: 0 <= d < |p.deques| ==> p.deques[d].bottom == p.deques[d].top)
  }

  lemma WakesNobody(workers: seq<WorkerPc>)
    requires forall v :: 0 <= v < |workers| ==> workers[v].Exited?
    ensures WakeAll(workers) == workers
  {
  }

  lemma Announces(p: Pool)
    requires AllLeft(p) && p.dtor.DtorLock? && p.mutex.Free?
    ensures TearsDown(p, 3, p.(dtor := Joining(0)))
  {
    WakesNobody(p.workers);
    var a := p.(mutex := ByDtor, dtor := DtorNotify);
    var b := a.(dtor := DtorUnlock);
    LeadsThree(Teardown(), p, a, b, p.(dtor := Joining(0)));
  }

  lemma {:induction false} Joins(p: Pool, j: nat)
    requires AllLeft(p) && p.dtor == Joining(j) && j <= |p.workers|
    ensures TearsDown(p, |p.workers| - j + 1, p.(dtor := FreeDeques(0)))
    decreases |p.workers| - j
  {
    TearsDownOnce(p);
    if j < |p.workers| {
      var next := p.(dtor := Joining(j + 1));
      Joins(next, j + 1);
      TearsDownThen(p, 1, next, |p.workers| - (j + 1) + 1, p.(dtor := FreeDeques(0)));
    }
  }

  lemma FreesNothing(p: Pool, j: nat)
    requires AllLeft(p) && p.dtor == FreeDeques(j) && j < |p.deques|
    ensures DtorStep(p) == p.(dtor := FreeDeques(j + 1))
  {
    var s := p.deques[j];
    assert Slice(D.Now(s), s.top, s.bottom) == [];
    assert p.deques[j := s.(top := s.bottom)] == p.deques;
    assert p.freed + [] == p.freed;
  }

  lemma {:induction false} Frees(p: Pool, j: nat)
    requires AllLeft(p) && p.dtor == FreeDeques(j) && j <= |p.deques|
    ensures TearsDown(p, |p.deques| - j + 1, p.(dtor := FreeQueue))
    decreases |p.deques| - j
  {
    TearsDownOnce(p);
    if j < |p.deques| {
      var next := p.(dtor := FreeDeques(j + 1));
      FreesNothing(p, j);
      Frees(next, j + 1);
      TearsDownThen(p, 1, next, |p.deques| - (j + 1) + 1, p.(dtor := FreeQueue));
    }
  }

  /** The destructor of a deque deletes exactly the tasks that are in it, in order. */
  lemma DequeDestructorFrees(p: Pool, j: nat)
    requires |p.workers| == |p.deques| && p.dtor == FreeDeques(j) && j < |p.deques| && p.deques[j].owner.Idle?
    ensures var q := Step(p, Dtor);
      && q.freed == p.freed + D.Contents(p.deques[j]) && D.Contents(q.deques[j]) == []
      && q == p.(freed := q.freed, deques := p.deques[j := q.deques[j]], dtor := FreeDeques(j + 1))
  {
  }

  /** What the destructor leaves behind. */
  function Destroyed(p: Pool): Pool {
    p.(dtor := Gone, queue := [], freed := p.freed + p.queue)
  }

  lemma FreesAll(p: Pool)
    requires AllLeft(p) && p.dtor == FreeDeques(0)
    ensures TearsDown(p, (|p.deques| + 1) + 1, Destroyed(p))
  {
    var last := p.(dtor := FreeQueue);
    Frees(p, 0);
    TearsDownOnce(last);
    TearsDownThen(p, |p.deques| + 1, last, 1, Destroyed(p));
  }

  lemma JoinsAndFrees(p: Pool)
    requires AllLeft(p) && p.dtor == Joining(0)
    ensures TearsDown(p, (|p.workers| + 1) + ((|p.deques| + 1) + 1), Destroyed(p))
  {
    var next := p.(dtor := FreeDeques(0));
    Joins(p, 0);
    FreesAll(next);
    TearsDownThen(p, |p.workers| + 1, next, (|p.deques| + 1) + 1, Destroyed(p));
  }

  /**
   Once every worker has left with empty deques, the destructor gets through on its own, in so many
   steps, and deletes exactly what is left in the global queue.
   */
  lemma DestructorGetsThrough(p: Pool)
    requires AllLeft(p) && p.dtor.DtorLock? && p.mutex.Free?
    ensures TearsDown(p, 3 + ((|p.workers| + 1) + ((|p.deques| + 1) + 1)),
                      p.(dtor := Gone, queue := [], freed := p.freed + p.queue))
  {
    var next := p.(dtor := Joining(0));
    Announces(p);
    JoinsAndFrees(next);
    TearsDownThen(p, 3, next, (|p.workers| + 1) + ((|p.deques| + 1) + 1), Destroyed(p));
  }
}
