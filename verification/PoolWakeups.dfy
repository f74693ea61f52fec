/**
 No lost wake-ups.  A worker decides to sleep after scanning the queues one load at a time,
 and an enqueuer decides whether to notify after one load of the sleeper count; no
 interleaving of the two leaves a task queued with every worker asleep and nobody about to
 notify.
 */
module PoolWakeups {
  import opened Basics
  import opened Ring
  import D = Deque
  import DS = DequeSafety
  import opened Pool
  import opened PoolSafety

  /** Between its push and its notify. */
  predicate Pending(c: ClientPc) {
    c.Checking? || c.Locking? || c.Notifying?
  }

  /** Someone other than worker `w` is awake, or is about to wake somebody. */
  ghost predicate OtherActive(p: Pool, w: int) {
    || (exists v :: 0 <= v < |p.workers| && v != w && p.workers[v] != Sleep(Blocked))
    || (exists e :: 0 <= e < |p.clients| && Pending(p.clients[e]))
  }

  ghost predicate Awake(p: Pool) {
    OtherActive(p, -1)
  }

  ghost predicate EmptyBelow(deques: seq<D.Deque>, j: nat) {
    forall d :: 0 <= d < |deques| && d < j ==> D.Contents(deques[d]) == []
  }

  ghost predicate Idle(p: Pool) {
    p.queue == [] && EmptyBelow(p.deques, |p.deques|)
  }

  /** What a worker that evaluates the predicate has passed is still empty. */
  ghost predicate Cleared(p: Pool, zz: SleepPc) {
    match zz
    case ScanBottom(_, j) => p.queue == [] && EmptyBelow(p.deques, j)
    case ScanTop(_, j, b) =>
      p.queue == [] && EmptyBelow(p.deques, j) && j < |p.deques| && b == p.deques[j].bottom
    case _ => true
  }

  ghost predicate ScanOk(p: Pool) {
    forall w :: 0 <= w < |p.workers| && Probing(p.workers[w]) ==> OtherActive(p, w) || Cleared(p, p.workers[w].zz)
  }

  /** If a task is queued, a worker is awake or an enqueuer is between its push and its notify. */
  ghost predicate WakeOk(p: Pool) {
    Awake(p) || Idle(p)
  }

  // ------------------------------------------------------------------ who may fall asleep

  lemma SomeSleeper(p: Pool, w: nat)
    requires SleepOk(p) && w < |p.workers| && Sleeper(p.workers[w])
    ensures p.sleeping > 0
  {
    assert w in Sleepers(p.workers);
  }

  /** The only way to block is to finish the predicate's scan, holding the mutex. */
  lemma BlocksOnlyAfterScan(p: Pool, w: nat, start: nat)
    requires w < |p.workers| == |p.deques| && p.workers[w] != Sleep(Blocked)
    ensures WorkStep(p, w, start).workers[w] == Sleep(Blocked) ==>
      && Holds(p.workers[w]) && Probing(p.workers[w])
      && p.workers[w].zz.ScanBottom? && p.workers[w].zz.j >= |p.deques|
      && WorkStep(p, w, start) == p.(mutex := Free, workers := p.workers[w := Sleep(Blocked)])
  {
  }

  lemma OneHolder(p: Pool, w: nat)
    requires MutexOk(p) && w < |p.workers| && Holds(p.workers[w])
    ensures p.mutex == ByWorker(w)
    ensures forall v :: 0 <= v < |p.workers| && v != w ==> !Holds(p.workers[v])
    ensures forall e :: 0 <= e < |p.clients| ==> !p.clients[e].Notifying?
  {
  }

  lemma WorkMovesItself(p: Pool, w: nat, start: nat)
    requires w < |p.workers| == |p.deques|
    ensures var p' := WorkStep(p, w, start);
      p'.workers == p.workers[w := p'.workers[w]] && p'.clients == p.clients && p'.dtor == p.dtor
  {
    var t := Wants(|p.deques|, w, p.workers[w]);
    if !p.workers[w].Exited? {
      AdvanceMoves(p.(deques := Touching(p.deques, t)), w, start, EventOf(p.deques, t));
    }
  }

  /** Steps other than a worker's own leave it alone, wake it, or concern the task it runs. */
  lemma OthersMove(p: Pool, act: Action, v: nat)
    requires v < |p.workers| == |p.deques| && !(act.Work? && act.w == v)
    ensures var pc' := Step(p, act).workers[v];
      pc' == p.workers[v] || pc' == Sleep(Woken) || pc'.Running? || pc' == Search(AtPop)
  {
    if act.Work? && act.w < |p.workers| {
      WorkMovesItself(p, act.w, act.start);
    }
  }

  lemma PendingStays(p: Pool, act: Action, e: nat)
    requires |p.workers| == |p.deques| && DtorOk(p) && e < |p.clients| && Pending(p.clients[e])
    requires p.sleeping > 0 && !(act.ClientNotify? && act.e == e)
    ensures Pending(Step(p, act).clients[e])
  {
    if act.Work? && act.w < |p.workers| {
      WorkMovesItself(p, act.w, act.start);
    }
  }

  lemma WorkerStaysAwake(p: Pool, act: Action, w: nat, v: nat)
    requires MutexOk(p) && v < |p.workers| == |p.deques| && w < |p.workers| && v != w
    requires Holds(p.workers[w]) && p.workers[v] != Sleep(Blocked)
    ensures Step(p, act).workers[v] != Sleep(Blocked)
  {
    OneHolder(p, w);
    if act.Work? && act.w == v {
      BlocksOnlyAfterScan(p, v, act.start);
    } else {
      OthersMove(p, act, v);
    }
  }

  lemma CallerStaysPending(p: Pool, act: Action, w: nat, e: nat)
    requires MutexOk(p) && DtorOk(p) && |p.workers| == |p.deques| && w < |p.workers| && Holds(p.workers[w])
    requires p.sleeping > 0 && e < |p.clients| && Pending(p.clients[e])
    ensures Pending(Step(p, act).clients[e])
  {
    OneHolder(p, w);
    if !(act.ClientNotify? && act.e == e) {
      PendingStays(p, act, e);
    }
  }

  /** While `w` holds the mutex, whoever else is active stays active. */
  lemma OthersStayActive(p: Pool, act: Action, w: nat)
    requires Safe(p) && w < |p.workers| && Probing(p.workers[w]) && OtherActive(p, w)
    ensures OtherActive(Step(p, act), w)
  {
    SomeSleeper(p, w);
    if v :| 0 <= v < |p.workers| && v != w && p.workers[v] != Sleep(Blocked) {
      WorkerStaysAwake(p, act, w, v);
    } else {
      var e :| 0 <= e < |p.clients| && Pending(p.clients[e]);
      CallerStaysPending(p, act, w, e);
    }
  }

  // ------------------------------------------------------------------ the scan

  lemma NotFreeing(p: Pool, w: nat)
    requires DtorOk(p) && w < |p.workers| && !p.workers[w].Exited?
    ensures !p.dtor.FreeDeques? && !p.dtor.FreeQueue?
  {
  }

  lemma BlockedDoesNothing(p: Pool, v: nat, start: nat)
    requires v < |p.workers| == |p.deques| && p.workers[v] == Sleep(Blocked)
    ensures WorkStep(p, v, start) == p
  {
  }

  /** Without a running task and outside teardown, only a worker's search or a caller's push moves tasks. */
  lemma OnlyCallersPush(p: Pool, act: Action)
    requires |p.workers| == |p.deques| && !p.dtor.FreeDeques? && !p.dtor.FreeQueue? && !act.Work? && !act.Client?
    requires forall v :: 0 <= v < |p.workers| ==> !p.workers[v].Running?
    ensures Step(p, act).queue == p.queue && Step(p, act).deques == p.deques
  {
  }

  lemma PushIsPending(p: Pool, e: nat)
    requires |p.workers| == |p.deques| && e < |p.clients|
    ensures var p' := ClientStep(p, e);
      p'.deques == p.deques && (p'.queue == p.queue || Pending(p'.clients[e]))
  {
  }

  lemma NobodyRuns(p: Pool, w: int)
    requires DtorOk(p) && p.workers != [] && -1 <= w < |p.workers| && !OtherActive(p, w)
    requires 0 <= w ==> Probing(p.workers[w])
    ensures forall v :: 0 <= v < |p.workers| && v != w ==> p.workers[v] == Sleep(Blocked)
    ensures forall v :: 0 <= v < |p.workers| ==> !p.workers[v].Running?
    ensures !p.dtor.FreeDeques? && !p.dtor.FreeQueue?
  {
    var k := if w < 0 then 0 else w;
    assert p.workers[k] == Sleep(Blocked) || k == w;
    NotFreeing(p, k);
  }

  /** With everybody else asleep, nothing but the scanning worker touches the queues. */
  lemma QuietAround(p: Pool, act: Action, w: int)
    requires |p.workers| == |p.deques| >= 1 && DtorOk(p) && -1 <= w < |p.workers| && !OtherActive(p, w)
    requires !(act.Work? && act.w == w) && (0 <= w ==> Probing(p.workers[w]))
    ensures OtherActive(Step(p, act), w) || (Step(p, act).queue == p.queue && Step(p, act).deques == p.deques)
  {
    NobodyRuns(p, w);
    match act
    case Work(v, start) => if v < |p.workers| { BlockedDoesNothing(p, v, start); }
    case Client(e) => if e < |p.clients| { PushIsPending(p, e); }
    case _ => OnlyCallersPush(p, act);
  }

  lemma EmptyWhenIdle(s: D.Deque)
    requires D.Inv(s) && s.owner.Idle? && s.bottom <= s.top
    ensures D.Contents(s) == []
  {
  }

  lemma ActiveFrame(p: Pool, p': Pool, w: nat)
    requires w < |p.workers| == |p'.workers| && p'.clients == p.clients
    requires p'.workers == p.workers[w := p'.workers[w]]
    ensures OtherActive(p', w) == OtherActive(p, w)
  {
    assert forall v :: 0 <= v < |p.workers| && v != w ==> p'.workers[v] == p.workers[v];
  }

  lemma SleepIsWork(p: Pool, w: nat, start: nat)
    requires w < |p.workers| == |p.deques| && p.workers[w].Sleep?
    ensures WorkStep(p, w, start) == SleepStep(p, w)
    ensures var p' := SleepStep(p, w);
      p'.workers == p.workers[w := p'.workers[w]] && p'.clients == p.clients
      && p'.queue == p.queue && p'.deques == p.deques
  {
  }

  /** A deque that the scan passes, loading bottom first and top later, really is empty. */
  lemma PassedIsEmpty(p: Pool, w: nat, j: nat)
    requires Safe(p) && w < |p.workers| && p.workers[w].Sleep? && !OtherActive(p, w)
    requires j < |p.deques| && p.deques[j].bottom <= p.deques[j].top
    ensures D.Contents(p.deques[j]) == []
  {
    assert p.workers[j] == Sleep(Blocked) || j == w;
    assert OwnerAgrees(p.workers[j], p.deques[j].owner);
    EmptyWhenIdle(p.deques[j]);
  }

  /** One more load of the scan: what it has passed is empty. */
  lemma ProbeCleared(p: Pool, w: nat)
    requires w < |p.workers| == |p.deques| && p.workers[w].Sleep?
    requires Probing(p.workers[w]) ==> Cleared(p, p.workers[w].zz)
    requires forall j :: 0 <= j < |p.deques| && p.deques[j].bottom <= p.deques[j].top ==> D.Contents(p.deques[j]) == []
    requires Probing(SleepStep(p, w).workers[w])
    ensures Cleared(SleepStep(p, w), SleepStep(p, w).workers[w].zz)
  {
  }

  lemma ProbeAdvances(p: Pool, w: nat)
    requires Safe(p) && ScanOk(p) && w < |p.workers| && p.workers[w].Sleep?
    requires Probing(SleepStep(p, w).workers[w])
    ensures var p' := SleepStep(p, w); OtherActive(p', w) || Cleared(p', p'.workers[w].zz)
  {
    SleepIsWork(p, w, 0);
    ActiveFrame(p, SleepStep(p, w), w);
    if !OtherActive(p, w) {
      forall j | 0 <= j < |p.deques| && p.deques[j].bottom <= p.deques[j].top
        ensures D.Contents(p.deques[j]) == []
      {
        PassedIsEmpty(p, w, j);
      }
      ProbeCleared(p, w);
    }
  }

  lemma ClearedFrame(p: Pool, p': Pool, zz: SleepPc)
    requires Cleared(p, zz) && p'.queue == p.queue && p'.deques == p.deques
    ensures Cleared(p', zz)
  {
  }

  lemma ProbeOk(p: Pool, act: Action, w: nat)
    requires Safe(p) && ScanOk(p) && w < |p.workers| && Probing(Step(p, act).workers[w])
    ensures OtherActive(Step(p, act), w) || Cleared(Step(p, act), Step(p, act).workers[w].zz)
  {
    if act.Work? && act.w == w {
      ProbeFromSleep(p, w, act.start);
      SleepIsWork(p, w, act.start);
      ProbeAdvances(p, w);
    } else {
      OthersMove(p, act, w);
      if OtherActive(p, w) {
        OthersStayActive(p, act, w);
      } else {
        QuietAround(p, act, w);
        if !OtherActive(Step(p, act), w) {
          ClearedFrame(p, Step(p, act), p.workers[w].zz);
        }
      }
    }
  }

  lemma ProbeFromSleep(p: Pool, w: nat, start: nat)
    requires w < |p.workers| == |p.deques| && Probing(WorkStep(p, w, start).workers[w])
    ensures p.workers[w].Sleep?
  {
  }

  lemma ScanStep(p: Pool, act: Action)
    requires Safe(p) && ScanOk(p)
    ensures ScanOk(Step(p, act))
  {
    forall w | 0 <= w < |Step(p, act).workers| && Probing(Step(p, act).workers[w])
      ensures OtherActive(Step(p, act), w) || Cleared(Step(p, act), Step(p, act).workers[w].zz)
    {
      ProbeOk(p, act, w);
    }
  }

  // ------------------------------------------------------------------ nobody is forgotten

  predicate FallsAsleep(p: Pool, act: Action)
    requires |p.workers| == |p.deques|
  {
    act.Work? && act.w < |p.workers| && p.workers[act.w] != Sleep(Blocked)
    && WorkStep(p, act.w, act.start).workers[act.w] == Sleep(Blocked)
  }

  lemma OtherIsAwake(p: Pool, w: nat)
    requires OtherActive(p, w)
    ensures Awake(p)
  {
    if v :| 0 <= v < |p.workers| && v != w && p.workers[v] != Sleep(Blocked) {
      assert v != -1;
    }
  }

  /** An enqueuer that skips or finishes its notify leaves a worker awake behind it. */
  lemma StaysAwake(p: Pool, act: Action)
    requires Safe(p) && Awake(p) && !FallsAsleep(p, act)
    ensures Awake(Step(p, act))
  {
    var p' := Step(p, act);
    if v :| 0 <= v < |p.workers| && p.workers[v] != Sleep(Blocked) {
      if !(act.Work? && act.w == v) {
        OthersMove(p, act, v);
      }
      assert p'.workers[v] != Sleep(Blocked);
    } else {
      var e :| 0 <= e < |p.clients| && Pending(p.clients[e]);
      assert p.workers[0] == Sleep(Blocked);
      SomeSleeper(p, 0);
      if !(act.ClientNotify? && act.e == e) {
        PendingStays(p, act, e);
        assert Pending(p'.clients[e]);
      } else if p.clients[e].Notifying? && MayWake(p, act.victim) {
        assert p'.workers[act.victim] == Sleep(Woken);
      } else {
        assert Pending(p'.clients[e]);
      }
    }
  }

  lemma WakeStep(p: Pool, act: Action)
    requires Safe(p) && ScanOk(p) && WakeOk(p)
    ensures WakeOk(Step(p, act))
  {
    if FallsAsleep(p, act) {
      var w := act.w;
      BlocksOnlyAfterScan(p, w, act.start);
      if OtherActive(p, w) {
        OthersStayActive(p, act, w);
        OtherIsAwake(Step(p, act), w);
      }
    } else if Awake(p) {
      StaysAwake(p, act);
    } else {
      QuietAround(p, act, -1);
    }
  }

  // ------------------------------------------------------------------ over whole runs

  function After(p: Pool, acts: seq<Action>): (r: Pool)
    requires |p.workers| == |p.deques|
    ensures |r.workers| == |r.deques| == |p.deques| && |r.clients| == |p.clients|
  {
    if acts == [] then p else Step(After(p, acts[..|acts| - 1]), acts[|acts| - 1])
  }

  lemma {:induction false} AlwaysSafe(n: nat, m: nat, capacity: nat, acts: seq<Action>)
    requires PowerOfTwo(capacity)
    ensures var p := After(Init(n, m, capacity), acts); Safe(p) && ScanOk(p) && WakeOk(p)
  {
    if acts == [] {
      InitSafe(n, m, capacity);
      DS.InitOk(capacity);
    } else {
      var before := acts[..|acts| - 1];
      AlwaysSafe(n, m, capacity, before);
      var p := After(Init(n, m, capacity), before);
      StepSafe(p, acts[|acts| - 1]);
      ScanStep(p, acts[|acts| - 1]);
      WakeStep(p, acts[|acts| - 1]);
    }
  }

  /**
   No lost wake-up.  In every state that any schedule reaches before the destructor runs: if a
   task is in the global queue or in a deque, then some worker is neither blocked nor gone, or
   some external enqueuer is between its push and its notify.
   */
  lemma NoLostWakeup(n: nat, m: nat, capacity: nat, acts: seq<Action>)
    requires PowerOfTwo(capacity)
    ensures var p := After(Init(n, m, capacity), acts);
      !p.stop && (p.queue != [] || exists d :: 0 <= d < |p.deques| && D.Contents(p.deques[d]) != []) ==>
        || (exists v :: 0 <= v < |p.workers| && p.workers[v] != Sleep(Blocked) && !p.workers[v].Exited?)
        || (exists e :: 0 <= e < |p.clients| && Pending(p.clients[e]))
  {
    AlwaysSafe(n, m, capacity, acts);
    var p := After(Init(n, m, capacity), acts);
    if !p.stop && !Idle(p) {
      if v :| 0 <= v < |p.workers| && p.workers[v] != Sleep(Blocked) {
        assert !Leaving(p.workers[v]);
      }
    }
  }

  /** The sleeper count is exactly the number of workers between its increment and its decrement. */
  lemma SleeperCountIsExact(n: nat, m: nat, capacity: nat, acts: seq<Action>)
    requires PowerOfTwo(capacity)
    ensures var p := After(Init(n, m, capacity), acts);
      p.sleeping == |set w | 0 <= w < |p.workers| && Sleeper(p.workers[w])| && 0 <= p.sleeping <= |p.workers|
  {
    AlwaysSafe(n, m, capacity, acts);
    var p := After(Init(n, m, capacity), acts);
    SubrangeSize(Sleepers(p.workers), |p.workers|);
  }

  lemma {:induction false} SubrangeSize(s: set<nat>, n: nat)
    requires forall w :: w in s ==> w < n
    ensures |s| <= n
  {
    if n > 0 {
      var k := n - 1;
      SubrangeSize(s - {k}, k);
      if k in s { assert s == (s - {k}) + {k}; } else { assert s == s - {k}; }
    } else {
      assert s == {};
    }
  }

  /**
   Shutdown wakes everybody.  Once the destructor has notified, no worker is blocked and none
   can block again, so every join can be reached; and every worker that has left its loop
   left it with its own deque empty.
   */
  lemma ShutdownLeavesNobodyBlocked(n: nat, m: nat, capacity: nat, acts: seq<Action>, w: nat)
    requires PowerOfTwo(capacity)
    requires w < |After(Init(n, m, capacity), acts).workers|
    ensures var p := After(Init(n, m, capacity), acts);
      && (Notified(p.dtor) ==> p.workers[w] != Sleep(Blocked))
      && (p.workers[w].Exited? ==> p.stop && p.deques[w].owner.Idle? && D.Contents(p.deques[w]) == [])
  {
    AlwaysSafe(n, m, capacity, acts);
    var p := After(Init(n, m, capacity), acts);
    assert OwnerAgrees(p.workers[w], p.deques[w].owner);
  }
}
