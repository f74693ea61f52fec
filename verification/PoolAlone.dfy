/**
 A worker on its own: what its loop does when nobody else moves.  In an idle pool it looks
 everywhere, spins and falls asleep, or leaves if it has been told to; with a task around it comes
 to it, in the documented order.  Nothing here waits for luck: the steps are counted.
 */
module PoolAlone {
  import opened Basics
  import opened Ring
  import opened Iteration
  import D = Deque
  import DS = DequeSafety
  import DR = DequeRuns
  import opened Pool
  import opened PoolSafety
  import opened PoolWakeups

  /** One step of worker `w`. */
  function Turn(p: Pool, w: nat, start: nat): (r: Pool)
    ensures |r.workers| == |p.workers| && |r.deques| == |p.deques|
  {
    if w < |p.workers| == |p.deques| then WorkStep(p, w, start) else p
  }

  function Turns(w: nat, start: nat): Pool -> Pool { (p: Pool) => Turn(p, w, start) }

  /** Worker `w` takes `k` steps, nobody else does, and the pool goes from `p` to `q`; a sweep starts from `start`. */
  ghost predicate Goes(p: Pool, w: nat, start: nat, k: nat, q: Pool) {
    Leads(Turns(w, start), p, k, q)
  }

  lemma GoesNowhere(p: Pool, w: nat, start: nat)
    ensures Goes(p, w, start, 0, p)
  {
    LeadsNowhere(Turns(w, start), p);
  }

  lemma Then(p: Pool, w: nat, start: nat, j: nat, q: Pool, k: nat, r: Pool)
    requires Goes(p, w, start, j, q) && Goes(q, w, start, k, r)
    ensures Goes(p, w, start, j + k, r)
  {
    LeadsThen(Turns(w, start), p, j, q, k, r);
  }

  lemma Once(p: Pool, w: nat, start: nat)
    requires w < |p.workers| == |p.deques|
    ensures Goes(p, w, start, 1, WorkStep(p, w, start))
  {
    LeadsOnce(Turns(w, start), p);
  }

  lemma Two(p: Pool, w: nat, start: nat, a: Pool, b: Pool)
    requires Turn(p, w, start) == a && Turn(a, w, start) == b
    ensures Goes(p, w, start, 2, b)
  {
    LeadsThree(Turns(w, start), p, a, b, Turn(b, w, start));
  }

  lemma Three(p: Pool, w: nat, start: nat, a: Pool, b: Pool, c: Pool)
    requires Turn(p, w, start) == a && Turn(a, w, start) == b && Turn(b, w, start) == c
    ensures Goes(p, w, start, 3, c)
  {
    LeadsThree(Turns(w, start), p, a, b, c);
  }

  lemma ThenOnce(p: Pool, w: nat, start: nat, k: nat, q: Pool)
    requires Goes(p, w, start, k, q) && w < |q.workers| == |q.deques|
    ensures Goes(p, w, start, k + 1, WorkStep(q, w, start))
  {
    Once(q, w, start);
    Then(p, w, start, k, q, 1, WorkStep(q, w, start));
  }

  lemma OneMore(p: Pool, acts: seq<Action>, w: nat, start: nat)
    requires |p.workers| == |p.deques|
    ensures After(p, acts + [Work(w, start)]) == Turn(After(p, acts), w, start)
  {
    assert (acts + [Work(w, start)])[..|acts + [Work(w, start)]| - 1] == acts;
  }

  lemma {:induction false} TurnsAreARun(p: Pool, w: nat, start: nat, k: nat)
    requires |p.workers| == |p.deques|
    ensures Iterate(Turns(w, start), p, k) == After(p, seq(k, _ => Work(w, start)))
  {
    if k > 0 {
      TurnsAreARun(p, w, start, k - 1);
      IterateMore(Turns(w, start), p, k - 1);
      OneMore(p, seq(k - 1, _ => Work(w, start)), w, start);
      assert seq(k, _ => Work(w, start)) == seq(k - 1, _ => Work(w, start)) + [Work(w, start)];
    }
  }

  /** Such a walk is a run of the pool, and there is no other. */
  lemma GoesIsARun(p: Pool, w: nat, start: nat, k: nat, q: Pool)
    requires |p.workers| == |p.deques| && Goes(p, w, start, k, q)
    ensures q == After(p, seq(k, _ => Work(w, start)))
  {
    LeadsIterates(Turns(w, start), p, k, q);
    TurnsAreARun(p, w, start, k);
  }

  // ------------------------------------------------------------------ deques at rest

  /** Nobody is inside push or pop, and the deque is empty. */
  predicate Rests(s: D.Deque) {
    s.owner.Idle? && s.bottom == s.top
  }

  /** A pool with nothing to do. */
  ghost predicate Idle(p: Pool, w: nat) {
    w < |p.workers| == |p.deques| && p.queue == [] && forall d :: 0 <= d < |p.deques| ==> Rests(p.deques[d])
  }

  /** And worker `w` is not inside a steal. */
  ghost predicate Quiet(p: Pool, w: nat) {
    Idle(p, w) && AllRest(p.deques, w)
  }

  ghost predicate AllRest(deques: seq<D.Deque>, w: nat) {
    forall d :: 0 <= d < |deques| ==> Rests(deques[d]) && w !in deques[d].thieves
  }

  /** The states that a pop of an empty deque passes through. */
  function Popping(s: D.Deque, k: nat): D.Deque {
    var b := s.bottom - 1;
    if k == 1 then s.(owner := D.PopArray(b))
    else if k == 2 then s.(owner := D.PopStore(b, s.current))
    else if k == 3 then s.(bottom := b, owner := D.PopTop(b, s.current))
    else s.(bottom := b, owner := D.PopRestore(b, NULL))
  }

  lemma EmptyPop(s: D.Deque)
    requires Rests(s)
    ensures D.Step(s, D.Pop).next == Popping(s, 1)
    ensures D.OwnerStep(Popping(s, 1)) == D.Outcome(Popping(s, 2), D.Quiet)
    ensures D.OwnerStep(Popping(s, 2)) == D.Outcome(Popping(s, 3), D.Quiet)
    ensures D.OwnerStep(Popping(s, 3)) == D.Outcome(Popping(s, 4), D.Quiet)
    ensures D.OwnerStep(Popping(s, 4)) == D.Outcome(s, D.PopDone(NULL))
  {
  }

  lemma EmptySteal(s: D.Deque, th: nat)
    requires Rests(s) && th !in s.thieves
    ensures var s1 := s.(thieves := s.thieves[th := D.StealBottom(s.top)]);
      D.Step(s, D.Steal(th)).next == s1 && D.Step(s1, D.Thief(th)) == D.Outcome(s, D.StealDone(th, NULL))
  {
    assert s.thieves[th := D.StealBottom(s.top)] - {th} == s.thieves;
  }

  // ------------------------------------------------------------------ its own deque

  /** The pool with another state of worker `w` and of deque `d`. */
  function Set(p: Pool, w: nat, d: nat, s: D.Deque, pc: WorkerPc): Pool
    requires w < |p.workers| && d < |p.deques|
  {
    p.(deques := p.deques[d := s], workers := p.workers[w := pc])
  }

  lemma BeginTurn(p: Pool, w: nat, start: nat)
    requires w < |p.workers| == |p.deques| && p.workers[w] == Search(AtPop)
    ensures Turn(p, w, start) == Set(p, w, w, D.Step(p.deques[w], D.Pop).next, Search(InPop))
  {
  }

  lemma PopTurn(p: Pool, w: nat, start: nat, s: D.Deque)
    requires w < |p.workers| == |p.deques|
    ensures var o := D.OwnerStep(s);
      Turn(Set(p, w, w, s, Search(InPop)), w, start)
        == Set(p, w, w, o.next, if o.event.PopDone? then RunOr(o.event.r, AtQueue(0)) else Search(InPop))
  {
    var q := Set(p, w, w, s, Search(InPop));
    assert q.deques[w] == s && q.workers[w] == Search(InPop);
    assert D.Step(s, D.Owner) == D.OwnerStep(s);
    assert Touching(q.deques, At(w, D.Owner)) == p.deques[w := D.OwnerStep(s).next];
  }

  /** Five steps: its own deque is empty, and the worker turns to the queue. */
  lemma PopInVain(p: Pool, w: nat, start: nat)
    requires w < |p.workers| == |p.deques| && p.workers[w] == Search(AtPop) && Rests(p.deques[w])
    ensures Goes(p, w, start, 5, Goto(p, w, Search(AtQueue(0))))
  {
    var s, at := p.deques[w], Search(InPop);
    var p1, p2, p3, p4 := Set(p, w, w, Popping(s, 1), at), Set(p, w, w, Popping(s, 2), at),
                          Set(p, w, w, Popping(s, 3), at), Set(p, w, w, Popping(s, 4), at);
    EmptyPop(s);
    BeginTurn(p, w, start);
    PopTurn(p, w, start, Popping(s, 1));
    PopTurn(p, w, start, Popping(s, 2));
    PopTurn(p, w, start, Popping(s, 3));
    PopTurn(p, w, start, Popping(s, 4));
    assert p.deques[w := s] == p.deques;
    Three(p, w, start, p1, p2, p3);
    Two(p3, w, start, p4, Goto(p, w, Search(AtQueue(0))));
    Then(p, w, start, 3, p3, 2, Goto(p, w, Search(AtQueue(0))));
  }

  // ------------------------------------------------------------------ a round of the search

  lemma QueueInVain(p: Pool, w: nat, start: nat, k: nat)
    requires w < |p.workers| == |p.deques| && p.workers[w] == Search(AtQueue(k)) && p.queue == []
    ensures WorkStep(p, w, start) == Goto(p, w, Search(AtSweep(k)))
  {
  }

  lemma SweepBegins(p: Pool, w: nat, start: nat, k: nat)
    requires w < |p.workers| == |p.deques| && p.workers[w] == Search(AtSweep(k))
    ensures WorkStep(p, w, start) ==
      Goto(p, w, if |p.deques| <= 1 then AfterSweep(k) else Search(Sweeping(k, start % |p.deques|, 0)))
  {
  }

  lemma SweepEnds(p: Pool, w: nat, start: nat, k: nat, st: nat, i: nat)
    requires w < |p.workers| == |p.deques| <= i && p.workers[w] == Search(Sweeping(k, st, i))
    ensures WorkStep(p, w, start) == Goto(p, w, AfterSweep(k))
  {
  }

  lemma SkipsItself(p: Pool, w: nat, start: nat, k: nat, st: nat, i: nat)
    requires w < |p.workers| == |p.deques| && i < |p.deques| && p.workers[w] == Search(Sweeping(k, st, i))
    requires Target(|p.deques|, st, i) == w
    ensures WorkStep(p, w, start) == Goto(p, w, Search(Sweeping(k, st, i + 1)))
  {
  }

  lemma StealTurn(p: Pool, w: nat, start: nat, k: nat, st: nat, i: nat)
    requires w < |p.workers| == |p.deques| && i < |p.deques| && p.workers[w] == Search(Sweeping(k, st, i))
    requires Target(|p.deques|, st, i) != w
    ensures var d := Target(|p.deques|, st, i);
      WorkStep(p, w, start) == Set(p, w, d, D.Step(p.deques[d], D.Steal(w)).next, Search(InSteal(k, st, i)))
  {
  }

  lemma ThiefTurn(p: Pool, w: nat, start: nat, k: nat, st: nat, i: nat, s: D.Deque)
    requires w < |p.workers| == |p.deques| && i < |p.deques|
    ensures var d := Target(|p.deques|, st, i); var o := D.Step(s, D.Thief(w));
      Turn(Set(p, w, d, s, Search(InSteal(k, st, i))), w, start)
        == Set(p, w, d, o.next,
               if o.event.StealDone? then RunOr(o.event.r, Sweeping(k, st, i + 1)) else Search(InSteal(k, st, i)))
  {
    var d := Target(|p.deques|, st, i);
    var q := Set(p, w, d, s, Search(InSteal(k, st, i)));
    assert q.deques[d] == s && q.workers[w] == Search(InSteal(k, st, i));
    assert Touching(q.deques, At(d, D.Thief(w))) == p.deques[d := D.Step(s, D.Thief(w)).next];
  }

  /** Two steps: that deque is empty. */
  lemma StealInVain(p: Pool, w: nat, start: nat, k: nat, st: nat, i: nat)
    requires w < |p.workers| == |p.deques| && i < |p.deques| && p.workers[w] == Search(Sweeping(k, st, i))
    requires var d := Target(|p.deques|, st, i); d != w && Rests(p.deques[d]) && w !in p.deques[d].thieves
    ensures Goes(p, w, start, 2, Goto(p, w, Search(Sweeping(k, st, i + 1))))
  {
    var d := Target(|p.deques|, st, i);
    var s := p.deques[d];
    var s1 := s.(thieves := s.thieves[w := D.StealBottom(s.top)]);
    EmptySteal(s, w);
    StealTurn(p, w, start, k, st, i);
    ThiefTurn(p, w, start, k, st, i, s1);
    assert p.deques[d := s] == p.deques;
    Two(p, w, start, Set(p, w, d, s1, Search(InSteal(k, st, i))), Goto(p, w, Search(Sweeping(k, st, i + 1))));
  }

  /** Steps of a sweep from position `i` to position `j`, when there is nothing to steal. */
  function SweepTurns(n: nat, w: nat, st: nat, i: nat, j: nat): nat
    requires n > 0
    decreases j - i
  {
    if i >= j then 0 else (if Target(n, st, i) == w then 1 else 2) + SweepTurns(n, w, st, i + 1, j)
  }

  /** Nothing to steal from positions `i` to `j` of a sweep. */
  ghost predicate Barren(deques: seq<D.Deque>, w: nat, st: nat, i: nat, j: nat)
    requires |deques| > 0
  {
    forall k :: i <= k < j && Target(|deques|, st, k) != w ==>
      var s := deques[Target(|deques|, st, k)]; Rests(s) && w !in s.thieves
  }

  lemma RestIsBarren(deques: seq<D.Deque>, w: nat, st: nat, i: nat, j: nat)
    requires |deques| > 0 && AllRest(deques, w)
    ensures Barren(deques, w, st, i, j)
  {
  }

  lemma QuietGoto(p: Pool, w: nat, pc: WorkerPc)
    requires Quiet(p, w)
    ensures Quiet(Goto(p, w, pc), w)
  {
  }

  lemma IdleGoto(p: Pool, w: nat, pc: WorkerPc)
    requires Idle(p, w)
    ensures Idle(Goto(p, w, pc), w)
  {
  }

  lemma GotoGoto(p: Pool, w: nat, pc: WorkerPc, pc': WorkerPc)
    requires w < |p.workers|
    ensures Goto(Goto(p, w, pc), w, pc') == Goto(p, w, pc')
  {
  }

  lemma {:induction false} SweepReaches(p: Pool, w: nat, start: nat, k: nat, st: nat, i: nat, j: nat)
    requires w < |p.workers| == |p.deques| && i <= j <= |p.deques| && Barren(p.deques, w, st, i, j)
    requires p.workers[w] == Search(Sweeping(k, st, i))
    ensures Goes(p, w, start, SweepTurns(|p.deques|, w, st, i, j), Goto(p, w, Search(Sweeping(k, st, j))))
    decreases j - i
  {
    var n, end := |p.deques|, Goto(p, w, Search(Sweeping(k, st, j)));
    if i == j {
      assert p.workers[w := p.workers[w]] == p.workers;
      GoesNowhere(p, w, start);
    } else {
      var next, c := Goto(p, w, Search(Sweeping(k, st, i + 1))), if Target(n, st, i) == w then 1 else 2;
      if Target(n, st, i) == w {
        Once(p, w, start);
        SkipsItself(p, w, start, k, st, i);
      } else {
        StealInVain(p, w, start, k, st, i);
      }
      SweepReaches(next, w, start, k, st, i + 1, j);
      GotoGoto(p, w, Search(Sweeping(k, st, i + 1)), Search(Sweeping(k, st, j)));
      Then(p, w, start, c, next, SweepTurns(n, w, st, i + 1, j), end);
    }
  }

  lemma SweepInVain(p: Pool, w: nat, start: nat, k: nat, st: nat)
    requires Quiet(p, w) && p.workers[w] == Search(Sweeping(k, st, 0))
    ensures Goes(p, w, start, SweepTurns(|p.deques|, w, st, 0, |p.deques|) + 1, Goto(p, w, AfterSweep(k)))
  {
    var n := |p.deques|;
    var last := Search(Sweeping(k, st, n));
    RestIsBarren(p.deques, w, st, 0, n);
    SweepReaches(p, w, start, k, st, 0, n);
    SweepEnds(Goto(p, w, last), w, start, k, st, n);
    GotoGoto(p, w, last, AfterSweep(k));
    ThenOnce(p, w, start, SweepTurns(n, w, st, 0, n), Goto(p, w, last));
  }

  /** Steps of a round, when there is nothing to find. */
  function RoundTurns(n: nat, w: nat, start: nat): nat
    requires n > 0
  {
    if n <= 1 then 2 else 2 + (SweepTurns(n, w, start % n, 0, n) + 1)
  }

  lemma RoundInVain(p: Pool, w: nat, start: nat, k: nat)
    requires Quiet(p, w) && p.workers[w] == Search(AtQueue(k))
    ensures Goes(p, w, start, RoundTurns(|p.deques|, w, start), Goto(p, w, AfterSweep(k)))
  {
    var n, p1, end := |p.deques|, Goto(p, w, Search(AtSweep(k))), Goto(p, w, AfterSweep(k));
    QueueInVain(p, w, start, k);
    SweepBegins(p1, w, start, k);
    GotoGoto(p, w, Search(AtSweep(k)), AfterSweep(k));
    if n <= 1 {
      Two(p, w, start, p1, end);
    } else {
      var sweep := Search(Sweeping(k, start % n, 0));
      GotoGoto(p, w, Search(AtSweep(k)), sweep);
      Two(p, w, start, p1, Goto(p, w, sweep));
      QuietGoto(p, w, sweep);
      SweepInVain(Goto(p, w, sweep), w, start, k, start % n);
      GotoGoto(p, w, sweep, AfterSweep(k));
      Then(p, w, start, 2, Goto(p, w, sweep), SweepTurns(n, w, start % n, 0, n) + 1, end);
    }
  }

  /** Steps of the spin phase from round `k` on. */
  function SpinTurns(n: nat, w: nat, start: nat, k: nat): nat
    requires n > 0
    decreases SPINS + 1 - k
  {
    if k > SPINS then 0 else RoundTurns(n, w, start) + SpinTurns(n, w, start, k + 1)
  }

  lemma {:induction false} SpinInVain(p: Pool, w: nat, start: nat, k: nat)
    requires Quiet(p, w) && 1 <= k <= SPINS && p.workers[w] == Search(AtQueue(k))
    ensures Goes(p, w, start, SpinTurns(|p.deques|, w, start, k), Goto(p, w, Sleep(AtLock)))
    decreases SPINS + 1 - k
  {
    var n := |p.deques|;
    RoundInVain(p, w, start, k);
    if k < SPINS {
      var next := Search(AtQueue(k + 1));
      QuietGoto(p, w, next);
      SpinInVain(Goto(p, w, next), w, start, k + 1);
      GotoGoto(p, w, next, Sleep(AtLock));
      Then(p, w, start, RoundTurns(n, w, start), Goto(p, w, next), SpinTurns(n, w, start, k + 1), Goto(p, w, Sleep(AtLock)));
    }
  }

  /** The first search of an idle pool ends at the question whether to stop. */
  lemma SearchInVain(p: Pool, w: nat, start: nat)
    requires Quiet(p, w) && p.workers[w] == Search(AtPop)
    ensures Goes(p, w, start, 5 + RoundTurns(|p.deques|, w, start), Goto(p, w, Search(AtStop)))
  {
    var next := Search(AtQueue(0));
    PopInVain(p, w, start);
    QuietGoto(p, w, next);
    RoundInVain(Goto(p, w, next), w, start, 0);
    GotoGoto(p, w, next, Search(AtStop));
    Then(p, w, start, 5, Goto(p, w, next), RoundTurns(|p.deques|, w, start), Goto(p, w, Search(AtStop)));
  }

  lemma AsksToStop(p: Pool, w: nat, start: nat)
    requires w < |p.workers| == |p.deques| && p.workers[w] == Search(AtStop)
    ensures WorkStep(p, w, start) == Goto(p, w, if p.stop then Exited else Search(AtQueue(1)))
  {
  }

  /** Told to stop, a worker with nothing to do leaves its loop, in so many steps of its own. */
  lemma StoppedWorkerLeaves(p: Pool, w: nat, start: nat)
    requires Quiet(p, w) && p.workers[w] == Search(AtPop) && p.stop
    ensures Goes(p, w, start, 6 + RoundTurns(|p.deques|, w, start), Goto(p, w, Exited))
  {
    var k := 5 + RoundTurns(|p.deques|, w, start);
    SearchInVain(p, w, start);
    AsksToStop(Goto(p, w, Search(AtStop)), w, start);
    GotoGoto(p, w, Search(AtStop), Exited);
    ThenOnce(p, w, start, k, Goto(p, w, Search(AtStop)));
  }

  // ------------------------------------------------------------------ going to sleep

  lemma ScanPair(p: Pool, w: nat, start: nat, g: bool, j: nat)
    requires Idle(p, w) && j < |p.deques| && p.workers[w] == Sleep(ScanBottom(g, j))
    ensures Goes(p, w, start, 2, Goto(p, w, Sleep(ScanBottom(g, j + 1))))
  {
    var mid := Sleep(ScanTop(g, j, p.deques[j].bottom));
    assert Rests(p.deques[j]);
    assert Turn(p, w, start) == Goto(p, w, mid);
    GotoGoto(p, w, mid, Sleep(ScanBottom(g, j + 1)));
    Two(p, w, start, Goto(p, w, mid), Goto(p, w, Sleep(ScanBottom(g, j + 1))));
  }

  /** Two steps for each deque: the scan passes them all. */
  lemma {:induction false} ScanPasses(p: Pool, w: nat, start: nat, g: bool, j: nat)
    requires Idle(p, w) && j <= |p.deques| && p.workers[w] == Sleep(ScanBottom(g, j))
    ensures Goes(p, w, start, 2 * (|p.deques| - j), Goto(p, w, Sleep(ScanBottom(g, |p.deques|))))
    decreases |p.deques| - j
  {
    var n, end := |p.deques|, Goto(p, w, Sleep(ScanBottom(g, |p.deques|)));
    if j < n {
      var next := Sleep(ScanBottom(g, j + 1));
      ScanPair(p, w, start, g, j);
      IdleGoto(p, w, next);
      ScanPasses(Goto(p, w, next), w, start, g, j + 1);
      GotoGoto(p, w, next, Sleep(ScanBottom(g, n)));
      Then(p, w, start, 2, Goto(p, w, next), 2 * (n - (j + 1)), end);
    } else {
      assert p.workers[w := p.workers[w]] == p.workers;
      GoesNowhere(p, w, start);
    }
  }

  lemma PredicateBegins(p: Pool, w: nat, start: nat)
    requires Idle(p, w) && p.workers[w] == Sleep(PredStop) && !p.stop
    ensures Goes(p, w, start, 2, Goto(p, w, Sleep(ScanBottom(true, 0))))
  {
    var mid := Sleep(ScanQueue(true));
    assert Turn(p, w, start) == Goto(p, w, mid);
    GotoGoto(p, w, mid, Sleep(ScanBottom(true, 0)));
    Two(p, w, start, Goto(p, w, mid), Goto(p, w, Sleep(ScanBottom(true, 0))));
  }

  lemma Blocks(p: Pool, w: nat, start: nat)
    requires w < |p.workers| == |p.deques| && p.workers[w] == Sleep(ScanBottom(true, |p.deques|))
    ensures WorkStep(p, w, start) == Goto(p.(mutex := Free), w, Sleep(Blocked))
  {
  }

  /**
   The predicate of the condition variable in an idle pool: two steps, two for each deque and one
   more, and the worker is blocked with the mutex released.
   */
  lemma IdlePredicateBlocks(p: Pool, w: nat, start: nat)
    requires Idle(p, w) && p.workers[w] == Sleep(PredStop) && !p.stop
    ensures Goes(p, w, start, 2 + 2 * |p.deques| + 1, p.(mutex := Free, workers := p.workers[w := Sleep(Blocked)]))
  {
    var n, first, last := |p.deques|, Sleep(ScanBottom(true, 0)), Sleep(ScanBottom(true, |p.deques|));
    PredicateBegins(p, w, start);
    IdleGoto(p, w, first);
    ScanPasses(Goto(p, w, first), w, start, true, 0);
    GotoGoto(p, w, first, last);
    Then(p, w, start, 2, Goto(p, w, first), 2 * n, Goto(p, w, last));
    Blocks(Goto(p, w, last), w, start);
    assert p.workers[w := last][w := Sleep(Blocked)] == p.workers[w := Sleep(Blocked)];
    ThenOnce(p, w, start, 2 + 2 * n, Goto(p, w, last));
  }

  lemma LockTurns(p: Pool, w: nat, start: nat)
    requires Idle(p, w) && p.workers[w] == Sleep(AtLock) && !p.stop && p.mutex.Free?
    ensures Goes(p, w, start, 3, Goto(p.(mutex := ByWorker(w)), w, Sleep(ScanBottom(false, 0))))
  {
    var q := p.(mutex := ByWorker(w));
    assert Turn(p, w, start) == Goto(q, w, Sleep(AtStopLocked));
    assert Turn(Goto(q, w, Sleep(AtStopLocked)), w, start) == Goto(q, w, Sleep(ScanQueue(false)));
    assert Turn(Goto(q, w, Sleep(ScanQueue(false))), w, start) == Goto(q, w, Sleep(ScanBottom(false, 0)));
    Three(p, w, start, Goto(q, w, Sleep(AtStopLocked)), Goto(q, w, Sleep(ScanQueue(false))),
          Goto(q, w, Sleep(ScanBottom(false, 0))));
  }

  lemma CountTurns(p: Pool, w: nat, start: nat)
    requires w < |p.workers| == |p.deques| && p.workers[w] == Sleep(ScanBottom(false, |p.deques|))
    ensures Goes(p, w, start, 2, Goto(p.(sleeping := p.sleeping + 1), w, Sleep(PredStop)))
  {
    var mid, end := Goto(p, w, Sleep(AddSleeper)), Goto(p.(sleeping := p.sleeping + 1), w, Sleep(PredStop));
    assert Turn(p, w, start) == mid;
    assert Turn(mid, w, start) == end;
    Two(p, w, start, mid, end);
  }

  /** From the lock to the first evaluation of the predicate. */
  lemma LiesDown(p: Pool, w: nat, start: nat)
    requires Idle(p, w) && p.workers[w] == Sleep(AtLock) && !p.stop && p.mutex.Free?
    ensures Goes(p, w, start, 3 + 2 * |p.deques| + 2, Goto(p.(mutex := ByWorker(w), sleeping := p.sleeping + 1), w, Sleep(PredStop)))
  {
    var n, q := |p.deques|, p.(mutex := ByWorker(w));
    var first, last := Sleep(ScanBottom(false, 0)), Sleep(ScanBottom(false, n));
    LockTurns(p, w, start);
    ScanPasses(Goto(q, w, first), w, start, false, 0);
    GotoGoto(q, w, first, last);
    Then(p, w, start, 3, Goto(q, w, first), 2 * n, Goto(q, w, last));
    CountTurns(Goto(q, w, last), w, start);
    Then(p, w, start, 3 + 2 * n, Goto(q, w, last), 2, Goto(q.(sleeping := p.sleeping + 1), w, Sleep(PredStop)));
  }

  /** Steps from the lock to being blocked. */
  function BedTurns(n: nat): nat { (3 + 2 * n + 2) + (2 + 2 * n + 1) }

  lemma GoesToBed(p: Pool, w: nat, start: nat)
    requires Quiet(p, w) && p.workers[w] == Sleep(AtLock) && !p.stop && p.mutex.Free?
    ensures Goes(p, w, start, BedTurns(|p.deques|), Goto(p.(sleeping := p.sleeping + 1), w, Sleep(Blocked)))
  {
    var q := Goto(p.(mutex := ByWorker(w), sleeping := p.sleeping + 1), w, Sleep(PredStop));
    LiesDown(p, w, start);
    IdlePredicateBlocks(q, w, start);
    Then(p, w, start, 3 + 2 * |p.deques| + 2, q, 2 + 2 * |p.deques| + 1,
         Goto(p.(sleeping := p.sleeping + 1), w, Sleep(Blocked)));
  }

  lemma SearchesThenSpins(p: Pool, w: nat, start: nat)
    requires Quiet(p, w) && p.workers[w] == Search(AtPop) && !p.stop
    ensures Goes(p, w, start, 6 + RoundTurns(|p.deques|, w, start), Goto(p, w, Search(AtQueue(1))))
  {
    SearchInVain(p, w, start);
    AsksToStop(Goto(p, w, Search(AtStop)), w, start);
    GotoGoto(p, w, Search(AtStop), Search(AtQueue(1)));
    ThenOnce(p, w, start, 5 + RoundTurns(|p.deques|, w, start), Goto(p, w, Search(AtStop)));
  }

  /** Searches in vain, spins in vain, and gets to the lock. */
  lemma SpinsToTheLock(p: Pool, w: nat, start: nat)
    requires Quiet(p, w) && p.workers[w] == Search(AtPop) && !p.stop
    ensures var n := |p.deques|;
      Goes(p, w, start, (6 + RoundTurns(n, w, start)) + SpinTurns(n, w, start, 1), Goto(p, w, Sleep(AtLock)))
  {
    var n, spin, lock := |p.deques|, Goto(p, w, Search(AtQueue(1))), Goto(p, w, Sleep(AtLock));
    SearchesThenSpins(p, w, start);
    QuietGoto(p, w, Search(AtQueue(1)));
    SpinInVain(spin, w, start, 1);
    GotoGoto(p, w, Search(AtQueue(1)), Sleep(AtLock));
    Then(p, w, start, 6 + RoundTurns(n, w, start), spin, SpinTurns(n, w, start, 1), lock);
  }

  /**
   An idle worker falls asleep, in so many steps of its own: it searches, spins 32 rounds, scans
   twice and blocks, counted as a sleeper, with the mutex free and everything else as it was.
   */
  lemma IdleWorkerSleeps(p: Pool, w: nat, start: nat)
    requires Quiet(p, w) && p.workers[w] == Search(AtPop) && !p.stop && p.mutex.Free?
    ensures var n := |p.deques|;
      Goes(p, w, start, ((6 + RoundTurns(n, w, start)) + SpinTurns(n, w, start, 1)) + BedTurns(n),
           p.(workers := p.workers[w := Sleep(Blocked)], sleeping := p.sleeping + 1))
  {
    var n, lock := |p.deques|, Goto(p, w, Sleep(AtLock));
    SpinsToTheLock(p, w, start);
    QuietGoto(p, w, Sleep(AtLock));
    GoesToBed(lock, w, start);
    assert lock.workers[w := Sleep(Blocked)] == p.workers[w := Sleep(Blocked)];
    Then(p, w, start, (6 + RoundTurns(n, w, start)) + SpinTurns(n, w, start, 1), lock, BedTurns(n),
         Goto(lock.(sleeping := p.sleeping + 1), w, Sleep(Blocked)));
  }

  // ------------------------------------------------------------------ getting up

  lemma GetsUp(p: Pool, w: nat, start: nat)
    requires w < |p.workers| == |p.deques| && p.workers[w] == Sleep(SubSleeper)
    ensures Goes(p, w, start, 2, Goto(p.(mutex := Free, sleeping := p.sleeping - 1), w, Search(AtPop)))
  {
    var q := p.(sleeping := p.sleeping - 1);
    var mid, end := Goto(q, w, Sleep(Unlock(false))), Goto(q.(mutex := Free), w, Search(AtPop));
    assert Turn(p, w, start) == mid;
    assert Turn(mid, w, start) == end;
    Two(p, w, start, mid, end);
  }

  lemma FindsReason(p: Pool, w: nat, start: nat)
    requires w < |p.workers| == |p.deques| && p.workers[w] == Sleep(Woken) && p.mutex.Free? && (p.stop || p.queue != [])
    ensures Goes(p, w, start, if p.stop then 2 else 3, Goto(p.(mutex := ByWorker(w)), w, Sleep(SubSleeper)))
  {
    var q := p.(mutex := ByWorker(w));
    var pred, scan, end := Goto(q, w, Sleep(PredStop)), Goto(q, w, Sleep(ScanQueue(true))), Goto(q, w, Sleep(SubSleeper));
    assert Turn(p, w, start) == pred;
    if p.stop {
      assert Turn(pred, w, start) == end;
      Two(p, w, start, pred, end);
    } else {
      assert Turn(pred, w, start) == scan;
      assert Turn(scan, w, start) == end;
      Three(p, w, start, pred, scan, end);
    }
  }

  /** A woken worker that is told to stop, or finds a task queued, goes back to searching. */
  lemma WokenWorkerReturns(p: Pool, w: nat, start: nat)
    requires w < |p.workers| == |p.deques| && p.workers[w] == Sleep(Woken) && p.mutex.Free? && (p.stop || p.queue != [])
    ensures Goes(p, w, start, (if p.stop then 2 else 3) + 2, p.(workers := p.workers[w := Search(AtPop)], sleeping := p.sleeping - 1))
  {
    var mid := Goto(p.(mutex := ByWorker(w)), w, Sleep(SubSleeper));
    FindsReason(p, w, start);
    GetsUp(mid, w, start);
    Then(p, w, start, if p.stop then 2 else 3, mid, 2, Goto(p.(sleeping := p.sleeping - 1), w, Search(AtPop)));
  }

  /** Told to stop before it lay down, a worker leaves from the lock, uncounted. */
  lemma StoppedAtTheLock(p: Pool, w: nat, start: nat)
    requires w < |p.workers| == |p.deques| && p.workers[w] == Sleep(AtLock) && p.mutex.Free? && p.stop
    ensures Goes(p, w, start, 3, Goto(p, w, Exited))
  {
    var q := p.(mutex := ByWorker(w));
    var a, b := Goto(q, w, Sleep(AtStopLocked)), Goto(q, w, Sleep(Unlock(true)));
    assert Turn(p, w, start) == a;
    assert Turn(a, w, start) == b;
    assert Turn(b, w, start) == Goto(p, w, Exited);
    Three(p, w, start, a, b, Goto(p, w, Exited));
  }

  /** A task queued while it was spinning sends it back from the lock, uncounted. */
  lemma QueuedAtTheLock(p: Pool, w: nat, start: nat)
    requires w < |p.workers| == |p.deques| && p.workers[w] == Sleep(AtLock) && p.mutex.Free? && !p.stop && p.queue != []
    ensures Goes(p, w, start, 4, Goto(p, w, Search(AtPop)))
  {
    var q, end := p.(mutex := ByWorker(w)), Goto(p, w, Search(AtPop));
    var a, b, c := Goto(q, w, Sleep(AtStopLocked)), Goto(q, w, Sleep(ScanQueue(false))), Goto(q, w, Sleep(Unlock(false)));
    assert Turn(p, w, start) == a;
    assert Turn(a, w, start) == b;
    assert Turn(b, w, start) == c;
    assert Turn(c, w, start) == end;
    Three(p, w, start, a, b, c);
    ThenOnce(p, w, start, 3, c);
  }

  // ------------------------------------------------------------------ finding a task

  /** A deque after a pop, and after a steal, that nobody disturbed. */
  function AfterPop(s: D.Deque): D.Deque {
    if s.bottom - 1 == s.top then s.(top := s.top + 1) else s.(bottom := s.bottom - 1)
  }

  function AfterSteal(s: D.Deque): D.Deque {
    s.(top := s.top + 1)
  }

  /** The deque is nobody's business, and has a task. */
  ghost predicate Waits(s: D.Deque) {
    D.Inv(s) && s.owner.Idle? && D.Contents(s) != []
  }

  lemma BackOf(s: D.Deque)
    requires Waits(s)
    ensures s.top < s.bottom
    ensures var q := D.Contents(s);
      && |q| == s.bottom - s.top && q[|q| - 1] == D.Cell(s, s.bottom - 1) != NULL
      && D.Contents(AfterPop(s)) == q[..|q| - 1]
  {
  }

  lemma FrontOf(s: D.Deque)
    requires Waits(s)
    ensures s.top < s.bottom
    ensures var q := D.Contents(s);
      q[0] == D.Cell(s, s.top) != NULL && D.Contents(AfterSteal(s)) == q[1..]
  {
  }

  /** The states that a pop of a deque with a task passes through. */
  function Taking(s: D.Deque, k: nat): D.Deque {
    var b, x := s.bottom - 1, D.Cell(s, s.bottom - 1);
    if k == 1 then s.(owner := D.PopArray(b))
    else if k == 2 then s.(owner := D.PopStore(b, s.current))
    else if k == 3 then s.(bottom := b, owner := D.PopTop(b, s.current))
    else if k == 4 then s.(bottom := b, owner := D.PopRead(b, s.current, s.top))
    else if k == 5 then s.(bottom := b, owner := D.PopCas(b, s.top, x))
    else s.(bottom := b, top := s.top + 1, owner := D.PopRestore(b, x))
  }

  lemma TakingSteps(s: D.Deque)
    requires s.owner.Idle? && s.top < s.bottom
    ensures D.Step(s, D.Pop).next == Taking(s, 1)
    ensures D.OwnerStep(Taking(s, 1)) == D.Outcome(Taking(s, 2), D.Quiet)
    ensures D.OwnerStep(Taking(s, 2)) == D.Outcome(Taking(s, 3), D.Quiet)
    ensures D.OwnerStep(Taking(s, 3)) == D.Outcome(Taking(s, 4), D.Quiet)
  {
  }

  lemma TakingEnds(s: D.Deque)
    requires s.owner.Idle? && s.top < s.bottom
    ensures var x := D.Cell(s, s.bottom - 1);
      if s.bottom - 1 == s.top then
        && D.OwnerStep(Taking(s, 4)) == D.Outcome(Taking(s, 5), D.Quiet)
        && D.OwnerStep(Taking(s, 5)) == D.Outcome(Taking(s, 6), D.Quiet)
        && D.OwnerStep(Taking(s, 6)) == D.Outcome(AfterPop(s), D.PopDone(x))
      else D.OwnerStep(Taking(s, 4)) == D.Outcome(AfterPop(s), D.PopDone(x))
  {
  }

  lemma TakesFour(p: Pool, w: nat, start: nat)
    requires w < |p.workers| == |p.deques| && p.workers[w] == Search(AtPop)
    requires p.deques[w].owner.Idle? && p.deques[w].top < p.deques[w].bottom
    ensures Goes(p, w, start, 4, Set(p, w, w, Taking(p.deques[w], 4), Search(InPop)))
  {
    var s, at := p.deques[w], Search(InPop);
    var p1, p2, p3, p4 := Set(p, w, w, Taking(s, 1), at), Set(p, w, w, Taking(s, 2), at),
                          Set(p, w, w, Taking(s, 3), at), Set(p, w, w, Taking(s, 4), at);
    TakingSteps(s);
    BeginTurn(p, w, start);
    PopTurn(p, w, start, Taking(s, 1));
    PopTurn(p, w, start, Taking(s, 2));
    PopTurn(p, w, start, Taking(s, 3));
    Two(p, w, start, p1, p2);
    Two(p2, w, start, p3, p4);
    Then(p, w, start, 2, p2, 2, p4);
  }

  lemma PopsOne(p: Pool, w: nat, start: nat, s: D.Deque)
    requires w < |p.workers| == |p.deques| && s.owner.Idle? && s.bottom - 1 == s.top && D.Cell(s, s.top) != NULL
    ensures Goes(Set(p, w, w, Taking(s, 4), Search(InPop)), w, start, 3, Set(p, w, w, AfterPop(s), Running(D.Cell(s, s.top), Body)))
  {
    var at := Search(InPop);
    TakingEnds(s);
    PopTurn(p, w, start, Taking(s, 4));
    PopTurn(p, w, start, Taking(s, 5));
    PopTurn(p, w, start, Taking(s, 6));
    Three(Set(p, w, w, Taking(s, 4), at), w, start, Set(p, w, w, Taking(s, 5), at), Set(p, w, w, Taking(s, 6), at),
          Set(p, w, w, AfterPop(s), Running(D.Cell(s, s.top), Body)));
  }

  lemma PopsOneOfMany(p: Pool, w: nat, start: nat, s: D.Deque)
    requires w < |p.workers| == |p.deques| && s.owner.Idle? && s.top < s.bottom - 1 && D.Cell(s, s.bottom - 1) != NULL
    ensures Goes(Set(p, w, w, Taking(s, 4), Search(InPop)), w, start, 1, Set(p, w, w, AfterPop(s), Running(D.Cell(s, s.bottom - 1), Body)))
  {
    TakingEnds(s);
    PopTurn(p, w, start, Taking(s, 4));
    Once(Set(p, w, w, Taking(s, 4), Search(InPop)), w, start);
  }

  lemma PopFinds(p: Pool, w: nat, start: nat)
    requires w < |p.workers| == |p.deques| && p.workers[w] == Search(AtPop)
    requires var s := p.deques[w]; s.owner.Idle? && s.top < s.bottom && D.Cell(s, s.bottom - 1) != NULL
    ensures var s := p.deques[w];
      Goes(p, w, start, 4 + if s.bottom - 1 == s.top then 3 else 1, Set(p, w, w, AfterPop(s), Running(D.Cell(s, s.bottom - 1), Body)))
  {
    var s := p.deques[w];
    var mid := Set(p, w, w, Taking(s, 4), Search(InPop));
    TakesFour(p, w, start);
    if s.bottom - 1 == s.top { PopsOne(p, w, start, s); } else { PopsOneOfMany(p, w, start, s); }
    Then(p, w, start, 4, mid, if s.bottom - 1 == s.top then 3 else 1,
         Set(p, w, w, AfterPop(s), Running(D.Cell(s, s.bottom - 1), Body)));
  }

  /** First its own deque: the worker runs the task at the back of it. */
  lemma OwnTaskFirst(p: Pool, w: nat, start: nat)
    requires w < |p.workers| == |p.deques| && p.workers[w] == Search(AtPop) && Waits(p.deques[w])
    ensures var s := p.deques[w]; var q := D.Contents(s);
      && Goes(p, w, start, 4 + if |q| == 1 then 3 else 1, Set(p, w, w, AfterPop(s), Running(q[|q| - 1], Body)))
      && D.Contents(AfterPop(s)) == q[..|q| - 1]
  {
    BackOf(p.deques[w]);
    PopFinds(p, w, start);
  }

  /** Then the global queue: with its own deque empty, the worker runs the task at the front of it. */
  lemma ThenTheQueue(p: Pool, w: nat, start: nat)
    requires w < |p.workers| == |p.deques| && p.workers[w] == Search(AtPop) && Rests(p.deques[w]) && p.queue != []
    ensures Goes(p, w, start, 6, p.(queue := p.queue[1..], workers := p.workers[w := Running(p.queue[0], Body)]))
  {
    var next := Search(AtQueue(0));
    PopInVain(p, w, start);
    assert WorkStep(Goto(p, w, next), w, start) == Goto(p.(queue := p.queue[1..]), w, Running(p.queue[0], Body));
    ThenOnce(p, w, start, 5, Goto(p, w, next));
  }

  /** The states that a steal from a deque with a task passes through. */
  function Robbing(s: D.Deque, th: nat, k: nat): D.Deque {
    var t := s.top;
    s.(thieves := s.thieves[th :=
      if k == 1 then D.StealBottom(t)
      else if k == 2 then D.StealArray(t)
      else if k == 3 then D.StealRead(t, s.current)
      else D.StealCas(t, D.Cell(s, t))])
  }

  lemma RobbingSteps(s: D.Deque, th: nat)
    requires th !in s.thieves && s.top < s.bottom
    ensures D.Step(s, D.Steal(th)).next == Robbing(s, th, 1)
    ensures D.Step(Robbing(s, th, 1), D.Thief(th)) == D.Outcome(Robbing(s, th, 2), D.Quiet)
    ensures D.Step(Robbing(s, th, 2), D.Thief(th)) == D.Outcome(Robbing(s, th, 3), D.Quiet)
    ensures D.Step(Robbing(s, th, 3), D.Thief(th)) == D.Outcome(Robbing(s, th, 4), D.Quiet)
    ensures D.Step(Robbing(s, th, 4), D.Thief(th)) == D.Outcome(AfterSteal(s), D.StealDone(th, D.Cell(s, s.top)))
  {
    assert s.thieves[th := D.StealCas(s.top, D.Cell(s, s.top))] - {th} == s.thieves;
  }

  lemma StealFinds(p: Pool, w: nat, start: nat, k: nat, st: nat, i: nat)
    requires w < |p.workers| == |p.deques| && i < |p.deques| && p.workers[w] == Search(Sweeping(k, st, i))
    requires var d := Target(|p.deques|, st, i); var s := p.deques[d];
      d != w && s.top < s.bottom && w !in s.thieves && D.Cell(s, s.top) != NULL
    ensures var d := Target(|p.deques|, st, i); var s := p.deques[d];
      Goes(p, w, start, 5, Set(p, w, d, AfterSteal(s), Running(D.Cell(s, s.top), Body)))
  {
    var d, at := Target(|p.deques|, st, i), Search(InSteal(k, st, i));
    var s := p.deques[d];
    var p1, p2, p3, p4 := Set(p, w, d, Robbing(s, w, 1), at), Set(p, w, d, Robbing(s, w, 2), at),
                          Set(p, w, d, Robbing(s, w, 3), at), Set(p, w, d, Robbing(s, w, 4), at);
    var end := Set(p, w, d, AfterSteal(s), Running(D.Cell(s, s.top), Body));
    RobbingSteps(s, w);
    StealTurn(p, w, start, k, st, i);
    ThiefTurn(p, w, start, k, st, i, Robbing(s, w, 1));
    ThiefTurn(p, w, start, k, st, i, Robbing(s, w, 2));
    ThiefTurn(p, w, start, k, st, i, Robbing(s, w, 3));
    ThiefTurn(p, w, start, k, st, i, Robbing(s, w, 4));
    Three(p, w, start, p1, p2, p3);
    Two(p3, w, start, p4, end);
    Then(p, w, start, 3, p3, 2, end);
  }

  lemma ReachesSweep(p: Pool, w: nat, start: nat)
    requires w < |p.workers| == |p.deques| && 1 < |p.deques|
    requires p.workers[w] == Search(AtPop) && Rests(p.deques[w]) && p.queue == []
    ensures Goes(p, w, start, 7, Goto(p, w, Search(Sweeping(0, start % |p.deques|, 0))))
  {
    var look, sweep := Search(AtQueue(0)), Search(AtSweep(0));
    PopInVain(p, w, start);
    QueueInVain(Goto(p, w, look), w, start, 0);
    GotoGoto(p, w, look, sweep);
    ThenOnce(p, w, start, 5, Goto(p, w, look));
    SweepBegins(Goto(p, w, sweep), w, start, 0);
    GotoGoto(p, w, sweep, Search(Sweeping(0, start % |p.deques|, 0)));
    ThenOnce(p, w, start, 6, Goto(p, w, sweep));
  }

  lemma ReachesVictim(p: Pool, w: nat, start: nat, st: nat, i: nat)
    requires w < |p.workers| == |p.deques| && 1 < |p.deques| && i < |p.deques| && st == start % |p.deques|
    requires p.workers[w] == Search(AtPop) && Rests(p.deques[w]) && p.queue == []
    requires Barren(p.deques, w, st, 0, i)
    ensures Goes(p, w, start, 7 + SweepTurns(|p.deques|, w, st, 0, i), Goto(p, w, Search(Sweeping(0, st, i))))
  {
    var at := Search(Sweeping(0, st, 0));
    ReachesSweep(p, w, start);
    SweepReaches(Goto(p, w, at), w, start, 0, st, 0, i);
    GotoGoto(p, w, at, Search(Sweeping(0, st, i)));
    Then(p, w, start, 7, Goto(p, w, at), SweepTurns(|p.deques|, w, st, 0, i), Goto(p, w, Search(Sweeping(0, st, i))));
  }

  lemma StealsOnTheWay(p: Pool, w: nat, start: nat, st: nat, i: nat)
    requires w < |p.workers| == |p.deques| && i < |p.deques|
    requires Target(|p.deques|, st, i) != w
    requires var s := p.deques[Target(|p.deques|, st, i)]; s.top < s.bottom && w !in s.thieves && D.Cell(s, s.top) != NULL
    ensures var d := Target(|p.deques|, st, i); var s := p.deques[d];
      Goes(Goto(p, w, Search(Sweeping(0, st, i))), w, start, 5, Set(p, w, d, AfterSteal(s), Running(D.Cell(s, s.top), Body)))
  {
    var d := Target(|p.deques|, st, i);
    var s, at := p.deques[d], Search(Sweeping(0, st, i));
    StealFinds(Goto(p, w, at), w, start, 0, st, i);
    SetGoto(p, w, at, d, AfterSteal(s), Running(D.Cell(s, s.top), Body));
  }

  /**
   Then the others: with its own deque and the queue empty, the worker runs the task at the front of
   the first deque in its sweep that has one.
   */
  lemma ThenTheOthers(p: Pool, w: nat, start: nat, st: nat, i: nat)
    requires w < |p.workers| == |p.deques| && 1 < |p.deques| && i < |p.deques| && st == start % |p.deques|
    requires p.workers[w] == Search(AtPop) && Rests(p.deques[w]) && p.queue == []
    requires Barren(p.deques, w, st, 0, i) && Target(|p.deques|, st, i) != w
    requires var s := p.deques[Target(|p.deques|, st, i)]; Waits(s) && w !in s.thieves
    ensures var d := Target(|p.deques|, st, i); var s := p.deques[d];
      && Goes(p, w, start, (7 + SweepTurns(|p.deques|, w, st, 0, i)) + 5, Set(p, w, d, AfterSteal(s), Running(D.Contents(s)[0], Body)))
      && D.Contents(AfterSteal(s)) == D.Contents(s)[1..]
  {
    var d := Target(|p.deques|, st, i);
    var s := p.deques[d];
    FrontOf(s);
    ReachesVictim(p, w, start, st, i);
    StealsOnTheWay(p, w, start, st, i);
    Then(p, w, start, 7 + SweepTurns(|p.deques|, w, st, 0, i), Goto(p, w, Search(Sweeping(0, st, i))),
         5, Set(p, w, d, AfterSteal(s), Running(D.Cell(s, s.top), Body)));
  }

  lemma SetGoto(p: Pool, w: nat, pc: WorkerPc, d: nat, s: D.Deque, pc': WorkerPc)
    requires w < |p.workers| && d < |p.deques|
    ensures Set(Goto(p, w, pc), w, d, s, pc') == Set(p, w, d, s, pc')
  {
  }
}
