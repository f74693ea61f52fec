/**
 Who steals where: in every run a worker is inside steal on a deque exactly while it is at that
 deque in its sweep.  So an idle pool really is one that a worker on its own can go to sleep in.
 */
module PoolThieves {
  import opened Basics
  import opened Ring
  import D = Deque
  import DR = DequeRuns
  import opened Pool
  import opened PoolSafety
  import opened PoolWakeups
  import PoolAlone

  /** Worker `w` is inside steal on deque `d`. */
  predicate StealsAt(p: Pool, w: nat, d: nat) {
    && w < |p.workers| && |p.deques| > 0 && p.workers[w].Search? && p.workers[w].at.InSteal?
    && Target(|p.deques|, p.workers[w].at.start, p.workers[w].at.i) == d
  }

  predicate Agrees(p: Pool, w: nat, d: nat)
    requires d < |p.deques|
  {
    w in p.deques[d].thieves <==> StealsAt(p, w, d)
  }

  lemma OwnersKeepThieves(s: D.Deque, a: D.Action)
    requires OwnerAction(a)
    ensures D.Step(s, a).next.thieves == s.thieves
  {
  }

  lemma ThiefComesAndGoes(s: D.Deque, th: nat)
    ensures th in D.Step(s, D.Steal(th)).next.thieves
    ensures th in s.thieves ==> (th in D.Step(s, D.Thief(th)).next.thieves <==> !D.Step(s, D.Thief(th)).event.StealDone?)
  {
  }

  /** What a step of a worker does to a deque that it is not stealing from. */
  lemma TouchKeeps(deques: seq<D.Deque>, t: Touched, w: nat, d: nat)
    requires d < |deques| && (t.At? && t.d == d ==> t.a != D.Steal(w) && t.a != D.Thief(w))
    ensures w in Touching(deques, t)[d].thieves <==> w in deques[d].thieves
  {
    if t.At? && t.d == d { DR.ThiefUntouched(deques[d], t.a, w); }
  }

  lemma WorkTouchesIs(p: Pool, w: nat, start: nat)
    requires w < |p.workers| == |p.deques|
    ensures WorkStep(p, w, start).deques == Touching(p.deques, Wants(|p.deques|, w, p.workers[w]))
  {
    var t := Wants(|p.deques|, w, p.workers[w]);
    if !p.workers[w].Exited? {
      AdvanceMoves(p.(deques := Touching(p.deques, t)), w, start, EventOf(p.deques, t));
    }
  }

  lemma OtherWorks(p: Pool, v: nat, start: nat, w: nat, d: nat)
    requires v < |p.workers| == |p.deques| && v != w && d < |p.deques| && Agrees(p, w, d)
    ensures Agrees(WorkStep(p, v, start), w, d)
  {
    WorkTouchesIs(p, v, start);
    WorkMovesItself(p, v, start);
    TouchKeeps(p.deques, Wants(|p.deques|, v, p.workers[v]), w, d);
  }

  lemma StealBegins(p: Pool, w: nat, start: nat, d: nat)
    requires w < |p.workers| == |p.deques| && d < |p.deques| && Agrees(p, w, d)
    requires p.workers[w].Search? && p.workers[w].at.Sweeping?
    ensures Agrees(WorkStep(p, w, start), w, d)
  {
    WorkTouchesIs(p, w, start);
    var n, at := |p.deques|, p.workers[w].at;
    if at.i < n && Target(n, at.start, at.i) != w {
      if Target(n, at.start, at.i) == d {
        ThiefComesAndGoes(p.deques[d], w);
      } else {
        TouchKeeps(p.deques, Wants(n, w, p.workers[w]), w, d);
      }
    }
  }

  lemma StealGoesOn(p: Pool, w: nat, start: nat, d: nat)
    requires w < |p.workers| == |p.deques| && d < |p.deques| && Agrees(p, w, d)
    requires p.workers[w].Search? && p.workers[w].at.InSteal?
    ensures Agrees(WorkStep(p, w, start), w, d)
  {
    WorkTouchesIs(p, w, start);
    var n, at := |p.deques|, p.workers[w].at;
    if Target(n, at.start, at.i) == d {
      ThiefComesAndGoes(p.deques[d], w);
    } else {
      TouchKeeps(p.deques, Wants(n, w, p.workers[w]), w, d);
    }
  }

  lemma StealsOnlyFromSweep(p: Pool, w: nat, start: nat)
    requires w < |p.workers| == |p.deques|
    requires !(p.workers[w].Search? && (p.workers[w].at.Sweeping? || p.workers[w].at.InSteal?))
    ensures var pc' := WorkStep(p, w, start).workers[w]; !(pc'.Search? && pc'.at.InSteal?)
  {
  }

  lemma OwnWork(p: Pool, w: nat, start: nat, d: nat)
    requires w < |p.workers| == |p.deques| && d < |p.deques| && Agrees(p, w, d)
    ensures Agrees(WorkStep(p, w, start), w, d)
  {
    if p.workers[w].Search? && p.workers[w].at.Sweeping? {
      StealBegins(p, w, start, d);
    } else if p.workers[w].Search? && p.workers[w].at.InSteal? {
      StealGoesOn(p, w, start, d);
    } else {
      WorkTouchesIs(p, w, start);
      StealsOnlyFromSweep(p, w, start);
      TouchKeeps(p.deques, Wants(|p.deques|, w, p.workers[w]), w, d);
    }
  }

  lemma ThievesStay(p: Pool, act: Action, d: nat)
    requires |p.workers| == |p.deques| && d < |p.deques| && !act.Work?
    ensures Step(p, act).deques[d].thieves == p.deques[d].thieves
  {
    if act.Spawn? && act.w == d { OwnersKeepThieves(p.deques[d], D.Push(act.x)); }
  }

  lemma OthersAgree(p: Pool, act: Action, w: nat, d: nat)
    requires |p.workers| == |p.deques| && d < |p.deques| && !act.Work? && Agrees(p, w, d)
    ensures Agrees(Step(p, act), w, d)
  {
    ThievesStay(p, act, d);
    if w < |p.workers| { StealersStay(p, act, w); }
  }

  /** Only its own steps take a worker into a steal or out of one. */
  lemma StealersStay(p: Pool, act: Action, w: nat)
    requires w < |p.workers| == |p.deques| && !act.Work?
    ensures var pc, pc' := p.workers[w], Step(p, act).workers[w];
      (pc.Search? && pc.at.InSteal?) || (pc'.Search? && pc'.at.InSteal?) ==> pc' == pc
  {
  }

  /** In every run: inside steal on a deque exactly while at that deque in a sweep. */
  lemma {:induction false} ThievesAreInTheirSweeps(n: nat, m: nat, capacity: nat, acts: seq<Action>, w: nat, d: nat)
    requires d < |Init(n, m, capacity).deques|
    ensures Agrees(After(Init(n, m, capacity), acts), w, d)
  {
    if acts != [] {
      var p, act := After(Init(n, m, capacity), acts[..|acts| - 1]), acts[|acts| - 1];
      ThievesAreInTheirSweeps(n, m, capacity, acts[..|acts| - 1], w, d);
      if !act.Work? {
        OthersAgree(p, act, w, d);
      } else if act.w < |p.workers| {
        if act.w == w { OwnWork(p, w, act.start, d); } else { OtherWorks(p, act.w, act.start, w, d); }
      }
    }
  }

  lemma EmptyRests(s: D.Deque)
    requires D.Inv(s) && s.owner.Idle? && D.Contents(s) == []
    ensures PoolAlone.Rests(s)
  {
  }

  /** A pool in which nothing is queued and no owner is busy is quiet for every worker between searches. */
  lemma IdleIsQuiet(n: nat, m: nat, capacity: nat, acts: seq<Action>, w: nat)
    requires PowerOfTwo(capacity)
    requires var p := After(Init(n, m, capacity), acts);
      && w < |p.workers| && !(p.workers[w].Search? && p.workers[w].at.InSteal?) && p.queue == []
      && forall d :: 0 <= d < |p.deques| ==> p.deques[d].owner.Idle? && D.Contents(p.deques[d]) == []
    ensures PoolAlone.Quiet(After(Init(n, m, capacity), acts), w)
  {
    var p := After(Init(n, m, capacity), acts);
    AlwaysSafe(n, m, capacity, acts);
    forall d | 0 <= d < |p.deques|
      ensures PoolAlone.Rests(p.deques[d]) && w !in p.deques[d].thieves
    {
      EmptyRests(p.deques[d]);
      ThievesAreInTheirSweeps(n, m, capacity, acts, w, d);
    }
  }

  lemma NothingToDoIsIdle(p: Pool, w: nat)
    requires Safe(p) && w < |p.workers| && p.queue == []
    requires forall d :: 0 <= d < |p.deques| ==> p.deques[d].owner.Idle? && D.Contents(p.deques[d]) == []
    ensures PoolAlone.Idle(p, w)
  {
    forall d | 0 <= d < |p.deques| ensures PoolAlone.Rests(p.deques[d]) { EmptyRests(p.deques[d]); }
  }

  /**
   The predicate blocks in every safe state with nothing to do: not stopped, nothing queued, every
   deque idle and empty.  Two steps, two for each deque and one more, and the mutex is free.
   */
  lemma NothingToDoBlocks(p: Pool, w: nat, start: nat)
    requires Safe(p) && w < |p.workers| && p.workers[w] == Sleep(PredStop) && !p.stop && p.queue == []
    requires forall d :: 0 <= d < |p.deques| ==> p.deques[d].owner.Idle? && D.Contents(p.deques[d]) == []
    ensures PoolAlone.Goes(p, w, start, 2 + 2 * |p.deques| + 1,
                           p.(mutex := Free, workers := p.workers[w := Sleep(Blocked)]))
  {
    NothingToDoIsIdle(p, w);
    PoolAlone.IdlePredicateBlocks(p, w, start);
  }
}
