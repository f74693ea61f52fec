/**
 The deque in the form of the source: fields updated in place by `Push`, `Pop` and `Steal`,
 with the other threads free to interfere between any two atomic accesses.

 `owner` and `thieves` record how far each call under way has got.  The ghost field `log` is a
 schedule of the deque machine, and `Valid` says that the fields are the state that this
 schedule leads to: every method below is proved to take exactly the machine's steps, and every
 result about runs of the machine holds of the object.
 */
module InPlaceDeque {
  import opened Basics
  import opened Ring
  import D = Deque
  import DS = DequeSafety
  import DR = DequeRuns
  import DO = DequeOrder

  /** The states that a schedule passes through, and its events. */
  ghost predicate IsTrace(trace: seq<D.Deque>, log: seq<D.Action>, es: seq<D.Event>) {
    && |trace| == |log| + 1 && |es| == |log|
    && (forall i {:trigger es[i]} :: 0 <= i < |log| ==> D.Step(trace[i], log[i]) == D.Outcome(trace[i + 1], es[i]))
  }

  /**
   A schedule of the machine, from an empty deque of the given capacity: the state it leads to,
   the tasks it has been asked to push, the results its pops have returned and the tasks stolen.
   */
  ghost predicate Tracks(capacity: nat, log: seq<D.Action>, s: D.Deque, pushed: seq<Ptr>, returned: seq<Ptr>, stolen: seq<Ptr>) {
    PowerOfTwo(capacity) &&
    exists trace, es :: IsTrace(trace, log, es)
      && trace[0] == D.Init(capacity) && trace[|log|] == s
      && pushed == DR.Collect(DR.Called, es) && returned == DR.Collect(DR.Returned, es) && stolen == DR.Collect(DR.Robbed, es)
  }

  lemma Step(capacity: nat, log: seq<D.Action>, s: D.Deque, pushed: seq<Ptr>, returned: seq<Ptr>, stolen: seq<Ptr>, a: D.Action)
    requires Tracks(capacity, log, s, pushed, returned, stolen)
    ensures var o := D.Step(s, a);
      Tracks(capacity, log + [a], o.next,
             pushed + DR.Called(o.event), returned + DR.Returned(o.event), stolen + DR.Robbed(o.event))
  {
    var o := D.Step(s, a);
    var trace, es :| IsTrace(trace, log, es) && trace[0] == D.Init(capacity) && trace[|log|] == s
      && pushed == DR.Collect(DR.Called, es) && returned == DR.Collect(DR.Returned, es) && stolen == DR.Collect(DR.Robbed, es);
    DR.CollectSnoc(DR.Called, es, o.event);
    DR.CollectSnoc(DR.Returned, es, o.event);
    DR.CollectSnoc(DR.Robbed, es, o.event);
    assert IsTrace(trace + [o.next], log + [a], es + [o.event]);
  }

  lemma {:induction false} TraceIsRun(trace: seq<D.Deque>, log: seq<D.Action>, es: seq<D.Event>)
    requires IsTrace(trace, log, es)
    ensures trace[|log|] == DR.After(trace[0], log) && es == DR.Events(trace[0], log)
  {
    if log != [] {
      var n := |log| - 1;
      assert IsTrace(trace[..n + 1], log[..n], es[..n]);
      TraceIsRun(trace[..n + 1], log[..n], es[..n]);
      assert es == es[..n] + [es[n]];
    }
  }

  lemma Sound(capacity: nat, log: seq<D.Action>, s: D.Deque, pushed: seq<Ptr>, returned: seq<Ptr>, stolen: seq<Ptr>)
    requires Tracks(capacity, log, s, pushed, returned, stolen)
    ensures D.Inv(s)
  {
    var _ := Explained(capacity, log, s, pushed, returned, stolen);
  }

  /**
   The object is linearisable: at every moment there is a sequential history of pushes, pops and
   steals that a sequential deque allows, that leaves the object's tasks, and that accounts for
   everything pushed so far, every result of a pop and every task stolen.
   */
  lemma Explained(capacity: nat, log: seq<D.Action>, s: D.Deque, pushed: seq<Ptr>, returned: seq<Ptr>, stolen: seq<Ptr>)
    returns (ops: seq<DS.SpecOp>)
    requires Tracks(capacity, log, s, pushed, returned, stolen)
    ensures D.Inv(s)
    ensures DR.Replay(ops) == DR.Queue(D.Contents(s))
    ensures pushed == DR.Collect(DR.Appended, ops) + DR.Offered(s)
    ensures DR.Collect(DR.Popped, ops) == returned + DR.Settled(s)
    ensures DR.Collect(DR.Stolen, ops) == stolen
  {
    var trace, es :| IsTrace(trace, log, es) && trace[0] == D.Init(capacity) && trace[|log|] == s
      && pushed == DR.Collect(DR.Called, es) && returned == DR.Collect(DR.Returned, es) && stolen == DR.Collect(DR.Robbed, es);
    TraceIsRun(trace, log, es);
    DR.Linearizable(capacity, log);
    ops := DR.Labels(D.Init(capacity), log);
  }

  /** What an operation does to the stolen tasks followed by the queue: a steal moves nothing. */
  ghost predicate Moved(op: DS.SpecOp, before: seq<Ptr>, after: seq<Ptr>) {
    match op
    case Append(x) => after == before + [x]
    case TakeBack(x) => before == after + [x] && x != NULL
    case _ => after == before
  }

  lemma ApplyMoves(stolen: seq<Ptr>, q: seq<Ptr>, op: DS.SpecOp)
    requires DS.Allows(q, op)
    ensures Moved(op, stolen + q, (stolen + DR.Stolen(op)) + DS.Apply(q, op))
  {
    match op
    case TakeFront(x) => assert q == [x] + q[1..];
    case TakeBack(x) => assert q == q[..|q| - 1] + [x];
    case _ =>
  }

  lemma Effect(capacity: nat, log: seq<D.Action>, s: D.Deque, pushed: seq<Ptr>, returned: seq<Ptr>, stolen: seq<Ptr>, a: D.Action)
    requires Tracks(capacity, log, s, pushed, returned, stolen)
    ensures var o := D.Step(s, a);
      Moved(DS.Label(s, a), stolen + D.Contents(s), (stolen + DR.Robbed(o.event)) + D.Contents(o.next))
  {
    Sound(capacity, log, s, pushed, returned, stolen);
    DS.StepRefines(s, a);
    DR.StepMatches(s, a);
    ApplyMoves(stolen, D.Contents(s), DS.Label(s, a));
  }

  lemma RestoreIsEmpty(capacity: nat, log: seq<D.Action>, s: D.Deque, pushed: seq<Ptr>, returned: seq<Ptr>, stolen: seq<Ptr>)
    requires Tracks(capacity, log, s, pushed, returned, stolen) && s.owner.PopRestore?
    ensures D.Contents(D.OwnerStep(s).next) == []
  {
    Sound(capacity, log, s, pushed, returned, stolen);
    DS.OwnerStepOk(s);
  }

  lemma PopReadFits(capacity: nat, log: seq<D.Action>, s: D.Deque, pushed: seq<Ptr>, returned: seq<Ptr>, stolen: seq<Ptr>)
    requires Tracks(capacity, log, s, pushed, returned, stolen) && s.owner.PopRead?
    ensures s.owner.t <= s.owner.b && s.owner.a == s.current
    ensures s.owner.t < s.owner.b ==> D.OwnerStep(s).event.PopDone? && D.OwnerStep(s).event.r != NULL
  {
    Sound(capacity, log, s, pushed, returned, stolen);
  }

  lemma StolenIsReal(capacity: nat, log: seq<D.Action>, s: D.Deque, pushed: seq<Ptr>, returned: seq<Ptr>, stolen: seq<Ptr>, th: nat)
    requires Tracks(capacity, log, s, pushed, returned, stolen)
    requires th in s.thieves && s.thieves[th].StealCas? && s.thieves[th].t == s.top
    ensures s.thieves[th].x != NULL
  {
    Sound(capacity, log, s, pushed, returned, stolen);
    assert D.ThiefOk(s, s.thieves[th]);
  }

  /** One more slot copied: the new array agrees with the old one up to and including index `i`. */
  lemma CopyExtends(capacity: nat, log: seq<D.Action>, s: D.Deque, pushed: seq<Ptr>, returned: seq<Ptr>, stolen: seq<Ptr>)
    requires Tracks(capacity, log, s, pushed, returned, stolen) && s.owner.GrowStore?
    ensures var GrowStore(x, b, t, a, n, i, v) := s.owner;
      a != n && a < |s.rings| && n < |s.rings| && Agree(Put(s.rings[n], i, v), s.rings[a], t, i + 1)
  {
    Sound(capacity, log, s, pushed, returned, stolen);
    DS.CopyOne(s);
  }

  lemma RunsTo(capacity: nat, log: seq<D.Action>, s: D.Deque, pushed: seq<Ptr>, returned: seq<Ptr>, stolen: seq<Ptr>)
    requires Tracks(capacity, log, s, pushed, returned, stolen)
    ensures s == DR.After(D.Init(capacity), log)
  {
    var trace, es :| IsTrace(trace, log, es) && trace[0] == D.Init(capacity) && trace[|log|] == s;
    TraceIsRun(trace, log, es);
  }

  /** The event and the sequential operation of one more step. */
  lemma LastStep(capacity: nat, log: seq<D.Action>, s: D.Deque, pushed: seq<Ptr>, returned: seq<Ptr>, stolen: seq<Ptr>, a: D.Action)
    requires Tracks(capacity, log, s, pushed, returned, stolen)
    ensures DR.Events(D.Init(capacity), log + [a])[|log|] == D.Step(s, a).event
    ensures DR.Labels(D.Init(capacity), log + [a])[|log|] == DS.Label(s, a)
  {
    RunsTo(capacity, log, s, pushed, returned, stolen);
    assert (log + [a])[..|log|] == log;
    DO.StepAt(D.Init(capacity), log + [a], |log|);
  }

  lemma CasStep(s: D.Deque, th: nat)
    requires th in s.thieves && s.thieves[th].StealCas?
    ensures var won, x := s.thieves[th].t == s.top, s.thieves[th].x;
      && D.Step(s, D.Thief(th)).event == D.StealDone(th, if won then x else NULL)
      && DS.Label(s, D.Thief(th)) == if won then DS.TakeFront(x) else DS.Skip
  {
  }

  /** What a thief's compare-exchange returns, in the run and in its sequential history. */
  lemma CasReturns(capacity: nat, log: seq<D.Action>, s: D.Deque, pushed: seq<Ptr>, returned: seq<Ptr>, stolen: seq<Ptr>, th: nat)
    requires Tracks(capacity, log, s, pushed, returned, stolen) && th in s.thieves && s.thieves[th].StealCas?
    ensures var won, x := s.thieves[th].t == s.top, s.thieves[th].x;
      && (won ==> x != NULL)
      && DR.Events(D.Init(capacity), log + [D.Thief(th)])[|log|] == D.StealDone(th, if won then x else NULL)
      && DR.Labels(D.Init(capacity), log + [D.Thief(th)])[|log|] == if won then DS.TakeFront(x) else DS.Skip
  {
    CasStep(s, th);
    if s.thieves[th].t == s.top { StolenIsReal(capacity, log, s, pushed, returned, stolen, th); }
    LastStep(capacity, log, s, pushed, returned, stolen, D.Thief(th));
  }

  class WorkStealingDeque {
    const capacity: nat
    var top: int
    var bottom: int
    var rings: seq<Ring>
    var current: nat
    var history: seq<nat>
    var owner: D.OwnerPc
    var thieves: map<nat, D.ThiefPc>
    ghost var log: seq<D.Action>
    ghost var pushed: seq<Ptr>
    ghost var returned: seq<Ptr>
    ghost var stolen: seq<Ptr>

    function State(): D.Deque
      reads this
    {
      D.Deque(top, bottom, rings, current, history, owner, thieves)
    }

    function Slot(a: nat, i: int): Ptr
      reads this
    {
      if a < |rings| then Get(rings[a], i) else NULL
    }

    ghost predicate Valid()
      reads this
    {
      Tracks(capacity, log, State(), pushed, returned, stolen)
    }

    /** Every task that a thief has taken from the front, and then the queue. */
    ghost function Flow(): seq<Ptr>
      reads this
    {
      stolen + D.Contents(State())
    }

    constructor (initialCapacity: nat)
      requires PowerOfTwo(initialCapacity)
      ensures Valid() && capacity == initialCapacity && State() == D.Init(capacity)
      ensures pushed == [] && returned == [] && stolen == []
    {
      capacity := initialCapacity;
      top, bottom := 0, 0;
      rings, current, history := [Fresh(initialCapacity)], 0, [];
      owner, thieves := D.Idle, map[];
      log, pushed, returned, stolen := [], [], [], [];
      new;
      assert IsTrace([State()], [], []);
    }

    /** Records a step: the fields have just moved from state `s` as the machine does on `act`. */
    ghost method Record(s: D.Deque, act: D.Action)
      requires Tracks(capacity, log, s, pushed, returned, stolen) && State() == D.Step(s, act).next
      modifies `log, `pushed, `returned, `stolen
      ensures Valid() && log == old(log) + [act]
      ensures var e := D.Step(s, act).event;
        && pushed == old(pushed) + DR.Called(e) && returned == old(returned) + DR.Returned(e)
        && stolen == old(stolen) + DR.Robbed(e)
      ensures Moved(DS.Label(s, act), old(stolen) + D.Contents(s), Flow())
    {
      var e := D.Step(s, act).event;
      Step(capacity, log, s, pushed, returned, stolen, act);
      Effect(capacity, log, s, pushed, returned, stolen, act);
      log, pushed, returned, stolen := log + [act], pushed + DR.Called(e), returned + DR.Returned(e), stolen + DR.Robbed(e);
    }

    /** Any number of steps of any thieves: they take tasks from the front, and nothing else. */
    method Interfere()
      requires Valid()
      modifies this
      ensures Valid() && pushed == old(pushed) && returned == old(returned) && owner == old(owner)
      ensures bottom == old(bottom) && rings == old(rings) && current == old(current) && history == old(history)
      ensures Flow() == old(Flow()) && |old(stolen)| <= |stolen|
    {
      var k: nat := *;
      while k > 0
        modifies `top, `thieves, `log, `pushed, `returned, `stolen
        invariant Valid() && Flow() == old(Flow()) && |old(stolen)| <= |stolen| && pushed == old(pushed) && returned == old(returned)
      {
        var th: nat := *;
        if * {
          ThiefCalls(th);
        } else {
          ThiefMoves(th);
        }
        k := k - 1;
      }
    }

    method ThiefCalls(th: nat)
      requires Valid()
      modifies `thieves, `log, `pushed, `returned, `stolen
      ensures Valid() && Flow() == old(Flow()) && |old(stolen)| <= |stolen| && pushed == old(pushed) && returned == old(returned)
    {
      ghost var s := State();
      if th !in thieves {
        thieves := thieves[th := D.StealBottom(top)];
      }
      Record(s, D.Steal(th));
    }

    /** The next atomic access of thief `th` inside steal. */
    method ThiefMoves(th: nat)
      requires Valid()
      modifies `top, `thieves, `log, `pushed, `returned, `stolen
      ensures Valid() && Flow() == old(Flow()) && |old(stolen)| <= |stolen| && pushed == old(pushed) && returned == old(returned)
    {
      ghost var s := State();
      if th in thieves {
        match thieves[th]
        case StealBottom(t) =>
          if bottom - t <= 0 { thieves := thieves - {th}; } else { thieves := thieves[th := D.StealArray(t)]; }
        case StealArray(t) => thieves := thieves[th := D.StealRead(t, current)];
        case StealRead(t, a) => thieves := thieves[th := D.StealCas(t, Slot(a, t))];
        case StealCas(t, x) =>
          if top == t { top := t + 1; }
          thieves := thieves - {th};
      }
      Record(s, D.Thief(th));
    }

    // ---------------------------------------------------------------- the atomic accesses of steal

    /** Takes over a state. */
    method Become(next: D.Deque)
      modifies `top, `bottom, `rings, `current, `history, `owner, `thieves
      ensures State() == next
    {
      top, bottom, rings, current := next.top, next.bottom, next.rings, next.current;
      history, owner, thieves := next.history, next.owner, next.thieves;
    }

    /** One step of somebody: the owner or a thief. */
    method Somebody(act: D.Action)
      requires Valid()
      modifies this
      ensures Valid() && log == old(log) + [act] && State() == D.Step(old(State()), act).next
    {
      ghost var s := State();
      Become(D.Step(State(), act).next);
      Record(s, act);
    }

    /** Any number of steps of the owner and of the thieves other than `th`. */
    method Others(th: nat)
      requires Valid()
      modifies this
      ensures Valid() && old(log) <= log
      ensures (th in thieves <==> th in old(thieves)) && (th in thieves ==> thieves[th] == old(thieves)[th])
    {
      var k: nat := *;
      while k > 0
        invariant Valid() && old(log) <= log
        invariant (th in thieves <==> th in old(thieves)) && (th in thieves ==> thieves[th] == old(thieves)[th])
      {
        var act: D.Action := *;
        if act != D.Steal(th) && act != D.Thief(th) {
          DR.ThiefUntouched(State(), act, th);
          Somebody(act);
        }
        k := k - 1;
      }
    }

    /** The last step of the run so far is that thief `th` returns `r`. */
    ghost predicate Returns(th: nat, r: Ptr)
      reads this
    {
      && log != [] && th !in thieves
      && DR.Events(D.Init(capacity), log)[|log| - 1] == D.StealDone(th, r)
      && DR.Labels(D.Init(capacity), log)[|log| - 1] == (if r == NULL then DS.Skip else DS.TakeFront(r))
      && (r != NULL ==> stolen != [] && stolen[|stolen| - 1] == r)
    }

    method StealLoadTop(th: nat) returns (t: int)
      requires Valid() && th !in thieves
      modifies this
      ensures Valid() && old(log) < log && th in thieves && thieves[th] == D.StealBottom(t)
    {
      Others(th);
      ghost var s := State();
      t := top;
      thieves := thieves[th := D.StealBottom(t)];
      Record(s, D.Steal(th));
    }

    method StealLoadBottom(th: nat, t: int) returns (b: int)
      requires Valid() && th in thieves && thieves[th] == D.StealBottom(t)
      modifies this
      ensures Valid() && old(log) < log
      ensures if b - t <= 0 then Returns(th, NULL) else th in thieves && thieves[th] == D.StealArray(t)
    {
      Others(th);
      LastStep(capacity, log, State(), pushed, returned, stolen, D.Thief(th));
      ghost var s := State();
      b := bottom;
      thieves := if b - t <= 0 then thieves - {th} else thieves[th := D.StealArray(t)];
      Record(s, D.Thief(th));
    }

    method StealLoadArray(th: nat, t: int) returns (a: nat)
      requires Valid() && th in thieves && thieves[th] == D.StealArray(t)
      modifies this
      ensures Valid() && old(log) < log && th in thieves && thieves[th] == D.StealRead(t, a)
    {
      Others(th);
      ghost var s := State();
      a := current;
      thieves := thieves[th := D.StealRead(t, a)];
      Record(s, D.Thief(th));
    }

    method StealLoadTask(th: nat, t: int, a: nat) returns (task: Ptr)
      requires Valid() && th in thieves && thieves[th] == D.StealRead(t, a)
      modifies this
      ensures Valid() && old(log) < log && th in thieves && thieves[th] == D.StealCas(t, task)
    {
      Others(th);
      ghost var s := State();
      task := Slot(a, t);
      thieves := thieves[th := D.StealCas(t, task)];
      Record(s, D.Thief(th));
    }

    method StealCasTop(th: nat, t: int, task: Ptr) returns (won: bool)
      requires Valid() && th in thieves && thieves[th] == D.StealCas(t, task)
      modifies this
      ensures Valid() && old(log) < log && Returns(th, if won then task else NULL) && (won ==> task != NULL)
    {
      Others(th);
      CasReturns(capacity, log, State(), pushed, returned, stolen, th);
      ghost var s := State();
      won := top == t;
      if won {
        top := t + 1;
      }
      thieves := thieves - {th};
      Record(s, D.Thief(th));
    }

    /**
     Takes the oldest task, or returns null.  A task that it returns is the front of the queue at
     the moment of its last step, and is removed from the queue by that step.
     */
    method Steal(th: nat) returns (task: Ptr)
      requires Valid() && th !in thieves
      modifies this
      ensures Valid() && old(log) < log && Returns(th, task)
    {
      var t := StealLoadTop(th);
      var b := StealLoadBottom(th, t);
      var size := b - t;
      if size <= 0 {
        return NULL;
      }
      var a := StealLoadArray(th, t);
      task := StealLoadTask(th, t, a);
      var won := StealCasTop(th, t, task);
      if !won {
        return NULL;
      }
    }

    // ---------------------------------------------------------------- the atomic accesses of pop

    method PopLoadBottom() returns (b: int)
      requires Valid() && owner.Idle?
      modifies this
      ensures Valid() && owner == D.PopArray(b - 1) && pushed == old(pushed) && returned == old(returned)
      ensures Flow() == old(Flow()) && |old(stolen)| <= |stolen|
    {
      Interfere();
      ghost var s := State();
      b := bottom;
      owner := D.PopArray(b - 1);
      Record(s, D.Pop);
    }

    method PopLoadArray(b: int) returns (a: nat)
      requires Valid() && owner == D.PopArray(b)
      modifies this
      ensures Valid() && owner == D.PopStore(b, a) && pushed == old(pushed) && returned == old(returned)
      ensures Flow() == old(Flow()) && |old(stolen)| <= |stolen|
    {
      Interfere();
      ghost var s := State();
      a := current;
      owner := D.PopStore(b, a);
      Record(s, D.Owner);
    }

    method PopStoreBottom(b: int, a: nat)
      requires Valid() && owner == D.PopStore(b, a)
      modifies this
      ensures Valid() && owner == D.PopTop(b, a) && pushed == old(pushed) && returned == old(returned)
      ensures Flow() == old(Flow()) && |old(stolen)| <= |stolen|
    {
      Interfere();
      ghost var s := State();
      bottom := b;
      owner := D.PopTop(b, a);
      Record(s, D.Owner);
    }

    method PopLoadTop(b: int, a: nat) returns (t: int)
      requires Valid() && owner == D.PopTop(b, a)
      modifies this
      ensures Valid() && pushed == old(pushed) && returned == old(returned)
      ensures old(Flow()) == Flow() + (if t < b then [D.Cell(State(), b)] else []) && |old(stolen)| <= |stolen|
      ensures owner == if b - t < 0 then D.PopRestore(b, NULL) else D.PopRead(b, a, t)
    {
      Interfere();
      ghost var s := State();
      t := top;
      owner := if b - t < 0 then D.PopRestore(b, NULL) else D.PopRead(b, a, t);
      Record(s, D.Owner);
    }

    method PopLoadTask(b: int, a: nat, t: int) returns (task: Ptr)
      requires Valid() && owner == D.PopRead(b, a, t)
      modifies this
      ensures Valid() && pushed == old(pushed)
      ensures owner == if b - t == 0 then D.PopCas(b, t, task) else D.Idle
      ensures returned == if b - t == 0 then old(returned) else old(returned) + [task]
      ensures Flow() == old(Flow()) && |old(stolen)| <= |stolen| && (b - t == 0 || task == old(D.Cell(State(), b)) != NULL)
    {
      Interfere();
      PopReadFits(capacity, log, State(), pushed, returned, stolen);
      ghost var s := State();
      task := Slot(a, b);
      if b - t == 0 {
        owner := D.PopCas(b, t, task);
        Record(s, D.Owner);
      } else {
        owner := D.Idle;
        Record(s, D.Owner);
      }
    }

    method PopCasTop(b: int, t: int, task: Ptr) returns (won: bool)
      requires Valid() && owner == D.PopCas(b, t, task)
      modifies this
      ensures Valid() && pushed == old(pushed) && returned == old(returned)
      ensures old(Flow()) == Flow() + (if won then [task] else []) && |old(stolen)| <= |stolen| && (won ==> task != NULL)
      ensures owner == D.PopRestore(b, if won then task else NULL)
    {
      Interfere();
      ghost var s := State();
      won := top == t;
      if won {
        top := t + 1;
      }
      owner := D.PopRestore(b, if won then task else NULL);
      Record(s, D.Owner);
    }

    method PopRestoreBottom(b: int, r: Ptr)
      requires Valid() && owner == D.PopRestore(b, r)
      modifies this
      ensures Valid() && owner.Idle? && pushed == old(pushed) && returned == old(returned) + [r]
      ensures D.Contents(State()) == [] && Flow() == old(Flow()) && |old(stolen)| <= |stolen|
    {
      Interfere();
      RestoreIsEmpty(capacity, log, State(), pushed, returned, stolen);
      ghost var s := State();
      bottom := b + 1;
      owner := D.Idle;
      Record(s, D.Owner);
    }

    /** The last task: the owner competes for it with the thieves. */
    method PopLast(b: int, t: int, task: Ptr) returns (r: Ptr)
      requires Valid() && owner == D.PopCas(b, t, task)
      modifies this
      ensures Valid() && owner.Idle? && pushed == old(pushed) && returned == old(returned) + [r]
      ensures old(Flow()) == Flow() + (if r != NULL then [r] else []) && |old(stolen)| <= |stolen|
      ensures D.Contents(State()) == []
    {
      var won := PopCasTop(b, t, task);
      r := if won then task else NULL;
      PopRestoreBottom(b, r);
    }

    /**
     Takes the newest task, or returns null, and null only from an empty deque.  Whatever the
     thieves take meanwhile they take from the front.
     */
    method Pop() returns (task: Ptr)
      requires Valid() && owner.Idle?
      modifies this
      ensures Valid() && owner.Idle?
      ensures pushed == old(pushed) && returned == old(returned) + [task]
      ensures old(Flow()) == Flow() + (if task != NULL then [task] else []) && |old(stolen)| <= |stolen|
      ensures task == NULL ==> D.Contents(State()) == []
    {
      var b := PopLoadBottom();
      b := b - 1;
      var a := PopLoadArray(b);
      PopStoreBottom(b, a);
      var t := PopLoadTop(b, a);
      var size := b - t;
      if size < 0 {
        PopRestoreBottom(b, NULL);
        return NULL;
      }
      task := PopLoadTask(b, a, t);
      if size == 0 {
        task := PopLast(b, t, task);
      }
    }

    // ---------------------------------------------------------------- the atomic accesses of push

    method PushLoadBottom(task: Ptr) returns (b: int)
      requires Valid() && owner.Idle? && task != NULL
      modifies this
      ensures Valid() && owner == D.PushTop(task, b) && pushed == old(pushed) + [task] && returned == old(returned)
      ensures Flow() == old(Flow()) && |old(stolen)| <= |stolen|
    {
      Interfere();
      ghost var s := State();
      b := bottom;
      owner := D.PushTop(task, b);
      Record(s, D.Push(task));
    }

    method PushLoadTop(task: Ptr, b: int) returns (t: int)
      requires Valid() && owner == D.PushTop(task, b)
      modifies this
      ensures Valid() && owner == D.PushArray(task, b, t) && pushed == old(pushed) && returned == old(returned)
      ensures Flow() == old(Flow()) && |old(stolen)| <= |stolen|
    {
      Interfere();
      ghost var s := State();
      t := top;
      owner := D.PushArray(task, b, t);
      Record(s, D.Owner);
    }

    /** Loads the array pointer and, if the array is full, allocates one of twice the capacity. */
    method PushLoadArray(task: Ptr, b: int, t: int) returns (a: nat, full: bool, n: nat)
      requires Valid() && owner == D.PushArray(task, b, t)
      modifies this
      ensures Valid() && pushed == old(pushed) && returned == old(returned)
      ensures Flow() == old(Flow()) && |old(stolen)| <= |stolen|
      ensures owner == if full then D.CopyFrom(task, b, t, a, n, t) else D.PutSlot(task, b, a)
    {
      Interfere();
      ghost var s := State();
      a, n := current, |rings|;
      var size, room := b - t, if a < |rings| then |rings[a].buffer| else 0;
      full := size >= room - 1;
      if full {
        rings := rings + [Fresh(2 * room)];
      }
      owner := if full then D.CopyFrom(task, b, t, a, n, t) else D.PutSlot(task, b, a);
      Record(s, D.Owner);
    }

    method GrowLoadSlot(task: Ptr, b: int, t: int, a: nat, n: nat, i: int) returns (v: Ptr)
      requires Valid() && owner == D.GrowLoad(task, b, t, a, n, i)
      modifies this
      ensures Valid() && owner == D.GrowStore(task, b, t, a, n, i, v) && pushed == old(pushed) && returned == old(returned)
      ensures Flow() == old(Flow()) && |old(stolen)| <= |stolen|
    {
      Interfere();
      ghost var s := State();
      v := Slot(a, i);
      owner := D.GrowStore(task, b, t, a, n, i, v);
      Record(s, D.Owner);
    }

    method GrowStoreSlot(task: Ptr, b: int, t: int, a: nat, n: nat, i: int, v: Ptr)
      requires Valid() && owner == D.GrowStore(task, b, t, a, n, i, v)
      modifies this
      ensures Valid() && owner == D.CopyFrom(task, b, t, a, n, i + 1) && pushed == old(pushed) && returned == old(returned)
      ensures Flow() == old(Flow()) && |old(stolen)| <= |stolen|
      ensures Agree(D.RingAt(State(), n), D.RingAt(State(), a), t, i + 1)
    {
      Interfere();
      CopyExtends(capacity, log, State(), pushed, returned, stolen);
      ghost var s := State();
      if n < |rings| {
        rings := rings[n := Put(rings[n], i, v)];
      }
      owner := D.CopyFrom(task, b, t, a, n, i + 1);
      Record(s, D.Owner);
    }

    /** The copy loop of `grow`: the new array holds the same task at every logical index from `t` to `b`. */
    method Grow(task: Ptr, b: int, t: int, a: nat, n: nat)
      requires Valid() && owner == D.CopyFrom(task, b, t, a, n, t)
      modifies this
      ensures Valid() && owner == D.Retire(task, b, a, n) && pushed == old(pushed) && returned == old(returned)
      ensures Flow() == old(Flow()) && |old(stolen)| <= |stolen|
      ensures Agree(D.RingAt(State(), n), D.RingAt(State(), a), t, b)
    {
      var i := t;
      while i < b
        invariant Valid() && t <= i && (t < b ==> i <= b) && owner == D.CopyFrom(task, b, t, a, n, i)
        invariant Agree(D.RingAt(State(), n), D.RingAt(State(), a), t, i)
        invariant pushed == old(pushed) && returned == old(returned)
        invariant Flow() == old(Flow()) && |old(stolen)| <= |stolen|
      {
        var v := GrowLoadSlot(task, b, t, a, n, i);
        GrowStoreSlot(task, b, t, a, n, i, v);
        i := i + 1;
      }
    }

    method PushRetire(task: Ptr, b: int, a: nat, n: nat)
      requires Valid() && owner == D.Retire(task, b, a, n)
      modifies this
      ensures Valid() && owner == D.Publish(task, b, n) && pushed == old(pushed) && returned == old(returned)
      ensures Flow() == old(Flow()) && |old(stolen)| <= |stolen|
    {
      Interfere();
      ghost var s := State();
      history := history + [a];
      owner := D.Publish(task, b, n);
      Record(s, D.Owner);
    }

    method PushStoreArray(task: Ptr, b: int, n: nat)
      requires Valid() && owner == D.Publish(task, b, n)
      modifies this
      ensures Valid() && owner == D.PutSlot(task, b, n) && pushed == old(pushed) && returned == old(returned)
      ensures Flow() == old(Flow()) && |old(stolen)| <= |stolen|
    {
      Interfere();
      ghost var s := State();
      current := n;
      owner := D.PutSlot(task, b, n);
      Record(s, D.Owner);
    }

    method PushStoreTask(task: Ptr, b: int, a: nat)
      requires Valid() && owner == D.PutSlot(task, b, a)
      modifies this
      ensures Valid() && owner == D.PutBottom(task, b) && pushed == old(pushed) && returned == old(returned)
      ensures Flow() == old(Flow()) && |old(stolen)| <= |stolen|
    {
      Interfere();
      ghost var s := State();
      if a < |rings| {
        rings := rings[a := Put(rings[a], b, task)];
      }
      owner := D.PutBottom(task, b);
      Record(s, D.Owner);
    }

    method PushStoreBottom(task: Ptr, b: int)
      requires Valid() && owner == D.PutBottom(task, b)
      modifies this
      ensures Valid() && owner.Idle? && pushed == old(pushed) && returned == old(returned)
      ensures Flow() == old(Flow()) + [task] && |old(stolen)| <= |stolen|
    {
      Interfere();
      ghost var s := State();
      bottom := b + 1;
      owner := D.Idle;
      Record(s, D.Owner);
    }

    /**
     Adds a task at the bottom, growing the array first if it is full: the queue is what it was,
     then the task, less what thieves have taken from the front meanwhile.
     */
    method Push(task: Ptr)
      requires Valid() && owner.Idle? && task != NULL
      modifies this
      ensures Valid() && owner.Idle?
      ensures pushed == old(pushed) + [task] && returned == old(returned)
      ensures Flow() == old(Flow()) + [task] && |old(stolen)| <= |stolen|
    {
      var b := PushLoadBottom(task);
      var t := PushLoadTop(task, b);
      var a, full, n := PushLoadArray(task, b, t);
      if full {
        Grow(task, b, t, a, n);
        PushRetire(task, b, a, n);
        PushStoreArray(task, b, n);
        a := n;
      }
      PushStoreTask(task, b, a);
      PushStoreBottom(task, b);
    }
  }
}
