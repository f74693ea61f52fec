/**
 What the deque promises over whole runs: every schedule of owner and thieves is
 linearisable to a sequential deque, no task is lost or delivered twice, and stale
 arrays and reused indices do no harm.
 */
module DequeRuns {
  import opened Basics
  import opened Ring
  import opened Deque
  import opened DequeSafety

  // ------------------------------------------------------------------ runs and what is seen of them

  /** The state that a schedule leads to. */
  function After(s: Deque, acts: seq<Action>): Deque {
    if acts == [] then s else Step(After(s, acts[..|acts| - 1]), acts[|acts| - 1]).next
  }

  /** The calls and returns of a schedule, in order. */
  function Events(s: Deque, acts: seq<Action>): (es: seq<Event>)
    ensures |es| == |acts|
  {
    if acts == [] then [] else
    var before := acts[..|acts| - 1];
    Events(s, before) + [Step(After(s, before), acts[|acts| - 1]).event]
  }

  /** The sequential operations that a schedule performs, in order. */
  function Labels(s: Deque, acts: seq<Action>): (ops: seq<SpecOp>)
    ensures |ops| == |acts|
  {
    if acts == [] then [] else
    var before := acts[..|acts| - 1];
    Labels(s, before) + [Label(After(s, before), acts[|acts| - 1])]
  }

  /** Concatenates what each element of a history contributes. */
  function Collect<T>(f: T -> seq<Ptr>, xs: seq<T>): seq<Ptr> {
    if xs == [] then [] else Collect(f, xs[..|xs| - 1]) + f(xs[|xs| - 1])
  }

  lemma CollectSnoc<T>(f: T -> seq<Ptr>, xs: seq<T>, x: T)
    ensures Collect(f, xs + [x]) == Collect(f, xs) + f(x)
  {
    assert (xs + [x])[..|xs + [x]| - 1] == xs;
  }

  /** A task handed to push. */
  function Called(e: Event): seq<Ptr> { if e.PushCalled? then [e.x] else [] }

  /** A result of pop, null included. */
  function Returned(e: Event): seq<Ptr> { if e.PopDone? then [e.r] else [] }

  /** A task returned by steal, to whichever thief. */
  function Robbed(e: Event): seq<Ptr> { if e.StealDone? && e.r != NULL then [e.r] else [] }

  // ------------------------------------------------------------------ the sequential deque

  datatype Replayed = Illegal | Queue(q: seq<Ptr>)

  /** Runs operations on an empty sequential deque. */
  function Replay(ops: seq<SpecOp>): Replayed {
    if ops == [] then Queue([]) else
    match Replay(ops[..|ops| - 1])
    case Illegal => Illegal
    case Queue(q) => if Allows(q, ops[|ops| - 1]) then Queue(Apply(q, ops[|ops| - 1])) else Illegal
  }

  lemma ReplaySnoc(ops: seq<SpecOp>, op: SpecOp)
    requires Replay(ops).Queue? && Allows(Replay(ops).q, op)
    ensures Replay(ops + [op]) == Queue(Apply(Replay(ops).q, op))
  {
    assert (ops + [op])[..|ops + [op]| - 1] == ops;
  }

  function Appended(op: SpecOp): seq<Ptr> { if op.Append? then [op.x] else [] }

  function Stolen(op: SpecOp): seq<Ptr> { if op.TakeFront? then [op.x] else [] }

  /** What a pop of the sequential deque returns. */
  function Popped(op: SpecOp): seq<Ptr> {
    if op.TakeBack? then [op.x] else if op.FindEmpty? then [NULL] else []
  }

  // ------------------------------------------------------------------ linearisability

  /** The task of a push that is under way, not yet in the queue. */
  function Offered(s: Deque): seq<Ptr> {
    match s.owner
    case PushTop(x, _) => [x]
    case PushArray(x, _, _) => [x]
    case GrowLoad(x, _, _, _, _, _) => [x]
    case GrowStore(x, _, _, _, _, _, _) => [x]
    case Retire(x, _, _, _) => [x]
    case Publish(x, _, _) => [x]
    case PutSlot(x, _, _) => [x]
    case PutBottom(x, _) => [x]
    case _ => []
  }

  /** The result of a pop that is under way, once it is settled; never longer than one. */
  function Settled(s: Deque): seq<Ptr> {
    match s.owner
    case PopRead(b, _, t) => if t < b then [Cell(s, b)] else []
    case PopRestore(_, r) => [r]
    case _ => []
  }

  lemma PushMatches(s: Deque)
    requires OwnerOk(s) && Offered(s) != []
    ensures Matches(s, Owner)
  {
  }

  lemma PopMatches(s: Deque)
    requires OwnerOk(s) && Bounds(s) && Offered(s) == []
    ensures Matches(s, Owner)
  {
  }

  lemma OwnerMatches(s: Deque)
    requires Inv(s)
    ensures Matches(s, Owner)
  {
    if Offered(s) == [] { PopMatches(s); } else { PushMatches(s); }
  }

  lemma StealsAreReal(s: Deque, th: nat)
    requires Inv(s) && th in s.thieves && s.thieves[th].StealCas? && s.thieves[th].t == s.top
    ensures s.thieves[th].x != NULL
  {
    assert ThiefOk(s, s.thieves[th]);
  }

  lemma StealMatches(s: Deque, th: nat)
    requires th in s.thieves && s.thieves[th].StealCas? && s.thieves[th].t == s.top ==> s.thieves[th].x != NULL
    ensures Matches(s, Thief(th))
  {
    ThiefKeepsOwner(s, th);
  }

  lemma ThiefMatches(s: Deque, th: nat)
    requires Inv(s)
    ensures Matches(s, Thief(th))
  {
    if th in s.thieves && s.thieves[th].StealCas? && s.thieves[th].t == s.top { StealsAreReal(s, th); }
    StealMatches(s, th);
  }

  lemma ThiefKeepsOwner(s: Deque, th: nat)
    ensures var s' := ThiefStep(s, th).next;
      s'.owner == s.owner && s'.bottom == s.bottom && Now(s') == Now(s)
  {
  }

  /** One step adds the same result to the calls' side and to the sequential side. */
  ghost predicate Matches(s: Deque, act: Action) {
    var o, op := Step(s, act), Label(s, act);
    && Offered(s) + Called(o.event) == Appended(op) + Offered(o.next)
    && Settled(s) + Popped(op) == Returned(o.event) + Settled(o.next)
    && Stolen(op) == Robbed(o.event)
  }

  lemma StepMatches(s: Deque, act: Action)
    requires Inv(s)
    ensures Matches(s, act)
  {
    match act
    case Owner => OwnerMatches(s);
    case Thief(th) => ThiefMatches(s, th);
    case _ =>
  }

  /** A sequential history explains what a run has shown, up to the owner's unfinished call. */
  ghost predicate Explains(ops: seq<SpecOp>, es: seq<Event>, s: Deque) {
    && Replay(ops) == Queue(Contents(s))
    && Collect(Called, es) == Collect(Appended, ops) + Offered(s)
    && Collect(Popped, ops) == Collect(Returned, es) + Settled(s)
    && Collect(Stolen, ops) == Collect(Robbed, es)
  }

  lemma ExplainsStep(ops: seq<SpecOp>, es: seq<Event>, s: Deque, act: Action)
    requires Inv(s) && Explains(ops, es, s)
    ensures Explains(ops + [Label(s, act)], es + [Step(s, act).event], Step(s, act).next)
  {
    var o, op := Step(s, act), Label(s, act);
    StepRefines(s, act);
    StepMatches(s, act);
    ReplaySnoc(ops, op);
    CollectSnoc(Called, es, o.event);
    CollectSnoc(Returned, es, o.event);
    CollectSnoc(Robbed, es, o.event);
    CollectSnoc(Appended, ops, op);
    CollectSnoc(Popped, ops, op);
    CollectSnoc(Stolen, ops, op);
    Regroup(Collect(Called, es), Collect(Appended, ops), Offered(s), Called(o.event), Appended(op), Offered(o.next));
    Regroup(Collect(Popped, ops), Collect(Returned, es), Settled(s), Popped(op), Returned(o.event), Settled(o.next));
  }

  lemma Regroup(all: seq<Ptr>, done: seq<Ptr>, rest: seq<Ptr>, more: seq<Ptr>, done': seq<Ptr>, rest': seq<Ptr>)
    requires all == done + rest && rest + more == done' + rest'
    ensures all + more == (done + done') + rest'
  {
    assert all + more == done + (rest + more);
    assert (done + done') + rest' == done + (done' + rest');
  }

  /**
   Linearisability.  The labels of any schedule form a sequential history that (1) a sequential
   deque allows, (2) ends in the machine's queue, and (3) returns to the owner and to the thieves,
   in order, what the machine returned to them.  Only an owner's call still under way can differ,
   by one result.  `DequeOrder.RealTime` places each operation inside its call.
   */
  lemma {:induction false} Linearizable(capacity: nat, acts: seq<Action>)
    requires PowerOfTwo(capacity)
    ensures Inv(After(Init(capacity), acts))
    ensures Explains(Labels(Init(capacity), acts), Events(Init(capacity), acts), After(Init(capacity), acts))
  {
    var s0 := Init(capacity);
    InitOk(capacity);
    if acts != [] {
      var before := acts[..|acts| - 1];
      Linearizable(capacity, before);
      ExplainsStep(Labels(s0, before), Events(s0, before), After(s0, before), acts[|acts| - 1]);
      StepRefines(After(s0, before), acts[|acts| - 1]);
    }
  }

  // ------------------------------------------------------------------ the window of live indices

  /** A pop has stored the lowered bottom and not yet restored it. */
  predicate Lowered(pc: OwnerPc) {
    pc.PopTop? || pc.PopRead? || pc.PopCas? || pc.PopRestore?
  }

  /** One slot is free, and a push that is about to store its task has a slot of its own. */
  ghost predicate Fits(s: Deque, i: nat) {
    var mask := Capacity(s) - 1;
    && PowerOfTwo(Capacity(s))
    && 0 <= s.top <= s.bottom + (if Lowered(s.owner) then 1 else 0)
    && s.bottom - s.top <= Capacity(s) - 1
    && (s.owner.PutSlot? ==> s.owner.a == s.current && s.owner.b == s.bottom >= 0)
    && (s.owner.PutSlot? && s.top <= i < s.bottom ==> BitAnd(i, mask) != BitAnd(s.bottom, mask))
  }

  lemma WindowFits(s: Deque, i: nat)
    requires Inv(s)
    ensures Fits(s, i)
  {
    if s.owner.PutSlot? && s.top <= i < s.bottom {
      MaskInjectiveOnWindow(i, s.bottom, Capacity(s));
    }
  }

  lemma AlwaysInv(capacity: nat, acts: seq<Action>)
    requires PowerOfTwo(capacity)
    ensures Inv(After(Init(capacity), acts))
  {
    Linearizable(capacity, acts);
  }

  /**
   In every state of every schedule the capacity is a power of two, top is at most bottom (one
   more while a pop has bottom lowered), and one slot is free.  So a push, which decides on a
   stale top whether to grow, never stores into the slot of a live logical index.
   */
  lemma PushOverwritesNothing(capacity: nat, acts: seq<Action>, i: nat)
    requires PowerOfTwo(capacity)
    ensures Fits(After(Init(capacity), acts), i)
  {
    AlwaysInv(capacity, acts);
    WindowFits(After(Init(capacity), acts), i);
  }

  // ------------------------------------------------------------------ conservation

  /** How often `x` occurs in a sequence. */
  function CountIn(q: seq<Ptr>, x: Ptr): nat {
    if q == [] then 0 else CountIn(q[..|q| - 1], x) + if q[|q| - 1] == x then 1 else 0
  }

  lemma {:induction false} CountZero(q: seq<Ptr>, x: Ptr)
    ensures CountIn(q, x) == 0 <==> x !in q
  {
    if q != [] {
      CountZero(q[..|q| - 1], x);
      assert q == q[..|q| - 1] + [q[|q| - 1]];
    }
  }

  /** How often a task is inside the deque: queued, being pushed, or taken by a pop not yet returned. */
  function Inside(s: Deque, x: Ptr): nat {
    CountIn(Contents(s), x) + CountIn(Offered(s), x) + CountIn(Settled(s), x)
  }

  function Entering(e: Event, x: Ptr): nat { CountIn(Called(e), x) }

  function Leaving(e: Event, x: Ptr): nat { CountIn(Returned(e), x) + CountIn(Robbed(e), x) }

  lemma {:induction false} CountConcat(p: seq<Ptr>, q: seq<Ptr>, x: Ptr)
    ensures CountIn(p + q, x) == CountIn(p, x) + CountIn(q, x)
  {
    if q == [] {
      assert p + q == p;
    } else {
      CountConcat(p, q[..|q| - 1], x);
      assert (p + q)[..|p + q| - 1] == p + q[..|q| - 1];
    }
  }

  lemma CountEnds(q: seq<Ptr>, x: Ptr)
    requires q != []
    ensures CountIn(q, x) == CountIn(q[..|q| - 1], x) + CountIn([q[|q| - 1]], x)
    ensures CountIn(q, x) == CountIn([q[0]], x) + CountIn(q[1..], x)
  {
    assert q == q[..|q| - 1] + [q[|q| - 1]];
    CountConcat(q[..|q| - 1], [q[|q| - 1]], x);
    assert q == [q[0]] + q[1..];
    CountConcat([q[0]], q[1..], x);
  }

  lemma ApplyCounts(q: seq<Ptr>, op: SpecOp, x: Ptr)
    requires Allows(q, op) && x != NULL
    ensures CountIn(q, x) + CountIn(Appended(op), x)
         == CountIn(Apply(q, op), x) + CountIn(Popped(op), x) + CountIn(Stolen(op), x)
  {
    if op.Append? {
      CountConcat(q, [op.x], x);
    } else if op.TakeBack? || op.TakeFront? {
      CountEnds(q, x);
    }
  }

  /** A step neither creates nor destroys a task: what is inside changes by calls and returns only. */
  lemma StepConserves(s: Deque, act: Action, x: Ptr)
    requires Inv(s) && x != NULL
    ensures Inside(Step(s, act).next, x) + Leaving(Step(s, act).event, x)
         == Inside(s, x) + Entering(Step(s, act).event, x)
  {
    var o, op := Step(s, act), Label(s, act);
    StepRefines(s, act);
    StepMatches(s, act);
    ApplyCounts(Contents(s), op, x);
    CountConcat(Offered(s), Called(o.event), x);
    CountConcat(Appended(op), Offered(o.next), x);
    CountConcat(Settled(s), Popped(op), x);
    CountConcat(Returned(o.event), Settled(o.next), x);
  }

  /**
   Conservation, for every schedule: a task has been pushed as often as it has been returned
   by pop, returned by steal, and is still inside.  A task pushed once is therefore never
   returned twice, by whichever mixture of pops and steals.
   */
  lemma {:induction false} Conservation(capacity: nat, acts: seq<Action>, x: Ptr)
    requires PowerOfTwo(capacity) && x != NULL
    ensures var s, es := After(Init(capacity), acts), Events(Init(capacity), acts);
      CountIn(Collect(Called, es), x)
        == CountIn(Collect(Returned, es), x) + CountIn(Collect(Robbed, es), x) + Inside(s, x)
  {
    var s0 := Init(capacity);
    InitOk(capacity);
    if acts != [] {
      var before := acts[..|acts| - 1];
      Conservation(capacity, before, x);
      Linearizable(capacity, before);
      var s, es := After(s0, before), Events(s0, before);
      var e := Step(s, acts[|acts| - 1]).event;
      StepConserves(s, acts[|acts| - 1], x);
      CollectSnoc(Called, es, e);
      CollectSnoc(Returned, es, e);
      CollectSnoc(Robbed, es, e);
      CountConcat(Collect(Called, es), Called(e), x);
      CountConcat(Collect(Returned, es), Returned(e), x);
      CountConcat(Collect(Robbed, es), Robbed(e), x);
    }
  }

  // ------------------------------------------------------------------ stale arrays and reused indices

  /** A pop returns null only from an empty queue, and the queue is still empty as it returns. */
  lemma NullPopMeansEmpty(s: Deque, act: Action)
    requires Inv(s) && Step(s, act).event == PopDone(NULL)
    ensures Contents(s) == [] == Contents(Step(s, act).next)
  {
    assert act.Owner?;
    OwnerStepOk(s);
  }

  /** What no step undoes. */
  ghost predicate Grows(s: Deque, s': Deque) {
    && s.top <= s'.top
    && s.history <= s'.history
    && |s.rings| <= |s'.rings|
    && (forall h :: h in s.history ==> h < |s.rings| && s'.rings[h] == s.rings[h])
  }

  lemma StepGrows(s: Deque, act: Action)
    requires Inv(s)
    ensures Grows(s, Step(s, act).next)
  {
  }

  /** `top` never falls, and a retired array is kept and never written again, over any run. */
  lemma {:induction false} RetiredArraysAreFrozen(s: Deque, acts: seq<Action>)
    requires Inv(s)
    ensures Inv(After(s, acts)) && Grows(s, After(s, acts))
  {
    if acts != [] {
      var before := acts[..|acts| - 1];
      RetiredArraysAreFrozen(s, before);
      StepRefines(After(s, before), acts[|acts| - 1]);
      StepGrows(After(s, before), acts[|acts| - 1]);
    }
  }

  lemma FrontStep(s: Deque, act: Action)
    requires Inv(s) && Contents(s) != [] && Step(s, act).next.top == s.top
    ensures Contents(Step(s, act).next) != []
    ensures Contents(Step(s, act).next)[0] == Contents(s)[0]
  {
    StepRefines(s, act);
    var op := Label(s, act);
    assert !op.TakeFront?;
    assert op.TakeBack? ==> |Contents(s)| >= 2;
  }

  /**
   No ABA.  Bottom indices are reused, but as long as top stays where it is the task at the
   front stays the same one: it cannot be popped and another pushed in its place.
   */
  lemma {:induction false} FrontIsStable(s: Deque, acts: seq<Action>)
    requires Inv(s) && Contents(s) != [] && After(s, acts).top == s.top
    ensures Contents(After(s, acts)) != [] && Contents(After(s, acts))[0] == Contents(s)[0]
  {
    if acts != [] {
      var before := acts[..|acts| - 1];
      RetiredArraysAreFrozen(s, before);
      StepGrows(After(s, before), acts[|acts| - 1]);
      FrontIsStable(s, before);
      FrontStep(After(s, before), acts[|acts| - 1]);
    }
  }

  predicate Involves(acts: seq<Action>, th: nat) {
    exists i :: 0 <= i < |acts| && (acts[i] == Thief(th) || acts[i] == Steal(th))
  }

  lemma ThiefUntouched(s: Deque, act: Action, th: nat)
    requires act != Steal(th) && act != Thief(th)
    ensures var s' := Step(s, act).next;
      (th in s'.thieves <==> th in s.thieves) && (th in s.thieves ==> s'.thieves[th] == s.thieves[th])
  {
  }

  lemma {:induction false} SleepingThief(s: Deque, acts: seq<Action>, th: nat)
    requires th in s.thieves && !Involves(acts, th)
    ensures th in After(s, acts).thieves && After(s, acts).thieves[th] == s.thieves[th]
  {
    if acts != [] {
      var before := acts[..|acts| - 1];
      assert forall i :: 0 <= i < |before| ==> before[i] == acts[i];
      SleepingThief(s, before, th);
      ThiefUntouched(After(s, before), acts[|acts| - 1], th);
    }
  }

  lemma ReadThenCas(s: Deque, th: nat)
    requires Inv(s) && th in s.thieves && s.thieves[th].StealRead?
    ensures var pc := s.thieves[th]; var done := ThiefStep(ThiefStep(s, th).next, th);
      && Reachable(s, pc.a) && pc.a < |s.rings|
      && (s.top == pc.t ==> Contents(s) != [] && done.event == StealDone(th, Contents(s)[0]))
      && (s.top != pc.t ==> done.event == StealDone(th, NULL))
  {
    assert ThiefOk(s, s.thieves[th]);
  }

  /**
   A thief that loaded the array pointer and then stalled, while the owner and the other
   thieves did anything at all (any number of growths included), still holds an array that is
   published or kept; and if top has not moved, going on delivers exactly the front task.
   */
  lemma StaleArrayStillServes(s: Deque, acts: seq<Action>, th: nat)
    requires Inv(s) && th in s.thieves && s.thieves[th].StealRead? && !Involves(acts, th)
    ensures var s' := After(s, acts); var pc := s.thieves[th]; var done := ThiefStep(ThiefStep(s', th).next, th);
      && Reachable(s', pc.a) && pc.a < |s'.rings|
      && (s'.top == pc.t ==> Contents(s') != [] && done.event == StealDone(th, Contents(s')[0]))
      && (s'.top != pc.t ==> done.event == StealDone(th, NULL))
  {
    RetiredArraysAreFrozen(s, acts);
    SleepingThief(s, acts, th);
    ReadThenCas(After(s, acts), th);
  }

  /**
   A pop that found more than one task takes its task without a compare-exchange.  Whatever
   the thieves have read by then, no steal of that task can succeed: the task has left the
   queue, and a successful steal returns the front of the queue at an index below it.
   */
  lemma PlainPopIsSafe(s: Deque, th: nat)
    requires Inv(s) && s.owner.PopRead? && s.owner.t < s.owner.b
    ensures OwnerStep(s).event == PopDone(Cell(s, s.owner.b)) && Cell(s, s.owner.b) != NULL
    ensures ThiefStep(s, th).event.StealDone? && ThiefStep(s, th).event.r != NULL ==>
      s.top < s.owner.b && ThiefStep(s, th).event.r == Contents(s)[0]
  {
    ThiefStepOk(s, th);
  }
}
