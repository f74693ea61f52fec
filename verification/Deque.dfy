/**
 The Chase-Lev work-stealing deque as a step machine.

 One owner pushes and pops at `bottom`; any number of thieves compete for `top`.  Every
 atomic load, store and compare-exchange of the source is one step, interleaved in any
 order (sequential consistency).  A program counter carries the locals of the call that is
 in progress.  An action that is not enabled leaves the machine as it is.
 */
module Deque {
  import opened Basics
  import opened Ring

  /** Where the owner is inside `push` or `pop`; ring addresses are indices into `rings`. */
  datatype OwnerPc =
    | Idle
    | PushTop(x: Ptr, b: int)                                      // about to load top
    | PushArray(x: Ptr, b: int, t: int)                            // about to load the array
    | GrowLoad(x: Ptr, b: int, t: int, a: nat, n: nat, i: int)     // copy loop: load a slot
    | GrowStore(x: Ptr, b: int, t: int, a: nat, n: nat, i: int, v: Ptr)
    | Retire(x: Ptr, b: int, a: nat, n: nat)                       // about to append to history
    | Publish(x: Ptr, b: int, n: nat)                              // about to store the array
    | PutSlot(x: Ptr, b: int, a: nat)                              // about to store the task
    | PutBottom(x: Ptr, b: int)                                    // about to store bottom + 1
    | PopArray(b: int)
    | PopStore(b: int, a: nat)                                     // about to store bottom - 1
    | PopTop(b: int, a: nat)                                       // about to load top
    | PopRead(b: int, a: nat, t: int)                              // about to load the task
    | PopCas(b: int, t: int, x: Ptr)                               // last task: about to CAS top
    | PopRestore(b: int, r: Ptr)                                   // about to store b + 1

  datatype ThiefPc =
    | StealBottom(t: int)                                          // about to load bottom
    | StealArray(t: int)                                           // about to load the array
    | StealRead(t: int, a: nat)                                    // about to load the task
    | StealCas(t: int, x: Ptr)                                     // about to CAS top

  /**
   `rings` holds every circular array ever allocated; `current` is the published one and
   `history` the retired ones.  A thief without an entry in `thieves` is outside `steal`.
   */
  datatype Deque = Deque(
    top: int, bottom: int,
    rings: seq<Ring>, current: nat, history: seq<nat>,
    owner: OwnerPc, thieves: map<nat, ThiefPc>)

  datatype Action =
    | Push(x: Ptr)       // the owner calls push
    | Pop                // the owner calls pop
    | Owner              // the owner's call takes its next step
    | Steal(th: nat)     // thief th calls steal
    | Thief(th: nat)     // thief th's call takes its next step

  datatype Event =
    | Quiet
    | PushCalled(x: Ptr) | PushDone
    | PopCalled | PopDone(r: Ptr)
    | StealCalled(th: nat) | StealDone(th: nat, r: Ptr)

  datatype Outcome = Outcome(next: Deque, event: Event)

  function Init(capacity: nat): Deque {
    Deque(0, 0, [Fresh(capacity)], 0, [], Idle, map[])
  }

  function RingAt(s: Deque, a: nat): Ring {
    if a < |s.rings| then s.rings[a] else Ring([])
  }

  /** The published array. */
  function Now(s: Deque): Ring {
    RingAt(s, s.current)
  }

  function Capacity(s: Deque): nat {
    |Now(s).buffer|
  }

  /** The task at a logical index, as the published array holds it. */
  function Cell(s: Deque, i: int): Ptr {
    Get(Now(s), i)
  }

  function StoreSlot(s: Deque, a: nat, i: int, p: Ptr): Deque {
    if a < |s.rings| then s.(rings := s.rings[a := Put(s.rings[a], i, p)]) else s
  }

  // ------------------------------------------------------------------ the steps

  function CopyFrom(x: Ptr, b: int, t: int, a: nat, n: nat, i: int): OwnerPc {
    if i < b then GrowLoad(x, b, t, a, n, i) else Retire(x, b, a, n)
  }

  /** One atomic access of the owner. */
  function OwnerStep(s: Deque): Outcome {
    match s.owner
    case Idle => Outcome(s, Quiet)
    case PushTop(x, b) =>
      Outcome(s.(owner := PushArray(x, b, s.top)), Quiet)
    case PushArray(x, b, t) =>
      var a := s.current;
      if b - t >= Capacity(s) - 1 then
        var n := |s.rings|;
        Outcome(s.(rings := s.rings + [Fresh(2 * Capacity(s))], owner := CopyFrom(x, b, t, a, n, t)), Quiet)
      else
        Outcome(s.(owner := PutSlot(x, b, a)), Quiet)
    case GrowLoad(x, b, t, a, n, i) =>
      Outcome(s.(owner := GrowStore(x, b, t, a, n, i, Get(RingAt(s, a), i))), Quiet)
    case GrowStore(x, b, t, a, n, i, v) =>
      Outcome(StoreSlot(s, n, i, v).(owner := CopyFrom(x, b, t, a, n, i + 1)), Quiet)
    case Retire(x, b, a, n) =>
      Outcome(s.(history := s.history + [a], owner := Publish(x, b, n)), Quiet)
    case Publish(x, b, n) =>
      Outcome(s.(current := n, owner := PutSlot(x, b, n)), Quiet)
    case PutSlot(x, b, a) =>
      Outcome(StoreSlot(s, a, b, x).(owner := PutBottom(x, b)), Quiet)
    case PutBottom(x, b) =>
      Outcome(s.(bottom := b + 1, owner := Idle), PushDone)
    case PopArray(b) =>
      Outcome(s.(owner := PopStore(b, s.current)), Quiet)
    case PopStore(b, a) =>
      Outcome(s.(bottom := b, owner := PopTop(b, a)), Quiet)
    case PopTop(b, a) =>
      var t := s.top;
      Outcome(s.(owner := if b - t < 0 then PopRestore(b, NULL) else PopRead(b, a, t)), Quiet)
    case PopRead(b, a, t) =>
      var x := Get(RingAt(s, a), b);
      if b - t == 0 then
        Outcome(s.(owner := PopCas(b, t, x)), Quiet)
      else
        Outcome(s.(owner := Idle), PopDone(x))
    case PopCas(b, t, x) =>
      if s.top == t then
        Outcome(s.(top := t + 1, owner := PopRestore(b, x)), Quiet)
      else
        Outcome(s.(owner := PopRestore(b, NULL)), Quiet)
    case PopRestore(b, r) =>
      Outcome(s.(bottom := b + 1, owner := Idle), PopDone(r))
  }

  /** One atomic access of thief `th`. */
  function ThiefStep(s: Deque, th: nat): Outcome {
    if th !in s.thieves then Outcome(s, Quiet) else
    match s.thieves[th]
    case StealBottom(t) =>
      if s.bottom - t <= 0 then
        Outcome(s.(thieves := s.thieves - {th}), StealDone(th, NULL))
      else
        Outcome(s.(thieves := s.thieves[th := StealArray(t)]), Quiet)
    case StealArray(t) =>
      Outcome(s.(thieves := s.thieves[th := StealRead(t, s.current)]), Quiet)
    case StealRead(t, a) =>
      Outcome(s.(thieves := s.thieves[th := StealCas(t, Get(RingAt(s, a), t))]), Quiet)
    case StealCas(t, x) =>
      if s.top == t then
        Outcome(s.(top := t + 1, thieves := s.thieves - {th}), StealDone(th, x))
      else
        Outcome(s.(thieves := s.thieves - {th}), StealDone(th, NULL))
  }

  function Step(s: Deque, act: Action): Outcome {
    match act
    case Push(x) =>
      if s.owner.Idle? && x != NULL then
        Outcome(s.(owner := PushTop(x, s.bottom)), PushCalled(x))
      else Outcome(s, Quiet)
    case Pop =>
      if s.owner.Idle? then
        Outcome(s.(owner := PopArray(s.bottom - 1)), PopCalled)
      else Outcome(s, Quiet)
    case Owner => OwnerStep(s)
    case Steal(th) =>
      if th !in s.thieves then
        Outcome(s.(thieves := s.thieves[th := StealBottom(s.top)]), StealCalled(th))
      else Outcome(s, Quiet)
    case Thief(th) => ThiefStep(s, th)
  }

  // ------------------------------------------------------------------ the abstract queue

  /**
   One past the last logical index in the abstract queue.  A pop has given its task up for
   contest, but not yet taken it, from its store of bottom until its load of top (or, for the
   last task, until its compare-exchange); that task still belongs to the queue.
   */
  function AbstractBottom(s: Deque): int {
    match s.owner
    case PopTop(b, _) => b + 1
    case PopRead(b, _, t) => if t == b then b + 1 else b
    case PopCas(b, _, _) => b + 1
    case PopRestore(b, _) => b + 1
    case _ => s.bottom
  }

  /** The tasks in the deque, front (top) first. */
  function Contents(s: Deque): seq<Ptr> {
    Slice(Now(s), s.top, AbstractBottom(s))
  }

  // ------------------------------------------------------------------ the invariant

  ghost predicate Shape(s: Deque) {
    && s.current < |s.rings|
    && (forall k :: 0 <= k < |s.rings| ==> ValidRing(s.rings[k]))
    && (forall h :: h in s.history ==> h < |s.rings|)
  }

  /** `top` never passes the queue's end and the window always leaves one slot free. */
  ghost predicate Bounds(s: Deque) {
    0 <= s.top <= AbstractBottom(s) && s.bottom <= AbstractBottom(s) <= s.top + Capacity(s) - 1
  }

  /** Every queued task is a real task. */
  ghost predicate Filled(s: Deque) {
    NoNulls(Now(s), s.top, AbstractBottom(s))
  }

  /** A new array that no thief can reach yet, being filled from the published one. */
  ghost predicate Growing(s: Deque, b: int, a: nat, n: nat) {
    && a == s.current && b == s.bottom
    && n == |s.rings| - 1 && n != s.current && n !in s.history
    && |s.rings[n].buffer| == 2 * Capacity(s)
  }

  /** The new array already agrees with the published one on a range of logical indices. */
  ghost predicate Copied(s: Deque, n: nat, lo: int, hi: int) {
    Agree(RingAt(s, n), Now(s), lo, hi)
  }

  ghost predicate OwnerOk(s: Deque) {
    match s.owner
    case Idle => true
    case PushTop(x, b) => x != NULL && b == s.bottom
    case PushArray(x, b, t) => x != NULL && b == s.bottom && 0 <= t <= s.top && b - t <= Capacity(s) - 1
    case GrowLoad(x, b, t, a, n, i) =>
      && x != NULL && Growing(s, b, a, n) && 0 <= t <= s.top && b - t <= Capacity(s) - 1
      && t <= i < b && Copied(s, n, t, i)
    case GrowStore(x, b, t, a, n, i, v) =>
      && x != NULL && Growing(s, b, a, n) && 0 <= t <= s.top && b - t <= Capacity(s) - 1
      && t <= i < b && Copied(s, n, t, i) && v == Cell(s, i)
    case Retire(x, b, a, n) => x != NULL && Growing(s, b, a, n) && Copied(s, n, s.top, b)
    case Publish(x, b, n) =>
      && x != NULL && b == s.bottom && n == |s.rings| - 1 && n != s.current
      && n !in s.history && s.current in s.history
      && |s.rings[n].buffer| == 2 * Capacity(s) && Copied(s, n, s.top, b)
    case PutSlot(x, b, a) =>
      && x != NULL && b == s.bottom && a == s.current && s.current !in s.history
      && b + 1 - s.top <= Capacity(s) - 1
    case PutBottom(x, b) =>
      x != NULL && b == s.bottom && Cell(s, b) == x && b + 1 - s.top <= Capacity(s) - 1
    case PopArray(b) => b == s.bottom - 1
    case PopStore(b, a) => b == s.bottom - 1 && a == s.current
    case PopTop(b, a) => b == s.bottom && a == s.current
    case PopRead(b, a, t) =>
      b == s.bottom && a == s.current && 0 <= t <= b && t <= s.top && Cell(s, b) != NULL
    case PopCas(b, t, x) => b == s.bottom && t == b <= s.top && (s.top == t ==> x == Cell(s, b))
    case PopRestore(b, r) => b == s.bottom && s.top == b + 1
  }

  ghost predicate NotRetired(s: Deque) {
    s.owner.Publish? || s.current !in s.history
  }

  ghost predicate Reachable(s: Deque, a: nat) {
    a == s.current || a in s.history
  }

  /**
   What a thief knows.  Only the part under `t == s.top` matters: if top has moved on, its
   compare-exchange fails.
   */
  ghost predicate ThiefOk(s: Deque, pc: ThiefPc) {
    && pc.t <= s.top
    && (!pc.StealBottom? && pc.t == s.top ==> s.top < AbstractBottom(s))
    && (pc.StealRead? ==> Reachable(s, pc.a) && (pc.t == s.top ==> Get(RingAt(s, pc.a), pc.t) == Cell(s, pc.t)))
    && (pc.StealCas? && pc.t == s.top ==> pc.x == Cell(s, pc.t))
  }

  ghost predicate ThievesOk(s: Deque) {
    forall th :: th in s.thieves ==> ThiefOk(s, s.thieves[th])
  }

  ghost predicate Inv(s: Deque) {
    Shape(s) && Bounds(s) && Filled(s) && OwnerOk(s) && NotRetired(s) && ThievesOk(s)
  }
}
