/**
 Every step of the deque machine keeps the invariant and does to the abstract queue exactly
 what its linearisation label says.
 */
module DequeSafety {
  import opened Basics
  import opened Ring
  import opened Deque

  /** The operations of a sequential deque. */
  datatype SpecOp =
    | Skip
    | Append(x: Ptr)       // push
    | TakeBack(x: Ptr)     // pop that returns a task
    | FindEmpty            // pop that returns null
    | TakeFront(x: Ptr)    // steal that returns a task

  /** The sequential deque: which operations a queue allows, and the queue they leave. */
  predicate Allows(q: seq<Ptr>, op: SpecOp) {
    match op
    case Skip => true
    case Append(x) => x != NULL
    case TakeBack(x) => |q| > 0 && q[|q| - 1] == x && x != NULL
    case FindEmpty => q == []
    case TakeFront(x) => |q| > 0 && q[0] == x && x != NULL
  }

  function Apply(q: seq<Ptr>, op: SpecOp): seq<Ptr>
    requires Allows(q, op)
  {
    match op
    case Skip => q
    case Append(x) => q + [x]
    case TakeBack(_) => q[..|q| - 1]
    case FindEmpty => q
    case TakeFront(_) => q[1..]
  }

  /** The sequential operation that a step of the machine performs, if any. */
  function Label(s: Deque, act: Action): SpecOp {
    match act
    case Owner => (
      match s.owner
      case PutBottom(x, b) => Append(x)
      case PopTop(b, a) => if s.top < b then TakeBack(Cell(s, b)) else if s.top > b then FindEmpty else Skip
      case PopCas(b, t, x) => if s.top == t then TakeBack(x) else FindEmpty
      case _ => Skip)
    case Thief(th) =>
      if th in s.thieves && s.thieves[th].StealCas? && s.thieves[th].t == s.top
      then TakeFront(s.thieves[th].x) else Skip
    case _ => Skip
  }

  ghost predicate Simulates(s: Deque, op: SpecOp, s': Deque) {
    && Inv(s')
    && Allows(Contents(s), op)
    && Contents(s') == Apply(Contents(s), op)
  }

  lemma InitOk(capacity: nat)
    requires PowerOfTwo(capacity)
    ensures Inv(Init(capacity)) && Contents(Init(capacity)) == []
  {
  }

  /** Steps of the owner that change nothing but its own program counter. */
  predicate Private(pc: OwnerPc) {
    pc.PushTop? || pc.GrowLoad? || pc.PopArray? || pc.PopRead?
  }

  lemma OnlyOwnerMoves(s: Deque, pc: OwnerPc)
    requires Inv(s)
    requires OwnerOk(s.(owner := pc)) && NotRetired(s.(owner := pc))
    requires AbstractBottom(s.(owner := pc)) == AbstractBottom(s)
    ensures Simulates(s, Skip, s.(owner := pc))
  {
    var s' := s.(owner := pc);
    forall v | v in s.thieves
      ensures ThiefOk(s', s.thieves[v])
    {
      assert ThiefOk(s, s.thieves[v]);
    }
  }

  lemma PrivateStep(s: Deque)
    requires Inv(s) && Private(s.owner)
    ensures Simulates(s, Skip, OwnerStep(s).next)
  {
    OnlyOwnerMoves(s, OwnerStep(s).next.owner);
  }

  lemma RetireStep(s: Deque)
    requires Inv(s) && s.owner.Retire?
    ensures Simulates(s, Skip, OwnerStep(s).next)
  {
  }

  lemma PopStoreStep(s: Deque)
    requires Inv(s) && s.owner.PopStore?
    ensures Simulates(s, Skip, OwnerStep(s).next)
  {
  }

  lemma LoadArrayStep(s: Deque)
    requires Inv(s) && s.owner.PushArray?
    ensures Simulates(s, Skip, OwnerStep(s).next)
  {
    var s' := OwnerStep(s).next;
    var n := |s.rings|;
    assert forall k :: 0 <= k < n ==> s'.rings[k] == s.rings[k];
    assert 2 * Capacity(s) / 2 == Capacity(s);
    assert Contents(s') == Contents(s);
  }

  /** One more slot copied: the new array agrees with the published one up to and including index `i`. */
  lemma CopyOne(s: Deque)
    requires Shape(s) && OwnerOk(s) && s.owner.GrowStore?
    ensures var GrowStore(x, b, t, a, n, i, v) := s.owner; Copied(OwnerStep(s).next, n, t, i + 1)
  {
    var GrowStore(x, b, t, a, n, i, v) := s.owner;
    PutThenGet(s.rings[n], i, v);
  }

  lemma GrowStoreStep(s: Deque)
    requires Inv(s) && s.owner.GrowStore?
    ensures Simulates(s, Skip, OwnerStep(s).next)
  {
    CopyOne(s);
    assert Contents(OwnerStep(s).next) == Contents(s);
  }

  lemma PublishStep(s: Deque)
    requires Inv(s) && s.owner.Publish?
    ensures Simulates(s, Skip, OwnerStep(s).next)
  {
    var s' := OwnerStep(s).next;
    assert Contents(s') == Contents(s);
  }

  lemma PutSlotStep(s: Deque)
    requires Inv(s) && s.owner.PutSlot?
    ensures Simulates(s, Skip, OwnerStep(s).next)
  {
    var s' := OwnerStep(s).next;
    var PutSlot(x, b, a) := s.owner;
    PutThenGet(s.rings[a], b, x);
    assert Contents(s') == Contents(s);
  }

  lemma PutBottomStep(s: Deque)
    requires Inv(s) && s.owner.PutBottom?
    ensures Simulates(s, Append(s.owner.x), OwnerStep(s).next)
  {
    var s' := OwnerStep(s).next;
    assert Contents(s') == Contents(s) + [s.owner.x];
  }

  lemma PopTopStep(s: Deque)
    requires Inv(s) && s.owner.PopTop?
    ensures Simulates(s, Label(s, Owner), OwnerStep(s).next)
  {
    var s' := OwnerStep(s).next;
    var q := Contents(s);
    if s.top < s.owner.b {
      assert q[|q| - 1] == Cell(s, s.owner.b);
      assert Contents(s') == q[..|q| - 1];
    } else {
      assert Contents(s') == q;
    }
  }

  lemma PopCasStep(s: Deque)
    requires Inv(s) && s.owner.PopCas?
    ensures Simulates(s, Label(s, Owner), OwnerStep(s).next)
  {
    var s' := OwnerStep(s).next;
    var q := Contents(s);
    if s.top == s.owner.t {
      assert q == [Cell(s, s.owner.b)];
      assert Contents(s') == [];
    } else {
      assert q == [] == Contents(s');
    }
  }

  lemma PopRestoreStep(s: Deque)
    requires Inv(s) && s.owner.PopRestore?
    ensures Simulates(s, Skip, OwnerStep(s).next)
  {
    assert Contents(s) == [] == Contents(OwnerStep(s).next);
  }

  lemma OwnerStepOk(s: Deque)
    requires Inv(s)
    ensures Simulates(s, Label(s, Owner), OwnerStep(s).next)
  {
    match s.owner
    case Idle =>
    case PushArray(_, _, _) => LoadArrayStep(s);
    case GrowStore(_, _, _, _, _, _, _) => GrowStoreStep(s);
    case Retire(_, _, _, _) => RetireStep(s);
    case PopStore(_, _) => PopStoreStep(s);
    case Publish(_, _, _) => PublishStep(s);
    case PutSlot(_, _, _) => PutSlotStep(s);
    case PutBottom(_, _) => PutBottomStep(s);
    case PopTop(_, _) => PopTopStep(s);
    case PopCas(_, _, _) => PopCasStep(s);
    case PopRestore(_, _) => PopRestoreStep(s);
    case _ => PrivateStep(s);
  }

  /** A successful steal moves top past a queued task and disturbs nobody else. */
  lemma StealSucceeds(s: Deque, th: nat)
    requires Inv(s)
    requires th in s.thieves && s.thieves[th].StealCas? && s.thieves[th].t == s.top
    ensures Simulates(s, TakeFront(s.thieves[th].x), ThiefStep(s, th).next)
  {
    var s' := ThiefStep(s, th).next;
    assert ThiefOk(s, s.thieves[th]);
    assert Contents(s') == Contents(s)[1..];
    forall v | v in s'.thieves
      ensures ThiefOk(s', s'.thieves[v])
    {
      assert ThiefOk(s, s.thieves[v]);
    }
  }

  /** Nothing but the thieves themselves reads their program counters. */
  lemma OnlyThievesMove(s: Deque, m: map<nat, ThiefPc>)
    requires Inv(s)
    requires forall v :: v in m ==> ThiefOk(s, m[v])
    ensures Simulates(s, Skip, s.(thieves := m))
  {
    var s' := s.(thieves := m);
    forall v | v in m
      ensures ThiefOk(s', m[v])
    {
      assert ThiefOk(s, m[v]);
    }
  }

  lemma StealGoesOn(s: Deque, th: nat)
    requires Inv(s)
    requires th in s.thieves && !(s.thieves[th].StealCas? && s.thieves[th].t == s.top)
    ensures Simulates(s, Skip, ThiefStep(s, th).next)
  {
    var m := ThiefStep(s, th).next.thieves;
    assert ThiefOk(s, s.thieves[th]);
    assert th in m ==> ThiefOk(s, m[th]);
    OnlyThievesMove(s, m);
  }

  lemma ThiefStepOk(s: Deque, th: nat)
    requires Inv(s)
    ensures Simulates(s, Label(s, Thief(th)), ThiefStep(s, th).next)
  {
    if th in s.thieves {
      if s.thieves[th].StealCas? && s.thieves[th].t == s.top {
        StealSucceeds(s, th);
      } else {
        StealGoesOn(s, th);
      }
    }
  }

  lemma CallOk(s: Deque, act: Action)
    requires Inv(s) && (act.Push? || act.Pop? || act.Steal?)
    ensures Simulates(s, Skip, Step(s, act).next)
  {
    match act
    case Steal(th) =>
      if th !in s.thieves {
        OnlyThievesMove(s, s.thieves[th := StealBottom(s.top)]);
      }
    case _ =>
      OnlyOwnerMoves(s, Step(s, act).next.owner);
  }

  /** Each step keeps the invariant and performs its label on the abstract queue. */
  lemma StepRefines(s: Deque, act: Action)
    requires Inv(s)
    ensures Inv(Step(s, act).next)
    ensures Allows(Contents(s), Label(s, act))
    ensures Contents(Step(s, act).next) == Apply(Contents(s), Label(s, act))
  {
    match act
    case Owner => OwnerStepOk(s);
    case Thief(th) => ThiefStepOk(s, th);
    case _ => CallOk(s, act);
  }
}
