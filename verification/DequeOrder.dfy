/**
 When things happen in a run of the deque: every operation takes effect inside its call, a steal
 comes back empty-handed only for a reason, and a task that a pop has taken is gone for good.
 */
module DequeOrder {
  import opened Basics
  import opened Ring
  import opened Deque
  import opened DequeSafety
  import opened DequeRuns

  // ------------------------------------------------------------------ prefixes of a run

  lemma {:induction false} Prefixes(s: Deque, acts: seq<Action>, n: nat)
    requires n <= |acts|
    ensures Events(s, acts[..n]) == Events(s, acts)[..n]
    ensures Labels(s, acts[..n]) == Labels(s, acts)[..n]
    decreases |acts|
  {
    if n == |acts| {
      assert acts[..n] == acts;
    } else {
      var before := acts[..|acts| - 1];
      Prefixes(s, before, n);
      assert before[..n] == acts[..n];
    }
  }

  lemma StepAt(s: Deque, acts: seq<Action>, i: nat)
    requires i < |acts|
    ensures var t := After(s, acts[..i]);
      && Events(s, acts)[i] == Step(t, acts[i]).event && Labels(s, acts)[i] == Label(t, acts[i])
      && After(s, acts[..i + 1]) == Step(t, acts[i]).next
  {
    var prefix := acts[..i + 1];
    Prefixes(s, acts, i + 1);
    assert prefix[..|prefix| - 1] == acts[..i];
  }

  // ------------------------------------------------------------------ real time

  /**
   Each operation takes effect inside its call.  When the owner calls push or pop, the history
   holds exactly the operations of its earlier calls; when the call returns, it holds that of
   this call too.  A steal that returns a task takes effect in its last step, and one that
   returns null has none.
   */
  lemma RealTime(capacity: nat, acts: seq<Action>, i: nat)
    requires PowerOfTwo(capacity) && i < |acts|
    ensures var es, ops := Events(Init(capacity), acts), Labels(Init(capacity), acts);
      && (es[i].PushCalled? ==> Collect(Called, es[..i]) == Collect(Appended, ops[..i]))
      && (es[i].PushDone? ==> Collect(Called, es[..i + 1]) == Collect(Appended, ops[..i + 1]))
      && (es[i].PopCalled? ==> Collect(Returned, es[..i]) == Collect(Popped, ops[..i]))
      && (es[i].PopDone? ==> Collect(Returned, es[..i + 1]) == Collect(Popped, ops[..i + 1]))
      && (es[i].StealDone? ==> ops[i] == if es[i].r == NULL then Skip else TakeFront(es[i].r))
  {
    var s0 := Init(capacity);
    StepAt(s0, acts, i);
    Prefixes(s0, acts, i);
    Prefixes(s0, acts, i + 1);
    Linearizable(capacity, acts[..i]);
    Linearizable(capacity, acts[..i + 1]);
    CallsStartIdle(After(s0, acts[..i]), acts[i]);
    if Events(s0, acts)[i].StealDone? { StealLabel(After(s0, acts[..i]), acts[i]); }
  }

  lemma CallsStartIdle(s: Deque, act: Action)
    requires Inv(s)
    ensures var o := Step(s, act);
      && (o.event.PushCalled? || o.event.PopCalled? ==> Offered(s) == [] && Settled(s) == [])
      && (o.event.PushDone? || o.event.PopDone? ==> Offered(o.next) == [] && Settled(o.next) == [])
  {
  }

  lemma StealLabel(s: Deque, act: Action)
    requires Inv(s) && Step(s, act).event.StealDone?
    ensures var e := Step(s, act).event; Label(s, act) == if e.r == NULL then Skip else TakeFront(e.r)
  {
    assert act.Thief?;
    ThiefStepOk(s, act.th);
  }

  // ------------------------------------------------------------------ steals that return null

  predicate Takes(op: SpecOp) {
    op.TakeFront? || op.TakeBack?
  }

  /** Top moves only when somebody takes a task. */
  lemma TopMoves(s: Deque, act: Action)
    requires Inv(s) && Step(s, act).next.top != s.top
    ensures Takes(Label(s, act))
  {
  }

  lemma {:induction false} SomebodyTook(s: Deque, acts: seq<Action>) returns (i: nat)
    requires Inv(s) && After(s, acts).top != s.top
    ensures i < |acts| && Takes(Label(After(s, acts[..i]), acts[i]))
  {
    var n := |acts| - 1;
    RetiredArraysAreFrozen(s, acts[..n]);
    if After(s, acts[..n]).top == s.top {
      TopMoves(After(s, acts[..n]), acts[n]);
      i := n;
    } else {
      i := SomebodyTook(s, acts[..n]);
      assert acts[..n][..i] == acts[..i];
    }
  }

  /** The thief is inside one and the same call of steal throughout. */
  ghost predicate InCall(s: Deque, acts: seq<Action>, th: nat) {
    forall n :: 0 <= n <= |acts| ==> th in After(s, acts[..n]).thieves
  }

  lemma CallKeepsTopStep(s: Deque, act: Action, th: nat)
    requires th in s.thieves && th in Step(s, act).next.thieves
    ensures Step(s, act).next.thieves[th].t == s.thieves[th].t
  {
  }

  lemma {:induction false} CallKeepsTop(s: Deque, acts: seq<Action>, th: nat)
    requires InCall(s, acts, th)
    ensures th in s.thieves && th in After(s, acts).thieves && After(s, acts).thieves[th].t == s.thieves[th].t
  {
    assert acts[..0] == [] && acts[..|acts|] == acts;
    if acts != [] {
      var before := acts[..|acts| - 1];
      forall n | 0 <= n <= |before|
        ensures th in After(s, before[..n]).thieves
      {
        assert before[..n] == acts[..n];
      }
      CallKeepsTop(s, before, th);
      CallKeepsTopStep(After(s, before), acts[|acts| - 1], th);
    }
  }

  lemma NullStep(s: Deque, th: nat)
    requires Inv(s) && ThiefStep(s, th).event == StealDone(th, NULL) && th in s.thieves && s.thieves[th].t == s.top
    ensures s.thieves[th].StealBottom?
    ensures Contents(s) == [] || (Lowered(s.owner) && |Contents(s)| == 1)
  {
    ThiefStepOk(s, th);
    assert ThiefOk(s, s.thieves[th]);
  }

  /**
   Why a steal returns null, whatever the others do during the call: somebody else took a task
   since the thief loaded top (step `i` of the run), or at its load of bottom the queue was
   empty, or the owner was contesting the last task with bottom lowered over it.
   */
  lemma NullStealMeans(s: Deque, acts: seq<Action>, th: nat) returns (i: nat)
    requires Inv(s) && th in s.thieves && s.thieves[th] == StealBottom(s.top)
    requires InCall(s, acts, th) && Step(After(s, acts), Thief(th)).event == StealDone(th, NULL)
    ensures var s' := After(s, acts);
      || (i < |acts| && Takes(Label(After(s, acts[..i]), acts[i])))
      || (s'.top == s.top && th in s'.thieves && s'.thieves[th].StealBottom?
          && (Contents(s') == [] || (Lowered(s'.owner) && |Contents(s')| == 1)))
  {
    i := 0;
    RetiredArraysAreFrozen(s, acts);
    CallKeepsTop(s, acts, th);
    if After(s, acts).top != s.top {
      i := SomebodyTook(s, acts);
    } else {
      NullStep(After(s, acts), th);
    }
  }

  // ------------------------------------------------------------------ pops are final

  lemma {:induction false} CollectPrefix<T>(f: T -> seq<Ptr>, xs: seq<T>, n: nat, x: Ptr)
    requires n <= |xs|
    ensures CountIn(Collect(f, xs[..n]), x) <= CountIn(Collect(f, xs), x)
    decreases |xs|
  {
    if n == |xs| {
      assert xs[..n] == xs;
    } else {
      var m := |xs| - 1;
      CollectPrefix(f, xs[..m], n, x);
      assert xs[..m][..n] == xs[..n];
      CountConcat(Collect(f, xs[..m]), f(xs[m]), x);
    }
  }

  lemma PopsOf(capacity: nat, acts: seq<Action>, x: Ptr)
    requires PowerOfTwo(capacity)
    ensures CountIn(Collect(Popped, Labels(Init(capacity), acts)), x)
      == CountIn(Collect(Returned, Events(Init(capacity), acts)), x) + CountIn(Settled(After(Init(capacity), acts)), x)
  {
    Linearizable(capacity, acts);
    CountConcat(Collect(Returned, Events(Init(capacity), acts)), Settled(After(Init(capacity), acts)), x);
  }

  lemma PlainPopSettles(capacity: nat, acts: seq<Action>, x: Ptr)
    requires PowerOfTwo(capacity)
    requires var s := After(Init(capacity), acts); s.owner.PopRead? && s.owner.t < s.owner.b && x == Cell(s, s.owner.b)
    ensures x != NULL && OwnerStep(After(Init(capacity), acts)).event == PopDone(x)
    ensures Settled(After(Init(capacity), acts)) == [x]
  {
    Linearizable(capacity, acts);
    PlainPopIsSafe(After(Init(capacity), acts), 0);
  }

  /**
   A pop that finds more than one task takes its task without a compare-exchange.  However the
   run goes on from its load of top, and whatever the thieves had read by then, a task that is
   pushed only once is never stolen: before, in between or later.
   */
  lemma PlainPopIsFinal(capacity: nat, acts: seq<Action>, later: seq<Action>, x: Ptr)
    requires PowerOfTwo(capacity)
    requires var s := After(Init(capacity), acts); s.owner.PopRead? && s.owner.t < s.owner.b && x == Cell(s, s.owner.b)
    requires CountIn(Collect(Called, Events(Init(capacity), acts + later)), x) <= 1
    ensures x != NULL && OwnerStep(After(Init(capacity), acts)).event == PopDone(x)
    ensures CountIn(Collect(Robbed, Events(Init(capacity), acts + later)), x) == 0
  {
    var s0, all, n := Init(capacity), acts + later, |acts|;
    PlainPopSettles(capacity, acts, x);
    PopsOf(capacity, acts, x);
    PopsOf(capacity, all, x);
    assert all[..n] == acts;
    Prefixes(s0, all, n);
    CollectPrefix(Popped, Labels(s0, all), n, x);
    Conservation(capacity, all, x);
  }
}
