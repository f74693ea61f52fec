/**
 How the event loop ends: `stop` clears the flag for good, the loop leaves only when it is told to
 or when a wait fails, and told to stop it handles what there is and leaves.
 */
module IoStop {
  import opened Basics
  import opened Io
  import opened IoSafety
  import opened Iteration

  // ------------------------------------------------------------------ stop is final

  /** The loop is not entered anew in a run. */
  ghost predicate NoEntry(s: Io, acts: seq<Action>) {
    forall i :: 0 <= i < |acts| ==> !(acts[i].RunCall? && After(s, acts[..i]).run.NotRunning?)
  }

  lemma StoppedStep(s: Io, act: Action)
    requires !s.running && !(act.RunCall? && s.run.NotRunning?)
    ensures !Step(s, act).running && (Step(s, act).run.Waiting? ==> s.run.Waiting?)
  {
  }

  /** After a run the flag is down, and the loop waits only if it has been waiting all along. */
  ghost predicate Down(s: Io, later: seq<Action>) {
    && !After(s, later).running
    && (After(s, later).run.Waiting? ==> forall i :: 0 <= i <= |later| ==> After(s, later[..i]).run.Waiting?)
  }

  lemma StopClears(s: Io)
    requires !s.run.NotRunning?
    ensures !Step(s, StopCall).running && Step(s, StopCall).run == s.run
  {
  }

  lemma {:induction false} StaysStopped(s: Io, later: seq<Action>)
    requires !s.running && NoEntry(s, later)
    ensures Down(s, later)
  {
    assert later[..|later|] == later;
    if later != [] {
      var n := |later| - 1;
      var before := later[..n];
      assert forall i :: 0 <= i <= n ==> before[..i] == later[..i];
      StaysStopped(s, before);
      StoppedStep(After(s, before), later[n]);
    }
  }

  /**
   `stop` is final, in every run: once it has been called while the loop runs, and until the loop
   is entered anew, the flag stays down; and the loop waits no more, unless it has been waiting
   all along.
   */
  lemma StopIsFinal(acts: seq<Action>, later: seq<Action>)
    requires !After(Init(), acts).run.NotRunning?
    requires NoEntry(Step(After(Init(), acts), StopCall), later)
    ensures Down(Step(After(Init(), acts), StopCall), later)
  {
    StopClears(After(Init(), acts));
    StaysStopped(Step(After(Init(), acts), StopCall), later);
  }

  // ------------------------------------------------------------------ nothing else ends the loop

  /** The flag goes down only by a call of `stop`, and goes up when the loop is entered. */
  lemma FlagStep(s: Io, act: Action)
    requires !Step(s, act).run.NotRunning? && !Step(s, act).running
    ensures !s.run.NotRunning? && (s.running ==> act.StopCall?)
  {
  }

  /** The loop has been inside since time `i`. */
  ghost predicate InsideSince(acts: seq<Action>, i: nat) {
    i <= |acts| && forall t :: i <= t <= |acts| ==> !After(Init(), acts[..t]).run.NotRunning?
  }

  lemma InsideStill(acts: seq<Action>, i: nat)
    requires acts != [] && !After(Init(), acts).run.NotRunning? && InsideSince(acts[..|acts| - 1], i)
    ensures InsideSince(acts, i)
  {
    forall t | i <= t <= |acts|
      ensures !After(Init(), acts[..t]).run.NotRunning?
    {
      assert acts[..t] == if t < |acts| then acts[..|acts| - 1][..t] else acts;
    }
  }

  lemma InsideNow(acts: seq<Action>)
    requires !After(Init(), acts).run.NotRunning?
    ensures InsideSince(acts, |acts|)
  {
    assert acts[..|acts|] == acts;
  }

  lemma {:induction false} OnlyStopClears(acts: seq<Action>) returns (i: nat)
    requires !After(Init(), acts).run.NotRunning? && !After(Init(), acts).running
    ensures i < |acts| && acts[i].StopCall? && InsideSince(acts, i)
  {
    var n := |acts| - 1;
    FlagStep(After(Init(), acts[..n]), acts[n]);
    if After(Init(), acts[..n]).running {
      i := n;
      InsideNow(acts[..n]);
    } else {
      i := OnlyStopClears(acts[..n]);
    }
    InsideStill(acts, i);
  }

  /** The loop leaves exactly at a failed wait and at a load of the cleared flag. */
  lemma LeavesExactly(s: Io, act: Action)
    requires !s.run.NotRunning?
    ensures Step(s, act).run.NotRunning? <==>
      act.Run? && ((s.run.Waiting? && !act.intr && act.fail) || (s.run.AtRunning? && !s.running))
  {
  }

  /**
   Nothing else ends the loop, in any run: if its last step left it, that was a failed wait, or
   `stop` was called (at time `i`) since the loop was last entered.
   */
  lemma LeavesOnlyWhenTold(acts: seq<Action>, act: Action) returns (i: nat)
    requires !After(Init(), acts).run.NotRunning? && Step(After(Init(), acts), act).run.NotRunning?
    ensures
      || (act.Run? && act.fail && !act.intr && After(Init(), acts).run.Waiting?)
      || (i < |acts| && acts[i].StopCall? && InsideSince(acts, i))
  {
    i := 0;
    LeavesExactly(After(Init(), acts), act);
    if !After(Init(), acts).run.Waiting? { i := OnlyStopClears(acts); }
  }

  // ------------------------------------------------------------------ the loop alone

  const GO := Run(false, false)

  function Turn(): Io -> Io { (s: Io) => Step(s, GO) }

  /** The loop takes `k` steps and nobody else does. */
  function Alone(s: Io, k: nat): Io {
    Iterate(Turn(), s, k)
  }

  lemma {:induction false} AloneIsARun(s: Io, k: nat)
    ensures Alone(s, k) == After(s, seq(k, _ => GO))
  {
    if k > 0 {
      AloneIsARun(s, k - 1);
      IterateMore(Turn(), s, k - 1);
      OneMore(s, seq(k - 1, _ => GO));
      assert seq(k, _ => GO) == seq(k - 1, _ => GO) + [GO];
    }
  }

  lemma OneMore(s: Io, acts: seq<Action>)
    ensures After(s, acts + [GO]) == Turn()(After(s, acts))
  {
    assert (acts + [GO])[..|acts + [GO]| - 1] == acts;
  }

  /** Steps that the batch needs from entry `head` on. */
  function Cost(cq: seq<Cqe>, head: nat): nat
    decreases |cq| - head
  {
    if head >= |cq| then 0 else (if cq[head].data == NULL then 1 else 3) + Cost(cq, head + 1)
  }

  /** What the loop alone leaves as it is. */
  predicate Still(s: Io, s': Io) {
    s'.cq == s.cq && s'.consumed == s.consumed && s'.running == s.running && s'.stoppers == s.stoppers
  }

  lemma InvokeKeeps(s: Io)
    requires s.run.AtInvoke? && s.run.head < |s.cq|
    ensures Turn()(s).run == AtDelete(s.run.head, s.run.count) && Still(s, Turn()(s))
  {
  }

  lemma DeleteKeeps(s: Io)
    requires s.run.AtDelete? && s.run.head < |s.cq|
    ensures Turn()(s).run == Batch(s.run.head + 1, s.run.count + 1) && Still(s, Turn()(s))
  {
  }

  lemma LookKeeps(s: Io)
    requires s.run.Batch?
    ensures Still(s, Turn()(s))
    ensures Turn()(s).run ==
      if s.run.head >= |s.cq| then AtAdvance(s.run.head, s.run.count)
      else if s.cq[s.run.head].data == NULL then Batch(s.run.head + 1, s.run.count + 1)
      else AtInvoke(s.run.head, s.run.count)
  {
  }

  /** One entry: passed over, or called and deleted. */
  lemma EntryAlone(s: Io)
    requires s.run.Batch? && s.run.head < |s.cq|
    ensures var s' := Alone(s, if s.cq[s.run.head].data == NULL then 1 else 3);
      s'.run == Batch(s.run.head + 1, s.run.count + 1) && Still(s, s')
  {
    LookKeeps(s);
    IterateOnce(Turn(), s);
    if s.cq[s.run.head].data != NULL {
      InvokeKeeps(Turn()(s));
      DeleteKeeps(Turn()(Turn()(s)));
      IterateThree(Turn(), s);
    }
  }

  lemma {:induction false} BatchAlone(s: Io)
    requires s.run.Batch? && s.run.head <= |s.cq|
    ensures var s' := Alone(s, Cost(s.cq, s.run.head));
      s'.run == Batch(|s.cq|, s.run.count + |s.cq| - s.run.head) && Still(s, s')
    decreases |s.cq| - s.run.head
  {
    if s.run.head < |s.cq| {
      var k := if s.cq[s.run.head].data == NULL then 1 else 3;
      EntryAlone(s);
      BatchAlone(Alone(s, k));
      IterateJoin(Turn(), s, k, Cost(s.cq, s.run.head + 1));
    }
  }

  lemma AdvanceKeeps(s: Io)
    requires s.run.AtAdvance?
    ensures Turn()(s).run.AtRunning? && Turn()(s).consumed == s.consumed + s.run.count
    ensures Turn()(s).cq == s.cq && Turn()(s).running == s.running
  {
  }

  lemma LeaveKeeps(s: Io)
    requires s.run.AtRunning? && !s.running
    ensures Turn()(s) == s.(run := NotRunning)
  {
  }

  lemma LastSteps(s: Io)
    requires s.run.Batch? && s.run.head == |s.cq| == s.consumed + s.run.count && !s.running
    ensures var s' := Alone(s, 3); s'.run.NotRunning? && s'.consumed == |s.cq| && s'.cq == s.cq
  {
    LookKeeps(s);
    AdvanceKeeps(Turn()(s));
    LeaveKeeps(Turn()(Turn()(s)));
    IterateThree(Turn(), s);
  }

  lemma WaitEnds(s: Io)
    requires s.run.Waiting? && s.consumed < |s.cq|
    ensures Turn()(s) == s.(run := Batch(s.consumed, 0))
  {
  }

  /**
   Told to stop, the loop stops: from any state in which it waits, the flag is down and a
   completion is there (the nop of `stop`, or any other), the loop on its own handles every
   completion posted so far and leaves, in so many steps.
   */
  lemma StopEndsTheLoop(s: Io)
    requires s.run.Waiting? && !s.running && s.consumed < |s.cq|
    ensures var s' := Alone(s, 1 + Cost(s.cq, s.consumed) + 3);
      s'.run.NotRunning? && s'.consumed == |s.cq| && s'.cq == s.cq
  {
    var s1, c := Turn()(s), Cost(s.cq, s.consumed);
    WaitEnds(s);
    IterateOnce(Turn(), s);
    BatchAlone(s1);
    LastSteps(Alone(s1, c));
    IterateJoin(Turn(), s1, c, 3);
    IterateJoin(Turn(), s, 1, c + 3);
  }
}
