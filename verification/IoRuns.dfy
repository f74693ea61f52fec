/**
 What whole runs of the I/O machine show from outside: everything that is recorded as issued
 reaches the kernel, `stop` ends the event loop and nothing else does, and the calls do what they
 are for when nobody gets in their way.
 */
module IoRuns {
  import opened Basics
  import opened Io
  import opened IoSafety

  // ------------------------------------------------------------------ what the kernel is given

  /** What a step adds to the kernel's work. */
  function Given(s: Io, act: Action): multiset<Sqe> {
    if act.Complete? then multiset{} else Step(s, act).inflight - s.inflight
  }

  /** What the kernel finishes in a step. */
  function Finished(s: Io, act: Action): multiset<Sqe> {
    if act.Complete? && act.e in s.inflight then multiset{act.e} else multiset{}
  }

  /** Every submission of a run. */
  function Submitted(s: Io, acts: seq<Action>): multiset<Sqe> {
    if acts == [] then multiset{} else
    var before := acts[..|acts| - 1];
    Submitted(s, before) + Given(After(s, before), acts[|acts| - 1])
  }

  /** Every submission that the kernel has completed in a run. */
  function Completed(s: Io, acts: seq<Action>): multiset<Sqe> {
    if acts == [] then multiset{} else
    var before := acts[..|acts| - 1];
    Completed(s, before) + Finished(After(s, before), acts[|acts| - 1])
  }

  /** The submission that a step is expected to make, if any. */
  function Adds(s: Io, act: Action): multiset<Sqe> {
    if act.Start? && act.o < |s.ops| then StartAdds(s, act.o)
    else if act.StopStep? && act.o < |s.ops| && s.ops[act.o].stop.StopCancel? then multiset{Cancel(s.ops[act.o].stop.ptr)}
    else if act.StopSubmit? && s.stoppers > 0 then multiset{Nop}
    else multiset{}
  }

  function StartAdds(s: Io, o: nat): multiset<Sqe>
    requires o < |s.ops|
  {
    match s.ops[o].pc
    case AtSubmit => multiset{Request(s.next)}
    case AtCancel(p) => multiset{Cancel(p)}
    case _ => multiset{}
  }

  lemma StartGives(s: Io, o: nat)
    requires o < |s.ops|
    ensures StartStep(s, o).inflight == s.inflight + StartAdds(s, o)
  {
  }

  lemma RunGives(s: Io, intr: bool, fail: bool)
    ensures RunStep(s, intr, fail).inflight == s.inflight && RunStep(s, intr, fail).cq == s.cq
  {
  }

  lemma StepGives(s: Io, act: Action)
    requires !act.Complete?
    ensures Step(s, act).inflight == s.inflight + Adds(s, act) && Step(s, act).cq == s.cq
  {
    if act.Start? && act.o < |s.ops| {
      StartGives(s, act.o);
    } else if act.Run? {
      RunGives(s, act.intr, act.fail);
    }
  }

  lemma Difference(f: multiset<Sqe>, g: multiset<Sqe>)
    ensures (f + g) - f == g
  {
  }

  lemma GivenIs(s: Io, act: Action)
    requires !act.Complete?
    ensures Given(s, act) == Adds(s, act)
  {
    StepGives(s, act);
    Difference(s.inflight, Adds(s, act));
  }

  lemma CompleteFlight(s: Io, e: Sqe, res: int)
    ensures var act := Complete(e, res); var s' := Step(s, act);
      && s'.inflight + Finished(s, act) == s.inflight && |s'.cq| == |s.cq| + |Finished(s, act)|
  {
    if e in s.inflight {
      assert s.inflight == (s.inflight - multiset{e}) + multiset{e};
    }
  }

  lemma FlightStep(s: Io, act: Action)
    ensures var s' := Step(s, act);
      && s'.inflight + Finished(s, act) == s.inflight + Given(s, act)
      && |s'.cq| == |s.cq| + |Finished(s, act)|
  {
    if act.Complete? {
      CompleteFlight(s, act.e, act.res);
    } else {
      StepGives(s, act);
      GivenIs(s, act);
    }
  }

  lemma Regroup(all: multiset<Sqe>, f: multiset<Sqe>, done: multiset<Sqe>,
                more: multiset<Sqe>, f': multiset<Sqe>, done': multiset<Sqe>)
    requires all == f + done && f' + done' == f + more
    ensures all + more == f' + (done + done')
  {
    assert all + more == (f + more) + done;
    assert f' + (done + done') == (f' + done') + done;
  }

  /** Every submission is in flight or has been completed, with one completion posted for each. */
  lemma {:induction false} NothingGetsLost(acts: seq<Action>)
    ensures var s := After(Init(), acts);
      && Submitted(Init(), acts) == s.inflight + Completed(Init(), acts)
      && |s.cq| == |Completed(Init(), acts)|
  {
    if acts != [] {
      var before := acts[..|acts| - 1];
      var s, act := After(Init(), before), acts[|acts| - 1];
      NothingGetsLost(before);
      FlightStep(s, act);
      Regroup(Submitted(Init(), before), s.inflight, Completed(Init(), before),
              Given(s, act), Step(s, act).inflight, Finished(s, act));
    }
  }

  // ------------------------------------------------------------------ cancels

  /** How often the owner of callback `x` has issued a cancel of it. */
  function Issued(s: Io, x: Ptr): nat {
    if x in s.owner && s.owner[x] < |s.ops| then multiset(Cancels(s.ops[s.owner[x]]))[x] else 0
  }

  /** Between two states, `g` was submitted and the records say so. */
  ghost predicate Tallies(s: Io, g: multiset<Sqe>, s': Io, x: Ptr) {
    && g[Cancel(x)] + Issued(s, x) == Issued(s', x)
    && g[Request(x)] + (if x in s.owner then 1 else 0) == (if x in s'.owner then 1 else 0)
  }

  /** Only the owner of a callback has it among its cancels. */
  lemma NoCancelsYet(op: Op)
    requires Handshake(op) && op.submitted == NULL
    ensures Cancels(op) == []
  {
  }

  /** The operations' cancels and the owners stay. */
  lemma Quiet(s: Io, s': Io, x: Ptr)
    requires s'.owner == s.owner && |s'.ops| >= |s.ops| && (x in s.owner ==> s.owner[x] < |s.ops|)
    requires forall o :: 0 <= o < |s.ops| ==> Cancels(s'.ops[o]) == Cancels(s.ops[o])
    ensures Tallies(s, multiset{}, s', x)
  {
  }

  /** An operation issues one cancel more, of its own callback. */
  lemma Cancelling(s: Io, s': Io, o: nat, p: Ptr, x: Ptr)
    requires OwnersOk(s) && o < |s.ops| == |s'.ops| && p == s.ops[o].submitted != NULL && s'.owner == s.owner
    requires multiset(Cancels(s'.ops[o])) == multiset(Cancels(s.ops[o])) + multiset{p}
    requires forall v :: 0 <= v < |s.ops| && v != o ==> s'.ops[v] == s.ops[v]
    ensures Tallies(s, multiset{Cancel(p)}, s', x)
  {
  }

  lemma SubmitTallies(s: Io, o: nat, x: Ptr)
    requires OwnersOk(s) && o < |s.ops| && s.ops[o].pc.AtSubmit?
    ensures Tallies(s, multiset{Request(s.next)}, StartStep(s, o), x)
  {
    SubmitsFirst(s, o);
    assert Handshake(s.ops[o]);
    NoCancelsYet(s.ops[o]);
    var s' := StartStep(s, o);
    assert Cancels(s'.ops[o]) == [];
    assert s'.owner == s.owner[s.next := o];
  }

  lemma CancelsAdd(op: Op, op': Op, p: Ptr)
    requires || (op'.startCancels == op.startCancels + [p] && op'.stopCancels == op.stopCancels)
             || (op'.startCancels == op.startCancels && op'.stopCancels == op.stopCancels + [p])
    ensures multiset(Cancels(op')) == multiset(Cancels(op)) + multiset{p}
  {
  }

  lemma StartCancelTallies(s: Io, o: nat, x: Ptr)
    requires OwnersOk(s) && o < |s.ops| && s.ops[o].pc.AtCancel?
    ensures Tallies(s, multiset{Cancel(s.ops[o].pc.ptr)}, StartStep(s, o), x)
  {
    var op, s' := s.ops[o], StartStep(s, o);
    assert Handshake(op);
    CancelsAdd(op, s'.ops[o], op.pc.ptr);
    Cancelling(s, s', o, op.pc.ptr, x);
  }

  lemma StartIsQuiet(op: Op, ptr: Ptr)
    requires !op.pc.AtCancel?
    ensures Cancels(StartOp(op, ptr)) == Cancels(op)
  {
  }

  lemma StartQuietTallies(s: Io, o: nat, x: Ptr)
    requires OwnersOk(s) && o < |s.ops| && !s.ops[o].pc.AtSubmit? && !s.ops[o].pc.AtCancel?
    ensures Tallies(s, multiset{}, StartStep(s, o), x)
  {
    StartIsQuiet(s.ops[o], s.next);
    assert StartStep(s, o) == SetOp(s, o, StartOp(s.ops[o], s.next));
    Quiet(s, StartStep(s, o), x);
  }

  lemma StartTallies(s: Io, o: nat, x: Ptr)
    requires OwnersOk(s) && o < |s.ops|
    ensures Tallies(s, StartAdds(s, o), StartStep(s, o), x)
  {
    if s.ops[o].pc.AtSubmit? {
      SubmitTallies(s, o, x);
    } else if s.ops[o].pc.AtCancel? {
      StartCancelTallies(s, o, x);
    } else {
      StartQuietTallies(s, o, x);
    }
  }

  lemma StopCancelTallies(s: Io, o: nat, x: Ptr)
    requires OwnersOk(s) && o < |s.ops| && s.ops[o].stop.StopCancel?
    ensures Tallies(s, multiset{Cancel(s.ops[o].stop.ptr)}, StopCallback(s, o), x)
  {
    var op, s' := s.ops[o], StopCallback(s, o);
    assert Handshake(op);
    CancelsAdd(op, s'.ops[o], op.stop.ptr);
    Cancelling(s, s', o, op.stop.ptr, x);
  }

  lemma StopQuietTallies(s: Io, o: nat, x: Ptr)
    requires OwnersOk(s) && o < |s.ops| && !s.ops[o].stop.StopCancel?
    ensures Tallies(s, multiset{}, StopCallback(s, o), x)
  {
    assert Cancels(StopOp(s.ops[o])) == Cancels(s.ops[o]);
    Quiet(s, StopCallback(s, o), x);
  }

  lemma StopTallies(s: Io, o: nat, x: Ptr)
    requires OwnersOk(s) && o < |s.ops|
    ensures Tallies(s, Adds(s, StopStep(o)), StopCallback(s, o), x)
  {
    if s.ops[o].stop.StopCancel? { StopCancelTallies(s, o, x); } else { StopQuietTallies(s, o, x); }
  }

  lemma RunQuiet(s: Io, intr: bool, fail: bool)
    ensures var s' := RunStep(s, intr, fail);
      && s'.owner == s.owner && |s'.ops| == |s.ops|
      && forall o :: 0 <= o < |s.ops| ==> Cancels(s'.ops[o]) == Cancels(s.ops[o])
  {
  }

  lemma RequestIsQuiet(op: Op)
    ensures Cancels(RequestOp(op)) == Cancels(op)
  {
  }

  lemma RequestQuiet(s: Io, o: nat)
    requires o < |s.ops|
    ensures var s' := SetOp(s, o, RequestOp(s.ops[o]));
      && s'.owner == s.owner && |s'.ops| == |s.ops|
      && forall v :: 0 <= v < |s.ops| ==> Cancels(s'.ops[v]) == Cancels(s.ops[v])
  {
    RequestIsQuiet(s.ops[o]);
  }

  lemma OpsStay(s: Io, act: Action)
    requires act.Complete? || act.RunCall? || act.StopCall? || act.StopSubmit?
    ensures Step(s, act).ops == s.ops && Step(s, act).owner == s.owner
  {
    match act
    case Complete(e, res) => CompleteOpsStay(s, e, res);
    case RunCall =>
    case StopCall =>
    case StopSubmit =>
  }

  lemma CompleteOpsStay(s: Io, e: Sqe, res: int)
    ensures CompleteStep(s, e, res).ops == s.ops && CompleteStep(s, e, res).owner == s.owner
  {
  }

  lemma CreateQuiet(s: Io, possible: bool)
    ensures var s' := Step(s, Create(possible)); s'.owner == s.owner && s'.ops == s.ops + [NewOp(possible)]
  {
  }

  lemma OthersQuiet(s: Io, act: Action)
    requires !act.Start? && !act.StopStep? && !act.Run?
    ensures var s' := Step(s, act);
      && s'.owner == s.owner && |s'.ops| >= |s.ops|
      && forall o :: 0 <= o < |s.ops| ==> Cancels(s'.ops[o]) == Cancels(s.ops[o])
  {
    if act.RequestStop? {
      if act.o < |s.ops| { RequestQuiet(s, act.o); }
    } else if act.Create? {
      CreateQuiet(s, act.possible);
    } else {
      OpsStay(s, act);
    }
  }

  lemma NopCancelsNothing(s: Io, s': Io, x: Ptr)
    requires Tallies(s, multiset{}, s', x)
    ensures Tallies(s, multiset{Nop}, s', x)
  {
  }

  lemma StepTallies(s: Io, act: Action, x: Ptr)
    requires OwnersOk(s)
    ensures Tallies(s, Given(s, act), Step(s, act), x)
  {
    if !act.Complete? { GivenIs(s, act); }
    if act.Start? {
      if act.o < |s.ops| { StartTallies(s, act.o, x); }
    } else if act.StopStep? {
      if act.o < |s.ops| { StopTallies(s, act.o, x); }
    } else if act.Run? {
      RunQuiet(s, act.intr, act.fail);
      Quiet(s, Step(s, act), x);
    } else {
      OthersQuiet(s, act);
      Quiet(s, Step(s, act), x);
      NopCancelsNothing(s, Step(s, act), x);
    }
  }

  /**
   What is recorded is what the kernel got, in every run: the cancels of a callback that were
   submitted are those that its operation issued, no other pointer was ever cancelled, and one
   request was submitted for each callback ever allocated.
   */
  lemma {:induction false} CancelsReachTheKernel(acts: seq<Action>, x: Ptr)
    ensures Submitted(Init(), acts)[Cancel(x)] == Issued(After(Init(), acts), x)
    ensures Submitted(Init(), acts)[Request(x)] == if x in After(Init(), acts).owner then 1 else 0
  {
    if acts != [] {
      var before := acts[..|acts| - 1];
      CancelsReachTheKernel(before, x);
      AlwaysInv(before);
      StepTallies(After(Init(), before), acts[|acts| - 1], x);
    }
  }

  lemma OwnCancels(op: Op)
    requires forall c :: c in Cancels(op) ==> c == op.submitted
    ensures multiset(Cancels(op))[op.submitted] == |Cancels(op)|
  {
    AllEqual(Cancels(op), op.submitted);
  }

  lemma {:induction false} AllEqual(q: seq<Ptr>, x: Ptr)
    requires forall c :: c in q ==> c == x
    ensures multiset(q)[x] == |q|
  {
    if q != [] {
      assert forall c :: c in q[1..] ==> c in q;
      AllEqual(q[1..], x);
      assert q[0] in q && q == [q[0]] + q[1..];
    }
  }

  /**
   The cancellation handshake as the kernel sees it, for every interleaving of `start` with the
   stop callback.  Once both have finished, a requested stop of a submitted operation has brought
   the kernel one cancel of its callback or two; without a request it has got none; and an
   operation stopped early has brought it nothing at all.
   */
  lemma KernelIsToldToCancel(acts: seq<Action>, o: nat)
    requires o < |After(Init(), acts).ops|
    ensures var op := After(Init(), acts).ops[o]; var x := op.submitted; var sent := Submitted(Init(), acts);
      && (op.pc.Started? && op.requested && op.stop.StopDone? ==> 1 <= sent[Cancel(x)] <= 2 && sent[Request(x)] == 1)
      && (op.pc.Started? && !op.requested ==> sent[Cancel(x)] == 0 && sent[Request(x)] == 1)
      && (op.pc.EarlyStopped? ==> x == NULL && sent[Request(NULL)] == sent[Cancel(NULL)] == 0)
  {
    var s := After(Init(), acts);
    var op := s.ops[o];
    AlwaysInv(acts);
    CancellationHandshake(acts, o);
    CancelsReachTheKernel(acts, op.submitted);
    assert Handshake(op);
    OwnCancels(op);
  }

  // ------------------------------------------------------------------ nops

  /** How often `stop` was called while the loop was running. */
  function StopCalls(s: Io, acts: seq<Action>): nat {
    if acts == [] then 0 else
    var before := acts[..|acts| - 1];
    StopCalls(s, before) + (if acts[|acts| - 1].StopCall? && !After(s, before).run.NotRunning? then 1 else 0)
  }

  lemma NopStep(s: Io, act: Action)
    ensures Given(s, act)[Nop] + Step(s, act).stoppers
      == s.stoppers + (if act.StopCall? && !s.run.NotRunning? then 1 else 0)
  {
    if !act.Complete? { GivenIs(s, act); }
    if act.Run? { RunKeepsStoppers(s, act.intr, act.fail); }
  }

  lemma RunKeepsStoppers(s: Io, intr: bool, fail: bool)
    ensures RunStep(s, intr, fail).stoppers == s.stoppers
  {
  }

  /** Every call of `stop` submits one nop, once its thread gets that far. */
  lemma {:induction false} EveryStopSendsANop(acts: seq<Action>)
    ensures Submitted(Init(), acts)[Nop] + After(Init(), acts).stoppers == StopCalls(Init(), acts)
  {
    if acts != [] {
      EveryStopSendsANop(acts[..|acts| - 1]);
      NopStep(After(Init(), acts[..|acts| - 1]), acts[|acts| - 1]);
    }
  }
}
