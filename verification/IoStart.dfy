/**
 What `start` and the stop callback are for: an operation that is told to stop before it starts
 submits nothing, one told to stop while it registers is cancelled exactly once, and left alone
 both calls do their work.
 */
module IoStart {
  import opened Basics
  import opened Io
  import opened IoSafety
  import IoRuns

  // ------------------------------------------------------------------ one operation among many

  /** How a step of anybody can change one operation. */
  ghost predicate Moved(op: Op, next: Ptr, op': Op) {
    || op' == op || op' == StartOp(op, next) || op' == StopOp(op) || op' == RequestOp(op)
    || (op.submitted != NULL && exists c :: op' == op.(done := op.done + [c]))
  }

  lemma InvokeMoves(s: Io, ptr: Ptr, res: int, o: nat)
    requires OwnersOk(s) && o < |s.ops|
    ensures |Invoke(s, ptr, res).ops| == |s.ops| && Moved(s.ops[o], s.next, Invoke(s, ptr, res).ops[o])
  {
    if ptr in s.owner && s.owner[ptr] == o {
      assert Invoke(s, ptr, res).ops[o] == s.ops[o].(done := s.ops[o].done + [Route(res)]);
    }
  }

  lemma RunMoves(s: Io, intr: bool, fail: bool, o: nat)
    requires OwnersOk(s) && o < |s.ops|
    ensures |RunStep(s, intr, fail).ops| == |s.ops| && Moved(s.ops[o], s.next, RunStep(s, intr, fail).ops[o])
  {
    if s.run.AtInvoke? && s.run.head < |s.cq| {
      InvokeMoves(s, s.cq[s.run.head].data, s.cq[s.run.head].res, o);
    }
  }

  lemma StartMoves(s: Io, v: nat, o: nat)
    requires v < |s.ops| && o < |s.ops|
    ensures |StartStep(s, v).ops| == |s.ops| && Moved(s.ops[o], s.next, StartStep(s, v).ops[o])
  {
    assert StartStep(s, v).ops == s.ops[v := StartOp(s.ops[v], s.next)];
  }

  lemma StopMoves(s: Io, v: nat, o: nat)
    requires v < |s.ops| && o < |s.ops|
    ensures |StopCallback(s, v).ops| == |s.ops| && Moved(s.ops[o], s.next, StopCallback(s, v).ops[o])
  {
    assert StopCallback(s, v).ops == s.ops[v := StopOp(s.ops[v])];
  }

  lemma StepMoves(s: Io, act: Action, o: nat)
    requires OwnersOk(s) && o < |s.ops|
    ensures o < |Step(s, act).ops| && Moved(s.ops[o], s.next, Step(s, act).ops[o])
  {
    match act
    case Create(possible) => IoRuns.CreateQuiet(s, possible);
    case Start(v) => if v < |s.ops| { StartMoves(s, v, o); }
    case RequestStop(v) =>
    case StopStep(v) => if v < |s.ops| { StopMoves(s, v, o); }
    case Run(intr, fail) => RunMoves(s, intr, fail, o);
    case _ => IoRuns.OpsStay(s, act);
  }

  // ------------------------------------------------------------------ told to stop before it starts

  /** A stop was requested before `start` asked. */
  predicate Doomed(op: Op) {
    && op.requested && op.submitted == NULL && Cancels(op) == [] && op.stop.Unregistered?
    && (op.pc.Unstarted? || op.pc.AtRequested? || op.pc.EarlyStopped?)
    && op.done == if op.pc.EarlyStopped? then [Stopped] else []
  }

  lemma DoomedMoves(op: Op, next: Ptr, op': Op)
    requires Doomed(op) && Moved(op, next, op')
    ensures Doomed(op')
  {
  }

  ghost predicate DoomedIn(s: Io, o: nat) {
    Inv(s) && o < |s.ops| && Doomed(s.ops[o])
  }

  lemma DoomedStep(s: Io, act: Action, o: nat)
    requires DoomedIn(s, o)
    ensures DoomedIn(Step(s, act), o)
  {
    StepOk(s, act);
    StepMoves(s, act, o);
    DoomedMoves(s.ops[o], s.next, Step(s, act).ops[o]);
  }

  lemma {:induction false} StaysDoomed(s: Io, later: seq<Action>, o: nat)
    requires DoomedIn(s, o)
    ensures DoomedIn(After(s, later), o)
  {
    if later != [] {
      StaysDoomed(s, later[..|later| - 1], o);
      DoomedStep(After(s, later[..|later| - 1]), later[|later| - 1], o);
    }
  }

  /**
   An operation whose stop was requested before `start` was called never submits anything and
   never issues a cancel, however the run goes on; its receiver is completed with stopped, once,
   when `start` gets there.
   */
  lemma StoppedBeforeStart(acts: seq<Action>, later: seq<Action>, o: nat)
    requires var s := After(Init(), acts); o < |s.ops| && s.ops[o].pc.Unstarted? && s.ops[o].requested
    ensures var s := After(Init(), acts + later); o < |s.ops| && Doomed(s.ops[o])
  {
    AlwaysInv(acts);
    assert Handshake(After(Init(), acts).ops[o]);
    StaysDoomed(After(Init(), acts), later, o);
    AfterConcat(Init(), acts, later);
  }

  // ------------------------------------------------------------------ told to stop while it registers

  /** The registration has found, or will find, the stop requested, and runs the callback itself. */
  predicate Inlined(op: Op) {
    && op.requested && op.possible && op.stopCancels == []
    && match op.pc
       case AtPossible => op.stop.Unregistered? && op.cbPtr == NULL
       case Inline => (op.stop.StopStore? || op.stop.StopLoad? || op.stop.StopDone?) && op.cbPtr == NULL
       case Unstarted => false
       case AtRequested => false
       case EarlyStopped => false
       case _ => op.stop.StopDone?
  }

  lemma InlinedMoves(op: Op, next: Ptr, op': Op)
    requires Inlined(op) && Moved(op, next, op')
    ensures Inlined(op')
  {
  }

  ghost predicate InlinedIn(s: Io, o: nat) {
    Inv(s) && o < |s.ops| && Inlined(s.ops[o])
  }

  lemma InlinedStep(s: Io, act: Action, o: nat)
    requires InlinedIn(s, o)
    ensures InlinedIn(Step(s, act), o)
  {
    StepOk(s, act);
    StepMoves(s, act, o);
    InlinedMoves(s.ops[o], s.next, Step(s, act).ops[o]);
  }

  lemma {:induction false} StaysInlined(s: Io, later: seq<Action>, o: nat)
    requires InlinedIn(s, o)
    ensures InlinedIn(After(s, later), o)
  {
    if later != [] {
      StaysInlined(s, later[..|later| - 1], o);
      InlinedStep(After(s, later[..|later| - 1]), later[|later| - 1], o);
    }
  }

  /**
   An operation whose stop was requested between `start`'s first question and the registration is
   cancelled exactly once, by `start` itself: the callback runs inside the registration, before
   there is anything to cancel.
   */
  lemma StoppedWhileRegistering(acts: seq<Action>, later: seq<Action>, o: nat)
    requires var s := After(Init(), acts); o < |s.ops| && s.ops[o].pc.AtPossible? && s.ops[o].requested
    ensures o < |After(Init(), acts + later).ops|
    ensures var op := After(Init(), acts + later).ops[o];
      op.pc.Started? ==> op.stopCancels == [] && op.startCancels == [op.submitted]
  {
    AlwaysInv(acts);
    assert Handshake(After(Init(), acts).ops[o]);
    StaysInlined(After(Init(), acts), later, o);
    AfterConcat(Init(), acts, later);
    assert Handshake(After(Init(), acts + later).ops[o]);
  }

  // ------------------------------------------------------------------ the calls alone

  lemma Unroll1(s: Io, a: Action)
    ensures After(s, [a]) == Step(s, a)
  {
    assert After(s, [a][..0]) == s;
  }

  /** Runs of a few steps, spelled out. */
  lemma Unroll3(s: Io, a: Action, b: Action, c: Action)
    ensures After(s, [a, b, c]) == Step(Step(Step(s, a), b), c)
  {
    AfterConcat(s, [], [a]);
    AfterConcat(s, [a], [b]);
    AfterConcat(s, [a, b], [c]);
    Unroll1(s, a);
    Unroll1(Step(s, a), b);
    Unroll1(Step(Step(s, a), b), c);
    assert [a] + [b] == [a, b] && [a, b] + [c] == [a, b, c];
  }

  lemma AfterConcat(s: Io, p: seq<Action>, q: seq<Action>)
    ensures After(s, p + q) == After(After(s, p), q)
    decreases |q|
  {
    if q == [] {
      assert p + q == p;
    } else {
      var n := |q| - 1;
      AfterConcat(s, p, q[..n]);
      assert (p + q)[..|p + q| - 1] == p + q[..n];
    }
  }

  lemma FirstThree(s: Io, o: nat)
    requires o < |s.ops| && s.ops[o].pc.Unstarted? && !s.ops[o].requested
    ensures After(s, [Start(o), Start(o), Start(o)])
      == SetOp(s, o, s.ops[o].(pc := AtSubmit, stop := if s.ops[o].possible then Armed else s.ops[o].stop))
  {
    Unroll3(s, Start(o), Start(o), Start(o));
    var s1 := Step(s, Start(o));
    assert s1 == SetOp(s, o, s.ops[o].(pc := AtRequested));
    var s2 := Step(s1, Start(o));
    assert s2 == SetOp(s, o, s.ops[o].(pc := AtPossible));
  }

  /** What a submission leaves, the operation itself aside. */
  function WithCallback(s: Io, o: nat): Io {
    s.(heap := s.heap + {s.next}, next := s.next + 1, owner := s.owner[s.next := o],
       inflight := s.inflight + multiset{Request(s.next)})
  }

  lemma SubmitAlone(s: Io, o: nat)
    requires o < |s.ops| && s.ops[o].pc.AtSubmit?
    ensures Step(s, Start(o)) == SetOp(WithCallback(s, o), o, s.ops[o].(pc := AtStore(s.next), submitted := s.next))
  {
  }

  lemma StoreAlone(s: Io, o: nat)
    requires o < |s.ops| && s.ops[o].pc.AtStore?
    ensures Step(s, Start(o)) == SetOp(s, o, s.ops[o].(pc := AtCheck(s.ops[o].pc.ptr), cbPtr := s.ops[o].pc.ptr))
  {
  }

  lemma CheckAlone(s: Io, o: nat)
    requires o < |s.ops| && s.ops[o].pc.AtCheck? && !s.ops[o].stopCalled
    ensures Step(s, Start(o)) == SetOp(s, o, s.ops[o].(pc := Started))
  {
  }

  lemma LastThree(s: Io, o: nat)
    requires o < |s.ops| && s.ops[o].pc.AtSubmit? && !s.ops[o].stopCalled
    ensures After(s, [Start(o), Start(o), Start(o)])
      == SetOp(WithCallback(s, o), o, s.ops[o].(pc := Started, submitted := s.next, cbPtr := s.next))
  {
    Unroll3(s, Start(o), Start(o), Start(o));
    var s1 := Step(s, Start(o));
    SubmitAlone(s, o);
    StoreAlone(s1, o);
    CheckAlone(Step(s1, Start(o)), o);
  }

  /**
   `start` on its own, with no stop requested: six steps, after which one new callback is live, its
   request is with the kernel, and the stop callback is armed if stopping is possible.
   */
  lemma StartSubmits(acts: seq<Action>, o: nat)
    requires var s := After(Init(), acts); o < |s.ops| && s.ops[o].pc.Unstarted? && !s.ops[o].requested
    ensures var s := After(Init(), acts); var go := [Start(o), Start(o), Start(o)]; var s' := After(s, go + go);
      && o < |s'.ops| && s'.ops[o].pc.Started? && s'.ops[o].submitted == s.next && s'.ops[o].stop.Armed? == s.ops[o].possible
      && s'.heap == s.heap + {s.next} && s'.inflight == s.inflight + multiset{Request(s.next)}
      && s'.next == s.next + 1 && s'.cq == s.cq
  {
    var s, go := After(Init(), acts), [Start(o), Start(o), Start(o)];
    AlwaysInv(acts);
    assert Handshake(s.ops[o]);
    AfterConcat(s, go, go);
    FirstThree(s, o);
    LastThree(After(s, go), o);
  }

  lemma RequestAlone(s: Io, o: nat)
    requires o < |s.ops| && s.ops[o].stop.Armed? && s.ops[o].possible
    ensures Step(s, RequestStop(o)) == SetOp(s, o, s.ops[o].(requested := true, stop := StopStore))
  {
  }

  lemma StopStoreAlone(s: Io, o: nat)
    requires o < |s.ops| && s.ops[o].stop.StopStore?
    ensures Step(s, StopStep(o)) == SetOp(s, o, s.ops[o].(stop := StopLoad, stopCalled := true))
  {
  }

  lemma StopLoadAlone(s: Io, o: nat)
    requires o < |s.ops| && s.ops[o].stop.StopLoad? && s.ops[o].cbPtr != NULL
    ensures Step(s, StopStep(o)) == SetOp(s, o, s.ops[o].(stop := StopCancel(s.ops[o].cbPtr)))
  {
  }

  lemma StopCancelAlone(s: Io, o: nat)
    requires o < |s.ops| && s.ops[o].stop.StopCancel?
    ensures var p := s.ops[o].stop.ptr;
      Step(s, StopStep(o))
        == SetOp(s, o, s.ops[o].(stop := StopDone, stopCancels := s.ops[o].stopCancels + [p]))
             .(inflight := s.inflight + multiset{Cancel(p)})
  {
  }

  lemma StopAlone(s: Io, o: nat)
    requires o < |s.ops| && s.ops[o].stop.StopStore? && s.ops[o].cbPtr != NULL
    ensures var p := s.ops[o].cbPtr;
      After(s, [StopStep(o), StopStep(o), StopStep(o)])
        == SetOp(s, o, s.ops[o].(stop := StopDone, stopCalled := true, stopCancels := s.ops[o].stopCancels + [p]))
             .(inflight := s.inflight + multiset{Cancel(p)})
  {
    Unroll3(s, StopStep(o), StopStep(o), StopStep(o));
    var s1 := Step(s, StopStep(o));
    StopStoreAlone(s, o);
    StopLoadAlone(s1, o);
    StopCancelAlone(Step(s1, StopStep(o)), o);
  }

  /**
   A stop request of a started operation on its own: the stop callback takes three steps, after
   which one cancel of the operation's callback is with the kernel and nothing else has changed.
   */
  lemma StopCancels(acts: seq<Action>, o: nat)
    requires var s := After(Init(), acts);
      o < |s.ops| && s.ops[o].pc.Started? && s.ops[o].possible && !s.ops[o].requested
    ensures var s := After(Init(), acts); var x := s.ops[o].submitted;
      var s' := After(Step(s, RequestStop(o)), [StopStep(o), StopStep(o), StopStep(o)]);
      && x != NULL && s'.inflight == s.inflight + multiset{Cancel(x)}
      && o < |s'.ops| && s'.ops[o].requested && s'.ops[o].stop.StopDone? && Cancels(s'.ops[o]) == [x]
      && s'.heap == s.heap && s'.cq == s.cq
  {
    var s := After(Init(), acts);
    AlwaysInv(acts);
    assert Handshake(s.ops[o]);
    RequestAlone(s, o);
    StopAlone(Step(s, RequestStop(o)), o);
  }

  /** `start` on its own, with the stop already requested: two steps, and the receiver is told. */
  lemma StartGivesUp(s: Io, o: nat)
    requires o < |s.ops| && s.ops[o].pc.Unstarted? && s.ops[o].requested
    ensures Step(Step(s, Start(o)), Start(o))
      == SetOp(s, o, s.ops[o].(pc := EarlyStopped, done := s.ops[o].done + [Stopped]))
  {
    assert Step(s, Start(o)) == SetOp(s, o, s.ops[o].(pc := AtRequested));
  }
}
