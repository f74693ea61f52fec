/**
 The event loop of `io_context::run` in the form of the source: an outer loop that waits, an
 inner loop over the posted completions that calls and deletes heap callbacks and counts, and one
 batched advance at the end, while other threads start, stop and cancel operations and the kernel
 posts completions between any two of its accesses.

 The ghost field `log` is a schedule of the I/O machine, and `Valid` says that the fields are the
 state that this schedule leads to: every method below is proved to take the machine's steps, and
 every result about runs of the machine holds of the object.
 */
module EventLoop {
  import opened Basics
  import opened Io
  import opened IoSafety
  import IoStop

  /** The completions among `entries` that carry a callback, in order. */
  function Carrying(entries: seq<Cqe>): seq<Cqe> {
    if entries == [] then [] else
    var last := entries[|entries| - 1];
    Carrying(entries[..|entries| - 1]) + (if last.data != NULL then [last] else [])
  }

  lemma CarryingExtend(cq: seq<Cqe>, first: nat, head: nat)
    requires first <= head < |cq|
    ensures Carrying(cq[first..head + 1]) == Carrying(cq[first..head]) + (if cq[head].data != NULL then [cq[head]] else [])
  {
    var all := cq[first..head + 1];
    assert all[..|all| - 1] == cq[first..head];
  }

  lemma Grown(cq: seq<Cqe>, cq': seq<Cqe>, first: nat, head: nat)
    requires cq <= cq' && first <= head <= |cq|
    ensures cq'[first..head] == cq[first..head]
  {
  }

  // ------------------------------------------------------------------ states of the machine

  ghost predicate IsTrace(trace: seq<Io>, log: seq<Action>) {
    |trace| == |log| + 1 && forall i {:trigger log[i]} :: 0 <= i < |log| ==> trace[i + 1] == Step(trace[i], log[i])
  }

  /** The schedule `log` leads from the initial state to `s`. */
  ghost predicate Leads(log: seq<Action>, s: Io) {
    exists trace :: IsTrace(trace, log) && trace[0] == Init() && trace[|log|] == s
  }

  lemma LeadsNowhere()
    ensures Leads([], Init())
  {
    assert IsTrace([Init()], []);
  }

  lemma LeadsOn(log: seq<Action>, s: Io, act: Action)
    requires Leads(log, s)
    ensures Leads(log + [act], Step(s, act))
  {
    var trace :| IsTrace(trace, log) && trace[0] == Init() && trace[|log|] == s;
    assert IsTrace(trace + [Step(s, act)], log + [act]);
  }

  lemma {:induction false} TraceIsRun(trace: seq<Io>, log: seq<Action>)
    requires IsTrace(trace, log)
    ensures trace[|log|] == After(trace[0], log)
  {
    if log != [] {
      var n := |log| - 1;
      assert IsTrace(trace[..n + 1], log[..n]);
      TraceIsRun(trace[..n + 1], log[..n]);
    }
  }

  lemma LeadsToAfter(log: seq<Action>, s: Io)
    requires Leads(log, s)
    ensures s == After(Init(), log)
  {
    var trace :| IsTrace(trace, log) && trace[0] == Init() && trace[|log|] == s;
    TraceIsRun(trace, log);
  }

  lemma LeadsInv(log: seq<Action>, s: Io)
    requires Leads(log, s)
    ensures Inv(s)
  {
    LeadsToAfter(log, s);
    AlwaysInv(log);
  }

  /** Since time `from` of a run the loop was told to stop, or a wait failed. */
  ghost predicate Told(log: seq<Action>, from: nat) {
    exists i :: from <= i < |log| && (log[i].StopCall? || (log[i].Run? && log[i].fail && !log[i].intr))
  }

  /** A loop that finds the flag down has been told to stop since it was entered. */
  lemma ToldToStop(before: seq<Action>, log: seq<Action>, s: Io)
    requires before <= log && After(Init(), before).run.NotRunning?
    requires Leads(log, s) && !s.run.NotRunning? && !s.running
    ensures Told(log, |before|)
  {
    LeadsToAfter(log, s);
    var i := IoStop.OnlyStopClears(log);
    assert log[..|before|] == before;
    assert IoStop.InsideSince(log, i);
  }

  lemma ToldStill(log: seq<Action>, log': seq<Action>, from: nat)
    requires Told(log, from) && log <= log'
    ensures Told(log', from)
  {
    var i :| from <= i < |log| && (log[i].StopCall? || (log[i].Run? && log[i].fail && !log[i].intr));
    assert log'[i] == log[i];
  }

  // ------------------------------------------------------------------ what the machine says about handled entries

  lemma {:induction false} PostedFrom(cq: seq<Cqe>, from: nat, j: nat, x: Ptr)
    requires from <= j < |cq| && cq[j].data == x
    ensures Posted(cq, from, x) >= 1 + Posted(cq, j + 1, x)
    decreases j - from
  {
    if from < j { PostedFrom(cq, from + 1, j, x); }
  }

  lemma {:induction false} PostedShrinks(cq: seq<Cqe>, from: nat, head: nat, x: Ptr)
    requires from <= head <= |cq|
    ensures Posted(cq, from, x) >= Posted(cq, head, x)
    decreases head - from
  {
    if from < head { PostedShrinks(cq, from + 1, head, x); }
  }

  /** An entry behind the head has had its callback deleted, and its receiver completed on its channel. */
  lemma HandledEntryIsSettled(s: Io, j: nat)
    requires Inv(s) && !s.run.AtDelete? && j < Head(s) && s.cq[j].data != NULL
    ensures var x := s.cq[j].data;
      x !in s.heap && x in s.owner && s.owner[x] < |s.ops| && Delivered(s.ops[s.owner[x]].done, s.cq[j].res)
  {
    var x := s.cq[j].data;
    PostedFrom(s.cq, 0, j, x);
    PostedShrinks(s.cq, j + 1, Head(s), x);
  }

  /** A callback that was live and is no longer has its completion among the entries passed since. */
  lemma FreedByItsEntry(s: Io, s': Io, x: Ptr) returns (j: nat)
    requires Inv(s) && Inv(s') && s.cq <= s'.cq && Head(s) <= Head(s') && s.next <= s'.next
    requires x in s.heap && x !in s'.heap
    ensures Head(s) <= j < Head(s') && s'.cq[j].data == x
  {
    assert NULL < x < s.next && x in s.owner;
    j := HandledEntry(s'.cq, 0, Head(s'), x);
    if j < Head(s) {
      PostedFrom(s.cq, 0, j, x);
      PostedShrinks(s.cq, j + 1, Head(s), x);
    }
  }

  class IoContext {
    const size: nat                  // entries of the completion ring
    var ops: seq<Op>
    var heap: set<Ptr>
    var next: Ptr
    var owner: map<Ptr, nat>
    var inflight: multiset<Sqe>
    var cq: seq<Cqe>
    var consumed: nat
    var run: RunPc
    var running: bool
    var stoppers: nat
    ghost var log: seq<Action>
    ghost var calls: seq<Cqe>        // the callbacks called so far, with their results

    function State(): Io
      reads this
    {
      Io(ops, heap, next, owner, inflight, cq, consumed, run, running, stoppers)
    }

    /** The kernel posts no more completions than the ring has room for. */
    ghost predicate Valid()
      reads this
    {
      Leads(log, State()) && |cq| <= consumed + size
    }

    constructor (ringSize: nat)
      ensures Valid() && size == ringSize && State() == Init() && calls == []
    {
      size := ringSize;
      ops, heap, next, owner := [], {}, 1, map[];
      inflight, cq, consumed := multiset{}, [], 0;
      run, running, stoppers := NotRunning, false, 0;
      log, calls := [], [];
      new;
      LeadsNowhere();
    }

    lemma Sound()
      requires Valid()
      ensures Inv(State())
    {
      LeadsInv(log, State());
    }

    /** Where the loop's locals point. */
    lemma Locals()
      requires Valid()
      ensures consumed + Count(State()) == Head(State()) <= |cq|
      ensures run.AtInvoke? || run.AtDelete? ==> Head(State()) < |cq| && cq[Head(State())].data != NULL
      ensures run.AtInvoke? ==> cq[Head(State())].data in heap
    {
      Sound();
      if run.AtInvoke? { InvokedRing(State(), false, false); }
    }

    /** Records a step: the fields have just moved from state `s` as the machine does on `act`. */
    ghost method Record(s: Io, act: Action)
      requires Leads(log, s) && State() == Step(s, act) && |cq| <= consumed + size
      modifies `log
      ensures Valid() && log == old(log) + [act]
    {
      LeadsOn(log, s, act);
      log := log + [act];
    }

    /** Takes over what the others may have changed. */
    method Become(t: Io)
      requires t.run == run && t.consumed == consumed
      modifies `ops, `heap, `next, `owner, `inflight, `cq, `running, `stoppers
      ensures State() == t
    {
      ops, heap, next, owner := t.ops, t.heap, t.next, t.owner;
      inflight, cq, running, stoppers := t.inflight, t.cq, t.running, t.stoppers;
    }

    /** One step of another thread or of the kernel. */
    method Somebody(act: Action)
      requires Valid() && !act.Run? && !act.RunCall? && (act.Complete? ==> |cq| < consumed + size)
      modifies this
      ensures Valid() && old(log) <= log && old(cq) <= cq && old(next) <= next
      ensures run == old(run) && consumed == old(consumed) && calls == old(calls)
    {
      OthersLeaveTheLoop(State(), act);
      ghost var s := State();
      Become(Step(State(), act));
      Record(s, act);
    }

    /** Any number of such steps. */
    method Others()
      requires Valid()
      modifies this
      ensures Valid() && old(log) <= log && old(cq) <= cq && old(next) <= next
      ensures run == old(run) && consumed == old(consumed) && calls == old(calls)
    {
      var k: nat := *;
      while k > 0
        invariant Valid() && old(log) <= log && old(cq) <= cq && old(next) <= next
        invariant run == old(run) && consumed == old(consumed) && calls == old(calls)
      {
        var act: Action := *;
        if !act.Run? && !act.RunCall? && (act.Complete? ==> |cq| < consumed + size) {
          Somebody(act);
        }
        k := k - 1;
      }
    }

    /** Calls the callback of a completion, which is live. */
    method CallBack(head: nat, count: nat)
      requires Valid() && run == AtInvoke(head, count)
      modifies this
      ensures Valid() && old(log) <= log && old(cq) <= cq && old(next) <= next
      ensures run == AtDelete(head, count) && consumed == old(consumed)
      ensures head < |cq| && calls == old(calls) + [cq[head]] && cq[head].data in heap
    {
      Others();
      Locals();
      ghost var s := State();
      ops := Invoke(State(), cq[head].data, cq[head].res).ops;
      run, calls := AtDelete(head, count), calls + [cq[head]];
      Record(s, Run(false, false));
    }

    method Delete(head: nat, count: nat)
      requires Valid() && run == AtDelete(head, count)
      modifies this
      ensures Valid() && old(log) <= log && old(cq) <= cq && old(next) <= next
      ensures run == Batch(head + 1, count + 1) && consumed == old(consumed) && calls == old(calls)
      ensures head < |cq| && cq[head].data !in heap
    {
      Others();
      Locals();
      ghost var s := State();
      DeleteStep(s);
      heap := heap - {cq[head].data};
      run := Batch(head + 1, count + 1);
      Record(s, Run(false, false));
    }

    /** Looks at the next place of the ring. */
    method Look(head: nat, count: nat) returns (found: bool)
      requires Valid() && run == Batch(head, count)
      modifies this
      ensures Valid() && old(log) <= log && old(cq) <= cq && old(next) <= next
      ensures consumed == old(consumed) && calls == old(calls) && found == (head < |cq|)
      ensures run == Looked(head, count, cq)
    {
      Others();
      ghost var s := State();
      LookStep(s);
      found := head < |cq|;
      run := Looked(head, count, cq);
      Record(s, Run(false, false));
    }

    /** Looks at the next place and handles the completion there, if there is one. */
    method HandleNext(head: nat, count: nat) returns (found: bool)
      requires Valid() && run == Batch(head, count)
      modifies this
      ensures Valid() && old(log) <= log && old(cq) <= cq && old(next) <= next
      ensures consumed == old(consumed) && (if found then head < |cq| else head == |cq|)
      ensures run == if found then Batch(head + 1, count + 1) else AtAdvance(head, count)
      ensures calls == old(calls) + if found && cq[head].data != NULL then [cq[head]] else []
    {
      Locals();
      found := Look(head, count);
      if found && cq[head].data != NULL {
        CallBack(head, count);
        Delete(head, count);
      }
    }

    /** The same, with what the batch has called since entry `first`. */
    method HandleOne(head: nat, count: nat, ghost first: nat, ghost calls0: seq<Cqe>) returns (found: bool)
      requires Valid() && run == Batch(head, count) && first <= head <= |cq|
      requires calls == calls0 + Carrying(cq[first..head])
      modifies this
      ensures Valid() && old(log) <= log && old(cq) <= cq && old(next) <= next
      ensures consumed == old(consumed) && (if found then head < |cq| else head == |cq|)
      ensures run == if found then Batch(head + 1, count + 1) else AtAdvance(head, count)
      ensures calls == calls0 + Carrying(cq[first..if found then head + 1 else head])
    {
      found := HandleNext(head, count);
      Grown(old(cq), cq, first, head);
      if found { CarryingExtend(cq, first, head); }
    }

    /** Reports `count` entries as consumed. */
    method Advance(head: nat, count: nat)
      requires Valid() && run == AtAdvance(head, count)
      modifies this
      ensures Valid() && old(log) <= log && old(cq) <= cq && old(next) <= next
      ensures run == AtRunning && consumed == old(consumed) + count && calls == old(calls)
    {
      Others();
      ghost var s := State();
      consumed := consumed + count;
      run := AtRunning;
      Record(s, Run(false, false));
    }

    /** The same, with what the batch has called since entry `first`. */
    method Report(head: nat, count: nat, ghost first: nat, ghost calls0: seq<Cqe>)
      requires Valid() && run == AtAdvance(head, count) && first <= head == consumed + count <= |cq|
      requires calls == calls0 + Carrying(cq[first..head])
      modifies this
      ensures Valid() && old(log) <= log && old(cq) <= cq && old(next) <= next
      ensures run == AtRunning && consumed == head <= |cq| && calls == calls0 + Carrying(cq[first..consumed])
    {
      Advance(head, count);
      Grown(old(cq), cq, first, head);
    }

    /** The inner loop and the batched advance. */
    method DrainRing()
      requires Valid() && run == Batch(consumed, 0)
      modifies this
      ensures Valid() && run == AtRunning && old(log) <= log && old(cq) <= cq && old(next) <= next
      ensures |old(cq)| <= consumed && old(consumed) <= consumed <= |cq|
      ensures calls == old(calls) + Carrying(cq[old(consumed)..consumed])
    {
      var head, count := consumed, 0;
      ghost var first := consumed;
      Locals();
      var more := true;
      while more
        invariant Valid() && old(log) <= log && old(cq) <= cq && old(next) <= next
        invariant consumed == first && head == first + count <= |cq|
        invariant run == (if more then Batch(head, count) else AtAdvance(head, count)) && (!more ==> head == |cq|)
        invariant calls == old(calls) + Carrying(cq[first..head])
        decreases more, first + size - head
      {
        more := HandleOne(head, count, first, old(calls));
        if more {
          count := count + 1;
          head := head + 1;
        }
      }
      Report(head, count, first, old(calls));
    }

    /**
     One batch: calls exactly the callbacks among the entries that it consumes, in order, and
     consumes everything it has seen.  Each of them is deleted and its receiver completed on the
     channel of its result; no other callback is deleted.
     */
    method HandleBatch()
      requires Valid() && run == Batch(consumed, 0)
      modifies this
      ensures Valid() && run == AtRunning && old(log) <= log && old(cq) <= cq
      ensures |old(cq)| <= consumed && old(consumed) <= consumed <= |cq|
      ensures calls == old(calls) + Carrying(cq[old(consumed)..consumed])
      ensures forall j :: 0 <= j < consumed && cq[j].data != NULL ==>
        && cq[j].data !in heap && cq[j].data in owner && owner[cq[j].data] < |ops|
        && Delivered(ops[owner[cq[j].data]].done, cq[j].res)
      ensures forall x :: x in old(heap) && x !in heap ==>
        exists j :: old(consumed) <= j < consumed && cq[j].data == x
    {
      ghost var s := State();
      Sound();
      DrainRing();
      Sound();
      Settle(s);
    }

    /** What a batch that began in state `s` has settled. */
    lemma Settle(s: Io)
      requires Inv(s) && Inv(State()) && s.cq <= cq && s.next <= next
      requires run == AtRunning && Head(s) == s.consumed <= consumed <= |cq|
      ensures forall j :: 0 <= j < consumed && cq[j].data != NULL ==>
        && cq[j].data !in heap && cq[j].data in owner && owner[cq[j].data] < |ops|
        && Delivered(ops[owner[cq[j].data]].done, cq[j].res)
      ensures forall x :: x in s.heap && x !in heap ==>
        exists j :: s.consumed <= j < consumed && cq[j].data == x
    {
      forall j | 0 <= j < consumed && cq[j].data != NULL
        ensures cq[j].data !in heap && cq[j].data in owner && owner[cq[j].data] < |ops|
        ensures Delivered(ops[owner[cq[j].data]].done, cq[j].res)
      {
        HandledEntryIsSettled(State(), j);
      }
      forall x | x in s.heap && x !in heap
        ensures exists j :: s.consumed <= j < consumed && cq[j].data == x
      {
        var j := FreedByItsEntry(s, State(), x);
      }
    }

    /** What the loop has called since entry `first`, when it had called `calls0`. */
    ghost predicate Called(first: nat, calls0: seq<Cqe>)
      reads this
    {
      first <= consumed <= |cq| && calls == calls0 + Carrying(cq[first..consumed])
    }

    /** Any steps of the others, which call nothing. */
    method Pause(ghost first: nat, ghost calls0: seq<Cqe>)
      requires Valid() && Called(first, calls0)
      modifies this
      ensures Valid() && Called(first, calls0) && old(log) <= log && old(cq) <= cq
      ensures run == old(run) && consumed == old(consumed)
    {
      Others();
      Grown(old(cq), cq, first, consumed);
    }

    /** Loads `running`; the loop goes on unless it has been told to stop since the run `before`. */
    method LoadRunning(ghost first: nat, ghost calls0: seq<Cqe>, ghost before: seq<Action>) returns (go: bool)
      requires Valid() && run.AtRunning? && Called(first, calls0)
      requires before <= log && After(Init(), before).run.NotRunning?
      modifies this
      ensures Valid() && Called(first, calls0) && old(log) <= log && old(cq) <= cq
      ensures run == (if go then Waiting else NotRunning) && (!go ==> Told(log, |before|))
    {
      Pause(first, calls0);
      ghost var s, now := State(), log;
      go := running;
      run := if go then Waiting else NotRunning;
      Record(s, Run(false, false));
      if !go {
        ToldToStop(before, now, s);
        ToldStill(now, log, |before|);
      }
    }

    /** Waits for a completion; the wait may be interrupted or fail, or find nothing for now. */
    method Wait(ghost first: nat, ghost calls0: seq<Cqe>) returns (intr: bool, fail: bool)
      requires Valid() && run.Waiting? && Called(first, calls0)
      modifies this
      ensures Valid() && Called(first, calls0) && old(log) < log && old(cq) <= cq
      ensures log[|log| - 1] == Run(intr, fail)
      ensures run == if intr then AtRunning
        else if fail then NotRunning
        else if consumed < |cq| then Batch(consumed, 0) else Waiting
    {
      Pause(first, calls0);
      intr, fail := *, *;
      ghost var s := State();
      run := if intr then AtRunning
        else if fail then NotRunning
        else if consumed < |cq| then Batch(consumed, 0) else Waiting;
      Record(s, Run(intr, fail));
    }

    /** One batch, seen from the start of the loop. */
    method OneBatch(ghost first: nat, ghost calls0: seq<Cqe>)
      requires Valid() && run == Batch(consumed, 0) && Called(first, calls0)
      modifies this
      ensures Valid() && Called(first, calls0) && old(log) <= log && old(cq) <= cq && run == AtRunning
    {
      ghost var middle := consumed;
      HandleBatch();
      BatchCalls(old(cq), cq, first, middle, consumed, calls0);
    }

    /**
     One round of the outer loop.  It leaves only when told to or when a wait fails, and is found
     waiting only when every completion posted has been consumed.
     */
    method Round(ghost first: nat, ghost calls0: seq<Cqe>, ghost before: seq<Action>)
      requires Valid() && run.AtRunning? && Called(first, calls0)
      requires before <= log && After(Init(), before).run.NotRunning?
      modifies this
      ensures Valid() && Called(first, calls0) && old(log) <= log && old(cq) <= cq
      ensures run.AtRunning? || (run.NotRunning? && Told(log, |before|)) || (run.Waiting? && consumed == |cq|)
    {
      var go := LoadRunning(first, calls0, before);
      if go {
        var intr, fail := Wait(first, calls0);
        if run.NotRunning? {
          assert log[|log| - 1].fail && |before| <= |log| - 1;
        } else if run.Batch? {
          OneBatch(first, calls0);
        }
      }
    }

    /**
     `run`, observed for at most `rounds` rounds.  It has called exactly the callbacks among the
     entries consumed meanwhile, in order, each once; it has left only if `stop` was called or a
     wait failed since it was entered; and short of the given rounds it is otherwise found waiting
     with nothing left to handle.
     */
    method RunLoop(rounds: nat) returns (turns: nat)
      requires Valid() && run.NotRunning?
      modifies this
      ensures Valid() && old(log) <= log && old(cq) <= cq && old(consumed) <= consumed <= |cq|
      ensures calls == old(calls) + Carrying(cq[old(consumed)..consumed])
      ensures turns <= rounds
      ensures || (run.AtRunning? && turns == rounds)
              || (run.NotRunning? && Told(log, |old(log)|))
              || (run.Waiting? && consumed == |cq|)
    {
      Locals();
      LeadsToAfter(log, State());
      ghost var first, s := consumed, State();
      run, running := AtRunning, true;
      Record(s, RunCall);
      turns := 0;
      while turns < rounds && run.AtRunning?
        invariant turns <= rounds
        invariant Valid() && Called(first, old(calls)) && old(log) <= log && old(cq) <= cq
        invariant run.AtRunning? || (run.NotRunning? && Told(log, |old(log)|)) || (run.Waiting? && consumed == |cq|)
      {
        Round(first, old(calls), old(log));
        turns := turns + 1;
      }
    }
  }

  lemma {:induction false} CarryingConcat(a: seq<Cqe>, b: seq<Cqe>)
    ensures Carrying(a + b) == Carrying(a) + Carrying(b)
  {
    if b == [] {
      assert a + b == a;
    } else {
      CarryingConcat(a, b[..|b| - 1]);
      assert (a + b)[..|a + b| - 1] == a + b[..|b| - 1];
    }
  }

  lemma CarryingSplit(cq: seq<Cqe>, first: nat, middle: nat, head: nat)
    requires first <= middle <= head <= |cq|
    ensures Carrying(cq[first..head]) == Carrying(cq[first..middle]) + Carrying(cq[middle..head])
  {
    CarryingConcat(cq[first..middle], cq[middle..head]);
    assert cq[first..head] == cq[first..middle] + cq[middle..head];
  }

  lemma BatchCalls(cq: seq<Cqe>, cq': seq<Cqe>, first: nat, middle: nat, head: nat, calls: seq<Cqe>)
    requires cq <= cq' && first <= middle <= |cq| && middle <= head <= |cq'|
    ensures (calls + Carrying(cq[first..middle])) + Carrying(cq'[middle..head]) == calls + Carrying(cq'[first..head])
  {
    Grown(cq, cq', first, middle);
    CarryingSplit(cq', first, middle, head);
  }

  /** Where the loop goes after looking at entry `head`. */
  function Looked(head: nat, count: nat, cq: seq<Cqe>): RunPc {
    if head >= |cq| then AtAdvance(head, count)
    else if cq[head].data == NULL then Batch(head + 1, count + 1)
    else AtInvoke(head, count)
  }

  lemma LookStep(s: Io)
    requires s.run.Batch?
    ensures Step(s, Run(false, false)) == s.(run := Looked(s.run.head, s.run.count, s.cq))
  {
  }

  lemma DeleteStep(s: Io)
    requires s.run.AtDelete? && s.run.head < |s.cq|
    ensures Step(s, Run(false, false))
      == s.(heap := s.heap - {s.cq[s.run.head].data}, run := Batch(s.run.head + 1, s.run.count + 1))
  {
  }

  /** The other threads and the kernel leave the loop's own place alone. */
  lemma OthersLeaveTheLoop(s: Io, act: Action)
    requires !act.Run? && !act.RunCall?
    ensures var s' := Step(s, act);
      s'.run == s.run && s'.consumed == s.consumed && s.cq <= s'.cq && s.next <= s'.next
    ensures !act.Complete? ==> Step(s, act).cq == s.cq
    ensures |Step(s, act).cq| <= |s.cq| + 1
  {
  }
}
