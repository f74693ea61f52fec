/**
 The steal sweep of a worker in the running pool: while it goes from deque to deque, one atomic
 access at a time, the owners push and pop and the other thieves steal.
 */
module PoolSweep {
  import opened Basics
  import D = Deque
  import opened Pool
  import opened PoolWakeups
  import StealSweep

  predicate InSweep(pc: WorkerPc) {
    pc.Search? && (pc.at.Sweeping? || pc.at.InSteal?)
  }

  /** The worker is in the sweep of search round `k` that began at worker `st`. */
  predicate SameSweep(pc: WorkerPc, k: nat, st: nat) {
    InSweep(pc) && pc.at.round == k && pc.at.start == st
  }

  /** What a worker that is stealing gets from its next step. */
  function Answer(p: Pool, w: nat): D.Event {
    if w < |p.workers| && |p.deques| > 0 then EventOf(p.deques, Wants(|p.deques|, w, p.workers[w])) else D.Quiet
  }

  /** One step of a worker that is in a sweep afterwards. */
  ghost predicate SweepMove(p: Pool, w: nat, start: nat, pc': WorkerPc) {
    var n := |p.deques|;
    && 0 < n && w < |p.workers| && InSweep(pc')
    && var pc := p.workers[w];
    || (pc == Search(AtSweep(pc'.at.round)) && pc'.at.Sweeping? && pc'.at.start == start % n && pc'.at.i == 0)
    || (SameSweep(pc, pc'.at.round, pc'.at.start)
        && (|| (pc.at.Sweeping? && pc.at.i < n && Target(n, pc.at.start, pc.at.i) != w
                && pc'.at.InSteal? && pc'.at.i == pc.at.i)
            || (pc.at.Sweeping? && pc.at.i < n && Target(n, pc.at.start, pc.at.i) == w
                && pc'.at.Sweeping? && pc'.at.i == pc.at.i + 1)
            || (pc.at.InSteal? && pc' == pc && !Answer(p, w).StealDone?)
            || (pc.at.InSteal? && Answer(p, w) == D.StealDone(w, NULL)
                && pc'.at.Sweeping? && pc'.at.i == pc.at.i + 1)))
  }

  lemma AnswersItsThief(s: D.Deque, th: nat)
    ensures D.ThiefStep(s, th).event.StealDone? ==> D.ThiefStep(s, th).event.th == th
    ensures D.ThiefStep(s, th).event.Quiet? || D.ThiefStep(s, th).event.StealDone?
  {
  }

  lemma OnlySearchersSweep(p: Pool, w: nat, start: nat)
    requires w < |p.workers| == |p.deques| && InSweep(WorkStep(p, w, start).workers[w])
    ensures p.workers[w].Search? && (InSweep(p.workers[w]) || p.workers[w].at.AtSweep?)
  {
  }

  lemma SweepStep(p: Pool, w: nat, start: nat)
    requires w < |p.workers| == |p.deques| && InSweep(WorkStep(p, w, start).workers[w])
    ensures SweepMove(p, w, start, WorkStep(p, w, start).workers[w])
  {
    OnlySearchersSweep(p, w, start);
    SweepFrom(p, w, start);
  }

  lemma SweepFrom(p: Pool, w: nat, start: nat)
    requires w < |p.workers| == |p.deques| && InSweep(WorkStep(p, w, start).workers[w])
    requires p.workers[w].Search? && (InSweep(p.workers[w]) || p.workers[w].at.AtSweep?)
    ensures SweepMove(p, w, start, WorkStep(p, w, start).workers[w])
  {
    var pc := p.workers[w];
    if pc.at.InSteal? {
      AnswersItsThief(p.deques[Target(|p.deques|, pc.at.start, pc.at.i)], w);
    }
  }

  /** At time `t` of a run worker `w` gets the answer to a steal. */
  ghost predicate Answered(p0: Pool, acts: seq<Action>, t: nat, w: nat)
    requires |p0.workers| == |p0.deques|
  {
    && t < |acts| && acts[t].Work? && acts[t].w == w && w < |p0.workers|
    && InSweep(After(p0, acts[..t]).workers[w]) && After(p0, acts[..t]).workers[w].at.InSteal?
    && Answer(After(p0, acts[..t]), w).StealDone?
  }

  /** At time `t` it gets null from the `j`-th deque of the sweep. */
  ghost predicate Tried(p0: Pool, acts: seq<Action>, t: nat, w: nat, k: nat, st: nat, j: nat)
    requires |p0.workers| == |p0.deques|
  {
    && Answered(p0, acts, t, w) && After(p0, acts[..t]).workers[w] == Search(InSteal(k, st, j))
    && Answer(After(p0, acts[..t]), w) == D.StealDone(w, NULL)
  }

  /** The sweep began at time `from`, where it was told to start, and has gone on ever since. */
  ghost predicate Began(p0: Pool, acts: seq<Action>, w: nat, from: nat, k: nat, st: nat)
    requires |p0.workers| == |p0.deques| && w < |p0.workers|
  {
    && from < |acts| && acts[from].Work? && acts[from].w == w && st == acts[from].start % |p0.deques|
    && After(p0, acts[..from]).workers[w] == Search(AtSweep(k))
    && (forall t :: from < t <= |acts| ==> SameSweep(After(p0, acts[..t]).workers[w], k, st))
  }

  /** The deques at the first `i` positions, save the worker's own, answered null at the given times. */
  ghost predicate Cleared(p0: Pool, acts: seq<Action>, w: nat, from: nat, k: nat, st: nat, i: nat, times: seq<nat>)
    requires |p0.workers| == |p0.deques| && |times| == i && 0 < |p0.deques|
  {
    forall j :: 0 <= j < i && Target(|p0.deques|, st, j) != w ==> from < times[j] && Tried(p0, acts, times[j], w, k, st, j)
  }

  /** The sweep got no other answers. */
  ghost predicate NoOthers(p0: Pool, acts: seq<Action>, w: nat, from: nat, st: nat, i: nat, times: seq<nat>)
    requires |p0.workers| == |p0.deques| && |times| == i && 0 < |p0.deques|
  {
    forall t :: from < t && Answered(p0, acts, t, w) ==>
      var j := After(p0, acts[..t]).workers[w].at.i; j < i && times[j] == t && Target(|p0.deques|, st, j) != w
  }

  /** The story of a sweep under way. */
  ghost predicate Story(p0: Pool, acts: seq<Action>, w: nat, from: nat, times: seq<nat>)
    requires |p0.workers| == |p0.deques|
  {
    && w < |p0.workers| && InSweep(After(p0, acts).workers[w])
    && var n, at := |p0.deques|, After(p0, acts).workers[w].at;
    && |times| == at.i <= n && at.start < n && (at.InSteal? ==> at.i < n && Target(n, at.start, at.i) != w)
    && Began(p0, acts, w, from, at.round, at.start)
    && Cleared(p0, acts, w, from, at.round, at.start, at.i, times)
    && NoOthers(p0, acts, w, from, at.start, at.i, times)
  }

  lemma SamePrefix(acts: seq<Action>)
    requires acts != []
    ensures forall t :: 0 <= t <= |acts| - 1 ==> acts[..|acts| - 1][..t] == acts[..t]
    ensures acts[..|acts|] == acts
  {
  }

  /** A worker in a sweep was in the same place before a step that is not its own. */
  lemma OthersLeaveSweeps(p: Pool, act: Action, w: nat)
    requires w < |p.workers| == |p.deques| && !(act.Work? && act.w == w) && InSweep(Step(p, act).workers[w])
    ensures Step(p, act).workers[w] == p.workers[w]
  {
    OthersMove(p, act, w);
  }

  lemma BeganStays(p0: Pool, acts: seq<Action>, w: nat, from: nat, k: nat, st: nat)
    requires |p0.workers| == |p0.deques| && w < |p0.workers| && acts != []
    requires Began(p0, acts[..|acts| - 1], w, from, k, st) && SameSweep(After(p0, acts).workers[w], k, st)
    ensures Began(p0, acts, w, from, k, st)
  {
    var before := acts[..|acts| - 1];
    forall t | from < t <= |acts|
      ensures SameSweep(After(p0, acts[..t]).workers[w], k, st)
    {
      assert acts[..t] == if t < |acts| then before[..t] else acts;
    }
    assert acts[..from] == before[..from];
  }

  lemma NothingNew(p0: Pool, acts: seq<Action>, w: nat, from: nat, k: nat, st: nat, i: nat, times: seq<nat>)
    requires |p0.workers| == |p0.deques| && w < |p0.workers| && acts != [] && |times| == i
    requires var before := acts[..|acts| - 1];
      Cleared(p0, before, w, from, k, st, i, times) && NoOthers(p0, before, w, from, st, i, times)
    requires !Answered(p0, acts, |acts| - 1, w)
    ensures Cleared(p0, acts, w, from, k, st, i, times) && NoOthers(p0, acts, w, from, st, i, times)
  {
    SamePrefix(acts);
    Carries(p0, acts, w);
  }

  /** One position more: the worker's own, or one that has just answered null. */
  lemma ClearedOn(p0: Pool, acts: seq<Action>, w: nat, from: nat, k: nat, st: nat, i: nat, times: seq<nat>)
    requires |p0.workers| == |p0.deques| && w < |p0.workers| && acts != [] && |times| == i && from < |acts| - 1
    requires Cleared(p0, acts[..|acts| - 1], w, from, k, st, i, times)
    requires Target(|p0.deques|, st, i) == w || Tried(p0, acts, |acts| - 1, w, k, st, i)
    ensures Cleared(p0, acts, w, from, k, st, i + 1, times + [|acts| - 1])
  {
    Carries(p0, acts, w);
  }

  lemma NoOthersOn(p0: Pool, acts: seq<Action>, w: nat, from: nat, k: nat, st: nat, i: nat, times: seq<nat>)
    requires |p0.workers| == |p0.deques| && w < |p0.workers| && acts != [] && |times| == i && from < |acts| - 1
    requires NoOthers(p0, acts[..|acts| - 1], w, from, st, i, times)
    requires if Target(|p0.deques|, st, i) == w then !Answered(p0, acts, |acts| - 1, w)
      else Tried(p0, acts, |acts| - 1, w, k, st, i)
    ensures NoOthers(p0, acts, w, from, st, i + 1, times + [|acts| - 1])
  {
    SamePrefix(acts);
    Carries(p0, acts, w);
  }

  /** The story goes on with one step more. */
  lemma StoryGoesOn(p0: Pool, acts: seq<Action>, w: nat, from: nat, times: seq<nat>) returns (times': seq<nat>)
    requires |p0.workers| == |p0.deques| && acts != [] && Story(p0, acts[..|acts| - 1], w, from, times)
    requires var p, act, pc' := After(p0, acts[..|acts| - 1]), acts[|acts| - 1], After(p0, acts).workers[w];
      && InSweep(pc') && InSweep(p.workers[w])
      && (if act.Work? && act.w == w then SweepMove(p, w, act.start, pc') else pc' == p.workers[w])
    ensures Story(p0, acts, w, from, times')
  {
    var at, at' := After(p0, acts[..|acts| - 1]).workers[w].at, After(p0, acts).workers[w].at;
    BeganStays(p0, acts, w, from, at.round, at.start);
    if at'.i == at.i {
      NothingNew(p0, acts, w, from, at.round, at.start, at.i, times);
      times' := times;
    } else {
      ClearedOn(p0, acts, w, from, at.round, at.start, at.i, times);
      NoOthersOn(p0, acts, w, from, at.round, at.start, at.i, times);
      times' := times + [|acts| - 1];
    }
  }

  lemma StoryBegins(p0: Pool, acts: seq<Action>, w: nat)
    requires |p0.workers| == |p0.deques| && w < |p0.workers| && acts != []
    requires var p, act := After(p0, acts[..|acts| - 1]), acts[|acts| - 1];
      && act.Work? && act.w == w && p.workers[w].Search? && p.workers[w].at.AtSweep?
      && SweepMove(p, w, act.start, After(p0, acts).workers[w])
    ensures Story(p0, acts, w, |acts| - 1, [])
  {
    SamePrefix(acts);
  }

  lemma Carries(p0: Pool, acts: seq<Action>, w: nat)
    requires |p0.workers| == |p0.deques| && acts != []
    ensures forall t :: 0 <= t < |acts| - 1 ==>
      (Answered(p0, acts, t, w) <==> Answered(p0, acts[..|acts| - 1], t, w))
    ensures forall t, k, st, j :: Tried(p0, acts[..|acts| - 1], t, w, k, st, j) ==> Tried(p0, acts, t, w, k, st, j)
  {
    SamePrefix(acts);
  }

  lemma {:induction false} EverySweepHasAStory(p0: Pool, acts: seq<Action>, w: nat) returns (from: nat, times: seq<nat>)
    requires |p0.workers| == |p0.deques| && w < |p0.workers| && p0.workers[w] == Search(AtPop)
    requires InSweep(After(p0, acts).workers[w])
    ensures Story(p0, acts, w, from, times)
  {
    var before, act := acts[..|acts| - 1], acts[|acts| - 1];
    var p := After(p0, before);
    if act.Work? && act.w == w {
      SweepStep(p, w, act.start);
    } else {
      OthersLeaveSweeps(p, act, w);
    }
    if InSweep(p.workers[w]) {
      from, times := EverySweepHasAStory(p0, before, w);
      times := StoryGoesOn(p0, acts, w, from, times);
    } else {
      StoryBegins(p0, acts, w);
      from, times := |before|, [];
    }
  }

  /**
   A sweep that ends without a task, in any run of the pool: since it began, the worker has
   attempted every other worker's deque exactly once, at a moment when that steal returned null,
   and never its own.
   */
  lemma SweepFindsNothing(n: nat, m: nat, capacity: nat, acts: seq<Action>, w: nat, d: nat) returns (from: nat, t: nat)
    requires w < |Init(n, m, capacity).workers| && d < |Init(n, m, capacity).deques|
    requires var p := After(Init(n, m, capacity), acts);
      InSweep(p.workers[w]) && p.workers[w].at.Sweeping? && p.workers[w].at.i >= |p.deques|
    ensures var p0 := Init(n, m, capacity); var at := After(p0, acts).workers[w].at;
      && from < |acts| && After(p0, acts[..from]).workers[w] == Search(AtSweep(at.round))
      && (d != w ==>
            && from < t && Answered(p0, acts, t, w) && Answer(After(p0, acts[..t]), w) == D.StealDone(w, NULL)
            && Victim(After(p0, acts[..t]), w) == d)
      && (forall u :: from < u && Answered(p0, acts, u, w) && Victim(After(p0, acts[..u]), w) == d ==> d != w && u == t)
  {
    var p0 := Init(n, m, capacity);
    var times;
    from, times := EverySweepHasAStory(p0, acts, w);
    var at := After(p0, acts).workers[w].at;
    var j := StealSweep.TargetOnce(|p0.deques|, at.start, d);
    t := times[j];
  }

  /** The deque that a stealing worker is at. */
  function Victim(p: Pool, w: nat): nat {
    if w < |p.workers| && InSweep(p.workers[w]) && |p.deques| > 0
    then Target(|p.deques|, p.workers[w].at.start, p.workers[w].at.i) else 0
  }
}
