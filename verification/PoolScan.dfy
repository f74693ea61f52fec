/**
 The scan of a worker that wants to sleep, as a run shows it: it turns back only because of work
 that it really saw.
 */
module PoolScan {
  import opened Basics
  import D = Deque
  import opened Pool
  import opened PoolWakeups

  predicate Scanning(pc: WorkerPc) {
    pc.Sleep? && (pc.zz.ScanQueue? || pc.zz.ScanBottom? || pc.zz.ScanTop?)
  }

  /** At time `t` worker `w` loaded `b` from bottom of deque `j`, and it has not moved on since. */
  ghost predicate Loaded(p0: Pool, acts: seq<Action>, w: nat, g: bool, j: nat, b: int, t: nat)
    requires |p0.workers| == |p0.deques| && w < |p0.workers|
  {
    && t < |acts| && acts[t].Work? && acts[t].w == w && j < |p0.deques|
    && After(p0, acts[..t]).workers[w] == Sleep(ScanBottom(g, j))
    && After(p0, acts[..t]).deques[j].bottom == b
    && (forall u :: t < u <= |acts| ==> After(p0, acts[..u]).workers[w] == Sleep(ScanTop(g, j, b)))
  }

  lemma LoadStep(p: Pool, w: nat, start: nat, g: bool, j: nat, b: int)
    requires w < |p.workers| == |p.deques| && WorkStep(p, w, start).workers[w] == Sleep(ScanTop(g, j, b))
    ensures
      || (j < |p.deques| && p.workers[w] == Sleep(ScanBottom(g, j)) && p.deques[j].bottom == b)
      || (p.workers[w] == Sleep(ScanTop(g, j, b)) && j >= |p.deques|)
  {
  }

  lemma LoadedNow(p0: Pool, acts: seq<Action>, w: nat, g: bool, j: nat, b: int)
    requires |p0.workers| == |p0.deques| && w < |p0.workers| && acts != []
    requires var p, act := After(p0, acts[..|acts| - 1]), acts[|acts| - 1];
      && act.Work? && act.w == w && j < |p0.deques|
      && p.workers[w] == Sleep(ScanBottom(g, j)) && p.deques[j].bottom == b
    requires After(p0, acts).workers[w] == Sleep(ScanTop(g, j, b))
    ensures Loaded(p0, acts, w, g, j, b, |acts| - 1)
  {
    assert acts[..|acts|] == acts;
  }

  lemma LoadedStill(p0: Pool, acts: seq<Action>, w: nat, g: bool, j: nat, b: int, t: nat)
    requires |p0.workers| == |p0.deques| && w < |p0.workers| && acts != []
    requires Loaded(p0, acts[..|acts| - 1], w, g, j, b, t)
    requires After(p0, acts).workers[w] == Sleep(ScanTop(g, j, b))
    ensures Loaded(p0, acts, w, g, j, b, t)
  {
    var before := acts[..|acts| - 1];
    forall u | t < u <= |acts|
      ensures After(p0, acts[..u]).workers[w] == Sleep(ScanTop(g, j, b))
    {
      assert acts[..u] == if u < |acts| then before[..u] else acts;
    }
    assert acts[..t] == before[..t];
  }

  /** A worker about to load top of deque `j` has loaded its bottom before. */
  lemma {:induction false} BottomWasLoaded(p0: Pool, acts: seq<Action>, w: nat, g: bool, j: nat, b: int) returns (t: nat)
    requires |p0.workers| == |p0.deques| && w < |p0.workers| && p0.workers[w] == Search(AtPop)
    requires After(p0, acts).workers[w] == Sleep(ScanTop(g, j, b))
    ensures Loaded(p0, acts, w, g, j, b, t)
  {
    var before, act := acts[..|acts| - 1], acts[|acts| - 1];
    var p := After(p0, before);
    if act.Work? && act.w == w {
      LoadStep(p, w, act.start, g, j, b);
    } else {
      OthersMove(p, act, w);
    }
    if p.workers[w] == Sleep(ScanBottom(g, j)) {
      t := |before|;
      LoadedNow(p0, acts, w, g, j, b);
    } else {
      t := BottomWasLoaded(p0, before, w, g, j, b);
      LoadedStill(p0, acts, w, g, j, b, t);
    }
  }

  lemma BackStep(p: Pool, w: nat, start: nat)
    requires w < |p.workers| == |p.deques| && Scanning(p.workers[w])
    requires var pc' := WorkStep(p, w, start).workers[w]; pc' == Sleep(SubSleeper) || pc' == Sleep(Unlock(false))
    ensures
      || (p.workers[w].zz.ScanQueue? && p.queue != [])
      || (p.workers[w].zz.ScanTop? && p.workers[w].zz.j < |p.deques| && p.deques[p.workers[w].zz.j].top < p.workers[w].zz.b)
  {
  }

  /**
   A scan turns back only because of work that it saw, in any run: the queue was not empty when it
   looked, or it loaded a bottom of some deque, at time `t` of this scan, that is greater than the
   top it loads now.
   */
  lemma TurnsBackOnlyForWork(n: nat, m: nat, capacity: nat, acts: seq<Action>, w: nat, start: nat) returns (t: nat)
    requires w < |Init(n, m, capacity).workers| && Scanning(After(Init(n, m, capacity), acts).workers[w])
    requires var pc' := WorkStep(After(Init(n, m, capacity), acts), w, start).workers[w];
      pc' == Sleep(SubSleeper) || pc' == Sleep(Unlock(false))
    ensures var p0 := Init(n, m, capacity); var p := After(p0, acts); var zz := p.workers[w].zz;
      || (zz.ScanQueue? && p.queue != [])
      || (zz.ScanTop? && Loaded(p0, acts, w, zz.waiting, zz.j, zz.b, t) && p.deques[zz.j].top < zz.b)
  {
    var p0 := Init(n, m, capacity);
    var p := After(p0, acts);
    t := 0;
    BackStep(p, w, start);
    var zz := p.workers[w].zz;
    if zz.ScanTop? { t := BottomWasLoaded(p0, acts, w, zz.waiting, zz.j, zz.b); }
  }
}
