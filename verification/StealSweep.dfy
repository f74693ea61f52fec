/**
 The steal sweep of a worker: a 32-bit xorshift generator chooses where to start, and the
 sweep then visits the other workers' deques in cyclic order.
 */
module StealSweep {
  import opened Basics
  import opened Ring
  import P = Pool

  function ShiftA(x: bv32): bv32 { x ^ (x << 13) }
  function ShiftB(x: bv32): bv32 { x ^ (x >> 17) }
  function ShiftC(x: bv32): bv32 { x ^ (x << 5) }

  /** One step of the generator. */
  function Xorshift(x: bv32): bv32 {
    ShiftC(ShiftB(ShiftA(x)))
  }

  function UndoA(y: bv32): bv32 { y ^ (y << 13) ^ (y << 26) }
  function UndoB(y: bv32): bv32 { y ^ (y >> 17) }
  function UndoC(y: bv32): bv32 { y ^ (y << 5) ^ (y << 10) ^ (y << 15) ^ (y << 20) ^ (y << 25) ^ (y << 30) }

  lemma IdentityA(x: bv32)
    ensures var y := x ^ (x << 13); y ^ (y << 13) ^ (y << 26) == x
  {
  }

  lemma IdentityB(x: bv32)
    ensures var y := x ^ (x >> 17); y ^ (y >> 17) == x
  {
  }

  lemma IdentityC(x: bv32)
    ensures var y := x ^ (x << 5);
      y ^ (y << 5) ^ (y << 10) ^ (y << 15) ^ (y << 20) ^ (y << 25) ^ (y << 30) == x
  {
  }

  lemma ShiftAUndone(x: bv32)
    ensures UndoA(ShiftA(x)) == x
  {
    IdentityA(x);
    assert ShiftA(x) == x ^ (x << 13);
  }

  lemma ShiftBUndone(x: bv32)
    ensures UndoB(ShiftB(x)) == x
  {
    IdentityB(x);
    assert ShiftB(x) == x ^ (x >> 17);
  }

  lemma ShiftCUndone(x: bv32)
    ensures UndoC(ShiftC(x)) == x
  {
    IdentityC(x);
    assert ShiftC(x) == x ^ (x << 5);
  }

  /** A step loses no information: it can be run backwards. */
  lemma XorshiftIsInvertible(x: bv32)
    ensures UndoA(UndoB(UndoC(Xorshift(x)))) == x
  {
    ShiftAUndone(x);
    ShiftBUndone(ShiftA(x));
    ShiftCUndone(ShiftB(ShiftA(x)));
  }

  /** The generator after `k` steps. */
  function State(seed: bv32, k: nat): bv32 {
    if k == 0 then seed else Xorshift(State(seed, k - 1))
  }

  /** Two workers with different seeds are never in the same state after equally many sweeps. */
  lemma {:induction false} StreamsNeverMeet(x: bv32, y: bv32, k: nat)
    ensures State(x, k) == State(y, k) <==> x == y
  {
    if k > 0 {
      XorshiftIsInvertible(State(x, k - 1));
      XorshiftIsInvertible(State(y, k - 1));
      StreamsNeverMeet(x, y, k - 1);
    }
  }

  lemma {:induction false} ZeroIsFixed(k: nat)
    ensures State(0, k) == 0
  {
    if k > 0 { ZeroIsFixed(k - 1); }
  }

  /** A nonzero seed never reaches the all-zero state, in which the generator would be stuck. */
  lemma StateStaysNonzero(seed: bv32, k: nat)
    ensures State(seed, k) != 0 <==> seed != 0
  {
    ZeroIsFixed(k);
    StreamsNeverMeet(seed, 0, k);
  }

  // ------------------------------------------------------------------ the sweep

  /** For a start below `n`, the i-th target is `start + i` with at most one wrap-around. */
  lemma TargetWraps(n: nat, start: nat, i: nat)
    requires start < n && i < n
    ensures P.Target(n, start, i) == if start + i < n then start + i else start + i - n
  {
    if start + i < n {
      UniqueRemainder(start + i, n, 0, start + i);
    } else {
      UniqueRemainder(start + i, n, 1, start + i - n);
    }
  }

  /** Where in a sweep worker `d` is the target. */
  function Position(n: nat, start: nat, d: nat): nat
    requires start < n
  {
    if d >= start then d - start else d + n - start
  }

  /** Each worker is the target of exactly one position of the sweep. */
  lemma TargetOnce(n: nat, start: nat, d: nat) returns (i: nat)
    requires start < n && d < n
    ensures i == Position(n, start, d) < n && P.Target(n, start, i) == d
    ensures forall j :: 0 <= j < n && P.Target(n, start, j) == d ==> j == i
  {
    i := Position(n, start, d);
    TargetWraps(n, start, i);
    forall j | 0 <= j < n && P.Target(n, start, j) == d
      ensures j == i
    {
      TargetWraps(n, start, j);
    }
  }

  /** The deques at the first `i` positions of a sweep, in order, without the worker's own. */
  function Visited(n: nat, start: nat, worker: nat, i: nat): seq<nat>
    requires n > 0
  {
    if i == 0 then [] else
    var target := P.Target(n, start, i - 1);
    Visited(n, start, worker, i - 1) + (if target != worker then [target] else [])
  }

  /** The deques visited are those at the earlier positions, the worker's own excepted. */
  lemma {:induction false} VisitedMember(n: nat, start: nat, worker: nat, i: nat, d: nat)
    requires start < n && i <= n
    ensures d in Visited(n, start, worker, i) <==> d != worker && d < n && Position(n, start, d) < i
  {
    if i > 0 {
      VisitedMember(n, start, worker, i - 1, d);
      TargetWraps(n, start, i - 1);
    }
  }

  lemma {:induction false} VisitedDistinct(n: nat, start: nat, worker: nat, i: nat)
    requires start < n && i <= n
    ensures Distinct(Visited(n, start, worker, i))
  {
    if i > 0 {
      VisitedDistinct(n, start, worker, i - 1);
      VisitedMember(n, start, worker, i - 1, P.Target(n, start, i - 1));
      TargetWraps(n, start, i - 1);
    }
  }

  lemma {:induction false} VisitedGrows(n: nat, start: nat, worker: nat, i: nat, m: nat)
    requires n > 0 && i <= m
    ensures Visited(n, start, worker, i) <= Visited(n, start, worker, m)
    decreases m - i
  {
    if i < m { VisitedGrows(n, start, worker, i, m - 1); }
  }

  /**
   The loop of `steal_from_others`: visits the other workers from `start` on in cyclic order and
   stops at the first task.  `offers[d]` is what stealing from deque `d` returns, `tried` the
   deques attempted.  A sweep that returns null has tried every other worker's deque exactly once,
   and never its own.
   */
  method Sweep(worker: nat, start: nat, offers: seq<Ptr>) returns (task: Ptr, tried: seq<nat>)
    requires start < |offers|
    ensures tried <= Visited(|offers|, start, worker, |offers|)
    ensures Distinct(tried) && worker !in tried && forall k :: 0 <= k < |tried| ==> tried[k] < |offers|
    ensures task == NULL ==> forall d :: 0 <= d < |offers| && d != worker ==> d in tried && offers[d] == NULL
    ensures task != NULL ==> tried != [] && offers[tried[|tried| - 1]] == task
    ensures task != NULL ==> forall k :: 0 <= k < |tried| - 1 ==> offers[tried[k]] == NULL
  {
    var n := |offers|;
    task, tried := NULL, [];
    var i := 0;
    while i < n && task == NULL
      invariant 0 <= i <= n && tried == Visited(n, start, worker, i) && (task == NULL || tried != [])
      invariant forall k :: 0 <= k < |tried| ==> tried[k] < n
      invariant forall k :: 0 <= k < |tried| - 1 ==> offers[tried[k]] == NULL
      invariant tried != [] ==> offers[tried[|tried| - 1]] == task
    {
      var target := P.Target(n, start, i);
      if target != worker {
        tried := tried + [target];
        task := offers[target];
      }
      i := i + 1;
    }
    VisitedDistinct(n, start, worker, i);
    VisitedMember(n, start, worker, i, worker);
    VisitedGrows(n, start, worker, i, n);
    if task == NULL {
      forall d | 0 <= d < n && d != worker
        ensures d in tried && offers[d] == NULL
      {
        VisitedMember(n, start, worker, n, d);
      }
    }
  }

  /** `steal_from_others`: a pool of one has nobody to rob; otherwise the generator names the start. */
  method StealFromOthers(worker: nat, rng: bv32, offers: seq<Ptr>) returns (task: Ptr, tried: seq<nat>, rng': bv32)
    ensures rng' == if |offers| <= 1 then rng else Xorshift(rng)
    ensures if |offers| <= 1 then task == NULL && tried == []
      else tried <= Visited(|offers|, Left(rng' as nat, |offers|), worker, |offers|)
    ensures Distinct(tried) && worker !in tried && forall k :: 0 <= k < |tried| ==> tried[k] < |offers|
    ensures task == NULL && |offers| > 1 ==> forall d :: 0 <= d < |offers| && d != worker ==> d in tried && offers[d] == NULL
    ensures task != NULL ==> tried != [] && offers[tried[|tried| - 1]] == task
    ensures task != NULL ==> forall k :: 0 <= k < |tried| - 1 ==> offers[tried[k]] == NULL
  {
    task, tried, rng' := NULL, [], rng;
    if |offers| > 1 {
      rng' := Xorshift(rng);
      task, tried := Sweep(worker, Below(rng', |offers|), offers);
    }
  }

  /** What is left of `x` after taking `n` away as often as possible. */
  function Left(x: nat, n: nat): (r: nat)
    requires n > 0
    ensures r < n
  {
    if x < n then x else Left(x - n, n)
  }

  lemma {:induction false} LeftIsRemainder(x: nat, n: nat)
    requires n > 0
    ensures Left(x, n) == x % n
  {
    if x >= n {
      LeftIsRemainder(x - n, n);
      UniqueRemainder(x, n, (x - n) / n + 1, (x - n) % n);
    }
  }

  function Below(rng: bv32, n: nat): (start: nat)
    requires n > 0
    ensures start < n && start == Left(rng as nat, n)
  {
    Remainder(rng as nat, n)
  }

  function Remainder(x: nat, n: nat): (r: nat)
    requires n > 0
    ensures r < n && r == Left(x, n)
  {
    LeftIsRemainder(x, n);
    x % n
  }
}
