/**
 What a worker does between two tasks.  A run is observed from outside: what the worker's own pops
 returned, what the global queue held when it looked, what its steals returned.  A search that
 comes up empty has looked everywhere, in the documented order, as often as the source says; and
 tasks leave the global queue in the order in which they entered it.
 */
module PoolSearch {
  import opened Basics
  import opened Ring
  import D = Deque
  import opened Pool
  import opened PoolSafety
  import opened PoolWakeups
  import StealSweep
  import PoolSweep

  // ------------------------------------------------------------------ what is seen of a search

  datatype Note =
    | Popped(r: Ptr)               // a pop of its own deque returned
    | Looked(queue: seq<Ptr>)      // it looked at the global queue
    | Robbed(d: nat, r: Ptr)       // a steal from deque d returned

  /** What a step shows of worker `w`. */
  function Noted(p: Pool, act: Action, w: nat): seq<Note>
    requires |p.workers| == |p.deques|
  {
    if !(act.Work? && act.w == w && w < |p.workers|) then [] else
    var e := EventOf(p.deques, Wants(|p.deques|, w, p.workers[w]));
    match p.workers[w]
    case Search(InPop) => if e.PopDone? then [Popped(e.r)] else []
    case Search(AtQueue(_)) => [Looked(p.queue)]
    case Search(InSteal(_, st, i)) => if e.StealDone? then [Robbed(Target(|p.deques|, st, i), e.r)] else []
    case _ => []
  }

  /** The worker begins a new search. */
  predicate Begins(p: Pool, act: Action, w: nat) {
    act.Work? && act.w == w && w < |p.workers| && p.workers[w] == Search(AtPop)
  }

  /** What a run has shown of worker `w` since its search began. */
  function Notes(p0: Pool, acts: seq<Action>, w: nat): seq<Note>
    requires |p0.workers| == |p0.deques|
  {
    if acts == [] then [] else
    var before, act := acts[..|acts| - 1], acts[|acts| - 1];
    var p := After(p0, before);
    if Begins(p, act, w) then [] else Notes(p0, before, w) + Noted(p, act, w)
  }

  // ------------------------------------------------------------------ what an unlucky search looks like

  function Nulls(ds: seq<nat>): seq<Note> {
    if ds == [] then [] else Nulls(ds[..|ds| - 1]) + [Robbed(ds[|ds| - 1], NULL)]
  }

  lemma NullsSnoc(ds: seq<nat>, d: nat)
    ensures Nulls(ds + [d]) == Nulls(ds) + [Robbed(d, NULL)]
  {
    assert (ds + [d])[..|ds + [d]| - 1] == ds;
  }

  /** One round: the queue was empty, and then the deques `v` had nothing. */
  function Round(v: seq<nat>): seq<Note> {
    [Looked([])] + Nulls(v)
  }

  lemma RoundSnoc(v: seq<nat>, d: nat)
    ensures Round(v + [d]) == Round(v) + [Robbed(d, NULL)]
  {
    NullsSnoc(v, d);
  }

  /** A null pop of its own deque, and then a round for each entry of `sweeps`. */
  function InVain(sweeps: seq<seq<nat>>): seq<Note> {
    if sweeps == [] then [Popped(NULL)]
    else InVain(sweeps[..|sweeps| - 1]) + Round(sweeps[|sweeps| - 1])
  }

  lemma InVainSnoc(sweeps: seq<seq<nat>>, v: seq<nat>)
    ensures InVain(sweeps + [v]) == InVain(sweeps) + Round(v)
  {
    assert (sweeps + [v])[..|sweeps + [v]| - 1] == sweeps;
  }

  /** A whole sweep: all the other workers' deques in cyclic order; none in a pool of one. */
  ghost predicate WholeSweep(n: nat, w: nat, v: seq<nat>) {
    if n <= 1 then v == [] else exists st: nat :: st < n && v == StealSweep.Visited(n, st, w, n)
  }

  /** It tries each other worker's deque exactly once, and its own never. */
  lemma WholeSweepTriesAll(n: nat, w: nat, v: seq<nat>)
    requires WholeSweep(n, w, v) && w < n
    ensures Distinct(v) && forall d: nat :: d in v <==> d < n && d != w
  {
    if n > 1 {
      var st: nat :| st < n && v == StealSweep.Visited(n, st, w, n);
      StealSweep.VisitedDistinct(n, st, w, n);
      forall d: nat
        ensures d in v <==> d < n && d != w
      {
        StealSweep.VisitedMember(n, st, w, n, d);
      }
    }
  }

  /** In a search, or through with it: on the way out or about to take the mutex for sleeping. */
  predicate Searching(pc: WorkerPc) {
    (pc.Search? && !pc.at.AtPop?) || pc == Sleep(AtLock)
  }

  /** Rounds that a worker has behind it. */
  function Rounds(pc: WorkerPc): nat
    requires Searching(pc)
  {
    if pc.Sleep? then SPINS + 1
    else if pc.at.InPop? then 0
    else if pc.at.AtStop? then 1
    else pc.at.round
  }

  /** In a round that it has begun by looking at the queue. */
  predicate InRound(pc: WorkerPc) {
    pc.Search? && (pc.at.AtSweep? || pc.at.Sweeping? || pc.at.InSteal?)
  }

  /** The notes are those of the rounds behind it and of the deques `seen` in the round under way. */
  ghost predicate Tells(pc: WorkerPc, notes: seq<Note>, sweeps: seq<seq<nat>>, seen: seq<nat>) {
    && Searching(pc)
    && (pc == Search(InPop) ==> notes == [] && sweeps == [])
    && (pc != Search(InPop) ==>
          |sweeps| == Rounds(pc) && notes == InVain(sweeps) + (if InRound(pc) then Round(seen) else []))
  }

  /** Its position fits what it has seen. */
  ghost predicate Fits(n: nat, w: nat, pc: WorkerPc, seen: seq<nat>) {
    match pc
    case Search(AtQueue(k)) => k <= SPINS
    case Search(AtSweep(k)) => k <= SPINS && seen == []
    case Search(Sweeping(k, st, i)) => k <= SPINS && st < n && 1 < n && i <= n && seen == StealSweep.Visited(n, st, w, i)
    case Search(InSteal(k, st, i)) =>
      k <= SPINS && st < n && 1 < n && i < n && Target(n, st, i) != w && seen == StealSweep.Visited(n, st, w, i)
    case _ => true
  }

  ghost predicate AllWhole(n: nat, w: nat, sweeps: seq<seq<nat>>) {
    forall k :: 0 <= k < |sweeps| ==> WholeSweep(n, w, sweeps[k])
  }

  ghost predicate Story(n: nat, w: nat, pc: WorkerPc, notes: seq<Note>, sweeps: seq<seq<nat>>, seen: seq<nat>) {
    n > 0 && Tells(pc, notes, sweeps, seen) && Fits(n, w, pc, seen) && AllWhole(n, w, sweeps)
  }

  // ------------------------------------------------------------------ one step of the worker

  lemma PopGoes(p: Pool, w: nat, start: nat, notes: seq<Note>, sweeps: seq<seq<nat>>, seen: seq<nat>)
    requires w < |p.workers| == |p.deques| && p.workers[w] == Search(InPop) && OwnerAgrees(p.workers[w], p.deques[w].owner)
    requires Story(|p.deques|, w, p.workers[w], notes, sweeps, seen) && Searching(WorkStep(p, w, start).workers[w])
    ensures Story(|p.deques|, w, WorkStep(p, w, start).workers[w], notes + Noted(p, Work(w, start), w), sweeps, seen)
  {
    assert InVain([]) == [Popped(NULL)];
  }

  lemma QueueGoes(p: Pool, w: nat, start: nat)
    requires w < |p.workers| == |p.deques| && p.workers[w].Search? && p.workers[w].at.AtQueue?
    requires Searching(WorkStep(p, w, start).workers[w])
    ensures WorkStep(p, w, start).workers[w] == Search(AtSweep(p.workers[w].at.round))
    ensures Noted(p, Work(w, start), w) == [Looked([])]
  {
  }

  lemma LookTells(k: nat, notes: seq<Note>, sweeps: seq<seq<nat>>, seen: seq<nat>)
    requires Tells(Search(AtQueue(k)), notes, sweeps, seen)
    ensures Tells(Search(AtSweep(k)), notes + [Looked([])], sweeps, [])
  {
    assert notes == InVain(sweeps);
    assert Round([]) == [Looked([])];
  }

  /** A round ends: the worker goes on to the next one, to the exit or to bed. */
  lemma RoundEnds(pc: WorkerPc, notes: seq<Note>, sweeps: seq<seq<nat>>, seen: seq<nat>)
    requires Tells(pc, notes, sweeps, seen) && InRound(pc) && pc.at.round <= SPINS
    ensures Tells(AfterSweep(pc.at.round), notes, sweeps + [seen], [])
  {
    InVainSnoc(sweeps, seen);
    assert InVain(sweeps + [seen]) + [] == InVain(sweeps + [seen]);
  }

  lemma WholeSnoc(n: nat, w: nat, sweeps: seq<seq<nat>>, v: seq<nat>)
    requires AllWhole(n, w, sweeps) && WholeSweep(n, w, v)
    ensures AllWhole(n, w, sweeps + [v])
  {
  }

  /** Where a worker goes that is about to sweep. */
  lemma AtSweepGoes(p: Pool, w: nat, start: nat)
    requires w < |p.workers| == |p.deques| && p.workers[w].Search? && p.workers[w].at.AtSweep?
    ensures Noted(p, Work(w, start), w) == []
    ensures var n, k := |p.deques|, p.workers[w].at.round;
      WorkStep(p, w, start).workers[w] == if n <= 1 then AfterSweep(k) else Search(Sweeping(k, start % n, 0))
  {
  }

  /** Where a sweep goes from a position. */
  lemma SweepingGoes(p: Pool, w: nat, start: nat)
    requires w < |p.workers| == |p.deques| && p.workers[w].Search? && p.workers[w].at.Sweeping?
    ensures Noted(p, Work(w, start), w) == []
    ensures var n, at := |p.deques|, p.workers[w].at;
      WorkStep(p, w, start).workers[w] ==
        if at.i >= n then AfterSweep(at.round)
        else if Target(n, at.start, at.i) == w then Search(Sweeping(at.round, at.start, at.i + 1))
        else Search(InSteal(at.round, at.start, at.i))
  {
  }

  lemma VisitOwn(n: nat, start: nat, w: nat, i: nat)
    requires n > 0 && Target(n, start, i) == w
    ensures StealSweep.Visited(n, start, w, i + 1) == StealSweep.Visited(n, start, w, i)
  {
  }

  lemma VisitNext(n: nat, start: nat, w: nat, i: nat)
    requires n > 0 && Target(n, start, i) != w
    ensures StealSweep.Visited(n, start, w, i + 1) == StealSweep.Visited(n, start, w, i) + [Target(n, start, i)]
  {
  }

  lemma SkipFits(n: nat, w: nat, k: nat, st: nat, i: nat, seen: seq<nat>)
    requires Fits(n, w, Search(Sweeping(k, st, i)), seen) && i < n
    ensures Fits(n, w, if Target(n, st, i) == w then Search(Sweeping(k, st, i + 1)) else Search(InSteal(k, st, i)), seen)
  {
    if Target(n, st, i) == w { VisitOwn(n, st, w, i); }
  }

  /** Where a steal goes with its answer. */
  lemma StealGoes(p: Pool, w: nat, start: nat)
    requires w < |p.workers| == |p.deques| && p.workers[w].Search? && p.workers[w].at.InSteal?
    ensures var n, at := |p.deques|, p.workers[w].at; var e := EventOf(p.deques, Wants(n, w, p.workers[w]));
      && Noted(p, Work(w, start), w) == (if e.StealDone? then [Robbed(Target(n, at.start, at.i), e.r)] else [])
      && WorkStep(p, w, start).workers[w] ==
           if e.StealDone? then RunOr(e.r, Sweeping(at.round, at.start, at.i + 1)) else p.workers[w]
  {
  }

  lemma NullTells(k: nat, st: nat, i: nat, notes: seq<Note>, sweeps: seq<seq<nat>>, seen: seq<nat>, d: nat)
    requires Tells(Search(InSteal(k, st, i)), notes, sweeps, seen)
    ensures Tells(Search(Sweeping(k, st, i + 1)), notes + [Robbed(d, NULL)], sweeps, seen + [d])
  {
    RoundSnoc(seen, d);
  }

  lemma NullFits(n: nat, w: nat, k: nat, st: nat, i: nat, seen: seq<nat>)
    requires Fits(n, w, Search(InSteal(k, st, i)), seen)
    ensures Fits(n, w, Search(Sweeping(k, st, i + 1)), seen + [Target(n, st, i)])
  {
    VisitNext(n, st, w, i);
  }

  lemma NullStory(n: nat, w: nat, k: nat, st: nat, i: nat, notes: seq<Note>, sweeps: seq<seq<nat>>, seen: seq<nat>)
    requires Story(n, w, Search(InSteal(k, st, i)), notes, sweeps, seen)
    ensures var d := Target(n, st, i);
      Story(n, w, Search(Sweeping(k, st, i + 1)), notes + [Robbed(d, NULL)], sweeps, seen + [d])
  {
    NullTells(k, st, i, notes, sweeps, seen, Target(n, st, i));
    NullFits(n, w, k, st, i, seen);
  }

  /** A worker that goes on searching got no answer yet, or null. */
  lemma StealAnswers(p: Pool, w: nat, start: nat)
    requires w < |p.workers| == |p.deques| && p.workers[w].Search? && p.workers[w].at.InSteal?
    requires Searching(WorkStep(p, w, start).workers[w])
    ensures var n, at, pc', noted := |p.deques|, p.workers[w].at, WorkStep(p, w, start).workers[w], Noted(p, Work(w, start), w);
      if noted == [] then pc' == p.workers[w]
      else noted == [Robbed(Target(n, at.start, at.i), NULL)] && pc' == Search(Sweeping(at.round, at.start, at.i + 1))
  {
    StealGoes(p, w, start);
  }

  lemma StealTells(p: Pool, w: nat, start: nat, notes: seq<Note>, sweeps: seq<seq<nat>>, seen: seq<nat>) returns (seen': seq<nat>)
    requires w < |p.workers| == |p.deques| && p.workers[w].Search? && p.workers[w].at.InSteal?
    requires Story(|p.deques|, w, p.workers[w], notes, sweeps, seen) && Searching(WorkStep(p, w, start).workers[w])
    ensures Story(|p.deques|, w, WorkStep(p, w, start).workers[w], notes + Noted(p, Work(w, start), w), sweeps, seen')
  {
    var n, at, noted := |p.deques|, p.workers[w].at, Noted(p, Work(w, start), w);
    StealAnswers(p, w, start);
    if noted == [] {
      assert notes + noted == notes;
      seen' := seen;
    } else {
      NullStory(n, w, at.round, at.start, at.i, notes, sweeps, seen);
      seen' := seen + [Target(n, at.start, at.i)];
    }
  }

  lemma SweepOnTells(n: nat, w: nat, k: nat, st: nat, i: nat, notes: seq<Note>, sweeps: seq<seq<nat>>, seen: seq<nat>)
    requires i < n && Story(n, w, Search(Sweeping(k, st, i)), notes, sweeps, seen)
    ensures Story(n, w, if Target(n, st, i) == w then Search(Sweeping(k, st, i + 1)) else Search(InSteal(k, st, i)), notes, sweeps, seen)
  {
    SkipFits(n, w, k, st, i, seen);
  }

  lemma SeenIsWhole(n: nat, w: nat, k: nat, st: nat, i: nat, seen: seq<nat>)
    requires i >= n && Fits(n, w, Search(Sweeping(k, st, i)), seen)
    ensures WholeSweep(n, w, seen) && k <= SPINS
  {
  }

  lemma NewRoundFits(n: nat, w: nat, k: nat)
    requires k <= SPINS
    ensures Fits(n, w, AfterSweep(k), [])
  {
  }

  lemma SweepOverTells(n: nat, w: nat, k: nat, st: nat, i: nat, notes: seq<Note>, sweeps: seq<seq<nat>>, seen: seq<nat>)
    requires i >= n && Story(n, w, Search(Sweeping(k, st, i)), notes, sweeps, seen)
    ensures Story(n, w, AfterSweep(k), notes, sweeps + [seen], [])
  {
    SeenIsWhole(n, w, k, st, i, seen);
    RoundEnds(Search(Sweeping(k, st, i)), notes, sweeps, seen);
    WholeSnoc(n, w, sweeps, seen);
    NewRoundFits(n, w, k);
  }

  lemma SweepTells(p: Pool, w: nat, start: nat, notes: seq<Note>, sweeps: seq<seq<nat>>, seen: seq<nat>)
    returns (sweeps': seq<seq<nat>>, seen': seq<nat>)
    requires w < |p.workers| == |p.deques| && p.workers[w].Search? && p.workers[w].at.Sweeping?
    requires Story(|p.deques|, w, p.workers[w], notes, sweeps, seen)
    ensures Story(|p.deques|, w, WorkStep(p, w, start).workers[w], notes + Noted(p, Work(w, start), w), sweeps', seen')
  {
    var n, at := |p.deques|, p.workers[w].at;
    SweepingGoes(p, w, start);
    assert notes + [] == notes;
    if at.i >= n {
      SweepOverTells(n, w, at.round, at.start, at.i, notes, sweeps, seen);
      sweeps', seen' := sweeps + [seen], [];
    } else {
      SweepOnTells(n, w, at.round, at.start, at.i, notes, sweeps, seen);
      sweeps', seen' := sweeps, seen;
    }
  }

  lemma AtSweepTells(p: Pool, w: nat, start: nat, notes: seq<Note>, sweeps: seq<seq<nat>>, seen: seq<nat>)
    returns (sweeps': seq<seq<nat>>, seen': seq<nat>)
    requires w < |p.workers| == |p.deques| && p.workers[w].Search? && p.workers[w].at.AtSweep?
    requires Story(|p.deques|, w, p.workers[w], notes, sweeps, seen)
    ensures Story(|p.deques|, w, WorkStep(p, w, start).workers[w], notes + Noted(p, Work(w, start), w), sweeps', seen')
  {
    AtSweepGoes(p, w, start);
    assert notes + [] == notes;
    if |p.deques| <= 1 {
      RoundEnds(p.workers[w], notes, sweeps, seen);
      WholeSnoc(|p.deques|, w, sweeps, []);
      sweeps', seen' := sweeps + [[]], [];
    } else {
      sweeps', seen' := sweeps, [];
    }
  }

  lemma StopTells(p: Pool, w: nat, start: nat, notes: seq<Note>, sweeps: seq<seq<nat>>, seen: seq<nat>)
    requires w < |p.workers| == |p.deques| && (p.workers[w] == Search(AtStop) || p.workers[w] == Sleep(AtLock))
    requires Story(|p.deques|, w, p.workers[w], notes, sweeps, seen) && Searching(WorkStep(p, w, start).workers[w])
    ensures Story(|p.deques|, w, WorkStep(p, w, start).workers[w], notes + Noted(p, Work(w, start), w), sweeps, seen)
  {
    assert notes + [] == notes;
  }

  lemma QueueTells(p: Pool, w: nat, start: nat, notes: seq<Note>, sweeps: seq<seq<nat>>, seen: seq<nat>)
    requires w < |p.workers| == |p.deques| && p.workers[w].Search? && p.workers[w].at.AtQueue?
    requires Story(|p.deques|, w, p.workers[w], notes, sweeps, seen) && Searching(WorkStep(p, w, start).workers[w])
    ensures Story(|p.deques|, w, WorkStep(p, w, start).workers[w], notes + Noted(p, Work(w, start), w), sweeps, [])
  {
    QueueGoes(p, w, start);
    LookTells(p.workers[w].at.round, notes, sweeps, seen);
  }

  lemma WorkTells(p: Pool, w: nat, start: nat, notes: seq<Note>, sweeps: seq<seq<nat>>, seen: seq<nat>)
    returns (sweeps': seq<seq<nat>>, seen': seq<nat>)
    requires w < |p.workers| == |p.deques| && OwnerAgrees(p.workers[w], p.deques[w].owner)
    requires Story(|p.deques|, w, p.workers[w], notes, sweeps, seen) && Searching(WorkStep(p, w, start).workers[w])
    ensures Story(|p.deques|, w, WorkStep(p, w, start).workers[w], notes + Noted(p, Work(w, start), w), sweeps', seen')
  {
    sweeps', seen' := sweeps, seen;
    if p.workers[w].Sleep? || p.workers[w].at.AtStop? {
      StopTells(p, w, start, notes, sweeps, seen);
    } else if p.workers[w].at.InPop? {
      PopGoes(p, w, start, notes, sweeps, seen);
    } else if p.workers[w].at.AtQueue? {
      QueueTells(p, w, start, notes, sweeps, seen);
      seen' := [];
    } else if p.workers[w].at.AtSweep? {
      sweeps', seen' := AtSweepTells(p, w, start, notes, sweeps, seen);
    } else if p.workers[w].at.Sweeping? {
      sweeps', seen' := SweepTells(p, w, start, notes, sweeps, seen);
    } else {
      seen' := StealTells(p, w, start, notes, sweeps, seen);
    }
  }

  // ------------------------------------------------------------------ over whole runs

  /** Only a worker that searches, or begins to, is searching after its own step. */
  lemma SearchGoesOn(p: Pool, w: nat, start: nat)
    requires w < |p.workers| == |p.deques| && Searching(WorkStep(p, w, start).workers[w])
    ensures Searching(p.workers[w]) || (p.workers[w] == Search(AtPop) && WorkStep(p, w, start).workers[w] == Search(InPop))
  {
  }

  /**
   Every search, at every moment, has seen exactly this since it began: a null pop of its own deque,
   then for each round behind it an empty queue and a null steal from every other deque in cyclic
   order, then what the round under way has brought so far.
   */
  lemma {:induction false} EverySearchTells(n: nat, m: nat, capacity: nat, acts: seq<Action>, w: nat)
    returns (sweeps: seq<seq<nat>>, seen: seq<nat>)
    requires PowerOfTwo(capacity) && w < |Init(n, m, capacity).workers|
    requires Searching(After(Init(n, m, capacity), acts).workers[w])
    ensures var p0 := Init(n, m, capacity);
      Story(|p0.deques|, w, After(p0, acts).workers[w], Notes(p0, acts, w), sweeps, seen)
  {
    var p0 := Init(n, m, capacity);
    var before, act := acts[..|acts| - 1], acts[|acts| - 1];
    var p := After(p0, before);
    if Begins(p, act, w) {
      SearchGoesOn(p, w, act.start);
      sweeps, seen := [], [];
    } else if act.Work? && act.w == w {
      SearchGoesOn(p, w, act.start);
      sweeps, seen := EverySearchTells(n, m, capacity, before, w);
      AlwaysOwners(n, m, capacity, before, w);
      sweeps, seen := WorkTells(p, w, act.start, Notes(p0, before, w), sweeps, seen);
    } else {
      OthersMove(p, act, w);
      sweeps, seen := EverySearchTells(n, m, capacity, before, w);
      assert Notes(p0, before, w) + [] == Notes(p0, before, w);
    }
  }

  lemma AlwaysOwners(n: nat, m: nat, capacity: nat, acts: seq<Action>, w: nat)
    requires PowerOfTwo(capacity) && w < |Init(n, m, capacity).workers|
    ensures var p := After(Init(n, m, capacity), acts); OwnerAgrees(p.workers[w], p.deques[w].owner)
  {
    AlwaysSafe(n, m, capacity, acts);
  }

  /**
   A worker asks whether to stop, or goes to bed, only after looking everywhere: since its search
   began it has had null from its own deque, and then found the queue empty and had null from every
   other deque in turn, in one round before it asks and in 33 rounds before it goes to bed.
   */
  lemma GivesUpOnlyInVain(n: nat, m: nat, capacity: nat, acts: seq<Action>, w: nat) returns (sweeps: seq<seq<nat>>)
    requires PowerOfTwo(capacity) && w < |Init(n, m, capacity).workers|
    requires var pc := After(Init(n, m, capacity), acts).workers[w]; pc == Search(AtStop) || pc == Sleep(AtLock)
    ensures var p0 := Init(n, m, capacity);
      && Notes(p0, acts, w) == InVain(sweeps) && AllWhole(|p0.deques|, w, sweeps)
      && |sweeps| == if After(p0, acts).workers[w].Sleep? then 33 else 1
  {
    var seen;
    sweeps, seen := EverySearchTells(n, m, capacity, acts, w);
    assert InVain(sweeps) + [] == InVain(sweeps);
  }

  /** The task that a note brings. */
  predicate Brings(note: Note, x: Ptr) {
    match note
    case Popped(r) => r == x
    case Looked(queue) => queue != [] && queue[0] == x
    case Robbed(_, r) => r == x
  }

  lemma FindNotes(p: Pool, w: nat, start: nat)
    requires w < |p.workers| == |p.deques| && p.workers[w].Search? && !p.workers[w].at.AtPop?
    requires WorkStep(p, w, start).workers[w].Running?
    ensures |Noted(p, Work(w, start), w)| == 1
    ensures Brings(Noted(p, Work(w, start), w)[0], WorkStep(p, w, start).workers[w].x)
  {
  }

  /**
   A worker that comes to a task got it from the first place that had one: what it saw before is an
   unlucky search up to there, and what it saw last is the task, at the back of its own deque, at
   the front of the queue or from the deque it was robbing.
   */
  lemma FindsInOrder(n: nat, m: nat, capacity: nat, acts: seq<Action>, w: nat, start: nat)
    returns (sweeps: seq<seq<nat>>, seen: seq<nat>, last: Note)
    requires PowerOfTwo(capacity) && w < |Init(n, m, capacity).workers|
    requires var p := After(Init(n, m, capacity), acts); p.workers[w].Search? && !p.workers[w].at.AtPop?
    requires WorkStep(After(Init(n, m, capacity), acts), w, start).workers[w].Running?
    ensures var p0 := Init(n, m, capacity); var p := After(p0, acts);
      && Story(|p0.deques|, w, p.workers[w], Notes(p0, acts, w), sweeps, seen)
      && Notes(p0, acts + [Work(w, start)], w) == Notes(p0, acts, w) + [last]
      && Brings(last, WorkStep(p, w, start).workers[w].x)
  {
    var p0, act := Init(n, m, capacity), Work(w, start);
    var p := After(p0, acts);
    sweeps, seen := EverySearchTells(n, m, capacity, acts, w);
    FindNotes(p, w, start);
    last := Noted(p, act, w)[0];
    assert (acts + [act])[..|acts + [act]| - 1] == acts;
    assert Noted(p, act, w) == [last];
  }

  // ------------------------------------------------------------------ the global queue is first in, first out

  /** The task that a step of a caller appends to the queue. */
  function Appended(p: Pool, act: Action): seq<Ptr> {
    if act.Client? && act.e < |p.clients| && p.clients[act.e].Pushing? then [p.clients[act.e].x] else []
  }

  /** The task that a worker which looked at the queue runs after a step. */
  function Taken(p: Pool, act: Action): seq<Ptr>
    requires |p.workers| == |p.deques|
  {
    if act.Work? && act.w < |p.workers| && p.workers[act.w].Search? && p.workers[act.w].at.AtQueue?
      && Step(p, act).workers[act.w].Running?
    then [Step(p, act).workers[act.w].x] else []
  }

  function Appends(p0: Pool, acts: seq<Action>): seq<Ptr>
    requires |p0.workers| == |p0.deques|
  {
    if acts == [] then [] else
    Appends(p0, acts[..|acts| - 1]) + Appended(After(p0, acts[..|acts| - 1]), acts[|acts| - 1])
  }

  function Takes(p0: Pool, acts: seq<Action>): seq<Ptr>
    requires |p0.workers| == |p0.deques|
  {
    if acts == [] then [] else
    Takes(p0, acts[..|acts| - 1]) + Taken(After(p0, acts[..|acts| - 1]), acts[|acts| - 1])
  }

  /** What a step does to the tasks deleted unrun followed by the queue. */
  ghost predicate Flows(p: Pool, act: Action)
    requires |p.workers| == |p.deques|
  {
    var p' := Step(p, act);
    (p.freed + p.queue) + Appended(p, act) == Taken(p, act) + (p'.freed + p'.queue)
  }

  lemma WorkFlows(p: Pool, w: nat, start: nat)
    requires w < |p.workers| == |p.deques| && (!p.workers[w].Exited? ==> p.freed == [])
    ensures Flows(p, Work(w, start))
  {
    if p.workers[w].Search? && p.workers[w].at.AtQueue? {
      if p.queue != [] { assert p.queue == [p.queue[0]] + p.queue[1..]; }
    }
    WorkQueueIs(p, w, start);
  }

  lemma WorkQueueIs(p: Pool, w: nat, start: nat)
    requires w < |p.workers| == |p.deques|
    ensures var p' := WorkStep(p, w, start);
      && p'.freed == p.freed
      && p'.queue == if p.workers[w].Search? && p.workers[w].at.AtQueue? && p.queue != [] then p.queue[1..] else p.queue
  {
  }

  lemma ClientFlows(p: Pool, e: nat)
    requires |p.workers| == |p.deques| && e < |p.clients|
    ensures Flows(p, Client(e))
  {
  }

  lemma DtorFlows(p: Pool)
    requires Safe(p)
    ensures Flows(p, Dtor)
  {
    if p.dtor.FreeDeques? { FreeingFindsNothing(p); }
  }

  lemma OthersFlow(p: Pool, act: Action)
    requires |p.workers| == |p.deques| && !act.Work? && !act.Client? && !act.Dtor?
    ensures Flows(p, act)
  {
  }

  /** Nothing has been deleted while a worker is left. */
  ghost predicate FreedLast(p: Pool) {
    !p.dtor.Gone? ==> p.freed == []
  }

  lemma FreedStep(p: Pool, act: Action)
    requires Safe(p) && FreedLast(p)
    ensures FreedLast(Step(p, act))
  {
    if act.Dtor? && p.dtor.FreeDeques? { FreeingFindsNothing(p); }
    if act.Work? && act.w < |p.workers| {
      WorkQueueIs(p, act.w, act.start);
      WorkMovesItself(p, act.w, act.start);
    }
  }

  lemma StepFlows(p: Pool, act: Action)
    requires Safe(p) && FreedLast(p)
    ensures Flows(p, act)
  {
    if act.Work? && act.w < |p.workers| {
      WorkFlows(p, act.w, act.start);
    } else if act.Client? && act.e < |p.clients| {
      ClientFlows(p, act.e);
    } else if act.Dtor? {
      DtorFlows(p);
    } else if !act.Work? && !act.Client? {
      OthersFlow(p, act);
    }
  }

  lemma Regroup(a: seq<Ptr>, t: seq<Ptr>, r: seq<Ptr>, a': seq<Ptr>, t': seq<Ptr>, r': seq<Ptr>)
    requires a == t + r && r + a' == t' + r'
    ensures a + a' == (t + t') + r'
  {
    assert a + a' == t + (r + a');
    assert (t + t') + r' == t + (t' + r');
  }

  /**
   First in, first out: in every run, the tasks that callers have appended to the global queue are,
   in this order, those that workers have taken from it, those deleted unrun with it, and those
   that are still in it.
   */
  lemma {:induction false} FirstInFirstOut(n: nat, m: nat, capacity: nat, acts: seq<Action>)
    requires PowerOfTwo(capacity)
    ensures var p0 := Init(n, m, capacity); var p := After(p0, acts);
      FreedLast(p) && Appends(p0, acts) == Takes(p0, acts) + (p.freed + p.queue)
  {
    var p0 := Init(n, m, capacity);
    if acts != [] {
      var before, act := acts[..|acts| - 1], acts[|acts| - 1];
      var p := After(p0, before);
      FirstInFirstOut(n, m, capacity, before);
      AlwaysSafe(n, m, capacity, before);
      StepFlows(p, act);
      FreedStep(p, act);
      Regroup(Appends(p0, before), Takes(p0, before), p.freed + p.queue,
              Appended(p, act), Taken(p, act), Step(p, act).freed + Step(p, act).queue);
    }
  }
}
