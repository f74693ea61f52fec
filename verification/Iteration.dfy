/** One step taken again and again. */
module Iteration {

  function Iterate<S>(f: S -> S, s: S, k: nat): S
    decreases k
  {
    if k == 0 then s else Iterate(f, f(s), k - 1)
  }

  lemma {:induction false} IterateJoin<S>(f: S -> S, s: S, j: nat, k: nat)
    ensures Iterate(f, Iterate(f, s, j), k) == Iterate(f, s, j + k)
    decreases j
  {
    if j > 0 { IterateJoin(f, f(s), j - 1, k); }
  }

  lemma IterateOnce<S>(f: S -> S, s: S)
    ensures Iterate(f, s, 1) == f(s)
  {
    assert Iterate(f, f(s), 0) == f(s);
  }

  lemma IterateMore<S>(f: S -> S, s: S, k: nat)
    ensures Iterate(f, s, k + 1) == f(Iterate(f, s, k))
  {
    IterateJoin(f, s, k, 1);
    IterateOnce(f, Iterate(f, s, k));
  }

  lemma IterateThree<S>(f: S -> S, s: S)
    ensures Iterate(f, s, 3) == f(f(f(s)))
  {
    IterateOnce(f, s);
    IterateMore(f, s, 1);
    IterateMore(f, s, 2);
  }

  ghost predicate IsTrace<S(!new)>(f: S -> S, trace: seq<S>) {
    forall i {:trigger f(trace[i])} :: 0 <= i < |trace| - 1 ==> trace[i + 1] == f(trace[i])
  }

  /** The same told as a walk of `k` steps from `s` to `t`. */
  ghost predicate Leads<S(!new)>(f: S -> S, s: S, k: nat, t: S) {
    exists trace: seq<S> :: |trace| == k + 1 && trace[0] == s && trace[k] == t && IsTrace(f, trace)
  }

  lemma LeadsNowhere<S(!new)>(f: S -> S, s: S)
    ensures Leads(f, s, 0, s)
  {
    assert IsTrace(f, [s]);
  }

  lemma LeadsOnce<S(!new)>(f: S -> S, s: S)
    ensures Leads(f, s, 1, f(s))
  {
    assert IsTrace(f, [s, f(s)]);
  }

  lemma LeadsThree<S(!new)>(f: S -> S, s: S, a: S, b: S, c: S)
    requires f(s) == a && f(a) == b && f(b) == c
    ensures Leads(f, s, 2, b) && Leads(f, s, 3, c)
  {
    assert IsTrace(f, [s, a, b]);
    assert IsTrace(f, [s, a, b, c]);
  }

  lemma LeadsThen<S(!new)>(f: S -> S, s: S, j: nat, t: S, k: nat, u: S)
    requires Leads(f, s, j, t) && Leads(f, t, k, u)
    ensures Leads(f, s, j + k, u)
  {
    var a :| |a| == j + 1 && a[0] == s && a[j] == t && IsTrace(f, a);
    var b :| |b| == k + 1 && b[0] == t && b[k] == u && IsTrace(f, b);
    var c := a + b[1..];
    assert c[0] == s && c[j + k] == u;
    forall i | 0 <= i < |c| - 1
      ensures c[i + 1] == f(c[i])
    {
      if i < j {
        assert c[i] == a[i] && c[i + 1] == a[i + 1];
      } else {
        assert c[i] == b[i - j] && c[i + 1] == b[i - j + 1];
      }
    }
  }

  lemma {:induction false} TraceIterates<S(!new)>(f: S -> S, trace: seq<S>, k: nat)
    requires k < |trace| && IsTrace(f, trace)
    ensures trace[k] == Iterate(f, trace[0], k)
  {
    if k > 0 {
      TraceIterates(f, trace, k - 1);
      assert trace[k - 1 + 1] == f(trace[k - 1]);
      IterateMore(f, trace[0], k - 1);
    }
  }

  /** A walk leads to one place only. */
  lemma LeadsIterates<S(!new)>(f: S -> S, s: S, k: nat, t: S)
    requires Leads(f, s, k, t)
    ensures t == Iterate(f, s, k)
  {
    var trace :| |trace| == k + 1 && trace[0] == s && trace[k] == t && IsTrace(f, trace);
    TraceIterates(f, trace, k);
  }
}
