/**
 The circular array behind a work-stealing deque.

 The source indexes a power-of-two buffer with `i & mask`.  This module writes the bitwise
 `&` out bit by bit, shows that masking is reduction modulo the capacity, and gives the
 value-level ring that the deque machine stores and the in-place copy loop that grows it.
 */
module Ring {
  import opened Basics

  /** Bitwise conjunction, one binary digit at a time; a negative `y` is in two's complement. */
  function BitAnd(x: nat, y: int): (r: nat)
    ensures r <= x && (0 <= y ==> r <= y)
    decreases x
  {
    if x == 0 || y == 0 then 0 else (if x % 2 == 1 && y % 2 == 1 then 1 else 0) + 2 * BitAnd(x / 2, y / 2)
  }

  predicate PowerOfTwo(c: nat) {
    c == 1 || (c > 1 && c % 2 == 0 && PowerOfTwo(c / 2))
  }

  lemma ModuloOfDouble(i: nat, d: nat)
    requires d > 0
    ensures i % (2 * d) == i % 2 + 2 * ((i / 2) % d)
  {
    var q, r := (i / 2) / d, (i / 2) % d;
    assert i / 2 == q * d + r;
    var m := i % 2 + 2 * r;
    assert i == q * (2 * d) + m;
    UniqueRemainder(i, 2 * d, q, m);
  }

  lemma NonzeroMultiple(k: int, c: int)
    requires c >= 0
    ensures k > 0 ==> k * c >= c
    ensures k < 0 ==> k * c <= -c
  {
    if k > 0 {
      assert (k - 1) * c >= 0;
    } else if k < 0 {
      assert (-k - 1) * c >= 0;
    }
  }

  lemma UniqueRemainder(i: nat, c: nat, q: nat, m: nat)
    requires c > 0 && m < c && i == q * c + m
    ensures i % c == m
  {
    var q', m' := i / c, i % c;
    assert i == q' * c + m';
    assert (q - q') * c == q * c - q' * c;
    NonzeroMultiple(q - q', c);
  }

  /** Masking with `capacity - 1` is reduction modulo a power-of-two capacity. */
  lemma {:induction false} MaskIsModulo(i: nat, c: nat)
    requires PowerOfTwo(c)
    ensures BitAnd(i, c - 1) == i % c
  {
    if c == 1 {
      assert BitAnd(i, 0) == 0;
    } else if i == 0 {
      UniqueRemainder(0, c, 0, 0);
    } else {
      var d := c / 2;
      MaskIsModulo(i / 2, d);
      MaskDigits(i, c);
      ModuloOfDouble(i, d);
    }
  }

  /** The constructor's assertion `(c & (c - 1)) == 0` accepts exactly the powers of two and 0. */
  lemma {:induction false} AssertionAcceptsPowersOfTwo(c: nat)
    ensures BitAnd(c, c - 1) == 0 <==> c == 0 || PowerOfTwo(c)
  {
    if c > 1 {
      if c % 2 == 0 {
        var d := c / 2;
        assert (c - 1) / 2 == d - 1 && (c - 1) % 2 == 1;
        assert BitAnd(c, c - 1) == 2 * BitAnd(d, d - 1);
        AssertionAcceptsPowersOfTwo(d);
      } else {
        assert (c - 1) / 2 == c / 2 && (c - 1) % 2 == 0;
        assert BitAnd(c, c - 1) == 2 * BitAnd(c / 2, c / 2);
        AndWithItself(c / 2);
      }
    }
  }

  lemma {:induction false} AndWithItself(x: nat)
    ensures BitAnd(x, x) == x
  {
    if x > 0 { AndWithItself(x / 2); }
  }

  /** Doubling, the only way a capacity ever changes, keeps it a power of two. */
  lemma {:induction false} DoublingsStayPowersOfTwo(c: nat, times: nat)
    requires PowerOfTwo(c)
    ensures PowerOfTwo(Doubled(c, times)) && Doubled(c, times) >= c + times
  {
    if times > 0 {
      DoublingsStayPowersOfTwo(c, times - 1);
      assert (2 * Doubled(c, times - 1)) / 2 == Doubled(c, times - 1);
    }
  }

  /** A capacity of 0, which the assertion lets through, has no slot and never gets one. */
  lemma {:induction false} ZeroNeverGrows(times: nat)
    ensures Doubled(0, times) == 0
  {
    if times > 0 { ZeroNeverGrows(times - 1); }
  }

  function Doubled(c: nat, times: nat): nat {
    if times == 0 then c else 2 * Doubled(c, times - 1)
  }

  lemma MaskDigits(i: nat, c: nat)
    requires c > 1 && c % 2 == 0
    ensures BitAnd(i, c - 1) == i % 2 + 2 * BitAnd(i / 2, c / 2 - 1)
  {
    assert (c - 1) / 2 == c / 2 - 1 && (c - 1) % 2 == 1;
  }

  lemma ModuloInjective(i: nat, j: nat, c: nat)
    requires i < j < i + c
    ensures i % c != j % c
  {
    var q, q' := i / c, j / c;
    assert i == q * c + i % c && j == q' * c + j % c;
    assert (q' - q) * c == q' * c - q * c;
    NonzeroMultiple(q' - q, c);
  }

  /** No two logical indices less than a capacity apart share a slot. */
  lemma MaskInjectiveOnWindow(i: nat, j: nat, c: nat)
    requires PowerOfTwo(c)
    requires i < j < i + c
    ensures BitAnd(i, c - 1) != BitAnd(j, c - 1)
  {
    MaskIsModulo(i, c);
    MaskIsModulo(j, c);
    ModuloInjective(i, j, c);
  }

  // ------------------------------------------------------------------ rings as values

  /** A circular array: its capacity is the length of `buffer`, its mask one less. */
  datatype Ring = Ring(buffer: seq<Ptr>)

  ghost predicate ValidRing(r: Ring) {
    PowerOfTwo(|r.buffer|)
  }

  /** A new circular array: every slot holds the null pointer. */
  function Fresh(capacity: nat): (r: Ring)
    ensures |r.buffer| == capacity
  {
    Ring(seq(capacity, _ => NULL))
  }

  /** The slot of logical index `i`. */
  function Get(r: Ring, i: int): (p: Ptr) {
    if i < 0 || |r.buffer| == 0 then NULL else r.buffer[BitAnd(i, |r.buffer| - 1)]
  }

  function Put(r: Ring, i: int, p: Ptr): (r': Ring)
    ensures |r'.buffer| == |r.buffer|
  {
    if i < 0 || |r.buffer| == 0 then r else Ring(r.buffer[BitAnd(i, |r.buffer| - 1) := p])
  }

  /** The tasks at logical indices `lo..hi`. */
  function Slice(r: Ring, lo: int, hi: int): (q: seq<Ptr>)
    ensures |q| == if lo <= hi then hi - lo else 0
  {
    seq<Ptr>(if lo <= hi then hi - lo else 0, i => Get(r, lo + i))
  }

  ghost predicate NoNulls(r: Ring, lo: int, hi: int) {
    forall j :: lo <= j < hi ==> Get(r, j) != NULL
  }

  ghost predicate Agree(r: Ring, r': Ring, lo: int, hi: int) {
    forall j :: lo <= j < hi ==> Get(r, j) == Get(r', j)
  }

  /** A store changes the slot of its own logical index and of no other one within a capacity. */
  lemma PutThenGet(r: Ring, i: nat, p: Ptr)
    requires ValidRing(r)
    ensures Get(Put(r, i, p), i) == p
    ensures forall j: int ::
      i - |r.buffer| < j < i + |r.buffer| && j != i ==> Get(Put(r, i, p), j) == Get(r, j)
  {
    forall j: int | i - |r.buffer| < j < i + |r.buffer| && j != i
      ensures Get(Put(r, i, p), j) == Get(r, j)
    {
      if 0 <= j {
        if i < j {
          MaskInjectiveOnWindow(i, j, |r.buffer|);
        } else {
          MaskInjectiveOnWindow(j, i, |r.buffer|);
        }
      }
    }
  }
}
