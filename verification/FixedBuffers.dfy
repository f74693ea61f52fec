/**
 The registered-buffer pool of the fixed-buffer echo server.  A pool of any size hands out
 indices and takes them back; each index names a span of one registered array.
 */
module FixedBuffers {
  import opened Basics

  const BUFFER_SIZE: nat := 128

  datatype Option<T> = None | Some(value: T)

  /** The half-open range of the registered memory that belongs to a buffer index. */
  function Offset(index: nat): nat { index * BUFFER_SIZE }

  lemma SpansDisjoint(i: nat, j: nat)
    requires i != j
    ensures Offset(i) + BUFFER_SIZE <= Offset(j) || Offset(j) + BUFFER_SIZE <= Offset(i)
  {
  }

  class FixedBufferPool {
    const count: nat
    var registered: bool
    var memory: array<byte>
    var free: seq<nat>

    ghost predicate Valid()
      reads this
    {
      && memory.Length == count * BUFFER_SIZE
      && Distinct(free) && (forall k :: 0 <= k < |free| ==> free[k] < count)
      && (!registered ==> free == [])
    }

    /** `ok` is whether the kernel accepted the registration of the buffers. */
    constructor (n: nat, ok: bool)
      ensures Valid() && fresh(memory) && count == n && registered == ok
      ensures ok ==> forall i :: i in free <==> 0 <= i < n
      ensures ok ==> |free| == n && forall k :: 0 <= k < n ==> free[k] == n - 1 - k
    {
      count := n;
      registered := ok;
      memory := new byte[n * BUFFER_SIZE](_ => 0);
      var indices: seq<nat> := [];
      if ok {
        var i := 0;
        while i < n
          invariant 0 <= i <= n && |indices| == i
          invariant forall k :: 0 <= k < i ==> indices[k] == n - 1 - k
        {
          indices := indices + [n - 1 - i];
          i := i + 1;
        }
        forall j | 0 <= j < n
          ensures j in indices
        {
          assert indices[n - 1 - j] == j;
        }
      }
      free := indices;
    }

    /** The index released last, if buffers are registered and one is free. */
    method Acquire() returns (index: Option<nat>)
      requires Valid()
      modifies `free
      ensures Valid()
      ensures index.None? <==> old(free) == []
      ensures index.None? ==> free == old(free)
      ensures index.Some? ==> old(free) == free + [index.value] && index.value < count && index.value !in free
    {
      if !registered || free == [] {
        return None;
      }
      index := Some(free[|free| - 1]);
      free := free[..|free| - 1];
    }

    method Release(index: nat)
      requires Valid() && index < count && index !in free
      modifies `free
      ensures Valid() && free == if registered then old(free) + [index] else old(free)
    {
      if registered {
        free := free + [index];
      }
    }
  }

  lemma WithinMemory(i: nat, count: nat)
    requires i < count
    ensures Offset(i) + BUFFER_SIZE <= count * BUFFER_SIZE
  {
  }
}
