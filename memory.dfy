/**
 * The growth policy and the reallocation primitive shared by every growable
 * buffer of the interpreter: the bytecode stream, its line map and the
 * constant pool.
 */
module Memory {

  /** GROW_CAPACITY: a buffer below eight slots grows to eight, any other doubles. */
  function GrowCapacity(capacity: nat): (r: nat)
    ensures capacity < r
    ensures 8 <= r
    ensures OnGrowthPath(capacity) || capacity == 0 ==> OnGrowthPath(r)
  {
    if capacity < 8 then 8 else capacity * 2
  }

  /** The capacities a buffer can have once it holds something: 8, 16, 32, ... */
  predicate OnGrowthPath(capacity: nat)
    decreases capacity
  {
    capacity == 8 || (capacity > 8 && capacity % 2 == 0 && OnGrowthPath(capacity / 2))
  }

  /**
   * The capacity of a buffer that started empty and received `count` appends,
   * each of which grew it first when it was full.
   */
  function CapacityAfter(count: nat): (c: nat)
    ensures count <= c
    ensures c == 0 <==> count == 0
  {
    if count == 0 then 0
    else
      var c := CapacityAfter(count - 1);
      if c < count then GrowCapacity(c) else c
  }

  /**
   * Appending never outruns the buffer, the capacity is always one of the
   * growth policy's values, and it never exceeds twice what is needed.
   */
  lemma {:induction false} CapacityAfterBounds(count: nat)
    ensures count <= CapacityAfter(count)
    ensures count == 0 ==> CapacityAfter(count) == 0
    ensures count > 0 ==> OnGrowthPath(CapacityAfter(count))
    ensures count > 0 ==> CapacityAfter(count) <= 8 || CapacityAfter(count) <= 2 * count - 2
  {
    if count > 0 {
      CapacityAfterBounds(count - 1);
    }
  }

  /**
   * The reallocation primitive, counted in elements rather than bytes.
   * Asking for zero elements releases the block and gives back null; any
   * other request gives a block of the new size that keeps the first
   * min(oldSize, newSize) elements.
   */
  method Reallocate<T(0)>(block: array?<T>, oldSize: nat, newSize: nat) returns (r: array?<T>)
    requires block == null ==> oldSize == 0
    requires block != null ==> block.Length == oldSize
    ensures r == null <==> newSize == 0
    ensures r != null ==> fresh(r) && r.Length == newSize
    ensures r != null ==> forall i :: 0 <= i < oldSize && i < newSize ==> r[i] == block[i]
  {
    if newSize == 0 {
      return null;
    }
    r := new T[newSize];
    var keep := if oldSize < newSize then oldSize else newSize;
    var i := 0;
    while i < keep
      invariant 0 <= i <= keep
      invariant forall j :: 0 <= j < i ==> r[j] == block[j]
    {
      r[i] := block[i];
      i := i + 1;
    }
  }

  /** The capacities the growth policy produces for the sizes the buffers start from. */
  lemma GrowCapacityExamples()
    ensures GrowCapacity(0) == 8
    ensures GrowCapacity(8) == 16 && GrowCapacity(16) == 32
    ensures GrowCapacity(64) == 128 && GrowCapacity(256) == 512
  {
  }
}
