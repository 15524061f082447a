/**
 * The growable array of values that backs a chunk's constant pool
 * (initValueArray, writeValueArray, freeValueArray).
 */
module ValueArrays {
  import opened Values
  import Memory

  class ValueArray {
    var count: nat
    var capacity: nat
    var values: array?<Value>
    ghost var Repr: set<object>

    /**
     * `values` is null exactly while nothing was allocated, holds
     * `capacity` slots otherwise, and the capacity is the one the growth
     * policy gives for `count` appends.
     */
    ghost predicate Valid()
      reads this, Repr
    {
      && this in Repr
      && count <= capacity
      && capacity == Memory.CapacityAfter(count)
      && (values == null <==> capacity == 0)
      && (values == null ==> Repr == {this})
      && (values != null ==> Repr == {this, values} && values.Length == capacity)
    }

    /** The values written so far, in the order they were written. */
    ghost function Contents(): (s: seq<Value>)
      reads this, Repr
      requires Valid()
      ensures |s| == count
    {
      if values == null then [] else values[..count]
    }

    /** initValueArray: no storage, nothing stored. */
    constructor ()
      ensures Valid() && fresh(Repr)
      ensures count == 0 && capacity == 0 && values == null
      ensures Contents() == []
    {
      count := 0;
      capacity := 0;
      values := null;
      Repr := {this};
    }

    /**
     * writeValueArray: stores `v` at index `count`, growing the storage
     * first when it is full; earlier values survive the growth.
     */
    method Write(v: Value)
      requires Valid()
      modifies Repr
      ensures Valid() && fresh(Repr - old(Repr))
      ensures Contents() == old(Contents()) + [v]
      ensures count == old(count) + 1 && count <= capacity
      ensures old(count) < old(capacity) ==> values == old(values) && capacity == old(capacity)
    {
      Memory.CapacityAfterBounds(count);
      if capacity < count + 1 {
        var oldCapacity := capacity;
        capacity := Memory.GrowCapacity(oldCapacity);
        values := Memory.Reallocate(values, oldCapacity, capacity);
        Repr := {this, values};
      }
      values[count] := v;
      count := count + 1;
    }

    /** freeValueArray: releases the storage and returns to the initial state. */
    method Free()
      requires Valid()
      modifies this
      ensures Valid() && Repr == {this}
      ensures count == 0 && capacity == 0 && values == null
      ensures Contents() == []
    {
      values := null;
      count := 0;
      capacity := 0;
      Repr := {this};
    }
  }

  /**
   * Writing a sequence of values one at a time: the i-th value written is
   * found at index old count + i, and the capacity covers them all.
   */
  method WriteAll(a: ValueArray, vs: seq<Value>)
    requires a.Valid()
    modifies a.Repr
    ensures a.Valid() && fresh(a.Repr - old(a.Repr))
    ensures a.Contents() == old(a.Contents()) + vs
    ensures a.count == old(a.count) + |vs| && a.count <= a.capacity
  {
    var i := 0;
    while i < |vs|
      invariant 0 <= i <= |vs|
      invariant a.Valid() && fresh(a.Repr - old(a.Repr))
      invariant a.Contents() == old(a.Contents()) + vs[..i]
      invariant a.count == old(a.count) + i
    {
      a.Write(vs[i]);
      i := i + 1;
    }
    assert vs[..i] == vs;
    Memory.CapacityAfterBounds(a.count);
  }
}
