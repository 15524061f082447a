/**
 * Bytecode chunks: the instruction set, and the container holding a code
 * stream, its parallel line map and a constant pool (initChunk, writeChunk,
 * addConstant, freeChunk).
 */
module Chunks {
  import opened Wrappers
  import opened Values
  import Memory
  import opened ValueArrays

  newtype byte = x: int | 0 <= x < 256

  /** The instruction set, numbered in declaration order from 0. */
  datatype OpCode =
    | OpConstant
    | OpAdd
    | OpSubtract
    | OpMultiply
    | OpDivide
    | OpNegate
    | OpReturn

  const OpCodeCount: byte := 7

  function Encode(op: OpCode): (b: byte)
    ensures b < OpCodeCount
  {
    match op
    case OpConstant => 0
    case OpAdd => 1
    case OpSubtract => 2
    case OpMultiply => 3
    case OpDivide => 4
    case OpNegate => 5
    case OpReturn => 6
  }

  /** The instruction a byte encodes, if any. */
  function Decode(b: byte): (r: Option<OpCode>)
    ensures r.Some? <==> b < OpCodeCount
    ensures r.Some? ==> Encode(r.value) == b
  {
    if b == 0 then Some(OpConstant)
    else if b == 1 then Some(OpAdd)
    else if b == 2 then Some(OpSubtract)
    else if b == 3 then Some(OpMultiply)
    else if b == 4 then Some(OpDivide)
    else if b == 5 then Some(OpNegate)
    else if b == 6 then Some(OpReturn)
    else None
  }

  lemma DecodeEncode(op: OpCode)
    ensures Decode(Encode(op)) == Some(op)
  {
  }

  /** Operand bytes following the opcode: one constant-pool index for OpConstant. */
  function OperandCount(op: OpCode): (n: nat)
    ensures n <= 1
    ensures n == 1 <==> op == OpConstant
  {
    if op == OpConstant then 1 else 0
  }

  class Chunk {
    var count: nat
    var capacity: nat
    var code: array?<byte>
    var lines: array?<int>
    const constants: ValueArray
    ghost var Repr: set<object>

    /**
     * `code` and `lines` are allocated together, both with `capacity`
     * slots, and both hold `count` meaningful entries; the constant pool
     * is a valid value array of its own.
     */
    ghost predicate Allocated()
      reads this, Repr
    {
      && this in Repr
      && constants in Repr && constants.Repr <= Repr && this !in constants.Repr
      && constants.Valid()
      && count <= capacity
      && (code == null <==> capacity == 0)
      && (lines == null <==> capacity == 0)
      && (code != null ==> code in Repr && code !in constants.Repr && code.Length == capacity)
      && (lines != null ==> lines in Repr && lines !in constants.Repr && lines.Length == capacity)
    }

    /** Besides, the capacity is the one the growth policy gives for `count` appends. */
    ghost predicate Valid()
      reads this, Repr
    {
      Allocated() && capacity == Memory.CapacityAfter(count)
    }

    /** The bytes written so far. */
    ghost function Code(): (s: seq<byte>)
      reads this, Repr
      requires Allocated()
      ensures |s| == count
    {
      if code == null then [] else code[..count]
    }

    /** The source line of each byte written so far. */
    ghost function Lines(): (s: seq<int>)
      reads this, Repr
      requires Allocated()
      ensures |s| == count
    {
      if lines == null then [] else lines[..count]
    }

    /** The constant pool, in insertion order. */
    ghost function Constants(): seq<Value>
      reads this, Repr
      requires Allocated()
    {
      constants.Contents()
    }

    /** initChunk: no storage and an empty constant pool. */
    constructor ()
      ensures Valid() && fresh(Repr)
      ensures count == 0 && capacity == 0 && code == null && lines == null
      ensures constants.count == 0
      ensures Code() == [] && Lines() == [] && Constants() == []
    {
      count := 0;
      capacity := 0;
      code := null;
      lines := null;
      var pool := new ValueArray();
      constants := pool;
      Repr := {this} + pool.Repr;
    }

    /**
     * writeChunk: appends `b` to the code and `line` to the line map at the
     * same index, growing both together when they are full.
     */
    method Write(b: byte, line: int)
      requires Valid()
      modifies Repr
      ensures Valid() && fresh(Repr - old(Repr))
      ensures Code() == old(Code()) + [b]
      ensures Lines() == old(Lines()) + [line]
      ensures Constants() == old(Constants())
      ensures count == old(count) + 1 && count <= capacity
    {
      Memory.CapacityAfterBounds(count);
      if capacity < count + 1 {
        Grow();
      }
      Store(b, line);
    }

    /** The growth step of writeChunk: both buffers move to the next capacity together. */
    method Grow()
      requires Valid() && count == capacity
      modifies this
      ensures Allocated() && fresh(Repr - old(Repr))
      ensures count == old(count) < capacity == Memory.GrowCapacity(old(capacity))
      ensures Code() == old(Code()) && Lines() == old(Lines())
      ensures Constants() == old(Constants())
    {
      var oldCapacity := capacity;
      var oldCode, oldLines := code, lines;
      capacity := Memory.GrowCapacity(oldCapacity);
      code := Memory.Reallocate(oldCode, oldCapacity, capacity);
      lines := Memory.Reallocate(oldLines, oldCapacity, capacity);
      Repr := Repr + {code as object, lines as object};
      assert oldCode != null ==> code[..count] == oldCode[..count];
      assert oldLines != null ==> lines[..count] == oldLines[..count];
    }

    /** The store step of writeChunk, once there is room. */
    method Store(b: byte, line: int)
      requires Allocated() && count < capacity
      modifies this`count, code, lines
      ensures Allocated() && count == old(count) + 1
      ensures Code() == old(Code()) + [b]
      ensures Lines() == old(Lines()) + [line]
      ensures Constants() == old(Constants())
    {
      code[count] := b;
      lines[count] := line;
      count := count + 1;
    }

    /**
     * addConstant: appends `v` to the constant pool and returns its index,
     * which is the number of constants added before it.
     */
    method AddConstant(v: Value) returns (index: nat)
      requires Valid()
      modifies Repr
      ensures Valid() && fresh(Repr - old(Repr))
      ensures index == |old(Constants())|
      ensures Constants() == old(Constants()) + [v]
      ensures Code() == old(Code()) && Lines() == old(Lines())
    {
      constants.Write(v);
      Repr := Repr + constants.Repr;
      index := constants.count - 1;
    }

    /** freeChunk: releases all three buffers and returns to the initial state. */
    method Free()
      requires Valid()
      modifies Repr
      ensures Valid()
      ensures count == 0 && capacity == 0 && code == null && lines == null
      ensures Code() == [] && Lines() == [] && Constants() == []
    {
      constants.Free();
      code := null;
      lines := null;
      count := 0;
      capacity := 0;
      Repr := {this} + constants.Repr;
    }
  }

  /**
   * Writing bytes with their lines one pair at a time: code and line map
   * stay parallel and keep call order.
   */
  method WriteAll(c: Chunk, bytes: seq<byte>, lines: seq<int>)
    requires c.Valid()
    requires |bytes| == |lines|
    modifies c.Repr
    ensures c.Valid() && fresh(c.Repr - old(c.Repr))
    ensures c.Code() == old(c.Code()) + bytes
    ensures c.Lines() == old(c.Lines()) + lines
    ensures c.Constants() == old(c.Constants())
    ensures c.count == old(c.count) + |bytes| && c.count <= c.capacity
  {
    var i := 0;
    while i < |bytes|
      invariant 0 <= i <= |bytes|
      invariant c.Valid() && fresh(c.Repr - old(c.Repr))
      invariant c.Code() == old(c.Code()) + bytes[..i]
      invariant c.Lines() == old(c.Lines()) + lines[..i]
      invariant c.Constants() == old(c.Constants())
      invariant c.count == old(c.count) + i
    {
      c.Write(bytes[i], lines[i]);
      i := i + 1;
    }
    assert bytes[..i] == bytes && lines[..i] == lines;
    Memory.CapacityAfterBounds(c.count);
  }
}
