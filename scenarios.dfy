/**
 * The unit-test scenarios of the interpreter, driven through the model:
 * each method performs the calls a test makes, and its postcondition is
 * what the test asserts about the results.
 */
module Scenarios {
  import opened Wrappers
  import opened Values
  import Memory
  import ValueArrays
  import opened Chunks
  import opened VirtualMachine

  /** A block of ten grown to twenty keeps the values written at both ends. */
  method ReallocateExpands() returns (first: int, last: int)
    ensures first == 42 && last == 99
  {
    var block := Memory.Reallocate<int>(null, 0, 10);
    block[0] := 42;
    block[9] := 99;
    var expanded := Memory.Reallocate(block, 10, 20);
    first, last := expanded[0], expanded[9];
    var released := Memory.Reallocate(expanded, 20, 0);
    assert released == null;
  }

  /** A block allocated from nothing is non-null; releasing it gives null. */
  method ReallocateAllocatesAndFrees() returns (obtained: bool, released: bool)
    ensures obtained && released
  {
    var block := Memory.Reallocate<int>(null, 0, 100);
    obtained := block != null;
    var result := Memory.Reallocate(block, 100, 0);
    released := result == null;
  }

  /** One write of 1.2: the count is 1 and the value is at index 0. */
  method ValueArrayAppends() returns (count: nat, contents: seq<Value>)
    ensures count == 1 && contents == [Number(1.2)]
  {
    var a := new ValueArrays.ValueArray();
    a.Write(Number(1.2));
    count := a.count;
    contents := a.values[..a.count];
  }

  /** Writes of 1.2, 3.4 and 5.6: the count is 3 and the values are in order. */
  method ValueArrayMultipleWrites() returns (count: nat, contents: seq<Value>)
    ensures count == 3 && contents == [Number(1.2), Number(3.4), Number(5.6)]
  {
    var a := new ValueArrays.ValueArray();
    a.Write(Number(1.2));
    a.Write(Number(3.4));
    a.Write(Number(5.6));
    count := a.count;
    contents := a.values[..a.count];
  }

  /** A hundred writes of i * 1.5: all kept, in order, across every growth. */
  method ValueArrayManyWrites() returns (count: nat, capacity: nat, contents: seq<Value>)
    ensures count == 100 && capacity >= 100
    ensures |contents| == 100 && forall i | 0 <= i < 100 :: contents[i] == Number(i as real * 1.5)
  {
    var a := new ValueArrays.ValueArray();
    var vs := seq(100, i => Number(i as real * 1.5));
    ValueArrays.WriteAll(a, vs);
    count, capacity := a.count, a.capacity;
    contents := a.values[..a.count];
  }

  /** One write of RETURN on line 123: one byte, with its line beside it. */
  method ChunkAppends() returns (count: nat, code: seq<byte>, lines: seq<int>)
    ensures count == 1 && code == [Encode(OpReturn)] && lines == [123]
  {
    var c := new Chunk();
    c.Write(Encode(OpReturn), 123);
    count := c.count;
    code, lines := c.code[..c.count], c.lines[..c.count];
  }

  /** RETURN, CONSTANT and ADD on lines 1, 2 and 3: bytes and lines in call order. */
  method ChunkMultipleWrites() returns (count: nat, code: seq<byte>, lines: seq<int>)
    ensures count == 3
    ensures code == [Encode(OpReturn), Encode(OpConstant), Encode(OpAdd)] && lines == [1, 2, 3]
  {
    var c := new Chunk();
    c.Write(Encode(OpReturn), 1);
    c.Write(Encode(OpConstant), 2);
    c.Write(Encode(OpAdd), 3);
    count := c.count;
    code, lines := c.code[..c.count], c.lines[..c.count];
  }

  /** Twenty writes of RETURN on lines 0 to 19: code and line map stay paired. */
  method ChunkManyWrites() returns (count: nat, capacity: nat, code: seq<byte>, lines: seq<int>)
    ensures count == 20 && capacity >= 20
    ensures |code| == 20 && |lines| == 20
    ensures forall i | 0 <= i < 20 :: code[i] == Encode(OpReturn) && lines[i] == i
  {
    var c := new Chunk();
    var bytes := seq(20, _ => Encode(OpReturn));
    var lineNumbers := seq(20, i => i);
    WriteAll(c, bytes, lineNumbers);
    count, capacity := c.count, c.capacity;
    code, lines := c.code[..c.count], c.lines[..c.count];
  }

  /** addConstant hands out 0, 1, 2 in order and the pool keeps the values. */
  method ConstantIndices() returns (i0: nat, i1: nat, i2: nat, pool: seq<Value>)
    ensures i0 == 0 && i1 == 1 && i2 == 2
    ensures pool == [Number(1.2), Number(3.4), Number(5.6)]
  {
    var c := new Chunk();
    i0 := c.AddConstant(Number(1.2));
    i1 := c.AddConstant(Number(3.4));
    i2 := c.AddConstant(Number(5.6));
    pool := c.constants.values[..c.constants.count];
  }

  /** Three pushes then three pops come back in reverse order. */
  method PushPop() returns (a: Value, b: Value, c: Value)
    ensures a == Number(3.5) && b == Number(2.5) && c == Number(1.5)
  {
    var vm := new VM();
    vm.Push(Number(1.5));
    vm.Push(Number(2.5));
    vm.Push(Number(3.5));
    a := vm.Pop();
    b := vm.Pop();
    c := vm.Pop();
  }

  /** One push and pop, then two pushes popped in reverse order. */
  method StackOperations() returns (v: Value, v2: Value, v1: Value)
    ensures v == Number(10.0) && v2 == Number(30.0) && v1 == Number(20.0)
  {
    var vm := new VM();
    vm.Push(Number(10.0));
    v := vm.Pop();
    vm.Push(Number(20.0));
    vm.Push(Number(30.0));
    v2 := vm.Pop();
    v1 := vm.Pop();
  }

  /**
   * Interpreting a chunk on a fresh VM, once the chunk is known to pass the
   * depth check and to halt with `v` on an empty stack: INTERPRET_OK, `v`
   * printed, and the stack empty again.
   */
  method RunChunk(c: Chunk, v: Value) returns (result: InterpretResult, printed: Value, depth: nat)
    requires c.Valid()
    requires SafeFrom(c.Code(), |c.Constants()|, 0, 0)
    requires Execute(c.Code(), c.Constants(), 0, []) == Some(Halt(v, []))
    ensures result == InterpretOk && printed == v && depth == 0
  {
    var vm := new VM();
    result := vm.Interpret(c);
    printed := vm.output[0];
    depth := vm.stackTop;
  }

  /**
   * The chunk of the constant test: addConstant, then CONSTANT with the
   * index it returned, then RETURN, every byte on line 123.
   */
  method ConstantChunk(a: Value) returns (c: Chunk)
    ensures c.Valid() && fresh(c.Repr)
    ensures c.Code() == [Encode(OpConstant), 0, Encode(OpReturn)] && c.Constants() == [a]
    ensures c.Lines() == seq(3, _ => 123)
  {
    c := new Chunk();
    var constant := c.AddConstant(a);
    WriteAll(c, [Encode(OpConstant), constant as byte, Encode(OpReturn)], seq(3, _ => 123));
  }

  /** The constant test: CONSTANT 0, RETURN interprets to INTERPRET_OK and prints the constant. */
  method ConstantExpression(a: Value) returns (result: InterpretResult, printed: Value, depth: nat)
    ensures result == InterpretOk && printed == a && depth == 0
  {
    var c := ConstantChunk(a);
    ConstantProgram(a);
    result, printed, depth := RunChunk(c, a);
  }

  /**
   * The chunk of the add, subtract, multiply and divide tests: two
   * addConstant calls, then the two CONSTANTs with the indices they
   * returned, the instruction and RETURN, every byte on line 123.
   */
  method BinaryChunk(op: OpCode, a: Value, b: Value) returns (c: Chunk)
    ensures c.Valid() && fresh(c.Repr)
    ensures c.Code() == [Encode(OpConstant), 0, Encode(OpConstant), 1, Encode(op), Encode(OpReturn)]
    ensures c.Constants() == [a, b]
    ensures c.Lines() == seq(6, _ => 123)
  {
    c := new Chunk();
    var constant1 := c.AddConstant(a);
    var constant2 := c.AddConstant(b);
    WriteAll(c, [Encode(OpConstant), constant1 as byte, Encode(OpConstant), constant2 as byte, Encode(op), Encode(OpReturn)],
             seq(6, _ => 123));
  }

  /**
   * The add, subtract, multiply and divide tests: two constants, the
   * instruction and RETURN interpret to INTERPRET_OK and print `a op b`.
   */
  method BinaryExpression(op: OpCode, a: Value, b: Value) returns (result: InterpretResult, printed: Value, depth: nat)
    requires IsBinary(op)
    ensures result == InterpretOk && printed == Arithmetic(op, a, b) && depth == 0
  {
    var c := BinaryChunk(op, a, b);
    BinaryProgram(op, a, b);
    result, printed, depth := RunChunk(c, Arithmetic(op, a, b));
  }

  /** The chunk of the negate test: CONSTANT with the returned index, NEGATE, RETURN. */
  method NegateChunk(a: Value) returns (c: Chunk)
    ensures c.Valid() && fresh(c.Repr)
    ensures c.Code() == [Encode(OpConstant), 0, Encode(OpNegate), Encode(OpReturn)] && c.Constants() == [a]
    ensures c.Lines() == seq(4, _ => 123)
  {
    c := new Chunk();
    var constant := c.AddConstant(a);
    WriteAll(c, [Encode(OpConstant), constant as byte, Encode(OpNegate), Encode(OpReturn)], seq(4, _ => 123));
  }

  /** The negate test: CONSTANT 0, NEGATE, RETURN prints the negated constant. */
  method NegateExpression(a: Value) returns (result: InterpretResult, printed: Value, depth: nat)
    ensures result == InterpretOk && printed == Negation(a) && depth == 0
  {
    var c := NegateChunk(a);
    NegateProgram(a);
    result, printed, depth := RunChunk(c, Negation(a));
  }

  /**
   * The chunk of the compound-expression test, built with addConstant and
   * writeChunk, every byte on line 123.
   */
  method CompoundChunk() returns (c: Chunk)
    ensures c.Valid() && fresh(c.Repr)
    ensures c.Code() == [0, 0, 0, 1, 1, 0, 2, 3, 6]
    ensures c.Constants() == [Number(1.2), Number(3.4), Number(5.6)]
    ensures c.Lines() == seq(9, _ => 123)
  {
    c := new Chunk();
    var k1 := c.AddConstant(Number(1.2));
    var k2 := c.AddConstant(Number(3.4));
    var k3 := c.AddConstant(Number(5.6));
    var code: seq<byte> := [Encode(OpConstant), k1 as byte, Encode(OpConstant), k2 as byte, Encode(OpAdd),
                            Encode(OpConstant), k3 as byte, Encode(OpMultiply), Encode(OpReturn)];
    assert code == [0, 0, 0, 1, 1, 0, 2, 3, 6];
    WriteAll(c, code, seq(9, _ => 123));
  }

  /** The run of that chunk: it passes the safety check and returns 25.76. */
  lemma CompoundChunkRuns(code: seq<byte>, pool: seq<Value>)
    requires code == [0, 0, 0, 1, 1, 0, 2, 3, 6]
    requires pool == [Number(1.2), Number(3.4), Number(5.6)]
    ensures SafeFrom(code, |pool|, 0, 0)
    ensures Execute(code, pool, 0, []) == Some(Halt(Number(25.76), []))
  {
    CompoundProgram(Number(1.2), Number(3.4), Number(5.6));
    assert Product(Sum(Number(1.2), Number(3.4)), Number(5.6)) == Number(25.76);
  }

  /**
   * The compound-expression test: the chunk for (1.2 + 3.4) * 5.6
   * interprets to INTERPRET_OK, prints the product, and leaves the stack
   * empty.
   */
  method CompoundExpression() returns (result: InterpretResult, printed: Value, depth: nat)
    ensures result == InterpretOk
    ensures printed == Number(25.76)
    ensures depth == 0
  {
    var c := CompoundChunk();
    CompoundChunkRuns(c.Code(), c.Constants());
    result, printed, depth := RunChunk(c, Number(25.76));
  }
}
