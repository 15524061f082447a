/**
 * The virtual machine: a fixed value stack with push and pop, and the
 * fetch-decode-execute loop that interprets a chunk (initVM, push, pop,
 * interpret, run). The pure functions say what one instruction and a whole
 * run do to a stack of values; the class VM does it in place and is proved
 * to agree with them.
 */
module VirtualMachine {
  import opened Wrappers
  import opened Values
  import opened Chunks

  /** The number of slots of the value stack. */
  const StackMax: nat := 256

  datatype InterpretResult = InterpretOk | InterpretCompileError | InterpretRuntimeError

  // ---------------------------------------------------------------------
  // Stack accounting

  /** How many values an instruction pops before it pushes. */
  function StackNeed(op: OpCode): (need: nat)
    ensures need <= 2
    ensures need + StackEffect(op) == if op == OpReturn then 0 else 1
  {
    match op
    case OpConstant => 0
    case OpAdd => 2
    case OpSubtract => 2
    case OpMultiply => 2
    case OpDivide => 2
    case OpNegate => 1
    case OpReturn => 1
  }

  /** The change of stack depth an instruction makes. */
  function StackEffect(op: OpCode): (effect: int)
    ensures -1 <= effect <= 1
    ensures effect == 1 <==> op == OpConstant
  {
    match op
    case OpConstant => 1
    case OpAdd => -1
    case OpSubtract => -1
    case OpMultiply => -1
    case OpDivide => -1
    case OpNegate => 0
    case OpReturn => -1
  }

  predicate IsBinary(op: OpCode)
  {
    op == OpAdd || op == OpSubtract || op == OpMultiply || op == OpDivide
  }

  /** BINARY_OP: the operator each arithmetic instruction applies to `a` and `b`. */
  function Arithmetic(op: OpCode, a: Value, b: Value): (r: Value)
    requires IsBinary(op)
    ensures a.NaN? || b.NaN? ==> r.NaN?
    ensures a.Number? && b.Number? && (op != OpDivide || b.x != 0.0) ==> r.Number?
  {
    match op
    case OpAdd => Sum(a, b)
    case OpSubtract => Difference(a, b)
    case OpMultiply => Product(a, b)
    case OpDivide => Quotient(a, b)
  }

  /**
   * Whether the instruction at `ip` would go wrong with `depth` values on
   * the stack: pop from too few values, push onto a full stack, or read a
   * constant operand that is missing or outside the pool. It depends on
   * the depth only, never on the values.
   */
  predicate Faults(code: seq<byte>, constCount: nat, ip: nat, depth: nat)
    requires ip < |code|
    ensures Decode(code[ip]).None? ==> !Faults(code, constCount, ip, depth)
    ensures Decode(code[ip]).Some? && Decode(code[ip]).value != OpConstant ==>
      (depth == 0 ==> Faults(code, constCount, ip, depth)) && (depth >= 2 ==> !Faults(code, constCount, ip, depth))
  {
    match Decode(code[ip])
    case None => false
    case Some(op) =>
      || depth < StackNeed(op)
      || (op == OpConstant && (ip + 1 >= |code| || code[ip + 1] as int >= constCount || depth >= StackMax))
  }

  // ---------------------------------------------------------------------
  // One instruction

  datatype Step =
    | Next(ip: nat, stack: seq<Value>)
    | Returned(value: Value, stack: seq<Value>)
    | Fault

  /**
   * One pass of the run loop from `ip`. A byte that is no instruction is
   * skipped, since the switch has no case for it.
   */
  function StepAt(code: seq<byte>, constants: seq<Value>, ip: nat, stack: seq<Value>): (r: Step)
    requires ip < |code|
    ensures r.Fault? <==> Faults(code, |constants|, ip, |stack|)
    ensures Decode(code[ip]).None? ==> r == Next(ip + 1, stack)
    ensures r.Next? ==> ip < r.ip
    ensures r.Next? && Decode(code[ip]).Some? ==>
      var op := Decode(code[ip]).value;
      var kept := |stack| - StackNeed(op);
      && op != OpReturn
      && r.ip == ip + 1 + OperandCount(op)
      && |r.stack| == |stack| + StackEffect(op)
      && 0 <= kept && r.stack[..kept] == stack[..kept]
    ensures r.Returned? <==> Decode(code[ip]) == Some(OpReturn) && |stack| > 0
    ensures r.Returned? ==> r.value == stack[|stack| - 1] && r.stack == stack[..|stack| - 1]
  {
    match Decode(code[ip])
    case None => Next(ip + 1, stack)
    case Some(op) =>
      if |stack| < StackNeed(op) then Fault
      else if op == OpConstant then
        if ip + 1 >= |code| || code[ip + 1] as int >= |constants| || |stack| >= StackMax then Fault
        else Next(ip + 2, stack + [constants[code[ip + 1]]])
      else if op == OpNegate then
        Next(ip + 1, stack[..|stack| - 1] + [Negation(stack[|stack| - 1])])
      else if op == OpReturn then
        Returned(stack[|stack| - 1], stack[..|stack| - 1])
      else
        Next(ip + 1, stack[..|stack| - 2] + [Arithmetic(op, stack[|stack| - 2], stack[|stack| - 1])])
  }

  /** CONSTANT with a valid operand and room on the stack pushes that constant. */
  lemma ConstantStep(code: seq<byte>, constants: seq<Value>, ip: nat, stack: seq<Value>)
    requires ip + 1 < |code| && Decode(code[ip]) == Some(OpConstant)
    requires code[ip + 1] as int < |constants| && |stack| < StackMax
    ensures StepAt(code, constants, ip, stack) == Next(ip + 2, stack + [constants[code[ip + 1]]])
    ensures Execute(code, constants, ip, stack) == Execute(code, constants, ip + 2, stack + [constants[code[ip + 1]]])
  {
  }

  /** An arithmetic instruction replaces the two top values by their result. */
  lemma BinaryStep(code: seq<byte>, constants: seq<Value>, ip: nat, stack: seq<Value>, op: OpCode)
    requires ip < |code| && Decode(code[ip]) == Some(op) && IsBinary(op) && |stack| >= 2
    ensures StepAt(code, constants, ip, stack)
      == Next(ip + 1, stack[..|stack| - 2] + [Arithmetic(op, stack[|stack| - 2], stack[|stack| - 1])])
    ensures Execute(code, constants, ip, stack)
      == Execute(code, constants, ip + 1, stack[..|stack| - 2] + [Arithmetic(op, stack[|stack| - 2], stack[|stack| - 1])])
  {
  }

  /** NEGATE replaces the top value by its negation. */
  lemma NegateStep(code: seq<byte>, constants: seq<Value>, ip: nat, stack: seq<Value>)
    requires ip < |code| && Decode(code[ip]) == Some(OpNegate) && |stack| >= 1
    ensures StepAt(code, constants, ip, stack) == Next(ip + 1, stack[..|stack| - 1] + [Negation(stack[|stack| - 1])])
    ensures Execute(code, constants, ip, stack) == Execute(code, constants, ip + 1, stack[..|stack| - 1] + [Negation(stack[|stack| - 1])])
  {
  }

  /** RETURN on a non-empty stack ends the run with the top value. */
  lemma ReturnStep(code: seq<byte>, constants: seq<Value>, ip: nat, stack: seq<Value>)
    requires ip < |code| && Decode(code[ip]) == Some(OpReturn) && |stack| >= 1
    ensures Execute(code, constants, ip, stack) == Some(Halt(stack[|stack| - 1], stack[..|stack| - 1]))
  {
  }

  // ---------------------------------------------------------------------
  // A whole run

  /** Where a run ends: the value RETURN pops, and the stack below it. */
  datatype Halt = Halt(returned: Value, stack: seq<Value>)

  /**
   * run from `ip`: instructions one after the other until RETURN. None when
   * an instruction faults or the code ends without a RETURN.
   */
  function Execute(code: seq<byte>, constants: seq<Value>, ip: nat, stack: seq<Value>): (r: Option<Halt>)
    ensures r.Some? ==> ip < |code| && !Faults(code, |constants|, ip, |stack|)
    ensures r.Some? ==> exists j | ip <= j < |code| :: code[j] == Encode(OpReturn)
    decreases |code| - ip
  {
    if ip >= |code| then None
    else
      match StepAt(code, constants, ip, stack)
      case Fault => None
      case Returned(v, s) => Some(Halt(v, s))
      case Next(next, s) => Execute(code, constants, next, s)
  }

  /** A run that goes on past an instruction continues from where it leaves off. */
  lemma ExecuteUnfolds(code: seq<byte>, constants: seq<Value>, ip: nat, stack: seq<Value>)
    requires Execute(code, constants, ip, stack).Some?
    ensures ip < |code|
    ensures var r := StepAt(code, constants, ip, stack);
      && (r.Next? ==> Execute(code, constants, ip, stack) == Execute(code, constants, r.ip, r.stack))
      && (r.Returned? ==> Execute(code, constants, ip, stack) == Some(Halt(r.value, r.stack)))
      && !r.Fault?
  {
  }

  /**
   * The safety check: the run from `ip` with `depth` values on the stack
   * reaches a RETURN without faulting. It follows the stack depth, the
   * presence of CONSTANT operands and their bound by the pool size, and
   * never looks at a value.
   */
  predicate SafeFrom(code: seq<byte>, constCount: nat, ip: nat, depth: nat)
    ensures SafeFrom(code, constCount, ip, depth) ==> ip < |code| && !Faults(code, constCount, ip, depth)
    ensures SafeFrom(code, constCount, ip, depth) ==> exists j | ip <= j < |code| :: code[j] == Encode(OpReturn)
    decreases |code| - ip
  {
    && ip < |code|
    && !Faults(code, constCount, ip, depth)
    && match Decode(code[ip])
       case None => SafeFrom(code, constCount, ip + 1, depth)
       case Some(op) =>
         op == OpReturn || SafeFrom(code, constCount, ip + 1 + OperandCount(op), depth + StackEffect(op))
  }

  /**
   * Stack discipline: whether a run succeeds depends only on how deep the
   * stack is, not on the values in it, and the safety check decides it.
   */
  lemma {:induction false} SafeIffExecutes(code: seq<byte>, constants: seq<Value>, ip: nat, stack: seq<Value>)
    ensures SafeFrom(code, |constants|, ip, |stack|) <==> Execute(code, constants, ip, stack).Some?
    decreases |code| - ip
  {
    if ip < |code| && !Faults(code, |constants|, ip, |stack|) {
      var r := StepAt(code, constants, ip, stack);
      if r.Next? {
        SafeIffExecutes(code, constants, r.ip, r.stack);
      }
    }
  }

  /**
   * A run that succeeds leaves everything below the depth it started with
   * alone, up to the lowest depth it reached, and pops exactly one value
   * more than it pushed.
   */
  lemma {:induction false} ExecuteKeepsStackBelow(code: seq<byte>, constants: seq<Value>, ip: nat, stack: seq<Value>, floor: nat)
    requires Execute(code, constants, ip, stack).Some?
    requires floor <= |stack|
    requires LowWater(code, |constants|, ip, |stack|) >= floor
    ensures var h := Execute(code, constants, ip, stack).value;
      floor <= |h.stack| && h.stack[..floor] == stack[..floor]
    decreases |code| - ip
  {
    var r := StepAt(code, constants, ip, stack);
    assert ip < |code| && !r.Fault?;
    match Decode(code[ip])
    case None =>
      assert r == Next(ip + 1, stack);
      assert LowWater(code, |constants|, ip + 1, |stack|) == LowWater(code, |constants|, ip, |stack|);
      ExecuteKeepsStackBelow(code, constants, ip + 1, stack, floor);
    case Some(op) =>
      var kept := |stack| - StackNeed(op);
      assert floor <= kept;
      if r.Next? {
        var s := r.stack;
        assert s[..floor] == s[..kept][..floor];
        assert LowWater(code, |constants|, r.ip, |s|) >= floor;
        ExecuteKeepsStackBelow(code, constants, r.ip, s, floor);
      }
  }

  /**
   * The lowest depth the stack has after any instruction of the run from
   * `ip`, counting the depth after RETURN: the part of the stack below it
   * is never touched.
   */
  function LowWater(code: seq<byte>, constCount: nat, ip: nat, depth: nat): (low: nat)
    ensures low <= depth
    decreases |code| - ip
  {
    if ip >= |code| || Faults(code, constCount, ip, depth) then depth
    else
      match Decode(code[ip])
      case None => LowWater(code, constCount, ip + 1, depth)
      case Some(op) =>
        var after := depth - StackNeed(op);
        if op == OpReturn then after
        else
          var rest := LowWater(code, constCount, ip + 1 + OperandCount(op), depth + StackEffect(op));
          if rest < after then rest else after
  }

  /** CONSTANT 0, RETURN: returns the constant and leaves the stack empty. */
  lemma {:induction false} ConstantProgram(a: Value)
    ensures SafeFrom([Encode(OpConstant), 0, Encode(OpReturn)], 1, 0, 0)
    ensures Execute([Encode(OpConstant), 0, Encode(OpReturn)], [a], 0, []) == Some(Halt(a, []))
  {
    var code: seq<byte> := [0, 0, 6];
    ConstantStep(code, [a], 0, []);
    assert [] + [a] == [a];
    ReturnStep(code, [a], 2, [a]);
    SafeIffExecutes(code, [a], 0, []);
  }

  /**
   * CONSTANT 0, CONSTANT 1, an arithmetic instruction, RETURN: pops both
   * operands, pushes one result, and returns `a op b`.
   */
  lemma {:induction false} BinaryProgram(op: OpCode, a: Value, b: Value)
    requires IsBinary(op)
    ensures SafeFrom([Encode(OpConstant), 0, Encode(OpConstant), 1, Encode(op), Encode(OpReturn)], 2, 0, 0)
    ensures Execute([Encode(OpConstant), 0, Encode(OpConstant), 1, Encode(op), Encode(OpReturn)], [a, b], 0, [])
      == Some(Halt(Arithmetic(op, a, b), []))
  {
    var code: seq<byte> := [0, 0, 0, 1, Encode(op), 6];
    BinaryRuns(code, [a, b], op);
    SafeIffExecutes(code, [a, b], 0, []);
  }

  /** The run of that program, stated over any code with those six bytes. */
  lemma BinaryRuns(code: seq<byte>, pool: seq<Value>, op: OpCode)
    requires IsBinary(op) && |pool| == 2
    requires |code| == 6 && code[0] == 0 && code[1] == 0 && code[2] == 0 && code[3] == 1
    requires code[4] == Encode(op) && code[5] == 6
    ensures Execute(code, pool, 0, []) == Some(Halt(Arithmetic(op, pool[0], pool[1]), []))
  {
    var a, b := pool[0], pool[1];
    DecodeEncode(op);
    ConstantStep(code, pool, 0, []);
    assert [] + [a] == [a];
    ConstantStep(code, pool, 2, [a]);
    assert [a] + [b] == [a, b];
    BinaryStep(code, pool, 4, [a, b], op);
    assert [a, b][..0] + [Arithmetic(op, a, b)] == [Arithmetic(op, a, b)];
    ReturnStep(code, pool, 5, [Arithmetic(op, a, b)]);
  }

  /** CONSTANT 0, NEGATE, RETURN: the depth is unchanged by NEGATE, and -a is returned. */
  lemma {:induction false} NegateProgram(a: Value)
    ensures SafeFrom([Encode(OpConstant), 0, Encode(OpNegate), Encode(OpReturn)], 1, 0, 0)
    ensures Execute([Encode(OpConstant), 0, Encode(OpNegate), Encode(OpReturn)], [a], 0, [])
      == Some(Halt(Negation(a), []))
  {
    var code: seq<byte> := [0, 0, 5, 6];
    ConstantStep(code, [a], 0, []);
    assert [] + [a] == [a];
    NegateStep(code, [a], 2, [a]);
    assert [a][..0] + [Negation(a)] == [Negation(a)];
    ReturnStep(code, [a], 3, [Negation(a)]);
    SafeIffExecutes(code, [a], 0, []);
  }

  /**
   * The program of the compound-expression test, (a + b) * c: the stack
   * never runs dry before ADD or MULTIPLY, and the run returns the product.
   */
  lemma {:induction false} CompoundProgram(a: Value, b: Value, c: Value)
    ensures SafeFrom([0, 0, 0, 1, 1, 0, 2, 3, 6], 3, 0, 0)
    ensures Execute([0, 0, 0, 1, 1, 0, 2, 3, 6], [a, b, c], 0, []) == Some(Halt(Product(Sum(a, b), c), []))
  {
    var code: seq<byte> := [0, 0, 0, 1, 1, 0, 2, 3, 6];
    CompoundRuns(code, [a, b, c]);
    SafeIffExecutes(code, [a, b, c], 0, []);
  }

  /** The run of that program, stated over any code with those nine bytes. */
  lemma CompoundRuns(code: seq<byte>, pool: seq<Value>)
    requires |pool| == 3
    requires |code| == 9 && code[0] == 0 && code[1] == 0 && code[2] == 0 && code[3] == 1 && code[4] == 1
    requires code[5] == 0 && code[6] == 2 && code[7] == 3 && code[8] == 6
    ensures Execute(code, pool, 0, []) == Some(Halt(Product(Sum(pool[0], pool[1]), pool[2]), []))
  {
    var a, b, c := pool[0], pool[1], pool[2];
    var sum := Sum(a, b);
    ConstantStep(code, pool, 0, []);
    assert [] + [a] == [a];
    ConstantStep(code, pool, 2, [a]);
    assert [a] + [b] == [a, b];
    BinaryStep(code, pool, 4, [a, b], OpAdd);
    assert [a, b][..0] + [sum] == [sum];
    ConstantStep(code, pool, 5, [sum]);
    assert [sum] + [c] == [sum, c];
    BinaryStep(code, pool, 7, [sum, c], OpMultiply);
    assert [sum, c][..0] + [Product(sum, c)] == [Product(sum, c)];
    ReturnStep(code, pool, 8, [Product(sum, c)]);
  }

  // ---------------------------------------------------------------------
  // The machine

  class VM {
    var chunk: Chunk?
    var ip: nat
    const stack: array<Value>
    var stackTop: nat
    /** The values RETURN printed, in order. */
    var output: seq<Value>

    ghost predicate Valid()
      reads this
    {
      stack.Length == StackMax && stackTop <= StackMax
    }

    /** The values on the stack, bottom first. */
    ghost function Stack(): (s: seq<Value>)
      reads this, stack
      requires Valid()
      ensures |s| == stackTop
    {
      stack[..stackTop]
    }

    /** initVM: an empty stack and no chunk. */
    constructor ()
      ensures Valid() && fresh(stack)
      ensures stackTop == 0 && Stack() == [] && chunk == null && output == []
    {
      stack := new Value[StackMax](_ => Number(0.0));
      stackTop := 0;
      chunk := null;
      ip := 0;
      output := [];
    }

    /** initVM on a machine in use: resetStack. */
    method Init()
      requires Valid()
      modifies this`stackTop
      ensures Valid() && stackTop == 0 && Stack() == []
      ensures chunk == old(chunk) && output == old(output) && ip == old(ip)
    {
      stackTop := 0;
    }

    /** push: stores `v` in the top slot; the caller keeps the stack from overflowing. */
    method Push(v: Value)
      requires Valid() && stackTop < StackMax
      modifies this`stackTop, stack
      ensures Valid() && Stack() == old(Stack()) + [v]
    {
      stack[stackTop] := v;
      stackTop := stackTop + 1;
    }

    /** pop: removes and returns the top value; the caller keeps the stack non-empty. */
    method Pop() returns (v: Value)
      requires Valid() && stackTop > 0
      modifies this`stackTop
      ensures Valid()
      ensures v == old(Stack())[old(stackTop) - 1] && Stack() == old(Stack())[..old(stackTop) - 1]
    {
      stackTop := stackTop - 1;
      v := stack[stackTop];
    }

    /** BINARY_OP: pops `b`, then `a`, and pushes `a op b`. */
    method BinaryOp(op: OpCode)
      requires Valid() && IsBinary(op) && stackTop >= 2
      modifies this`stackTop, stack
      ensures Valid()
      ensures var s := old(Stack());
        Stack() == s[..|s| - 2] + [Arithmetic(op, s[|s| - 2], s[|s| - 1])]
    {
      var b := Pop();
      var a := Pop();
      Push(Arithmetic(op, a, b));
    }

    /** READ_BYTE: the byte at the instruction pointer, which moves past it. */
    method ReadByte() returns (b: byte)
      requires chunk != null && chunk.Allocated() && ip < chunk.count
      modifies this`ip
      ensures b == chunk.Code()[old(ip)] && ip == old(ip) + 1
    {
      b := chunk.code[ip];
      ip := ip + 1;
    }

    /** READ_CONSTANT: the constant whose index is the byte at the instruction pointer. */
    method ReadConstant() returns (v: Value)
      requires chunk != null && chunk.Allocated() && ip < chunk.count
      requires chunk.Code()[ip] as int < |chunk.Constants()|
      modifies this`ip
      ensures v == chunk.Constants()[chunk.Code()[old(ip)]] && ip == old(ip) + 1
    {
      var index := ReadByte();
      v := chunk.constants.values[index];
    }

    /**
     * interpret: points the machine at `c` and runs it from its first byte.
     * The caller hands over a chunk the safety check accepts.
     */
    method Interpret(c: Chunk) returns (result: InterpretResult)
      requires Valid() && c.Valid() && stack !in c.Repr && this !in c.Repr
      requires SafeFrom(c.Code(), |c.Constants()|, 0, stackTop)
      modifies this, stack
      ensures Valid() && chunk == c && c.Valid()
      ensures c.Code() == old(c.Code()) && c.Constants() == old(c.Constants())
      ensures result == InterpretOk
      ensures Execute(c.Code(), c.Constants(), 0, old(Stack())).Some?
      ensures var h := Execute(c.Code(), c.Constants(), 0, old(Stack())).value;
        Stack() == h.stack && output == old(output) + [h.returned]
    {
      chunk := c;
      ip := 0;
      result := Run();
    }

    /** run: the fetch-decode-execute loop, until RETURN. */
    method Run() returns (result: InterpretResult)
      requires Valid() && chunk != null && chunk.Valid() && stack !in chunk.Repr && this !in chunk.Repr
      requires SafeFrom(chunk.Code(), |chunk.Constants()|, ip, stackTop)
      modifies this`ip, this`stackTop, this`output, stack
      ensures Valid() && chunk.Valid()
      ensures result == InterpretOk
      ensures Execute(chunk.Code(), chunk.Constants(), old(ip), old(Stack())).Some?
      ensures var h := Execute(chunk.Code(), chunk.Constants(), old(ip), old(Stack())).value;
        Stack() == h.stack && output == old(output) + [h.returned]
    {
      ghost var code := chunk.Code();
      ghost var constants := chunk.Constants();
      SafeIffExecutes(code, constants, ip, Stack());
      ghost var halt := Execute(code, constants, ip, Stack()).value;
      while true
        invariant Valid() && chunk.Valid()
        invariant chunk.Code() == code && chunk.Constants() == constants
        invariant Execute(code, constants, ip, Stack()) == Some(halt)
        invariant output == old(output)
        decreases |code| - ip
      {
        ExecuteUnfolds(code, constants, ip, Stack());
        var instruction := ReadByte();
        if Decode(instruction) == Some(OpReturn) {
          var v := Pop();
          output := output + [v];
          return InterpretOk;
        }
        Dispatch(Decode(instruction));
      }
    }

    /**
     * The cases of the switch in run other than RETURN, once the opcode
     * byte is read: each does what one step of the run says.
     */
    method Dispatch(op: Option<OpCode>)
      requires Valid() && chunk != null && chunk.Valid() && stack !in chunk.Repr && this !in chunk.Repr
      requires 0 < ip <= chunk.count && Decode(chunk.Code()[ip - 1]) == op && op != Some(OpReturn)
      requires !Faults(chunk.Code(), |chunk.Constants()|, ip - 1, stackTop)
      modifies this`ip, this`stackTop, stack
      ensures Valid()
      ensures StepAt(chunk.Code(), chunk.Constants(), old(ip) - 1, old(Stack())) == Next(ip, Stack())
    {
      match op
      case None =>
      case Some(OpConstant) =>
        var constant := ReadConstant();
        Push(constant);
      case Some(OpAdd) => BinaryOp(OpAdd);
      case Some(OpSubtract) => BinaryOp(OpSubtract);
      case Some(OpMultiply) => BinaryOp(OpMultiply);
      case Some(OpDivide) => BinaryOp(OpDivide);
      case Some(OpNegate) =>
        var a := Pop();
        Push(Negation(a));
    }
  }
}
