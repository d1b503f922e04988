/** The stack-based virtual machine that runs a chunk. */
module Vm {
  import opened Values
  import opened Chunks

  datatype InterpretResult = Ok | CompileError | RuntimeError

  predicate IsBinary(op: OpCode) {
    op == Add || op == Sub || op == Mul || op == Div || op == Mod
  }

  /** How many values an instruction pops off the stack. */
  function Pops(op: OpCode): nat {
    match op
    case Return | Negate => 1
    case Constant(_) => 0
    case Add | Sub | Mul | Div | Mod => 2
  }

  /** How many values an instruction pushes onto the stack. */
  function Pushes(op: OpCode): nat {
    if op == Return then 0 else 1
  }

  /** The arithmetic of the binary instructions as the interpreter does it:
      `lhs` is the lower of the two values, `rhs` the top, and `Mul` adds. */
  function ApplyBinary(op: OpCode, lhs: real, rhs: real): (r: real)
    requires IsBinary(op)
    ensures op == Add || op == Mul ==> r == lhs + rhs
    ensures op == Sub ==> r == lhs - rhs
    ensures op == Div ==> r == Quotient(lhs, rhs)
    ensures op == Mod ==> r == Remainder(lhs, rhs)
  {
    if op == Add then lhs + rhs
    else if op == Sub then lhs - rhs
    else if op == Mul then lhs + rhs
    else if op == Div then Quotient(lhs, rhs)
    else Remainder(lhs, rhs)
  }

  /** The arithmetic as evidently intended: `Mul` multiplies. */
  function ApplyBinaryIntended(op: OpCode, lhs: real, rhs: real): (r: real)
    requires IsBinary(op)
    ensures op == Add ==> r == lhs + rhs
    ensures op == Sub ==> r == lhs - rhs
    ensures op == Mul ==> r == lhs * rhs
    ensures op == Div ==> r == Quotient(lhs, rhs)
    ensures op == Mod ==> r == Remainder(lhs, rhs)
  {
    if op == Add then lhs + rhs
    else if op == Sub then lhs - rhs
    else if op == Mul then lhs * rhs
    else if op == Div then Quotient(lhs, rhs)
    else Remainder(lhs, rhs)
  }

  /** `Mul` of 2 and 3 gives 5, where the product is 6; every other
      instruction agrees with the intended arithmetic. */
  lemma MulAddsAsWritten(op: OpCode, lhs: real, rhs: real)
    requires IsBinary(op)
    ensures ApplyBinary(Mul, 2.0, 3.0) == 5.0 && ApplyBinaryIntended(Mul, 2.0, 3.0) == 6.0
    ensures op != Mul ==> ApplyBinary(op, lhs, rhs) == ApplyBinaryIntended(op, lhs, rhs)
  {
  }

  /** Whether an instruction can run without a panic: enough values on the
      stack for what it pops, and a constant index inside the pool. */
  predicate CanRun(op: OpCode, constants: seq<Value>, depth: nat) {
    depth >= Pops(op) && (op.Constant? ==> op.index < |constants|)
  }

  /** The stack after one instruction other than `Return`. */
  function Execute(op: OpCode, constants: seq<Value>, stack: seq<Value>): (r: seq<Value>)
    requires op != Return && CanRun(op, constants, |stack|)
    ensures |r| == |stack| - Pops(op) + 1
    ensures forall k :: 0 <= k < |stack| - Pops(op) ==> r[k] == stack[k]
  {
    match op
    case Negate => stack[..|stack| - 1] + [Number(-stack[|stack| - 1].n)]
    case Constant(i) => stack + [constants[i]]
    case Add | Sub | Mul | Div | Mod =>
      stack[..|stack| - 2] + [Number(ApplyBinary(op, stack[|stack| - 2].n, stack[|stack| - 1].n))]
  }

  /** What one instruction leaves on top of the stack: the negation of the
      old top, the constant at the index, or the result of the arithmetic on
      the two old top values, `lhs` below `rhs`. */
  lemma ExecuteTop(op: OpCode, constants: seq<Value>, stack: seq<Value>)
    requires op != Return && CanRun(op, constants, |stack|)
    ensures var r := Execute(op, constants, stack); var n := |stack|;
      (op == Negate ==> r[n - 1] == Number(-stack[n - 1].n)) &&
      (op.Constant? ==> r[n] == constants[op.index]) &&
      (IsBinary(op) ==> r[n - 2] == Number(ApplyBinary(op, stack[n - 2].n, stack[n - 1].n)))
  {
  }

  /** The run from instruction `pc` with a stack of `depth` values never
      panics: it stops at the end of the code or just after a `Return`. */
  predicate Runs(code: seq<OpCode>, constants: seq<Value>, pc: nat, depth: nat)
    decreases if pc < |code| then |code| - pc else 0
  {
    pc >= |code| ||
    (CanRun(code[pc], constants, depth) &&
     (code[pc] == Return || Runs(code, constants, pc + 1, depth - Pops(code[pc]) + Pushes(code[pc]))))
  }

  /** The cursor and the stack of the machine. */
  datatype Machine = Machine(pc: nat, stack: seq<Value>)

  /** The machine after running from `pc`: to the end of the code, or to
      just after the first `Return`, which pops one value and stops. */
  function Exec(code: seq<OpCode>, constants: seq<Value>, pc: nat, stack: seq<Value>): Machine
    requires Runs(code, constants, pc, |stack|)
    decreases if pc < |code| then |code| - pc else 0
  {
    if pc >= |code| then Machine(pc, stack)
    else if code[pc] == Return then Machine(pc + 1, stack[..|stack| - 1])
    else Exec(code, constants, pc + 1, Execute(code[pc], constants, stack))
  }

  /** One step of a run: an instruction other than `Return` can run, and the
      run goes on from the next instruction with the stack it leaves. */
  lemma ExecStep(code: seq<OpCode>, constants: seq<Value>, pc: nat, stack: seq<Value>)
    requires pc < |code| && code[pc] != Return && Runs(code, constants, pc, |stack|)
    ensures CanRun(code[pc], constants, |stack|)
    ensures var next := Execute(code[pc], constants, stack);
      Runs(code, constants, pc + 1, |next|) && Exec(code, constants, pc + 1, next) == Exec(code, constants, pc, stack)
  {
  }

  /** A `Return` ends the run and pops the top of the stack. */
  lemma ExecReturn(code: seq<OpCode>, constants: seq<Value>, pc: nat, stack: seq<Value>)
    requires pc < |code| && code[pc] == Return && Runs(code, constants, pc, |stack|)
    ensures |stack| >= 1 && Exec(code, constants, pc, stack) == Machine(pc + 1, stack[..|stack| - 1])
  {
  }

  /** The change in stack depth over a run of instructions. */
  function NetEffect(ops: seq<OpCode>): int {
    if ops == [] then 0 else Pushes(ops[0]) - Pops(ops[0]) + NetEffect(ops[1..])
  }

  /** A run stops at the end of the code, or just after a `Return`; no
      `Return` comes before the last instruction run. */
  lemma {:induction false} ExecStops(code: seq<OpCode>, constants: seq<Value>, pc: nat, stack: seq<Value>)
    requires pc <= |code| && Runs(code, constants, pc, |stack|)
    ensures var m := Exec(code, constants, pc, stack);
      pc <= m.pc <= |code| &&
      (m.pc == |code| || (pc < m.pc && code[m.pc - 1] == Return)) &&
      (forall k :: pc <= k < m.pc - 1 ==> code[k] != Return)
    decreases |code| - pc
  {
    if pc < |code| && code[pc] != Return {
      ExecStops(code, constants, pc + 1, Execute(code[pc], constants, stack));
    }
  }

  /** The stack depth at the end of a run is the start depth plus the net
      effect of the instructions run. */
  lemma {:induction false} ExecDepth(code: seq<OpCode>, constants: seq<Value>, pc: nat, stack: seq<Value>)
    requires pc <= |code| && Runs(code, constants, pc, |stack|)
    ensures var m := Exec(code, constants, pc, stack);
      pc <= m.pc <= |code| && |m.stack| == |stack| + NetEffect(code[pc..m.pc])
    decreases |code| - pc
  {
    var m := Exec(code, constants, pc, stack);
    if pc == |code| {
      assert code[pc..m.pc] == [];
    } else if code[pc] == Return {
      assert code[pc..m.pc] == [Return];
    } else {
      ExecDepth(code, constants, pc + 1, Execute(code[pc], constants, stack));
      assert code[pc..m.pc][1..] == code[pc + 1..m.pc];
    }
  }

  /** A run that stops at a `Return` does not look at the instructions after
      it: any code with the same instructions up to there runs the same. */
  lemma {:induction false} ReturnStopsRun(code: seq<OpCode>, code': seq<OpCode>, constants: seq<Value>, pc: nat, stack: seq<Value>, end: nat)
    requires pc <= |code| && Runs(code, constants, pc, |stack|)
    requires Exec(code, constants, pc, stack).pc == end
    requires pc < end <= |code| && end <= |code'| && code[end - 1] == Return
    requires forall k :: pc <= k < end ==> code'[k] == code[k]
    ensures Runs(code', constants, pc, |stack|)
    ensures Exec(code', constants, pc, stack) == Exec(code, constants, pc, stack)
    decreases |code| - pc
  {
    var op := code[pc];
    assert code'[pc] == op;
    if op != Return {
      var next := Execute(op, constants, stack);
      assert Exec(code, constants, pc + 1, next) == Exec(code, constants, pc, stack);
      ReturnStopsRun(code, code', constants, pc + 1, next, end);
    }
  }

  /** The stacks of the demonstration program (push two constants, negate
      the second, add) after each of its first four instructions. */
  lemma DemoStacks(a: Value, b: Value)
    ensures var cs := [a, b];
      Execute(Constant(0), cs, []) == [a] && Execute(Constant(1), cs, [a]) == [a, b] &&
      Execute(Negate, cs, [a, b]) == [a, Number(-b.n)] && Execute(Add, cs, [a, Number(-b.n)]) == [Number(a.n - b.n)]
  {
    var cs := [a, b];
    assert Execute(Constant(1), cs, [a]) == [a] + [b];
    assert Execute(Negate, cs, [a, b]) == [a] + [Number(-b.n)];
  }

  /** Before the `Return` the demonstration program leaves `a - b` alone on
      the stack. */
  lemma DemoBeforeReturn(a: Value, b: Value)
    ensures var code := [Constant(0), Constant(1), Negate, Add];
      Runs(code, [a, b], 0, 0) && Exec(code, [a, b], 0, []) == Machine(4, [Number(a.n - b.n)])
  {
    var code := [Constant(0), Constant(1), Negate, Add];
    var cs := [a, b];
    DemoStacks(a, b);
    assert Runs(code, cs, 3, 2) && Runs(code, cs, 2, 2) && Runs(code, cs, 1, 1);
    assert Exec(code, cs, 3, [a, Number(-b.n)]) == Machine(4, [Number(a.n - b.n)]);
    assert Exec(code, cs, 2, [a, b]) == Machine(4, [Number(a.n - b.n)]);
    assert Exec(code, cs, 1, [a]) == Machine(4, [Number(a.n - b.n)]);
  }

  /** The whole demonstration program ends with the `Return`, which pops the
      result and leaves the stack empty. */
  lemma DemoProgram(a: Value, b: Value)
    ensures var code := [Constant(0), Constant(1), Negate, Add, Return];
      Runs(code, [a, b], 0, 0) && Exec(code, [a, b], 0, []) == Machine(5, [])
  {
    var code := [Constant(0), Constant(1), Negate, Add, Return];
    var cs := [a, b];
    DemoStacks(a, b);
    assert Runs(code, cs, 3, 2) && Runs(code, cs, 2, 2) && Runs(code, cs, 1, 1);
    assert Exec(code, cs, 3, [a, Number(-b.n)]) == Machine(5, []);
    assert Exec(code, cs, 2, [a, b]) == Machine(5, []);
    assert Exec(code, cs, 1, [a]) == Machine(5, []);
  }

  /** Pushing a constant and negating it leaves its negation on the stack. */
  lemma NegateProgram(a: Value)
    ensures Runs([Constant(0), Negate], [a], 0, 0) &&
      Exec([Constant(0), Negate], [a], 0, []) == Machine(2, [Number(-a.n)])
  {
    var code, cs := [Constant(0), Negate], [a];
    assert Execute(Constant(0), cs, []) == [a];
    assert Execute(Negate, cs, [a]) == [Number(-a.n)];
    assert Runs(code, cs, 1, 1);
    assert Exec(code, cs, 1, [a]) == Machine(2, [Number(-a.n)]);
  }

  /** Pushing two constants and adding them leaves their sum on the stack. */
  lemma AddProgram(a: Value, b: Value)
    ensures Runs([Constant(0), Constant(1), Add], [a, b], 0, 0) &&
      Exec([Constant(0), Constant(1), Add], [a, b], 0, []) == Machine(3, [Number(a.n + b.n)])
  {
    var code, cs := [Constant(0), Constant(1), Add], [a, b];
    assert Execute(Constant(0), cs, []) == [a];
    assert Execute(Constant(1), cs, [a]) == [a] + [b];
    assert Execute(Add, cs, [a, b]) == [Number(a.n + b.n)];
    assert Runs(code, cs, 2, 2) && Runs(code, cs, 1, 1);
    assert Exec(code, cs, 2, [a, b]) == Machine(3, [Number(a.n + b.n)]);
    assert Exec(code, cs, 1, [a]) == Machine(3, [Number(a.n + b.n)]);
  }

  /** Pushing two constants and multiplying them leaves their sum on the
      stack, as the interpreter is written. */
  lemma MulProgram(a: Value, b: Value)
    ensures Runs([Constant(0), Constant(1), Mul], [a, b], 0, 0) &&
      Exec([Constant(0), Constant(1), Mul], [a, b], 0, []) == Machine(3, [Number(a.n + b.n)])
  {
    var code, cs := [Constant(0), Constant(1), Mul], [a, b];
    assert Execute(Constant(0), cs, []) == [a];
    assert Execute(Constant(1), cs, [a]) == [a] + [b];
    assert Execute(Mul, cs, [a, b]) == [Number(a.n + b.n)];
    assert Runs(code, cs, 2, 2) && Runs(code, cs, 1, 1);
    assert Exec(code, cs, 2, [a, b]) == Machine(3, [Number(a.n + b.n)]);
    assert Exec(code, cs, 1, [a]) == Machine(3, [Number(a.n + b.n)]);
  }

  class VM {
    var instructionIndex: nat
    var stack: seq<Value>

    constructor ()
      ensures instructionIndex == 0 && stack == []
    {
      instructionIndex := 0;
      stack := [];
    }

    /** Pops the top of the stack; an empty stack panics in the source. */
    method PopValue() returns (v: Value)
      requires |stack| > 0
      modifies this
      ensures v == old(stack)[|old(stack)| - 1] && stack == old(stack)[..|old(stack)| - 1]
      ensures instructionIndex == old(instructionIndex)
    {
      v := stack[|stack| - 1];
      stack := stack[..|stack| - 1];
    }

    /** Pops `rhs`, then `lhs`, and returns the result of the instruction. */
    method BinaryOp(op: OpCode) returns (v: Value)
      requires IsBinary(op) && |stack| >= 2
      modifies this
      ensures stack == old(stack)[..|old(stack)| - 2]
      ensures v == Number(ApplyBinary(op, old(stack)[|old(stack)| - 2].n, old(stack)[|old(stack)| - 1].n))
      ensures instructionIndex == old(instructionIndex)
    {
      var rhs := PopValue();
      var lhs := PopValue();
      v := Number(ApplyBinary(op, lhs.n, rhs.n));
    }

    /** The arms of the interpreter's dispatch other than `Return`. */
    method ExecuteInstruction(chunk: Chunk, instruction: OpCode)
      requires instruction != Return && CanRun(instruction, chunk.constants, |stack|)
      modifies this
      ensures stack == Execute(instruction, chunk.constants, old(stack))
      ensures instructionIndex == old(instructionIndex)
    {
      match instruction {
        case Negate =>
          var top := PopValue();
          stack := stack + [Number(-top.n)];
        case Add | Sub | Mul | Div | Mod =>
          var res := BinaryOp(instruction);
          stack := stack + [res];
        case Constant(index) =>
          var constant := chunk.GetConstant(index);
          stack := stack + [constant];
      }
    }

    /** Runs `chunk` from the current instruction until the end of the code
        or a `Return`; the new cursor and stack are those of `Exec`. */
    method Interpret(chunk: Chunk) returns (result: InterpretResult)
      requires Runs(chunk.code, chunk.constants, instructionIndex, |stack|)
      modifies this
      ensures result == Ok
      ensures Machine(instructionIndex, stack) == Exec(chunk.code, chunk.constants, old(instructionIndex), old(stack))
    {
      ghost var code, constants := chunk.code, chunk.constants;
      var n := chunk.CodeNb();
      while instructionIndex < n
        invariant Runs(code, constants, instructionIndex, |stack|)
        invariant Exec(code, constants, instructionIndex, stack) == Exec(code, constants, old(instructionIndex), old(stack))
        decreases n - instructionIndex
      {
        var instruction := chunk.GetInstruction(instructionIndex);
        if instruction == Return {
          ExecReturn(code, constants, instructionIndex, stack);
          instructionIndex := instructionIndex + 1;
          var top := PopValue();
          break;
        }
        ExecStep(code, constants, instructionIndex, stack);
        instructionIndex := instructionIndex + 1;
        ExecuteInstruction(chunk, instruction);
      }
      result := Ok;
    }
  }

  /** The unit test `unary_negate`: 20 pushed and negated leaves -20 on top. */
  method UnaryNegateScenario() returns (top: Value)
    ensures top == Number(-20.0)
  {
    var vm := new VM();
    var chunk := new Chunk();
    var constant := chunk.AddConstant(Number(20.0));
    chunk.WriteOpcode(Constant(constant), 0);
    chunk.WriteOpcode(Negate, 0);
    NegateProgram(Number(20.0));
    assert chunk.code == [Constant(0), Negate] && chunk.constants == [Number(20.0)];
    var result := vm.Interpret(chunk);
    top := vm.PopValue();
  }

  /** The unit test `binary_add`: 10 and 20 pushed and added leaves 30 on top. */
  method BinaryAddScenario() returns (top: Value)
    ensures top == Number(30.0)
  {
    var vm := new VM();
    var chunk := new Chunk();
    var constant := chunk.AddConstant(Number(10.0));
    chunk.WriteOpcode(Constant(constant), 0);
    constant := chunk.AddConstant(Number(20.0));
    chunk.WriteOpcode(Constant(constant), 0);
    chunk.WriteOpcode(Add, 0);
    AddProgram(Number(10.0), Number(20.0));
    assert chunk.code == [Constant(0), Constant(1), Add] && chunk.constants == [Number(10.0), Number(20.0)];
    var result := vm.Interpret(chunk);
    top := vm.PopValue();
  }

  /** 2 and 3 pushed and multiplied leave 5 on top, where the product is 6. */
  method BinaryMulScenario() returns (top: Value)
    ensures top == Number(5.0) && top.n != ApplyBinaryIntended(Mul, 2.0, 3.0)
  {
    var vm := new VM();
    var chunk := new Chunk();
    var constant := chunk.AddConstant(Number(2.0));
    chunk.WriteOpcode(Constant(constant), 0);
    constant := chunk.AddConstant(Number(3.0));
    chunk.WriteOpcode(Constant(constant), 0);
    chunk.WriteOpcode(Mul, 0);
    MulProgram(Number(2.0), Number(3.0));
    assert chunk.code == [Constant(0), Constant(1), Mul] && chunk.constants == [Number(2.0), Number(3.0)];
    var result := vm.Interpret(chunk);
    top := vm.PopValue();
  }
}
