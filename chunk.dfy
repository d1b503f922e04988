/** A chunk of bytecode: the instructions, the constant pool they index into,
    and the source line of each instruction. */
module Chunks {
  import opened Values

  /** An instruction. `Constant` carries an index into the constant pool. */
  datatype OpCode = Return | Negate | Add | Sub | Mul | Div | Mod | Constant(index: nat)

  class Chunk {
    var code: seq<OpCode>
    var constants: seq<Value>
    var lines: seq<nat>

    /** Every instruction has its line. */
    ghost predicate Valid()
      reads this
    {
      |code| == |lines|
    }

    constructor ()
      ensures Valid()
      ensures code == [] && constants == [] && lines == []
    {
      code := [];
      constants := [];
      lines := [];
    }

    /** Appends an instruction and its line; the constant pool is untouched. */
    method WriteOpcode(op: OpCode, line: nat)
      modifies this
      ensures code == old(code) + [op] && lines == old(lines) + [line]
      ensures constants == old(constants)
      ensures old(Valid()) ==> Valid()
    {
      code := code + [op];
      lines := lines + [line];
    }

    /** Appends a value to the constant pool and returns its index; the code
        and lines are untouched. */
    method AddConstant(value: Value) returns (index: nat)
      modifies this
      ensures index == |old(constants)| && constants == old(constants) + [value]
      ensures index < |constants| && constants[index] == value
      ensures code == old(code) && lines == old(lines)
    {
      constants := constants + [value];
      index := |constants| - 1;
    }

    /** The number of instructions. */
    method CodeNb() returns (n: nat)
      ensures n == |code|
    {
      n := |code|;
    }

    /** The instruction at `index`; an index out of range panics in the
        source, so it is a precondition here. In a valid chunk the
        instruction has a line. */
    method GetInstruction(index: nat) returns (op: OpCode)
      requires index < |code|
      ensures op == code[index]
      ensures Valid() ==> index < |lines|
    {
      op := code[index];
    }

    /** The constant at `index`; an index out of range panics. */
    method GetConstant(index: nat) returns (value: Value)
      requires index < |constants|
      ensures value == constants[index]
    {
      value := constants[index];
    }

    /** The line of the instruction at `index`; an index out of range panics. */
    method GetLine(index: nat) returns (line: nat)
      requires index < |lines|
      ensures line == lines[index]
    {
      line := lines[index];
    }
  }

  /** Two constants added in turn get successive indices, and reading each
      index back gives the value added there. */
  method AddTwoConstants(chunk: Chunk, v: Value, w: Value) returns (i: nat, j: nat, u: Value, x: Value)
    modifies chunk
    ensures j == i + 1 && u == v && x == w
    ensures chunk.code == old(chunk.code) && chunk.lines == old(chunk.lines)
    ensures chunk.constants == old(chunk.constants) + [v, w]
  {
    i := chunk.AddConstant(v);
    j := chunk.AddConstant(w);
    u := chunk.GetConstant(i);
    x := chunk.GetConstant(j);
  }

  /** Two instructions written in turn keep every instruction paired with its
      line, and reading back at their positions gives what was written. */
  method WriteTwoOpcodes(chunk: Chunk, a: OpCode, la: nat, b: OpCode, lb: nat) returns (opA: OpCode, lineB: nat)
    requires chunk.Valid()
    modifies chunk
    ensures chunk.Valid() && opA == a && lineB == lb
    ensures chunk.code == old(chunk.code) + [a, b] && chunk.lines == old(chunk.lines) + [la, lb]
    ensures chunk.constants == old(chunk.constants)
  {
    var n := chunk.CodeNb();
    chunk.WriteOpcode(a, la);
    chunk.WriteOpcode(b, lb);
    opA := chunk.GetInstruction(n);
    lineB := chunk.GetLine(n + 1);
  }
}
