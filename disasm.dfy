/**
 * The `Disasm` class of src/Disasm.js as an object with mutable fields: the input, the
 * listing under construction (`code`, one slot per input byte), the current address,
 * the visited flags and the call stack. `Disassemble` is proved to return exactly
 * `Trace.Run` of the input it was given, whatever state an earlier call left behind.
 */
module Disassembler {
  import opened Wrappers
  import opened Hex
  import opened Opcodes
  import opened Text
  import opened Trace

  class Disasm {
    var input: Option<seq<byte>>
    var code: array<Option<string>>
    var addr: int
    var visited: array<bool>
    var stack: seq<int>
    /** How many times `console.warn('ret without pc')` has been called. */
    ghost var warnings: nat

    /** The arrays are as long as the input (empty while there is none). */
    ghost predicate Valid()
      reads this
    {
      var n := if input.Some? then |input.value| else 0;
      visited.Length == n && code.Length == n
    }

    /** The fields as a `Trace.State`. */
    ghost function Abs(): State
      reads this, visited, code
    {
      State(addr, visited[..], code[..], stack, warnings)
    }

    /** `constructor`: no input, and the fields `reset_` sets up. */
    constructor()
      ensures Valid() && input == None && addr == 0 && stack == [] && warnings == 0
      ensures visited.Length == 0 && code.Length == 0
    {
      input := None;
      code := new Option<string>[0];
      addr := 0;
      visited := new bool[0];
      stack := [];
      warnings := 0;
    }

    /** `setUint8Array`: the input of the next `Disassemble`. */
    method SetUint8Array(bytes: seq<byte>)
      modifies this
      ensures input == Some(bytes)
      ensures addr == old(addr) && stack == old(stack) && code == old(code) && visited == old(visited)
      ensures warnings == old(warnings)
    {
      input := Some(bytes);
    }

    /** `reset_`: an empty listing, address 0, every flag clear, an empty stack. */
    method Reset()
      modifies this
      ensures Valid() && input == old(input) && fresh(visited) && fresh(code)
      ensures addr == 0 && stack == [] && warnings == 0
      ensures input.Some? ==> Abs() == Initial(input.value)
    {
      var n := if input.Some? then |input.value| else 0;
      code := new Option<string>[n](_ => None);
      addr := 0;
      visited := new bool[n];
      for i := 0 to n
        modifies visited
        invariant forall j :: 0 <= j < i ==> !visited[j]
      {
        visited[i] := false;
      }
      stack := [];
      warnings := 0;
    }

    /**
     * `readByte_(offset)`: `Error('EOF')` when the current address is the input length,
     * otherwise the byte at `addr + offset`, or `None` (JavaScript's `undefined`) for an
     * index outside the input.
     */
    function ReadByte(offset: nat): (r: Result<Option<byte>, Error>)
      reads this
      requires input.Some?
      ensures r.Err? <==> addr == |input.value|
      ensures r.Err? ==> r.error == EndOfInput
      ensures r.Ok? ==> (r.value.Some? <==> 0 <= addr + offset < |input.value|)
      ensures r.Ok? && r.value.Some? ==> r.value.value == input.value[addr + offset]
    {
      var bytes := input.value;
      if addr == |bytes| then Err(EndOfInput)
      else if 0 <= addr + offset < |bytes| then Ok(Some(bytes[addr + offset]))
      else Ok(None)
    }

    /** `readNextByte_`: the byte at the current address. */
    function ReadNextByte(): (r: Result<Option<byte>, Error>)
      reads this
      requires input.Some?
      ensures r == ReadByte(0)
    {
      ReadByte(0)
    }

    /** `visit_(begin, end)`: flags `begin..end` (inclusive) set, the others untouched. */
    method Visit(begin: int, end: int)
      requires 0 <= begin <= end < visited.Length
      modifies visited
      ensures visited[..] == Mark(old(visited[..]), begin, end)
    {
      for address := begin to end + 1
        invariant forall i :: 0 <= i < visited.Length ==>
          visited[i] == (old(visited[i]) || begin <= i < address)
      {
        visited[address] := true;
      }
    }

    /** `commentLine_(at, comment)`: the line at `at` padded to column 20 and commented. */
    method CommentLine(at: int, comment: string)
      requires 0 <= at < code.Length && code[at].Some?
      modifies code
      ensures code[..] == old(code[..])[at := Some(WithComment(old(code[at]).value, comment))]
    {
      var line := code[at].value;
      code[at] := Some(WithComment(line, comment));
    }

    /** `handleApiCall_`: the selector byte at the current address as a commented data line. */
    method HandleApiCall() returns (o: Outcome<Error>)
      requires Valid() && input.Some? && 0 <= addr <= |input.value|
      modifies this, visited, code
      ensures Valid() && input == old(input) && visited == old(visited) && code == old(code)
      ensures ApiCall(input.value, old(Abs())) == if o.Pass? then Ok(Abs()) else Err(o.error)
    {
      var b := ReadNextByte();
      if b.Err? {
        return Fail(b.error);
      }
      ghost var s := Abs();
      Visit(addr, addr);
      code[addr] := Some(ToDataByte(b.value.value));
      CommentLine(addr, "API call");
      assert code[..] == s.code[addr := Some(ApiLine(input.value[addr]))];
      addr := addr + 1;
      o := Pass;
    }

    /** The `switch (opcode)` of `disassemble`, run after the instruction was decoded. */
    method Control(opcode: byte, param: nat) returns (o: Outcome<Error>)
      requires Valid() && input.Some? && 0 <= addr <= |input.value|
      requires opcode == JR ==> param < 256
      modifies this, visited, code
      ensures Valid() && input == old(input) && visited == old(visited) && code == old(code)
      ensures Transfer(input.value, opcode, param, old(Abs())) == if o.Pass? then Ok(Abs()) else Err(o.error)
    {
      o := Pass;
      if opcode == JR {
        var offset := ToSigned(param);
        addr := addr + offset;
      } else if opcode == JP {
        addr := param - START_ADDR;
      } else if opcode == RET {
        if |stack| == 0 {
          warnings := warnings + 1;
        } else {
          addr := stack[|stack| - 1];
          stack := stack[..|stack| - 1];
        }
      } else if opcode == CALL {
        stack := stack + [addr];
        addr := param - START_ADDR;
      } else if opcode == RST0 || opcode == RST8 {
        o := HandleApiCall();
      }
    }

    /**
     * The instruction at the current address decoded: its bytes visited, its line stored,
     * the address moved past it. `param` is its operand (0 when it has none).
     */
    method DecodeInstruction(op: Opcode) returns (o: Outcome<Error>, param: nat)
      requires Valid() && input.Some? && 0 <= addr < |input.value| && 1 <= op.size <= 3
      modifies this, visited, code
      ensures Valid() && input == old(input) && visited == old(visited) && code == old(code)
      ensures o.Fail? <==> old(addr) + op.size > |input.value|
      ensures o.Fail? ==> o.error == OutOfRange
      ensures o.Pass? ==> param == Operand(input.value, old(addr), op.size) && Abs() == Decode(input.value, old(Abs()), op)
    {
      ghost var s := Abs();
      var bytes := input.value;
      var line := op.mnemonic;
      param := 0;
      o := Pass;
      if op.size == 3 {
        var lo := ReadByte(1);
        var hi := ReadByte(2);
        if lo.Err? || lo.value.None? || hi.Err? || hi.value.None? {
          return Fail(OutOfRange), 0;
        }
        Visit(addr, addr + 2);
        param := lo.value.value + (hi.value.value as int) * 256;
        line := ReplaceFirst(line, "**", "#" + ToWordString(param));
        code[addr] := Some(line);
        assert code[..] == s.code[addr := Some(Render(op, param))];
        addr := addr + 3;
      } else if op.size == 2 {
        var b := ReadByte(1);
        if b.Err? || b.value.None? {
          return Fail(OutOfRange), 0;
        }
        Visit(addr, addr + 1);
        param := b.value.value;
        line := ReplaceFirst(line, "*", "#" + ToByteString(param));
        code[addr] := Some(line);
        assert code[..] == s.code[addr := Some(Render(op, param))];
        addr := addr + 2;
      } else {
        Visit(addr, addr);
        code[addr] := Some(line);
        assert code[..] == s.code[addr := Some(Render(op, param))];
        addr := addr + 1;
      }
    }

    /** One iteration of the loop of `disassemble`, at an in-range address not yet visited. */
    method Execute(opcode: byte) returns (o: Outcome<Error>)
      requires Valid() && input.Some? && 0 <= addr < |input.value| && !visited[addr]
      requires opcode == input.value[addr]
      modifies this, visited, code
      ensures Valid() && input == old(input) && visited == old(visited) && code == old(code)
      ensures Step(input.value, old(Abs())) == if o.Pass? then Ok(Abs()) else Err(o.error)
    {
      ghost var s := Abs();
      SizesInRange(opcode);
      match Lookup(opcode)
      case None =>
        code[addr] := Some(ToDataByte(opcode));
        addr := addr + 1;
        o := Pass;
      case Some(op) =>
        var param;
        o, param := DecodeInstruction(op);
        if o.Pass? {
          StepSupported(input.value, s, op);
          ControlOpcodes();
          o := Control(opcode, param);
        }
    }

    /** `handleUnvisitedAddresses_`: every never-visited slot holds its own byte as data. */
    method HandleUnvisitedAddresses()
      requires Valid() && input.Some?
      modifies code
      ensures code[..] == Reconcile(input.value, visited[..], old(code[..]))
    {
      var bytes := input.value;
      for i := 0 to |bytes|
        invariant forall j :: 0 <= j < code.Length ==>
          code[j] == if j < i && !visited[j] then Some(ToDataByte(bytes[j])) else old(code[j])
      {
        if !visited[i] {
          code[i] := Some(ToDataByte(bytes[i]));
        }
      }
    }

    /**
     * `disassemble`: "No input stream" without input; otherwise the walk from index 0,
     * the reconciliation of unvisited bytes and the listing text, or the error a read
     * raised on the way.
     */
    method Disassemble() returns (r: Result<string, Error>)
      modifies this
      ensures input == old(input) && r == Run(input)
    {
      if input.None? {
        return Ok("No input stream");
      }
      Reset();
      var bytes := input.value;
      var queue: seq<Option<byte>> := [];
      var first := ReadNextByte();
      if first.Err? {
        return Err(first.error);
      }
      queue := queue + [first.value];
      while queue != []
        invariant Valid() && input == Some(bytes) && fresh(visited) && fresh(code)
        invariant |queue| <= 1
        invariant queue != [] ==> addr < |bytes| && queue[0] == (if 0 <= addr then Some(bytes[addr]) else None)
        invariant queue == [] ==> addr >= |bytes| || (0 <= addr && visited[addr])
        invariant Walk(bytes, Initial(bytes)) == Walk(bytes, Abs())
        decreases Unvisited(visited[..]), |bytes| - addr, |queue|
      {
        var opcode := queue[0];
        queue := queue[1..];
        if 0 <= addr && visited[addr] {
          continue;
        }
        if opcode.None? {
          // `OPCODE_TABLE[undefined]` is `undefined`, and reading its `mnemonic` throws.
          return Err(OutOfRange);
        }
        ghost var s := Abs();
        var o := Execute(opcode.value);
        if o.Fail? {
          return Err(o.error);
        }
        if addr < |bytes| {
          var next := ReadNextByte();
          queue := queue + [next.value];
        }
      }
      HandleUnvisitedAddresses();
      return Ok(BuildOutput(code[..]));
    }
  }

  /** Every call starts from a fresh reset, so a second call returns the same text. */
  method DisassembleTwice(d: Disasm) returns (first: Result<string, Error>, second: Result<string, Error>)
    modifies d
    ensures first == second
  {
    first := d.Disassemble();
    second := d.Disassemble();
  }
}
