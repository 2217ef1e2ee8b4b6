/**
 * A value-level specification of one run of `Disasm.disassemble` (src/Disasm.js:297-366):
 * the trace state, one iteration of the walk, the walk itself, the reconciliation of
 * never-visited bytes and the rendering of the listing. The class in disasm.dfy is
 * proved to compute exactly `Run`.
 */
module Trace {
  import opened Wrappers
  import opened Hex
  import opened Opcodes
  import opened Text

  /** The load address: input index `i` is program address `i + START_ADDR`. */
  const START_ADDR := 0x100

  datatype Error =
    | EndOfInput  // `readByte_` throws Error('EOF') when the current address equals the input length
    | OutOfRange  // a read outside the input, which the source does not guard (see README)

  /**
   * The fields `disassemble` updates: the current address, the visited flags, the
   * listing (one optional line per input index), the call stack, and the number of
   * "ret without pc" warnings written to the console.
   */
  datatype State = State(addr: int, visited: seq<bool>, code: seq<Option<string>>, stack: seq<int>, warnings: nat)

  predicate WellFormed(input: seq<byte>, s: State) {
    |s.visited| == |input| && |s.code| == |input|
  }

  /** The state `reset_` leaves behind. */
  function Initial(input: seq<byte>): (s: State)
    ensures WellFormed(input, s) && s.addr == 0 && s.stack == [] && s.warnings == 0
    ensures forall i :: 0 <= i < |input| ==> !s.visited[i] && s.code[i] == None
  {
    State(0, seq(|input|, _ => false), seq(|input|, _ => None), [], 0)
  }

  /**
   * `Disasm.toSigned_`: a byte read as an 8-bit two's-complement number. The source's
   * `~b` on a small integer is `-b - 1`, and `& 0xff` on a two's-complement value keeps
   * its residue modulo 256, which is Dafny's (Euclidean) `%`.
   */
  function ToSigned(b: byte): (r: int)
    ensures -128 <= r < 128
    ensures b < 0x80 ==> r == b
    ensures b >= 0x80 ==> r == b - 256
  {
    if 0 <= b < 0x80 then b else -1 * ((-(b as int) - 1) % 256 + 1)
  }

  /** `Disasm.toDataByte_`: a raw-data directive for one byte. */
  function ToDataByte(n: nat): (r: string)
    ensures n < 256 ==> |r| == 8 && r[..6] == ".db 0x" && IsHexString(r[6..]) && ParseHex(r[6..]) == n
    ensures '\n' !in r
  {
    var hex := ToByteString(n);
    PaddedOneLine(n, 2);
    assert (".db " + hex)[4..] == hex;
    ".db " + hex
  }

  /** The API-call line: the selector byte as data, commented at column 20. */
  function ApiLine(b: byte): (r: string)
    ensures r == ToDataByte(b) + Repeat(' ', 12) + "; API call"
    ensures '\n' !in r
  {
    var line := WithComment(ToDataByte(b), "API call");
    assert line[..8] == ToDataByte(b);
    assert line[8..20] == Repeat(' ', 12);
    assert line == line[..8] + line[8..20] + line[20..];
    line
  }

  /** `visit_(begin, end)`: the flags with `begin..end` (inclusive) set. */
  function Mark(v: seq<bool>, begin: int, end: int): (r: seq<bool>)
    requires 0 <= begin && end < |v|
    ensures |r| == |v|
    ensures forall i :: 0 <= i < |v| ==> r[i] == (v[i] || begin <= i <= end)
  {
    seq(|v|, i requires 0 <= i < |v| => v[i] || begin <= i <= end)
  }

  /** The number of never-visited indices: the walk's termination measure. */
  function Unvisited(v: seq<bool>): nat
  {
    if v == [] then 0 else Unvisited(v[..|v| - 1]) + (if v[|v| - 1] then 0 else 1)
  }

  lemma {:induction false} UnvisitedMonotone(v: seq<bool>, w: seq<bool>)
    requires |v| == |w|
    requires forall i :: 0 <= i < |v| && v[i] ==> w[i]
    ensures Unvisited(w) <= Unvisited(v)
  {
    if v != [] {
      UnvisitedMonotone(v[..|v| - 1], w[..|w| - 1]);
    }
  }

  /** Setting a flag that was clear strictly lowers the count. */
  lemma {:induction false} UnvisitedShrinks(v: seq<bool>, w: seq<bool>, k: int)
    requires |v| == |w| && 0 <= k < |v| && !v[k] && w[k]
    requires forall i :: 0 <= i < |v| && v[i] ==> w[i]
    ensures Unvisited(w) < Unvisited(v)
  {
    if k == |v| - 1 {
      UnvisitedMonotone(v[..|v| - 1], w[..|w| - 1]);
    } else {
      UnvisitedShrinks(v[..|v| - 1], w[..|w| - 1], k);
    }
  }

  /**
   * The operand of an instruction of `size` bytes at `a`: none, the next byte, or the
   * next two as a little-endian word (`readByte_(1) + (readByte_(2) << 8)`).
   */
  function Operand(input: seq<byte>, a: nat, size: nat): (p: nat)
    requires 1 <= size <= 3 && a + size <= |input|
    ensures size == 1 ==> p == 0
    ensures size == 2 ==> p == input[a + 1]
    ensures size == 3 ==> p < 0x1_0000 && p % 256 == input[a + 1] && p / 256 == input[a + 2]
  {
    if size == 3 then input[a + 1] + (input[a + 2] as int) * 256
    else if size == 2 then input[a + 1]
    else 0
  }

  /** The line of a decoded instruction: its template with the operand substituted. */
  function Render(op: Opcode, param: nat): string
  {
    if op.size == 3 then ReplaceFirst(op.mnemonic, "**", "#" + ToWordString(param))
    else if op.size == 2 then ReplaceFirst(op.mnemonic, "*", "#" + ToByteString(param))
    else op.mnemonic
  }

  /**
   * The operand text takes the place of the template's first placeholder: `**` for a
   * 3-byte instruction, `*` for a 2-byte one, with everything around it kept.
   */
  lemma RenderFills(op: Opcode, param: nat, pre: string, post: string, operand: string)
    requires 2 <= op.size <= 3 && '*' !in pre
    requires op.mnemonic == pre + (if op.size == 3 then "**" else "*") + post
    requires operand == "#" + if op.size == 3 then ToWordString(param) else ToByteString(param)
    ensures Render(op, param) == pre + operand + post
  {
    ReplaceAfter(pre, if op.size == 3 then "**" else "*", post, operand);
  }

  lemma RenderOneLine(op: Opcode, param: nat)
    requires NoNewline(op.mnemonic)
    ensures '\n' !in Render(op, param)
  {
    PaddedOneLine(param, 4);
    PaddedOneLine(param, 2);
    var r := Render(op, param);
    if '\n' in r {
      var i :| 0 <= i < |r| && r[i] == '\n';
      assert false;
    }
  }

  /** The opcodes whose successor is not simply the next instruction. */
  const JR := 0x18
  const JP := 0xc3
  const RET := 0xc9
  const CALL := 0xcd
  const RST0 := 0xc7
  const RST8 := 0xcf

  lemma ControlOpcodes()
    ensures Lookup(JR) == Some(Opcode("jr *", 2))
    ensures Lookup(JP) == Some(Opcode("jp **", 3))
    ensures Lookup(RET) == Some(Opcode("ret", 1))
    ensures Lookup(CALL) == Some(Opcode("call **", 3))
    ensures Lookup(RST0) == Some(Opcode("rst 0x00", 1))
    ensures Lookup(RST8) == Some(Opcode("rst 0x08", 1))
  {
  }

  /** `handleApiCall_`: the selector byte after an `rst` becomes a commented data line. */
  function ApiCall(input: seq<byte>, s: State): (r: Result<State, Error>)
    requires WellFormed(input, s) && 0 <= s.addr <= |input|
    ensures r.Err? <==> s.addr == |input|
    ensures r.Ok? ==> WellFormed(input, r.value) && Grows(s, r.value)
    ensures r.Ok? ==>
      && r.value.addr == s.addr + 1 && r.value.stack == s.stack && r.value.warnings == s.warnings
      && VisitedSpan(s.visited, r.value.visited, s.addr, s.addr + 1)
      && LineStored(s.code, r.value.code, s.addr, ApiLine(input[s.addr]))
  {
    if s.addr == |input| then Err(EndOfInput)
    else Ok(s.(visited := Mark(s.visited, s.addr, s.addr),
               code := s.code[s.addr := Some(ApiLine(input[s.addr]))],
               addr := s.addr + 1))
  }

  /** The `switch (opcode)` of `disassemble`: control transfers and API calls. */
  function Transfer(input: seq<byte>, opcode: byte, param: nat, s: State): (r: Result<State, Error>)
    requires WellFormed(input, s) && 0 <= s.addr <= |input|
    requires opcode == JR ==> param < 256
    ensures r.Ok? ==> WellFormed(input, r.value) && Grows(s, r.value)
    ensures opcode != RST0 && opcode != RST8 ==> r.Ok? && r.value.visited == s.visited && r.value.code == s.code
  {
    if opcode == JR then Ok(s.(addr := s.addr + ToSigned(param)))
    else if opcode == JP then Ok(s.(addr := param - START_ADDR))
    else if opcode == RET then
      if s.stack == [] then Ok(s.(warnings := s.warnings + 1))
      else Ok(s.(addr := s.stack[|s.stack| - 1], stack := s.stack[..|s.stack| - 1]))
    else if opcode == CALL then Ok(s.(stack := s.stack + [s.addr], addr := param - START_ADDR))
    else if opcode == RST0 || opcode == RST8 then ApiCall(input, s)
    else Ok(s)
  }

  /** `after` is `before` with the flags of `lo..hi-1` set. */
  predicate VisitedSpan(before: seq<bool>, after: seq<bool>, lo: int, hi: int) {
    |after| == |before| && forall i :: 0 <= i < |before| ==> after[i] == (before[i] || lo <= i < hi)
  }

  /** `after` is `before` with slot `a` holding `line` and every other slot unchanged. */
  predicate LineStored(before: seq<Option<string>>, after: seq<Option<string>>, a: int, line: string) {
    && |after| == |before| && 0 <= a < |before| && after[a] == Some(line)
    && forall i :: 0 <= i < |before| && i != a ==> after[i] == before[i]
  }

  /** What makes the walk terminate: a new index is visited, or the address moves on by one. */
  predicate Progress(s: State, t: State) {
    Unvisited(t.visited) < Unvisited(s.visited) || (t.visited == s.visited && t.addr == s.addr + 1)
  }

  /** Flags are never cleared and lines never removed. */
  predicate Grows(s: State, t: State) {
    && |t.visited| == |s.visited| && |t.code| == |s.code|
    && (forall i :: 0 <= i < |s.visited| && s.visited[i] ==> t.visited[i])
    && (forall i :: 0 <= i < |s.code| && s.code[i].Some? ==> t.code[i].Some?)
  }

  /**
   * The instruction `op` decoded at `s.addr`: its bytes are marked visited, its
   * rendered line is stored at its first byte, and the address moves past it.
   */
  function Decode(input: seq<byte>, s: State, op: Opcode): (d: State)
    requires WellFormed(input, s) && 0 <= s.addr && 1 <= op.size <= 3 && s.addr + op.size <= |input|
    ensures WellFormed(input, d) && d.addr == s.addr + op.size && d.stack == s.stack && d.warnings == s.warnings
    ensures VisitedSpan(s.visited, d.visited, s.addr, s.addr + op.size)
    ensures LineStored(s.code, d.code, s.addr, Render(op, Operand(input, s.addr, op.size)))
  {
    var a := s.addr;
    s.(visited := Mark(s.visited, a, a + op.size - 1),
       code := s.code[a := Some(Render(op, Operand(input, a, op.size)))],
       addr := a + op.size)
  }

  /**
   * One iteration of the `while` loop of `disassemble` at an unvisited in-range address.
   */
  function Step(input: seq<byte>, s: State): (r: Result<State, Error>)
    requires WellFormed(input, s) && 0 <= s.addr < |input| && !s.visited[s.addr]
    ensures r.Ok? ==> WellFormed(input, r.value) && Progress(s, r.value) && Grows(s, r.value)
  {
    var a := s.addr;
    var opcode := input[a];
    SizesInRange(opcode);
    match Lookup(opcode)
    case None =>
      Ok(s.(code := s.code[a := Some(ToDataByte(opcode))], addr := a + 1))
    case Some(op) =>
      if a + op.size > |input| then Err(OutOfRange)
      else
        ControlOpcodes();
        var d := Decode(input, s, op);
        UnvisitedShrinks(s.visited, d.visited, a);
        var r := Transfer(input, opcode, Operand(input, a, op.size), d);
        if r.Ok? then
          UnvisitedMonotone(d.visited, r.value.visited);
          r
        else
          r
  }

  /** A supported instruction that fits is decoded, then its control transfer applied. */
  lemma StepSupported(input: seq<byte>, s: State, op: Opcode)
    requires WellFormed(input, s) && 0 <= s.addr < |input| && !s.visited[s.addr]
    requires Lookup(input[s.addr]) == Some(op) && s.addr + op.size <= |input|
    ensures 1 <= op.size <= 3
    ensures Step(input, s) == Transfer(input, input[s.addr], Operand(input, s.addr, op.size), Decode(input, s, op))
  {
    SizesInRange(input[s.addr]);
  }

  /** An unsupported opcode is stored as data, left unvisited, and the walk moves on by one. */
  lemma StepUnsupported(input: seq<byte>, s: State)
    requires WellFormed(input, s) && 0 <= s.addr < |input| && !s.visited[s.addr]
    requires Lookup(input[s.addr]).None?
    ensures var r := Step(input, s);
      && r.Ok? && r.value.visited == s.visited && r.value.addr == s.addr + 1
      && LineStored(s.code, r.value.code, s.addr, ToDataByte(input[s.addr]))
      && r.value.stack == s.stack && r.value.warnings == s.warnings
  {
  }

  /** A supported instruction whose operands run past the end of the input cannot be decoded. */
  lemma StepTruncated(input: seq<byte>, s: State)
    requires WellFormed(input, s) && 0 <= s.addr < |input| && !s.visited[s.addr]
    requires Lookup(input[s.addr]).Some? && s.addr + Lookup(input[s.addr]).value.size > |input|
    ensures Step(input, s) == Err(OutOfRange)
  {
  }

  /**
   * A supported instruction of size k that is not an API call marks exactly its k bytes
   * visited and stores its rendered line at its own index, and nowhere else; only a `ret`
   * with an empty stack changes the warning count.
   */
  lemma StepDecodes(input: seq<byte>, s: State)
    requires WellFormed(input, s) && 0 <= s.addr < |input| && !s.visited[s.addr]
    requires Lookup(input[s.addr]).Some? && s.addr + Lookup(input[s.addr]).value.size <= |input|
    requires input[s.addr] != RST0 && input[s.addr] != RST8
    ensures var r := Step(input, s); var op := Lookup(input[s.addr]).value;
      && r.Ok?
      && VisitedSpan(s.visited, r.value.visited, s.addr, s.addr + op.size)
      && LineStored(s.code, r.value.code, s.addr, Render(op, Operand(input, s.addr, op.size)))
      && r.value.warnings == s.warnings + if input[s.addr] == RET && s.stack == [] then 1 else 0
  {
    ControlOpcodes();
  }

  /** Every other supported instruction, conditional branches included, falls through. */
  lemma StepFallsThrough(input: seq<byte>, s: State)
    requires WellFormed(input, s) && 0 <= s.addr < |input| && !s.visited[s.addr]
    requires Lookup(input[s.addr]).Some? && s.addr + Lookup(input[s.addr]).value.size <= |input|
    requires input[s.addr] !in {JR, JP, RET, CALL, RST0, RST8}
    ensures var op := Lookup(input[s.addr]).value;
      && Step(input, s) == Ok(Decode(input, s, op))
      && Step(input, s).value.addr == s.addr + op.size && Step(input, s).value.stack == s.stack
  {
    StepSupported(input, s, Lookup(input[s.addr]).value);
  }

  /** `jr d` continues at the end of the instruction plus the signed displacement. */
  lemma StepRelativeJump(input: seq<byte>, s: State)
    requires WellFormed(input, s) && 0 <= s.addr < |input| && !s.visited[s.addr]
    requires input[s.addr] == JR && s.addr + 2 <= |input|
    ensures var r := Step(input, s);
      && r.Ok? && r.value.addr == s.addr + 2 + ToSigned(input[s.addr + 1]) && r.value.stack == s.stack
      && r.value.warnings == s.warnings
  {
    ControlOpcodes();
  }

  /** `jp w` continues at the input index of the absolute address `w` (a little-endian word, see `Operand`). */
  lemma StepJump(input: seq<byte>, s: State)
    requires WellFormed(input, s) && 0 <= s.addr < |input| && !s.visited[s.addr]
    requires input[s.addr] == JP && s.addr + 3 <= |input|
    ensures var r := Step(input, s);
      && r.Ok? && r.value.stack == s.stack && r.value.warnings == s.warnings
      && r.value.addr == Operand(input, s.addr, 3) - START_ADDR
  {
    ControlOpcodes();
  }

  /** `call w` pushes the index after the call, then continues at `w`. */
  lemma StepCall(input: seq<byte>, s: State)
    requires WellFormed(input, s) && 0 <= s.addr < |input| && !s.visited[s.addr]
    requires input[s.addr] == CALL && s.addr + 3 <= |input|
    ensures var r := Step(input, s);
      && r.Ok? && r.value.stack == s.stack + [s.addr + 3] && r.value.warnings == s.warnings
      && r.value.addr == Operand(input, s.addr, 3) - START_ADDR
  {
    ControlOpcodes();
    var op := Opcode("call **", 3);
    var d := Decode(input, s, op);
    var p := Operand(input, s.addr, 3);
    assert Transfer(input, CALL, p, d) == Ok(d.(stack := d.stack + [d.addr], addr := p - START_ADDR));
    SizesInRange(input[s.addr]);
    assert Step(input, s) == Transfer(input, CALL, p, d);
  }

  /** `ret` pops the last pushed index; with an empty stack it warns and falls through. */
  lemma StepReturn(input: seq<byte>, s: State)
    requires WellFormed(input, s) && 0 <= s.addr < |input| && !s.visited[s.addr]
    requires input[s.addr] == RET
    ensures var r := Step(input, s);
      && r.Ok?
      && (s.stack != [] ==>
            && r.value.addr == s.stack[|s.stack| - 1]
            && r.value.stack == s.stack[..|s.stack| - 1] && r.value.warnings == s.warnings)
      && (s.stack == [] ==>
            r.value.addr == s.addr + 1 && r.value.stack == [] && r.value.warnings == s.warnings + 1)
  {
    ControlOpcodes();
  }

  /**
   * `rst 0x00` / `rst 0x08`: the selector byte after it is visited and shown as a
   * commented data line, and the walk resumes two bytes past the `rst`; an `rst` in the
   * last byte reads past the end.
   */
  lemma StepApiCall(input: seq<byte>, s: State)
    requires WellFormed(input, s) && 0 <= s.addr < |input| && !s.visited[s.addr]
    requires input[s.addr] == RST0 || input[s.addr] == RST8
    ensures var r := Step(input, s);
      && (s.addr + 1 == |input| ==> r == Err(EndOfInput))
      && (s.addr + 1 < |input| ==>
            && r.Ok? && r.value.addr == s.addr + 2 && r.value.stack == s.stack && r.value.warnings == s.warnings
            && VisitedSpan(s.visited, r.value.visited, s.addr, s.addr + 2)
            && r.value.code[s.addr] == Some(if input[s.addr] == RST0 then "rst 0x00" else "rst 0x08")
            && r.value.code[s.addr + 1] == Some(ApiLine(input[s.addr + 1]))
            && forall i :: 0 <= i < |input| && i != s.addr && i != s.addr + 1 ==> r.value.code[i] == s.code[i])
  {
    ControlOpcodes();
    var op := if input[s.addr] == RST0 then Opcode("rst 0x00", 1) else Opcode("rst 0x08", 1);
    assert op.mnemonic == Render(op, 0);
    StepSupported(input, s, op);
    var d := Decode(input, s, op);
    assert Step(input, s) == ApiCall(input, d);
    if s.addr + 1 < |input| {
      var t := ApiCall(input, d).value;
      assert VisitedSpan(d.visited, t.visited, s.addr + 1, s.addr + 2);
      assert LineStored(d.code, t.code, s.addr + 1, ApiLine(input[s.addr + 1]));
    }
  }

  /**
   * The `while` loop of `disassemble` from state `s`: it stops at the first address that
   * is already visited or not below the input length; a negative address is a read
   * outside the input.
   */
  function Walk(input: seq<byte>, s: State): (r: Result<State, Error>)
    requires WellFormed(input, s)
    ensures r.Ok? ==> WellFormed(input, r.value) && Grows(s, r.value)
    ensures r.Ok? ==> r.value.addr >= |input| || (0 <= r.value.addr && r.value.visited[r.value.addr])
    decreases Unvisited(s.visited), |input| - s.addr
  {
    if s.addr >= |input| then Ok(s)
    else if s.addr < 0 then Err(OutOfRange)
    else if s.visited[s.addr] then Ok(s)
    else
      match Step(input, s)
      case Err(e) => Err(e)
      case Ok(t) => Walk(input, t)
  }

  /** At an unvisited in-range address the walk takes one step and carries on from there. */
  lemma WalkSteps(input: seq<byte>, s: State, t: State)
    requires WellFormed(input, s) && 0 <= s.addr < |input| && !s.visited[s.addr]
    requires Step(input, s) == Ok(t)
    ensures Walk(input, s) == Walk(input, t)
  {
  }

  /** The walk stops at once at a visited address or past the end of the input. */
  lemma WalkStops(input: seq<byte>, s: State)
    requires WellFormed(input, s) && (s.addr >= |input| || (0 <= s.addr && s.visited[s.addr]))
    ensures Walk(input, s) == Ok(s)
  {
  }

  /** `handleUnvisitedAddresses_`: every never-visited index shows its own byte as data. */
  function Reconcile(input: seq<byte>, visited: seq<bool>, code: seq<Option<string>>): (r: seq<Option<string>>)
    requires |visited| == |input| && |code| == |input|
    ensures |r| == |input|
    ensures forall i :: 0 <= i < |input| ==> r[i] == if visited[i] then code[i] else Some(ToDataByte(input[i]))
  {
    seq(|input|, i requires 0 <= i < |input| => if visited[i] then code[i] else Some(ToDataByte(input[i])))
  }

  /** The reconciled listing of a completed walk, with the visited flags it was built from. */
  datatype Listing = Listing(visited: seq<bool>, code: seq<Option<string>>)

  function Analyse(input: seq<byte>): Result<Listing, Error>
  {
    if |input| == 0 then Err(EndOfInput)
    else
      match Walk(input, Initial(input))
      case Err(e) => Err(e)
      case Ok(s) => Ok(Listing(s.visited, Reconcile(input, s.visited, s.code)))
  }

  /** The indices of the filled slots of a listing, in ascending order. */
  function Filled(code: seq<Option<string>>): (r: seq<nat>)
    ensures forall k :: 0 <= k < |r| ==> r[k] < |code| && code[r[k]].Some?
    ensures forall i :: 0 <= i < |code| && code[i].Some? ==> i in r
    ensures forall k, l :: 0 <= k < l < |r| ==> r[k] < r[l]
  {
    if code == [] then []
    else
      var init := Filled(code[..|code| - 1]);
      init + (if code[|code| - 1].Some? then [|code| - 1] else [])
  }

  /** One listing line: the load address of the slot, four spaces, the slot's text. */
  function FormatLine(i: nat, line: string): string
  {
    ToAddress(i + START_ADDR) + "    " + line
  }

  /** `code.flatMap(...)`: a formatted line for each filled slot, in slot order. */
  function Lines(code: seq<Option<string>>): (r: seq<string>)
  {
    var f := Filled(code);
    seq(|f|, k requires 0 <= k < |f| => FormatLine(f[k], code[f[k]].value))
  }

  /** `buildOutput_`: the formatted lines joined by newlines. */
  function BuildOutput(code: seq<Option<string>>): string
  {
    JoinLines(Lines(code))
  }

  /** What `disassemble` returns for an input that was set. */
  function Disassembly(input: seq<byte>): Result<string, Error>
  {
    match Analyse(input)
    case Err(e) => Err(e)
    case Ok(l) => Ok(BuildOutput(l.code))
  }

  /** What `disassemble` returns, with `None` for an input that was never set. */
  function Run(input: Option<seq<byte>>): Result<string, Error>
  {
    match input
    case None => Ok("No input stream")
    case Some(bytes) => Disassembly(bytes)
  }
}
