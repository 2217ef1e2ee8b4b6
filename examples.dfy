/**
 * Concrete runs of the walk: the programs of test/test.js and test/flow.js, and a few
 * inputs that reach the error paths, the empty-stack `ret`, an overlapping decode and
 * an instruction line that an API call overwrites.
 * Each step of a run is a lemma of its own, and the run lemma chains them.
 */
module Examples {
  import opened Wrappers
  import opened Hex
  import opened Opcodes
  import opened Text
  import opened Trace

  const NOP := Some("nop")
  const RET_LINE := Some("ret")

  // ---- one step of the walk, for each kind of instruction the examples use ----

  /** A decoded instruction whose rendered line is `line`. */
  lemma DecodeLine(input: seq<byte>, s: State, op: Opcode, line: string)
    requires WellFormed(input, s) && 0 <= s.addr && 1 <= op.size <= 3 && s.addr + op.size <= |input|
    requires Render(op, Operand(input, s.addr, op.size)) == line
    ensures Decode(input, s, op) == s.(visited := Mark(s.visited, s.addr, s.addr + op.size - 1),
                                       code := s.code[s.addr := Some(line)],
                                       addr := s.addr + op.size)
  {
  }

  /** An unsupported opcode: its `.db` line is stored, its flag stays clear, the walk moves on. */
  lemma DataStep(input: seq<byte>, s: State)
    requires WellFormed(input, s) && 0 <= s.addr < |input| && !s.visited[s.addr] && Lookup(input[s.addr]) == None
    ensures Step(input, s) == Ok(s.(code := s.code[s.addr := Some(ToDataByte(input[s.addr]))], addr := s.addr + 1))
  {
    StepUnsupported(input, s);
    assert Step(input, s).value.code == s.code[s.addr := Some(ToDataByte(input[s.addr]))];
  }

  /** `ret` with a pushed index: the walk continues there. */
  lemma RetStep(input: seq<byte>, s: State)
    requires WellFormed(input, s) && 0 <= s.addr < |input| && !s.visited[s.addr]
    requires input[s.addr] == RET && s.stack != []
    ensures Step(input, s) == Ok(s.(visited := Mark(s.visited, s.addr, s.addr),
                                    code := s.code[s.addr := RET_LINE],
                                    stack := s.stack[..|s.stack| - 1],
                                    addr := s.stack[|s.stack| - 1]))
  {
    ControlOpcodes();
    StepSupported(input, s, Opcode("ret", 1));
  }

  /** `ret` with an empty stack: one more warning, and the walk falls through. */
  lemma RetEmptyStep(input: seq<byte>, s: State)
    requires WellFormed(input, s) && 0 <= s.addr < |input| && !s.visited[s.addr]
    requires input[s.addr] == RET && s.stack == []
    ensures Step(input, s) == Ok(s.(visited := Mark(s.visited, s.addr, s.addr),
                                    code := s.code[s.addr := RET_LINE],
                                    warnings := s.warnings + 1,
                                    addr := s.addr + 1))
  {
    ControlOpcodes();
    StepSupported(input, s, Opcode("ret", 1));
  }

  /** `rst 0x00` followed by its selector byte. */
  lemma ApiStep(input: seq<byte>, s: State)
    requires WellFormed(input, s) && 0 <= s.addr && s.addr + 1 < |input| && !s.visited[s.addr]
    requires input[s.addr] == RST0
    ensures Step(input, s) == Ok(s.(visited := Mark(Mark(s.visited, s.addr, s.addr), s.addr + 1, s.addr + 1),
                                    code := s.code[s.addr := Some("rst 0x00")][s.addr + 1 := Some(ApiLine(input[s.addr + 1]))],
                                    addr := s.addr + 2))
  {
    ControlOpcodes();
    StepSupported(input, s, Opcode("rst 0x00", 1));
  }

  /** `jr d` on an already decoded state: the displacement is added to the address. */
  lemma JrTransfer(input: seq<byte>, d: State, b: byte)
    requires WellFormed(input, d) && 0 <= d.addr <= |input|
    ensures Transfer(input, JR, b, d) == Ok(d.(addr := d.addr + ToSigned(b)))
  {
  }

  /** `call w` on an already decoded state: the index after the call is pushed. */
  lemma CallTransfer(input: seq<byte>, d: State, w: nat)
    requires WellFormed(input, d) && 0 <= d.addr <= |input|
    ensures Transfer(input, CALL, w, d) == Ok(d.(stack := d.stack + [d.addr], addr := w - START_ADDR))
  {
  }

  /** A walk from the initial state that ends in `s` gives the listing of `s`, reconciled. */
  lemma ListingOf(input: seq<byte>, s: State, code: seq<Option<string>>)
    requires |input| > 0 && Walk(input, Initial(input)) == Ok(s) && WellFormed(input, s)
    requires Reconcile(input, s.visited, s.code) == code
    ensures Analyse(input) == Ok(Listing(s.visited, code))
  {
  }

  // ---- renderings of the operands and lines the examples show ----

  lemma Byte02() ensures "#" + ToByteString(0x02) == "#0x02" { assert ToHex(2) == "2"; assert Repeat('0', 1) == "0"; }
  lemma Byte03() ensures "#" + ToByteString(0x03) == "#0x03" { assert ToHex(3) == "3"; assert Repeat('0', 1) == "0"; }
  lemma ByteFB() ensures "#" + ToByteString(0xfb) == "#0xfb" { assert ToHex(15) == "f"; assert ToHex(0xfb) == "fb"; assert Repeat('0', 0) == ""; }
  lemma ByteFF() ensures "#" + ToByteString(0xff) == "#0xff" { assert ToHex(15) == "f"; assert ToHex(0xff) == "ff"; assert Repeat('0', 0) == ""; }

  lemma Word0000()
    ensures "#" + ToWordString(0) == "#0x0000"
  {
    assert ToHex(0) == "0";
    assert Repeat('0', 3) == "000";
  }

  lemma Word0105()
    ensures "#" + ToWordString(0x105) == "#0x0105"
  {
    assert ToHex(1) == "1";
    assert ToHex(0x10) == "10";
    assert ToHex(0x105) == "105";
    assert Repeat('0', 1) == "0";
  }

  lemma WordCdab()
    ensures "#" + ToWordString(0xcdab) == "#0xcdab"
  {
    assert ToHex(0xc) == "c";
    assert ToHex(0xcd) == "cd";
    assert ToHex(0xcda) == "cda";
    assert ToHex(0xcdab) == "cdab";
    assert Repeat('0', 0) == "";
  }

  lemma RenderJr(p: nat, operand: string)
    requires "#" + ToByteString(p) == operand
    ensures Render(Opcode("jr *", 2), p) == "jr " + operand
  {
    assert "jr *" == "jr " + "*" + "";
    RenderFills(Opcode("jr *", 2), p, "jr ", "", operand);
  }

  lemma RenderLdC(p: nat, operand: string)
    requires "#" + ToByteString(p) == operand
    ensures Render(Opcode("ld c,*", 2), p) == "ld c," + operand
  {
    assert "ld c,*" == "ld c," + "*" + "";
    RenderFills(Opcode("ld c,*", 2), p, "ld c,", "", operand);
  }

  lemma RenderLdBc(p: nat, operand: string)
    requires "#" + ToWordString(p) == operand
    ensures Render(Opcode("ld bc,**", 3), p) == "ld bc," + operand
  {
    assert "ld bc,**" == "ld bc," + "**" + "";
    RenderFills(Opcode("ld bc,**", 3), p, "ld bc,", "", operand);
  }

  lemma RenderCall(p: nat, operand: string)
    requires "#" + ToWordString(p) == operand
    ensures Render(Opcode("call **", 3), p) == "call " + operand
  {
    assert "call **" == "call " + "**" + "";
    RenderFills(Opcode("call **", 3), p, "call ", "", operand);
  }

  lemma Db01() ensures ToDataByte(0x01) == ".db 0x01" { assert ToHex(1) == "1"; assert Repeat('0', 1) == "0"; }
  lemma Db02() ensures ToDataByte(0x02) == ".db 0x02" { assert ToHex(2) == "2"; assert Repeat('0', 1) == "0"; }
  lemma Db03() ensures ToDataByte(0x03) == ".db 0x03" { assert ToHex(3) == "3"; assert Repeat('0', 1) == "0"; }

  lemma DbFF()
    ensures ToDataByte(0xff) == ".db 0xff"
  {
    assert ToHex(15) == "f";
    assert ToHex(0xff) == "ff";
    assert Repeat('0', 0) == "";
  }

  // ---- test/test.js:13-16: a single `nop` ----

  lemma NopWalk()
    ensures Walk([0x00], Initial([0x00])) == Ok(State(1, [true], [NOP], [], 0))
  {
    var input: seq<byte> := [0x00];
    var s0 := Initial(input);
    assert s0 == State(0, [false], [None], [], 0);
    assert Lookup(0x00) == Some(Opcode("nop", 1));
    StepFallsThrough(input, s0);
    DecodeLine(input, s0, Opcode("nop", 1), "nop");
    var s1 := State(1, [true], [NOP], [], 0);
    assert Mark(s0.visited, 0, 0) == s1.visited && s0.code[0 := NOP] == s1.code;
    WalkSteps(input, s0, s1);
    WalkStops(input, s1);
  }

  lemma Address0100()
    ensures ToAddress(0x100) == "0x0100"
  {
    assert ToHex(1) == "1";
    assert ToHex(16) == "10";
    assert ToHex(256) == "100";
    assert Repeat('0', 1) == "0";
  }

  lemma NopText()
    ensures BuildOutput([NOP]) == "0x0100    nop"
  {
    assert Filled([NOP]) == [0];
    Address0100();
    assert FormatLine(0, "nop") == "0x0100" + "    " + "nop";
    assert Lines([NOP]) == [FormatLine(0, "nop")];
  }

  /** The listing of a single `nop` is the one line the test expects (test/test.js:14-15). */
  lemma SingleNop()
    ensures Disassembly([0x00]) == Ok("0x0100    nop")
  {
    NopWalk();
    assert Reconcile([0x00], [true], [NOP]) == [NOP];
    NopText();
  }

  // ---- test/flow.js:31-40: an unsupported opcode between `nop`s stays data ----

  const DATA: seq<byte> := [0x00, 0x00, 0x00, 0xff, 0x00]
  const D0 := State(0, [false, false, false, false, false], [None, None, None, None, None], [], 0)
  const D1 := State(1, [true, false, false, false, false], [NOP, None, None, None, None], [], 0)
  const D2 := State(2, [true, true, false, false, false], [NOP, NOP, None, None, None], [], 0)
  const D3 := State(3, [true, true, true, false, false], [NOP, NOP, NOP, None, None], [], 0)
  const D4 := State(4, [true, true, true, false, false], [NOP, NOP, NOP, Some(".db 0xff"), None], [], 0)
  const D5 := State(5, [true, true, true, false, true], [NOP, NOP, NOP, Some(".db 0xff"), NOP], [], 0)

  lemma DataStep0() ensures Step(DATA, D0) == Ok(D1) {
    assert Lookup(0x00) == Some(Opcode("nop", 1));
    StepFallsThrough(DATA, D0);
    DecodeLine(DATA, D0, Opcode("nop", 1), "nop");
    assert Mark(D0.visited, 0, 0) == D1.visited && D0.code[0 := NOP] == D1.code;
  }

  lemma DataStep1() ensures Step(DATA, D1) == Ok(D2) {
    assert Lookup(0x00) == Some(Opcode("nop", 1));
    StepFallsThrough(DATA, D1);
    DecodeLine(DATA, D1, Opcode("nop", 1), "nop");
    assert Mark(D1.visited, 1, 1) == D2.visited && D1.code[1 := NOP] == D2.code;
  }

  lemma DataStep2() ensures Step(DATA, D2) == Ok(D3) {
    assert Lookup(0x00) == Some(Opcode("nop", 1));
    StepFallsThrough(DATA, D2);
    DecodeLine(DATA, D2, Opcode("nop", 1), "nop");
    assert Mark(D2.visited, 2, 2) == D3.visited && D2.code[2 := NOP] == D3.code;
  }

  lemma DataStep3() ensures Step(DATA, D3) == Ok(D4) {
    assert Lookup(0xff) == None;
    DataStep(DATA, D3);
    DbFF();
    assert D3.code[3 := Some(".db 0xff")] == D4.code;
  }

  lemma DataStep4() ensures Step(DATA, D4) == Ok(D5) {
    assert Lookup(0x00) == Some(Opcode("nop", 1));
    StepFallsThrough(DATA, D4);
    DecodeLine(DATA, D4, Opcode("nop", 1), "nop");
    assert Mark(D4.visited, 4, 4) == D5.visited && D4.code[4 := NOP] == D5.code;
  }

  lemma DataWalk()
    ensures Walk(DATA, Initial(DATA)) == Ok(D5)
  {
    assert Initial(DATA) == D0;
    DataStep0(); WalkSteps(DATA, D0, D1);
    DataStep1(); WalkSteps(DATA, D1, D2);
    DataStep2(); WalkSteps(DATA, D2, D3);
    DataStep3(); WalkSteps(DATA, D3, D4);
    DataStep4(); WalkSteps(DATA, D4, D5);
    WalkStops(DATA, D5);
  }

  /** The unsupported byte is listed as `.db 0xff` and never visited. */
  lemma DataListing()
    ensures Analyse(DATA) == Ok(Listing([true, true, true, false, true], [NOP, NOP, NOP, Some(".db 0xff"), NOP]))
  {
    DataWalk();
    DataReconcile();
    ListingOf(DATA, D5, D5.code);
  }

  lemma DataReconcile()
    ensures Reconcile(DATA, D5.visited, D5.code) == D5.code
  {
    DbFF();
    assert Reconcile(DATA, D5.visited, D5.code) == D5.code;
  }

  // ---- test/flow.js:42-56: instructions of one, two and three bytes ----

  const SIZES: seq<byte> := [0x00, 0x01, 0xab, 0xcd, 0x02, 0x0e, 0xff, 0x00]
  const LD_BC := Some("ld bc,#0xcdab")
  const LD_A := Some("ld (bc),a")
  const LD_C := Some("ld c,#0xff")
  const Z0 := State(0, [false, false, false, false, false, false, false, false], [None, None, None, None, None, None, None, None], [], 0)
  const Z1 := State(1, [true, false, false, false, false, false, false, false], [NOP, None, None, None, None, None, None, None], [], 0)
  const Z2 := State(4, [true, true, true, true, false, false, false, false], [NOP, LD_BC, None, None, None, None, None, None], [], 0)
  const Z3 := State(5, [true, true, true, true, true, false, false, false], [NOP, LD_BC, None, None, LD_A, None, None, None], [], 0)
  const Z4 := State(7, [true, true, true, true, true, true, true, false], [NOP, LD_BC, None, None, LD_A, LD_C, None, None], [], 0)
  const Z5 := State(8, [true, true, true, true, true, true, true, true], [NOP, LD_BC, None, None, LD_A, LD_C, None, NOP], [], 0)

  lemma SizesStep0() ensures Step(SIZES, Z0) == Ok(Z1) {
    assert Lookup(0x00) == Some(Opcode("nop", 1));
    StepFallsThrough(SIZES, Z0);
    DecodeLine(SIZES, Z0, Opcode("nop", 1), "nop");
    assert Mark(Z0.visited, 0, 0) == Z1.visited && Z0.code[0 := NOP] == Z1.code;
  }

  lemma SizesRender1()
    ensures Render(Opcode("ld bc,**", 3), Operand(SIZES, 1, 3)) == "ld bc,#0xcdab"
  {
    assert Operand(SIZES, 1, 3) == 0xcdab;
    WordCdab();
    RenderLdBc(0xcdab, "#0xcdab");
  }

  lemma SizesDecode1()
    ensures Decode(SIZES, Z1, Opcode("ld bc,**", 3)) == Z2
  {
    SizesRender1();
    DecodeLine(SIZES, Z1, Opcode("ld bc,**", 3), "ld bc,#0xcdab");
    assert Mark(Z1.visited, 1, 3) == Z2.visited;
    assert Z1.code[1 := LD_BC] == Z2.code;
  }

  lemma SizesStep1() ensures Step(SIZES, Z1) == Ok(Z2) {
    assert Lookup(0x01) == Some(Opcode("ld bc,**", 3));
    StepFallsThrough(SIZES, Z1);
    SizesDecode1();
  }

  lemma SizesStep2() ensures Step(SIZES, Z2) == Ok(Z3) {
    assert Lookup(0x02) == Some(Opcode("ld (bc),a", 1));
    StepFallsThrough(SIZES, Z2);
    DecodeLine(SIZES, Z2, Opcode("ld (bc),a", 1), "ld (bc),a");
    assert Mark(Z2.visited, 4, 4) == Z3.visited && Z2.code[4 := LD_A] == Z3.code;
  }

  lemma SizesDecode3()
    ensures Decode(SIZES, Z3, Opcode("ld c,*", 2)) == Z4
  {
    assert Operand(SIZES, 5, 2) == 0xff;
    ByteFF();
    RenderLdC(0xff, "#0xff");
    DecodeLine(SIZES, Z3, Opcode("ld c,*", 2), "ld c,#0xff");
    assert Mark(Z3.visited, 5, 6) == Z4.visited && Z3.code[5 := LD_C] == Z4.code;
  }

  lemma SizesStep3() ensures Step(SIZES, Z3) == Ok(Z4) {
    assert Lookup(0x0e) == Some(Opcode("ld c,*", 2));
    StepFallsThrough(SIZES, Z3);
    SizesDecode3();
  }

  lemma SizesStep4() ensures Step(SIZES, Z4) == Ok(Z5) {
    assert Lookup(0x00) == Some(Opcode("nop", 1));
    StepFallsThrough(SIZES, Z4);
    DecodeLine(SIZES, Z4, Opcode("nop", 1), "nop");
    assert Mark(Z4.visited, 7, 7) == Z5.visited && Z4.code[7 := NOP] == Z5.code;
  }

  lemma SizesWalk()
    ensures Walk(SIZES, Initial(SIZES)) == Ok(Z5)
  {
    assert Initial(SIZES) == Z0;
    SizesStep0(); WalkSteps(SIZES, Z0, Z1);
    SizesStep1(); WalkSteps(SIZES, Z1, Z2);
    SizesWalk2();
  }

  lemma SizesWalk2()
    ensures Walk(SIZES, Z2) == Ok(Z5)
  {
    SizesStep2(); WalkSteps(SIZES, Z2, Z3);
    SizesStep3(); WalkSteps(SIZES, Z3, Z4);
    SizesStep4(); WalkSteps(SIZES, Z4, Z5);
    WalkStops(SIZES, Z5);
  }

  /** Every byte is visited; each instruction's line sits at its first byte, operand bytes stay empty. */
  lemma SizesListing()
    ensures Analyse(SIZES) == Ok(Listing(Z5.visited, [NOP, LD_BC, None, None, LD_A, LD_C, None, NOP]))
  {
    SizesWalk();
    SizesReconcile();
    ListingOf(SIZES, Z5, Z5.code);
  }

  lemma SizesReconcile()
    ensures Reconcile(SIZES, Z5.visited, Z5.code) == Z5.code
  {
    assert Reconcile(SIZES, Z5.visited, Z5.code) == Z5.code;
  }

  // ---- the input of test/flow.js:75-78: a relative jump over three data bytes ----

  const JUMP: seq<byte> := [0x18, 0x03, 0x01, 0x02, 0x03, 0x00]
  const JR_03 := Some("jr #0x03")
  const J0 := State(0, [false, false, false, false, false, false], [None, None, None, None, None, None], [], 0)
  const J1 := State(5, [true, true, false, false, false, false], [JR_03, None, None, None, None, None], [], 0)
  const J2 := State(6, [true, true, false, false, false, true], [JR_03, None, None, None, None, NOP], [], 0)

  lemma JumpDecode0()
    ensures Decode(JUMP, J0, Opcode("jr *", 2)) == J1.(addr := 2)
  {
    Byte03();
    RenderJr(3, "#0x03");
    assert Operand(JUMP, 0, 2) == 3;
    assert Render(Opcode("jr *", 2), Operand(JUMP, 0, 2)) == "jr #0x03";
    var d := Decode(JUMP, J0, Opcode("jr *", 2));
    assert d.code == J1.code;
    assert d.visited == J1.visited;
  }

  lemma JumpStep0() ensures Step(JUMP, J0) == Ok(J1) {
    JumpDecode0();
    JrTransfer(JUMP, J1.(addr := 2), 3);
    ControlOpcodes();
    StepSupported(JUMP, J0, Opcode("jr *", 2));
  }

  lemma JumpStep1() ensures Step(JUMP, J1) == Ok(J2) {
    assert Lookup(0x00) == Some(Opcode("nop", 1));
    StepFallsThrough(JUMP, J1);
    DecodeLine(JUMP, J1, Opcode("nop", 1), "nop");
    assert Mark(J1.visited, 5, 5) == J2.visited && J1.code[5 := NOP] == J2.code;
  }

  lemma JumpWalk()
    ensures Walk(JUMP, Initial(JUMP)) == Ok(J2)
  {
    assert Initial(JUMP) == J0;
    JumpStep0(); WalkSteps(JUMP, J0, J1);
    JumpStep1(); WalkSteps(JUMP, J1, J2);
    WalkStops(JUMP, J2);
  }

  lemma JumpReconcile()
    ensures Reconcile(JUMP, J2.visited, J2.code) == [JR_03, None, Some(".db 0x01"), Some(".db 0x02"), Some(".db 0x03"), NOP]
  {
    Db01();
    Db02();
    Db03();
    assert Reconcile(JUMP, J2.visited, J2.code) == [JR_03, None, Some(".db 0x01"), Some(".db 0x02"), Some(".db 0x03"), NOP];
  }

  /** The bytes jumped over are never visited and are listed as data. */
  lemma JumpListing()
    ensures Analyse(JUMP) == Ok(Listing([true, true, false, false, false, true],
                                        [JR_03, None, Some(".db 0x01"), Some(".db 0x02"), Some(".db 0x03"), NOP]))
  {
    JumpWalk();
    JumpReconcile();
    ListingOf(JUMP, J2, [JR_03, None, Some(".db 0x01"), Some(".db 0x02"), Some(".db 0x03"), NOP]);
  }

  // ---- test/flow.js:232-243: a call into a routine that returns ----

  const CALLS: seq<byte> := [0xcd, 0x05, 0x01, 0x00, 0x00, 0x00, 0xc9]
  const CALL_0105 := Some("call #0x0105")
  const C0 := State(0, [false, false, false, false, false, false, false], [None, None, None, None, None, None, None], [], 0)
  const C1 := State(5, [true, true, true, false, false, false, false], [CALL_0105, None, None, None, None, None, None], [3], 0)
  const C2 := State(6, [true, true, true, false, false, true, false], [CALL_0105, None, None, None, None, NOP, None], [3], 0)
  const C3 := State(3, [true, true, true, false, false, true, true], [CALL_0105, None, None, None, None, NOP, RET_LINE], [], 0)
  const C4 := State(4, [true, true, true, true, false, true, true], [CALL_0105, None, None, NOP, None, NOP, RET_LINE], [], 0)
  const C5 := State(5, [true, true, true, true, true, true, true], [CALL_0105, None, None, NOP, NOP, NOP, RET_LINE], [], 0)

  lemma CallsRender0()
    ensures Render(Opcode("call **", 3), Operand(CALLS, 0, 3)) == "call #0x0105"
  {
    CallsOperand0();
    Word0105();
    RenderCall(0x105, "#0x0105");
  }

  lemma CallsOperand0()
    ensures Operand(CALLS, 0, 3) == 0x105
  {
  }

  lemma CallsDecode0()
    ensures Decode(CALLS, C0, Opcode("call **", 3)) == C1.(addr := 3, stack := [])
  {
    CallsRender0();
    var d := Decode(CALLS, C0, Opcode("call **", 3));
    assert d.code == C1.code;
    assert d.visited == C1.visited;
  }

  lemma CallsStep0() ensures Step(CALLS, C0) == Ok(C1) {
    CallsDecode0();
    var d := C1.(addr := 3, stack := []);
    CallTransfer(CALLS, d, 0x105);
    assert d.(stack := d.stack + [d.addr], addr := 0x105 - START_ADDR) == C1;
    CallsOperand0();
    ControlOpcodes();
    StepSupported(CALLS, C0, Opcode("call **", 3));
  }

  lemma CallsStep1() ensures Step(CALLS, C1) == Ok(C2) {
    assert Lookup(0x00) == Some(Opcode("nop", 1));
    StepFallsThrough(CALLS, C1);
    DecodeLine(CALLS, C1, Opcode("nop", 1), "nop");
    assert Mark(C1.visited, 5, 5) == C2.visited && C1.code[5 := NOP] == C2.code;
  }

  lemma CallsStep2() ensures Step(CALLS, C2) == Ok(C3) {
    RetStep(CALLS, C2);
    assert Mark(C2.visited, 6, 6) == C3.visited && C2.code[6 := RET_LINE] == C3.code;
  }

  lemma CallsStep3() ensures Step(CALLS, C3) == Ok(C4) {
    assert Lookup(0x00) == Some(Opcode("nop", 1));
    StepFallsThrough(CALLS, C3);
    DecodeLine(CALLS, C3, Opcode("nop", 1), "nop");
    assert Mark(C3.visited, 3, 3) == C4.visited && C3.code[3 := NOP] == C4.code;
  }

  lemma CallsStep4() ensures Step(CALLS, C4) == Ok(C5) {
    assert Lookup(0x00) == Some(Opcode("nop", 1));
    StepFallsThrough(CALLS, C4);
    DecodeLine(CALLS, C4, Opcode("nop", 1), "nop");
    assert Mark(C4.visited, 4, 4) == C5.visited && C4.code[4 := NOP] == C5.code;
  }

  lemma CallsWalk()
    ensures Walk(CALLS, Initial(CALLS)) == Ok(C5)
  {
    assert Initial(CALLS) == C0;
    CallsStep0(); WalkSteps(CALLS, C0, C1);
    CallsStep1(); WalkSteps(CALLS, C1, C2);
    CallsWalk2();
  }

  lemma CallsWalk2()
    ensures Walk(CALLS, C2) == Ok(C5)
  {
    CallsStep2(); WalkSteps(CALLS, C2, C3);
    CallsStep3(); WalkSteps(CALLS, C3, C4);
    CallsStep4(); WalkSteps(CALLS, C4, C5);
    WalkStops(CALLS, C5);
  }

  lemma CallsReconcile()
    ensures Reconcile(CALLS, C5.visited, C5.code) == C5.code
  {
    assert Reconcile(CALLS, C5.visited, C5.code) == C5.code;
  }

  /** The routine is decoded first, then the return lands after the call and the rest is decoded. */
  lemma CallsListing()
    ensures Analyse(CALLS) == Ok(Listing(C5.visited, [CALL_0105, None, None, NOP, NOP, NOP, RET_LINE]))
  {
    CallsWalk();
    CallsReconcile();
    ListingOf(CALLS, C5, C5.code);
  }

  // ---- an API call: `rst 0x00` and its selector byte ----

  const API: seq<byte> := [0xc7, 0x00]

  lemma ApiWalk()
    ensures Walk(API, Initial(API)) == Ok(State(2, [true, true], [Some("rst 0x00"), Some(ApiLine(0x00))], [], 0))
  {
    var s0 := State(0, [false, false], [None, None], [], 0);
    var s1 := State(2, [true, true], [Some("rst 0x00"), Some(ApiLine(0x00))], [], 0);
    assert Initial(API) == s0;
    ApiStep(API, s0);
    assert Mark(Mark(s0.visited, 0, 0), 1, 1) == s1.visited;
    assert s0.code[0 := Some("rst 0x00")][1 := Some(ApiLine(0x00))] == s1.code;
    WalkSteps(API, s0, s1);
    WalkStops(API, s1);
  }

  /** Both bytes are visited and each has a line: the `rst` and the commented selector. */
  lemma ApiListing()
    ensures Analyse(API) == Ok(Listing([true, true], [Some("rst 0x00"), Some(ApiLine(0x00))]))
  {
    ApiWalk();
    var s := State(2, [true, true], [Some("rst 0x00"), Some(ApiLine(0x00))], [], 0);
    assert Reconcile(API, s.visited, s.code) == s.code;
    ListingOf(API, s, s.code);
  }

  // ---- `ret` with nothing pushed: a warning, and decoding falls through ----

  const LONE_RET: seq<byte> := [0xc9, 0x00]

  lemma LoneRetWalk()
    ensures Walk(LONE_RET, Initial(LONE_RET)) == Ok(State(2, [true, true], [RET_LINE, NOP], [], 1))
  {
    var s0 := State(0, [false, false], [None, None], [], 0);
    var s1 := State(1, [true, false], [RET_LINE, None], [], 1);
    var s2 := State(2, [true, true], [RET_LINE, NOP], [], 1);
    assert Initial(LONE_RET) == s0;
    RetEmptyStep(LONE_RET, s0);
    assert Mark(s0.visited, 0, 0) == s1.visited && s0.code[0 := RET_LINE] == s1.code;
    WalkSteps(LONE_RET, s0, s1);
    assert Lookup(0x00) == Some(Opcode("nop", 1));
    StepFallsThrough(LONE_RET, s1);
    DecodeLine(LONE_RET, s1, Opcode("nop", 1), "nop");
    assert Mark(s1.visited, 1, 1) == s2.visited && s1.code[1 := NOP] == s2.code;
    WalkSteps(LONE_RET, s1, s2);
    WalkStops(LONE_RET, s2);
  }

  // ---- the error paths ----

  /** An empty input: the very first read throws `Error('EOF')`. */
  lemma EmptyInput()
    ensures Disassembly([]) == Err(EndOfInput)
  {
  }

  /** An `rst` in the last byte: reading its selector throws `Error('EOF')`. */
  lemma ApiCallAtEnd()
    ensures Disassembly([0xc7]) == Err(EndOfInput)
  {
    var input: seq<byte> := [0xc7];
    var s0 := Initial(input);
    assert s0 == State(0, [false], [None], [], 0);
    StepApiCall(input, s0);
  }

  /** `ld b,*` with its operand missing: a read outside the input. */
  lemma TruncatedOperand()
    ensures Disassembly([0x06]) == Err(OutOfRange)
  {
    var input: seq<byte> := [0x06];
    var s0 := Initial(input);
    assert s0 == State(0, [false], [None], [], 0);
    assert Lookup(0x06) == Some(Opcode("ld b,*", 2));
    StepTruncated(input, s0);
  }

  /** `jr` back past index 0: the next opcode is read at a negative index. */
  lemma JumpBeforeStart()
    ensures Disassembly([0x18, 0xfc]) == Err(OutOfRange)
  {
    var input: seq<byte> := [0x18, 0xfc];
    var s0 := Initial(input);
    assert s0 == State(0, [false, false], [None, None], [], 0);
    var op := Opcode("jr *", 2);
    ControlOpcodes();
    StepSupported(input, s0, op);
    var d := Decode(input, s0, op);
    assert Operand(input, 0, 2) == 0xfc && ToSigned(0xfc) == -4;
    JrTransfer(input, d, 0xfc);
    var s1 := d.(addr := -2);
    WalkSteps(input, s0, s1);
  }

  // ---- a byte decoded both as an instruction and as an operand ----

  /**
   * `jr` forward to a `nop`, then `jr` back into the middle: the `ld bc,**` decoded at
   * index 2 takes indices 3 and 4 as its operand, although index 4 already holds the
   * `nop` line. The walk does not check that an instruction's operand bytes are unvisited.
   */
  const OVERLAP: seq<byte> := [0x18, 0x02, 0x01, 0x00, 0x00, 0x18, 0xfb]
  const JR_02 := Some("jr #0x02")
  const JR_FB := Some("jr #0xfb")
  const LD_BC_0 := Some("ld bc,#0x0000")
  const O0 := State(0, [false, false, false, false, false, false, false], [None, None, None, None, None, None, None], [], 0)
  const O1 := State(4, [true, true, false, false, false, false, false], [JR_02, None, None, None, None, None, None], [], 0)
  const O2 := State(5, [true, true, false, false, true, false, false], [JR_02, None, None, None, NOP, None, None], [], 0)
  const O3 := State(2, [true, true, false, false, true, true, true], [JR_02, None, None, None, NOP, JR_FB, None], [], 0)
  const O4 := State(5, [true, true, true, true, true, true, true], [JR_02, None, LD_BC_0, None, NOP, JR_FB, None], [], 0)

  lemma OverlapDecode0()
    ensures Decode(OVERLAP, O0, Opcode("jr *", 2)) == O1.(addr := 2)
  {
    Byte02();
    RenderJr(2, "#0x02");
    assert Operand(OVERLAP, 0, 2) == 2;
    assert Render(Opcode("jr *", 2), Operand(OVERLAP, 0, 2)) == "jr #0x02";
    var d := Decode(OVERLAP, O0, Opcode("jr *", 2));
    assert d.code == O1.code;
    assert d.visited == O1.visited;
  }

  lemma OverlapStep0() ensures Step(OVERLAP, O0) == Ok(O1) {
    OverlapDecode0();
    JrTransfer(OVERLAP, O1.(addr := 2), 2);
    ControlOpcodes();
    StepSupported(OVERLAP, O0, Opcode("jr *", 2));
  }

  lemma OverlapStep1() ensures Step(OVERLAP, O1) == Ok(O2) {
    assert Lookup(0x00) == Some(Opcode("nop", 1));
    StepFallsThrough(OVERLAP, O1);
    DecodeLine(OVERLAP, O1, Opcode("nop", 1), "nop");
    assert Mark(O1.visited, 4, 4) == O2.visited && O1.code[4 := NOP] == O2.code;
  }

  lemma OverlapDecode2()
    ensures Decode(OVERLAP, O2, Opcode("jr *", 2)) == O3.(addr := 7)
  {
    ByteFB();
    RenderJr(0xfb, "#0xfb");
    assert Operand(OVERLAP, 5, 2) == 0xfb;
    assert Render(Opcode("jr *", 2), Operand(OVERLAP, 5, 2)) == "jr #0xfb";
    var d := Decode(OVERLAP, O2, Opcode("jr *", 2));
    assert d.code == O3.code;
    assert d.visited == O3.visited;
  }

  lemma OverlapStep2() ensures Step(OVERLAP, O2) == Ok(O3) {
    OverlapDecode2();
    assert ToSigned(0xfb) == -5;
    JrTransfer(OVERLAP, O3.(addr := 7), 0xfb);
    ControlOpcodes();
    StepSupported(OVERLAP, O2, Opcode("jr *", 2));
  }

  lemma OverlapRender3()
    ensures Render(Opcode("ld bc,**", 3), Operand(OVERLAP, 2, 3)) == "ld bc,#0x0000"
  {
    assert Operand(OVERLAP, 2, 3) == 0;
    Word0000();
    RenderLdBc(0, "#0x0000");
  }

  lemma OverlapDecode3()
    ensures Decode(OVERLAP, O3, Opcode("ld bc,**", 3)) == O4
  {
    OverlapRender3();
    DecodeLine(OVERLAP, O3, Opcode("ld bc,**", 3), "ld bc,#0x0000");
    assert Mark(O3.visited, 2, 4) == O4.visited;
    assert O3.code[2 := LD_BC_0] == O4.code;
  }

  lemma OverlapStep3() ensures Step(OVERLAP, O3) == Ok(O4) {
    assert Lookup(0x01) == Some(Opcode("ld bc,**", 3));
    StepFallsThrough(OVERLAP, O3);
    OverlapDecode3();
  }

  /** Index 4 ends up both with a line of its own and inside the operand of the line at index 2. */
  lemma OverlapWalk()
    ensures Walk(OVERLAP, Initial(OVERLAP)) == Ok(O4)
  {
    assert Initial(OVERLAP) == O0;
    OverlapStep0(); WalkSteps(OVERLAP, O0, O1);
    OverlapStep1(); WalkSteps(OVERLAP, O1, O2);
    OverlapStep2(); WalkSteps(OVERLAP, O2, O3);
    OverlapStep3(); WalkSteps(OVERLAP, O3, O4);
    WalkStops(OVERLAP, O4);
  }

  // ---- an operand byte whose instruction line an API call overwrites ----

  /**
   * `jr` forward to a `ld b,*`, whose operand 0x42 is index 4; `jr` back to the `rst 0x00`
   * at index 2, whose selector is index 3. `handleApiCall_` replaces the `ld b,#0x42` line
   * at index 3 with the selector line, and index 4, visited, holds no line: the byte 0x42
   * is in no line of the listing.
   */
  const LOST: seq<byte> := [0x18, 0x01, 0xc7, 0x06, 0x42, 0x18, 0xfb]
  const JR_01 := Some("jr #0x01")
  const LD_B_42 := Some("ld b,#0x42")
  const RST_LINE := Some("rst 0x00")
  const L0 := State(0, [false, false, false, false, false, false, false], [None, None, None, None, None, None, None], [], 0)
  const L1 := State(3, [true, true, false, false, false, false, false], [JR_01, None, None, None, None, None, None], [], 0)
  const L2 := State(5, [true, true, false, true, true, false, false], [JR_01, None, None, LD_B_42, None, None, None], [], 0)
  const L3 := State(2, [true, true, false, true, true, true, true], [JR_01, None, None, LD_B_42, None, JR_FB, None], [], 0)
  const L4 := State(4, [true, true, true, true, true, true, true], [JR_01, None, RST_LINE, Some(ApiLine(0x06)), None, JR_FB, None], [], 0)

  lemma Byte01() ensures "#" + ToByteString(0x01) == "#0x01" { assert ToHex(1) == "1"; assert Repeat('0', 1) == "0"; }
  lemma Byte42() ensures "#" + ToByteString(0x42) == "#0x42" { assert ToHex(4) == "4"; assert ToHex(0x42) == "42"; assert Repeat('0', 0) == ""; }

  lemma LostDecode0()
    ensures Decode(LOST, L0, Opcode("jr *", 2)) == L1.(addr := 2)
  {
    Byte01();
    RenderJr(1, "#0x01");
    assert Operand(LOST, 0, 2) == 1;
    assert Render(Opcode("jr *", 2), Operand(LOST, 0, 2)) == "jr #0x01";
    var d := Decode(LOST, L0, Opcode("jr *", 2));
    assert d.code == L1.code;
    assert d.visited == L1.visited;
  }

  lemma LostStep0() ensures Step(LOST, L0) == Ok(L1) {
    LostDecode0();
    JrTransfer(LOST, L1.(addr := 2), 1);
    ControlOpcodes();
    StepSupported(LOST, L0, Opcode("jr *", 2));
  }

  lemma LostRender1()
    ensures Render(Opcode("ld b,*", 2), Operand(LOST, 3, 2)) == "ld b,#0x42"
  {
    Byte42();
    assert "ld b,*" == "ld b," + "*" + "";
    assert Operand(LOST, 3, 2) == 0x42;
    RenderFills(Opcode("ld b,*", 2), 0x42, "ld b,", "", "#0x42");
  }

  lemma LostDecode1()
    ensures Decode(LOST, L1, Opcode("ld b,*", 2)) == L2
  {
    LostRender1();
    DecodeLine(LOST, L1, Opcode("ld b,*", 2), "ld b,#0x42");
    assert Mark(L1.visited, 3, 4) == L2.visited;
    assert L1.code[3 := LD_B_42] == L2.code;
  }

  lemma LostStep1() ensures Step(LOST, L1) == Ok(L2) {
    assert Lookup(0x06) == Some(Opcode("ld b,*", 2));
    StepFallsThrough(LOST, L1);
    LostDecode1();
  }

  lemma LostDecode2()
    ensures Decode(LOST, L2, Opcode("jr *", 2)) == L3.(addr := 7)
  {
    ByteFB();
    RenderJr(0xfb, "#0xfb");
    assert Operand(LOST, 5, 2) == 0xfb;
    assert Render(Opcode("jr *", 2), Operand(LOST, 5, 2)) == "jr #0xfb";
    var d := Decode(LOST, L2, Opcode("jr *", 2));
    assert d.code == L3.code;
    assert d.visited == L3.visited;
  }

  lemma LostStep2() ensures Step(LOST, L2) == Ok(L3) {
    LostDecode2();
    assert ToSigned(0xfb) == -5;
    JrTransfer(LOST, L3.(addr := 7), 0xfb);
    ControlOpcodes();
    StepSupported(LOST, L2, Opcode("jr *", 2));
  }

  lemma LostStep3() ensures Step(LOST, L3) == Ok(L4) {
    ApiStep(LOST, L3);
    assert Mark(Mark(L3.visited, 2, 2), 3, 3) == L4.visited;
    assert L3.code[2 := RST_LINE][3 := Some(ApiLine(LOST[3]))] == L4.code;
  }

  lemma LostWalk2()
    ensures Walk(LOST, L2) == Ok(L4)
  {
    LostStep2(); WalkSteps(LOST, L2, L3);
    LostStep3(); WalkSteps(LOST, L3, L4);
    WalkStops(LOST, L4);
  }

  lemma LostWalk()
    ensures Walk(LOST, Initial(LOST)) == Ok(L4)
  {
    assert Initial(LOST) == L0;
    LostStep0(); WalkSteps(LOST, L0, L1);
    LostStep1(); WalkSteps(LOST, L1, L2);
    LostWalk2();
  }

  /**
   * Every index is visited, index 3 holds the selector line instead of `ld b,#0x42`, and
   * index 4, the operand 0x42, holds no line.
   */
  lemma LostOperand()
    ensures Analyse(LOST) == Ok(Listing(L4.visited, L4.code))
    ensures L4.visited[4] && L4.code[4] == None && L4.code[3] == Some(ApiLine(0x06))
  {
    LostWalk();
    LostReconcile();
    ListingOf(LOST, L4, L4.code);
  }

  lemma LostReconcile()
    ensures Reconcile(LOST, L4.visited, L4.code) == L4.code
  {
    var r := Reconcile(LOST, L4.visited, L4.code);
    assert forall i :: 0 <= i < 7 ==> r[i] == L4.code[i];
  }
}
