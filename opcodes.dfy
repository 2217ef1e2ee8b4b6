/**
 * The opcode table of src/Disasm.js (`OPCODE_TABLE`): every byte value maps to an
 * instruction template and its encoded size, or to nothing for the opcodes the
 * disassembler does not support. In a template, `*` stands for a byte operand and
 * `**` for a little-endian word operand. The table is laid out by high nibble, one
 * function per row of sixteen opcodes.
 */
module Opcodes {
  import opened Wrappers

  type byte = x: int | 0 <= x < 256

  datatype Opcode = Opcode(mnemonic: string, size: nat)

  predicate NoNewline(s: string) { '\n' !in s }

  /** `OPCODE_TABLE[b]`. */
  function Lookup(b: byte): Option<Opcode>
  {
    var lo := b % 16;
    match b / 16
    case 0 => Row0(lo)
    case 1 => Row1(lo)
    case 2 => Row2(lo)
    case 3 => Row3(lo)
    case 4 => Row4(lo)
    case 5 => Row5(lo)
    case 6 => Row6(lo)
    case 7 => Row7(lo)
    case 8 => Row8(lo)
    case 9 => Row9(lo)
    case 10 => RowA(lo)
    case 11 => RowB(lo)
    case 12 => RowC(lo)
    case 13 => RowD(lo)
    case 14 => RowE(lo)
    case _ => RowF(lo)
  }

  function Row0(lo: nat): (r: Option<Opcode>)
    requires lo < 16
    ensures r.Some? ==> NoNewline(r.value.mnemonic)
  {
    match lo
    case 0 => Some(Opcode("nop", 1))
    case 1 => Some(Opcode("ld bc,**", 3))
    case 2 => Some(Opcode("ld (bc),a", 1))
    case 3 => Some(Opcode("inc bc", 1))
    case 4 => Some(Opcode("inc b", 1))
    case 5 => Some(Opcode("dec b", 1))
    case 6 => Some(Opcode("ld b,*", 2))
    case 7 => Some(Opcode("rlca", 1))
    case 8 => None
    case 9 => Some(Opcode("add hl,bc", 1))
    case 10 => Some(Opcode("ld a,(bc)", 1))
    case 11 => Some(Opcode("dec bc", 1))
    case 12 => Some(Opcode("inc c", 1))
    case 13 => Some(Opcode("dec c", 1))
    case 14 => Some(Opcode("ld c,*", 2))
    case _ => Some(Opcode("rrca", 1))
  }

  function Row1(lo: nat): (r: Option<Opcode>)
    requires lo < 16
    ensures r.Some? ==> NoNewline(r.value.mnemonic)
  {
    match lo
    case 0 => Some(Opcode("djnz *", 2))
    case 1 => Some(Opcode("ld de,**", 3))
    case 2 => Some(Opcode("ld (de),a", 1))
    case 3 => Some(Opcode("inc de", 1))
    case 4 => Some(Opcode("inc d", 1))
    case 5 => Some(Opcode("dec d", 1))
    case 6 => Some(Opcode("ld d,*", 2))
    case 7 => Some(Opcode("rla", 1))
    case 8 => Some(Opcode("jr *", 2))
    case 9 => Some(Opcode("add hl,de", 1))
    case 10 => Some(Opcode("ld a,(de)", 1))
    case 11 => Some(Opcode("dec de", 1))
    case 12 => Some(Opcode("inc e", 1))
    case 13 => Some(Opcode("dec e", 1))
    case 14 => Some(Opcode("ld e,*", 2))
    case _ => Some(Opcode("rra", 1))
  }

  function Row2(lo: nat): (r: Option<Opcode>)
    requires lo < 16
    ensures r.Some? ==> NoNewline(r.value.mnemonic)
  {
    match lo
    case 0 => Some(Opcode("jr nz,*", 2))
    case 1 => Some(Opcode("ld hl,**", 3))
    case 2 => Some(Opcode("ld (**),hl", 3))
    case 3 => Some(Opcode("inc hl", 1))
    case 4 => Some(Opcode("inc h", 1))
    case 5 => Some(Opcode("dec h", 1))
    case 6 => Some(Opcode("ld h,*", 2))
    case 7 => None
    case 8 => Some(Opcode("jr z,*", 2))
    case 9 => Some(Opcode("add hl,hl", 1))
    case 10 => Some(Opcode("ld hl,(**)", 3))
    case 11 => Some(Opcode("dec hl", 1))
    case 12 => Some(Opcode("inc l", 1))
    case 13 => Some(Opcode("dec l", 1))
    case 14 => Some(Opcode("ld l,*", 2))
    case _ => Some(Opcode("cpl", 1))
  }

  function Row3(lo: nat): (r: Option<Opcode>)
    requires lo < 16
    ensures r.Some? ==> NoNewline(r.value.mnemonic)
  {
    match lo
    case 0 => Some(Opcode("jr nc,*", 2))
    case 1 => Some(Opcode("ld sp,**", 3))
    case 2 => Some(Opcode("ld (**),a", 3))
    case 3 => Some(Opcode("inc sp", 1))
    case 4 => Some(Opcode("inc (hl)", 1))
    case 5 => Some(Opcode("dec (hl)", 1))
    case 6 => Some(Opcode("ld (hl),*", 2))
    case 7 => Some(Opcode("scf", 1))
    case 8 => Some(Opcode("jr c,*", 2))
    case 9 => Some(Opcode("add hl,sp", 1))
    case 10 => Some(Opcode("ld a,(**)", 3))
    case 11 => Some(Opcode("dec sp", 1))
    case 12 => Some(Opcode("inc a", 1))
    case 13 => Some(Opcode("dec a", 1))
    case 14 => Some(Opcode("ld a,*", 2))
    case _ => Some(Opcode("ccf", 1))
  }

  function Row4(lo: nat): (r: Option<Opcode>)
    requires lo < 16
    ensures r.Some? ==> NoNewline(r.value.mnemonic)
  {
    match lo
    case 0 => Some(Opcode("ld b,b", 1))
    case 1 => Some(Opcode("ld b,c", 1))
    case 2 => Some(Opcode("ld b,d", 1))
    case 3 => Some(Opcode("ld b,e", 1))
    case 4 => Some(Opcode("ld b,h", 1))
    case 5 => Some(Opcode("ld b,l", 1))
    case 6 => Some(Opcode("ld b,(hl)", 1))
    case 7 => Some(Opcode("ld b,a", 1))
    case 8 => Some(Opcode("ld c,b", 1))
    case 9 => Some(Opcode("ld c,c", 1))
    case 10 => Some(Opcode("ld c,d", 1))
    case 11 => Some(Opcode("ld c,e", 1))
    case 12 => Some(Opcode("ld c,h", 1))
    case 13 => Some(Opcode("ld c,l", 1))
    case 14 => Some(Opcode("ld c,(hl)", 1))
    case _ => Some(Opcode("ld c,a", 1))
  }

  function Row5(lo: nat): (r: Option<Opcode>)
    requires lo < 16
    ensures r.Some? ==> NoNewline(r.value.mnemonic)
  {
    match lo
    case 0 => Some(Opcode("ld d,b", 1))
    case 1 => Some(Opcode("ld d,c", 1))
    case 2 => Some(Opcode("ld d,d", 1))
    case 3 => Some(Opcode("ld d,e", 1))
    case 4 => Some(Opcode("ld d,h", 1))
    case 5 => Some(Opcode("ld d,l", 1))
    case 6 => Some(Opcode("ld d,(hl)", 1))
    case 7 => Some(Opcode("ld d,a", 1))
    case 8 => Some(Opcode("ld e,b", 1))
    case 9 => Some(Opcode("ld e,c", 1))
    case 10 => Some(Opcode("ld e,d", 1))
    case 11 => Some(Opcode("ld e,e", 1))
    case 12 => Some(Opcode("ld e,h", 1))
    case 13 => Some(Opcode("ld e,l", 1))
    case 14 => Some(Opcode("ld e,(hl)", 1))
    case _ => Some(Opcode("ld e,a", 1))
  }

  function Row6(lo: nat): (r: Option<Opcode>)
    requires lo < 16
    ensures r.Some? ==> NoNewline(r.value.mnemonic)
  {
    match lo
    case 0 => Some(Opcode("ld h,b", 1))
    case 1 => Some(Opcode("ld h,c", 1))
    case 2 => Some(Opcode("ld h,d", 1))
    case 3 => Some(Opcode("ld h,e", 1))
    case 4 => Some(Opcode("ld h,h", 1))
    case 5 => Some(Opcode("ld h,l", 1))
    case 6 => Some(Opcode("ld h,(hl)", 1))
    case 7 => Some(Opcode("ld h,a", 1))
    case 8 => Some(Opcode("ld l,b", 1))
    case 9 => Some(Opcode("ld l,c", 1))
    case 10 => Some(Opcode("ld l,d", 1))
    case 11 => Some(Opcode("ld l,e", 1))
    case 12 => Some(Opcode("ld l,h", 1))
    case 13 => Some(Opcode("ld l,l", 1))
    case 14 => Some(Opcode("ld l,(hl)", 1))
    case _ => Some(Opcode("ld l,a", 1))
  }

  function Row7(lo: nat): (r: Option<Opcode>)
    requires lo < 16
    ensures r.Some? ==> NoNewline(r.value.mnemonic)
  {
    match lo
    case 0 => Some(Opcode("ld (hl),b", 1))
    case 1 => Some(Opcode("ld (hl),c", 1))
    case 2 => Some(Opcode("ld (hl),d", 1))
    case 3 => Some(Opcode("ld (hl),e", 1))
    case 4 => Some(Opcode("ld (hl),h", 1))
    case 5 => Some(Opcode("ld (hl),l", 1))
    case 6 => Some(Opcode("wait a", 1))
    case 7 => Some(Opcode("ld (hl),a", 1))
    case 8 => Some(Opcode("ld a,b", 1))
    case 9 => Some(Opcode("ld a,c", 1))
    case 10 => Some(Opcode("ld a,d", 1))
    case 11 => Some(Opcode("ld a,e", 1))
    case 12 => Some(Opcode("ld a,h", 1))
    case 13 => Some(Opcode("ld a,l", 1))
    case 14 => Some(Opcode("ld a,(hl)", 1))
    case _ => Some(Opcode("ld a,a", 1))
  }

  function Row8(lo: nat): (r: Option<Opcode>)
    requires lo < 16
    ensures r.Some? ==> NoNewline(r.value.mnemonic)
  {
    match lo
    case 0 => Some(Opcode("add a,b", 1))
    case 1 => Some(Opcode("add a,c", 1))
    case 2 => Some(Opcode("add a,d", 1))
    case 3 => Some(Opcode("add a,e", 1))
    case 4 => Some(Opcode("add a,h", 1))
    case 5 => Some(Opcode("add a,l", 1))
    case 6 => Some(Opcode("add a,(hl)", 1))
    case 7 => Some(Opcode("add a,a", 1))
    case 8 => Some(Opcode("adc a,b", 1))
    case 9 => Some(Opcode("adc a,c", 1))
    case 10 => Some(Opcode("adc a,d", 1))
    case 11 => Some(Opcode("adc a,e", 1))
    case 12 => Some(Opcode("adc a,h", 1))
    case 13 => Some(Opcode("adc a,l", 1))
    case 14 => Some(Opcode("adc a,(hl)", 1))
    case _ => Some(Opcode("adc a,a", 1))
  }

  function Row9(lo: nat): (r: Option<Opcode>)
    requires lo < 16
    ensures r.Some? ==> NoNewline(r.value.mnemonic)
  {
    match lo
    case 0 => Some(Opcode("sub b", 1))
    case 1 => Some(Opcode("sub c", 1))
    case 2 => Some(Opcode("sub d", 1))
    case 3 => Some(Opcode("sub e", 1))
    case 4 => Some(Opcode("sub h", 1))
    case 5 => Some(Opcode("sub l", 1))
    case 6 => Some(Opcode("sub (hl)", 1))
    case 7 => Some(Opcode("sub a", 1))
    case 8 => Some(Opcode("sbc a,b", 1))
    case 9 => Some(Opcode("sbc a,c", 1))
    case 10 => Some(Opcode("sbc a,d", 1))
    case 11 => Some(Opcode("sbc a,e", 1))
    case 12 => Some(Opcode("sbc a,h", 1))
    case 13 => Some(Opcode("sbc a,l", 1))
    case 14 => Some(Opcode("sbc a,(hl)", 1))
    case _ => Some(Opcode("sbc a,a", 1))
  }

  function RowA(lo: nat): (r: Option<Opcode>)
    requires lo < 16
    ensures r.Some? ==> NoNewline(r.value.mnemonic)
  {
    match lo
    case 0 => Some(Opcode("and b", 1))
    case 1 => Some(Opcode("and c", 1))
    case 2 => Some(Opcode("and d", 1))
    case 3 => Some(Opcode("and e", 1))
    case 4 => Some(Opcode("and h", 1))
    case 5 => Some(Opcode("and l", 1))
    case 6 => Some(Opcode("and (hl)", 1))
    case 7 => Some(Opcode("and a", 1))
    case 8 => Some(Opcode("xor b", 1))
    case 9 => Some(Opcode("xor c", 1))
    case 10 => Some(Opcode("xor d", 1))
    case 11 => Some(Opcode("xor e", 1))
    case 12 => Some(Opcode("xor h", 1))
    case 13 => Some(Opcode("xor l", 1))
    case 14 => Some(Opcode("xor (hl)", 1))
    case _ => Some(Opcode("xor a", 1))
  }

  function RowB(lo: nat): (r: Option<Opcode>)
    requires lo < 16
    ensures r.Some? ==> NoNewline(r.value.mnemonic)
  {
    match lo
    case 0 => Some(Opcode("or b", 1))
    case 1 => Some(Opcode("or c", 1))
    case 2 => Some(Opcode("or d", 1))
    case 3 => Some(Opcode("or e", 1))
    case 4 => Some(Opcode("or h", 1))
    case 5 => Some(Opcode("or l", 1))
    case 6 => Some(Opcode("or (hl)", 1))
    case 7 => Some(Opcode("or a", 1))
    case 8 => Some(Opcode("cp b", 1))
    case 9 => Some(Opcode("cp c", 1))
    case 10 => Some(Opcode("cp d", 1))
    case 11 => Some(Opcode("cp e", 1))
    case 12 => Some(Opcode("cp h", 1))
    case 13 => Some(Opcode("cp l", 1))
    case 14 => Some(Opcode("cp (hl)", 1))
    case _ => Some(Opcode("cp a", 1))
  }

  function RowC(lo: nat): (r: Option<Opcode>)
    requires lo < 16
    ensures r.Some? ==> NoNewline(r.value.mnemonic)
  {
    match lo
    case 0 => Some(Opcode("ret nz", 1))
    case 1 => Some(Opcode("pop bc", 1))
    case 2 => Some(Opcode("jp nz,**", 3))
    case 3 => Some(Opcode("jp **", 3))
    case 4 => Some(Opcode("call nz,**", 3))
    case 5 => Some(Opcode("push bc", 1))
    case 6 => Some(Opcode("add a,*", 2))
    case 7 => Some(Opcode("rst 0x00", 1))
    case 8 => Some(Opcode("ret z", 1))
    case 9 => Some(Opcode("ret", 1))
    case 10 => Some(Opcode("jp z,**", 3))
    case 11 => None
    case 12 => Some(Opcode("call z,**", 3))
    case 13 => Some(Opcode("call **", 3))
    case 14 => Some(Opcode("adc a,*", 2))
    case _ => Some(Opcode("rst 0x08", 1))
  }

  function RowD(lo: nat): (r: Option<Opcode>)
    requires lo < 16
    ensures r.Some? ==> NoNewline(r.value.mnemonic)
  {
    match lo
    case 0 => Some(Opcode("ret nc", 1))
    case 1 => Some(Opcode("pop de", 1))
    case 2 => Some(Opcode("jp nc,**", 3))
    case 3 => Some(Opcode("wait *", 2))
    case 4 => Some(Opcode("call nc,**", 3))
    case 5 => Some(Opcode("push de", 1))
    case 6 => Some(Opcode("sub *", 2))
    case 7 => None
    case 8 => Some(Opcode("ret c", 1))
    case 9 => None
    case 10 => Some(Opcode("jp c,**", 3))
    case 11 => None
    case 12 => Some(Opcode("call c,**", 3))
    case 13 => None
    case 14 => Some(Opcode("sbc a,*", 2))
    case _ => None
  }

  function RowE(lo: nat): (r: Option<Opcode>)
    requires lo < 16
    ensures r.Some? ==> NoNewline(r.value.mnemonic)
  {
    match lo
    case 0 => None
    case 1 => Some(Opcode("pop hl", 1))
    case 2 => None
    case 3 => Some(Opcode("ex (sp),hl", 1))
    case 4 => None
    case 5 => Some(Opcode("push hl", 1))
    case 6 => Some(Opcode("and *", 2))
    case 7 => None
    case 8 => None
    case 9 => Some(Opcode("jp (hl)", 1))
    case 10 => None
    case 11 => Some(Opcode("ex de,hl", 1))
    case 12 => None
    case 13 => None
    case 14 => Some(Opcode("xor *", 2))
    case _ => None
  }

  function RowF(lo: nat): (r: Option<Opcode>)
    requires lo < 16
    ensures r.Some? ==> NoNewline(r.value.mnemonic)
  {
    match lo
    case 0 => Some(Opcode("ret p", 1))
    case 1 => Some(Opcode("pop af", 1))
    case 2 => Some(Opcode("jp p,**", 3))
    case 3 => None
    case 4 => None
    case 5 => Some(Opcode("push af", 1))
    case 6 => Some(Opcode("or *", 2))
    case 7 => None
    case 8 => Some(Opcode("ret m", 1))
    case 9 => Some(Opcode("ld sp,hl", 1))
    case 10 => Some(Opcode("jp m,**", 3))
    case 11 => None
    case 12 => None
    case 13 => None
    case 14 => Some(Opcode("cp *", 2))
    case _ => None
  }

  /** The opcodes the table marks unsupported (the same 24 values test/test.js:19-21 lists). */
  const UNSUPPORTED: set<byte> := {0x08, 0x27, 0xcb, 0xd7, 0xd9, 0xdb, 0xdd, 0xdf, 0xe0, 0xe2, 0xe4, 0xe7, 0xe8, 0xea, 0xec, 0xed, 0xef, 0xf3, 0xf4, 0xf7, 0xfb, 0xfc, 0xfd, 0xff}

  lemma UnsupportedExactly(b: byte)
    ensures Lookup(b).None? <==> b in UNSUPPORTED
  {
    NullsAreListed(b);
    ListedAreNull(b);
  }

  lemma NullsAreListed(b: byte)
    ensures Lookup(b).None? ==> b in UNSUPPORTED
  {
  }

  lemma ListedAreNull(b: byte)
    ensures b in UNSUPPORTED ==> Lookup(b).None?
  {
  }

  lemma TemplatesOneLine(b: byte)
    ensures Lookup(b).Some? ==> NoNewline(Lookup(b).value.mnemonic)
  {
  }

  lemma SizesInRange(b: byte)
    ensures Lookup(b).Some? ==> 1 <= Lookup(b).value.size <= 3
  {
  }
}
