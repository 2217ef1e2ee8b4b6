/**
 * The text `buildOutput_` produces: one line per filled slot, in ascending slot order,
 * each the slot's load address in four hex digits, four spaces and the slot's text.
 */
module Output {
  import opened Wrappers
  import opened Hex
  import opened Opcodes
  import opened Text
  import opened Trace
  import opened Coverage

  /**
   * The layout of one listing line: the address occupies the first six characters and
   * reads back as the slot's load address, and the slot's text starts at column 10.
   */
  lemma LineLayout(i: nat, line: string)
    requires i + START_ADDR < 0x1_0000
    ensures var f := FormatLine(i, line);
      && |f| == 10 + |line|
      && f[..2] == "0x" && IsHexString(f[2..6]) && ParseHex(f[2..6]) == i + START_ADDR
      && f[6..10] == "    " && f[10..] == line
  {
    var a := ToAddress(i + START_ADDR);
    var f := FormatLine(i, line);
    assert f[..6] == a && f[6..10] == "    " && f[10..] == line;
    assert f[2..6] == a[2..];
  }

  lemma FormatLineOneLine(i: nat, line: string)
    requires NoNewline(line)
    ensures NoNewline(FormatLine(i, line))
  {
    PaddedOneLine(i + START_ADDR, 4);
  }

  /** The `k`-th line of the listing is the formatted `k`-th filled slot. */
  lemma LinesInOrder(code: seq<Option<string>>)
    ensures var f := Filled(code); var ls := Lines(code);
      && |ls| == |f|
      && (forall k :: 0 <= k < |ls| ==> code[f[k]].Some? && ls[k] == FormatLine(f[k], code[f[k]].value))
      && (forall k, l :: 0 <= k < l < |f| ==> f[k] < f[l])
      && (forall i :: 0 <= i < |code| && code[i].Some? ==> i in f)
  {
  }

  /**
   * The text `disassemble` returns, split at its line breaks, gives back exactly the
   * listing lines; the first of them is the line of input index 0, at address 0x0100.
   */
  lemma OutputSplitsIntoLines(input: seq<byte>)
    requires Disassembly(input).Ok?
    ensures var code := Analyse(input).value.code;
      && code[0].Some?
      && SplitLines(Disassembly(input).value) == Lines(code)
      && Lines(code)[0] == FormatLine(0, code[0].value)
  {
    ListingCoverage(input);
    var code := Analyse(input).value.code;
    assert 0 in Filled(code);
    LinesOneLine(code);
    SplitJoin(Lines(code));
  }

  /** A listing whose slots hold no line break gives lines without one. */
  lemma LinesOneLine(code: seq<Option<string>>)
    requires forall i :: 0 <= i < |code| && code[i].Some? ==> NoNewline(code[i].value)
    ensures forall k :: 0 <= k < |Lines(code)| ==> '\n' !in Lines(code)[k]
  {
    var f := Filled(code);
    var ls := Lines(code);
    forall k | 0 <= k < |ls|
      ensures '\n' !in ls[k]
    {
      FormatLineOneLine(f[k], code[f[k]].value);
    }
  }
}
