# nedc_disasm: a verified model of the e-Reader disassembler core

`Disasm` turns a binary for the Nintendo e-Reader's Z80-like processor into an assembly
listing. The program is loaded at address `0x0100`: input index `i` is program address
`i + 0x100`. The disassembler does not sweep the input linearly. It follows control flow
from index 0:

- it decodes the instruction at the current address;
- it marks the instruction's bytes visited and stores its rendered line;
- it then moves on:
  - to the next instruction;
  - or to the target of a `jr`, `jp` or `call`;
  - or to the address popped by `ret`;
  - or, for `rst 0x00` / `rst 0x08` (e-Reader API calls), past a selector byte that it
    writes as a commented `.db` line.

The walk stops when it reaches a visited address or leaves the input. Every byte it
never visited is then written as `.db 0xHH`. The result is one line per filled index,
`0xHHHH    text`, with the lines joined by line breaks.

The project has these modules:

- `Wrappers`: `Option`, `Result` and `Outcome`.
- `Hex`: hexadecimal numerals. It defines `toByteString`, `toWordString` and
  `toAddress_`, with their parsing round trip.
- `Opcodes`: the 256-entry `OPCODE_TABLE`. The 24 unsupported opcodes map to `None`.
- `Text`: the string operations the source relies on:
  - `String.prototype.replace` with a string pattern;
  - the column-20 comment of `commentLine_`;
  - `join('\n')` and its inverse.
- `Trace`: a value-level specification of one call of `disassemble`:
  - the state `reset_` leaves;
  - `Step`, one iteration of the loop;
  - `Walk`, the loop itself;
  - `Reconcile`, which is `handleUnvisitedAddresses_`;
  - the listing text, and `Run`, the whole method.
- `Coverage`: what a completed walk leaves behind, proved as an invariant of every step.
- `Output`: the layout of the returned text, and the fact that it splits back into its
  lines.
- `Disassembler`: the `Disasm` class, with mutable fields and arrays. Each of its methods
  is proved against the corresponding function of `Trace`. `Disassemble` returns exactly
  `Run` of its input.
- `Examples`: concrete runs:
  - the programs of the repository's tests;
  - the error paths;
  - an input in which one byte is both an instruction and an operand;
  - an input in which an API call overwrites an instruction's line, so that its operand
    byte appears in no line.

Where the tests and the code disagree, the model follows src/Disasm.js:

- The code writes no preamble and no labels, and `jp` has a `#` before its target.
- A conditional branch (`jr nz,*`, `jp z,**`, `call c,**`, ...) falls through to the next
  instruction, as any other instruction does.
- A `ret` with an empty stack warns and falls through.
- Unsupported opcodes do not throw. They become `.db` lines, and their byte stays
  unvisited.

The `Examples` lemmas about the test programs state the per-index lines the code
produces. Their instruction texts are those the tests list.

Errors are `Trace.Error`:

- `EndOfInput` is the `Error('EOF')` that `readByte_` throws when the current address
  equals the input length. This happens for an empty input, and for an `rst` in the last
  byte.
- `OutOfRange` stands for the failures of reads outside the input, which the source does
  not guard: an operand past the end, or a jump before the start.

## Model

| member | source | states |
|---|---|---|
| Hex.ToHex | src/Disasm.js:278 | `toString(16)` of a number: hex digits, no leading zero unless it is the only digit |
| Hex.ParseToHex | src/Disasm.js:278 | reading the numeral back gives the number |
| Hex.ToHexLength | src/Disasm.js:278-279 | the numeral has at most `w` digits exactly when the number is below 16^w |
| Hex.Padded | src/Disasm.js:277-280 | `0x`, then the digits, left-padded with zeros to the width; the digits read back as the number; exactly `2 + width` characters when the number fits, unpadded when it does not |
| Hex.ParseLeadingZeros | src/Disasm.js:279 | leading padding zeros do not change the value read |
| Hex.ToByteString | src/Disasm.js:277-280 | for a byte: `0x` and two hex digits that read back as the byte |
| Hex.ToWordString | src/Disasm.js:286-289 | for a 16-bit word: `0x` and four hex digits that read back as the word |
| Hex.ToAddress | src/Disasm.js:496-499 | for an address up to 0xffff: `0x` and four hex digits that read back as the address; wider addresses unpadded |
| Hex.WordStringInjective | src/Disasm.js:286-289 | distinct words are rendered as distinct strings |
| Opcodes.Lookup | src/Disasm.js:6-263 | `OPCODE_TABLE` entry by entry; its partner lemmas below state that the missing entries are exactly the unsupported list, that every size is 1 to 3, that no template has a line break, and which entries the `switch` opcodes have |
| Opcodes.UnsupportedExactly | src/Disasm.js:6-263 | a byte has no table entry exactly when it is one of the 24 opcodes test/test.js:19-21 lists as unsupported |
| Opcodes.NullsAreListed | src/Disasm.js:6-263 | every byte without an entry is in the unsupported list |
| Opcodes.ListedAreNull | src/Disasm.js:6-263 | every byte in the unsupported list has no entry |
| Opcodes.SizesInRange | src/Disasm.js:6-263 | every entry has size 1, 2 or 3 |
| Opcodes.TemplatesOneLine | src/Disasm.js:6-263 | no mnemonic template contains a line break |
| Trace.ControlOpcodes | src/Disasm.js:31-214 | the table entries of the six opcodes the `switch` handles: `jr *` (2 bytes), `jp **` (3), `ret` (1), `call **` (3), `rst 0x00` and `rst 0x08` (1) |
| Text.IndexOf | src/Disasm.js:321-327 | the first index at or after `i` where the pattern occurs, or none when it does not occur there |
| Text.ReplaceFirst | src/Disasm.js:321-327 | the text before the pattern's first occurrence, the replacement, then the rest; the text unchanged when the pattern does not occur; every character comes from the text or the replacement |
| Text.ReplaceAfter | src/Disasm.js:321-327 | when the pattern's first character does not occur in the prefix, the placeholder right after the prefix is the one replaced |
| Text.Repeat | src/Disasm.js:426-428 | `n` copies of one character: the spaces of the comment padding, and the zeros `toByteString`, `toWordString` and `toAddress_` pad with |
| Text.WithComment | src/Disasm.js:423-429 | the line, spaces up to column 20 (none when the line is already that long), `; ` and the comment |
| Text.SplitJoin | src/Disasm.js:484-489 | lines without line breaks, joined by `\n`, split back into the same lines |
| Trace.Initial | src/Disasm.js:432-458 | `reset_`: address 0, an empty stack, every index unvisited and without a line |
| Trace.ToSigned | src/Disasm.js:373-379 | `toSigned_`: a value in [-128, 128); the byte itself below 0x80, the byte minus 256 from 0x80 up |
| Trace.ToDataByte | src/Disasm.js:386-388 | `toDataByte_`: `.db 0x` and two hex digits that read back as the byte; one line |
| Trace.ApiLine | src/Disasm.js:411-416 | the selector line: the byte as `.db`, twelve spaces to column 20, `; API call` |
| Trace.Mark | src/Disasm.js:395-399 | `visit_(begin, end)`: exactly the flags in `begin..end` are set, all others kept |
| Trace.UnvisitedShrinks | src/Disasm.js:305-309 | setting a clear flag strictly lowers the number of unvisited indices: the walk's termination measure |
| Trace.UnvisitedMonotone | src/Disasm.js:305-309 | setting flags never raises the number of unvisited indices |
| Trace.Operand | src/Disasm.js:317-326 | no operand for size 1; the next byte for size 2; the next two bytes as a little-endian word below 0x10000 for size 3 |
| Trace.Render | src/Disasm.js:316-332 | the template with its operand substituted; `Trace.RenderFills` and `Trace.RenderOneLine` state what that gives |
| Trace.RenderFills | src/Disasm.js:316-328 | for a template `pre` + placeholder + `post` with no `*` in `pre`: `pre`, `#` and the word string (`**`, 3 bytes) or the byte string (`*`, 2 bytes), then `post` |
| Trace.RenderOneLine | src/Disasm.js:321-332 | a rendered instruction line contains no line break |
| Trace.Decode | src/Disasm.js:314-333 | the instruction's bytes set visited, its rendered line at its first index, the address past it; stack and warnings unchanged |
| Trace.ApiCall | src/Disasm.js:411-416 | `handleApiCall_`: `EOF` exactly when the current address equals the input length; otherwise the selector byte visited, given `ApiLine`, and skipped |
| Trace.Transfer | src/Disasm.js:335-358 | the `switch`: only `rst` changes flags or lines; every other opcode succeeds; the new state is well formed and extends the old one |
| Trace.Step | src/Disasm.js:305-362 | one iteration at an unvisited in-range address: the state grows (flags and lines are only added), and it makes progress: fewer unvisited indices, or the same number and a larger address |
| Trace.StepSupported | src/Disasm.js:314-358 | a supported opcode whose bytes fit: decode, then the `switch` on the decoded operand |
| Trace.StepUnsupported | src/Disasm.js:311-313 | an opcode without an entry: its `.db` line stored, its flag left clear, the address advanced by one, nothing else changed |
| Trace.StepTruncated | src/Disasm.js:317-327 | an instruction whose operand runs past the end of the input fails with `OutOfRange` |
| Trace.StepDecodes | src/Disasm.js:314-358 | any supported opcode other than `rst`: the new flags and lines are those of `Decode`; the warning count changes only for a `ret` with an empty stack |
| Trace.StepFallsThrough | src/Disasm.js:314-358 | an opcode outside the `switch`, including the conditional branches: the new state is exactly `Decode`, so the address moves to the next instruction |
| Trace.StepRelativeJump | src/Disasm.js:336-339 | `jr`: the address becomes the one after the instruction plus the signed offset byte; the stack and the warning count are unchanged |
| Trace.StepJump | src/Disasm.js:340-342 | `jp`: the address becomes the little-endian operand minus 0x100; the stack and the warning count are unchanged |
| Trace.StepCall | src/Disasm.js:350-353 | `call`: the address after the instruction is pushed, and the address becomes the operand minus 0x100; the warning count is unchanged |
| Trace.StepReturn | src/Disasm.js:343-349 | `ret`: with an empty stack, one more warning and the next address; otherwise the top of the stack popped into the address |
| Trace.StepApiCall | src/Disasm.js:354-357 | `rst 0x00`/`rst 0x08`: `EOF` when the `rst` is the last byte; otherwise both bytes visited, `rst` and the commented selector stored, the address two further, the stack and the warning count unchanged |
| Trace.Walk | src/Disasm.js:305-363 | the loop ends at an address past the input or at a visited one; the state only grows |
| Trace.WalkSteps | src/Disasm.js:305-362 | at an unvisited in-range address the walk continues from the state `Step` produced |
| Trace.WalkStops | src/Disasm.js:305-309 | at a visited address, or one outside the input, the walk stops where it is |
| Trace.Reconcile | src/Disasm.js:402-408 | `handleUnvisitedAddresses_`: a never-visited index holds its own byte as `.db`, a visited one keeps its line; `Disassembler.Disasm.HandleUnvisitedAddresses` computes it with its loop |
| Trace.Analyse | src/Disasm.js:301-365 | `EOF` for an empty input; otherwise the error of the walk from `Trace.Initial`, or its flags with `Trace.Reconcile` of its lines; `Coverage.ListingCoverage` states what the listing holds |
| Trace.FormatLine | src/Disasm.js:487 | one listing line; `Output.LineLayout` states its layout |
| Trace.Lines | src/Disasm.js:485-487 | the `flatMap` over the slots; `Output.LinesInOrder` states one line per filled index in ascending order |
| Text.JoinLines | src/Disasm.js:488 | `join('\n')`; `Text.SplitJoin` states that splitting undoes it |
| Trace.BuildOutput | src/Disasm.js:484-489 | `buildOutput_`; `Output.OutputSplitsIntoLines` states that the text splits back into the listing lines |
| Trace.Disassembly | src/Disasm.js:301-365 | the error of the analysis, or the text of its listing; `Examples.SingleNop` and the error examples fix concrete values |
| Trace.Run | src/Disasm.js:297-366 | `No input stream` without input, else `Trace.Disassembly`; `Disassembler.Disasm.Disassemble` is proved to compute it |
| Trace.Filled | src/Disasm.js:484-489 | the indices holding a line, each exactly once, in ascending order |
| Coverage.InitialInv | src/Disasm.js:432-458 | the invariant holds in the state `reset_` leaves |
| Coverage.UnsupportedKeepsInv | src/Disasm.js:311-313 | storing an unsupported opcode's `.db` line keeps the invariant |
| Coverage.DecodeKeepsInv | src/Disasm.js:314-333 | decoding an instruction keeps the invariant |
| Coverage.ApiCallKeepsInv | src/Disasm.js:411-416 | an `rst` and its selector line keep the invariant |
| Coverage.StepKeepsInv | src/Disasm.js:305-362 | every iteration keeps the invariant: every stored line is about its own index's byte (its `.db`, its API selector line, or its own table entry rendered with the operand bytes after it); unvisited indices hold nothing or their own `.db`; a visited one holds a line, or the index one or two before it is visited, starts a multi-byte opcode long enough to reach it, and holds some line (which need not render this byte); no line has a line break |
| Coverage.WalkKeepsInv | src/Disasm.js:305-363 | the whole walk keeps the invariant |
| Coverage.ListingCoverage | src/Disasm.js:402-408 | after `handleUnvisitedAddresses_`: every line is about its own index's byte (its `.db`, its API selector line, or its own table entry rendered with the operand bytes after it); every never-visited index holds its own byte as `.db`; every visited index holds a line, or the index one or two before it is visited, starts a multi-byte opcode long enough to reach it, and holds some line (which need not render this byte, see `Examples.LostOperand`); no line has a line break |
| Coverage.FirstSlotFilled | src/Disasm.js:302-313 | a run that succeeds had a non-empty input and has a line at index 0 |
| Output.LineLayout | src/Disasm.js:484-499 | a listing line is `0x`, four hex digits that read back as the load address, four spaces, then the stored text |
| Output.FormatLineOneLine | src/Disasm.js:484-489 | formatting a line without a line break adds none |
| Output.LinesInOrder | src/Disasm.js:484-489 | line `k` of the listing is the formatted `k`-th filled index; the indices ascend and none is skipped |
| Output.LinesOneLine | src/Disasm.js:484-489 | when no stored line has a line break, no listing line has one |
| Output.OutputSplitsIntoLines | src/Disasm.js:297-366 | the text a successful run returns, split at its line breaks, is exactly the listing lines, and the first is that of index 0 |
| Disassembler.Disasm.constructor | src/Disasm.js:267-271 | no input, address 0, an empty stack and empty arrays |
| Disassembler.Disasm.SetUint8Array | src/Disasm.js:292-294 | the input is replaced; no other field changes |
| Disassembler.Disasm.Reset | src/Disasm.js:432-458 | fresh arrays as long as the input; address 0, an empty stack and no warnings in every case; the state is `Trace.Initial` when there is input |
| Disassembler.Disasm.ReadByte | src/Disasm.js:473-478 | `EOF` exactly when the address equals the input length; otherwise the byte at `addr + offset`, or none outside the input |
| Disassembler.Disasm.ReadNextByte | src/Disasm.js:464-466 | `readByte_` at offset 0 |
| Disassembler.Disasm.Visit | src/Disasm.js:395-399 | the flags become `Trace.Mark` of the old flags |
| Disassembler.Disasm.CommentLine | src/Disasm.js:423-429 | only the line at `at` changes, to `Text.WithComment` of itself |
| Disassembler.Disasm.HandleApiCall | src/Disasm.js:411-416 | the state becomes `Trace.ApiCall` of the old state, or the method fails with its error |
| Disassembler.Disasm.Control | src/Disasm.js:335-358 | the state becomes `Trace.Transfer` of the old state, or the method fails with its error |
| Disassembler.Disasm.DecodeInstruction | src/Disasm.js:314-333 | fails with `OutOfRange` exactly when the instruction runs past the input; otherwise returns the operand and the state becomes `Trace.Decode` |
| Disassembler.Disasm.Execute | src/Disasm.js:310-358 | one loop iteration: the state becomes `Trace.Step` of the old state, or the method fails with its error |
| Disassembler.Disasm.HandleUnvisitedAddresses | src/Disasm.js:402-408 | the lines become `Trace.Reconcile`: never-visited indices get their own `.db`, the others keep theirs |
| Disassembler.Disasm.Disassemble | src/Disasm.js:297-366 | returns exactly `Trace.Run` of its input, whatever state an earlier call left: `No input stream` without input, else the listing or the first error |
| Disassembler.DisassembleTwice | src/Disasm.js:297-301 | two calls in a row return the same result, because each starts with `reset_` |
| Examples.SingleNop | test/test.js:13-16 | the input `[0x00]` gives the text `0x0100    nop` |
| Examples.DataListing | test/flow.js:31-40 | `[0, 0, 0, 0xff, 0]`: three `nop` lines, `.db 0xff` at index 3 (left unvisited), then `nop` |
| Examples.SizesListing | test/flow.js:42-56 | 1-, 3-, 1-, 2- and 1-byte instructions: `nop`, `ld bc,#0xcdab`, `ld (bc),a`, `ld c,#0xff`, `nop`, with the operand indices empty |
| Examples.JumpListing | src/Disasm.js:336-339 | the input of test/flow.js:75-78: `jr #0x03` skips three bytes, which become `.db 0x01`/`0x02`/`0x03`, and the `nop` at the target is decoded |
| Examples.CallsListing | test/flow.js:232-243 | `call #0x0105` runs the routine (`nop`, `ret`), the return goes back to the two `nop`s after the call, and the routine's `nop` is not decoded twice |
| Examples.ApiListing | src/Disasm.js:354-357 | `[0xc7, 0x00]`: `rst 0x00`, then the selector as `.db 0x00` commented `; API call` |
| Examples.LoneRetWalk | src/Disasm.js:343-349 | `ret` with nothing pushed: one warning, and the next byte is decoded |
| Examples.EmptyInput | src/Disasm.js:473-476 | an empty input fails with `EOF` |
| Examples.ApiCallAtEnd | src/Disasm.js:411-413 | an `rst` as the last byte fails with `EOF` when the selector is read |
| Examples.TruncatedOperand | src/Disasm.js:324-327 | a 2-byte instruction as the last byte fails |
| Examples.JumpBeforeStart | src/Disasm.js:336-339 | a `jr` to before index 0 fails when the byte there is looked up |
| Examples.LostOperand | src/Disasm.js:354-356 | `[0x18,0x01,0xc7,0x06,0x42,0x18,0xfb]`: every index visited, index 3 holds the selector line of the `rst` at 2 instead of `ld b,#0x42`, and index 4 (the operand 0x42) holds no line |
| Examples.OverlapWalk | src/Disasm.js:314-323 | a backward `jr` into the middle decodes `ld bc,**` over an index that already holds a `nop` line: a walk can make one byte both a line and an operand |

## Left out

- src/cli.js and src/Dumper.js are not part of this model. They read files, write the
  output and dump fields; this is I/O around the core.
- `console.warn('ret without pc')` is modelled as a counter (`warnings`), not as output.
- Trace.Step: when a 3-byte instruction's operand runs past the end, the model fails with
  `OutOfRange`. The JavaScript instead renders `#0x0NaN` (both operand bytes missing) or
  uses a zero high byte (only the last one missing). It also sets `visited` flags past the
  end of the input. The run then goes on, except for a `jp` or `call` whose high byte is
  missing: its target is the low byte minus 0x100, a negative index, and the next
  iteration throws a `TypeError` as for any negative target. Neither accident is
  reproduced.
- Trace.StepTruncated: states the `OutOfRange` failure of the Trace.Step line above; for a
  3-byte instruction the JavaScript does not fail there.
- Disassembler.Disasm.DecodeInstruction: returns the same `OutOfRange` for a truncated
  operand, with the same gap for 3-byte instructions as the Trace.Step line above.
- Trace.Step: for 2-byte operands, and for a `jr`, `jp` or `call` whose target is a
  negative index, the JavaScript throws a `TypeError`. The model's `OutOfRange` stands for
  it. The JavaScript sets the flags before reading the operand; the model reads first. The
  difference is only in the state an error leaves behind, which `disassemble` discards.
- Disassembler.Disasm: the JavaScript's growable `visited` and `code` arrays are
  fixed-length arrays, as long as the input. No index past the input is ever written once
  the truncated reads above fail.
- Disassembler.Disasm.Disassemble: the queue is a sequence of at most one entry, which is
  all the source's queue ever holds.
- Text.ReplaceFirst: the special replacement patterns of `String.prototype.replace` (`$&`,
  `$1`, ...) are not modelled. The replacements the source builds (`#0x..`) contain no `$`.
- Hex.ToHex: Number.prototype.toString(16) is defined by its digits, for non-negative
  integers only, which are the only numbers the source formats.
- The labels (`label_0x0105:`), the preamble and the `jp` target without `#` come from
  test/flow.js. The unsupported-opcode error string comes from test/test.js:24. The API
  names (`ER_API_FadeIn`) and the `erapi.asm` artifact come from test/erapi.js:20-31.
  src/Disasm.js implements none of them, so the model has none of them either.
- Coverage.ListingCoverage: "an index that was visited as an operand byte holds no line"
  does not hold in general. Examples.OverlapWalk gives an input where a backward jump
  decodes an instruction over an index that already has a line.
- Coverage.ListingCoverage: "every visited byte appears in some line" does not hold either.
  Examples.LostOperand gives an input where an `rst` one byte before a decoded `ld b,*`
  replaces its line with the selector line, so the operand byte 0x42 is visited, holds no
  line and is rendered by none. The contract therefore states only that an index one or
  two before a visited line-less index is visited, starts a multi-byte opcode long enough
  to reach it, and holds some line. That line is about its own index's byte, and it need
  not be the instruction whose operand this byte is.
- Opcodes.Lookup: the contents of the table are transcribed entry by entry. Beyond sizes,
  line breaks and the unsupported set, no property of the mnemonic texts is proved across
  the whole table.
