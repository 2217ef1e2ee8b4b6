/**
 * What a completed walk leaves behind. Every line is about its own index's byte. A
 * never-visited index holds that byte as a `.db` directive. A visited index holds a line
 * of its own, or lies in reach of a visited multi-byte opcode one or two bytes before it
 * that holds some line; that line need not render this byte, since an API call can
 * overwrite it (`Examples.LostOperand`). No line contains a line break, so the joined
 * listing splits back into exactly its lines.
 */
module Coverage {
  import opened Wrappers
  import opened Hex
  import opened Opcodes
  import opened Text
  import opened Trace

  /**
   * Index `j` was visited and holds a line, and the instruction decoded there is at
   * least `k` bytes long.
   */
  predicate Spans(input: seq<byte>, visited: seq<bool>, code: seq<Option<string>>, j: int, k: nat)
    requires |visited| == |input| && |code| == |input|
  {
    0 <= j < |input| && visited[j] && code[j].Some? && Lookup(input[j]).Some? && Lookup(input[j]).value.size >= k
  }

  /**
   * Index `i` is in reach of a visited multi-byte opcode at `i - 1` or `i - 2` that holds
   * some line, not necessarily the one rendered from it.
   */
  predicate Covered(input: seq<byte>, visited: seq<bool>, code: seq<Option<string>>, i: int)
    requires |visited| == |input| && |code| == |input|
  {
    Spans(input, visited, code, i - 1, 2) || Spans(input, visited, code, i - 2, 3)
  }

  /**
   * A line about index `i`'s own byte: the byte's own table entry rendered with the
   * operand bytes that follow it, the byte as an API selector, or the byte as data.
   */
  predicate OwnLine(input: seq<byte>, i: int, line: string)
    requires 0 <= i < |input|
  {
    || (&& Lookup(input[i]).Some?
        && var op := Lookup(input[i]).value;
           1 <= op.size <= 3 && i + op.size <= |input| && line == Render(op, Operand(input, i, op.size)))
    || line == ApiLine(input[i])
    || line == ToDataByte(input[i])
  }

  /** The slot of index `i`, when filled, holds one line about `i`'s own byte. */
  predicate SlotOk(input: seq<byte>, i: int, slot: Option<string>)
    requires 0 <= i < |input|
  {
    slot.Some? ==> NoNewline(slot.value) && OwnLine(input, i, slot.value)
  }

  /** What holds of index `i` at every point of the walk. */
  predicate Accounted(input: seq<byte>, visited: seq<bool>, code: seq<Option<string>>, i: int)
    requires |visited| == |input| && |code| == |input| && 0 <= i < |input|
  {
    && SlotOk(input, i, code[i])
    && (!visited[i] ==> code[i] == None || code[i] == Some(ToDataByte(input[i])))
    && (visited[i] ==> code[i].Some? || Covered(input, visited, code, i))
  }

  predicate Inv(input: seq<byte>, s: State) {
    && WellFormed(input, s)
    && forall i :: 0 <= i < |input| ==> Accounted(input, s.visited, s.code, i)
  }

  lemma InitialInv(input: seq<byte>)
    ensures Inv(input, Initial(input))
  {
  }

  /** Setting more flags and storing more lines never uncovers an operand byte. */
  lemma CoveredGrows(input: seq<byte>, visited: seq<bool>, visited': seq<bool>,
                     code: seq<Option<string>>, code': seq<Option<string>>, i: int)
    requires |visited| == |input| && |visited'| == |input| && |code| == |input| && |code'| == |input|
    requires forall j :: 0 <= j < |input| && visited[j] ==> visited'[j]
    requires forall j :: 0 <= j < |input| && code[j].Some? ==> code'[j].Some?
    ensures Covered(input, visited, code, i) ==> Covered(input, visited', code', i)
  {
  }

  /** A step that stores `line` at `a` and leaves index `i` and its flag alone keeps `i` accounted for. */
  lemma KeepsOthers(input: seq<byte>, s: State, t: State, a: int, line: string, i: int)
    requires WellFormed(input, s) && WellFormed(input, t) && 0 <= i < |input|
    requires Accounted(input, s.visited, s.code, i)
    requires LineStored(s.code, t.code, a, line)
    requires i != a && t.visited[i] == s.visited[i]
    requires forall j :: 0 <= j < |input| && s.visited[j] ==> t.visited[j]
    ensures Accounted(input, t.visited, t.code, i)
  {
    CoveredGrows(input, s.visited, t.visited, s.code, t.code, i);
  }

  /** An unsupported opcode stores its own `.db` line at an index that stays unvisited. */
  lemma UnsupportedKeepsInv(input: seq<byte>, s: State, t: State)
    requires Inv(input, s) && WellFormed(input, t) && 0 <= s.addr < |input|
    requires t.visited == s.visited && LineStored(s.code, t.code, s.addr, ToDataByte(input[s.addr]))
    ensures Inv(input, t)
  {
    forall i | 0 <= i < |input|
      ensures Accounted(input, t.visited, t.code, i)
    {
      if i != s.addr {
        KeepsOthers(input, s, t, s.addr, ToDataByte(input[s.addr]), i);
      }
    }
  }

  /** An operand byte of an instruction decoded at `a` is covered by it. */
  lemma OperandIndex(input: seq<byte>, s: State, t: State, a: int, op: Opcode, line: string, i: int)
    requires WellFormed(input, s) && WellFormed(input, t) && 0 <= a < i < a + op.size <= |input|
    requires Accounted(input, s.visited, s.code, i)
    requires op.size <= 3 && Lookup(input[a]) == Some(op)
    requires VisitedSpan(s.visited, t.visited, a, a + op.size)
    requires LineStored(s.code, t.code, a, line)
    ensures Accounted(input, t.visited, t.code, i)
  {
    var slot := s.code[i];
    assert SlotOk(input, i, slot);
    assert t.code[i] == slot && t.visited[i];
    if i == a + 1 {
      assert Spans(input, t.visited, t.code, i - 1, 2);
    } else {
      assert Spans(input, t.visited, t.code, i - 2, 3);
    }
  }

  /** Index `i` after an instruction of `op.size` bytes was decoded at `a`. */
  lemma DecodedIndex(input: seq<byte>, s: State, t: State, a: int, op: Opcode, line: string, i: int)
    requires WellFormed(input, s) && WellFormed(input, t) && 0 <= i < |input|
    requires Accounted(input, s.visited, s.code, i)
    requires 0 <= a && a + op.size <= |input| && 1 <= op.size <= 3 && Lookup(input[a]) == Some(op)
    requires VisitedSpan(s.visited, t.visited, a, a + op.size)
    requires LineStored(s.code, t.code, a, line) && NoNewline(line) && OwnLine(input, a, line)
    ensures Accounted(input, t.visited, t.code, i)
  {
    if i == a {
      assert SlotOk(input, i, t.code[i]);
    } else if a < i < a + op.size {
      OperandIndex(input, s, t, a, op, line, i);
    } else {
      KeepsOthers(input, s, t, a, line, i);
    }
  }

  /** A decoded instruction: its line is at its first byte, and its operand bytes are covered by it. */
  lemma DecodeKeepsInv(input: seq<byte>, s: State, t: State, op: Opcode, line: string)
    requires Inv(input, s) && WellFormed(input, t) && 0 <= s.addr
    requires s.addr + op.size <= |input| && 1 <= op.size <= 3 && Lookup(input[s.addr]) == Some(op)
    requires VisitedSpan(s.visited, t.visited, s.addr, s.addr + op.size)
    requires LineStored(s.code, t.code, s.addr, line) && NoNewline(line) && OwnLine(input, s.addr, line)
    ensures Inv(input, t)
  {
    forall i | 0 <= i < |input|
      ensures Accounted(input, t.visited, t.code, i)
    {
      DecodedIndex(input, s, t, s.addr, op, line, i);
    }
  }

  /** An `rst` and its selector byte: both visited, both with a line of their own. */
  lemma ApiCallKeepsInv(input: seq<byte>, s: State, t: State, line: string)
    requires Inv(input, s) && WellFormed(input, t) && 0 <= s.addr && s.addr + 1 < |input|
    requires VisitedSpan(s.visited, t.visited, s.addr, s.addr + 2)
    requires t.code[s.addr] == Some(line) && NoNewline(line) && OwnLine(input, s.addr, line)
    requires t.code[s.addr + 1] == Some(ApiLine(input[s.addr + 1]))
    requires forall i :: 0 <= i < |input| && i != s.addr && i != s.addr + 1 ==> t.code[i] == s.code[i]
    ensures Inv(input, t)
  {
    forall i | 0 <= i < |input|
      ensures Accounted(input, t.visited, t.code, i)
    {
      if i != s.addr && i != s.addr + 1 {
        assert Accounted(input, s.visited, s.code, i);
        CoveredGrows(input, s.visited, t.visited, s.code, t.code, i);
      }
    }
  }

  /** One step of the walk keeps every index accounted for. */
  lemma StepKeepsInv(input: seq<byte>, s: State)
    requires Inv(input, s) && 0 <= s.addr < |input| && !s.visited[s.addr]
    requires Step(input, s).Ok?
    ensures Inv(input, Step(input, s).value)
  {
    var a := s.addr;
    var t := Step(input, s).value;
    var b := input[a];
    SizesInRange(b);
    match Lookup(b)
    case None =>
      StepUnsupported(input, s);
      UnsupportedKeepsInv(input, s, t);
    case Some(op) =>
      if a + op.size > |input| {
        StepTruncated(input, s);
        assert false;
      } else if b == RST0 || b == RST8 {
        StepApiCall(input, s);
        if a + 1 == |input| {
          assert false;
        }
        var line := if b == RST0 then "rst 0x00" else "rst 0x08";
        ControlOpcodes();
        assert Render(op, Operand(input, a, 1)) == line;
        ApiCallKeepsInv(input, s, t, line);
      } else {
        TemplatesOneLine(b);
        StepDecodes(input, s);
        RenderOneLine(op, Operand(input, a, op.size));
        DecodeKeepsInv(input, s, t, op, Render(op, Operand(input, a, op.size)));
      }
  }

  /** The whole walk keeps every index accounted for. */
  lemma {:induction false} WalkKeepsInv(input: seq<byte>, s: State)
    requires Inv(input, s) && Walk(input, s).Ok?
    ensures Inv(input, Walk(input, s).value)
    decreases Unvisited(s.visited), |input| - s.addr
  {
    if 0 <= s.addr < |input| && !s.visited[s.addr] {
      var t := Step(input, s).value;
      StepKeepsInv(input, s);
      WalkKeepsInv(input, t);
    }
  }

  /**
   * After `handleUnvisitedAddresses_`: a never-visited index holds its own byte as data,
   * every other index holds a line or is `Covered` by a visited opcode one or two bytes
   * before it, every line is an `OwnLine` of its index, and no line contains a line break.
   */
  lemma ListingCoverage(input: seq<byte>)
    requires Analyse(input).Ok?
    ensures var l := Analyse(input).value;
      && |l.visited| == |input| && |l.code| == |input|
      && forall i :: 0 <= i < |input| ==>
           && (!l.visited[i] ==> l.code[i] == Some(ToDataByte(input[i])))
           && (l.visited[i] ==> l.code[i].Some? || Covered(input, l.visited, l.code, i))
           && (l.code[i].Some? ==> NoNewline(l.code[i].value) && OwnLine(input, i, l.code[i].value))
  {
    InitialInv(input);
    WalkKeepsInv(input, Initial(input));
    var s := Walk(input, Initial(input)).value;
    var l := Analyse(input).value;
    forall i | 0 <= i < |input|
      ensures (l.visited[i] ==> l.code[i].Some? || Covered(input, l.visited, l.code, i))
      ensures (l.code[i].Some? ==> NoNewline(l.code[i].value) && OwnLine(input, i, l.code[i].value))
    {
      assert Accounted(input, s.visited, s.code, i);
      CoveredGrows(input, s.visited, l.visited, s.code, l.code, i);
    }
  }

  /** The first input byte always has a line of its own. */
  lemma FirstSlotFilled(input: seq<byte>)
    requires Analyse(input).Ok?
    ensures |input| > 0 && Analyse(input).value.code[0].Some?
  {
    ListingCoverage(input);
  }
}
