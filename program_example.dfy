/** A two-line program as the assembler reads it, from the text of its
    lines through `strtok` and `compile_line` to the words the loop of
    `main` stores. */
module ProgramExample {
  import opened CInt
  import opened Lexer
  import opened Encoding
  import opened Compile
  import opened CompileProperties
  import opened Emit

  const MoviLine: string := "MOVI R0, 5\n"
  const AddLine: string := "ADD R1, R0, R0\n"

  /** `strtok` splits MOVI R0, 5 at the space, at the comma and space, and
      at the newline. */
  lemma MoviTokens()
    ensures Tokenize(MoviLine) == ["MOVI", "R0", "5"]
  {
    var toks, seps := ["MOVI", "R0", "5"], [" ", ", ", "\n"];
    assert Joined(toks[2..], seps[2..]) == "5\n";
    assert Joined(toks[1..], seps[1..]) == "R0, 5\n";
    assert Joined(toks, seps) == MoviLine;
    TokenizeJoined(toks, seps);
  }

  /** `strtok` splits ADD R1, R0, R0 into the mnemonic and three registers. */
  lemma AddTokens()
    ensures Tokenize(AddLine) == ["ADD", "R1", "R0", "R0"]
  {
    var toks, seps := ["ADD", "R1", "R0", "R0"], [" ", ", ", ", ", "\n"];
    assert Joined(toks[3..], seps[3..]) == "R0\n";
    assert Joined(toks[2..], seps[2..]) == "R0, R0\n";
    assert Joined(toks[1..], seps[1..]) == "R1, R0, R0\n";
    assert Joined(toks, seps) == AddLine;
    TokenizeJoined(toks, seps);
  }

  /** The tokens of the two lines are the spellings the line lemmas of
      `compile_line` speak about. */
  lemma Spellings()
    ensures ["MOVI", "R0", "5"] == [Name(Movi), RegisterName(0), Signed(5)]
    ensures ["ADD", "R1", "R0", "R0"] == [Name(Add), RegisterName(1), RegisterName(0), RegisterName(0)]
  {
    assert RegisterName(0) == "R0" && RegisterName(1) == "R1" && Signed(5) == "5";
  }

  /** A line whose tokens compile without a report stores their word. */
  lemma StoresWord(line: string, j: Indeterminate, toks: seq<string>, c: Call)
    requires Tokenize(line) == toks && toks != []
    requires CompileTokens(toks, j) == Emitted(c, [])
    ensures Outcome(line, j) == Stores(Encode(c), [])
  {
  }

  /** The tokens of MOVI R0, 5 compile to the `format_n8` call of MOVI. */
  lemma MoviCompiles(j: Indeterminate)
    ensures CompileTokens(["MOVI", "R0", "5"], j) == Emitted(N8Call(9, 0, 5, 0), [])
  {
    Spellings();
    Immediate8Line(Movi, 0, 5, j);
  }

  /** The tokens of ADD R1, R0, R0 compile to the `format_r3` call of ADD. */
  lemma AddCompiles(j: Indeterminate)
    ensures CompileTokens(["ADD", "R1", "R0", "R0"], j) == Emitted(R3Call(1, 0, 0, FuncAdd, 0), [])
  {
    Spellings();
    ThreeRegisterLine(Add, 1, 0, 0, j);
    assert FuncCode(Add) == FuncAdd && !IsComparison(Add);
  }

  /** The `format_n8` call of MOVI R0, 5 returns 0x9005. */
  lemma MoviWord()
    ensures Encode(N8Call(9, 0, 5, 0)) == 0x9005
  {
    EncodeN8(9, 0, 5, 0);
  }

  /** The `format_r3` call of ADD R1, R0, R0 returns 0x000C: dreg 1 lands
      in bits 5..3. */
  lemma AddWord()
    ensures Encode(R3Call(1, 0, 0, FuncAdd, 0)) == 0x000C
  {
    EncodeR3(1, 0, 0, FuncAdd, 0);
  }

  /** MOVI R0, 5 compiles to 0x9005, with no report. */
  lemma MoviOutcome(j: Indeterminate)
    ensures Outcome(MoviLine, j) == Stores(0x9005, [])
  {
    MoviTokens();
    MoviCompiles(j);
    StoresWord(MoviLine, j, ["MOVI", "R0", "5"], N8Call(9, 0, 5, 0));
    MoviWord();
  }

  /** ADD R1, R0, R0 compiles to 0x000C, with no report. */
  lemma AddOutcome(j: Indeterminate)
    ensures Outcome(AddLine, j) == Stores(0x000C, [])
  {
    AddTokens();
    AddCompiles(j);
    StoresWord(AddLine, j, ["ADD", "R1", "R0", "R0"], R3Call(1, 0, 0, FuncAdd, 0));
    AddWord();
  }

  /** An N8 call with operands in their fields encodes as their sum. */
  lemma EncodeN8(opcode: int, reg: int, n8: Int8, flag: int)
    requires 0 <= opcode < 16 && 0 <= reg < 8 && 0 <= flag < 2
    ensures Encode(N8Call(opcode, reg, n8, flag)) == opcode * 0x1000 + reg * 0x200 + flag * 0x100 + n8 % 0x100
    ensures 0 <= n8 ==> Encode(N8Call(opcode, reg, n8, flag)) == opcode * 0x1000 + reg * 0x200 + flag * 0x100 + n8
  {
    N8Layout(opcode, reg, n8, flag);
  }

  /** An R3 call with operands in their fields encodes as their sum. */
  lemma EncodeR3(dreg: int, areg: int, breg: int, f: int, isBoolean: int)
    requires 0 <= isBoolean < 2 && 0 <= areg < 8 && 0 <= breg < 8 && 0 <= dreg < 8 && 0 <= f < 8
    ensures Encode(R3Call(dreg, areg, breg, f, isBoolean)) == isBoolean * 0x1000 + areg * 0x200 + breg * 0x40 + dreg * 0x8 + f
  {
    R3Layout(dreg, areg, breg, f, isBoolean);
  }

  /** Two lines that are not blank and store words without a report: the
      loop stores both, in order, and counts both lines. */
  lemma TwoStores(lines: seq<string>, outs: seq<Effect>, w1: Word, w2: Word)
    requires |lines| == 2 && lines[0] != "\n" && lines[1] != "\n"
    requires outs == [Stores(w1, []), Stores(w2, [])]
    ensures Fold(lines, outs, 2) == Listing([w1, w2], 3, [], false)
  {
    assert Tag(1, []) == [] && Tag(2, []) == [];
    assert Fold(lines, outs, 1) == Listing([w1], 2, [], false);
  }

  /** The loop over the two lines stores 0x9005 then 0x000C, reports
      nothing, does not stop, and leaves `current_line` at 3. */
  lemma TwoLineProgram(j1: Indeterminate, j2: Indeterminate)
    ensures Assemble([MoviLine, AddLine], [j1, j2]) == Listing([0x9005, 0x000C], 3, [], false)
  {
    var lines := [MoviLine, AddLine];
    var outs := Outcomes(lines, [j1, j2]);
    MoviOutcome(j1);
    AddOutcome(j2);
    assert outs == [Stores(0x9005, []), Stores(0x000C, [])];
    TwoStores(lines, outs, 0x9005, 0x000C);
  }
}
