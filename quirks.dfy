/** Behaviour of `compile_line` that the instruction formats alone would
    not lead one to expect, each pinned to a concrete line, and two worked
    encodings: what the code computes for ADD R1, R0, R0 and MOVI R0, 5. */
module CompileQuirks {
  import opened CInt
  import opened Bits
  import opened Lexer
  import opened Encoding
  import opened Compile
  import opened CompileProperties

  /** BZ and BNZ take their flag from the value token, not from the
      mnemonic: with a numeric value both make the same encoder call, with
      flag 1 (only a range warning tells them apart, by name). */
  lemma BranchesAlike(k: nat, n: int, junk: Indeterminate)
    requires k < 8 && Int32Min <= n <= Int32Max
    ensures var z := CompileTokens([Name(Bz), RegisterName(k), Signed(n)], junk);
            var nz := CompileTokens([Name(Bnz), RegisterName(k), Signed(n)], junk);
      z.Emitted? && nz.Emitted? && z.call == nz.call && z.call == N8Call(8, k, ToInt8(n), 1)
  {
    Immediate8Line(Bz, k, n, junk);
    Immediate8Line(Bnz, k, n, junk);
  }

  /** ... and a BNZ whose value token is spelled `BZ` gets flag 0, with
      the value 0 that `strtol` reads from it. */
  lemma BranchFlagFromValue(k: nat, junk: Indeterminate)
    requires k < 8
    ensures CompileTokens([Name(Bnz), RegisterName(k), Name(Bz)], junk) == Emitted(N8Call(8, k, 0, 0), [])
  {
    var toks := [Name(Bnz), RegisterName(k), Name(Bz)];
    DispatchImmediate8(Bnz, toks, junk);
    RegisterNameAccepted(k);
    ParseLongNoDigits(Name(Bz));
  }

  /** The base register of a memory operand is not checked: `ST 0(R9), R0`
      is accepted without a word of warning, and its word is that of
      `LDB R0, 0(R1)`. */
  lemma StoreBaseUnchecked(junk: Indeterminate)
    ensures var st := CompileTokens([Name(St), MemoryToken(0, 9), RegisterName(0)], junk);
            var ldb := CompileTokens([Name(Ldb), RegisterName(0), MemoryToken(0, 1)], junk);
      && st == Emitted(N6Call(4, 9, 0, 0), [])
      && ldb == Emitted(N6Call(5, 1, 0, 0), [])
      && st.Word() == ldb.Word()
      && Decode(st.Word()) == N6(5, 1, 0, 0)
  {
    StoreLine(St, 0, 0, 9, junk);
    LoadLine(Ldb, 0, 0, 1, junk);
    BaseSpill();
  }

  /** ADDI goes on after a refused first register: `get_2reg` stops, the
      register token that follows is read as the value (0, since it
      starts with `R`), and the word carries the indeterminate d and a. */
  lemma AddiAfterRefusal(t: string, a: nat, u: string, junk: Indeterminate)
    requires !IsValidRegister(t)
    ensures CompileTokens([Name(Addi), t, RegisterName(a), u], junk)
         == Emitted(N6Call(2, junk.a, junk.d, 0), [InvalidRegister(t)])
  {
    var toks := [Name(Addi), t, RegisterName(a), u];
    DispatchAddi(toks, junk);
    assert ReadRegisters(toks, 1, [junk.d, junk.a]) == Registers([junk.d, junk.a], [InvalidRegister(t)], 2);
    ParseLongNoDigits(RegisterName(a));
    assert Range6("ADDI", 0) == [];
  }

  /** A register mnemonic with nothing after it still produces a word,
      built from whatever d, a and b held. */
  lemma BareThreeRegister(m: Mnemonic, junk: Indeterminate)
    requires IsThreeRegister(m)
    ensures CompileTokens([Name(m)], junk)
         == Emitted(R3Call(junk.d, junk.a, junk.b, FuncCode(m), if IsComparison(m) then 1 else 0), [MissingRegister])
  {
    DispatchThreeRegister(m, [Name(m)], junk);
  }

  /** ADDI's warning does not match the six bits it keeps: 32..63 pass
      without a warning and read back as n - 64, while -32, which fits,
      is warned about. */
  lemma AddiRangeMismatch(d: nat, a: nat, n: int, junk: Indeterminate)
    requires d < 8 && a < 8 && (32 <= n <= 63 || n == -32)
    ensures var r := CompileTokens([Name(Addi), RegisterName(d), RegisterName(a), Signed(n)], junk);
      && r.Emitted?
      && (r.diagnostics == [] <==> n > 0)
      && Decode(r.Word()) == N6(2, a, d, if n > 0 then n - 64 else n)
  {
    AddiLine(d, a, n, junk);
    AddiDecodes(d, a, n, junk);
    SixBitWrap(n);
  }

  /** `R12` passes as a register, and 12 does not fit the three bits of
      dreg: ADD R12, R0, R0 gives the word of ADD R4, R0, R1. */
  lemma R12Line(junk: Indeterminate)
    ensures var r := CompileTokens([Name(Add), RegisterName(12), RegisterName(0), RegisterName(0)], junk);
      && r == Emitted(R3Call(12, 0, 0, FuncAdd, 0), [])
      && r.Word() == Encode(R3Call(4, 0, 1, FuncAdd, 0))
  {
    assert LeadingDigit(12) == 1;
    ThreeRegisterLine(Add, 12, 0, 0, junk);
    R12Spill();
  }

  /** ADD R1, R0, R0 is the word 0x000C: dreg 1 in bits 5..3 and function
      code 4. */
  lemma AddExample(junk: Indeterminate)
    ensures var r := CompileTokens([Name(Add), RegisterName(1), RegisterName(0), RegisterName(0)], junk);
      r.Emitted? && r.Word() == 0x000C
  {
    ThreeRegisterLine(Add, 1, 0, 0, junk);
    R3Layout(1, 0, 0, FuncAdd, 0);
  }

  /** MOVI R0, 5 is the word 0x9005. */
  lemma MoviExample(junk: Indeterminate)
    ensures var r := CompileTokens([Name(Movi), RegisterName(0), Signed(5)], junk);
      r.Emitted? && r.Word() == 0x9005
  {
    Immediate8Line(Movi, 0, 5, junk);
    N8Layout(9, 0, 5, 0);
  }
}
