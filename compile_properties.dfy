/** What `compile_line` promises, stated over its specification
    `CompileTokens`: which lines fail and which always produce a word, what
    the register readers leave behind, which literals draw a warning, and
    that a line written in the assembler's canonical form decodes back to
    the instruction it spells. */
module CompileProperties {
  import opened CInt
  import opened Bits
  import opened Lexer
  import opened Encoding
  import opened Compile

  // ---------------------------------------------------------------------
  // get_2reg and get_3reg

  /** The n tokens from pos on are all there and all name a register. */
  predicate RegistersFrom(toks: seq<string>, pos: nat, n: nat)
  {
    pos + n <= |toks| && forall i :: pos <= i < pos + n ==> IsValidRegister(toks[i])
  }

  lemma RegistersFromStep(toks: seq<string>, pos: nat, n: nat)
    ensures RegistersFrom(toks, pos, n + 1)
        <==> pos < |toks| && IsValidRegister(toks[pos]) && RegistersFrom(toks, pos + 1, n)
  {
    if RegistersFrom(toks, pos, n + 1) {
      assert pos < |toks| && IsValidRegister(toks[pos]);
    }
  }

  /** `get_2reg` and `get_3reg` report nothing exactly when every register
      they read is there and valid, and then leave the cursor past them. */
  lemma {:induction false} ReadRegistersAccepted(toks: seq<string>, pos: nat, slots: seq<int>)
    requires pos <= |toks|
    ensures ReadRegisters(toks, pos, slots).diagnostics == [] <==> RegistersFrom(toks, pos, |slots|)
    ensures RegistersFrom(toks, pos, |slots|) ==> ReadRegisters(toks, pos, slots).next == pos + |slots|
    decreases |slots|
  {
    if slots != [] {
      RegistersFromStep(toks, pos, |slots| - 1);
      if FetchRegister(toks, pos).Fetched? {
        ReadRegistersAccepted(toks, pos + 1, slots[1..]);
      }
    }
  }

  /** The registers are read until one is refused: slot i receives the
      register number of token pos + i exactly when that token and every
      one before it name a register, and keeps its old value otherwise. */
  lemma {:induction false} ReadRegistersValues(toks: seq<string>, pos: nat, slots: seq<int>)
    requires pos <= |toks|
    ensures forall i :: 0 <= i < |slots| ==>
              ReadRegisters(toks, pos, slots).values[i]
                == if RegistersFrom(toks, pos, i + 1) then GetRegisterNum(toks[pos + i]) else slots[i]
    decreases |slots|
  {
    var r := ReadRegisters(toks, pos, slots);
    if slots != [] {
      var f := FetchRegister(toks, pos);
      if f.Fetched? {
        var rest := ReadRegisters(toks, pos + 1, slots[1..]);
        ReadRegistersValues(toks, pos + 1, slots[1..]);
        assert r.values == [f.num] + rest.values;
        forall i | 0 <= i < |slots|
          ensures r.values[i] == if RegistersFrom(toks, pos, i + 1) then GetRegisterNum(toks[pos + i]) else slots[i]
        {
          if i == 0 {
            assert RegistersFrom(toks, pos, 1);
          } else {
            RegistersFromStep(toks, pos, i);
            assert r.values[i] == rest.values[i - 1];
            assert slots[1..][i - 1] == slots[i];
            assert pos + 1 + (i - 1) == pos + i;
          }
        }
      } else {
        forall n | 1 <= n <= |slots|
          ensures !RegistersFrom(toks, pos, n)
        {
          RegistersFromStep(toks, pos, n - 1);
        }
      }
    }
  }

  /** Registers written as `R<k>` are read back as k, with nothing
      reported, as long as k's first digit is 0..7 (so `R12` is read as
      12). */
  lemma {:induction false} ReadCanonical(toks: seq<string>, pos: nat, regs: seq<int>, slots: seq<int>)
    requires |regs| == |slots| && pos + |regs| <= |toks|
    requires forall i :: 0 <= i < |regs| ==>
      0 <= regs[i] <= Int16Max && LeadingDigit(regs[i]) < 8 && toks[pos + i] == RegisterName(regs[i])
    ensures ReadRegisters(toks, pos, slots) == Registers(regs, [], pos + |regs|)
    decreases |slots|
  {
    if slots != [] {
      RegisterNameAccepted(regs[0]);
      assert toks[pos] == RegisterName(regs[0]);
      ReadCanonical(toks, pos + 1, regs[1..], slots[1..]);
      assert regs == [regs[0]] + regs[1..];
    }
  }

  // ---------------------------------------------------------------------
  // The branch each mnemonic takes

  lemma DispatchIn(toks: seq<string>, junk: Indeterminate)
    requires toks != [] && toks[0] == Name(In)
    ensures CompileTokens(toks, junk) == PortIn(toks, 1)
  {
    LookupName(In);
  }

  lemma DispatchOut(toks: seq<string>, junk: Indeterminate)
    requires toks != [] && toks[0] == Name(Out)
    ensures CompileTokens(toks, junk) == PortOut(toks, 1)
  {
    LookupName(Out);
  }

  lemma DispatchImmediate8(m: Mnemonic, toks: seq<string>, junk: Indeterminate)
    requires IsImmediate8(m) && toks != [] && toks[0] == Name(m)
    ensures CompileTokens(toks, junk) == Immediate8(m, toks, 1)
  {
    LookupName(m);
  }

  lemma DispatchThreeRegister(m: Mnemonic, toks: seq<string>, junk: Indeterminate)
    requires IsThreeRegister(m) && toks != [] && toks[0] == Name(m)
    ensures CompileTokens(toks, junk) == ThreeRegister(m, toks, 1, junk)
  {
    LookupName(m);
  }

  lemma DispatchNot(toks: seq<string>, junk: Indeterminate)
    requires toks != [] && toks[0] == Name(Not)
    ensures CompileTokens(toks, junk) == NotRegister(toks, 1, junk)
  {
    LookupName(Not);
  }

  lemma DispatchJalr(toks: seq<string>, junk: Indeterminate)
    requires toks != [] && toks[0] == Name(Jalr)
    ensures CompileTokens(toks, junk) == JumpRegister(toks, 1, junk)
  {
    LookupName(Jalr);
  }

  lemma DispatchAddi(toks: seq<string>, junk: Indeterminate)
    requires toks != [] && toks[0] == Name(Addi)
    ensures CompileTokens(toks, junk) == AddImmediate(toks, 1, junk)
  {
    LookupName(Addi);
  }

  lemma DispatchLoad(m: Mnemonic, toks: seq<string>, junk: Indeterminate)
    requires (m.Ld? || m.Ldb?) && toks != [] && toks[0] == Name(m)
    ensures CompileTokens(toks, junk) == Load(m, toks, 1)
  {
    LookupName(m);
  }

  lemma DispatchStore(m: Mnemonic, toks: seq<string>, junk: Indeterminate)
    requires (m.St? || m.Stb?) && toks != [] && toks[0] == Name(m)
    ensures CompileTokens(toks, junk) == Store(m, toks, 1)
  {
    LookupName(m);
  }

  // ---------------------------------------------------------------------
  // Which lines fail

  /** The refusal `get_register` reports for the token at pos. */
  function RegisterRefusal(toks: seq<string>, pos: nat): Diagnostic
  {
    if pos < |toks| then InvalidRegister(toks[pos]) else MissingRegister
  }

  /** IN needs a register and an address after it; nothing is said about
      the address. */
  lemma InOperands(toks: seq<string>, junk: Indeterminate)
    requires toks != [] && toks[0] == Name(In)
    ensures var r := CompileTokens(toks, junk);
      && (r.Failed? <==> |toks| < 3 || !IsValidRegister(toks[1]))
      && (r.Failed? ==> r.diagnostics == if FetchRegister(toks, 1).Fetched? then [MissingOperand("IN")] else [RegisterRefusal(toks, 1)])
      && (r.Emitted? ==> r.diagnostics == [])
  {
    DispatchIn(toks, junk);
  }

  /** OUT needs an address and a register after it. */
  lemma OutOperands(toks: seq<string>, junk: Indeterminate)
    requires toks != [] && toks[0] == Name(Out)
    ensures var r := CompileTokens(toks, junk);
      && (r.Failed? <==> |toks| < 3 || !IsValidRegister(toks[2]))
      && (r.Failed? ==> r.diagnostics == if |toks| < 2 then [MissingOperand("OUT")] else [RegisterRefusal(toks, 2)])
      && (r.Emitted? ==> r.diagnostics == [])
  {
    DispatchOut(toks, junk);
  }

  /** MOVI, MOVHI, BZ and BNZ need a register and a value after it. */
  lemma Immediate8Operands(m: Mnemonic, toks: seq<string>, junk: Indeterminate)
    requires IsImmediate8(m) && toks != [] && toks[0] == Name(m)
    ensures var r := CompileTokens(toks, junk);
      && (r.Failed? <==> |toks| < 3 || !IsValidRegister(toks[1]))
      && (r.Failed? ==> r.diagnostics == if FetchRegister(toks, 1).Fetched? then [MissingOperand(MessageName(m))] else [RegisterRefusal(toks, 1)])
  {
    DispatchImmediate8(m, toks, junk);
  }

  /** LD and LDB need a register and then a memory operand that parses. */
  lemma LoadOperands(m: Mnemonic, toks: seq<string>, junk: Indeterminate)
    requires (m.Ld? || m.Ldb?) && toks != [] && toks[0] == Name(m)
    ensures var r := CompileTokens(toks, junk);
      && (r.Failed? <==> |toks| < 3 || !IsValidRegister(toks[1]) || ParseMemory(toks[2]).Refused?)
      && (r.Failed? ==>
            r.diagnostics == (if !FetchRegister(toks, 1).Fetched? then [RegisterRefusal(toks, 1)]
                              else if |toks| < 3 then [MissingOperand(Name(m))]
                              else [ParseMemory(toks[2]).diagnostic]))
      && (r.Emitted? ==> r.diagnostics == [])
  {
    DispatchLoad(m, toks, junk);
  }

  /** ST and STB need a memory operand that parses and then a register. */
  lemma StoreOperands(m: Mnemonic, toks: seq<string>, junk: Indeterminate)
    requires (m.St? || m.Stb?) && toks != [] && toks[0] == Name(m)
    ensures var r := CompileTokens(toks, junk);
      && (r.Failed? <==> |toks| < 3 || ParseMemory(toks[1]).Refused? || !IsValidRegister(toks[2]))
      && (r.Failed? ==>
            r.diagnostics == (if |toks| < 2 then [MissingOperand(Name(m))]
                              else if ParseMemory(toks[1]).Refused? then [ParseMemory(toks[1]).diagnostic]
                              else [RegisterRefusal(toks, 2)]))
      && (r.Emitted? ==> r.diagnostics == [])
  {
    DispatchStore(m, toks, junk);
  }

  /** ADDI only fails when no token is left for the value after
      `get_2reg`, which stops at the first refused register: with a valid
      first register that takes four tokens, otherwise three. The failure
      reports what `get_2reg` reported, then the missing value. */
  lemma AddiOperands(toks: seq<string>, junk: Indeterminate)
    requires toks != [] && toks[0] == Name(Addi)
    ensures var r := CompileTokens(toks, junk);
      && (r.Failed? <==> |toks| < 3 || (|toks| == 3 && IsValidRegister(toks[1])))
      && (r.Failed? ==> r.diagnostics != [] && r.diagnostics[|r.diagnostics| - 1] == MissingOperand("ADDI"))
  {
    DispatchAddi(toks, junk);
    TwoRegistersNext(toks, 1, junk.d, junk.a);
    var r := ReadRegisters(toks, 1, [junk.d, junk.a]);
    var diagnostics := r.diagnostics + [MissingOperand("ADDI")];
    assert diagnostics[|diagnostics| - 1] == MissingOperand("ADDI");
  }

  /** Where `get_2reg` leaves the cursor: past the first token when it is
      refused, past the second otherwise (or at the end of the line). */
  lemma TwoRegistersNext(toks: seq<string>, pos: nat, d: int, a: int)
    ensures ReadRegisters(toks, pos, [d, a]).next ==
      if pos < |toks| && IsValidRegister(toks[pos]) then (if pos + 1 < |toks| then pos + 2 else pos + 1)
      else Advance(toks, pos)
  {
    if pos < |toks| && IsValidRegister(toks[pos]) {
      assert [d, a][1..] == [a];
      if pos + 1 < |toks| && IsValidRegister(toks[pos + 1]) {
        assert ReadRegisters(toks, pos + 1, [a]).next == ReadRegisters(toks, pos + 2, []).next;
      }
    }
  }

  /** ADD..CMPLEU, NOT and JALR do not look at what `get_3reg` and
      `get_2reg` return: they produce a word whatever follows the mnemonic,
      and it is clean exactly when all its registers are valid. */
  lemma RegisterFormsEmit(m: Mnemonic, toks: seq<string>, junk: Indeterminate)
    requires IsThreeRegister(m) || m == Not || m == Jalr
    requires toks != [] && toks[0] == Name(m)
    ensures var r := CompileTokens(toks, junk);
      && r.Emitted?
      && (r.diagnostics == [] <==> RegistersFrom(toks, 1, if IsThreeRegister(m) then 3 else 2))
  {
    if m == Not {
      DispatchNot(toks, junk);
      ReadRegistersAccepted(toks, 1, [junk.d, junk.a]);
    } else if m == Jalr {
      DispatchJalr(toks, junk);
      ReadRegistersAccepted(toks, 1, [junk.d, junk.a]);
    } else {
      DispatchThreeRegister(m, toks, junk);
      ReadRegistersAccepted(toks, 1, [junk.d, junk.a, junk.b]);
    }
  }

  /** A line fails with "Unknown token" exactly when its first token is
      none of the 25 mnemonics; every other failure names an operand. */
  lemma UnknownMnemonic(toks: seq<string>, junk: Indeterminate)
    requires toks != []
    ensures CompileTokens(toks, junk) == Failed([UnknownToken(toks[0])]) <==> Lookup(toks[0]).None?
  {
    if Lookup(toks[0]).Some? {
      var m := Lookup(toks[0]).value;
      LookupSpelling(toks[0]);
      match m
      case In => InOperands(toks, junk);
      case Out => OutOperands(toks, junk);
      case Movi | Movhi | Bz | Bnz => Immediate8Operands(m, toks, junk);
      case Ld | Ldb => LoadOperands(m, toks, junk);
      case St | Stb => StoreOperands(m, toks, junk);
      case Addi => AddiOperands(toks, junk);
      case _ => RegisterFormsEmit(m, toks, junk);
    }
  }

  // ---------------------------------------------------------------------
  // Lines in canonical form decode to what they spell

  /** The memory operand `offset(Rbase)` as it is written. */
  function MemoryToken(offset: int, base: nat): string
  {
    Signed(offset) + "(R" + Decimal(base) + ")"
  }

  /** The memory-operand parse reads back both numbers of `offset(Rbase)`. */
  lemma MemoryOperandRoundTrip(offset: int, base: nat)
    requires Int32Min <= offset <= Int32Max && base <= Int32Max
    ensures ParseMemory(MemoryToken(offset, base)) == Parsed(Memory(offset, base))
  {
    MemoryTokenParts(offset, base);
    ParseLongSigned(offset, "(R" + Decimal(base) + ")");
    ParseLongSigned(base, ")");
  }

  lemma MemoryTokenParts(offset: int, base: nat)
    ensures var t := MemoryToken(offset, base); var n := |Signed(offset)|;
      && t == Signed(offset) + ("(R" + Decimal(base) + ")")
      && CharAt(t, n) == '(' && CharAt(t, n + 1) == 'R'
      && t[n + 2..] == Signed(base) + ")"
  {
    assert MemoryToken(offset, base) == Signed(offset) + ("(R" + Decimal(base) + ")");
    Parenthesised(Signed(offset), Decimal(base));
  }

  lemma Parenthesised(s: string, d: string)
    ensures var t := s + ("(R" + d + ")");
      CharAt(t, |s|) == '(' && CharAt(t, |s| + 1) == 'R' && t[|s| + 2..] == d + ")"
  {
    var t := s + ("(R" + d + ")");
    assert t[|s|..] == "(R" + d + ")";
  }

  /** A register number `R<k>` passes for: its leading digit is 0..7 and
      it fits an `int16_t`. */
  predicate Nameable(k: nat)
  {
    k <= Int16Max && LeadingDigit(k) < 8
  }

  /** ADD..CMPLEU d, a, b: `format_r3` receives the registers in the
      order d, a, b read off the line, the mnemonic's function code, and
      is_boolean 1 exactly for the comparisons. Any register number that
      passes for one is passed on as it is, R12 included. */
  lemma ThreeRegisterLine(m: Mnemonic, d: nat, a: nat, b: nat, junk: Indeterminate)
    requires IsThreeRegister(m) && Nameable(d) && Nameable(a) && Nameable(b)
    ensures CompileTokens([Name(m), RegisterName(d), RegisterName(a), RegisterName(b)], junk)
         == Emitted(R3Call(d, a, b, FuncCode(m), if IsComparison(m) then 1 else 0), [])
  {
    var toks := [Name(m), RegisterName(d), RegisterName(a), RegisterName(b)];
    DispatchThreeRegister(m, toks, junk);
    ReadCanonical(toks, 1, [d, a, b], [junk.d, junk.a, junk.b]);
  }

  /** NOT d, a: function code 3 with b left at 0. */
  lemma NotLine(d: nat, a: nat, junk: Indeterminate)
    requires d < 8 && a < 8
    ensures CompileTokens([Name(Not), RegisterName(d), RegisterName(a)], junk)
         == Emitted(R3Call(d, a, 0, FuncNot, 0), [])
  {
    var toks := [Name(Not), RegisterName(d), RegisterName(a)];
    DispatchNot(toks, junk);
    ReadCanonical(toks, 1, [d, a], [junk.d, junk.a]);
  }

  /** JALR d, a: opcode 7, a in the areg field, d in the dbreg field and a
      zero immediate. */
  lemma JalrLine(d: nat, a: nat, junk: Indeterminate)
    requires d < 8 && a < 8
    ensures CompileTokens([Name(Jalr), RegisterName(d), RegisterName(a)], junk)
         == Emitted(N6Call(7, a, d, 0), [])
  {
    var toks := [Name(Jalr), RegisterName(d), RegisterName(a)];
    DispatchJalr(toks, junk);
    ReadCanonical(toks, 1, [d, a], [junk.d, junk.a]);
  }

  /** MOVI, MOVHI, BZ, BNZ reg, n: opcode 9 (moves) or 8 (branches); the
      flag is 0 for MOVI and 1 for the other three, BZ included; a literal
      outside -128..127 draws a warning, and the line still produces a
      word, carrying the literal truncated to 8 bits. */
  lemma Immediate8Line(m: Mnemonic, k: nat, n: int, junk: Indeterminate)
    requires IsImmediate8(m) && k < 8 && Int32Min <= n <= Int32Max
    ensures CompileTokens([Name(m), RegisterName(k), Signed(n)], junk)
         == Emitted(N8Call(if m.Movi? || m.Movhi? then 9 else 8, k, ToInt8(n), if m == Movi then 0 else 1),
                    if n < Int8Min || n > Int8Max then [RangeWarning(MessageName(m), n, 8)] else [])
  {
    var toks := [Name(m), RegisterName(k), Signed(n)];
    DispatchImmediate8(m, toks, junk);
    RegisterNameAccepted(k);
    assert Signed(n) + [] == Signed(n);
    ParseLongSigned(n, []);
    assert Signed(n)[0] != "BZ"[0];
  }

  /** IN reg, addr: opcode 10 with flag 0; the address is truncated to 8
      bits without a warning. */
  lemma InLine(k: nat, n: int, junk: Indeterminate)
    requires k < 8 && LongMin <= n <= LongMax
    ensures CompileTokens([Name(In), RegisterName(k), Signed(n)], junk)
         == Emitted(N8Call(10, k, ToInt8(n), 0), [])
  {
    var toks := [Name(In), RegisterName(k), Signed(n)];
    DispatchIn(toks, junk);
    RegisterNameAccepted(k);
    assert Signed(n) + [] == Signed(n);
    ParseLongSigned(n, []);
  }

  /** OUT addr, reg: opcode 10 with flag 1; the address comes first on the
      line and is truncated without a warning. */
  lemma OutLine(k: nat, n: int, junk: Indeterminate)
    requires k < 8 && LongMin <= n <= LongMax
    ensures CompileTokens([Name(Out), Signed(n), RegisterName(k)], junk)
         == Emitted(N8Call(10, k, ToInt8(n), 1), [])
  {
    var toks := [Name(Out), Signed(n), RegisterName(k)];
    DispatchOut(toks, junk);
    RegisterNameAccepted(k);
    assert Signed(n) + [] == Signed(n);
    ParseLongSigned(n, []);
  }

  /** LD and LDB reg, offset(Rbase): opcode 3 or 5, the base in the areg
      field, the loaded register in dbreg, and the offset, whatever its
      size, without a warning. */
  lemma LoadLine(m: Mnemonic, k: nat, offset: int, base: nat, junk: Indeterminate)
    requires (m.Ld? || m.Ldb?) && k < 8 && base <= Int32Max && Int32Min <= offset <= Int32Max
    ensures CompileTokens([Name(m), RegisterName(k), MemoryToken(offset, base)], junk)
         == Emitted(N6Call(if m.Ld? then 3 else 5, base, k, offset), [])
  {
    var toks := [Name(m), RegisterName(k), MemoryToken(offset, base)];
    DispatchLoad(m, toks, junk);
    RegisterNameAccepted(k);
    MemoryOperandRoundTrip(offset, base);
  }

  /** ST and STB offset(Rbase), reg: opcode 4 or 6, the memory operand
      first on the line. */
  lemma StoreLine(m: Mnemonic, k: nat, offset: int, base: nat, junk: Indeterminate)
    requires (m.St? || m.Stb?) && k < 8 && base <= Int32Max && Int32Min <= offset <= Int32Max
    ensures CompileTokens([Name(m), MemoryToken(offset, base), RegisterName(k)], junk)
         == Emitted(N6Call(if m.St? then 4 else 6, base, k, offset), [])
  {
    var toks := [Name(m), MemoryToken(offset, base), RegisterName(k)];
    DispatchStore(m, toks, junk);
    RegisterNameAccepted(k);
    MemoryOperandRoundTrip(offset, base);
  }

  /** ADDI d, a, n: opcode 2, a in areg, d in dbreg; a literal above 63 or
      below -31 draws a warning, and the word carries the literal narrowed
      to 8 bits in any case. */
  lemma AddiLine(d: nat, a: nat, n: int, junk: Indeterminate)
    requires d < 8 && a < 8 && Int32Min <= n <= Int32Max
    ensures CompileTokens([Name(Addi), RegisterName(d), RegisterName(a), Signed(n)], junk)
         == Emitted(N6Call(2, a, d, ToInt8(n)), if n > 63 || n < -31 then [RangeWarning("ADDI", n, 6)] else [])
  {
    var toks := [Name(Addi), RegisterName(d), RegisterName(a), Signed(n)];
    DispatchAddi(toks, junk);
    ReadCanonical(toks, 1, [d, a], [junk.d, junk.a]);
    assert Signed(n) + [] == Signed(n);
    ParseLongSigned(n, []);
    AddImmediateOf(toks, d, a, n);
  }

  lemma AddImmediateOf(toks: seq<string>, d: int, a: int, n: int)
    requires |toks| == 4 && ParseLong(toks[3]).value == n && Int32Min <= n <= Int32Max
    ensures AddImmediateValue(toks, Registers([d, a], [], 3))
         == Emitted(N6Call(2, a, d, ToInt8(n)), if n > 63 || n < -31 then [RangeWarning("ADDI", n, 6)] else [])
  {
    EmptyAppend([], Range6("ADDI", n));
  }

  // ---------------------------------------------------------------------
  // The word of a canonical line decodes to the instruction it spells

  lemma ThreeRegisterDecodes(m: Mnemonic, d: nat, a: nat, b: nat, junk: Indeterminate)
    requires IsThreeRegister(m) && d < 8 && a < 8 && b < 8
    ensures var r := CompileTokens([Name(m), RegisterName(d), RegisterName(a), RegisterName(b)], junk);
      r.Emitted? && Decode(r.Word()) == R3(IsComparison(m), a, b, d, FuncCode(m))
  {
    ThreeRegisterLine(m, d, a, b, junk);
    EncodeDecode(R3Call(d, a, b, FuncCode(m), if IsComparison(m) then 1 else 0));
  }

  lemma NotDecodes(d: nat, a: nat, junk: Indeterminate)
    requires d < 8 && a < 8
    ensures var r := CompileTokens([Name(Not), RegisterName(d), RegisterName(a)], junk);
      r.Emitted? && Decode(r.Word()) == R3(false, a, 0, d, FuncNot)
  {
    NotLine(d, a, junk);
    EncodeDecode(R3Call(d, a, 0, FuncNot, 0));
  }

  lemma JalrDecodes(d: nat, a: nat, junk: Indeterminate)
    requires d < 8 && a < 8
    ensures var r := CompileTokens([Name(Jalr), RegisterName(d), RegisterName(a)], junk);
      r.Emitted? && Decode(r.Word()) == N6(7, a, d, 0)
  {
    JalrLine(d, a, junk);
    EncodeDecode(N6Call(7, a, d, 0));
  }

  /** The 8-bit literal reads back as its value when it fits, and as its
      value modulo 256 otherwise. */
  lemma Immediate8Decodes(m: Mnemonic, k: nat, n: int, junk: Indeterminate)
    requires IsImmediate8(m) && k < 8 && Int32Min <= n <= Int32Max
    ensures var r := CompileTokens([Name(m), RegisterName(k), Signed(n)], junk);
      && r.Emitted?
      && Decode(r.Word()) == N8(if m.Movi? || m.Movhi? then 9 else 8, k, if m == Movi then 0 else 1, ToInt8(n))
      && (Int8Min <= n <= Int8Max ==> Decode(r.Word()).imm == n)
  {
    Immediate8Line(m, k, n, junk);
    EncodeDecode(N8Call(if m.Movi? || m.Movhi? then 9 else 8, k, ToInt8(n), if m == Movi then 0 else 1));
  }

  lemma InDecodes(k: nat, n: int, junk: Indeterminate)
    requires k < 8 && LongMin <= n <= LongMax
    ensures var r := CompileTokens([Name(In), RegisterName(k), Signed(n)], junk);
      r.Emitted? && Decode(r.Word()) == N8(10, k, 0, ToInt8(n))
  {
    InLine(k, n, junk);
    EncodeDecode(N8Call(10, k, ToInt8(n), 0));
  }

  lemma OutDecodes(k: nat, n: int, junk: Indeterminate)
    requires k < 8 && LongMin <= n <= LongMax
    ensures var r := CompileTokens([Name(Out), Signed(n), RegisterName(k)], junk);
      r.Emitted? && Decode(r.Word()) == N8(10, k, 1, ToInt8(n))
  {
    OutLine(k, n, junk);
    EncodeDecode(N8Call(10, k, ToInt8(n), 1));
  }

  /** With a base register 0..7 a load decodes to its fields, the offset
      kept to six bits: it reads back exactly when it is in -32..31. */
  lemma LoadDecodes(m: Mnemonic, k: nat, offset: int, base: nat, junk: Indeterminate)
    requires (m.Ld? || m.Ldb?) && k < 8 && base < 8 && Int32Min <= offset <= Int32Max
    ensures var r := CompileTokens([Name(m), RegisterName(k), MemoryToken(offset, base)], junk);
      && r.Emitted?
      && Decode(r.Word()) == N6(if m.Ld? then 3 else 5, base, k, SignExtend6(offset % 0x40))
      && (Decode(r.Word()).imm == offset <==> -32 <= offset < 32)
  {
    LoadLine(m, k, offset, base, junk);
    EncodeDecode(N6Call(if m.Ld? then 3 else 5, base, k, offset));
    SixBitExact(offset);
  }

  lemma StoreDecodes(m: Mnemonic, k: nat, offset: int, base: nat, junk: Indeterminate)
    requires (m.St? || m.Stb?) && k < 8 && base < 8 && Int32Min <= offset <= Int32Max
    ensures var r := CompileTokens([Name(m), MemoryToken(offset, base), RegisterName(k)], junk);
      && r.Emitted?
      && Decode(r.Word()) == N6(if m.St? then 4 else 6, base, k, SignExtend6(offset % 0x40))
      && (Decode(r.Word()).imm == offset <==> -32 <= offset < 32)
  {
    StoreLine(m, k, offset, base, junk);
    EncodeDecode(N6Call(if m.St? then 4 else 6, base, k, offset));
    SixBitExact(offset);
  }

  lemma AddiDecodes(d: nat, a: nat, n: int, junk: Indeterminate)
    requires d < 8 && a < 8 && Int32Min <= n <= Int32Max
    ensures var r := CompileTokens([Name(Addi), RegisterName(d), RegisterName(a), Signed(n)], junk);
      && r.Emitted?
      && Decode(r.Word()) == N6(2, a, d, SignExtend6(n % 0x40))
      && (Decode(r.Word()).imm == n <==> -32 <= n < 32)
  {
    AddiLine(d, a, n, junk);
    EncodeDecode(N6Call(2, a, d, ToInt8(n)));
    CongruentDivisor(ToInt8(n), n, 0x40, 4);
    SixBitExact(n);
  }

  lemma EmptyAppend<T>(x: seq<T>, y: seq<T>)
    requires x == []
    ensures x + y == y
  {
  }
}
