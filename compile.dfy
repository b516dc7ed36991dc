/** `compile_line` (main.c:160-536): one source line to one 16-bit word.

    The first token selects the mnemonic; the operands are then pulled off
    `strtok`'s cursor one at a time. The specification is the family of
    functions `CompileTokens` and its helpers, stated over the token list
    and a cursor position; `CompileLine` is the imperative version, which
    walks a `Strtok` object exactly as the C code walks the hidden state of
    `strtok`, and is proved to agree with `CompileTokens`. */
module Compile {
  import opened CInt
  import opened Lexer
  import opened Encoding

  // Function codes of the R3 layout (main.c:11-24).
  const FuncAnd: Int16 := 0
  const FuncOr: Int16 := 1
  const FuncXor: Int16 := 2
  const FuncNot: Int16 := 3
  const FuncAdd: Int16 := 4
  const FuncSub: Int16 := 5
  const FuncSha: Int16 := 6
  const FuncShl: Int16 := 7
  const FuncCmpLt: Int16 := 0
  const FuncCmpLe: Int16 := 1
  const FuncCmpEq: Int16 := 3
  const FuncCmpLtu: Int16 := 4
  const FuncCmpLeu: Int16 := 5

  datatype Mnemonic =
    | In | Out | Movi | Movhi | Bz | Bnz
    | Add | Sub | And | Or | Xor | Not | Sha | Shl
    | CmpLt | CmpLe | CmpEq | CmpLtu | CmpLeu
    | Ld | Ldb | St | Stb | Jalr | Addi

  function Name(m: Mnemonic): string
  {
    match m
    case In => "IN"
    case Out => "OUT"
    case Movi => "MOVI"
    case Movhi => "MOVHI"
    case Bz => "BZ"
    case Bnz => "BNZ"
    case Add => "ADD"
    case Sub => "SUB"
    case And => "AND"
    case Or => "OR"
    case Xor => "XOR"
    case Not => "NOT"
    case Sha => "SHA"
    case Shl => "SHL"
    case CmpLt => "CMPLT"
    case CmpLe => "CMPLE"
    case CmpEq => "CMPEQ"
    case CmpLtu => "CMPLTU"
    case CmpLeu => "CMPLEU"
    case Ld => "LD"
    case Ldb => "LDB"
    case St => "ST"
    case Stb => "STB"
    case Jalr => "JALR"
    case Addi => "ADDI"
  }

  /** The mnemonics in the order `compile_line` compares the first token
      with them (BZ and BNZ share one branch, main.c:254). */
  const Chain: seq<Mnemonic> :=
    [In, Out, Movi, Movhi, Bz, Bnz, Add, Sub, And, Or, Xor, Not, Sha, Shl,
     CmpLt, CmpLe, CmpEq, CmpLtu, CmpLeu, Ld, Ldb, St, Stb, Jalr, Addi]

  /** The `strcmp` chain from its k-th comparison on. */
  function Find(t: string, k: nat): Option<Mnemonic>
    requires k <= |Chain|
    decreases |Chain| - k
  {
    if k == |Chain| then None
    else if t == Name(Chain[k]) then Some(Chain[k])
    else Find(t, k + 1)
  }

  /** The branch of `compile_line` the first token selects, if any. */
  function Lookup(t: string): Option<Mnemonic>
  {
    Find(t, 0)
  }

  /** A mnemonic read off the length and the characters of its spelling. */
  function Spelling(t: string): Option<Mnemonic>
  {
    if |t| < 2 then None
    else if |t| == 2 then
      if t[0] == 'I' then Some(In) else if t[0] == 'B' then Some(Bz) else if t[0] == 'O' then Some(Or)
      else if t[0] == 'L' then Some(Ld) else Some(St)
    else if |t| == 3 then
      if t[0] == 'O' then Some(Out) else if t[0] == 'B' then Some(Bnz) else if t[0] == 'X' then Some(Xor)
      else if t[0] == 'N' then Some(Not) else if t[0] == 'L' then Some(Ldb)
      else if t[0] == 'A' then (if t[1] == 'D' then Some(Add) else Some(And))
      else if t[1] == 'U' then Some(Sub) else if t[1] == 'T' then Some(Stb)
      else if t[2] == 'A' then Some(Sha) else Some(Shl)
    else if |t| == 4 then
      if t[0] == 'M' then Some(Movi) else if t[0] == 'J' then Some(Jalr) else Some(Addi)
    else if |t| == 5 then
      if t[0] == 'M' then Some(Movhi) else if t[4] == 'T' then Some(CmpLt) else if t[4] == 'E' then Some(CmpLe) else Some(CmpEq)
    else if t[4] == 'T' then Some(CmpLtu) else Some(CmpLeu)
  }

  lemma SpellingName(m: Mnemonic)
    ensures Spelling(Name(m)) == Some(m)
  {
  }

  /** No two mnemonics are spelled alike. */
  lemma NameInjective(x: Mnemonic, y: Mnemonic)
    ensures Name(x) == Name(y) <==> x == y
  {
    SpellingName(x);
    SpellingName(y);
  }

  lemma InChain(m: Mnemonic)
    ensures m in Chain
  {
  }

  lemma {:induction false} FindName(m: Mnemonic, k: nat, j: nat)
    requires k <= j < |Chain| && Chain[j] == m
    ensures Find(Name(m), k) == Some(m)
    decreases j - k
  {
    if Chain[k] != m {
      assert k < j;
      NameInjective(Chain[k], m);
      FindName(m, k + 1, j);
    }
  }

  lemma {:induction false} FindSpelling(t: string, k: nat)
    requires k <= |Chain|
    ensures Find(t, k).Some? ==> Name(Find(t, k).value) == t
    decreases |Chain| - k
  {
    if k < |Chain| && t != Name(Chain[k]) {
      FindSpelling(t, k + 1);
    }
  }

  /** Each mnemonic's spelling reaches its own branch of the chain. */
  lemma LookupName(m: Mnemonic)
    ensures Lookup(Name(m)) == Some(m)
  {
    InChain(m);
    var j :| 0 <= j < |Chain| && Chain[j] == m;
    FindName(m, 0, j);
  }

  /** A token that reaches a branch is that mnemonic's spelling. */
  lemma LookupSpelling(t: string)
    ensures Lookup(t).Some? ==> Name(Lookup(t).value) == t
  {
    FindSpelling(t, 0);
  }

  /** The `strcmp` chain recognises exactly the 25 mnemonic spellings,
      each as its own mnemonic. */
  lemma LookupInverse(t: string, m: Mnemonic)
    ensures Lookup(t) == Some(m) <==> t == Name(m)
  {
    LookupName(m);
    LookupSpelling(t);
  }

  /** The R3 mnemonics that read three registers with `get_3reg`. */
  predicate IsThreeRegister(m: Mnemonic)
  {
    m.Add? || m.Sub? || m.And? || m.Or? || m.Xor? || m.Sha? || m.Shl? || IsComparison(m)
  }

  predicate IsComparison(m: Mnemonic)
  {
    m.CmpLt? || m.CmpLe? || m.CmpEq? || m.CmpLtu? || m.CmpLeu?
  }

  /** The mnemonics with a register and an 8-bit literal. */
  predicate IsImmediate8(m: Mnemonic)
  {
    m.Movi? || m.Movhi? || m.Bz? || m.Bnz?
  }

  /** The function code each R3 mnemonic passes to `format_r3`. */
  function FuncCode(m: Mnemonic): Int16
    requires IsThreeRegister(m) || m == Not
  {
    match m
    case And => FuncAnd
    case Or => FuncOr
    case Xor => FuncXor
    case Not => FuncNot
    case Add => FuncAdd
    case Sub => FuncSub
    case Sha => FuncSha
    case Shl => FuncShl
    case CmpLt => FuncCmpLt
    case CmpLe => FuncCmpLe
    case CmpEq => FuncCmpEq
    case CmpLtu => FuncCmpLtu
    case CmpLeu => FuncCmpLeu
  }

  /** The opcode each N8 or N6 mnemonic passes to its encoder. */
  function Opcode(m: Mnemonic): Int16
    requires !IsThreeRegister(m) && m != Not
  {
    match m
    case In => 10
    case Out => 10
    case Movi => 9
    case Movhi => 9
    case Bz => 8
    case Bnz => 8
    case Addi => 2
    case Ld => 3
    case St => 4
    case Ldb => 5
    case Stb => 6
    case Jalr => 7
  }

  /** The name the messages about a missing value or an oversized literal
      use: MOVHI's messages say MOVI (main.c:239, main.c:246). */
  function MessageName(m: Mnemonic): string
  {
    if m == Movhi then "MOVI" else Name(m)
  }

  /** What `print_error` and `print_warning` report, without their text. */
  datatype Diagnostic =
    | MissingRegister                          // a register was expected, none left
    | InvalidRegister(token: string)           // the token is not shaped like R0..R7
    | MissingOperand(name: string)             // no address, value or Address(Reg) token
    | MissingParen                             // no '(' after a memory offset
    | MissingBaseRegister                      // no 'R' after that '('
    | UnknownToken(token: string)              // the first token is no mnemonic
    | RangeWarning(name: string, value: Int32, width: nat)  // literal wider than the field

  /** `PARSE_SUCCESS`, with the encoder call whose word is written to
      `*pOutOperation`, or `PARSE_ERROR` with nothing written; both with
      what was reported on the way. */
  datatype LineResult =
    | Emitted(call: Call, diagnostics: seq<Diagnostic>)
    | Failed(diagnostics: seq<Diagnostic>)
  {
    /** The word `compile_line` stores when it succeeds. */
    function Word(): Word
      requires Emitted?
    {
      Encode(call)
    }
  }

  /** The values the uninitialised locals `d`, `a` and `b` of the R3, NOT,
      JALR and ADDI branches happen to hold. */
  datatype Indeterminate = Indeterminate(d: int, a: int, b: int)

  // ---------------------------------------------------------------------
  // Specification over the token list

  /** What `get_register` finds under the cursor. */
  datatype Fetch = Fetched(num: Int16) | Missing | Invalid(token: string)

  function FetchRegister(toks: seq<string>, pos: nat): (f: Fetch)
    ensures f.Fetched? <==> pos < |toks| && IsValidRegister(toks[pos])
  {
    if pos >= |toks| then Missing
    else if !IsValidRegister(toks[pos]) then Invalid(toks[pos])
    else Fetched(GetRegisterNum(toks[pos]))
  }

  /** The cursor after one more `strtok(NULL, ...)`. */
  function Advance(toks: seq<string>, pos: nat): nat
  {
    if pos < |toks| then pos + 1 else pos
  }

  function Refusal(f: Fetch): seq<Diagnostic>
  {
    match f
    case Fetched(_) => []
    case Missing => [MissingRegister]
    case Invalid(t) => [InvalidRegister(t)]
  }

  /** Reports of `get_register` only: a register missing or malformed. */
  predicate RegisterErrors(ds: seq<Diagnostic>)
  {
    forall i :: 0 <= i < |ds| ==> ds[i].MissingRegister? || ds[i].InvalidRegister?
  }

  /** Reports made with `print_error`, none with `print_warning`. */
  predicate OnlyErrors(ds: seq<Diagnostic>)
  {
    forall i :: 0 <= i < |ds| ==> !ds[i].RangeWarning?
  }

  datatype Registers = Registers(values: seq<int>, diagnostics: seq<Diagnostic>, next: nat)

  /** `get_2reg` and `get_3reg`: registers are read in order until one is
      refused; the slots not reached keep what they held before. */
  function ReadRegisters(toks: seq<string>, pos: nat, slots: seq<int>): (r: Registers)
    ensures |r.values| == |slots|
    ensures pos <= r.next <= pos + |slots|
    ensures |r.diagnostics| <= 1
    ensures RegisterErrors(r.diagnostics)
    decreases |slots|
  {
    if slots == [] then Registers([], [], pos)
    else
      var f := FetchRegister(toks, pos);
      if f.Fetched? then
        var rest := ReadRegisters(toks, pos + 1, slots[1..]);
        Registers([f.num] + rest.values, rest.diagnostics, rest.next)
      else
        Registers(slots, Refusal(f), Advance(toks, pos))
  }

  /** The warning an 8-bit literal draws (main.c:220-222). */
  function Range8(name: string, val: Int32): seq<Diagnostic>
  {
    if val > Int8Max || val < Int8Min then [RangeWarning(name, val, 8)] else []
  }

  /** The warning ADDI's literal draws (main.c:520-523). */
  function Range6(name: string, val: Int32): seq<Diagnostic>
  {
    if val > 63 || val < -31 then [RangeWarning(name, val, 6)] else []
  }

  /** IN reg, addr. */
  function PortIn(toks: seq<string>, pos: nat): LineResult
  {
    var f := FetchRegister(toks, pos);
    if !f.Fetched? then Failed(Refusal(f))
    else if pos + 1 >= |toks| then Failed([MissingOperand("IN")])
    else Emitted(N8Call(Opcode(In), f.num, ToInt8(ParseLong(toks[pos + 1]).value), 0), [])
  }

  /** OUT addr, reg: the address comes first. */
  function PortOut(toks: seq<string>, pos: nat): LineResult
  {
    if pos >= |toks| then Failed([MissingOperand("OUT")])
    else
      var addr := ToInt8(ParseLong(toks[pos]).value);
      var f := FetchRegister(toks, pos + 1);
      if !f.Fetched? then Failed(Refusal(f))
      else Emitted(N8Call(Opcode(Out), f.num, addr, 1), [])
  }

  /** The flag bit of MOVI, MOVHI, BZ and BNZ. For the branches it is
      decided by comparing the value token, not the mnemonic, with "BZ"
      (main.c:278). */
  function Flag8(m: Mnemonic, valueToken: string): Int16
  {
    if m == Movi then 0
    else if m == Movhi then 1
    else if valueToken == "BZ" then 0
    else 1
  }

  /** MOVI, MOVHI, BZ, BNZ: reg, value; a literal outside -128..127 draws
      a warning and is truncated. */
  function Immediate8(m: Mnemonic, toks: seq<string>, pos: nat): LineResult
    requires IsImmediate8(m)
  {
    var f := FetchRegister(toks, pos);
    if !f.Fetched? then Failed(Refusal(f))
    else if pos + 1 >= |toks| then Failed([MissingOperand(MessageName(m))])
    else
      var val := ToInt32(ParseLong(toks[pos + 1]).value);
      Emitted(N8Call(Opcode(m), f.num, ToInt8(val), Flag8(m, toks[pos + 1])), Range8(MessageName(m), val))
  }

  /** ADD..CMPLEU d, a, b: the outcome of `get_3reg` is not checked. */
  function ThreeRegister(m: Mnemonic, toks: seq<string>, pos: nat, junk: Indeterminate): LineResult
    requires IsThreeRegister(m)
  {
    var r := ReadRegisters(toks, pos, [junk.d, junk.a, junk.b]);
    Emitted(R3Call(r.values[0], r.values[1], r.values[2], FuncCode(m), if IsComparison(m) then 1 else 0), r.diagnostics)
  }

  /** NOT d, a: breg 0; the outcome of `get_2reg` is not checked. */
  function NotRegister(toks: seq<string>, pos: nat, junk: Indeterminate): LineResult
  {
    var r := ReadRegisters(toks, pos, [junk.d, junk.a]);
    Emitted(R3Call(r.values[0], r.values[1], 0, FuncCode(Not), 0), r.diagnostics)
  }

  /** JALR d, a: a in the areg field, d in the dbreg field, immediate 0;
      the outcome of `get_2reg` is not checked. */
  function JumpRegister(toks: seq<string>, pos: nat, junk: Indeterminate): LineResult
  {
    var r := ReadRegisters(toks, pos, [junk.d, junk.a]);
    Emitted(N6Call(Opcode(Jalr), r.values[1], r.values[0], 0), r.diagnostics)
  }

  /** ADDI d, a, value: the outcome of `get_2reg` is not checked, but the
      value must be there; a literal outside -31..63 draws a warning. */
  function AddImmediate(toks: seq<string>, pos: nat, junk: Indeterminate): LineResult
  {
    AddImmediateValue(toks, ReadRegisters(toks, pos, [junk.d, junk.a]))
  }

  /** The rest of ADDI once `get_2reg` has returned r: the value is the
      token after the last one `get_2reg` took. */
  function AddImmediateValue(toks: seq<string>, r: Registers): LineResult
    requires |r.values| == 2
  {
    if r.next >= |toks| then Failed(r.diagnostics + [MissingOperand("ADDI")])
    else
      var val := ToInt32(ParseLong(toks[r.next]).value);
      Emitted(N6Call(Opcode(Addi), r.values[1], r.values[0], ToInt8(val)), r.diagnostics + Range6("ADDI", val))
  }

  /** The character at i of a C string; past its end, the terminating NUL. */
  function CharAt(t: string, i: nat): char
  {
    if i < |t| then t[i] else '\0'
  }

  /** A memory operand `offset(Rbase)` as `strtol` reads it. */
  datatype Memory = Memory(offset: Int32, base: Int32)

  datatype Operand = Parsed(memory: Memory) | Refused(diagnostic: Diagnostic)

  /** `offset(Rbase)`: the offset is read by `strtol`, then a '(' and an
      'R' must follow; the base is whatever `strtol` reads after them and
      is not checked. Nothing after the base is looked at. An operand is
      refused only for a missing '(' or 'R', and one that is parsed has both
      inside the token, right after the offset. */
  function ParseMemory(t: string): (o: Operand)
    ensures o.Refused? ==> o.diagnostic == MissingParen || o.diagnostic == MissingBaseRegister
    ensures o.Parsed? ==>
      var e := ParseLong(t).end; e + 2 <= |t| && t[e] == '(' && t[e + 1] == 'R'
  {
    var off := ParseLong(t);
    if CharAt(t, off.end) != '(' then Refused(MissingParen)
    else if CharAt(t, off.end + 1) != 'R' then Refused(MissingBaseRegister)
    else Parsed(Memory(ToInt32(off.value), ToInt32(ParseLong(t[off.end + 2..]).value)))
  }

  /** LD and LDB: reg, offset(Rbase). */
  function Load(m: Mnemonic, toks: seq<string>, pos: nat): LineResult
    requires (m.Ld? || m.Ldb?)
  {
    var f := FetchRegister(toks, pos);
    if !f.Fetched? then Failed(Refusal(f))
    else if pos + 1 >= |toks| then Failed([MissingOperand(Name(m))])
    else match ParseMemory(toks[pos + 1])
      case Refused(e) => Failed([e])
      case Parsed(mem) => Emitted(N6Call(Opcode(m), mem.base, f.num, mem.offset), [])
  }

  /** ST and STB: offset(Rbase), reg. */
  function Store(m: Mnemonic, toks: seq<string>, pos: nat): LineResult
    requires (m.St? || m.Stb?)
  {
    if pos >= |toks| then Failed([MissingOperand(Name(m))])
    else match ParseMemory(toks[pos])
      case Refused(e) => Failed([e])
      case Parsed(mem) =>
        var f := FetchRegister(toks, pos + 1);
        if !f.Fetched? then Failed(Refusal(f))
        else Emitted(N6Call(Opcode(m), mem.base, f.num, mem.offset), [])
  }

  /** What `compile_line` does with the tokens of a line. Only a line that
      starts with a mnemonic yields a word, and every `PARSE_ERROR` comes
      with an error report, never with a range warning: warnings are only
      issued on the way to a word. */
  function CompileTokens(toks: seq<string>, junk: Indeterminate): (r: LineResult)
    requires toks != []
    ensures r.Emitted? ==> Lookup(toks[0]).Some?
    ensures r.Failed? ==> r.diagnostics != []
    ensures r.Failed? ==> OnlyErrors(r.diagnostics)
  {
    match Lookup(toks[0])
    case None => Failed([UnknownToken(toks[0])])
    case Some(m) =>
      match m
      case In => PortIn(toks, 1)
      case Out => PortOut(toks, 1)
      case Movi => Immediate8(m, toks, 1)
      case Movhi => Immediate8(m, toks, 1)
      case Bz => Immediate8(m, toks, 1)
      case Bnz => Immediate8(m, toks, 1)
      case Not => NotRegister(toks, 1, junk)
      case Ld => Load(m, toks, 1)
      case Ldb => Load(m, toks, 1)
      case St => Store(m, toks, 1)
      case Stb => Store(m, toks, 1)
      case Jalr => JumpRegister(toks, 1, junk)
      case Addi => AddImmediate(toks, 1, junk)
      case _ => ThreeRegister(m, toks, 1, junk)
  }

  // ---------------------------------------------------------------------
  // The imperative parser

  /** The hidden state of `strtok`: the tokens of the line being split and
      how many of them have been handed out. */
  class Strtok {
    const tokens: seq<string>
    var pos: nat

    /** `strtok(line, ...)` starts over on a new line. */
    constructor (line: string)
      ensures tokens == Tokenize(line) && pos == 0
    {
      tokens := Tokenize(line);
      pos := 0;
    }

    /** The next token, or None (NULL) once the line is used up. */
    method Next() returns (t: Option<string>)
      modifies this
      ensures old(pos) < |tokens| ==> t == Some(tokens[old(pos)])
      ensures old(pos) >= |tokens| ==> t == None
      ensures pos == Advance(tokens, old(pos))
    {
      if pos < |tokens| {
        t := Some(tokens[pos]);
        pos := pos + 1;
      } else {
        t := None;
      }
    }
  }

  /** `get_register`: take the next token and check that it names a
      register. */
  method GetRegister(st: Strtok) returns (token: Option<string>, ok: bool, diagnostics: seq<Diagnostic>)
    modifies st
    ensures st.pos == Advance(st.tokens, old(st.pos))
    ensures ok <==> FetchRegister(st.tokens, old(st.pos)).Fetched?
    ensures ok ==> token.Some? && |token.value| >= 2
                   && GetRegisterNum(token.value) == FetchRegister(st.tokens, old(st.pos)).num
    ensures diagnostics == Refusal(FetchRegister(st.tokens, old(st.pos)))
  {
    token := st.Next();
    if token.None? {
      return token, false, [MissingRegister];
    }
    if !IsValidRegister(token.value) {
      return token, false, [InvalidRegister(token.value)];
    }
    ok, diagnostics := true, [];
  }

  /** `get_3reg`: d, a and b in that order, stopping at the first refusal;
      a variable not reached keeps its previous (indeterminate) value. */
  method Get3Reg(st: Strtok, d0: int, a0: int, b0: int) returns (ok: bool, d: int, a: int, b: int, diagnostics: seq<Diagnostic>)
    modifies st
    ensures var r := ReadRegisters(st.tokens, old(st.pos), [d0, a0, b0]);
      [d, a, b] == r.values && diagnostics == r.diagnostics && st.pos == r.next
    ensures ok <==> diagnostics == []
  {
    ghost var p := st.pos;
    d, a, b := d0, a0, b0;
    var token;
    token, ok, diagnostics := GetRegister(st);
    if !ok {
      return;
    }
    d := GetRegisterNum(token.value);
    token, ok, diagnostics := GetRegister(st);
    if !ok {
      assert ReadRegisters(st.tokens, p + 1, [a0, b0]).values == [a0, b0];
      return;
    }
    a := GetRegisterNum(token.value);
    token, ok, diagnostics := GetRegister(st);
    if !ok {
      assert ReadRegisters(st.tokens, p + 2, [b0]).values == [b0];
      return;
    }
    b := GetRegisterNum(token.value);
    assert ReadRegisters(st.tokens, p + 2, [b0]).values == [b];
  }

  /** `get_2reg`: d then a, stopping at the first refusal. */
  method Get2Reg(st: Strtok, d0: int, a0: int) returns (ok: bool, d: int, a: int, diagnostics: seq<Diagnostic>)
    modifies st
    ensures var r := ReadRegisters(st.tokens, old(st.pos), [d0, a0]);
      [d, a] == r.values && diagnostics == r.diagnostics && st.pos == r.next
    ensures ok <==> diagnostics == []
  {
    ghost var p := st.pos;
    d, a := d0, a0;
    var token;
    token, ok, diagnostics := GetRegister(st);
    if !ok {
      return;
    }
    d := GetRegisterNum(token.value);
    token, ok, diagnostics := GetRegister(st);
    if !ok {
      assert ReadRegisters(st.tokens, p + 1, [a0]).values == [a0];
      return;
    }
    a := GetRegisterNum(token.value);
    assert ReadRegisters(st.tokens, p + 1, [a0]).values == [a];
  }

  /** IN reg, addr (main.c:166-185). */
  method CompileIn(st: Strtok) returns (r: LineResult)
    modifies st
    ensures r == PortIn(st.tokens, old(st.pos))
    ensures old(st.pos) <= st.pos <= old(st.pos) + 2
  {
    var token, ok, diagnostics := GetRegister(st);
    if !ok {
      return Failed(diagnostics);
    }
    var reg := GetRegisterNum(token.value);
    token := st.Next();
    if token.None? {
      return Failed([MissingOperand("IN")]);
    }
    var addr := ToInt8(ParseLong(token.value).value);
    r := Emitted(N8Call(10, reg, addr, 0), []);
  }

  /** OUT addr, reg (main.c:186-202). */
  method CompileOut(st: Strtok) returns (r: LineResult)
    modifies st
    ensures r == PortOut(st.tokens, old(st.pos))
    ensures old(st.pos) <= st.pos <= old(st.pos) + 2
  {
    var token := st.Next();
    if token.None? {
      return Failed([MissingOperand("OUT")]);
    }
    var addr := ToInt8(ParseLong(token.value).value);
    var ok, diagnostics;
    token, ok, diagnostics := GetRegister(st);
    if !ok {
      return Failed(diagnostics);
    }
    var reg := GetRegisterNum(token.value);
    r := Emitted(N8Call(10, reg, addr, 1), []);
  }

  /** MOVI, MOVHI, BZ and BNZ (main.c:203-280): a register, then a literal
      that draws a warning when it does not fit in 8 bits. */
  method CompileImmediate8(st: Strtok, m: Mnemonic) returns (r: LineResult)
    requires IsImmediate8(m)
    modifies st
    ensures r == Immediate8(m, st.tokens, old(st.pos))
    ensures old(st.pos) <= st.pos <= old(st.pos) + 2
  {
    var name := MessageName(m);
    var token, ok, diagnostics := GetRegister(st);
    if !ok {
      return Failed(diagnostics);
    }
    var reg := GetRegisterNum(token.value);
    token := st.Next();
    if token.None? {
      return Failed([MissingOperand(name)]);
    }
    var val := ToInt32(ParseLong(token.value).value);
    if val > Int8Max || val < Int8Min {
      diagnostics := [RangeWarning(name, val, 8)];
    }
    var value := ToInt8(val);
    var flag: Int16;
    if m == Movi {
      flag := 0;
    } else if m == Movhi {
      flag := 1;
    } else {
      flag := if token.value == "BZ" then 0 else 1;
    }
    r := Emitted(N8Call(Opcode(m), reg, value, flag), diagnostics);
  }

  /** The memory-operand parse of LD, LDB, ST and STB (main.c:385-398). */
  method MemoryOperand(token: string) returns (ok: bool, value: Int32, rega: Int32, diagnostics: seq<Diagnostic>)
    ensures ok <==> ParseMemory(token).Parsed?
    ensures ok ==> ParseMemory(token).memory == Memory(value, rega) && diagnostics == []
    ensures !ok ==> diagnostics == [ParseMemory(token).diagnostic]
  {
    var conversion := ParseLong(token);
    var pEnd := conversion.end;
    value, rega := ToInt32(conversion.value), 0;
    if CharAt(token, pEnd) != '(' {
      return false, value, rega, [MissingParen];
    }
    if CharAt(token, pEnd + 1) != 'R' {
      return false, value, rega, [MissingBaseRegister];
    }
    rega := ToInt32(ParseLong(token[pEnd + 2..]).value);
    ok, diagnostics := true, [];
  }

  /** LD and LDB (main.c:372-431), which differ in their opcode and name. */
  method CompileLoad(st: Strtok, opcode: Int16, name: string, ghost m: Mnemonic) returns (r: LineResult)
    requires (m.Ld? || m.Ldb?) && opcode == Opcode(m) && name == Name(m)
    modifies st
    ensures r == Load(m, st.tokens, old(st.pos))
    ensures old(st.pos) <= st.pos <= old(st.pos) + 2
  {
    var token, ok, diagnostics := GetRegister(st);
    if !ok {
      return Failed(diagnostics);
    }
    var regd := GetRegisterNum(token.value);
    token := st.Next();
    if token.None? {
      return Failed([MissingOperand(name)]);
    }
    var value, rega;
    ok, value, rega, diagnostics := MemoryOperand(token.value);
    if !ok {
      return Failed(diagnostics);
    }
    r := Emitted(N6Call(opcode, rega, regd, value), []);
  }

  /** ST and STB (main.c:432-495), which differ in their opcode and name. */
  method CompileStore(st: Strtok, opcode: Int16, name: string, ghost m: Mnemonic) returns (r: LineResult)
    requires (m.St? || m.Stb?) && opcode == Opcode(m) && name == Name(m)
    modifies st
    ensures r == Store(m, st.tokens, old(st.pos))
    ensures old(st.pos) <= st.pos <= old(st.pos) + 2
  {
    var token := st.Next();
    if token.None? {
      return Failed([MissingOperand(name)]);
    }
    var ok, value, rega, diagnostics := MemoryOperand(token.value);
    if !ok {
      return Failed(diagnostics);
    }
    token, ok, diagnostics := GetRegister(st);
    if !ok {
      return Failed(diagnostics);
    }
    var regd := GetRegisterNum(token.value);
    r := Emitted(N6Call(opcode, rega, regd, value), []);
  }

  /** ADD..CMPLEU (main.c:281-371 without NOT): three registers and a
      function code; what `get_3reg` returns is not looked at. */
  method CompileThreeRegister(st: Strtok, func: Int16, isBoolean: Int16, junk: Indeterminate, ghost m: Mnemonic) returns (r: LineResult)
    requires IsThreeRegister(m) && func == FuncCode(m) && isBoolean == (if IsComparison(m) then 1 else 0)
    modifies st
    ensures r == ThreeRegister(m, st.tokens, old(st.pos), junk)
    ensures old(st.pos) <= st.pos <= old(st.pos) + 3
  {
    var _, d, a, b, diagnostics := Get3Reg(st, junk.d, junk.a, junk.b);
    r := Emitted(R3Call(d, a, b, func, isBoolean), diagnostics);
  }

  /** NOT d, a (main.c:316-322). */
  method CompileNot(st: Strtok, junk: Indeterminate) returns (r: LineResult)
    modifies st
    ensures r == NotRegister(st.tokens, old(st.pos), junk)
    ensures old(st.pos) <= st.pos <= old(st.pos) + 2
  {
    var _, d, a, diagnostics := Get2Reg(st, junk.d, junk.a);
    r := Emitted(R3Call(d, a, 0, FuncNot, 0), diagnostics);
  }

  /** JALR d, a (main.c:496-503). */
  method CompileJalr(st: Strtok, junk: Indeterminate) returns (r: LineResult)
    modifies st
    ensures r == JumpRegister(st.tokens, old(st.pos), junk)
    ensures old(st.pos) <= st.pos <= old(st.pos) + 2
  {
    var _, d, a, diagnostics := Get2Reg(st, junk.d, junk.a);
    r := Emitted(N6Call(7, a, d, 0), diagnostics);
  }

  /** ADDI d, a, value (main.c:504-529). */
  method CompileAddi(st: Strtok, junk: Indeterminate) returns (r: LineResult)
    modifies st
    ensures r == AddImmediate(st.tokens, old(st.pos), junk)
    ensures old(st.pos) <= st.pos <= old(st.pos) + 3
  {
    var _, d, a, diagnostics := Get2Reg(st, junk.d, junk.a);
    var token := st.Next();
    if token.None? {
      return Failed(diagnostics + [MissingOperand("ADDI")]);
    }
    var val := ToInt32(ParseLong(token.value).value);
    if val > 63 || val < -31 {
      diagnostics := diagnostics + [RangeWarning("ADDI", val, 6)];
    }
    var value := ToInt8(val);
    r := Emitted(N6Call(2, a, d, value), diagnostics);
  }

  /** `compile_line`: `strtok` starts on the line, and the first token is
      compared with each mnemonic in turn (`Lookup` is that chain of
      `strcmp` calls); each branch then reads its operands. */
  method CompileLine(line: string, junk: Indeterminate) returns (r: LineResult)
    requires Tokenize(line) != []
    ensures r == CompileTokens(Tokenize(line), junk)
  {
    var st := new Strtok(line);
    var first := st.Next();
    var token := first.value;
    match Lookup(token)
    case None =>
      r := Failed([UnknownToken(token)]);
    case Some(m) =>
      match m
      case In => r := CompileIn(st);
      case Out => r := CompileOut(st);
      case Movi => r := CompileImmediate8(st, Movi);
      case Movhi => r := CompileImmediate8(st, Movhi);
      case Bz => r := CompileImmediate8(st, Bz);
      case Bnz => r := CompileImmediate8(st, Bnz);
      case Add => r := CompileThreeRegister(st, FuncAdd, 0, junk, Add);
      case Sub => r := CompileThreeRegister(st, FuncSub, 0, junk, Sub);
      case And => r := CompileThreeRegister(st, FuncAnd, 0, junk, And);
      case Or => r := CompileThreeRegister(st, FuncOr, 0, junk, Or);
      case Xor => r := CompileThreeRegister(st, FuncXor, 0, junk, Xor);
      case Not => r := CompileNot(st, junk);
      case Sha => r := CompileThreeRegister(st, FuncSha, 0, junk, Sha);
      case Shl => r := CompileThreeRegister(st, FuncShl, 0, junk, Shl);
      case CmpLt => r := CompileThreeRegister(st, FuncCmpLt, 1, junk, CmpLt);
      case CmpLe => r := CompileThreeRegister(st, FuncCmpLe, 1, junk, CmpLe);
      case CmpEq => r := CompileThreeRegister(st, FuncCmpEq, 1, junk, CmpEq);
      case CmpLtu => r := CompileThreeRegister(st, FuncCmpLtu, 1, junk, CmpLtu);
      case CmpLeu => r := CompileThreeRegister(st, FuncCmpLeu, 1, junk, CmpLeu);
      case Ld => r := CompileLoad(st, 3, "LD", Ld);
      case Ldb => r := CompileLoad(st, 5, "LDB", Ldb);
      case St => r := CompileStore(st, 4, "ST", St);
      case Stb => r := CompileStore(st, 6, "STB", Stb);
      case Jalr => r := CompileJalr(st, junk);
      case Addi => r := CompileAddi(st, junk);
  }
}
