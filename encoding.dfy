/** The three SISA instruction layouts (main.c:144-158) and a decoder that
    serves as their inverse.

    Each encoder shifts its `int16_t`/`int8_t` operands into place in `int`
    arithmetic, ors them together and truncates the result to `uint16_t`.
    Only the low 16 bits of each shifted operand reach the word, and the low
    16 bits of an or are the or of the low 16 bits, so a word is the `Or16`
    of the operands' `ToUint16` images. Register and selector operands are
    NOT masked: a value above 7 (or 15) spills into the fields to its left.
    The immediate of N8 (`n8 & 0xff`) and of N6 (`value & 0x3F`) is
    masked; on a two's-complement `int` that mask is Dafny's `%`. */
module Encoding {
  import opened CInt
  import opened Bits

  /** `a | b` on two 16-bit words. */
  function Or16(a: Word, b: Word): Word
  {
    Pow2Values();
    BitOrBound(a, b, 16);
    BitOr(a, b)
  }

  /** `format_n8`: opcode in bits 15..12, reg in 11..9, flag at 8, n8 in 7..0.
      Whatever the other operands, the low byte is n8 modulo 2^8: they are
      all shifted past bit 7. */
  function FormatN8(opcode: Int16, reg: Int16, n8: Int8, flag: Int16): (w: Word)
    ensures w % 0x100 == n8 % 0x100
  {
    var a, b, c := ToUint16(opcode * 0x1000), ToUint16(reg * 0x200), ToUint16(flag * 0x100);
    Pow2Values();
    ShiftedLowClear(opcode, 0x1000, 0x100);
    ShiftedLowClear(reg, 0x200, 0x100);
    ShiftedLowClear(flag, 0x100, 0x100);
    OrLowBits(a, b, c, n8 % 0x100, 8);
    Or16(Or16(Or16(a, b), c), n8 % 0x100)
  }

  /** `format_r3`: is_boolean at bit 12, areg in 11..9, breg in 8..6,
      dreg in 5..3 and the function code f in 2..0. f is not masked, but
      the other operands are shifted past bit 2, so the low three bits of
      the word are those of f. */
  function FormatR3(dreg: Int16, areg: Int16, breg: Int16, f: Int16, isBoolean: Int16): (w: Word)
    ensures w % 8 == f % 8
  {
    R3LowBits(dreg, areg, breg, f, isBoolean);
    Or16(Or16(Or16(Or16(ToUint16(isBoolean * 0x1000), ToUint16(areg * 0x200)),
      ToUint16(breg * 0x40)), ToUint16(dreg * 0x8)), ToUint16(f))
  }

  /** `format_n6`: opcode in bits 15..12, areg in 11..9, dbreg in 8..6,
      value in 5..0. Whatever the other operands, the low six bits are
      value modulo 2^6. */
  function FormatN6(opcode: Int16, areg: Int16, dbreg: Int16, value: Int16): (w: Word)
    ensures w % 0x40 == value % 0x40
  {
    var a, b, c := ToUint16(opcode * 0x1000), ToUint16(areg * 0x200), ToUint16(dbreg * 0x40);
    Pow2Values();
    ShiftedLowClear(opcode, 0x1000, 0x40);
    ShiftedLowClear(areg, 0x200, 0x40);
    ShiftedLowClear(dbreg, 0x40, 0x40);
    OrLowBits(a, b, c, value % 0x40, 6);
    Or16(Or16(Or16(a, b), c), value % 0x40)
  }

  /** An encoder call as `compile_line` makes it: the layout, and the
      argument values before their conversion to the `int16_t` parameters
      (the `int8_t` immediate of N8 is already narrowed by the caller). */
  datatype Call =
    | N8Call(opcode: int, reg: int, n8: Int8, flag: int)
    | R3Call(dreg: int, areg: int, breg: int, func: int, isBoolean: int)
    | N6Call(opcode: int, areg: int, dbreg: int, value: int)

  /** The word an encoder call returns. */
  function Encode(c: Call): Word
  {
    match c
    case N8Call(opcode, reg, n8, flag) => FormatN8(ToInt16(opcode), ToInt16(reg), n8, ToInt16(flag))
    case R3Call(dreg, areg, breg, func, isBoolean) =>
      FormatR3(ToInt16(dreg), ToInt16(areg), ToInt16(breg), ToInt16(func), ToInt16(isBoolean))
    case N6Call(opcode, areg, dbreg, value) => FormatN6(ToInt16(opcode), ToInt16(areg), ToInt16(dbreg), ToInt16(value))
  }

  // ---------------------------------------------------------------------
  // Reading fields back

  /** Bits 15..12 of a word, which select its layout. */
  function Selector(w: Word): (s: nat)
    ensures s < 16
  {
    w / 0x1000
  }

  /** The value of an 8-bit two's-complement field. */
  function SignExtend8(v: nat): (r: Int8)
    requires v < 0x100
    ensures r % 0x100 == v
  {
    if v < 0x80 then v else v - 0x100
  }

  /** The value of a 6-bit two's-complement field. */
  function SignExtend6(v: nat): (r: int)
    requires v < 0x40
    ensures -0x20 <= r < 0x20 && r % 0x40 == v
  {
    if v < 0x20 then v else v - 0x40
  }

  /** A word read back field by field, according to its selector. */
  datatype Instruction =
    | R3(compare: bool, areg: nat, breg: nat, dreg: nat, func: nat)
    | N6(opcode: nat, areg: nat, dbreg: nat, imm: int)
    | N8(opcode: nat, reg: nat, flag: nat, imm: int)
    | Reserved(selector: nat)

  /** Selectors 0 and 1 are R3 (arithmetic, comparison), 2..7 are N6,
      8..10 are N8 and 11..15 are unused. */
  function Decode(w: Word): (i: Instruction)
    ensures i.Reserved? <==> Selector(w) > 10
  {
    var s := Selector(w);
    if s <= 1 then
      R3(s == 1, (w / 0x200) % 8, (w / 0x40) % 8, (w / 0x8) % 8, w % 8)
    else if s <= 7 then
      N6(s, (w / 0x200) % 8, (w / 0x40) % 8, SignExtend6(w % 0x40))
    else if s <= 10 then
      N8(s, (w / 0x200) % 8, (w / 0x100) % 2, SignExtend8(w % 0x100))
    else
      Reserved(s)
  }

  // ---------------------------------------------------------------------
  // Layout lemmas

  /** With opcode 0..15, register 0..7 and flag 0..1 the fields of an N8
      word do not overlap: the word is their weighted sum. */
  lemma N8Layout(opcode: Int16, reg: Int16, n8: Int8, flag: Int16)
    requires 0 <= opcode < 16 && 0 <= reg < 8 && 0 <= flag < 2
    ensures FormatN8(opcode, reg, n8, flag) == opcode * 0x1000 + reg * 0x200 + flag * 0x100 + n8 % 0x100
  {
    Pow2Values();
    var s1 := opcode * 8 + reg;
    var s2 := s1 * 2 + flag;
    BitOrDisjoint(opcode, reg * 0x200, 12);
    assert Or16(ToUint16(opcode * 0x1000), ToUint16(reg * 0x200)) == s1 * 0x200;
    BitOrDisjoint(s1, flag * 0x100, 9);
    assert Or16(s1 * 0x200, ToUint16(flag * 0x100)) == s2 * 0x100;
    BitOrDisjoint(s2, n8 % 0x100, 8);
  }

  /** With opcode 0..15 and both registers 0..7 the fields of an N6 word do
      not overlap. */
  lemma N6Layout(opcode: Int16, areg: Int16, dbreg: Int16, value: Int16)
    requires 0 <= opcode < 16 && 0 <= areg < 8 && 0 <= dbreg < 8
    ensures FormatN6(opcode, areg, dbreg, value) == opcode * 0x1000 + areg * 0x200 + dbreg * 0x40 + value % 0x40
  {
    Pow2Values();
    var s1 := opcode * 8 + areg;
    var s2 := s1 * 8 + dbreg;
    BitOrDisjoint(opcode, areg * 0x200, 12);
    assert Or16(ToUint16(opcode * 0x1000), ToUint16(areg * 0x200)) == s1 * 0x200;
    BitOrDisjoint(s1, dbreg * 0x40, 9);
    assert Or16(s1 * 0x200, ToUint16(dbreg * 0x40)) == s2 * 0x40;
    BitOrDisjoint(s2, value % 0x40, 6);
  }

  /** With is_boolean 0..1 and registers and function code 0..7 the fields
      of an R3 word do not overlap. */
  lemma R3Layout(dreg: Int16, areg: Int16, breg: Int16, f: Int16, isBoolean: Int16)
    requires 0 <= isBoolean < 2 && 0 <= areg < 8 && 0 <= breg < 8 && 0 <= dreg < 8 && 0 <= f < 8
    ensures FormatR3(dreg, areg, breg, f, isBoolean)
         == isBoolean * 0x1000 + areg * 0x200 + breg * 0x40 + dreg * 0x8 + f
  {
    Pow2Values();
    assert Pow2(3) == 8;
    var s1 := isBoolean * 8 + areg;
    var s2 := s1 * 8 + breg;
    var s3 := s2 * 8 + dreg;
    BitOrDisjoint(isBoolean, areg * 0x200, 12);
    assert Or16(ToUint16(isBoolean * 0x1000), ToUint16(areg * 0x200)) == s1 * 0x200;
    BitOrDisjoint(s1, breg * 0x40, 9);
    assert Or16(s1 * 0x200, ToUint16(breg * 0x40)) == s2 * 0x40;
    BitOrDisjoint(s2, dreg * 8, 6);
    assert Or16(s2 * 0x40, ToUint16(dreg * 8)) == s3 * 8;
    BitOrDisjoint(s3, f, 3);
  }

  /** A shifted operand truncated to 16 bits has its low bits clear, for
      a field width p that divides both the shift s and 2^16. */
  lemma ShiftedLowClear(x: int, s: int, p: int)
    requires p > 0 && s % p == 0 && 0x1_0000 % p == 0
    ensures ToUint16(x * s) % p == 0
  {
    var q := s / p;
    assert s == q * p;
    assert x * s == (x * q) * p;
    DivisionUnique(x * s, p, x * q, 0);
    TruncatedMultiple(x * s, p);
  }

  /** Or-ing onto a word whose low bits are clear keeps the low bits of
      the other operand. */
  lemma Or16KeepsLow(x: Word, y: Word, k: nat)
    requires k <= 16 && x % Pow2(k) == 0
    ensures Or16(x, y) % Pow2(k) == y % Pow2(k)
  {
    BitOrLowBits(x, y, k);
  }

  /** Or-ing three words whose low k bits are clear onto a fourth keeps the
      fourth's low k bits. */
  lemma OrLowBits(a: Word, b: Word, c: Word, d: Word, k: nat)
    requires k <= 16 && a % Pow2(k) == 0 && b % Pow2(k) == 0 && c % Pow2(k) == 0
    ensures Or16(Or16(Or16(a, b), c), d) % Pow2(k) == d % Pow2(k)
  {
    Or16KeepsLow(a, b, k);
    Or16KeepsLow(Or16(a, b), c, k);
    Or16KeepsLow(Or16(Or16(a, b), c), d, k);
  }

  /** The low three bits of the or `format_r3` computes are those of f. */
  lemma R3LowBits(dreg: Int16, areg: Int16, breg: Int16, f: Int16, isBoolean: Int16)
    ensures Or16(Or16(Or16(Or16(ToUint16(isBoolean * 0x1000), ToUint16(areg * 0x200)),
      ToUint16(breg * 0x40)), ToUint16(dreg * 0x8)), ToUint16(f)) % 8 == f % 8
  {
    var a, b, c, d := ToUint16(isBoolean * 0x1000), ToUint16(areg * 0x200), ToUint16(breg * 0x40), ToUint16(dreg * 0x8);
    assert Pow2(3) == 8;
    ShiftedLowClear(isBoolean, 0x1000, 8);
    ShiftedLowClear(areg, 0x200, 8);
    ShiftedLowClear(breg, 0x40, 8);
    ShiftedLowClear(dreg, 0x8, 8);
    OrLowBits(a, b, c, d, 3);
    var abcd := Or16(Or16(Or16(a, b), c), d);
    assert abcd % 8 == 0;
    Or16KeepsLow(abcd, ToUint16(f), 3);
    CongruentDivisor(ToUint16(f), f, 8, 0x2000);
  }

  /** Only the immediate's residue reaches the word: literals congruent
      modulo 2^8 (narrowed to `int8_t` for N8) or modulo 2^6 (N6) give the
      same word, whatever the other operands. */
  lemma ImmediateCongruence(opcode: int, reg: int, flag: int, dbreg: int, n: int, m: int)
    ensures n % 0x100 == m % 0x100 ==>
      Encode(N8Call(opcode, reg, ToInt8(n), flag)) == Encode(N8Call(opcode, reg, ToInt8(m), flag))
    ensures n % 0x40 == m % 0x40 ==>
      Encode(N6Call(opcode, reg, dbreg, n)) == Encode(N6Call(opcode, reg, dbreg, m))
  {
    CongruentDivisor(ToInt16(n), n, 0x40, 0x400);
    CongruentDivisor(ToInt16(m), m, 0x40, 0x400);
  }

  /** Round trip through the decoder for the N8 selectors 8..10 (branch,
      move immediate, port I/O): every field comes back, the immediate
      sign-extended. */
  lemma DecodeFormatN8(opcode: Int16, reg: Int16, n8: Int8, flag: Int16)
    requires 8 <= opcode <= 10 && 0 <= reg < 8 && 0 <= flag < 2
    ensures Decode(FormatN8(opcode, reg, n8, flag)) == N8(opcode, reg, flag, n8)
  {
    N8Layout(opcode, reg, n8, flag);
    var w := FormatN8(opcode, reg, n8, flag);
    var lo := n8 % 0x100;
    FieldOf(w, 0, opcode, reg * 0x200 + flag * 0x100 + lo, 0x1000, 16);
    FieldOf(w, opcode, reg, flag * 0x100 + lo, 0x200, 8);
    FieldOf(w, opcode * 8 + reg, flag, lo, 0x100, 2);
    SignExtendCongruent8(SignExtend8(lo), n8);
  }

  /** Round trip through the decoder for the N6 selectors 2..7: the
      immediate comes back as its low six bits sign-extended, which is the
      immediate itself when it lies in -32..31. */
  lemma DecodeFormatN6(opcode: Int16, areg: Int16, dbreg: Int16, value: Int16)
    requires 2 <= opcode <= 7 && 0 <= areg < 8 && 0 <= dbreg < 8
    ensures Decode(FormatN6(opcode, areg, dbreg, value)) == N6(opcode, areg, dbreg, SignExtend6(value % 0x40))
    ensures -32 <= value < 32 ==> SignExtend6(value % 0x40) == value
  {
    N6Layout(opcode, areg, dbreg, value);
    var w := FormatN6(opcode, areg, dbreg, value);
    var lo := value % 0x40;
    FieldOf(w, 0, opcode, areg * 0x200 + dbreg * 0x40 + lo, 0x1000, 16);
    FieldOf(w, opcode, areg, dbreg * 0x40 + lo, 0x200, 8);
    FieldOf(w, opcode * 8 + areg, dbreg, lo, 0x40, 8);
  }

  /** Round trip through the decoder for the two R3 selectors. */
  lemma DecodeFormatR3(dreg: Int16, areg: Int16, breg: Int16, f: Int16, isBoolean: Int16)
    requires 0 <= isBoolean < 2 && 0 <= areg < 8 && 0 <= breg < 8 && 0 <= dreg < 8 && 0 <= f < 8
    ensures Decode(FormatR3(dreg, areg, breg, f, isBoolean)) == R3(isBoolean == 1, areg, breg, dreg, f)
  {
    R3Layout(dreg, areg, breg, f, isBoolean);
    var w := FormatR3(dreg, areg, breg, f, isBoolean);
    FieldOf(w, 0, isBoolean, areg * 0x200 + breg * 0x40 + dreg * 8 + f, 0x1000, 16);
    FieldOf(w, isBoolean, areg, breg * 0x40 + dreg * 8 + f, 0x200, 8);
    FieldOf(w, isBoolean * 8 + areg, breg, dreg * 8 + f, 0x40, 8);
    FieldOf(w, isBoolean * 64 + areg * 8 + breg, dreg, f, 8, 8);
  }

  /** The instruction an encoder call spells: the fields it was given, with
      the N6 immediate reduced to the six bits the layout keeps. */
  function Spelled(c: Call): Instruction
    requires Fits(c)
  {
    match c
    case N8Call(opcode, reg, n8, flag) => N8(opcode, reg, flag, n8)
    case R3Call(dreg, areg, breg, func, isBoolean) => R3(isBoolean == 1, areg, breg, dreg, func)
    case N6Call(opcode, areg, dbreg, value) => N6(opcode, areg, dbreg, SignExtend6(value % 0x40))
  }

  /** The calls whose fields all fit their layout: selector 8..10 for N8
      and 2..7 for N6, registers and function codes 0..7, flags 0..1. */
  predicate Fits(c: Call)
  {
    match c
    case N8Call(opcode, reg, n8, flag) => 8 <= opcode <= 10 && 0 <= reg < 8 && 0 <= flag < 2
    case R3Call(dreg, areg, breg, func, isBoolean) =>
      0 <= dreg < 8 && 0 <= areg < 8 && 0 <= breg < 8 && 0 <= func < 8 && 0 <= isBoolean < 2
    case N6Call(opcode, areg, dbreg, value) => 2 <= opcode <= 7 && 0 <= areg < 8 && 0 <= dbreg < 8
  }

  /** Decoding undoes encoding for every call whose fields fit. */
  lemma EncodeDecode(c: Call)
    requires Fits(c)
    ensures Decode(Encode(c)) == Spelled(c)
  {
    match c
    case N8Call(opcode, reg, n8, flag) =>
      DecodeFormatN8(opcode, reg, n8, flag);
    case R3Call(dreg, areg, breg, func, isBoolean) =>
      DecodeFormatR3(dreg, areg, breg, func, isBoolean);
    case N6Call(opcode, areg, dbreg, value) =>
      DecodeFormatN6(opcode, areg, dbreg, ToInt16(value));
      CongruentDivisor(ToInt16(value), value, 0x40, 0x400);
  }

  /** The base register of a store is not checked, and a base above 7
      spills into the selector: the store `ST 0(R9), R0` is the word of the
      load `LDB R0, 0(R1)`. */
  lemma BaseSpill()
    ensures Encode(N6Call(4, 9, 0, 0)) == Encode(N6Call(5, 1, 0, 0))
    ensures Decode(Encode(N6Call(4, 9, 0, 0))) == N6(5, 1, 0, 0)
  {
    SpilledWord();
    N6Layout(5, 1, 0, 0);
    DecodeFormatN6(5, 1, 0, 0);
  }

  /** The word `format_n6(4, 9, 0, 0)` computes: register 9 sets bit 12. */
  lemma SpilledWord()
    ensures FormatN6(4, 9, 0, 0) == 0x5200
  {
    Pow2Values();
    assert Pow2(13) == 0x2000;
    BitOrDisjoint(2, 0x1200, 13);
    assert Or16(ToUint16(4 * 0x1000), ToUint16(9 * 0x200)) == 0x5200;
  }

  /** A value survives the six bits of an N6 immediate exactly when it is
      in -32..31. */
  lemma SixBitExact(v: int)
    ensures SignExtend6(v % 0x40) == v <==> -32 <= v < 32
  {
  }

  /** The six bits of 32..63 read back as negative numbers; -32 reads
      back as itself. */
  lemma SixBitWrap(v: int)
    requires 32 <= v <= 63 || v == -32
    ensures SignExtend6(v % 0x40) == if v > 0 then v - 64 else v
  {
  }

  /** Two 8-bit values congruent modulo 2^8 are equal. */
  lemma SignExtendCongruent8(x: Int8, y: Int8)
    requires x % 0x100 == y % 0x100
    ensures x == y
  {
  }

  /** Register operands are not masked: a register number of 8 or more
      lands in the field to its left. dreg 8 reads back as breg 1, and
      areg 8 sets bit 12, turning an arithmetic word into a comparison. */
  lemma R3RegistersUnmasked()
    ensures FormatR3(8, 0, 0, 4, 0) == FormatR3(0, 0, 1, 4, 0)
    ensures FormatR3(0, 8, 0, 4, 0) == FormatR3(0, 0, 0, 4, 1)
    ensures Decode(FormatR3(0, 8, 0, 4, 0)).compare
  {
    R3Layout(0, 0, 1, 4, 0);
    R3Layout(0, 0, 0, 4, 1);
    assert FormatR3(8, 0, 0, 4, 0) == 0x44 by {
      Pow2Values();
      BitOrDisjoint(1, 4, 6);
    }
    assert FormatR3(0, 8, 0, 4, 0) == 0x1004 by {
      Pow2Values();
      BitOrDisjoint(1, 4, 12);
    }
  }

  /** dreg 12 (which `R12` passes as) overflows into breg: the word of
      ADD R12, R0, R0 is that of ADD R4, R0, R1. */
  lemma R12Spill()
    ensures Encode(R3Call(12, 0, 0, 4, 0)) == Encode(R3Call(4, 0, 1, 4, 0))
    ensures Decode(Encode(R3Call(12, 0, 0, 4, 0))) == R3(false, 0, 1, 4, 4)
  {
    DecodeFormatR3(4, 0, 1, 4, 0);
    R3Layout(4, 0, 1, 4, 0);
    assert FormatR3(12, 0, 0, 4, 0) == 0x64 by {
      Pow2Values();
      assert Pow2(3) == 8;
      BitOrDisjoint(12, 4, 3);
    }
  }
}
