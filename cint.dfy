/** C integer widths and the narrowing conversions the assembler relies on.
    A conversion to a narrower integer type keeps the value modulo 2^n, as
    gcc defines it; a `long` is 64 bits wide. */
module CInt {

  const Int8Min: int := -0x80
  const Int8Max: int := 0x7F
  const Int16Min: int := -0x8000
  const Int16Max: int := 0x7FFF
  const Int32Min: int := -0x8000_0000
  const Int32Max: int := 0x7FFF_FFFF
  const LongMin: int := -0x8000_0000_0000_0000
  const LongMax: int := 0x7FFF_FFFF_FFFF_FFFF

  type Int8 = x: int | Int8Min <= x <= Int8Max
  type Int16 = x: int | Int16Min <= x <= Int16Max
  type Int32 = x: int | Int32Min <= x <= Int32Max
  type Byte = x: int | 0 <= x < 0x100
  type Word = x: int | 0 <= x < 0x1_0000

  /** `(int8_t) x`: the value of Int8 congruent to x modulo 2^8. */
  function ToInt8(x: int): (r: Int8)
    ensures r % 0x100 == x % 0x100
    ensures Int8Min <= x <= Int8Max ==> r == x
  {
    var m := x % 0x100;
    if m <= Int8Max then m else m - 0x100
  }

  /** `(int16_t) x`: the value of Int16 congruent to x modulo 2^16. */
  function ToInt16(x: int): (r: Int16)
    ensures r % 0x1_0000 == x % 0x1_0000
    ensures Int16Min <= x <= Int16Max ==> r == x
  {
    var m := x % 0x1_0000;
    if m <= Int16Max then m else m - 0x1_0000
  }

  /** `(int) x` for a `long` x: the value of Int32 congruent to x modulo 2^32. */
  function ToInt32(x: int): (r: Int32)
    ensures r % 0x1_0000_0000 == x % 0x1_0000_0000
    ensures Int32Min <= x <= Int32Max ==> r == x
  {
    var m := x % 0x1_0000_0000;
    if m <= Int32Max then m else m - 0x1_0000_0000
  }

  /** `(uint16_t) x`: the low 16 bits of x in two's complement. */
  function ToUint16(x: int): (r: Word)
    ensures Int16Min <= x < 0 ==> r == x + 0x1_0000
    ensures 0 <= x < 0x1_0000 ==> r == x
  {
    x % 0x1_0000
  }
}
