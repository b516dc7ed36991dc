/** The lexical layer under `compile_line`: the `strtok` split on the
    delimiters of `TOKEN_SPLIT` (main.c:7), the C library's `strtol` in
    base 10, and the register recognisers `is_valid_register` and
    `get_register_num` (main.c:52-59, main.c:79-82). */
module Lexer {
  import opened CInt

  datatype Option<T> = None | Some(value: T)

  // ---------------------------------------------------------------------
  // strtok(line, " ,\n")

  predicate IsDelimiter(c: char)
  {
    c == ' ' || c == ',' || c == '\n'
  }

  predicate NoDelimiter(t: string)
  {
    forall i :: 0 <= i < |t| ==> !IsDelimiter(t[i])
  }

  /** The length of the run of non-delimiters that starts s. */
  function TokenLength(s: string): (n: nat)
    ensures n <= |s|
    ensures NoDelimiter(s[..n])
    ensures n < |s| ==> IsDelimiter(s[n])
  {
    if s == [] || IsDelimiter(s[0]) then 0
    else
      var n := 1 + TokenLength(s[1..]);
      assert s[..n] == [s[0]] + s[1..][..n - 1];
      n
  }

  /** The tokens successive `strtok` calls return: the maximal runs of
      non-delimiters, in order; empty runs are skipped. */
  function Tokenize(s: string): (toks: seq<string>)
    ensures forall i :: 0 <= i < |toks| ==> toks[i] != [] && NoDelimiter(toks[i])
    decreases |s|
  {
    if s == [] then []
    else if IsDelimiter(s[0]) then Tokenize(s[1..])
    else
      var n := TokenLength(s);
      [s[..n]] + Tokenize(s[n..])
  }

  /** The characters of s that are not delimiters. */
  function Visible(s: string): string
  {
    if s == [] then []
    else (if IsDelimiter(s[0]) then [] else [s[0]]) + Visible(s[1..])
  }

  function Concat(toks: seq<string>): string
  {
    if toks == [] then [] else toks[0] + Concat(toks[1..])
  }

  lemma {:induction false} VisibleAppend(a: string, b: string)
    ensures Visible(a + b) == Visible(a) + Visible(b)
    decreases |a|
  {
    if a != [] {
      assert (a + b)[1..] == a[1..] + b;
      VisibleAppend(a[1..], b);
    } else {
      assert a + b == b;
    }
  }

  lemma {:induction false} VisibleOfToken(t: string)
    requires NoDelimiter(t)
    ensures Visible(t) == t
    decreases |t|
  {
    if t != [] {
      VisibleOfToken(t[1..]);
      assert t == [t[0]] + t[1..];
    }
  }

  /** Tokenizing neither loses nor invents a visible character: the tokens,
      put back together, are the line with its delimiters removed. */
  lemma {:induction false} TokenizeKeepsVisible(s: string)
    ensures Concat(Tokenize(s)) == Visible(s)
    decreases |s|
  {
    if s == [] {
    } else if IsDelimiter(s[0]) {
      TokenizeKeepsVisible(s[1..]);
    } else {
      var n := TokenLength(s);
      var toks := Tokenize(s);
      assert toks[0] == s[..n] && toks[1..] == Tokenize(s[n..]);
      TokenizeKeepsVisible(s[n..]);
      VisibleOfToken(s[..n]);
      assert s == s[..n] + s[n..];
      VisibleAppend(s[..n], s[n..]);
    }
  }

  /** `strtok` returns NULL at once exactly when the line holds nothing but
      delimiters. */
  lemma TokenizeEmpty(s: string)
    ensures Tokenize(s) == [] <==> Visible(s) == []
  {
    TokenizeKeepsVisible(s);
    var toks := Tokenize(s);
    if toks != [] {
      assert Concat(toks) == toks[0] + Concat(toks[1..]);
      assert |Concat(toks)| >= |toks[0]| > 0;
    }
  }

  predicate Delimiters(d: string)
  {
    forall i :: 0 <= i < |d| ==> IsDelimiter(d[i])
  }

  /** A line written from tokens, each followed by its own non-empty run
      of delimiters. */
  function Joined(toks: seq<string>, seps: seq<string>): string
    requires |seps| == |toks|
  {
    if toks == [] then [] else toks[0] + seps[0] + Joined(toks[1..], seps[1..])
  }

  lemma {:induction false} TokenLengthOf(t: string, rest: string)
    requires NoDelimiter(t)
    requires rest == [] || IsDelimiter(rest[0])
    ensures TokenLength(t + rest) == |t|
    decreases |t|
  {
    if t != [] {
      assert (t + rest)[1..] == t[1..] + rest;
      TokenLengthOf(t[1..], rest);
    } else {
      assert t + rest == rest;
    }
  }

  /** Delimiters in front of a line are skipped. */
  lemma {:induction false} TokenizeDelimiters(d: string, rest: string)
    requires Delimiters(d)
    ensures Tokenize(d + rest) == Tokenize(rest)
    decreases |d|
  {
    if d == [] {
      assert d + rest == rest;
    } else {
      assert (d + rest)[1..] == d[1..] + rest;
      TokenizeDelimiters(d[1..], rest);
    }
  }

  /** A token followed by a delimiter, or by the end of the line, is the
      first token `strtok` returns, and splitting goes on after it. */
  lemma TokenizeCons(t: string, rest: string)
    requires t != [] && NoDelimiter(t)
    requires rest == [] || IsDelimiter(rest[0])
    ensures Tokenize(t + rest) == [t] + Tokenize(rest)
  {
    var s := t + rest;
    TokenLengthOf(t, rest);
    assert s[..|t|] == t;
    assert s[|t|..] == rest;
  }

  /** Splitting a line written from delimiter-free tokens, whatever runs
      of delimiters separate them, gives those tokens back. */
  lemma {:induction false} TokenizeJoined(toks: seq<string>, seps: seq<string>)
    requires |seps| == |toks|
    requires forall i :: 0 <= i < |toks| ==> toks[i] != [] && NoDelimiter(toks[i])
    requires forall i :: 0 <= i < |seps| ==> seps[i] != [] && Delimiters(seps[i])
    ensures Tokenize(Joined(toks, seps)) == toks
    decreases |toks|
  {
    if toks != [] {
      var t, d, rest := toks[0], seps[0], Joined(toks[1..], seps[1..]);
      assert d[0] == seps[0][0];
      assert t + d + rest == t + (d + rest);
      TokenizeCons(t, d + rest);
      TokenizeDelimiters(d, rest);
      TokenizeJoined(toks[1..], seps[1..]);
    }
  }

  // ---------------------------------------------------------------------
  // strtol(s, &end, 10)

  /** `isspace` in the C locale. */
  predicate IsSpace(c: char)
  {
    c == ' ' || c == '\t' || c == '\n' || c == '\r' || c == '\U{000B}' || c == '\U{000C}'
  }

  predicate IsDigit(c: char)
  {
    '0' <= c <= '9'
  }

  function DigitValue(c: char): (v: nat)
    requires IsDigit(c)
    ensures v < 10
  {
    c as int - '0' as int
  }

  /** `strtol` saturates at the bounds of a 64-bit `long`. */
  function Saturate(v: int): (r: int)
    ensures LongMin <= r <= LongMax
    ensures LongMin <= v <= LongMax ==> r == v
  {
    if v > LongMax then LongMax else if v < LongMin then LongMin else v
  }

  /** What `strtol` returns and where it stops reading. */
  datatype Conversion = Conversion(value: int, end: nat)

  /** Where `strtol` is in its reading: before the number, where white
      space and a sign may still come, or among the digits, with the sign
      that was read, the value of the digits so far and whether there was
      any digit yet. */
  datatype Scanner = Leading | Digits(negative: bool, acc: nat, seen: bool)

  /** `strtol` from position i of s in the given state. */
  function Scan(s: string, i: nat, state: Scanner): (c: Conversion)
    requires i <= |s|
    requires state.Digits? && state.seen ==> i > 0
    ensures LongMin <= c.value <= LongMax
    ensures c.end <= |s|
    ensures c.end == 0 ==> c.value == 0
    decreases |s| - i, if state.Leading? then 1 else 0
  {
    match state
    case Leading =>
      if i < |s| && IsSpace(s[i]) then Scan(s, i + 1, Leading)
      else if i < |s| && (s[i] == '+' || s[i] == '-') then Scan(s, i + 1, Digits(s[i] == '-', 0, false))
      else Scan(s, i, Digits(false, 0, false))
    case Digits(negative, acc, seen) =>
      if i < |s| && IsDigit(s[i]) then Scan(s, i + 1, Digits(negative, 10 * acc + DigitValue(s[i]), true))
      else if !seen then Conversion(0, 0)
      else Conversion(Saturate(if negative then -(acc as int) else acc), i)
  }

  /** `strtol(s, &end, 10)`: leading white space, an optional sign, then
      as many decimal digits as follow, the value saturated to a `long`.
      With no digit the value is 0 and the end stays at the start
      of s. */
  function ParseLong(s: string): (c: Conversion)
    ensures LongMin <= c.value <= LongMax
    ensures c.end <= |s|
    ensures c.end == 0 ==> c.value == 0
  {
    Scan(s, 0, Leading)
  }

  predicate AllDigits(d: string)
  {
    forall i :: 0 <= i < |d| ==> IsDigit(d[i])
  }

  /** The value of the digits d read after a value acc, as `strtol`
      accumulates it; leading zeros add nothing. */
  function DigitsValue(acc: nat, d: string): nat
    requires AllDigits(d)
    decreases |d|
  {
    if d == [] then acc else DigitsValue(10 * acc + DigitValue(d[0]), d[1..])
  }

  /** White space in front of a number is skipped. */
  lemma {:induction false} ScanSpaces(s: string, i: nat, k: nat)
    requires i <= k <= |s|
    requires forall j :: i <= j < k ==> IsSpace(s[j])
    ensures Scan(s, i, Leading) == Scan(s, k, Leading)
    decreases k - i
  {
    if i < k {
      ScanSpaces(s, i + 1, k);
    }
  }

  /** Reading a run of digits adds them to the value so far. */
  lemma {:induction false} ScanDigits(s: string, i: nat, negative: bool, acc: nat, seen: bool, d: string)
    requires i + |d| <= |s| && s[i..i + |d|] == d && AllDigits(d)
    requires seen ==> i > 0
    ensures Scan(s, i, Digits(negative, acc, seen)) == Scan(s, i + |d|, Digits(negative, DigitsValue(acc, d), seen || d != []))
    decreases |d|
  {
    if d != [] {
      assert s[i] == d[0];
      assert s[i + 1..i + |d|] == d[1..];
      ScanDigits(s, i + 1, negative, 10 * acc + DigitValue(d[0]), true, d[1..]);
    }
  }

  /** `strtol` on white space, an optional sign and a run of digits (leading
      zeros allowed) that the next character does not continue: the value
      of the digits, negated after a minus and saturated, and the end right
      after the last digit. */
  lemma ParseLongDigits(w: string, sign: string, d: string, rest: string)
    requires forall j :: 0 <= j < |w| ==> IsSpace(w[j])
    requires sign == "" || sign == "+" || sign == "-"
    requires d != [] && AllDigits(d)
    requires rest == [] || !IsDigit(rest[0])
    ensures ParseLong(w + sign + d + rest)
         == Conversion(Saturate(if sign == "-" then -(DigitsValue(0, d) as int) else DigitsValue(0, d)), |w| + |sign| + |d|)
  {
    var s := w + sign + d + rest;
    var k := |w|;
    var i := k + |sign|;
    assert forall j :: 0 <= j < k ==> s[j] == w[j];
    assert s[i..i + |d|] == d;
    assert i + |d| < |s| ==> s[i + |d|] == rest[0];
    var negative := sign == "-";
    if sign == "" {
      assert s[k] == d[0];
    } else {
      assert s[k] == sign[0] && s[k + 1] == d[0];
    }
    ScanPrefix(s, k, i, negative);
    ScanDigitRun(s, i, negative, d);
  }

  /** White space up to k, then a sign or none, up to a digit at i: the
      scanner arrives at the digit with the sign noted. */
  lemma ScanPrefix(s: string, k: nat, i: nat, negative: bool)
    requires k <= i < |s| && IsDigit(s[i])
    requires forall j :: 0 <= j < k ==> IsSpace(s[j])
    requires i == k || (i == k + 1 && (s[k] == '+' || s[k] == '-') && (negative <==> s[k] == '-'))
    requires i == k ==> !negative
    ensures Scan(s, 0, Leading) == Scan(s, i, Digits(negative, 0, false))
  {
    ScanSpaces(s, 0, k);
    if i == k {
      ScanUnsigned(s, k);
    } else {
      ScanSigned(s, k);
    }
  }

  /** A run of digits that the next character does not continue is read
      to its end. */
  lemma ScanDigitRun(s: string, i: nat, negative: bool, d: string)
    requires d != [] && AllDigits(d)
    requires i + |d| <= |s| && s[i..i + |d|] == d
    requires i + |d| == |s| || !IsDigit(s[i + |d|])
    ensures Scan(s, i, Digits(negative, 0, false))
         == Conversion(Saturate(if negative then -(DigitsValue(0, d) as int) else DigitsValue(0, d)), i + |d|)
  {
    ScanDigits(s, i, negative, 0, false, d);
    ScanEnd(s, i + |d|, negative, DigitsValue(0, d));
  }

  /** After the white space, a digit starts the number, with no sign. */
  lemma ScanUnsigned(s: string, k: nat)
    requires k < |s| && IsDigit(s[k])
    ensures Scan(s, k, Leading) == Scan(s, k, Digits(false, 0, false))
  {
  }

  /** After the white space, a sign is read. */
  lemma ScanSigned(s: string, k: nat)
    requires k < |s| && (s[k] == '+' || s[k] == '-')
    ensures Scan(s, k, Leading) == Scan(s, k + 1, Digits(s[k] == '-', 0, false))
  {
  }

  /** The digits end at the end of the string or at a character that is
      not a digit: the value read, saturated, and the position. */
  lemma ScanEnd(s: string, i: nat, negative: bool, acc: nat)
    requires 0 < i <= |s| && (i == |s| || !IsDigit(s[i]))
    ensures Scan(s, i, Digits(negative, acc, true)) == Conversion(Saturate(if negative then -(acc as int) else acc), i)
  {
  }

  /** A number that starts with a digit is read: at least that digit, and
      a non-negative value. */
  lemma {:induction false} ScanNonNegative(s: string, i: nat, acc: nat)
    requires 0 < i <= |s|
    ensures Scan(s, i, Digits(false, acc, true)).value >= 0
    ensures Scan(s, i, Digits(false, acc, true)).end >= i
    decreases |s| - i
  {
    if i < |s| && IsDigit(s[i]) {
      ScanNonNegative(s, i + 1, 10 * acc + DigitValue(s[i]));
    }
  }

  // ---------------------------------------------------------------------
  // Writing numbers, the partner of strtol

  function Digit(k: nat): (c: char)
    requires k < 10
    ensures IsDigit(c) && DigitValue(c) == k
  {
    ('0' as int + k) as char
  }

  /** The decimal digits of n, without leading zeros. */
  function Decimal(n: nat): (s: string)
    ensures |s| > 0
    ensures forall i :: 0 <= i < |s| ==> IsDigit(s[i])
    decreases n
  {
    if n < 10 then [Digit(n)] else Decimal(n / 10) + [Digit(n % 10)]
  }

  /** n as `printf("%d")` writes it. */
  function Signed(n: int): (s: string)
    ensures |s| > 0 && (s[0] == '-' || IsDigit(s[0]))
  {
    if n < 0 then "-" + Decimal(-n) else Decimal(n)
  }

  /** A string that starts with neither white space, a sign nor a digit
      holds no number: `strtol` returns 0 and stops reading at
      the start. */
  lemma ParseLongNoDigits(s: string)
    requires s != [] && !IsSpace(s[0]) && s[0] != '+' && s[0] != '-' && !IsDigit(s[0])
    ensures ParseLong(s) == Conversion(0, 0)
  {
    assert Scan(s, 0, Leading) == Scan(s, 0, Digits(false, 0, false));
  }

  /** Reading the digits of k moves the scanner past them with k as the
      value read. */
  lemma {:induction false} ScanDecimal(s: string, i: nat, negative: bool, seen: bool, k: nat)
    requires i + |Decimal(k)| <= |s| && s[i..i + |Decimal(k)|] == Decimal(k)
    requires seen ==> i > 0
    ensures Scan(s, i, Digits(negative, 0, seen)) == Scan(s, i + |Decimal(k)|, Digits(negative, k, true))
    decreases k
  {
    if k >= 10 {
      var p := Decimal(k / 10);
      assert Decimal(k) == p + [Digit(k % 10)];
      assert s[i..i + |p|] == Decimal(k)[..|p|];
      ScanDecimal(s, i, negative, seen, k / 10);
      assert s[i + |p|] == Decimal(k)[|p|];
    } else {
      assert s[i] == Decimal(k)[0];
    }
  }

  /** `strtol` reads back what `printf("%d")` writes, for every value of a
      `long`, and stops right after it when the next character is not a
      digit. */
  lemma {:induction false} ParseLongSigned(n: int, rest: string)
    requires LongMin <= n <= LongMax
    requires rest == [] || !IsDigit(rest[0])
    ensures ParseLong(Signed(n) + rest) == Conversion(n, |Signed(n)|)
  {
    var s := Signed(n) + rest;
    var m := if n < 0 then -n else n;
    var dec := Decimal(m);
    var d := if n < 0 then 1 else 0;
    assert s[d..d + |dec|] == dec;
    assert s[d] == dec[0];
    ScanDecimal(s, d, n < 0, false, m);
    if n < 0 {
      assert s[0] == '-';
    }
  }

  // ---------------------------------------------------------------------
  // Registers

  /** `is_valid_register`: at least two characters, an `R`, then a digit
      0..7. Nothing is said about what follows, so `R12` passes. A token
      it accepts always has a number for `get_register_num` to read: at
      least one digit, and non-negative. */
  predicate IsValidRegister(t: string)
    ensures IsValidRegister(t) ==> |t| >= 2 && ParseLong(t[1..]).end >= 1 && ParseLong(t[1..]).value >= 0
  {
    if |t| >= 2 && t[0] == 'R' && '0' <= t[1] <= '7' then
      var u := t[1..];
      assert Scan(u, 0, Leading) == Scan(u, 0, Digits(false, 0, false));
      ScanNonNegative(u, 1, DigitValue(u[0]));
      true
    else false
  }

  /** `get_register_num`: `strtol` from the second character, narrowed to
      `int16_t`. */
  function GetRegisterNum(t: string): Int16
    requires |t| >= 1
  {
    ToInt16(ParseLong(t[1..]).value)
  }

  /** A digit after the first character that no other digit follows is
      the register number itself. */
  lemma GetRegisterNumDigit(t: string)
    requires |t| >= 2 && IsDigit(t[1]) && (|t| == 2 || !IsDigit(t[2]))
    ensures GetRegisterNum(t) == DigitValue(t[1])
  {
    assert t[1..] == "" + "" + [t[1]] + t[2..];
    ParseLongDigits("", "", [t[1]], t[2..]);
  }

  /** The token that names register k. */
  function RegisterName(k: nat): (t: string)
    ensures |t| >= 2 && t[0] == 'R'
  {
    "R" + Decimal(k)
  }

  function LeadingDigit(n: nat): (d: nat)
    ensures d < 10
  {
    if n < 10 then n else LeadingDigit(n / 10)
  }

  lemma {:induction false} DecimalFirst(n: nat)
    ensures Decimal(n)[0] == Digit(LeadingDigit(n))
    decreases n
  {
    if n >= 10 {
      DecimalFirst(n / 10);
    }
  }

  /** Register tokens are checked by their first digit only: `R<k>` passes
      exactly when k's leading digit is 0..7, and then it denotes k, reduced
      to 16 bits. */
  lemma RegisterNameAccepted(k: nat)
    requires k <= LongMax
    ensures IsValidRegister(RegisterName(k)) <==> LeadingDigit(k) < 8
    ensures GetRegisterNum(RegisterName(k)) == ToInt16(k)
  {
    DecimalFirst(k);
    var t := RegisterName(k);
    assert t[1..] == Signed(k) + [];
    ParseLongSigned(k, []);
  }

  /** Registers R0..R7 pass and denote themselves; R8 and R9 are refused;
      R12 passes and denotes 12, past the eight registers the machine has. */
  lemma RegisterExamples()
    ensures forall k :: 0 <= k < 8 ==> IsValidRegister(RegisterName(k)) && GetRegisterNum(RegisterName(k)) == k
    ensures !IsValidRegister(RegisterName(8)) && !IsValidRegister(RegisterName(9))
    ensures IsValidRegister(RegisterName(12)) && GetRegisterNum(RegisterName(12)) == 12
  {
    forall k | 0 <= k < 8
      ensures IsValidRegister(RegisterName(k)) && GetRegisterNum(RegisterName(k)) == k
    {
      RegisterNameAccepted(k);
    }
    RegisterNameAccepted(8);
    RegisterNameAccepted(9);
    RegisterNameAccepted(12);
  }
}
