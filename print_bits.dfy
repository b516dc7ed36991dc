/** `printf_bits` (main.c:122-142): a number written bit by bit into a
    format, most significant bit first. Every character of the format that
    is neither a newline nor a space is a placeholder and receives the next
    bit; newlines and spaces are copied. */
module PrintBits {
  import opened Bits

  predicate IsPlaceholder(c: char)
  {
    c != '\n' && c != ' '
  }

  /** How many placeholders s holds. */
  function Placeholders(s: string): (n: nat)
    ensures n <= |s|
  {
    if s == [] then 0 else (if IsPlaceholder(s[0]) then 1 else 0) + Placeholders(s[1..])
  }

  lemma {:induction false} PlaceholdersAppend(a: string, b: string)
    ensures Placeholders(a + b) == Placeholders(a) + Placeholders(b)
    decreases |a|
  {
    if a == [] {
      assert a + b == b;
    } else {
      assert (a + b)[0] == a[0] && (a + b)[1..] == a[1..] + b;
      PlaceholdersAppend(a[1..], b);
    }
  }

  /** The digit `num & (1 << k)` selects. A negative k is a negative shift,
      which the callers rule out; it is shown as 0 here. */
  function Shown(num: nat, k: int): char
  {
    if k >= 0 && Bit(num, k) == 1 then '1' else '0'
  }

  /** What `printf_bits` writes for `format` when the next placeholder is
      to receive bit `top` of num: one character for each of the format. */
  function Render(format: string, num: nat, top: int): (r: string)
    ensures |r| == |format|
  {
    if format == [] then []
    else if format[0] == '\n' then "\n" + Render(format[1..], num, top)
    else if format[0] != ' ' then [Shown(num, top)] + Render(format[1..], num, top - 1)
    else " " + Render(format[1..], num, top)
  }

  /** One character out per format character: newlines and spaces are
      copied, and the placeholder at i, with p placeholders before it,
      shows bit top - p. */
  lemma {:induction false} RenderChars(format: string, num: nat, top: int)
    ensures var r := Render(format, num, top);
      && |r| == |format|
      && (forall i :: 0 <= i < |format| && !IsPlaceholder(format[i]) ==> r[i] == format[i])
      && (forall i :: 0 <= i < |format| && IsPlaceholder(format[i]) ==> r[i] == Shown(num, top - Placeholders(format[..i])))
    decreases |format|
  {
    if format != [] {
      var next := if IsPlaceholder(format[0]) then top - 1 else top;
      RenderChars(format[1..], num, next);
      var r := Render(format, num, top);
      var rest := Render(format[1..], num, next);
      assert r == [r[0]] + rest;
      forall i | 0 < i < |format|
        ensures Placeholders(format[..i]) == (if IsPlaceholder(format[0]) then 1 else 0) + Placeholders(format[1..][..i - 1])
      {
        assert format[..i][1..] == format[1..][..i - 1];
      }
      assert Placeholders(format[..0]) == 0;
    }
  }

  /** `printf_bits`: `bits` is decremented before the loop and after each
      placeholder. The caller must not ask for more placeholders than
      there are bits, nor for a shift past bit 30. */
  method PrintfBits(format: string, num: nat, bits: int) returns (out: string)
    requires Placeholders(format) <= bits <= 31
    ensures out == Render(format, num, bits - 1)
  {
    var len := |format|;
    var b := bits - 1;
    out := [];
    var i := 0;
    ghost var whole := Render(format, num, bits - 1);
    while i < len
      invariant 0 <= i <= len
      invariant b == bits - 1 - Placeholders(format[..i])
      invariant out + Render(format[i..], num, b) == whole
    {
      PlaceholderStep(format, i);
      PrintStep(format, num, i, b, out, whole);
      if format[i] == '\n' {
        out := out + "\n";
      } else if format[i] != ' ' {
        if Bit(num, b) == 1 {
          out := out + "1";
        } else {
          out := out + "0";
        }
        b := b - 1;
      } else {
        out := out + " ";
      }
      i := i + 1;
    }
  }

  /** One turn of the loop of `printf_bits`: the character the format has
      at i is written, and what is left to write follows it. */
  lemma PrintStep(format: string, num: nat, i: nat, b: int, out: string, whole: string)
    requires i < |format| && out + Render(format[i..], num, b) == whole
    ensures format[i] == '\n' ==> (out + "\n") + Render(format[i + 1..], num, b) == whole
    ensures format[i] == ' ' ==> (out + " ") + Render(format[i + 1..], num, b) == whole
    ensures IsPlaceholder(format[i]) && b >= 0 && Bit(num, b) == 1 ==>
      (out + "1") + Render(format[i + 1..], num, b - 1) == whole
    ensures IsPlaceholder(format[i]) && b >= 0 && Bit(num, b) != 1 ==>
      (out + "0") + Render(format[i + 1..], num, b - 1) == whole
  {
    var rest := Render(format[i + 1..], num, if IsPlaceholder(format[i]) then b - 1 else b);
    assert format[i..] == [format[i]] + format[i + 1..];
    assert format[i..][1..] == format[i + 1..];
    assert Render(format[i..], num, b) == [if IsPlaceholder(format[i]) then Shown(num, b) else format[i]] + rest;
  }

  /** A placeholder at i is counted once more in the prefix that ends
      after it, and no prefix holds more placeholders than the format. */
  lemma PlaceholderStep(format: string, i: nat)
    requires i < |format|
    ensures Placeholders(format[..i + 1]) == Placeholders(format[..i]) + (if IsPlaceholder(format[i]) then 1 else 0)
    ensures Placeholders(format[..i + 1]) <= Placeholders(format)
  {
    PlaceholdersAppend(format[..i + 1], format[i + 1..]);
    PlaceholdersAppend(format[..i], [format[i]]);
    assert format[..i + 1] + format[i + 1..] == format;
    assert format[..i] + [format[i]] == format[..i + 1];
  }

  // ---------------------------------------------------------------------
  // The dump line and how to read it back

  /** The format of each line of `output.txt` (main.c:588): sixteen
      placeholders `x` and a newline. */
  const WordFormat: string := Xs(16) + "\n"

  /** n placeholders. */
  function Xs(n: nat): string
  {
    if n == 0 then [] else "x" + Xs(n - 1)
  }

  /** The n bits of num from bit top down. */
  function Column(num: nat, top: int, n: nat): (s: string)
    ensures |s| == n
    decreases n
  {
    if n == 0 then [] else [Shown(num, top)] + Column(num, top - 1, n - 1)
  }

  /** A string of '0' and '1' read as a binary number, most significant
      digit first. */
  function ReadBinary(s: string): nat
  {
    if s == [] then 0 else (if s[0] == '1' then Pow2(|s| - 1) else 0) + ReadBinary(s[1..])
  }

  lemma {:induction false} RenderXs(n: nat, rest: string, num: nat, top: int)
    ensures Render(Xs(n) + rest, num, top) == Column(num, top, n) + Render(rest, num, top - n)
    decreases n
  {
    if n == 0 {
      assert Xs(n) + rest == rest;
    } else {
      XsFirst(n, rest);
      RenderXs(n - 1, rest, num, top - 1);
      ConsAppend(Shown(num, top), Column(num, top - 1, n - 1), Render(rest, num, top - n));
    }
  }

  /** A run of placeholders loses its first one. */
  lemma XsFirst(n: nat, rest: string)
    requires n > 0
    ensures var s := Xs(n) + rest; s != [] && s[0] == 'x' && s[1..] == Xs(n - 1) + rest
  {
    assert Xs(n) + rest == "x" + (Xs(n - 1) + rest);
  }

  lemma ConsAppend(c: char, a: string, b: string)
    ensures [c] + (a + b) == ([c] + a) + b
  {
  }

  /** The top bit of a residue modulo 2^n splits off. */
  lemma TopBit(x: nat, n: nat)
    requires n > 0
    ensures x % Pow2(n) == Bit(x, n - 1) * Pow2(n - 1) + x % Pow2(n - 1)
  {
    var p := Pow2(n - 1);
    assert Pow2(n) == 2 * p;
    var q := x / (2 * p);
    var r := x % (2 * p);
    assert x == q * (2 * p) + r;
    if r < p {
      assert x == (2 * q) * p + r;
      DivisionUnique(x, p, 2 * q, r);
    } else {
      assert x == (2 * q + 1) * p + (r - p);
      DivisionUnique(x, p, 2 * q + 1, r - p);
    }
  }

  /** The n bits from bit n - 1 down read back as num modulo 2^n. */
  lemma {:induction false} ReadColumn(num: nat, n: nat)
    ensures ReadBinary(Column(num, n - 1, n)) == num % Pow2(n)
    decreases n
  {
    if n > 0 {
      var c := Column(num, n - 1, n);
      ReadColumn(num, n - 1);
      TopBit(num, n);
      assert c[0] == Shown(num, n - 1) && c[1..] == Column(num, n - 2, n - 1);
      assert ReadBinary(c) == Bit(num, n - 1) * Pow2(n - 1) + ReadBinary(c[1..]);
    }
  }

  /** n placeholders and a newline show the n low bits of num, which read
      back as num when it has no higher bit. */
  lemma ColumnLine(num: nat, n: nat)
    requires num < Pow2(n)
    ensures Placeholders(Xs(n) + "\n") == n
    ensures Render(Xs(n) + "\n", num, n - 1) == Column(num, n - 1, n) + "\n"
    ensures ReadBinary(Column(num, n - 1, n)) == num
  {
    PlaceholdersAppend(Xs(n), "\n");
    XsPlaceholders(n);
    RenderXs(n, "\n", num, n - 1);
    assert Render("\n", num, -1) == "\n";
    ColumnReadsBack(num, n);
  }

  /** n bits read back as the number they were taken from, when it has
      no higher bit. */
  lemma ColumnReadsBack(num: nat, n: nat)
    requires num < Pow2(n)
    ensures ReadBinary(Column(num, n - 1, n)) == num
  {
    ReadColumn(num, n);
    DivisionUnique(num, Pow2(n), 0, num);
  }

  lemma WordFormatPlaceholders()
    ensures Placeholders(WordFormat) == 16
  {
    PlaceholdersAppend(Xs(16), "\n");
    XsPlaceholders(16);
  }

  /** The dump line of a 16-bit word is its sixteen bits and a newline, and
      the bits read back as the word. */
  lemma WordLine(w: nat)
    requires w < 0x1_0000
    ensures Render(WordFormat, w, 15) == Column(w, 15, 16) + "\n"
    ensures ReadBinary(Column(w, 15, 16)) == w
  {
    Pow2Values();
    ColumnLine(w, 16);
  }

  lemma {:induction false} XsPlaceholders(n: nat)
    ensures Placeholders(Xs(n)) == n
    decreases n
  {
    if n > 0 {
      XsPlaceholders(n - 1);
    }
  }
}
