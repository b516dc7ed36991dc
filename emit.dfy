/** The loop of `main` (main.c:538-592): each line is compiled in turn, a
    blank line only counts, the first line that fails ends the run, and
    each word is stored little-endian into the byte buffer `Instructions`
    at `PC`, which advances by 2. The dump then prints every stored word
    with `printf_bits`.

    The specification is the fold `Assemble` over the lines; the class
    `Assembler` holds the buffer and the globals `PC` and `current_line`,
    and its methods are proved against the fold. */
module Emit {
  import opened CInt
  import opened Bits
  import opened Lexer
  import opened Encoding
  import opened Compile
  import opened PrintBits

  /** `MAX_PROGRAM_SIZE`, the size in bytes of `Instructions`. */
  const MaxProgramSize: nat := 5000

  /** A diagnostic with the value `current_line` had when it was reported. */
  datatype Report = Report(line: nat, diagnostic: Diagnostic)

  function Tag(line: nat, ds: seq<Diagnostic>): seq<Report>
  {
    seq(|ds|, i requires 0 <= i < |ds| => Report(line, ds[i]))
  }

  /** The lines the loop can be given: the blank line "\n", which is
      skipped, or a line with at least one token (`compile_line` calls
      `strcmp` on the first token without checking it). */
  predicate Acceptable(line: string)
  {
    line == "\n" || Tokenize(line) != []
  }

  predicate AllAcceptable(lines: seq<string>)
  {
    forall i :: 0 <= i < |lines| ==> Acceptable(lines[i])
  }

  /** Where the loop is: the words stored so far, `current_line`, what was
      reported, and whether a line has failed. */
  datatype Listing = Listing(words: seq<Word>, line: nat, reports: seq<Report>, stopped: bool)

  const Start := Listing([], 1, [], false)

  /** What a line does to the loop: store a word, or stop it. */
  datatype Effect = Stores(word: Word, diagnostics: seq<Diagnostic>) | Stops(diagnostics: seq<Diagnostic>)

  /** What `compile_line` makes of a line with a token; junk stands for
      what its uninitialised locals hold. A line without a token is only
      ever the blank line, whose outcome is never looked at. */
  function Outcome(line: string, junk: Indeterminate): Effect
  {
    if Tokenize(line) == [] then Stops([])
    else
      match CompileTokens(Tokenize(line), junk)
      case Failed(ds) => Stops(ds)
      case Emitted(c, ds) => Stores(Encode(c), ds)
  }

  function Outcomes(lines: seq<string>, junk: seq<Indeterminate>): (outs: seq<Effect>)
    requires |junk| == |lines|
    ensures |outs| == |lines|
  {
    seq(|lines|, i requires 0 <= i < |lines| => Outcome(lines[i], junk[i]))
  }

  /** One line through the loop, given what compiling it gives. Words and
      reports are only ever appended, at most one word per line; a stopped
      loop stays as it is, and a running one stops exactly on a line that
      is not blank and fails. */
  function Step(s: Listing, line: string, out: Effect): (r: Listing)
    ensures |s.words| <= |r.words| <= |s.words| + 1 && r.words[..|s.words|] == s.words
    ensures |s.reports| <= |r.reports| && r.reports[..|s.reports|] == s.reports
    ensures s.stopped ==> r == s
    ensures r.stopped <==> s.stopped || (line != "\n" && out.Stops?)
  {
    if s.stopped then s
    else if line == "\n" then s.(line := s.line + 1)
    else
      match out
      case Stops(ds) => s.(reports := s.reports + Tag(s.line, ds), stopped := true)
      case Stores(w, ds) => Listing(s.words + [w], s.line + 1, s.reports + Tag(s.line, ds), false)
  }

  /** The loop over the first n lines. It stores at most one word per
      line that is not blank, and a run that meets no failing line counts
      every line, blank or not, and stores one word for each that is not
      blank. */
  function Fold(lines: seq<string>, outs: seq<Effect>, n: nat): (r: Listing)
    requires n <= |lines| == |outs|
    ensures |r.words| <= Nonblank(lines, n)
    ensures !r.stopped ==> r.line == n + 1 && |r.words| == Nonblank(lines, n)
  {
    if n == 0 then Start else Step(Fold(lines, outs, n - 1), lines[n - 1], outs[n - 1])
  }

  /** The loop over the lines of a file. It stops exactly when some line
      that is not blank fails to compile, and it leaves what `Collected`
      gathers: the words of the lines before that one, in order, and the
      reports of those lines and of the failing one. */
  function Assemble(lines: seq<string>, junk: seq<Indeterminate>): (r: Listing)
    requires |junk| == |lines|
    ensures r.stopped <==> exists j :: 0 <= j < |lines| && lines[j] != "\n" && Outcome(lines[j], junk[j]).Stops?
    ensures r == Collected(lines, Outcomes(lines, junk), |lines|)
  {
    FoldStops(lines, Outcomes(lines, junk), |lines|);
    FoldCollects(lines, Outcomes(lines, junk), |lines|);
    Fold(lines, Outcomes(lines, junk), |lines|)
  }

  // ---------------------------------------------------------------------
  // What the loop leaves, gathered line by line

  /** Whether line j is one that ends the run: not blank, and failing. */
  predicate Fails(lines: seq<string>, outs: seq<Effect>, j: nat)
    requires j < |lines| == |outs|
  {
    lines[j] != "\n" && outs[j].Stops?
  }

  /** The index of the first of the first n lines that fails, or n when
      none does. */
  function FirstFailing(lines: seq<string>, outs: seq<Effect>, n: nat): (f: nat)
    requires n <= |lines| == |outs|
    ensures f <= n
    ensures f < n ==> Fails(lines, outs, f)
    ensures forall j :: 0 <= j < f ==> !Fails(lines, outs, j)
  {
    if n == 0 then 0
    else
      var f := FirstFailing(lines, outs, n - 1);
      if f < n - 1 || Fails(lines, outs, n - 1) then f else n
  }

  /** The words of the first n lines: one for each that is not blank and
      compiles, in line order. */
  function Stored(lines: seq<string>, outs: seq<Effect>, n: nat): seq<Word>
    requires n <= |lines| == |outs|
  {
    if n == 0 then []
    else Stored(lines, outs, n - 1) + (if lines[n - 1] != "\n" && outs[n - 1].Stores? then [outs[n - 1].word] else [])
  }

  /** The reports of the first n lines, in line order, each tagged with
      its line's number, which is where `current_line` stands for it. */
  function Reported(lines: seq<string>, outs: seq<Effect>, n: nat): seq<Report>
    requires n <= |lines| == |outs|
  {
    if n == 0 then []
    else Reported(lines, outs, n - 1) + (if lines[n - 1] != "\n" then Tag(n, outs[n - 1].diagnostics) else [])
  }

  /** What the loop over the first n lines should leave, stated without
      the loop: with f the first failing line (n if none), the words of
      the lines before f, `current_line` at f + 1, the reports up to and
      including f, and stopped exactly when some line failed. */
  function Collected(lines: seq<string>, outs: seq<Effect>, n: nat): Listing
    requires n <= |lines| == |outs|
  {
    var f := FirstFailing(lines, outs, n);
    Listing(Stored(lines, outs, f), f + 1, Reported(lines, outs, if f < n then f + 1 else n), f < n)
  }

  /** The loop leaves what `Collected` gathers; in particular a run that
      does not stop stores the words of all its lines that are not blank,
      in order, counts every line, and reports what each line reported. */
  lemma {:induction false} FoldCollects(lines: seq<string>, outs: seq<Effect>, n: nat)
    requires n <= |lines| == |outs|
    ensures Fold(lines, outs, n) == Collected(lines, outs, n)
    ensures !Fold(lines, outs, n).stopped ==>
      Fold(lines, outs, n).words == Stored(lines, outs, n) && Fold(lines, outs, n).reports == Reported(lines, outs, n)
  {
    if n > 0 {
      FoldCollects(lines, outs, n - 1);
      CollectedStep(lines, outs, n);
    }
  }

  /** One more line takes what is gathered for the lines before it one
      step of the loop further. */
  lemma CollectedStep(lines: seq<string>, outs: seq<Effect>, n: nat)
    requires 0 < n <= |lines| == |outs|
    ensures Collected(lines, outs, n) == Step(Collected(lines, outs, n - 1), lines[n - 1], outs[n - 1])
  {
    var f := FirstFailing(lines, outs, n - 1);
    if f == n - 1 && lines[n - 1] != "\n" {
      assert Reported(lines, outs, n) == Reported(lines, outs, n - 1) + Tag(n, outs[n - 1].diagnostics);
    }
  }

  // ---------------------------------------------------------------------
  // What the loop promises

  /** How many of the first n lines are not blank. */
  function Nonblank(lines: seq<string>, n: nat): nat
    requires n <= |lines|
  {
    if n == 0 then 0 else Nonblank(lines, n - 1) + (if lines[n - 1] == "\n" then 0 else 1)
  }

  /** The first n lines stop the loop exactly when one of them is not
      blank and fails. */
  lemma {:induction false} FoldStops(lines: seq<string>, outs: seq<Effect>, n: nat)
    requires n <= |lines| == |outs|
    ensures Fold(lines, outs, n).stopped <==> exists j :: 0 <= j < n && lines[j] != "\n" && outs[j].Stops?
  {
    if n > 0 {
      FoldStops(lines, outs, n - 1);
      if lines[n - 1] != "\n" && outs[n - 1].Stops? {
        assert Fold(lines, outs, n).stopped;
      }
    }
  }

  /** Once a line has failed nothing changes any more. */
  lemma {:induction false} Stopped(lines: seq<string>, outs: seq<Effect>, i: nat, n: nat)
    requires i <= n <= |lines| == |outs|
    requires Fold(lines, outs, i).stopped
    ensures Fold(lines, outs, n) == Fold(lines, outs, i)
    decreases n
  {
    if n > i {
      Stopped(lines, outs, i, n - 1);
    }
  }

  /** The first line that fails ends the run where it is: nothing is
      stored for it, `current_line` stays at its number, and what it
      reported is the last thing reported. */
  lemma FirstFailure(lines: seq<string>, outs: seq<Effect>, j: nat)
    requires j < |lines| == |outs|
    requires !Fold(lines, outs, j).stopped && lines[j] != "\n" && outs[j].Stops?
    ensures var before := Fold(lines, outs, j);
      Fold(lines, outs, |lines|) == Listing(before.words, j + 1, before.reports + Tag(j + 1, outs[j].diagnostics), true)
  {
    Stopped(lines, outs, j + 1, |lines|);
  }

  /** Stored words never go away: the first i lines store a prefix of
      what the first n store. */
  lemma {:induction false} WordsGrow(lines: seq<string>, outs: seq<Effect>, i: nat, n: nat)
    requires i <= n <= |lines| == |outs|
    ensures var w := Fold(lines, outs, n).words; var v := Fold(lines, outs, i).words;
      |v| <= |w| && v == w[..|v|]
    decreases n
  {
    if n > i {
      WordsGrow(lines, outs, i, n - 1);
    }
  }

  /** The first i + 1 lines take one more step than the first i, and a
      step taken on the way to a run whose words fit the buffer leaves
      words that fit as well. */
  lemma FoldNext(lines: seq<string>, outs: seq<Effect>, i: nat)
    requires i < |lines| == |outs|
    requires 2 * |Fold(lines, outs, |lines|).words| <= MaxProgramSize
    ensures Fold(lines, outs, i + 1) == Step(Fold(lines, outs, i), lines[i], outs[i])
    ensures 2 * |Step(Fold(lines, outs, i), lines[i], outs[i]).words| <= MaxProgramSize
  {
    WordsGrow(lines, outs, i + 1, |lines|);
  }

  // ---------------------------------------------------------------------
  // The byte buffer

  /** `operation & 0xff`, with the word held in the `int16_t operation`. */
  function Low(w: Word): Byte
  {
    ToInt16(w) % 0x100
  }

  /** `(operation >> 8) & 0xff`: the shift of a negative `int16_t` is
      arithmetic, which is Dafny's division rounding down. */
  function High(w: Word): Byte
  {
    (ToInt16(w) / 0x100) % 0x100
  }

  /** `(Instructions[i + 1] << 8) | Instructions[i]`. */
  function Join(lo: Byte, hi: Byte): Word
  {
    Or16(hi * 0x100, lo)
  }

  /** Splitting a word into its two bytes and joining them gives it back. */
  lemma SplitJoin(w: Word)
    ensures Join(Low(w), High(w)) == w
  {
    var x: int := ToInt16(w);
    var q: int := w / 0x100;
    var lo: int := w % 0x100;
    assert w == q * 0x100 + lo;
    if w < 0x8000 {
      assert x == w;
      DivisionUnique(x, 0x100, q, lo);
      DivisionUnique(q, 0x100, 0, q);
    } else {
      assert x == w - 0x1_0000 == (q - 0x100) * 0x100 + lo;
      DivisionUnique(x, 0x100, q - 0x100, lo);
      DivisionUnique(q - 0x100, 0x100, -1, q);
    }
    assert Low(w) == lo && High(w) == q;
    Pow2Values();
    BitOrDisjoint(q, lo, 8);
  }

  /** Writing the two bytes of w at an even offset p extends the words
      below p by w. */
  lemma StoreStep(before: seq<Byte>, after: seq<Byte>, p: nat, w: Word)
    requires p % 2 == 0 && p + 2 <= |before| == |after|
    requires after == before[p := Low(w)][p + 1 := High(w)]
    ensures Words(after[..p + 2]) == Words(before[..p]) + [w]
  {
    assert after[..p + 2][..p] == before[..p];
    SplitJoin(w);
  }

  /** The words a little-endian byte sequence holds. */
  function Words(bytes: seq<Byte>): (ws: seq<Word>)
    requires |bytes| % 2 == 0
    ensures |ws| == |bytes| / 2
    decreases |bytes|
  {
    if bytes == [] then []
    else
      var n := |bytes| - 2;
      Words(bytes[..n]) + [Join(bytes[n], bytes[n + 1])]
  }

  lemma WordsSnoc(bytes: seq<Byte>, i: nat)
    requires i % 2 == 0 && i + 2 <= |bytes|
    ensures Words(bytes[..i + 2]) == Words(bytes[..i]) + [Join(bytes[i], bytes[i + 1])]
  {
    assert bytes[..i + 2][..i] == bytes[..i];
  }

  /** `main`'s state: the buffer and the two globals. */
  class Assembler {
    const instructions: array<Byte>
    var pc: nat
    var currentLine: nat
    var reports: seq<Report>

    /** PC stays even and inside the buffer. */
    predicate Valid()
      reads this
    {
      instructions.Length == MaxProgramSize && pc % 2 == 0 && pc <= MaxProgramSize
    }

    /** The words stored below PC. */
    function Program(): seq<Word>
      reads this, instructions
      requires Valid()
    {
      Words(instructions[..pc])
    }

    /** The state before the first line: PC is 0 and `current_line` 1. */
    constructor ()
      ensures Valid() && fresh(instructions)
      ensures pc == 0 && currentLine == 1 && reports == [] && Program() == []
    {
      instructions := new Byte[MaxProgramSize];
      pc, currentLine, reports := 0, 1, [];
    }

    /** The two byte stores and `PC += 2`: the low byte goes first. No
        other cell of the buffer changes. */
    method Store(w: Word)
      requires Valid() && pc + 2 <= MaxProgramSize
      modifies this, instructions
      ensures Valid() && pc == old(pc) + 2
      ensures currentLine == old(currentLine) && reports == old(reports)
      ensures instructions[..] == old(instructions[..])[old(pc) := Low(w)][old(pc) + 1 := High(w)]
      ensures Program() == old(Program()) + [w]
    {
      ghost var before := instructions[..];
      var operation := ToInt16(w);
      instructions[pc] := operation % 0x100;
      instructions[pc + 1] := (operation / 0x100) % 0x100;
      StoreStep(before, instructions[..], pc, w);
      pc := pc + 2;
    }

    /** Where the loop stands, as the specification sees it. */
    function State(): Listing
      reads this, instructions
      requires Valid()
    {
      Listing(Program(), currentLine, reports, false)
    }

    /** One turn of the loop of `main`: a blank line is only counted; any
        other line is compiled, and what it reported is kept; a failing
        line stores nothing and leaves `current_line` alone, any other
        stores its word. */
    method Feed(line: string, junk: Indeterminate, ghost out: Effect) returns (stopped: bool)
      requires Valid() && Acceptable(line) && out == Outcome(line, junk)
      requires 2 * |Step(State(), line, out).words| <= MaxProgramSize
      modifies this, instructions
      ensures Valid()
      ensures Listing(Program(), currentLine, reports, stopped) == Step(old(State()), line, out)
    {
      if line == "\n" {
        currentLine := currentLine + 1;
        return false;
      }
      var r := CompileLine(line, junk);
      reports := reports + Tag(currentLine, r.diagnostics);
      if r.Failed? {
        return true;
      }
      Store(r.Word());
      currentLine := currentLine + 1;
      stopped := false;
    }

    /** Line i of a run through `Feed`: from the state the first i lines
        leave to the state the first i + 1 leave; once a line fails, that
        state is the final one. */
    method Turn(lines: seq<string>, junk: seq<Indeterminate>, ghost outs: seq<Effect>, i: nat) returns (stopped: bool)
      requires Valid() && i < |lines| == |junk| == |outs| && Acceptable(lines[i])
      requires outs[i] == Outcome(lines[i], junk[i])
      requires State() == Fold(lines, outs, i)
      requires 2 * |Fold(lines, outs, |lines|).words| <= MaxProgramSize
      modifies this, instructions
      ensures Valid()
      ensures Listing(Program(), currentLine, reports, stopped) == Fold(lines, outs, i + 1)
      ensures stopped ==> Fold(lines, outs, |lines|) == Fold(lines, outs, i + 1)
    {
      FoldNext(lines, outs, i);
      stopped := Feed(lines[i], junk[i], outs[i]);
      if stopped {
        Stopped(lines, outs, i + 1, |lines|);
      }
    }

    /** The loop of `main` over the lines of a file, from the state the
        constructor leaves; outs is what compiling each line gives. The
        buffer must hold every word the run stores. */
    method Run(lines: seq<string>, junk: seq<Indeterminate>, ghost outs: seq<Effect>) returns (stopped: bool)
      requires Valid() && pc == 0 && currentLine == 1 && reports == []
      requires |junk| == |lines| == |outs| && AllAcceptable(lines)
      requires forall k {:trigger Outcome(lines[k], junk[k])} :: 0 <= k < |lines| ==> outs[k] == Outcome(lines[k], junk[k])
      requires 2 * |Fold(lines, outs, |lines|).words| <= MaxProgramSize
      modifies this, instructions
      ensures Valid()
      ensures Listing(Program(), currentLine, reports, stopped) == Fold(lines, outs, |lines|)
    {
      var i := 0;
      stopped := false;
      while i < |lines| && !stopped
        invariant 0 <= i <= |lines| && Valid()
        invariant Listing(Program(), currentLine, reports, stopped) == Fold(lines, outs, i)
        invariant stopped ==> Fold(lines, outs, |lines|) == Fold(lines, outs, i)
      {
        stopped := Turn(lines, junk, outs, i);
        i := i + 1;
      }
    }

    /** The loop that writes `output.txt`: one line of sixteen bits per
        stored word. */
    method Dump() returns (out: string)
      requires Valid()
      ensures out == Listed(Program())
    {
      out := [];
      var i := 0;
      ghost var k := 0;
      ghost var n := pc / 2;
      assert instructions[..0] == [];
      while i < pc
        invariant pc == 2 * n && 0 <= k <= n && i == 2 * k
        invariant out == Listed(Words(instructions[..i]))
      {
        var text := PrintWord(Join(instructions[i], instructions[i + 1]));
        DumpStep(instructions[..], k);
        out := out + text;
        i, k := i + 2, k + 1;
      }
      assert i == pc;
    }
  }

  /** `main` on the lines of a file: the loop, then the dump. What it
      writes to `output.txt` is one line of bits per word the run stored;
      reports is what it printed on the way, each with its line number. */
  method AssembleFile(lines: seq<string>, junk: seq<Indeterminate>) returns (out: string, reports: seq<Report>, stopped: bool)
    requires |junk| == |lines| && AllAcceptable(lines)
    requires 2 * |Assemble(lines, junk).words| <= MaxProgramSize
    ensures stopped == Assemble(lines, junk).stopped
    ensures reports == Assemble(lines, junk).reports
    ensures out == Listed(Assemble(lines, junk).words)
  {
    var a := new Assembler();
    stopped := a.Run(lines, junk, Outcomes(lines, junk));
    reports := a.reports;
    out := a.Dump();
  }

  /** The line `printf_bits(fp, "xxxxxxxxxxxxxxxx\n", w, 16)` writes for
      a word: its sixteen bits, most significant first, and a newline. */
  function DumpLine(w: Word): string
  {
    Column(w, 15, 16) + "\n"
  }

  /** The call to `printf_bits` in the dump loop. */
  method PrintWord(w: Word) returns (text: string)
    ensures text == DumpLine(w)
  {
    WordFormatPlaceholders();
    text := PrintfBits(WordFormat, w, 16);
    WordLine(w);
  }

  /** The text of `output.txt` for a list of words. */
  function Listed(ws: seq<Word>): string
  {
    if ws == [] then [] else Listed(ws[..|ws| - 1]) + DumpLine(ws[|ws| - 1])
  }

  /** Two more bytes of the buffer add one line to the dump. */
  lemma DumpStep(bytes: seq<Byte>, k: nat)
    requires 2 * k + 2 <= |bytes|
    ensures Listed(Words(bytes[..2 * k + 2])) == Listed(Words(bytes[..2 * k])) + DumpLine(Join(bytes[2 * k], bytes[2 * k + 1]))
  {
    WordsSnoc(bytes, 2 * k);
    ListedSnoc(Words(bytes[..2 * k]), Join(bytes[2 * k], bytes[2 * k + 1]));
  }

  lemma ListedSnoc(ws: seq<Word>, w: Word)
    ensures Listed(ws + [w]) == Listed(ws) + DumpLine(w)
  {
    assert (ws + [w])[..|ws|] == ws;
  }

  lemma {:induction false} ListedLength(ws: seq<Word>)
    ensures |Listed(ws)| == 17 * |ws|
    decreases |ws|
  {
    if ws != [] {
      ListedLength(ws[..|ws| - 1]);
    }
  }

  /** Line k of `output.txt` is the dump line of word k. */
  lemma {:induction false} ListedLine(ws: seq<Word>, k: nat)
    requires k < |ws|
    ensures 17 * k + 17 <= |Listed(ws)|
    ensures Listed(ws)[17 * k..17 * k + 17] == DumpLine(ws[k])
    decreases |ws|
  {
    var n := |ws| - 1;
    ListedLength(ws);
    if k == n {
      ListedLast(ws, k);
    } else {
      ListedPrefix(ws, k);
      ListedLine(ws[..n], k);
      assert ws[..n][k] == ws[k];
    }
  }

  /** The last line of `output.txt` is the dump line of the last word. */
  lemma ListedLast(ws: seq<Word>, n: nat)
    requires n == |ws| - 1
    ensures 17 * n + 17 <= |Listed(ws)|
    ensures Listed(ws)[17 * n..17 * n + 17] == DumpLine(ws[n])
  {
    ListedLength(ws[..n]);
    SliceRight(Listed(ws[..n]), DumpLine(ws[n]), 17 * n, 17 * n + 17);
  }

  /** Adding a word leaves the lines before it as they were. */
  lemma ListedPrefix(ws: seq<Word>, k: nat)
    requires k < |ws| - 1
    ensures 17 * k + 17 <= |Listed(ws[..|ws| - 1])|
    ensures Listed(ws)[17 * k..17 * k + 17] == Listed(ws[..|ws| - 1])[17 * k..17 * k + 17]
  {
    var n := |ws| - 1;
    ListedLength(ws[..n]);
    SliceLeft(Listed(ws[..n]), DumpLine(ws[n]), 17 * k, 17 * k + 17);
  }

  /** `output.txt` holds 17 characters per word, and line k is word k in
      binary followed by a newline. */
  lemma ListedReadsBack(ws: seq<Word>)
    ensures |Listed(ws)| == 17 * |ws|
    ensures forall k :: 0 <= k < |ws| ==>
      ReadBinary(Listed(ws)[17 * k..17 * k + 16]) == ws[k] && Listed(ws)[17 * k + 16] == '\n'
  {
    ListedLength(ws);
    forall k | 0 <= k < |ws|
      ensures ReadBinary(Listed(ws)[17 * k..17 * k + 16]) == ws[k] && Listed(ws)[17 * k + 16] == '\n'
    {
      LineReadsBack(ws, k);
    }
  }

  /** Line k of `output.txt` read back. */
  lemma LineReadsBack(ws: seq<Word>, k: nat)
    requires k < |ws|
    ensures 17 * k + 17 <= |Listed(ws)|
    ensures ReadBinary(Listed(ws)[17 * k..17 * k + 16]) == ws[k] && Listed(ws)[17 * k + 16] == '\n'
  {
    ListedLine(ws, k);
    SliceReadsBack(Listed(ws), 17 * k, ws[k]);
  }

  /** A dump line found at i in s reads back as its word. */
  lemma SliceReadsBack(s: string, i: nat, w: Word)
    requires i + 17 <= |s| && s[i..i + 17] == DumpLine(w)
    ensures ReadBinary(s[i..i + 16]) == w && s[i + 16] == '\n'
  {
    SliceOfSlice(s, i);
    WordReadsBack(w);
  }

  /** The sixteen bits of a dump line read back as the word. */
  lemma WordReadsBack(w: Word)
    ensures ReadBinary(DumpLine(w)[..16]) == w && DumpLine(w)[16] == '\n'
  {
    assert DumpLine(w)[..16] == Column(w, 15, 16);
    Pow2Values();
    ColumnReadsBack(w, 16);
  }

  lemma SliceLeft(a: string, b: string, i: nat, j: nat)
    requires i <= j <= |a|
    ensures (a + b)[i..j] == a[i..j]
  {
  }

  lemma SliceRight(a: string, b: string, i: nat, j: nat)
    requires i == |a| && j == |a| + |b|
    ensures (a + b)[i..j] == b
  {
  }

  lemma SliceOfSlice(s: string, i: nat)
    requires i + 17 <= |s|
    ensures s[i..i + 16] == s[i..i + 17][..16] && s[i + 16] == s[i..i + 17][16]
  {
  }
}
