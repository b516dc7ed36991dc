# SISA assembler, modelled in Dafny

This project models the assembler in `main.c` of SISAFIB, a one-pass
translator from SISA assembly text to 16-bit machine words. It covers four
parts.

- **Encoders.** `format_n8`, `format_r3` and `format_n6` pack an opcode or
  selector, register numbers, a flag or function code and a truncated
  immediate into a `uint16_t`.
- **Operand readers.**
  - `strtok` splits a line on `" ,\n"`; `strtol` reads numbers.
  - `is_valid_register` and `get_register_num` read register tokens.
  - `get_register`, `get_2reg` and `get_3reg` pull registers off the line.
  - The `offset(Rbase)` memory operand is parsed inside `compile_line`.
- **`compile_line`.** It dispatches on the 25 mnemonics. It warns about
  literals that are too wide and returns `PARSE_ERROR` or `PARSE_SUCCESS`.
- **`main`'s loop and dump.**
  - Each word is stored little-endian into the byte buffer `Instructions`
    at `PC`, and `PC` advances by 2.
  - Blank lines are only counted.
  - The first failing line ends the run.
  - `printf_bits` then prints every stored word as sixteen binary digits.

Modules:

- `CInt`: the C integer widths and the narrowing casts, which wrap
  modulo 2^n.
- `Bits`: powers of two, bit tests and bitwise or on integers.
- `Encoding`: the three encoders, the encoder call a line makes (`Call`),
  and a decoder `Decode` as their inverse.
- `Lexer`:
  - `strtok`'s split (`Tokenize`), with its partner `Joined`, which writes
    tokens out with delimiters between them;
  - `strtol` (`ParseLong`), with its partner `Signed`;
  - the register tokens.
- `Compile`:
  - `compile_line` as a specification over the token list (`CompileTokens`);
  - the imperative parser (`CompileLine` and one method per branch), which
    walks a `Strtok` object holding `strtok`'s hidden cursor;
  - proofs that each method agrees with the specification.
- `CompileProperties`:
  - which lines fail, and with what report;
  - which always produce a word;
  - which literals draw a warning;
  - that every line in canonical form decodes back to the instruction it
    spells.
- `CompileQuirks`: behaviour of `compile_line` that the instruction
  formats alone would not lead one to expect, pinned to concrete lines.
- `PrintBits`: `printf_bits` as a loop proved against a rendering
  function, and reading a printed column of bits back.
- `Emit`:
  - `main`'s loop as the class `Assembler`, over the `Instructions` array
    and the globals `PC` and `current_line`;
  - proved against the fold `Assemble` over the lines, which is shown to
    leave what `Collected` gathers without a loop: the words of the lines
    before the first failure, in order, and the reports up to it;
  - the dump, whose output reads back as the stored words.
- `ProgramExample`: the two-line program `MOVI R0, 5` / `ADD R1, R0, R0`
  taken from its text through `strtok`, `compile_line` and the loop to
  the words `0x9005` and `0x000C`.

Two consequences of the code are worth stating.

- `format_r3` puts dreg in bits 5..3 and the function code in bits 2..0,
  so `ADD R1, R0, R0` is the word `0x000C`. `AddExample` and `AddOutcome`
  prove it.
- ADDI's warning fires outside -31..63 (`val > 63 || val < -31`), not
  outside the six-bit range -32..31. `AddiRangeMismatch` proves what
  follows from that.

`compile_line` is specified over the tokens of its line (`CompileTokens`),
and `Tokenize` is `strtok`'s split of the line into them; `TokenizeJoined`
shows that splitting gives back the tokens a line was written from, and
`TwoLineProgram` follows a two-line file from its text to its words. The
uninitialised locals `d`, `a` and `b` become a parameter `junk:
Indeterminate`: any values at all.

## Model

| member | source | states |
|---|---|---|
| `Encoding.N8Layout` | main.c:144-147 | With opcode 0..15, register 0..7 and flag 0..1 the N8 word is opcode·2^12 + reg·2^9 + flag·2^8 + (n8 mod 2^8): the fields do not overlap |
| `Encoding.R3Layout` | main.c:150-153 | With every field in range the R3 word is is_boolean·2^12 + areg·2^9 + breg·2^6 + dreg·2^3 + f |
| `Encoding.N6Layout` | main.c:155-158 | With opcode 0..15 and registers 0..7 the N6 word is opcode·2^12 + areg·2^9 + dbreg·2^6 + (value mod 2^6) |
| `Encoding.FormatN8` | main.c:144-147 | Whatever the opcode, register and flag, the low byte of the word is that of the `int8_t` immediate (n8 mod 2^8) |
| `Encoding.FormatR3` | main.c:150-153 | Whatever the registers and is_boolean, the low three bits of the word are those of the function code |
| `Encoding.FormatN6` | main.c:155-158 | Whatever the opcode and registers, the low six bits of the word are value mod 2^6 |
| `Encoding.OrLowBits` | main.c:144-158 | Or-ing onto an operand three operands whose low k bits are clear leaves that operand's low k bits |
| `Encoding.ImmediateCongruence` | main.c:144-158 | Literals congruent mod 2^8 (N8, after the `int8_t` cast) or mod 2^6 (N6) give the same word |
| `Encoding.DecodeFormatN8` | main.c:144-147 | For selectors 8..10 the decoder reads back opcode, register, flag and the immediate |
| `Encoding.DecodeFormatN6` | main.c:155-158 | For selectors 2..7 the decoder reads back opcode and registers; the immediate comes back sign-extended from its six bits, exactly itself when in -32..31 |
| `Encoding.DecodeFormatR3` | main.c:150-153 | For in-range fields the decoder reads back is_boolean, areg, breg, dreg and f |
| `Encoding.EncodeDecode` | main.c:144-158 | For every encoder call whose fields fit their layout, decoding the word gives back the instruction the call spells |
| `Encoding.SixBitExact` | main.c:155-158 | A value survives the six-bit field exactly when it lies in -32..31 |
| `Encoding.SixBitWrap` | main.c:520-527 | 32..63 come back from the six-bit field as value − 64; -32 comes back as itself |
| `Encoding.R3RegistersUnmasked` | main.c:150-153 | Register fields are not masked: dreg 8 lands in breg, and areg 8 sets bit 12, turning an arithmetic word into a comparison |
| `Encoding.R12Spill` | main.c:150-153 | dreg 12 overflows into breg: the word of ADD with dreg 12 is that of ADD R4, R0, R1 |
| `Encoding.BaseSpill` | main.c:454-461 | A store with base 9 sets bit 12 and gives the word of the load LDB R0, 0(R1) |
| `Lexer.Tokenize` | main.c:164 | strtok's tokens are non-empty and contain no delimiter |
| `Lexer.TokenizeKeepsVisible` | main.c:164 | The tokens, concatenated, are the line with its delimiters removed: nothing lost, nothing invented |
| `Lexer.TokenizeEmpty` | main.c:164 | The first strtok returns NULL exactly when the line holds only delimiters |
| `Lexer.TokenizeDelimiters` | main.c:164 | Delimiters at the start of a line are skipped |
| `Lexer.TokenizeCons` | main.c:164-174 | A non-empty, delimiter-free token followed by a delimiter or the end of the line is the first token strtok returns, and the later calls split what follows it |
| `Lexer.TokenizeJoined` | main.c:164-174 | Splitting a line written from non-empty, delimiter-free tokens, each followed by any non-empty run of delimiters, gives exactly those tokens back |
| `Lexer.ParseLong` | main.c:218 | strtol's value lies within a long, its end is within the string, and with no digit read the value is 0 |
| `Lexer.ParseLongSigned` | main.c:218 | strtol reads back every long value written in decimal, and stops right after its digits |
| `Lexer.ParseLongDigits` | main.c:218 | strtol on white space, an optional sign and digits (leading zeros allowed) that no digit continues: the value of the digits, negated after '-' and saturated to a long, with the end just after the last digit |
| `Lexer.ParseLongNoDigits` | main.c:270 | A token that starts with no space, sign or digit reads as 0 with the end of the read at its start |
| `Lexer.IsValidRegister` | main.c:52-59 | A token it accepts has at least two characters, and strtol from its second character reads at least one digit and a non-negative value |
| `Lexer.GetRegisterNumDigit` | main.c:79-82 | A single digit after the first character, followed by no other digit, is the register number itself |
| `Lexer.RegisterNameAccepted` | main.c:52-82 | `R<k>` passes is_valid_register exactly when k's first digit is 0..7, and get_register_num gives k narrowed to int16_t |
| `Lexer.RegisterExamples` | main.c:52-59 | R0..R7 pass and denote themselves; R8 and R9 are refused; R12 passes and denotes 12 |
| `Compile.LookupInverse` | main.c:166-534 | The strcmp chain selects mnemonic m exactly for m's own spelling, for all 25 mnemonics |
| `Compile.ReadRegisters` | main.c:84-115 | get_2reg/get_3reg fill one slot per register, move the cursor by at most one token per slot, and report at most once, always a missing or invalid register |
| `Compile.ParseMemory` | main.c:385-398 | An `offset(Rbase)` operand is refused only for a missing '(' or 'R', and one that is parsed has both right after the offset |
| `Compile.CompileTokens` | main.c:160-536 | Only a line whose first token is a mnemonic yields a word; every PARSE_ERROR comes with at least one report, all of them errors and none a range warning |
| `Compile.FetchRegister` | main.c:61-77 | get_register succeeds exactly when a token is left and it is shaped like a register |
| `Compile.Strtok.constructor` | main.c:164 | strtok starts over on the line: its tokens are the line's split, the cursor at 0 |
| `Compile.Strtok.Next` | main.c:174 | The next token while one is left, NULL afterwards; the cursor advances past what it returned |
| `Compile.GetRegister` | main.c:61-77 | Takes one token; succeeds exactly when it is a valid register, then returns its number; otherwise reports a missing or invalid register |
| `Compile.Get3Reg` | main.c:84-101 | Reads d, a, b in order, stopping at the first refusal, with the unreached variables unchanged; succeeds exactly when nothing is reported |
| `Compile.Get2Reg` | main.c:103-115 | As Get3Reg for d and a |
| `Compile.CompileIn` | main.c:166-185 | IN agrees with its specification PortIn; strtok's cursor moves on by at most two tokens |
| `Compile.CompileOut` | main.c:186-202 | OUT agrees with its specification PortOut; strtok's cursor moves on by at most two tokens |
| `Compile.CompileImmediate8` | main.c:203-280 | MOVI, MOVHI, BZ and BNZ agree with their specification Immediate8; strtok's cursor moves on by at most two tokens |
| `Compile.MemoryOperand` | main.c:385-398 | The parse of `offset(Rbase)` succeeds exactly when '(' and 'R' follow the offset, then yields offset and base; otherwise it reports which is missing |
| `Compile.CompileLoad` | main.c:372-431 | LD and LDB agree with their specification Load; strtok's cursor moves on by at most two tokens |
| `Compile.CompileStore` | main.c:432-495 | ST and STB agree with their specification Store; strtok's cursor moves on by at most two tokens |
| `Compile.CompileThreeRegister` | main.c:281-371 | ADD..CMPLEU agree with their specification ThreeRegister; strtok's cursor moves on by at most three tokens |
| `Compile.CompileNot` | main.c:316-322 | NOT agrees with its specification NotRegister; strtok's cursor moves on by at most two tokens |
| `Compile.CompileJalr` | main.c:496-503 | JALR agrees with its specification JumpRegister; strtok's cursor moves on by at most two tokens |
| `Compile.CompileAddi` | main.c:504-529 | ADDI agrees with its specification AddImmediate; strtok's cursor moves on by at most three tokens |
| `Compile.CompileLine` | main.c:160-536 | compile_line on a line with a token gives what CompileTokens gives on its tokens |
| `CompileProperties.ReadRegistersAccepted` | main.c:84-115 | get_2reg/get_3reg report nothing exactly when all their registers are present and valid, and then the cursor is just past them |
| `CompileProperties.ReadRegistersValues` | main.c:84-115 | Slot i receives the number of register token i exactly when it and every token before it are valid; otherwise it keeps its old value |
| `CompileProperties.ReadCanonical` | main.c:84-115 | Tokens `R<k>` with leading digit 0..7 are read back as k with nothing reported |
| `CompileProperties.TwoRegistersNext` | main.c:103-115 | Where get_2reg leaves the cursor: past the refused token, or past both registers |
| `CompileProperties.InOperands` | main.c:166-185 | IN fails exactly when the register is missing or invalid or no address follows, with that report; a success reports nothing |
| `CompileProperties.OutOperands` | main.c:186-202 | OUT fails exactly when the address is missing or the register after it is missing or invalid, with that report |
| `CompileProperties.Immediate8Operands` | main.c:203-280 | MOVI/MOVHI/BZ/BNZ fail exactly when the register is missing or invalid or no value follows, with that report |
| `CompileProperties.LoadOperands` | main.c:372-431 | LD/LDB fail exactly when the register is missing or invalid, the operand is missing, or it lacks '(' or 'R', with that report |
| `CompileProperties.StoreOperands` | main.c:432-495 | ST/STB fail exactly when the operand is missing or malformed or the register after it is missing or invalid, with that report |
| `CompileProperties.AddiOperands` | main.c:504-529 | ADDI fails only when no token is left for the value after get_2reg; the last report is then the missing value |
| `CompileProperties.RegisterFormsEmit` | main.c:281-371 | ADD..CMPLEU, NOT and JALR always produce a word; it comes without reports exactly when all their registers are valid |
| `CompileProperties.UnknownMnemonic` | main.c:530-534 | A line fails with "Unknown token" exactly when its first token is none of the 25 mnemonics |
| `CompileProperties.MemoryOperandRoundTrip` | main.c:385-398 | `offset(Rbase)` written out is parsed back into the same offset and base |
| `CompileProperties.ThreeRegisterLine` | main.c:281-371 | `m Rd, Ra, Rb` calls format_r3 with d, a, b in that order, m's function code, and is_boolean 1 exactly for the comparisons |
| `CompileProperties.NotLine` | main.c:316-322 | `NOT Rd, Ra` calls format_r3 with breg 0 and function code 3 |
| `CompileProperties.JalrLine` | main.c:496-503 | `JALR Rd, Ra` calls format_n6 with opcode 7, a as areg, d as dbreg and immediate 0 |
| `CompileProperties.Immediate8Line` | main.c:203-280 | MOVI/MOVHI (opcode 9), BZ/BNZ (opcode 8): flag 0 only for MOVI; a warning exactly when the literal is outside -128..127; a word in every case, with the literal truncated to 8 bits |
| `CompileProperties.InLine` | main.c:166-185 | `IN Rk, n` calls format_n8(10, k, (int8_t) n, 0) without a warning |
| `CompileProperties.OutLine` | main.c:186-202 | `OUT n, Rk` calls format_n8(10, k, (int8_t) n, 1) without a warning |
| `CompileProperties.LoadLine` | main.c:372-431 | `LD/LDB Rk, off(Rb)` call format_n6 with opcode 3/5, base b, register k and the offset, without a warning |
| `CompileProperties.StoreLine` | main.c:432-495 | `ST/STB off(Rb), Rk` call format_n6 with opcode 4/6, base b, register k and the offset, without a warning |
| `CompileProperties.AddiLine` | main.c:504-529 | `ADDI Rd, Ra, n` calls format_n6(2, a, d, (int8_t) n), with a warning exactly when n is above 63 or below -31 |
| `CompileProperties.ThreeRegisterDecodes` | main.c:281-371 | The word of a canonical R3 line decodes to its comparison bit, registers and function code |
| `CompileProperties.NotDecodes` | main.c:316-322 | The word of `NOT Rd, Ra` decodes to R3 with breg 0 and function 3 |
| `CompileProperties.JalrDecodes` | main.c:496-503 | The word of `JALR Rd, Ra` decodes to N6 with opcode 7, areg a, dbreg d, immediate 0 |
| `CompileProperties.Immediate8Decodes` | main.c:203-280 | The word of a MOVI/MOVHI/BZ/BNZ line decodes to its fields, and the immediate reads back as the literal when it fits 8 bits |
| `CompileProperties.InDecodes` | main.c:166-185 | The word of `IN Rk, n` decodes to N8 with selector 10, flag 0 and the address narrowed to 8 bits |
| `CompileProperties.OutDecodes` | main.c:186-202 | The word of `OUT n, Rk` decodes to N8 with selector 10, flag 1 and the address narrowed to 8 bits |
| `CompileProperties.LoadDecodes` | main.c:372-431 | A load with base 0..7 decodes to its fields; the offset reads back exactly when it is in -32..31 |
| `CompileProperties.StoreDecodes` | main.c:432-495 | A store with base 0..7 decodes to its fields; the offset reads back exactly when it is in -32..31 |
| `CompileProperties.AddiDecodes` | main.c:504-529 | An ADDI line decodes to its registers; the literal reads back exactly when it is in -32..31 |
| `CompileQuirks.BranchesAlike` | main.c:254-280 | With a numeric value BZ and BNZ make the same encoder call, with flag 1 |
| `CompileQuirks.BranchFlagFromValue` | main.c:278 | The flag comes from the value token: `BNZ Rk, BZ` gets flag 0 and value 0 |
| `CompileQuirks.StoreBaseUnchecked` | main.c:432-463 | `ST 0(R9), R0` is accepted without a report and gives the word of `LDB R0, 0(R1)` |
| `CompileQuirks.AddiAfterRefusal` | main.c:504-518 | After a refused first register ADDI reads the next register token as its value (0) and still produces a word, from the indeterminate d and a |
| `CompileQuirks.BareThreeRegister` | main.c:281-287 | A bare R3 mnemonic produces a word from whatever d, a and b held, reporting only the missing register |
| `CompileQuirks.AddiRangeMismatch` | main.c:520-527 | ADDI literals 32..63 pass without a warning and decode as n − 64; -32, which fits, draws a warning |
| `CompileQuirks.R12Line` | main.c:52-59 | `ADD R12, R0, R0` is accepted without a report and gives the word of `ADD R4, R0, R1` |
| `CompileQuirks.AddExample` | main.c:281-287 | `ADD R1, R0, R0` is the word 0x000C |
| `CompileQuirks.MoviExample` | main.c:203-227 | `MOVI R0, 5` is the word 0x9005 |
| `PrintBits.Render` | main.c:122-142 | printf_bits writes one character per format character |
| `PrintBits.PrintStep` | main.c:128-141 | One turn of the loop: a newline or space is copied, a placeholder writes '1' or '0' as bit b of num is set or not and moves on to bit b − 1, and the rest of the rendering follows |
| `PrintBits.PlaceholderStep` | main.c:128-141 | Each placeholder read raises the count of placeholders behind the cursor by one, which never exceeds the format's count |
| `PrintBits.RenderChars` | main.c:122-142 | One character per format character: newlines and spaces are copied, and a placeholder with p placeholders before it shows bit bits − 1 − p |
| `PrintBits.PrintfBits` | main.c:122-142 | The loop of printf_bits produces exactly the rendering of its format |
| `PrintBits.ColumnLine` | main.c:122-142 | n placeholders and a newline print the n low bits and a newline, which read back as the number when it has no higher bit |
| `PrintBits.ColumnReadsBack` | main.c:128-141 | n printed bits read back as the number they came from, when it is below 2^n |
| `PrintBits.WordLine` | main.c:588 | The dump format prints a 16-bit word as its sixteen bits and a newline, and the bits read back as the word |
| `Emit.Step` | main.c:556-582 | One line appends at most one word and only appends reports; a stopped loop stays as it is, and a running one stops exactly on a line that is not blank and fails |
| `Emit.Fold` | main.c:556-582 | At most one word per non-blank line; a run that meets no failing line counts every line, blank or not, and stores one word per non-blank line |
| `Emit.Assemble` | main.c:556-582 | The loop over a file stops exactly when some line that is not blank fails to compile, and leaves exactly what `Collected` gathers from the lines' outcomes: the words of the lines before the first failure, in order, and their reports and the failing line's |
| `Emit.FirstFailing` | main.c:569-572 | The index of the first non-blank line that fails, or n: every line before it passes, and the line at it fails |
| `Emit.FoldCollects` | main.c:556-582 | The loop over the first n lines leaves what `Collected` gathers line by line; a run that does not stop stores the word of every non-blank line that compiles, in line order, and the reports of every non-blank line, each tagged with its line number |
| `Emit.CollectedStep` | main.c:556-582 | One more line moves what is gathered for the lines before it one step of the loop further |
| `Emit.FoldStops` | main.c:569-572 | The first n lines stop the loop exactly when one of them is not blank and fails |
| `Emit.Stopped` | main.c:571-572 | Once a line has failed nothing changes any more |
| `Emit.FirstFailure` | main.c:569-572 | The first failing line stores nothing, keeps current_line at its own number, and its reports are the last ones |
| `Emit.WordsGrow` | main.c:575-577 | Stored words are never overwritten: each prefix of the run stores a prefix of the final words |
| `Emit.SplitJoin` | main.c:575-588 | Splitting a word into `operation & 0xff` and `(operation >> 8) & 0xff` and joining them in the dump gives the word back |
| `Emit.StoreStep` | main.c:575-577 | Writing a word's two bytes at an even offset extends the stored words by that word |
| `Emit.Assembler.constructor` | main.c:31-32 | PC 0, current_line 1, nothing reported, nothing stored |
| `Emit.Assembler.Store` | main.c:575-577 | Low byte at PC, high byte at PC + 1, PC += 2; no other cell changes, and the stored words grow by the word |
| `Emit.Assembler.Feed` | main.c:556-582 | One turn of the loop does what the specification's step does to the state |
| `Emit.Assembler.Turn` | main.c:556-582 | Line i takes the state of the first i lines to that of the first i + 1; after a failure that state is final |
| `Emit.Assembler.Run` | main.c:556-582 | The loop over a file leaves the state of the fold Assemble |
| `Emit.Assembler.Dump` | main.c:587-589 | The dump loop writes the listing of the stored words |
| `Emit.AssembleFile` | main.c:538-592 | main writes the listing of the words Assemble stores, prints its reports, and stops where Assemble stops |
| `Emit.PrintWord` | main.c:588 | The printf_bits call of the dump writes a word's sixteen bits and a newline |
| `Emit.DumpStep` | main.c:587-589 | Two more bytes of the buffer add one line to the dump |
| `Emit.ListedLength` | main.c:587-589 | output.txt holds 17 characters per stored word |
| `Emit.ListedLine` | main.c:587-589 | Line k of output.txt is the dump line of word k |
| `Emit.ListedReadsBack` | main.c:587-589 | Every line of output.txt reads back, in binary, as the word stored at that position, followed by a newline |
| `ProgramExample.MoviTokens` | main.c:164-174 | strtok splits `MOVI R0, 5` and its newline into MOVI, R0 and 5 |
| `ProgramExample.AddTokens` | main.c:164-174 | strtok splits `ADD R1, R0, R0` and its newline into ADD, R1, R0 and R0 |
| `ProgramExample.MoviCompiles` | main.c:203-227 | The tokens of `MOVI R0, 5` make the call format_n8(9, 0, 5, 0) without a report |
| `ProgramExample.AddCompiles` | main.c:281-287 | The tokens of `ADD R1, R0, R0` make the call format_r3(1, 0, 0, 4, 0) without a report |
| `ProgramExample.MoviWord` | main.c:144-147 | format_n8(9, 0, 5, 0) returns 0x9005 |
| `ProgramExample.AddWord` | main.c:150-153 | format_r3(1, 0, 0, 4, 0) returns 0x000C: dreg 1 lands in bits 5..3 |
| `ProgramExample.StoresWord` | main.c:569-577 | A line whose tokens compile without a report stores the word of their encoder call and reports nothing |
| `ProgramExample.MoviOutcome` | main.c:160-227 | The line `MOVI R0, 5` compiles to 0x9005 with no report |
| `ProgramExample.AddOutcome` | main.c:160-287 | The line `ADD R1, R0, R0` compiles to 0x000C with no report |
| `ProgramExample.TwoStores` | main.c:556-582 | Two non-blank lines that each store a word without a report leave both words in order, no reports, and current_line at 3 |
| `ProgramExample.TwoLineProgram` | main.c:556-582 | The file `MOVI R0, 5` / `ADD R1, R0, R0` assembles to the words 0x9005 and 0x000C, with no report, and current_line ends at 3 |

## Left out

- File and console I/O is left out: `fopen`, `fgets`, `fclose`, writing `output.txt`, and the text `print_error` and `print_warning` print. The loop takes the file's lines as a sequence. Reports are kept as a list of `Report` values (line number and kind), and `output.txt` as a returned string.
- The missing-file path (main.c:550-553) is left out. It continues with a NULL file.
- The missing-argument path (main.c:542-546) is left out. It only prints.
- Lines longer than 255 characters are not modelled. `fgets` would split them.
- The `feof` exit (main.c:580) is not modelled. It only ends the loop early on the last line, where the loop ends anyway.
- `strtok`'s in-place writes into the line are not modelled. The `Strtok` class keeps the token list and the cursor instead.
- `strtol`'s `errno` is not modelled. Its saturation at the bounds of a 64-bit `long` is modelled.
- A line made only of delimiters is excluded by `Acceptable`. `compile_line` would call `strcmp` on NULL for it.
- Writing past `Instructions[5000]` is undefined behaviour. `Run`, `Turn`, `Feed` and `AssembleFile` require that the run's words fit the buffer.
- A left shift of a negative operand in the encoders is undefined in ISO C. It is modelled as two's complement, as gcc computes it.
- `printf_bits` with more placeholders than `bits`, or `bits` above 31, would shift by a negative amount or past the sign bit. `PrintfBits` requires neither to happen.
- `printf_bits` is modelled on non-negative numbers only. The dump only passes it values 0..65535.
- `interpreter.c` is not part of this model. It only holds a printing helper.
