# VM translator for the Hack platform — a Dafny model

`VMTranslator.py` translates one file of stack-machine VM code (the
nand2tetris intermediate language) into Hack assembly. This project models
its two classes:

- **The reader** (`Parser`). It skips comment and blank lines, reads one
  command at a time and strips it. It classifies a command by its first
  token (`command_type`) and picks out its arguments (`arg1`, `arg2`).
- **The code writer** (`CodeWriter`). It turns each arithmetic, push and pop
  command into a fixed block of Hack instructions and appends it to the
  output. It numbers the `else<n>` / `outsideif<n>` labels of the eq/gt/lt
  blocks with its counter `_if_else_block_num`.

The model goes beyond the text of the generated code. It defines the part
of the Hack computer that code runs on: 16-bit words, the A and D registers,
the RAM, the predefined symbols and the assembler's label table. It then
proves that each block does what the VM command means on the stack.

Modules:

- `Wrappers`: `Option` and `Result`.
- `Words`: 16-bit arithmetic as the Hack ALU performs it. It covers
  wrap-around, bitwise and/or/not, two's-complement negation and the signed
  reading that the conditional jumps use.
- `Text`:
  - the Python string operations the translator uses: `str.split()`,
    `str.strip()`, `str.startswith()`;
  - `int()` on a token;
  - integer formatting.
- `Hack`:
  - the instructions the translator emits, with their exact text and a
    parser that reads that text back;
  - an interpreter for loop-free blocks placed at a line address;
  - the labels part of the assembler's first pass.
- `CodeGen`: the `_get_*_command` builders as pure functions from their
  arguments to a block of instructions. It also holds the segment dispatch
  of `_write_push_commands` / `_write_pop_commands`, with the translator's
  exceptions modelled as `Err` values.
- `Semantics`:
  - a reference stack machine (`PushValue`, `PopInto`);
  - the meaning of each VM operation and of each segment;
  - the proofs that every block reaches exactly that meaning on the Hack
    machine.
- `VmParser`:
  - `command_type`, `arg1` and `arg2` as functions over a command line;
  - the comment and blank-line tests;
  - a `Parser` class over the lines of a file, whose `HasMoreCommands`
    loop skips to the next command line.
- `Writer`: the `CodeWriter` class. Its `output` is the sequence of
  instructions written so far and `ifElseBlockNum` is the label counter. It
  keeps the invariant that the output's labels are unique and all numbered
  below the counter.
- `Program`: a placed arithmetic block runs correctly with the label table
  the assembler builds for the whole program.

## Model

| member | source | states |
|---|---|---|
| VmParser.CommandType | VMTranslator.py:97-115 | Error (split()[0] raises) exactly when the command has no tokens. No type exactly when the first token is in none of the mnemonic sets. |
| VmParser.Arg1 | VMTranslator.py:117-123 | The first token when it is an arithmetic mnemonic, otherwise the second token. Error exactly when there are no tokens, or when a non-arithmetic command has fewer than the three tokens the unpacking needs. |
| VmParser.Arg2 | VMTranslator.py:125-131 | The third token for push/pop with at least three tokens, and None for every other first token. Error exactly when there are no tokens, or for a push/pop with fewer than three tokens. |
| VmParser.CommandTypeKinds | VMTranslator.py:97-115 | The type a known first token yields: arithmetic for the nine operators, push and pop told apart, and label, if-goto, function, return and call each giving their own type. |
| VmParser.ReadArithmetic | VMTranslator.py:97-128 | A command whose split() tokens start with an arithmetic mnemonic is arithmetic, with arg1 the mnemonic and arg2 None. This holds for any whitespace between tokens and any further tokens. |
| VmParser.ReadArithmeticWord | VMTranslator.py:97-128 | The mnemonic written on its own reads back as that arithmetic command. |
| VmParser.ReadPushPop | VMTranslator.py:97-131 | A command whose split() tokens start with push/pop, a segment and an offset reads as that kind, with arg1 the segment and arg2 the offset. This holds for any whitespace between tokens and any further tokens. |
| VmParser.ReadPushPopJoined | VMTranslator.py:97-131 | `push/pop segment offset` written with single blanks reads back as its kind, segment and offset. |
| VmParser.GotoUnclassified | VMTranslator.py:97-115 | `goto L` falls through every branch of command_type and gets no type (the C_GOTO constant is never returned). |
| VmParser.NextCommand | VMTranslator.py:74-90 | The first line at or after the cursor that is neither a comment (starts with `//` before stripping) nor blank once stripped. Every line skipped is one of those two. |
| VmParser.CommandLineHasTokens | VMTranslator.py:81-98 | A line that has_more_commands stops at still has a first token after advance strips it, so command_type's split()[0] succeeds. |
| VmParser.Parser.constructor | VMTranslator.py:64-66 | Opens the reader at the first line with no current command. |
| VmParser.Parser.ReadLine | VMTranslator.py:80 | readline(): returns the next line and moves the cursor past it. At the end of the file it returns "" and the cursor stays. |
| VmParser.Parser.HasMoreCommands | VMTranslator.py:74-90 | The loop leaves the cursor at the start of the next command line, as the seek back to the saved position does. It returns true exactly when such a line exists. The invariant of the loop is that the target line does not change. |
| VmParser.Parser.Advance | VMTranslator.py:92-95 | The line read, stripped, becomes the current command and the cursor moves one line. At the end of the file the current command is "". |
| Text.Split | VMTranslator.py:98 | str.split(): every token is a non-empty run of non-whitespace characters. The result is empty exactly when the string is all whitespace. With SplitSkipsSpace and SplitTakesToken this determines the tokens of every string, whatever whitespace separates them. |
| Text.SplitSkipsSpace | VMTranslator.py:98 | A whitespace character in front of the string contributes no token. |
| Text.SplitTakesToken | VMTranslator.py:98 | A maximal run of non-whitespace characters, followed by whitespace or the end of the string, is the next token. The rest of the string is split on its own. |
| Text.SplitJoin | VMTranslator.py:122 | Splitting tokens joined by single blanks gives the tokens back. |
| Text.StripEnds | VMTranslator.py:71-72 | str.strip() is empty exactly when the line is all whitespace (the blank-line test). Otherwise it starts and ends with a non-whitespace character. |
| Text.IntToStringRoundTrip | VMTranslator.py:430-431 | int() of a formatted integer gives the integer back, for every integer. |
| Text.NatToStringInjective | VMTranslator.py:225-244 | Different counter values format to different digit strings. |
| Words.Signed | VMTranslator.py:259-261 | The jump conditions read a word as two's complement: a value in [-2^15, 2^15) that is congruent to the word mod 2^16. |
| Words.NegNegates | VMTranslator.py:326-336 | `M=!M` then `M=M+1` negates in two's complement. The one exception is -32768, which maps to itself. |
| Words.NegInvolution | VMTranslator.py:331-335 | Negating twice gives the word back. |
| Words.SignedDifference | VMTranslator.py:256-261 | When the signed difference fits in 16 bits, `D=M-D` holds exactly that difference. |
| Words.AndCommutes | VMTranslator.py:197-199 | Bitwise and of two words does not depend on their order. The and builder computes `D&M`, with D holding variable2 and M holding variable1. |
| Words.OrCommutes | VMTranslator.py:208-210 | Bitwise or of two words does not depend on their order. The or builder computes D or M, with D holding variable2 and M holding variable1. |
| Hack.ParseRender | VMTranslator.py:139-154 | Every line the builders emit (A-instruction, C-instruction, jump, label, `// ` comment) is text that reads back as exactly that instruction. |
| Semantics.PushValueIsPush | VMTranslator.py:148-153 | The reference push: SP goes up by one, the value sits at the old top, and no other cell changes. |
| Semantics.PopIntoIsPop | VMTranslator.py:158-166 | The reference pop: SP goes down by one, the old top is copied to the destination, and no other cell changes. |
| Semantics.PushDEffect | VMTranslator.py:147-153 | The shared tail writes D at the top of the stack and increments SP. |
| Semantics.PushCommandEffect | VMTranslator.py:139-154 | _get_push_command pushes the cell named by its argument. With constant=True it pushes the argument's value itself. |
| Semantics.PopCommandEffect | VMTranslator.py:156-167 | _get_pop_command decrements SP and copies the old top into the named cell. |
| Semantics.SegmentPushEffect | VMTranslator.py:443-462 | _get_segment_push_command pushes RAM[RAM[segment] + offset], with the address wrapped to 16 bits. |
| Semantics.AddressEffect | VMTranslator.py:538-543 | The first four lines leave RAM[segment] + offset in D and change no memory. |
| Semantics.StoreEffect | VMTranslator.py:545-546 | `@R13`, `M=D` stores D in R13. |
| Semantics.StageAddressEffect | VMTranslator.py:537-546 | The target address RAM[segment] + offset is staged in R13 before the stack is touched. |
| Semantics.PopLoadEffect | VMTranslator.py:548-555 | SP is decremented and the old top of the stack is loaded into D. |
| Semantics.StoreThroughR13Effect | VMTranslator.py:557-561 | D is written to the cell whose address R13 holds. |
| Semantics.PopThroughR13Effect | VMTranslator.py:548-561 | The tail of the segment pop is a pop into the cell R13 points to. |
| Semantics.SegmentPopEffect | VMTranslator.py:535-562 | _get_segment_pop_command pops into RAM[RAM[segment] + offset] after staging that address in R13. The popped value overwrites R13 when the target is R13 itself. |
| Semantics.SegmentMappingBase | VMTranslator.py:45 | SEGMENT_MAPPING covers exactly local/argument/this/that, and its symbols resolve to LCL/ARG/THIS/THAT. |
| Semantics.ResolveStatic | VMTranslator.py:483-487 | `<file>.<index>` is never a numeral, so the assembler looks it up as a variable. |
| Semantics.ResolvePointer | VMTranslator.py:464-469 | pointer 0 addresses THIS and every other index addresses THAT. |
| Semantics.ResolveTemp | VMTranslator.py:427-431 | temp i is the absolute address 5 + i. |
| Semantics.PushCorrect | VMTranslator.py:501-519 | For every segment whose cell exists, the push block is produced and runs. RAM ends as the reference push of that segment's value. |
| Semantics.PopCorrect | VMTranslator.py:597-613 | For every segment whose cell exists, the pop block is produced and runs. RAM ends as the reference pop into that cell (R13 staged for the based segments). |
| Semantics.PushCommandsFail | VMTranslator.py:501-519 | No push block is produced exactly when the segment is not one of the eight, or it is temp and int() rejects the offset. |
| Semantics.PopCommandsFail | VMTranslator.py:597-613 | No pop block is produced exactly when the segment is not one of the seven (constant included), or it is temp and int() rejects the offset. |
| Semantics.PushPopRoundTrip | VMTranslator.py:501-613 | `push s i` then `pop s i` restores SP. Apart from R13 and the scratch cell above the stack, RAM is unchanged. |
| Semantics.BinaryCommandEffect | VMTranslator.py:169-211 | The add/sub/and/or builders store variable1 op variable2 in variable1, mod 2^16, and change nothing else. |
| Semantics.NotCommandEffect | VMTranslator.py:317-324 | The not builder replaces variable1 by its bitwise complement. |
| Semantics.NegCommandEffect | VMTranslator.py:326-336 | The neg builder replaces variable1 by its two's-complement negation. |
| Semantics.ElseJumpTaken | VMTranslator.py:224-295 | The jump to `else<n>` (JNE, JLE, JGE) is taken exactly when the comparison does not hold. |
| Semantics.ComparisonTest | VMTranslator.py:216-226 | With the else label placed, lines 0-4 hand execution to the conditional jump on line 5. At that point A holds the address of `else<n>` and D holds variable1 - variable2 (wrapped). |
| Semantics.ComparisonTrueBranch | VMTranslator.py:227-233 | The true branch stores -1 in variable1 and jumps past the false branch. |
| Semantics.ComparisonFalseBranch | VMTranslator.py:234-244 | The false branch stores 0 in variable1. |
| Semantics.ComparisonCommandEffect | VMTranslator.py:213-315 | With its labels placed, the eq/gt/lt block stores -1 (true) or 0 (false) in variable1, decided by the sign of the wrapped difference. Nothing else changes. |
| Semantics.TwoOperandFrame | VMTranslator.py:338-361 | Popping into R13 and R14, storing the result in R14 and pushing it leaves the two operands replaced by the result, one cell lower. |
| Semantics.OneOperandFrame | VMTranslator.py:405-425 | Popping into R13, storing the result in R13 and pushing it replaces the top of the stack by the result. |
| Semantics.PopOperands | VMTranslator.py:363-369 | The two opening pops leave the second operand in R13 and the first in R14. |
| Semantics.BinaryArithmetic | VMTranslator.py:338-361 | add/sub/and/or replace the two top values x, y by x op y. |
| Semantics.ComparisonLabels | VMTranslator.py:235-244 | When the block's labels are placed, `else<n>` and `outsideif<n>` sit at its lines 10 and 15. |
| Semantics.PlacedComparisonLabels | VMTranslator.py:363-375 | The same, counted from the start of the whole eq/gt/lt block. |
| Semantics.ComparisonArithmetic | VMTranslator.py:363-403 | eq/gt/lt replace the two top values x, y by true (-1) or false (0). |
| Semantics.NegArithmetic | VMTranslator.py:416-425 | neg replaces the top value by its negation. |
| Semantics.NotArithmetic | VMTranslator.py:405-414 | not replaces the top value by its complement. |
| Semantics.ArithmeticCorrect | VMTranslator.py:615-630 | For all nine operators with enough operands, the block runs and leaves the stack as the operator prescribes. Only SP, R13, R14 and the result cell change. |
| Semantics.EqMeansEqual | VMTranslator.py:213-246 | eq holds exactly when the two words are equal. |
| Semantics.OrderMeansSigned | VMTranslator.py:248-315 | When the difference does not overflow, gt and lt are the signed order of the two operands. |
| Semantics.ComparisonOverflow | VMTranslator.py:256-261 | 32767 gt -1 comes out false (and lt true), because the difference overflows. |
| Semantics.ComparisonExamples | VMTranslator.py:213-315 | eq/gt/lt on (5,5), (7,3) and (3,7). |
| Semantics.PushConstantSeventeen | VMTranslator.py:139-154 | `push constant 17` puts 17 on top of the stack and changes nothing else. |
| Semantics.PopLocalTwo | VMTranslator.py:535-562 | With LCL = 1015, `pop local 2` moves the top of the stack to RAM[1017]. |
| Writer.BlockLabelsDistinct | VMTranslator.py:225-244 | `else<j>` never equals `outsideif<k>`. Labels of different counter values differ. |
| Writer.AppendComparison | VMTranslator.py:245 | Appending the block numbered by the counter keeps every label unique and numbered below the incremented counter. |
| Writer.BlockLabelsPlaced | VMTranslator.py:235-244 | In a program with unique labels, the assembler's label table places the labels of every block inside it. |
| Writer.ArithOpOfRecognizes | VMTranslator.py:617-630 | The operator dispatch recognises exactly the nine arithmetic mnemonics. |
| Writer.CodeWriter.constructor | VMTranslator.py:135-137 | The counter starts at 0 and nothing has been written. |
| Writer.CodeWriter.GetComparisonCommand | VMTranslator.py:213-246 | Builds the block numbered by the current counter and increments the counter. It writes nothing. |
| Writer.CodeWriter.WriteBinaryCommands | VMTranslator.py:338-361 | Appends pop R13, pop R14, the operator on R14 and R13, and push R14. The counter is unchanged and the label invariant is kept. |
| Writer.CodeWriter.WriteComparisonCommands | VMTranslator.py:363-403 | Appends the eq/gt/lt block numbered by the old counter and increments the counter. The label invariant is kept. |
| Writer.CodeWriter.WriteNotCommands | VMTranslator.py:405-414 | Appends pop R13, not R13, push R13. |
| Writer.CodeWriter.WriteNegCommands | VMTranslator.py:416-425 | Appends pop R13, neg R13, push R13. |
| Writer.CodeWriter.WriteArithmetic | VMTranslator.py:615-630 | A non-arithmetic mnemonic fails (the assertion) and writes nothing. Otherwise it appends that operator's block and increments the counter exactly for eq/gt/lt. |
| Writer.CodeWriter.WritePushCommands | VMTranslator.py:501-519 | Appends the push block, or on an error writes nothing. |
| Writer.CodeWriter.WritePopCommands | VMTranslator.py:597-613 | Appends the pop block, or on an error writes nothing. |
| Writer.CodeWriter.WritePushPop | VMTranslator.py:632-637 | Push and pop go to their writers. Any other command type writes nothing. |
| Writer.CodeWriter.WriteComment | VMTranslator.py:639-640 | Appends the command as a `// ` comment line. |
| Program.PlacedArithmeticCorrect | VMTranslator.py:615-630 | An arithmetic block written anywhere in a program with unique labels runs correctly. This holds with any symbol table that has the predefined symbols and agrees with the assembler's label table. |

## Left out

- File handling is not modelled: opening the input and output files, the
  output path and file name helpers, `close`, and the command-line `main`
  loop. Only the file's lines reach the reader, and the writer's output is
  a sequence of instructions; rendering them gives the lines the
  translator writes.
- No code is generated for `label`, `goto`, `if-goto`, `function`, `call`
  or `return`, because the translator emits none for these kinds.
  `write_push_pop` writes nothing for function and call, and the model does
  the same. For the others, the translator's `main` (not modelled) fails in
  `arg1` or hands `return` to `write_arithmetic` with a stale argument.
- A Python exception is modelled as an `Err` value with nothing written:
  - the assertion in `write_arithmetic`;
  - `pop constant` or an unknown segment (the block variable is never
    assigned);
  - `int()` failing on a temp offset;
  - `split()[0]` on an empty command;
  - the unpacking of fewer than three tokens.
- `Text.IsSpace` counts only ASCII whitespace. Python's `str.split()` and
  `str.strip()` also treat Unicode spaces as whitespace.
- `Text.ParseInt` reads only ASCII decimal digits. Python's `int()` also
  accepts underscores between digits and non-ASCII Unicode decimal digits
  (such as fullwidth or Arabic-Indic digits).
- The interpreter only follows forward jumps inside the block being run.
  The translator's blocks never jump backwards.
- Line addresses count label and comment lines, so they are not the
  assembler's ROM addresses. All jumps and labels are shifted the same
  way.
- Hack.Resolve treats a decimal A-instruction value of 2^15 or more as
  unassemblable. Push constant of such a value is therefore outside
  `PushCorrect`'s requires.
- Semantics.OrderMeansSigned: gt and lt are decided by the sign of the
  wrapped difference x - y. They match the signed order only when that
  difference does not overflow; `ComparisonOverflow` shows a case where it
  does.
- VmParser.Parser: a line is modelled as `readline()` returns it, so it is
  never empty. The tell()/seek() pair becomes the saved cursor that is
  written back.
- VmParser.Parser: `current_command` is `None` before the first `advance`.
  command_type/arg1/arg2 are modelled on the command string, so calling
  them with no command (an AttributeError) is not modelled.
