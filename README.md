# crox: scanner, chunk and virtual machine

This project models the core of crox, a small bytecode interpreter written in Rust, and proves properties of that model.

- The scanner turns source text into tokens in one left-to-right pass. It uses one character of lookahead and a line counter, and ends with an `Eof` token.
- A chunk holds bytecode: instructions, a constant pool, and the source line of each instruction.
- The virtual machine runs a chunk on a value stack. It stops at the end of the code or after a `Return`.

Modules and files:

- `token.dfy` (`Tokens`) holds the token kinds and the token record. A lexeme is the slice `start..end` of the source.
- `scanner.dfy` (`Scanner`) is the scanner, in two parts:
  - The specification: `StepAt` performs one dispatch on one character, and `ScanFrom`/`Scan` perform the whole pass.
  - The imperative scanning loop `Tokenize` and the helpers it calls. These are proved equal to the specification.
- `scanner_properties.dfy` (`ScannerProperties`) states what each token kind means, independently of how it is scanned (`ValidToken`). It then proves:
  - what one dispatch does at each kind of character;
  - that every dispatch emits only valid tokens;
  - properties of the whole scan: valid tokens, ending in one `Eof`, in source order, with line numbers that never decrease.
- `value.dfy` (`Values`) holds the machine's values and the floating-point division and remainder that the machine uses.
- `chunk.dfy` (`Chunks`) is the chunk: a class with sequence fields that its methods extend.
- `vm.dfy` (`Vm`) is the virtual machine:
  - The specification: `Execute` runs one instruction, `Runs` says a run cannot panic, and `Exec` gives a run's final state.
  - Lemmas about runs.
  - The `VM` class, whose `Interpret` method is proved to end in the state `Exec` gives.
  - The interpreter's two unit tests, the demonstration program and a multiplication program, each as a scenario.
- `scanner_scenarios.dfy` (`ScannerScenarios`) is a scan of a small concrete source.

The model follows the code as written, including the two defects listed under "## Findings": `Mul` adds, and the word `for` scans as an `Identifier`. The evidently intended definitions, `Vm.ApplyBinaryIntended` and `Scanner.IdentOrKeywordIntended`, sit beside them, with lemmas that exhibit each difference.

## Model

| member | source | states |
|---|---|---|
| `Tokens.New` | src/scanner/token.rs:64-67 | A new token stores its kind, its lexeme position and its line unchanged. |
| `Tokens.KeywordKindsClosed` | src/scanner/token.rs:36-51 | There are exactly fifteen keyword kinds, all distinct. A kind is a keyword exactly when it is one of them. |
| `Scanner.Tokenize` | src/scanner/scanning.rs:14-145 | The tokens the loop pushes are exactly `Scan(src)`: one dispatch after another from position 0 and line 0, then `Eof` with an empty lexeme at the end. |
| `Scanner.ScanToken` | src/scanner/scanning.rs:24-141 | The loop's match on the current character does exactly what the specification's dispatch `StepAt` does. |
| `Scanner.StepAt` | src/scanner/scanning.rs:23-141 | Every dispatch makes progress, never lowers the line counter, never emits `Eof`, and emits at most one token. That token lies between the dispatch position and the resume position, and it carries the new line counter. |
| `Scanner.Single` | src/scanner/scanning.rs:33-69 | A one-character dispatch makes progress and emits one token within the consumed text. |
| `Scanner.WithEquals` | src/scanner/scanning.rs:26-60 | An operator that may combine with `=` makes progress and emits one token within the consumed text. |
| `Scanner.CommentStep` | src/scanner/scanning.rs:72-77 | Skipping a line comment emits nothing and makes progress. |
| `Scanner.StringStep` | src/scanner/scanning.rs:113-133 | A string dispatch makes progress and emits one token within the consumed text. |
| `Scanner.NumberStep` | src/scanner/scanning.rs:82-97 | A numeral dispatch makes progress and emits one token within the consumed text. |
| `Scanner.WordStep` | src/scanner/scanning.rs:98-112 | A word dispatch makes progress and emits one token within the consumed text. |
| `Scanner.ScanString` | src/scanner/scanning.rs:113-133 | The string arm of the loop agrees with `StringStep`. A closing quote gives `CroxStr` and is consumed. Otherwise the arm gives an "Unterminated String" error that runs to the end of the source. |
| `Scanner.StringBody` | src/scanner/scanning.rs:114-122 | The string body ends at the first quote or at the end of the source. The line counter grows by one for each line feed inside the body. |
| `Scanner.ScanNumber` | src/scanner/scanning.rs:82-97 | The numeral arm of the loop agrees with `NumberStep`: the maximal run of digits and points, as a `Number` or an "Invalid Float literal" error. |
| `Scanner.ScanWord` | src/scanner/scanning.rs:98-112 | The word arm of the loop agrees with `WordStep`: the maximal run of letters and underscores, classified by keyword lookup. |
| `Scanner.SkipComment` | src/scanner/scanning.rs:72-77 | The comment arm agrees with `CommentStep`. It skips through the next line feed and counts that one line. |
| `Scanner.TakeWhile` | src/scanner/scanning.rs:85-87 | The peeking loop stops at `RunEnd`, the end of the maximal run of characters that satisfy the predicate. |
| `Scanner.RunEnd` | src/scanner/scanning.rs:82-122 | Every character before the result satisfies the predicate. The character at the result does not, or the result is the end of the source. |
| `Scanner.PunctuationKind` | src/scanner/scanning.rs:33-69 | Each punctuation character's kind is spelt as that one character. |
| `Scanner.OperatorKind` | src/scanner/scanning.rs:26-60 | `!`, `=`, `<` and `>` on their own give `Bang`, `Equal`, `Less` and `Greater`, each spelt as that one character. |
| `Scanner.CombinedKind` | src/scanner/scanning.rs:26-60 | The same characters followed by `=` give a two-character kind spelt as that character and `=`. |
| `Scanner.IdentOrKeyword` | src/scanner/scanning.rs:147-167 | The lookup gives `Identifier` or a keyword kind. A keyword kind comes only from that keyword's table entry, dispatched on its first character. The entry for `For` is spelt `"for "`, with a trailing space. |
| `Scanner.IdentOrKeywordIntended` | src/scanner/scanning.rs:147-167 | The intended lookup, with the entry for `For` spelt `"for"`. It gives `Identifier` or a keyword kind, and a keyword kind only for that keyword's word, dispatched on its first character. |
| `Scanner.DispatchIsWholeLexemeLookup` | src/scanner/scanning.rs:147-167 | Dispatching on the first character and then comparing the whole lexeme is the same as looking the lexeme up in the keyword table. A lexeme outside the table is an `Identifier`. |
| `Scanner.DispatchOffTable` | src/scanner/scanning.rs:165 | A lexeme that is no keyword is an `Identifier`, whatever character the dispatch starts from. |
| `Scanner.DispatchOnTable` | src/scanner/scanning.rs:150-164 | A keyword lexeme, dispatched on its first character, gets its keyword kind. |
| `Scanner.KeywordTableKinds` | src/scanner/scanning.rs:150-164 | The keyword table maps onto exactly the fifteen keyword kinds. |
| `ScannerProperties.StepAtCombinedOperator` | src/scanner/scanning.rs:26-60 | `!`, `=`, `<` or `>` followed by `=` makes one two-character token covering both characters. |
| `ScannerProperties.StepAtSingleOperator` | src/scanner/scanning.rs:26-60 | Without a following `=`, these characters make a one-character token. |
| `ScannerProperties.StepAtPunctuation` | src/scanner/scanning.rs:33-69 | Every other punctuation character makes a one-character token of its kind. |
| `ScannerProperties.StepAtSlash` | src/scanner/scanning.rs:78-80 | A `/` not followed by `/` is a `Slash` token. |
| `ScannerProperties.StepAtCommentLine` | src/scanner/scanning.rs:73-77 | A line comment emits nothing, resumes after the next line feed, and adds one to the line counter. |
| `ScannerProperties.StepAtCommentToEnd` | src/scanner/scanning.rs:73-77 | A line comment with no line feed after it runs to the end of the source and leaves the line counter as it was. |
| `ScannerProperties.StepAtNumeral` | src/scanner/scanning.rs:82-97 | A numeral is the maximal run of digits and points. It is a `Number` exactly when it parses as a float, and an "Invalid Float literal" error otherwise. |
| `ScannerProperties.StepAtWord` | src/scanner/scanning.rs:98-112 | A word is the maximal run of letters and underscores. It is a keyword exactly when the whole word is in the table, and an `Identifier` otherwise. |
| `ScannerProperties.StepAtString` | src/scanner/scanning.rs:113-125 | A terminated string's lexeme is the text strictly between the quotes. Scanning resumes after the closing quote. The token's line is the counter after the line feeds in the text. |
| `ScannerProperties.StepAtUnterminatedString` | src/scanner/scanning.rs:126-132 | A string without a closing quote is an "Unterminated String" error. Its lexeme runs to the end of the source, and the scan then ends. |
| `ScannerProperties.StepAtBlank` | src/scanner/scanning.rs:134-135 | A space emits nothing. A line feed, carriage return or tab emits nothing and adds one to the line counter. |
| `ScannerProperties.StepAtUnrecognized` | src/scanner/scanning.rs:136-140 | Any other character is an "Unrecognized character" error covering that character. |
| `ScannerProperties.NumberStepValid` | src/scanner/scanning.rs:82-97 | The token of a numeral dispatch is valid: its lexeme is a maximal numeral, and its kind agrees with whether the numeral parses. |
| `ScannerProperties.WordStepValid` | src/scanner/scanning.rs:98-112 | The token of a word dispatch is valid: a keyword exactly for table words, an `Identifier` for every other word. |
| `ScannerProperties.StringStepValid` | src/scanner/scanning.rs:113-133 | The token of a string dispatch is valid: quoted text with no quote in it, closed or running to the end of the source. |
| `ScannerProperties.TerminatedStringValid` | src/scanner/scanning.rs:123-125 | The `CroxStr` token of a closed string is quoted text followed by the closing quote. |
| `ScannerProperties.UnterminatedStringValid` | src/scanner/scanning.rs:126-132 | The error token of an unclosed string is quoted text that runs to the end of the source. |
| `ScannerProperties.PunctuationStepValid` | src/scanner/scanning.rs:33-69 | The token of a punctuation dispatch is spelt as its kind. |
| `ScannerProperties.OperatorStepValid` | src/scanner/scanning.rs:26-60 | The token of an operator dispatch is spelt as its kind. A one-character operator is never followed by the `=` that would have extended it. |
| `ScannerProperties.SlashStepValid` | src/scanner/scanning.rs:72-81 | A `Slash` token is never followed by a second `/`. A comment emits nothing. |
| `ScannerProperties.UnrecognizedStepValid` | src/scanner/scanning.rs:136-140 | The error token for an unrecognized character covers exactly one character that no arm of the dispatch accepts. |
| `ScannerProperties.StepValid` | src/scanner/scanning.rs:24-141 | Every dispatch emits only valid tokens. |
| `ScannerProperties.ScanFromValid` | src/scanner/scanning.rs:23-144 | Every token of a scan is valid for the source it came from. |
| `ScannerProperties.ScanFromEndsWithEof` | src/scanner/scanning.rs:143 | A scan ends with exactly one `Eof`, whose lexeme is empty and lies at the end of the source. |
| `ScannerProperties.ScanFromLayout` | src/scanner/scanning.rs:23-144 | Every lexeme lies within the rest of the source. Lexemes come in source order without overlapping. Line numbers start at the current counter and never decrease. |
| `ScannerProperties.ScanProperties` | src/scanner/scanning.rs:14-145 | The whole scan has one trailing `Eof`, only valid tokens, lexemes in source order, and line numbers that never decrease. |
| `ScannerProperties.ScanFromAll` | src/scanner/scanning.rs:23-144 | A scan from any position has one trailing `Eof` with an empty lexeme, only valid tokens, lexemes in source order, and line numbers that never decrease. |
| `ScannerProperties.ForWordIsIdentifier` | src/scanner/scanning.rs:98-112 | The word `for` scans as one `Identifier` token covering the word. The intended lookup would give `For`. |
| `ScannerProperties.ForIsNoKey` | src/scanner/scanning.rs:155 | `for` is not a key of the table. The lookup as written sends it to `Identifier`, and the intended lookup sends it to `For`. |
| `ScannerProperties.ForNeverScanned` | src/scanner/scanning.rs:23-167 | No scan of any source produces a `For` token. |
| `ScannerProperties.NoWordIsForKey` | src/scanner/scanning.rs:147-167 | No maximal run of letters and underscores is a table key that maps to `For`. |
| `ScannerProperties.OnlyKeyForFor` | src/scanner/scanning.rs:150-164 | The only table key that maps to `For` is `"for "`. |
| `ScannerProperties.NotSpacedFor` | src/scanner/scanning.rs:155 | No word made of letters and underscores equals `"for "`. |
| `ScannerProperties.IntendedKeywordsReachable` | src/scanner/scanning.rs:147-167 | With the intended lookup, every keyword kind is the lookup of some word. |
| `ScannerProperties.IntendedSpellingIsWord` | src/scanner/scanning.rs:150-164 | Every intended keyword spelling is a word of letters and underscores. |
| `ScannerProperties.IntendedDispatchOnSpelling` | src/scanner/scanning.rs:147-167 | The intended lookup sends each keyword's spelling, dispatched on its first character, to that keyword. |
| `ScannerProperties.IntendedAgreesElsewhere` | src/scanner/scanning.rs:147-167 | The lookup as written and the intended lookup agree on every word except `for`. |
| `ScannerScenarios.ScanUnrecognized` | src/scanner/scanning.rs:136-143 | The source `@#` scans as two "Unrecognized character" errors, one per character, followed by `Eof` at position 2. |
| `Values.Trunc` | src/interpreter/virtual_machine.rs:74 | Truncation toward zero: the result is at most the argument for non-negative arguments and at least the argument for negative ones, and lies within one of it. |
| `Values.Quotient` | src/interpreter/virtual_machine.rs:73 | With a non-zero divisor, the quotient times the divisor is the dividend. |
| `Values.Remainder` | src/interpreter/virtual_machine.rs:74 | With a zero divisor the model gives 0. |
| `Chunks.Chunk.constructor` | src/compiler/chunk.rs:27-33 | A new chunk has no code, no constants and no lines. |
| `Chunks.Chunk.WriteOpcode` | src/compiler/chunk.rs:35-38 | The instruction and its line are appended. The constant pool is unchanged. Every instruction keeps its line. |
| `Chunks.Chunk.AddConstant` | src/compiler/chunk.rs:40-43 | The value is appended to the pool and its index is returned. Reading at that index gives the value back. Code and lines are unchanged. |
| `Chunks.Chunk.CodeNb` | src/compiler/chunk.rs:45-47 | The result is the number of instructions. |
| `Chunks.Chunk.GetInstruction` | src/compiler/chunk.rs:53-58 | The result is the instruction at the index. An index out of range panics, so it is a precondition. |
| `Chunks.Chunk.GetConstant` | src/compiler/chunk.rs:60-65 | The result is the constant at the index. An index out of range panics. |
| `Chunks.Chunk.GetLine` | src/compiler/chunk.rs:67-72 | The result is the line of the instruction at the index. An index out of range panics. |
| `Chunks.AddTwoConstants` | src/compiler/chunk.rs:40-65 | Two constants added in turn get successive indices, and each index reads back the value added there. |
| `Chunks.WriteTwoOpcodes` | src/compiler/chunk.rs:35-72 | Two instructions written in turn read back at their positions, and each keeps its line. |
| `Vm.ApplyBinary` | src/interpreter/virtual_machine.rs:62-78 | As written, `Add` and `Mul` both add and `Sub` subtracts. `Div` is the floating-point quotient `Values.Quotient`, and `Mod` is the remainder `Values.Remainder`. |
| `Vm.ApplyBinaryIntended` | src/interpreter/virtual_machine.rs:69-76 | The intended arithmetic: `Add` adds, `Sub` subtracts, `Mul` multiplies. `Div` and `Mod` are `Values.Quotient` and `Values.Remainder`, as written. |
| `Vm.MulAddsAsWritten` | src/interpreter/virtual_machine.rs:72 | As written, `Mul` of 2 and 3 gives 5 where the intended arithmetic gives 6. Every other binary instruction agrees with the intended arithmetic. |
| `Vm.Execute` | src/interpreter/virtual_machine.rs:38-49 | One instruction other than `Return` replaces the values it pops with one result. Everything below them is untouched. |
| `Vm.ExecuteTop` | src/interpreter/virtual_machine.rs:38-49 | The value left on top is: for `Negate`, the negated old top; for `Constant`, the constant at the index; for a binary instruction, the arithmetic on the two old top values. |
| `Vm.ExecStep` | src/interpreter/virtual_machine.rs:28-50 | An instruction other than `Return`, on a run that cannot panic, can run. The run then goes on from the next instruction with the stack it leaves, and ends in the same state. |
| `Vm.ExecReturn` | src/interpreter/virtual_machine.rs:34-37 | A `Return` ends the run just after itself and pops the top of the stack, which is never empty there. |
| `Vm.ExecStops` | src/interpreter/virtual_machine.rs:28-37 | A run stops at the end of the code or just after a `Return`. No `Return` comes before the last instruction run. |
| `Vm.ExecDepth` | src/interpreter/virtual_machine.rs:28-50 | The final stack depth is the start depth plus the net pushes and pops of the instructions run. |
| `Vm.ReturnStopsRun` | src/interpreter/virtual_machine.rs:34-37 | A run that stops at a `Return` never looks past it: code with the same instructions up to that point runs the same. |
| `Vm.DemoStacks` | src/main.rs:15-20 | The demonstration program's stack after each of its first four instructions. |
| `Vm.DemoBeforeReturn` | src/main.rs:15-20 | Before its `Return`, the demonstration program leaves `a - b` alone on the stack. |
| `Vm.DemoProgram` | src/main.rs:15-22 | The whole demonstration program runs without a panic, stops after its `Return`, and leaves the stack empty. |
| `Vm.NegateProgram` | src/interpreter/virtual_machine.rs:86-98 | Pushing a constant and negating it leaves its negation alone on the stack. |
| `Vm.AddProgram` | src/interpreter/virtual_machine.rs:100-116 | Pushing two constants and adding them leaves their sum alone on the stack. |
| `Vm.MulProgram` | src/interpreter/virtual_machine.rs:38-76 | Pushing two constants and multiplying them runs without a panic and leaves their sum alone on the stack, as the code is written. |
| `Vm.VM.constructor` | src/interpreter/virtual_machine.rs:18-23 | A new machine starts at instruction 0 with an empty stack. |
| `Vm.VM.PopValue` | src/interpreter/virtual_machine.rs:56-60 | The method returns the top of the stack and removes it. An empty stack panics, so it is a precondition. |
| `Vm.VM.BinaryOp` | src/interpreter/virtual_machine.rs:62-78 | The method pops `rhs`, then `lhs`, and returns the arithmetic on them. The stack loses both values. |
| `Vm.VM.ExecuteInstruction` | src/interpreter/virtual_machine.rs:38-49 | Every arm of the dispatch other than `Return` changes the stack exactly as `Execute` says. |
| `Vm.VM.Interpret` | src/interpreter/virtual_machine.rs:25-54 | On code that cannot panic, the loop returns `Ok`. The final cursor and stack are those of `Exec`, which stops at the end of the code or after the first `Return`. |
| `Vm.UnaryNegateScenario` | src/interpreter/virtual_machine.rs:86-98 | The `unary_negate` test: 20 pushed and negated leaves -20 on top. |
| `Vm.BinaryAddScenario` | src/interpreter/virtual_machine.rs:100-116 | The `binary_add` test: 10 and 20 pushed and added leaves 30 on top. |
| `Vm.BinaryMulScenario` | src/interpreter/virtual_machine.rs:25-78 | 2 and 3 pushed and multiplied leave 5 on top, not the product 6. |

## Left out

- Logging of the stack and of each instruction (`src/logging.rs`) is output only. It is not modelled.
- A number is an `f64` in the source and an exact `real` here. Rounding, infinities and NaN are not modelled.
- Value equality: the source compares numbers within an epsilon of 1e-8. The model uses exact equality. This is sound for the scenarios, whose results are exact.
- Values.Quotient: division by zero gives an infinity or NaN in the source. The model returns 0, which no contract relies on.
- Values.Remainder: the model states only the zero-divisor case. The truncated-division identity and the bound on the remainder are not proved, because they need nonlinear real arithmetic that the solver does not settle reliably.
- Vm.ApplyBinary: `Div` and `Mod` are stated as `Values.Quotient` and `Values.Remainder`, so they inherit those contracts' gaps. A zero divisor gives 0, and `Mod` is known only for a zero divisor.
- Vm.ApplyBinaryIntended: the same for `Div` and `Mod`, which it shares with `Vm.ApplyBinary`.
- Scanner.Tokenize: the source text is taken to be ASCII.
  - The source slices with byte offsets from `char_indices`. A multi-byte character that reaches a one-character slice makes it panic.
  - `is_numeric` also accepts non-ASCII digits.
  - Both are outside the model.
- A token's lexeme is a pair of positions into the source, not a borrowed string slice. A `Number` carries its numeral in place of the `f64` it parses to.
- Parsing a numeral as `f64` is reduced to its effect on the numerals the scanner can produce. Such a numeral, a digit followed by digits and points, parses exactly when it has at most one point.
- The `with_capacity` size hints and `usize` overflow of positions and line counters are not modelled: positions and lines are unbounded naturals.
- Panics are preconditions: an instruction or constant index out of range, and a pop from an empty stack (`Vm.Runs`).
- `InterpretResult` keeps its three cases, but `Vm.VM.Interpret` only ever returns `Ok`, as in the source.
- The stand-alone files `src/main.rs`, `src/virtual_machine.rs` and `src/value.rs` are not modelled as code. The demonstration program of `src/main.rs`, run against the core virtual machine, is modelled as `Vm.DemoProgram`.
- `Chunk::code`, the accessor that returns the code vector, is modelled as a field read. Besides `code_nb` and `get_instruction`, its caller is the disassembler in `src/logging.rs`, which is output only.
- Only one literal scan is stated, `ScannerScenarios.ScanUnrecognized`, on a two-character source. Each further character on a literal source adds a full dispatch to the proof, so longer literal scans, such as a `let` statement, are not stated. The scanner's behaviour is stated per character kind instead.

## Findings

| source | as written | input that shows it | evidently intended | confidence | as-written member | corrected member |
|---|---|---|---|---|---|---|
| src/interpreter/virtual_machine.rs:72 | `Mul` computes `lhs + rhs` | the program `Constant 2`, `Constant 3`, `Mul` leaves 5 | `lhs * rhs`, which leaves 6 | not executed | `Vm.BinaryMulScenario` | `Vm.ApplyBinaryIntended` |
| src/scanner/scanning.rs:155 | the `For` entry compares the lexeme with `"for "`, with a trailing space | the source `for` scans as `Identifier`. No word contains a space, so no `For` token is ever produced | the lexeme `"for"` gives `For` | not executed | `ScannerProperties.ForNeverScanned` | `ScannerProperties.IntendedKeywordsReachable` |

The scanner and the machine run the code as written: `Vm.ApplyBinary` and `Scanner.IdentOrKeyword`. The intended definitions, `Vm.ApplyBinaryIntended` and `Scanner.IdentOrKeywordIntended`, are stated beside them. `Vm.MulAddsAsWritten` and `ScannerProperties.IntendedAgreesElsewhere` show that each pair differs only in the defect.
