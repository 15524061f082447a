# clox core: growth policy, value arrays, chunks, scanner and VM

A Dafny model of the core of clox, a bytecode interpreter for a small
dynamically typed language, in the revision whose unit tests exercise five
pieces:

- **Growth policy and reallocation** (`memory.dfy`, module `Memory`):
  - `GROW_CAPACITY` is a pure function that is proved to climb the ladder 0, 8, 16, 32, …
  - `reallocate` is a method over Dafny arrays. It returns null for size 0; otherwise it returns a fresh block that keeps the common prefix.
- **Values** (`values.dfy`, module `Values`): the numbers the VM computes with. They are exact reals extended with the two infinities and NaN, so that division by zero has the IEEE-754 outcome.
- **`ValueArray`** (`value_array.dfy`, module `ValueArrays`):
  - A class with `count`, `capacity` and a `values` array.
  - `writeValueArray` grows the array with the growth policy and appends in place.
  - `Valid()` keeps `count <= capacity` and pins the capacity to the ladder. The abstract `Contents()` is the written prefix.
- **`Chunk`** (`chunk.dfy`, module `Chunks`):
  - The opcode set and its byte encoding.
  - A class with parallel `code` and `lines` arrays and an owned constant pool. The pool is a `ValueArray`.
  - `writeChunk` appends a byte and its line together. `addConstant` returns the index of the new constant.
- **Scanner** (`scanner.dfy`, module `Scanning`):
  - Pure functions say what one `scanToken` call yields from a cursor and a line number. `ScanFrom` dispatches to word, number, string and symbol scanning. The keyword trie is `IdentifierType`.
  - The class `Scanner` holds the cursor and the line and advances them with `while` loops. Each of its methods is proved equal to the matching pure function.
  - `ScanSource` runs `scanToken` until end of source and is proved equal to `Tokenize`.
  - `scanner_properties.dfy` (module `ScanningProperties`) proves what a token is:
    - keyword lookup on the whole lexeme
    - maximal numbers
    - strings that include both quotes
    - the two-character operators
    - error tokens
    - line counting
  - `scanner_scenarios.dfy` (module `ScannerScenarios`) replays the scanner tests on their own inputs.
- **Virtual machine** (`vm.dfy`, module `VirtualMachine`):
  - The pure `StepAt` and `Execute` say what one instruction and a whole run do to a stack of values.
  - `SafeFrom` checks a run without looking at any value: the stack depth before each instruction, that CONSTANT's operand byte is present, and that its index is below the pool size. It is proved to decide exactly whether a run succeeds.
  - The class `VM` has the fixed 256-slot stack array, `push`, `pop`, `interpret(chunk)` and the fetch-decode-execute loop. The loop is proved to compute `Execute`.
  - `scenarios.dfy` (module `Scenarios`) performs the calls of the memory, value, chunk and VM tests. Their postconditions are what the tests assert. The initial-state tests are the constructors' postconditions.

In this revision `interpret` takes a chunk, not source text
(test/unit/test_vm.c:58). The model follows that, and the compiler is not
part of it. The implementation files behind `memory.h`, `value.h`,
`chunk.h`, `scanner.h` and `vm.h` are not part of this model. Their
behaviour is taken from what the unit tests assert, together with the
standard clox implementation those tests were written against.

## Model

| member | source | states |
|---|---|---|
| Memory.GrowCapacity | test/unit/test_memory.c:8-19 | the new capacity is strictly larger than the old one and at least 8, and from 0 or a ladder value it lands on the ladder 8·2^k |
| Memory.GrowCapacityExamples | test/unit/test_memory.c:8-19 | growth from 0 gives 8; 8, 16, 64 and 256 double to 16, 32, 128 and 512 |
| Memory.CapacityAfterBounds | test/unit/test_memory.c:10-18 | growing on demand from 0 over `count` appends always covers the count; the capacity is 0 only for 0, lies on the ladder, and is at most 8 or 2·count−2 |
| Memory.CapacityAfter | test/unit/test_memory.c:8-19 | growing on demand over `count` appends covers the count, and the capacity is 0 only when nothing was appended |
| Memory.Reallocate | test/unit/test_memory.c:21-51 | the result is null exactly when the new size is 0; otherwise it is a fresh block of the new size whose first min(old, new) elements are those of the old block |
| Scenarios.ReallocateAllocatesAndFrees | test/unit/test_memory.c:21-51 | a 100-element block from nothing is non-null, and reallocating it to 0 gives null |
| Scenarios.ReallocateExpands | test/unit/test_memory.c:28-42 | values written at indices 0 and 9 of a 10-element block are still 42 and 99 after growing it to 20 |
| Values.Negation | test/unit/test_vm.c:152-169 | a number x becomes −x, +∞ and −∞ swap, and NaN stays NaN |
| Values.NegationInvolution | test/unit/test_vm.c:152-169 | negating twice gives the value back |
| Values.Sum | test/unit/test_vm.c:64-84 | on numbers it is their sum; NaN in gives NaN out |
| Values.Difference | test/unit/test_vm.c:86-106 | on numbers it is their difference |
| Values.Product | test/unit/test_vm.c:108-128 | on numbers it is their product; NaN in gives NaN out |
| Values.Quotient | test/unit/test_vm.c:130-150 | on numbers with a non-zero divisor it is their quotient; dividing by zero never gives a number |
| Values.Commutes | test/unit/test_vm.c:64-128 | addition and multiplication ignore operand order |
| Values.DivisionByZero | test/unit/test_vm.c:130-150 | a positive number over zero is +∞, a negative one −∞, and zero over zero is NaN |
| ValueArrays.ValueArray.constructor | test/unit/test_value.c:22-27 | a new array has count 0, capacity 0, no buffer and empty contents |
| ValueArrays.ValueArray.Write | test/unit/test_value.c:29-35 | the contents become the old contents plus the value, the count grows by one and stays within capacity, and the buffer is kept when there was room |
| ValueArrays.ValueArray.Free | test/unit/test_value.c:15-20 | freeing returns the array to the empty initial state |
| ValueArrays.WriteAll | test/unit/test_value.c:37-62 | successive writes append in call order, and count ≤ capacity afterwards |
| Scenarios.ValueArrayAppends | test/unit/test_value.c:29-35 | one write of 1.2 gives count 1 and 1.2 at index 0 |
| Scenarios.ValueArrayMultipleWrites | test/unit/test_value.c:37-47 | writes of 1.2, 3.4 and 5.6 give count 3 and the values in order |
| Scenarios.ValueArrayManyWrites | test/unit/test_value.c:64-76 | after 100 writes of i·1.5 the count is 100, the capacity at least 100, and index i holds i·1.5 |
| Chunks.Encode | test/unit/test_chunk.c:30-52 | every opcode has a byte below the number of opcodes |
| Chunks.Decode | test/unit/test_chunk.c:30-52 | a byte decodes exactly when it is below the number of opcodes, and then it encodes back to itself |
| Chunks.DecodeEncode | test/unit/test_chunk.c:39-52 | decoding an encoded opcode gives the opcode back |
| Chunks.OperandCount | test/unit/test_vm.c:47-62 | CONSTANT is the one opcode with an operand byte, and it has exactly one |
| Chunks.Chunk.constructor | test/unit/test_chunk.c:22-28 | a new chunk has count and capacity 0, no code or line buffers, and an empty pool |
| Chunks.Chunk.Write | test/unit/test_chunk.c:30-37 | the byte is appended to the code and the line to the line map at the same index, the pool is untouched, and count ≤ capacity |
| Chunks.Chunk.Grow | test/unit/test_chunk.c:54-68 | a full chunk gets the next ladder capacity and keeps its code, lines and pool |
| Chunks.Chunk.Store | test/unit/test_chunk.c:30-37 | with room left, the byte and the line are stored at index count, and count goes up by one |
| Chunks.Chunk.AddConstant | test/unit/test_chunk.c:70-77 | the value is appended to the pool, and the returned index is the old pool size |
| Chunks.Chunk.Free | test/unit/test_chunk.c:15-20 | freeing returns the chunk to the zeroed initial state |
| Chunks.WriteAll | test/unit/test_chunk.c:39-52 | successive writes keep the code and the line map parallel and in call order |
| Scenarios.ChunkAppends | test/unit/test_chunk.c:30-37 | one write of RETURN on line 123 gives count 1, that byte and that line |
| Scenarios.ChunkMultipleWrites | test/unit/test_chunk.c:39-52 | RETURN, CONSTANT and ADD on lines 1, 2 and 3 give count 3 with bytes and lines in call order |
| Scenarios.ChunkManyWrites | test/unit/test_chunk.c:54-68 | after 20 writes of RETURN on lines 0 to 19, count is 20, capacity is at least 20, and code[i] is RETURN with lines[i] equal to i |
| Scenarios.ConstantIndices | test/unit/test_chunk.c:79-92 | three addConstant calls with 1.2, 3.4 and 5.6 return 0, 1 and 2, and the pool holds the values in order |
| Scanning.CommentEnd | test/unit/test_scanner.c:139-149 | a comment ends at the first newline or at the end, and contains neither |
| Scanning.SkipTrivia | test/unit/test_scanner.c:126-149 | skipping moves forward, stays in the source, and stops where no blank, newline or comment starts |
| Scanning.DigitsEnd | test/unit/test_scanner.c:40-75 | the end of the maximal run of digits |
| Scanning.NumberEnd | test/unit/test_scanner.c:50-58 | a number runs over digits and at most one dot |
| Scanning.IdentEnd | test/unit/test_scanner.c:86-93 | the end of the maximal run of letters, digits and underscores |
| Scanning.Peek | test/unit/test_scanner.c:8-179 | a character other than NUL is the source character at that index; past the end it is NUL |
| Scanning.AtEnd | test/unit/test_scanner.c:8-179 | the scanner is at the end exactly past the last character or on an embedded NUL |
| Scanning.IsDigit | test/unit/test_scanner.c:40-75 | a digit is never a letter, NUL or the decimal point |
| Scanning.IsAlpha | test/unit/test_scanner.c:86-124 | a letter is never NUL, a quote, a blank, a newline or a slash, and the underscore counts as a letter |
| Scanning.CheckKeyword | test/unit/test_scanner.c:95-124 | the answer is the keyword or Identifier, and it is the keyword exactly when the lexeme is its first `start` characters followed by the rest of the spelling |
| Scanning.StringEnd | test/unit/test_scanner.c:77-84 | a string body ends at the first quote or at the end, and contains no quote |
| Scanning.PunctuationType | test/unit/test_scanner.c:8-24 | each punctuation mark has a punctuation token type |
| Scanning.OperatorType | test/unit/test_scanner.c:26-38 | `!`, `=`, `<` and `>` map to operator token types |
| Scanning.IdentifierType | test/unit/test_scanner.c:95-124 | the trie answers either Identifier or a keyword type |
| Scanning.ScanFrom | test/unit/test_scanner.c:8-179 | the end token comes exactly when only trivia remains; any other token consumes input; error tokens are the ones carrying a message; a span starts where the trivia ends and reaches the new cursor |
| Scanning.ScanLexeme | test/unit/test_scanner.c:8-179 | a token starting on a real character is never the end token, and its span starts at that character |
| Scanning.ScanWord | test/unit/test_scanner.c:86-124 | a word token is an identifier or a keyword, and is on the current line |
| Scanning.ScanNumber | test/unit/test_scanner.c:40-75 | a number token starts at its first digit and reaches the cursor |
| Scanning.ScanString | test/unit/test_scanner.c:77-84 | the result is a string token or the "Unterminated string." error |
| Scanning.ScanSymbol | test/unit/test_scanner.c:8-38 | a symbol takes one character, or two when the second is `=`; it is never a number, string, identifier or keyword |
| Scanning.Tokenize | test/unit/test_scanner.c:8-24 | successive calls end with exactly one end-of-source token, at the end |
| Scanning.Scanner.constructor | test/unit/test_scanner.c:8-12 | initScanner puts start and cursor at 0 and the line at 1 |
| Scanning.Scanner.MakeToken | test/unit/test_scanner.c:40-48 | a token spans from start to the cursor, on the current line |
| Scanning.Scanner.ErrorToken | test/unit/test_scanner.c:165-179 | an error token carries its message, on the current line |
| Scanning.Scanner.Advance | test/unit/test_scanner.c:8-24 | it returns the character at the cursor and moves past it |
| Scanning.Scanner.Match | test/unit/test_scanner.c:26-38 | it consumes the next character exactly when it is the expected one |
| Scanning.Scanner.SkipWhitespace | test/unit/test_scanner.c:126-149 | the loop leaves cursor and line where SkipTrivia says |
| Scanning.Scanner.SkipComment | test/unit/test_scanner.c:139-149 | the loop stops where CommentEnd says, at the newline or the end |
| Scanning.Scanner.IdentifierToken | test/unit/test_scanner.c:86-124 | the loop yields ScanWord's token and cursor |
| Scanning.Scanner.SkipDigits | test/unit/test_scanner.c:40-75 | the loop stops at DigitsEnd |
| Scanning.Scanner.NumberToken | test/unit/test_scanner.c:40-75 | the loops yield ScanNumber's token and cursor |
| Scanning.Scanner.SkipStringBody | test/unit/test_scanner.c:77-84 | the loop stops where StringEnd says, with its line count |
| Scanning.Scanner.StringToken | test/unit/test_scanner.c:77-84 | the result is ScanString's token, cursor and line |
| Scanning.Scanner.SymbolToken | test/unit/test_scanner.c:8-38 | the switch yields ScanSymbol's token and cursor |
| Scanning.Scanner.ScanToken | test/unit/test_scanner.c:8-179 | one call yields ScanFrom's token, cursor and line from the old cursor and line, and start is where the trivia ends |
| Scanning.ScanSource | test/unit/test_scanner.c:8-24 | calling scanToken until the end token gives exactly Tokenize of the source |
| ScanningProperties.IdentifierTypeIsKeywordLookup | test/unit/test_scanner.c:95-124 | the trie gives the keyword's type exactly when the whole lexeme is a keyword, and Identifier otherwise |
| ScanningProperties.IdentifierTypeSpells | test/unit/test_scanner.c:117-124 | whenever the trie answers a keyword, the lexeme is exactly that keyword's spelling |
| ScanningProperties.SpellingScansBack | test/unit/test_scanner.c:95-115 | each keyword's spelling is in the table under its type, and the trie recognises it |
| ScanningProperties.SpellingLooksUp | test/unit/test_scanner.c:95-115 | each keyword's spelling is in the table under its type |
| ScanningProperties.KeywordsDistinct | test/unit/test_scanner.c:95-115 | the 16 keywords map to keyword types, no two to the same one |
| ScanningProperties.SkipTriviaSkipsOnlyTrivia | test/unit/test_scanner.c:126-149 | every character skipped is a blank, a newline, or text of a `//` comment opened within the skip before its newline |
| ScanningProperties.SkipTriviaCountsLines | test/unit/test_scanner.c:126-149 | skipping raises the line by the number of newlines skipped |
| ScanningProperties.StringEndCountsLines | test/unit/test_scanner.c:151-163 | a string body raises the line by the number of newlines in it |
| ScanningProperties.ScanCountsLines | test/unit/test_scanner.c:151-163 | after a call, the line is the old line plus the newlines consumed |
| ScanningProperties.LexemeCountsLines | test/unit/test_scanner.c:151-163 | a token adds to the line exactly the newlines inside it |
| ScanningProperties.WordCountsNoLines | test/unit/test_scanner.c:151-163 | words contain no newline |
| ScanningProperties.StringCountsLines | test/unit/test_scanner.c:151-163 | a string or unterminated string adds the newlines inside it |
| ScanningProperties.SymbolCountsNoLines | test/unit/test_scanner.c:151-163 | symbols contain no newline |
| ScanningProperties.NumberTokens | test/unit/test_scanner.c:40-75 | a number token comes exactly when a digit follows the trivia; its lexeme is a number literal and no longer stretch is one |
| ScanningProperties.NumberIsLongest | test/unit/test_scanner.c:40-75 | the scanned number is a number literal and the longest one there |
| ScanningProperties.NumberNotLonger | test/unit/test_scanner.c:40-75 | a stretch reaching past the scanned number is not a number literal |
| ScanningProperties.StringTokens | test/unit/test_scanner.c:77-84 | a quote and only a quote starts a string or an unterminated-string error; a string includes both quotes with none between; the error stops at the end with no quote after the opening one |
| ScanningProperties.IdentifierTokens | test/unit/test_scanner.c:86-124 | a letter or underscore and nothing else starts an identifier or keyword; its lexeme is the maximal run of letters, digits and underscores; the type is the keyword lookup of the whole lexeme |
| ScanningProperties.OperatorTokens | test/unit/test_scanner.c:26-38 | `!`, `=`, `<` and `>` give the two-character type, of length 2, exactly when `=` follows, and otherwise the one-character type |
| ScanningProperties.PunctuationTokens | test/unit/test_scanner.c:8-24 | each punctuation mark gives its own type, with length 1 |
| ScanningProperties.UnexpectedCharacterTokens | test/unit/test_scanner.c:165-171 | the "Unexpected character." error comes exactly when no other kind of token starts there, and it consumes one character |
| ScanningProperties.EofRepeats | test/unit/test_scanner.c:8-24 | after the end-of-source token, every further call gives it again |
| ScannerScenarios.IntegerNumber | test/unit/test_scanner.c:40-48 | "123" scans to a number token of length 3 |
| ScannerScenarios.DecimalNumber | test/unit/test_scanner.c:50-58 | "45.67" scans to a number token of length 5 |
| ScannerScenarios.FirstOfNumbers | test/unit/test_scanner.c:60-75 | the first call on "123 45.67 0.5" gives a number of length 3 |
| ScannerScenarios.SecondOfNumbers | test/unit/test_scanner.c:60-75 | the second call gives a number of length 5 |
| ScannerScenarios.ThirdOfNumbers | test/unit/test_scanner.c:60-75 | the third call gives a number of length 3, and a fourth reaches the end |
| ScannerScenarios.QuotedString | test/unit/test_scanner.c:77-84 | the quoted "hello world" scans to a string token of length 13 |
| ScannerScenarios.UnterminatedQuote | test/unit/test_scanner.c:173-179 | a quote with no closing quote scans to an error token |
| ScannerScenarios.UnexpectedAt | test/unit/test_scanner.c:165-171 | "@" scans to an error token |
| ScannerScenarios.FirstAfterBlanks | test/unit/test_scanner.c:126-137 | after blanks and one newline, the first number is on line 2 |
| ScannerScenarios.SecondAfterBlanks | test/unit/test_scanner.c:126-137 | after two more newlines, the second number is on line 4 |
| ScannerScenarios.FirstOfCommented | test/unit/test_scanner.c:139-149 | the first call on the commented source gives the number 123 of length 3 on line 1 |
| ScannerScenarios.AfterComment | test/unit/test_scanner.c:139-149 | the number after a line comment is on line 2 |
| ScannerScenarios.LineTracking | test/unit/test_scanner.c:151-163 | the three numbers of "123\n456\n789" are on lines 1, 2 and 3 |
| ScannerScenarios.IfxIsIdentifier | test/unit/test_scanner.c:117-124 | "ifx" is an identifier |
| ScannerScenarios.For4IsIdentifier | test/unit/test_scanner.c:117-124 | "for4" is an identifier |
| ScannerScenarios.VariableIsIdentifier | test/unit/test_scanner.c:117-124 | "variable" is an identifier |
| ScannerScenarios.FirstOfWords | test/unit/test_scanner.c:86-93 | the first call on "variable _name test123" gives the identifier variable |
| ScannerScenarios.SecondOfWords | test/unit/test_scanner.c:86-93 | the second call gives the identifier _name |
| ScannerScenarios.ThirdOfWords | test/unit/test_scanner.c:86-93 | the third call gives the identifier test123 |
| VirtualMachine.StackNeed | test/unit/test_vm.c:47-169 | no instruction needs more than two values, and need plus effect is 1 for every instruction but RETURN, which leaves nothing |
| VirtualMachine.StackEffect | test/unit/test_vm.c:47-169 | each instruction changes the depth by −1, 0 or +1, and only CONSTANT raises it |
| VirtualMachine.Arithmetic | test/unit/test_vm.c:64-150 | NaN in gives NaN out, and two numbers give a number except when dividing by zero |
| VirtualMachine.Faults | test/unit/test_vm.c:47-195 | a byte that is no opcode never faults; any other instruction but CONSTANT faults on an empty stack and never with two values on it |
| VirtualMachine.Execute | test/unit/test_vm.c:47-195 | a run that halts started on an instruction that does not fault, and a RETURN lies at or after its start |
| VirtualMachine.SafeFrom | test/unit/test_vm.c:171-195 | a run that passes the check starts on an instruction that does not fault, and a RETURN lies at or after its start |
| VirtualMachine.StepAt | test/unit/test_vm.c:47-169 | an instruction faults exactly when it needs more values than the stack holds, or CONSTANT lacks a valid operand or room to push; a byte that is no opcode is skipped; otherwise the ip advances past the operands, the depth changes by the opcode's stack effect, and the values below what it pops are untouched; RETURN pops and returns the top |
| VirtualMachine.SafeIffExecutes | test/unit/test_vm.c:171-195 | the value-blind check of depth, operand presence and pool index holds exactly when the run reaches RETURN without faulting, whatever the values on the stack |
| VirtualMachine.ExecuteKeepsStackBelow | test/unit/test_vm.c:171-195 | a run never touches the stack below the lowest depth it reaches |
| VirtualMachine.LowWater | test/unit/test_vm.c:171-195 | the lowest depth a run reaches is never above its starting depth |
| VirtualMachine.ConstantProgram | test/unit/test_vm.c:47-62 | CONSTANT 0, RETURN passes the safety check and returns the constant with an empty stack |
| VirtualMachine.BinaryProgram | test/unit/test_vm.c:64-150 | two CONSTANTs, an arithmetic instruction and RETURN pass the safety check and return a op b with an empty stack |
| VirtualMachine.NegateProgram | test/unit/test_vm.c:152-169 | CONSTANT, NEGATE, RETURN pass the safety check and return −a |
| VirtualMachine.CompoundProgram | test/unit/test_vm.c:171-195 | the compound program passes the safety check, so it never underflows, and returns (a + b) · c |
| VirtualMachine.VM.constructor | test/unit/test_vm.c:8-12 | initVM gives an empty stack, no chunk and no output |
| VirtualMachine.VM.Init | test/unit/test_vm.c:8-12 | resetting empties the stack and keeps the chunk, the ip and the output |
| VirtualMachine.VM.Push | test/unit/test_vm.c:20-30 | the stack becomes the old stack plus the value |
| VirtualMachine.VM.Pop | test/unit/test_vm.c:20-30 | it returns the top and leaves the rest |
| VirtualMachine.VM.BinaryOp | test/unit/test_vm.c:64-150 | the two top values are replaced by the operator applied to them, in order |
| VirtualMachine.VM.ReadByte | test/unit/test_vm.c:47-62 | it returns the byte at the ip and advances the ip |
| VirtualMachine.VM.ReadConstant | test/unit/test_vm.c:47-62 | it returns the constant the operand names and advances the ip |
| VirtualMachine.VM.Dispatch | test/unit/test_vm.c:64-169 | one non-RETURN instruction changes ip and stack as StepAt says |
| VirtualMachine.VM.Run | test/unit/test_vm.c:47-195 | the loop ends with INTERPRET_OK, the run succeeds, the stack is what Execute leaves, and the returned value is printed |
| VirtualMachine.VM.Interpret | test/unit/test_vm.c:47-62 | on a chunk that passes the safety check: INTERPRET_OK, the stack Execute leaves, the returned value printed, and the chunk's code and pool untouched |
| Scenarios.PushPop | test/unit/test_vm.c:20-30 | pushes of 1.5, 2.5 and 3.5 pop as 3.5, 2.5 and 1.5 |
| Scenarios.StackOperations | test/unit/test_vm.c:32-45 | interleaved pushes and pops return the latest value not yet popped |
| Scenarios.RunChunk | test/unit/test_vm.c:47-195 | a chunk that passes the safety check and halts with v on an empty stack interprets on a fresh VM to INTERPRET_OK, prints v and leaves the stack empty |
| Scenarios.ConstantChunk | test/unit/test_vm.c:47-57 | the index addConstant returns is the CONSTANT operand, so the chunk holds CONSTANT 0, RETURN on line 123 with the one constant |
| Scenarios.BinaryChunk | test/unit/test_vm.c:64-74 | the two returned indices 0 and 1 are the CONSTANT operands, followed by the instruction and RETURN, all on line 123 |
| Scenarios.NegateChunk | test/unit/test_vm.c:152-161 | the returned index 0 is the CONSTANT operand, followed by NEGATE and RETURN, all on line 123 |
| Scenarios.ConstantExpression | test/unit/test_vm.c:47-62 | the constant test interprets to INTERPRET_OK, prints the constant and leaves the stack empty |
| Scenarios.BinaryExpression | test/unit/test_vm.c:64-150 | the add, subtract, multiply and divide tests interpret to INTERPRET_OK and print a op b with an empty stack |
| Scenarios.NegateExpression | test/unit/test_vm.c:152-169 | the negate test interprets to INTERPRET_OK and prints −a |
| Scenarios.CompoundChunk | test/unit/test_vm.c:171-192 | addConstant gives the indices 0, 1 and 2 used as operands, and the chunk holds exactly the test's nine bytes on line 123 |
| Scenarios.CompoundChunkRuns | test/unit/test_vm.c:171-195 | that chunk passes the safety check and returns 25.76 |
| Scenarios.CompoundExpression | test/unit/test_vm.c:171-195 | (1.2 + 3.4) · 5.6 interprets to INTERPRET_OK, prints 25.76 and leaves the stack empty |

## Left out

- test/run_tests.py: an integration runner built on subprocesses, files, timeouts and exit codes. It is I/O plumbing, not interpreter logic.
- The single-pass compiler and `interpret(source)`: no test of this revision reaches them, because `interpret` takes a chunk.
- IEEE-754 rounding and signed zero: values are exact reals with ±∞ and NaN. The test constants are therefore exact, e.g. (1.2 + 3.4) · 5.6 is exactly 25.76. Identities that hold for reals but not for doubles, such as (x + y) − y == x, are not stated about the model.
- Memory.GrowCapacity: capacities are unbounded naturals. C's `int` overflows once the capacity reaches 2^30, so strict growth and the bounds of CapacityAfterBounds hold only below that size.
- Scanning.ScanFrom: each `char` of the source stands for one byte of the C source, and spans count characters. Multi-byte UTF-8 text differs: a string literal holding "é" has length 3 here and 4 in C, and a bare "é" gives one error token here and two in C.
- Memory.Reallocate: counts elements rather than bytes. It always returns a fresh block, even where C would grow in place. It leaves out heap addresses, `free` and the out-of-memory abort.
- The opcode numbering (CONSTANT = 0 up to RETURN = 6) follows the usual clox order. The header that fixes it is not part of this model.
- Chunks.Chunk.Write: line numbers are unbounded integers, not C `int`. A byte written is already a value below 256, so the truncation of a constant index to `uint8_t` is not modelled.
- VirtualMachine.VM.Interpret: requires the chunk to pass the safety check (`SafeFrom`). The C loop reads outside the stack or the pool otherwise, which is undefined behaviour. `SafeIffExecutes` shows that the check is exact.
- VirtualMachine.VM.Push and VirtualMachine.VM.Pop: require room and a value respectively. The C code has no overflow or underflow check.
- The printing done by RETURN is modelled as the sequence `output` of printed values. Printing itself is I/O.
- `freeVM` does nothing in this revision, so it has no member.
- VirtualMachine.VM.Run: handles RETURN in the loop itself and hands every other instruction to `Dispatch`. This is the same switch, split in two.
- The scanner and the VM are global singletons in C. Here they are objects, so several can exist at once.
- Scanning.Scanner: the source is a Dafny string, and the end is found where C would see the terminating NUL. `AtEnd` is "the character here is NUL or past the end", so an embedded NUL also ends the input, as in C.
- Concrete replays of the single-character and two-character scanner tests: these are covered by PunctuationTokens, OperatorTokens and EofRepeats for every input. The keyword test is covered by KeywordsDistinct and SpellingScansBack.
- cmocka fixtures, setup/teardown and the `malloc`/`free` of test structs are test scaffolding.
