# A verified model of the PHP 3 interpreter's control machine and its neighbours

PHP 3 builds no syntax tree and no bytecode. Its parser walks a cache of tokens, and the
semantic actions that run in the middle of productions decide, through a few globals, whether
the code being parsed takes effect; loops are made by moving the read position back. This project
models that machine and proves that it computes what an ordinary structured semantics says, and
does the same for the other intricate parts of the program: the configuration file parser, the
memory manager, the scanner's buffer, string increment, array paths, function calls, `alloca` and
`getopt`.

`dafny verify dfyconfig.toml` checks everything.

## How the parts fit

* **Control machine.** `Values`, `Syntax` and `Machine` define the data, the token cache and the
  actions; `Semantics` is the structured big-step semantics (fuel bounds iterations; the results are
  Normal, Jumped, Returned and Fatal). `Walk`, `ExprProof`, `Frames`, `StmtBase`, `Segments` and
  `StmtProof` prove, by induction on the syntax and on fuel, that the machine passes every
  expression and statement as the semantics says. `ControlTheorem` states the results; `Laws` gives laws of the semantics; `Spelling`
  shows that every statement has a token cache. `TokenCache` and `Interpreter` are the imperative
  form: an object with the globals as fields and one method per action, each proved equal to the
  machine's action, so that all theorems carry over (`Interpreter.RunBody`).
* **Calls, ReturnValue.** The three-phase protocol, for trees of calls nested in arguments and between
  the steps of the machine that runs a body.
* **ArrayPath, ArrayWrites.** Creation along an array path and its undoing; what is written is found
  again.
* **ConfigGrammar, ConfigEffects, ConfigParser, Browscap.** The grammar; what files leave in the hash;
  the packed tables and the driver; the wildcard translation.
* **Memory, Alloca.** The block list with its free caches; depth-driven reclamation.
* **Scanner.** Buffer refill and the matching loop, generic in the tables.
* **StringIncrement, Getopt.** As their names say.

Integers are unbounded unless stated; the memory counter is modulo 2^32 and block sizes fit a
32-bit `int`. What malloc, realloc and read answer, the effect of a leaf expression on the store,
the comparison behind `case`, and `strtol` are parameters. Hash tables are maps.

Where the code has rules of its own, the model follows the code: `default` is taken where it stands (the grammar
puts it last); labels after a match are still evaluated until something jumps; `continue` in a
switch ends the switch; the level of a jump that a switch has dropped is left behind; an option that
takes an argument takes the whole next argument, and the letters after it are lost; a browser
pattern without wildcards is not translated, so its dots stay regular-expression dots.

## Model

| member | source | states |
|---|---|---|
| ControlTheorem.MachineRefinesSemantics | control_structures_inline.h:208-1061 | For every structured body and every store, the flag-and-seek machine stops if and only if the structured semantics has a result, and then shows that result: same store, same returned value, fatal exactly when a jump names loops that are not there. |
| ControlTheorem.MachineFollows | language-parser.tab.c:2054-2330 | A result of the semantics for some fuel is reached by the machine, with css, for_stack, switch_stack and the nest level as at the start; a timeout means that many steps did not finish. |
| ControlTheorem.StatementFollows | control_structures_inline.h:329-359 | Any statement inside n loops: Break or Continue k is exactly a pending change at level n-k+1, Return is exactly `returned`, and all stacks and the nest level come back, with only the statement's own tokens touched. |
| ControlTheorem.SkippedCodeIsInert | control_structures.h:47 | While Execute is clear, any statement is passed with no evaluation, no iteration and every control global unchanged; the cache still spells the same statement. |
| ControlTheorem.SwappingIsInvisible | control_structures_inline.h:534-650 | The result of a body does not depend on which of its `for` loops are already swapped in the cache. |
| ControlTheorem.RunsKeepSound | control_structures_inline.h:208-1061 | In every state of every run, on any token stream, Execute equals SHOULD_EXECUTE and a pending level lies between 1 and the nest level. |
| ControlTheorem.ActionsKeepSound | control_structures_inline.h:208-1061 | No single action breaks that invariant, whatever the stacks hold. |
| ControlTheorem.EveryBodyIsHeld | language-parser.tab.c:375-485 | Every statement the parser can build is spelled by some cache, so the theorems speak about all of them. |
| StmtProof.PassStmt | language-parser.tab.c:2054-2330 | The induction behind the theorems: from any reachable state in front of a statement the machine arrives behind it as the semantics says, or runs at least as long as the fuel. |
| StmtProof.PassLoop | control_structures_inline.h:208-298 | `while`, `do` and `for` from first token to past the end: iterations by seeking are the iterations of the semantics, pending jumps are consumed by exactly the loop they name. |
| StmtProof.SwapSpells | control_structures_inline.h:613-616 | Swapping condition and increment around the middle semicolon and setting the flag leaves a cache that spells the same `for`. |
| StmtProof.PassIf | control_structures_inline.h:301-413 | if/elseif/else: exactly one branch, and exactly the tests before it, take effect. |
| StmtProof.PassSwitch | control_structures_inline.h:988-1061 | A switch runs from the first equal label or default, falls through, evaluates later labels until a jump, drops a jump that targets it and passes deeper ones on; all stacks come back. |
| ExprProof.PassExpr | control_structures_inline.h:747-823 | For arbitrarily nested or, and and ternary expressions exactly the operands short-circuit evaluation demands take effect, the value is that of the pure evaluator, and css is balanced. |
| Values.ConversionIsStable | operators.c:160-198 | The in-place truth conversion can be repeated without changing value or truth. |
| Values.TruthIs | operators.c:160-198 | A value is false exactly if it is unset, 0, 0.0, the empty string, the string "0" or a table without elements. |
| Values.ConversionIs | operators.c:160-198 | A long is converted to itself, anything else to 1 or 0 as it is true or false. |
| Values.ToLongIs | control_structures_inline.h:331-335 | The number of loops given to break and continue: a long as it is, a double cut toward zero, a string as strtol reads it. |
| Laws.ForIsWhile | control_structures_inline.h:534-650 | A `for` is the `while` it is short for, unless its body continues it. |
| TokenCache.TcSwitchInPlace | token_cache.c:194-238 | The copies through a temporary buffer, in either order, exchange the two stretches around the middle token. |
| TokenCache.CrossedIsSwitched | token_cache.c:221-232 | Moving the first stretch or the second stretch directly comes to the same exchange. |
| Interpreter.Interp.CsStartWhile | control_structures_inline.h:208-224 | The nest level rises and the flag is saved even in skipped code; only live code restores the token to WHILE and lets the condition decide. Equal to the action the theorems are about. |
| Interpreter.Interp.CsEndWhile | control_structures_inline.h:226-249 | Goes back, with the token marked as continued, exactly if the body ran through or a continue names this loop; a jump that names it is consumed; flag and nest level come back. |
| Interpreter.Interp.CsStartDoWhile | control_structures_inline.h:252-259 | Saves the flag and raises the nest level; live code restores the token to DO. |
| Interpreter.Interp.CsForceEvalDoWhile | control_structures_inline.h:263-272 | A pending continue of this loop is dropped so that the condition is evaluated. |
| Interpreter.Interp.CsEndDoWhile | control_structures_inline.h:275-298 | Goes back exactly if live and true; otherwise consumes a jump that names this loop; flag and nest level come back. |
| Interpreter.Interp.CsStartIf | control_structures_inline.h:301-317 | Saves the flag; live code runs the branch if the test holds and else keeps looking; skipped code looks no further. |
| Interpreter.Interp.CsElseifStartEvaluate | control_structures_inline.h:362-376 | The test of an elseif is live exactly if no branch has run and the code around the `if` is live. |
| Interpreter.Interp.CsStartElseif | control_structures_inline.h:387-400 | A branch that has run ends the search; otherwise the test decides. |
| Interpreter.Interp.CsStartElse | control_structures_inline.h:403-413 | The else branch is live exactly if the search is still on. |
| Interpreter.Interp.ForPreExpr1 | control_structures_inline.h:534-545 | The first list is live only in the first iteration, told by the top of for_stack. |
| Interpreter.Interp.ForPreExpr2 | control_structures_inline.h:552-560 | The second list is skipped in the first iteration of a loop already swapped. |
| Interpreter.Interp.ForPreExpr3 | control_structures_inline.h:567-578 | The third list is skipped while the loop is not yet swapped. |
| Interpreter.Interp.ForPreStatement | control_structures_inline.h:581-607 | The condition, wherever it stands, decides about the body. |
| Interpreter.Interp.ForPostStatement | control_structures_inline.h:609-650 | Swaps once, keeps the loop on for_stack exactly while it goes on, goes back exactly on a live end or a continue of this loop, and consumes a jump that names it. |
| Interpreter.Interp.CsBreakContinue | control_structures_inline.h:329-359 | A live jump out of k of n loops becomes pending at level n-k+1; a level out of range stops the parser; skipped code does nothing. |
| Interpreter.Interp.CsReturn | control_structures_inline.h:653-664 | In a function: the value is kept, `returned` is set, and nothing after it is live. |
| Interpreter.Interp.CsSwitchStart | control_structures_inline.h:988-999 | Saves the flag, raises the nest level and remembers the subject, matched by nothing yet. |
| Interpreter.Interp.CsSwitchCasePre | control_structures_inline.h:1003-1033 | A live label runs its statements if it is the default, equals the subject, or follows a match. |
| Interpreter.Interp.CsSwitchEnd | control_structures_inline.h:1042-1061 | Drops a pending jump of either kind that names the switch, leaving its level behind; flag, switch_stack and nest level come back. |
| Interpreter.Interp.CsPreBoolean | control_structures_inline.h:747-775 | The right operand is live exactly if the left one, converted in place, does not decide. |
| Interpreter.Interp.CsPostBoolean | control_structures_inline.h:757-786 | The flag comes back and the result is that of the two operands. |
| Interpreter.Interp.CsQuestion1 | control_structures_inline.h:789-796 | The first branch is live exactly if the condition holds. |
| Interpreter.Interp.CsQuestion2 | control_structures_inline.h:799-807 | The second branch is live exactly if it does not. |
| Interpreter.Interp.CsQuestion3 | control_structures_inline.h:810-823 | The flag comes back and the result is the branch that was live. |
| Interpreter.Interp.PerformAction | language-parser.tab.c:2054-2330 | The action switch performs, on the values at the grammar's stack offsets, the action of the machine. |
| Interpreter.Interp.Parse | language-parser.tab.c:2054-2330 | The parser's loop makes exactly the machine's steps. |
| Interpreter.RunBody | control_structures_inline.h:208-1061 | A body on the object finishes exactly if the machine is done within the steps given, in the machine's state; then the structured semantics has a result and it is the one shown. |
| Interpreter.BodyFinishes | control_structures_inline.h:208-1061 | If the structured semantics has a result, there is a number of steps from which on the body finishes. |
| Calls.CallRestores | control_structures_inline.h:826-985 | For every call, with any calls in its arguments and any calls between the steps of the machine that runs its body: if it comes back, function_state, active_symbol_table, css, function_state_stack, for_stack, switch_stack, the flags, the set of symbol tables and the read position are as before; a user call yields what the structured semantics gives for the body, an internal one what its handler has set, and one that was called off nothing. |
| Calls.CallComesBack | control_structures_inline.h:912-985 | If the structured semantics has a result for the body, a call under way, whatever calls its body has made so far, comes back once its machine is given enough steps. |
| Calls.BodyEnds | control_structures_inline.h:921-965 | A body interleaved with calls ends with css, for_stack and switch_stack as at its start, because it is a run of the machine alone but for the return value. |
| Calls.BodyHasItsOwnTable | control_structures_inline.h:862-928 | While the body runs, function_state names the function called, and the active symbol table is its own and new. |
| Calls.DeadCall | control_structures_inline.h:906-908 | Where Execute is clear a call, with all the calls in its arguments, changes nothing. |
| ReturnValue.ManyStepsAlike | control_structures_inline.h:653-664 | Runs of the machine do not depend on the return value: machines that differ in it alone stay so until a return sets it. |
| Calls.PopForsPops | control_structures_inline.h:962-965 | Popping for_stack to its -1 undoes whatever the body left above it. |
| Calls.Globals.PreVariablePassing | control_structures_inline.h:826-909 | The first phase as an update of the globals. |
| Calls.Globals.PostVariablePassing | control_structures_inline.h:912-936 | The second phase. |
| Calls.Globals.EndCall | control_structures_inline.h:939-985 | The third phase, with the loop that pops for_stack. |
| ArrayPath.ProbeLeavesNoTrace | control_structures_inline.h:1111-1319 | For every lookup: one creation is recorded exactly when array_write ends set, and taking it back restores the records, and the contents of every table if and only if the path meets no blank cell where it goes on. The only exception, exactly described: a variable that is neither array nor string while array_write is left over from earlier, where the last record of another is undone. |
| ArrayPath.EmptyStringIsSpoilt | control_structures_inline.h:1200-1204 | A concrete path on which the probe leaves an array behind. |
| ArrayPath.StrayFlagDeletes | control_structures_inline.h:1146-1164 | A concrete lookup on a number that, with array_write left over, deletes another variable. |
| ArrayPath.StaleWriteFlag | control_structures_inline.h:1146-1164 | A variable that is neither array nor string changes nothing but lets an old array_write through. |
| ArrayPath.LookupAnswers | variables.c:467-487 | What isset() answers is true exactly if the path leads to a cell that is there and not undefined. |
| ArrayWrites.WriteIsFound | control_structures_inline.h:1111-1296 | A value put where a lookup ended is found by a second lookup of the path, with the numbers that `[]` was given, at the same cell and without a change, if and only if the path does not go through that very cell; isset() then says so too. |
| ArrayWrites.NestedWriteIsFound | control_structures_inline.h:1111-1296 | Where arrays are nested, every write through a path of keys is found again under the same keys. |
| ArrayWrites.SelfReferenceIsLost | control_structures_inline.h:1166-1283 | A concrete array that holds itself, where the write replaces the array. |
| ArrayWrites.AppendIsLast | control_structures_inline.h:1261-1275 | `[]` adds one element, behind every numbered one. |
| ArrayWrites.NewElementIsEmpty | control_structures_inline.h:1286-1296 | An element that a lookup has created holds the empty string. |
| ArrayWrites.OffsetIsIndex | control_structures_inline.h:1178-1192 | An index into a string is the offset of the character asked for. |
| ArrayPath.FateOf | control_structures_inline.h:1166-1283 | What a path will do can be read off the tables beforehand. |
| ArrayPath.Symbols.StartArray | control_structures_inline.h:1111-1164 | The tables, trackers and result after the first step of a lookup. |
| ArrayPath.Symbols.FetchIndex | control_structures_inline.h:1166-1283 | The same for one index, through every branch. |
| ArrayPath.Symbols.EndArray | control_structures_inline.h:1286-1296 | A new element becomes the empty string. |
| ArrayPath.Symbols.CleanTop | control_structures_inline.h:1299-1319 | The recorded element is deleted and the record popped. |
| ArrayPath.Symbols.Isset | variables.c:467-487 | The answer is true exactly if the path leads to a defined cell; records and contents are left as they were under exactly the conditions of ProbeLeavesNoTrace. |
| ConfigParser.YyParse | configuration-parser.tab.c:709-1303 | Accepts exactly the grammar's token strings; the final state is the fold of all statements; a rejected file is given up at the first token that no file could have there, with exactly the statements completed before it applied; the stack never overflows. |
| ConfigParser.Parser.PushState | configuration-parser.tab.c:778-860 | At most five states are ever on the stack. |
| ConfigParser.Parser.UseLookahead | configuration-parser.tab.c:877-979 | Shift, accept, default reduction or error keep the stack in step with the tokens read. |
| ConfigParser.Parser.ReduceByRule | configuration-parser.tab.c:984-1135 | A reduction keeps it in step and applies a completed statement once. |
| ConfigParser.Parser.PopForError | configuration-parser.tab.c:1189-1278 | No state takes the error token: recovery always ends in an abort. |
| ConfigParser.TableEntries | configuration-parser.tab.c:421-461 | What the packed tables say for each state that looks at a token. |
| ConfigParser.GotoEntries | configuration-parser.tab.c:1127-1133 | The state after each reduction. |
| ConfigParser.EntriesFit | configuration-parser.tab.c:452-461 | The table entries are exactly the moves the grammar allows. |
| ConfigGrammar.SentenceIsUnambiguous | configuration-parser.tab.c:397-403 | A token string has at most one list of statements. |
| ConfigGrammar.OnlyTheseFollow | configuration-parser.tab.c:397-403 | After complete statements and the beginning of one more, no other token can follow in any file. |
| ConfigGrammar.LastAssignmentWins | configuration-parser.tab.c:1007-1021 | In a configuration file the last assignment to a name wins. |
| ConfigGrammar.UnassignedKeeps | configuration-parser.tab.c:1007-1021 | Names that are not assigned keep what they had. |
| ConfigEffects.SectionHolds | configuration-parser.tab.c:1014-1018 | In a section of a browser file a field has the value of its last assignment, names compared without regard to case. |
| ConfigEffects.SectionHoldsNothingElse | configuration-parser.tab.c:1037-1055 | A section has no other fields but the pattern its name is translated to, and the other sections are as they were. |
| ConfigEffects.LoadsInOrder | configuration-parser.tab.c:1027-1036 | The extensions are asked for in order, and nothing else is. |
| ConfigEffects.LowerIs | operators.c:1065-1072 | Lower-casing gives the one spelling of a word without capitals. |
| Browscap.ConvertKeepsMeaning | configuration-parser.tab.c:300-340 | A plain pattern with a wildcard, once translated, matches exactly the strings the wildcard pattern matches, and grows by the number of `*` and `.`. |
| Browscap.TranslateIsPiecewise | configuration-parser.tab.c:317-334 | Stars, question marks and dots become what stands for them, every other character is copied in its place. |
| Browscap.UntranslatedKeepsMeaningIffNoDot | configuration-parser.tab.c:306-313 | A plain pattern without wildcards keeps its meaning as a regular expression if and only if it has no dot. |
| Browscap.DotMatchesAnything | configuration-parser.tab.c:306-313 | A concrete pattern with a dot that matches more than it says. |
| Browscap.ConvertPattern | configuration-parser.tab.c:300-340 | The two loops with two indices compute the translation, and the terminator goes inside the buffer exactly if the text does not fill it. |
| Browscap.TerminatorFits | configuration-parser.tab.c:315-336 | The translated text leaves room for its terminator in a buffer of twice the length if and only if some character is neither `*` nor `.`. |
| Browscap.StarFillsBuffer | configuration-parser.tab.c:315-336 | A concrete pattern whose translation fills the buffer. |
| Memory.Session | alloc.c:86-374 | Every run of calls on held blocks: the process exits exactly if the books (cache counts and bytes listed, no addresses) say so; otherwise the program holds blocks of exactly the sizes a plain allocator would give, the list never passes the limit plus 1048576 when sizes are small enough for 32 bits, and after shutdown nothing is left. |
| Memory.EnoughMemory | alloc.c:40-62 | A run in which malloc refuses nothing and which asks for no more than the limit plus 1048576 in all does not exit. |
| Memory.ReuseIsFree | alloc.c:100-109 | In any run, giving back a block below 64 bytes while fewer than 16 of its size wait, and asking for its size again, never ends the process, even if malloc would refuse, and leaves the books as they were. |
| Memory.FreeAndReuse | alloc.c:154-160 | It is the same block that comes back. |
| Memory.OverIs | alloc.c:40-44 | The process ends when more than the limit plus 1048576 bytes are listed, modulo 2^32. |
| Memory.Manager.Emalloc | alloc.c:86-137 | Exits exactly if no block of the size is cached and malloc fails or the counter passes the limit plus 1048576; otherwise returns a block that is not live, of exactly the size asked for, with list, caches, ownership and the counter modulo 2^32 in order. |
| Memory.Manager.Efree | alloc.c:143-170 | A block of a cached size goes, with room, to the end of its row and stays in memory and in the count; otherwise it leaves the list and the memory. It leaves the live set either way. |
| Memory.Manager.Erealloc | alloc.c:202-250 | Exits exactly if realloc fails or the counter passes the limit plus 1048576; otherwise the block is replaced by one of the new size and the wrapping subtraction keeps the counter right. |
| Memory.Manager.Shutdown | alloc.c:333-374 | Everything obtained from malloc is given back once: as many frees as mallocs, nothing left. |
| Memory.Manager.Unlink | alloc.c:70-78 | Removal from the doubly linked list leaves a well-formed list of the other blocks. |
| Memory.Manager.CheckLimit | alloc.c:40-62 | The counter moves modulo 2^32 and the process exits exactly beyond the limit plus 1048576. |
| Memory.BypassUnlinks | alloc.c:70-78 | The link surgery, for a block anywhere in the list. |
| Memory.TakeFromRow | alloc.c:100-109 | Taking a cached block makes it live and keeps every cached entry listed, distinct, not live and of its row's size. |
| Memory.PutInRow | alloc.c:158-160 | Caching a block does too. |
| Scanner.Tokenize | language-scanner.c:3014-3054 | A file is cut into the longest tokens from front to back, the same for every buffer size and every way of cutting up the reads. |
| Scanner.Yy.NextToken | language-scanner.c:4113-4233 | One call returns the action and length of the longest token of what is left and consumes exactly it; 0 exactly at the end. |
| Scanner.Yy.GetNextBuffer | language-scanner.c:4251-4379 | Refill conserves the text: buffer from the token on, then unread file, is unchanged; writes stay inside the grown buffer. |
| Scanner.Yy.GetPreviousState | language-scanner.c:4384-4408 | Scanning again restores the state and the last accepting position for the text moved. |
| Scanner.Yy.Match | language-scanner.c:3027-3042 | The loop stops at an end-of-buffer mark or NUL, or where the automaton can go nowhere. |
| Scanner.Yy.TakeNul | language-scanner.c:4420-4443 | A NUL in the text is part of the token exactly if the automaton allows it. |
| Scanner.Yy.Advance | language-scanner.c:3035-3040 | The loop over default entries computes the transition. |
| Scanner.StepIsDelta | language-scanner.c:3029-3040 | If the tables compress the transitions of an automaton, the chain of defaults finds them, a NUL counting as class 1. |
| Scanner.TokensAreUnique | language-scanner.c:3014-3054 | The tokens are fixed by the text alone. |
| StringIncrement.IncrementWhole | operators.c:931-998 | Letters and digits go up by one in mixed radix, classes kept; from the greatest value they come round to zero with `1`, `A` or `a` in front as the first is a digit, a capital or a small letter. |
| StringIncrement.IncrementSuffix | operators.c:970-977 | Otherwise the letters and digits at the end go up by one modulo their range and everything else stays. |
| StringIncrement.EveryString | operators.c:940-977 | Every string is of one of these two kinds. |
| StringIncrement.IncrementIsNext | operators.c:931-998 | On words of one case the increment is the next word in shortlex order. |
| StringIncrement.IncrementIsSuccessor | operators.c:931-998 | In bijective base 26 it adds one. |
| StringIncrement.IncrementDecimal | operators.c:959-968 | On numerals the increment is what arithmetic says. |
| StringIncrement.VisitsEveryWordOnce | operators.c:931-998 | Counting from "a" visits every lower-case word exactly once. |
| StringIncrement.IncrementInPlace | operators.c:931-998 | The loop on the buffer computes the increment. |
| Alloca.Machine.Alloca | alloca.c:159-222 | Exactly the blocks from deeper than the caller are given back; no block of a procedure that has not returned is; the list stays sorted deepest first, for either stack direction. |
| Alloca.Machine.Reclaim | alloca.c:176-200 | The loop frees a prefix of the sorted list and so every deeper block. |
| Getopt.Scanner.Next | getopt.c:49-126 | Each call returns the next option of the arguments and gets further; at the end only a double dash is passed. |
| Getopt.Collect | main.c:1711 | The command-line loop ends for every argument list, its answers are the options in order, and it stops at the first argument that is no cluster of options, or behind it if it is a double dash. |
| Getopt.StopStops | getopt.c:57-76 | Where the options stop there is no cluster of options. |
| Getopt.WrittenIsRead | getopt.c:49-126 | Options written into arguments, clustered or not, are read back, all and in order, up to the first argument behind them. |
| Getopt.TakesArgumentIs | getopt.c:99-108 | A letter takes an argument if a colon stands behind its first occurrence. |

## Left out

- Re-entrant user calls from inside a loop's condition or a running `for`: leaf expressions cannot call back into the body being run, because token kinds and swap flags are shared between activations.
- Operator precedence: operands of `||`, `&&` and `?:` that are not leaves are parenthesised; the LALR automaton of the language is replaced by a predictive one that makes the same shifts and reductions in the same order.
- A leading comma in the expression lists of `for`, and the alternative `:` ... `endwhile;` syntax.
- `return` outside a function, `require`, `include`, `eval`, source display and `cs_system`.
- Several token caches and lexing on demand: the cache holds the whole body from the start.
- The width of `long` in `break n` and `continue n`, and floating-point rounding in truth and long conversions.
- Interpreter.Interp.CsReturn: models a return inside a function; outside one it ends the file being run.
- Interpreter.Interp.PerformAction: the rules for declarations, classes, echo, require, include and eval are left out.
- Interpreter.Interp.Parse: the parser it drives is the predictive one described above.
- Calls.CallRestores: a call expression is a leaf to the machine of its caller, which therefore stands behind the closing parenthesis; every body has a cache of its own, since bodies do not re-enter one another; the header and parameter list of a function are passed over, since they fill its symbol table only; the contents of symbol tables are not modelled.
- Calls.Globals.PreVariablePassing: running out of memory for the new symbol table is left out, and the object is reduced to whether there is one.
- ArrayPath.Symbols.StartArray: the table looked in is a parameter, so that of an object may be given; a missing object and a name that is no string are left out.
- ArrayPath.ProbeLeavesNoTrace: the next free index of a table is not part of its contents, because the program does not take it back.
- Browscap mode before any section header, where the program follows a null pointer: the assignment has no effect in the model. Loading an extension only records the request.
- The scanner of configuration files: its tokens are the input. Freeing of semantic values.
- Browscap.ConvertKeepsMeaning: patterns with regular-expression characters other than the dot are excluded, because the program copies them unchanged.
- Browscap.UntranslatedKeepsMeaningIffNoDot: the same patterns are excluded.
- Memory.Session: request sizes beyond a 32-bit `int`, DEBUG magic numbers and interruption blocking; `_ecalloc` and the string duplicators are thin uses of `_emalloc`.
- Scanner.Yy.NextToken: one start condition; scanning of in-memory strings, `yyless` and `unput`, the character held back behind the token text and the overflow of a doubled buffer size are not modelled.
- Alloca.Machine.Alloca: each procedure probes the stack at one depth, deeper than its caller's; finding the stack direction at run time is a parameter.
- Numeric operators and comparisons, constants, hash table internals, network and file wrappers, server glue, highlighting and BC math.
