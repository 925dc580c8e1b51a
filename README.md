# Abstract machines: Turing, Markov, RAM and the RAM disassembler

This project models the core of a small teaching toolkit for three abstract
machines.

- **Turing machine** (`altturing.py`). A transition table has one row per
  tape symbol (`_` is the blank) and one column per state `Q1..Qn`. A cell is
  empty or holds `<symbol><move><state>`, with the move one of `<`, `.`, `>`.
  A source text (`DEFINE Q..;TAPE:..;POS:..`, transition lines, `COMMENT:`
  and `SOLUTION:` blocks) compiles into a table and a tape. A file holds the
  table, the tape and both texts in a length-prefixed binary format. Two
  files merge into one machine that runs the first program and then the
  second. The interpreter grows the tape on demand and counts iterations,
  used cells, commands and states.
- **Normal Markov algorithm** (`altmarkov.py`). A rule table of
  `pattern -> replacement` rows (a replacement starting or ending with `.`
  is terminal) plus an input word and a solution text. Its own binary file
  format stores them. In each pass the first rule whose pattern occurs
  rewrites its leftmost occurrence. The run stops when no rule applies, a
  terminal rule has applied, or the iteration limit is passed.
- **Unlimited register machine** (`ram_translator.py`). Programs of `inc`,
  `zero`, `mov` and `jmp` commands, each with an optional `tag:` prefix and
  `//` comment, are parsed into commands and a tag table. They compile to
  the numbered `S/Z/T/J` listing, or run on nine registers set from
  `R<n>=value` keyword arguments.
- **Disassembler** (`ram2dasm.py`). It reads a numbered listing back into
  `inc`/`zero`/`mov`/`jmp` text and puts `label_<n>:` in front of every
  jump target.

Strings and bytes are both `seq<Byte>`, with `Byte` a single-byte character.
The cp1251 encoding is therefore the identity. Every regular expression and
every pyparsing grammar becomes a classification of each line: a datatype
saying what the line matched, and with which groups, is the input of the
compilers.

Objects whose fields the source updates in place are classes:

- the Turing `Table`, `Tape`, `TuringFile` and `TuringMachine`;
- the Markov `Table`, `MarkovFile` and `MarkovMachine`;
- `RAMProgram`, and `RAMMachine` with a nine-element register `array`.

The loops that build or change the machines' state are methods with
invariants. A few loops that only fill in a value are functions: the header's
row fill in the Turing compile is `TuringMachines.EmptyRows`, a map
comprehension. Each method is proved against a specification function: `Action`, `SetSlot`, `TableText`,
`EncodeFile`, `MergeGrid`, `CompileLines`, `Run`, `Corrected`,
`EncodeMarkov`, `ExecuteRules`, `ParseLines`, `Tags`, `Listing`, `RunRam`,
`SetArgs` or `Disassembly`. The lemmas state the properties of those
functions: round trips, what one step changes, what a merged machine does,
where errors come from, and how the passes of the disassembler relate.

Files: `wrappers.dfy` (Option, Result, counters), `text.dfy` (strip, split
and join, decimal text, little-endian integers, substring search),
`turing_table.dfy`, `turing_tape.dfy`, `turing_file.dfy`,
`turing_machine.dfy`, `markov_table.dfy`, `markov_machine.dfy`, `ram.dfy`
and `dasm.dfy`.

## Model

| member | source | states |
|---|---|---|
| Wrappers.Bump | altturing.py:391-392 | `setdefault(k, 0); d[k] += 1`: key k counts one more, every other key keeps its count |
| Text.LStrip | altturing.py:296 | the result is a suffix of the input that starts with a non-space, and everything cut off is white space |
| Text.RStrip | altturing.py:296 | the result is a prefix of the input that ends with a non-space, and everything cut off is white space |
| Text.StripEmpty | ram2dasm.py:17-18 | `not line.strip()` holds exactly when the line is all white space |
| Text.StripIsStripped | altturing.py:296 | stripping gives a stripped text and leaves a stripped text unchanged (idempotence) |
| Text.Lower | ram_translator.py:63 | `str.lower` on single bytes: A-Z become a-z, every other byte is kept, the length is kept |
| Text.SplitJoin | altmarkov.py:70-77 | splitting `sep.join(parts)` on sep gives the parts back when no part contains the separator |
| Text.SplitTerminated | altmarkov.py:71-72 | splitting CRLF-terminated lines on CRLF gives the lines and one empty tail |
| Text.SplitLines | ram2dasm.py:62-69 | splitting lines each followed by `\n` gives the lines back |
| Text.NatText | ram_translator.py:91 | `str(n)` is a non-empty run of digits with no leading zero except for 0 itself |
| Text.NatTextValue | altturing.py:156-159 | `int(str(n)) == n` |
| Text.NatTextInjective | ram_translator.py:216 | distinct numbers have distinct decimal texts |
| Text.LittleEndianValue | altturing.py:122 | `int.from_bytes(n.to_bytes(k, "little"), "little") == n` |
| Text.U32Value | altturing.py:122 | the same round trip for four-byte fields |
| Text.Read | altturing.py:209-210 | `f.read(n)` returns min(n, remaining) bytes, and what was read plus the rest is the stream |
| Text.ReadU32Written | altturing.py:209 | reading a four-byte field gives back the number written |
| Text.ReadPrefixedWritten | altmarkov.py:133-134 | reading a length-prefixed field gives back the text written and the rest |
| Text.FindFrom | altmarkov.py:245 | `str.find`: the first position from `from` where the pattern occurs, or none at all |
| Text.RemoveAllFree | altmarkov.py:137 | `replace("\r\n", "")` leaves a text without CR unchanged |
| TuringTable.MoveOf | altturing.py:46 | a move character is exactly one of `<`, `.`, `>`, and it is read back from its move |
| TuringTable.MoveOfChar | altturing.py:393-404 | every move's character parses back to that move |
| TuringTable.Empties | altturing.py:26 | `["" for i in range(q)]`: q empty slots |
| TuringTable.Without | altturing.py:29 | `fields.pop(k)` on the key order: exactly the other keys remain, still distinct |
| TuringTable.Normalize | altturing.py:23-30 | the `_` row is the space row if there is one, else the existing `_` row, else q empty slots; the space row goes; every other row is untouched |
| TuringTable.KeyOf | altturing.py:37-38 | a white-space symbol is looked up as `_` |
| TuringTable.Action | altturing.py:36-42 | the lookup is None exactly when the state is out of 1..q or the symbol has no row; otherwise it is slot `state - 1` of the row, or an IndexError when the row is shorter |
| TuringTable.SetSlot | altturing.py:48 | writing one slot keeps q, the key order, the row keys and normal form |
| TuringTable.ActionAfterSet | altturing.py:44-51 | after set_action, the action at (symbol, state) is the new command and every other action is unchanged |
| TuringTable.SlotText | altturing.py:48 | a slot's text is empty exactly when the slot is empty |
| TuringTable.ParseSlotText | altturing.py:393-414 | the interpreter parses a written slot back into the same symbol, move and state |
| TuringTable.RowLines | altturing.py:57-65 | one line per row in key order, each being the symbol then the tab-separated slots |
| TuringTable.TableLines | altturing.py:53-66 | the header line `\tQ1..\tQn` followed by one line per row |
| TuringTable.ParseRow | altturing.py:76-83 | a row line read back keeps at most q slots (`field[1:][:q_count]`) |
| TuringTable.InsertRows | altturing.py:75-83 | the dict built by from_bytes has exactly the keys it inserted |
| TuringTable.InsertRowsDistinct | altturing.py:75-83 | the inserted key order has no duplicates and matches the dict |
| TuringTable.ParseRowLine | altturing.py:57-65 | a row line written by to_bytes is read back to the same symbol and slots |
| TuringTable.RowLinesReadable | altturing.py:72-84 | every written row line is readable and reads back to its row |
| TuringTable.SplitTableText | altturing.py:53-66 | splitting the table text on CRLF gives the header, the row lines and an empty tail |
| TuringTable.InsertParsed | altturing.py:75-83 | reading lines that parse to distinct keys rebuilds those keys in order, with their rows |
| TuringTable.InsertAllRowLines | altturing.py:72-84 | reading all written row lines rebuilds the key order and the rows |
| TuringTable.TableRoundTrip | altturing.py:53-84 | `from_bytes(to_bytes(t).split(CRLF), q)` rebuilds the table |
| TuringTable.HeaderFree | altturing.py:54-56 | the header line has no CR |
| TuringTable.RowLineFree | altturing.py:57-65 | a row line has no CR when its symbols are plain |
| TuringTable.Table.constructor | altturing.py:23-30 | the new table is the normalised grid |
| TuringTable.Table.SetAction | altturing.py:44-51 | returns True exactly when the state is in 1..q, both symbols have rows and the move is valid; then only that slot changes, otherwise nothing does |
| TuringTable.Table.ToBytes | altturing.py:53-66 | the buffer is the table text, and its length is returned with it |
| TuringTable.Table.FromBytes | altturing.py:72-84 | the new table is the decoded grid of the lines between the header and the last line |
| TuringTape.Tape.constructor | altturing.py:87-92 | the tape holds begin, end, pointer and content |
| TuringFileFormat.SignedField | altturing.py:130-144 | a negative bound is stored as `2^32 + v`; it fits the field exactly when `-2^32 <= v < 2^32`, and is congruent to v |
| TuringFileFormat.SignedValue | altturing.py:217-225 | a field above 2^31 is read as `field - 2^32`; the result lies in (-2^31, 2^31] and is congruent to the field |
| TuringFileFormat.SignedRoundTrip | altturing.py:130-144 | a stored bound reads back as itself exactly when it lies in (-2^31, 2^31] |
| TuringFileFormat.EncodeFile | altturing.py:118-148 | to_bytes succeeds exactly when every length, q + 1 and all three bounds fit their four-byte fields |
| TuringFileFormat.EncodedBytes | altturing.py:118-148 | the file is the solution, q + 1, the table, the comment, begin, end, pointer and the tape, in that order |
| TuringFileFormat.EncodedFields | altturing.py:209-226 | reading an encoded file field by field gives back each field written |
| TuringFileFormat.ReadEncoded | altturing.py:209-226 | the reader takes the fields in the order the writer puts them |
| TuringFileFormat.DecodeFile | altturing.py:198-230 | a decoded file's table is in normal form |
| TuringFileFormat.BoundsRoundTrip | altturing.py:130-144 | tape bounds in (-2^31, 2^31] survive storing and reading |
| TuringFileFormat.FileRoundTrip | altturing.py:118-230 | `from_bytes(to_bytes(f)) == f` for a normal table of plain symbols with bounds in range |
| TuringFileFormat.SplitCommands | altturing.py:163-172 | the separator is `>` if present, else `.`, else `<`, and the command is split on it; no move character means the ValueError |
| TuringFileFormat.SlotRewrite | altturing.py:155-160 | splitting a slot and joining it with a new state gives the slot with that state |
| TuringFileFormat.RedirectRow | altturing.py:181-188 | every slot is redirected: a halt becomes a jump to state q + 1 |
| TuringFileFormat.RecountRow | altturing.py:150-161 | every non-halt slot of the second program has its state shifted by q |
| TuringFileFormat.RedirectGrid | altturing.py:179-188 | redirecting keeps q, the key order and the row keys |
| TuringFileFormat.Appended | altturing.py:189-192 | the keys added by merge are exactly the second table's keys missing from the first |
| TuringFileFormat.AppendedDistinct | altturing.py:189-192 | the keys added by merge are distinct |
| TuringFileFormat.MergeGrid | altturing.py:174-196 | the merged table is in normal form |
| TuringFileFormat.MergeShape | altturing.py:177-195 | the merged q is the sum, its keys are the union, and the first table's keys come first |
| TuringFileFormat.MergeRowOf | altturing.py:189-195 | each merged row is the row built for its key |
| TuringFileFormat.MergeFirstSlots | altturing.py:181-188 | slot i of a first-table row keeps its command, with halts sent to q + 1 |
| TuringFileFormat.MergeSecondSlots | altturing.py:189-194 | slot i of a second-table row lands at offset i after the first part, its state shifted by q unless it halts |
| TuringFileFormat.MergeRowSecond | altturing.py:189-194 | the second table's slot i follows the first part of the merged row, recounted |
| TuringFileFormat.MergeSecondPadding | altturing.py:190-192 | a key only in the second table gets q empty slots before its recounted row |
| TuringFileFormat.MergeFirstOnly | altturing.py:189-195 | a key only in the first table keeps its length and so is not padded |
| TuringFileFormat.MergeActsFirst | altturing.py:174-196 | in states 1..q the merged machine acts as the first program, with halts sent to q + 1; second-only symbols have empty slots there |
| TuringFileFormat.MergeActsSecond | altturing.py:174-196 | in states q + j the merged machine acts as the second program recounted; a first-only symbol there is an IndexError |
| TuringFileFormat.Recount | altturing.py:150-161 | the loop's result is the recounted row |
| TuringFileFormat.RedirectHaltsInRow | altturing.py:182-188 | the loop's result is the redirected row |
| TuringFileFormat.RedirectHalts | altturing.py:181-188 | the table after the loop is the redirected grid |
| TuringFileFormat.AbsorbKeys | altturing.py:189-194 | after n keys of the second table, the keys are the first table's keys plus those n |
| TuringFileFormat.AbsorbOrder | altturing.py:189-194 | the key order grows by the new keys in the second table's order |
| TuringFileFormat.AbsorbRows | altturing.py:189-194 | absorbed keys hold their merged rows, and the others their redirected rows |
| TuringFileFormat.AbsorbAllRows | altturing.py:189-194 | after every key the rows are the merged rows |
| TuringFileFormat.AbsorbAll | altturing.py:189-195 | the loop over the second table builds exactly the merged grid |
| TuringFileFormat.AppendSecond | altturing.py:189-194 | the loop returns the merged order and rows; the first table's rows, shared with the copy, hold the merged rows too |
| TuringFileFormat.TuringFile.constructor | altturing.py:96-100 | the file holds the given table, tape, comment and solution |
| TuringFileFormat.TuringFile.ToBytes | altturing.py:118-148 | the bytes written are the file's encoding, or the overflow error |
| TuringFileFormat.TuringFile.FromBytes | altturing.py:198-230 | the new file is the decoding of the bytes |
| TuringFileFormat.TuringFile.Merge | altturing.py:174-196 | the new file has the merged table and the first file's tape and texts; the first table's rows are left holding the merged rows, and a file merged with itself merges with its own redirected table |
| TuringMachines.Dedup | altturing.py:302-304 | `set(tape)` as a key list: distinct, with exactly the tape's symbols |
| TuringMachines.EmptyRows | altturing.py:304-306 | one empty row per tape symbol |
| TuringMachines.CompileHeader | altturing.py:297-314 | a header gives a full table with q states |
| TuringMachines.HeaderProgram | altturing.py:297-312 | the header's table has a row of q empty slots for `_` and each tape symbol; the tape spans 0..len-1; both texts are empty |
| TuringMachines.StartOnTape | altturing.py:308-310 | a non-negative POS is kept; a negative POS becomes `(len + p) % len`, a cell of the tape, equal to len + p when that is not negative |
| TuringMachines.CompileLine | altturing.py:315-353 | a line after the header keeps q, the table's fullness and the tape |
| TuringMachines.CompileText | altturing.py:330-353 | a non-transition line changes neither the table nor the tape |
| TuringMachines.CommandAccepted | altturing.py:316-329 | a transition line compiles exactly when set_action accepts it |
| TuringMachines.CommandWrites | altturing.py:325-326 | a transition line sets exactly its own slot |
| TuringMachines.TextLines | altturing.py:331-353 | a repeated COMMENT or SOLUTION line changes nothing; a plain line extends the solution while in one; a plain line outside both blocks fails; a transition leaves both blocks |
| TuringMachines.CompileLines | altturing.py:292-353 | a compiled program has a full table |
| TuringMachines.CompiledNormal | altturing.py:292-353 | a compiled program's table is in normal form |
| TuringMachines.HeaderRequired | altturing.py:297-314 | a program whose first line is not a header fails with "Header wasn't found" |
| TuringMachines.CompileStopsAtError | altturing.py:295-353 | the first failing line decides the error; later lines do not matter |
| TuringMachines.CompileNext | altturing.py:295-353 | compiling one more line is one more step of the loop |
| TuringMachines.CompileLineInto | altturing.py:315-353 | one loop iteration on the table object is one CompileLine step |
| TuringMachines.TextInto | altturing.py:330-353 | one text-line iteration is one CompileText step |
| TuringMachines.Spaces | altturing.py:371 | `" " * n` |
| TuringMachines.Grow | altturing.py:370-375 | after growing, the tape covers the head, and the bounds move only to reach it |
| TuringMachines.GrowKeepsCells | altturing.py:370-375 | growing keeps every old cell at its position and adds blanks |
| TuringMachines.Written | altturing.py:405-409 | writing keeps the tape consistent |
| TuringMachines.Apply | altturing.py:405-417 | applying a command keeps the tape consistent |
| TuringMachines.StepWritesOneCell | altturing.py:405-417 | a step writes the symbol (`_` as a space) under the head and nowhere else, moves by -1, 0 or 1, takes the new state and counts one iteration |
| TuringMachines.PassOf | altturing.py:369-417 | one iteration either continues with one more iteration and the new head cell used, or stops; it stops for the limit exactly when the iterations exceed max |
| TuringMachines.RunBounds | altturing.py:369-421 | a run ends halted in state 0 or with a fault; iterations never exceed max + 1, reaching it only on the limit fault; used cells only grow |
| TuringMachines.RunUsedCells | altturing.py:367-420 | the used-cell count never exceeds iterations + 1 and contains the head |
| TuringMachines.GrowTape | altturing.py:370-375 | the tape object after the loop prologue is the grown tape |
| TuringMachines.WriteAndMove | altturing.py:405-409 | the tape object after writing is the written tape |
| TuringMachines.PassOn | altturing.py:369-417 | one loop iteration on the tape object is one PassOf |
| TuringMachines.TuringMachine.constructor | altturing.py:239-252 | the machine holds the given table, tape and texts |
| TuringMachines.TuringMachine.Link | altturing.py:355-356 | a new file sharing the machine's table and tape |
| TuringMachines.TuringMachine.Compile | altturing.py:239-246 | the machine is built exactly when CompileLines succeeds, holds its result, and otherwise carries its error |
| TuringMachines.TuringMachine.CompileRest | altturing.py:315-353 | the loop over the lines after the header agrees with CompileLines |
| TuringMachines.TuringMachine.StartProgram | altturing.py:297-312 | the new table and tape are the header's program |
| TuringMachines.TuringMachine.Execute | altturing.py:358-421 | the result is the trace of Run from state 1 on the given tape, which is changed in place, or on a copy of the machine's own tape |
| MarkovTable.RecognizeField | altmarkov.py:43-53 | rows of up to three parts become (src, dst, comment), missing parts empty; longer rows raise |
| MarkovTable.Stored | altmarkov.py:26-40 | add_field stores nothing for three empty parts, `[src]` for a pattern without replacement, and the triple otherwise |
| MarkovTable.StoredRecognized | altmarkov.py:26-53 | reading a stored row back gives the rule, less its comment when only the pattern was kept |
| MarkovTable.StoredFixed | altmarkov.py:26-53 | a stored row is stored unchanged again |
| MarkovTable.Corrected | altmarkov.py:55-57 | `_correct_fields` succeeds exactly when no row has more than three parts, and keeps only stored rows |
| MarkovTable.CorrectedStored | altmarkov.py:55-57 | rows already stored are kept as they are |
| MarkovTable.CorrectedBlank | altmarkov.py:55-57 | the empty row after the last CRLF is dropped |
| MarkovTable.CorrectedPrefix | altmarkov.py:55-57 | a row that raises makes the whole table raise |
| Text.JoinFree | altmarkov.py:71-72 | joining tab-free parts with a tab-free separator gives a tab-free line |
| MarkovTable.JoinTerminated | altmarkov.py:71-72 | `"\r\n".join(lines) + "\r\n"` terminates every line with CRLF |
| MarkovTable.TableRowsEncoded | altmarkov.py:70-77 | splitting the table bytes gives the rows and one empty row |
| MarkovTable.TableRoundTrip | altmarkov.py:70-77 | `Table.from_bytes(t.to_bytes())` gives back the rows |
| MarkovTable.EncodeMarkov | altmarkov.py:102-120 | to_bytes fails exactly when the solution, the word with its CRLF, or the table is 2^32 bytes or longer |
| MarkovTable.RemoveTerminator | altmarkov.py:137 | removing CRLF from `word + "\r\n"` gives back a CR-free word |
| MarkovTable.MarkovRoundTrip | altmarkov.py:102-142 | `from_bytes(to_bytes(m)) == m` for stored rows and a CR-free word |
| MarkovTable.Table.constructor | altmarkov.py:22-24 | a new table is empty |
| MarkovTable.Table.AddField | altmarkov.py:26-40 | the table grows by the stored row |
| MarkovTable.Table.CorrectFields | altmarkov.py:55-57 | the table grows by the corrected rows, or the row-too-long error is raised |
| MarkovTable.Table.New | altmarkov.py:22-24 | a new table holds the corrected rows, or the error |
| MarkovTable.Table.FromBytes | altmarkov.py:74-77 | the new table holds the decoded rows |
| MarkovTable.MarkovFile.constructor | altmarkov.py:81-84 | the file holds table, word and solution |
| MarkovTable.MarkovFile.Merge | altmarkov.py:86-88 | the shared table gets the other table's rows appended |
| MarkovTable.MarkovFile.ToBytes | altmarkov.py:102-120 | the bytes are the file's encoding, or the overflow error |
| MarkovTable.MarkovFile.FromBytes | altmarkov.py:122-142 | the new file is the decoding of the bytes |
| MarkovMachines.CompileLine | altmarkov.py:191-219 | a line fails exactly when it is not a rule, no solution is being continued, and it is not the first WORD or SOLUTION line; the error carries the stripped line |
| MarkovMachines.CompileLines | altmarkov.py:188-220 | every compiled row has two or three parts |
| MarkovMachines.CompiledRules | altmarkov.py:188-220 | the compiled rows are the rule lines' rows, in order |
| MarkovMachines.RulesOnly | altmarkov.py:188-220 | a program of only rules has no word and no solution |
| MarkovMachines.CompileKeeps | altmarkov.py:209-216 | once set, the word never changes, and the solution only grows |
| MarkovMachines.CompileStopsAtError | altmarkov.py:191-219 | the first failing line decides the error |
| MarkovMachines.Rules | altmarkov.py:243-244 | every row is read as its recognised rule |
| MarkovMachines.Scan | altmarkov.py:243-269 | the chosen rule is the first one whose pattern occurs in the word, and none applies when none is chosen |
| MarkovMachines.Replacement | altmarkov.py:246-255 | a terminal replacement loses its `.`; any other is kept |
| MarkovMachines.Applied | altmarkov.py:256-267 | applying rule i counts i + 1 iterations and one replacement, records the new word, and stops exactly for a terminal rule |
| MarkovMachines.PassKept | altmarkov.py:239-271 | each pass keeps the steps consistent: each step is the previous one rewritten by the first rule that applies |
| MarkovMachines.RunEnds | altmarkov.py:239-274 | a finished run stopped on a terminal rule or with no rule applying, within max + len(table) iterations, its steps extending the old ones |
| MarkovMachines.ExecuteEnds | altmarkov.py:225-274 | the first step is the input word, and the run ends only when stopped or stuck |
| MarkovMachines.ScanAppend | altmarkov.py:243-269 | on merged tables, the first table's rules win, then the second's, shifted |
| MarkovMachines.ScanShift | altmarkov.py:243-269 | scanning the second part of a merged table is scanning the second table, shifted |
| MarkovMachines.CompileStep | altmarkov.py:191-219 | one compile iteration is one CompileLine step |
| MarkovMachines.MarkTerminal | altmarkov.py:246-255 | the stop flag, trimmed replacement and counted pattern of a rule |
| MarkovMachines.ScanPass | altmarkov.py:242-270 | the inner loop is one Pass, and its failure count is the index of the rule applied, or the table size |
| MarkovMachines.MarkovMachine.FromFile | altmarkov.py:155-162 | a machine from a file shares its table, word and solution |
| MarkovMachines.MarkovMachine.Linked | altmarkov.py:151-157 | a compiled machine links a new file sharing its parts |
| MarkovMachines.MarkovMachine.Compile | altmarkov.py:188-220 | the machine is built exactly when CompileLines succeeds, with the corrected rows, word and solution |
| MarkovMachines.MarkovMachine.Execute | altmarkov.py:225-274 | the result is the trace of ExecuteRules on the input word, or on the machine's word when the input is empty |
| RamMachines.ParseLines | ram_translator.py:57-70 | parsing succeeds exactly when every line parses, and gives their commands in order |
| RamMachines.TagsEnd | ram_translator.py:58 | `end` is line count + 1 |
| RamMachines.TagsKeys | ram_translator.py:62-65 | every tag, lower-cased, is in the table |
| RamMachines.TagsFirst | ram_translator.py:62-65 | a tag maps to the first line that carries it |
| RamMachines.TagsRange | ram_translator.py:58-65 | every tag maps to a line in 1..n + 1 |
| RamMachines.OpText | ram_translator.py:90-117 | an operation renders exactly when its jump tag, as written, is known; otherwise it fails with that tag |
| RamMachines.LineBody | ram_translator.py:81-117 | a command's line renders exactly when its jump tag is known |
| RamMachines.ListingOk | ram_translator.py:79-120 | the listing compiles exactly when every jump's tag is known |
| RamMachines.ListingResolves | ram_translator.py:79-117 | a compiled listing has all tags known |
| RamMachines.ListingFirstError | ram_translator.py:106-115 | a failed compile names the tag of the first unknown jump |
| RamMachines.Bodies | ram_translator.py:81-117 | one body per command |
| RamMachines.ListingLinesText | ram_translator.py:79-117 | the lines compiled are the command bodies, each followed by `\n` |
| RamMachines.OpTextFree | ram_translator.py:90-115 | an operation's text has no line break |
| RamMachines.DigitsFree | ram_translator.py:91 | decimal text has no line break |
| RamMachines.BodyFree | ram_translator.py:72-77 | a body has no line break when its comment has none |
| RamMachines.BodyNumbered | ram_translator.py:91 | each line starts with its number and a space |
| RamMachines.ListingNumbered | ram_translator.py:79-120 | the listing splits into one line per command, its number first, and the final `n+1 *` line |
| RamMachines.Slot | ram_translator.py:178 | `registers[r - 1]` indexes one of the nine registers; register 0 is the last |
| RamMachines.Zeros | ram_translator.py:125 | nine zero registers |
| RamMachines.Step | ram_translator.py:170-257 | a step keeps nine registers |
| RamMachines.StepEffect | ram_translator.py:170-257 | inc adds one, zero clears and mov copies, and no other register changes; a taken jump goes to its tag's line and counts no step; every other command counts one step and moves on; only an unknown tag fails |
| RamMachines.RunRam | ram_translator.py:161-257 | a run keeps nine registers |
| RamMachines.RunEnds | ram_translator.py:163-169 | a run without a fault ends with the pointer just past the last command, within max + 1 steps |
| RamMachines.FuelEnough | ram_translator.py:163-257 | more fuel changes nothing once a run ends without running out |
| RamMachines.JumpLoopNeverEnds | ram_translator.py:209-225 | `l: jmp l` never ends, since taken jumps are not counted against the limit |
| RamMachines.SetArgs | ram_translator.py:148-156 | keyword arguments keep nine registers |
| RamMachines.SetArgsValues | ram_translator.py:148-156 | each register holds the last argument naming it, or its old value; `R10` and only it raises |
| RamMachines.LastNaming | ram_translator.py:150-156 | the last argument naming a register |
| RamMachines.ParseStops | ram_translator.py:59-70 | the first line that fails to parse decides the error |
| RamMachines.ListingStops | ram_translator.py:81-117 | the first unknown tag decides the error |
| RamMachines.RAMProgram.constructor | ram_translator.py:48-49 | an empty tag table and command list |
| RamMachines.RAMProgram.Parse | ram_translator.py:57-70 | the commands are the parsed lines and the tags their first-use table, or the parse error |
| RamMachines.RAMProgram.New | ram_translator.py:45-50 | a program built from lines, or the parse error |
| RamMachines.RAMProgram.Compile | ram_translator.py:79-120 | the text is the listing of the commands, or the unknown-tag error |
| RamMachines.RAMMachine.constructor | ram_translator.py:124-126 | nine zero registers and the program |
| RamMachines.RAMMachine.NullRegisters | ram_translator.py:144-145 | a fresh list of nine zero registers |
| RamMachines.RAMMachine.SetRegisterArgs | ram_translator.py:150-156 | the registers after the loop are SetArgs of the old ones |
| RamMachines.RAMMachine.Execute | ram_translator.py:147-260 | with arguments the registers are reset and set from them; the run from there is RunRam, and the trace records the counts, the steps, and the registers before and after |
| RamMachines.RAMMachine.Run | ram_translator.py:161-260 | the loop on the register array is RunRam |
| RamMachines.RAMMachine.StepOn | ram_translator.py:170-257 | one loop iteration on the array is one Step |
| RamMachines.SetArgsStops | ram_translator.py:150-156 | the first `R10` decides the fault |
| Disassembler.Put | ram2dasm.py:30-51 | assigning `first_pass[number]` sets that entry and keeps the markers |
| Disassembler.PassLine | ram2dasm.py:17-56 | a line is accepted exactly when it is blank, an instruction with its arguments, or the final `n *` line |
| Disassembler.FirstPassOk | ram2dasm.py:16-56 | the first pass succeeds exactly when every line is accepted |
| Disassembler.FirstPassOrdered | ram2dasm.py:14-56 | the key order matches the dict, and no entry has labels yet |
| Disassembler.FirstPassMarkers | ram2dasm.py:52 | the markers are the jump targets, in order |
| Disassembler.FirstPassKeys | ram2dasm.py:21-51 | the keys are exactly the numbers of the instruction lines |
| Disassembler.Mark | ram2dasm.py:58-60 | labelling keeps the keys |
| Disassembler.MarkOk | ram2dasm.py:58-60 | labelling succeeds exactly when every target other than the last line is a key |
| Disassembler.MarkEntries | ram2dasm.py:58-60 | each entry gets its labels prepended |
| Disassembler.PrependedCount | ram2dasm.py:58-60 | an entry gets one `label_k:` per jump to it, none when k is the last line |
| Disassembler.Repeat | ram2dasm.py:60 | k copies of a label |
| Disassembler.RenderedLines | ram2dasm.py:62-69 | one line per key |
| Disassembler.RenderedSplit | ram2dasm.py:62-69 | the rendered text splits back into the rendered lines |
| Disassembler.Parse | ram2dasm.py:13-70 | the output is the disassembly of the lines |
| Disassembler.RunFirstPass | ram2dasm.py:16-56 | the first loop computes the first pass |
| Disassembler.RunMark | ram2dasm.py:58-60 | the marker loop computes the labelling |
| Disassembler.Render | ram2dasm.py:62-69 | the render loop builds the rendered lines, each followed by `\n` |
| Disassembler.FirstPassStops | ram2dasm.py:55-56 | the first rejected line decides the error |
| Disassembler.MarkStops | ram2dasm.py:60 | the first missing target decides the error |

## Left out

- Regular expressions and the pyparsing grammar are not modelled. The
  compilers take each line already classified: its kind, the groups it
  matched, and its stripped text.
- cp1251 encoding and decoding are the identity on single-byte characters.
  White space (for `strip` and for the `_` lookup) is the set of bytes whose
  cp1251 character Python's `str.isspace` accepts: 9-13, 28-32 and 0xA0.
  Files, paths, stdin, the `debug_prints` output, `time.sleep(delay)` and
  the `__main__` command-line blocks are left out.
- Python `set(tape)` iteration order in the Turing compile is unspecified.
  TuringMachines.Dedup uses first-occurrence order, so the row order of a
  compiled table (and hence of its file) may differ from the source's.
- TuringMachines.StartOnTape: for POS below `-len(tape)` it states only
  that the start cell is on the tape, not which one.
- TuringFileFormat.TuringFile.Merge: it requires every command to be plain
  text (no move character as the written symbol). On other commands
  `_split_commands` splits at the wrong character. The merged table gets
  fresh row storage. In the source it keeps sharing this file's row lists,
  so a later `set_action` or a second `merge` on either table changes both.
  The model ties the two tables' rows together only at the moment of return.
- TuringMachines.CompileLines: an empty line list gives `Err(EmptyProgram)`.
  In the source, compile does nothing on no lines, and the constructor then
  builds a machine with no table and no tape (None). That machine is not
  modelled. TuringMachines.TuringMachine.Compile refuses it the same way.
- TuringMachines.TuringMachine.Execute: it requires the input tape (or the
  machine's own tape) to be consistent, with content length end - begin + 1.
  Compiled and encoded tapes are consistent. A tape decoded from a foreign
  file may not be, and the source then reads shifted cells or raises
  IndexError. That case is not modelled.
- TuringMachines.TuringMachine.Execute, MarkovMachines.MarkovMachine.Execute
  and RamMachines.RAMMachine.Execute take the iteration limit as a `nat`.
  A negative limit is not modelled. The source raises the limit error on
  its first pass, whenever the loop is entered at all.
- TuringFileFormat.DecodeFile requires a state-count field of at least 1.
  The source reads 0 as `q_count = -1`, and that table is not modelled.
- The `from_bytes` dispatch on the argument's type (an existing object, a
  BytesIO or a path) is left out. Decoding works on a byte sequence.
- TuringFileFormat.DecodeFile requires a well-formed file. A table part
  with an unreadable slot is not modelled.
- The Turing interpreter's "Invalid action command" branch is the
  `EmptyAction` fault. A non-empty slot without a move character cannot
  arise in a typed slot.
- The Markov `__iter__`, `__len__` and `__getitem__` are left out.
  `__getitem__` is not used by the core.
- RamMachines.RunRam: the run is bounded by `fuel`, because taken jumps do
  not count against the limit and `jmp` loops never end (the
  `OutOfFuel` outcome). RAMMachine.Execute and Run hold only for the fuel
  given.
- RAMProgram's construction from one string split on `\n`, and
  `from_file`, are left out. The program is built from its lines.
- The `program` setter's TypeError on a non-program is left out, because
  the field is typed.
- The "Unknown command" and "Unrecognized command" branches are
  unreachable: the command type has only the five operations.
- `str.isdigit` and `\d` accept Unicode digits. The model accepts only
  ASCII `0-9`.
- ram2dasm's `not arg1` checks cannot fail: a matched argument is a
  non-empty run of digits.
- Exception messages are not modelled beyond the line or tag they carry.
- `asymptotic.py` and the test modules are not part of this model.
