# HBase schema patch scripter, in Dafny

This project models `HBaseRubySchemaPatchScripter`. The scripter takes the ordered
list of per-table schema changes that a schema diff produces and turns it into one
Ruby admin-shell script. The script has five sections, always in the same order:

- a header, with a summary and the initialization preamble;
- pre-validation, ending in a single abort gate;
- the modifications;
- post-validation;
- a footer that ends with `exit`.

The model represents the script as the sequence of lines that the scripter's `s(...)`
shorthand appends, each one followed by a newline. Every emitting method becomes a
pure function that returns its lines.

Modules:

- `Schema`: table and column-family descriptors, changes and change types, and the
  grouping of changes by type.
- `Lex`: Java's `String.compareTo` order, the ascending key list a `TreeMap` yields,
  and the sorted list `Collections.sort` yields.
- `Escape`: `escapeDoubleQuotes`, together with its inverse.
- `Decimal`: the decimal spelling of the header counts, together with its parser.
- `Descriptor`:
  - `getSortedStringEntries`, as the key-sorted entry list of a map;
  - the `TreeMap` insertion loop, proved to give that list whatever order the map is
    enumerated in;
  - the `compare(...)` and `setValue(...)` lines built from it.
- `Lines`: rendering lines into text, and splitting the text back into lines.
  - Prefix and position helpers.
  - Ruby block nesting, as a stack of open `if`/`def` lines closed by `end`.
  - The `tablename` binding that later lines read.
  - Which lines record into which collection (`preErrors`, `preWarnings`, `postErrors`).
- `Validation`:
  - the absence, presence and state-match checks;
  - the severity each check gets in each phase;
  - the per-phase dispatch over the changes.
- `Mutation`: the create, drop and alter blocks, and the per-change dispatch.
- `Assembler`:
  - the header summary and its notes;
  - the preamble and the `compare` helper;
  - the gate;
  - the whole script, and its phase layout.

Each emitter has a partner that the contracts connect it to:

- Escaping has an unescaper, and the two round-trip.
- The decimal count has a parser, and the two round-trip.
- Rendering has line splitting, and the two round-trip.
- The sorted entry list has the `TreeMap` insertion loop.
- The check dispatch has the severity table `Validation.Policy`, written out case by case.
- The script as a whole has a layout. The layout locates each phase's lines inside the
  script, and the theorems about gate, records and order are stated against it.

## Model

| member | source | states |
|---|---|---|
| Escape.EscapeQuotes | src/main/java/com/salesforce/scoot/scripter/HBaseRubySchemaPatchScripter.java:251-256 | The escaped value is longer by exactly the number of double quotes, keeps every quote, and puts a backslash before each one. |
| Escape.UnescapeEscape | src/main/java/com/salesforce/scoot/scripter/HBaseRubySchemaPatchScripter.java:251-256 | Escaping round-trips: undoing the escape gives back the original value. |
| Escape.EscapeInjective | src/main/java/com/salesforce/scoot/scripter/HBaseRubySchemaPatchScripter.java:251-256 | Two different values never escape to the same text. |
| Escape.EscapeWithoutQuotes | src/main/java/com/salesforce/scoot/scripter/HBaseRubySchemaPatchScripter.java:251-256 | A value without double quotes is left unchanged, because no other character is transformed. |
| Decimal.ParseNatToString | src/main/java/com/salesforce/scoot/scripter/HBaseRubySchemaPatchScripter.java:92-93 | The count printed in a summary line reads back as the same number. |
| Schema.OfKind | src/main/java/com/salesforce/scoot/scripter/HBaseRubySchemaPatchScripter.java:86 | A group holds exactly the changes of that type, and no more of them than the input has. |
| Schema.OfKindAppend | src/main/java/com/salesforce/scoot/scripter/HBaseRubySchemaPatchScripter.java:86 | Grouping keeps the input order: grouping a concatenation gives the concatenation of the groups. |
| Schema.OfKindPartition | src/main/java/com/salesforce/scoot/scripter/HBaseRubySchemaPatchScripter.java:92-119 | The four summary counts add up to the number of changes, so every change is counted once. |
| Lex.SortedKeys | src/main/java/com/salesforce/scoot/scripter/HBaseRubySchemaPatchScripter.java:243-248 | A map's keys are enumerated in strictly ascending `compareTo` order, each key exactly once. |
| Lex.SortedKeysCanonical | src/main/java/com/salesforce/scoot/scripter/HBaseRubySchemaPatchScripter.java:243-248 | Any strictly ascending list of exactly the map's keys is that enumeration, so the order is unique. |
| Lex.Sort | src/main/java/com/salesforce/scoot/scripter/HBaseRubySchemaPatchScripter.java:105 | `Collections.sort` yields an ascending permutation of its input. |
| Lex.SortCanonical | src/main/java/com/salesforce/scoot/scripter/HBaseRubySchemaPatchScripter.java:105 | Sorting depends only on the multiset of the input, not on its order. |
| Descriptor.SortedEntries | src/main/java/com/salesforce/scoot/scripter/HBaseRubySchemaPatchScripter.java:243-249 | The sorted entries list every key of the map once, with its value, in ascending key order. |
| Descriptor.EntriesUnique | src/main/java/com/salesforce/scoot/scripter/HBaseRubySchemaPatchScripter.java:243-249 | Two key-ascending entry lists with the same entries are equal. |
| Descriptor.TreeOrderIndependent | src/main/java/com/salesforce/scoot/scripter/HBaseRubySchemaPatchScripter.java:244-248 | The `TreeMap` insertion loop gives the sorted entries, whatever order the map is enumerated in. |
| Descriptor.PropertyLinesSorted | src/main/java/com/salesforce/scoot/scripter/HBaseRubySchemaPatchScripter.java:222-224 | Line i of a property block is the line for the i-th smallest key, carrying that key's escaped value. |
| Descriptor.PropertyLinesPerKey | src/main/java/com/salesforce/scoot/scripter/HBaseRubySchemaPatchScripter.java:292-294 | Each property gets exactly one line, with its escaped value: after every smaller key and before every larger one. |
| Descriptor.PropertyLinesOrderIndependent | src/main/java/com/salesforce/scoot/scripter/HBaseRubySchemaPatchScripter.java:334-341 | The property lines the loop emits do not depend on the order in which the map is enumerated. |
| Lines.RenderAppend | src/main/java/com/salesforce/scoot/scripter/HBaseRubySchemaPatchScripter.java:80-82 | Appending lines appends their text, so the script is the concatenation of its sections. |
| Lines.SplitRender | src/main/java/com/salesforce/scoot/scripter/HBaseRubySchemaPatchScripter.java:80-82 | Splitting the script text at newlines gives back exactly the lines appended, provided none contains a newline. |
| Lines.LastBinding | src/main/java/com/salesforce/scoot/scripter/HBaseRubySchemaPatchScripter.java:200 | The `tablename` value a later line reads is a binding line that really occurs, and there is none exactly when no line binds it. |
| Validation.Recipient | src/main/java/com/salesforce/scoot/scripter/HBaseRubySchemaPatchScripter.java:198 | A failing check records into `preErrors` exactly when it is fatal, and never into `postErrors`. |
| Validation.AbsentShape | src/main/java/com/salesforce/scoot/scripter/HBaseRubySchemaPatchScripter.java:197-205 | The absence check is a closed block that leaves `tablename` bound to the checked table. Its one report records into its collection, and every recording line runs inside `if admin.tableExists(tablename)` and no other block, so it reports when the table is there. |
| Validation.PresentShape | src/main/java/com/salesforce/scoot/scripter/HBaseRubySchemaPatchScripter.java:207-215 | The presence check is a closed block that leaves `tablename` bound to the checked table. Its one report records into its collection, and every recording line runs inside `if !admin.tableExists(tablename)` and no other block, so it reports when the table is missing. |
| Validation.CompareLinesReport | src/main/java/com/salesforce/scoot/scripter/HBaseRubySchemaPatchScripter.java:222-224 | The state match emits one `compare` per property, each one recording into the severity's collection. |
| Validation.FamiliesReport | src/main/java/com/salesforce/scoot/scripter/HBaseRubySchemaPatchScripter.java:226-234 | Every family section of a state match records only into the severity's collection. |
| Validation.MatchShape | src/main/java/com/salesforce/scoot/scripter/HBaseRubySchemaPatchScripter.java:217-238 | The state match is a closed block that records only into the severity's collection, and it binds no `tablename` of its own. Every compare runs inside `if admin.tableExists(tablename)` and no other block. |
| Validation.CheckShape | src/main/java/com/salesforce/scoot/scripter/HBaseRubySchemaPatchScripter.java:197-238 | Every check's lines form one closed block that records only into its severity's collection. An absence check and a state match record only inside `if admin.tableExists(tablename)`, and a presence check only inside `if !admin.tableExists(tablename)`. |
| Validation.Checks | src/main/java/com/salesforce/scoot/scripter/HBaseRubySchemaPatchScripter.java:163-179 | Each check names the change's operation and table. A state match always comes right after a fatal presence check of the same table, against the descriptor the phase expects. |
| Validation.SeverityFollowsPolicy | src/main/java/com/salesforce/scoot/scripter/HBaseRubySchemaPatchScripter.java:163-179 | Each phase emits exactly the checks listed in `Validation.Policy`, one of each listed kind, and each check records into the collection that table gives it. |
| Validation.PhaseChecksFatal | src/main/java/com/salesforce/scoot/scripter/HBaseRubySchemaPatchScripter.java:363-380 | Every post-validation check is fatal, and so is every pre-validation check when the changes include no drop. |
| Validation.PhaseShape | src/main/java/com/salesforce/scoot/scripter/HBaseRubySchemaPatchScripter.java:163-179 | A phase's checks are balanced, contain no gate and never write `postErrors`. They record only into `preErrors` when the phase is post-validation or there is no drop. |
| Validation.DropDriftWarns | src/main/java/com/salesforce/scoot/scripter/HBaseRubySchemaPatchScripter.java:172-175 | A drop of a table that has a property, on the table or on one of its families, puts a `preWarnings` record into pre-validation, so drift is only advisory. |
| Validation.MatchReadsChangeTable | src/main/java/com/salesforce/scoot/scripter/HBaseRubySchemaPatchScripter.java:168-175 | Inside a change's state match, `tablename` is still bound to that change's table by the presence check just before it. |
| Mutation.BuildFamiliesInOrder | src/main/java/com/salesforce/scoot/scripter/HBaseRubySchemaPatchScripter.java:295-301 | The families are added one per descriptor family, in the descriptor's order, without re-sorting. |
| Mutation.CreateSplitsIffNumRegions | src/main/java/com/salesforce/scoot/scripter/HBaseRubySchemaPatchScripter.java:287-312 | A create block issues exactly one create call, after all descriptor configuration. The call pre-splits exactly when `NUMREGIONS` is set, passing the lowest and highest keys and that count. |
| Mutation.DropNesting | src/main/java/com/salesforce/scoot/scripter/HBaseRubySchemaPatchScripter.java:314-328 | The disable is nested inside both the exists guard and the enabled guard, the delete only inside the exists guard, and the block closes every block it opens. |
| Mutation.AlterOrder | src/main/java/com/salesforce/scoot/scripter/HBaseRubySchemaPatchScripter.java:330-352 | An alter fetches the table's descriptor exactly once, on the line after the `tablename` binding, and configures it on the lines that follow. It then disables, modifies and enables, each exactly once and in that order. |
| Mutation.AlterFamilies | src/main/java/com/salesforce/scoot/scripter/HBaseRubySchemaPatchScripter.java:337-343 | An alter rebuilds every family of the new descriptor, in descriptor order. |
| Mutation.DropNoCreate | src/main/java/com/salesforce/scoot/scripter/HBaseRubySchemaPatchScripter.java:314-328 | A drop block never creates a table. |
| Mutation.AlterNoCreate | src/main/java/com/salesforce/scoot/scripter/HBaseRubySchemaPatchScripter.java:330-352 | An alter block never creates a table. |
| Mutation.MutationDispatch | src/main/java/com/salesforce/scoot/scripter/HBaseRubySchemaPatchScripter.java:267-282 | An ignored change emits nothing. Every other change emits a balanced block that records nothing, and leaves `tablename` bound to the descriptor its type reads. |
| Mutation.MutationShape | src/main/java/com/salesforce/scoot/scripter/HBaseRubySchemaPatchScripter.java:258-285 | All modifications together are balanced, hold no gate and record into no collection. |
| Mutation.MutationCreates | src/main/java/com/salesforce/scoot/scripter/HBaseRubySchemaPatchScripter.java:267-282 | The modifications issue exactly one create call per create change. |
| Assembler.SummaryReadsBack | src/main/java/com/salesforce/scoot/scripter/HBaseRubySchemaPatchScripter.java:92-93 | A summary line ends in `:` exactly when the count is positive, and is plural exactly when the count is not 1. Its digits read back as the count. |
| Assembler.NotesSorted | src/main/java/com/salesforce/scoot/scripter/HBaseRubySchemaPatchScripter.java:103-106 | An altered table's notes are its property changes, prefixed and in ascending order, each exactly as often as it occurs. |
| Assembler.NotesOrderIndependent | src/main/java/com/salesforce/scoot/scripter/HBaseRubySchemaPatchScripter.java:103-106 | The notes do not depend on the order in which the property changes arrive. |
| Assembler.HeaderSummary | src/main/java/com/salesforce/scoot/scripter/HBaseRubySchemaPatchScripter.java:92-119 | The summary has one count line per type, in the order Create, Alter, Drop, Ignore. Its listed lines are each group's table names in input order, with the alter notes after each altered table. The counts add up to the number of changes. |
| Assembler.HeadersSilent | src/main/java/com/salesforce/scoot/scripter/HBaseRubySchemaPatchScripter.java:84-150 | The header closes every block it opens (the `compare` helper's `def` and `if`), holds no gate and records into no collection. |
| Assembler.CompareHelperBalanced | src/main/java/com/salesforce/scoot/scripter/HBaseRubySchemaPatchScripter.java:144-148 | The `compare` helper definition closes every block it opens. |
| Assembler.GateIsShaped | src/main/java/com/salesforce/scoot/scripter/HBaseRubySchemaPatchScripter.java:180-194 | The gate is a single closed `if` block that records nothing. Its `raise` and `exit` sit inside it, in the arm taken when pre-validation recorded errors. |
| Assembler.GateIsArms | src/main/java/com/salesforce/scoot/scripter/HBaseRubySchemaPatchScripter.java:180-194 | No `elsif` or `else` comes between the gate's `if (preErrors.length > 0)` and its `raise` and `exit`. The `elsif (preWarnings.length > 0)` arm starts on the line after `exit`. No other line of the gate raises or exits. |
| Assembler.PhaseOrder | src/main/java/com/salesforce/scoot/scripter/HBaseRubySchemaPatchScripter.java:61-68 | The script holds pre-validation, gate, modifications and post-validation, in that order and without overlap, each phase in input order. Its last line is `exit`. |
| Assembler.SingleGate | src/main/java/com/salesforce/scoot/scripter/HBaseRubySchemaPatchScripter.java:180-194 | The gate occurs exactly once, at top level, between pre-validation and the modifications. Its `raise` and `exit` sit inside it, in its first arm: no `elsif` or `else` comes before them, and the `elsif` arm starts right after them. No other line of the gate raises or exits, and every block is closed before the modifications begin. |
| Assembler.RecordsPlacement | src/main/java/com/salesforce/scoot/scripter/HBaseRubySchemaPatchScripter.java:152-238 | Nothing ever records into `postErrors`. Every recording line lies in pre-validation, or in post-validation recording into `preErrors`. |
| Assembler.PostUnconditional | src/main/java/com/salesforce/scoot/scripter/HBaseRubySchemaPatchScripter.java:354-383 | Post-validation starts and ends at top level and is followed by its unconditional success message, so no gate follows it. |
| Assembler.EndsWithExit | src/main/java/com/salesforce/scoot/scripter/HBaseRubySchemaPatchScripter.java:385-388 | The generated text ends with the line `exit`. |

## Left out

- HBase descriptor classes: descriptors are reduced to a name, a property map and a family list, and the decoding of byte keys and values to strings is not modelled.
- `diff.getTableChangesByType()` belongs to the diff, which is not part of this model. It is modelled as filtering the change list by type and keeping input order.
- `PropertyChange.toString()` belongs to the diff, which is not part of this model. Each property change is an already rendered string.
- Lex.Below: compares `char` values, which are Unicode scalar values. Java's `compareTo` compares UTF-16 code units, so the two orders can differ for strings that mix characters above U+FFFF with characters between U+E000 and U+FFFF.
- Running the generated Ruby script is not modelled. The contracts describe the emitted line list (`Assembler.ScriptLines`): which blocks enclose which lines, which collection each line records into, and which `tablename` each line reads. Of the returned text (`Assembler.GenerateScript`) the model states only that it ends with `exit`.
- The `StringBuilder` field and its reuse across calls are not modelled. Calling `generateScript` twice on one scripter appends a second script to the first; the model generates one script per call.
- Missing descriptors: the scripter throws a null-dereference exception when a change lacks the descriptor it dereferences. The model turns this into the preconditions `Dereferenceable` and `Ready`, instead of modelling an error path.
- Table names, family names, property keys and the `NUMREGIONS` value are embedded in the script without escaping, exactly as the scripter does. The model claims nothing about quoting those values.
- Newlines inside embedded text are not handled, as in the scripter. Names, property keys, property values and property-change texts are embedded as they are, so a newline in one of them splits one emitted line in two in the returned text. The theorems hold for the emitted line list. `Lines.SplitRender` recovers that list from the text only when no emitted line contains a newline, and the model does not prove that of the whole script.
- Escape.EscapeQuotes: escapes `"` but not the backslash, as the scripter does. A value ending in a backslash therefore escapes the closing quote of its Ruby string literal, so distinct escaped texts do not mean the script reads the values back intact.
- How the scripter treats failures and families:
  - Post-validation records its failures into `preErrors`, because every post check is fatal.
  - `postErrors` is declared but never written.
  - The failures post-validation records are never printed.
  - An alter rebuilds each column family from a fresh descriptor rather than overwriting the live one.
- Mutation.AlterOrder: does not state the wording of the progress messages. The last one lacks its closing single quote, and the model's text reproduces that as written.
