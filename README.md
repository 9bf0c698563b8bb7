# CC+ interpreter — a Dafny model

CC+ is a line-oriented scripting dialect: each line is split into words, the
words are classified into typed tokens, and the class of the first token picks
the command — print the arguments (`TXT/`), bind a string variable (`FIX/`),
clear the screen (`CLS/`), print a placeholder label (`IF/`, `THEN`, `THEN:`,
`ELSE/`), ignore a comment (`REM/`, `'`, `//`), or report a syntax error.

This project models the two parts of the Rust interpreter that carry logic:

- `parser.dfy`, module `Parser` (src/parser.rs). `Type` and `Token` are
  datatypes; the getters `get_type`/`get_value` are the destructors
  `tokenType`/`value`. `Classify` is the keyword match on the upper-cased
  word, a lookup in `KeywordTable`; `Spellings` reads the same table by tag,
  and the two are proved to agree. `Tokens` is the reference definition of tokenizing a line (one token
  per word, in order), and the method `Tokenize` is the source's loop that
  pushes one token per word, proved equal to it. `Type` also has the tags
  `TEXT` and `ENDIF`, which the interpreter dispatches on; the tokenizer
  provably never produces them.
- `interpreter.dfy`, module `Interpreter` (src/interpreter.rs). The method
  `Interpret` is the loop over the lines of a script. It keeps a variable map
  for the whole call, tokenizes each line, folds an arithmetic expression
  when there is one, and runs the command. The body of that loop is the
  method `ExecuteLine` (wrapped with its line number by `RunLine`); the
  command is the method `Execute`, and the argument
  loop of a `TXT` line is the method `PrintArgs`. The functions
  `PrintedArgs`, `Dispatch`, `LineEffect`, `RunFrom` and `Run` state what
  those methods compute, and each method is proved equal to its function.
  The lemmas state the properties of the dialect on these functions.

A run produces an `Effect`:

- the standard-output trace, one string per write;
- the final variable map;
- an `Outcome`. `Completed` is a normal end. `Fatal(line, msg)` stands for
  the diagnostic `LINE <line>: <msg>` on standard error followed by exit
  status 1. `Panic` stands for a Rust panic.

The helpers that `interpret` calls but whose code is not part of this model
(`has_math_operator`, `do_math`, `contain`, `retrieve`, `is_variable`,
`get_varname`) are function-valued fields of a `Helpers` parameter. The model
holds for every choice of them. What `CLS` needs from the platform (whether
it is Unix, and the output of the `clear` command) is a `Platform` parameter.

Behaviours of the code kept as written:

- In a `TXT` line, an ordinary `ARG` word is printed with no space after it,
  so `TXT/ hello world` prints `helloworld` and a newline. Every argument
  that is not an `ARG` is printed followed by a space, a bound variable as
  its value; an unbound variable prints nothing and ends the run. The `ARG` markers `/#R`, `\#PAUSE` and `\%` print nothing, a
  newline and `%`.
- The keyword table has no spelling for `ENDIF` or `TEXT`, so the tokenizer
  never yields either tag. Only a `do_math` fold that re-tags tokens can
  produce them. Without a fold, a line `ENDIF/` prints `Syntax error !`
  (`EndifSpelledOut`), a word such as `%x%` after `TXT/` is a plain `ARG`
  printed as written, and no variable is ever looked up, so no line is ever
  fatal (`NoMathNeverFatal`, `NoMathRunNeverFatal`).
- The block flag `inif` is reset at the start of every line and never set.
  A line whose first token is `ENDIF` (after a fold) therefore prints
  `LINE <n>: Not in a if statement !` and the run goes on. The block buffer
  `ifcode`, its `join` and the recursive call (src/interpreter.rs:31 and
  107-110) are in the code but unreachable: no line is ever added to
  `ifcode`.
- When `do_math` succeeds but leaves no token, indexing the first token
  panics. This is the `Panic` outcome.
- A failed `do_math` and an unbound variable in a `TXT` line end the run.
  Output already written stays in the trace: the arguments before the
  unbound variable are printed, the line's newline is not
  (`TxtLineUnboundPrints`).
- The code has no `MATHOP` tag and no parenthesis tag.

## Model

| member | source | states |
|---|---|---|
| `Parser.Classify` | src/parser.rs:53-65 | never yields `TEXT` or `ENDIF`; yields `ARG` exactly when the upper-cased word is not in the keyword table; otherwise the upper-cased word is one of the spellings of the tag it yields |
| `Parser.SpellingsDisjoint` | src/parser.rs:53-65 | no spelling in the keyword table belongs to two tags |
| `Parser.KeywordsAreSpellings` | src/parser.rs:53-65 | a word is a keyword exactly when some tag of the table is spelled that way |
| `Parser.TableAgrees` | src/parser.rs:53-65 | a word is in the lookup table exactly when it is a keyword, and then the table maps it to a tag other than `TEXT`, `ENDIF` and `ARG` that has it among its spellings |
| `Parser.ClassifyByTable` | src/parser.rs:53-65 | a word has tag `t` if and only if its upper-cased form is a spelling of `t`, or `t` is `ARG` and the form is no keyword |
| `Parser.UpperSameUpToCase` | src/parser.rs:53 | words that agree letter by letter up to case have the same upper-cased form |
| `Parser.UpperIdentity` | src/parser.rs:53 | upper-casing leaves a word without lower-case letters unchanged |
| `Parser.ClassifyIgnoresCase` | src/parser.rs:53 | words that differ only in letter case get the same tag |
| `Parser.CommentMarkers` | src/parser.rs:54 | `REM/`, `'` and `//`, in any case, are `COMMENT` |
| `Parser.CommandSpellings` | src/parser.rs:55-63 | `CLS/`, `TXT/`, `IF/`, `ELSE/`, `FIX/`, `:` and `=` get `CLS`, `TXT`, `IF`, `ELSE`, `FIX`, `COLON` and `EQ` |
| `Parser.ThenForms` | src/parser.rs:58-59 | `THEN:` is `THENCOLON` and `THEN` is `THEN` |
| `Parser.ClsAnyCase` | src/parser.rs:53-55 | `cls/`, `CLS/` and `Cls/` are all `CLS` |
| `Parser.TokensPointwise` | src/parser.rs:50-72 | one token per word; token `i` has word `i` verbatim as its value and that word's class as its type; no words give no tokens |
| `Parser.TokensAppend` | src/parser.rs:51-69 | tokenizing preserves order: the tokens of `a + b` are those of `a` followed by those of `b` |
| `Parser.Tokenize` | src/parser.rs:50-72 | the pushing loop yields exactly the reference tokens: one per word, in order, value verbatim, type from `Classify`, never `TEXT` or `ENDIF` |
| `Interpreter.NatToString` | src/interpreter.rs:41 | a line number is rendered as at least one decimal digit, without a leading zero |
| `Interpreter.NatToStringRoundTrip` | src/interpreter.rs:41 | the rendered line number reads back as the number |
| `Interpreter.PrintArgs` | src/interpreter.rs:48-98 | the argument loop of a `TXT` line produces exactly the writes, newline flag and unbound name of `PrintedArgs` |
| `Interpreter.PlainStep` | src/interpreter.rs:50-91 | an argument that is neither a pause nor an unbound variable either clears the newline flag (`/#R`) or prints what `Shown` says, and the loop goes on with the next argument |
| `Interpreter.PlainArgsPrinted` | src/interpreter.rs:49-98 | without a pause or an unbound variable, each argument prints as `Shown` says (`\%` as `%`, other `ARG` bare, a bound variable as its value and a space, anything else as its word and a space, `/#R` as nothing), and the newline survives exactly when no `/#R` occurs |
| `Interpreter.UnboundStopsAt` | src/interpreter.rs:49-82 | an unbound variable after plain arguments ends the loop: those arguments are printed, the newline flag is as they left it, the name is reported, and nothing after it is printed or looked up |
| `Interpreter.PauseStopsArgs` | src/interpreter.rs:56-61 | `\#PAUSE` prints a newline and ends the loop; arguments after it are neither printed nor looked up |
| `Interpreter.UnboundStopsArgs` | src/interpreter.rs:49-98 | the loop stops on an unbound variable exactly when one occurs before any pause |
| `Interpreter.FirstUnboundReported` | src/interpreter.rs:73-82 | when the loop stops on an unbound variable, the name it reports is that of a variable reached before any pause and before any other unbound variable |
| `Interpreter.TxtLinePrints` | src/interpreter.rs:47-100 | a plain `TXT` line prints its arguments and exactly one newline, or none when `/#R` occurs; it keeps the map and does not stop the run |
| `Interpreter.TxtLinePauses` | src/interpreter.rs:54-98 | a `TXT` line with a pause prints the earlier arguments, the pause's newline, and the line's newline unless `/#R` came earlier |
| `Interpreter.TxtLineUnbound` | src/interpreter.rs:74-82 | a `TXT` line is fatal exactly when a variable reached before any pause is unbound; the outcome is `Fatal(n, "Variable <name> not found !")` for the first such variable; the map is unchanged |
| `Interpreter.TxtLineUnboundPrints` | src/interpreter.rs:47-82 | a `TXT` line whose first unbound variable comes after plain arguments prints exactly those arguments as `Shown` says, no newline, keeps the map, and is `Fatal(n, "Variable <name> not found !")` for that variable |
| `Interpreter.EndifWarns` | src/interpreter.rs:106-113 | an `ENDIF` line prints `LINE <n>: Not in a if statement !` and the run continues with the map unchanged |
| `Interpreter.FixAssigns` | src/interpreter.rs:116-124 | an assignment binds key to value (replacing an earlier binding, every other binding unchanged); any other `FIX` line changes nothing; neither prints nor stops |
| `Interpreter.LabelLines` | src/interpreter.rs:102-140 | `IF`, `THEN`/`THENCOLON` and `ELSE` print `If`, `Then` and `Else`; `COMMENT` does nothing; `ARG`, `COLON`, `EQ` and `TEXT` print `Syntax error !`; none stops the run or changes the map |
| `Interpreter.DispatchFrame` | src/interpreter.rs:46-141 | only `TXT` and `CLS` lines can stop the run; only `FIX` lines change the map, and they never remove a binding |
| `Interpreter.Execute` | src/interpreter.rs:46-141 | the command of a line produces exactly the writes, map and outcome of `Dispatch`; a token vector left empty panics on its first index |
| `Interpreter.ExecuteLine` | src/interpreter.rs:28-141 | one iteration produces exactly the writes, map and outcome of `LineEffect`: an empty line is skipped, a failed fold is `Fatal(n, "Failed to evaluate expression")`, an empty folded line panics, otherwise the command runs |
| `Interpreter.EmptyLineIsNoOp` | src/interpreter.rs:35-37 | a line with no words prints nothing, keeps the map and does not stop the run |
| `Interpreter.UntaggedNeverFatal` | src/interpreter.rs:46-141 | a token vector without `TEXT` tokens is never fatal: only a `TEXT` variable can be unbound |
| `Interpreter.NoMathNeverFatal` | src/interpreter.rs:28-82 | a line without an arithmetic expression is never fatal, since the tokenizer yields no `TEXT` token |
| `Interpreter.EndifSpelledOut` | src/parser.rs:53-65 | without a fold, the line `ENDIF/` prints `Syntax error !` and completes, as `ENDIF/` is not in the keyword table |
| `Interpreter.LineDiagnosticNumber` | src/interpreter.rs:39-82 | a fatal diagnostic of a line carries that line's number; a line never removes a binding |
| `Interpreter.RunFromStep` | src/interpreter.rs:27-143 | running from line `i` is running line `i` with its number `lineNbr + i + 1`, then the later lines on the map it left if it completed; otherwise its outcome ends the run |
| `Interpreter.RunLine` | src/interpreter.rs:28-142 | one pass of the loop, with the line number `line_nbr + lineNbr + 1`, is exactly one step of `RunFrom` |
| `Interpreter.Interpret` | src/interpreter.rs:23-144 | the loop over lines produces exactly the trace, final map and outcome of `Run`: the map starts empty, each line runs on the map left by the one before, and the first fatal line ends the run |
| `Interpreter.RunSplit` | src/interpreter.rs:25-27 | lines run one after another: running from line `i` is running the lines before `k`, then, if they completed, the lines from `k` on with the map and output they left |
| `Interpreter.RunExtends` | src/interpreter.rs:27-143 | from any line on, output is only ever appended to, and no binding is removed |
| `Interpreter.NoMathRunNeverFatal` | src/interpreter.rs:27-143 | a script none of whose lines has an arithmetic expression never ends with a diagnostic |
| `Interpreter.FatalAtStep` | src/interpreter.rs:27-143 | a line that completes does not change which later line ends the run |
| `Interpreter.FatalLineInRange` | src/interpreter.rs:27-82 | a fatal outcome names the line that caused it: the lines before it completed, and that line, run on the map they left, is fatal with this very diagnostic |
| `Interpreter.DiagnosticLineNumbers` | src/interpreter.rs:41-80 | with offset `lineNbr`, a fatal diagnostic reports a line number `m` between `lineNbr + 1` and `lineNbr + |lines|` (the 1-based index plus the offset); the script before line `m` completes, and line `m`, run on the map it left, is fatal with that diagnostic |

## Left out

- Splitting the script text into lines (`str::lines`) and each line into words (`split_whitespace`): `Interpret` takes the words of each line.
- Rust's `to_uppercase` is Unicode-aware and can change a word's length (`ß` becomes `SS`). The model upper-cases ASCII letters only. Some non-ASCII letters upper-case to ASCII in Rust (dotless `ı` to `I`, long `ſ` to `S`, the ligature `ﬁ` to `FI`), so the source reads `ıf/` as `IF` and `clſ/` as `CLS`, where the model gives `ARG`.
- ClassifyIgnoresCase: covers ASCII letter case only, for the same reason.
- `has_math_operator`, `do_math`, `contain`, `retrieve`, `is_variable` and `get_varname` are not part of this model. They are `Helpers` parameters, and every property holds for all of them. Floating-point evaluation of expressions is not modelled.
- The line read from standard input at `\#PAUSE` is discarded by the source. The model keeps only the newline printed and the end of the argument loop.
- `CLS` runs the external `clear` command. Its output is the `Platform.clear` parameter, one value that serves every `CLS` line of a run. The panic message when the command cannot start is not modelled, only the `Panic` outcome.
- The standard-error text and the exit status are folded into `Outcome`. The model does not produce the bytes `LINE <n>: ...` on standard error.
- The block state (`inif`, `ifcode`) and the recursive call for a block are not modelled. They are reset on every line and the flag is never set, so that branch cannot run.
- src/main.rs (reading the file, argument handling, the exit codes) is not part of this model.
