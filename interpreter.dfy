/** The CC+ line interpreter (src/interpreter.rs): a loop over the lines of a
    script that tokenizes each line, folds an arithmetic expression if there
    is one, and dispatches on the class of the first token. */
module Interpreter {
  import opened Parser

  datatype Option<T> = None | Some(value: T)

  /** The token-vector helpers the interpreter calls. Their code is not part
      of this model, so the interpreter is parametric in them:
      `doMath` folds an expression in place and fails with `None`;
      `retrieve(tokens, t, k)` picks the token of class `t` at position `k`
      (negative from the end). */
  datatype Helpers = Helpers(
    hasMathOperator: seq<Token> -> bool,
    doMath: seq<Token> -> Option<seq<Token>>,
    contain: (seq<Token>, seq<Type>) -> bool,
    retrieve: (seq<Token>, Type, int) -> Option<Token>,
    isVariable: Token -> bool,
    varName: Token -> string)

  /** What the `CLS` command needs from the platform: whether it is Unix,
      and the standard output of the `clear` command (`None` when the command
      cannot be started). */
  datatype Platform = Platform(unix: bool, clear: Option<string>)

  /** How a run ends: normally, by a diagnostic on standard error followed by
      exit status 1, or by a panic. */
  datatype Outcome = Completed | Fatal(line: nat, msg: string) | Panic

  /** Everything written to standard output (one element per write), the
      variable map, and the outcome. */
  datatype Effect = Effect(out: seq<string>, vars: map<string, string>, outcome: Outcome)

  /** Result of the per-argument loop of a `TXT` line: what it printed, the
      newline flag, and the name of an unbound variable if it stopped on one. */
  datatype ArgsEffect = ArgsEffect(out: seq<string>, newline: bool, missing: Option<string>)

  const ExprFailed := "Failed to evaluate expression"
  const NotInIf := "Not in a if statement !"
  const SyntaxError := "Syntax error !"

  function DigitChar(d: nat): char
    requires d < 10
  {
    "0123456789"[d]
  }

  /** Decimal rendering of a line number. */
  function NatToString(n: nat): (s: string)
    ensures |s| >= 1
    ensures forall i :: 0 <= i < |s| ==> '0' <= s[i] <= '9'
    ensures n >= 10 ==> s[0] != '0'
  {
    if n < 10 then [DigitChar(n)] else NatToString(n / 10) + [DigitChar(n % 10)]
  }

  /** The value of a string of decimal digits. */
  function DecimalValue(s: string): nat
    requires forall i :: 0 <= i < |s| ==> '0' <= s[i] <= '9'
  {
    if s == [] then 0
    else DecimalValue(s[..|s| - 1]) * 10 + (s[|s| - 1] as int - '0' as int)
  }

  /** Rendering a line number loses nothing: it reads back as the number. */
  lemma {:induction false} NatToStringRoundTrip(n: nat)
    ensures DecimalValue(NatToString(n)) == n
  {
    if n >= 10 {
      var s := NatToString(n);
      assert s[..|s| - 1] == NatToString(n / 10);
      assert s[|s| - 1] as int - '0' as int == n % 10;
      NatToStringRoundTrip(n / 10);
    }
  }

  /** A diagnostic prefixed by its line number. */
  function LineMsg(n: nat, msg: string): string {
    "LINE " + NatToString(n) + ": " + msg
  }

  /** Prefixes `printed` to the output of `e`. */
  function Emitted(printed: seq<string>, e: ArgsEffect): ArgsEffect {
    e.(out := printed + e.out)
  }

  lemma EmittedTwice(a: seq<string>, b: seq<string>, e: ArgsEffect)
    ensures Emitted(a, Emitted(b, e)) == Emitted(a + b, e)
  {
    assert a + (b + e.out) == (a + b) + e.out;
  }

  predicate IsMarker(a: Token, s: string) {
    a.tokenType == ARG && a.value == s
  }

  /** The argument that stops a `TXT` line after printing a newline. */
  predicate IsPause(a: Token) {
    IsMarker(a, "\\#PAUSE")
  }

  /** The argument that suppresses the newline ending a `TXT` line. */
  predicate IsNoReturn(a: Token) {
    IsMarker(a, "/#R")
  }

  /** A variable reference whose name is not bound. */
  predicate IsUnbound(a: Token, vars: map<string, string>, h: Helpers) {
    a.tokenType == TEXT && h.isVariable(a) && h.varName(a) !in vars
  }

  /** The per-argument loop of a `TXT` line, argument by argument, starting
      with newline flag `newline`. */
  function PrintedArgs(args: seq<Token>, vars: map<string, string>, h: Helpers, newline: bool): ArgsEffect
    decreases |args|
  {
    if args == [] then ArgsEffect([], newline, None)
    else
      var a, rest := args[0], args[1..];
      match a.tokenType
      case ARG =>
        if a.value == "/#R" then PrintedArgs(rest, vars, h, false)
        else if a.value == "\\#PAUSE" then ArgsEffect(["\n"], newline, None)
        else if a.value == "\\%" then Emitted(["%"], PrintedArgs(rest, vars, h, newline))
        else Emitted([a.value], PrintedArgs(rest, vars, h, newline))
      case TEXT =>
        if h.isVariable(a) then
          if h.varName(a) in vars then Emitted([vars[h.varName(a)] + " "], PrintedArgs(rest, vars, h, newline))
          else ArgsEffect([], newline, Some(h.varName(a)))
        else Emitted([a.value + " "], PrintedArgs(rest, vars, h, newline))
      case _ => Emitted([a.value + " "], PrintedArgs(rest, vars, h, newline))
  }

  /** The variable map after a `FIX` line: one binding added when the line has
      the assignment shape, the same map otherwise. */
  function Assigned(tokens: seq<Token>, vars: map<string, string>, h: Helpers): map<string, string> {
    if h.contain(tokens, [FIX, TEXT, EQ, TEXT]) then
      match h.retrieve(tokens, TEXT, 0)
      case None => vars
      case Some(key) =>
        match h.retrieve(tokens, TEXT, -1)
        case None => vars
        case Some(value) => vars[key.value := value.value]
    else vars
  }

  /** The command of one line, chosen by the class of its first token;
      `n` is the line number diagnostics report. */
  function Dispatch(tokens: seq<Token>, vars: map<string, string>, h: Helpers, p: Platform, n: nat): Effect {
    if tokens == [] then Effect([], vars, Panic)
    else
      match tokens[0].tokenType
      case TXT =>
        var e := PrintedArgs(tokens[1..], vars, h, true);
        if e.missing.Some? then Effect(e.out, vars, Fatal(n, "Variable " + e.missing.value + " not found !"))
        else Effect(e.out + (if e.newline then ["\n"] else []), vars, Completed)
      case IF => Effect(["If\n"], vars, Completed)
      case THEN => Effect(["Then\n"], vars, Completed)
      case THENCOLON => Effect(["Then\n"], vars, Completed)
      case ELSE => Effect(["Else\n"], vars, Completed)
      case ENDIF => Effect([LineMsg(n, NotInIf) + "\n"], vars, Completed)
      case FIX => Effect([], Assigned(tokens, vars, h), Completed)
      case CLS =>
        if !p.unix then Effect([], vars, Completed)
        else if p.clear.None? then Effect([], vars, Panic)
        else Effect([p.clear.value], vars, Completed)
      case COMMENT => Effect([], vars, Completed)
      case _ => Effect([SyntaxError + "\n"], vars, Completed)
  }

  /** One line: skipped when it has no words, otherwise its expression folded
      (a failure is fatal) and its command dispatched. */
  function LineEffect(words: seq<string>, vars: map<string, string>, h: Helpers, p: Platform, n: nat): Effect {
    var tokens := Tokens(words);
    if tokens == [] then Effect([], vars, Completed)
    else if h.hasMathOperator(tokens) then
      match h.doMath(tokens)
      case None => Effect([], vars, Fatal(n, ExprFailed))
      case Some(folded) => Dispatch(folded, vars, h, p, n)
    else Dispatch(tokens, vars, h, p, n)
  }

  /** The lines from index `i` on, with the map and output so far. Line `i`
      is reported as number `lineNbr + i + 1`. */
  function RunFrom(lines: seq<seq<string>>, i: nat, lineNbr: nat, h: Helpers, p: Platform,
                   vars: map<string, string>, out: seq<string>): Effect
    decreases |lines| - i
  {
    if i >= |lines| then Effect(out, vars, Completed)
    else
      var e := LineEffect(lines[i], vars, h, p, lineNbr + i + 1);
      if e.outcome.Completed? then RunFrom(lines, i + 1, lineNbr, h, p, e.vars, out + e.out)
      else Effect(out + e.out, e.vars, e.outcome)
  }

  /** A whole call: the map starts empty and the first line is reported as
      `lineNbr + 1`. */
  function Run(lines: seq<seq<string>>, lineNbr: nat, h: Helpers, p: Platform): Effect {
    RunFrom(lines, 0, lineNbr, h, p, map[], [])
  }

  /** The argument loop of a `TXT` line. */
  method PrintArgs(args: seq<Token>, vars: map<string, string>, h: Helpers)
    returns (printed: seq<string>, newline: bool, missing: Option<string>)
    ensures ArgsEffect(printed, newline, missing) == PrintedArgs(args, vars, h, true)
  {
    printed, newline, missing := [], true, None;
    var i := 0;
    while i < |args|
      invariant 0 <= i <= |args|
      invariant PrintedArgs(args, vars, h, true) == Emitted(printed, PrintedArgs(args[i..], vars, h, newline))
    {
      var arg := args[i];
      ghost var rest := PrintedArgs(args[i + 1..], vars, h, newline);
      assert args[i..][1..] == args[i + 1..];
      match arg.tokenType {
        case ARG =>
          if arg.value == "/#R" {
            assert PrintedArgs(args[i..], vars, h, newline) == PrintedArgs(args[i + 1..], vars, h, false);
            newline := false;
          } else if arg.value == "\\#PAUSE" {
            // the line read from standard input here is discarded
            assert PrintedArgs(args[i..], vars, h, newline) == ArgsEffect(["\n"], newline, None);
            printed := printed + ["\n"];
            break;
          } else if arg.value == "\\%" {
            assert PrintedArgs(args[i..], vars, h, newline) == Emitted(["%"], rest);
            EmittedTwice(printed, ["%"], rest);
            printed := printed + ["%"];
          } else {
            assert PrintedArgs(args[i..], vars, h, newline) == Emitted([arg.value], rest);
            EmittedTwice(printed, [arg.value], rest);
            printed := printed + [arg.value];
          }
        case TEXT =>
          if h.isVariable(arg) {
            if h.varName(arg) in vars {
              var shown := vars[h.varName(arg)] + " ";
              assert PrintedArgs(args[i..], vars, h, newline) == Emitted([shown], rest);
              EmittedTwice(printed, [shown], rest);
              printed := printed + [shown];
            } else {
              assert PrintedArgs(args[i..], vars, h, newline) == ArgsEffect([], newline, Some(h.varName(arg)));
              missing := Some(h.varName(arg));
              return;
            }
          } else {
            assert PrintedArgs(args[i..], vars, h, newline) == Emitted([arg.value + " "], rest);
            EmittedTwice(printed, [arg.value + " "], rest);
            printed := printed + [arg.value + " "];
          }
        case _ =>
          assert PrintedArgs(args[i..], vars, h, newline) == Emitted([arg.value + " "], rest);
          EmittedTwice(printed, [arg.value + " "], rest);
          printed := printed + [arg.value + " "];
      }
      i := i + 1;
    }
  }

  /** The command of one line, dispatched on the class of its first token. */
  method Execute(tokens: seq<Token>, vars: map<string, string>, h: Helpers, p: Platform, n: nat)
    returns (printed: seq<string>, vars': map<string, string>, outcome: Outcome)
    ensures Effect(printed, vars', outcome) == Dispatch(tokens, vars, h, p, n)
  {
    printed, vars', outcome := [], vars, Completed;
    if |tokens| == 0 {
      // indexing the first token of an empty vector panics
      outcome := Panic;
      return;
    }
    match tokens[0].tokenType {
      case TXT =>
        var newline, missing;
        printed, newline, missing := PrintArgs(tokens[1..], vars, h);
        if missing.Some? {
          outcome := Fatal(n, "Variable " + missing.value + " not found !");
          return;
        }
        if newline {
          printed := printed + ["\n"];
        }
      case IF =>
        printed := ["If\n"];
      case THEN =>
        printed := ["Then\n"];
      case THENCOLON =>
        printed := ["Then\n"];
      case ELSE =>
        printed := ["Else\n"];
      case ENDIF =>
        // the block flag is reset on every line, so there is never an open block
        printed := [LineMsg(n, NotInIf) + "\n"];
      case FIX =>
        if h.contain(tokens, [FIX, TEXT, EQ, TEXT]) {
          var key := h.retrieve(tokens, TEXT, 0);
          if key.Some? {
            var value := h.retrieve(tokens, TEXT, -1);
            if value.Some? {
              vars' := vars[key.value.value := value.value.value];
            }
          }
        }
      case CLS =>
        if p.unix {
          if p.clear.None? {
            outcome := Panic;
            return;
          }
          printed := [p.clear.value];
        }
      case COMMENT =>
      case _ =>
        printed := [SyntaxError + "\n"];
    }
  }

  /** One iteration of the loop of `interpret`: tokenize the line, skip it
      when it has no words, fold its expression, run its command. */
  method ExecuteLine(words: seq<string>, vars: map<string, string>, h: Helpers, p: Platform, n: nat)
    returns (printed: seq<string>, vars': map<string, string>, outcome: Outcome)
    ensures Effect(printed, vars', outcome) == LineEffect(words, vars, h, p, n)
  {
    printed, vars', outcome := [], vars, Completed;
    var tokens := Tokenize(words);
    if |tokens| == 0 {
      return;
    }
    if h.hasMathOperator(tokens) {
      var folded := h.doMath(tokens);
      if folded.None? {
        outcome := Fatal(n, ExprFailed);
        return;
      }
      tokens := folded.value;
    }
    printed, vars', outcome := Execute(tokens, vars, h, p, n);
  }

  /** Running from line `i`, numbered `n`, is running line `i`, then the
      lines after it if it completed. */
  lemma RunFromStep(lines: seq<seq<string>>, i: nat, lineNbr: nat, n: nat, h: Helpers, p: Platform,
                    vars: map<string, string>, out: seq<string>,
                    printed: seq<string>, vars': map<string, string>, status: Outcome)
    requires i < |lines| && n == lineNbr + i + 1
    requires Effect(printed, vars', status) == LineEffect(lines[i], vars, h, p, n)
    ensures status.Completed? ==>
      RunFrom(lines, i, lineNbr, h, p, vars, out) == RunFrom(lines, i + 1, lineNbr, h, p, vars', out + printed)
    ensures !status.Completed? ==>
      RunFrom(lines, i, lineNbr, h, p, vars, out) == Effect(out + printed, vars', status)
  {
    assert LineEffect(lines[i], vars, h, p, lineNbr + i + 1) == Effect(printed, vars', status);
  }

  /** Line `i` of a run: runs it and states the result as one step of
      `RunFrom`. */
  method RunLine(lines: seq<seq<string>>, i: nat, lineNbr: nat, h: Helpers, p: Platform,
                 vars: map<string, string>, out: seq<string>)
    returns (out': seq<string>, vars': map<string, string>, status: Outcome)
    requires i < |lines|
    ensures status.Completed? ==>
      RunFrom(lines, i, lineNbr, h, p, vars, out) == RunFrom(lines, i + 1, lineNbr, h, p, vars', out')
    ensures !status.Completed? ==>
      RunFrom(lines, i, lineNbr, h, p, vars, out) == Effect(out', vars', status)
  {
    var n := lineNbr + i + 1;
    var printed;
    printed, vars', status := ExecuteLine(lines[i], vars, h, p, n);
    RunFromStep(lines, i, lineNbr, n, h, p, vars, out, printed, vars', status);
    out' := out + printed;
  }

  /** `interpret`: runs the word-lines of a script; `lineNbr` offsets every
      reported line number. */
  method Interpret(lines: seq<seq<string>>, lineNbr: nat, h: Helpers, p: Platform)
    returns (out: seq<string>, variables: map<string, string>, outcome: Outcome)
    ensures Effect(out, variables, outcome) == Run(lines, lineNbr, h, p)
  {
    out, variables, outcome := [], map[], Completed;
    ghost var total := Run(lines, lineNbr, h, p);
    for lineIdx := 0 to |lines|
      invariant total == RunFrom(lines, lineIdx, lineNbr, h, p, variables, out)
    {
      var status;
      out, variables, status := RunLine(lines, lineIdx, lineNbr, h, p, variables, out);
      if !status.Completed? {
        outcome := status;
        return;
      }
    }
  }

  // Properties of the argument loop of a TXT line.

  /** What one argument prints when it neither stops the line nor names an
      unbound variable. */
  function Shown(a: Token, vars: map<string, string>, h: Helpers): seq<string> {
    if IsNoReturn(a) then []
    else if IsMarker(a, "\\%") then ["%"]
    else if a.tokenType == ARG then [a.value]
    else if a.tokenType == TEXT && h.isVariable(a) && h.varName(a) in vars then [vars[h.varName(a)] + " "]
    else [a.value + " "]
  }

  /** The arguments printed one after another. */
  function ShownAll(args: seq<Token>, vars: map<string, string>, h: Helpers): seq<string> {
    if args == [] then [] else Shown(args[0], vars, h) + ShownAll(args[1..], vars, h)
  }

  /** No argument stops the line early. */
  predicate Plain(args: seq<Token>, vars: map<string, string>, h: Helpers) {
    forall i :: 0 <= i < |args| ==> !IsPause(args[i]) && !IsUnbound(args[i], vars, h)
  }

  predicate HasNoReturn(args: seq<Token>) {
    exists i :: 0 <= i < |args| && IsNoReturn(args[i])
  }

  /** One step of the argument loop over an argument that does not stop it. */
  lemma PlainStep(args: seq<Token>, vars: map<string, string>, h: Helpers, newline: bool)
    requires args != [] && !IsPause(args[0]) && !IsUnbound(args[0], vars, h)
    ensures PrintedArgs(args, vars, h, newline) ==
      if IsNoReturn(args[0]) then PrintedArgs(args[1..], vars, h, false)
      else Emitted(Shown(args[0], vars, h), PrintedArgs(args[1..], vars, h, newline))
  {
  }

  /** The arguments after the first of a plain sequence are plain, and a
      `/#R` occurs in it exactly when it is the first or occurs after it. */
  lemma PlainTail(args: seq<Token>, vars: map<string, string>, h: Helpers)
    requires args != [] && Plain(args, vars, h)
    ensures Plain(args[1..], vars, h)
    ensures HasNoReturn(args) <==> IsNoReturn(args[0]) || HasNoReturn(args[1..])
  {
    var rest := args[1..];
    forall i | 0 <= i < |rest| ensures !IsPause(rest[i]) && !IsUnbound(rest[i], vars, h) {
      assert rest[i] == args[i + 1];
    }
    if HasNoReturn(rest) {
      var i :| 0 <= i < |rest| && IsNoReturn(rest[i]);
      assert args[i + 1] == rest[i];
    }
    if HasNoReturn(args) && !IsNoReturn(args[0]) {
      var i :| 0 <= i < |args| && IsNoReturn(args[i]);
      assert rest[i - 1] == args[i];
    }
  }

  /** Without a pause or an unbound variable, every argument is printed as
      `Shown` says, and the newline survives exactly when no `/#R` occurs. */
  lemma {:induction false} PlainArgsPrinted(args: seq<Token>, vars: map<string, string>, h: Helpers, newline: bool)
    requires Plain(args, vars, h)
    ensures PrintedArgs(args, vars, h, newline) ==
      ArgsEffect(ShownAll(args, vars, h), newline && !HasNoReturn(args), None)
  {
    if args != [] {
      PlainTail(args, vars, h);
      PlainStep(args, vars, h, newline);
      if IsNoReturn(args[0]) {
        PlainArgsPrinted(args[1..], vars, h, false);
      } else {
        PlainArgsPrinted(args[1..], vars, h, newline);
      }
    }
  }

  /** `\#PAUSE` prints a newline and ends the argument loop: nothing after it
      is printed or looked up. */
  lemma {:induction false} PauseStopsArgs(pre: seq<Token>, pause: Token, rest: seq<Token>,
                                          vars: map<string, string>, h: Helpers, newline: bool)
    requires Plain(pre, vars, h) && IsPause(pause)
    ensures PrintedArgs(pre + [pause] + rest, vars, h, newline) ==
      ArgsEffect(ShownAll(pre, vars, h) + ["\n"], newline && !HasNoReturn(pre), None)
  {
    var args := pre + [pause] + rest;
    if pre == [] {
      assert args[0] == pause;
    } else {
      var tail := pre[1..];
      assert args[0] == pre[0];
      assert args[1..] == tail + [pause] + rest;
      PlainTail(pre, vars, h);
      PlainStep(args, vars, h, newline);
      if IsNoReturn(pre[0]) {
        PauseStopsArgs(tail, pause, rest, vars, h, false);
      } else {
        PauseStopsArgs(tail, pause, rest, vars, h, newline);
        EmittedTwice(Shown(pre[0], vars, h), ShownAll(tail, vars, h), ArgsEffect(["\n"], newline && !HasNoReturn(pre), None));
      }
    }
  }

  /** An unbound variable ends the argument loop: the arguments before it are
      printed, and nothing after it is printed or looked up. */
  lemma {:induction false} UnboundStopsAt(pre: seq<Token>, bad: Token, rest: seq<Token>,
                                          vars: map<string, string>, h: Helpers, newline: bool)
    requires Plain(pre, vars, h) && IsUnbound(bad, vars, h)
    ensures PrintedArgs(pre + [bad] + rest, vars, h, newline) ==
      ArgsEffect(ShownAll(pre, vars, h), newline && !HasNoReturn(pre), Some(h.varName(bad)))
  {
    var args := pre + [bad] + rest;
    if pre == [] {
      assert args[0] == bad;
    } else {
      var tail := pre[1..];
      assert args[0] == pre[0];
      assert args[1..] == tail + [bad] + rest;
      PlainTail(pre, vars, h);
      PlainStep(args, vars, h, newline);
      if IsNoReturn(pre[0]) {
        UnboundStopsAt(tail, bad, rest, vars, h, false);
      } else {
        UnboundStopsAt(tail, bad, rest, vars, h, newline);
        EmittedTwice(Shown(pre[0], vars, h), ShownAll(tail, vars, h),
                     ArgsEffect([], newline && !HasNoReturn(pre), Some(h.varName(bad))));
      }
    }
  }

  /** No pause among the first `k` arguments. */
  predicate NoPauseBefore(args: seq<Token>, k: int) {
    forall j :: 0 <= j < k && j < |args| ==> !IsPause(args[j])
  }

  /** Every variable among the first `k` arguments is bound. */
  predicate NoUnboundBefore(args: seq<Token>, k: int, vars: map<string, string>, h: Helpers) {
    forall j :: 0 <= j < k && j < |args| ==> !IsUnbound(args[j], vars, h)
  }

  /** The loop stops on an unbound variable exactly when one occurs before
      any pause. */
  lemma {:induction false} UnboundStopsArgs(args: seq<Token>, vars: map<string, string>, h: Helpers, newline: bool)
    ensures PrintedArgs(args, vars, h, newline).missing.Some? <==>
      exists i :: 0 <= i < |args| && IsUnbound(args[i], vars, h) && NoPauseBefore(args, i)
  {
    if args != [] {
      var rest := args[1..];
      var nl := if IsNoReturn(args[0]) then false else newline;
      UnboundStopsArgs(rest, vars, h, nl);
      var e := PrintedArgs(args, vars, h, newline);
      if IsUnbound(args[0], vars, h) {
        assert NoPauseBefore(args, 0);
      } else if IsPause(args[0]) {
        assert e.missing.None?;
        forall i | 0 <= i < |args| && IsUnbound(args[i], vars, h) ensures !NoPauseBefore(args, i) {
          assert i > 0;
        }
      } else {
        assert e.missing == PrintedArgs(rest, vars, h, nl).missing;
        if e.missing.Some? {
          var i :| 0 <= i < |rest| && IsUnbound(rest[i], vars, h) && NoPauseBefore(rest, i);
          assert args[i + 1] == rest[i];
          assert NoPauseBefore(args, i + 1) by {
            forall j | 0 <= j < i + 1 && j < |args| ensures !IsPause(args[j]) {
              if j > 0 { assert args[j] == rest[j - 1]; }
            }
          }
        } else {
          forall i | 0 <= i < |args| && IsUnbound(args[i], vars, h) ensures !NoPauseBefore(args, i) {
            assert i > 0 && rest[i - 1] == args[i];
            assert !NoPauseBefore(rest, i - 1);
            var j :| 0 <= j < i - 1 && j < |rest| && IsPause(rest[j]);
            assert args[j + 1] == rest[j];
          }
        }
      }
    }
  }

  /** When the loop stops on an unbound variable, the name it reports is that
      of the first variable reached that is unbound, and no pause comes
      before it. */
  lemma {:induction false} FirstUnboundReported(args: seq<Token>, vars: map<string, string>, h: Helpers, newline: bool)
    ensures PrintedArgs(args, vars, h, newline).missing.Some? ==>
      exists i :: 0 <= i < |args| && IsUnbound(args[i], vars, h) && NoPauseBefore(args, i) &&
        NoUnboundBefore(args, i, vars, h) &&
        h.varName(args[i]) == PrintedArgs(args, vars, h, newline).missing.value
  {
    if args != [] {
      var rest := args[1..];
      var nl := if IsNoReturn(args[0]) then false else newline;
      var e := PrintedArgs(args, vars, h, newline);
      if IsUnbound(args[0], vars, h) {
        assert NoPauseBefore(args, 0) && NoUnboundBefore(args, 0, vars, h);
      } else if !IsPause(args[0]) {
        assert e.missing == PrintedArgs(rest, vars, h, nl).missing;
        if e.missing.Some? {
          FirstUnboundReported(rest, vars, h, nl);
          var i :| 0 <= i < |rest| && IsUnbound(rest[i], vars, h) && NoPauseBefore(rest, i) &&
                   NoUnboundBefore(rest, i, vars, h) && h.varName(rest[i]) == e.missing.value;
          assert args[i + 1] == rest[i];
          assert NoPauseBefore(args, i + 1) && NoUnboundBefore(args, i + 1, vars, h) by {
            forall j | 0 <= j < i + 1 && j < |args| ensures !IsPause(args[j]) && !IsUnbound(args[j], vars, h) {
              if j > 0 { assert args[j] == rest[j - 1]; }
            }
          }
        }
      }
    }
  }

  // Properties of one line.

  /** A line without words prints nothing and changes no binding. */
  lemma EmptyLineIsNoOp(vars: map<string, string>, h: Helpers, p: Platform, n: nat)
    ensures LineEffect([], vars, h, p, n) == Effect([], vars, Completed)
  {
  }

  /** A `TXT` line whose arguments neither pause nor name an unbound variable
      prints every argument and then exactly one newline, or none when `/#R`
      occurs among them. */
  lemma TxtLinePrints(head: Token, args: seq<Token>, vars: map<string, string>, h: Helpers, p: Platform, n: nat)
    requires head.tokenType == TXT && Plain(args, vars, h)
    ensures Dispatch([head] + args, vars, h, p, n) ==
      Effect(ShownAll(args, vars, h) + (if HasNoReturn(args) then [] else ["\n"]), vars, Completed)
  {
    assert ([head] + args)[1..] == args;
    PlainArgsPrinted(args, vars, h, true);
  }

  /** A `TXT` line with a pause prints what comes before it, the pause's
      newline, and the line's own newline unless `/#R` came first. */
  lemma TxtLinePauses(head: Token, pre: seq<Token>, pause: Token, rest: seq<Token>,
                      vars: map<string, string>, h: Helpers, p: Platform, n: nat)
    requires head.tokenType == TXT && Plain(pre, vars, h) && IsPause(pause)
    ensures Dispatch([head] + pre + [pause] + rest, vars, h, p, n) ==
      Effect(ShownAll(pre, vars, h) + ["\n"] + (if HasNoReturn(pre) then [] else ["\n"]), vars, Completed)
  {
    assert ([head] + pre + [pause] + rest)[1..] == pre + [pause] + rest;
    PauseStopsArgs(pre, pause, rest, vars, h, true);
  }

  /** A `TXT` line ends the run exactly when a variable it reaches before any
      pause is unbound; the diagnostic names the first such variable and
      carries the line's number. */
  lemma TxtLineUnbound(head: Token, args: seq<Token>, vars: map<string, string>, h: Helpers, p: Platform, n: nat)
    requires head.tokenType == TXT
    ensures Dispatch([head] + args, vars, h, p, n).outcome != Panic
    ensures Dispatch([head] + args, vars, h, p, n).vars == vars
    ensures Dispatch([head] + args, vars, h, p, n).outcome.Fatal? <==>
      exists i :: 0 <= i < |args| && IsUnbound(args[i], vars, h) && NoPauseBefore(args, i)
    ensures Dispatch([head] + args, vars, h, p, n).outcome.Fatal? ==>
      exists i :: 0 <= i < |args| && IsUnbound(args[i], vars, h) && NoUnboundBefore(args, i, vars, h) &&
        Dispatch([head] + args, vars, h, p, n).outcome == Fatal(n, "Variable " + h.varName(args[i]) + " not found !")
  {
    assert ([head] + args)[1..] == args;
    UnboundStopsArgs(args, vars, h, true);
    FirstUnboundReported(args, vars, h, true);
  }

  /** The output of a fatal `TXT` line: the arguments before the first
      unbound variable are printed (and stay printed), the line's newline is
      not, and the diagnostic names that variable. */
  lemma TxtLineUnboundPrints(head: Token, pre: seq<Token>, bad: Token, rest: seq<Token>,
                             vars: map<string, string>, h: Helpers, p: Platform, n: nat)
    requires head.tokenType == TXT && Plain(pre, vars, h) && IsUnbound(bad, vars, h)
    ensures Dispatch([head] + pre + [bad] + rest, vars, h, p, n) ==
      Effect(ShownAll(pre, vars, h), vars, Fatal(n, "Variable " + h.varName(bad) + " not found !"))
  {
    assert ([head] + pre + [bad] + rest)[1..] == pre + [bad] + rest;
    UnboundStopsAt(pre, bad, rest, vars, h, true);
  }

  /** With no open block, an `ENDIF` line only warns, with the line's number. */
  lemma EndifWarns(tokens: seq<Token>, vars: map<string, string>, h: Helpers, p: Platform, n: nat)
    requires tokens != [] && tokens[0].tokenType == ENDIF
    ensures Dispatch(tokens, vars, h, p, n) ==
      Effect(["LINE " + NatToString(n) + ": Not in a if statement !\n"], vars, Completed)
  {
    assert Dispatch(tokens, vars, h, p, n) == Effect([LineMsg(n, NotInIf) + "\n"], vars, Completed);
    WarningText(n);
  }

  /** The block warning as printed, with its newline. */
  lemma WarningText(n: nat)
    ensures LineMsg(n, NotInIf) + "\n" == "LINE " + NatToString(n) + ": Not in a if statement !\n"
  {
  }

  /** The `FIX` line has the assignment shape and both sides are found. */
  predicate IsAssignment(tokens: seq<Token>, h: Helpers) {
    h.contain(tokens, [FIX, TEXT, EQ, TEXT])
    && h.retrieve(tokens, TEXT, 0).Some? && h.retrieve(tokens, TEXT, -1).Some?
  }

  /** An assignment binds its key to its value, replacing an earlier binding
      and leaving every other one alone; any other `FIX` line changes nothing.
      Neither prints. */
  lemma FixAssigns(tokens: seq<Token>, vars: map<string, string>, h: Helpers, p: Platform, n: nat)
    requires tokens != [] && tokens[0].tokenType == FIX
    ensures Dispatch(tokens, vars, h, p, n).out == []
    ensures Dispatch(tokens, vars, h, p, n).outcome == Completed
    ensures !IsAssignment(tokens, h) ==> Dispatch(tokens, vars, h, p, n).vars == vars
    ensures IsAssignment(tokens, h) ==>
      var key := h.retrieve(tokens, TEXT, 0).value.value;
      var r := Dispatch(tokens, vars, h, p, n).vars;
      && r.Keys == vars.Keys + {key}
      && r[key] == h.retrieve(tokens, TEXT, -1).value.value
      && forall x :: x in vars && x != key ==> r[x] == vars[x]
  {
  }

  /** The fixed labels, comments, and the syntax error for every other
      leading class; none of them stops the run or touches a binding. */
  lemma LabelLines(tokens: seq<Token>, vars: map<string, string>, h: Helpers, p: Platform, n: nat)
    requires tokens != []
    ensures tokens[0].tokenType == IF ==> Dispatch(tokens, vars, h, p, n) == Effect(["If\n"], vars, Completed)
    ensures tokens[0].tokenType in {THEN, THENCOLON} ==>
      Dispatch(tokens, vars, h, p, n) == Effect(["Then\n"], vars, Completed)
    ensures tokens[0].tokenType == ELSE ==> Dispatch(tokens, vars, h, p, n) == Effect(["Else\n"], vars, Completed)
    ensures tokens[0].tokenType == COMMENT ==> Dispatch(tokens, vars, h, p, n) == Effect([], vars, Completed)
    ensures tokens[0].tokenType in {ARG, COLON, EQ, TEXT} ==>
      Dispatch(tokens, vars, h, p, n) == Effect(["Syntax error !\n"], vars, Completed)
  {
    assert SyntaxError + "\n" == "Syntax error !\n";
  }

  /** Only `TXT` and `CLS` lines can stop a run, and only `FIX` lines change
      the bindings, which they never remove. */
  lemma DispatchFrame(tokens: seq<Token>, vars: map<string, string>, h: Helpers, p: Platform, n: nat)
    requires tokens != []
    ensures !Dispatch(tokens, vars, h, p, n).outcome.Completed? ==> tokens[0].tokenType in {TXT, CLS}
    ensures Dispatch(tokens, vars, h, p, n).vars != vars ==> tokens[0].tokenType == FIX
    ensures vars.Keys <= Dispatch(tokens, vars, h, p, n).vars.Keys
    ensures Dispatch(tokens, vars, h, p, n).outcome.Fatal? ==> Dispatch(tokens, vars, h, p, n).outcome.line == n
  {
  }

  /** Every diagnostic of a line carries the number it was given. */
  lemma LineDiagnosticNumber(words: seq<string>, vars: map<string, string>, h: Helpers, p: Platform, n: nat)
    ensures LineEffect(words, vars, h, p, n).outcome.Fatal? ==> LineEffect(words, vars, h, p, n).outcome.line == n
    ensures vars.Keys <= LineEffect(words, vars, h, p, n).vars.Keys
  {
    var tokens := Tokens(words);
    if tokens != [] {
      var folded := if h.hasMathOperator(tokens) then h.doMath(tokens) else Some(tokens);
      if folded.Some? && folded.value != [] {
        DispatchFrame(folded.value, vars, h, p, n);
      }
    }
  }

  /** Without `TEXT` tokens a line names no variable, so it is never fatal. */
  lemma UntaggedNeverFatal(tokens: seq<Token>, vars: map<string, string>, h: Helpers, p: Platform, n: nat)
    requires forall i :: 0 <= i < |tokens| ==> tokens[i].tokenType != TEXT
    ensures !Dispatch(tokens, vars, h, p, n).outcome.Fatal?
  {
    if tokens != [] && tokens[0].tokenType == TXT {
      var args := tokens[1..];
      UnboundStopsArgs(args, vars, h, true);
      forall i | 0 <= i < |args| ensures !IsUnbound(args[i], vars, h) {
        assert args[i] == tokens[i + 1];
      }
    }
  }

  /** The tokenizer never yields `TEXT`, so without an arithmetic fold a line
      looks up no variable and is never fatal. */
  lemma NoMathNeverFatal(words: seq<string>, vars: map<string, string>, h: Helpers, p: Platform, n: nat)
    requires !h.hasMathOperator(Tokens(words))
    ensures !LineEffect(words, vars, h, p, n).outcome.Fatal?
  {
    var tokens := Tokens(words);
    TokensPointwise(words);
    assert forall i :: 0 <= i < |tokens| ==> tokens[i].tokenType != TEXT;
    UntaggedNeverFatal(tokens, vars, h, p, n);
    assert LineEffect(words, vars, h, p, n) ==
      if tokens == [] then Effect([], vars, Completed) else Dispatch(tokens, vars, h, p, n);
  }

  /** `ENDIF/` is not in the keyword table, so without a fold such a line is
      a syntax error, not the block warning. */
  lemma EndifSpelledOut(vars: map<string, string>, h: Helpers, p: Platform, n: nat)
    requires !h.hasMathOperator(Tokens(["ENDIF/"]))
    ensures LineEffect(["ENDIF/"], vars, h, p, n) == Effect(["Syntax error !\n"], vars, Completed)
  {
    assert Classify("ENDIF/") == ARG by { UpperIdentity("ENDIF/"); }
    assert Tokens(["ENDIF/"]) == [Token(ARG, "ENDIF/")];
    assert SyntaxError + "\n" == "Syntax error !\n";
  }

  // Properties of a run.

  /** A script none of whose lines has an arithmetic expression never ends
      with a diagnostic. */
  lemma {:induction false} NoMathRunNeverFatal(lines: seq<seq<string>>, i: nat, lineNbr: nat, h: Helpers, p: Platform,
                                               vars: map<string, string>, out: seq<string>)
    requires forall j :: 0 <= j < |lines| ==> !h.hasMathOperator(Tokens(lines[j]))
    ensures !RunFrom(lines, i, lineNbr, h, p, vars, out).outcome.Fatal?
    decreases |lines| - i
  {
    if i < |lines| {
      var n := lineNbr + i + 1;
      var e := LineEffect(lines[i], vars, h, p, n);
      RunFromStep(lines, i, lineNbr, n, h, p, vars, out, e.out, e.vars, e.outcome);
      NoMathNeverFatal(lines[i], vars, h, p, n);
      if e.outcome.Completed? {
        NoMathRunNeverFatal(lines, i + 1, lineNbr, h, p, e.vars, out + e.out);
      }
    }
  }

  /** Lines run one after another: running from line `i` is running the
      lines before `k`, then, if they completed, the lines from `k` on with
      the bindings and output they left. */
  lemma {:induction false} RunSplit(lines: seq<seq<string>>, i: nat, k: nat, lineNbr: nat, h: Helpers, p: Platform,
                                    vars: map<string, string>, out: seq<string>)
    requires i <= k <= |lines|
    ensures RunFrom(lines, i, lineNbr, h, p, vars, out) ==
      var r := RunFrom(lines[..k], i, lineNbr, h, p, vars, out);
      if r.outcome.Completed? then RunFrom(lines, k, lineNbr, h, p, r.vars, r.out) else r
    decreases k - i
  {
    if i < k {
      assert lines[..k][i] == lines[i];
      var e := LineEffect(lines[i], vars, h, p, lineNbr + i + 1);
      if e.outcome.Completed? {
        RunSplit(lines, i + 1, k, lineNbr, h, p, e.vars, out + e.out);
      }
    }
  }

  /** Output is only ever appended to, and no binding is ever removed. */
  lemma {:induction false} RunExtends(lines: seq<seq<string>>, i: nat, lineNbr: nat, h: Helpers, p: Platform,
                                      vars: map<string, string>, out: seq<string>)
    ensures out <= RunFrom(lines, i, lineNbr, h, p, vars, out).out
    ensures vars.Keys <= RunFrom(lines, i, lineNbr, h, p, vars, out).vars.Keys
    decreases |lines| - i
  {
    if i < |lines| {
      var n := lineNbr + i + 1;
      var e := LineEffect(lines[i], vars, h, p, n);
      RunFromStep(lines, i, lineNbr, n, h, p, vars, out, e.out, e.vars, e.outcome);
      LineDiagnosticNumber(lines[i], vars, h, p, n);
      if e.outcome.Completed? {
        RunExtends(lines, i + 1, lineNbr, h, p, e.vars, out + e.out);
      }
    }
  }

  /** The line numbered `m` is the one that ended a run from line `i` with
      outcome `o`: it lies at or after `i`, the lines from `i` up to it
      completed, and it has outcome `o` on the map they left. */
  ghost predicate FatalAt(lines: seq<seq<string>>, m: int, i: nat, lineNbr: nat, h: Helpers, p: Platform,
                          vars: map<string, string>, out: seq<string>, o: Outcome)
  {
    var k := m - lineNbr - 1;
    && i <= k < |lines|
    && RunFrom(lines[..k], i, lineNbr, h, p, vars, out).outcome.Completed?
    && LineEffect(lines[k], RunFrom(lines[..k], i, lineNbr, h, p, vars, out).vars, h, p, m).outcome == o
  }

  /** A line that completes does not change which later line ends the run. */
  lemma FatalAtStep(lines: seq<seq<string>>, m: int, i: nat, lineNbr: nat, n: nat, h: Helpers, p: Platform,
                    vars: map<string, string>, out: seq<string>,
                    printed: seq<string>, vars': map<string, string>, status: Outcome, o: Outcome)
    requires i < |lines| && n == lineNbr + i + 1
    requires Effect(printed, vars', status) == LineEffect(lines[i], vars, h, p, n) && status.Completed?
    requires FatalAt(lines, m, i + 1, lineNbr, h, p, vars', out + printed, o)
    ensures FatalAt(lines, m, i, lineNbr, h, p, vars, out, o)
  {
    var k := m - lineNbr - 1;
    assert lines[..k][i] == lines[i];
    RunFromStep(lines[..k], i, lineNbr, n, h, p, vars, out, printed, vars', status);
  }

  /** A fatal outcome names the line that caused it: every line before it
      completed, and that line, run on the map they left, is fatal with this
      very diagnostic. */
  lemma {:induction false} FatalLineInRange(lines: seq<seq<string>>, i: nat, lineNbr: nat, h: Helpers, p: Platform,
                                            vars: map<string, string>, out: seq<string>)
    ensures RunFrom(lines, i, lineNbr, h, p, vars, out).outcome.Fatal? ==>
      var r := RunFrom(lines, i, lineNbr, h, p, vars, out);
      FatalAt(lines, r.outcome.line, i, lineNbr, h, p, vars, out, r.outcome)
    decreases |lines| - i
  {
    if i < |lines| {
      var n := lineNbr + i + 1;
      var e := LineEffect(lines[i], vars, h, p, n);
      RunFromStep(lines, i, lineNbr, n, h, p, vars, out, e.out, e.vars, e.outcome);
      if e.outcome.Completed? {
        FatalLineInRange(lines, i + 1, lineNbr, h, p, e.vars, out + e.out);
        var r := RunFrom(lines, i + 1, lineNbr, h, p, e.vars, out + e.out);
        if r.outcome.Fatal? {
          FatalAtStep(lines, r.outcome.line, i, lineNbr, n, h, p, vars, out, e.out, e.vars, e.outcome, r.outcome);
        }
      } else if e.outcome.Fatal? {
        LineDiagnosticNumber(lines[i], vars, h, p, n);
        assert FatalAt(lines, n, i, lineNbr, h, p, vars, out, e.outcome);
      }
    }
  }


  /** In a call with offset `lineNbr`, a fatal diagnostic reports the 1-based
      index of its line plus the offset, and that line is the one that caused
      it: the script up to it completes, and the line is fatal on the map
      that left. */
  lemma DiagnosticLineNumbers(lines: seq<seq<string>>, lineNbr: nat, h: Helpers, p: Platform)
    ensures Run(lines, lineNbr, h, p).outcome.Fatal? ==>
      var r := Run(lines, lineNbr, h, p);
      var m := r.outcome.line;
      && lineNbr < m <= lineNbr + |lines|
      && Run(lines[..m - lineNbr - 1], lineNbr, h, p).outcome.Completed?
      && LineEffect(lines[m - lineNbr - 1], Run(lines[..m - lineNbr - 1], lineNbr, h, p).vars, h, p, m).outcome == r.outcome
  {
    var r := Run(lines, lineNbr, h, p);
    FatalLineInRange(lines, 0, lineNbr, h, p, map[], []);
    if r.outcome.Fatal? {
      var m := r.outcome.line;
      var k := m - lineNbr - 1;
      assert FatalAt(lines, m, 0, lineNbr, h, p, map[], [], r.outcome);
      assert Run(lines[..k], lineNbr, h, p) == RunFrom(lines[..k], 0, lineNbr, h, p, map[], []);
    }
  }
}
