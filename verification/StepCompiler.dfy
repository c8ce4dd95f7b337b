/**
 * `buildTaskCmd` turns the steps of a task into one shell command line. Here: the builder, a reader of
 * AND-OR lists (section 2.9.3 "Lists" of the POSIX.1-2017 Shell Command Language) for command lines made
 * of plain words, the meaning of such lists, and the proof that the line means what the steps mean.
 */
module StepCompiler {
  import opened Prelude
  import opened TaskNames

  /** A step with its script already decoded. */
  datatype Step = Step(script: string, ignoreFailure: bool)

  class CommandBuilder {
    var command: string

    constructor ()
      ensures command == ""
    {
      command := "";
    }

    method Init(text: string)
      modifies this
      ensures command == text
    {
      command := text;
    }

    method With(param: string)
      modifies this
      ensures command == old(command) + " " + param
    {
      command := command + " " + param;
    }

    method Chain(text: string)
      modifies this
      ensures command == old(command) + " && " + text
    {
      command := command + " && " + text;
    }

    method Then(text: string)
      modifies this
      ensures command == old(command) + " ;" + text
    {
      command := command + " ;" + text;
    }

    method Build() returns (text: string)
      ensures text == command
    {
      text := command;
    }
  }

  function Connector(step: Step): string {
    if step.ignoreFailure then " ;" else " && "
  }

  function CommandLine(separator: string, steps: seq<Step>): string {
    if steps == [] then "echo " + separator
    else
      var n := |steps| - 1;
      CommandLine(separator, steps[..n]) + Connector(steps[n]) + steps[n].script
  }

  method BuildTaskCmd(separator: string, steps: seq<Step>) returns (text: string)
    ensures text == CommandLine(separator, steps)
  {
    var builder := new CommandBuilder();
    builder.Init("echo");
    builder.With(separator);
    assert "echo" + " " + separator == "echo " + separator;
    for i := 0 to |steps|
      invariant builder.command == CommandLine(separator, steps[..i])
    {
      if steps[i].ignoreFailure {
        builder.Then(steps[i].script);
      } else {
        builder.Chain(steps[i].script);
      }
      assert steps[..i + 1][..i] == steps[..i];
    }
    assert steps[..|steps|] == steps;
    text := builder.Build();
  }

  // Reading a command line

  datatype Token = Semicolon | AndIf | Plain(c: char) | Unsupported

  /**
   * Outside the plain words are operators, quotes, expansions, comments, negation, grouping, and the control
   * characters that are rewritten on the way to the shell.
   */
  const SPECIAL: set<char> := {'|', ';', '<', '>', '(', ')', '$', '`', '\\', '"', '\'', '#', '!', '{', '}', '*', '?',
                               '[', '~', '=', '%', '&', '\n', '\r', '\t', '\U{8}', '\U{B}', '\U{C}'}

  function Lex(s: string): seq<Token> {
    if s == "" then []
    else if BeginsWithAndIf(s) then [AndIf] + Lex(s[2..])
    else [FirstToken(s[0])] + Lex(s[1..])
  }

  predicate BeginsWithAndIf(s: string) {
    |s| >= 2 && s[0] == '&' && s[1] == '&'
  }

  /** The token of a character that is not the beginning of `&&`. */
  function FirstToken(c: char): Token {
    if c == ';' then Semicolon else if c in SPECIAL then Unsupported else Plain(c)
  }

  /** A command of a list. joined: it follows `&&`; otherwise it is the first of its AND-OR list. */
  datatype Command = Command(text: string, joined: bool)

  function AddChar(commands: seq<Command>, c: char): (r: seq<Command>)
    requires commands != []
    ensures |r| == |commands|
  {
    var last := commands[|commands| - 1];
    commands[..|commands| - 1] + [Command(last.text + [c], last.joined)]
  }

  function Read(tokens: seq<Token>): (commands: seq<Command>)
    ensures commands != []
  {
    if tokens == [] then [Command("", false)]
    else
      var n := |tokens| - 1;
      var commands := Read(tokens[..n]);
      match tokens[n]
      case Semicolon => commands + [Command("", false)]
      case AndIf => commands + [Command("", true)]
      case Plain(c) => AddChar(commands, c)
      case Unsupported => commands
  }

  predicate IsBlank(c: char) {
    c == ' ' || c == '\t'
  }

  function TrimLeft(s: string): string {
    if s != "" && IsBlank(s[0]) then TrimLeft(s[1..]) else s
  }

  function TrimRight(s: string): string {
    if s != "" && IsBlank(s[|s| - 1]) then TrimRight(s[..|s| - 1]) else s
  }

  function Trim(s: string): string {
    TrimLeft(TrimRight(s))
  }

  function TrimAll(commands: seq<Command>): (r: seq<Command>)
    ensures |r| == |commands|
  {
    seq(|commands|, k requires 0 <= k < |commands| => Command(Trim(commands[k].text), commands[k].joined))
  }

  const RESERVED: set<string> := {"case", "do", "done", "elif", "else", "esac", "fi", "for", "function", "if", "in",
                                  "select", "then", "until", "while"}

  /**
   * The special built-in utilities (section 2.14), which may end, replace or reconfigure the shell itself, and
   * `command`, which may call them.
   */
  const SHELL_CONTROL: set<string> := {"break", ":", "continue", ".", "eval", "exec", "exit", "export", "readonly",
                                       "return", "set", "shift", "times", "trap", "unset", "command"}

  function FirstWord(s: string): string {
    if s == "" || IsBlank(s[0]) then "" else [s[0]] + FirstWord(s[1..])
  }

  /** A trimmed command that is not empty, and that begins neither a compound command nor one of shell control. */
  predicate IsSimpleCommand(s: string) {
    s != "" && FirstWord(s) !in RESERVED && FirstWord(s) !in SHELL_CONTROL
  }

  /** The list that a command line denotes, for lines of plain words joined by `&&` and `;`. */
  function Parse(line: string): Option<seq<Command>> {
    var tokens := Lex(line);
    var commands := TrimAll(Read(tokens));
    if Unsupported in tokens then None
    else if exists k :: 0 <= k < |commands| && !IsSimpleCommand(commands[k].text) then None
    else Some(commands)
  }

  // The meaning of a list

  /** The AND-OR lists of a list: a command that is not joined begins a new one. */
  function Grouped(commands: seq<Command>): (groups: seq<seq<Command>>)
    ensures commands != [] ==> groups != []
    ensures forall g :: 0 <= g < |groups| ==> groups[g] != []
  {
    if commands == [] then []
    else
      var n := |commands| - 1;
      var groups := Grouped(commands[..n]);
      if commands[n].joined && groups != []
      then groups[..|groups| - 1] + [groups[|groups| - 1] + [commands[n]]]
      else groups + [[commands[n]]]
  }

  /** ran: which commands were executed, in textual order. succeeded: the exit status is zero. */
  datatype Result = Result(ran: seq<bool>, succeeded: bool)

  /** A command after `&&` is executed if and only if the status so far is zero. */
  function EvalGroup(group: seq<Command>, from: nat, ok: nat -> bool): (r: Result)
    requires group != []
    ensures |r.ran| == |group|
  {
    var n := |group| - 1;
    if n == 0 then Result([true], ok(from))
    else
      var r := EvalGroup(group[..n], from, ok);
      Result(r.ran + [r.succeeded], r.succeeded && ok(from + n))
  }

  function Size(groups: seq<seq<Command>>): nat {
    if groups == [] then 0 else Size(groups[..|groups| - 1]) + |groups[|groups| - 1]|
  }

  /** The AND-OR lists are executed one after the other; the status is that of the last one. */
  function EvalGroups(groups: seq<seq<Command>>, ok: nat -> bool): (r: Result)
    requires groups != [] && forall g :: 0 <= g < |groups| ==> groups[g] != []
    ensures |r.ran| == Size(groups)
  {
    var n := |groups| - 1;
    var last := EvalGroup(groups[n], Size(groups[..n]), ok);
    if n == 0 then last
    else Result(EvalGroups(groups[..n], ok).ran + last.ran, last.succeeded)
  }

  function EvalList(commands: seq<Command>, ok: nat -> bool): Result
    requires commands != []
  {
    EvalGroups(Grouped(commands), ok)
  }

  lemma GroupAppend(groups: seq<seq<Command>>, group: seq<Command>, ok: nat -> bool)
    requires group != [] && forall g :: 0 <= g < |groups| ==> groups[g] != []
    ensures Size(groups + [group]) == Size(groups) + |group|
    ensures EvalGroups(groups + [group], ok) ==
            (var last := EvalGroup(group, Size(groups), ok);
             if groups == [] then last else Result(EvalGroups(groups, ok).ran + last.ran, last.succeeded))
  {
    assert (groups + [group])[..|groups|] == groups;
  }

  lemma GroupGrows(group: seq<Command>, c: Command, from: nat, ok: nat -> bool)
    requires group != []
    ensures var r := EvalGroup(group, from, ok);
            EvalGroup(group + [c], from, ok) == Result(r.ran + [r.succeeded], r.succeeded && ok(from + |group|))
  {
    assert (group + [c])[..|group|] == group;
  }

  lemma EvalJoined(before: seq<seq<Command>>, last: seq<Command>, c: Command, ok: nat -> bool)
    requires last != [] && forall g :: 0 <= g < |before| ==> before[g] != []
    ensures Size(before + [last + [c]]) == Size(before + [last]) + 1
    ensures var r := EvalGroups(before + [last], ok);
            EvalGroups(before + [last + [c]], ok) ==
              Result(r.ran + [r.succeeded], r.succeeded && ok(Size(before + [last])))
  {
    hide EvalGroup, EvalGroups, Size;
    GroupAppend(before, last, ok);
    GroupAppend(before, last + [c], ok);
    GroupGrows(last, c, Size(before), ok);
    if before != [] {
      var l := EvalGroup(last, Size(before), ok);
      var ran := EvalGroups(before, ok).ran;
      assert ran + (l.ran + [l.succeeded]) == (ran + l.ran) + [l.succeeded];
    }
  }

  lemma SizeAppend(groups: seq<seq<Command>>, group: seq<Command>)
    ensures Size(groups + [group]) == Size(groups) + |group|
  {
    assert (groups + [group])[..|groups|] == groups;
  }

  /** Every command is in one of the AND-OR lists. */
  lemma {:induction false} GroupedKeepsAll(commands: seq<Command>)
    ensures Size(Grouped(commands)) == |commands|
  {
    if commands != [] {
      hide Size;
      var n := |commands| - 1;
      var groups, c := Grouped(commands[..n]), commands[n];
      GroupedKeepsAll(commands[..n]);
      SizeAppend(groups, [c]);
      if c.joined && groups != [] {
        var before, last := groups[..|groups| - 1], groups[|groups| - 1];
        assert groups == before + [last];
        SizeAppend(before, last);
        SizeAppend(before, last + [c]);
      }
    }
  }

  /** One more command at the end of a list. */
  lemma EvalAppend(commands: seq<Command>, c: Command, ok: nat -> bool)
    requires commands != []
    ensures var r := EvalList(commands, ok);
            EvalList(commands + [c], ok) ==
              if c.joined then Result(r.ran + [r.succeeded], r.succeeded && ok(|commands|))
              else Result(r.ran + [true], ok(|commands|))
  {
    hide EvalGroups, Size;
    GroupedKeepsAll(commands);
    var groups := Grouped(commands);
    var before, last := groups[..|groups| - 1], groups[|groups| - 1];
    assert (commands + [c])[..|commands|] == commands;
    assert groups == before + [last];
    if c.joined {
      EvalJoined(before, last, c, ok);
    } else {
      GroupAppend(groups, [c], ok);
    }
  }

  // What the steps mean: command 0 is the echo, command i + 1 is step i

  /** The command that begins the stretch in which command `i` depends on its predecessors. */
  function StretchStart(steps: seq<Step>, i: nat): (s: nat)
    requires i <= |steps|
    ensures s <= i
  {
    if i == 0 || steps[i - 1].ignoreFailure then i else StretchStart(steps, i - 1)
  }

  ghost predicate AllOk(ok: nat -> bool, from: nat, to: nat) {
    forall j :: from <= j < to ==> ok(j)
  }

  function Compiled(separator: string, steps: seq<Step>): (commands: seq<Command>)
    ensures |commands| == |steps| + 1
  {
    if steps == [] then [Command("echo " + separator, false)]
    else
      var n := |steps| - 1;
      Compiled(separator, steps[..n]) + [Command(Trim(steps[n].script), !steps[n].ignoreFailure)]
  }

  lemma StretchPrefix(steps: seq<Step>, n: nat, i: nat)
    requires i <= n <= |steps|
    ensures StretchStart(steps[..n], i) == StretchStart(steps, i)
  {
    if i > 0 && !steps[i - 1].ignoreFailure {
      StretchPrefix(steps, n, i - 1);
    }
  }

  lemma SingleCommand(c: Command, ok: nat -> bool)
    ensures EvalList([c], ok) == Result([true], ok(0))
  {
    assert [c][..0] == [] && Grouped([c]) == [[c]];
    GroupAppend([], [c], ok);
    assert [] + [[c]] == [[c]];
  }

  /** The list built from the steps is evaluated stretch by stretch. */
  lemma {:induction false} CompiledMeans(separator: string, steps: seq<Step>, ok: nat -> bool)
    ensures var r := EvalList(Compiled(separator, steps), ok);
            && |r.ran| == |steps| + 1
            && (forall i :: 0 <= i <= |steps| ==> (r.ran[i] <==> AllOk(ok, StretchStart(steps, i), i)))
            && (r.succeeded <==> AllOk(ok, StretchStart(steps, |steps|), |steps| + 1))
  {
    hide EvalList, AllOk;
    var commands := Compiled(separator, steps);
    if steps == [] {
      SingleCommand(commands[0], ok);
      AllOkEmpty(ok, 0);
      AllOkOneMore(ok, 0, 0);
    } else {
      var n := |steps| - 1;
      var b := EvalList(Compiled(separator, steps[..n]), ok);
      CompiledMeans(separator, steps[..n], ok);
      EvalAppend(Compiled(separator, steps[..n]), commands[n + 1], ok);
      forall i | 0 <= i <= n ensures StretchStart(steps[..n], i) == StretchStart(steps, i) {
        StretchPrefix(steps, n, i);
      }
      OneMoreStretch(steps, ok, b, EvalList(commands, ok));
    }
  }

  lemma OneMoreStretch(steps: seq<Step>, ok: nat -> bool, b: Result, r: Result)
    requires steps != [] && |b.ran| == |steps|
    requires var n := |steps| - 1;
             && (forall i :: 0 <= i <= n ==> (b.ran[i] <==> AllOk(ok, StretchStart(steps, i), i)))
             && (b.succeeded <==> AllOk(ok, StretchStart(steps, n), n + 1))
             && r == if steps[n].ignoreFailure then Result(b.ran + [true], ok(n + 1))
                     else Result(b.ran + [b.succeeded], b.succeeded && ok(n + 1))
    ensures forall i :: 0 <= i <= |steps| ==> (r.ran[i] <==> AllOk(ok, StretchStart(steps, i), i))
    ensures r.succeeded <==> AllOk(ok, StretchStart(steps, |steps|), |steps| + 1)
  {
    hide AllOk, StretchStart;
    var n := |steps| - 1;
    StretchLast(steps);
    AllOkEmpty(ok, n + 1);
    AllOkOneMore(ok, StretchStart(steps, n + 1), n + 1);
    forall i | 0 <= i <= |steps| ensures r.ran[i] <==> AllOk(ok, StretchStart(steps, i), i) {
      if i <= n {
        assert r.ran[i] == b.ran[i];
      }
    }
  }

  lemma StretchLast(steps: seq<Step>)
    requires steps != []
    ensures var n := |steps| - 1;
            StretchStart(steps, n + 1) == if steps[n].ignoreFailure then n + 1 else StretchStart(steps, n)
  {
  }

  lemma AllOkEmpty(ok: nat -> bool, at: nat)
    ensures AllOk(ok, at, at)
  {
  }

  lemma AllOkOneMore(ok: nat -> bool, from: nat, to: nat)
    requires from <= to
    ensures AllOk(ok, from, to + 1) <==> AllOk(ok, from, to) && ok(to)
  {
  }

  // The line is read as the list built from the steps

  predicate Plainly(s: string) {
    forall i :: 0 <= i < |s| ==> s[i] !in SPECIAL
  }

  /** Plain characters, not all of them blank. */
  predicate PlainText(script: string) {
    Plainly(script) && Trim(script) != ""
  }

  /** What "operator-free" asks of a script or a separator: plain characters that form a simple command. */
  predicate OperatorFree(script: string) {
    Plainly(script) && IsSimpleCommand(Trim(script))
  }

  function PlainTokens(s: string): seq<Token> {
    seq(|s|, i requires 0 <= i < |s| => Plain(s[i]))
  }

  lemma {:induction false} LexPlain(s: string)
    requires Plainly(s)
    ensures Lex(s) == PlainTokens(s)
  {
    if s != "" {
      LexPlain(s[1..]);
      assert s[0] !in SPECIAL;
      assert PlainTokens(s) == [Plain(s[0])] + PlainTokens(s[1..]);
    }
  }

  /** The first token of a text stays the first one when text is appended. */
  lemma LexFirst(a: string, b: string)
    requires a != "" && a[|a| - 1] != '&'
    ensures Lex(a) == if BeginsWithAndIf(a) then [AndIf] + Lex(a[2..]) else [FirstToken(a[0])] + Lex(a[1..])
    ensures Lex(a + b) == if BeginsWithAndIf(a) then [AndIf] + Lex(a[2..] + b) else [FirstToken(a[0])] + Lex(a[1..] + b)
  {
    var ab := a + b;
    assert ab[1..] == a[1..] + b;
    if |a| >= 2 {
      assert ab[2..] == a[2..] + b;
    }
    assert BeginsWithAndIf(ab) == BeginsWithAndIf(a);
  }

  lemma LastOfRest(a: string, k: nat)
    requires a != "" && a[|a| - 1] != '&' && k <= |a|
    ensures a[k..] == "" || a[k..][|a[k..]| - 1] != '&'
  {
  }

  lemma PrependAppend(x: seq<Token>, y: seq<Token>, z: seq<Token>)
    ensures x + (y + z) == (x + y) + z
  {
  }

  lemma {:induction false} LexAppend(a: string, b: string)
    requires a == "" || a[|a| - 1] != '&'
    ensures Lex(a + b) == Lex(a) + Lex(b)
    decreases |a|
  {
    if a == "" {
      assert a + b == b;
    } else {
      hide Lex, FirstToken;
      LexFirst(a, b);
      var k := if BeginsWithAndIf(a) then 2 else 1;
      LastOfRest(a, k);
      LexAppend(a[k..], b);
      PrependAppend(if BeginsWithAndIf(a) then [AndIf] else [FirstToken(a[0])], Lex(a[k..]), Lex(b));
    }
  }

  lemma LexConnector(step: Step)
    ensures Lex(Connector(step)) ==
            (if step.ignoreFailure then [Plain(' '), Semicolon] else [Plain(' '), AndIf, Plain(' ')])
  {
    assert " ;"[1..] == ";" && ";"[1..] == "";
    assert " && "[1..] == "&& " && "&& "[2..] == " " && " "[1..] == "";
    assert Lex(" ") == [Plain(' ')];
    assert Lex("&& ") == [AndIf] + Lex(" ");
    assert Lex(";") == [Semicolon];
  }

  lemma LexStep(line: string, step: Step)
    requires line != "" && line[|line| - 1] != '&' && Plainly(step.script)
    ensures Lex(line + Connector(step) + step.script) == Lex(line) + Lex(Connector(step)) + PlainTokens(step.script)
  {
    var c := Connector(step);
    assert c[|c| - 1] != '&';
    LexAppend(line, c);
    LexAppend(line + c, step.script);
    LexPlain(step.script);
  }

  function AddText(commands: seq<Command>, s: string): (r: seq<Command>)
    requires commands != []
    ensures |r| == |commands|
  {
    var last := commands[|commands| - 1];
    commands[..|commands| - 1] + [Command(last.text + s, last.joined)]
  }

  lemma AddNothing(commands: seq<Command>)
    requires commands != []
    ensures AddText(commands, "") == commands
  {
    assert commands[|commands| - 1].text + "" == commands[|commands| - 1].text;
  }

  lemma AddMore(commands: seq<Command>, s: string, c: char)
    requires commands != []
    ensures AddChar(AddText(commands, s), c) == AddText(commands, s + [c])
  {
    var n := |commands| - 1;
    assert (commands[n].text + s) + [c] == commands[n].text + (s + [c]);
    assert AddText(commands, s)[..n] == commands[..n];
  }

  lemma PlainTokensFirst(c: char, s: string)
    ensures PlainTokens([c] + s) == [Plain(c)] + PlainTokens(s)
  {
  }

  lemma NoPlainTokens()
    ensures PlainTokens("") == []
  {
  }

  lemma PlainTokensLast(tokens: seq<Token>, s: string)
    requires s != ""
    ensures tokens + PlainTokens(s) == tokens + PlainTokens(s[..|s| - 1]) + [Plain(s[|s| - 1])]
  {
  }

  lemma ReadLast(tokens: seq<Token>, c: char)
    ensures Read(tokens + [Plain(c)]) == AddChar(Read(tokens), c)
  {
    assert (tokens + [Plain(c)])[..|tokens|] == tokens;
  }

  lemma {:induction false} ReadPlain(tokens: seq<Token>, s: string)
    ensures Read(tokens + PlainTokens(s)) == AddText(Read(tokens), s)
    decreases |s|
  {
    hide Read, AddChar, AddText, PlainTokens;
    var all := tokens + PlainTokens(s);
    if s == "" {
      NoPlainTokens();
      assert all == tokens;
      AddNothing(Read(tokens));
    } else {
      var n := |s| - 1;
      var front := tokens + PlainTokens(s[..n]);
      ReadPlain(tokens, s[..n]);
      PlainTokensLast(tokens, s);
      ReadLast(front, s[n]);
      AddMore(Read(tokens), s[..n], s[n]);
      assert s == s[..n] + [s[n]];
    }
  }

  lemma ReadOne(tokens: seq<Token>, token: Token)
    ensures (tokens + [token])[..|tokens|] == tokens && (tokens + [token])[|tokens|] == token
  {
  }

  /** Reading one more step: a blank more on the command before, and a new command. */
  lemma ReadStep(tokens: seq<Token>, step: Step)
    ensures Read(tokens + Lex(Connector(step)) + PlainTokens(step.script)) ==
            AddText(Read(tokens), " ") +
            [Command((if step.ignoreFailure then "" else " ") + step.script, !step.ignoreFailure)]
  {
    hide PlainTokens, Lex;
    var joint := if step.ignoreFailure then Semicolon else AndIf;
    var t1 := tokens + [Plain(' ')];
    var t2 := t1 + [joint];
    var c2 := AddText(Read(tokens), " ") + [Command("", !step.ignoreFailure)];
    LexConnector(step);
    ReadOne(tokens, Plain(' '));
    ReadOne(t1, joint);
    assert Read(t2) == c2;
    if step.ignoreFailure {
      assert tokens + Lex(Connector(step)) == t2;
      ReadPlain(t2, step.script);
      assert "" + step.script == step.script;
    } else {
      var padded := " " + step.script;
      PlainTokensFirst(' ', step.script);
      assert tokens + Lex(Connector(step)) + PlainTokens(step.script) == t2 + PlainTokens(padded);
      ReadPlain(t2, padded);
      assert "" + padded == padded;
    }
  }

  lemma TrimTrailing(s: string)
    ensures Trim(s + " ") == Trim(s)
  {
    assert (s + " ")[..|s|] == s;
  }

  lemma {:induction false} TrimRightKeepsHead(s: string)
    requires TrimRight(s) != ""
    ensures TrimRight(" " + s) == " " + TrimRight(s)
  {
    if s != "" && IsBlank(s[|s| - 1]) {
      TrimRightKeepsHead(s[..|s| - 1]);
      assert (" " + s)[..|s|] == " " + s[..|s| - 1];
    }
  }

  lemma TrimLeading(s: string)
    requires Trim(s) != ""
    ensures Trim(" " + s) == Trim(s)
  {
    TrimRightKeepsHead(s);
    assert (" " + TrimRight(s))[1..] == TrimRight(s);
  }

  lemma PlainEnd(s: string)
    requires Plainly(s) && s != ""
    ensures s[|s| - 1] != '&'
  {
  }

  lemma {:induction false} LineEnd(separator: string, steps: seq<Step>)
    requires PlainText(separator) && forall i :: 0 <= i < |steps| ==> PlainText(steps[i].script)
    ensures var line := CommandLine(separator, steps); line != "" && line[|line| - 1] != '&'
  {
    if steps == [] {
      PlainEnd(separator);
    } else {
      PlainEnd(steps[|steps| - 1].script);
    }
  }

  lemma TrimEcho(separator: string)
    requires PlainText(separator) && Trim(separator) == separator
    ensures Trim("echo " + separator) == "echo " + separator
  {
    var s := "echo " + separator;
    assert s[|s| - 1] == separator[|separator| - 1];
    TrimmedEnd(separator);
    assert TrimRight(s) == s;
    assert s[0] == 'e';
  }

  lemma {:induction false} TrimLeftShorter(s: string)
    ensures |TrimLeft(s)| <= |s|
  {
    if s != "" && IsBlank(s[0]) {
      TrimLeftShorter(s[1..]);
    }
  }

  lemma {:induction false} TrimRightShorter(s: string)
    ensures |TrimRight(s)| <= |s|
  {
    if s != "" && IsBlank(s[|s| - 1]) {
      TrimRightShorter(s[..|s| - 1]);
    }
  }

  lemma TrimmedEnd(s: string)
    requires s != "" && Trim(s) == s
    ensures !IsBlank(s[|s| - 1])
  {
    if IsBlank(s[|s| - 1]) {
      TrimRightShorter(s[..|s| - 1]);
      TrimLeftShorter(TrimRight(s));
    }
  }

  lemma LexIsSupported(line: string, step: Step)
    requires line != "" && line[|line| - 1] != '&' && Plainly(step.script) && Unsupported !in Lex(line)
    ensures Unsupported !in Lex(line + Connector(step) + step.script)
  {
    hide Lex, Plainly;
    LexStep(line, step);
    LexConnector(step);
  }

  lemma TrimBefore(s: string)
    requires Trim(s) != ""
    ensures Trim("" + s) == Trim(s) && Trim(" " + s) == Trim(s)
  {
    assert "" + s == s;
    TrimLeading(s);
  }

  lemma TrimStep(commands: seq<Command>, step: Step)
    requires commands != [] && Trim(step.script) != ""
    ensures TrimAll(AddText(commands, " ") +
                    [Command((if step.ignoreFailure then "" else " ") + step.script, !step.ignoreFailure)]) ==
            TrimAll(commands) + [Command(Trim(step.script), !step.ignoreFailure)]
  {
    hide Trim;
    var n := |commands| - 1;
    TrimTrailing(commands[n].text);
    TrimBefore(step.script);
    var text := if step.ignoreFailure then "" else " ";
    assert Trim(text + step.script) == Trim(step.script);
    var longer := AddText(commands, " ") + [Command(text + step.script, !step.ignoreFailure)];
    assert forall k :: 0 <= k < n ==> longer[k] == commands[k];
    assert longer[n].text == commands[n].text + " ";
  }

  lemma EchoReads(separator: string)
    requires PlainText(separator) && Trim(separator) == separator
    ensures TrimAll(Read(Lex("echo " + separator))) == [Command("echo " + separator, false)]
    ensures Unsupported !in Lex("echo " + separator)
  {
    hide Trim, Lex, IsSimpleCommand;
    var s := "echo " + separator;
    assert Plainly(s);
    LexPlain(s);
    ReadPlain([], s);
    assert [] + PlainTokens(s) == PlainTokens(s);
    assert "" + s == s;
    assert Read(PlainTokens(s)) == [Command(s, false)];
    TrimEcho(separator);
  }

  lemma OperatorFreeText(s: string)
    requires OperatorFree(s)
    ensures s != "" && PlainText(s)
  {
  }

  lemma AllPlainText(steps: seq<Step>)
    requires forall i :: 0 <= i < |steps| ==> OperatorFree(steps[i].script)
    ensures forall i :: 0 <= i < |steps| ==> PlainText(steps[i].script)
  {
    forall i | 0 <= i < |steps| ensures PlainText(steps[i].script) {
      OperatorFreeText(steps[i].script);
    }
  }

  /** Trimmed, the list read from the line is the list built from the steps. */
  lemma {:induction false} LineReadsAsCompiled(separator: string, steps: seq<Step>)
    requires PlainText(separator) && Trim(separator) == separator
    requires forall i :: 0 <= i < |steps| ==> PlainText(steps[i].script)
    ensures TrimAll(Read(Lex(CommandLine(separator, steps)))) == Compiled(separator, steps)
    ensures Unsupported !in Lex(CommandLine(separator, steps))
  {
    if steps == [] {
      EchoReads(separator);
    } else {
      var n := |steps| - 1;
      var line, step := CommandLine(separator, steps[..n]), steps[n];
      LineReadsAsCompiled(separator, steps[..n]);
      LineEnd(separator, steps[..n]);
      LexStep(line, step);
      LexIsSupported(line, step);
      ReadStep(Lex(line), step);
      TrimStep(Read(Lex(line)), step);
    }
  }

  lemma {:induction false} CompiledAreSimple(separator: string, steps: seq<Step>)
    requires forall i :: 0 <= i < |steps| ==> OperatorFree(steps[i].script)
    ensures forall k :: 0 <= k <= |steps| ==> IsSimpleCommand(Compiled(separator, steps)[k].text)
  {
    if steps == [] {
      EchoIsSimple(separator);
    } else {
      CompiledAreSimple(separator, steps[..|steps| - 1]);
    }
  }

  lemma EchoIsSimple(separator: string)
    ensures IsSimpleCommand("echo " + separator)
  {
    var s := "echo " + separator;
    assert s[4..][0] == ' ';
    assert FirstWord(s[4..]) == "";
    assert s[3..][1..] == s[4..] && FirstWord(s[3..]) == "o";
    assert s[2..][1..] == s[3..] && FirstWord(s[2..]) == "ho";
    assert s[1..][1..] == s[2..] && FirstWord(s[1..]) == "cho";
    assert FirstWord(s) == "echo";
  }

  /** The identifier that names the image and separates the output is operator-free. */
  lemma {:induction false} IdentifierIsPlain(taskId: nat)
    ensures OperatorFree(BuildTaskIdentifier(taskId))
    ensures Trim(BuildTaskIdentifier(taskId)) == BuildTaskIdentifier(taskId)
  {
    var s, digits := BuildTaskIdentifier(taskId), Decimal(taskId);
    hide Decimal;
    assert s[0] == 'p' && s[|s| - 1] == digits[|digits| - 1];
    PlainPrefix(digits);
    FirstLetter(s);
  }

  lemma PlainPrefix(digits: string)
    requires forall i :: 0 <= i < |digits| ==> '0' <= digits[i] <= '9'
    ensures Plainly("prescott_" + digits)
  {
  }

  lemma FirstLetter(s: string)
    requires s != "" && s[0] == 'p'
    ensures FirstWord(s) !in RESERVED && FirstWord(s) !in SHELL_CONTROL
  {
    assert FirstWord(s)[0] == 'p';
  }

  /**
   * Compiler correctness: for every assignment of outcomes, step i runs if and only if all steps of its
   * stretch before it succeeded, and the line succeeds if and only if all steps of the last stretch do.
   */
  lemma {:induction false} CommandLineMeansSteps(taskId: nat, steps: seq<Step>, ok: nat -> bool)
    requires forall i :: 0 <= i < |steps| ==> OperatorFree(steps[i].script)
    ensures var parsed := Parse(CommandLine(BuildTaskIdentifier(taskId), steps));
            && parsed.Some?
            && parsed.value == Compiled(BuildTaskIdentifier(taskId), steps)
            && var r := EvalList(parsed.value, ok);
               && |r.ran| == |steps| + 1
               && (forall i :: 0 <= i <= |steps| ==> (r.ran[i] <==> AllOk(ok, StretchStart(steps, i), i)))
               && (r.succeeded <==> AllOk(ok, StretchStart(steps, |steps|), |steps| + 1))
  {
    hide OperatorFree, PlainText, Lex, Read, TrimAll, EvalList, IsSimpleCommand, AllOk, StretchStart, CommandLine;
    var separator := BuildTaskIdentifier(taskId);
    IdentifierIsPlain(taskId);
    OperatorFreeText(separator);
    AllPlainText(steps);
    LineReadsAsCompiled(separator, steps);
    CompiledAreSimple(separator, steps);
    CompiledMeans(separator, steps, ok);
  }

  // Where the restriction to operator-free scripts is needed

  lemma ReadSemicolon(tokens: seq<Token>, s: string)
    ensures Read(tokens + [Semicolon] + PlainTokens(s)) == Read(tokens) + [Command(s, false)]
  {
    ReadOne(tokens, Semicolon);
    ReadPlain(tokens + [Semicolon], s);
    assert "" + s == s;
    assert Read(tokens + [Semicolon]) == Read(tokens) + [Command("", false)];
  }

  lemma LexOneSemicolon()
    ensures Lex(";") == [Semicolon]
  {
    assert ";"[1..] == "";
  }

  lemma EndOf(front: string, s: string)
    requires s != ""
    ensures front + s != "" && (front + s)[|front + s| - 1] == s[|s| - 1]
  {
  }

  lemma LexSemicolon(front: string, a: string, b: string)
    requires front == "" || front[|front| - 1] != '&'
    requires Plainly(a) && a != "" && Plainly(b)
    ensures Lex(front + a + ";" + b) == Lex(front) + PlainTokens(a) + [Semicolon] + PlainTokens(b)
  {
    hide *;
    EndOf(front, a);
    EndOf(front + a, ";");
    PlainEnd(a);
    LexPlain(a);
    LexPlain(b);
    LexOneSemicolon();
    LexAppend(front, a);
    LexAppend(front + a, ";");
    LexAppend(front + a + ";", b);
  }

  lemma LexTwo(line: string, a: string, b: string)
    requires line != "" && line[|line| - 1] != '&' && Plainly(a) && a != "" && Plainly(b)
    ensures Lex(line + " && " + (a + ";" + b)) ==
            Lex(line) + Lex(" && ") + PlainTokens(a) + [Semicolon] + PlainTokens(b)
  {
    hide Plainly, PlainTokens, Lex;
    var front := line + " && ";
    LexAppend(line, " && ");
    LexSemicolon(front, a, b);
    assert front + (a + ";" + b) == front + a + ";" + b;
  }

  lemma TrimAppend(commands: seq<Command>, c: Command)
    ensures TrimAll(commands + [c]) == TrimAll(commands) + [Command(Trim(c.text), c.joined)]
  {
  }

  /** The two commands that are read from one more step with script `a;b`. */
  lemma ReadTwo(tokens: seq<Token>, a: string, b: string)
    requires Trim(a) != ""
    ensures TrimAll(Read(tokens + Lex(" && ") + PlainTokens(a) + [Semicolon] + PlainTokens(b))) ==
            TrimAll(Read(tokens)) + [Command(Trim(a), true)] + [Command(Trim(b), false)]
  {
    hide Trim, Lex, Read, AddText, PlainTokens, TrimAll;
    var step := Step(a, false);
    var whole := tokens + Lex(" && ") + PlainTokens(a);
    assert Connector(step) == " && ";
    ReadStep(tokens, step);
    TrimStep(Read(tokens), step);
    ReadSemicolon(whole, b);
    TrimAppend(Read(whole), Command(b, false));
  }

  lemma LineOfOneMore(separator: string, steps: seq<Step>, script: string)
    ensures CommandLine(separator, steps + [Step(script, false)]) == CommandLine(separator, steps) + " && " + script
  {
    assert (steps + [Step(script, false)])[..|steps|] == steps;
  }

  lemma {:induction false} EscapeReads(separator: string, steps: seq<Step>, a: string, b: string)
    requires OperatorFree(separator) && Trim(separator) == separator
    requires forall i :: 0 <= i < |steps| ==> OperatorFree(steps[i].script)
    requires OperatorFree(a) && OperatorFree(b)
    ensures var line := CommandLine(separator, steps + [Step(a + ";" + b, false)]);
            && TrimAll(Read(Lex(line))) ==
                 Compiled(separator, steps) + [Command(Trim(a), true)] + [Command(Trim(b), false)]
            && Unsupported !in Lex(line)
  {
    hide Trim, Read, TrimAll, Lex, OperatorFree, Plainly, CommandLine;
    var line, all := CommandLine(separator, steps), steps + [Step(a + ";" + b, false)];
    LineOfOneMore(separator, steps, a + ";" + b);
    OperatorFreeText(separator);
    AllPlainText(steps);
    LineEnd(separator, steps);
    LineReadsAsCompiled(separator, steps);
    OperatorFreeText(a);
    OperatorFreeText(b);
    LexTwo(line, a, b);
    LexConnector(Step(a, false));
    ReadTwo(Lex(line), a, b);
  }

  /**
   * A script with a `;` inside is not one step: it is read as two commands, and the second one runs
   * whatever became of the steps before it, although the step asks not to ignore failures.
   */
  lemma {:induction false} SemicolonEscapes(taskId: nat, steps: seq<Step>, a: string, b: string, ok: nat -> bool)
    requires forall i :: 0 <= i < |steps| ==> OperatorFree(steps[i].script)
    requires OperatorFree(a) && OperatorFree(b)
    ensures var parsed := Parse(CommandLine(BuildTaskIdentifier(taskId), steps + [Step(a + ";" + b, false)]));
            && parsed == Some(Compiled(BuildTaskIdentifier(taskId), steps) +
                              [Command(Trim(a), true)] + [Command(Trim(b), false)])
            && (var r := EvalList(parsed.value, ok);
                |r.ran| == |steps| + 3 && r.ran[|steps| + 2] && r.succeeded == ok(|steps| + 2))
  {
    hide Trim, Read, TrimAll, Lex, EvalList, OperatorFree, CommandLine;
    var separator := BuildTaskIdentifier(taskId);
    var compiled, c, d := Compiled(separator, steps), Command(Trim(a), true), Command(Trim(b), false);
    IdentifierIsPlain(taskId);
    EscapeReads(separator, steps, a, b);
    CompiledAreSimple(separator, steps);
    OperatorFreeIsSimple(a);
    OperatorFreeIsSimple(b);
    CompiledMeans(separator, steps, ok);
    EvalAppend(compiled, c, ok);
    EvalAppend(compiled + [c], d, ok);
  }

  lemma OperatorFreeIsSimple(s: string)
    requires OperatorFree(s)
    ensures IsSimpleCommand(Trim(s))
  {
  }

  // Where the exclusion of shell control is needed

  /** over: the shell has exited. */
  datatype Course = Course(ran: seq<bool>, succeeded: bool, over: bool)

  predicate IsExit(text: string) {
    FirstWord(text) == "exit"
  }

  /** The evaluation of a list in which `exit` may occur: nothing runs after one that has run. */
  function EvalWithExit(commands: seq<Command>, ok: nat -> bool): (r: Course)
    ensures |r.ran| == |commands|
  {
    if commands == [] then Course([], true, false)
    else
      var n := |commands| - 1;
      var r := EvalWithExit(commands[..n], ok);
      var runs := !r.over && (n == 0 || !commands[n].joined || r.succeeded);
      Course(r.ran + [runs], if runs then ok(n) else r.succeeded, r.over || (runs && IsExit(commands[n].text)))
  }

  lemma ExitAppend(commands: seq<Command>, c: Command, ok: nat -> bool)
    requires commands != []
    ensures var r := EvalWithExit(commands, ok);
            var runs := !r.over && (!c.joined || r.succeeded);
            EvalWithExit(commands + [c], ok) ==
              Course(r.ran + [runs], if runs then ok(|commands|) else r.succeeded, r.over || (runs && IsExit(c.text)))
  {
    assert (commands + [c])[..|commands|] == commands;
  }

  lemma SingleWithExit(c: Command, ok: nat -> bool)
    ensures EvalWithExit([c], ok) == Course([true], ok(0), IsExit(c.text))
  {
    assert [c][..0] == [];
  }

  /** On lists without `exit` the two evaluations agree. */
  lemma {:induction false} NoExitAgrees(commands: seq<Command>, ok: nat -> bool)
    requires commands != [] && forall k :: 0 <= k < |commands| ==> !IsExit(commands[k].text)
    ensures EvalWithExit(commands, ok) == Course(EvalList(commands, ok).ran, EvalList(commands, ok).succeeded, false)
  {
    var n := |commands| - 1;
    var front, c := commands[..n], commands[n];
    assert commands == front + [c];
    hide IsExit, EvalList, EvalWithExit;
    if n == 0 {
      assert commands == [c];
      SingleCommand(c, ok);
      SingleWithExit(c, ok);
    } else {
      NoExitAgrees(front, ok);
      EvalAppend(front, c, ok);
      ExitAppend(front, c, ok);
    }
  }

  lemma CompiledOneMore(separator: string, steps: seq<Step>, step: Step)
    ensures Compiled(separator, steps + [step]) ==
            Compiled(separator, steps) + [Command(Trim(step.script), !step.ignoreFailure)]
  {
    assert (steps + [step])[..|steps|] == steps;
  }

  lemma OperatorFreeIsNoExit(separator: string, steps: seq<Step>)
    requires forall i :: 0 <= i < |steps| ==> OperatorFree(steps[i].script)
    ensures forall k :: 0 <= k <= |steps| ==> !IsExit(Compiled(separator, steps)[k].text)
  {
    hide Compiled, FirstWord;
    CompiledAreSimple(separator, steps);
  }

  /** The stretch of a step that does not ignore failures goes on from the step before. */
  lemma StretchGoesOn(steps: seq<Step>, step: Step)
    requires !step.ignoreFailure
    ensures StretchStart(steps + [step], |steps| + 1) == StretchStart(steps, |steps|)
  {
    var more := steps + [step];
    assert more[..|steps|] == steps;
    StretchPrefix(more, |steps|, |steps|);
  }

  /**
   * A step that calls `exit` is not one command among others: the step after it, which asks to ignore failures,
   * runs if and only if the `exit` is not reached, and the status is that of the one of the two that runs last.
   */
  lemma {:induction false} ExitEscapes(taskId: nat, steps: seq<Step>, x: string, b: string, ok: nat -> bool)
    requires forall i :: 0 <= i < |steps| ==> OperatorFree(steps[i].script)
    requires PlainText(x) && IsExit(Trim(x)) && OperatorFree(b)
    ensures var n, separator := |steps|, BuildTaskIdentifier(taskId);
            var all := steps + [Step(x, false)] + [Step(b, true)];
            var line := CommandLine(separator, all);
            var r := EvalWithExit(Compiled(separator, all), ok);
            var reached := AllOk(ok, StretchStart(steps + [Step(x, false)], n + 1), n + 1);
            && TrimAll(Read(Lex(line))) == Compiled(separator, all) && Unsupported !in Lex(line)
            && |r.ran| == n + 3
            && (r.ran[n + 1] <==> reached)
            && (r.ran[n + 2] <==> !reached)
            && r.succeeded == ok(if reached then n + 1 else n + 2)
  {
    var n, separator := |steps|, BuildTaskIdentifier(taskId);
    var e, f := Step(x, false), Step(b, true);
    var all := steps + [e] + [f];
    ExitLineReads(taskId, steps, x, b);
    hide PlainText, OperatorFree, Lex, Read, TrimAll, EvalWithExit, EvalList, Compiled, CommandLine, AllOk,
         StretchStart, IsExit;
    var c, d := Command(Trim(x), true), Command(Trim(b), false);
    var compiled := Compiled(separator, steps);
    CompiledOneMore(separator, steps, e);
    CompiledOneMore(separator, steps + [e], f);
    OperatorFreeIsNoExit(separator, steps);
    NoExitAgrees(compiled, ok);
    CompiledMeans(separator, steps, ok);
    ExitAppend(compiled, c, ok);
    ExitAppend(compiled + [c], d, ok);
    StretchGoesOn(steps, e);
  }

  lemma ExitLineReads(taskId: nat, steps: seq<Step>, x: string, b: string)
    requires forall i :: 0 <= i < |steps| ==> OperatorFree(steps[i].script)
    requires PlainText(x) && OperatorFree(b)
    ensures var separator, all := BuildTaskIdentifier(taskId), steps + [Step(x, false)] + [Step(b, true)];
            TrimAll(Read(Lex(CommandLine(separator, all)))) == Compiled(separator, all) &&
            Unsupported !in Lex(CommandLine(separator, all))
  {
    var separator, all := BuildTaskIdentifier(taskId), steps + [Step(x, false)] + [Step(b, true)];
    hide PlainText, OperatorFree, Lex, Read, TrimAll, Compiled, CommandLine;
    AllPlainText(steps);
    OperatorFreeText(b);
    forall i | 0 <= i < |all| ensures PlainText(all[i].script) {
      assert i < |steps| ==> all[i] == steps[i];
    }
    IdentifierIsPlain(taskId);
    OperatorFreeText(separator);
    LineReadsAsCompiled(separator, all);
  }
}
