/**
 * The command line sent to a remote shell (`shellQuote`, `_buildExecCommand`), read back by the quoting rules of
 * section 2.2 of the Shell Command Language of POSIX.1-2017.
 */
module ShellCommand {
  import opened Wrappers

  // ---------- Building the command ----------

  predicate IsAlpha(c: char) {
    'A' <= c <= 'Z' || 'a' <= c <= 'z'
  }

  predicate IsDigit(c: char) {
    '0' <= c <= '9'
  }

  predicate IsSafe(c: char) {
    IsAlpha(c) || IsDigit(c) || c in "_./:=@%^,+-"
  }

  /** `replaceAll("'", "'\"'\"'")`. */
  function Escape(s: string): string {
    if s == "" then "" else (if s[0] == '\'' then "'\"'\"'" else [s[0]]) + Escape(s[1..])
  }

  function ShellQuote(arg: string): string {
    if arg == "" then "''"
    else if forall c :: c in arg ==> IsSafe(c) then arg
    else "'" + Escape(arg) + "'"
  }

  predicate IsName(key: string) {
    && key != "" && (IsAlpha(key[0]) || key[0] == '_')
    && forall c :: c in key ==> IsAlpha(c) || IsDigit(c) || c == '_'
  }

  type Assignment = (string, string)

  function Assign(a: Assignment): string {
    a.0 + "=" + ShellQuote(a.1)
  }

  function Join(words: seq<string>): string {
    if words == [] then ""
    else if |words| == 1 then words[0]
    else words[0] + " " + Join(words[1..])
  }

  function Quoted(args: seq<string>): seq<string> {
    seq(|args|, i requires 0 <= i < |args| => ShellQuote(args[i]))
  }

  function Assigned(env: seq<Assignment>): seq<string> {
    seq(|env|, i requires 0 <= i < |env| => Assign(env[i]))
  }

  function WithAssignments(assignments: seq<string>, command: string): string {
    if assignments == [] then command else Join(assignments) + " " + command
  }

  function InDirectory(cwd: string, command: string): string {
    if cwd == "" then command else "cd " + ShellQuote(cwd) + " && " + command
  }

  function ExecCommand(args: seq<string>, cwd: string, env: seq<Assignment>): string {
    InDirectory(cwd, WithAssignments(Assigned(env), Join(Quoted(args))))
  }

  predicate ValidNames(env: seq<Assignment>) {
    forall i :: 0 <= i < |env| ==> IsName(env[i].0)
  }

  /** The command, or the name of the first environment variable that is not a POSIX name. */
  method BuildExecCommand(args: seq<string>, cwd: string, env: seq<Assignment>) returns (r: Result<string, string>)
    ensures r.Ok? <==> ValidNames(env)
    ensures r.Ok? ==> r.value == ExecCommand(args, cwd, env)
    ensures r.Err? ==> exists i :: 0 <= i < |env| && r.error == env[i].0 && !IsName(env[i].0) && ValidNames(env[..i])
  {
    var assignments := [];
    for i := 0 to |env|
      invariant assignments == Assigned(env[..i]) && ValidNames(env[..i])
    {
      if !IsName(env[i].0) { return Err(env[i].0); }
      AssignedSnoc(env, i);
      assignments := assignments + [Assign(env[i])];
    }
    assert env[..|env|] == env;
    return Ok(InDirectory(cwd, WithAssignments(assignments, Join(Quoted(args)))));
  }

  lemma AssignedSnoc(env: seq<Assignment>, i: nat)
    requires i < |env|
    ensures Assigned(env[..i + 1]) == Assigned(env[..i]) + [Assign(env[i])]
    ensures ValidNames(env[..i]) && IsName(env[i].0) ==> ValidNames(env[..i + 1])
  {
  }

  /** A variable's name in ASCII: letters and underscores, and digits after the first character. */
  lemma NamesInAscii(key: string)
    ensures IsName(key) <==>
              key != "" && forall i :: 0 <= i < |key| ==>
                var n := key[i] as int;
                65 <= n <= 90 || 97 <= n <= 122 || n == 95 || (i > 0 && 48 <= n <= 57)
  {
    if IsName(key) {
      assert forall i :: 0 <= i < |key| ==> key[i] in key;
    }
  }

  // ---------- Reading it back ----------

  datatype Token = Word(text: string) | AndIf

  datatype Mode = Plain | Single | Double

  /** The word read so far, if one has begun, as a token. */
  function Pending(word: Option<string>): seq<Token> {
    if word.Some? then [Word(word.value)] else []
  }

  function Before(tokens: seq<Token>, rest: Option<seq<Token>>): Option<seq<Token>> {
    if rest.Some? then Some(tokens + rest.value) else None
  }

  /**
   * Splitting into words and `&&`, with the quotes removed. It gives up on unterminated quotes and on anything
   * that is not quoting: other operators, expansions, comments, patterns.
   */
  function Lex(s: string, word: Option<string>, mode: Mode): Option<seq<Token>>
    decreases |s|
  {
    match mode
    case Single =>
      if s == "" then None
      else if s[0] == '\'' then Lex(s[1..], word, Plain)
      else Lex(s[1..], Some(word.GetOr("") + [s[0]]), Single)
    case Double =>
      if s == "" || s[0] in "$`" then None
      else if s[0] == '"' then Lex(s[1..], word, Plain)
      else if s[0] == '\\' && |s| > 1 && s[1] == '\n' then Lex(s[2..], word, Double)
      else if s[0] == '\\' && |s| > 1 && s[1] in "$`\"\\" then Lex(s[2..], Some(word.GetOr("") + [s[1]]), Double)
      else Lex(s[1..], Some(word.GetOr("") + [s[0]]), Double)
    case Plain =>
      if s == "" then Some(Pending(word))
      else if s[0] in " \t" then Before(Pending(word), Lex(s[1..], None, Plain))
      else if s[0] == '\'' then Lex(s[1..], Some(word.GetOr("")), Single)
      else if s[0] == '"' then Lex(s[1..], Some(word.GetOr("")), Double)
      else if s[0] == '\\' then
        if |s| == 1 then None
        else if s[1] == '\n' then Lex(s[2..], word, Plain)
        else Lex(s[2..], Some(word.GetOr("") + [s[1]]), Plain)
      else if s[0] == '&' then
        if |s| > 1 && s[1] == '&' then Before(Pending(word) + [AndIf], Lex(s[2..], None, Plain)) else None
      else if s[0] in "|;<>()$`\n*?[~#" then None
      else Lex(s[1..], Some(word.GetOr("") + [s[0]]), Plain)
  }

  function Split(s: string): Option<seq<Token>> {
    Lex(s, None, Plain)
  }

  function Words(texts: seq<string>): seq<Token> {
    seq(|texts|, i requires 0 <= i < |texts| => Word(texts[i]))
  }

  function Variables(env: seq<Assignment>): seq<string> {
    seq(|env|, i requires 0 <= i < |env| => env[i].0 + "=" + env[i].1)
  }

  // ---------- The round trip ----------

  lemma LexSafeChar(c: char, rest: string, word: Option<string>)
    requires IsSafe(c)
    ensures Lex([c] + rest, word, Plain) == Lex(rest, Some(word.GetOr("") + [c]), Plain)
  {
    assert ([c] + rest)[1..] == rest;
  }

  lemma {:induction false} LexSafe(s: string, rest: string, word: Option<string>)
    requires forall c :: c in s ==> IsSafe(c)
    requires s != "" || word.Some?
    ensures Lex(s + rest, word, Plain) == Lex(rest, Some(word.GetOr("") + s), Plain)
    decreases |s|
  {
    if s == "" {
      assert s + rest == rest && word.value + s == word.value;
    } else {
      assert s[0] in s;
      assert s + rest == [s[0]] + (s[1..] + rest);
      LexSafeChar(s[0], s[1..] + rest, word);
      LexSafe(s[1..], rest, Some(word.GetOr("") + [s[0]]));
      assert (word.GetOr("") + [s[0]]) + s[1..] == word.GetOr("") + s;
    }
  }

  lemma LexQuoteMark(rest: string, word: string)
    ensures Lex("'\"'\"'" + rest, Some(word), Single) == Lex(rest, Some(word + "'"), Single)
  {
    var s0, s1, s2, s3 := "'\"'\"'" + rest, "\"'\"'" + rest, "'\"'" + rest, "\"'" + rest;
    assert s0[1..] == s1 && s1[1..] == s2 && s2[1..] == s3 && s3[1..] == "'" + rest && ("'" + rest)[1..] == rest;
    assert Lex(s0, Some(word), Single) == Lex(s1, Some(word), Plain);
    assert Lex(s1, Some(word), Plain) == Lex(s2, Some(word), Double);
    assert Lex(s2, Some(word), Double) == Lex(s3, Some(word + "'"), Double);
    assert Lex(s3, Some(word + "'"), Double) == Lex("'" + rest, Some(word + "'"), Plain);
  }

  lemma {:induction false} LexEscaped(s: string, rest: string, word: string)
    ensures Lex(Escape(s) + "'" + rest, Some(word), Single) == Lex(rest, Some(word + s), Plain)
    decreases |s|
  {
    var tail := Escape(s[(if s == "" then 0 else 1)..]) + "'" + rest;
    if s == "" {
      assert Escape(s) + "'" + rest == "'" + rest && word + s == word;
      assert ("'" + rest)[1..] == rest;
    } else if s[0] == '\'' {
      assert Escape(s) + "'" + rest == "'\"'\"'" + tail;
      LexQuoteMark(tail, word);
      LexEscaped(s[1..], rest, word + "'");
      assert (word + "'") + s[1..] == word + s;
    } else {
      assert Escape(s) + "'" + rest == [s[0]] + tail;
      assert ([s[0]] + tail)[1..] == tail;
      LexEscaped(s[1..], rest, word + [s[0]]);
      assert (word + [s[0]]) + s[1..] == word + s;
    }
  }

  lemma LexOpenQuote(rest: string, word: Option<string>)
    ensures Lex("'" + rest, word, Plain) == Lex(rest, Some(word.GetOr("")), Single)
  {
    assert ("'" + rest)[1..] == rest;
  }

  lemma QuotedShape(arg: string, rest: string)
    requires arg == "" || exists c :: c in arg && !IsSafe(c)
    ensures ShellQuote(arg) + rest == "'" + (Escape(arg) + "'" + rest)
  {
    Regroup("'", Escape(arg), "'", rest);
  }

  /** A quoted argument reads back as itself, continuing the word it stands in. */
  lemma LexQuote(arg: string, rest: string, word: Option<string>)
    ensures Lex(ShellQuote(arg) + rest, word, Plain) == Lex(rest, Some(word.GetOr("") + arg), Plain)
  {
    if arg != "" && forall c :: c in arg ==> IsSafe(c) {
      LexSafe(arg, rest, word);
    } else {
      QuotedShape(arg, rest);
      LexOpenQuote(Escape(arg) + "'" + rest, word);
      LexEscaped(arg, rest, word.GetOr(""));
    }
  }

  lemma LexAssign(a: Assignment, rest: string)
    requires IsName(a.0)
    ensures Lex(Assign(a) + rest, None, Plain) == Lex(rest, Some(a.0 + "=" + a.1), Plain)
  {
    var name := a.0 + "=";
    assert Assign(a) + rest == name + (ShellQuote(a.1) + rest);
    LexSafe(name, ShellQuote(a.1) + rest, None);
    assert "" + name == name;
    LexQuote(a.1, rest, Some(name));
  }

  lemma LexBlank(rest: string, word: Option<string>)
    ensures Lex(" " + rest, word, Plain) == Before(Pending(word), Lex(rest, None, Plain))
  {
    assert (" " + rest)[1..] == rest;
  }

  lemma BeforeTwice(a: seq<Token>, b: seq<Token>, rest: Option<seq<Token>>)
    ensures Before(a, Before(b, rest)) == Before(a + b, rest)
  {
    if rest.Some? { assert a + (b + rest.value) == (a + b) + rest.value; }
  }

  lemma BeforeNothing(rest: Option<seq<Token>>)
    ensures Before([], rest) == rest
  {
    if rest.Some? { assert [] + rest.value == rest.value; }
  }

  lemma Regroup(a: string, b: string, c: string, d: string)
    ensures a + b + c + d == a + (b + (c + d))
  {
    assert a + b + c == a + (b + c);
    assert (b + c) + d == b + (c + d);
  }

  lemma JoinFirst(words: seq<string>, tail: string)
    requires |words| > 1
    ensures Join(words) + tail == words[0] + (" " + (Join(words[1..]) + tail))
  {
    Regroup(words[0], " ", Join(words[1..]), tail);
  }

  lemma QuotedTail(args: seq<string>)
    requires args != []
    ensures Quoted(args)[1..] == Quoted(args[1..]) && Quoted(args)[0] == ShellQuote(args[0])
    ensures Words(args) == [Word(args[0])] + Words(args[1..])
  {
  }

  lemma AssignedTail(env: seq<Assignment>)
    requires env != []
    ensures Assigned(env)[1..] == Assigned(env[1..]) && Assigned(env)[0] == Assign(env[0])
    ensures Words(Variables(env)) == [Word(env[0].0 + "=" + env[0].1)] + Words(Variables(env[1..]))
  {
    assert Variables(env)[1..] == Variables(env[1..]);
    QuotedTail(Variables(env));
  }

  /** One quoted word, read from the start of a word. */
  lemma SplitWord(arg: string, rest: string)
    ensures Split(ShellQuote(arg) + (" " + rest)) == Before([Word(arg)], Split(rest))
    ensures Split(ShellQuote(arg)) == Some([Word(arg)])
  {
    assert "" + arg == arg;
    LexQuote(arg, " " + rest, None);
    LexBlank(rest, Some(arg));
    LexQuote(arg, "", None);
    assert ShellQuote(arg) + "" == ShellQuote(arg);
  }

  lemma {:induction false} SplitArguments(args: seq<string>)
    ensures Split(Join(Quoted(args))) == Some(Words(args))
    decreases |args|
  {
    if args == [] {
      assert Quoted(args) == [] && Words(args) == [];
    } else {
      QuotedTail(args);
      SplitWord(args[0], Join(Quoted(args[1..])));
      SplitArguments(args[1..]);
      if |args| > 1 {
        JoinFirst(Quoted(args), "");
        assert Join(Quoted(args)) + "" == Join(Quoted(args));
        assert Join(Quoted(args[1..])) + "" == Join(Quoted(args[1..]));
        assert Join(Quoted(args)) == ShellQuote(args[0]) + (" " + Join(Quoted(args[1..])));
      } else {
        assert Words(args[1..]) == [] && Words(args) == [Word(args[0])];
        assert Join(Quoted(args)) == ShellQuote(args[0]);
      }
    }
  }

  lemma {:induction false} SplitAssignments(env: seq<Assignment>, rest: string)
    requires env != [] && ValidNames(env)
    ensures Split(Join(Assigned(env)) + (" " + rest)) == Before(Words(Variables(env)), Split(rest))
    decreases |env|
  {
    var first := env[0].0 + "=" + env[0].1;
    var tail := if |env| == 1 then rest else Join(Assigned(env[1..])) + (" " + rest);
    AssignedTail(env);
    if |env| > 1 {
      JoinFirst(Assigned(env), " " + rest);
      SplitAssignments(env[1..], rest);
      BeforeTwice([Word(first)], Words(Variables(env[1..])), Split(rest));
    }
    if |env| == 1 { assert Words(Variables(env)) == [Word(first)]; }
    assert Join(Assigned(env)) + (" " + rest) == Assign(env[0]) + (" " + tail);
    LexAssign(env[0], " " + tail);
    LexBlank(tail, Some(first));
  }

  lemma SplitAndIf(rest: string)
    ensures Split("&& " + rest) == Before([AndIf], Split(rest))
  {
    var s := "&& " + rest;
    assert s[2..] == " " + rest;
    LexBlank(rest, None);
    BeforeNothing(Split(rest));
    assert Pending(None) + [AndIf] == [AndIf];
  }

  lemma SplitCd(cwd: string, rest: string)
    ensures Split("cd " + ShellQuote(cwd) + " && " + rest) == Before([Word("cd"), Word(cwd), AndIf], Split(rest))
  {
    var s1, s2 := ShellQuote(cwd) + (" " + ("&& " + rest)), "&& " + rest;
    assert "cd " + ShellQuote(cwd) + " && " + rest == "cd" + (" " + s1);
    assert ShellQuote("cd") == "cd";
    SplitWord("cd", s1);
    SplitWord(cwd, s2);
    SplitAndIf(rest);
    BeforeTwice([Word(cwd)], [AndIf], Split(rest));
    assert [Word(cwd)] + [AndIf] == [Word(cwd), AndIf];
    BeforeTwice([Word("cd")], [Word(cwd), AndIf], Split(rest));
    assert [Word("cd")] + [Word(cwd), AndIf] == [Word("cd"), Word(cwd), AndIf];
  }

  /** The shell reads the command as `cd`, the directory, `&&`, the assignments and the arguments, word by word. */
  lemma CommandReadsBack(args: seq<string>, cwd: string, env: seq<Assignment>)
    requires ValidNames(env)
    ensures Split(ExecCommand(args, cwd, env))
         == Some((if cwd != "" then [Word("cd"), Word(cwd), AndIf] else []) + (Words(Variables(env)) + Words(args)))
  {
    var plain := Join(Quoted(args));
    var command := WithAssignments(Assigned(env), plain);
    SplitArguments(args);
    if env != [] {
      SplitAssignments(env, plain);
      assert command == Join(Assigned(env)) + (" " + plain);
    }
    var words := Words(Variables(env)) + Words(args);
    assert env == [] ==> words == Words(args);
    assert Split(command) == Some(words);
    if cwd != "" { SplitCd(cwd, command); } else { assert [] + words == words; }
  }
}
