/**
 * The two ways in which text is handed to `sh -c`: inside single quotes, and as a here-document.
 * Each is read back as the POSIX.1-2017 Shell Command Language prescribes.
 */
module Shell {
  import opened Options

  // ---------------------------------------------------------------- words

  /** A blank, a newline or an operator character: outside quotes it ends a word (section 2.3). */
  predicate Ends(c: char) {
    c == ' ' || c == '\t' || c == '\n' || c == '|' || c == '&' || c == ';' || c == '<' || c == '>' ||
      c == '(' || c == ')'
  }

  /** Outside quotes these start an expansion, a comment or other quoting, which is not read here. */
  predicate Special(c: char) {
    c == '"' || c == '$' || c == '`' || c == '*' || c == '?' || c == '[' || c == '~' || c == '#'
  }

  /** A word and the text that follows it. */
  datatype Read = Read(word: string, rest: string)

  function Prepend(s: string, r: Option<Read>): Option<Read> {
    match r case None => None case Some(x) => Some(Read(s + x.word, x.rest))
  }

  /** The rest of a word, outside quotes: an escaped character stands for itself (section 2.2.1). */
  function Unquoted(s: string): Option<Read> {
    if s == "" || Ends(s[0]) then Some(Read("", s))
    else if s[0] == '\'' then Quoted(s[1..])
    else if s[0] == '\\' then
      if |s| == 1 then None
      else if s[1] == '\n' then Unquoted(s[2..])
      else Prepend([s[1]], Unquoted(s[2..]))
    else if Special(s[0]) then None
    else Prepend([s[0]], Unquoted(s[1..]))
  }

  /** The rest of a word, after an opening single quote: every character is literal (section 2.2.2). */
  function Quoted(s: string): Option<Read> {
    if s == "" then None
    else if s[0] == '\'' then Unquoted(s[1..])
    else Prepend([s[0]], Quoted(s[1..]))
  }

  /** `s.replace("'", "'\\''")` */
  function Escape(s: string): string {
    if s == "" then "" else (if s[0] == '\'' then "'\\''" else [s[0]]) + Escape(s[1..])
  }

  function Wrapped(s: string): string {
    "'" + Escape(s) + "'"
  }

  predicate Delimited(rest: string) {
    rest == "" || Ends(rest[0])
  }

  /** The four characters that stand for one single quote. */
  lemma QuoteReadsBack(u: string)
    ensures Quoted("'\\''" + u) == Prepend("'", Quoted(u))
  {
    var t := "'\\''" + u;
    var v := "'" + u;
    var x := t[1..];
    assert Quoted(t) == Unquoted(x);
    assert x[2..] == v && x[0] == '\\' && x[1] == '\'';
    assert Unquoted(x) == Prepend([x[1]], Unquoted(v));
    assert v[1..] == u;
    assert Unquoted(v) == Quoted(u);
  }

  lemma {:induction false} EscapeReadsBack(s: string, rest: string)
    requires Delimited(rest)
    ensures Quoted(Escape(s) + "'" + rest) == Some(Read(s, rest))
  {
    var t := Escape(s) + "'" + rest;
    if s == "" {
      assert t[1..] == rest;
    } else {
      var u := Escape(s[1..]) + "'" + rest;
      EscapeReadsBack(s[1..], rest);
      assert s == [s[0]] + s[1..];
      if s[0] == '\'' {
        assert t == "'\\''" + u;
        QuoteReadsBack(u);
      } else {
        assert t == [s[0]] + u;
        assert t[1..] == u;
      }
    }
  }

  /** The shell reads a wrapped text as exactly one word, the text itself, and stops right behind it. */
  lemma WrappedReadsBack(s: string, rest: string)
    requires Delimited(rest)
    ensures Unquoted(Wrapped(s) + rest) == Some(Read(s, rest))
  {
    EscapeReadsBack(s, rest);
    assert (Wrapped(s) + rest)[1..] == Escape(s) + "'" + rest;
  }

  // ---------------------------------------------------------------- commands

  datatype Token = Word(text: string) | Operator(c: char)

  lemma {:induction false} RestIsShorter(s: string)
    ensures Unquoted(s).Some? ==> |Unquoted(s).value.rest| <= |s|
    ensures Quoted(s).Some? ==> |Quoted(s).value.rest| < |s|
    decreases |s|
  {
    if |s| > 0 {
      RestIsShorter(s[1..]);
      if |s| > 1 {
        RestIsShorter(s[2..]);
      }
    }
  }

  /** The words and operator characters of a command line. */
  function Tokens(s: string): Option<seq<Token>>
    decreases |s|
  {
    if s == "" then Some([])
    else if s[0] == ' ' || s[0] == '\t' then Tokens(s[1..])
    else if Ends(s[0]) then After(Operator(s[0]), Tokens(s[1..]))
    else
      match Unquoted(s)
      case None => None
      case Some(r) =>
        RestIsShorter(s);
        if |r.rest| < |s| then After(Word(r.word), Tokens(r.rest)) else None
  }

  function After(t: Token, ts: Option<seq<Token>>): Option<seq<Token>> {
    match ts case None => None case Some(x) => Some([t] + x)
  }

  /** A text that needs no quoting. */
  predicate Plain(s: string) {
    forall i :: 0 <= i < |s| ==> !Ends(s[i]) && !Special(s[i]) && s[i] != '\'' && s[i] != '\\'
  }

  lemma {:induction false} PlainReadsBack(s: string, rest: string)
    requires Plain(s) && Delimited(rest)
    ensures Unquoted(s + rest) == Some(Read(s, rest))
  {
    if s == "" {
      assert s + rest == rest;
    } else {
      PlainReadsBack(s[1..], rest);
      assert (s + rest)[1..] == s[1..] + rest;
      assert s == [s[0]] + s[1..];
    }
  }

  lemma PlainToken(s: string, rest: string)
    requires Plain(s) && s != "" && Delimited(rest)
    ensures Tokens(s + rest) == After(Word(s), Tokens(rest))
  {
    PlainReadsBack(s, rest);
    assert !Ends(s[0]) && (s + rest)[0] == s[0];
  }

  lemma WrappedToken(s: string, rest: string)
    requires Delimited(rest)
    ensures Tokens(Wrapped(s) + rest) == After(Word(s), Tokens(rest))
  {
    WrappedReadsBack(s, rest);
    assert (Wrapped(s) + rest)[0] == '\'';
  }

  lemma BlankToken(rest: string)
    ensures Tokens(" " + rest) == Tokens(rest)
  {
    assert (" " + rest)[1..] == rest;
  }

  lemma OperatorToken(c: char, rest: string)
    requires Ends(c) && c != ' ' && c != '\t'
    ensures Tokens([c] + rest) == After(Operator(c), Tokens(rest))
  {
    assert ([c] + rest)[1..] == rest;
  }

  /** A wrapped text between blanks. */
  lemma WrappedBetween(s: string, rest: string)
    ensures Tokens(" " + (Wrapped(s) + (" " + rest))) == After(Word(s), Tokens(rest))
  {
    BlankToken(Wrapped(s) + (" " + rest));
    WrappedToken(s, " " + rest);
    BlankToken(rest);
  }

  lemma OperatorThen(c: char, rest: string)
    requires Ends(c) && c != ' ' && c != '\t'
    ensures Tokens([c] + (" " + rest)) == After(Operator(c), Tokens(rest))
  {
    OperatorToken(c, " " + rest);
    BlankToken(rest);
  }

  /** ` '{}' {operator} {}` */
  function Tail(text: string, operator: char, rest: string): string {
    " " + (Wrapped(text) + (" " + ([operator] + (" " + rest))))
  }

  lemma TailReadsBack(text: string, operator: char, rest: string)
    requires operator == '>' || operator == '|'
    ensures Tokens(Tail(text, operator, rest)) == After(Word(text), After(Operator(operator), Tokens(rest)))
  {
    OperatorThen(operator, rest);
    WrappedBetween(text, [operator] + (" " + rest));
  }

  /** `echo '{}' > /app/{}` */
  function WriteCommand(code: string, filename: string): string {
    "echo" + Tail(code, '>', "/app/" + filename)
  }

  lemma PlainAlone(s: string)
    requires Plain(s) && s != ""
    ensures Tokens(s) == Some([Word(s)])
  {
    var none: string := "";
    assert s + none == s;
    PlainToken(s, none);
    assert Tokens(none) == Some([]);
    assert [Word(s)] + [] == [Word(s)];
  }

  /** Writing source code runs `echo` on one word, the code, whatever the code is. */
  lemma WriteCommandReadsBack(code: string, filename: string)
    requires Plain(filename)
    ensures Tokens(WriteCommand(code, filename)) ==
      Some([Word("echo"), Word(code), Operator('>'), Word("/app/" + filename)])
  {
    var path := "/app/" + filename;
    assert Plain("/app/") && Plain(path);
    PlainAlone(path);
    TailReadsBack(code, '>', path);
    PlainToken("echo", Tail(code, '>', path));
    assert [Word("echo")] + ([Word(code)] + ([Operator('>')] + [Word(path)]))
        == [Word("echo"), Word(code), Operator('>'), Word(path)];
  }

  /** `echo -n '{}' | {}` */
  function PipeCommand(stdin: string, command: string): string {
    "echo" + (" " + ("-n" + Tail(stdin, '|', command)))
  }

  lemma TwoWords(a: string, b: string, tail: string)
    requires Plain(a) && Plain(b) && a != "" && b != "" && Delimited(tail)
    ensures Tokens(a + (" " + (b + tail))) == After(Word(a), After(Word(b), Tokens(tail)))
  {
    PlainToken(b, tail);
    BlankToken(b + tail);
    PlainToken(a, " " + (b + tail));
  }

  /** Piping stdin runs `echo -n` on one word, the stdin, into exactly the run command. */
  lemma PipeCommandReadsBack(stdin: string, command: string)
    requires Tokens(command).Some?
    ensures Tokens(PipeCommand(stdin, command)) ==
      Some([Word("echo"), Word("-n"), Word(stdin), Operator('|')] + Tokens(command).value)
  {
    var tail := Tail(stdin, '|', command);
    TailReadsBack(stdin, '|', command);
    TwoWords("echo", "-n", tail);
    assert [Word("echo")] + ([Word("-n")] + ([Word(stdin)] + ([Operator('|')] + Tokens(command).value)))
        == [Word("echo"), Word("-n"), Word(stdin), Operator('|')] + Tokens(command).value;
  }

  // ---------------------------------------------------------------- here-documents

  predicate OneLine(s: string) {
    forall i :: 0 <= i < |s| ==> s[i] != '\n'
  }

  /** The first line of a text, without its newline. */
  function FirstLine(s: string): (line: string)
    ensures OneLine(line) && |line| <= |s| && line == s[..|line|]
    ensures |line| < |s| ==> s[|line|] == '\n'
  {
    if s == "" || s[0] == '\n' then "" else [s[0]] + FirstLine(s[1..])
  }

  lemma {:induction false} FirstLineIs(line: string, rest: string)
    requires OneLine(line) && (rest == "" || rest[0] == '\n')
    ensures FirstLine(line + rest) == line
  {
    if line == "" {
      assert line + rest == rest;
    } else {
      FirstLineIs(line[1..], rest);
      assert (line + rest)[1..] == line[1..] + rest;
    }
  }

  /** What `str::lines` would give, but with a last empty line kept. */
  function Lines(s: string): (ls: seq<string>)
    ensures |ls| > 0
    decreases |s|
  {
    var line := FirstLine(s);
    if |line| == |s| then [line] else [line] + Lines(s[|line| + 1..])
  }

  /** The body of a here-document with a quoted delimiter, and what follows it (section 2.7.4). */
  function Body(s: string, delimiter: string): Read
    decreases |s|
  {
    var line := FirstLine(s);
    var rest := if |line| == |s| then "" else s[|line| + 1..];
    if line == delimiter then Read("", rest)
    else if |line| == |s| then Read(s, "")
    else
      var r := Body(rest, delimiter);
      Read(line + "\n" + r.word, r.rest)
  }

  /** The text after the first line of `cat <<'EOF' > {}\n{}\nEOF`. */
  function Document(code: string, delimiter: string): string {
    code + "\n" + delimiter
  }

  lemma DocumentFirst(code: string, delimiter: string)
    ensures FirstLine(Document(code, delimiter)) == FirstLine(code)
  {
    var line := FirstLine(code);
    var more := code[|line|..] + "\n" + delimiter;
    assert Document(code, delimiter) == line + more;
    FirstLineIs(line, more);
  }

  lemma DocumentRest(code: string, delimiter: string)
    ensures var n := |FirstLine(code)|;
      Document(code, delimiter)[n + 1..] == if n == |code| then delimiter else Document(code[n + 1..], delimiter)
  {
  }

  lemma DelimiterEnds(delimiter: string)
    requires OneLine(delimiter)
    ensures Body(delimiter, delimiter) == Read("", "")
  {
    var none: string := "";
    FirstLineIs(delimiter, none);
    assert delimiter + none == delimiter;
  }

  /** One line of the document is read. */
  lemma BodyOfDocument(code: string, delimiter: string)
    requires OneLine(delimiter)
    ensures var line := FirstLine(code); var r := Body(Document(code, delimiter), delimiter);
      if line == delimiter then
        r == Read("", if |line| == |code| then delimiter else Document(code[|line| + 1..], delimiter))
      else if |line| == |code| then r == Read(code + "\n", "")
      else r == Read(line + "\n" + Body(Document(code[|line| + 1..], delimiter), delimiter).word,
                     Body(Document(code[|line| + 1..], delimiter), delimiter).rest)
  {
    var line := FirstLine(code);
    DocumentFirst(code, delimiter);
    DocumentRest(code, delimiter);
    DelimiterEnds(delimiter);
    if line != delimiter && |line| == |code| {
      assert line == code;
      var none: string := "";
      assert line + "\n" + none == code + "\n";
    }
  }

  lemma LinesOf(code: string, delimiter: string)
    ensures var line := FirstLine(code);
      delimiter in Lines(code) <==> line == delimiter || (|line| < |code| && delimiter in Lines(code[|line| + 1..]))
  {
  }

  lemma FirstLineSplits(code: string)
    ensures var n := |FirstLine(code)|; n < |code| ==> code + "\n" == FirstLine(code) + "\n" + (code[n + 1..] + "\n")
  {
    var n := |FirstLine(code)|;
    if n < |code| {
      assert code == code[..n] + [code[n]] + code[n + 1..];
    }
  }

  /** The first line of the code comes in front of what is read of the rest. */
  lemma DocumentMore(code: string, delimiter: string)
    requires OneLine(delimiter) && FirstLine(code) != delimiter && |FirstLine(code)| < |code|
    requires var rest := code[|FirstLine(code)| + 1..];
      Body(Document(rest, delimiter), delimiter) == Read(rest + "\n", "")
    ensures Body(Document(code, delimiter), delimiter) == Read(code + "\n", "")
  {
    BodyOfDocument(code, delimiter);
    FirstLineSplits(code);
  }

  /** With no line equal to the delimiter, the shell reads the code and a newline, and nothing follows. */
  lemma {:induction false} DocumentComplete(code: string, delimiter: string)
    requires OneLine(delimiter) && delimiter !in Lines(code)
    ensures Body(Document(code, delimiter), delimiter) == Read(code + "\n", "")
    decreases |code|
  {
    LinesOf(code, delimiter);
    if |FirstLine(code)| < |code| {
      DocumentComplete(code[|FirstLine(code)| + 1..], delimiter);
      DocumentMore(code, delimiter);
    } else {
      BodyOfDocument(code, delimiter);
    }
  }

  /** With such a line, it reads less than the code: the document ends there. */
  lemma {:induction false} DocumentCut(code: string, delimiter: string)
    requires OneLine(delimiter) && delimiter in Lines(code)
    ensures |Body(Document(code, delimiter), delimiter).word| <= |code|
    decreases |code|
  {
    var line := FirstLine(code);
    LinesOf(code, delimiter);
    BodyOfDocument(code, delimiter);
    if line != delimiter {
      DocumentCut(code[|line| + 1..], delimiter);
    }
  }

  /** And the rest of the text is left over, to be executed. */
  lemma {:induction false} CutLeavesTail(code: string, delimiter: string)
    requires OneLine(delimiter) && delimiter != "" && delimiter in Lines(code)
    ensures Body(Document(code, delimiter), delimiter).rest != ""
    decreases |code|
  {
    var line := FirstLine(code);
    LinesOf(code, delimiter);
    BodyOfDocument(code, delimiter);
    if line != delimiter {
      CutLeavesTail(code[|line| + 1..], delimiter);
    }
  }

  lemma DocumentReadsBack(code: string, delimiter: string)
    requires OneLine(delimiter)
    ensures Body(Document(code, delimiter), delimiter) == Read(code + "\n", "") <==> delimiter !in Lines(code)
  {
    if delimiter in Lines(code) {
      DocumentCut(code, delimiter);
    } else {
      DocumentComplete(code, delimiter);
    }
  }

  /** `cat <<'EOF' > {}\n{}\nEOF` */
  function Script(filename: string, code: string): string {
    "cat <<'EOF' > " + filename + "\n" + Document(code, "EOF")
  }

  /** The first line of the script is the command; what follows is the document. */
  lemma ScriptSplits(filename: string, code: string)
    requires OneLine(filename)
    ensures var line := FirstLine(Script(filename, code));
      && line == "cat <<'EOF' > " + filename && |line| < |Script(filename, code)|
      && Script(filename, code)[|line| + 1..] == Document(code, "EOF")
  {
    var command := "cat <<'EOF' > " + filename;
    var rest := "\n" + Document(code, "EOF");
    assert Script(filename, code) == command + rest;
    assert OneLine("cat <<'EOF' > ");
    FirstLineIs(command, rest);
  }

  /** The script writes exactly the code and a newline if and only if no line of the code is the delimiter. */
  lemma ScriptReadsBack(filename: string, code: string)
    requires OneLine(filename)
    ensures var line := FirstLine(Script(filename, code));
      && line == "cat <<'EOF' > " + filename && |line| < |Script(filename, code)|
      && (Body(Script(filename, code)[|line| + 1..], "EOF") == Read(code + "\n", "") <==> "EOF" !in Lines(code))
  {
    ScriptSplits(filename, code);
    DocumentReadsBack(code, "EOF");
  }
}
