/**
 Quoting for a POSIX shell (shellQuote.ts, remoteDumpExecutor.ts), against a lexer for the parts of
 the POSIX.1-2017 Shell Command Language that matter here: escapes (section 2.2.1), single quotes
 (2.2.2) and token recognition (2.3). The lexer gives no answer where an unquoted character would
 start an expansion or a comment, so a text that lexes is taken literally by the shell.
 */
module ShellQuote {
  import opened Common

  datatype Token = Word(text: string) | Operator(op: string)

  predicate Blank(c: char) { c == ' ' || c == '\t' }

  /** Characters that start an operator. */
  predicate Operates(c: char) {
    c == '&' || c == ';' || c == '<' || c == '>' || c == '(' || c == ')' || c == '|' || c == '\n'
  }

  /** Characters with another meaning when they are not quoted (section 2.2). */
  predicate Special(c: char) {
    || c == '"' || c == '$' || c == '`' || c == '*' || c == '?' || c == '[' || c == '#' || c == '~' || c == '='
      || c == '%'
    || c == '!' || c == '{' || c == '}'
  }

  /** Characters that stand for themselves. */
  predicate Plain(c: char) {
    c != '\'' && c != '\\' && !Blank(c) && !Operates(c) && !Special(c)
  }

  /** The word read so far, if one has begun, is delimited here. */
  function Delimited(word: Option<string>): seq<Token> {
    if word.Some? then [Word(word.value)] else []
  }

  function Prefixed(before: seq<Token>, rest: Option<seq<Token>>): Option<seq<Token>> {
    if rest.Some? then Some(before + rest.value) else None
  }

  /** The longest operator at the start of the text. */
  function OperatorLength(s: string): nat
    requires s != ""
  {
    if |s| >= 3 && s[..3] == "<<-" then 3
    else if |s| >= 2 && s[..2] in ["&&", "||", ";;", "<<", ">>", "<&", ">&", "<>", ">|"] then 2
    else 1
  }

  /** Digits right before a redirection belong to it; they are not lexed here. */
  predicate Number(word: Option<string>) {
    word.Some? && word.value != "" && forall i :: 0 <= i < |word.value| ==> '0' <= word.value[i] <= '9'
  }

  /** The tokens of `s`, when `word` has been read of the current word. */
  function Lex(s: string, word: Option<string>): Option<seq<Token>>
    decreases |s|
  {
    if s == "" then Some(Delimited(word))
    else if s[0] == '\'' then LexQuoted(s[1..], word.GetOr(""))
    else if s[0] == '\\' then
      if |s| < 2 then None
      else if s[1] == '\n' then Lex(s[2..], word)
      else Lex(s[2..], Some(word.GetOr("") + [s[1]]))
    else if Blank(s[0]) then Prefixed(Delimited(word), Lex(s[1..], None))
    else if Operates(s[0]) then
      if Number(word) && (s[0] == '<' || s[0] == '>') then None
      else if OperatorLength(s) > |s| then None
      else Prefixed(Delimited(word) + [Operator(s[..OperatorLength(s)])], Lex(s[OperatorLength(s)..], None))
    else if Special(s[0]) then None
    else Lex(s[1..], Some(word.GetOr("") + [s[0]]))
  }

  /** Inside single quotes every character is literal, up to the next quote. */
  function LexQuoted(s: string, word: string): Option<seq<Token>>
    decreases |s|
  {
    if s == "" then None
    else if s[0] == '\'' then Lex(s[1..], Some(word))
    else LexQuoted(s[1..], word + [s[0]])
  }

  /** Every single quote becomes: close, escaped quote, open. */
  function Escaped(value: string): string {
    if value == "" then ""
    else (if value[0] == '\'' then "'\\''" else [value[0]]) + Escaped(value[1..])
  }

  /** `shellQuote`. */
  function Quote(value: string): string {
    "'" + Escaped(value) + "'"
  }

  lemma {:induction false} LexEscaped(value: string, rest: string, word: string)
    ensures LexQuoted(Escaped(value) + "'" + rest, word) == Lex(rest, Some(word + value))
  {
    var s := Escaped(value) + "'" + rest;
    if value == "" {
      assert s[1..] == rest;
      assert word + "" == word;
    } else {
      var tail := Escaped(value[1..]) + "'" + rest;
      assert word + [value[0]] + value[1..] == word + value;
      LexEscaped(value[1..], rest, word + [value[0]]);
      if value[0] == '\'' {
        assert s == "'\\''" + tail;
        LexQuoteQuote(tail, word);
      } else {
        assert s[1..] == tail;
      }
    }
  }

  /** Close, escaped quote, open: one literal quote. */
  lemma LexQuoteQuote(tail: string, word: string)
    ensures LexQuoted("'\\''" + tail, word) == LexQuoted(tail, word + "'")
  {
    var s := "'\\''" + tail;
    assert s[1..] == "\\''" + tail;
    var t := s[1..];
    assert t[0] == '\\' && t[1] == '\'' && t[2..] == "'" + tail;
    var u := t[2..];
    assert u[0] == '\'' && u[1..] == tail;
    assert Lex(t, Some(word)) == Lex(u, Some(word + [t[1]]));
    assert Lex(u, Some(word + "'")) == LexQuoted(tail, word + "'");
  }

  /** A quoted value continues the current word by exactly that value, wherever it stands. */
  lemma QuoteIsLiteral(value: string, rest: string, word: Option<string>)
    ensures Lex(Quote(value) + rest, word) == Lex(rest, Some(word.GetOr("") + value))
  {
    var s := Quote(value) + rest;
    assert s[0] == '\'' && s[1..] == Escaped(value) + "'" + rest;
    LexEscaped(value, rest, word.GetOr(""));
  }

  /** Quoting survives the shell: one word, equal to the value, whatever it contains. */
  lemma QuoteIsOneWord(value: string)
    ensures Lex(Quote(value), None) == Some([Word(value)])
  {
    QuoteIsLiteral(value, "", None);
    assert Quote(value) + "" == Quote(value);
    assert "" + value == value;
  }

  // The remote command of a docker dump.

  const WRAPPER: string := "/usr/local/sbin/arkode-dump"

  predicate AllPlain(w: string) {
    w != "" && forall i :: 0 <= i < |w| ==> Plain(w[i])
  }

  /** The parts of a command line: plain words as they are, configured values quoted, one redirection. */
  datatype Part = Bare(text: string) | Quoted(text: string) | Redirect

  function PartText(p: Part): string {
    match p
    case Bare(w) => w
    case Quoted(v) => Quote(v)
    case Redirect => ">"
  }

  function PartToken(p: Part): Token {
    match p
    case Bare(w) => Word(w)
    case Quoted(v) => Word(v)
    case Redirect => Operator(">")
  }

  /** `parts.join(' ')`. */
  function Joined(parts: seq<Part>): string
    decreases |parts|, 0
  {
    if parts == [] then "" else PartText(parts[0]) + Rest(parts[1..])
  }

  /** The rest of a command line: nothing, or a blank and the remaining parts. */
  function Rest(parts: seq<Part>): string
    decreases |parts|, 1
  {
    if parts == [] then "" else " " + Joined(parts)
  }

  function TokensOf(parts: seq<Part>): (tokens: seq<Token>)
    ensures |tokens| == |parts| && forall i :: 0 <= i < |parts| ==> tokens[i] == PartToken(parts[i])
  {
    seq(|parts|, i requires 0 <= i < |parts| => PartToken(parts[i]))
  }

  predicate BareArePlain(parts: seq<Part>) {
    forall i :: 0 <= i < |parts| && parts[i].Bare? ==> AllPlain(parts[i].text)
  }

  lemma {:induction false} LexPlain(w: string, rest: string, word: string)
    requires forall i :: 0 <= i < |w| ==> Plain(w[i])
    ensures Lex(w + rest, Some(word)) == Lex(rest, Some(word + w))
  {
    if w == "" {
      assert w + rest == rest && word + w == word;
    } else {
      assert (w + rest)[1..] == w[1..] + rest;
      assert word + [w[0]] + w[1..] == word + w;
      LexPlain(w[1..], rest, word + [w[0]]);
    }
  }

  /** One part, then a blank or the end of the text. */
  lemma LexPart(p: Part, rest: string)
    requires p.Bare? ==> AllPlain(p.text)
    requires rest == "" || rest[0] == ' '
    ensures Lex(PartText(p) + rest, None) == Prefixed([PartToken(p)], Lex(if rest == "" then "" else rest[1..], None))
  {
    match p
    case Bare(w) =>
      assert (w + rest)[1..] == w[1..] + rest && "" + [w[0]] == [w[0]] && [w[0]] + w[1..] == w;
      LexPlain(w[1..], rest, [w[0]]);
      assert Lex(w + rest, None) == Lex(w[1..] + rest, Some([w[0]]));
      assert [Word(w)] + [] == [Word(w)];
    case Quoted(v) =>
      QuoteIsLiteral(v, rest, None);
      assert "" + v == v && [Word(v)] + [] == [Word(v)];
    case Redirect => LexRedirect(rest);
  }

  lemma PrefixNothing(rest: Option<seq<Token>>)
    ensures Prefixed([], rest) == rest
  {
    if rest.Some? { assert [] + rest.value == rest.value; }
  }

  lemma LexRedirect(rest: string)
    requires rest == "" || rest[0] == ' '
    ensures Lex(">" + rest, None) == Prefixed([Operator(">")], Lex(if rest == "" then "" else rest[1..], None))
  {
    var s := ">" + rest;
    assert s[1..] == rest && s[..1] == ">";
    assert |s| >= 2 ==> s[1] == ' ';
    assert OperatorLength(s) == 1;
    hide OperatorLength;
    assert [] + [Operator(">")] == [Operator(">")];
    if rest != "" { PrefixNothing(Lex(rest[1..], None)); }
  }

  lemma RestOfRest(parts: seq<Part>)
    ensures parts == [] ==> Rest(parts) == ""
    ensures parts != [] ==> Rest(parts) != "" && Rest(parts)[0] == ' ' && Rest(parts)[1..] == Joined(parts)
  {
    hide Joined;
  }

  lemma {:induction false} LexJoined(parts: seq<Part>)
    requires BareArePlain(parts)
    ensures Lex(Joined(parts), None) == Some(TokensOf(parts))
  {
    if parts != [] {
      RestOfRest(parts[1..]);
      LexJoined(parts[1..]);
      assert parts[0].Bare? ==> AllPlain(parts[0].text);
      assert Joined(parts) == PartText(parts[0]) + Rest(parts[1..]);
      assert parts[1..] == [] ==> Joined(parts[1..]) == "";
      hide Lex, Joined, PartText, AllPlain, Rest, PartToken;
      LexPart(parts[0], Rest(parts[1..]));
      assert TokensOf(parts) == [PartToken(parts[0])] + TokensOf(parts[1..]);
    }
  }

  /** `dbEngine` is one of three fixed names. */
  datatype Engine = Postgres | Mysql | Mariadb {
    function Name(): string {
      match this
      case Postgres => "postgres"
      case Mysql => "mysql"
      case Mariadb => "mariadb"
    }
  }

  function DumpParts(engine: Engine, container: string, database: string, user: string, path: string): seq<Part> {
    [Bare("sudo"), Bare(WRAPPER), Bare("--engine"), Bare(engine.Name()), Bare("--container"), Quoted(container),
     Bare("--database"), Quoted(database), Bare("--user"), Quoted(user), Redirect, Quoted(path)]
  }

  /** `buildDockerDumpCommand`. */
  function DumpCommand(engine: Engine, container: string, database: string, user: string, path: string): string {
    Joined(DumpParts(engine, container, database, user, path))
  }

  /**
   The shell runs the wrapper with exactly this argument list, and one redirection to exactly that
   path, for all configured values.
   */
  lemma DumpCommandIsFixed(engine: Engine, container: string, database: string, user: string, path: string)
    ensures Lex(DumpCommand(engine, container, database, user, path), None)
         == Some([Word("sudo"), Word(WRAPPER), Word("--engine"), Word(engine.Name()), Word("--container"),
                  Word(container), Word("--database"), Word(database), Word("--user"), Word(user), Operator(">"),
                    Word(path)])
  {
    var parts := DumpParts(engine, container, database, user, path);
    FixedWordsArePlain(engine);
    assert BareArePlain(parts);
    LexJoined(parts);
    hide Lex, Joined, AllPlain;
    assert TokensOf(parts) == [Word("sudo"), Word(WRAPPER), Word("--engine"), Word(engine.Name()), Word("--container"),
                               Word(container), Word("--database"), Word(database), Word("--user"), Word(user),
                                 Operator(">"), Word(path)];
  }

  predicate Letter(c: char) { 'a' <= c <= 'z' || c == '-' || c == '/' }

  lemma LettersArePlain(w: string)
    requires w != "" && forall i :: 0 <= i < |w| ==> Letter(w[i])
    ensures AllPlain(w)
  {
  }

  lemma FixedWordsArePlain(engine: Engine)
    ensures AllPlain(engine.Name())
    ensures AllPlain("sudo") && AllPlain(WRAPPER) && AllPlain("--engine") && AllPlain("--container")
            && AllPlain("--database") && AllPlain("--user")
  {
    hide AllPlain, Plain;
    LettersArePlain(engine.Name());
    LettersArePlain("sudo");
    LettersArePlain(WRAPPER);
    LettersArePlain("--engine");
    LettersArePlain("--container");
    LettersArePlain("--database");
    LettersArePlain("--user");
  }
}
