/** Quoting of user values in the client templates of frontend/lib/dashboard-template.ts. */
module Escaping {

  function ReplaceAll(s: string, c: char, into: string): string {
    if s == [] then [] else (if s[0] == c then into else [s[0]]) + ReplaceAll(s[1..], c, into)
  }

  function EscapeSingleQuotedShell(value: string): string {
    ReplaceAll(value, '\'', "'\\''")
  }

  function EscapeTomlBasicString(value: string): string {
    ReplaceAll(ReplaceAll(ReplaceAll(ReplaceAll(ReplaceAll(value,
      '\\', "\\\\"), '"', "\\\""), '\n', "\\n"), '\r', "\\r"), '\t', "\\t")
  }

  // ----- Reading shell text (sections 2.2.1, 2.2.2 and 2.3 of the POSIX Shell Command Language) -----

  /** Foreign: a character came up that the reader below does not follow, such as an
      operator, an expansion, a comment, a double quote or NUL. */
  datatype Mode = Bare | Escaped | Quoted | Foreign

  /** The word being read, the finished words of its command, the finished commands. */
  datatype Shell = Shell(mode: Mode, word: string, begun: bool, words: seq<string>, commands: seq<seq<string>>)

  /** Stands for itself outside quotes, wherever it comes in a word. */
  predicate IsPlain(c: char) {
    || 'a' <= c <= 'z' || 'A' <= c <= 'Z' || '0' <= c <= '9'
    || c == '_' || c == '=' || c == '-' || c == '.' || c == '/'
    || c == ':' || c == ',' || c == '@' || c == '%' || c == '+'
  }

  function EndWord(sh: Shell): Shell {
    if sh.begun then sh.(word := "", begun := false, words := sh.words + [sh.word]) else sh
  }

  function EndCommand(sh: Shell): Shell {
    var e := EndWord(sh);
    if e.words == [] then e else e.(words := [], commands := e.commands + [e.words])
  }

  function Put(sh: Shell, c: char): Shell {
    sh.(mode := if sh.mode == Escaped then Bare else sh.mode, word := sh.word + [c], begun := true)
  }

  function Next(sh: Shell, c: char): Shell {
    if sh.mode == Foreign || c == '\0' then sh.(mode := Foreign)
    else
      match sh.mode
      case Quoted => if c == '\'' then sh.(mode := Bare) else Put(sh, c)
      case Escaped => if c == '\n' then sh.(mode := Bare) else Put(sh, c)
      case Bare =>
        if c == '\'' then sh.(mode := Quoted, begun := true)
        else if c == '\\' then sh.(mode := Escaped)
        else if c == '\n' then EndCommand(sh)
        else if c == ' ' || c == '\t' then EndWord(sh)
        else if IsPlain(c) then Put(sh, c)
        else sh.(mode := Foreign)
  }

  function Read(sh: Shell, s: string): Shell
    decreases |s|
  {
    if s == [] then sh else Read(Next(sh, s[0]), s[1..])
  }

  const START := Shell(Bare, "", false, [], [])

  lemma {:induction false} ReadAppend(sh: Shell, s: string, t: string)
    ensures Read(sh, s + t) == Read(Read(sh, s), t)
    decreases |s|
  {
    if s == [] {
      assert s + t == t;
    } else {
      assert (s + t)[1..] == s[1..] + t;
      ReadAppend(Next(sh, s[0]), s[1..], t);
    }
  }

  lemma {:induction false} ForeignStays(sh: Shell, s: string)
    requires sh.mode == Foreign
    ensures Read(sh, s).mode == Foreign
    decreases |s|
  {
    if s != [] {
      ForeignStays(Next(sh, s[0]), s[1..]);
    }
  }

  /** Inside the quotes, the escaped text adds exactly the value to the word. */
  lemma {:induction false} ReadEscaped(sh: Shell, v: string)
    requires sh.mode == Quoted && sh.begun
    ensures if '\0' in v then Read(sh, EscapeSingleQuotedShell(v)).mode == Foreign
            else Read(sh, EscapeSingleQuotedShell(v)) == sh.(word := sh.word + v)
    decreases |v|
  {
    if v == [] {
      assert sh.word + v == sh.word;
    } else {
      var head := if v[0] == '\'' then "'\\''" else [v[0]];
      ReadAppend(sh, head, EscapeSingleQuotedShell(v[1..]));
      if v[0] == '\0' {
        ReadOne(sh, v[0]);
        ForeignStays(Read(sh, head), EscapeSingleQuotedShell(v[1..]));
      } else {
        ReadHead(sh, v[0]);
        ReadEscaped(Put(sh, v[0]), v[1..]);
        assert sh.word + [v[0]] + v[1..] == sh.word + v;
        assert '\0' in v <==> '\0' in v[1..];
      }
    }
  }

  lemma ReadOne(sh: Shell, c: char)
    ensures Read(sh, [c]) == Next(sh, c)
  {
  }

  lemma ReadHead(sh: Shell, c: char)
    requires sh.mode == Quoted && sh.begun && c != '\0'
    ensures Read(sh, if c == '\'' then "'\\''" else [c]) == Put(sh, c)
  {
    ReadOne(sh, c);
    if c == '\'' {
      var s1 := sh.(mode := Bare);
      var s2 := sh.(mode := Escaped);
      var s3 := Put(s2, '\'');
      assert Next(sh, '\'') == s1 && Next(s1, '\\') == s2 && Next(s2, '\'') == s3;
      assert Next(s3, '\'') == Put(sh, '\'');
      assert Read(sh, "'\\''") == Read(s1, "\\''") == Read(s2, "''") == Read(s3, "'") == Put(sh, '\'');
    }
  }

  function ShellQuoted(v: string): string {
    "'" + EscapeSingleQuotedShell(v) + "'"
  }

  /** Wherever a word may go on, the quoted value adds exactly that value to it; a value
      with a NUL, which no shell word can hold, is the one exception. */
  lemma QuotedReadsAsValue(sh: Shell, v: string)
    requires sh.mode == Bare
    ensures Read(sh, ShellQuoted(v)) == sh.(word := sh.word + v, begun := true) <==> '\0' !in v
  {
    var inside, text := Next(sh, '\''), EscapeSingleQuotedShell(v);
    ReadAppend(sh, "'" + text, "'");
    ReadAppend(sh, "'", text);
    ReadOne(sh, '\'');
    ReadEscaped(inside, v);
    ReadOne(Read(inside, text), '\'');
  }

  // ----- The Claude shell template -----

  lemma {:induction false} ReadPlain(sh: Shell, s: string)
    requires sh.mode == Bare && s != [] && forall c | c in s :: IsPlain(c)
    ensures Read(sh, s) == sh.(word := sh.word + s, begun := true)
    decreases |s|
  {
    assert IsPlain(s[0]) && Next(sh, s[0]) == Put(sh, s[0]);
    if |s| == 1 {
      assert s == [s[0]];
    } else {
      ReadPlain(Put(sh, s[0]), s[1..]);
      assert sh.word + [s[0]] + s[1..] == sh.word + s;
    }
  }

  function ExportLine(name: string, v: string): string {
    "export " + (name + ("=" + ShellQuoted(v)))
  }

  const GATEWAY_VAR := "ANTHROPIC_BASE_URL"
  const TOKEN_VAR := "ANTHROPIC_AUTH_TOKEN"

  /** The three lines, joined. */
  function ClaudeScript(gateway: string, key: string): string {
    ExportLine(GATEWAY_VAR, gateway) + ("\n" + (ExportLine(TOKEN_VAR, key) + ("\n" + "claude")))
  }

  lemma ExportWordReads(sh: Shell, rest: string)
    requires sh.mode == Bare && !sh.begun && sh.word == "" && sh.words == []
    ensures Read(sh, "export " + rest) == Read(sh.(words := ["export"]), rest)
  {
    var e := "export";
    assert sh.word + e == e && sh.words + [e] == [e];
    ReadPlain(sh, e);
    ReadOne(sh.(word := e, begun := true), ' ');
    ReadAppend(sh, e, " ");
    assert e + " " == "export ";
    ReadAppend(sh, "export ", rest);
  }

  lemma AssignmentReads(sh: Shell, name: string, v: string)
    requires sh.mode == Bare && sh.word == ""
    requires (forall c | c in name :: IsPlain(c)) && '\0' !in v
    ensures Read(sh, name + ("=" + ShellQuoted(v))) == sh.(word := name + "=" + v, begun := true)
  {
    var left := name + "=";
    assert forall c | c in left :: IsPlain(c);
    assert sh.word + left == left;
    ReadPlain(sh, left);
    assert name + ("=" + ShellQuoted(v)) == left + ShellQuoted(v);
    ReadAppend(sh, left, ShellQuoted(v));
    QuotedReadsAsValue(sh.(word := left, begun := true), v);
  }

  lemma ExportReads(sh: Shell, name: string, v: string)
    requires sh.mode == Bare && !sh.begun && sh.word == "" && sh.words == []
    requires (forall c | c in name :: IsPlain(c)) && '\0' !in v
    ensures Read(sh, ExportLine(name, v)) == sh.(words := ["export"], word := name + "=" + v, begun := true)
  {
    ExportWordReads(sh, name + ("=" + ShellQuoted(v)));
    AssignmentReads(sh.(words := ["export"]), name, v);
  }

  lemma LineReads(sh: Shell, line: string, rest: string)
    requires Read(sh, line).mode == Bare
    ensures Read(sh, line + ("\n" + rest)) == Read(EndCommand(Read(sh, line)), rest)
  {
    ReadAppend(sh, line, "\n" + rest);
    ReadAppend(Read(sh, line), "\n", rest);
    ReadOne(Read(sh, line), '\n');
  }

  function Ran(commands: seq<seq<string>>): Shell {
    START.(commands := commands)
  }

  lemma ExportLineRuns(done: seq<seq<string>>, name: string, v: string, rest: string)
    requires (forall c | c in name :: IsPlain(c)) && '\0' !in v
    ensures Read(Ran(done), ExportLine(name, v) + ("\n" + rest)) ==
            Read(Ran(done + [["export", name + "=" + v]]), rest)
  {
    ExportReads(Ran(done), name, v);
    assert ["export"] + [name + "=" + v] == ["export", name + "=" + v];
    LineReads(Ran(done), ExportLine(name, v), rest);
  }

  /** The template runs exactly three commands, whatever the key contains. */
  lemma ClaudeScriptRuns(gateway: string, key: string)
    requires '\0' !in gateway && '\0' !in key
    ensures EndCommand(Read(START, ClaudeScript(gateway, key))).commands ==
            [["export", GATEWAY_VAR + "=" + gateway], ["export", TOKEN_VAR + "=" + key], ["claude"]]
  {
    VariableNames();
    ScriptReads(GATEWAY_VAR, gateway, TOKEN_VAR, key, "claude");
  }

  lemma ScriptReads(name1: string, v1: string, name2: string, v2: string, program: string)
    requires forall c | c in name1 + name2 + program :: IsPlain(c)
    requires '\0' !in v1 && '\0' !in v2 && program != []
    ensures EndCommand(Read(START, ExportLine(name1, v1) + ("\n" + (ExportLine(name2, v2) + ("\n" + program)))))
              .commands == [["export", name1 + "=" + v1], ["export", name2 + "=" + v2], [program]]
  {
    var done1 := [] + [["export", name1 + "=" + v1]];
    PlainParts(name1, name2, program);
    ExportLineRuns([], name1, v1, ExportLine(name2, v2) + ("\n" + program));
    ExportLineRuns(done1, name2, v2, program);
    ProgramRuns(done1 + [["export", name2 + "=" + v2]], program);
  }

  lemma PlainParts(s: string, t: string, u: string)
    requires forall c | c in s + t + u :: IsPlain(c)
    ensures forall c | c in s || c in t || c in u :: IsPlain(c)
  {
    assert forall c | c in s || c in t || c in u :: c in s + t + u;
  }

  lemma ProgramRuns(done: seq<seq<string>>, program: string)
    requires program != [] && forall c | c in program :: IsPlain(c)
    ensures EndCommand(Read(Ran(done), program)).commands == done + [[program]]
  {
    ReadPlain(Ran(done), program);
    assert "" + program == program && [] + [program] == [program];
  }

  lemma VariableNames()
    ensures forall c | c in GATEWAY_VAR + TOKEN_VAR + "claude" :: IsPlain(c)
  {
    assert forall c | c in GATEWAY_VAR :: 'A' <= c <= 'Z' || c == '_';
    assert forall c | c in TOKEN_VAR :: 'A' <= c <= 'Z' || c == '_';
    assert forall c | c in "claude" :: 'a' <= c <= 'z';
  }

  // ----- TOML basic strings (TOML v1.0.0, section "String") -----

  function TomlEscapeOf(c: char): string {
    if c == '\\' then "\\\\"
    else if c == '"' then "\\\""
    else if c == '\n' then "\\n"
    else if c == '\r' then "\\r"
    else if c == '\t' then "\\t"
    else [c]
  }

  function MapChars(s: string): string {
    if s == [] then [] else TomlEscapeOf(s[0]) + MapChars(s[1..])
  }

  lemma {:induction false} ReplaceAppend(s: string, t: string, c: char, into: string)
    ensures ReplaceAll(s + t, c, into) == ReplaceAll(s, c, into) + ReplaceAll(t, c, into)
  {
    if s == [] {
      assert s + t == t;
    } else {
      assert (s + t)[1..] == s[1..] + t;
      ReplaceAppend(s[1..], t, c, into);
    }
  }

  /** Escaping distributes over concatenation, replacement by replacement. */
  lemma TomlAppend(s: string, t: string)
    ensures EscapeTomlBasicString(s + t) == EscapeTomlBasicString(s) + EscapeTomlBasicString(t)
  {
    var s1, t1 := ReplaceAll(s, '\\', "\\\\"), ReplaceAll(t, '\\', "\\\\");
    var s2, t2 := ReplaceAll(s1, '"', "\\\""), ReplaceAll(t1, '"', "\\\"");
    var s3, t3 := ReplaceAll(s2, '\n', "\\n"), ReplaceAll(t2, '\n', "\\n");
    var s4, t4 := ReplaceAll(s3, '\r', "\\r"), ReplaceAll(t3, '\r', "\\r");
    ReplaceAppend(s, t, '\\', "\\\\");
    ReplaceAppend(s1, t1, '"', "\\\"");
    ReplaceAppend(s2, t2, '\n', "\\n");
    ReplaceAppend(s3, t3, '\r', "\\r");
    ReplaceAppend(s4, t4, '\t', "\\t");
  }

  lemma ReplaceOne(a: char, c: char, into: string)
    ensures ReplaceAll([a], c, into) == if a == c then into else [a]
  {
  }

  lemma ReplaceTwo(a: char, b: char, c: char, into: string)
    requires a != c && b != c
    ensures ReplaceAll([a, b], c, into) == [a, b]
  {
    assert [a, b][1..] == [b];
    ReplaceOne(b, c, into);
  }

  /** No replacement touches what an earlier one produced. */
  lemma TomlOne(c: char)
    ensures EscapeTomlBasicString([c]) == TomlEscapeOf(c)
  {
    var s1 := if c == '\\' then "\\\\" else [c];
    var s2 := if c == '"' then "\\\"" else s1;
    var s3 := if c == '\n' then "\\n" else s2;
    var s4 := if c == '\r' then "\\r" else s3;
    ReplaceOne(c, '\\', "\\\\");
    ReplaceShort(c, s1, '"', "\\\"");
    ReplaceShort(c, s2, '\n', "\\n");
    ReplaceShort(c, s3, '\r', "\\r");
    ReplaceShort(c, s4, '\t', "\\t");
  }

  lemma ReplaceShort(a: char, s: string, c: char, into: string)
    requires s == [a] || (|s| == 2 && s[0] != c && s[1] != c && a != c)
    ensures ReplaceAll(s, c, into) == if a == c then into else s
  {
    if s == [a] {
      ReplaceOne(a, c, into);
    } else {
      assert s == [s[0], s[1]];
      ReplaceTwo(s[0], s[1], c, into);
    }
  }

  /** The five replacements in a row are one map over the characters. */
  lemma {:induction false} TomlIsCharMap(s: string)
    ensures EscapeTomlBasicString(s) == MapChars(s)
  {
    if s != [] {
      assert s == [s[0]] + s[1..];
      TomlAppend([s[0]], s[1..]);
      TomlOne(s[0]);
      TomlIsCharMap(s[1..]);
    }
  }

  /** What a TOML reader makes of the text after an opening quote. The escapes `\b`, `\f`,
      `\uXXXX` and `\UXXXXXXXX` are valid TOML that the template never writes. */
  datatype Basic = Text(value: string, rest: string) | Invalid | OtherEscape

  predicate IsControl(c: char) {
    c < ' ' || c == 127 as char
  }

  function Unescape(c: char): string {
    match c
    case '\\' => "\\"
    case '"' => "\""
    case 'n' => "\n"
    case 'r' => "\r"
    case 't' => "\t"
    case _ => ""
  }

  function Prepend(head: string, b: Basic): Basic {
    if b.Text? then Text(head + b.value, b.rest) else b
  }

  function ReadBasic(s: string): Basic {
    if s == [] then Invalid
    else if s[0] == '"' then Text([], s[1..])
    else if s[0] == '\\' then
      if |s| < 2 then Invalid
      else if s[1] in "bfuU" then OtherEscape
      else if Unescape(s[1]) == [] then Invalid
      else Prepend(Unescape(s[1]), ReadBasic(s[2..]))
    else if IsControl(s[0]) && s[0] != '\t' then Invalid
    else Prepend([s[0]], ReadBasic(s[1..]))
  }

  /** Control characters the template leaves as they are and TOML refuses. */
  predicate Refused(c: char) {
    IsControl(c) && c !in "\n\r\t"
  }

  lemma CharReadsBack(c: char, after: string)
    ensures ReadBasic(TomlEscapeOf(c) + after) == if Refused(c) then Invalid else Prepend([c], ReadBasic(after))
  {
    var s := TomlEscapeOf(c) + after;
    assert s[|TomlEscapeOf(c)|..] == after;
  }

  predicate Clean(v: string) {
    forall c | c in v :: !Refused(c)
  }

  lemma MapCharsJoin(v: string, tail: string)
    requires v != []
    ensures MapChars(v) + tail == TomlEscapeOf(v[0]) + (MapChars(v[1..]) + tail)
    ensures Clean(v) <==> !Refused(v[0]) && Clean(v[1..])
    ensures [v[0]] + v[1..] == v
  {
    assert v == [v[0]] + v[1..];
  }

  lemma {:induction false} CharMapReadsBack(v: string, rest: string)
    ensures ReadBasic(MapChars(v) + ("\"" + rest)) == if Clean(v) then Text(v, rest) else Invalid
  {
    var tail := "\"" + rest;
    if v == [] {
      assert MapChars(v) + tail == tail;
    } else {
      CharMapReadsBack(v[1..], rest);
      MapCharsJoin(v, tail);
      CharReadsBack(v[0], MapChars(v[1..]) + tail);
    }
  }

  /** The quoted text is read back as the value exactly when the value has no control
      character besides newline, carriage return and tab; otherwise TOML refuses it. */
  lemma TomlRoundTripIff(v: string, rest: string)
    ensures ReadBasic(EscapeTomlBasicString(v) + ("\"" + rest)) == Text(v, rest) <==> Clean(v)
    ensures ReadBasic(EscapeTomlBasicString(v) + ("\"" + rest)) == Invalid <==> !Clean(v)
  {
    TomlIsCharMap(v);
    CharMapReadsBack(v, rest);
  }

  // ----- The export line in the Codex template's TOML comment (TOML v1.0.0, section "Comment") -----

  /** A comment holds any characters but control characters other than tab. */
  predicate InComment(s: string) {
    forall c | c in s :: !IsControl(c) || c == '\t'
  }

  function CodexComment(key: string): string {
    "#      " + ExportLine("ALIANG_API_KEY", key)
  }

  lemma {:induction false} ReplaceInComment(s: string, c: char, into: string)
    requires InComment(into) && (!IsControl(c) || c == '\t')
    ensures InComment(ReplaceAll(s, c, into)) <==> InComment(s)
  {
    if s != [] {
      ReplaceInComment(s[1..], c, into);
      var head, tail := if s[0] == c then into else [s[0]], ReplaceAll(s[1..], c, into);
      JoinInComment(head, tail);
      JoinInComment([s[0]], s[1..]);
      assert s == [s[0]] + s[1..];
    }
  }

  lemma JoinInComment(s: string, t: string)
    ensures InComment(s + t) <==> InComment(s) && InComment(t)
  {
  }

  /** Shell quoting does not protect the comment: the line stays one exactly when the key
      itself could stand in it. */
  lemma CommentHoldsIff(key: string)
    ensures InComment(CodexComment(key)) <==> InComment(key)
  {
    var head, escaped := "#      " + "export " + "ALIANG_API_KEY" + "='", EscapeSingleQuotedShell(key);
    ReplaceInComment(key, '\'', "'\\''");
    assert CodexComment(key) == head + (escaped + "'");
    JoinInComment(head, escaped + "'");
    JoinInComment(escaped, "'");
  }
}
