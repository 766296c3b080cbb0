/**
 Printing an argument vector for a POSIX shell.  The reference is a token scanner after
 sections 2.2.1, 2.2.2 and 2.2.3 of the POSIX.1-2017 Shell Command Language; it gives
 up on anything unquoted that is not an ordinary character.
 */
module ShellWords {
  import opened Wrappers

  // ----- scanning -----

  datatype Mode = Plain | Escaped | SingleQuoted | DoubleQuoted

  datatype Scan = Scan(words: seq<string>, word: Option<string>, mode: Mode)

  const START: Scan := Scan([], None, Plain)

  /** Characters without any meaning to the shell inside a word. */
  predicate Ordinary(c: char) {
    'a' <= c <= 'z' || 'A' <= c <= 'Z' || '0' <= c <= '9' || c in "/_-.,:=+@%"
  }

  function Begun(s: Scan): string {
    if s.word.Some? then s.word.value else ""
  }

  function Grow(s: Scan, c: char): Scan {
    s.(word := Some(Begun(s) + [c]))
  }

  function Opened(s: Scan, mode: Mode): Scan {
    Scan(s.words, Some(Begun(s)), mode)
  }

  function Ended(s: Scan): Scan {
    if s.word.Some? then Scan(s.words + [s.word.value], None, s.mode) else s
  }

  function Step(s: Scan, c: char): Option<Scan> {
    match s.mode
    case Plain =>
      if c == ' ' || c == '\t' then Some(Ended(s))
      else if c == '\'' then Some(Opened(s, SingleQuoted))
      else if c == '"' then Some(Opened(s, DoubleQuoted))
      else if c == '\\' then Some(s.(mode := Escaped))
      else if Ordinary(c) then Some(Grow(s, c))
      else None
    case Escaped =>
      if c == '\n' then Some(s.(mode := Plain)) else Some(Grow(s, c).(mode := Plain))
    case SingleQuoted =>
      if c == '\'' then Some(s.(mode := Plain)) else Some(Grow(s, c))
    case DoubleQuoted =>
      if c == '"' then Some(s.(mode := Plain))
      else if c == '$' || c == '`' || c == '\\' then None
      else Some(Grow(s, c))
  }

  function Run(s: Option<Scan>, text: string): Option<Scan>
    decreases |text|
  {
    if s.None? then None
    else if text == "" then s
    else Run(Step(s.value, text[0]), text[1..])
  }

  /** The words of a complete command, or None when it is not a plain list of words. */
  function Tokens(text: string): Option<seq<string>> {
    var end := Run(Some(START), text);
    if end.None? || end.value.mode != Plain then None else Some(Ended(end.value).words)
  }

  lemma {:induction false} RunConcat(s: Option<Scan>, a: string, b: string)
    ensures Run(s, a + b) == Run(Run(s, a), b)
    decreases |a|
  {
    if s.Some? && a != "" {
      assert (a + b)[0] == a[0] && (a + b)[1..] == a[1..] + b;
      RunConcat(Step(s.value, a[0]), a[1..], b);
    } else if a == "" {
      assert a + b == b;
    }
  }

  // ----- the command name -----

  predicate Blank(s: Scan, c: char) {
    s.mode == Plain && (c == ' ' || c == '\t')
  }

  /** The text of the first word as it was written, quotes included and line continuations removed. */
  function RawWord(s: Scan, text: string): string
    decreases |text|
  {
    if text == "" || Blank(s, text[0]) then ""
    else if s.mode == Plain && "\\\n" <= text then RawWord(s, text[2..])
    else
      var next := Step(s, text[0]);
      if next.None? then "" else [text[0]] + RawWord(next.value, text[1..])
  }

  /** Section 2.4 of the Shell Command Language. */
  predicate Reserved(word: string) {
    word in ["!", "{", "}", "case", "do", "done", "elif", "else", "esac", "fi", "for", "if", "in", "then", "until",
             "while"]
  }

  predicate NameChar(c: char, first: bool) {
    'a' <= c <= 'z' || 'A' <= c <= 'Z' || c == '_' || (!first && '0' <= c <= '9')
  }

  /** A name and an equals sign in front (rule 7 of section 2.10.2). */
  predicate Assigns(word: string) {
    AssignsAt(word, true)
  }

  /** The same for what follows the beginning of a name, unless the word is at its beginning. */
  predicate AssignsAt(word: string, first: bool) {
    exists i | 0 <= i < |word| :: word[i] == '=' && (first ==> 0 < i) && Named(word[..i], first)
  }

  predicate Named(text: string, first: bool) {
    forall k | 0 <= k < |text| :: NameChar(text[k], first && k == 0)
  }

  /** The word a shell runs, or None when it takes the first word for an assignment or a reserved word. */
  function CommandName(text: string): Option<string> {
    var raw, words := RawWord(START, text), Tokens(text);
    if words.None? || words.value == [] || Reserved(raw) || Assigns(raw) then None else Some(words.value[0])
  }

  // ----- words -----

  predicate NulFree(value: string) {
    '\0' !in value
  }

  function QuotedBody(value: string): string {
    if value == "" then ""
    else QuotedBody(value[..|value| - 1])
         + (if value[|value| - 1] == '\'' then "'\"'\"'" else [value[|value| - 1]])
  }

  function Quoted(value: string): string {
    "'" + QuotedBody(value) + "'"
  }

  predicate Safe(value: string) {
    value != "" && forall i | 0 <= i < |value| :: Ordinary(value[i])
  }

  function Word(value: string): (word: string)
    ensures word != ""
  {
    if Safe(value) then value else Quoted(value)
  }

  /** The scan with more text glued to the word at hand. */
  function Glued(s: Scan, value: string): Scan {
    Scan(s.words, Some(Begun(s) + value), s.mode)
  }

  lemma RunOne(s: Scan, text: string)
    requires text != ""
    ensures Run(Some(s), text) == Run(Step(s, text[0]), text[1..])
    ensures |text| == 1 ==> Run(Some(s), text) == Step(s, text[0])
  {}

  lemma OrdinaryGrows(s: Scan, c: char)
    requires s.mode == Plain && Ordinary(c)
    ensures Step(s, c) == Some(Grow(s, c))
  {}

  lemma {:induction false} SafeScans(s: Scan, value: string)
    requires s.mode == Plain && forall i | 0 <= i < |value| :: Ordinary(value[i])
    ensures value != "" ==> Run(Some(s), value) == Some(Glued(s, value))
    decreases |value|
  {
    hide Run, Step, Ordinary;
    if value != "" {
      RunOne(s, value);
      OrdinaryGrows(s, value[0]);
      assert Begun(s) + [value[0]] + value[1..] == Begun(s) + value;
      if |value| == 1 {
        assert value == [value[0]];
      } else {
        SafeScans(Grow(s, value[0]), value[1..]);
      }
    }
  }

  lemma {:induction false} BodyScans(s: Scan, value: string)
    requires s.mode == SingleQuoted && s.word.Some?
    ensures Run(Some(s), QuotedBody(value)) == Some(Glued(s, value))
    decreases |value|
  {
    if value == "" {
      assert s.word.value + "" == s.word.value;
    } else {
      var n := |value| - 1;
      var front, c := value[..n], value[n];
      BodyScans(s, front);
      var before := Glued(s, front);
      var piece := if c == '\'' then "'\"'\"'" else [c];
      RunConcat(Some(s), QuotedBody(front), piece);
      PieceScans(before, c);
      assert s.word.value + front + [c] == s.word.value + value;
    }
  }

  lemma PieceScans(s: Scan, c: char)
    requires s.mode == SingleQuoted && s.word.Some?
    ensures Run(Some(s), if c == '\'' then "'\"'\"'" else [c]) == Some(Glued(s, [c]))
  {
    if c == '\'' {
      var text := "'\"'\"'";
      var plain := s.(mode := Plain);
      var double := Opened(plain, DoubleQuoted);
      var grown := Grow(double, '\'');
      assert Run(Some(s), text) == Run(Some(plain), text[1..]);
      assert text[1..][0] == '"' && text[1..][1..] == text[2..];
      assert Run(Some(plain), text[1..]) == Run(Some(double), text[2..]);
      assert text[2..][0] == '\'' && text[2..][1..] == text[3..];
      assert Run(Some(double), text[2..]) == Run(Some(grown), text[3..]);
      assert text[3..][0] == '"' && text[3..][1..] == text[4..];
      assert Run(Some(grown), text[3..]) == Run(Some(grown.(mode := Plain)), text[4..]);
      assert text[4..][0] == '\'' && text[4..][1..] == "";
      assert Run(Some(grown.(mode := Plain)), text[4..]) == Run(Some(Opened(grown.(mode := Plain), SingleQuoted)), "");
    } else {
      assert Run(Some(s), [c]) == Run(Step(s, c), "");
    }
  }

  /** Any printed word adds exactly its value to the word at hand. */
  lemma WordScans(s: Scan, value: string)
    requires s.mode == Plain
    ensures Run(Some(s), Word(value)) == Some(Glued(s, value))
  {
    if Safe(value) {
      SafeScans(s, value);
    } else {
      var open := Opened(s, SingleQuoted);
      var body := QuotedBody(value);
      assert Quoted(value) == "'" + (body + "'");
      RunConcat(Some(s), "'", body + "'");
      assert Run(Some(s), "'") == Run(Some(open), "");
      RunConcat(Some(open), body, "'");
      BodyScans(open, value);
      var closed := Glued(open, value);
      assert Run(Some(closed), "'") == Run(Some(closed.(mode := Plain)), "");
    }
  }

  // ----- raw words -----

  /** The text is read without ending the word at hand, and leaves `raw` of it. */
  ghost predicate Reads(s: Scan, text: string, raw: string) {
    && Run(Some(s), text).Some?
    && forall rest :: RawWord(s, text + rest) == raw + RawWord(Run(Some(s), text).value, rest)
  }

  lemma ReadsNothing(s: Scan)
    ensures Reads(s, "", "")
  {
    forall rest: string ensures "" + rest == rest && "" + RawWord(s, rest) == RawWord(s, rest) {}
  }

  lemma ReadsOne(s: Scan, c: char)
    requires Step(s, c).Some? && !Blank(s, c) && !(s.mode == Plain && c == '\\')
    ensures Reads(s, [c], [c]) && Run(Some(s), [c]) == Step(s, c)
  {
    hide Step;
    RunOne(s, [c]);
    forall rest ensures RawWord(s, [c] + rest) == [c] + RawWord(Step(s, c).value, rest) {
      assert ([c] + rest)[1..] == rest;
    }
  }

  lemma ReadsContinuation(s: Scan)
    requires s.mode == Plain
    ensures Reads(s, "\\\n", "") && Run(Some(s), "\\\n") == Some(s)
  {
    Continued(s);
    hide Run, Step;
    forall rest ensures RawWord(s, "\\\n" + rest) == "" + RawWord(s, rest) {
      assert ("\\\n" + rest)[2..] == rest && ("\\\n" + rest)[0] == '\\';
    }
  }

  lemma ReadsConcat(s: Scan, a: string, ra: string, b: string, rb: string)
    requires Reads(s, a, ra) && Reads(Run(Some(s), a).value, b, rb)
    ensures Reads(s, a + b, ra + rb) && Run(Some(s), a + b) == Run(Run(Some(s), a), b)
  {
    hide Run, RawWord;
    RunConcat(Some(s), a, b);
    var mid := Run(Some(s), a).value;
    var end := Run(Some(mid), b).value;
    forall rest ensures RawWord(s, a + b + rest) == ra + rb + RawWord(end, rest) {
      assert a + b + rest == a + (b + rest);
      assert RawWord(s, a + (b + rest)) == ra + RawWord(mid, b + rest);
      assert ra + (rb + RawWord(end, rest)) == ra + rb + RawWord(end, rest);
    }
  }

  lemma {:induction false} ReadsSafe(s: Scan, value: string)
    requires s.mode == Plain && forall i | 0 <= i < |value| :: Ordinary(value[i])
    ensures Reads(s, value, value)
    decreases |value|
  {
    hide Run, Step, RawWord, Ordinary, Reads;
    if value == "" {
      ReadsNothing(s);
    } else {
      assert value == [value[0]] + value[1..];
      OrdinaryGrows(s, value[0]);
      assert value[0] != '\\' && !Blank(s, value[0]) by { OrdinaryIsPlain(value[0]); }
      ReadsOne(s, value[0]);
      ReadsSafe(Grow(s, value[0]), value[1..]);
      ReadsConcat(s, [value[0]], [value[0]], value[1..], value[1..]);
    }
  }

  lemma OrdinaryIsPlain(c: char)
    requires Ordinary(c)
    ensures c != '\\' && c != ' ' && c != '\t' && c != '\''
  {}

  lemma ReadsPiece(s: Scan, c: char)
    requires s.mode == SingleQuoted && s.word.Some?
    ensures var piece := if c == '\'' then "'\"'\"'" else [c]; Reads(s, piece, piece)
  {
    hide Run, RawWord, Reads;
    if c == '\'' {
      var plain := s.(mode := Plain);
      var double := Opened(plain, DoubleQuoted);
      var grown := Grow(double, '\'');
      ReadsOne(s, '\'');
      ReadsOne(plain, '"');
      ReadsOne(double, '\'');
      ReadsOne(grown, '"');
      ReadsOne(grown.(mode := Plain), '\'');
      ReadsConcat(grown, ['"'], ['"'], ['\''], ['\'']);
      ReadsConcat(double, ['\''], ['\''], ['"'] + ['\''], ['"'] + ['\'']);
      ReadsConcat(plain, ['"'], ['"'], ['\''] + (['"'] + ['\'']), ['\''] + (['"'] + ['\'']));
      var tail := ['"'] + (['\''] + (['"'] + ['\'']));
      ReadsConcat(s, ['\''], ['\''], tail, tail);
      assert ['\''] + tail == "'\"'\"'";
    } else {
      ReadsOne(s, c);
    }
  }

  lemma {:induction false} ReadsBody(s: Scan, value: string)
    requires s.mode == SingleQuoted && s.word.Some?
    ensures Reads(s, QuotedBody(value), QuotedBody(value))
    decreases |value|
  {
    hide Run, RawWord, Reads, Step;
    if value == "" {
      ReadsNothing(s);
    } else {
      var n := |value| - 1;
      var piece := if value[n] == '\'' then "'\"'\"'" else [value[n]];
      ReadsBody(s, value[..n]);
      BodyScans(s, value[..n]);
      ReadsPiece(Glued(s, value[..n]), value[n]);
      ReadsConcat(s, QuotedBody(value[..n]), QuotedBody(value[..n]), piece, piece);
    }
  }

  /** A printed word is its own raw text. */
  lemma ReadsWord(s: Scan, value: string)
    requires s.mode == Plain
    ensures Reads(s, Word(value), Word(value)) && Run(Some(s), Word(value)) == Some(Glued(s, value))
  {
    hide Run, RawWord, Reads;
    WordScans(s, value);
    if Safe(value) {
      ReadsSafe(s, value);
    } else {
      var open, body := Opened(s, SingleQuoted), QuotedBody(value);
      ReadsOne(s, '\'');
      ReadsBody(open, value);
      BodyScans(open, value);
      ReadsOne(Glued(open, value), '\'');
      ReadsConcat(open, body, body, "'", "'");
      ReadsConcat(s, "'", "'", body + "'", body + "'");
      assert Quoted(value) == "'" + (body + "'");
    }
  }

  // ----- raw words in pieces -----

  /** The raw text of an argument printed in pieces of this size. */
  function Pieces(value: string, chunk: nat): string
    requires chunk > 0
    decreases |value|
  {
    if value == "" then "" else Word(value[..Least(chunk, |value|)]) + Pieces(value[Least(chunk, |value|)..], chunk)
  }

  /** A name and an equals sign in front, all of it in pieces that are printed bare. */
  predicate BareAssignment(value: string, chunk: nat, first: bool)
    requires chunk > 0
    decreases |value|
  {
    && value != ""
    && var piece := value[..Least(chunk, |value|)];
       && Safe(piece)
       && (AssignsAt(piece, first) ||
            (Named(piece, first) && BareAssignment(value[Least(chunk, |value|)..], chunk, false)))
  }

  lemma AssignsSplit(a: string, b: string, first: bool)
    requires a != ""
    ensures AssignsAt(a + b, first) <==> AssignsAt(a, first) || (Named(a, first) && AssignsAt(b, false))
  {
    if AssignsAt(a, first) {
      var i :| 0 <= i < |a| && a[i] == '=' && (first ==> 0 < i) && Named(a[..i], first);
      assert (a + b)[i] == '=' && (a + b)[..i] == a[..i];
    }
    if Named(a, first) && AssignsAt(b, false) {
      var i :| 0 <= i < |b| && b[i] == '=' && Named(b[..i], false);
      assert (a + b)[|a| + i] == '=' && (a + b)[..|a| + i] == a + b[..i];
    }
    if AssignsAt(a + b, first) {
      var i :| 0 <= i < |a + b| && (a + b)[i] == '=' && (first ==> 0 < i) && Named((a + b)[..i], first);
      if i < |a| {
        assert a[i] == '=' && a[..i] == (a + b)[..i];
      } else {
        var head := (a + b)[..i];
        assert head[..|a|] == a;
        assert forall k | 0 <= k < |a| :: a[k] == head[k];
        assert forall k | 0 <= k < i - |a| :: b[k] == head[|a| + k];
        assert b[i - |a|] == '=' && Named(b[..i - |a|], false);
      }
    }
  }

  lemma {:induction false} PiecesAssign(value: string, chunk: nat, first: bool)
    requires chunk > 0
    ensures AssignsAt(Pieces(value, chunk), first) <==> BareAssignment(value, chunk, first)
    decreases |value|
  {
    hide AssignsAt, Named, Safe, Word;
    if value == "" {
      assert !AssignsAt("", first) by { NothingAssigns(first); }
    } else {
      var n := Least(chunk, |value|);
      var piece := value[..n];
      AssignsSplit(Word(piece), Pieces(value[n..], chunk), first);
      WordAssigns(piece, first);
      PiecesAssign(value[n..], chunk, false);
    }
  }

  lemma NothingAssigns(first: bool)
    ensures !AssignsAt("", first)
  {}

  /** A quoted piece is no part of a name and no assignment. */
  lemma WordAssigns(piece: string, first: bool)
    requires piece != ""
    ensures Safe(piece) ==> Word(piece) == piece
    ensures !Safe(piece) ==> !AssignsAt(Word(piece), first) && !Named(Word(piece), first)
  {
    if !Safe(piece) { QuoteInFront(Word(piece), first); }
  }

  lemma QuoteInFront(word: string, first: bool)
    requires word != "" && word[0] == '\''
    ensures !AssignsAt(word, first) && !Named(word, first)
  {
    forall i | 0 <= i < |word| && word[i] == '=' ensures !Named(word[..i], first) {
      assert word[..i][0] == '\'';
    }
  }

  /** Bare throughout, or quoted somewhere. */
  lemma {:induction false} PiecesBare(value: string, chunk: nat)
    requires chunk > 0 && value != ""
    ensures if Safe(value) then Pieces(value, chunk) == value else '\'' in Pieces(value, chunk)
    decreases |value|
  {
    var n := Least(chunk, |value|);
    assert value == value[..n] + value[n..];
    if !Safe(value[..n]) {
      assert Word(value[..n])[0] == '\'';
      assert Pieces(value, chunk)[0] == '\'';
    } else if n < |value| {
      PiecesBare(value[n..], chunk);
      if !Safe(value) {
        assert !Safe(value[n..]);
        assert '\'' in Pieces(value[n..], chunk);
      }
    } else {
      assert value[n..] == "";
      assert Pieces(value[n..], chunk) == "";
    }
  }

  lemma ReservedIsBare(word: string)
    requires Reserved(word)
    ensures '\'' !in word && |word| <= 5
  {}

  /** Only a bare first word can be an assignment or a reserved word. */
  lemma BareOrNot(value: string)
    ensures Reserved(Word(value)) <==> Reserved(value) && Safe(value)
    ensures Assigns(Word(value)) <==> Assigns(value) && Safe(value)
  {
    hide Reserved, AssignsAt, QuotedBody;
    if !Safe(value) {
      assert Word(value)[0] == '\'';
      QuoteInFront(Word(value), true);
      if Reserved(Word(value)) { ReservedIsBare(Word(value)); }
    }
  }

  /** The command's first word is bare, and an assignment or a reserved word to a shell. */
  predicate Mistaken(executable: string) {
    Safe(executable) && (Reserved(executable) || Assigns(executable))
  }

  /** A path from the root or from the working directory is never mistaken; "A=b" and "if" are. */
  lemma PathsAreNotMistaken(executable: string)
    ensures executable != "" && executable[0] in "/." ==> !Mistaken(executable)
    ensures Mistaken("A=b") && Mistaken("if")
  {
    assert "A=b"[1] == '=';
  }

  /** What a shell makes of the first word, given its raw text and what follows it. */
  lemma NamesFirst(text: string, printed: string, raw: string, words: seq<string>)
    requires Reads(START, printed, raw) && words != [] && Tokens(text) == Some(words)
    requires Run(Some(START), printed).Some? && Run(Some(START), printed).value.mode == Plain
    requires text == printed || printed + " " <= text
    ensures CommandName(text) == if Reserved(raw) || Assigns(raw) then None else Some(words[0])
  {
    hide Reserved, Assigns, Tokens, Run, Step;
    var rest := text[|printed|..];
    assert text == printed + rest;
    assert rest == "" || rest[0] == ' ' by { if text != printed { assert (printed + " ")[|printed|] == ' '; } }
    var end := Run(Some(START), printed).value;
    assert RawWord(START, printed + rest) == raw + RawWord(end, rest);
    assert raw + "" == raw;
  }

  /** A printed command names its executable exactly unless that is taken for something else. */
  lemma NamesExecutable(executable: string, text: string, words: seq<string>)
    requires words != [] && words[0] == executable && Tokens(text) == Some(words)
    requires text == Word(executable) || Word(executable) + " " <= text
    ensures CommandName(text) == if Mistaken(executable) then None else Some(executable)
  {
    ReadsWord(START, executable);
    hide Reserved, Assigns, Word, Tokens, Reads, Run, CommandName;
    NamesFirst(text, Word(executable), Word(executable), words);
    BareOrNot(executable);
  }

  /** The raw first word of lines of this width: in one piece if it fits, in pieces otherwise. */
  function FirstRaw(executable: string, width: nat): string
    requires width >= 16
  {
    if |Word(executable)| <= width - 2 then Word(executable) else Pieces(executable, (width - 4) / 5)
  }

  /** Broken over lines, an executable may also begin with bare pieces that read as an assignment. */
  predicate MistakenOnLines(executable: string, width: nat)
    requires width >= 16
  {
    if |Word(executable)| <= width - 2 then Mistaken(executable)
    else BareAssignment(executable, (width - 4) / 5, true)
  }

  lemma LinesNameExecutable(executable: string, width: nat, text: string, printed: string, words: seq<string>)
    requires width >= 16 && words != [] && words[0] == executable && Tokens(text) == Some(words)
    requires Reads(START, printed, FirstRaw(executable, width))
    requires Run(Some(START), printed).Some? && Run(Some(START), printed).value.mode == Plain
    requires text == printed || printed + " " <= text
    ensures CommandName(text) == if MistakenOnLines(executable, width) then None else Some(executable)
  {
    hide Reserved, Assigns, Word, Tokens, Reads, Run, CommandName, Pieces, BareAssignment;
    NamesFirst(text, printed, FirstRaw(executable, width), words);
    if |Word(executable)| <= width - 2 {
      BareOrNot(executable);
    } else {
      InPieces(executable, (width - 4) / 5);
    }
  }

  lemma InPieces(executable: string, chunk: nat)
    requires |Word(executable)| > 14 && chunk > 0
    ensures !Reserved(Pieces(executable, chunk))
    ensures Assigns(Pieces(executable, chunk)) <==> BareAssignment(executable, chunk, true)
  {
    PiecesAssign(executable, chunk, true);
    hide AssignsAt, Reserved;
    assert executable != "" by { WordSize(executable); }
    PiecesBare(executable, chunk);
    if Reserved(Pieces(executable, chunk)) { ReservedIsBare(Pieces(executable, chunk)); }
  }

  /** The command that is quoted on one line and taken for an assignment on lines of 16 columns. */
  lemma BreakingMistakes()
    ensures !Mistaken("A=b b b b b b b") && MistakenOnLines("A=b b b b b b b", 16)
  {
    hide QuotedBody, Ordinary;
    var executable := "A=b b b b b b b";
    BreakingIsQuoted(executable);
    BodyLength(executable);
    assert |Word(executable)| > 14;
    BarePiece(executable[..2]);
  }

  lemma BreakingIsQuoted(executable: string)
    requires executable == "A=b b b b b b b"
    ensures !Safe(executable)
  {
    assert !Ordinary(executable[3]);
  }

  lemma BarePiece(piece: string)
    requires piece == "A="
    ensures AssignsAt(piece, true) && Safe(piece)
  {
    assert piece[1] == '=' && Named(piece[..1], true);
  }

  lemma {:induction false} BodyLength(value: string)
    ensures |QuotedBody(value)| >= |value|
    decreases |value|
  {
    if value != "" { BodyLength(value[..|value| - 1]); }
  }

  lemma {:induction false} BodySize(value: string)
    ensures |QuotedBody(value)| <= 5 * |value|
    decreases |value|
  {
    if value != "" { BodySize(value[..|value| - 1]); }
  }

  lemma WordSize(value: string)
    ensures |Word(value)| <= 2 + 5 * |value|
    ensures value == "" ==> |Word(value)| == 2
  {
    BodySize(value);
  }

  // ----- printing -----

  method PosixShellQuote(value: string) returns (quoted: Option<string>)
    ensures quoted == if NulFree(value) then Some(Quoted(value)) else None
  {
    if '\0' in value { return None; }
    var text, i := "'", 0;
    while i < |value|
      invariant 0 <= i <= |value|
      invariant text == "'" + QuotedBody(value[..i])
    {
      assert value[..i + 1][..i] == value[..i];
      if value[i] == '\'' { text := text + "'\"'\"'"; } else { text := text + [value[i]]; }
      i := i + 1;
    }
    assert value[..|value|] == value;
    return Some(text + "'");
  }

  method ShellWord(value: string) returns (word: Option<string>)
    ensures word == if NulFree(value) then Some(Word(value)) else None
  {
    if Safe(value) {
      assert !Ordinary('\0');
      return Some(value);
    }
    word := PosixShellQuote(value);
  }

  /** The command text of an executable and its arguments: it scans back to exactly them. */
  method ShellCommand(executable: string, arguments: seq<string>) returns (command: Option<string>)
    ensures command.Some? <==> executable != "" && NulFree(executable) && AllNulFree(arguments)
    ensures command.Some? ==> Tokens(command.value) == Some([executable] + arguments)
    ensures command.Some? ==> CommandName(command.value) == if Mistaken(executable) then None else Some(executable)
  {
    hide Run, Word, Taken, NulFree, Tokens, CommandName, Mistaken;
    if executable == "" { return None; }
    var first := ShellWord(executable);
    if first.None? { return None; }
    var text := first.value;
    FirstWord(executable);
    assert [executable] + arguments[..0] == [executable];
    var i := 0;
    while i < |arguments|
      invariant 0 <= i <= |arguments|
      invariant AllNulFree(arguments[..i])
      invariant Run(Some(START), text) == Some(Taken([executable] + arguments[..i]))
      invariant text == Word(executable) || Word(executable) + " " <= text
    {
      var word := ShellWord(arguments[i]);
      if word.None? { return None; }
      AnotherWord([executable] + arguments[..i], text, arguments[i]);
      assert [executable] + arguments[..i] + [arguments[i]] == [executable] + arguments[..i + 1];
      assert text + " " <= text + " " + word.value;
      text := text + " " + word.value;
      i := i + 1;
    }
    assert arguments[..|arguments|] == arguments;
    TakenTokens(text, [executable] + arguments);
    NamesExecutable(executable, text, [executable] + arguments);
    return Some(text);
  }

  /** The scan right after the last of these words. */
  function Taken(words: seq<string>): Scan
    requires words != []
  {
    Scan(words[..|words| - 1], Some(words[|words| - 1]), Plain)
  }

  lemma TakenTokens(text: string, words: seq<string>)
    requires words != []
    ensures Ended(Taken(words)).words == words
    ensures Run(Some(START), text) == Some(Taken(words)) ==> Tokens(text) == Some(words)
  {}

  lemma FirstWord(value: string)
    ensures Run(Some(START), Word(value)) == Some(Taken([value]))
  {
    WordScans(START, value);
    assert "" + value == value;
  }

  lemma AnotherWord(words: seq<string>, text: string, value: string)
    requires words != [] && Run(Some(START), text) == Some(Taken(words))
    ensures Run(Some(START), text + " " + Word(value)) == Some(Taken(words + [value]))
  {
    var s := Taken(words);
    RunConcat(Some(START), text, " ");
    assert Run(Some(s), " ") == Run(Some(Ended(s)), "");
    RunConcat(Some(START), text + " ", Word(value));
    TakenTokens(text, words);
    WordScans(Ended(s), value);
    assert "" + value == value && (words + [value])[..|words|] == words;
  }

  // ----- lines of bounded width -----

  /** The printed lines, each with its newline. */
  function Ends(lines: seq<string>): string {
    if lines == [] then "" else Ends(lines[..|lines| - 1]) + lines[|lines| - 1] + "\n"
  }

  lemma EndsStep(lines: seq<string>, line: string)
    ensures Ends(lines + [line]) == Ends(lines) + line + "\n"
  {
    assert (lines + [line])[..|lines|] == lines;
  }

  /** A backslash at the end of a line disappears together with the newline. */
  lemma Continued(s: Scan)
    requires s.mode == Plain
    ensures Run(Some(s), "\\\n") == Some(s)
  {
    var text := "\\\n";
    RunOne(s, text);
    RunOne(s.(mode := Escaped), text[1..]);
    assert text[1..] == "\n";
  }

  /** Breaking the line between two pieces changes nothing. */
  lemma BreakLine(lines: seq<string>, line: string, s: Scan)
    requires s.mode == Plain && Run(Some(START), Ends(lines) + line) == Some(s)
    ensures Run(Some(START), Ends(lines + [line + "\\"])) == Some(s)
  {
    hide Run;
    EndsStep(lines, line + "\\");
    var text := Ends(lines) + line;
    RunConcat(Some(START), text, "\\\n");
    Continued(s);
    assert Ends(lines) + (line + "\\") + "\n" == text + "\\\n";
  }

  lemma EndWord(text: string, s: Scan)
    requires s.mode == Plain && Run(Some(START), text) == Some(s)
    ensures Run(Some(START), text + " ") == Some(Ended(s))
  {
    hide Run;
    RunConcat(Some(START), text, " ");
    RunOne(s, " ");
  }

  lemma AddWord(text: string, s: Scan, value: string)
    requires s.mode == Plain && Run(Some(START), text) == Some(s)
    ensures Run(Some(START), text + Word(value)) == Some(Glued(s, value))
  {
    hide Run;
    RunConcat(Some(START), text, Word(value));
    WordScans(s, value);
  }

  /** What is printed so far reads as the words taken so far. */
  ghost predicate Printed(lines: seq<string>, line: string, width: nat, s: Scan) {
    && width >= 16 && s.mode == Plain
    && Run(Some(START), Ends(lines) + line) == Some(s)
    && |line| <= width - 2 && forall i | 0 <= i < |lines| :: |lines[i]| <= width
  }

  /** The words before this one are complete. */
  function Pending(words: seq<string>): Scan {
    Scan(words, None, Plain)
  }

  /** The raw text of the pieces printed so far, and that the lines before them are still there. */
  ghost predicate Pieced(before: string, text: string, argument: string, chunk: nat, offset: nat, raw: string)
    requires chunk > 0
  {
    && before <= text && raw + Pieces(argument[Least(offset, |argument|)..], chunk) == Pieces(argument, chunk)
    && (before == "" ==> Reads(START, text, raw))
  }

  lemma PiecedStart(before: string, argument: string, chunk: nat)
    requires chunk > 0
    ensures Pieced(before, before, argument, chunk, 0, "")
  {
    hide Reads, Pieces;
    ReadsNothing(START);
    assert argument[0..] == argument && "" + Pieces(argument, chunk) == Pieces(argument, chunk);
  }

  lemma PiecedBreak(before: string, text: string, argument: string, chunk: nat, offset: nat, raw: string, s: Scan)
    requires chunk > 0 && Pieced(before, text, argument, chunk, offset, raw)
    requires Run(Some(START), text) == Some(s) && s.mode == Plain
    ensures Pieced(before, text + "\\\n", argument, chunk, offset, raw)
  {
    hide Reads, Run, Pieces;
    if before == "" {
      ReadsContinuation(s);
      ReadsConcat(START, text, raw, "\\\n", "");
      assert raw + "" == raw;
    }
  }

  lemma PiecedAdd(before: string, text: string, argument: string, chunk: nat, offset: nat, raw: string, s: Scan)
    requires chunk > 0 && offset < |argument| && Pieced(before, text, argument, chunk, offset, raw)
    requires Run(Some(START), text) == Some(s) && s.mode == Plain
    ensures var word := Word(argument[offset..Least(offset + chunk, |argument|)]);
            Pieced(before, text + word, argument, chunk, offset + chunk, raw + word)
  {
    hide Reads, Run, Pieces, Word;
    var end := Least(offset + chunk, |argument|);
    var piece, rest := argument[offset..end], argument[offset..];
    ReadsWord(s, piece);
    if before == "" { ReadsConcat(START, text, raw, Word(piece), Word(piece)); }
    PiecesStep(rest, chunk);
    assert rest[..Least(chunk, |rest|)] == piece && rest[Least(chunk, |rest|)..] == argument[end..];
    assert raw + (Word(piece) + Pieces(argument[end..], chunk)) == raw + Word(piece) + Pieces(argument[end..], chunk);
  }

  lemma PiecedEnd(before: string, text: string, argument: string, chunk: nat, offset: nat, raw: string)
    requires chunk > 0 && offset >= |argument| && Pieced(before, text, argument, chunk, offset, raw)
    ensures before <= text && (before == "" ==> Reads(START, text, Pieces(argument, chunk)))
  {
    hide Reads;
    assert argument[|argument|..] == "" && raw + "" == raw;
  }

  /** Prints one long argument in quoted pieces over several lines; the line is empty. */
  method PrintPieces(argument: string, lines0: seq<string>, width: nat, ghost words: seq<string>)
    returns (lines: seq<string>, line: string)
    requires argument != "" && Printed(lines0, "", width, Pending(words))
    ensures line != "" && Printed(lines, line, width, Taken(words + [argument]))
    ensures Ends(lines0) <= Ends(lines) + line
    ensures lines0 == [] ==> Reads(START, Ends(lines) + line, Pieces(argument, (width - 4) / 5))
  {
    hide Run, Word, Ends, Pieced, Reads, Pieces;
    lines, line := lines0, "";
    ghost var raw := "";
    NoEnds();
    assert Ends(lines) + "" == Ends(lines);
    var chunk := (width - 4) / 5;
    PiecedStart(Ends(lines0), argument, chunk);
    var offset := 0;
    ghost var s := Pending(words);
    while offset < |argument|
      invariant 0 <= offset
      invariant s == (if offset == 0 then Pending(words)
                      else Scan(words, Some(argument[..Least(offset, |argument|)]), Plain))
      invariant Printed(lines, line, width, s) && (offset > 0 <==> line != "")
      invariant Pieced(Ends(lines0), Ends(lines) + line, argument, chunk, offset, raw)
      decreases |argument| - offset
    {
      var end := Least(offset + chunk, |argument|);
      var piece := argument[offset..end];
      var fragment := Word(piece);
      WordSize(piece);
      if line != "" && |line| + |fragment| > width - 2 {
        BreakLine(lines, line, s);
        PiecedBreak(Ends(lines0), Ends(lines) + line, argument, chunk, offset, raw, s);
        EndsBreak(lines, line);
        lines, line := lines + [line + "\\"], "";
        assert Ends(lines) + "" == Ends(lines);
      }
      AddWord(Ends(lines) + line, s, piece);
      PiecedAdd(Ends(lines0), Ends(lines) + line, argument, chunk, offset, raw, s);
      assert Ends(lines) + line + fragment == Ends(lines) + (line + fragment);
      assert Begun(s) + piece == argument[..end];
      raw, line := raw + fragment, line + fragment;
      s := Glued(s, piece);
      offset := offset + chunk;
    }
    assert argument[..|argument|] == argument;
    assert (words + [argument])[..|words|] == words;
    PiecedEnd(Ends(lines0), Ends(lines) + line, argument, chunk, offset, raw);
  }

  lemma EndsBreak(lines: seq<string>, line: string)
    ensures Ends(lines + [line + "\\"]) == Ends(lines) + line + "\\\n"
  {
    hide Ends;
    EndsStep(lines, line + "\\");
    assert Ends(lines) + (line + "\\") + "\n" == Ends(lines) + line + "\\\n";
  }

  lemma NoEnds()
    ensures Ends([]) == ""
  {}

  lemma PiecesStep(value: string, chunk: nat)
    requires chunk > 0 && value != ""
    ensures Pieces(value, chunk) == Word(value[..Least(chunk, |value|)]) + Pieces(value[Least(chunk, |value|)..], chunk)
  {}

  lemma PrintedFits(lines: seq<string>, line: string, width: nat, s: Scan)
    requires Printed(lines, line, width, s)
    ensures Run(Some(START), Ends(lines) + line) == Some(s)
    ensures |line| <= width && forall i | 0 <= i < |lines| :: |lines[i]| <= width
  {}

  lemma NothingPrinted(width: nat)
    requires width >= 16
    ensures Printed([], "", width, Pending([]))
  {}

  predicate AllNulFree(argv: seq<string>) {
    forall i | 0 <= i < |argv| :: NulFree(argv[i])
  }

  /** Prints all arguments; the last line is still open. */
  method PrintAll(argv: seq<string>, width: nat) returns (ok: bool, lines: seq<string>, line: string)
    requires argv != [] && width >= 16
    ensures ok <==> AllNulFree(argv)
    ensures ok ==> line != "" && Printed(lines, line, width, Taken(argv))
    ensures ok ==> CommandName(Ends(lines) + line) == if MistakenOnLines(argv[0], width) then None else Some(argv[0])
  {
    hide Run, Word, NulFree, Ends, Printed, Taken, Pending, Reads, CommandName, MistakenOnLines, FirstRaw, Tokens;
    ghost var printed := "";
    NothingPrinted(width);
    lines, line := [], "";
    var i := 0;
    while i < |argv|
      invariant 0 <= i <= |argv| && AllNulFree(argv[..i])
      invariant i == 0 <==> line == ""
      invariant Printed(lines, line, width, if i == 0 then Pending([]) else Taken(argv[..i]))
      invariant i == 0 ==> lines == []
      invariant i > 0 ==> Reads(START, printed, FirstRaw(argv[0], width)) && EndsPlain(printed)
      invariant i > 0 ==> Ends(lines) + line == printed || printed + " " <= Ends(lines) + line
    {
      var word := ShellWord(argv[i]);
      if word.None? { return false, lines, line; }
      ghost var before := Ends(lines) + line;
      lines, line := PrintArgument(argv[i], word.value, lines, line, width, argv[..i]);
      assert argv[..i] + [argv[i]] == argv[..i + 1];
      if i == 0 {
        printed := Ends(lines) + line;
        PrintedPlain(lines, line, width, Taken(argv[..1]));
      } else if before != printed {
        assert printed + " " <= before <= before + " " <= Ends(lines) + line;
      }
      i := i + 1;
    }
    assert argv[..|argv|] == argv;
    ok := true;
    PrintedFits(lines, line, width, Taken(argv));
    TakenTokens(Ends(lines) + line, argv);
    LinesNameExecutable(argv[0], width, Ends(lines) + line, printed, argv);
  }

  ghost predicate EndsPlain(text: string) {
    Run(Some(START), text).Some? && Run(Some(START), text).value.mode == Plain
  }

  lemma PrintedPlain(lines: seq<string>, line: string, width: nat, s: Scan)
    requires Printed(lines, line, width, s)
    ensures EndsPlain(Ends(lines) + line)
  {}

  /**
   CopyableShellCommandLines: every line fits the width, and the lines joined by newlines
   scan back to exactly the argument vector.
   */
  method CopyableShellCommandLines(argv: seq<string>, width: nat) returns (lines: Option<seq<string>>)
    ensures argv == [] || width < 16 ==> lines == Some([])
    ensures argv != [] && width >= 16 ==> (lines.Some? <==> AllNulFree(argv))
    ensures lines.Some? && argv != [] && width >= 16 ==>
              && (forall i | 0 <= i < |lines.value| :: |lines.value[i]| <= width)
              && Tokens(JoinLines(lines.value)) == Some(argv)
              && CommandName(JoinLines(lines.value))
                 == (if MistakenOnLines(argv[0], width) then None else Some(argv[0]))
  {
    hide Run, Tokens, Ends, Printed, Taken, JoinLines, AllNulFree, CommandName, MistakenOnLines;
    if argv == [] || width < 16 { return Some([]); }
    var ok, done, line := PrintAll(argv, width);
    if !ok { return None; }
    if line != "" {
      PrintedFits(done, line, width, Taken(argv));
      TakenTokens(Ends(done) + line, argv);
      JoinsLines(done, line);
      done := done + [line];
    }
    return Some(done);
  }

  /** The separator before a further argument: a blank, and a new line if the argument does not fit. */
  method Separate(size: nat, lines0: seq<string>, line0: string, width: nat, ghost words: seq<string>)
    returns (lines: seq<string>, line: string)
    requires words != [] && Printed(lines0, line0, width, Taken(words)) && line0 != ""
    ensures Printed(lines, line, width, Pending(words)) && (line != "" ==> |line| + size <= width - 2)
    ensures Ends(lines0) + line0 + " " <= Ends(lines) + line
  {
    hide Run, Ends;
    EndWord(Ends(lines0) + line0, Taken(words));
    TakenTokens("", words);
    var longer := line0 + " ";
    assert Ends(lines0) + line0 + " " == Ends(lines0) + longer;
    if |line0| + 1 + size > width - 2 {
      BreakLine(lines0, longer, Pending(words));
      EndsStep(lines0, longer + "\\");
      lines, line := lines0 + [longer + "\\"], "";
      assert Ends(lines0) + (longer + "\\") + "\n" == Ends(lines0) + longer + "\\\n";
      assert Ends(lines) + "" == Ends(lines);
    } else {
      lines, line := lines0, longer;
    }
  }

  /** One argument: on the line at hand, on a new line, or in pieces. */
  method PrintArgument(argument: string, word: string, lines0: seq<string>, line0: string, width: nat,
                       ghost words: seq<string>)
    returns (lines: seq<string>, line: string)
    requires word == Word(argument) && (words == [] <==> line0 == "")
    requires Printed(lines0, line0, width, if words == [] then Pending([]) else Taken(words))
    ensures line != "" && Printed(lines, line, width, Taken(words + [argument]))
    ensures line0 != "" ==> Ends(lines0) + line0 + " " <= Ends(lines) + line
    ensures lines0 == [] && line0 == "" ==> Reads(START, Ends(lines) + line, FirstRaw(argument, width))
  {
    hide Run, Word, Ends, Reads, Pieces;
    lines, line := lines0, line0;
    if line != "" { lines, line := Separate(|word|, lines, line, width, words); }
    if |line| + |word| <= width - 2 {
      AddWord(Ends(lines) + line, Pending(words), argument);
      GluedIsTaken(words, argument);
      WordSize(argument);
      assert Ends(lines) + line + word == Ends(lines) + (line + word);
      line := line + word;
      if lines0 == [] && line0 == "" {
        NoEnds();
        assert Ends(lines) + line == word;
        ReadsWord(START, argument);
      }
      return;
    }
    WordSize(argument);
    lines, line := PrintPieces(argument, lines, width, words);
  }

  lemma GluedIsTaken(words: seq<string>, argument: string)
    ensures Glued(Pending(words), argument) == Taken(words + [argument])
  {
    assert "" + argument == argument && (words + [argument])[..|words|] == words;
  }

  /** The lines joined by newlines. */
  function JoinLines(lines: seq<string>): string {
    if lines == [] then "" else Ends(lines[..|lines| - 1]) + lines[|lines| - 1]
  }

  lemma JoinsLines(lines: seq<string>, line: string)
    ensures JoinLines(lines + [line]) == Ends(lines) + line
  {
    assert (lines + [line])[..|lines|] == lines;
  }
}
