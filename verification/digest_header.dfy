/**
 The digest header printer and parser: tokens and quoted strings of section 3.2.6 of RFC
 7230, parameters of section 3.4 of RFC 7616.  A character stands for one byte.
 */
module DigestHeader {
  import opened Wrappers

  predicate Control(c: char) {
    c as int < 0x20 || c as int == 0x7f
  }

  predicate ControlFree(value: string) {
    forall i | 0 <= i < |value| :: !Control(value[i])
  }

  predicate TokenCharacter(c: char) {
    'a' <= c <= 'z' || 'A' <= c <= 'Z' || '0' <= c <= '9' || c in "!#$%&'*+-.^_`|~"
  }

  predicate Blank(c: char) {
    c == ' ' || c == '\t'
  }

  // ----- reading: what is left of the text after each piece -----

  function Skip(s: string): (rest: string)
    ensures |rest| <= |s|
  {
    if s != "" && Blank(s[0]) then Skip(s[1..]) else s
  }

  /** The longest token at the front. */
  function TokenSize(s: string): (n: nat)
    ensures n <= |s|
  {
    if s != "" && TokenCharacter(s[0]) then 1 + TokenSize(s[1..]) else 0
  }

  /** The rest of a quoted string, after its opening quote. */
  function Unquoted(s: string): Option<(string, string)> {
    if s == "" then None
    else if s[0] == '"' then Some(("", s[1..]))
    else if s[0] == '\\' then
      if |s| < 2 || Control(s[1]) then None else Prepend(s[1], Unquoted(s[2..]))
    else if Control(s[0]) then None
    else Prepend(s[0], Unquoted(s[1..]))
  }

  function Prepend(c: char, r: Option<(string, string)>): Option<(string, string)> {
    if r.None? then None else Some(([c] + r.value.0, r.value.1))
  }

  lemma {:induction false} UnquotedShrinks(s: string)
    ensures Unquoted(s).Some? ==> |Unquoted(s).value.1| < |s|
    decreases |s|
  {
    if s != "" && s[0] != '"' {
      if s[0] == '\\' { if |s| >= 2 { UnquotedShrinks(s[2..]); } } else { UnquotedShrinks(s[1..]); }
    }
  }

  function Token(s: string): Option<(string, string)> {
    var n := TokenSize(s);
    if n == 0 then None else Some((s[..n], s[n..]))
  }

  function Value(s: string): (r: Option<(string, string)>)
    ensures r.Some? ==> |r.value.1| < |s|
  {
    if s == "" then None
    else if s[0] == '"' then (UnquotedShrinks(s[1..]); Unquoted(s[1..]))
    else Token(s)
  }

  function LowerCharacter(c: char): char {
    if 'A' <= c <= 'Z' then (c as int + 32) as char else c
  }

  function Lower(s: string): string {
    seq(|s|, i requires 0 <= i < |s| => LowerCharacter(s[i]))
  }

  /** One `name = value`, and what follows it. */
  function Parameter(s: string): (r: Option<(string, string, string)>)
    ensures r.Some? ==> |r.value.2| < |s|
  {
    var name := Token(s);
    if name.None? then None
    else
      var equals := Skip(name.value.1);
      if equals == "" || equals[0] != '=' then None
      else
        var value := Value(Skip(equals[1..]));
        if value.None? then None else Some((Lower(name.value.0), value.value.0, Skip(value.value.1)))
  }

  function Parameters(s: string, known: map<string, string>): Option<map<string, string>>
    decreases |s|
  {
    var start := Skip(s);
    if start == "" then Some(known)
    else
      var p := Parameter(start);
      if p.None? || p.value.0 in known then None
      else
        var more, rest := known[p.value.0 := p.value.1], p.value.2;
        if rest == "" then Some(more)
        else if rest[0] != ',' then None
        else Parameters(rest[1..], more)
  }

  datatype Challenge = Challenge(realm: string, nonce: string, stale: bool)

  /** Malformed text throws; an unsupported challenge is skipped. */
  datatype Parsed = Malformed | Unsupported | Parsed(challenge: Challenge)

  const MAX_HEADER: nat := 4096
  const MAX_VALUE: nat := 1024

  function Supported(p: map<string, string>): Parsed {
    if !("realm" in p) || p["realm"] == "" || |p["realm"]| > MAX_VALUE
       || !("nonce" in p) || p["nonce"] == "" || |p["nonce"]| > MAX_VALUE
       || ("algorithm" in p && Lower(p["algorithm"]) != "md5")
       || !("qop" in p) || Lower(p["qop"]) != "auth"
    then Unsupported
    else if "stale" in p && Lower(p["stale"]) == "true" then Parsed(Challenge(p["realm"], p["nonce"], true))
    else if "stale" in p && Lower(p["stale"]) != "false" then Malformed
    else Parsed(Challenge(p["realm"], p["nonce"], false))
  }

  function ParseChallenge(input: string): Parsed {
    if input == "" || |input| > MAX_HEADER then Malformed
    else
      var scheme := Token(Skip(input));
      if scheme.None? then Malformed
      else if Lower(scheme.value.0) != "digest" then Unsupported
      else if scheme.value.1 == "" || !Blank(scheme.value.1[0]) then Malformed
      else
        var p := Parameters(scheme.value.1, map[]);
        if p.None? then Malformed else Supported(p.value)
  }

  // ----- printing -----

  function Escaped(c: char): string {
    if c == '"' || c == '\\' then ['\\', c] else [c]
  }

  function QuotedBody(value: string): string {
    if value == "" then "" else Escaped(value[0]) + QuotedBody(value[1..])
  }

  function Quoted(value: string): string {
    "\"" + QuotedBody(value) + "\""
  }

  lemma {:induction false} BodyReads(value: string, rest: string)
    requires ControlFree(value)
    ensures Unquoted(QuotedBody(value) + "\"" + rest) == Some((value, rest))
    decreases |value|
  {
    if value == "" {
      var text := QuotedBody(value) + "\"" + rest;
      assert text[0] == '"' && text[1..] == rest;
    } else {
      var c := value[0];
      var tail := QuotedBody(value[1..]) + "\"" + rest;
      var text := QuotedBody(value) + "\"" + rest;
      assert text == Escaped(c) + tail;
      BodyReads(value[1..], rest);
      assert value == [c] + value[1..];
      if c == '"' || c == '\\' {
        assert text[0] == '\\' && text[1] == c && text[2..] == tail;
      } else {
        assert text[0] == c && text[1..] == tail;
      }
    }
  }

  /** A printed value is read back exactly, up to right after its closing quote. */
  lemma QuotedReads(value: string, rest: string)
    requires ControlFree(value)
    ensures Value(Quoted(value) + rest) == Some((value, rest))
  {
    var text := Quoted(value) + rest;
    assert text[0] == '"' && text[1..] == QuotedBody(value) + "\"" + rest;
    BodyReads(value, rest);
  }

  // ----- parameter lists -----

  datatype Field = Bare(name: string, token: string) | Text(name: string, value: string)

  function FieldValue(f: Field): string {
    if f.Bare? then f.token else f.value
  }

  function Shown(f: Field): string {
    if f.Bare? then f.token else Quoted(f.value)
  }

  function FieldText(f: Field): string {
    f.name + "=" + Shown(f)
  }

  predicate IsToken(s: string) {
    s != "" && forall i | 0 <= i < |s| :: TokenCharacter(s[i])
  }

  ghost predicate Printable(f: Field) {
    && IsToken(f.name) && Lower(f.name) == f.name
    && (f.Bare? ==> IsToken(f.token)) && (f.Text? ==> ControlFree(f.value))
  }

  lemma {:induction false} TokenReads(token: string, rest: string)
    requires (forall i | 0 <= i < |token| :: TokenCharacter(token[i])) && (rest == "" || !TokenCharacter(rest[0]))
    ensures TokenSize(token + rest) == |token|
    decreases |token|
  {
    if token != "" {
      assert (token + rest)[0] == token[0] && (token + rest)[1..] == token[1..] + rest;
      TokenReads(token[1..], rest);
    } else {
      assert token + rest == rest;
    }
  }

  lemma WholeTokenReads(token: string, rest: string)
    requires IsToken(token) && (rest == "" || !TokenCharacter(rest[0]))
    ensures Token(token + rest) == Some((token, rest))
  {
    TokenReads(token, rest);
    assert (token + rest)[..|token|] == token && (token + rest)[|token|..] == rest;
  }

  lemma NoSkip(s: string)
    requires s == "" || !Blank(s[0])
    ensures Skip(s) == s
  {}

  lemma Separators()
    ensures !TokenCharacter('=') && !TokenCharacter(',')
    ensures !TokenCharacter('"') && !TokenCharacter(' ') && !TokenCharacter('\t')
  {}

  /** A printed value is neither blank nor, when bare, quoted at its front. */
  lemma ShownStarts(f: Field)
    requires Printable(f)
    ensures Shown(f) != "" && !Blank(Shown(f)[0]) && (f.Bare? ==> Shown(f)[0] != '"')
  {
    hide TokenCharacter;
    Separators();
    if f.Bare? { assert TokenCharacter(f.token[0]); }
  }

  lemma ShownReads(f: Field, rest: string)
    requires Printable(f) && (rest == "" || rest[0] == ',')
    ensures Value(Shown(f) + rest) == Some((FieldValue(f), rest)) && Skip(Shown(f) + rest) == Shown(f) + rest
  {
    hide Unquoted, TokenSize, TokenCharacter, IsToken, ControlFree;
    Separators();
    ShownStarts(f);
    assert (Shown(f) + rest)[0] == Shown(f)[0];
    NoSkip(Shown(f) + rest);
    if f.Bare? {
      WholeTokenReads(f.token, rest);
    } else {
      QuotedReads(f.value, rest);
    }
  }

  lemma FieldReads(f: Field, rest: string)
    requires Printable(f) && (rest == "" || rest[0] == ',')
    ensures Parameter(FieldText(f) + rest) == Some((f.name, FieldValue(f), rest))
  {
    hide Value, Token, Shown, TokenCharacter, IsToken, ControlFree, Skip;
    var equals := "=" + Shown(f) + rest;
    assert FieldText(f) + rest == f.name + equals;
    Separators();
    WholeTokenReads(f.name, equals);
    NoSkip(equals);
    assert equals[1..] == Shown(f) + rest;
    ShownReads(f, rest);
    NoSkip(rest);
  }

  function FieldsText(fields: seq<Field>): string {
    if fields == [] then "" else if |fields| == 1 then FieldText(fields[0])
    else FieldText(fields[0]) + "," + FieldsText(fields[1..])
  }

  function Collected(known: map<string, string>, fields: seq<Field>): map<string, string>
    decreases |fields|
  {
    if fields == [] then known else Collected(known[fields[0].name := FieldValue(fields[0])], fields[1..])
  }

  ghost predicate NewNames(known: map<string, string>, fields: seq<Field>) {
    && (forall i | 0 <= i < |fields| :: Printable(fields[i]) && fields[i].name !in known)
    && (forall i, j | 0 <= i < j < |fields| :: fields[i].name != fields[j].name)
  }

  lemma {:induction false} FieldsRead(known: map<string, string>, fields: seq<Field>)
    requires fields != [] && NewNames(known, fields)
    ensures Parameters(FieldsText(fields), known) == Some(Collected(known, fields))
    decreases |fields|
  {
    hide Parameter, FieldText, Printable;
    var f := fields[0];
    var rest := if |fields| == 1 then "" else "," + FieldsText(fields[1..]);
    var text := FieldsText(fields);
    assert text == FieldText(f) + rest;
    FieldReads(f, rest);
    StartsWithToken(f, rest);
    var more := known[f.name := FieldValue(f)];
    if |fields| > 1 {
      forall i | 0 <= i < |fields[1..]| ensures Printable(fields[1..][i]) && fields[1..][i].name !in more {
        assert fields[1..][i] == fields[i + 1];
      }
      FieldsRead(more, fields[1..]);
      assert rest[1..] == FieldsText(fields[1..]);
    } else {
      assert fields[1..] == [];
    }
  }

  lemma StartsWithToken(f: Field, rest: string)
    requires Printable(f)
    ensures var text := FieldText(f) + rest; text != "" && Skip(text) == text
  {
    hide Shown, Lower, ControlFree;
    var text := f.name + "=" + Shown(f) + rest;
    assert text[0] == f.name[0];
    TokenIsNotBlank(f.name[0]);
    NothingToSkip(text);
  }

  lemma TokenIsNotBlank(c: char)
    requires TokenCharacter(c)
    ensures !Blank(c)
  {}

  lemma NothingToSkip(text: string)
    requires text != "" && !Blank(text[0])
    ensures Skip(text) == text
  {}

  // ----- the authorization header -----

  const NONCE_COUNT := "00000001"

  /** The MD5 digest of a text in hexadecimal; only that it is control-free matters here. */
  type Md5 = string -> string

  function Response(md5: Md5, user: string, password: string, challenge: Challenge, path: string): string {
    var first := md5(user + ":" + challenge.realm + ":" + password);
    var second := md5("POST:" + path);
    md5(first + ":" + challenge.nonce + ":" + NONCE_COUNT + "::auth:" + second)
  }

  function AuthorizationFields(challenge: Challenge, response: string, path: string, user: string): seq<Field> {
    [Bare("algorithm", "MD5"), Text("nonce", challenge.nonce), Text("realm", challenge.realm),
     Text("response", response), Text("uri", path), Text("username", user), Bare("qop", "auth"),
     Bare("nc", NONCE_COUNT)]
  }

  function Authorization(challenge: Challenge, response: string, path: string, user: string): string {
    "Digest " + FieldsText(AuthorizationFields(challenge, response, path, user))
  }

  predicate LowerLetters(s: string) {
    s != "" && forall i | 0 <= i < |s| :: 'a' <= s[i] <= 'z'
  }

  lemma LettersPrint(name: string, f: Field)
    requires LowerLetters(name) && f.name == name && (f.Text? ==> ControlFree(f.value))
    requires f.Bare? ==> f.token != "" && forall i | 0 <= i < |f.token| :: Letter(f.token[i])
    ensures Printable(f)
  {
    assert Lower(name) == name;
  }

  predicate Letter(c: char) {
    'a' <= c <= 'z' || 'A' <= c <= 'Z' || '0' <= c <= '9'
  }

  lemma FieldNames(challenge: Challenge, response: string, path: string, user: string)
    requires ControlFree(challenge.nonce) && ControlFree(challenge.realm)
    requires ControlFree(response) && ControlFree(path) && ControlFree(user)
    ensures NewNames(map[], AuthorizationFields(challenge, response, path, user))
  {
    hide Printable, ControlFree;
    var fields := AuthorizationFields(challenge, response, path, user);
    LettersPrint("algorithm", fields[0]);
    LettersPrint("nonce", fields[1]);
    LettersPrint("realm", fields[2]);
    LettersPrint("response", fields[3]);
    LettersPrint("uri", fields[4]);
    LettersPrint("username", fields[5]);
    LettersPrint("qop", fields[6]);
    LettersPrint("nc", fields[7]);
    NamesDiffer(challenge, response, path, user);
  }

  lemma NamesDiffer(challenge: Challenge, response: string, path: string, user: string)
    ensures var fields := AuthorizationFields(challenge, response, path, user);
            forall i, j | 0 <= i < j < |fields| :: fields[i].name != fields[j].name
  {
    var fields := AuthorizationFields(challenge, response, path, user);
    var sizes := [9, 5, 5, 8, 3, 8, 3, 2];
    assert forall i | 0 <= i < |fields| :: |fields[i].name| == sizes[i];
    assert fields[1].name[0] != fields[2].name[0] && fields[3].name[0] != fields[5].name[0] &&
           fields[4].name[0] != fields[6].name[0];
  }

  lemma CollectedFields(challenge: Challenge, response: string, path: string, user: string)
    ensures var p := Collected(map[], AuthorizationFields(challenge, response, path, user));
            && "realm" in p && p["realm"] == challenge.realm && "nonce" in p && p["nonce"] == challenge.nonce
            && "algorithm" in p && p["algorithm"] == "MD5" && "qop" in p && p["qop"] == "auth" && "stale" !in p
  {
    var fields := AuthorizationFields(challenge, response, path, user);
    CollectedAt(map[], fields, 2);
    CollectedAt(map[], fields, 1);
    CollectedAt(map[], fields, 0);
    CollectedAt(map[], fields, 6);
    NamesDiffer(challenge, response, path, user);
    OnlyCollected(map[], fields, "stale");
    assert forall i | 0 <= i < |fields| :: fields[i].name != "stale" by {
      assert fields[1].name[0] != "stale"[0] && fields[2].name[0] != "stale"[0];
    }
  }

  lemma {:induction false} CollectedAt(known: map<string, string>, fields: seq<Field>, i: nat)
    requires i < |fields|
    ensures (forall a, b | 0 <= a < b < |fields| :: fields[a].name != fields[b].name) ==>
              && fields[i].name in Collected(known, fields)
              && Collected(known, fields)[fields[i].name] == FieldValue(fields[i])
    decreases |fields|
  {
    var more := known[fields[0].name := FieldValue(fields[0])];
    if i > 0 {
      CollectedAt(more, fields[1..], i - 1);
    } else {
      Unchanged(more, fields[1..], fields[0].name);
    }
  }

  lemma {:induction false} Unchanged(known: map<string, string>, fields: seq<Field>, name: string)
    requires name in known
    ensures (forall i | 0 <= i < |fields| :: fields[i].name != name) ==>
              name in Collected(known, fields) && Collected(known, fields)[name] == known[name]
    decreases |fields|
  {
    if fields != [] { Unchanged(known[fields[0].name := FieldValue(fields[0])], fields[1..], name); }
  }

  lemma {:induction false} OnlyCollected(known: map<string, string>, fields: seq<Field>, name: string)
    ensures name in Collected(known, fields) ==>
              name in known || exists i :: 0 <= i < |fields| && fields[i].name == name
    decreases |fields|
  {
    if fields != [] {
      OnlyCollected(known[fields[0].name := FieldValue(fields[0])], fields[1..], name);
      if name in Collected(known, fields) && name !in known && name != fields[0].name {
        var i :| 0 <= i < |fields[1..]| && fields[1..][i].name == name;
        assert fields[i + 1].name == name;
      }
    }
  }

  /** Within the size limits the parser recovers realm and nonce from a printed header. */
  lemma AuthorizationReads(challenge: Challenge, response: string, path: string, user: string)
    requires ControlFree(challenge.nonce) && ControlFree(challenge.realm)
    requires ControlFree(response) && ControlFree(path) && ControlFree(user)
    requires 1 <= |challenge.realm| <= MAX_VALUE && 1 <= |challenge.nonce| <= MAX_VALUE
    requires |Authorization(challenge, response, path, user)| <= MAX_HEADER
    ensures ParseChallenge(Authorization(challenge, response, path, user))
         == Parsed(Challenge(challenge.realm, challenge.nonce, false))
  {
    hide Parameters, Collected, FieldsText, AuthorizationFields, ControlFree, Printable, NewNames, TokenCharacter;
    var fields := AuthorizationFields(challenge, response, path, user);
    FieldNames(challenge, response, path, user);
    EightFields(challenge, response, path, user);
    FieldsRead(map[], fields);
    CollectedFields(challenge, response, path, user);
    SchemeReads(FieldsText(fields));
    SkipsBlank(FieldsText(fields));
    assert Lower("MD5") == "md5" && Lower("auth") == "auth";
  }

  lemma EightFields(challenge: Challenge, response: string, path: string, user: string)
    ensures AuthorizationFields(challenge, response, path, user) != []
  {}

  lemma SchemeReads(rest: string)
    ensures Token(Skip("Digest " + rest)) == Some(("Digest", " " + rest)) && Lower("Digest") == "digest"
  {
    assert "Digest " + rest == "Digest" + (" " + rest);
    WholeTokenReads("Digest", " " + rest);
    NoSkip("Digest " + rest);
  }

  lemma SkipsBlank(rest: string)
    ensures Parameters(" " + rest, map[]) == Parameters(rest, map[])
  {
    assert (" " + rest)[1..] == rest;
    assert Skip(" " + rest) == Skip(rest);
  }

  // ----- the loops -----

  method SkipOptionalWhitespace(input: string, position: nat) returns (next: nat)
    requires position <= |input|
    ensures position <= next <= |input| && input[next..] == Skip(input[position..])
  {
    next := position;
    while next < |input| && Blank(input[next])
      invariant position <= next <= |input|
      invariant Skip(input[next..]) == Skip(input[position..])
    {
      assert input[next..][0] == input[next] && input[next..][1..] == input[next + 1..];
      next := next + 1;
    }
    assert next < |input| ==> input[next..][0] == input[next];
  }

  method ParseHttpToken(input: string, position: nat) returns (token: Option<string>, next: nat)
    requires position <= |input|
    ensures position <= next <= |input|
    ensures token.None? <==> Token(input[position..]).None?
    ensures token.Some? ==> Token(input[position..]) == Some((token.value, input[next..]))
  {
    hide TokenCharacter;
    next := position;
    while next < |input| && TokenCharacter(input[next])
      invariant position <= next <= |input|
      invariant TokenSize(input[position..]) == next - position + TokenSize(input[next..])
    {
      assert input[next..][0] == input[next] && input[next..][1..] == input[next + 1..];
      next := next + 1;
    }
    assert next < |input| ==> input[next..][0] == input[next];
    if next == position { return None, next; }
    assert input[position..][..next - position] == input[position..next];
    assert input[position..][next - position..] == input[next..];
    return Some(input[position..next]), next;
  }

  /** The value read so far in front of what is still to be read. */
  function Resumed(value: string, r: Option<(string, string)>): Option<(string, string)> {
    if r.None? then None else Some((value + r.value.0, r.value.1))
  }

  lemma ResumeOne(value: string, c: char, r: Option<(string, string)>)
    ensures Resumed(value, Prepend(c, r)) == Resumed(value + [c], r)
  {
    if r.Some? { assert value + ([c] + r.value.0) == value + [c] + r.value.0; }
  }

  method ParseDigestValue(input: string, position: nat) returns (value: Option<string>, next: nat)
    requires position <= |input|
    ensures position <= next <= |input|
    ensures value.None? <==> Value(input[position..]).None?
    ensures value.Some? ==> Value(input[position..]) == Some((value.value, input[next..]))
  {
    next := position;
    if position >= |input| { return None, next; }
    assert input[position..][0] == input[position];
    if input[position] != '"' {
      value, next := ParseHttpToken(input, position);
      return;
    }
    next := position + 1;
    assert input[position..][1..] == input[next..];
    var text := "";
    ghost var whole := Unquoted(input[next..]);
    assert whole == Resumed("", whole) by { if whole.Some? { assert "" + whole.value.0 == whole.value.0; } }
    while next < |input|
      invariant position < next <= |input|
      invariant whole == Resumed(text, Unquoted(input[next..]))
    {
      var here := input[next..];
      var character := input[next];
      assert here[0] == character && here[1..] == input[next + 1..];
      next := next + 1;
      if character == '"' {
        assert text + "" == text;
        return Some(text), next;
      }
      if character == '\\' {
        if next >= |input| { return None, next; }
        var escaped := input[next];
        assert here[1] == escaped && here[2..] == input[next + 1..];
        next := next + 1;
        if Control(escaped) { return None, next; }
        ResumeOne(text, escaped, Unquoted(input[next..]));
        text := text + [escaped];
        continue;
      }
      if Control(character) { return None, next; }
      ResumeOne(text, character, Unquoted(input[next..]));
      text := text + [character];
    }
    return None, next;
  }

  method QuotedDigestValue(value: string) returns (quoted: Option<string>)
    ensures quoted == if ControlFree(value) then Some(Quoted(value)) else None
  {
    var text, i := "\"", 0;
    while i < |value|
      invariant 0 <= i <= |value| && ControlFree(value[..i])
      invariant text == "\"" + QuotedBody(value[..i])
    {
      var c := value[i];
      if Control(c) { return None; }
      BodyAppends(value[..i], c);
      assert value[..i] + [c] == value[..i + 1];
      if c == '"' || c == '\\' { text := text + "\\"; }
      text := text + [c];
      i := i + 1;
    }
    assert value[..|value|] == value;
    return Some(text + "\"");
  }

  lemma {:induction false} BodyAppends(value: string, c: char)
    ensures QuotedBody(value + [c]) == QuotedBody(value) + Escaped(c)
    decreases |value|
  {
    if value == "" {
      assert value + [c] == [c];
      assert QuotedBody([c]) == Escaped(c) + QuotedBody([c][1..]);
    } else {
      assert (value + [c])[0] == value[0] && (value + [c])[1..] == value[1..] + [c];
      BodyAppends(value[1..], c);
    }
  }

  /** One parameter; `None` where the parser throws. */
  method ParseParameter(input: string, position: nat) returns (parameter: Option<(string, string)>, next: nat)
    requires position <= |input|
    ensures position <= next <= |input|
    ensures parameter.None? <==> Parameter(input[position..]).None?
    ensures parameter.Some? ==>
              && Parameter(input[position..]) == Some((parameter.value.0, parameter.value.1, input[next..]))
              && position < next
  {
    hide Token, Value, Skip;
    var name;
    name, next := ParseHttpToken(input, position);
    if name.None? { return None, next; }
    next := SkipOptionalWhitespace(input, next);
    if next >= |input| { return None, next; }
    assert input[next..][0] == input[next];
    if input[next] != '=' { return None, next; }
    assert input[next..][1..] == input[next + 1..];
    next := SkipOptionalWhitespace(input, next + 1);
    var value;
    value, next := ParseDigestValue(input, next);
    if value.None? { return None, next; }
    next := SkipOptionalWhitespace(input, next);
    parameter := Some((Lower(name.value), value.value));
  }

  method ParseParameters(input: string, position: nat) returns (parameters: Option<map<string, string>>)
    requires position <= |input|
    ensures parameters == Parameters(input[position..], map[])
  {
    hide Parameter, Skip;
    var known: map<string, string>, next := map[], position;
    while next < |input|
      invariant position <= next <= |input|
      invariant Parameters(input[position..], map[]) == Parameters(input[next..], known)
      decreases |input| - next
    {
      ghost var from := next;
      next := SkipOptionalWhitespace(input, next);
      if next >= |input| { return Some(known); }
      var p;
      p, next := ParseParameter(input, next);
      if p.None? { return None; }
      if p.value.0 in known { return None; }
      known := known[p.value.0 := p.value.1];
      if next >= |input| { return Some(known); }
      assert input[next..][0] == input[next];
      if input[next] != ',' { return None; }
      assert input[next..][1..] == input[next + 1..];
      next := next + 1;
    }
    SkipNothing();
    return Some(known);
  }

  lemma SkipNothing()
    ensures Skip("") == ""
  {}

  method ParseDigestChallenge(input: string) returns (parsed: Parsed)
    ensures parsed == ParseChallenge(input)
  {
    hide Skip, Token, Parameters, Supported;
    if input == "" || |input| > MAX_HEADER { return Malformed; }
    assert input[0..] == input;
    var position := SkipOptionalWhitespace(input, 0);
    var scheme;
    scheme, position := ParseHttpToken(input, position);
    if scheme.None? { return Malformed; }
    if Lower(scheme.value) != "digest" { return Unsupported; }
    if position >= |input| { return Malformed; }
    assert input[position..][0] == input[position];
    if !Blank(input[position]) { return Malformed; }
    var parameters := ParseParameters(input, position);
    if parameters.None? { return Malformed; }
    return Supported(parameters.value);
  }

  /** DigestAuthorization: refused for control characters, otherwise the text the parser reads back. */
  method DigestAuthorization(md5: Md5, user: string, password: string, challenge: Challenge, path: string)
    returns (header: Option<string>)
    requires forall text :: ControlFree(md5(text))
    ensures var free := ControlFree(challenge.nonce) && ControlFree(challenge.realm) && ControlFree(path)
                        && ControlFree(user);
            var response := Response(md5, user, password, challenge, path);
            header == if free then Some(Authorization(challenge, response, path, user)) else None
  {
    hide Quoted, ControlFree, FieldsText, AuthorizationFields, Authorization;
    var first := md5(user + ":" + challenge.realm + ":" + password);
    var second := md5("POST:" + path);
    var response := md5(first + ":" + challenge.nonce + ":" + NONCE_COUNT + "::auth:" + second);
    var nonce := QuotedDigestValue(challenge.nonce);
    if nonce.None? { return None; }
    var realm := QuotedDigestValue(challenge.realm);
    if realm.None? { return None; }
    var answer := QuotedDigestValue(response);
    var uri := QuotedDigestValue(path);
    if uri.None? { return None; }
    var name := QuotedDigestValue(user);
    if name.None? { return None; }
    var text := PrintHeader(challenge, response, path, user, nonce.value, realm.value, answer.value, uri.value,
                            name.value);
    return Some(text);
  }

  method PrintHeader(ghost challenge: Challenge, ghost response: string, ghost path: string, ghost user: string,
                     nonce: string, realm: string, answer: string, uri: string, name: string) returns (text: string)
    requires nonce == Quoted(challenge.nonce) && realm == Quoted(challenge.realm) && answer == Quoted(response)
    requires uri == Quoted(path) && name == Quoted(user)
    ensures text == Authorization(challenge, response, path, user)
  {
    hide Quoted, FieldsText, AuthorizationFields;
    ghost var fields := AuthorizationFields(challenge, response, path, user);
    FieldsAre(challenge, response, path, user);
    assert fields[0..] == fields;
    text := AppendField("Digest ", "algorithm", "MD5", fields, 0);
    text := AppendField(text, "nonce", nonce, fields, 1);
    text := AppendField(text, "realm", realm, fields, 2);
    text := AppendField(text, "response", answer, fields, 3);
    text := AppendField(text, "uri", uri, fields, 4);
    text := AppendField(text, "username", name, fields, 5);
    text := AppendField(text, "qop", "auth", fields, 6);
    LastField(fields);
    assert text + ("nc" + "=" + NONCE_COUNT) == text + "nc=" + NONCE_COUNT;
    text := text + "nc=" + NONCE_COUNT;
  }

  lemma FieldsAre(challenge: Challenge, response: string, path: string, user: string)
    ensures var f := AuthorizationFields(challenge, response, path, user);
            && |f| == 8 && f[0] == Bare("algorithm", "MD5") && f[1] == Text("nonce", challenge.nonce)
            && f[2] == Text("realm", challenge.realm) && f[3] == Text("response", response) && f[4] == Text("uri", path)
            && f[5] == Text("username", user) && f[6] == Bare("qop", "auth") && f[7] == Bare("nc", NONCE_COUNT)
  {}

  /** Appends `name=shown,`; what is printed so far and the fields to come make up the header. */
  method AppendField(text: string, name: string, shown: string, ghost fields: seq<Field>, ghost i: nat)
    returns (more: string)
    requires i + 1 < |fields| && fields[i].name == name && Shown(fields[i]) == shown
    ensures more + FieldsText(fields[i + 1..]) == text + FieldsText(fields[i..])
  {
    hide Shown;
    assert fields[i..][1..] == fields[i + 1..];
    more := text + name + "=" + shown + ",";
    ghost var field, rest := FieldText(fields[i]), FieldsText(fields[i + 1..]);
    assert FieldsText(fields[i..]) == field + "," + rest;
    hide FieldsText;
    assert text + (field + "," + rest) == text + field + "," + rest;
    assert text + field == text + name + "=" + shown;
  }

  lemma LastField(fields: seq<Field>)
    requires |fields| == 8
    ensures FieldsText(fields[7..]) == fields[7].name + "=" + Shown(fields[7])
  {}
}
