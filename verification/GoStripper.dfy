/**
 Blanking the comments and literals of a Go source.

 `Kinds` is the lexer as a recursion over the text; it says of every character what
 it is. The script's loop writes into a copy of the text and is proved to blank
 exactly what those kinds say.
 */
module GoStripper {

  datatype Mode = Code | Line | Block | InString | InRune | Raw

  /**
   Plain: code. Mark: a character of a delimiter, or a backslash in a literal.
   Escaped: the character behind such a backslash. Text: inside a comment or literal.
   */
  datatype Kind = Plain | Mark | Escaped | Text

  predicate IsQuote(c: char) { c == '"' || c == '\'' || c == '`' }

  function Opened(quote: char): Mode {
    if quote == '"' then InString else if quote == '\'' then InRune else Raw
  }

  function Terminator(mode: Mode): char {
    match mode
    case InString => '"'
    case InRune => '\''
    case _ => '`'
  }

  predicate StartsWith(s: string, a: char, b: char) { |s| >= 2 && s[0] == a && s[1] == b }

  /** The kind of every character of `s`, read from `mode` on. */
  function Kinds(mode: Mode, s: string): (ks: seq<Kind>)
    ensures |ks| == |s|
    decreases |s|
  {
    if s == "" then []
    else if mode == Code then
      if StartsWith(s, '/', '/') then [Mark, Mark] + Kinds(Line, s[2..])
      else if StartsWith(s, '/', '*') then [Mark, Mark] + Kinds(Block, s[2..])
      else if IsQuote(s[0]) then [Mark] + Kinds(Opened(s[0]), s[1..])
      else [Plain] + Kinds(Code, s[1..])
    else if mode == Line then
      if s[0] == '\n' then [Plain] + Kinds(Code, s[1..]) else [Text] + Kinds(Line, s[1..])
    else if mode == Block then
      if StartsWith(s, '*', '/') then [Mark, Mark] + Kinds(Code, s[2..]) else [Text] + Kinds(Block, s[1..])
    else if mode != Raw && s[0] == '\\' then
      if |s| == 1 then [Mark] else [Mark, Escaped] + Kinds(mode, s[2..])
    else if s[0] == Terminator(mode) then [Mark] + Kinds(Code, s[1..])
    else [Text] + Kinds(mode, s[1..])
  }

  function Shown(c: char, k: Kind): char {
    if k == Plain || (k == Text && c == '\n') then c else ' '
  }

  /** What remains of a text under given kinds. */
  function Blanked(s: string, ks: seq<Kind>): (r: string)
    requires |ks| == |s|
    ensures |r| == |s| && forall i :: 0 <= i < |s| ==> r[i] == Shown(s[i], ks[i])
  {
    seq(|s|, i requires 0 <= i < |s| => Shown(s[i], ks[i]))
  }

  function Stripped(mode: Mode, s: string): string { Blanked(s, Kinds(mode, s)) }

  function Strip(s: string): string { Stripped(Code, s) }

  // ----- What the lexer's answer means ---------------------------------------

  /** Delimiters are what they look like, and code contains no quote. */
  lemma {:induction false} KindsMeaning(mode: Mode, s: string, i: nat)
    requires i < |s|
    ensures Kinds(mode, s)[i] == Mark ==> s[i] == '/' || s[i] == '*' || s[i] == '\\' || IsQuote(s[i])
    ensures Kinds(mode, s)[i] == Escaped ==> i > 0 && s[i - 1] == '\\'
    ensures Kinds(mode, s)[i] == Plain ==> !IsQuote(s[i])
    ensures Kinds(mode, s)[i] == Plain && i + 1 < |s| ==> !(s[i] == '/' && (s[i + 1] == '/' || s[i + 1] == '*'))
    decreases |s|
  {
    var n := Consumed(mode, s);
    if i >= n {
      KindsMeaning(NextMode(mode, s), s[n..], i - n);
      KindsUnfold(mode, s);
    }
  }

  /** How many characters the lexer takes at once, and the mode it goes on in. */
  function Consumed(mode: Mode, s: string): (n: nat)
    requires s != ""
    ensures 1 <= n <= |s| && n <= 2
  {
    if mode == Code && (StartsWith(s, '/', '/') || StartsWith(s, '/', '*')) then 2
    else if mode == Block && StartsWith(s, '*', '/') then 2
    else if (mode == InString || mode == InRune) && s[0] == '\\' && |s| > 1 then 2
    else 1
  }

  function NextMode(mode: Mode, s: string): Mode
    requires s != ""
  {
    match mode
    case Code =>
      if StartsWith(s, '/', '/') then Line
      else if StartsWith(s, '/', '*') then Block
      else if IsQuote(s[0]) then Opened(s[0])
      else Code
    case Line => if s[0] == '\n' then Code else Line
    case Block => if StartsWith(s, '*', '/') then Code else Block
    case _ => if s[0] == Terminator(mode) then Code else mode
  }

  lemma KindsUnfold(mode: Mode, s: string)
    requires s != ""
    ensures var n := Consumed(mode, s); Kinds(mode, s)[n..] == Kinds(NextMode(mode, s), s[n..])
  {
  }

  predicate IsOpener(a: char, b: char) { a == '/' && (b == '/' || b == '*') }

  /** No quote and no comment opener. */
  ghost predicate Clean(s: string) {
    && (forall i :: 0 <= i < |s| ==> !IsQuote(s[i]))
    && (forall i :: 0 <= i < |s| - 1 ==> !IsOpener(s[i], s[i + 1]))
  }

  /** Every character stays or becomes a space, and nothing is left that opens a comment or a literal. */
  lemma StripCleans(s: string)
    ensures |Strip(s)| == |s|
    ensures forall i :: 0 <= i < |s| ==> Strip(s)[i] == s[i] || Strip(s)[i] == ' '
    ensures Clean(Strip(s))
  {
    var r, ks := Strip(s), Kinds(Code, s);
    forall i | 0 <= i < |s| ensures !IsQuote(r[i]) { KindsMeaning(Code, s, i); }
    forall i | 0 <= i < |s| - 1 ensures !IsOpener(r[i], r[i + 1]) { KindsMeaning(Code, s, i); }
  }

  /** A line break survives exactly when it is not the escaped character of a string or rune literal. */
  lemma LineBreakKept(s: string, i: nat)
    requires i < |s|
    ensures Strip(s)[i] == '\n' <==> s[i] == '\n' && Kinds(Code, s)[i] != Escaped
  {
    KindsMeaning(Code, s, i);
  }

  /** The line structure is preserved exactly when no line break is escaped. */
  lemma LineStructure(s: string)
    ensures (forall i :: 0 <= i < |s| ==> (Strip(s)[i] == '\n' <==> s[i] == '\n')) <==>
            (forall i :: 0 <= i < |s| && s[i] == '\n' ==> Kinds(Code, s)[i] != Escaped)
  {
    forall i | 0 <= i < |s| ensures Strip(s)[i] == '\n' <==> s[i] == '\n' && Kinds(Code, s)[i] != Escaped {
      LineBreakKept(s, i);
    }
  }

  /** So it is not always preserved. */
  lemma EscapedLineBreakIsLost()
    ensures Strip("\"\\\n\"") == "    "
  {
    var s := "\"\\\n\"";
    assert Kinds(InString, s[1..]) == [Mark, Escaped] + Kinds(InString, s[1..][2..]);
    assert s[1..][2..] == "\"";
    assert Kinds(InString, "\"") == [Mark] + Kinds(Code, "\""[1..]);
    assert Kinds(Code, s) == [Mark, Mark, Escaped, Mark];
  }

  lemma {:induction false} CleanIsCode(s: string)
    requires Clean(s)
    ensures Strip(s) == s && forall i :: 0 <= i < |s| ==> Kinds(Code, s)[i] == Plain
  {
    if s != "" {
      assert Clean(s[1..]);
      CleanIsCode(s[1..]);
      assert !IsQuote(s[0]) && (|s| > 1 ==> !IsOpener(s[0], s[1]));
      assert Kinds(Code, s) == [Plain] + Kinds(Code, s[1..]);
    }
  }

  /** Stripping twice strips nothing more. */
  lemma StripIdempotent(s: string)
    ensures Strip(Strip(s)) == Strip(s)
  {
    StripCleans(s);
    CleanIsCode(Strip(s));
  }

  // ----- Against the grammar ---------------------------------------------------

  /** A Go source as its grammar reads it. */
  datatype Piece =
    | Bare(c: char)
    | LineComment(text: string)
    | BlockComment(text: string)
    | Literal(quote: char, text: string)
    | RawLiteral(text: string)

  function Written(p: Piece): string {
    match p
    case Bare(c) => [c]
    case LineComment(text) => "//" + text
    case BlockComment(text) => "/*" + text + "*/"
    case Literal(quote, text) => [quote] + text + [quote]
    case RawLiteral(text) => "`" + text + "`"
  }

  function Blank(text: string): string {
    if text == "" then "" else [if text[0] == '\n' then '\n' else ' '] + Blank(text[1..])
  }

  /** A backslash takes the character behind it along, a line break included. */
  function BlankEscaped(text: string): string {
    if text == "" then ""
    else if text[0] == '\\' && |text| > 1 then "  " + BlankEscaped(text[2..])
    else [if text[0] == '\n' then '\n' else ' '] + BlankEscaped(text[1..])
  }

  /** What a stripper leaves of a piece. */
  function Remains(p: Piece): string {
    match p
    case Bare(c) => [c]
    case LineComment(text) => "  " + Blank(text)
    case BlockComment(text) => "  " + Blank(text) + "  "
    case Literal(_, text) => " " + BlankEscaped(text) + " "
    case RawLiteral(text) => " " + Blank(text) + " "
  }

  /** The text of a literal runs up to its first quote that is not behind a backslash. */
  predicate Closed(quote: char, text: string) {
    if text == "" then true
    else if text[0] == '\\' then |text| > 1 && Closed(quote, text[2..])
    else text[0] != quote && Closed(quote, text[1..])
  }

  predicate EndsNowhere(text: string) { forall i :: 0 <= i < |text| - 1 ==> !(text[i] == '*' && text[i + 1] == '/') }

  /** The piece is one piece, whatever comes behind it. */
  predicate Stands(p: Piece, rest: string) {
    match p
    case Bare(c) => !IsQuote(c) && (rest != "" ==> !IsOpener(c, rest[0]))
    case LineComment(text) => '\n' !in text && (rest != "" ==> rest[0] == '\n')
    case BlockComment(text) => EndsNowhere(text)
    case Literal(quote, text) => quote in {'"', '\''} && Closed(quote, text)
    case RawLiteral(text) => '`' !in text
  }

  function AllWritten(ps: seq<Piece>): string { if ps == [] then "" else Written(ps[0]) + AllWritten(ps[1..]) }

  function AllRemains(ps: seq<Piece>): string { if ps == [] then "" else Remains(ps[0]) + AllRemains(ps[1..]) }

  predicate AllStand(ps: seq<Piece>) { ps == [] || (Stands(ps[0], AllWritten(ps[1..])) && AllStand(ps[1..])) }

  /** The kinds of what the lexer takes at once. */
  function Head(mode: Mode, s: string): (ks: seq<Kind>)
    requires s != ""
    ensures |ks| == Consumed(mode, s)
  {
    match mode
    case Code =>
      if StartsWith(s, '/', '/') || StartsWith(s, '/', '*') then [Mark, Mark] else if IsQuote(s[0]) then [Mark] else [Plain]
    case Line => if s[0] == '\n' then [Plain] else [Text]
    case Block => if StartsWith(s, '*', '/') then [Mark, Mark] else [Text]
    case _ =>
      if s[0] == '\\' && mode != Raw then if |s| == 1 then [Mark] else [Mark, Escaped]
      else if s[0] == Terminator(mode) then [Mark]
      else [Text]
  }

  lemma KindsBegin(mode: Mode, s: string)
    requires s != ""
    ensures Kinds(mode, s) == Head(mode, s) + Kinds(NextMode(mode, s), s[Consumed(mode, s)..])
  {
  }

  lemma TakesOne(mode: Mode, c: char, rest: string, kind: Kind, next: Mode)
    requires Head(mode, [c] + rest) == [kind] && NextMode(mode, [c] + rest) == next
    ensures Stripped(mode, [c] + rest) == [Shown(c, kind)] + Stripped(next, rest)
  {
    BehindHead([c], rest);
    KindsBegin(mode, [c] + rest);
    BlankedOne(c, rest, kind, Kinds(next, rest));
  }

  lemma TakesTwo(mode: Mode, c: char, d: char, rest: string, kind: Kind, next: Mode)
    requires Head(mode, [c, d] + rest) == [Mark, kind] && NextMode(mode, [c, d] + rest) == next && kind in {Mark, Escaped}
    ensures Stripped(mode, [c, d] + rest) == "  " + Stripped(next, rest)
  {
    BehindHead([c, d], rest);
    KindsBegin(mode, [c, d] + rest);
    BlankedTwo(c, d, rest, kind, Kinds(next, rest));
  }

  lemma BehindHead(head: string, rest: string)
    ensures (head + rest)[|head|..] == rest
  {
  }

  lemma BlankedOne(c: char, rest: string, kind: Kind, ks: seq<Kind>)
    requires |ks| == |rest|
    ensures Blanked([c] + rest, [kind] + ks) == [Shown(c, kind)] + Blanked(rest, ks)
  {
  }

  lemma BlankedTwo(c: char, d: char, rest: string, kind: Kind, ks: seq<Kind>)
    requires |ks| == |rest| && kind in {Mark, Escaped}
    ensures Blanked([c, d] + rest, [Mark, kind] + ks) == "  " + Blanked(rest, ks)
  {
  }

  lemma Assoc(a: string, b: string, c: string)
    ensures a + b + c == a + (b + c)
  {
  }

  lemma Nothing(s: string)
    ensures "" + s == s
  {
  }

  function BlankOne(c: char): string { [if c == '\n' then '\n' else ' '] }

  /** The next character is one of several inside: it is blanked, and the lexer stays where it is. */
  lemma StaysInside(mode: Mode, c: char, tail: string)
    requires mode != Code && (c == '\n' ==> mode != Line)
    requires mode == Block ==> !StartsWith([c] + tail, '*', '/')
    requires mode == InString || mode == InRune ==> c != '\\'
    requires mode == InString || mode == InRune || mode == Raw ==> c != Terminator(mode)
    ensures Stripped(mode, [c] + tail) == BlankOne(c) + Stripped(mode, tail)
  {
    TakesOne(mode, c, tail, Text, mode);
  }

  /** One more blanked character in front of a body that ends in `z`. */
  lemma OneMore(text: string, whole: string, next: string, z: string)
    requires text != "" && whole == BlankOne(text[0]) + next && next == Blank(text[1..]) + z
    ensures whole == Blank(text) + z
  {
    Assoc(BlankOne(text[0]), Blank(text[1..]), z);
  }

  lemma FirstOff(text: string, tail: string)
    requires text != ""
    ensures text + tail == [text[0]] + (text[1..] + tail)
  {
  }

  lemma {:induction false} RawBody(text: string, rest: string)
    requires '`' !in text
    ensures Stripped(Raw, text + ("`" + rest)) == Blank(text) + (" " + Strip(rest))
    decreases |text|
  {
    if text == "" {
      Nothing("`" + rest);
      TakesOne(Raw, '`', rest, Mark, Code);
      Nothing(" " + Strip(rest));
    } else {
      StaysInside(Raw, text[0], text[1..] + ("`" + rest));
      RawBody(text[1..], rest);
      FirstOff(text, "`" + rest);
      OneMore(text, Stripped(Raw, text + ("`" + rest)), Stripped(Raw, text[1..] + ("`" + rest)), " " + Strip(rest));
    }
  }

  lemma {:induction false} LineBody(text: string, rest: string)
    requires '\n' !in text && (rest != "" ==> rest[0] == '\n')
    ensures Stripped(Line, text + rest) == Blank(text) + Strip(rest)
    decreases |text|
  {
    if text == "" {
      LineEnds(rest);
    } else {
      StaysInside(Line, text[0], text[1..] + rest);
      LineBody(text[1..], rest);
      FirstOff(text, rest);
      OneMore(text, Stripped(Line, text + rest), Stripped(Line, text[1..] + rest), Strip(rest));
    }
  }

  /** The line break itself is code. */
  lemma LineEnds(rest: string)
    requires rest != "" ==> rest[0] == '\n'
    ensures Stripped(Line, "" + rest) == Blank("") + Strip(rest)
  {
    assert "" + rest == rest;
    if rest != "" {
      assert rest == "\n" + rest[1..];
      TakesOne(Line, '\n', rest[1..], Plain, Code);
      TakesOne(Code, '\n', rest[1..], Plain, Code);
    }
  }

  lemma {:induction false} BlockBody(text: string, rest: string)
    requires EndsNowhere(text)
    ensures Stripped(Block, text + ("*/" + rest)) == Blank(text) + ("  " + Strip(rest))
    decreases |text|
  {
    if text == "" {
      Nothing("*/" + rest);
      TakesTwo(Block, '*', '/', rest, Mark, Code);
      Nothing("  " + Strip(rest));
    } else {
      var tail := text[1..] + ("*/" + rest);
      assert text[0] == '*' ==> tail[0] != '/' by { assert |text| > 1 ==> tail[0] == text[1]; }
      StaysInside(Block, text[0], tail);
      BlockBody(text[1..], rest);
      FirstOff(text, "*/" + rest);
      OneMore(text, Stripped(Block, text + ("*/" + rest)), Stripped(Block, tail), "  " + Strip(rest));
    }
  }

  function ModeOf(quote: char): Mode { if quote == '"' then InString else InRune }

  lemma {:induction false} LiteralBody(quote: char, text: string, rest: string)
    requires quote in {'"', '\''} && Closed(quote, text)
    ensures Stripped(ModeOf(quote), text + ([quote] + rest)) == BlankEscaped(text) + (" " + Strip(rest))
    decreases |text|
  {
    var mode, tail := ModeOf(quote), [quote] + rest;
    if text == "" {
      Nothing(tail);
      TakesOne(mode, quote, rest, Mark, Code);
      Nothing(" " + Strip(rest));
    } else if text[0] == '\\' {
      LiteralBody(quote, text[2..], rest);
      TwoOff(text, tail);
      EscapeTaken(mode, text[1], text[2..] + tail);
      OneEscape(text, Stripped(mode, text + tail), Stripped(mode, text[2..] + tail), " " + Strip(rest));
    } else {
      LiteralBody(quote, text[1..], rest);
      FirstOff(text, tail);
      StaysInside(mode, text[0], text[1..] + tail);
      OneMoreEscaped(text, Stripped(mode, text + tail), Stripped(mode, text[1..] + tail), " " + Strip(rest));
    }
  }

  lemma OneEscape(text: string, whole: string, next: string, z: string)
    requires |text| > 1 && text[0] == '\\' && whole == "  " + next && next == BlankEscaped(text[2..]) + z
    ensures whole == BlankEscaped(text) + z
  {
    Assoc("  ", BlankEscaped(text[2..]), z);
  }

  lemma TwoOff(text: string, tail: string)
    requires |text| > 1
    ensures text + tail == [text[0], text[1]] + (text[2..] + tail)
  {
  }

  lemma EscapeTaken(mode: Mode, c: char, tail: string)
    requires mode == InString || mode == InRune
    ensures Stripped(mode, ['\\', c] + tail) == "  " + Stripped(mode, tail)
  {
    TakesTwo(mode, '\\', c, tail, Escaped, mode);
  }

  lemma OneMoreEscaped(text: string, whole: string, next: string, z: string)
    requires text != "" && text[0] != '\\' && whole == BlankOne(text[0]) + next && next == BlankEscaped(text[1..]) + z
    ensures whole == BlankEscaped(text) + z
  {
    Assoc(BlankOne(text[0]), BlankEscaped(text[1..]), z);
  }

  /** What opens a comment or a literal is blanked, and the lexer goes on inside. */
  lemma OpensTwo(second: char, mode: Mode, tail: string)
    requires (second == '/' && mode == Line) || (second == '*' && mode == Block)
    ensures Strip(['/', second] + tail) == "  " + Stripped(mode, tail)
  {
    TakesTwo(Code, '/', second, tail, Mark, mode);
  }

  lemma OpensOne(quote: char, mode: Mode, tail: string)
    requires (quote, mode) in {('"', InString), ('\'', InRune), ('`', Raw)}
    ensures Strip([quote] + tail) == " " + Stripped(mode, tail)
  {
    TakesOne(Code, quote, tail, Mark, mode);
  }

  /** A piece of an opener, a body and an end, against what is left of it. */
  lemma ThreeParts(open: string, body: string, close: string, rest: string)
    ensures open + body + close + rest == open + (body + (close + rest))
  {
  }

  lemma OnePiece(p: Piece, rest: string)
    requires Stands(p, rest)
    ensures Strip(Written(p) + rest) == Remains(p) + Strip(rest)
  {
    match p
    case Bare(c) => BareTaken(c, rest);
    case LineComment(text) =>
      LineBody(text, rest);
      Assoc("//", text, rest);
      OpensTwo('/', Line, text + rest);
      Assoc("  ", Blank(text), Strip(rest));
    case BlockComment(text) =>
      BlockBody(text, rest);
      ThreeParts("/*", text, "*/", rest);
      OpensTwo('*', Block, text + ("*/" + rest));
      ThreeParts("  ", Blank(text), "  ", Strip(rest));
    case Literal(quote, text) =>
      LiteralBody(quote, text, rest);
      ThreeParts([quote], text, [quote], rest);
      OpensOne(quote, ModeOf(quote), text + ([quote] + rest));
      ThreeParts(" ", BlankEscaped(text), " ", Strip(rest));
    case RawLiteral(text) =>
      RawBody(text, rest);
      ThreeParts("`", text, "`", rest);
      OpensOne('`', Raw, text + ("`" + rest));
      ThreeParts(" ", Blank(text), " ", Strip(rest));
  }

  lemma BareTaken(c: char, rest: string)
    requires Stands(Bare(c), rest)
    ensures Strip([c] + rest) == [c] + Strip(rest)
  {
    TakesOne(Code, c, rest, Plain, Code);
  }

  /**
   Of every source the grammar can read, piece by piece: code stays, and of a comment or a
   literal only the line breaks that are not escaped.
   */
  lemma {:induction false} StripReadsTheGrammar(ps: seq<Piece>)
    requires AllStand(ps)
    ensures Strip(AllWritten(ps)) == AllRemains(ps)
  {
    if ps != [] {
      OnePiece(ps[0], AllWritten(ps[1..]));
      StripReadsTheGrammar(ps[1..]);
    }
  }

  // ----- The loop ------------------------------------------------------------

  lemma BlankedSplit(s: string, ks: seq<Kind>, n: nat)
    requires n <= |s| == |ks|
    ensures Blanked(s, ks) == Blanked(s, ks)[..n] + Blanked(s[n..], ks[n..])
  {
  }

  /** Blanking one step of the lexer leaves the rest to be blanked from the next mode. */
  lemma StrippedUnfold(mode: Mode, s: string)
    requires s != ""
    ensures var n := Consumed(mode, s);
            Stripped(mode, s) == Stripped(mode, s)[..n] + Stripped(NextMode(mode, s), s[n..])
  {
    KindsUnfold(mode, s);
    BlankedSplit(s, Kinds(mode, s), Consumed(mode, s));
  }

  /** One turn of the loop: writes at `i` and possibly behind it, and says where to go on. */
  method Turn(source: string, out: array<char>, i: nat, mode: Mode) returns (i': nat, mode': Mode)
    requires i < |source| == out.Length && forall k :: i <= k < |source| ==> out[k] == source[k]
    modifies out
    ensures i' == i + Consumed(mode, source[i..]) && mode' == NextMode(mode, source[i..])
    ensures i' <= |source| && forall k :: i <= k < i' ==> out[k] == Stripped(mode, source[i..])[k - i]
    ensures forall k :: 0 <= k < i || i' <= k < |source| ==> out[k] == old(out[k])
  {
    var c := source[i];
    var two := i + 1 < |source|;
    ghost var rest := source[i..];
    i', mode' := i + 1, mode;
    if mode == Code {
      if two && c == '/' && (source[i + 1] == '/' || source[i + 1] == '*') {
        out[i], out[i + 1] := ' ', ' ';
        i', mode' := i + 2, if source[i + 1] == '/' then Line else Block;
      } else if IsQuote(c) {
        out[i] := ' ';
        mode' := Opened(c);
      }
    } else if mode == Line {
      if c == '\n' { mode' := Code; } else { out[i] := ' '; }
    } else if mode == Block {
      if two && c == '*' && source[i + 1] == '/' {
        out[i], out[i + 1] := ' ', ' ';
        i', mode' := i + 2, Code;
      } else if c != '\n' {
        out[i] := ' ';
      }
    } else if mode != Raw && c == '\\' {
      out[i] := ' ';
      if two { out[i + 1] := ' '; i' := i + 2; }
    } else if c == Terminator(mode) {
      out[i] := ' ';
      mode' := Code;
    } else if c != '\n' {
      out[i] := ' ';
    }
  }

  method StripGoNoncode(source: string) returns (stripped: string)
    ensures stripped == Strip(source)
  {
    var out := new char[|source|](i requires 0 <= i < |source| => source[i]);
    ghost var target := Strip(source);
    var i, mode := 0, Code;
    while i < |source|
      invariant i <= |source| == out.Length == |target|
      invariant forall k :: i <= k < |source| ==> out[k] == source[k]
      invariant forall k :: 0 <= k < i ==> out[k] == target[k]
      invariant target[i..] == Stripped(mode, source[i..])
    {
      OneTurn(source, target, i, mode);
      i, mode := Turn(source, out, i, mode);
    }
    assert out[..] == target;
    return out[..];
  }

  lemma OneTurn(source: string, target: string, i: nat, mode: Mode)
    requires i < |source| == |target| && target[i..] == Stripped(mode, source[i..])
    ensures var n := Consumed(mode, source[i..]);
            && target[i + n..] == Stripped(NextMode(mode, source[i..]), source[i + n..])
            && forall k :: i <= k < i + n ==> target[k] == Stripped(mode, source[i..])[k - i]
  {
    var rest := source[i..];
    var n := Consumed(mode, rest);
    StrippedUnfold(mode, rest);
    DropTwice(source, i, n);
    SplitBehind(target, i, Stripped(mode, rest)[..n], Stripped(NextMode(mode, rest), rest[n..]));
  }

  lemma DropTwice(s: string, i: nat, n: nat)
    requires i + n <= |s|
    ensures s[i..][n..] == s[i + n..]
  {
  }

  lemma SplitBehind(t: string, i: nat, head: string, tail: string)
    requires i <= |t| && t[i..] == head + tail
    ensures i + |head| <= |t| && t[i + |head|..] == tail
    ensures forall k :: i <= k < i + |head| ==> t[k] == head[k - i]
  {
    assert t == t[..i] + t[i..];
    assert t[i + |head|..] == t[i..][|head|..];
    assert forall k :: i <= k < i + |head| ==> t[k] == t[i..][k - i];
  }
}
