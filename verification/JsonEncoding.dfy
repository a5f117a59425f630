/** How many bytes the JSON encoder makes of what it is given.  It copies a raw value without the white
    space between tokens and escapes the characters that are unsafe in HTML, so a raw value can come out
    longer than it went in.  A string here is its bytes, one character a byte. */
module JsonEncoding {

  /** Where the scanner is: between tokens, in a string, or behind a backslash in one. */
  datatype Place = Outside | Inside | Escaped

  function Step(at: Place, c: char): Place {
    match at
    case Outside => if c == '"' then Inside else Outside
    case Inside => if c == '"' then Outside else if c == '\\' then Escaped else Inside
    case Escaped => Inside
  }

  predicate IsBlank(c: char) {
    c == ' ' || c == '\t' || c == '\n' || c == '\r'
  }

  /** The line and paragraph separators, U+2028 and U+2029. */
  predicate StartsSeparator(s: string) {
    |s| >= 3 && s[0] == '\U{E2}' && s[1] == '\U{80}' && (s[2] == '\U{A8}' || s[2] == '\U{A9}')
  }

  function Piece(c: char): string {
    if c == '<' then "\\u003c" else if c == '>' then "\\u003e" else if c == '&' then "\\u0026" else [c]
  }

  function SeparatorPiece(last: char): string {
    "\\u202" + [if last == '\U{A8}' then '8' else '9']
  }

  function Compact(s: string, at: Place): string {
    if s == "" then ""
    else if StartsSeparator(s) then
      SeparatorPiece(s[2]) + Compact(s[3..], if at.Escaped? then Inside else at)
    else if at.Outside? && IsBlank(s[0]) then Compact(s[1..], at)
    else Piece(s[0]) + Compact(s[1..], Step(at, s[0]))
  }

  /** A raw value as it is written into an enclosing object. */
  function EncodeRaw(s: string): string {
    Compact(s, Outside)
  }

  /** Nothing in the text is left to encode, as in the encoder's own output. */
  predicate Compacted(s: string, at: Place) {
    s == "" || (&& !StartsSeparator(s) && !(at.Outside? && IsBlank(s[0])) && s[0] !in "<>&"
                && Compacted(s[1..], Step(at, s[0])))
  }

  /** Between tokens no white space comes out. */
  lemma {:induction false} NoBlankComesOut(s: string)
    ensures Compact(s, Outside) != "" ==> !IsBlank(Compact(s, Outside)[0])
  {
    if s != "" && !StartsSeparator(s) && IsBlank(s[0]) {
      NoBlankComesOut(s[1..]);
    }
  }

  /** A text comes out as it went in exactly when nothing in it is left to encode. */
  lemma {:induction false} UnchangedIffCompacted(s: string, at: Place)
    ensures Compact(s, at) == s <==> Compacted(s, at)
  {
    if s == "" || StartsSeparator(s) {
    } else if at.Outside? && IsBlank(s[0]) {
      NoBlankComesOut(s[1..]);
    } else if s[0] in "<>&" {
      assert Compact(s, at)[0] == '\\';
    } else {
      UnchangedIffCompacted(s[1..], Step(at, s[0]));
      assert Compact(s, at)[0] == s[0] && Compact(s, at)[1..] == Compact(s[1..], Step(at, s[0]));
      assert s == [s[0]] + s[1..];
    }
  }

  // ---- what a text says ----

  /** The bytes an escape at the start of `s` stands for, for the five the encoder writes. */
  function Escape(s: string): string {
    if |s| < 6 then ""
    else if s[..6] == "\\u003c" then "<"
    else if s[..6] == "\\u003e" then ">"
    else if s[..6] == "\\u0026" then "&"
    else if s[..6] == "\\u2028" then "\U{E2}\U{80}\U{A8}"
    else if s[..6] == "\\u2029" then "\U{E2}\U{80}\U{A9}"
    else ""
  }

  /** What a text says: its tokens without the white space between them, and in its strings the bytes
      themselves in place of those escapes. */
  function Said(s: string, at: Place): string {
    if s == "" then ""
    else if at.Inside? && Escape(s) != "" then Escape(s) + Said(s[6..], Inside)
    else if at.Outside? && IsBlank(s[0]) then Said(s[1..], at)
    else [s[0]] + Said(s[1..], Step(at, s[0]))
  }

  /** As in every JSON text, what the encoder escapes stands in strings only, and not behind a backslash. */
  predicate WellPlaced(s: string, at: Place) {
    s == "" || (&& (StartsSeparator(s) || s[0] in "<>&" ==> at.Inside?)
                && WellPlaced(s[1..], Step(at, s[0])))
  }

  /** In a string, a character that stays as it is comes from itself. */
  lemma CopiedFirst(s: string, at: Place)
    requires !at.Outside? && Compact(s, at) != "" && Compact(s, at)[0] != '\\'
    ensures s != "" && s[0] == Compact(s, at)[0] && Compact(s, at)[1..] == Compact(s[1..], Step(at, s[0]))
  {
    assert s[0] !in "<>&";
  }

  lemma PrefixFromRest(s: string, t: string, k: nat)
    requires s != "" && t != "" && s[0] == t[0] && 0 < k <= |t|
    requires k - 1 <= |s[1..]| && s[1..][..k - 1] == t[1..][..k - 1]
    ensures k <= |s| && s[..k] == t[..k]
  {
    assert s[..k] == [s[0]] + s[1..][..k - 1] && t[..k] == [t[0]] + t[1..][..k - 1];
  }

  lemma {:induction false} CopiedPrefix(s: string, at: Place, k: nat)
    requires !at.Outside? && k <= |Compact(s, at)| && forall j :: 0 <= j < k ==> Compact(s, at)[j] !in "\\\""
    ensures k <= |s| && s[..k] == Compact(s, at)[..k]
  {
    if k > 0 {
      CopiedFirst(s, at);
      var t, rest := Compact(s, at), Compact(s[1..], Step(at, s[0]));
      assert rest == t[1..];
      CopiedPrefix(s[1..], Step(at, s[0]), k - 1);
      PrefixFromRest(s, t, k);
    }
  }

  const ESCAPES := {"u003c", "u003e", "u0026", "u2028", "u2029"}

  lemma EscapeIff(s: string)
    ensures Escape(s) != "" <==> |s| >= 6 && s[0] == '\\' && s[1..6] in ESCAPES
  {
    if |s| >= 6 { assert s[..6] == [s[0]] + s[1..6]; }
  }

  lemma PlainEscapes(e: string, k: nat)
    requires e in ESCAPES && k < |e|
    ensures |e| == 5 && e[k] !in "\\\""
  {
  }

  /** No escape appears that was not there. */
  lemma EscapeIsOld(s: string)
    requires s != "" && s[0] == '\\' && Escape(Compact(s, Inside)) != ""
    ensures Escape(s) != ""
  {
    var t := Compact(s, Inside);
    var u := Compact(s[1..], Escaped);
    assert t == "\\" + u;
    EscapeIff(t);
    assert u[..5] == t[1..6];
    forall j | 0 <= j < 5
      ensures u[j] !in "\\\""
    {
      PlainEscapes(u[..5], j);
    }
    CopiedPrefix(s[1..], Escaped, 5);
    assert s[1..6] == s[1..][..5];
    EscapeIff(s);
  }

  lemma EscapeIsSaid(e: string, tail: string)
    requires |e| == 6 && Escape(e) != ""
    ensures Said(e + tail, Inside) == Escape(e) + Said(tail, Inside)
  {
    assert (e + tail)[..6] == e[..6] && (e + tail)[6..] == tail;
  }

  lemma PlainIsSaid(c: char, tail: string)
    requires c != '\\' && c != '"'
    ensures Said([c] + tail, Inside) == [c] + Said(tail, Inside)
  {
    EscapeIff([c] + tail);
    assert ([c] + tail)[1..] == tail;
  }

  lemma SeparatorEscape(s: string)
    requires StartsSeparator(s)
    ensures |SeparatorPiece(s[2])| == 6 && Escape(SeparatorPiece(s[2])) == s[..3]
  {
    var piece := SeparatorPiece(s[2]);
    if s[2] == '\U{A8}' {
      assert piece == "\\u2028" && piece[..6] == piece;
      assert s[..3] == "\U{E2}\U{80}\U{A8}";
    } else {
      assert piece == "\\u2029" && piece[..6] == piece;
      assert s[..3] == "\U{E2}\U{80}\U{A9}";
    }
  }

  lemma Regroup(a: char, b: char, c: char, tail: string)
    ensures [a] + ([b] + ([c] + tail)) == [a, b, c] + tail
  {
  }

  lemma SeparatorBytes(s: string)
    requires StartsSeparator(s)
    ensures Said(s, Inside) == s[..3] + Said(s[3..], Inside)
  {
    var tail := s[3..];
    PlainIsSaid(s[0], [s[1]] + ([s[2]] + tail));
    PlainIsSaid(s[1], [s[2]] + tail);
    PlainIsSaid(s[2], tail);
    Regroup(s[0], s[1], s[2], tail);
    Regroup(s[0], s[1], s[2], Said(tail, Inside));
    assert s[..3] == [s[0], s[1], s[2]];
    assert s == s[..3] + tail;
  }

  lemma PieceIsSaid(c: char, tail: string)
    requires c in "<>&"
    ensures Said(Piece(c) + tail, Inside) == [c] + Said(tail, Inside)
  {
    EscapeIsSaid(Piece(c), tail);
  }

  lemma SeparatorKeepsSaid(s: string)
    requires StartsSeparator(s) && Said(Compact(s[3..], Inside), Inside) == Said(s[3..], Inside)
    ensures Said(Compact(s, Inside), Inside) == Said(s, Inside)
  {
    SeparatorBytes(s);
    SeparatorEscape(s);
    EscapeIsSaid(SeparatorPiece(s[2]), Compact(s[3..], Inside));
  }

  lemma CharacterKeepsSaid(s: string, at: Place)
    requires s != "" && !StartsSeparator(s) && !(at.Outside? && IsBlank(s[0])) && WellPlaced(s, at)
    requires Said(Compact(s[1..], Step(at, s[0])), Step(at, s[0])) == Said(s[1..], Step(at, s[0]))
    requires !at.Inside? || Escape(s) == ""
    ensures Said(Compact(s, at), at) == Said(s, at)
  {
    var t := Compact(s[1..], Step(at, s[0]));
    if s[0] in "<>&" {
      PieceIsSaid(s[0], t);
    } else {
      assert Compact(s, at) == [s[0]] + t && ([s[0]] + t)[1..] == t;
      if at.Inside? && Escape([s[0]] + t) != "" {
        EscapeIff([s[0]] + t);
        EscapeIsOld(s);
        assert false;
      }
    }
  }

  predicate Unescaped(s: string) {
    forall c :: c in s ==> c < '\U{80}' && c !in "\\\"<>&"
  }

  lemma OneIsCopied(c: char, tail: string, at: Place)
    requires c < '\U{80}' && c !in "<>&" && !at.Outside?
    ensures Compact([c] + tail, at) == [c] + Compact(tail, Step(at, c))
    ensures WellPlaced([c] + tail, at) ==> WellPlaced(tail, Step(at, c))
  {
    assert ([c] + tail)[1..] == tail;
  }

  lemma FirstThenRest(a: string, tail: string)
    requires a != ""
    ensures a + tail == [a[0]] + (a[1..] + tail)
  {
  }

  lemma {:induction false} PlainIsCopied(a: string, tail: string)
    requires Unescaped(a)
    ensures Compact(a + tail, Inside) == a + Compact(tail, Inside)
    ensures WellPlaced(a + tail, Inside) ==> WellPlaced(tail, Inside)
  {
    if a == "" {
      assert a + tail == tail;
    } else {
      assert a[0] in a && forall c :: c in a[1..] ==> c in a;
      OneIsCopied(a[0], a[1..] + tail, Inside);
      PlainIsCopied(a[1..], tail);
      FirstThenRest(a, tail);
      FirstThenRest(a, Compact(tail, Inside));
    }
  }

  lemma DigitsOfEscape(e: string)
    requires e in ESCAPES
    ensures |e| == 5 && e[0] == 'u' && Unescaped(e[1..])
  {
  }

  lemma EscapeThenRest(digits: string, tail: string)
    requires Unescaped(digits)
    ensures Compact(['\\'] + (['u'] + (digits + tail)), Inside) ==
        ['\\'] + (['u'] + (digits + Compact(tail, Inside)))
    ensures WellPlaced(['\\'] + (['u'] + (digits + tail)), Inside) ==> WellPlaced(tail, Inside)
  {
    OneIsCopied('\\', ['u'] + (digits + tail), Inside);
    OneIsCopied('u', digits + tail, Escaped);
    PlainIsCopied(digits, tail);
  }

  lemma SixAndRest(s: string, tail: string)
    requires |s| >= 6
    ensures s[..6] + tail == [s[0]] + ([s[1]] + (s[2..6] + tail))
  {
  }

  lemma EscapeIsCopied(s: string)
    requires Escape(s) != ""
    ensures Compact(s, Inside) == s[..6] + Compact(s[6..], Inside)
    ensures WellPlaced(s, Inside) ==> WellPlaced(s[6..], Inside)
  {
    EscapeIff(s);
    var e, digits, tail := s[1..6], s[2..6], s[6..];
    DigitsOfEscape(e);
    assert e[1..] == digits && e[0] == s[1];
    EscapeThenRest(digits, tail);
    SixAndRest(s, tail);
    SixAndRest(s, Compact(tail, Inside));
    assert s == s[..6] + tail;
  }

  lemma EscapeSaysTheSame(s: string, tail: string)
    requires Escape(s) != ""
    ensures Said(s[..6] + tail, Inside) == Escape(s) + Said(tail, Inside)
    ensures Said(s, Inside) == Escape(s) + Said(s[6..], Inside)
  {
    assert s[..6][..6] == s[..6];
    EscapeIsSaid(s[..6], tail);
  }

  lemma SeparatorKeepsPlaces(s: string)
    requires StartsSeparator(s) && WellPlaced(s, Inside)
    ensures WellPlaced(s[3..], Inside)
  {
    assert s[1..][1..] == s[2..] && s[2..][1..] == s[3..];
    assert WellPlaced(s[1..], Inside) && WellPlaced(s[2..], Inside);
  }

  /** Compacting and escaping changes nothing of what a text says. */
  lemma {:induction false} EncodingKeepsMeaning(s: string, at: Place)
    requires WellPlaced(s, at)
    ensures Said(Compact(s, at), at) == Said(s, at)
    decreases |s|
  {
    if s == "" {
    } else if StartsSeparator(s) {
      SeparatorKeepsPlaces(s);
      EncodingKeepsMeaning(s[3..], Inside);
      SeparatorKeepsSaid(s);
    } else if at.Outside? && IsBlank(s[0]) {
      EncodingKeepsMeaning(s[1..], at);
    } else if at.Inside? && Escape(s) != "" {
      EscapeIsCopied(s);
      EncodingKeepsMeaning(s[6..], Inside);
      EscapeSaysTheSame(s, Compact(s[6..], Inside));
    } else {
      EncodingKeepsMeaning(s[1..], Step(at, s[0]));
      CharacterKeepsSaid(s, at);
    }
  }

  // ---- nesting ----

  /** The scanner of `encoding/json` gives up on a deeper text. */
  const MAX_NESTING := 10000

  function Opened(at: Place, c: char): int {
    if !at.Outside? then 0 else if c == '{' || c == '[' then 1 else if c == '}' || c == ']' then -1 else 0
  }

  /** The most objects and arrays ever open, from a place with `open` of them. */
  function Deepest(s: string, at: Place, open: int): (d: int)
    ensures d >= open
  {
    if s == "" then open
    else
      var d := Deepest(s[1..], Step(at, s[0]), open + Opened(at, s[0]));
      if d < open then open else d
  }

  function Depth(s: string): nat {
    Deepest(s, Outside, 0)
  }

  predicate IsBracket(c: char) {
    c == '{' || c == '[' || c == '}' || c == ']'
  }

  function After(s: string, at: Place): Place {
    if s == "" then at else After(s[1..], Step(at, s[0]))
  }

  lemma {:induction false} NoBracketNoDepth(a: string, b: string, at: Place, open: int)
    requires forall c :: c in a ==> !IsBracket(c)
    ensures Deepest(a + b, at, open) == Deepest(b, After(a, at), open)
  {
    if a == "" {
      assert a + b == b;
    } else {
      assert (a + b)[1..] == a[1..] + b && a[0] in a && forall c :: c in a[1..] ==> c in a;
      NoBracketNoDepth(a[1..], b, Step(at, a[0]), open);
    }
  }

  predicate IsPlain(s: string) {
    forall c :: c in s ==> c != '"' && c != '\\' && !IsBracket(c)
  }

  lemma {:induction false} PlainSteps(s: string, at: Place)
    requires s != "" && IsPlain(s)
    ensures After(s, at) == if at.Escaped? then Inside else at
  {
    assert s[0] in s && forall c :: c in s[1..] ==> c in s;
    if |s| > 1 {
      PlainSteps(s[1..], Step(at, s[0]));
    }
  }

  /** An escape leaves the scanner where a plain character would, and opens nothing. */
  lemma EscapeSteps(rest: string, tail: string, at: Place, open: int)
    requires rest != "" && IsPlain(rest)
    ensures Deepest("\\" + rest + tail, at, open) == Deepest(tail, if at.Escaped? then Inside else at, open)
  {
    var s := "\\" + rest;
    assert s[1..] == rest && forall c :: c in s ==> c == '\\' || c in rest;
    PlainSteps(rest, Step(at, '\\'));
    NoBracketNoDepth(s, tail, at, open);
  }

  lemma SeparatorKeepsDepth(s: string, tail: string, at: Place, open: int)
    requires StartsSeparator(s)
    ensures Deepest(s, at, open) == Deepest(s[3..], if at.Escaped? then Inside else at, open)
    ensures Deepest(SeparatorPiece(s[2]) + tail, at, open) == Deepest(tail, if at.Escaped? then Inside else at, open)
  {
    assert s == s[..3] + s[3..];
    PlainSteps(s[..3], at);
    NoBracketNoDepth(s[..3], s[3..], at, open);
    var rest := "u202" + [if s[2] == '\U{A8}' then '8' else '9'];
    assert SeparatorPiece(s[2]) == "\\" + rest;
    EscapeSteps(rest, tail, at, open);
  }

  lemma PieceKeepsDepth(c: char, tail: string, at: Place, open: int)
    ensures Deepest(Piece(c) + tail, at, open) == Deepest([c] + tail, at, open)
  {
    if c in "<>&" {
      var rest := Piece(c)[1..];
      assert Piece(c) == "\\" + rest;
      EscapeSteps(rest, tail, at, open);
      assert ([c] + tail)[1..] == tail;
    }
  }

  lemma FirstCounts(c: char, a: string, b: string, at: Place, open: int)
    requires Deepest(a, Step(at, c), open + Opened(at, c)) == Deepest(b, Step(at, c), open + Opened(at, c))
    ensures Deepest([c] + a, at, open) == Deepest([c] + b, at, open)
  {
    assert ([c] + a)[1..] == a && ([c] + b)[1..] == b;
  }

  lemma SeparatorIsKept(s: string, at: Place, open: int)
    requires StartsSeparator(s)
    requires var next := if at.Escaped? then Inside else at;
      Deepest(Compact(s[3..], next), next, open) == Deepest(s[3..], next, open)
    ensures Deepest(Compact(s, at), at, open) == Deepest(s, at, open)
  {
    SeparatorKeepsDepth(s, Compact(s[3..], if at.Escaped? then Inside else at), at, open);
  }

  lemma CharacterIsKept(s: string, at: Place, open: int)
    requires s != "" && !StartsSeparator(s) && !(at.Outside? && IsBlank(s[0]))
    requires var next := Step(at, s[0]);
      var d := open + Opened(at, s[0]);
      Deepest(Compact(s[1..], next), next, d) == Deepest(s[1..], next, d)
    ensures Deepest(Compact(s, at), at, open) == Deepest(s, at, open)
  {
    var tail := Compact(s[1..], Step(at, s[0]));
    PieceKeepsDepth(s[0], tail, at, open);
    FirstCounts(s[0], tail, s[1..], at, open);
    assert s == [s[0]] + s[1..];
  }

  /** Encoding changes no nesting. */
  lemma {:induction false} DepthIsKept(s: string, at: Place, open: int)
    ensures Deepest(Compact(s, at), at, open) == Deepest(s, at, open)
  {
    if s == "" {
    } else if StartsSeparator(s) {
      DepthIsKept(s[3..], if at.Escaped? then Inside else at, open);
      SeparatorIsKept(s, at, open);
    } else if at.Outside? && IsBlank(s[0]) {
      DepthIsKept(s[1..], at, open);
    } else {
      DepthIsKept(s[1..], Step(at, s[0]), open + Opened(at, s[0]));
      CharacterIsKept(s, at, open);
    }
  }

  function EscapedLen(s: string): nat {
    if s == "" then 0
    else if StartsSeparator(s) then 6 + EscapedLen(s[3..])
    else
      (if s[0] in "\"\\\n\r\t\U{08}\U{0C}" then 2 else if s[0] < ' ' || s[0] in "<>&" then 6 else 1)
      + EscapedLen(s[1..])
  }

  function Hex(n: nat): char
    requires n < 16
  {
    "0123456789abcdef"[n]
  }

  function Letter(c: char): char
    requires c in "\"\\\n\r\t\U{08}\U{0C}"
  {
    match c
    case '\n' => 'n'
    case '\r' => 'r'
    case '\t' => 't'
    case '\U{08}' => 'b'
    case '\U{0C}' => 'f'
    case _ => c
  }

  function QuotedChar(c: char): string {
    if c in "\"\\\n\r\t\U{08}\U{0C}" then ['\\', Letter(c)]
    else if c < ' ' || c in "<>&" then "\\u00" + [Hex(c as nat / 16), Hex(c as nat % 16)]
    else [c]
  }

  /** A byte string as it is written between quotes. */
  function QuotedText(s: string): string {
    if s == "" then ""
    else if StartsSeparator(s) then SeparatorPiece(s[2]) + QuotedText(s[3..])
    else QuotedChar(s[0]) + QuotedText(s[1..])
  }

  function HexValue(c: char): nat {
    if '0' <= c <= '9' then c as nat - '0' as nat else if 'a' <= c <= 'f' then c as nat - 'a' as nat + 10 else 0
  }

  function Behind(letter: char): char {
    match letter
    case 'n' => '\n'
    case 'r' => '\r'
    case 't' => '\t'
    case 'b' => '\U{08}'
    case 'f' => '\U{0C}'
    case _ => letter
  }

  function CodeText(code: nat): string {
    if code == 0x2028 then "\U{E2}\U{80}\U{A8}"
    else if code == 0x2029 then "\U{E2}\U{80}\U{A9}"
    else if code < 0x80 then [code as char]
    else ""
  }

  /** Reading it back. */
  function Unquote(t: string): string {
    if t == "" then ""
    else if t[0] != '\\' || |t| < 2 then [t[0]] + Unquote(t[1..])
    else if t[1] == 'u' && |t| >= 6 then
      CodeText(HexValue(t[2]) * 4096 + HexValue(t[3]) * 256 + HexValue(t[4]) * 16 + HexValue(t[5])) + Unquote(t[6..])
    else [Behind(t[1])] + Unquote(t[2..])
  }

  lemma HexBack(n: nat)
    requires n < 16
    ensures HexValue(Hex(n)) == n
  {
  }

  lemma LongBack(c: char, tail: string)
    requires |QuotedChar(c)| == 6
    ensures Unquote(QuotedChar(c) + tail) == [c] + Unquote(tail) && (c < ' ' || c in "<>&")
  {
    var q := QuotedChar(c);
    HexBack(c as nat / 16);
    HexBack(c as nat % 16);
    assert CodeText(c as nat) == [c];
    assert (q + tail)[6..] == tail && forall k :: 0 <= k < 6 ==> (q + tail)[k] == q[k];
  }

  lemma QuotedCharBack(c: char, tail: string)
    ensures Unquote(QuotedChar(c) + tail) == [c] + Unquote(tail)
    ensures |QuotedChar(c)| ==
        if c in "\"\\\n\r\t\U{08}\U{0C}" then 2 else if c < ' ' || c in "<>&" then 6 else 1
  {
    var q := QuotedChar(c);
    if |q| == 6 {
      LongBack(c, tail);
    } else {
      assert (q + tail)[|q|..] == tail;
    }
  }

  lemma SeparatorBack(s: string, tail: string)
    requires StartsSeparator(s)
    ensures Unquote(SeparatorPiece(s[2]) + tail) == s[..3] + Unquote(tail)
  {
    var q := SeparatorPiece(s[2]);
    assert (q + tail)[6..] == tail;
    assert s[..3] == [s[0], s[1], s[2]];
  }

  /** Quoting loses nothing, and takes exactly that many bytes. */
  lemma {:induction false} QuotedBack(s: string)
    ensures Unquote(QuotedText(s)) == s && |QuotedText(s)| == EscapedLen(s)
  {
    if s == "" {
    } else if StartsSeparator(s) {
      QuotedBack(s[3..]);
      SeparatorBack(s, QuotedText(s[3..]));
      assert s == s[..3] + s[3..];
    } else {
      QuotedBack(s[1..]);
      QuotedCharBack(s[0], QuotedText(s[1..]));
      assert s == [s[0]] + s[1..];
    }
  }

  /** The length of a byte string once it is quoted. */
  function QuotedLen(s: string): nat {
    2 + EscapedLen(s)
  }

  function Marks(s: string): nat {
    if s == "" then 0 else (if s[0] == '<' then 1 else 0) + Marks(s[1..])
  }

  lemma {:induction false} MarksAdd(a: string, b: string)
    ensures Marks(a + b) == Marks(a) + Marks(b)
  {
    if a == "" {
      assert a + b == b;
    } else {
      MarksAdd(a[1..], b);
      assert (a + b)[1..] == a[1..] + b;
    }
  }

  /** Every `<` becomes six bytes. */
  lemma {:induction false} MarksGrow(s: string, at: Place)
    ensures |Compact(s, at)| >= 6 * Marks(s)
  {
    if s != "" {
      if StartsSeparator(s) {
        MarksGrow(s[3..], if at.Escaped? then Inside else at);
        assert s[1..][1..] == s[2..] && s[2..][1..] == s[3..];
        assert Marks(s) == Marks(s[1..]) == Marks(s[2..]) == Marks(s[3..]);
      } else if at.Outside? && IsBlank(s[0]) {
        MarksGrow(s[1..], at);
      } else {
        MarksGrow(s[1..], Step(at, s[0]));
      }
    }
  }

  function Repeat(c: char, n: nat): string {
    seq(n, _ => c)
  }

  lemma {:induction false} RepeatedMarks(n: nat)
    ensures Marks(Repeat('<', n)) == n
  {
    if n > 0 {
      RepeatedMarks(n - 1);
      assert Repeat('<', n)[1..] == Repeat('<', n - 1);
    }
  }

  /** Quoting never shortens. */
  lemma {:induction false} QuotedIsLonger(s: string)
    ensures EscapedLen(s) >= |s|
  {
    if s != "" {
      QuotedIsLonger(if StartsSeparator(s) then s[3..] else s[1..]);
    }
  }

  predicate NoOpeners(s: string) {
    forall c :: c in s ==> c != '{' && c != '['
  }

  /** Where no bracket opens anything the nesting does not grow. */
  lemma {:induction false} NothingOpens(s: string, at: Place, open: int)
    requires NoOpeners(s)
    ensures Deepest(s, at, open) == open
  {
    if s != "" {
      assert s[0] in s && forall c :: c in s[1..] ==> c in s;
      NothingOpens(s[1..], Step(at, s[0]), open + Opened(at, s[0]));
    }
  }

  lemma {:induction false} OpeningNests(n: nat, tail: string, open: int)
    ensures Deepest(Repeat('[', n) + tail, Outside, open) == Deepest(tail, Outside, open + n)
  {
    if n == 0 {
      assert Repeat('[', n) + tail == tail;
    } else {
      assert (Repeat('[', n) + tail)[1..] == Repeat('[', n - 1) + tail;
      OpeningNests(n - 1, tail, open + 1);
    }
  }

  lemma {:induction false} ClosingNests(n: nat, tail: string, open: int)
    ensures var d := Deepest(tail, Outside, open - n);
      Deepest(Repeat(']', n) + tail, Outside, open) == if d < open then open else d
  {
    if n == 0 {
      assert Repeat(']', n) + tail == tail;
    } else {
      assert (Repeat(']', n) + tail)[1..] == Repeat(']', n - 1) + tail;
      ClosingNests(n - 1, tail, open - 1);
    }
  }

  /** An object that starts with `start` and goes on with `rest`. */
  function InObject(start: string, rest: string): string {
    "{" + (start + rest)
  }

  /** A raw value with `n` less-than signs in it, and nothing in it that opens. */
  lemma MarksInside(start: string, n: nat, end: string)
    requires NoOpeners(start) && NoOpeners(end)
    ensures var s := InObject(start, Repeat('<', n) + end);
      |s| == 1 + |start| + n + |end| && |EncodeRaw(s)| >= 6 * n && Depth(s) == 1
  {
    var marks := Repeat('<', n) + end;
    var s := InObject(start, marks);
    MarksAdd("{", start + marks);
    MarksAdd(start, marks);
    MarksAdd(Repeat('<', n), end);
    RepeatedMarks(n);
    MarksGrow(s, Outside);
    NothingOpens(start + marks, Outside, 1);
    assert s[1..] == start + marks;
  }

  /** An object whose first member is `n` arrays in one another. */
  function Nested(n: nat, end: string): string {
    "{\"\":" + (Repeat('[', n) + (Repeat(']', n) + end))
  }

  lemma FirstMemberNests(rest: string)
    ensures Depth("{\"\":" + rest) == Deepest(rest, Outside, 1)
  {
    var s := "{\"\":" + rest;
    assert s[1..] == "\"\":" + rest && s[1..][1..] == "\":" + rest;
    assert s[1..][1..][1..] == ":" + rest && s[1..][1..][1..][1..] == rest;
    assert Deepest(":" + rest, Outside, 1) == Deepest(rest, Outside, 1);
    assert Deepest("\":" + rest, Inside, 1) == Deepest(":" + rest, Outside, 1);
    assert Deepest("\"\":" + rest, Outside, 1) == Deepest("\":" + rest, Inside, 1);
  }

  lemma NestedDepth(n: nat, end: string)
    requires NoOpeners(end)
    ensures Depth(Nested(n, end)) == n + 1 && |Nested(n, end)| == 4 + 2 * n + |end|
  {
    var closing := Repeat(']', n) + end;
    NothingOpens(end, Outside, 1);
    ClosingNests(n, end, n + 1);
    OpeningNests(n, closing, 1);
    FirstMemberNests(Repeat('[', n) + closing);
  }
}
