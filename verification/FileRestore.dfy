/** Re-injecting recently read files after a compaction: a running byte budget, and a header that a later
    compaction parses back so that it does not inject the same file again.  A string here is its bytes, one
    character a byte. */
module FileRestore {
  import opened Strings
  import opened Wrappers

  const MAX_FILES := 5
  const FILE_TOKEN_CAP := 5000
  const TOTAL_TOKEN_CAP := 50000
  const MIN_BUDGET_TOKENS := 1000
  const HEADER_PREFIX := "## [restored] "
  const OPEN_TAG := "<system-reminder>"
  const CLOSE_TAG := "</system-reminder>"
  const SAFE_TAG := "[/system-reminder]"

  /** The fixed sentences; the results hold for any. */
  datatype Wording = Wording(intro: string, clipMarker: string)

  // ---- lines ----

  function Lines(s: string): (r: seq<string>)
    ensures |r| > 0
  {
    Split(s, '\n')
  }

  predicate OneLine(s: string) {
    '\n' !in s
  }

  // ---- clipping on a rune boundary ----

  predicate RuneStart(c: char) {
    !('\U{80}' <= c <= '\U{BF}')
  }

  function Cut(s: string, at: nat): (cut: nat)
    requires at < |s|
    ensures cut <= at && (cut == 0 || RuneStart(s[cut]))
    ensures forall k :: cut < k <= at ==> !RuneStart(s[k])
  {
    if at == 0 || RuneStart(s[at]) then at else Cut(s, at - 1)
  }

  function Clip(s: string, maxBytes: nat, marker: string): string {
    if |s| <= maxBytes then s else s[..Cut(s, maxBytes)] + marker
  }

  method ClipWithMarker(s: string, maxBytes: nat, marker: string) returns (r: string)
    ensures r == Clip(s, maxBytes, marker)
  {
    if |s| <= maxBytes {
      return s;
    }
    var cut: nat := maxBytes;
    while cut > 0 && !RuneStart(s[cut])
      invariant cut <= maxBytes && Cut(s, cut) == Cut(s, maxBytes)
    {
      cut := cut - 1;
    }
    return s[..cut] + marker;
  }

  function Expected(lead: char): nat {
    if lead <= '\U{7F}' then 1 else if '\U{C2}' <= lead <= '\U{DF}' then 2
    else if '\U{E0}' <= lead <= '\U{EF}' then 3 else if '\U{F0}' <= lead <= '\U{F4}' then 4 else 0
  }

  /** A lead byte with its continuation bytes, outside the ranges the standard excludes. */
  predicate FirstRune(s: string)
    requires s != ""
  {
    var n := Expected(s[0]);
    && 0 < n <= |s| && (forall k :: 1 <= k < n ==> !RuneStart(s[k]))
    && (s[0] == '\U{E0}' ==> s[1] >= '\U{A0}') && (s[0] == '\U{ED}' ==> s[1] <= '\U{9F}')
    && (s[0] == '\U{F0}' ==> s[1] >= '\U{90}') && (s[0] == '\U{F4}' ==> s[1] <= '\U{8F}')
  }

  predicate ValidUtf8(s: string) {
    s == "" || (FirstRune(s) && ValidUtf8(s[Expected(s[0])..]))
  }

  /** Cutting valid text where a rune starts leaves valid text. */
  lemma {:induction false} CutIsValid(s: string, cut: nat)
    requires ValidUtf8(s) && cut < |s| && RuneStart(s[cut])
    ensures ValidUtf8(s[..cut])
  {
    if cut > 0 {
      var n := Expected(s[0]);
      assert cut >= n;
      var rest := s[n..];
      assert cut < |s|;
      CutIsValid(rest, cut - n);
      assert s[..cut][n..] == rest[..cut - n];
      assert FirstRune(s[..cut]);
    }
  }

  lemma FirstByteStarts(s: string)
    requires ValidUtf8(s) && s != ""
    ensures RuneStart(s[0])
  {
  }

  /** Valid text has no four continuation bytes in a row. */
  lemma {:induction false} NoLongTail(s: string, cut: nat, at: nat)
    requires ValidUtf8(s) && cut <= at < |s| && RuneStart(s[cut])
    requires forall k :: cut < k <= at ==> !RuneStart(s[k])
    ensures at - cut <= 3
  {
    var n := Expected(s[0]);
    if cut > 0 {
      assert cut >= n;
      var rest := s[n..];
      forall k | cut - n < k <= at - n
        ensures !RuneStart(rest[k])
      {
        assert rest[k] == s[k + n];
      }
      NoLongTail(rest, cut - n, at - n);
    } else if at >= n {
      FirstByteStarts(s[n..]);
      assert false;
    }
  }

  /** Clipping keeps at most `maxBytes` of valid text, loses at most the bytes of one split rune, and never
      splits one. */
  lemma ClippedIsValid(s: string, maxBytes: nat, marker: string)
    requires ValidUtf8(s) && |s| > maxBytes
    ensures var cut := Cut(s, maxBytes);
      Clip(s, maxBytes, marker) == s[..cut] + marker && ValidUtf8(s[..cut]) && cut <= maxBytes && maxBytes - cut <= 3
  {
    var cut := Cut(s, maxBytes);
    FirstByteStarts(s);
    CutIsValid(s, cut);
    NoLongTail(s, cut, maxBytes);
  }

  // ---- the closing tag ----

  function ReplaceAll(s: string): string {
    if s == "" then ""
    else if HasPrefix(s, CLOSE_TAG) then SAFE_TAG + ReplaceAll(s[|CLOSE_TAG|..])
    else [s[0]] + ReplaceAll(s[1..])
  }

  lemma {:induction false} ReplaceKeepsLength(s: string)
    ensures |ReplaceAll(s)| == |s|
  {
    if s != "" {
      if HasPrefix(s, CLOSE_TAG) {
        ReplaceKeepsLength(s[|CLOSE_TAG|..]);
      } else {
        ReplaceKeepsLength(s[1..]);
      }
    }
  }

  /** What the replacement shows up to its first `[` was there before. */
  lemma {:induction false} ReplaceKeepsStart(s: string, n: nat)
    requires n <= |ReplaceAll(s)| && '[' !in ReplaceAll(s)[..n]
    ensures n <= |s| && s[..n] == ReplaceAll(s)[..n]
  {
    ReplaceKeepsLength(s);
    if n > 0 {
      assert ReplaceAll(s)[0] in ReplaceAll(s)[..n];
      var t := ReplaceAll(s[1..]);
      assert ReplaceAll(s) == [s[0]] + t;
      assert t[..n - 1] == ReplaceAll(s)[..n][1..];
      ReplaceKeepsStart(s[1..], n - 1);
      assert s[..n] == [s[0]] + s[1..][..n - 1];
    }
  }

  /** A tag in the result lies beyond the piece just handled. */
  lemma TagCannotStart(s: string, i: nat)
    requires s != "" && At(ReplaceAll(s), CLOSE_TAG, i)
    ensures i >= if HasPrefix(s, CLOSE_TAG) then |CLOSE_TAG| else 1
  {
    var r := ReplaceAll(s);
    assert r[i] == r[i..i + |CLOSE_TAG|][0] == '<';
    if HasPrefix(s, CLOSE_TAG) {
      assert '<' !in SAFE_TAG && r[..|SAFE_TAG|] == SAFE_TAG;
    } else if i == 0 {
      assert r[..|CLOSE_TAG|] == CLOSE_TAG && '[' !in CLOSE_TAG;
      ReplaceKeepsStart(s, |CLOSE_TAG|);
      assert false;
    }
  }

  lemma TagIsBehind(piece: string, rest: string, i: nat)
    requires At(piece + rest, CLOSE_TAG, i) && i >= |piece|
    ensures Contains(rest, CLOSE_TAG)
  {
    var j: nat := i - |piece|;
    assert rest[j..j + |CLOSE_TAG|] == (piece + rest)[i..i + |CLOSE_TAG|];
    assert At(rest, CLOSE_TAG, j);
  }

  /** Restored content cannot close the block it is put in. */
  lemma {:induction false} NoClosingTag(s: string)
    ensures !Contains(ReplaceAll(s), CLOSE_TAG)
  {
    var r := ReplaceAll(s);
    if s != "" {
      var piece, k := [s[0]], 1;
      if HasPrefix(s, CLOSE_TAG) {
        piece, k := SAFE_TAG, |CLOSE_TAG|;
      }
      assert r == piece + ReplaceAll(s[k..]) && |piece| == k;
      NoClosingTag(s[k..]);
      forall i: nat | i <= |r|
        ensures !At(r, CLOSE_TAG, i)
      {
        if At(r, CLOSE_TAG, i) {
          TagCannotStart(s, i);
          TagIsBehind(piece, ReplaceAll(s[k..]), i);
        }
      }
    }
  }

  lemma {:induction false} ReplaceNothing(s: string)
    requires !Contains(s, CLOSE_TAG)
    ensures ReplaceAll(s) == s
  {
    if s != "" {
      assert !At(s, CLOSE_TAG, 0);
      forall i: nat | i <= |s| - 1
        ensures !At(s[1..], CLOSE_TAG, i)
      {
        assert !At(s, CLOSE_TAG, i + 1);
        assert i + |CLOSE_TAG| <= |s| - 1 ==> s[1..][i..i + |CLOSE_TAG|] == s[i + 1..i + 1 + |CLOSE_TAG|];
      }
      ReplaceNothing(s[1..]);
    }
  }

  // ---- re-reading a range ----

  datatype Range = Range(content: string, first: nat, last: nat)

  function FileLines(data: string): seq<string> {
    var lines := Lines(data);
    if lines[|lines| - 1] == "" then lines[..|lines| - 1] else lines
  }

  /** A line range of a file; an offset beyond the end falls back to the head. */
  function ReadRange(data: string, offset: int, limit: int): Option<Range> {
    var lines := FileLines(data);
    if lines == [] then None
    else
      var from := if offset < 0 || offset >= |lines| then 0 else offset;
      var end := if limit > 0 && from + limit < |lines| then from + limit else |lines|;
      Some(Range(Join(lines[from..end], '\n'), from + 1, end))
  }

  /** Only a file without a single byte has no line. */
  lemma HasLineIff(data: string)
    ensures FileLines(data) != [] <==> data != ""
  {
    JoinSplit(data, '\n');
    var lines := Lines(data);
    if FileLines(data) == [] {
      assert lines == [lines[0]];
      assert Join(lines, '\n') == data;
    }
    if data == "" { SplitWhole(data, '\n'); }
  }

  /** The reported numbers are those a reader would count: the content's lines are exactly the lines `first`
      to `last` of the file. */
  lemma RangeIsNumbered(data: string, offset: int, limit: int)
    requires ReadRange(data, offset, limit).Some?
    ensures var r := ReadRange(data, offset, limit).value;
      && 1 <= r.first <= r.last <= |FileLines(data)|
      && Lines(r.content) == FileLines(data)[r.first - 1..r.last]
      && (limit > 0 ==> r.last - r.first < limit) && (0 <= offset < |FileLines(data)| ==> r.first == offset + 1)
  {
    var r := ReadRange(data, offset, limit).value;
    SplitPieces(data, '\n');
    SplitJoin(FileLines(data)[r.first - 1..r.last], '\n');
  }

  lemma {:induction false} SuffixIsValid(s: string, cut: nat)
    requires ValidUtf8(s) && cut < |s| && RuneStart(s[cut])
    ensures ValidUtf8(s[cut..])
  {
    if cut > 0 {
      var n := Expected(s[0]);
      assert cut >= n;
      SuffixIsValid(s[n..], cut - n);
      assert s[n..][cut - n..] == s[cut..];
    }
  }

  /** Valid text without its first line. */
  lemma DroppedLineIsValid(first: string, rest: string)
    requires ValidUtf8(first + ['\n'] + rest)
    ensures ValidUtf8(rest)
  {
    var text := first + ['\n'] + rest;
    SuffixIsValid(text, |first|);
    assert text[|first|..] == ['\n'] + rest && (['\n'] + rest)[1..] == rest;
  }

  /** Valid text up to the end of a line. */
  lemma KeptLinesAreValid(kept: string, rest: string)
    requires ValidUtf8(kept + ['\n'] + rest)
    ensures ValidUtf8(kept)
  {
    var text := kept + ['\n'] + rest;
    CutIsValid(text, |kept|);
    assert text[..|kept|] == kept;
  }

  lemma {:induction false} LinesAreValid(lines: seq<string>, k: nat)
    requires k < |lines| && ValidUtf8(Join(lines, '\n'))
    ensures ValidUtf8(lines[k])
  {
    if |lines| > 1 {
      KeptLinesAreValid(lines[0], Join(lines[1..], '\n'));
      if k > 0 {
        DroppedLineIsValid(lines[0], Join(lines[1..], '\n'));
        LinesAreValid(lines[1..], k - 1);
      }
    }
  }

  lemma RuneStays(s: string, more: string)
    requires s != "" && FirstRune(s)
    ensures FirstRune(s + more) && Expected((s + more)[0]) == Expected(s[0])
  {
  }

  lemma RuneThenRest(s: string)
    requires s != "" && FirstRune(s) && ValidUtf8(s[Expected(s[0])..])
    ensures ValidUtf8(s)
  {
  }

  lemma RuneBefore(a: string, more: string)
    requires a != "" && FirstRune(a) && ValidUtf8(a[Expected(a[0])..] + more)
    ensures ValidUtf8(a + more)
  {
    RuneStays(a, more);
    assert (a + more)[Expected(a[0])..] == a[Expected(a[0])..] + more;
    RuneThenRest(a + more);
  }

  lemma {:induction false} TwoPartsAreValid(a: string, b: string)
    requires ValidUtf8(a) && ValidUtf8(b)
    ensures ValidUtf8(a + b)
  {
    if a == "" {
      assert a + b == b;
    } else {
      TwoPartsAreValid(a[Expected(a[0])..], b);
      RuneBefore(a, b);
    }
  }

  lemma {:induction false} JoinedIsValid(lines: seq<string>)
    requires forall k :: 0 <= k < |lines| ==> ValidUtf8(lines[k])
    ensures ValidUtf8(Join(lines, '\n'))
  {
    if |lines| > 1 {
      JoinedIsValid(lines[1..]);
      var rest := Join(lines[1..], '\n');
      TwoPartsAreValid(lines[0], ['\n']);
      TwoPartsAreValid(lines[0] + ['\n'], rest);
    }
  }

  /** What is re-read of a valid file is valid. */
  lemma RangeIsValid(data: string, offset: int, limit: int)
    requires ValidUtf8(data) && ReadRange(data, offset, limit).Some?
    ensures ValidUtf8(ReadRange(data, offset, limit).value.content)
  {
    JoinSplit(data, '\n');
    var lines := FileLines(data);
    forall k | 0 <= k < |lines|
      ensures ValidUtf8(lines[k])
    {
      LinesAreValid(Lines(data), k);
    }
    var r := ReadRange(data, offset, limit).value;
    JoinedIsValid(lines[r.first - 1..r.last]);
  }

  // ---- the header ----

  function Tail(first: nat, last: nat): string {
    " (lines " + Itoa(first) + "-" + Itoa(last) + ")"
  }

  function Header(path: string, first: nat, last: nat): string {
    HEADER_PREFIX + path + Tail(first, last)
  }

  /** The last index not above `n`, or -1. */
  function LastIndexUpTo(s: string, part: string, n: nat): (r: int)
    ensures r >= 0 ==> r <= n && At(s, part, r)
    ensures forall k: nat :: (if r < 0 then 0 else r + 1) <= k <= n ==> !At(s, part, k)
  {
    if At(s, part, n) then n else if n == 0 then -1 else LastIndexUpTo(s, part, n - 1)
  }

  function LastIndex(s: string, part: string): int {
    LastIndexUpTo(s, part, |s|)
  }

  /** What a line that starts with the prefix names, before trimming. */
  function ParseHeader(line: string): string
    requires HasPrefix(line, HEADER_PREFIX)
  {
    var path := line[|HEADER_PREFIX|..];
    var i := LastIndex(path, " (lines ");
    if i > 0 then path[..i] else path
  }

  lemma NoMarkAt(s: string, k: nat)
    requires k + 8 <= |s| ==> s[k] != ' ' || s[k + 1] != '('
    ensures !At(s, " (lines ", k)
  {
    if k + 8 <= |s| {
      assert s[k..k + 8][0] == s[k] && s[k..k + 8][1] == s[k + 1];
    }
  }

  /** In " (lines " itself only the first space is followed by a parenthesis. */
  lemma NoMarkInMark(before: string, numbers: string, j: nat)
    requires 0 < j < 8 && numbers != "" && numbers[0] != '('
    ensures var s := before + " (lines " + numbers;
      s[|before| + j] != ' ' || s[|before| + j + 1] != '('
  {
    var s := before + " (lines " + numbers;
    assert s[|before| + j] == " (lines "[j] && (j == 7 ==> s[|before| + 8] == numbers[0]);
  }

  lemma NoSpaceInNumbers(first: nat, last: nat)
    ensures var numbers := Itoa(first) + "-" + Itoa(last) + ")";
      numbers[0] != '(' && forall i :: 0 <= i < |numbers| ==> numbers[i] != ' '
  {
    assert forall i :: 0 <= i < |Itoa(first)| ==> Itoa(first)[i] in Itoa(first);
    assert forall i :: 0 <= i < |Itoa(last)| ==> Itoa(last)[i] in Itoa(last);
  }

  lemma NoLaterMark(path: string, first: nat, last: nat, k: nat)
    requires k > |path|
    ensures !At(path + Tail(first, last), " (lines ", k)
  {
    var numbers := Itoa(first) + "-" + Itoa(last) + ")";
    var s := path + Tail(first, last);
    assert s == path + " (lines " + numbers;
    NoSpaceInNumbers(first, last);
    if k < |path| + 8 {
      NoMarkInMark(path, numbers, k - |path|);
    } else if k < |s| {
      assert s[k] == numbers[k - |path| - 8];
    }
    NoMarkAt(s, k);
  }

  /** A path with any content, even one that contains the mark itself, comes back. */
  lemma HeaderParsesBack(path: string, first: nat, last: nat)
    requires path != ""
    ensures HasPrefix(Header(path, first, last), HEADER_PREFIX) && ParseHeader(Header(path, first, last)) == path
  {
    var line := Header(path, first, last);
    var s := path + Tail(first, last);
    assert line == HEADER_PREFIX + s && line[..|HEADER_PREFIX|] == HEADER_PREFIX && line[|HEADER_PREFIX|..] == s;
    assert At(s, " (lines ", |path|) by {
      assert s[|path|..|path| + 8] == " (lines ";
    }
    var i := LastIndex(s, " (lines ");
    if i > |path| {
      NoLaterMark(path, first, last, i);
      assert false;
    }
    assert i == |path| && s[..i] == path;
  }

  // ---- which paths a history already holds ----

  datatype Piece = TextPiece(text: string) | FileRead(path: string) | OtherPiece(what: nat)

  datatype Content = Text(text: string) | Pieces(pieces: seq<Piece>)

  /** Trimming outer white space, making a path absolute (`norm` is empty if there is no path), and the
      sentences that mark a restoration. */
  datatype Paths = Paths(trim: string -> string, norm: string -> string, wording: Wording)

  function LinePath(line: string, ps: Paths): string
    requires HasPrefix(line, HEADER_PREFIX)
  {
    ps.norm(ps.trim(ParseHeader(line)))
  }

  function TextPaths(text: string, ps: Paths): set<string> {
    if !Contains(text, ps.wording.intro) then {}
    else
      set line | line in Lines(text) && HasPrefix(line, HEADER_PREFIX) && LinePath(line, ps) != "" ::
        LinePath(line, ps)
  }

  function PiecePaths(p: Piece, ps: Paths): set<string> {
    match p
    case TextPiece(t) => TextPaths(t, ps)
    case FileRead(path) => if path == "" || ps.norm(path) == "" then {} else {ps.norm(path)}
    case OtherPiece(_) => {}
  }

  function PiecesPaths(pieces: seq<Piece>, ps: Paths): set<string> {
    if pieces == [] then {} else PiecesPaths(pieces[..|pieces| - 1], ps) + PiecePaths(pieces[|pieces| - 1], ps)
  }

  function ContentPaths(c: Content, ps: Paths): set<string> {
    match c
    case Text(t) => TextPaths(t, ps)
    case Pieces(pieces) => PiecesPaths(pieces, ps)
  }

  function KeptPaths(messages: seq<Content>, ps: Paths): set<string> {
    if messages == [] then {}
    else KeptPaths(messages[..|messages| - 1], ps) + ContentPaths(messages[|messages| - 1], ps)
  }

  /** A header line in a text that carries the opening sentence, or a call that reads the file. */
  predicate Names(p: Piece, ps: Paths, path: string) {
    match p
    case TextPiece(t) =>
      Contains(t, ps.wording.intro)
      && exists line :: line in Lines(t) && HasPrefix(line, HEADER_PREFIX) && LinePath(line, ps) == path
    case FileRead(read) => read != "" && ps.norm(read) == path
    case OtherPiece(_) => false
  }

  predicate NamesIn(pieces: seq<Piece>, ps: Paths, path: string) {
    exists i :: 0 <= i < |pieces| && Names(pieces[i], ps, path)
  }

  predicate ContentNames(c: Content, ps: Paths, path: string) {
    match c
    case Text(t) => Names(TextPiece(t), ps, path)
    case Pieces(pieces) => NamesIn(pieces, ps, path)
  }

  predicate HistoryNames(messages: seq<Content>, ps: Paths, path: string) {
    exists j :: 0 <= j < |messages| && ContentNames(messages[j], ps, path)
  }

  lemma NamesIff(p: Piece, ps: Paths, path: string)
    ensures path in PiecePaths(p, ps) <==> path != "" && Names(p, ps, path)
  {
  }

  lemma {:induction false} NamesInIff(pieces: seq<Piece>, ps: Paths, path: string)
    ensures path in PiecesPaths(pieces, ps) <==> path != "" && NamesIn(pieces, ps, path)
  {
    if pieces != [] {
      var init := pieces[..|pieces| - 1];
      NamesInIff(init, ps, path);
      NamesIff(pieces[|init|], ps, path);
      if NamesIn(init, ps, path) {
        var i :| 0 <= i < |init| && Names(init[i], ps, path);
        assert Names(pieces[i], ps, path);
      }
      if NamesIn(pieces, ps, path) {
        var i :| 0 <= i < |pieces| && Names(pieces[i], ps, path);
        assert i < |init| ==> Names(init[i], ps, path);
      }
    }
  }

  lemma ContentNamesIff(c: Content, ps: Paths, path: string)
    ensures path in ContentPaths(c, ps) <==> path != "" && ContentNames(c, ps, path)
  {
    match c
    case Text(t) => NamesIff(TextPiece(t), ps, path);
    case Pieces(pieces) => NamesInIff(pieces, ps, path);
  }

  lemma OneMoreNames(messages: seq<Content>, last: Content, ps: Paths, path: string)
    ensures HistoryNames(messages + [last], ps, path) <==>
        HistoryNames(messages, ps, path) || ContentNames(last, ps, path)
  {
    var all := messages + [last];
    assert all[|messages|] == last;
    if HistoryNames(messages, ps, path) {
      var j :| 0 <= j < |messages| && ContentNames(messages[j], ps, path);
      assert ContentNames(all[j], ps, path);
    }
  }

  /** Which paths a history holds: those a surviving read or the header line of a surviving restoration
      names, and no other. */
  lemma {:induction false} KeptIff(messages: seq<Content>, ps: Paths, path: string)
    ensures path in KeptPaths(messages, ps) <==> path != "" && HistoryNames(messages, ps, path)
  {
    if messages != [] {
      var init, last := messages[..|messages| - 1], messages[|messages| - 1];
      KeptIff(init, ps, path);
      ContentNamesIff(last, ps, path);
      OneMoreNames(init, last, ps, path);
      assert init + [last] == messages;
    }
  }

  method CollectLines(text: string, ps: Paths) returns (out: set<string>)
    ensures out == TextPaths(text, ps)
  {
    out := {};
    if !Contains(text, ps.wording.intro) {
      return;
    }
    var lines := Lines(text);
    for i := 0 to |lines|
      invariant out == set line | line in lines[..i] && HasPrefix(line, HEADER_PREFIX) && LinePath(line, ps) != "" ::
          LinePath(line, ps)
    {
      assert lines[..i + 1] == lines[..i] + [lines[i]];
      if HasPrefix(lines[i], HEADER_PREFIX) {
        var p := LinePath(lines[i], ps);
        if p != "" {
          out := out + {p};
        }
      }
    }
    assert lines[..|lines|] == lines;
  }

  method KeptFileReadPaths(messages: seq<Content>, ps: Paths) returns (out: set<string>)
    ensures out == KeptPaths(messages, ps)
  {
    out := {};
    for k := 0 to |messages|
      invariant out == KeptPaths(messages[..k], ps)
    {
      assert messages[..k + 1][..k] == messages[..k];
      match messages[k]
      case Text(t) =>
        var found := CollectLines(t, ps);
        out := out + found;
      case Pieces(pieces) =>
        ghost var before := out;
        for i := 0 to |pieces|
          invariant out == before + PiecesPaths(pieces[..i], ps)
        {
          assert pieces[..i + 1][..i] == pieces[..i];
          match pieces[i]
          case TextPiece(t) =>
            var found := CollectLines(t, ps);
            out := out + found;
          case FileRead(path) =>
            if path != "" && ps.norm(path) != "" {
              out := out + {ps.norm(path)};
            }
          case OtherPiece(_) =>
        }
        assert pieces[..|pieces|] == pieces;
    }
    assert messages[..|messages|] == messages;
  }

  // ---- building the message ----

  datatype Read = Read(path: string, offset: int, limit: int, when: int)

  datatype File = Unreadable | File(bytes: string)

  /** Everything outside: the disk, the path functions, what the window leaves, and the caller's estimate of
      the overhead. */
  datatype World = World(disk: string -> File, paths: Paths, window: int, headroom: int, overhead: int)

  datatype Section = Section(path: string, first: nat, last: nat, content: string)

  const MAX_FILE_BYTES := 5242880
  const PER_FILE_BYTES := 7 * FILE_TOKEN_CAP / 2
  const EXCLUDED_NAMES := {"memory.md", "agent.md"}
  const EXCLUDED_EXTENSIONS := {".png", ".jpg", ".jpeg", ".gif", ".webp", ".heic", ".heif", ".avif", ".bmp", ".tiff",
      ".pdf"}

  function Lower(s: string): string {
    seq(|s|, i requires 0 <= i < |s| => if 'A' <= s[i] <= 'Z' then s[i] - 'A' + 'a' else s[i])
  }

  /** The last index of a character, or -1. */
  function OneOf(s: string, c: char): (r: int)
    ensures -1 <= r < |s|
  {
    if s == "" then -1 else if s[|s| - 1] == c then |s| - 1 else OneOf(s[..|s| - 1], c)
  }

  function Base(path: string): string {
    if OneOf(path, '/') < 0 then path else path[OneOf(path, '/') + 1..]
  }

  function Ext(path: string): string {
    var base := Base(path);
    if OneOf(base, '.') < 0 then "" else base[OneOf(base, '.')..]
  }

  function Reread(r: Read, w: World): Option<Range> {
    var file := w.disk(r.path);
    if Lower(Ext(r.path)) in EXCLUDED_EXTENSIONS || file.Unreadable? || |file.bytes| > MAX_FILE_BYTES
       || !ValidUtf8(file.bytes) then None
    else ReadRange(file.bytes, r.offset, r.limit)
  }

  /** Which files are read again: text by name and by content, within the size limit, with a line. */
  lemma RereadIff(r: Read, w: World)
    ensures Reread(r, w).Some? <==>
      && Lower(Ext(r.path)) !in EXCLUDED_EXTENSIONS
      && w.disk(r.path).File?
      && 0 < |w.disk(r.path).bytes| <= MAX_FILE_BYTES
      && ValidUtf8(w.disk(r.path).bytes)
  {
    if w.disk(r.path).File? { HasLineIff(w.disk(r.path).bytes); }
  }

  function Min(a: int, b: int): int {
    if a < b then a else b
  }

  function Restore(r: Read, kept: set<string>, w: World, charBudget: nat): Option<Section> {
    if Lower(Base(r.path)) in EXCLUDED_NAMES || r.path in kept then None
    else
      var range := Reread(r, w);
      if range.None? || w.paths.trim(range.value.content) == "" then None
      else Some(Section(r.path, range.value.first, range.value.last,
                        ReplaceAll(
                          Clip(range.value.content, Min(PER_FILE_BYTES, charBudget), w.paths.wording.clipMarker))))
  }

  function Render(s: Section): string {
    Header(s.path, s.first, s.last) + "\n" + s.content + "\n\n"
  }

  function Flat(parts: seq<string>): string {
    if parts == [] then "" else Flat(parts[..|parts| - 1]) + parts[|parts| - 1]
  }

  function Rendered(ss: seq<Section>, render: Section -> string): seq<string> {
    seq(|ss|, i requires 0 <= i < |ss| => render(ss[i]))
  }

  function ConcatBy(ss: seq<Section>, render: Section -> string): string {
    Flat(Rendered(ss, render))
  }

  function Concat(ss: seq<Section>): string {
    ConcatBy(ss, Render)
  }

  lemma ConcatOneMore(ss: seq<Section>, s: Section, render: Section -> string)
    ensures ConcatBy(ss + [s], render) == ConcatBy(ss, render) + render(s)
  {
    assert Rendered(ss + [s], render)[..|ss|] == Rendered(ss, render);
  }

  /** How one read is restored within a budget, if at all, and how a section is written. */
  datatype Restorer = Restorer(restore: (Read, nat) -> Option<Section>, render: Section -> string)

  function RestorerOf(kept: set<string>, w: World): Restorer {
    Restorer((r: Read, charBudget: nat) => Restore(r, kept, w, charBudget), Render)
  }

  datatype Progress = Progress(sections: seq<Section>, charBudget: int)

  /** After the first `i` reads; once five files are in or the budget is used up nothing more is added. */
  function Build(recent: seq<Read>, f: Restorer, budget: nat, i: nat): Progress
    requires i <= |recent|
  {
    if i == 0 then Progress([], budget)
    else
      var before := Build(recent, f, budget, i - 1);
      if |before.sections| >= MAX_FILES || before.charBudget <= 0 then before
      else match f.restore(recent[i - 1], before.charBudget)
        case None => before
        case Some(section) => Progress(before.sections + [section], before.charBudget - |f.render(section)|)
  }

  function Wrap(ss: seq<Section>, intro: string): string {
    OPEN_TAG + "\n" + intro + "\n\n" + Concat(ss) + CLOSE_TAG
  }

  /** The token budget, if there is enough of it. */
  function Budget(w: World): Option<nat> {
    var budget := Min(w.headroom - (if w.overhead < 0 then 0 else w.overhead), TOTAL_TOKEN_CAP);
    if w.window <= 0 || budget < MIN_BUDGET_TOKENS then None else Some(budget)
  }

  function Restored(messages: seq<Content>, recent: seq<Read>, w: World): seq<Section> {
    match Budget(w)
    case None => []
    case Some(tokens) => Build(recent, RestorerOf(KeptPaths(messages, w.paths), w), 7 * tokens / 2, |recent|).sections
  }

  lemma {:induction false} BuildHasStopped(recent: seq<Read>, f: Restorer, budget: nat, i: nat, j: nat)
    requires i <= j <= |recent|
    requires |Build(recent, f, budget, i).sections| >= MAX_FILES || Build(recent, f, budget, i).charBudget <= 0
    ensures Build(recent, f, budget, j) == Build(recent, f, budget, i)
  {
    if i < j { BuildHasStopped(recent, f, budget, i, j - 1); }
  }

  method AppendSections(recent: seq<Read>, f: Restorer, total: nat) returns (sb: string, files: nat)
    ensures var ss := Build(recent, f, total, |recent|).sections; sb == ConcatBy(ss, f.render) && files == |ss|
  {
    var charBudget: int := total;
    sb, files := "", 0;
    ghost var ss: seq<Section> := [];
    for i := 0 to |recent|
      invariant Progress(ss, charBudget) == Build(recent, f, total, i)
      invariant files == |ss| && sb == ConcatBy(ss, f.render)
    {
      if files >= MAX_FILES || charBudget <= 0 {
        BuildHasStopped(recent, f, total, i, |recent|);
        break;
      }
      var section := f.restore(recent[i], charBudget);
      if section.None? {
        continue;
      }
      var rendered := f.render(section.value);
      ConcatOneMore(ss, section.value, f.render);
      ss := ss + [section.value];
      sb := sb + rendered;
      charBudget := charBudget - |rendered|;
      files := files + 1;
    }
  }

  method BuildPostCompactionFileRestore(messages: seq<Content>, recent: seq<Read>, w: World)
    returns (text: Option<string>)
    ensures text ==
        if Restored(messages, recent, w) == [] then None
        else Some(Wrap(Restored(messages, recent, w), w.paths.wording.intro))
  {
    var budget := Budget(w);
    if budget.None? {
      return None;
    }
    var total: nat := 7 * budget.value / 2;
    var kept := KeptFileReadPaths(messages, w.paths);
    var sb, files := AppendSections(recent, RestorerOf(kept, w), total);
    if files == 0 {
      return None;
    }
    return Some(OPEN_TAG + "\n" + w.paths.wording.intro + "\n\n" + sb + CLOSE_TAG);
  }

  // ---- the budget ----

  /** What a section may take beyond the budget it was cut to. */
  function Overhang(s: Section, marker: string): nat {
    |Header(s.path, s.first, s.last)| + 3 + |marker|
  }

  predicate Clipped(f: Restorer, r: Read, charBudget: nat, overhang: Section -> nat) {
    var s := f.restore(r, charBudget);
    s.Some? ==> |f.render(s.value)| <= charBudget + overhang(s.value)
  }

  function OverhangOf(w: World): Section -> nat {
    s => Overhang(s, w.paths.wording.clipMarker)
  }

  lemma RestoreIsClipped(r: Read, kept: set<string>, w: World, charBudget: nat)
    ensures Clipped(RestorerOf(kept, w), r, charBudget, OverhangOf(w))
  {
    if Restore(r, kept, w, charBudget).Some? {
      ReplaceKeepsLength(Clip(Reread(r, w).value.content, Min(PER_FILE_BYTES, charBudget), w.paths.wording.clipMarker));
    }
  }

  lemma {:induction false} BuildKeepsBudget(recent: seq<Read>, f: Restorer, budget: nat, i: nat,
      overhang: Section -> nat)
    requires i <= |recent| && forall r, c: nat :: Clipped(f, r, c, overhang)
    ensures var p := Build(recent, f, budget, i);
      && |p.sections| <= MAX_FILES
      && |ConcatBy(p.sections, f.render)| == budget - p.charBudget
      && (p.charBudget >= 0 || (p.sections != [] && -p.charBudget <= overhang(p.sections[|p.sections| - 1])))
  {
    if i > 0 {
      BuildKeepsBudget(recent, f, budget, i - 1, overhang);
      var before := Build(recent, f, budget, i - 1);
      if |before.sections| < MAX_FILES && before.charBudget > 0 && f.restore(recent[i - 1], before.charBudget).Some? {
        assert Clipped(f, recent[i - 1], before.charBudget, overhang);
        ConcatOneMore(before.sections, f.restore(recent[i - 1], before.charBudget).value, f.render);
      }
    }
  }

  /** At most five files, and at most `floor(3.5 * budget)` bytes of sections beyond the last one's header
      and clip marker. */
  lemma RestorationIsBounded(messages: seq<Content>, recent: seq<Read>, w: World)
    ensures var ss := Restored(messages, recent, w);
      && |ss| <= MAX_FILES
      && (ss != [] ==> Budget(w).Some?
                       && |Concat(ss)| <= 7 * Budget(w).value / 2 + Overhang(ss[|ss| - 1], w.paths.wording.clipMarker))
  {
    if Budget(w).Some? {
      var kept, overhang := KeptPaths(messages, w.paths), OverhangOf(w);
      var f := RestorerOf(kept, w);
      forall r, c: nat
        ensures Clipped(f, r, c, overhang)
      {
        RestoreIsClipped(r, kept, w, c);
      }
      BuildKeepsBudget(recent, f, 7 * Budget(w).value / 2, |recent|, overhang);
    }
  }

  /** Before its last section a restoration is always within the budget. */
  lemma {:induction false} OnlyTheLastOverdraws(recent: seq<Read>, f: Restorer, budget: nat, i: nat, k: nat,
      overhang: Section -> nat)
    requires i <= |recent| && forall r, c: nat :: Clipped(f, r, c, overhang)
    requires k < |Build(recent, f, budget, i).sections|
    ensures |ConcatBy(Build(recent, f, budget, i).sections[..k], f.render)| < budget
  {
    BuildKeepsBudget(recent, f, budget, i - 1, overhang);
    var before := Build(recent, f, budget, i - 1).sections;
    var ss := Build(recent, f, budget, i).sections;
    if k < |before| {
      OnlyTheLastOverdraws(recent, f, budget, i - 1, k, overhang);
      assert ss[..k] == before[..k];
    } else {
      assert ss[..k] == before;
    }
  }

  /** The bytes a range takes once it is clipped. */
  function ClippedLen(content: string, limit: nat, marker: string): nat {
    if |content| <= limit then |content| else Cut(content, limit) + |marker|
  }

  lemma OneFileIsOneSection(messages: seq<Content>, read: Read, w: World)
    requires Budget(w).Some?
    requires Restore(read, KeptPaths(messages, w.paths), w, 7 * Budget(w).value / 2).Some?
    ensures Restored(messages, [read], w) ==
        [] + [Restore(read, KeptPaths(messages, w.paths), w, 7 * Budget(w).value / 2).value]
  {
    var f := RestorerOf(KeptPaths(messages, w.paths), w);
    var budget: nat := 7 * Budget(w).value / 2;
    assert Build([read], f, budget, 0) == Progress([], budget);
    assert Build([read], f, budget, 1).sections == [] + [f.restore(read, budget).value];
  }

  lemma RestoredLength(read: Read, kept: set<string>, w: World, charBudget: nat)
    requires Restore(read, kept, w, charBudget).Some?
    ensures var s := Restore(read, kept, w, charBudget).value; var range := Reread(read, w).value;
      |Render(s)| == |Header(read.path, range.first, range.last)| + 3
                     + ClippedLen(range.content, Min(PER_FILE_BYTES, charBudget), w.paths.wording.clipMarker)
  {
    ReplaceKeepsLength(Clip(Reread(read, w).value.content, Min(PER_FILE_BYTES, charBudget),
        w.paths.wording.clipMarker));
  }

  /** What a read takes of `left` bytes, header, three line ends and clipped content, if it is restored at all. */
  function Cost(r: Read, kept: set<string>, w: World, left: nat): Option<nat> {
    if Lower(Base(r.path)) in EXCLUDED_NAMES || r.path in kept then None
    else
      var range := Reread(r, w);
      if range.None? || w.paths.trim(range.value.content) == "" then None
      else Some(|Header(r.path, range.value.first, range.value.last)| + 3
                + ClippedLen(range.value.content, Min(PER_FILE_BYTES, left), w.paths.wording.clipMarker))
  }

  function CostOf(kept: set<string>, w: World): (Read, nat) -> Option<nat> {
    (r: Read, left: nat) => Cost(r, kept, w, left)
  }

  datatype Account = Account(files: nat, left: int)

  /** The budget as the lengths of the files alone use it up, after the first `i` reads. */
  function Spend(recent: seq<Read>, cost: (Read, nat) -> Option<nat>, budget: nat, i: nat): Account
    requires i <= |recent|
  {
    if i == 0 then Account(0, budget)
    else
      var before := Spend(recent, cost, budget, i - 1);
      if before.files >= MAX_FILES || before.left <= 0 || cost(recent[i - 1], before.left).None? then before
      else Account(before.files + 1, before.left - cost(recent[i - 1], before.left).value)
  }

  predicate Measured(f: Restorer, cost: (Read, nat) -> Option<nat>, r: Read, left: nat) {
    var s := f.restore(r, left);
    cost(r, left) == if s.Some? then Some(|f.render(s.value)|) else None
  }

  lemma CostIsLength(r: Read, kept: set<string>, w: World, left: nat)
    ensures Restore(r, kept, w, left).Some? <==> Cost(r, kept, w, left).Some?
    ensures Restore(r, kept, w, left).Some? ==>
      |Render(Restore(r, kept, w, left).value)| == Cost(r, kept, w, left).value
  {
    if Restore(r, kept, w, left).Some? {
      RestoredLength(r, kept, w, left);
    }
  }

  lemma RestoreIsMeasured(r: Read, kept: set<string>, w: World, left: nat)
    ensures Measured(RestorerOf(kept, w), CostOf(kept, w), r, left)
  {
    CostIsLength(r, kept, w, left);
    var s, c := Restore(r, kept, w, left), Cost(r, kept, w, left);
    assert RestorerOf(kept, w).restore(r, left) == s && CostOf(kept, w)(r, left) == c;
  }

  lemma {:induction false} BuildSpends(recent: seq<Read>, f: Restorer, cost: (Read, nat) -> Option<nat>, budget: nat,
      i: nat)
    requires i <= |recent| && forall r, left: nat :: Measured(f, cost, r, left)
    ensures var p := Build(recent, f, budget, i);
      Spend(recent, cost, budget, i) == Account(|p.sections|, p.charBudget)
  {
    if i > 0 {
      BuildSpends(recent, f, cost, budget, i - 1);
      var before := Build(recent, f, budget, i - 1);
      assert before.charBudget > 0 ==> Measured(f, cost, recent[i - 1], before.charBudget);
    }
  }

  /** When a restoration stays within `floor(3.5 * budget)` bytes: exactly when the lengths of the headers and
      clipped contents, taken off the budget one after the other, do not overdraw it. */
  lemma StaysWithinBudgetIff(messages: seq<Content>, recent: seq<Read>, w: World)
    requires Budget(w).Some?
    ensures var budget: nat := 7 * Budget(w).value / 2;
      var left := Spend(recent, CostOf(KeptPaths(messages, w.paths), w), budget, |recent|).left;
      && |Concat(Restored(messages, recent, w))| == budget - left
      && (|Concat(Restored(messages, recent, w))| <= budget <==> left >= 0)
  {
    var kept, overhang := KeptPaths(messages, w.paths), OverhangOf(w);
    forall r, c: nat
      ensures Clipped(RestorerOf(kept, w), r, c, overhang)
    {
      RestoreIsClipped(r, kept, w, c);
    }
    BuildKeepsBudget(recent, RestorerOf(kept, w), 7 * Budget(w).value / 2, |recent|, overhang);
    forall r, left: nat
      ensures Measured(RestorerOf(kept, w), CostOf(kept, w), r, left)
    {
      RestoreIsMeasured(r, kept, w, left);
    }
    BuildSpends(recent, RestorerOf(kept, w), CostOf(kept, w), 7 * Budget(w).value / 2, |recent|);
  }

  /** For one file: exactly when its header, three line ends and its clipped content fit. */
  lemma OneFileFitsIff(messages: seq<Content>, read: Read, w: World)
    requires Budget(w).Some?
    requires Restore(read, KeptPaths(messages, w.paths), w, 7 * Budget(w).value / 2).Some?
    ensures var budget := 7 * Budget(w).value / 2; var range := Reread(read, w).value;
      |Concat(Restored(messages, [read], w))| <= budget <==>
        |Header(read.path, range.first, range.last)| + 3
        + ClippedLen(range.content, Min(PER_FILE_BYTES, budget), w.paths.wording.clipMarker) <= budget
  {
    var budget: nat := 7 * Budget(w).value / 2;
    var kept := KeptPaths(messages, w.paths);
    var s := Restore(read, kept, w, budget).value;
    OneFileIsOneSection(messages, read, w);
    RestoredLength(read, kept, w, budget);
    ConcatOneMore([], s, Render);
  }

  /** So the overshoot is real: a single file that has to be cut to the whole budget always exceeds it. */
  lemma CutFileOvershoots(messages: seq<Content>, read: Read, w: World)
    requires Budget(w).Some? && 7 * Budget(w).value / 2 <= PER_FILE_BYTES
    requires Restore(read, KeptPaths(messages, w.paths), w, 7 * Budget(w).value / 2).Some?
    requires |Reread(read, w).value.content| > 7 * Budget(w).value / 2
    ensures |Concat(Restored(messages, [read], w))| > 7 * Budget(w).value / 2
  {
    var budget: nat := 7 * Budget(w).value / 2;
    var content := Reread(read, w).value.content;
    OneFileFitsIff(messages, read, w);
    RangeIsValid(w.disk(read.path).bytes, read.offset, read.limit);
    ClippedIsValid(content, budget, w.paths.wording.clipMarker);
  }

  // ---- which files ----

  predicate DistinctPaths(recent: seq<Read>) {
    forall i, j :: 0 <= i < j < |recent| ==> recent[i].path != recent[j].path
  }

  predicate Permitted(path: string, kept: set<string>) {
    path !in kept && Lower(Base(path)) !in EXCLUDED_NAMES
  }

  ghost predicate Faithful(f: Restorer, ok: string -> bool) {
    forall r, c: nat :: f.restore(r, c).Some? ==> f.restore(r, c).value.path == r.path && ok(r.path)
  }

  predicate Among(path: string, recent: seq<Read>, i: nat) {
    exists k :: 0 <= k < i && k < |recent| && recent[k].path == path
  }

  predicate NoRepeats(ss: seq<Section>) {
    forall a, b :: 0 <= a < b < |ss| ==> ss[a].path != ss[b].path
  }

  predicate PickedFrom(ss: seq<Section>, ok: string -> bool, recent: seq<Read>, i: nat) {
    forall a :: 0 <= a < |ss| ==> ok(ss[a].path) && Among(ss[a].path, recent, i)
  }

  lemma {:induction false} BuildPicks(recent: seq<Read>, f: Restorer, ok: string -> bool, budget: nat, i: nat)
    requires i <= |recent| && DistinctPaths(recent) && Faithful(f, ok)
    ensures NoRepeats(Build(recent, f, budget, i).sections)
    ensures PickedFrom(Build(recent, f, budget, i).sections, ok, recent, i)
  {
    if i > 0 {
      BuildPicks(recent, f, ok, budget, i - 1);
      var before := Build(recent, f, budget, i - 1).sections;
      var ss := Build(recent, f, budget, i).sections;
      assert !Among(recent[i - 1].path, recent, i - 1);
      forall a | 0 <= a < |ss|
        ensures ok(ss[a].path) && Among(ss[a].path, recent, i)
      {
        if a < |before| {
          assert ss[a] == before[a] && Among(before[a].path, recent, i - 1);
        } else {
          assert ss[a].path == recent[i - 1].path;
        }
      }
    }
  }

  /** No path twice, none whose content the history still holds, none of the excluded names. */
  lemma RestoredFilesAreNew(messages: seq<Content>, recent: seq<Read>, w: World)
    requires DistinctPaths(recent)
    ensures var ss := Restored(messages, recent, w);
      && NoRepeats(ss)
      && (forall a :: 0 <= a < |ss| ==> Permitted(ss[a].path, KeptPaths(messages, w.paths)))
  {
    if Budget(w).Some? {
      var kept := KeptPaths(messages, w.paths);
      var ok := path => Permitted(path, kept);
      var f := RestorerOf(kept, w);
      assert Faithful(f, ok) by {
        forall r, c: nat | f.restore(r, c).Some?
          ensures f.restore(r, c).value.path == r.path && ok(r.path)
        {
        }
      }
      BuildPicks(recent, f, ok, 7 * Budget(w).value / 2, |recent|);
    }
  }

  /** Whether a read is restored does not depend on how much budget is left, only how much of it. */
  ghost predicate Steady(f: Restorer) {
    forall r, c: nat, d: nat :: f.restore(r, c).Some? <==> f.restore(r, d).Some?
  }

  predicate HasSection(ss: seq<Section>, path: string) {
    exists a :: 0 <= a < |ss| && ss[a].path == path
  }

  lemma {:induction false} BuildIsComplete(recent: seq<Read>, f: Restorer, ok: string -> bool, budget: nat, i: nat,
      k: nat)
    requires k < i <= |recent| && Steady(f) && Faithful(f, ok) && f.restore(recent[k], 0).Some?
    ensures var p := Build(recent, f, budget, i);
      HasSection(p.sections, recent[k].path) || |p.sections| >= MAX_FILES || p.charBudget <= 0
  {
    var before := Build(recent, f, budget, i - 1);
    if |before.sections| < MAX_FILES && before.charBudget > 0 {
      var p := Build(recent, f, budget, i);
      var c: nat := before.charBudget;
      if k < i - 1 {
        BuildIsComplete(recent, f, ok, budget, i - 1, k);
        var a :| 0 <= a < |before.sections| && before.sections[a].path == recent[k].path;
        assert p.sections[a] == before.sections[a];
      } else {
        assert f.restore(recent[k], c).Some? <==> f.restore(recent[k], 0).Some?;
        assert p.sections[|before.sections|].path == recent[k].path;
      }
    }
  }

  /** Nothing recent is left out without reason: a read that can be restored is, unless five files came
      before it or the budget was used up. */
  lemma NothingIsSkipped(messages: seq<Content>, recent: seq<Read>, w: World, k: nat)
    requires k < |recent| && Budget(w).Some? && Restore(recent[k], KeptPaths(messages, w.paths), w, 0).Some?
    ensures var ss := Restored(messages, recent, w);
      HasSection(ss, recent[k].path) || |ss| >= MAX_FILES || |Concat(ss)| >= 7 * Budget(w).value / 2
  {
    var kept, overhang := KeptPaths(messages, w.paths), OverhangOf(w);
    var f := RestorerOf(kept, w);
    var budget: nat := 7 * Budget(w).value / 2;
    var ok := path => true;
    assert Faithful(f, ok) && Steady(f);
    BuildIsComplete(recent, f, ok, budget, |recent|, k);
    forall r, c: nat
      ensures Clipped(f, r, c, overhang)
    {
      RestoreIsClipped(r, kept, w, c);
    }
    BuildKeepsBudget(recent, f, budget, |recent|, overhang);
  }

  lemma {:induction false} BuildGrows(recent: seq<Read>, f: Restorer, budget: nat, i: nat, j: nat)
    requires i <= j <= |recent|
    ensures Build(recent, f, budget, i).sections <= Build(recent, f, budget, j).sections
  {
    if i < j { BuildGrows(recent, f, budget, i, j - 1); }
  }

  /** There is a budget when a thousand tokens are left, and it is what is left, up to the cap. */
  lemma BudgetIff(w: World)
    ensures Budget(w).Some? <==> w.window > 0 && w.headroom >= 1000 && w.headroom - w.overhead >= 1000
    ensures Budget(w).Some? ==>
        var tokens := Budget(w).value;
        && tokens <= 50000 && tokens <= w.headroom && tokens <= w.headroom - w.overhead
        && tokens in {50000, w.headroom, w.headroom - w.overhead}
  {
  }

  /** The most recent read is restored, first, if there are a thousand tokens left, the file can be read
      again and says something, and the history does not hold it. */
  lemma LatestReadIsRestored(messages: seq<Content>, recent: seq<Read>, w: World)
    requires recent != [] && w.window > 0 && w.headroom >= 1000 && w.headroom - w.overhead >= 1000
    requires var r := recent[0];
      && Lower(Base(r.path)) != "memory.md" && Lower(Base(r.path)) != "agent.md"
      && (r.path != "" ==> !HistoryNames(messages, w.paths, r.path))
      && Reread(r, w).Some? && w.paths.trim(Reread(r, w).value.content) != ""
    ensures var ss := Restored(messages, recent, w); var range := Reread(recent[0], w).value;
      ss != [] && ss[0].path == recent[0].path && ss[0].first == range.first && ss[0].last == range.last
  {
    BudgetIff(w);
    var kept := KeptPaths(messages, w.paths);
    KeptIff(messages, w.paths, recent[0].path);
    var f := RestorerOf(kept, w);
    var budget: nat := 7 * Budget(w).value / 2;
    assert f.restore(recent[0], budget).Some?;
    assert Build(recent, f, budget, 0) == Progress([], budget);
    assert Build(recent, f, budget, 1).sections == [] + [f.restore(recent[0], budget).value];
    BuildGrows(recent, f, budget, 1, |recent|);
  }

  /** A range within the limits comes back byte for byte, unless it holds a closing tag. */
  lemma SmallRangeIsWhole(r: Read, kept: set<string>, w: World, charBudget: nat)
    requires Restore(r, kept, w, charBudget).Some?
    requires |Reread(r, w).value.content| <= Min(PER_FILE_BYTES, charBudget)
        && !Contains(Reread(r, w).value.content, CLOSE_TAG)
    ensures Restore(r, kept, w, charBudget).value.content == Reread(r, w).value.content
  {
    ReplaceNothing(Reread(r, w).value.content);
  }

  // ---- a later compaction ----

  /** A recorded path: one line, already trimmed and absolute. */
  predicate CleanPath(path: string, ps: Paths) {
    path != "" && OneLine(path) && ps.trim(path) == path && ps.norm(path) == path
  }

  predicate EndsLine(s: string) {
    s != "" && s[|s| - 1] == '\n'
  }

  lemma {:induction false} FlatAround(parts: seq<string>, k: nat) returns (post: string)
    requires k < |parts|
    ensures Flat(parts) == Flat(parts[..k]) + parts[k] + post
  {
    if k == |parts| - 1 {
      post := "";
    } else {
      var before := FlatAround(parts[..|parts| - 1], k);
      assert parts[..|parts| - 1][..k] == parts[..k];
      post := before + parts[|parts| - 1];
    }
  }

  lemma FlatEndsLine(parts: seq<string>)
    requires parts != [] && EndsLine(parts[|parts| - 1])
    ensures EndsLine(Flat(parts))
  {
  }

  lemma HeaderIsOneLine(path: string, first: nat, last: nat)
    requires OneLine(path)
    ensures OneLine(Header(path, first, last))
  {
  }

  lemma LineBetween(before: string, line: string, after: string)
    requires EndsLine(before) && OneLine(line)
    ensures line in Lines(before + line + "\n" + after)
  {
    var a := before[..|before| - 1];
    assert before + line + "\n" + after == a + "\n" + (line + "\n" + after);
    SplitAt(a, line + "\n" + after, '\n');
    SplitAt(line, after, '\n');
    SplitWhole(line, '\n');
    assert (Lines(a) + ([line] + Lines(after)))[|Lines(a)|] == line;
  }

  lemma SameText(a: string, b: string, l: string, d: string, e: string, f: string)
    ensures a + (b + (l + "\n" + d) + e) + f == (a + b) + l + "\n" + (d + e + f)
  {
  }

  lemma PartsEndLine(opening: string, parts: seq<string>)
    requires EndsLine(opening) && (parts != [] ==> EndsLine(parts[|parts| - 1]))
    ensures EndsLine(opening + Flat(parts))
  {
    if parts != [] { FlatEndsLine(parts); }
  }

  lemma LineInside(opening: string, parts: seq<string>, k: nat, line: string, rest: string, closing: string)
    requires EndsLine(opening) && k < |parts| && OneLine(line)
    requires parts[k] == line + "\n" + rest && (k > 0 ==> EndsLine(parts[k - 1]))
    ensures line in Lines(opening + Flat(parts) + closing)
  {
    var before := Flat(parts[..k]);
    var post := FlatAround(parts, k);
    PartsEndLine(opening, parts[..k]);
    LineBetween(opening + before, line, rest + post + closing);
    SameText(opening, before, line, rest, post, closing);
  }

  /** The header line of each restored file is a line of the message, whatever the files contain. */
  lemma HeaderIsALine(ss: seq<Section>, k: nat, intro: string)
    requires k < |ss| && OneLine(ss[k].path)
    ensures Header(ss[k].path, ss[k].first, ss[k].last) in Lines(Wrap(ss, intro))
  {
    var parts := Rendered(ss, Render);
    var header := Header(ss[k].path, ss[k].first, ss[k].last);
    HeaderIsOneLine(ss[k].path, ss[k].first, ss[k].last);
    if k > 0 { assert EndsLine(Render(ss[k - 1])); }
    assert Render(ss[k]) == header + "\n" + (ss[k].content + "\n\n");
    LineInside(OPEN_TAG + "\n" + intro + "\n\n", parts, k, header, ss[k].content + "\n\n", CLOSE_TAG);
  }

  lemma RestoredPathIsKept(ss: seq<Section>, k: nat, ps: Paths)
    requires k < |ss| && CleanPath(ss[k].path, ps)
    ensures ss[k].path in TextPaths(Wrap(ss, ps.wording.intro), ps)
  {
    HeaderIsALine(ss, k, ps.wording.intro);
    HeaderParsesBack(ss[k].path, ss[k].first, ss[k].last);
    var intro := ps.wording.intro;
    var text := Wrap(ss, intro);
    assert At(text, intro, |OPEN_TAG| + 1) by {
      assert text[|OPEN_TAG| + 1..|OPEN_TAG| + 1 + |intro|] == intro;
    }
    assert LinePath(Header(ss[k].path, ss[k].first, ss[k].last), ps) == ss[k].path;
  }

  lemma {:induction false} KeptInMessage(messages: seq<Content>, j: nat, ps: Paths, path: string)
    requires j < |messages| && path in ContentPaths(messages[j], ps)
    ensures path in KeptPaths(messages, ps)
  {
    if j < |messages| - 1 {
      KeptInMessage(messages[..|messages| - 1], j, ps, path);
    }
  }

  lemma {:induction false} KeptInPiece(pieces: seq<Piece>, j: nat, ps: Paths, path: string)
    requires j < |pieces| && path in PiecePaths(pieces[j], ps)
    ensures path in PiecesPaths(pieces, ps)
  {
    if j < |pieces| - 1 {
      KeptInPiece(pieces[..|pieces| - 1], j, ps, path);
    }
  }

  predicate Holds(c: Content, text: string) {
    c == Text(text) || (c.Pieces? && TextPiece(text) in c.pieces)
  }

  /** While the message of an earlier restoration survives, no later one brings any of its files again. */
  lemma SurvivingFileIsNotRestoredAgain(earlier: seq<Section>, k: nat, messages: seq<Content>, recent: seq<Read>,
      w: World)
    requires k < |earlier| && CleanPath(earlier[k].path, w.paths) && DistinctPaths(recent)
    requires exists j :: 0 <= j < |messages| && Holds(messages[j], Wrap(earlier, w.paths.wording.intro))
    ensures forall a ::
        0 <= a < |Restored(messages, recent, w)| ==> Restored(messages, recent, w)[a].path != earlier[k].path
  {
    RestoredPathIsKept(earlier, k, w.paths);
    var path := earlier[k].path;
    var j: nat :| j < |messages| && Holds(messages[j], Wrap(earlier, w.paths.wording.intro));
    assert path in ContentPaths(messages[j], w.paths) by {
      if messages[j].Pieces? {
        var i :| 0 <= i < |messages[j].pieces|
            && messages[j].pieces[i] == TextPiece(Wrap(earlier, w.paths.wording.intro));
        KeptInPiece(messages[j].pieces, i, w.paths, path);
      }
    }
    KeptInMessage(messages, j, w.paths, path);
    RestoredFilesAreNew(messages, recent, w);
  }

  // ---- the most recent reads ----

  datatype Key = Key(path: string, offset: int, limit: int)

  predicate Recorded(r: Read, lastReads: map<Key, int>) {
    Key(r.path, r.offset, r.limit) in lastReads && lastReads[Key(r.path, r.offset, r.limit)] == r.when
  }

  /** `latest` has for every path among `seen` a most recent of its recorded ranges. */
  ghost predicate LatestOf(latest: map<string, Read>, lastReads: map<Key, int>, seen: set<Key>) {
    && (forall p :: p in latest ==> latest[p].path == p && Recorded(latest[p], lastReads))
    && (forall k :: k in seen && k in lastReads ==> k.path in latest && lastReads[k] <= latest[k.path].when)
    && (forall p :: p in latest ==> exists k: Key :: k in seen && k.path == p)
  }

  lemma LatestOneMore(latest: map<string, Read>, lastReads: map<Key, int>, seen: set<Key>, key: Key)
    requires LatestOf(latest, lastReads, seen) && key in lastReads
    ensures var newer := key.path !in latest || lastReads[key] > latest[key.path].when;
      LatestOf(if newer then latest[key.path := Read(key.path, key.offset, key.limit, lastReads[key])] else latest,
               lastReads, seen + {key})
  {
    var r := Read(key.path, key.offset, key.limit, lastReads[key]);
    assert Key(r.path, r.offset, r.limit) == key;
    assert forall p :: p in latest ==> exists k: Key :: k in seen + {key} && k.path == p;
  }

  method LatestPerPath(lastReads: map<Key, int>) returns (latest: map<string, Read>)
    ensures LatestOf(latest, lastReads, lastReads.Keys)
  {
    latest := map[];
    var left := lastReads.Keys;
    while left != {}
      invariant left <= lastReads.Keys && LatestOf(latest, lastReads, lastReads.Keys - left)
      decreases |left|
    {
      var key :| key in left;
      LatestOneMore(latest, lastReads, lastReads.Keys - left, key);
      assert lastReads.Keys - (left - {key}) == (lastReads.Keys - left) + {key};
      if key.path !in latest || lastReads[key] > latest[key.path].when {
        latest := latest[key.path := Read(key.path, key.offset, key.limit, lastReads[key])];
      }
      left := left - {key};
    }
    assert lastReads.Keys - left == lastReads.Keys;
  }

  predicate NewestFirst(rs: seq<Read>) {
    forall i, j :: 0 <= i < j < |rs| ==> rs[i].when >= rs[j].when
  }

  method Newest(latest: map<string, Read>) returns (p: string)
    requires latest != map[]
    ensures p in latest && forall q :: q in latest ==> latest[q].when <= latest[p].when
  {
    assert latest.Keys == {} ==> latest == map[];
    p :| p in latest.Keys;
    var left := latest.Keys - {p};
    while left != {}
      invariant p in latest && left <= latest.Keys
      invariant forall q :: q in latest && q !in left ==> latest[q].when <= latest[p].when
      decreases |left|
    {
      var q :| q in left;
      if latest[q].when > latest[p].when {
        p := q;
      }
      left := left - {q};
    }
  }

  /** Whether some read is of this path. */
  predicate HasPath(rs: seq<Read>, path: string) {
    exists i :: 0 <= i < |rs| && rs[i].path == path
  }

  /** `out` is the newest part of `all`, `left` the rest. */
  ghost predicate Picked(out: seq<Read>, left: map<string, Read>, all: map<string, Read>) {
    && DistinctPaths(out) && NewestFirst(out)
    && (forall p :: p in left ==> p in all && left[p] == all[p] && !HasPath(out, p))
    && (forall p :: p in all ==> p in left || HasPath(out, p))
    && (forall i :: 0 <= i < |out| ==> out[i].path in all && out[i] == all[out[i].path])
    && (forall i, p :: 0 <= i < |out| && p in left ==> left[p].when <= out[i].when)
  }

  lemma PickOne(out: seq<Read>, left: map<string, Read>, all: map<string, Read>, p: string)
    requires Picked(out, left, all) && p in left && left[p].path == p
    requires forall q :: q in left ==> left[q].when <= left[p].when
    ensures Picked(out + [left[p]], left - {p}, all)
  {
    var out' := out + [left[p]];
    forall q: string
      ensures HasPath(out', q) <==> HasPath(out, q) || q == p
    {
      assert out'[|out|].path == p;
      if HasPath(out, q) {
        var i :| 0 <= i < |out| && out[i].path == q;
        assert out'[i].path == q;
      }
    }
    assert !HasPath(out, p);
  }

  method TopOf(all: map<string, Read>, max: nat) returns (out: seq<Read>, ghost left: map<string, Read>)
    requires forall p :: p in all ==> all[p].path == p
    ensures Picked(out, left, all) && |out| <= max && (|out| == max || left == map[])
  {
    var rest := all;
    out := [];
    while |out| < max && rest != map[]
      invariant Picked(out, rest, all) && |out| <= max
      decreases max - |out|
    {
      var p := Newest(rest);
      PickOne(out, rest, all, p);
      out := out + [rest[p]];
      rest := rest - {p};
    }
    left := rest;
  }

  /** Up to `max` reads, one a path, newest first; a path that is left out was read no later than those
      that are in, and for each path the read is the most recent of its ranges. */
  method RecentReads(lastReads: map<Key, int>, max: nat) returns (out: seq<Read>)
    ensures |out| <= max && DistinctPaths(out) && NewestFirst(out)
    ensures forall i :: 0 <= i < |out| ==> Recorded(out[i], lastReads)
    ensures forall i, k: Key ::
        0 <= i < |out| && k in lastReads && k.path == out[i].path ==> lastReads[k] <= out[i].when
    ensures forall k: Key :: k in lastReads && !HasPath(out, k.path) ==>
              |out| == max && forall i :: 0 <= i < |out| ==> lastReads[k] <= out[i].when
  {
    var latest := LatestPerPath(lastReads);
    ghost var left;
    out, left := TopOf(latest, max);
  }
}
