/** File lists as clipboard text: text/uri-list (RFC 2483) and x-special/gnome-copied-files, with percent-encoded paths
    (RFC 3986), next to the readers a paste target would use. */
module UriList {
  import opened Bytes

  type Text = seq<byte>

  const LF: byte := 10
  const CR: byte := 13
  const PERCENT: byte := 37
  const FILE_SCHEME: Text := [102, 105, 108, 101, 58, 47, 47]  // file://
  const COPY: Text := [99, 111, 112, 121]                      // copy

  const GNOME_COPIED_FILES := "x-special/gnome-copied-files"

  // ------------------------------------------------------- percent encoding

  /** RFC 3986 section 2.3 unreserved, and the path separator. */
  predicate IsUriPathSafe(c: byte) {
    || 65 <= c <= 90 || 97 <= c <= 122 || 48 <= c <= 57
    || c == 45 || c == 95 || c == 46 || c == 126
    || c == 47
  }

  function HexDigit(n: nat): byte
    requires n < 16
  {
    if n < 10 then 48 + n else 55 + n
  }

  function EncodeByte(c: byte): Text {
    if IsUriPathSafe(c) then [c] else [PERCENT, HexDigit(c / 16), HexDigit(c % 16)]
  }

  function PercentEncode(path: Text): Text {
    if path == [] then [] else EncodeByte(path[0]) + PercentEncode(path[1..])
  }

  lemma EncodeStep(out: Text, path: Text, i: nat)
    requires i < |path|
    ensures out + PercentEncode(path[i..]) == out + EncodeByte(path[i]) + PercentEncode(path[i + 1..])
  {
    assert path[i..][1..] == path[i + 1..];
    assert out + (EncodeByte(path[i]) + PercentEncode(path[i + 1..])) ==
           out + EncodeByte(path[i]) + PercentEncode(path[i + 1..]);
  }

  method PercentEncodePath(path: Text) returns (out: Text)
    ensures out == PercentEncode(path)
  {
    out := [];
    assert path[0..] == path && PercentEncode([]) == [];
    hide PercentEncode;
    var i := 0;
    while i < |path|
      invariant 0 <= i <= |path|
      invariant out + PercentEncode(path[i..]) == PercentEncode(path)
    {
      EncodeStep(out, path, i);
      var c := path[i];
      if IsUriPathSafe(c) {
        out := out + [c];
      } else {
        out := out + [PERCENT, HexDigit(c / 16), HexDigit(c % 16)];
      }
      i := i + 1;
    }
  }

  function HexValue(c: byte): Option<nat> {
    if 48 <= c <= 57 then Some(c - 48)
    else if 65 <= c <= 70 then Some(c - 55)
    else if 97 <= c <= 102 then Some(c - 87)
    else None
  }

  /** RFC 3986 section 2.1, read back: every escape is a percent sign and two hex digits. */
  function PercentDecode(s: Text): Option<Text> {
    if s == [] then Some([])
    else if s[0] != PERCENT then
      match PercentDecode(s[1..]) case None => None case Some(d) => Some([s[0]] + d)
    else if |s| < 3 || HexValue(s[1]) == None || HexValue(s[2]) == None then None
    else
      match PercentDecode(s[3..])
      case None => None
      case Some(d) => Some([16 * HexValue(s[1]).value + HexValue(s[2]).value] + d)
  }

  lemma HexInverse(n: nat)
    requires n < 16
    ensures HexValue(HexDigit(n)) == Some(n) && IsUriPathSafe(HexDigit(n))
  {
  }

  lemma {:induction false} DecodeEncode(path: Text)
    ensures PercentDecode(PercentEncode(path)) == Some(path)
    decreases |path|
  {
    if path != [] {
      var c := path[0];
      var tail := PercentEncode(path[1..]);
      DecodeEncode(path[1..]);
      HexInverse(c / 16);
      HexInverse(c % 16);
      var s := PercentEncode(path);
      if IsUriPathSafe(c) {
        assert s[1..] == tail;
      } else {
        assert s[3..] == tail;
        assert 16 * (c / 16) + c % 16 == c;
      }
      assert [c] + path[1..] == path;
    }
  }

  /** What stays itself in an encoded path: letters, digits, hyphen, full stop, underscore and tilde, the unreserved
      characters of RFC 3986 section 2.3, and the slash. */
  ghost predicate Plain(c: byte) {
    || 65 <= c <= 90 || 97 <= c <= 122 || 48 <= c <= 57 || c in {45, 46, 95, 126, 47}
  }

  /** Byte by byte: a plain one stays itself, any other is a percent sign and its value in upper-case hexadecimal. */
  lemma EncodedByte(c: byte)
    ensures PercentEncode([c]) ==
            if Plain(c) then [c]
            else [37, "0123456789ABCDEF"[c / 16] as int as byte, "0123456789ABCDEF"[c % 16] as int as byte]
  {
    HexUpper(c / 16);
    HexUpper(c % 16);
    assert PercentEncode([c]) == EncodeByte(c) + PercentEncode([]);
  }

  lemma HexUpper(n: nat)
    requires n < 16
    ensures HexDigit(n) == "0123456789ABCDEF"[n] as int
  {
  }

  lemma {:induction false} EncodedConcat(a: Text, b: Text)
    ensures PercentEncode(a + b) == PercentEncode(a) + PercentEncode(b)
    decreases |a|
  {
    if a == [] {
      assert a + b == b;
    } else {
      assert (a + b)[1..] == a[1..] + b;
      EncodedConcat(a[1..], b);
    }
  }

  /** Encoded text holds only plain bytes and percent signs, in particular no line break; and a path is its own encoding
      exactly when all its bytes are plain. */
  lemma {:induction false} EncodedAlphabet(path: Text)
    ensures forall c | c in PercentEncode(path) :: Plain(c) || c == 37
    ensures |PercentEncode(path)| >= |path|
    ensures PercentEncode(path) == path <==> forall c | c in path :: Plain(c)
    decreases |path|
  {
    if path != [] {
      hide PercentEncode, Plain;
      var first := [path[0]];
      assert path == first + path[1..];
      EncodedConcat(first, path[1..]);
      EncodedAlphabet(path[1..]);
      EncodedOne(path[0]);
      if Plain(path[0]) {
        assert first + PercentEncode(path[1..]) == path <==> PercentEncode(path[1..]) == path[1..];
      }
    }
  }

  lemma EncodedOne(c: byte)
    ensures forall x | x in PercentEncode([c]) :: Plain(x) || x == 37
    ensures if Plain(c) then PercentEncode([c]) == [c] else |PercentEncode([c])| == 3
  {
    EncodedByte(c);
    HexUpper(c / 16);
    HexUpper(c % 16);
  }

  // ------------------------------------------------------------- line lists

  /** The first LF is at i, or i is the end of a text without one. */
  predicate FirstLfAt(s: Text, i: nat) {
    && i <= |s|
    && (forall k | 0 <= k < i :: s[k] != LF)
    && (i < |s| ==> s[i] == LF)
  }

  function FirstLf(s: Text): (i: nat)
    ensures FirstLfAt(s, i)
  {
    if s == [] || s[0] == LF then 0 else
    var j := FirstLf(s[1..]);
    assert forall k | 1 <= k <= j :: s[k] == s[1..][k - 1];
    j + 1
  }

  lemma FirstLfUnique(s: Text, i: nat)
    requires FirstLfAt(s, i)
    ensures FirstLf(s) == i
  {
  }

  lemma FirstLine(line: Text, rest: Text)
    requires forall k | 0 <= k < |line| :: line[k] != LF
    ensures var s := line + ([LF] + rest);
      FirstLf(s) == |line| && s[..|line|] == line && s[|line| + 1..] == rest
  {
    var s := line + ([LF] + rest);
    assert s[|line|] == LF;
    FirstLfUnique(s, |line|);
  }

  function StripCr(line: Text): Text {
    if line != [] && line[|line| - 1] == CR then line[..|line| - 1] else line
  }

  /** What one input line contributes: nothing when it is empty. */
  function Kept(line: Text): seq<Text> {
    if StripCr(line) == [] then [] else [StripCr(line)]
  }

  function Split(s: Text): seq<Text>
    decreases |s|
  {
    var i := FirstLf(s);
    if i == |s| then Kept(s) else Kept(s[..i]) + Split(s[i + 1..])
  }

  /** The line that begins at start stops at end: at the next LF, or at the end of the text. */
  predicate LineEnd(s: Text, start: nat, end: nat) {
    && start <= end <= |s|
    && (forall k | start <= k < end :: s[k] != LF)
    && (end < |s| ==> s[end] == LF)
  }

  method FindLf(s: Text, start: nat) returns (end: nat)
    requires start <= |s|
    ensures start <= end <= |s| && LineEnd(s, start, end)
  {
    end := start;
    while end < |s| && s[end] != LF
      invariant start <= end <= |s|
      invariant forall k | start <= k < end :: s[k] != LF
    {
      end := end + 1;
    }
  }

  /** One turn of the splitting loop: the line from start to end, then the rest after the LF, if there is one. */
  lemma SplitLine(s: Text, start: nat, end: nat)
    requires LineEnd(s, start, end)
    ensures Split(s[start..]) == Kept(s[start..end]) + (if end == |s| then [] else Split(s[end + 1..]))
  {
    FirstLfUnique(s[start..], end - start);
    assert s[start..][..end - start] == s[start..end];
    if end < |s| {
      assert s[start..][end - start + 1..] == s[end + 1..];
    } else {
      assert s[start..end] == s[start..];
      assert Kept(s[start..]) + [] == Kept(s[start..]);
    }
  }

  /** The lines before start have been split off. */
  ghost predicate Progress(out: seq<Text>, s: Text, start: nat) {
    start <= |s| && out + Split(s[start..]) == Split(s)
  }

  function Append(out: seq<Text>, line: Text): seq<Text> {
    if |line| > 0 then out + [line] else out
  }

  lemma AppendKept(out: seq<Text>, line: Text, rest: seq<Text>)
    ensures out + (Kept(line) + rest) == Append(out, StripCr(line)) + rest
  {
  }

  lemma TakeLine(out: seq<Text>, s: Text, start: nat, end: nat)
    requires Progress(out, s, start) && LineEnd(s, start, end)
    ensures end == |s| ==> Append(out, StripCr(s[start..end])) == Split(s)
    ensures end < |s| ==> Progress(Append(out, StripCr(s[start..end])), s, end + 1)
  {
    SplitLine(s, start, end);
    AppendKept(out, s[start..end], if end == |s| then [] else Split(s[end + 1..]));
  }

  lemma NothingSplit(s: Text)
    ensures Progress([], s, 0)
  {
    assert s[0..] == s;
  }

  method SplitPaths(bytes: Text) returns (out: seq<Text>)
    ensures out == Split(bytes)
  {
    hide Progress, Split, LineEnd;
    out := [];
    var start := 0;
    NothingSplit(bytes);
    while start <= |bytes|
      invariant start <= |bytes| && Progress(out, bytes, start)
      decreases |bytes| - start
    {
      var end := FindLf(bytes, start);
      TakeLine(out, bytes, start, end);
      var line := bytes[start..end];
      if |line| > 0 && line[|line| - 1] == CR { line := line[..|line| - 1]; }
      if |line| > 0 {
        out := out + [line];
      }
      if end >= |bytes| { return; }
      start := end + 1;
    }
  }

  // ---------------------------------------------------------------- writers

  function FileUri(path: Text): Text {
    FILE_SCHEME + PercentEncode(path)
  }

  function TextUriList(paths: seq<Text>): Text {
    if paths == [] then [] else FileUri(paths[0]) + [CR, LF] + TextUriList(paths[1..])
  }

  function GnomeTail(paths: seq<Text>): Text {
    if paths == [] then [] else [LF] + FileUri(paths[0]) + GnomeTail(paths[1..])
  }

  function GnomeCopiedFiles(paths: seq<Text>): Text {
    COPY + GnomeTail(paths)
  }

  method FormatTextUriList(paths: seq<Text>) returns (out: Text)
    ensures out == TextUriList(paths)
  {
    out := [];
    var i := 0;
    assert paths[0..] == paths;
    while i < |paths|
      invariant 0 <= i <= |paths|
      invariant out + TextUriList(paths[i..]) == TextUriList(paths)
    {
      assert paths[i..][1..] == paths[i + 1..];
      var encoded := PercentEncodePath(paths[i]);
      ghost var line := FileUri(paths[i]) + [CR, LF];
      assert out + (line + TextUriList(paths[i + 1..])) == out + line + TextUriList(paths[i + 1..]);
      assert out + line == out + (FILE_SCHEME + encoded) + [CR, LF];
      out := out + (FILE_SCHEME + encoded);
      out := out + [CR, LF];
      i := i + 1;
    }
  }

  method FormatGnomeCopiedFiles(paths: seq<Text>) returns (out: Text)
    ensures out == GnomeCopiedFiles(paths)
  {
    out := COPY;
    var i := 0;
    assert paths[0..] == paths;
    while i < |paths|
      invariant 0 <= i <= |paths|
      invariant out + GnomeTail(paths[i..]) == GnomeCopiedFiles(paths)
    {
      assert paths[i..][1..] == paths[i + 1..];
      var encoded := PercentEncodePath(paths[i]);
      ghost var line := [LF] + FileUri(paths[i]);
      assert out + (line + GnomeTail(paths[i + 1..])) == out + line + GnomeTail(paths[i + 1..]);
      assert out + line == out + [LF] + (FILE_SCHEME + encoded);
      out := out + [LF];
      out := out + (FILE_SCHEME + encoded);
      i := i + 1;
    }
  }

  function Formatted(payload: Text, mime: string): Text {
    if mime == GNOME_COPIED_FILES then GnomeCopiedFiles(Split(payload)) else TextUriList(Split(payload))
  }

  method FormatForMime(payload: Text, mime: string) returns (out: Text)
    ensures out == Formatted(payload, mime)
  {
    var paths := SplitPaths(payload);
    if mime == GNOME_COPIED_FILES {
      out := FormatGnomeCopiedFiles(paths);
    } else {
      out := FormatTextUriList(paths);
    }
  }

  /** The two forms byte by byte: each path behind file:// and closed by CR LF, or each path behind LF and file:// after
      the word copy. */
  lemma ListText(paths: seq<Text>, path: Text)
    ensures TextUriList([path] + paths) ==
            [102, 105, 108, 101, 58, 47, 47] + PercentEncode(path) + [13, 10] + TextUriList(paths)
    ensures TextUriList([]) == []
    ensures GnomeCopiedFiles(paths + [path]) ==
            GnomeCopiedFiles(paths) + [10, 102, 105, 108, 101, 58, 47, 47] + PercentEncode(path)
    ensures GnomeCopiedFiles([]) == [99, 111, 112, 121]
  {
    hide PercentEncode;
    assert ([path] + paths)[1..] == paths;
    GnomeSnoc(paths, path);
    assert [10] + [102, 105, 108, 101, 58, 47, 47] == [10, 102, 105, 108, 101, 58, 47, 47];
  }

  lemma {:induction false} GnomeSnoc(paths: seq<Text>, path: Text)
    ensures GnomeTail(paths + [path]) == GnomeTail(paths) + ([LF] + FileUri(path))
    decreases |paths|
  {
    hide FileUri;
    if paths == [] {
      assert paths + [path] == [path] && [path][1..] == [];
    } else {
      assert (paths + [path])[1..] == paths[1..] + [path];
      GnomeSnoc(paths[1..], path);
    }
  }

  // ---------------------------------------------------------------- readers

  /** A file URI back to its path. */
  function ReadUri(line: Text): Option<Text> {
    if FILE_SCHEME <= line then PercentDecode(line[|FILE_SCHEME|..]) else None
  }

  function Cons(first: Option<Text>, rest: Option<seq<Text>>): Option<seq<Text>> {
    if first == None || rest == None then None else Some([first.value] + rest.value)
  }

  /** RFC 2483 section 5: every line ends in CR LF and is one URI. */
  function ReadTextUriList(s: Text): Option<seq<Text>>
    decreases |s|
  {
    if s == [] then Some([]) else
    var i := FirstLf(s);
    if i == |s| || i == 0 || s[i - 1] != CR then None
    else Cons(ReadUri(s[..i - 1]), ReadTextUriList(s[i + 1..]))
  }

  /** One URI per line after the operation, lines separated by LF. */
  function ReadUriLines(s: Text): Option<seq<Text>>
    decreases |s|
  {
    var i := FirstLf(s);
    if i == |s| then Cons(ReadUri(s), Some([])) else Cons(ReadUri(s[..i]), ReadUriLines(s[i + 1..]))
  }

  function ReadGnomeCopiedFiles(s: Text): Option<seq<Text>> {
    var i := FirstLf(s);
    if s[..i] != COPY then None
    else if i == |s| then Some([])
    else ReadUriLines(s[i + 1..])
  }

  predicate NoBreak(s: Text) {
    forall k | 0 <= k < |s| :: s[k] != LF && s[k] != CR
  }

  lemma NoBreakConcat(a: Text, b: Text)
    requires NoBreak(a) && NoBreak(b)
    ensures NoBreak(a + b)
  {
  }

  lemma EncodedHasNoBreak(path: Text)
    ensures NoBreak(PercentEncode(path))
  {
    EncodedAlphabet(path);
    var encoded := PercentEncode(path);
    assert forall k | 0 <= k < |encoded| :: encoded[k] in encoded;
  }

  lemma SchemeOff(encoded: Text)
    ensures ReadUri(FILE_SCHEME + encoded) == PercentDecode(encoded)
  {
    assert (FILE_SCHEME + encoded)[|FILE_SCHEME|..] == encoded;
  }

  lemma UriReadsBack(path: Text)
    ensures NoBreak(FileUri(path)) && ReadUri(FileUri(path)) == Some(path)
  {
    EncodedHasNoBreak(path);
    NoBreakConcat(FILE_SCHEME, PercentEncode(path));
    SchemeOff(PercentEncode(path));
    DecodeEncode(path);
  }

  lemma ListLine(uri: Text, rest: Text)
    requires NoBreak(uri)
    ensures var s := uri + [CR, LF] + rest;
            FirstLf(s) == |uri| + 1 && s[..|uri|] == uri && s[|uri| + 2..] == rest
  {
    FirstLine(uri + [CR], rest);
    assert uri + [CR] + ([LF] + rest) == uri + [CR, LF] + rest;
  }

  lemma NextListLine(uri: Text, rest: Text, path: Text)
    requires NoBreak(uri) && ReadUri(uri) == Some(path)
    ensures ReadTextUriList(uri + [CR, LF] + rest) == Cons(Some(path), ReadTextUriList(rest))
  {
    hide FirstLf, ReadUri, NoBreak, Cons;
    var s := uri + [CR, LF] + rest;
    ListLine(uri, rest);
    assert s[|uri|] == CR && |s| > |uri| + 1;
  }

  lemma ListFirst(paths: seq<Text>)
    requires paths != []
    ensures TextUriList(paths) == FileUri(paths[0]) + [CR, LF] + TextUriList(paths[1..])
  {
  }

  lemma ConsSome(first: Text, rest: seq<Text>)
    ensures Cons(Some(first), Some(rest)) == Some([first] + rest)
  {
  }

  lemma NothingListed()
    ensures ReadTextUriList(TextUriList([])) == Some([])
  {
  }

  lemma {:induction false} TextUriListRoundTrip(paths: seq<Text>)
    ensures ReadTextUriList(TextUriList(paths)) == Some(paths)
    decreases |paths|
  {
    hide *;
    if paths == [] {
      NothingListed();
    } else {
      UriReadsBack(paths[0]);
      ListFirst(paths);
      TextUriListRoundTrip(paths[1..]);
      NextListLine(FileUri(paths[0]), TextUriList(paths[1..]), paths[0]);
      ConsSome(paths[0], paths[1..]);
      assert [paths[0]] + paths[1..] == paths;
    }
  }

  lemma LastUriLine(uri: Text, path: Text)
    requires NoBreak(uri) && ReadUri(uri) == Some(path)
    ensures ReadUriLines(uri) == Some([path])
  {
    FirstLfUnique(uri, |uri|);
    assert [path] + [] == [path];
  }

  lemma NextUriLine(uri: Text, rest: Text, path: Text)
    requires NoBreak(uri) && ReadUri(uri) == Some(path)
    ensures ReadUriLines(uri + ([LF] + rest)) == Cons(Some(path), ReadUriLines(rest))
  {
    hide FirstLf, ReadUri;
    FirstLine(uri, rest);
  }

  lemma GnomeTailStep(paths: seq<Text>) returns (rest: Text)
    requires paths != []
    ensures GnomeTail(paths) == [LF] + rest
    ensures rest == FileUri(paths[0]) + GnomeTail(paths[1..])
  {
    rest := FileUri(paths[0]) + GnomeTail(paths[1..]);
  }

  lemma {:induction false} UriLinesRoundTrip(paths: seq<Text>, lines: Text)
    requires paths != [] && lines == FileUri(paths[0]) + GnomeTail(paths[1..])
    ensures ReadUriLines(lines) == Some(paths)
    decreases |paths|
  {
    var uri := FileUri(paths[0]);
    UriReadsBack(paths[0]);
    if |paths| == 1 {
      assert lines == uri;
      LastUriLine(uri, paths[0]);
      assert [paths[0]] == paths;
    } else {
      var rest := GnomeTailStep(paths[1..]);
      UriLinesRoundTrip(paths[1..], rest);
      NextUriLine(uri, rest, paths[0]);
      assert [paths[0]] + paths[1..] == paths;
    }
  }

  lemma GnomeHead(lines: Text)
    ensures ReadGnomeCopiedFiles(COPY + ([LF] + lines)) == ReadUriLines(lines)
    ensures ReadGnomeCopiedFiles(COPY) == Some([])
  {
    FirstLine(COPY, lines);
    FirstLfUnique(COPY, 4);
  }

  lemma GnomeRoundTrip(paths: seq<Text>)
    ensures ReadGnomeCopiedFiles(GnomeCopiedFiles(paths)) == Some(paths)
  {
    if paths == [] {
      GnomeHead([]);
      assert COPY + [] == COPY;
    } else {
      var rest := GnomeTailStep(paths);
      GnomeHead(rest);
      UriLinesRoundTrip(paths, rest);
    }
  }

  /** For every payload, whatever its bytes, both forms read back as exactly the paths the payload lists. */
  lemma FormatRoundTrip(payload: Text, mime: string)
    ensures (if mime == GNOME_COPIED_FILES then ReadGnomeCopiedFiles(Formatted(payload, mime))
             else ReadTextUriList(Formatted(payload, mime))) == Some(Split(payload))
  {
    GnomeRoundTrip(Split(payload));
    TextUriListRoundTrip(Split(payload));
  }

  // ------------------------------------------------ splitting undoes joining

  function Join(paths: seq<Text>): Text {
    if paths == [] then [] else if |paths| == 1 then paths[0] else paths[0] + ([LF] + Join(paths[1..]))
  }

  function KeptAll(paths: seq<Text>): seq<Text> {
    if paths == [] then [] else Kept(paths[0]) + KeptAll(paths[1..])
  }

  function Size(paths: seq<Text>): nat {
    if paths == [] then 0 else |paths[0]| + Size(paths[1..])
  }

  predicate EndsInCr(p: Text) {
    p != [] && p[|p| - 1] == CR
  }

  /** The paths a newline-joined list can carry. */
  predicate Listable(p: Text) {
    p != [] && NoLf(p) && !EndsInCr(p)
  }

  predicate NoLf(s: Text) {
    forall k | 0 <= k < |s| :: s[k] != LF
  }

  lemma SplitLast(line: Text)
    requires NoLf(line)
    ensures Split(line) == Kept(line)
  {
    FirstLfUnique(line, |line|);
  }

  lemma SplitFirst(line: Text, rest: Text)
    requires NoLf(line)
    ensures Split(line + ([LF] + rest)) == Kept(line) + Split(rest)
  {
    hide FirstLf;
    FirstLine(line, rest);
  }

  /** The lines of a payload: separated by LF, one CR taken off the end of each, empty ones left out. */
  lemma SplitText(line: Text, rest: Text)
    requires 10 !in line
    ensures Split(line + ([10] + rest)) == Split(line) + Split(rest)
    ensures Split(line + [13]) == Split(line + [13, 10]) == if line == [] then [] else [line]
    ensures line != [] && line[|line| - 1] != 13 ==> Split(line) == [line]
    ensures Split([]) == []
  {
    hide Split;
    SplitLast(line);
    SplitFirst(line, rest);
    SplitLast([]);
    SplitCr(line);
  }

  lemma SplitCr(line: Text)
    requires NoLf(line)
    ensures Split(line + [13]) == Split(line + [13, 10]) == if line == [] then [] else [line]
  {
    hide Split;
    var ended := line + [13];
    SplitLast(ended);
    SplitLast([]);
    SplitFirst(ended, []);
    assert ended + ([10] + []) == line + [13, 10] && Kept(ended) + [] == Kept(ended);
    assert ended[..|line|] == line;
  }

  lemma {:induction false} SplitJoin(paths: seq<Text>)
    requires forall p | p in paths :: NoLf(p)
    ensures Split(Join(paths)) == KeptAll(paths)
    decreases |paths|
  {
    hide Split;
    if paths == [] {
      SplitLast([]);
    } else {
      assert paths[0] in paths && forall p | p in paths[1..] :: p in paths;
      if |paths| == 1 {
        SplitLast(paths[0]);
        assert KeptAll(paths[1..]) == [] && Kept(paths[0]) + [] == Kept(paths[0]);
      } else {
        SplitFirst(paths[0], Join(paths[1..]));
        SplitJoin(paths[1..]);
      }
    }
  }

  lemma KeptClean(line: Text)
    requires NoLf(line)
    ensures forall p | p in Kept(line) :: p != [] && NoLf(p)
  {
  }

  lemma {:induction false} SplitClean(s: Text)
    ensures forall p | p in Split(s) :: p != [] && NoLf(p)
    decreases |s|
  {
    var i := FirstLf(s);
    KeptClean(s[..i]);
    if i < |s| {
      SplitClean(s[i + 1..]);
      assert Split(s) == Kept(s[..i]) + Split(s[i + 1..]);
    } else {
      assert s[..i] == s;
    }
  }

  lemma {:induction false} KeptAllSame(paths: seq<Text>)
    requires forall p | p in paths :: p != [] && !EndsInCr(p)
    ensures KeptAll(paths) == paths
    decreases |paths|
  {
    if paths != [] {
      assert paths[0] in paths && forall p | p in paths[1..] :: p in paths;
      KeptAllSame(paths[1..]);
      assert [paths[0]] + paths[1..] == paths;
    }
  }

  lemma {:induction false} SizeConcat(a: seq<Text>, b: seq<Text>)
    ensures Size(a + b) == Size(a) + Size(b)
    decreases |a|
  {
    if a == [] {
      assert a + b == b;
    } else {
      assert (a + b)[1..] == a[1..] + b;
      SizeConcat(a[1..], b);
    }
  }

  lemma {:induction false} KeptAllShrinks(paths: seq<Text>)
    ensures Size(KeptAll(paths)) <= Size(paths)
    ensures (exists p :: p in paths && EndsInCr(p)) ==> Size(KeptAll(paths)) < Size(paths)
    decreases |paths|
  {
    if paths != [] {
      KeptAllShrinks(paths[1..]);
      SizeConcat(Kept(paths[0]), KeptAll(paths[1..]));
      assert Size([StripCr(paths[0])]) == |StripCr(paths[0])| by {
        assert [StripCr(paths[0])][1..] == [];
      }
    }
  }

  /** Splitting gives back a joined list exactly when every path in it is non-empty, without LF and without a final
      CR. */
  lemma SplitInvertsJoin(paths: seq<Text>)
    ensures Split(Join(paths)) == paths <==> forall p | p in paths :: Listable(p)
  {
    if forall p | p in paths :: Listable(p) {
      SplitJoin(paths);
      KeptAllSame(paths);
    }
    if Split(Join(paths)) == paths {
      SplitClean(Join(paths));
      SplitJoin(paths);
      KeptAllShrinks(paths);
    }
  }
}
