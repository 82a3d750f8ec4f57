/** Lines, words and header fields of an HTTP/1.1 message head. */
module HttpText {
  import opened Bytes
  import opened Options
  import opened Text

  const CRLF := "\r\n"

  predicate CrlfAt(s: string, i: nat) {
    i + 1 < |s| && s[i] == '\r' && s[i + 1] == '\n'
  }

  /** An empty line starts behind position `i`: two line ends in a row. */
  predicate BlankAt(s: string, i: nat) {
    CrlfAt(s, i) && CrlfAt(s, i + 2)
  }

  function CrlfFrom(s: string, i: nat): (n: nat)
    requires i <= |s|
    ensures i <= n <= |s| && (n < |s| ==> CrlfAt(s, n))
    ensures forall j :: i <= j < n ==> !CrlfAt(s, j)
    decreases |s| - i
  {
    if i < |s| && !CrlfAt(s, i) then CrlfFrom(s, i + 1) else i
  }

  function BlankFrom(s: string, i: nat): (n: nat)
    requires i <= |s|
    ensures i <= n <= |s| && (n < |s| ==> BlankAt(s, n))
    ensures forall j :: i <= j < n ==> !BlankAt(s, j)
    decreases |s| - i
  {
    if i < |s| && !BlankAt(s, i) then BlankFrom(s, i + 1) else i
  }

  /** `find_header_end`. */
  function FindHeaderEnd(s: string): (r: Option<nat>)
    ensures r.Some? ==> BlankAt(s, r.value) && forall j :: 0 <= j < r.value ==> !BlankAt(s, j)
    ensures r.None? ==> forall j :: 0 <= j < |s| ==> !BlankAt(s, j)
  {
    var n := BlankFrom(s, 0);
    if n == |s| then None else Some(n)
  }

  /** `split("\r\n")`. */
  function Lines(s: string): (lines: seq<string>)
    ensures lines != []
    decreases |s|
  {
    var n := CrlfFrom(s, 0);
    if n == |s| then [s] else [s[..n]] + Lines(s[n + 2..])
  }

  /** No line end inside. */
  predicate OneLine(s: string) {
    forall j :: 0 <= j < |s| ==> !CrlfAt(s, j)
  }

  lemma PartOfLine(s: string, a: nat, b: nat)
    requires a <= b <= |s| && OneLine(s)
    ensures OneLine(s[a..b])
  {
    forall j | 0 <= j < b - a ensures !CrlfAt(s[a..b], j) {
      assert !CrlfAt(s, a + j);
    }
  }

  lemma {:induction false} LinesAreLines(s: string)
    ensures forall line :: line in Lines(s) ==> OneLine(line)
    decreases |s|
  {
    var n := CrlfFrom(s, 0);
    if n < |s| {
      LinesAreLines(s[n + 2..]);
      forall j | 0 <= j < n ensures !CrlfAt(s[..n], j) {
        assert !CrlfAt(s, j);
      }
    }
  }

  /** A line that can stand anywhere in a head without making an empty line or running into the next. */
  predicate Clean(line: string) {
    line != "" && OneLine(line) && line[0] != '\r' && line[|line| - 1] != '\r'
  }

  /** The pieces of a line followed by more. */
  lemma Ended(line: string, rest: string)
    ensures var s := line + (CRLF + rest);
            && |s| == |line| + 2 + |rest| && CrlfAt(s, |line|)
            && s[..|line|] == line && s[|line| + 2..] == rest
            && forall j :: 0 <= j < |line| ==> s[j] == line[j]
  {
  }

  lemma FirstCrlf(line: string, rest: string)
    requires Clean(line)
    ensures forall j :: 0 <= j < |line| ==> !CrlfAt(line + (CRLF + rest), j)
  {
    var s := line + (CRLF + rest);
    Ended(line, rest);
    forall j | 0 <= j < |line| ensures !CrlfAt(s, j) {
      assert !CrlfAt(line, j);
    }
  }

  lemma FirstLine(line: string, rest: string)
    requires Clean(line)
    ensures Lines(line + (CRLF + rest)) == [line] + Lines(rest)
  {
    var s := line + (CRLF + rest);
    Ended(line, rest);
    FirstCrlf(line, rest);
    assert CrlfFrom(s, 0) == |line|;
  }

  /** Lines with line ends between them. */
  function Joined(lines: seq<string>): (s: string)
    requires lines != []
  {
    if |lines| == 1 then lines[0] else lines[0] + (CRLF + Joined(lines[1..]))
  }

  predicate AllClean(lines: seq<string>) {
    forall line :: line in lines ==> Clean(line)
  }

  lemma {:induction false} LinesOfJoined(lines: seq<string>)
    requires lines != [] && AllClean(lines)
    ensures Lines(Joined(lines)) == lines
  {
    assert lines[0] in lines;
    if |lines| == 1 {
      assert CrlfFrom(lines[0], 0) == |lines[0]|;
    } else {
      FirstLine(lines[0], Joined(lines[1..]));
      LinesOfJoined(lines[1..]);
      assert lines == [lines[0]] + lines[1..];
    }
  }

  lemma JoinedStarts(lines: seq<string>, tail: string)
    requires lines != [] && AllClean(lines)
    ensures var s := Joined(lines) + tail; s != "" && s[0] != '\r'
  {
    assert lines[0] in lines;
  }

  lemma BlankShift(line: string, rest: string, j: nat)
    requires j >= |line| + 2
    ensures BlankAt(line + (CRLF + rest), j) == BlankAt(rest, j - |line| - 2)
  {
    var s := line + (CRLF + rest);
    Ended(line, rest);
    assert forall k :: 0 <= k < |rest| ==> s[|line| + 2 + k] == rest[k];
  }

  /** A line in front of text that does not start with a line end adds no empty line. */
  lemma LineAddsNoBlank(line: string, rest: string, n: nat)
    requires Clean(line) && rest != "" && rest[0] != '\r'
    requires forall j :: 0 <= j < n ==> !BlankAt(rest, j)
    ensures forall j :: 0 <= j < |line| + 2 + n ==> !BlankAt(line + (CRLF + rest), j)
  {
    var s := line + (CRLF + rest);
    Ended(line, rest);
    FirstCrlf(line, rest);
    assert s[|line| + 2] == rest[0];
    forall j | 0 <= j < |line| + 2 + n ensures !BlankAt(s, j) {
      if j >= |line| + 2 { BlankShift(line, rest, j); }
    }
  }

  /** Clean lines hold no empty line before the one that ends the head. */
  lemma {:induction false} NoEarlyBlank(lines: seq<string>, body: string)
    requires lines != [] && AllClean(lines)
    ensures var s := Joined(lines) + (CRLF + body);
            forall j :: 0 <= j < |Joined(lines)| ==> !BlankAt(s, j)
  {
    assert lines[0] in lines;
    if |lines| == 1 {
      FirstCrlf(lines[0], body);
    } else {
      var rest := Joined(lines[1..]);
      NoEarlyBlank(lines[1..], body);
      JoinedStarts(lines[1..], CRLF + body);
      LineAddsNoBlank(lines[0], rest + (CRLF + body), |rest|);
      Assoc(lines[0], CRLF + rest, CRLF + body);
      Assoc(CRLF, rest, CRLF + body);
    }
  }

  /** The head ends where it was made to end. */
  lemma HeadEnds(lines: seq<string>, body: string)
    requires lines != [] && AllClean(lines)
    ensures var s := Joined(lines) + (CRLF + (CRLF + body));
            && FindHeaderEnd(s) == Some(|Joined(lines)|)
            && s[..|Joined(lines)|] == Joined(lines) && s[|Joined(lines)| + 4..] == body
  {
    var head := Joined(lines);
    NoEarlyBlank(lines, CRLF + body);
    Ended(head, CRLF + body);
    Assoc(head, CRLF, CRLF + body);
    Ended(head + CRLF, body);
    var s := head + (CRLF + (CRLF + body));
    assert BlankAt(s, |head|);
  }

  // Words.

  predicate IsWord(t: string) {
    t != "" && forall i :: 0 <= i < |t| ==> !IsWhitespace(t[i])
  }

  function SpaceFrom(s: string, i: nat): (n: nat)
    requires i <= |s|
    ensures i <= n <= |s| && (n < |s| ==> IsWhitespace(s[n]))
    ensures forall j :: i <= j < n ==> !IsWhitespace(s[j])
    decreases |s| - i
  {
    if i < |s| && !IsWhitespace(s[i]) then SpaceFrom(s, i + 1) else i
  }

  /** `split_whitespace`. */
  function Words(s: string): (words: seq<string>)
    ensures forall w :: w in words ==> IsWord(w)
    decreases |s|
  {
    var k := Kept(s, Whitespace, 0);
    if k == |s| then []
    else
      var e := SpaceFrom(s, k);
      [s[k..e]] + Words(s[e..])
  }

  /** The characters of a string that are not white space. */
  function Ink(s: string): (r: string) {
    if s == "" then "" else (if IsWhitespace(s[0]) then "" else [s[0]]) + Ink(s[1..])
  }

  lemma {:induction false} InkSplits(a: string, b: string)
    ensures Ink(a + b) == Ink(a) + Ink(b)
  {
    if a == "" {
      assert a + b == b;
    } else {
      assert (a + b)[1..] == a[1..] + b;
      InkSplits(a[1..], b);
    }
  }

  lemma {:induction false} InkOfWord(w: string)
    requires forall i :: 0 <= i < |w| ==> !IsWhitespace(w[i])
    ensures Ink(w) == w
  {
    if w != "" { InkOfWord(w[1..]); }
  }

  lemma {:induction false} InkOfSpace(s: string)
    requires forall i :: 0 <= i < |s| ==> IsWhitespace(s[i])
    ensures Ink(s) == ""
  {
    if s != "" { InkOfSpace(s[1..]); }
  }

  lemma InkInParts(space: string, word: string, tail: string)
    requires forall i :: 0 <= i < |space| ==> IsWhitespace(space[i])
    requires forall i :: 0 <= i < |word| ==> !IsWhitespace(word[i])
    ensures Ink(space + (word + tail)) == word + Ink(tail)
  {
    InkSplits(space, word + tail);
    InkOfSpace(space);
    InkSplits(word, tail);
    InkOfWord(word);
  }

  lemma CutAt(s: string, k: nat, e: nat)
    requires k <= e <= |s|
    ensures s == s[..k] + (s[k..e] + s[e..])
  {
  }

  lemma InkInFront(s: string, k: nat, e: nat)
    requires k <= e <= |s|
    requires forall i :: 0 <= i < k ==> IsWhitespace(s[i])
    requires forall i :: k <= i < e ==> !IsWhitespace(s[i])
    ensures Ink(s) == s[k..e] + Ink(s[e..])
  {
    CutAt(s, k, e);
    InkInParts(s[..k], s[k..e], s[e..]);
  }

  lemma FirstOfConcat(word: string, words: seq<string>)
    ensures Concat([word] + words) == word + Concat(words)
  {
    assert ([word] + words)[1..] == words;
  }

  /** The words of a string are its ink, in order and nothing left out. */
  lemma {:induction false} WordsAreInk(s: string)
    ensures Concat(Words(s)) == Ink(s)
    decreases |s|
  {
    var k := Kept(s, Whitespace, 0);
    if k == |s| {
      InkOfSpace(s);
    } else {
      var e := SpaceFrom(s, k);
      InkInFront(s, k, e);
      WordsAreInk(s[e..]);
      FirstOfConcat(s[k..e], Words(s[e..]));
    }
  }

  lemma LastWord(w: string)
    requires IsWord(w)
    ensures Words(w) == [w]
  {
    assert Kept(w, Whitespace, 0) == 0 && SpaceFrom(w, 0) == |w|;
    assert w[|w|..] == "" && w[0..|w|] == w;
    assert Kept("", Whitespace, 0) == 0;
  }

  lemma FirstWord(w: string, rest: string)
    requires IsWord(w)
    ensures Words(w + (" " + rest)) == [w] + Words(" " + rest)
  {
    var s := w + (" " + rest);
    assert s[|w|] == ' ' && s[|w|..] == " " + rest && s[0..|w|] == w;
    assert forall j :: 0 <= j < |w| ==> s[j] == w[j];
    assert Kept(s, Whitespace, 0) == 0;
    assert SpaceFrom(s, 0) == |w|;
  }

  lemma {:induction false} KeptBehindSpace(s: string, i: nat)
    requires i <= |s|
    ensures Kept(" " + s, Whitespace, i + 1) == Kept(s, Whitespace, i) + 1
    decreases |s| - i
  {
    if i < |s| {
      assert (" " + s)[i + 1] == s[i];
      KeptBehindSpace(s, i + 1);
    }
  }

  lemma {:induction false} SpaceBehindSpace(s: string, i: nat)
    requires i <= |s|
    ensures SpaceFrom(" " + s, i + 1) == SpaceFrom(s, i) + 1
    decreases |s| - i
  {
    if i < |s| {
      assert (" " + s)[i + 1] == s[i];
      SpaceBehindSpace(s, i + 1);
    }
  }

  lemma SpaceKept(s: string)
    ensures Kept(" " + s, Whitespace, 0) == Kept(s, Whitespace, 0) + 1
  {
    assert (" " + s)[0] == ' ';
    KeptBehindSpace(s, 0);
  }

  lemma BehindSpace(s: string, k: nat, e: nat)
    requires k <= e <= |s|
    ensures (" " + s)[k + 1..e + 1] == s[k..e] && (" " + s)[e + 1..] == s[e..]
  {
  }

  lemma LeadingSpace(s: string)
    ensures Words(" " + s) == Words(s)
  {
    SpaceKept(s);
    var k := Kept(s, Whitespace, 0);
    if k < |s| {
      SpaceBehindSpace(s, k);
      BehindSpace(s, k, SpaceFrom(s, k));
    }
  }

  lemma ThreeWords(a: string, b: string, c: string)
    requires IsWord(a) && IsWord(b) && IsWord(c)
    ensures Words(a + (" " + (b + (" " + c)))) == [a, b, c]
  {
    FirstWord(a, b + (" " + c));
    LeadingSpace(b + (" " + c));
    FirstWord(b, c);
    LeadingSpace(c);
    LastWord(c);
  }

  // Header fields.

  datatype Header = Header(name: string, value: string)

  predicate Trimmed(s: string) {
    s != "" ==> !IsWhitespace(s[0]) && !IsWhitespace(s[|s| - 1])
  }

  /** `split_once(':')` with both sides trimmed. */
  function HeaderOf(line: string): (h: Option<Header>) {
    var k := IndexFrom(line, ':', 0);
    if k == |line| then None
    else Some(Header(Trim(line[..k], Whitespace), Trim(line[k + 1..], Whitespace)))
  }

  /** The fields among the lines; a line without a colon is passed over. */
  function Headers(lines: seq<string>): (hs: seq<Header>) {
    if lines == [] then []
    else
      match HeaderOf(lines[0])
      case None => Headers(lines[1..])
      case Some(h) => [h] + Headers(lines[1..])
  }

  /** What a field read from a line looks like. */
  predicate IsField(h: Header) {
    && (forall i :: 0 <= i < |h.name| ==> h.name[i] != ':')
    && Trimmed(h.name) && Trimmed(h.value) && OneLine(h.name) && OneLine(h.value)
  }

  lemma TrimIsPart(s: string)
    ensures var t := Trim(s, Whitespace); var e := KeptEnd(s, Whitespace, |s|);
            Trimmed(t) && |t| <= e && t == s[e - |t|..e]
  {
    var e := KeptEnd(s, Whitespace, |s|);
    var k := Kept(s[..e], Whitespace, 0);
    assert s[..e][k..] == s[k..e];
  }

  lemma TrimKeepsLine(s: string)
    requires OneLine(s)
    ensures Trimmed(Trim(s, Whitespace)) && OneLine(Trim(s, Whitespace))
  {
    TrimIsPart(s);
    var e := KeptEnd(s, Whitespace, |s|);
    PartOfLine(s, e - |Trim(s, Whitespace)|, e);
  }

  lemma ReadField(line: string)
    requires OneLine(line) && HeaderOf(line).Some?
    ensures IsField(HeaderOf(line).value)
  {
    var k := IndexFrom(line, ':', 0);
    PartOfLine(line, 0, k);
    PartOfLine(line, k + 1, |line|);
    assert line[0..k] == line[..k] && line[k + 1..|line|] == line[k + 1..];
    TrimKeepsLine(line[..k]);
    TrimKeepsLine(line[k + 1..]);
    TrimIsPart(line[..k]);
  }

  lemma {:induction false} ReadFields(lines: seq<string>)
    requires forall line :: line in lines ==> OneLine(line)
    ensures forall h :: h in Headers(lines) ==> IsField(h)
  {
    if lines != [] {
      assert lines[0] in lines;
      ReadFields(lines[1..]);
      if HeaderOf(lines[0]).Some? { ReadField(lines[0]); }
    }
  }

  /** `{name}: {value}`. */
  function HeaderLine(h: Header): (line: string) {
    h.name + (": " + h.value)
  }

  function HeaderLines(hs: seq<Header>): (lines: seq<string>)
    ensures |lines| == |hs| && forall i :: 0 <= i < |hs| ==> lines[i] == HeaderLine(hs[i])
  {
    seq(|hs|, i requires 0 <= i < |hs| => HeaderLine(hs[i]))
  }

  lemma TrimStays(s: string)
    requires Trimmed(s)
    ensures Trim(s, Whitespace) == s
  {
    assert KeptEnd(s, Whitespace, |s|) == |s| && s[..|s|] == s;
    assert Kept(s, Whitespace, 0) == 0;
  }

  lemma TrimBehindSpace(s: string)
    requires Trimmed(s)
    ensures Trim(" " + s, Whitespace) == s
  {
    var t := " " + s;
    if s == "" {
      assert KeptEnd(t, Whitespace, 1) == 0;
    } else {
      assert t[|t| - 1] == s[|s| - 1];
      assert KeptEnd(t, Whitespace, |t|) == |t| && t[..|t|] == t;
      assert t[0] == ' ' && t[1] == s[0];
      assert Kept(t, Whitespace, 0) == Kept(t, Whitespace, 1) == 1;
      assert t[1..] == s;
    }
  }

  /** A written field reads back as itself. */
  lemma FieldRoundTrip(h: Header)
    requires IsField(h)
    ensures HeaderOf(HeaderLine(h)) == Some(h)
  {
    var line := HeaderLine(h);
    var k := |h.name|;
    assert line[k] == ':' && line[..k] == h.name && line[k + 1..] == " " + h.value;
    assert forall j :: 0 <= j < k ==> line[j] == h.name[j];
    assert IndexFrom(line, ':', 0) == k;
    TrimStays(h.name);
    TrimBehindSpace(h.value);
  }

  lemma FirstHeader(line: string, rest: seq<string>)
    requires HeaderOf(line).Some?
    ensures Headers([line] + rest) == [HeaderOf(line).value] + Headers(rest)
  {
    assert ([line] + rest)[1..] == rest;
  }

  /** Reading the line of one field in front of others. */
  lemma FieldThen(h: Header, lines: seq<string>)
    requires IsField(h)
    ensures Headers([HeaderLine(h)] + lines) == [h] + Headers(lines)
  {
    FieldRoundTrip(h);
    FirstHeader(HeaderLine(h), lines);
  }

  lemma FirstHeaderLine(h: Header, more: seq<Header>)
    ensures HeaderLines([h] + more) == [HeaderLine(h)] + HeaderLines(more)
  {
  }

  lemma {:induction false} FieldsRoundTrip(hs: seq<Header>)
    requires forall h :: h in hs ==> IsField(h)
    ensures Headers(HeaderLines(hs)) == hs
  {
    if hs == [] {
      assert HeaderLines(hs) == [];
    } else {
      var h, more := hs[0], hs[1..];
      assert h in hs && hs == [h] + more;
      FieldsRoundTrip(more);
      FirstHeaderLine(h, more);
      FieldThen(h, HeaderLines(more));
    }
  }

  lemma FieldLineIsClean(h: Header)
    requires IsField(h)
    ensures Clean(HeaderLine(h))
  {
    var line := HeaderLine(h);
    var k := |h.name|;
    assert line[k] == ':' && line[k + 1] == ' ';
    assert forall j :: 0 <= j < k ==> line[j] == h.name[j];
    assert forall j :: 0 <= j < |h.value| ==> line[k + 2 + j] == h.value[j];
    forall j | 0 <= j < |line| ensures !CrlfAt(line, j) {
      if j < k { assert !CrlfAt(h.name, j); } else if j >= k + 2 { assert !CrlfAt(h.value, j - k - 2); }
    }
  }
}
