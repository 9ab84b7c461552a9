/** What the Markdown parser sees in one line. */
module MarkdownLines {
  import opened Wrappers
  import opened Text

  /**
   A line with all that the parser asks about it. A fence opens on three backticks or three
   tildes and is closed by three of the same.
   */
  datatype Line = Line(
    text: string, blank: bool, heading: Option<(nat, string)>,
    backticks: bool, tildes: bool, marker: bool, indented: bool)

  function Look(text: string): (line: Line)
    ensures line.text == text && (line.blank ==> line.heading.None?)
  {
    Line(text, Trim(text) == [], ParseHeading(text),
      StartsWith(TrimStart(text), "```"), StartsWith(TrimStart(text), "~~~"),
      IsListMarker(text), StartsWith(text, " ") || StartsWith(text, "\t"))
  }

  function LookAll(texts: seq<string>): seq<Line> {
    seq(|texts|, i requires 0 <= i < |texts| => Look(texts[i]))
  }

  function Texts(lines: seq<Line>): seq<string> {
    seq(|lines|, i requires 0 <= i < |lines| => lines[i].text)
  }

  function CountHashes(s: string): (n: nat)
    ensures n <= |s|
  {
    if s == [] || s[0] != '#' then 0 else 1 + CountHashes(s[1..])
  }

  /** One to six hashes, a space and a title: the level and the title. */
  function ParseHeading(line: string): (r: Option<(nat, string)>)
    ensures r.Some? ==> 1 <= r.value.0 <= 6 && !IsBlank(line)
  {
    var trimmed := TrimStart(line);
    var level := CountHashes(trimmed);
    if !(1 <= level <= 6) then None
    else
      var rest := trimmed[level..];
      if !StartsWith(rest, " ") then None
      else
        var title := Trim(rest);
        if title == [] then None else Some((level, title))
  }

  function Hashes(n: nat): (s: string)
    ensures |s| == n
  {
    if n == 0 then [] else ['#'] + Hashes(n - 1)
  }

  predicate Inked(title: string) {
    title != [] && !IsSpace(title[0]) && !IsSpace(title[|title| - 1])
  }

  /** The written form of a heading, with white space allowed around it and before the title. */
  ghost predicate WritesHeading(line: string, level: nat, title: string) {
    exists indent: string, gap: string, tail: string ::
      IsBlank(indent) && IsBlank(gap) && IsBlank(tail) && Starts(gap, ' ') &&
      line == indent + (Hashes(level) + (gap + title + tail))
  }

  predicate Starts(s: string, c: char) {
    s != [] && s[0] == c
  }

  lemma {:induction false} CountsHashes(level: nat, rest: string)
    requires !Starts(rest, '#')
    ensures CountHashes(Hashes(level) + rest) == level
    decreases level
  {
    var s := Hashes(level) + rest;
    if level == 0 {
      assert s == rest;
    } else {
      assert s[1..] == Hashes(level - 1) + rest;
      CountsHashes(level - 1, rest);
    }
  }

  lemma {:induction false} StartsWithItsHashes(s: string)
    ensures s[..CountHashes(s)] == Hashes(CountHashes(s))
    decreases |s|
  {
    if Starts(s, '#') {
      var n := CountHashes(s);
      StartsWithItsHashes(s[1..]);
      assert s[..n] == ['#'] + s[1..][..n - 1];
    }
  }

  lemma {:induction false} TrimsTo(gap: string, title: string, tail: string, s: string)
    requires IsBlank(gap) && IsBlank(tail) && Inked(title) && s == gap + title + tail
    ensures Trim(s) == title
  {
    var rest := title + tail;
    assert s == gap + rest && rest[0] == title[0];
    TrimStartOfBlankPrefix(gap, rest, s);
    NothingToTrim(rest);
    TrimEndOfBlankSuffix(title, tail, rest);
    NothingToTrim(title);
  }

  lemma {:induction false} HashesThenSpaceParse(indent: string, level: nat, rest: string, line: string)
    requires IsBlank(indent) && 1 <= level <= 6 && StartsWith(rest, " ") && Trim(rest) != []
    requires line == indent + (Hashes(level) + rest)
    ensures ParseHeading(line) == Some((level, Trim(rest)))
  {
    var trimmed := Hashes(level) + rest;
    assert trimmed[0] == '#' && !IsSpace('#');
    TrimStartOfBlankPrefix(indent, trimmed, line);
    NothingToTrim(trimmed);
    assert rest[0] == " "[0];
    CountsHashes(level, rest);
    assert trimmed[level..] == rest;
  }

  lemma {:induction false} WrittenHeadingParses(line: string, level: nat, title: string)
    requires 1 <= level <= 6 && Inked(title) && WritesHeading(line, level, title)
    ensures ParseHeading(line) == Some((level, title))
  {
    var indent: string, gap: string, tail: string :|
      IsBlank(indent) && IsBlank(gap) && IsBlank(tail) && Starts(gap, ' ') &&
      line == indent + (Hashes(level) + (gap + title + tail));
    var rest := gap + title + tail;
    assert rest[..1] == " ";
    TrimsTo(gap, title, tail, rest);
    HashesThenSpaceParse(indent, level, rest, line);
  }

  lemma {:induction false} TrimStartSplits(s: string) returns (gap: string)
    ensures s == gap + TrimStart(s) && IsBlank(gap)
    decreases |s|
  {
    if s == [] || !IsSpace(s[0]) {
      gap := [];
    } else {
      var rest := TrimStartSplits(s[1..]);
      gap := [s[0]] + rest;
      TrimStartDrops(s);
      BlankFirst(s[0], rest);
      FirstJoins(s, rest, TrimStart(s[1..]));
    }
  }

  lemma {:induction false} FirstJoins(s: string, rest: string, tail: string)
    requires s != [] && s[1..] == rest + tail
    ensures s == [s[0]] + rest + tail
  {
    assert s == [s[0]] + s[1..];
  }

  lemma {:induction false} TrimmedTail(start: string) returns (tail: string)
    requires start != [] && !IsSpace(start[0])
    ensures start == TrimEnd(start) + tail && IsBlank(tail) && Inked(TrimEnd(start))
  {
    var title := TrimEnd(start);
    tail := start[|title|..];
    assert start[0] in start;
    assert title != [] && title[0] == start[0];
  }

  /** What trimming takes off, at both ends. */
  lemma {:induction false} TrimSplits(s: string) returns (gap: string, tail: string)
    requires TrimStart(s) != []
    ensures IsBlank(gap) && IsBlank(tail) && s == gap + Trim(s) + tail && Inked(Trim(s))
    ensures s == gap + TrimStart(s)
  {
    gap := TrimStartSplits(s);
    tail := TrimmedTail(TrimStart(s));
    ThreeParts(s, gap, TrimStart(s), Trim(s), tail);
  }

  lemma {:induction false} ThreeParts(s: string, gap: string, start: string, title: string, tail: string)
    requires s == gap + start && start == title + tail
    ensures s == gap + title + tail
  {
  }

  /** The steps of the parser, when they all succeed. */
  lemma {:induction false} ParsedParts(line: string) returns (trimmed: string, rest: string)
    requires ParseHeading(line).Some?
    ensures var (level, title) := ParseHeading(line).value;
            && trimmed == TrimStart(line) && trimmed == Hashes(level) + rest
            && StartsWith(rest, " ") && Trim(rest) == title != []
  {
    trimmed := TrimStart(line);
    var level := CountHashes(trimmed);
    rest := trimmed[level..];
    StartsWithItsHashes(trimmed);
    assert trimmed == trimmed[..level] + rest;
  }

  lemma {:induction false} ParsedHeadingIsWritten(line: string)
    requires ParseHeading(line).Some?
    ensures var (level, title) := ParseHeading(line).value; Inked(title) && WritesHeading(line, level, title)
  {
    var trimmed, rest := ParsedParts(line);
    var indent := TrimStartSplits(line);
    assert TrimStart(rest) != [];
    var gap, tail := TrimSplits(rest);
    SpaceIsTrimmed(rest);
    GapStarts(rest, gap, TrimStart(rest));
    var (level, title) := ParseHeading(line).value;
    Assembles(line, indent, level, gap, title, tail);
  }

  lemma {:induction false} GapStarts(rest: string, gap: string, start: string)
    requires rest == gap + start && |start| < |rest| && rest[0] == ' '
    ensures Starts(gap, ' ')
  {
    assert gap[0] == rest[0];
  }

  lemma {:induction false} Assembles(line: string, indent: string, level: nat, gap: string, title: string, tail: string)
    requires IsBlank(indent) && IsBlank(gap) && IsBlank(tail) && Starts(gap, ' ')
    requires line == indent + (Hashes(level) + (gap + title + tail))
    ensures WritesHeading(line, level, title)
  {
  }

  lemma {:induction false} SpaceIsTrimmed(s: string)
    requires StartsWith(s, " ")
    ensures |TrimStart(s)| < |s| && s[0] == ' '
  {
    assert s[0] == " "[0];
    TrimStartDrops(s);
  }

  /** A line parses as a heading exactly when it is the written form of that heading. */
  lemma {:induction false} HeadingsAreTheWrittenOnes(line: string, level: nat, title: string)
    ensures ParseHeading(line) == Some((level, title)) <==>
            1 <= level <= 6 && Inked(title) && WritesHeading(line, level, title)
  {
    if ParseHeading(line) == Some((level, title)) {
      ParsedHeadingIsWritten(line);
    }
    if 1 <= level <= 6 && Inked(title) && WritesHeading(line, level, title) {
      WrittenHeadingParses(line, level, title);
    }
  }

  function FirstDotSpace(s: string): Option<nat> {
    if |s| < 2 then None
    else if s[..2] == ". " then Some(0)
    else
      match FirstDotSpace(s[1..])
      case None => None
      case Some(i) => Some(i + 1)
  }

  predicate IsDigit(c: char) {
    '0' <= c <= '9'
  }

  predicate OrderedListMarker(trimmed: string) {
    match FirstDotSpace(trimmed)
    case None => false
    case Some(i) =>
      && 0 < i <= |trimmed|
      && (forall c :: c in trimmed[..i] ==> IsDigit(c))
      && i + 2 < |trimmed|
  }

  predicate IsListMarker(line: string) {
    var trimmed := TrimStart(line);
    || StartsWith(trimmed, "- ") || StartsWith(trimmed, "* ") || StartsWith(trimmed, "+ ")
    || OrderedListMarker(trimmed)
  }

  /** Digits, a full stop, a space and something more: the shape of a numbered item. */
  ghost predicate NumberedItem(s: string) {
    exists n: nat :: 0 < n && n + 2 < |s| && Digits(s, n) && s[n] == '.' && s[n + 1] == ' '
  }

  ghost predicate Digits(s: string, n: nat)
    requires n <= |s|
  {
    forall i :: 0 <= i < n ==> IsDigit(s[i])
  }

  lemma {:induction false} FirstDotSpaceFinds(s: string, n: nat)
    requires n + 1 < |s| && s[n] == '.' && s[n + 1] == ' '
    requires forall i :: 0 <= i < n ==> s[i] != '.'
    ensures FirstDotSpace(s) == Some(n)
    decreases n
  {
    if n > 0 {
      assert s[..2][0] == s[0];
      FirstDotSpaceFinds(s[1..], n - 1);
    } else {
      assert s[..2] == ". ";
    }
  }

  lemma {:induction false} FirstDotSpaceIsThere(s: string)
    requires FirstDotSpace(s).Some?
    ensures var n := FirstDotSpace(s).value; n + 1 < |s| && s[n] == '.' && s[n + 1] == ' '
    decreases |s|
  {
    if s[..2] == ". " {
      assert s[0] == s[..2][0] && s[1] == s[..2][1];
    } else {
      FirstDotSpaceIsThere(s[1..]);
    }
  }

  /** Splitting at the first full stop and space recognises exactly the numbered items. */
  lemma {:induction false} OrderedMarkersAreNumbers(s: string)
    ensures OrderedListMarker(s) <==> NumberedItem(s)
  {
    if OrderedListMarker(s) {
      FirstDotSpaceIsThere(s);
      var n := FirstDotSpace(s).value;
      forall i | 0 <= i < n ensures IsDigit(s[i]) {
        assert s[i] == s[..n][i];
      }
      assert Digits(s, n);
    }
    if NumberedItem(s) {
      var n: nat :| 0 < n && n + 2 < |s| && Digits(s, n) && s[n] == '.' && s[n + 1] == ' ';
      FirstDotSpaceFinds(s, n);
    }
  }

}
