/** Characters, trimming, lines and words, as the standard string operations define them. */
module Text {
  /** The characters with the Unicode White_Space property. */
  predicate IsSpace(c: char) {
    || '\t' <= c <= '\r'
    || c == ' '
    || c == '\U{0085}' || c == '\U{00A0}' || c == '\U{1680}'
    || '\U{2000}' <= c <= '\U{200A}'
    || c == '\U{2028}' || c == '\U{2029}' || c == '\U{202F}' || c == '\U{205F}' || c == '\U{3000}'
  }

  predicate IsBlank(s: string) {
    forall c :: c in s ==> IsSpace(c)
  }

  lemma {:induction false} BlankFirst(c: char, s: string)
    ensures IsBlank([c] + s) <==> IsSpace(c) && IsBlank(s)
  {
    var whole := [c] + s;
    assert whole[0] in whole;
    assert forall x :: x in whole <==> x == c || x in s;
  }

  lemma {:induction false} BlankLast(s: string, c: char)
    ensures IsBlank(s + [c]) <==> IsBlank(s) && IsSpace(c)
  {
    var whole := s + [c];
    assert whole[|s|] in whole;
    assert forall x :: x in whole <==> x == c || x in s;
  }

  function TrimStart(s: string): (r: string)
    ensures r == [] || !IsSpace(r[0])
    ensures |r| <= |s|
    ensures r == [] <==> IsBlank(s)
  {
    if s == [] || !IsSpace(s[0]) then s
    else
      assert s == [s[0]] + s[1..];
      BlankFirst(s[0], s[1..]);
      TrimStart(s[1..])
  }

  function TrimEnd(s: string): (r: string)
    ensures r == [] || !IsSpace(r[|r| - 1])
    ensures r <= s
    ensures r == [] <==> IsBlank(s)
    ensures IsBlank(s[|r|..])
  {
    if s == [] || !IsSpace(s[|s| - 1]) then s
    else
      assert s == s[..|s| - 1] + [s[|s| - 1]];
      var r := TrimEnd(s[..|s| - 1]);
      assert s[|r|..] == s[..|s| - 1][|r|..] + [s[|s| - 1]];
      BlankLast(s[..|s| - 1], s[|s| - 1]);
      BlankLast(s[..|s| - 1][|r|..], s[|s| - 1]);
      r
  }

  function Trim(s: string): string {
    TrimEnd(TrimStart(s))
  }

  predicate StartsWith(s: string, prefix: string) {
    prefix <= s
  }

  predicate EndsWith(s: string, suffix: string) {
    |suffix| <= |s| && s[|s| - |suffix|..] == suffix
  }

  /** The number of maximal runs of non-space characters. */
  function CountWords(s: string): nat {
    if s == [] then 0
    else if IsSpace(s[|s| - 1]) then CountWords(s[..|s| - 1])
    else if |s| == 1 || IsSpace(s[|s| - 2]) then CountWords(s[..|s| - 1]) + 1
    else CountWords(s[..|s| - 1])
  }

  function Join(parts: seq<string>, separator: string): string {
    if parts == [] then []
    else if |parts| == 1 then parts[0]
    else Join(parts[..|parts| - 1], separator) + separator + parts[|parts| - 1]
  }

  lemma {:induction false} TrimmedAway(s: string)
    ensures Trim(s) == [] <==> IsBlank(s)
  {
    var t := TrimStart(s);
    assert t != [] ==> t[0] in t;
  }

  lemma {:induction false} TrimStartDrops(s: string)
    requires s != [] && IsSpace(s[0])
    ensures TrimStart(s) == TrimStart(s[1..])
  {
  }

  lemma {:induction false} TrimEndDrops(s: string)
    requires s != [] && IsSpace(s[|s| - 1])
    ensures TrimEnd(s) == TrimEnd(s[..|s| - 1])
  {
  }

  lemma {:induction false} NothingToTrim(s: string)
    ensures s == [] || !IsSpace(s[0]) ==> TrimStart(s) == s
    ensures s == [] || !IsSpace(s[|s| - 1]) ==> TrimEnd(s) == s
  {
  }

  lemma {:induction false} BlankParts(s: string)
    requires IsBlank(s) && s != []
    ensures IsSpace(s[0]) && IsBlank(s[1..]) && IsSpace(s[|s| - 1]) && IsBlank(s[..|s| - 1])
  {
    assert s[0] in s && s[|s| - 1] in s;
    assert s == [s[0]] + s[1..] && s == s[..|s| - 1] + [s[|s| - 1]];
  }

  lemma {:induction false} TrimStartOfBlankPrefix(blank: string, ink: string, s: string)
    requires IsBlank(blank) && s == blank + ink
    ensures TrimStart(s) == TrimStart(ink)
    decreases |blank|
  {
    if blank == [] {
      assert s == ink;
    } else {
      BlankParts(blank);
      assert s[0] == blank[0] && s[1..] == blank[1..] + ink;
      TrimStartOfBlankPrefix(blank[1..], ink, s[1..]);
      TrimStartDrops(s);
    }
  }

  lemma {:induction false} TrimEndOfBlankSuffix(ink: string, blank: string, s: string)
    requires IsBlank(blank) && s == ink + blank
    ensures TrimEnd(s) == TrimEnd(ink)
    decreases |blank|
  {
    if blank == [] {
      assert s == ink;
    } else {
      var n := |blank| - 1;
      BlankParts(blank);
      assert s[|s| - 1] == blank[n] && s[..|s| - 1] == ink + blank[..n];
      TrimEndOfBlankSuffix(ink, blank[..n], s[..|s| - 1]);
      TrimEndDrops(s);
    }
  }

  lemma {:induction false} TrimEndOfParts(whole: string, front: string, ink: string, blank: string)
    requires ink != [] && !IsSpace(ink[|ink| - 1]) && IsBlank(blank) && whole == front + ink + blank
    ensures TrimEnd(whole) == front + ink
  {
    var kept := front + ink;
    assert kept[|kept| - 1] == ink[|ink| - 1];
    TrimEndOfBlankSuffix(kept, blank, whole);
    NothingToTrim(kept);
  }

  lemma {:induction false} TrimEndKeepsFront(front: string, back: string)
    requires !IsBlank(back)
    ensures TrimEnd(front + back) == front + TrimEnd(back)
  {
    var ink := TrimEnd(back);
    var blank := back[|ink|..];
    assert back == ink + blank;
    TrimEndOfParts(front + back, front, ink, blank);
  }

  /** Where the first line break stands, or the length when there is none. */
  function LineEnd(s: string): (n: nat)
    ensures n <= |s| && (n < |s| ==> s[n] == '\n')
    ensures forall i :: 0 <= i < n ==> s[i] != '\n'
  {
    if s == [] || s[0] == '\n' then 0 else 1 + LineEnd(s[1..])
  }

  /** The lines of a text; a break may have a carriage return before it, and may end the text. */
  function Lines(s: string): seq<string> {
    if s == [] then []
    else
      var n := LineEnd(s);
      if n == |s| then [s] else [Unreturned(s[..n])] + Lines(s[n + 1..])
  }

  function Unreturned(line: string): (r: string)
    ensures r <= line
  {
    if line != [] && line[|line| - 1] == '\r' then line[..|line| - 1] else line
  }

  lemma {:induction false} JoinLast(before: seq<string>, last: string, br: string)
    requires before != []
    ensures Join(before + [last], br) == Join(before, br) + br + last
  {
    assert (before + [last])[..|before|] == before;
  }

  lemma {:induction false} JoinSplits(a: seq<string>, b: seq<string>, separator: string)
    requires a != [] && b != []
    ensures Join(a + b, separator) == Join(a, separator) + separator + Join(b, separator)
    decreases |b|
  {
    var front, last := b[..|b| - 1], b[|b| - 1];
    assert b == front + [last];
    if front == [] {
      assert a + b == a + [last] && Join(b, separator) == last;
      JoinLast(a, last, separator);
    } else {
      JoinSplits(a, front, separator);
      assert a + b == (a + front) + [last];
      JoinLast(a + front, last, separator);
      JoinLast(front, last, separator);
    }
  }

  lemma {:induction false} JoinFirst(first: string, rest: seq<string>, br: string)
    requires rest != []
    ensures Join([first] + rest, br) == first + br + Join(rest, br)
  {
    JoinSplits([first], rest, br);
  }

  /** No break is lost: none has a carriage return before it, and none ends the text. */
  predicate Intact(s: string)
    decreases |s|
  {
    var n := LineEnd(s);
    n == |s| || (Unreturned(s[..n]) == s[..n] && s[n + 1..] != [] && Intact(s[n + 1..]))
  }

  lemma {:induction false} LinesOfSome(s: string)
    requires s != []
    ensures Lines(s) != []
  {
  }

  /** One line and its break, put in front of what the rest joins to. */
  lemma {:induction false} JoinOneMore(s: string, line: string, rest: string, kept: string, joined: string, br: string)
    requires s == line + br + rest && kept <= line && |br| == 1 && |joined| <= |rest|
    ensures |kept + br + joined| <= |s|
    ensures kept + br + joined == s <==> kept == line && joined == rest
  {
    if |kept| == |line| {
      assert kept == line;
      assert s[|line| + 1..] == rest && (kept + br + joined)[|line| + 1..] == joined;
    }
  }

  lemma {:induction false} LinesJoin(s: string, br: string)
    requires br == ['\n']
    ensures |Join(Lines(s), br)| <= |s|
    ensures Join(Lines(s), br) == s <==> Intact(s)
    decreases |s|
  {
    var n := LineEnd(s);
    if s != [] && n < |s| {
      var line, rest := s[..n], s[n + 1..];
      var kept := Unreturned(line);
      assert s == line + br + rest;
      if rest == [] {
        assert Lines(s) == [kept];
      } else {
        LinesJoin(rest, br);
        LinesOfSome(rest);
        JoinFirst(kept, Lines(rest), br);
        JoinOneMore(s, line, rest, kept, Join(Lines(rest), br), br);
      }
    }
  }

  /** A carriage return and a line break stand at `i`. */
  predicate ReturnAt(s: string, i: nat) {
    i + 1 < |s| && s[i] == '\r' && s[i + 1] == '\n'
  }

  ghost predicate KeepsItsBreaks(s: string) {
    && (s == [] || s[|s| - 1] != '\n')
    && forall i: nat :: !ReturnAt(s, i)
  }

  /** What is known of a text from its first line, the break after it, and the rest. */
  lemma {:induction false} BreaksOfParts(s: string, line: string, rest: string)
    requires s == line + ['\n'] + rest && (forall i :: 0 <= i < |line| ==> line[i] != '\n')
    ensures KeepsItsBreaks(s) <==> Unreturned(line) == line && rest != [] && KeepsItsBreaks(rest)
  {
    var n := |line|;
    assert n > 0 ==> (ReturnAt(s, n - 1) <==> Unreturned(line) != line);
    forall i: nat | ReturnAt(rest, i) ensures ReturnAt(s, n + 1 + i) { }
    forall i: nat | ReturnAt(s, i) ensures i + 1 == n || (i > n && ReturnAt(rest, i - n - 1)) { }
  }

  lemma {:induction false} NoBreakNoLoss(s: string)
    requires forall i :: 0 <= i < |s| ==> s[i] != '\n'
    ensures KeepsItsBreaks(s)
  {
  }

  lemma {:induction false} SplitAtBreak(s: string) returns (line: string, rest: string)
    requires LineEnd(s) < |s|
    ensures s == line + ['\n'] + rest && (forall i :: 0 <= i < |line| ==> line[i] != '\n')
    ensures Intact(s) <==> Unreturned(line) == line && rest != [] && Intact(rest)
  {
    var n := LineEnd(s);
    line, rest := s[..n], s[n + 1..];
  }

  lemma {:induction false} IntactMeans(s: string)
    ensures Intact(s) <==> KeepsItsBreaks(s)
    decreases |s|
  {
    if LineEnd(s) < |s| {
      var line, rest := SplitAtBreak(s);
      IntactMeans(rest);
      BreaksOfParts(s, line, rest);
    } else {
      NoBreakNoLoss(s);
    }
  }

  /**
   Joining the lines of a text gives it back exactly when no break in it has a carriage return
   before it and none ends it.
   */
  lemma {:induction false} LinesRejoinIff(s: string)
    ensures Join(Lines(s), "\n") == s <==> KeepsItsBreaks(s)
  {
    LinesJoin(s, "\n");
    IntactMeans(s);
  }

  lemma {:induction false} TrimStartOfPrefix(s: string, n: nat)
    requires n <= |s| && TrimEnd(s) == s[..n]
    ensures TrimEnd(TrimStart(s[..n])) == TrimEnd(TrimStart(s))
    decreases |s|
  {
    if s == [] || !IsSpace(s[0]) {
      TrimEndTwice(s);
      assert n == 0 ==> IsBlank(s);
      assert n > 0 ==> s[..n][0] == s[0];
    } else if n == 0 {
      assert IsBlank(s);
      assert IsBlank(s[1..]);
    } else {
      assert s[..n][0] == s[0] && s[..n][1..] == s[1..][..n - 1];
      TrimEndOfTail(s);
      TrimStartOfPrefix(s[1..], n - 1);
    }
  }

  lemma TrimEndTwice(s: string)
    ensures TrimEnd(TrimEnd(s)) == TrimEnd(s)
  {
  }

  lemma {:induction false} TrimEndOfTail(s: string)
    requires s != [] && !IsBlank(s) && IsSpace(s[0])
    ensures |TrimEnd(s)| > 0 && TrimEnd(s[1..]) == TrimEnd(s)[1..]
  {
    var ink := TrimEnd(s);
    var blank := s[|ink|..];
    TailOfParts(s, ink, blank);
    TrimEndOfBlankSuffix(ink[1..], blank, s[1..]);
    NothingToTrim(ink[1..]);
  }

  lemma {:induction false} TailOfParts(s: string, ink: string, blank: string)
    requires ink != [] && ink <= s && blank == s[|ink|..] && IsSpace(s[0]) && !IsSpace(ink[|ink| - 1])
    ensures s[1..] == ink[1..] + blank && |ink| > 1 && ink[1..][|ink| - 2] == ink[|ink| - 1]
  {
    assert ink[0] == s[0];
  }
}
