/** The Markdown line-block parser, and the segmentation of a document that it computes. */
module MarkdownBlocks {
  import opened Wrappers
  import opened Text
  import opened MarkdownLines

  datatype Kind = Heading | Paragraph | ListKind | CodeFence | Mixed

  datatype Block = Block(kind: Kind, text: string, path: seq<string>)

  // ---------------------------------------------------------------- what a block is

  datatype Span = Span(kind: Kind, start: nat, end: nat)

  /** The next line with something on it. */
  function NextNonblank(lines: seq<Line>, from: nat): Option<Line>
    decreases |lines| - from
  {
    if from >= |lines| then None
    else if !lines[from].blank then Some(lines[from])
    else NextNonblank(lines, from + 1)
  }

  /** A list runs on over markers, indented lines, and blank lines with a marker after them. */
  predicate ListGoesOn(lines: seq<Line>, i: nat)
    requires i < |lines|
  {
    if lines[i].blank then
      var following := NextNonblank(lines, i + 1);
      following.Some? && following.value.marker
    else lines[i].marker || lines[i].indented
  }

  function KindOf(line: Line): Kind {
    if line.heading.Some? then Heading
    else if line.backticks || line.tildes then CodeFence
    else if line.marker then ListKind
    else Paragraph
  }

  predicate Closes(opening: Line, line: Line) {
    if opening.backticks then line.backticks else line.tildes
  }

  /** Whether line `i` still belongs to the block that begins at `start`. */
  predicate RunsOn(lines: seq<Line>, start: nat, i: nat)
    requires start < i < |lines|
  {
    match KindOf(lines[start])
    case Heading => false
    case CodeFence => i == start + 1 || !Closes(lines[start], lines[i - 1])
    case ListKind => ListGoesOn(lines, i)
    case _ => !lines[i].blank && KindOf(lines[i]) == Paragraph
  }

  /** A block starts on a line that is not blank and takes every line up to the first that stops it. */
  ghost predicate IsBlock(lines: seq<Line>, span: Span) {
    && span.start < span.end <= |lines|
    && !lines[span.start].blank
    && span.kind == KindOf(lines[span.start])
    && (forall i :: span.start < i < span.end ==> RunsOn(lines, span.start, i))
    && (span.end < |lines| ==> !RunsOn(lines, span.start, span.end))
  }

  ghost predicate AllBlank(lines: seq<Line>, lo: nat, hi: nat)
    requires hi <= |lines|
  {
    forall i :: lo <= i < hi ==> lines[i].blank
  }

  function EndOf(spans: seq<Span>, n: nat): nat
    requires n <= |spans|
  {
    if n == 0 then 0 else spans[n - 1].end
  }

  /** Block `n` comes after the blocks before it with nothing but blank lines between. */
  ghost predicate Follows(lines: seq<Line>, spans: seq<Span>, n: nat)
    requires n < |spans|
  {
    && IsBlock(lines, spans[n])
    && EndOf(spans, n) <= spans[n].start
    && AllBlank(lines, EndOf(spans, n), spans[n].start)
  }

  /** The blocks of the first `upto` lines. */
  ghost predicate Segmented(lines: seq<Line>, spans: seq<Span>, upto: nat)
    requires upto <= |lines|
  {
    && (forall n {:trigger Follows(lines, spans, n)} :: 0 <= n < |spans| ==> Follows(lines, spans, n))
    && EndOf(spans, |spans|) <= upto
    && AllBlank(lines, EndOf(spans, |spans|), upto)
  }

  function SpanText(lines: seq<Line>, span: Span): string
    requires span.start <= span.end <= |lines|
  {
    TrimEnd(Join(Texts(lines[span.start..span.end]), "\n"))
  }

  // ---------------------------------------------------------------- section paths

  /** A heading cuts the path back to above its level and adds its title. */
  function Enter(path: seq<string>, level: nat, title: string): seq<string>
  {
    var keep := if level == 0 then 0 else level - 1;
    (if keep <= |path| then path[..keep] else path) + [title]
  }

  /** The section path past a block that begins at `start`. */
  function PathPast(lines: seq<Line>, start: nat, before: seq<string>): seq<string> {
    if start < |lines| && lines[start].heading.Some?
    then Enter(before, lines[start].heading.value.0, lines[start].heading.value.1)
    else before
  }

  /** The section path once the first `n` blocks are read. */
  function PathAt(lines: seq<Line>, spans: seq<Span>, n: nat): seq<string>
    requires n <= |spans|
  {
    if n == 0 then []
    else
      PathPast(lines, spans[n - 1].start, PathAt(lines, spans, n - 1))
  }

  // ---------------------------------------------------------------- the parser

  ghost predicate Describes(lines: seq<Line>, spans: seq<Span>, n: nat, block: Block)
    requires n < |spans|
  {
    && IsBlock(lines, spans[n])
    && block.kind == spans[n].kind
    && block.text == SpanText(lines, spans[n])
    && block.path == PathAt(lines, spans, n + 1)
  }

  /** The end of the fenced block that opens at `start`. */
  method FenceEnd(lines: seq<Line>, start: nat) returns (index: nat)
    requires start < |lines| && KindOf(lines[start]) == CodeFence && !lines[start].blank
    ensures IsBlock(lines, Span(CodeFence, start, index))
  {
    index := start + 1;
    var closed := false;
    while index < |lines| && !closed
      invariant start < index <= |lines|
      invariant closed ==> index > start + 1 && Closes(lines[start], lines[index - 1])
      invariant forall i :: start < i < index ==> RunsOn(lines, start, i)
      invariant !closed && index < |lines| ==> RunsOn(lines, start, index)
      decreases |lines| - index, !closed
    {
      closed := Closes(lines[start], lines[index]);
      index := index + 1;
    }
  }

  /** The end of the list or paragraph that begins at `start`. */
  method RunEnd(lines: seq<Line>, start: nat) returns (index: nat)
    requires start < |lines| && !lines[start].blank
    requires KindOf(lines[start]) == ListKind || KindOf(lines[start]) == Paragraph
    ensures IsBlock(lines, Span(KindOf(lines[start]), start, index))
  {
    index := start + 1;
    while index < |lines| && RunsOn(lines, start, index)
      invariant start < index <= |lines|
      invariant forall i :: start < i < index ==> RunsOn(lines, start, i)
    {
      index := index + 1;
    }
  }

  lemma {:induction false} PathOfPrefix(lines: seq<Line>, spans: seq<Span>, span: Span, n: nat)
    requires n <= |spans|
    ensures PathAt(lines, spans + [span], n) == PathAt(lines, spans, n)
  {
    if n > 0 {
      PathOfPrefix(lines, spans, span, n - 1);
    }
  }

  lemma {:induction false} ExtendSpans(lines: seq<Line>, spans: seq<Span>, span: Span)
    requires span.start <= |lines| && Segmented(lines, spans, span.start) && IsBlock(lines, span)
    ensures Segmented(lines, spans + [span], span.end)
  {
    var all := spans + [span];
    forall n | 0 <= n < |all| ensures Follows(lines, all, n) {
      assert EndOf(all, n) == EndOf(spans, n);
      if n < |spans| {
        assert Follows(lines, spans, n);
      }
    }
  }

  ghost predicate Described(lines: seq<Line>, spans: seq<Span>, blocks: seq<Block>) {
    && |blocks| == |spans|
    && (forall n :: 0 <= n < |spans| ==> Describes(lines, spans, n, blocks[n]))
  }

  lemma {:induction false} ExtendBlocks(
      lines: seq<Line>, spans: seq<Span>, blocks: seq<Block>, span: Span, block: Block)
    requires Described(lines, spans, blocks) && IsBlock(lines, span)
    requires block.kind == span.kind && block.text == SpanText(lines, span)
    requires block.path == PathAt(lines, spans + [span], |spans| + 1)
    ensures Described(lines, spans + [span], blocks + [block])
  {
    forall n | 0 <= n < |spans| ensures Describes(lines, spans + [span], n, blocks[n]) {
      PathOfPrefix(lines, spans, span, n + 1);
    }
  }

  /** The blocks are those of a segmentation of the whole document. */
  ghost predicate IsParse(lines: seq<Line>, blocks: seq<Block>) {
    exists spans :: Segmented(lines, spans, |lines|) && Described(lines, spans, blocks)
  }

  /** Where the block that begins at `start` ends, and the section path past it. */
  method ReadBlock(lines: seq<Line>, start: nat, path: seq<string>) returns (index: nat, past: seq<string>)
    requires start < |lines| && !lines[start].blank
    ensures IsBlock(lines, Span(KindOf(lines[start]), start, index))
    ensures past == PathPast(lines, start, path)
  {
    past := path;
    if KindOf(lines[start]) == Heading {
      var (level, title) := lines[start].heading.value;
      past := Enter(path, level, title);
      index := start + 1;
    } else if KindOf(lines[start]) == CodeFence {
      index := FenceEnd(lines, start);
    } else {
      index := RunEnd(lines, start);
    }
  }

  /** What the parser keeps: the blocks of the first lines, and the section path past them. */
  ghost predicate ParsedUpTo(
      lines: seq<Line>, spans: seq<Span>, blocks: seq<Block>, path: seq<string>, index: nat)
  {
    && index <= |lines| && Segmented(lines, spans, index) && Described(lines, spans, blocks)
    && path == PathAt(lines, spans, |spans|)
  }

  lemma {:induction false} ParseOneMore(
      lines: seq<Line>, spans: seq<Span>, blocks: seq<Block>, path: seq<string>, span: Span, block: Block)
    requires ParsedUpTo(lines, spans, blocks, path, span.start) && IsBlock(lines, span)
    requires block == Block(span.kind, SpanText(lines, span), PathPast(lines, span.start, path))
    ensures ParsedUpTo(lines, spans + [span], blocks + [block], block.path, span.end)
  {
    PathOfPrefix(lines, spans, span, |spans|);
    ExtendSpans(lines, spans, span);
    ExtendBlocks(lines, spans, blocks, span, block);
  }

  method ParseMarkdownBlocks(lines: seq<Line>) returns (blocks: seq<Block>)
    ensures IsParse(lines, blocks)
  {
    blocks := [];
    ghost var spans: seq<Span> := [];
    var path: seq<string> := [];
    var index := 0;
    while index < |lines|
      invariant ParsedUpTo(lines, spans, blocks, path, index)
      decreases |lines| - index
    {
      if lines[index].blank {
        index := index + 1;
      } else {
        var start := index;
        ghost var before := path;
        index, path := ReadBlock(lines, start, path);
        var block := Block(KindOf(lines[start]), TrimEnd(Join(Texts(lines[start..index]), "\n")), path);
        ghost var span := Span(KindOf(lines[start]), start, index);
        ParseOneMore(lines, spans, blocks, before, span, block);
        blocks, spans := blocks + [block], spans + [span];
      }
    }
    assert Segmented(lines, spans, |lines|) && Described(lines, spans, blocks);
  }

  // ---------------------------------------------------------------- theorems

  lemma {:induction false} BlocksFromOneStart(lines: seq<Line>, a: Span, b: Span)
    requires IsBlock(lines, a) && IsBlock(lines, b) && a.start == b.start
    ensures a == b
  {
  }

  lemma {:induction false} SpansAgree(lines: seq<Line>, a: seq<Span>, b: seq<Span>, n: nat)
    requires Segmented(lines, a, |lines|) && Segmented(lines, b, |lines|)
    requires n <= |a| && n <= |b|
    ensures a[..n] == b[..n] && EndOf(a, n) == EndOf(b, n)
  {
    if n > 0 {
      SpansAgree(lines, a, b, n - 1);
      assert Follows(lines, a, n - 1) && Follows(lines, b, n - 1);
      BlocksFromOneStart(lines, a[n - 1], b[n - 1]);
      assert a[..n] == a[..n - 1] + [a[n - 1]] && b[..n] == b[..n - 1] + [b[n - 1]];
    }
  }

  lemma {:induction false} NoShorterSegmentation(lines: seq<Line>, a: seq<Span>, b: seq<Span>)
    requires Segmented(lines, a, |lines|) && Segmented(lines, b, |lines|)
    ensures |a| >= |b|
  {
    if |a| < |b| {
      var n := |a|;
      assert Follows(lines, b, n);
      SpansAgree(lines, a, b, n);
      assert false;
    }
  }

  /** The rules leave no choice: a document has one segmentation, so the parser finds that one. */
  lemma {:induction false} SegmentationIsUnique(lines: seq<Line>, a: seq<Span>, b: seq<Span>)
    requires Segmented(lines, a, |lines|) && Segmented(lines, b, |lines|)
    ensures a == b
  {
    NoShorterSegmentation(lines, a, b);
    NoShorterSegmentation(lines, b, a);
    SpansAgree(lines, a, b, |a|);
    assert a[..|a|] == a && b[..|a|] == b;
  }

  /** So kind, text and section path of every block are determined by the lines. */
  lemma {:induction false} ParseIsUnique(lines: seq<Line>, a: seq<Block>, b: seq<Block>)
    requires IsParse(lines, a) && IsParse(lines, b)
    ensures a == b
  {
    var s :| Segmented(lines, s, |lines|) && Described(lines, s, a);
    var t :| Segmented(lines, t, |lines|) && Described(lines, t, b);
    SegmentationIsUnique(lines, s, t);
    forall n | 0 <= n < |s| ensures a[n] == b[n] {
      assert Describes(lines, s, n, a[n]) && Describes(lines, s, n, b[n]);
    }
  }

  predicate Holds(span: Span, i: nat) {
    span.start <= i < span.end
  }

  lemma {:induction false} SpansAscend(lines: seq<Line>, spans: seq<Span>, upto: nat, m: nat, n: nat)
    requires upto <= |lines| && Segmented(lines, spans, upto) && m < n < |spans|
    ensures spans[m].end <= spans[n].start
    decreases n
  {
    assert Follows(lines, spans, n);
    if m + 1 < n {
      SpansAscend(lines, spans, upto, m, n - 1);
      assert Follows(lines, spans, n - 1);
    }
  }

  /** No line is in two blocks. */
  lemma {:induction false} BlocksAreDisjoint(lines: seq<Line>, spans: seq<Span>, i: nat, m: nat, n: nat)
    requires Segmented(lines, spans, |lines|) && m < |spans| && n < |spans|
    requires Holds(spans[m], i) && Holds(spans[n], i)
    ensures m == n
  {
    if m < n {
      SpansAscend(lines, spans, |lines|, m, n);
    } else if n < m {
      SpansAscend(lines, spans, |lines|, n, m);
    }
  }

  /** Only blank lines are left out. */
  lemma {:induction false} OnlyBlankLinesAreLeftOut(lines: seq<Line>, spans: seq<Span>, upto: nat, i: nat)
    requires upto <= |lines| && Segmented(lines, spans, upto) && i < upto && !lines[i].blank
    ensures exists n :: 0 <= n < |spans| && Holds(spans[n], i)
    decreases |spans|
  {
    var last := |spans| - 1;
    assert spans != [];
    assert Follows(lines, spans, last);
    if !Holds(spans[last], i) {
      var fewer := spans[..last];
      forall n | 0 <= n < last ensures Follows(lines, fewer, n) {
        assert Follows(lines, spans, n);
        assert EndOf(fewer, n) == EndOf(spans, n);
      }
      assert EndOf(fewer, last) == EndOf(spans, last);
      OnlyBlankLinesAreLeftOut(lines, fewer, spans[last].start, i);
      var n :| 0 <= n < |fewer| && Holds(fewer[n], i);
      assert Holds(spans[n], i);
    }
  }

  /** A list never ends on a blank line. */
  lemma {:induction false} ListsEndOnText(lines: seq<Line>, span: Span)
    requires IsBlock(lines, span) && span.kind == ListKind
    ensures !lines[span.end - 1].blank
  {
    var last := span.end - 1;
    if lines[last].blank {
      assert RunsOn(lines, span.start, last);
      NextMarkerRunsOn(lines, span.start, span.end);
    }
  }

  lemma {:induction false} NextMarkerRunsOn(lines: seq<Line>, start: nat, i: nat)
    requires start < i <= |lines| && KindOf(lines[start]) == ListKind
    requires var next := NextNonblank(lines, i); next.Some? && next.value.marker
    ensures i < |lines| && RunsOn(lines, start, i)
  {
    assert i < |lines|;
  }

  // ---------------------------------------------------------------- section paths follow the outline

  datatype Title = Title(level: nat, text: string)

  function PathOf(titles: seq<Title>): seq<string> {
    if titles == [] then []
    else
      var last := titles[|titles| - 1];
      Enter(PathOf(titles[..|titles| - 1]), last.level, last.text)
  }

  /** A heading is at most one level below the headings it is under. */
  predicate NoLevelSkipped(titles: seq<Title>) {
    titles == [] ||
    var rest, last := titles[..|titles| - 1], titles[|titles| - 1];
    NoLevelSkipped(rest) && 1 <= last.level <= (if rest == [] then 1 else rest[|rest| - 1].level + 1)
  }

  /** The last heading at or above a level. */
  function LastWithin(titles: seq<Title>, level: nat): Option<Title> {
    if titles == [] then None
    else if titles[|titles| - 1].level <= level then Some(titles[|titles| - 1])
    else LastWithin(titles[..|titles| - 1], level)
  }

  ghost predicate FollowsOutline(titles: seq<Title>) {
    && (titles != [] ==> |PathOf(titles)| == titles[|titles| - 1].level)
    && (forall d: nat :: d < |PathOf(titles)| ==>
          LastWithin(titles, d + 1) == Some(Title(d + 1, PathOf(titles)[d])))
  }

  lemma {:induction false} OutlineWithoutSkips(titles: seq<Title>)
    requires NoLevelSkipped(titles)
    ensures FollowsOutline(titles)
    decreases |titles|
  {
    if titles != [] {
      var rest, last := titles[..|titles| - 1], titles[|titles| - 1];
      OutlineWithoutSkips(rest);
      forall d: nat | d < |PathOf(titles)|
        ensures LastWithin(titles, d + 1) == Some(Title(d + 1, PathOf(titles)[d]))
      {
        if d + 1 < last.level {
          assert PathOf(titles)[d] == PathOf(rest)[d];
        }
      }
    }
  }

  lemma {:induction false} PrefixSkipsNothing(titles: seq<Title>, n: nat)
    requires NoLevelSkipped(titles) && n <= |titles|
    ensures NoLevelSkipped(titles[..n])
    decreases |titles|
  {
    if n < |titles| {
      PrefixSkipsNothing(titles[..|titles| - 1], n);
      assert titles[..|titles| - 1][..n] == titles[..n];
    } else {
      assert titles[..n] == titles;
    }
  }

  lemma {:induction false} SkipBreaksTheOutline(titles: seq<Title>)
    requires forall n {:trigger FollowsOutline(titles[..n])} :: 0 <= n <= |titles| ==> FollowsOutline(titles[..n])
    ensures NoLevelSkipped(titles)
    decreases |titles|
  {
    if titles != [] {
      var rest, last := titles[..|titles| - 1], titles[|titles| - 1];
      forall n | 0 <= n <= |rest| ensures FollowsOutline(rest[..n]) {
        assert rest[..n] == titles[..n];
      }
      SkipBreaksTheOutline(rest);
      assert titles[..|titles|] == titles;
      assert titles[..|rest|] == rest;
      assert FollowsOutline(titles) && FollowsOutline(rest);
      assert PathOf(titles) == Enter(PathOf(rest), last.level, last.text);
      assert last.level == |PathOf(titles)| <= |PathOf(rest)| + 1;
    }
  }

  /**
   The path names the nearest heading of every level, all through a document, exactly when no
   heading skips a level.
   */
  lemma {:induction false} PathIsTheOutlineIff(titles: seq<Title>)
    ensures NoLevelSkipped(titles) <==>
            forall n {:trigger FollowsOutline(titles[..n])} :: 0 <= n <= |titles| ==> FollowsOutline(titles[..n])
  {
    if NoLevelSkipped(titles) {
      forall n | 0 <= n <= |titles| ensures FollowsOutline(titles[..n]) {
        PrefixSkipsNothing(titles, n);
        OutlineWithoutSkips(titles[..n]);
      }
    } else if forall n {:trigger FollowsOutline(titles[..n])} ::
                0 <= n <= |titles| ==> FollowsOutline(titles[..n]) {
      SkipBreaksTheOutline(titles);
      assert false;
    }
  }

  /** After a skipped level a heading goes under its own sibling. */
  lemma {:induction false} SiblingNestsAfterASkip(a: string, b: string, c: string)
    ensures PathOf([Title(1, a), Title(3, b), Title(3, c)]) == [a, b, c]
  {
    var one, two, three := [Title(1, a)], [Title(1, a), Title(3, b)], [Title(1, a), Title(3, b), Title(3, c)];
    assert one[..0] == [] && two[..1] == one && three[..2] == two;
    assert PathOf(one) == [a];
    assert PathOf(two) == [a, b];
  }

  function TitlesOf(lines: seq<Line>, spans: seq<Span>, n: nat): seq<Title>
    requires n <= |spans|
  {
    if n == 0 then []
    else
      var before, start := TitlesOf(lines, spans, n - 1), spans[n - 1].start;
      if start < |lines| && lines[start].heading.Some?
      then before + [Title(lines[start].heading.value.0, lines[start].heading.value.1)]
      else before
  }

  lemma {:induction false} PathOfOneMore(titles: seq<Title>, last: Title)
    ensures PathOf(titles + [last]) == Enter(PathOf(titles), last.level, last.text)
  {
    assert (titles + [last])[..|titles|] == titles;
  }

  /** The path past one more block, and the titles up to it. */
  lemma {:induction false} OneMoreBlock(lines: seq<Line>, spans: seq<Span>, n: nat) returns (title: Option<Title>)
    requires 0 < n <= |spans|
    ensures title.None? ==>
              && PathAt(lines, spans, n) == PathAt(lines, spans, n - 1)
              && TitlesOf(lines, spans, n) == TitlesOf(lines, spans, n - 1)
    ensures title.Some? ==>
              && PathAt(lines, spans, n) == Enter(PathAt(lines, spans, n - 1), title.value.level, title.value.text)
              && TitlesOf(lines, spans, n) == TitlesOf(lines, spans, n - 1) + [title.value]
  {
    var start := spans[n - 1].start;
    title := if start < |lines| && lines[start].heading.Some?
      then Some(Title(lines[start].heading.value.0, lines[start].heading.value.1)) else None;
  }

  /** The path of a block is the path of the headings up to it. */
  lemma {:induction false} BlockPathIsHeadingPath(lines: seq<Line>, spans: seq<Span>, n: nat)
    requires n <= |spans|
    ensures PathAt(lines, spans, n) == PathOf(TitlesOf(lines, spans, n))
  {
    if n > 0 {
      BlockPathIsHeadingPath(lines, spans, n - 1);
      var title := OneMoreBlock(lines, spans, n);
      if title.Some? {
        PathOfOneMore(TitlesOf(lines, spans, n - 1), title.value);
      }
    }
  }
}
