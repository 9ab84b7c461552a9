/** Splitting an oversized list at its items. */
module ListChunks {
  import opened Text
  import opened Sequences
  import opened MarkdownLines

  function Last<T>(s: seq<T>): T
    requires s != []
  {
    s[|s| - 1]
  }

  /** `groups` with `x` added to its last group. */
  function Grow<T>(groups: seq<seq<T>>, x: T): seq<seq<T>>
    requires groups != []
  {
    groups[..|groups| - 1] + [Last(groups) + [x]]
  }

  lemma {:induction false} FlattenGrow<T>(groups: seq<seq<T>>, x: T)
    ensures groups != [] ==> Flatten(Grow(groups, x)) == Flatten(groups) + [x]
    ensures Flatten(groups + [[x]]) == Flatten(groups) + [x]
  {
    if groups != [] {
      var before, last := groups[..|groups| - 1], Last(groups);
      FlattenLast(before, last);
      FlattenLast(before, last + [x]);
      assert before + [last] == groups;
    }
    FlattenLast(groups, [x]);
  }

  // ---------------------------------------------------------------- items

  /** An item starts on a marker, the first one wherever the text starts, and runs up to the next. */
  predicate IsItem(parts: seq<seq<Line>>, p: nat)
    requires p < |parts|
  {
    && parts[p] != []
    && (p > 0 ==> parts[p][0].marker)
    && (forall k :: 0 < k < |parts[p]| ==> !parts[p][k].marker)
  }

  predicate Itemized(lines: seq<Line>, parts: seq<seq<Line>>) {
    && Flatten(parts) == lines
    && (forall p {:trigger IsItem(parts, p)} :: 0 <= p < |parts| ==> IsItem(parts, p))
  }

  function ItemText(part: seq<Line>): string {
    Join(Texts(part), "\n")
  }

  function ItemTexts(parts: seq<seq<Line>>): seq<string> {
    seq(|parts|, p requires 0 <= p < |parts| => ItemText(parts[p]))
  }

  lemma {:induction false} ItemizedGrows(lines: seq<Line>, parts: seq<seq<Line>>, line: Line)
    requires Itemized(lines, parts)
    ensures parts != [] && !line.marker ==> Itemized(lines + [line], Grow(parts, line))
    ensures parts == [] || line.marker ==> Itemized(lines + [line], parts + [[line]])
  {
    FlattenGrow(parts, line);
    forall p | 0 <= p < |parts| ensures IsItem(parts, p) { }
    if parts != [] && !line.marker {
      var more := Grow(parts, line);
      forall p | 0 <= p < |more| ensures IsItem(more, p) {
        assert IsItem(parts, p);
      }
    } else {
      var more := parts + [[line]];
      forall p | 0 <= p < |more| ensures IsItem(more, p) {
        assert p < |parts| ==> IsItem(parts, p);
      }
    }
  }

  /** Where the items begin is no choice: the markers say it. */
  lemma {:induction false} ItemsAreUnique(lines: seq<Line>, a: seq<seq<Line>>, b: seq<seq<Line>>)
    requires Itemized(lines, a) && Itemized(lines, b)
    ensures a == b
    decreases |lines|
  {
    if a == [] || b == [] {
      NoItemsNoLines(lines, a);
      NoItemsNoLines(lines, b);
    } else {
      FirstItemIsNotLonger(lines, a, b);
      FirstItemIsNotLonger(lines, b, a);
      assert a[0] == lines[..|a[0]|] && b[0] == lines[..|b[0]|];
      DropFirstItem(lines, a);
      DropFirstItem(lines, b);
      ItemsAreUnique(lines[|a[0]|..], a[1..], b[1..]);
      assert a == [a[0]] + a[1..] && b == [b[0]] + b[1..];
    }
  }

  lemma {:induction false} NoItemsNoLines(lines: seq<Line>, parts: seq<seq<Line>>)
    requires Itemized(lines, parts)
    ensures parts == [] <==> lines == []
  {
    if parts != [] {
      assert IsItem(parts, 0);
    }
  }

  lemma {:induction false} FirstItemIsNotLonger(lines: seq<Line>, a: seq<seq<Line>>, b: seq<seq<Line>>)
    requires Itemized(lines, a) && Itemized(lines, b) && a != [] && b != []
    ensures |b[0]| <= |a[0]|
  {
    var n := |a[0]|;
    assert IsItem(b, 0);
    if n < |b[0]| {
      assert !b[0][n].marker by {
        assert IsItem(a, 0);
      }
      FlattenAt(b, 0, n);
      SecondItemStarts(lines, a);
      assert false;
    }
  }

  lemma {:induction false} SecondItemStarts(lines: seq<Line>, parts: seq<seq<Line>>)
    requires Itemized(lines, parts) && parts != [] && |parts[0]| < |lines|
    ensures lines[|parts[0]|].marker
  {
    FlattenOne(parts[0]);
    assert Flatten(parts[1..]) != [];
    assert parts[..1] == [parts[0]];
    assert IsItem(parts, 1);
    FlattenAt(parts, 1, 0);
  }

  lemma {:induction false} DropFirstItem(lines: seq<Line>, parts: seq<seq<Line>>)
    requires Itemized(lines, parts) && parts != []
    ensures |parts[0]| <= |lines| && parts[0] != [] && Itemized(lines[|parts[0]|..], parts[1..])
  {
    assert IsItem(parts, 0);
    forall p | 0 <= p < |parts| - 1 ensures IsItem(parts[1..], p) {
      assert IsItem(parts, p + 1);
    }
  }

  lemma {:induction false} TextsGrow(lines: seq<Line>, line: Line)
    ensures Texts(lines + [line]) == Texts(lines) + [line.text]
  {
  }

  ghost predicate AreItems(lines: seq<Line>, items: seq<string>) {
    exists parts :: Itemized(lines, parts) && items == ItemTexts(parts)
  }

  method SplitListItems(lines: seq<Line>) returns (items: seq<string>)
    ensures AreItems(lines, items)
  {
    items := [];
    ghost var parts: seq<seq<Line>> := [];
    var current: seq<string> := [];
    for i := 0 to |lines|
      invariant Itemized(lines[..i], parts)
      invariant parts == [] <==> current == []
      invariant parts == [] ==> items == []
      invariant parts != [] ==> current == Texts(Last(parts)) && items == ItemTexts(parts[..|parts| - 1])
    {
      assert lines[..i + 1] == lines[..i] + [lines[i]];
      ItemizedGrows(lines[..i], parts, lines[i]);
      if lines[i].marker && current != [] {
        items := items + [Join(current, "\n")];
        assert items == ItemTexts(parts);
        current := [];
      }
      if current == [] {
        parts := parts + [[lines[i]]];
      } else {
        TextsGrow(Last(parts), lines[i]);
        parts := Grow(parts, lines[i]);
      }
      current := current + [lines[i].text];
    }
    assert lines[..|lines|] == lines;
    if current != [] {
      items := items + [Join(current, "\n")];
    }
    assert items == ItemTexts(parts);
  }

  function JoinAll(groups: seq<seq<string>>, br: string): seq<string> {
    seq(|groups|, p requires 0 <= p < |groups| => Join(groups[p], br))
  }

  lemma {:induction false} JoinAllLast(groups: seq<seq<string>>, last: seq<string>, br: string)
    ensures JoinAll(groups + [last], br) == JoinAll(groups, br) + [Join(last, br)]
  {
  }

  /** Joining group by group and then the groups is joining it all. */
  lemma {:induction false} JoinGrouped(groups: seq<seq<string>>, last: seq<string>, br: string)
    requires last != [] && forall p :: 0 <= p < |groups| ==> groups[p] != []
    ensures Join(JoinAll(groups + [last], br), br) == Join(Flatten(groups + [last]), br)
    decreases |groups|
  {
    JoinAllLast(groups, last, br);
    FlattenLast(groups, last);
    if groups == [] {
      assert JoinAll(groups, br) + [Join(last, br)] == [Join(last, br)];
      assert Flatten(groups) + last == last;
    } else {
      var n := |groups| - 1;
      assert groups == groups[..n] + [groups[n]];
      JoinGrouped(groups[..n], groups[n], br);
      JoinSplits(JoinAll(groups, br), [Join(last, br)], br);
      FlattenLast(groups[..n], groups[n]);
      JoinSplits(Flatten(groups), last, br);
    }
  }

  function TextGroups(parts: seq<seq<Line>>): seq<seq<string>> {
    seq(|parts|, p requires 0 <= p < |parts| => Texts(parts[p]))
  }

  lemma {:induction false} TextsOfFlatten(parts: seq<seq<Line>>)
    ensures Flatten(TextGroups(parts)) == Texts(Flatten(parts))
    decreases |parts|
  {
    if parts != [] {
      TextsOfFlatten(parts[1..]);
      assert TextGroups(parts)[1..] == TextGroups(parts[1..]);
    }
  }

  /** Putting the items together again gives the text of the list, line for line. */
  lemma {:induction false} ItemsRejoin(parts: seq<seq<Line>>)
    requires parts != [] && forall p :: 0 <= p < |parts| ==> parts[p] != []
    ensures Join(ItemTexts(parts), "\n") == Join(Texts(Flatten(parts)), "\n")
  {
    var groups, n := TextGroups(parts), |parts| - 1;
    assert groups == groups[..n] + [groups[n]];
    JoinGrouped(groups[..n], groups[n], "\n");
    TextsOfFlatten(parts);
    assert ItemTexts(parts) == JoinAll(groups, "\n");
  }

  // ---------------------------------------------------------------- chunks of items

  /** Two texts on separate lines, unless there is only one. */
  function Glue(left: string, right: string): string {
    if left == [] then right else left + "\n" + right
  }

  function GlueAll(prefix: string, items: seq<string>): string {
    if items == [] then prefix else Glue(GlueAll(prefix, items[..|items| - 1]), Last(items))
  }

  function OverlapPrefix(text: string, overlap: nat): string {
    if overlap >= |text| then text else text[|text| - overlap..]
  }

  /** A chunk after the first begins with the end of the item before it. */
  function PrefixOf(groups: seq<seq<string>>, c: nat, overlap: nat): string
    requires c <= |groups|
  {
    if c == 0 || groups[c - 1] == [] then [] else OverlapPrefix(Last(groups[c - 1]), overlap)
  }

  function ChunkText(groups: seq<seq<string>>, c: nat, overlap: nat): string
    requires c < |groups|
  {
    GlueAll(PrefixOf(groups, c, overlap), groups[c])
  }

  /** What stands before the last item of a chunk. */
  function Before(groups: seq<seq<string>>, c: nat, overlap: nat): string
    requires c < |groups| && groups[c] != []
  {
    GlueAll(PrefixOf(groups, c, overlap), groups[c][..|groups[c]| - 1])
  }

  /** An item that joins others in a chunk keeps it within the limit. */
  ghost predicate Fits(groups: seq<seq<string>>, c: nat, max: nat, overlap: nat)
    requires c < |groups|
  {
    && groups[c] != []
    && (|groups[c]| > 1 && Before(groups, c, overlap) != [] ==> |ChunkText(groups, c, overlap)| <= max)
  }

  /** A chunk ends only where the next item does not fit. */
  ghost predicate Full(groups: seq<seq<string>>, c: nat, max: nat, overlap: nat)
    requires c + 1 < |groups|
  {
    groups[c + 1] != [] && ChunkText(groups, c, overlap) != [] &&
    |Glue(ChunkText(groups, c, overlap), groups[c + 1][0])| > max
  }

  ghost predicate AllFit(groups: seq<seq<string>>, max: nat, overlap: nat) {
    forall c {:trigger Fits(groups, c, max, overlap)} :: 0 <= c < |groups| ==> Fits(groups, c, max, overlap)
  }

  ghost predicate AllFull(groups: seq<seq<string>>, max: nat, overlap: nat) {
    forall c {:trigger Full(groups, c, max, overlap)} :: 0 <= c < |groups| - 1 ==> Full(groups, c, max, overlap)
  }

  ghost predicate Chunked(items: seq<string>, groups: seq<seq<string>>, max: nat, overlap: nat) {
    Flatten(groups) == items && AllFit(groups, max, overlap) && AllFull(groups, max, overlap)
  }

  lemma {:induction false} EarlierChunksStay(
      groups: seq<seq<string>>, more: seq<seq<string>>, n: nat, max: nat, overlap: nat)
    requires n <= |groups| && n <= |more| && groups[..n] == more[..n]
    ensures forall c: nat :: c < n ==> ChunkText(groups, c, overlap) == ChunkText(more, c, overlap)
    ensures PrefixOf(groups, n, overlap) == PrefixOf(more, n, overlap)
  {
    assert forall c: nat :: c < n ==> groups[c] == groups[..n][c] && more[c] == more[..n][c];
  }

  lemma {:induction false} FitsStays(
      groups: seq<seq<string>>, more: seq<seq<string>>, c: nat, max: nat, overlap: nat)
    requires c < |groups| && c < |more| && groups[..c + 1] == more[..c + 1]
    requires Fits(groups, c, max, overlap)
    ensures Fits(more, c, max, overlap)
  {
    EarlierChunksStay(groups, more, c + 1, max, overlap);
    assert groups[c] == groups[..c + 1][c] && more[c] == more[..c + 1][c];
    assert c > 0 ==> groups[c - 1] == groups[..c + 1][c - 1] && more[c - 1] == more[..c + 1][c - 1];
  }

  lemma {:induction false} FullStays(
      groups: seq<seq<string>>, more: seq<seq<string>>, c: nat, max: nat, overlap: nat)
    requires c + 1 < |groups| && c + 1 < |more| && groups[..c + 1] == more[..c + 1]
    requires groups[c + 1] != [] && more[c + 1] != [] && groups[c + 1][0] == more[c + 1][0]
    requires Full(groups, c, max, overlap)
    ensures Full(more, c, max, overlap)
  {
    EarlierChunksStay(groups, more, c + 1, max, overlap);
  }

  lemma {:induction false} LastChunkGrows(groups: seq<seq<string>>, item: string, max: nat, overlap: nat)
    requires groups != []
    ensures var more, n := Grow(groups, item), |groups| - 1;
            && PrefixOf(more, n, overlap) == PrefixOf(groups, n, overlap)
            && ChunkText(more, n, overlap) == Glue(ChunkText(groups, n, overlap), item)
            && Before(more, n, overlap) == ChunkText(groups, n, overlap)
  {
    var more, n := Grow(groups, item), |groups| - 1;
    EarlierChunksStay(groups, more, n, max, overlap);
    assert more[n][..|more[n]| - 1] == groups[n];
  }

  lemma {:induction false} GrowthFits(groups: seq<seq<string>>, item: string, max: nat, overlap: nat)
    requires groups != [] && AllFit(groups, max, overlap)
    requires var last := ChunkText(groups, |groups| - 1, overlap); last == [] || |Glue(last, item)| <= max
    ensures AllFit(Grow(groups, item), max, overlap)
  {
    var more, n := Grow(groups, item), |groups| - 1;
    LastChunkGrows(groups, item, max, overlap);
    forall c | 0 <= c < |more| ensures Fits(more, c, max, overlap) {
      if c < n {
        assert Fits(groups, c, max, overlap);
        FitsStays(groups, more, c, max, overlap);
      }
    }
  }

  lemma {:induction false} GrowthIsFullAt(groups: seq<seq<string>>, item: string, max: nat, overlap: nat, c: nat)
    requires c + 1 < |groups| && Full(groups, c, max, overlap)
    ensures Full(Grow(groups, item), c, max, overlap)
  {
    var more := Grow(groups, item);
    assert more[c + 1] != [] && more[c + 1][0] == groups[c + 1][0];
    assert groups[..c + 1] == more[..c + 1];
    FullStays(groups, more, c, max, overlap);
  }

  lemma {:induction false} GrowthIsFull(groups: seq<seq<string>>, item: string, max: nat, overlap: nat)
    requires groups != [] && AllFull(groups, max, overlap)
    ensures AllFull(Grow(groups, item), max, overlap)
  {
    forall c | 0 <= c < |groups| - 1 ensures Full(Grow(groups, item), c, max, overlap) {
      assert Full(groups, c, max, overlap);
      GrowthIsFullAt(groups, item, max, overlap, c);
    }
  }

  lemma {:induction false} ChunkGrows(
      items: seq<string>, groups: seq<seq<string>>, item: string, max: nat, overlap: nat)
    requires Chunked(items, groups, max, overlap) && groups != []
    requires var last := ChunkText(groups, |groups| - 1, overlap); last == [] || |Glue(last, item)| <= max
    ensures Chunked(items + [item], Grow(groups, item), max, overlap)
    ensures ChunkText(Grow(groups, item), |groups| - 1, overlap) ==
            Glue(ChunkText(groups, |groups| - 1, overlap), item)
  {
    FlattenGrow(groups, item);
    LastChunkGrows(groups, item, max, overlap);
    GrowthFits(groups, item, max, overlap);
    GrowthIsFull(groups, item, max, overlap);
  }

  lemma {:induction false} NewChunk(groups: seq<seq<string>>, item: string, max: nat, overlap: nat)
    ensures var more, n := groups + [[item]], |groups|;
            && ChunkText(more, n, overlap) == Glue(PrefixOf(groups, n, overlap), item)
            && (n > 0 ==> ChunkText(more, n - 1, overlap) == ChunkText(groups, n - 1, overlap))
  {
    var more, n := groups + [[item]], |groups|;
    EarlierChunksStay(groups, more, n, max, overlap);
    assert more[n][..|more[n]| - 1] == [];
    assert GlueAll(PrefixOf(more, n, overlap), []) == PrefixOf(groups, n, overlap);
  }

  lemma {:induction false} NewChunkFits(groups: seq<seq<string>>, item: string, max: nat, overlap: nat)
    requires AllFit(groups, max, overlap)
    ensures AllFit(groups + [[item]], max, overlap)
  {
    var more := groups + [[item]];
    forall c | 0 <= c < |more| ensures Fits(more, c, max, overlap) {
      if c < |groups| {
        assert Fits(groups, c, max, overlap);
        FitsStays(groups, more, c, max, overlap);
      }
    }
  }

  lemma {:induction false} NewChunkIsFullAt(groups: seq<seq<string>>, item: string, max: nat, overlap: nat, c: nat)
    requires c + 1 < |groups| && Full(groups, c, max, overlap)
    ensures Full(groups + [[item]], c, max, overlap)
  {
    var more := groups + [[item]];
    assert more[c + 1] == groups[c + 1];
    assert groups[..c + 1] == more[..c + 1];
    FullStays(groups, more, c, max, overlap);
  }

  lemma {:induction false} NewChunkClosesTheLast(groups: seq<seq<string>>, item: string, max: nat, overlap: nat)
    requires groups != []
    requires var last := ChunkText(groups, |groups| - 1, overlap); last != [] && |Glue(last, item)| > max
    ensures Full(groups + [[item]], |groups| - 1, max, overlap)
  {
    NewChunk(groups, item, max, overlap);
  }

  lemma {:induction false} FullUpToTheLast(
      groups: seq<seq<string>>, more: seq<seq<string>>, item: string, max: nat, overlap: nat, c: nat)
    requires more == groups + [[item]] && c < |groups|
    requires c + 1 < |groups| ==> Full(groups, c, max, overlap)
    requires c + 1 == |groups| ==>
               var last := ChunkText(groups, c, overlap); last != [] && |Glue(last, item)| > max
    ensures Full(more, c, max, overlap)
  {
    if c + 1 < |groups| {
      NewChunkIsFullAt(groups, item, max, overlap, c);
    } else {
      NewChunkClosesTheLast(groups, item, max, overlap);
    }
  }

  lemma {:induction false} NewChunkIsFull(
      groups: seq<seq<string>>, more: seq<seq<string>>, item: string, max: nat, overlap: nat)
    requires more == groups + [[item]] && AllFull(groups, max, overlap)
    requires groups != [] ==>
               var last := ChunkText(groups, |groups| - 1, overlap); last != [] && |Glue(last, item)| > max
    ensures AllFull(more, max, overlap)
  {
    forall c | 0 <= c < |more| - 1 ensures Full(more, c, max, overlap) {
      assert c + 1 < |groups| ==> Full(groups, c, max, overlap);
      FullUpToTheLast(groups, more, item, max, overlap, c);
    }
  }

  lemma {:induction false} ChunkStarts(
      items: seq<string>, groups: seq<seq<string>>, item: string, max: nat, overlap: nat)
    requires Chunked(items, groups, max, overlap)
    requires groups != [] ==>
               var last := ChunkText(groups, |groups| - 1, overlap); last != [] && |Glue(last, item)| > max
    ensures Chunked(items + [item], groups + [[item]], max, overlap)
    ensures ChunkText(groups + [[item]], |groups|, overlap) == Glue(PrefixOf(groups, |groups|, overlap), item)
  {
    FlattenGrow(groups, item);
    NewChunk(groups, item, max, overlap);
    NewChunkFits(groups, item, max, overlap);
    NewChunkIsFull(groups, groups + [[item]], item, max, overlap);
  }

  function ChunkTexts(groups: seq<seq<string>>, n: nat, overlap: nat): seq<string>
    requires n <= |groups|
  {
    seq(n, c requires 0 <= c < n => ChunkText(groups, c, overlap))
  }

  /** All chunks, without the last one when it is blank. */
  function KeptTexts(groups: seq<seq<string>>, overlap: nat): seq<string> {
    var n := |groups|;
    if n > 0 && Trim(ChunkText(groups, n - 1, overlap)) == [] then ChunkTexts(groups, n - 1, overlap)
    else ChunkTexts(groups, n, overlap)
  }

  lemma {:induction false} ChunkTextsStay(
      groups: seq<seq<string>>, more: seq<seq<string>>, n: nat, max: nat, overlap: nat)
    requires n <= |groups| && n <= |more| && groups[..n] == more[..n]
    ensures ChunkTexts(groups, n, overlap) == ChunkTexts(more, n, overlap)
  {
    EarlierChunksStay(groups, more, n, max, overlap);
  }

  /** What the loop keeps: the closed chunks, the open one, and the item read last. */
  ghost predicate Tracks(
      items: seq<string>, groups: seq<seq<string>>, max: nat, overlap: nat,
      chunks: seq<string>, current: string, lastItem: string)
  {
    && Chunked(items, groups, max, overlap)
    && if groups == [] then chunks == [] && current == []
       else
         && Last(groups) != [] && lastItem == Last(Last(groups))
         && current == ChunkText(groups, |groups| - 1, overlap)
         && chunks == ChunkTexts(groups, |groups| - 1, overlap)
  }

  lemma {:induction false} NothingIsChunked(items: seq<string>, groups: seq<seq<string>>, max: nat, overlap: nat)
    requires items == [] && groups == []
    ensures Chunked(items, groups, max, overlap)
  {
  }

  lemma {:induction false} TracksFrom(
      items: seq<string>, groups: seq<seq<string>>, max: nat, overlap: nat, item: string)
    requires items == [] && groups == []
    ensures Tracks(items + [item], groups + [[item]], max, overlap, [], item, item)
  {
    NothingIsChunked(items, groups, max, overlap);
    ChunkStarts(items, groups, item, max, overlap);
  }

  lemma {:induction false} TracksFirst(max: nat, overlap: nat, item: string)
    ensures Tracks([item], [[item]], max, overlap, [], item, item)
  {
    TracksFrom([], [], max, overlap, item);
    assert [] + [item] == [item] && [] + [[item]] == [[item]];
  }

  lemma {:induction false} CloseChunk(groups: seq<seq<string>>, item: string, max: nat, overlap: nat)
    requires groups != []
    ensures ChunkTexts(groups + [[item]], |groups|, overlap) ==
            ChunkTexts(groups, |groups| - 1, overlap) + [ChunkText(groups, |groups| - 1, overlap)]
    ensures Last(groups + [[item]]) == [item] && Last([item]) == item
  {
    ChunkTextsStay(groups, groups + [[item]], |groups|, max, overlap);
  }

  lemma {:induction false} TracksStart(
      items: seq<string>, groups: seq<seq<string>>, max: nat, overlap: nat,
      chunks: seq<string>, current: string, lastItem: string, item: string)
    requires Tracks(items, groups, max, overlap, chunks, current, lastItem)
    requires current != [] && |Glue(current, item)| > max
    ensures Tracks(items + [item], groups + [[item]], max, overlap,
              chunks + [current], Glue(OverlapPrefix(lastItem, overlap), item), item)
  {
    ChunkStarts(items, groups, item, max, overlap);
    CloseChunk(groups, item, max, overlap);
  }

  lemma {:induction false} ClosedChunksStay(groups: seq<seq<string>>, item: string, max: nat, overlap: nat)
    requires groups != []
    ensures var more, n := Grow(groups, item), |groups| - 1;
            && |more| == |groups| && Last(more) != [] && Last(Last(more)) == item
            && ChunkTexts(more, n, overlap) == ChunkTexts(groups, n, overlap)
  {
    ChunkTextsStay(groups, Grow(groups, item), |groups| - 1, max, overlap);
  }

  lemma {:induction false} TracksGrow(
      items: seq<string>, groups: seq<seq<string>>, max: nat, overlap: nat,
      chunks: seq<string>, current: string, lastItem: string, item: string)
    requires Tracks(items, groups, max, overlap, chunks, current, lastItem) && groups != []
    requires current == [] || |Glue(current, item)| <= max
    ensures Tracks(items + [item], Grow(groups, item), max, overlap, chunks, Glue(current, item), item)
  {
    ChunkGrows(items, groups, item, max, overlap);
    ClosedChunksStay(groups, item, max, overlap);
  }

  lemma {:induction false} LastIsKeptUnlessBlank(
      groups: seq<seq<string>>, overlap: nat, chunks: seq<string>, current: string)
    requires groups == [] ==> chunks == [] && current == []
    requires groups != [] ==>
               && current == ChunkText(groups, |groups| - 1, overlap)
               && chunks == ChunkTexts(groups, |groups| - 1, overlap)
    ensures KeptTexts(groups, overlap) == if Trim(current) == [] then chunks else chunks + [current]
  {
    if groups != [] {
      assert ChunkTexts(groups, |groups|, overlap) == chunks + [current];
    } else {
      TrimmedAway(current);
    }
  }

  ghost predicate AreChunks(items: seq<string>, chunks: seq<string>, max: nat, overlap: nat) {
    exists groups :: Chunked(items, groups, max, overlap) && chunks == KeptTexts(groups, overlap)
  }

  method SplitItems(items: seq<string>, max: nat, overlap: nat) returns (chunks: seq<string>)
    ensures AreChunks(items, chunks, max, overlap)
  {
    chunks := [];
    ghost var groups: seq<seq<string>> := [];
    var current, lastItem := "", "";
    for i := 0 to |items|
      invariant Tracks(items[..i], groups, max, overlap, chunks, current, lastItem)
    {
      var item := items[i];
      assert items[..i + 1] == items[..i] + [item];
      if current != [] && |Glue(current, item)| > max {
        TracksStart(items[..i], groups, max, overlap, chunks, current, lastItem, item);
        groups := groups + [[item]];
        chunks := chunks + [current];
        current := OverlapPrefix(lastItem, overlap);
      } else if groups == [] {
        TracksFirst(max, overlap, item);
        groups := [[item]];
      } else {
        TracksGrow(items[..i], groups, max, overlap, chunks, current, lastItem, item);
        groups := Grow(groups, item);
      }
      current := Glue(current, item);
      lastItem := item;
    }
    assert items[..|items|] == items;
    LastIsKeptUnlessBlank(groups, overlap, chunks, current);
    if Trim(current) != [] {
      chunks := chunks + [current];
    }
    assert Chunked(items, groups, max, overlap) && chunks == KeptTexts(groups, overlap);
  }

  // ---------------------------------------------------------------- theorems

  lemma {:induction false} GlueAllGrows(prefix: string, items: seq<string>)
    requires items != [] && items[0] != []
    ensures |GlueAll(prefix, items)| >= |Glue(prefix, items[0])| > 0
    decreases |items|
  {
    var n := |items| - 1;
    if n == 0 {
      assert items[..n] == [] && GlueAll(prefix, []) == prefix;
    } else {
      GlueAllGrows(prefix, items[..n]);
    }
  }

  /** A chunk of a list is too long exactly when its overlap and its first item are. */
  lemma {:induction false} OnlyAnOpeningExceeds(
      items: seq<string>, groups: seq<seq<string>>, max: nat, overlap: nat, c: nat)
    requires Chunked(items, groups, max, overlap) && c < |groups| && groups[c] != [] && groups[c][0] != []
    ensures |ChunkText(groups, c, overlap)| <= max <==>
            |Glue(PrefixOf(groups, c, overlap), groups[c][0])| <= max
  {
    var prefix, group := PrefixOf(groups, c, overlap), groups[c];
    assert Fits(groups, c, max, overlap);
    GlueAllGrows(prefix, group);
    if |group| > 1 {
      GlueAllGrows(prefix, group[..|group| - 1]);
    } else {
      assert group[..0] == [] && GlueAll(prefix, []) == prefix;
    }
  }

  // ---------------------------------------------------------------- when every chunk fits

  /** What a caller can look up in the items: each fits after the end of the item before it. */
  predicate ItemsFit(items: seq<string>, max: nat, overlap: nat) {
    && (items != [] ==> |items[0]| <= max)
    && (forall k {:trigger NextFits(items, k, max, overlap)} ::
          0 <= k < |items| - 1 ==> NextFits(items, k, max, overlap))
  }

  predicate NextFits(items: seq<string>, k: nat, max: nat, overlap: nat)
    requires k + 1 < |items|
  {
    |Glue(OverlapPrefix(items[k], overlap), items[k + 1])| <= max
  }

  ghost predicate AllInked(items: seq<string>) {
    forall k :: 0 <= k < |items| ==> items[k] != []
  }

  /** The first item of a chunk after the first follows the last item of the chunk before it. */
  lemma {:induction false} OpeningFollows(items: seq<string>, groups: seq<seq<string>>, c: nat)
    requires Flatten(groups) == items && c + 1 < |groups| && groups[c] != [] && groups[c + 1] != []
    ensures var k := Place(groups, c + 1, 0);
            && 0 < k < |items| && items[k - 1] == Last(groups[c]) && items[k] == groups[c + 1][0]
  {
    PlaceOfNext(groups, c);
    FlattenAt(groups, c, |groups[c]| - 1);
    FlattenAt(groups, c + 1, 0);
  }

  lemma {:induction false} ChunkOpening(
      items: seq<string>, groups: seq<seq<string>>, max: nat, overlap: nat, c: nat)
    requires Flatten(groups) == items && ItemsFit(items, max, overlap) && c < |groups| && groups[c] != []
    requires c > 0 ==> groups[c - 1] != []
    ensures |Glue(PrefixOf(groups, c, overlap), groups[c][0])| <= max
  {
    FlattenAt(groups, c, 0);
    if c > 0 {
      OpeningFollows(items, groups, c - 1);
      assert NextFits(items, Place(groups, c, 0) - 1, max, overlap);
    }
  }

  lemma {:induction false} GroupItemsInked(items: seq<string>, groups: seq<seq<string>>, c: nat, j: nat)
    requires Flatten(groups) == items && AllInked(items) && c < |groups| && j < |groups[c]|
    ensures groups[c][j] != []
  {
    FlattenAt(groups, c, j);
  }

  /** Gluing more items on never shortens a text, and two neighbours keep a line each. */
  lemma {:induction false} GlueAllHolds(prefix: string, group: seq<string>, j: nat)
    requires j < |group| && group[j] != []
    ensures |GlueAll(prefix, group)| >= |group[j]|
    ensures j + 1 < |group| ==> |GlueAll(prefix, group)| >= |group[j]| + 1 + |group[j + 1]|
    decreases |group|
  {
    if j + 1 < |group| {
      GlueAllHolds(prefix, group[..|group| - 1], j);
    }
  }

  lemma {:induction false} GlueSize(a: string, b: string, overlap: nat)
    ensures |Glue(OverlapPrefix(a, overlap), b)| <= |a| + 1 + |b|
  {
  }

  lemma {:induction false} NeighboursInAChunk(
      groups: seq<seq<string>>, max: nat, overlap: nat, c: nat, j: nat)
    requires c < |groups| && j + 1 < |groups[c]| && groups[c][j] != []
    requires |ChunkText(groups, c, overlap)| <= max
    ensures |Glue(OverlapPrefix(groups[c][j], overlap), groups[c][j + 1])| <= max
  {
    GlueAllHolds(PrefixOf(groups, c, overlap), groups[c], j);
    GlueSize(groups[c][j], groups[c][j + 1], overlap);
  }

  lemma {:induction false} NeighboursAcrossChunks(groups: seq<seq<string>>, max: nat, overlap: nat, c: nat)
    requires c + 1 < |groups| && groups[c] != [] && groups[c + 1] != [] && groups[c + 1][0] != []
    requires |ChunkText(groups, c + 1, overlap)| <= max
    ensures |Glue(OverlapPrefix(Last(groups[c]), overlap), groups[c + 1][0])| <= max
  {
    GlueAllGrows(PrefixOf(groups, c + 1, overlap), groups[c + 1]);
  }

  lemma {:induction false} FoundInside(groups: seq<seq<string>>, c: nat, j: nat, k: nat)
    requires c < |groups| && j + 1 < |groups[c]| && k == Place(groups, c, j)
    ensures var items := Flatten(groups);
            k + 1 < |items| && items[k] == groups[c][j] && items[k + 1] == groups[c][j + 1]
  {
    FlattenAt(groups, c, j);
    FlattenAt(groups, c, j + 1);
  }

  lemma {:induction false} NextFitsWhen(items: seq<string>, k: nat, a: string, b: string, max: nat, overlap: nat)
    requires k + 1 < |items| && items[k] == a && items[k + 1] == b && |Glue(OverlapPrefix(a, overlap), b)| <= max
    ensures NextFits(items, k, max, overlap)
  {
  }

  lemma {:induction false} NeighbourFitsInside(groups: seq<seq<string>>, max: nat, overlap: nat, c: nat, j: nat, k: nat)
    requires c < |groups| && j + 1 < |groups[c]| && k == Place(groups, c, j) && groups[c][j] != []
    requires |ChunkText(groups, c, overlap)| <= max
    ensures k + 1 < |Flatten(groups)| && NextFits(Flatten(groups), k, max, overlap)
  {
    FoundInside(groups, c, j, k);
    NeighboursInAChunk(groups, max, overlap, c, j);
    NextFitsWhen(Flatten(groups), k, groups[c][j], groups[c][j + 1], max, overlap);
  }

  lemma {:induction false} NeighbourFitsAcross(groups: seq<seq<string>>, max: nat, overlap: nat, c: nat, k: nat)
    requires c + 1 < |groups| && groups[c] != [] && groups[c + 1] != [] && groups[c + 1][0] != []
    requires k + 1 == Place(groups, c + 1, 0) && |ChunkText(groups, c + 1, overlap)| <= max
    ensures k + 1 < |Flatten(groups)| && NextFits(Flatten(groups), k, max, overlap)
  {
    OpeningFollows(Flatten(groups), groups, c);
    NeighboursAcrossChunks(groups, max, overlap, c);
    NextFitsWhen(Flatten(groups), k, Last(groups[c]), groups[c + 1][0], max, overlap);
  }

  ghost predicate ChunksFit(groups: seq<seq<string>>, max: nat, overlap: nat) {
    forall c {:trigger ChunkText(groups, c, overlap)} :: 0 <= c < |groups| ==> |ChunkText(groups, c, overlap)| <= max
  }

  /** Two items next to each other are in one chunk, or the later one opens a chunk. */
  lemma {:induction false} NeighbourFits(items: seq<string>, groups: seq<seq<string>>, max: nat, overlap: nat, k: nat)
    requires Flatten(groups) == items && AllInked(items) && k + 1 < |items| && AllFit(groups, max, overlap)
    requires ChunksFit(groups, max, overlap)
    ensures NextFits(items, k, max, overlap)
  {
    var c, j := FlattenFind(groups, k + 1);
    assert |ChunkText(groups, c, overlap)| <= max;
    if j > 0 {
      PlaceOfPrevious(groups, c, j);
      GroupItemsInked(items, groups, c, j - 1);
      NeighbourFitsInside(groups, max, overlap, c, j - 1, k);
    } else {
      PlaceOfFirst(groups, j);
      GroupItemsInked(items, groups, c, 0);
      assert Fits(groups, c - 1, max, overlap);
      NeighbourFitsAcross(groups, max, overlap, c - 1, k);
    }
  }

  lemma {:induction false} FittingItemsFitChunks(
      items: seq<string>, groups: seq<seq<string>>, max: nat, overlap: nat, c: nat)
    requires Chunked(items, groups, max, overlap) && AllInked(items) && ItemsFit(items, max, overlap) && c < |groups|
    ensures |ChunkText(groups, c, overlap)| <= max
  {
    assert Fits(groups, c, max, overlap) && (c > 0 ==> Fits(groups, c - 1, max, overlap));
    ChunkOpening(items, groups, max, overlap, c);
    GroupItemsInked(items, groups, c, 0);
    OnlyAnOpeningExceeds(items, groups, max, overlap, c);
  }

  lemma {:induction false} GroupsFitIff(items: seq<string>, groups: seq<seq<string>>, max: nat, overlap: nat)
    requires Chunked(items, groups, max, overlap) && AllInked(items)
    ensures ChunksFit(groups, max, overlap) <==> ItemsFit(items, max, overlap)
  {
    if ItemsFit(items, max, overlap) {
      forall c | 0 <= c < |groups| ensures |ChunkText(groups, c, overlap)| <= max {
        FittingItemsFitChunks(items, groups, max, overlap, c);
      }
    }
    if ChunksFit(groups, max, overlap) {
      forall k | 0 <= k < |items| - 1 ensures NextFits(items, k, max, overlap) {
        NeighbourFits(items, groups, max, overlap, k);
      }
      if items != [] {
        FirstItemFits(items, groups, max, overlap);
      }
    }
  }

  lemma {:induction false} FirstItemFits(items: seq<string>, groups: seq<seq<string>>, max: nat, overlap: nat)
    requires Chunked(items, groups, max, overlap) && AllInked(items) && items != []
    requires ChunksFit(groups, max, overlap)
    ensures |items[0]| <= max
  {
    assert groups != [];
    assert Fits(groups, 0, max, overlap);
    FlattenAt(groups, 0, 0);
    GlueAllGrows(PrefixOf(groups, 0, overlap), groups[0]);
    assert |ChunkText(groups, 0, overlap)| <= max;
  }

  ghost predicate AllVisible(items: seq<string>) {
    forall k :: 0 <= k < |items| ==> !IsBlank(items[k])
  }

  /**
   All chunks of a list are within the limit exactly when its first item is and every other
   item fits after the end of the item before it.
   */
  lemma {:induction false} ListFitsIff(items: seq<string>, chunks: seq<string>, max: nat, overlap: nat)
    requires AreChunks(items, chunks, max, overlap) && AllVisible(items)
    ensures (forall c :: 0 <= c < |chunks| ==> |chunks[c]| <= max) <==> ItemsFit(items, max, overlap)
  {
    var groups :| Chunked(items, groups, max, overlap) && chunks == KeptTexts(groups, overlap);
    GroupsFitIff(items, groups, max, overlap);
    AllChunksAreKept(items, groups, max, overlap);
    forall c | 0 <= c < |groups| ensures chunks[c] == ChunkText(groups, c, overlap) { }
  }

  lemma {:induction false} AllChunksAreKept(items: seq<string>, groups: seq<seq<string>>, max: nat, overlap: nat)
    requires Chunked(items, groups, max, overlap) && AllVisible(items)
    ensures KeptTexts(groups, overlap) == ChunkTexts(groups, |groups|, overlap)
  {
    if groups != [] {
      var c := |groups| - 1;
      assert Fits(groups, c, max, overlap);
      FlattenAt(groups, c, |groups[c]| - 1);
      NothingIsDropped(groups, overlap);
    }
  }

  lemma {:induction false} TwoItemsApart(a: string, b: string, second: string, max: nat, overlap: nat)
    requires !IsBlank(a) && !IsBlank(b) && |a| + 1 + |b| > max && a != []
    requires second == Glue(OverlapPrefix(a, overlap), b)
    ensures AreChunks([a, b], [a, second], max, overlap)
  {
    var groups := [[a], [b]];
    TracksFirst(max, overlap, a);
    TracksStart([a], [[a]], max, overlap, [], a, a, b);
    assert [a] + [b] == [a, b] && [[a]] + [[b]] == groups;
    assert [] + [a] == [a] && [a] + [second] == [a, second];
    LastIsKeptUnlessBlank(groups, overlap, [a], second);
    VisibleEnd(OverlapPrefix(a, overlap), b);
  }

  lemma {:induction false} VisibleEnd(a: string, b: string)
    requires !IsBlank(b)
    ensures Trim(Glue(a, b)) != []
  {
    var c :| c in b && !IsSpace(c);
    assert c in Glue(a, b);
    TrimmedAway(Glue(a, b));
  }

  lemma {:induction false} SmallItemsApart(a: string, b: string, second: string, max: nat, overlap: nat)
    requires |a| == |b| == max == 3 && overlap == 2 && !IsSpace(a[2]) && !IsSpace(b[2])
    requires second == [a[1], a[2], '\n'] + b
    ensures AreChunks([a, b], [a, second], max, overlap)
  {
    assert a[2] in a && b[2] in b;
    assert OverlapPrefix(a, overlap) == [a[1], a[2]];
    assert second == Glue([a[1], a[2]], b);
    TwoItemsApart(a, b, second, max, overlap);
  }

  /** Two items of three characters, limit 3 and overlap 2: the second chunk has six characters. */
  lemma {:induction false} OverlapExceedsTheLimit()
    ensures AreChunks(["- a", "- b"], ["- a", " a\n- b"], 3, 2)
  {
    assert !IsSpace('a') && !IsSpace('b');
    assert [' ', 'a', '\n'] + "- b" == " a\n- b";
    SmallItemsApart("- a", "- b", " a\n- b", 3, 2);
  }

  /** Neighbouring chunks share the end of the item between them. */
  lemma {:induction false} ListNeighboursShare(
      items: seq<string>, groups: seq<seq<string>>, max: nat, overlap: nat, c: nat)
    requires Chunked(items, groups, max, overlap) && c + 1 < |groups|
    ensures var shared := PrefixOf(groups, c + 1, overlap);
            && EndsWith(ChunkText(groups, c, overlap), shared)
            && StartsWith(ChunkText(groups, c + 1, overlap), shared)
            && |shared| == (if overlap < |LastItem(groups, c)| then overlap else |LastItem(groups, c)|)
  {
    assert Fits(groups, c, max, overlap) && Fits(groups, c + 1, max, overlap);
    StartsWithPrefix(PrefixOf(groups, c + 1, overlap), groups[c + 1]);
  }

  function LastItem(groups: seq<seq<string>>, c: nat): string
    requires c < |groups|
  {
    if groups[c] == [] then [] else Last(groups[c])
  }

  lemma {:induction false} StartsWithPrefix(prefix: string, items: seq<string>)
    ensures prefix <= GlueAll(prefix, items)
    decreases |items|
  {
    if items != [] {
      StartsWithPrefix(prefix, items[..|items| - 1]);
    }
  }

  /** A last item with something on it keeps its chunk. */
  lemma {:induction false} NothingIsDropped(groups: seq<seq<string>>, overlap: nat)
    requires groups != [] && Last(groups) != [] && !IsBlank(Last(Last(groups)))
    ensures KeptTexts(groups, overlap) == ChunkTexts(groups, |groups|, overlap)
  {
    var text, item := ChunkText(groups, |groups| - 1, overlap), Last(Last(groups));
    TrimmedAway(text);
    var c :| c in item && !IsSpace(c);
    assert c in text;
  }
}
