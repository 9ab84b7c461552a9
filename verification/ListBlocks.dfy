/** What the parser's list blocks hold, and when all chunks of an oversized list fit. */
module ListBlocks {
  import opened Text
  import opened Sequences
  import opened MarkdownLines
  import opened MarkdownBlocks
  import opened ListChunks
  import opened TextPieces
  import opened DocumentChunks

  lemma {:induction false} LinesHaveNoBreak(s: string, k: nat)
    requires k < |Lines(s)|
    ensures '\n' !in Lines(s)[k]
    decreases |s|
  {
    var n := LineEnd(s);
    if n < |s| && k > 0 {
      LinesHaveNoBreak(s[n + 1..], k - 1);
    }
  }

  lemma {:induction false} JoinStarts(texts: seq<string>, br: string)
    requires texts != []
    ensures texts[0] <= Join(texts, br)
    decreases |texts|
  {
    if |texts| > 1 {
      JoinStarts(texts[..|texts| - 1], br);
    }
  }

  ghost predicate InkAt(s: string, i: nat) {
    i < |s| && !IsSpace(s[i])
  }

  lemma {:induction false} VisibleIff(s: string)
    ensures !IsBlank(s) <==> exists i :: InkAt(s, i)
  {
    if !IsBlank(s) {
      var c :| c in s && !IsSpace(c);
      var i :| 0 <= i < |s| && s[i] == c;
      assert InkAt(s, i);
    }
  }

  lemma {:induction false} InkSurvivesTrimming(s: string, i: nat)
    requires InkAt(s, i)
    ensures InkAt(TrimEnd(s), i)
  {
  }

  lemma {:induction false} FirstLineHasInk(s: string, i: nat)
    requires InkAt(s, i) && forall j :: 0 <= j <= i ==> s[j] != '\n'
    ensures Lines(s) != [] && InkAt(Lines(s)[0], i)
  {
    var n := LineEnd(s);
    assert i < n;
    assert !IsSpace(s[i]) && IsSpace('\r');
  }

  /** The text of a block begins with a visible line when its first line is visible. */
  lemma {:induction false} BlockTextStartsVisible(texts: seq<string>, br: string)
    requires texts != [] && !IsBlank(texts[0]) && '\n' !in texts[0]
    ensures Lines(TrimEnd(Join(texts, br))) != [] && !IsBlank(Lines(TrimEnd(Join(texts, br)))[0])
  {
    var whole := Join(texts, br);
    JoinStarts(texts, br);
    VisibleIff(texts[0]);
    var i :| InkAt(texts[0], i);
    assert InkAt(whole, i);
    InkSurvivesTrimming(whole, i);
    var text := TrimEnd(whole);
    forall j | 0 <= j <= i ensures text[j] != '\n' {
      assert text[j] == whole[j] == texts[0][j];
    }
    FirstLineHasInk(text, i);
    VisibleIff(Lines(text)[0]);
  }

  lemma {:induction false} ItemStartsVisible(part: seq<Line>)
    requires part != [] && !IsBlank(part[0].text)
    ensures !IsBlank(ItemText(part))
  {
    VisibleIff(part[0].text);
    var i :| InkAt(part[0].text, i);
    JoinStarts(Texts(part), "\n");
    assert InkAt(ItemText(part), i);
    VisibleIff(ItemText(part));
  }

  lemma {:induction false} MarkersAreVisible(text: string)
    requires Look(text).marker
    ensures !IsBlank(text)
  {
    assert TrimStart(text) != [];
  }

  /** All items of a text whose first line is visible are visible. */
  lemma {:induction false} ItemsAreVisible(texts: seq<string>, items: seq<string>)
    requires AreItems(LookAll(texts), items) && texts != [] && !IsBlank(texts[0])
    ensures AllVisible(items)
  {
    var parts :| Itemized(LookAll(texts), parts) && items == ItemTexts(parts);
    forall p | 0 <= p < |parts| ensures !IsBlank(items[p]) {
      assert IsItem(parts, p);
      FlattenAt(parts, p, 0);
      var k := Place(parts, p, 0);
      assert LookAll(texts)[k] == parts[p][0];
      assert parts[p][0] == Look(texts[k]);
      if p > 0 {
        MarkersAreVisible(texts[k]);
      }
      ItemStartsVisible(parts[p]);
    }
  }

  lemma {:induction false} BlockStartsVisible(lines: seq<Line>, span: Span, texts: seq<string>)
    requires lines == LookAll(texts) && IsBlock(lines, span) && '\n' !in texts[span.start]
    ensures var own := Lines(SpanText(lines, span)); own != [] && !IsBlank(own[0])
  {
    var own := Texts(lines[span.start..span.end]);
    assert own[0] == lines[span.start].text == texts[span.start];
    TrimmedAway(texts[span.start]);
    BlockTextStartsVisible(own, "\n");
  }

  /** Every item of a list that the parser found has something on it. */
  lemma {:induction false} ParsedItemsAreVisible(input: string, blocks: seq<Block>, n: nat, items: seq<string>)
    requires IsParse(LookAll(Lines(input)), blocks) && n < |blocks|
    requires AreItems(LookAll(Lines(blocks[n].text)), items)
    ensures AllVisible(items)
  {
    var lines := LookAll(Lines(input));
    var spans: seq<Span> :| Segmented(lines, spans, |lines|) && Described(lines, spans, blocks);
    assert Describes(lines, spans, n, blocks[n]);
    LinesHaveNoBreak(input, spans[n].start);
    BlockStartsVisible(lines, spans[n], Lines(input));
    ItemsAreVisible(Lines(blocks[n].text), items);
  }

  lemma {:induction false} ItemTextsAreUnique(lines: seq<Line>, a: seq<string>, b: seq<string>)
    requires AreItems(lines, a) && AreItems(lines, b)
    ensures a == b
  {
    var p :| Itemized(lines, p) && a == ItemTexts(p);
    var q :| Itemized(lines, q) && b == ItemTexts(q);
    ItemsAreUnique(lines, p, q);
  }

  ghost predicate AllWithin(drafts: seq<Draft>, max: nat) {
    forall c :: 0 <= c < |drafts| ==> |drafts[c].text| <= max
  }

  lemma {:induction false} TextDraftsFit(block: Block, max: nat, overlap: nat)
    requires overlap < max
    ensures AllWithin(TextDrafts(block, max, overlap), max)
  {
    forall c | 0 <= c < |TextDrafts(block, max, overlap)|
      ensures |TextDrafts(block, max, overlap)[c].text| <= max
    {
      PiecesFit(block.text, max, overlap, c);
    }
  }

  lemma {:induction false} ListDraftsFitIff(
      block: Block, items: seq<string>, drafts: seq<Draft>, max: nat, overlap: nat)
    requires overlap < max && SplitsAt(block, items, drafts, max, overlap) && AllVisible(items) && |items| > 1
    ensures AllWithin(drafts, max) <==> ItemsFit(items, max, overlap)
  {
    var texts :| AreChunks(items, texts, max, overlap) && drafts == ListDrafts(block, texts);
    ListFitsIff(items, texts, max, overlap);
    assert forall c :: 0 <= c < |drafts| ==> drafts[c].text == texts[c];
  }

  /**
   The drafts of an oversized list are all within the limit exactly when it has a single item,
   which is cut as text, or its first item is within the limit and every other item fits
   after the end of the item before it.
   */
  lemma {:induction false} ListBlockFitsIff(
      input: string, blocks: seq<Block>, n: nat, items: seq<string>, drafts: seq<Draft>, max: nat, overlap: nat)
    requires IsParse(LookAll(Lines(input)), blocks) && n < |blocks| && blocks[n].kind == ListKind
    requires AreItems(LookAll(Lines(blocks[n].text)), items)
    requires overlap < max && Splits(blocks[n], drafts, max, overlap)
    ensures AllWithin(drafts, max) <==> |items| <= 1 || ItemsFit(items, max, overlap)
  {
    var lines := LookAll(Lines(blocks[n].text));
    var own: seq<string> :| AreItems(lines, own) && SplitsAt(blocks[n], own, drafts, max, overlap);
    ItemTextsAreUnique(lines, own, items);
    if |items| <= 1 {
      TextDraftsFit(blocks[n], max, overlap);
    } else {
      ParsedItemsAreVisible(input, blocks, n, items);
      ListDraftsFitIff(blocks[n], items, drafts, max, overlap);
    }
  }
}
