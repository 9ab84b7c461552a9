/** The rules of the chunker leave no choice: a text has one chunking. */
module UniqueChunks {
  import opened Text
  import opened Sequences
  import opened MarkdownLines
  import opened MarkdownBlocks
  import opened ListChunks
  import opened DocumentChunks
  import opened ListBlocks

  // ---------------------------------------------------------------- chunks of a list

  lemma {:induction false} GlueNeverShortens(prefix: string, items: seq<string>, k: nat)
    requires k <= |items|
    ensures |GlueAll(prefix, items[..k])| <= |GlueAll(prefix, items)|
    decreases |items|
  {
    var n := |items| - 1;
    if k <= n {
      GlueNeverShortens(prefix, items[..n], k);
      assert items[..n][..k] == items[..k];
    } else {
      assert items[..k] == items;
    }
  }

  lemma {:induction false} GlueOneMore(prefix: string, items: seq<string>, k: nat)
    requires k < |items|
    ensures GlueAll(prefix, items[..k + 1]) == Glue(GlueAll(prefix, items[..k]), items[k])
  {
    var more := items[..k + 1];
    assert more[..|more| - 1] == items[..k] && Last(more) == items[k];
  }

  /** A group that holds another one and its next item would be too long. */
  lemma {:induction false} NoLongerGroup(prefix: string, long: seq<string>, k: nat, max: nat)
    requires 0 < k < |long| && GlueAll(prefix, long[..k]) != []
    requires |Glue(GlueAll(prefix, long[..k]), long[k])| > max
    ensures GlueAll(prefix, long[..|long| - 1]) != [] && |GlueAll(prefix, long)| > max
  {
    GlueOneMore(prefix, long, k);
    GlueNeverShortens(prefix, long, k + 1);
    GlueNeverShortens(prefix, long[..|long| - 1], k);
    assert long[..|long| - 1][..k] == long[..k];
  }

  lemma {:induction false} SamePlace(a: seq<seq<string>>, b: seq<seq<string>>, c: nat, j: nat)
    requires c <= |a| && c <= |b| && a[..c] == b[..c]
    ensures Place(a, c, j) == Place(b, c, j)
  {
  }

  /** A later group begins where the shorter one ends, with what the longer one goes on with. */
  lemma {:induction false} NextGroupBegins(a: seq<seq<string>>, b: seq<seq<string>>, c: nat)
    requires Flatten(a) == Flatten(b) && c < |a| && c < |b| && a[..c] == b[..c]
    requires |a[c]| < |b[c]| && (forall i :: 0 <= i < |a| ==> a[i] != [])
    ensures c + 1 < |a| && a[c + 1][0] == b[c][|a[c]|] && a[c] == b[c][..|a[c]|]
  {
    var n := |a[c]|;
    forall j | 0 <= j < n ensures a[c][j] == b[c][j] {
      FlattenAt(a, c, j);
      FlattenAt(b, c, j);
      SamePlace(a, b, c, j);
    }
    FlattenAt(b, c, n);
    SamePlace(a, b, c, n);
    PlaceOfNext(a, c);
    MoreGroups(a, c);
    FlattenAt(a, c + 1, 0);
  }

  lemma {:induction false} MoreGroups(a: seq<seq<string>>, c: nat)
    requires c < |a| && Place(a, c + 1, 0) < |Flatten(a)|
    ensures c + 1 < |a|
  {
    var all := a[..|a|];
    assert all == a;
  }

  lemma {:induction false} PrefixesAgree(a: seq<seq<string>>, b: seq<seq<string>>, c: nat, overlap: nat)
    requires c <= |a| && c <= |b| && a[..c] == b[..c]
    ensures PrefixOf(a, c, overlap) == PrefixOf(b, c, overlap)
  {
    if c > 0 {
      assert a[c - 1] == a[..c][c - 1] && b[c - 1] == b[..c][c - 1];
    }
  }

  lemma {:induction false} GroupIsNotLonger(
      items: seq<string>, a: seq<seq<string>>, b: seq<seq<string>>, max: nat, overlap: nat, c: nat)
    requires Chunked(items, a, max, overlap) && Chunked(items, b, max, overlap)
    requires c < |a| && c < |b| && a[..c] == b[..c]
    ensures |b[c]| <= |a[c]|
  {
    var n := |a[c]|;
    assert Fits(a, c, max, overlap) && Fits(b, c, max, overlap);
    if n < |b[c]| {
      forall i | 0 <= i < |a| ensures a[i] != [] {
        assert Fits(a, i, max, overlap);
      }
      NextGroupBegins(a, b, c);
      assert Full(a, c, max, overlap);
      PrefixesAgree(a, b, c, overlap);
      NoLongerGroup(PrefixOf(b, c, overlap), b[c], n, max);
      assert false;
    }
  }

  lemma {:induction false} SameGroup(a: seq<seq<string>>, b: seq<seq<string>>, c: nat)
    requires Flatten(a) == Flatten(b) && c < |a| && c < |b| && a[..c] == b[..c] && |a[c]| == |b[c]|
    ensures a[..c + 1] == b[..c + 1]
  {
    forall j | 0 <= j < |a[c]| ensures a[c][j] == b[c][j] {
      FlattenAt(a, c, j);
      FlattenAt(b, c, j);
      SamePlace(a, b, c, j);
    }
    assert a[c] == b[c];
    assert a[..c + 1] == a[..c] + [a[c]] && b[..c + 1] == b[..c] + [b[c]];
  }

  lemma {:induction false} GroupsAgree(
      items: seq<string>, a: seq<seq<string>>, b: seq<seq<string>>, max: nat, overlap: nat, c: nat)
    requires Chunked(items, a, max, overlap) && Chunked(items, b, max, overlap) && c <= |a| && c <= |b|
    ensures a[..c] == b[..c]
  {
    if c > 0 {
      GroupsAgree(items, a, b, max, overlap, c - 1);
      GroupIsNotLonger(items, a, b, max, overlap, c - 1);
      GroupIsNotLonger(items, b, a, max, overlap, c - 1);
      SameGroup(a, b, c - 1);
    }
  }

  lemma {:induction false} NotMoreGroups(
      items: seq<string>, a: seq<seq<string>>, b: seq<seq<string>>, max: nat, overlap: nat)
    requires Chunked(items, a, max, overlap) && Chunked(items, b, max, overlap)
    ensures |b| <= |a|
  {
    if |a| < |b| {
      var c := |a|;
      assert Fits(b, c, max, overlap);
      assert a[..c] == a;
      FlattenAt(b, c, 0);
      GroupsAgree(items, a, b, max, overlap, c);
      assert false;
    }
  }

  /** The chunks of a list are determined by its items, the limit and the overlap. */
  lemma {:induction false} ListChunksAreUnique(
      items: seq<string>, a: seq<string>, b: seq<string>, max: nat, overlap: nat)
    requires AreChunks(items, a, max, overlap) && AreChunks(items, b, max, overlap)
    ensures a == b
  {
    var g :| Chunked(items, g, max, overlap) && a == KeptTexts(g, overlap);
    var h :| Chunked(items, h, max, overlap) && b == KeptTexts(h, overlap);
    NotMoreGroups(items, g, h, max, overlap);
    NotMoreGroups(items, h, g, max, overlap);
    GroupsAgree(items, g, h, max, overlap, |g|);
    assert g[..|g|] == g && h[..|g|] == h;
  }

  // ---------------------------------------------------------------- the merge

  /** How an oversized block is cut up is determined by the block, the limit and the overlap. */
  lemma {:induction false} SplitIsUnique(block: Block, a: seq<Draft>, b: seq<Draft>, max: nat, overlap: nat)
    requires overlap < max && Splits(block, a, max, overlap) && Splits(block, b, max, overlap)
    ensures a == b
  {
    if block.kind == ListKind {
      var lines := LookAll(Lines(block.text));
      var i: seq<string> :| AreItems(lines, i) && SplitsAt(block, i, a, max, overlap);
      var j: seq<string> :| AreItems(lines, j) && SplitsAt(block, j, b, max, overlap);
      ItemTextsAreUnique(lines, i, j);
      ItemSplitIsUnique(block, i, a, b, max, overlap);
    }
  }

  lemma {:induction false} ItemSplitIsUnique(
      block: Block, items: seq<string>, a: seq<Draft>, b: seq<Draft>, max: nat, overlap: nat)
    requires overlap < max && SplitsAt(block, items, a, max, overlap) && SplitsAt(block, items, b, max, overlap)
    ensures a == b
  {
    if |items| > 1 {
      var x: seq<string> :| AreChunks(items, x, max, overlap) && a == ListDrafts(block, x);
      var y: seq<string> :| AreChunks(items, y, max, overlap) && b == ListDrafts(block, y);
      ListChunksAreUnique(items, x, y, max, overlap);
    }
  }

  /** A rule that leaves no choice. */
  ghost predicate Functional(rule: Rule) {
    forall block, a, b {:trigger rule(block, a), rule(block, b)} :: rule(block, a) && rule(block, b) ==> a == b
  }

  lemma {:induction false} SplitRuleIsFunctional(max: nat, overlap: nat)
    ensures Functional(SplitRule(max, overlap))
  {
    var rule := SplitRule(max, overlap);
    forall block, a, b | rule(block, a) && rule(block, b) ensures a == b {
      SplitIsUnique(block, a, b, max, overlap);
    }
  }

  lemma {:induction false} JoinedPrefixIsShorter(texts: seq<string>, k: nat, br: string)
    requires 0 < k <= |texts|
    ensures |Join(texts[..k], br)| <= |Join(texts, br)|
    decreases |texts|
  {
    var n := |texts| - 1;
    if k <= n {
      JoinedPrefixIsShorter(texts[..n], k, br);
      assert texts[..n][..k] == texts[..k];
    } else {
      assert texts[..k] == texts;
    }
  }

  /** Fewer blocks of an admissible chunk, from its start, are one too. */
  lemma {:induction false} PrefixIsWhole(blocks: seq<Block>, k: nat, max: nat)
    requires GoodWhole(blocks, max) && 0 < k <= |blocks|
    ensures GoodWhole(blocks[..k], max)
  {
    JoinedPrefixIsShorter(BlockTexts(blocks), k, "\n\n");
    assert BlockTexts(blocks[..k]) == BlockTexts(blocks)[..k];
  }

  /** Where block `k` of part `p` stands among the blocks of the plan. */
  function Offset(plan: seq<Part>, p: nat, k: nat): nat
    requires p <= |plan|
  {
    |PlanBlocks(plan[..p])| + k
  }

  lemma {:induction false} BlockAt(plan: seq<Part>, p: nat, k: nat)
    requires p < |plan| && k < |PartBlocks(plan[p])|
    ensures Offset(plan, p, k) < |PlanBlocks(plan)| && PlanBlocks(plan)[Offset(plan, p, k)] == PartBlocks(plan[p])[k]
  {
    PlanOfPrefix(plan, p);
    var front := PlanBlocks(plan[..p]) + PartBlocks(plan[p]);
    assert front[Offset(plan, p, k)] == PartBlocks(plan[p])[k];
  }

  lemma {:induction false} NextOffset(plan: seq<Part>, p: nat)
    requires p < |plan|
    ensures Offset(plan, p + 1, 0) == Offset(plan, p, |PartBlocks(plan[p])|)
  {
    assert plan[..p + 1][..p] == plan[..p] && plan[..p + 1][p] == plan[p];
  }

  lemma {:induction false} MoreParts(plan: seq<Part>, p: nat)
    requires p < |plan| && Offset(plan, p + 1, 0) < |PlanBlocks(plan)|
    ensures p + 1 < |plan|
  {
    var all := plan[..|plan|];
    assert all == plan;
  }

  /** Both plans go on with the same block at part `p`. */
  lemma {:induction false} SameFirstBlock(a: seq<Part>, b: seq<Part>, max: nat, rule: Rule, p: nat)
    requires SoundPlan(a, max, rule) && SoundPlan(b, max, rule) && PlanBlocks(a) == PlanBlocks(b)
    requires p < |a| && p < |b| && a[..p] == b[..p]
    ensures PartBlocks(a[p]) != [] && PartBlocks(b[p]) != [] && PartBlocks(a[p])[0] == PartBlocks(b[p])[0]
    ensures a[p].Whole? <==> b[p].Whole?
  {
    assert GoodPart(a[p], max, rule) && GoodPart(b[p], max, rule);
    BlockAt(a, p, 0);
    BlockAt(b, p, 0);
  }

  /** If one part is longer, it goes on with the first block of the part after the other. */
  lemma {:induction false} NextPartBegins(a: seq<Part>, b: seq<Part>, max: nat, rule: Rule, p: nat)
    requires SoundPlan(a, max, rule) && PlanBlocks(a) == PlanBlocks(b)
    requires p < |a| && p < |b| && a[..p] == b[..p] && a[p].Whole? && b[p].Whole?
    requires |a[p].blocks| < |b[p].blocks|
    ensures p + 1 < |a| && PartBlocks(a[p + 1]) != []
    ensures PartBlocks(a[p + 1])[0] == b[p].blocks[|a[p].blocks|]
    ensures a[p].blocks == b[p].blocks[..|a[p].blocks|]
  {
    var n := |a[p].blocks|;
    forall k | 0 <= k < n ensures a[p].blocks[k] == b[p].blocks[k] {
      BlockAt(a, p, k);
      BlockAt(b, p, k);
    }
    BlockAt(b, p, n);
    NextOffset(a, p);
    MoreParts(a, p);
    assert GoodPart(a[p + 1], max, rule);
    BlockAt(a, p + 1, 0);
  }

  lemma {:induction false} WholeIsNotLonger(a: seq<Part>, b: seq<Part>, max: nat, rule: Rule, p: nat)
    requires SoundPlan(a, max, rule) && SoundPlan(b, max, rule) && PlanBlocks(a) == PlanBlocks(b)
    requires p < |a| && p < |b| && a[..p] == b[..p] && a[p].Whole? && b[p].Whole?
    ensures |b[p].blocks| <= |a[p].blocks|
  {
    var n := |a[p].blocks|;
    assert GoodPart(a[p], max, rule) && GoodPart(b[p], max, rule);
    if n < |b[p].blocks| {
      NextPartBegins(a, b, max, rule, p);
      assert b[p].blocks[..n + 1] == a[p].blocks + [b[p].blocks[n]];
      assert GoodPart(a[p + 1], max, rule) && Apart(a[p], a[p + 1], max);
      PrefixIsWhole(b[p].blocks, n + 1, max);
      assert false;
    }
  }

  lemma {:induction false} SamePart(a: seq<Part>, b: seq<Part>, max: nat, rule: Rule, p: nat)
    requires SoundPlan(a, max, rule) && SoundPlan(b, max, rule) && PlanBlocks(a) == PlanBlocks(b) && Functional(rule)
    requires p < |a| && p < |b| && a[..p] == b[..p]
    ensures a[p] == b[p]
  {
    SameFirstBlock(a, b, max, rule, p);
    assert GoodPart(a[p], max, rule) && GoodPart(b[p], max, rule);
    if a[p].Whole? {
      WholeIsNotLonger(a, b, max, rule, p);
      WholeIsNotLonger(b, a, max, rule, p);
      forall k | 0 <= k < |a[p].blocks| ensures a[p].blocks[k] == b[p].blocks[k] {
        BlockAt(a, p, k);
        BlockAt(b, p, k);
      }
    } else {
      assert rule(a[p].block, a[p].drafts) && rule(b[p].block, b[p].drafts);
    }
  }

  lemma {:induction false} PlansAgree(a: seq<Part>, b: seq<Part>, max: nat, rule: Rule, p: nat)
    requires SoundPlan(a, max, rule) && SoundPlan(b, max, rule) && PlanBlocks(a) == PlanBlocks(b) && Functional(rule)
    requires p <= |a| && p <= |b|
    ensures a[..p] == b[..p]
  {
    if p > 0 {
      PlansAgree(a, b, max, rule, p - 1);
      SamePart(a, b, max, rule, p - 1);
      assert a[..p] == a[..p - 1] + [a[p - 1]] && b[..p] == b[..p - 1] + [b[p - 1]];
    }
  }

  lemma {:induction false} NotMoreParts(a: seq<Part>, b: seq<Part>, max: nat, rule: Rule)
    requires SoundPlan(a, max, rule) && SoundPlan(b, max, rule) && PlanBlocks(a) == PlanBlocks(b) && Functional(rule)
    ensures |b| <= |a|
  {
    if |a| < |b| {
      var p := |a|;
      assert GoodPart(b[p], max, rule);
      assert a[..p] == a;
      BlockAt(b, p, 0);
      PlansAgree(a, b, max, rule, p);
      assert false;
    }
  }

  /** The drafts a document is merged into are determined by its blocks, the limit and the overlap. */
  lemma {:induction false} MergeIsUnique(blocks: seq<Block>, a: seq<Draft>, b: seq<Draft>, max: nat, overlap: nat)
    requires overlap < max && IsMerge(blocks, a, max, overlap) && IsMerge(blocks, b, max, overlap)
    ensures a == b
  {
    var rule := SplitRule(max, overlap);
    SplitRuleIsFunctional(max, overlap);
    var p: seq<Part> :| GoodPlan(p, blocks, a, max, rule);
    var q: seq<Part> :| GoodPlan(q, blocks, b, max, rule);
    NotMoreParts(p, q, max, rule);
    NotMoreParts(q, p, max, rule);
    PlansAgree(p, q, max, rule, |p|);
    assert p[..|p|] == p && q[..|p|] == q;
  }

  /** So the contract of the chunker fixes its output. */
  lemma {:induction false} ChunkingIsUnique(
      input: string, config: Config, lower: string -> string, a: seq<Chunk>, b: seq<Chunk>)
    requires IsChunking(input, config, lower, a) && IsChunking(input, config, lower, b)
    ensures a == b
  {
    var lines := LookAll(Lines(input));
    var x: seq<Block>, v: seq<Draft> :|
      IsParse(lines, x) && IsMerge(x, v, MaxChars(config), OverlapChars(config)) && a == LinkChunks(v, lower);
    var y: seq<Block>, w: seq<Draft> :|
      IsParse(lines, y) && IsMerge(y, w, MaxChars(config), OverlapChars(config)) && b == LinkChunks(w, lower);
    ParseIsUnique(lines, x, y);
    MergeIsUnique(x, v, w, MaxChars(config), OverlapChars(config));
  }
}
