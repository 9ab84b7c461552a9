/** Merging the blocks of a document into chunks, and linking the chunks. */
module DocumentChunks {
  import opened Wrappers
  import opened Text
  import opened MarkdownLines
  import opened Sequences
  import opened MarkdownBlocks
  import opened ListChunks
  import opened TextPieces

  datatype Draft = Draft(text: string, kind: Kind, path: seq<string>, leading: bool, trailing: bool)

  datatype Chunk = Chunk(
    ordinal: nat, text: string, bm25Text: string, kind: Kind, path: seq<string>,
    prev: Option<nat>, next: Option<nat>, leading: bool, trailing: bool)

  // ---------------------------------------------------------------- splitting one block

  function TextDrafts(block: Block, max: nat, overlap: nat): seq<Draft>
    requires overlap < max
  {
    var pieces, flags := Pieces(block.text, max, overlap), GoesOn(block.text, max, overlap);
    seq(|pieces|, i requires 0 <= i < |pieces| => Draft(pieces[i], block.kind, block.path, i > 0, flags[i]))
  }

  function ListDrafts(block: Block, texts: seq<string>): seq<Draft> {
    seq(|texts|, i requires 0 <= i < |texts| =>
      Draft(texts[i], ListKind, block.path, i > 0, i + 1 < |texts|))
  }

  /** A list of two items or more is cut at its items, anything else wherever it is too long. */
  ghost predicate Splits(block: Block, drafts: seq<Draft>, max: nat, overlap: nat)
    requires overlap < max
  {
    if block.kind == ListKind then
      exists items :: AreItems(LookAll(Lines(block.text)), items) && SplitsAt(block, items, drafts, max, overlap)
    else drafts == TextDrafts(block, max, overlap)
  }

  ghost predicate SplitsAt(block: Block, items: seq<string>, drafts: seq<Draft>, max: nat, overlap: nat)
    requires overlap < max
  {
    if |items| <= 1 then drafts == TextDrafts(block, max, overlap)
    else exists texts :: AreChunks(items, texts, max, overlap) && drafts == ListDrafts(block, texts)
  }

  method SplitTextBlock(block: Block, max: nat, overlap: nat) returns (drafts: seq<Draft>)
    requires overlap < max
    ensures drafts == TextDrafts(block, max, overlap)
  {
    var pieces, leading, trailing := SplitText(block.text, max, overlap);
    drafts := seq(|pieces|, i requires 0 <= i < |pieces| =>
      Draft(pieces[i], block.kind, block.path, leading[i], trailing[i]));
  }

  method SplitOversizedBlock(block: Block, max: nat, overlap: nat) returns (drafts: seq<Draft>)
    requires overlap < max
    ensures Splits(block, drafts, max, overlap)
  {
    if block.kind == ListKind {
      var items := SplitListItems(LookAll(Lines(block.text)));
      if |items| <= 1 {
        drafts := SplitTextBlock(block, max, overlap);
      } else {
        var texts := SplitItems(items, max, overlap);
        drafts := ListDrafts(block, texts);
      }
      assert SplitsAt(block, items, drafts, max, overlap);
    } else {
      drafts := SplitTextBlock(block, max, overlap);
    }
  }

  // ---------------------------------------------------------------- merging

  function BlockTexts(blocks: seq<Block>): seq<string> {
    seq(|blocks|, i requires 0 <= i < |blocks| => blocks[i].text)
  }

  /** The kind all blocks share, or Mixed. */
  function MergedKind(blocks: seq<Block>): Kind
    requires blocks != []
  {
    if forall i :: 0 <= i < |blocks| ==> blocks[i].kind == blocks[0].kind then blocks[0].kind else Mixed
  }

  function WholeDraft(blocks: seq<Block>): Draft
    requires blocks != []
  {
    Draft(Join(BlockTexts(blocks), "\n\n"), MergedKind(blocks), blocks[0].path, false, false)
  }

  /** A part of the plan: blocks kept whole in one chunk, or one block cut up. */
  datatype Part = Whole(blocks: seq<Block>) | CutUp(block: Block, drafts: seq<Draft>)

  function PartBlocks(part: Part): seq<Block> {
    if part.Whole? then part.blocks else [part.block]
  }

  function PartDrafts(part: Part): seq<Draft> {
    if part.CutUp? then part.drafts else if part.blocks == [] then [] else [WholeDraft(part.blocks)]
  }

  function PlanBlocks(plan: seq<Part>): seq<Block> {
    if plan == [] then [] else PlanBlocks(plan[..|plan| - 1]) + PartBlocks(plan[|plan| - 1])
  }

  function PlanDrafts(plan: seq<Part>): seq<Draft> {
    if plan == [] then [] else PlanDrafts(plan[..|plan| - 1]) + PartDrafts(plan[|plan| - 1])
  }

  /** Blocks kept whole share a section, fit together, and a list is on its own. */
  ghost predicate GoodWhole(blocks: seq<Block>, max: nat) {
    && blocks != []
    && (forall i :: 0 <= i < |blocks| ==> blocks[i].path == blocks[0].path && |blocks[i].text| <= max)
    && |Join(BlockTexts(blocks), "\n\n")| <= max
    && (|blocks| > 1 ==> forall i :: 0 <= i < |blocks| ==> blocks[i].kind != ListKind)
  }

  /** Which drafts an oversized block may be cut into. */
  type Rule = (Block, seq<Draft>) -> bool

  ghost function SplitRule(max: nat, overlap: nat): Rule {
    (block: Block, drafts: seq<Draft>) => overlap < max && Splits(block, drafts, max, overlap)
  }

  ghost predicate GoodPart(part: Part, max: nat, rule: Rule)
  {
    match part
    case Whole(blocks) => GoodWhole(blocks, max)
    case CutUp(block, drafts) => |block.text| > max && rule(block, drafts)
  }

  /** Two neighbouring parts that could not have been one. */
  ghost predicate Apart(first: Part, second: Part, max: nat) {
    first.Whole? && second.Whole? && first.blocks != [] && second.blocks != [] ==>
      !GoodWhole(first.blocks + [second.blocks[0]], max)
  }

  /** Parts that are admissible, none of which could have taken the block after it. */
  ghost predicate SoundPlan(plan: seq<Part>, max: nat, rule: Rule) {
    && (forall i {:trigger GoodPart(plan[i], max, rule)} :: 0 <= i < |plan| ==> GoodPart(plan[i], max, rule))
    && (forall i, j {:trigger Apart(plan[i], plan[j], max)} ::
          0 <= i && j == i + 1 && j < |plan| ==> Apart(plan[i], plan[j], max))
  }

  ghost predicate GoodPlan(plan: seq<Part>, blocks: seq<Block>, drafts: seq<Draft>, max: nat, rule: Rule) {
    PlanBlocks(plan) == blocks && PlanDrafts(plan) == drafts && SoundPlan(plan, max, rule)
  }

  predicate Joinable(draft: Draft, block: Block, max: nat) {
    && draft.path == block.path && |draft.text| + 2 + |block.text| <= max
    && block.kind != ListKind && draft.kind != ListKind
  }

  function Joint(draft: Draft, block: Block): Draft {
    draft.(text := draft.text + "\n\n" + block.text,
           kind := if draft.kind != block.kind then Mixed else draft.kind)
  }

  /** The guard of the merger says exactly when a block may join the blocks before it. */
  lemma {:induction false} JoinsIff(blocks: seq<Block>, block: Block, max: nat)
    requires GoodWhole(blocks, max) && |block.text| <= max
    ensures GoodWhole(blocks + [block], max) <==> Joinable(WholeDraft(blocks), block, max)
    ensures GoodWhole(blocks + [block], max) ==> WholeDraft(blocks + [block]) == Joint(WholeDraft(blocks), block)
  {
    var more := blocks + [block];
    assert BlockTexts(more)[..|blocks|] == BlockTexts(blocks);
    JoinedKind(blocks, block);
  }

  lemma {:induction false} JoinedKind(blocks: seq<Block>, block: Block)
    requires blocks != []
    ensures var kind := MergedKind(blocks);
            MergedKind(blocks + [block]) == if kind != block.kind then Mixed else kind
  {
    var more := blocks + [block];
    assert more[|blocks|] == block && more[0] == blocks[0];
    assert forall i :: 0 <= i < |blocks| ==> more[i].kind == blocks[i].kind;
    if i :| 0 <= i < |blocks| && blocks[i].kind != blocks[0].kind {
      assert more[i].kind != more[0].kind;
    }
  }

  lemma {:induction false} PlanGrows(plan: seq<Part>, part: Part)
    ensures PlanBlocks(plan + [part]) == PlanBlocks(plan) + PartBlocks(part)
    ensures PlanDrafts(plan + [part]) == PlanDrafts(plan) + PartDrafts(part)
  {
    assert (plan + [part])[..|plan|] == plan;
  }

  /** A plan for the blocks read so far whose last part, if any blocks are open, is still growing. */
  ghost predicate Growing(
      plan: seq<Part>, open: seq<Block>, blocks: seq<Block>, drafts: seq<Draft>, max: nat, rule: Rule)
  {
    && GoodPlan(plan, PlanBlocks(plan), drafts, max, rule)
    && blocks == PlanBlocks(plan) + open
    && (open != [] ==> GoodWhole(open, max))
    && (open != [] && plan != [] ==> Apart(plan[|plan| - 1], Whole(open), max))
  }

  lemma {:induction false} SoundPlanGrows(plan: seq<Part>, part: Part, max: nat, rule: Rule)
    requires SoundPlan(plan, max, rule) && GoodPart(part, max, rule)
    requires plan != [] ==> Apart(plan[|plan| - 1], part, max)
    ensures SoundPlan(plan + [part], max, rule)
  {
    var more, n := plan + [part], |plan|;
    forall i | 0 <= i < |more| ensures GoodPart(more[i], max, rule) {
      assert i < n ==> GoodPart(plan[i], max, rule);
    }
    forall i, j | 0 <= i && j == i + 1 && j < |more| ensures Apart(more[i], more[j], max) {
      assert j < n ==> Apart(plan[i], plan[j], max);
    }
  }

  lemma {:induction false} NothingOpen(
      plan: seq<Part>, open: seq<Block>, blocks: seq<Block>, drafts: seq<Draft>, max: nat, rule: Rule)
    requires open == [] && GoodPlan(plan, blocks, drafts, max, rule)
    ensures Growing(plan, open, blocks, drafts, max, rule)
  {
  }

  lemma {:induction false} ClosePart(
      plan: seq<Part>, open: seq<Block>, blocks: seq<Block>, drafts: seq<Draft>, max: nat, rule: Rule)
    requires Growing(plan, open, blocks, drafts, max, rule) && open != []
    ensures Growing(plan + [Whole(open)], [], blocks, drafts + [WholeDraft(open)], max, rule)
  {
    PlanGrows(plan, Whole(open));
    SoundPlanGrows(plan, Whole(open), max, rule);
    NothingOpen(plan + [Whole(open)], [], blocks, drafts + [WholeDraft(open)], max, rule);
  }

  lemma {:induction false} AddCutUp(
      plan: seq<Part>, blocks: seq<Block>, drafts: seq<Draft>, max: nat, rule: Rule,
      block: Block, cut: seq<Draft>)
    requires Growing(plan, [], blocks, drafts, max, rule)
    requires |block.text| > max && rule(block, cut)
    ensures Growing(plan + [CutUp(block, cut)], [], blocks + [block], drafts + cut, max, rule)
  {
    PlanGrows(plan, CutUp(block, cut));
    SoundPlanGrows(plan, CutUp(block, cut), max, rule);
    NothingOpen(plan + [CutUp(block, cut)], [], blocks + [block], drafts + cut, max, rule);
  }

  /** A fitting block starts a part of its own, after a part that it could not join. */
  lemma {:induction false} StartPart(
      plan: seq<Part>, blocks: seq<Block>, drafts: seq<Draft>, max: nat, rule: Rule, block: Block)
    requires Growing(plan, [], blocks, drafts, max, rule) && |block.text| <= max
    requires plan != [] && plan[|plan| - 1].Whole? ==>
               !GoodWhole(plan[|plan| - 1].blocks + [block], max)
    ensures Growing(plan, [block], blocks + [block], drafts, max, rule)
  {
    assert BlockTexts([block]) == [block.text];
  }

  lemma {:induction false} GrowPart(
      plan: seq<Part>, open: seq<Block>, blocks: seq<Block>, drafts: seq<Draft>, max: nat, rule: Rule, block: Block)
    requires Growing(plan, open, blocks, drafts, max, rule) && open != []
    requires GoodWhole(open + [block], max)
    ensures Growing(plan, open + [block], blocks + [block], drafts, max, rule)
  {
    assert (open + [block])[0] == open[0];
  }

  function FromBlock(block: Block): Draft {
    Draft(block.text, block.kind, block.path, false, false)
  }

  /** What the loop keeps: the plan so far, and the draft of the open blocks. */
  ghost predicate Merging(
      plan: seq<Part>, open: seq<Block>, blocks: seq<Block>, drafts: seq<Draft>, current: Option<Draft>,
      max: nat, rule: Rule)
  {
    && Growing(plan, open, blocks, drafts, max, rule)
    && (if current.None? then open == [] && (plan != [] ==> plan[|plan| - 1].CutUp?)
        else open != [] && current.value == WholeDraft(open))
  }

  function Flushed(current: Option<Draft>): seq<Draft> {
    if current.None? then [] else [current.value]
  }

  function Closed(open: seq<Block>): seq<Part> {
    if open == [] then [] else [Whole(open)]
  }

  lemma {:induction false} FlushCurrent(
      plan: seq<Part>, open: seq<Block>, blocks: seq<Block>, drafts: seq<Draft>, current: Option<Draft>,
      max: nat, rule: Rule)
    requires Merging(plan, open, blocks, drafts, current, max, rule)
    ensures Growing(plan + Closed(open), [], blocks, drafts + Flushed(current), max, rule)
  {
    if open == [] {
      assert plan + [] == plan && drafts + [] == drafts;
    } else {
      ClosePart(plan, open, blocks, drafts, max, rule);
    }
  }

  lemma {:induction false} StepCutUp(
      plan: seq<Part>, open: seq<Block>, blocks: seq<Block>, drafts: seq<Draft>, current: Option<Draft>,
      max: nat, rule: Rule, block: Block, cut: seq<Draft>)
    requires Merging(plan, open, blocks, drafts, current, max, rule)
    requires |block.text| > max && rule(block, cut)
    ensures Merging((plan + Closed(open)) + [CutUp(block, cut)], [], blocks + [block],
              (drafts + Flushed(current)) + cut, None, max, rule)
  {
    FlushCurrent(plan, open, blocks, drafts, current, max, rule);
    AddCutUp(plan + Closed(open), blocks, drafts + Flushed(current), max, rule, block, cut);
  }

  lemma {:induction false} StepStart(
      plan: seq<Part>, open: seq<Block>, blocks: seq<Block>, drafts: seq<Draft>, current: Option<Draft>,
      max: nat, rule: Rule, block: Block)
    requires Merging(plan, open, blocks, drafts, current, max, rule)
    requires |block.text| <= max
    requires current.Some? ==> !GoodWhole(open + [block], max)
    ensures Merging(plan + Closed(open), [block], blocks + [block],
              drafts + Flushed(current), Some(FromBlock(block)), max, rule)
  {
    FlushCurrent(plan, open, blocks, drafts, current, max, rule);
    assert open == [] ==> plan + Closed(open) == plan;
    StartPart(plan + Closed(open), blocks, drafts + Flushed(current), max, rule, block);
    assert BlockTexts([block]) == [block.text];
  }

  lemma {:induction false} StepFits(
      plan: seq<Part>, open: seq<Block>, blocks: seq<Block>, drafts: seq<Draft>, current: Option<Draft>,
      max: nat, rule: Rule, block: Block)
    requires Merging(plan, open, blocks, drafts, current, max, rule)
    requires |block.text| <= max
    ensures if current.Some? && Joinable(current.value, block, max)
            then Merging(plan, open + [block], blocks + [block], drafts,
                   Some(Joint(current.value, block)), max, rule)
            else Merging(plan + Closed(open), [block], blocks + [block],
                   drafts + Flushed(current), Some(FromBlock(block)), max, rule)
  {
    if current.Some? {
      JoinsIff(open, block, max);
    }
    if current.Some? && Joinable(current.value, block, max) {
      GrowPart(plan, open, blocks, drafts, max, rule, block);
    } else {
      StepStart(plan, open, blocks, drafts, current, max, rule, block);
    }
  }

  lemma {:induction false} MergingStarts(
      plan: seq<Part>, open: seq<Block>, blocks: seq<Block>, drafts: seq<Draft>, current: Option<Draft>,
      max: nat, rule: Rule)
    requires plan == [] && open == [] && blocks == [] && drafts == [] && current.None?
    ensures Merging(plan, open, blocks, drafts, current, max, rule)
  {
  }

  lemma {:induction false} MergingEnds(
      plan: seq<Part>, open: seq<Block>, blocks: seq<Block>, drafts: seq<Draft>, current: Option<Draft>,
      max: nat, rule: Rule)
    requires Merging(plan, open, blocks, drafts, current, max, rule)
    ensures MergesByRule(blocks, drafts + Flushed(current), max, rule)
  {
    FlushCurrent(plan, open, blocks, drafts, current, max, rule);
    assert GoodPlan(plan + Closed(open), blocks, drafts + Flushed(current), max, rule);
  }

  /** The rule lets the splitter cut blocks up. */
  ghost predicate Allows(rule: Rule, max: nat, overlap: nat)
    requires overlap < max
  {
    forall block, drafts {:trigger Splits(block, drafts, max, overlap)} ::
      Splits(block, drafts, max, overlap) ==> rule(block, drafts)
  }

  method SplitByRule(block: Block, max: nat, overlap: nat, ghost rule: Rule) returns (drafts: seq<Draft>)
    requires overlap < max && Allows(rule, max, overlap)
    ensures rule(block, drafts)
  {
    drafts := SplitOversizedBlock(block, max, overlap);
  }

  ghost predicate MergesByRule(blocks: seq<Block>, drafts: seq<Draft>, max: nat, rule: Rule) {
    exists plan :: GoodPlan(plan, blocks, drafts, max, rule)
  }

  ghost predicate IsMerge(blocks: seq<Block>, drafts: seq<Draft>, max: nat, overlap: nat)
    requires overlap < max
  {
    MergesByRule(blocks, drafts, max, SplitRule(max, overlap))
  }

  method MergeBlocks(blocks: seq<Block>, max: nat, overlap: nat) returns (drafts: seq<Draft>)
    requires overlap < max
    ensures IsMerge(blocks, drafts, max, overlap)
  {
    drafts := MergeByRule(blocks, max, overlap, SplitRule(max, overlap));
  }

  method MergeByRule(blocks: seq<Block>, max: nat, overlap: nat, ghost rule: Rule) returns (drafts: seq<Draft>)
    requires overlap < max && Allows(rule, max, overlap)
    ensures MergesByRule(blocks, drafts, max, rule)
  {
    drafts := [];
    var current: Option<Draft> := None;
    ghost var plan: seq<Part>, open: seq<Block> := [], [];
    MergingStarts(plan, open, blocks[..0], drafts, current, max, rule);
    for i := 0 to |blocks|
      invariant Merging(plan, open, blocks[..i], drafts, current, max, rule)
    {
      assert blocks[..i + 1] == blocks[..i] + [blocks[i]];
      drafts, current, plan, open :=
        TakeBlock(drafts, current, blocks[i], max, overlap, rule, plan, open, blocks[..i]);
    }
    assert blocks[..|blocks|] == blocks;
    MergingEnds(plan, open, blocks, drafts, current, max, rule);
    drafts := drafts + Flushed(current);
  }

  /** One round of the merger: the block is cut up, joins the current draft, or starts a new one. */
  method TakeBlock(
      drafts0: seq<Draft>, current0: Option<Draft>, block: Block, max: nat, overlap: nat, ghost rule: Rule,
      ghost plan0: seq<Part>, ghost open0: seq<Block>, ghost before: seq<Block>)
    returns (drafts: seq<Draft>, current: Option<Draft>, ghost plan: seq<Part>, ghost open: seq<Block>)
    requires overlap < max && Allows(rule, max, overlap)
    requires Merging(plan0, open0, before, drafts0, current0, max, rule)
    ensures Merging(plan, open, before + [block], drafts, current, max, rule)
  {
    plan, open, drafts, current := plan0, open0, drafts0, current0;
    if |block.text| > max {
      var cut := SplitByRule(block, max, overlap, rule);
      StepCutUp(plan, open, before, drafts, current, max, rule, block, cut);
      plan, open := (plan + Closed(open)) + [CutUp(block, cut)], [];
      drafts := (drafts + Flushed(current)) + cut;
      current := None;
    } else {
      StepFits(plan, open, before, drafts, current, max, rule, block);
      if current.Some? && Joinable(current.value, block, max) {
        current, open := Some(Joint(current.value, block)), open + [block];
      } else {
        plan, open, drafts := plan + Closed(open), [block], drafts + Flushed(current);
        current := Some(FromBlock(block));
      }
    }
  }

  // ---------------------------------------------------------------- nothing is lost

  /** Block `i` of the document is block `k` of part `p`. */
  ghost predicate SitsAt(plan: seq<Part>, i: nat, p: nat, k: nat) {
    p < |plan| && k < |PartBlocks(plan[p])| && i == |PlanBlocks(plan[..p])| + k
  }

  lemma {:induction false} PlanOfPrefix(plan: seq<Part>, p: nat)
    requires p < |plan|
    ensures PlanBlocks(plan[..p]) + PartBlocks(plan[p]) <= PlanBlocks(plan)
    decreases |plan|
  {
    var n := |plan| - 1;
    if p < n {
      PlanOfPrefix(plan[..n], p);
      assert plan[..n][..p] == plan[..p];
    }
  }

  /** Every block sits in exactly one part, in its place. */
  lemma {:induction false} BlockSitsSomewhere(plan: seq<Part>, i: nat)
    requires i < |PlanBlocks(plan)|
    ensures exists p: nat, k: nat :: SitsAt(plan, i, p, k) && PartBlocks(plan[p])[k] == PlanBlocks(plan)[i]
    decreases |plan|
  {
    var n := |plan| - 1;
    var before := plan[..n];
    if i < |PlanBlocks(before)| {
      BlockSitsSomewhere(before, i);
      var p: nat, k: nat :| SitsAt(before, i, p, k) && PartBlocks(before[p])[k] == PlanBlocks(before)[i];
      assert before[..p] == plan[..p];
      assert SitsAt(plan, i, p, k);
    } else {
      assert SitsAt(plan, i, n, i - |PlanBlocks(before)|);
    }
  }

  lemma {:induction false} BlockSitsOnce(plan: seq<Part>, i: nat, p: nat, k: nat, q: nat, l: nat)
    requires SitsAt(plan, i, p, k) && SitsAt(plan, i, q, l)
    ensures p == q && k == l
  {
    if p < q {
      assert plan[..q][..p] == plan[..p];
      PlanOfPrefix(plan[..q], p);
    } else if q < p {
      assert plan[..p][..q] == plan[..q];
      PlanOfPrefix(plan[..p], q);
    }
  }

  ghost predicate Contains(text: string, part: string) {
    exists lo: nat :: OccursAt(text, part, lo)
  }

  ghost predicate OccursAt(text: string, part: string, lo: nat) {
    lo + |part| <= |text| && text[lo..lo + |part|] == part
  }

  lemma {:induction false} JoinContains(texts: seq<string>, separator: string, k: nat)
    requires k < |texts|
    ensures Contains(Join(texts, separator), texts[k])
    decreases |texts|
  {
    var n, whole := |texts| - 1, Join(texts, separator);
    if n == 0 {
      assert OccursAt(whole, texts[k], 0);
    } else if k == n {
      assert OccursAt(whole, texts[k], |whole| - |texts[k]|);
    } else {
      JoinContains(texts[..n], separator, k);
      var inner := Join(texts[..n], separator);
      var lo: nat :| OccursAt(inner, texts[k], lo);
      assert OccursAt(whole, texts[k], lo);
    }
  }

  lemma {:induction false} WholeHoldsBlock(blocks: seq<Block>, max: nat, k: nat)
    requires GoodWhole(blocks, max) && k < |blocks|
    ensures var draft := WholeDraft(blocks);
            && Contains(draft.text, blocks[k].text) && |draft.text| <= max
            && draft.path == blocks[k].path
            && (blocks[k].kind == ListKind ==> draft.text == blocks[k].text && draft.kind == ListKind)
  {
    var texts := BlockTexts(blocks);
    JoinContains(texts, "\n\n", k);
    assert texts[k] == blocks[k].text;
    if |blocks| == 1 {
      assert texts == [blocks[0].text];
    }
  }

  /** A block that fits is kept whole in the chunk of its part, in its own section. */
  lemma {:induction false} FittingBlockIsKeptWhole(
      plan: seq<Part>, blocks: seq<Block>, drafts: seq<Draft>, max: nat, rule: Rule, i: nat, p: nat, k: nat)
    requires GoodPlan(plan, blocks, drafts, max, rule)
    requires i < |blocks| && |blocks[i].text| <= max && SitsAt(plan, i, p, k)
    ensures plan[p].Whole? && PartDrafts(plan[p]) == [WholeDraft(plan[p].blocks)]
    ensures var draft := WholeDraft(plan[p].blocks);
            && Contains(draft.text, blocks[i].text) && |draft.text| <= max
            && draft.path == blocks[i].path
            && (blocks[i].kind == ListKind ==> draft.text == blocks[i].text && draft.kind == ListKind)
  {
    PlanOfPrefix(plan, p);
    assert blocks[i] == PartBlocks(plan[p])[k];
    assert GoodPart(plan[p], max, rule);
    WholeHoldsBlock(plan[p].blocks, max, k);
  }

  function DraftTexts(drafts: seq<Draft>): seq<string> {
    seq(|drafts|, i requires 0 <= i < |drafts| => drafts[i].text)
  }

  /** A block cut up as text can be put together again exactly when there is an overlap. */
  lemma {:induction false} CutTextReassemblesIff(block: Block, drafts: seq<Draft>, max: nat, overlap: nat)
    requires overlap < max < |block.text| && block.kind != ListKind && Splits(block, drafts, max, overlap)
    ensures Reassemble(DraftTexts(drafts), overlap) == block.text <==> overlap >= 1
  {
    assert DraftTexts(drafts) == Pieces(block.text, max, overlap);
    ReassemblesIff(block.text, max, overlap);
  }

  /** The items of a list, in order, are its text, exactly when the text loses no line break. */
  lemma {:induction false} ItemsAreTheListIff(text: string, parts: seq<seq<Line>>)
    requires Itemized(LookAll(Lines(text)), parts)
    ensures Join(ItemTexts(parts), "\n") == Join(Lines(text), "\n")
    ensures Join(ItemTexts(parts), "\n") == text <==> KeepsItsBreaks(text)
  {
    LinesRejoinIff(text);
    assert Texts(LookAll(Lines(text))) == Lines(text);
    forall p | 0 <= p < |parts| ensures parts[p] != [] {
      assert IsItem(parts, p);
    }
    if parts != [] {
      ItemsRejoin(parts);
    } else {
      assert |Lines(text)| == |Flatten(parts)| == 0;
    }
  }

  // ---------------------------------------------------------------- linking

  /** Numbers the drafts and points each at its neighbours; `lower` maps a text to lower case. */
  function LinkChunks(drafts: seq<Draft>, lower: string -> string): (chunks: seq<Chunk>)
    ensures |chunks| == |drafts|
  {
    seq(|drafts|, i requires 0 <= i < |drafts| =>
      var d := drafts[i];
      Chunk(i, d.text, lower(d.text), d.kind, d.path,
        if i == 0 then None else Some(i - 1),
        if i + 1 < |drafts| then Some(i + 1) else None, d.leading, d.trailing))
  }

  /** The links are a chain: next and prev undo each other, and only the ends have none. */
  lemma {:induction false} LinksAreAChain(drafts: seq<Draft>, lower: string -> string, i: nat, j: nat)
    requires i < |drafts| && j < |drafts|
    ensures var chunks := LinkChunks(drafts, lower);
            && chunks[chunks[i].ordinal] == chunks[i]
            && (chunks[i].next == Some(j) <==> chunks[j].prev == Some(i))
            && (chunks[i].next == Some(j) <==> j == i + 1)
            && (chunks[i].next.None? <==> i == |drafts| - 1)
            && (chunks[i].prev.None? <==> i == 0)
  {
    assert LinkChunks(drafts, lower)[i].ordinal == i;
  }

  // ---------------------------------------------------------------- the whole chunker

  datatype Config = Config(maxChars: nat, overlapChars: nat)

  function MaxChars(config: Config): (n: nat)
    ensures n >= 1
  {
    if config.maxChars < 1 then 1 else config.maxChars
  }

  function OverlapChars(config: Config): (n: nat)
    ensures n < MaxChars(config)
  {
    if config.overlapChars < MaxChars(config) then config.overlapChars else MaxChars(config) - 1
  }

  /** From a text through its blocks and the drafts they merge into to the linked chunks. */
  ghost predicate IsChunking(input: string, config: Config, lower: string -> string, chunks: seq<Chunk>) {
    exists blocks, drafts ::
      && IsParse(LookAll(Lines(input)), blocks)
      && IsMerge(blocks, drafts, MaxChars(config), OverlapChars(config))
      && chunks == LinkChunks(drafts, lower)
  }

  method ChunkMarkdownDocument(input: string, config: Config, lower: string -> string) returns (chunks: seq<Chunk>)
    ensures IsChunking(input, config, lower, chunks)
  {
    var blocks := ParseMarkdownBlocks(LookAll(Lines(input)));
    var drafts := MergeBlocks(blocks, MaxChars(config), OverlapChars(config));
    chunks := LinkChunks(drafts, lower);
  }

  // ---------------------------------------------------------------- from lines to chunks

  lemma {:induction false} PlanDraftsOfPrefix(plan: seq<Part>, p: nat)
    requires p < |plan|
    ensures PlanDrafts(plan[..p]) + PartDrafts(plan[p]) <= PlanDrafts(plan)
    decreases |plan|
  {
    var n := |plan| - 1;
    PlanSplits(plan);
    if p < n {
      PlanDraftsOfPrefix(plan[..n], p);
      assert plan[..n][..p] == plan[..p];
      PrefixGrows(PlanDrafts(plan[..p]) + PartDrafts(plan[p]), PlanDrafts(plan[..n]), PartDrafts(plan[n]));
    }
  }

  lemma {:induction false} PlanSplits(plan: seq<Part>)
    requires plan != []
    ensures var n := |plan| - 1; PlanDrafts(plan) == PlanDrafts(plan[..n]) + PartDrafts(plan[n])
  {
  }

  lemma {:induction false} PrefixGrows<T>(a: seq<T>, b: seq<T>, c: seq<T>)
    requires a <= b
    ensures a <= b + c
  {
  }

  /** `chunk` is what linking makes of `draft`. */
  predicate ComesFrom(chunk: Chunk, draft: Draft) {
    && chunk.text == draft.text && chunk.kind == draft.kind && chunk.path == draft.path
    && chunk.leading == draft.leading && chunk.trailing == draft.trailing
  }

  /** The chunks from `lo` on are those of `drafts`, one after another. */
  predicate ChunksFrom(chunks: seq<Chunk>, lo: nat, drafts: seq<Draft>) {
    lo + |drafts| <= |chunks| && forall j :: 0 <= j < |drafts| ==> ComesFrom(chunks[lo + j], drafts[j])
  }

  /** Some chunk within the limit holds the whole text of the block, in the section of the block. */
  ghost predicate KeptIn(chunks: seq<Chunk>, block: Block, max: nat) {
    exists c :: 0 <= c < |chunks| && HoldsBlock(chunks[c], block, max)
  }

  ghost predicate HoldsBlock(chunk: Chunk, block: Block, max: nat) {
    && Contains(chunk.text, block.text) && chunk.path == block.path && |chunk.text| <= max
    && (block.kind == ListKind ==> chunk.text == block.text)
  }

  /** The block is cut up by the splitting rule, into chunks that follow each other. */
  ghost predicate CutInto(chunks: seq<Chunk>, block: Block, max: nat, overlap: nat)
    requires overlap < max
  {
    exists lo: nat, drafts :: Splits(block, drafts, max, overlap) && ChunksFrom(chunks, lo, drafts)
  }

  /** A block that fits is whole in some chunk, one that does not is cut up. */
  ghost predicate Accounted(chunks: seq<Chunk>, block: Block, max: nat, overlap: nat)
    requires overlap < max
  {
    if |block.text| <= max then KeptIn(chunks, block, max) else CutInto(chunks, block, max, overlap)
  }

  lemma {:induction false} SliceOfPrefix(before: seq<Draft>, own: seq<Draft>, drafts: seq<Draft>)
    requires before + own <= drafts
    ensures |before| + |own| <= |drafts| && drafts[|before|..|before| + |own|] == own
  {
  }

  lemma {:induction false} LinkedSlice(drafts: seq<Draft>, lo: nat, own: seq<Draft>, lower: string -> string)
    requires lo + |own| <= |drafts| && drafts[lo..lo + |own|] == own
    ensures ChunksFrom(LinkChunks(drafts, lower), lo, own)
  {
    forall j | 0 <= j < |own| ensures ComesFrom(LinkChunks(drafts, lower)[lo + j], own[j]) {
      assert drafts[lo + j] == drafts[lo..lo + |own|][j];
    }
  }

  lemma {:induction false} PartIsInTheChunks(plan: seq<Part>, p: nat, drafts: seq<Draft>, lower: string -> string)
    requires p < |plan| && drafts == PlanDrafts(plan)
    ensures ChunksFrom(LinkChunks(drafts, lower), |PlanDrafts(plan[..p])|, PartDrafts(plan[p]))
  {
    PlanDraftsOfPrefix(plan, p);
    SliceOfPrefix(PlanDrafts(plan[..p]), PartDrafts(plan[p]), drafts);
    LinkedSlice(drafts, |PlanDrafts(plan[..p])|, PartDrafts(plan[p]), lower);
  }

  lemma {:induction false} WholeIsKeptIn(chunks: seq<Chunk>, lo: nat, draft: Draft, block: Block, max: nat)
    requires ChunksFrom(chunks, lo, [draft])
    requires Contains(draft.text, block.text) && draft.path == block.path && |draft.text| <= max
    requires block.kind == ListKind ==> draft.text == block.text
    ensures KeptIn(chunks, block, max)
  {
    assert ComesFrom(chunks[lo + 0], [draft][0]);
    assert HoldsBlock(chunks[lo], block, max);
  }

  lemma {:induction false} EveryBlockIsAccounted(
      blocks: seq<Block>, drafts: seq<Draft>, max: nat, overlap: nat, lower: string -> string, n: nat)
    requires overlap < max && IsMerge(blocks, drafts, max, overlap) && n < |blocks|
    ensures Accounted(LinkChunks(drafts, lower), blocks[n], max, overlap)
  {
    var rule, chunks := SplitRule(max, overlap), LinkChunks(drafts, lower);
    var plan: seq<Part> :| GoodPlan(plan, blocks, drafts, max, rule);
    BlockSitsSomewhere(plan, n);
    var p: nat, k: nat :| SitsAt(plan, n, p, k) && PartBlocks(plan[p])[k] == PlanBlocks(plan)[n];
    PartIsInTheChunks(plan, p, drafts, lower);
    var lo := |PlanDrafts(plan[..p])|;
    if |blocks[n].text| <= max {
      FittingBlockIsKeptWhole(plan, blocks, drafts, max, rule, n, p, k);
      WholeIsKeptIn(chunks, lo, WholeDraft(plan[p].blocks), blocks[n], max);
    } else {
      OversizedBlockIsCutUp(plan, blocks, drafts, max, rule, n, p, k);
      assert Splits(blocks[n], plan[p].drafts, max, overlap);
    }
  }

  lemma {:induction false} OversizedBlockIsCutUp(
      plan: seq<Part>, blocks: seq<Block>, drafts: seq<Draft>, max: nat, rule: Rule, i: nat, p: nat, k: nat)
    requires GoodPlan(plan, blocks, drafts, max, rule)
    requires i < |blocks| && |blocks[i].text| > max && SitsAt(plan, i, p, k)
    ensures plan[p].CutUp? && plan[p].block == blocks[i] && rule(blocks[i], plan[p].drafts)
  {
    PlanOfPrefix(plan, p);
    assert blocks[i] == PartBlocks(plan[p])[k];
    assert GoodPart(plan[p], max, rule);
  }

  /** Block `n` of the one parse of the document holds line `i` and is accounted for. */
  ghost predicate LineIsAccounted(
      lines: seq<Line>, spans: seq<Span>, blocks: seq<Block>, n: nat, i: nat, chunks: seq<Chunk>, config: Config)
  {
    && Segmented(lines, spans, |lines|) && Described(lines, spans, blocks)
    && n < |spans| && Holds(spans[n], i)
    && Accounted(chunks, blocks[n], MaxChars(config), OverlapChars(config))
  }

  /**
   Every line with something on it lies in a block of the parse; a block that fits is whole in
   a chunk of its section within the limit, and any other is cut up by the splitting rule into
   chunks that follow each other.
   */
  lemma {:induction false} EveryLineIsChunked(
      input: string, config: Config, lower: string -> string, chunks: seq<Chunk>, lines: seq<Line>, i: nat)
    requires IsChunking(input, config, lower, chunks) && lines == LookAll(Lines(input))
    requires i < |lines| && !lines[i].blank
    ensures exists spans, blocks, n: nat :: LineIsAccounted(lines, spans, blocks, n, i, chunks, config)
  {
    var blocks: seq<Block>, drafts: seq<Draft> :|
      && IsParse(LookAll(Lines(input)), blocks)
      && IsMerge(blocks, drafts, MaxChars(config), OverlapChars(config))
      && chunks == LinkChunks(drafts, lower);
    var spans: seq<Span> :| Segmented(lines, spans, |lines|) && Described(lines, spans, blocks);
    OnlyBlankLinesAreLeftOut(lines, spans, |lines|, i);
    var n :| 0 <= n < |spans| && Holds(spans[n], i);
    EveryBlockIsAccounted(blocks, drafts, MaxChars(config), OverlapChars(config), lower, n);
    assert LineIsAccounted(lines, spans, blocks, n, i, chunks, config);
  }
}
