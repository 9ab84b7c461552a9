/**
 Greedy segmentation of a conversation: an online partition of the messages under a token
 budget, with a forced cut at every over-long pause.
 */
module Segmentation {
  import opened Wrappers
  import opened Text
  import opened Arithmetic
  import opened Sequences

  const NANOS_PER_SECOND: int := 1_000_000_000

  /** `createdAt` counts nanoseconds. */
  datatype Message = Message(role: string, content: string, turnIndex: int, createdAt: Option<int>)

  datatype Config = Config(targetTokens: int, maxTokens: int, timeGapSeconds: int)

  /** A configuration together with what a message weighs in tokens. */
  datatype Rules = Rules(targetTokens: int, maxTokens: int, timeGapSeconds: int, weigh: Message -> nat)

  /** `messages` stands for the text rendered from them; ids are derived from that content. */
  datatype Segment = Segment(
    id: nat,
    index: nat,
    messages: seq<Message>,
    startTurn: int,
    endTurn: int,
    startTime: Option<int>,
    endTime: Option<int>,
    tokenCount: nat,
    prev: Option<nat>,
    next: Option<nat>)

  datatype SegmentError = NoMessages

  function EstimateTokens(content: string): nat {
    Max(CountWords(content), (|content| + 3) / 4)
  }

  function Tokens(m: Message): (n: nat)
    ensures n >= 1
  {
    Max(EstimateTokens(m.content), 1)
  }

  function Target(rules: Rules): int {
    Min(Max(rules.targetTokens, 1), Max(rules.maxTokens, 1))
  }

  /** Whole seconds of a duration, rounded toward zero. */
  function NumSeconds(nanos: int): int {
    if nanos >= 0 then nanos / NANOS_PER_SECOND else -(-nanos / NANOS_PER_SECOND)
  }

  predicate Gap(rules: Rules, before: Option<int>, after: Option<int>) {
    before.Some? && after.Some? && NumSeconds(after.value - before.value) > rules.timeGapSeconds
  }

  function TokenSum(rules: Rules, messages: seq<Message>): nat {
    if messages == [] then 0 else TokenSum(rules, messages[..|messages| - 1]) + rules.weigh(messages[|messages| - 1])
  }

  // ---------------------------------------------------------------- the limits

  /** A segment keeps within the target, unless it is one message, and spans no over-long pause. */
  ghost predicate Fits(rules: Rules, group: seq<Message>) {
    && (|group| <= 1 || TokenSum(rules, group) <= Target(rules))
    && forall i, j :: 0 <= i < j < |group| && j == i + 1 ==> !Gap(rules, group[i].createdAt, group[j].createdAt)
  }

  /** Contiguous, non-empty, fitting segments that together are the conversation. */
  ghost predicate IsPartition(rules: Rules, groups: seq<seq<Message>>, messages: seq<Message>) {
    && Flatten(groups) == messages
    && forall i :: 0 <= i < |groups| ==> groups[i] != [] && Fits(rules, groups[i])
  }

  // ---------------------------------------------------------------- the greedy partition

  predicate MustCut(rules: Rules, current: seq<Message>, m: Message) {
    current != [] &&
    (Gap(rules, current[|current| - 1].createdAt, m.createdAt)
     || TokenSum(rules, current) + rules.weigh(m) > Target(rules))
  }

  function Greedy(rules: Rules, current: seq<Message>, rest: seq<Message>): seq<seq<Message>>
    decreases |rest|
  {
    if rest == [] then (if current == [] then [] else [current])
    else if MustCut(rules, current, rest[0]) then [current] + Greedy(rules, [rest[0]], rest[1..])
    else Greedy(rules, current + [rest[0]], rest[1..])
  }

  lemma {:induction false} TokenSumAppend(rules: Rules, a: seq<Message>, b: seq<Message>)
    ensures TokenSum(rules, a + b) == TokenSum(rules, a) + TokenSum(rules, b)
    decreases |b|
  {
    if b == [] {
      assert a + b == a;
    } else {
      TokenSumAppend(rules, a, b[..|b| - 1]);
      assert (a + b)[..|a + b| - 1] == a + b[..|b| - 1];
    }
  }

  /** The loop's test is exactly: the segment would no longer fit. */
  lemma CutIffTooMuch(rules: Rules, current: seq<Message>, m: Message)
    requires Fits(rules, current)
    ensures MustCut(rules, current, m) <==> current != [] && !Fits(rules, current + [m])
  {
    var longer := current + [m];
    assert longer[..|longer| - 1] == current;
    if current != [] {
      assert longer[|current| - 1] == current[|current| - 1] && longer[|current|] == m;
      forall i, j | 0 <= i < j < |longer| && j == i + 1 && j < |current|
        ensures !Gap(rules, longer[i].createdAt, longer[j].createdAt)
      {
        assert longer[i] == current[i] && longer[j] == current[j];
      }
    }
  }

  /** Dropping messages from the front of a fitting run leaves a fitting run. */
  lemma SuffixFits(rules: Rules, long: seq<Message>, k: nat)
    requires Fits(rules, long) && k <= |long|
    ensures Fits(rules, long[k..])
  {
    var short := long[k..];
    assert long == long[..k] + short;
    TokenSumAppend(rules, long[..k], short);
    forall i, j | 0 <= i < j < |short| && j == i + 1 ensures !Gap(rules, short[i].createdAt, short[j].createdAt) {
      assert short[i] == long[k + i] && short[j] == long[k + j];
    }
  }

  lemma PrefixFits(rules: Rules, long: seq<Message>, k: nat)
    requires Fits(rules, long) && k <= |long|
    ensures Fits(rules, long[..k])
  {
    var short := long[..k];
    assert long == short + long[k..];
    TokenSumAppend(rules, short, long[k..]);
    forall i, j | 0 <= i < j < |short| && j == i + 1 ensures !Gap(rules, short[i].createdAt, short[j].createdAt) {
      assert short[i] == long[i] && short[j] == long[j];
    }
  }

  lemma {:induction false} GreedyPartitions(rules: Rules, current: seq<Message>, rest: seq<Message>)
    requires Fits(rules, current)
    ensures IsPartition(rules, Greedy(rules, current, rest), current + rest)
    decreases |rest|
  {
    if rest == [] {
      assert current + rest == current;
      if current != [] {
        assert [current][1..] == [];
      }
    } else {
      CutIffTooMuch(rules, current, rest[0]);
      assert current + rest == (current + [rest[0]]) + rest[1..];
      if MustCut(rules, current, rest[0]) {
        GreedyPartitions(rules, [rest[0]], rest[1..]);
        assert [rest[0]] + rest[1..] == rest;
      } else {
        GreedyPartitions(rules, current + [rest[0]], rest[1..]);
      }
    }
  }

  /** An open segment that reaches further back and takes `m` lets the shorter one take it too. */
  lemma ShorterSegmentFitsToo(rules: Rules, current: seq<Message>, open: seq<Message>, m: Message, first: seq<Message>)
    requires |current| <= |open| && open[|open| - |current|..] == current
    requires Fits(rules, first) && |first| > |open| && first[..|open| + 1] == open + [m]
    ensures Fits(rules, current + [m])
  {
    PrefixFits(rules, first, |open| + 1);
    SuffixFits(rules, open + [m], |open| - |current|);
    assert (open + [m])[|open| - |current|..] == current + [m];
  }

  /** The rest of a partition once its first segment, which lies inside `open`, is taken off. */
  lemma DropFirstSegment(rules: Rules, open: seq<Message>, rest: seq<Message>, other: seq<seq<Message>>)
    requires IsPartition(rules, other, open + rest) && rest != [] && other != [] && |other[0]| <= |open|
    ensures IsPartition(rules, other[1..], (open[|other[0]|..] + [rest[0]]) + rest[1..])
  {
    var first := other[0];
    var after := Flatten(other[1..]);
    assert first + after == open + rest;
    assert after == (open + rest)[|first|..];
    assert (open + rest)[|first|..] == open[|first|..] + rest;
    assert rest == [rest[0]] + rest[1..];
  }

  lemma TakeOne(current: seq<Message>, open: seq<Message>, rest: seq<Message>)
    requires rest != [] && |current| <= |open| && open[|open| - |current|..] == current
    ensures open + rest == (open + [rest[0]]) + rest[1..]
    ensures (open + [rest[0]])[|open| - |current|..] == current + [rest[0]]
  {
  }

  /**
   Greedy stays ahead. Another partition of `open + rest`, whose open segment reaches back at
   least as far as the greedy one, cannot finish with fewer segments.
   */
  lemma {:induction false} GreedyStaysAhead(rules: Rules, current: seq<Message>, rest: seq<Message>,
                                            open: seq<Message>, other: seq<seq<Message>>)
    requires Fits(rules, current) && |current| <= |open| && open[|open| - |current|..] == current
    requires IsPartition(rules, other, open + rest)
    ensures |Greedy(rules, current, rest)| <= |other|
    decreases |rest|
  {
    if rest == [] {
      assert open + rest == open;
    } else {
      var m := rest[0];
      CutIffTooMuch(rules, current, m);
      if !MustCut(rules, current, m) {
        TakeOne(current, open, rest);
        GreedyStaysAhead(rules, current + [m], rest[1..], open + [m], other);
      } else {
        assert other != [];
        var first := other[0];
        assert first == (open + rest)[..|first|];
        if |first| > |open| {
          assert first[..|open| + 1] == open + [m];
          ShorterSegmentFitsToo(rules, current, open, m, first);
        }
        var left := open[|first|..] + [m];
        DropFirstSegment(rules, open, rest, other);
        GreedyStaysAhead(rules, [m], rest[1..], left, other[1..]);
      }
    }
  }

  /** No contiguous partition that meets the limits uses fewer segments. */
  lemma GreedyIsOptimal(rules: Rules, messages: seq<Message>, other: seq<seq<Message>>)
    requires IsPartition(rules, other, messages)
    ensures IsPartition(rules, Greedy(rules, [], messages), messages)
    ensures |Greedy(rules, [], messages)| <= |other|
  {
    assert [] + messages == messages;
    GreedyPartitions(rules, [], messages);
    GreedyStaysAhead(rules, [], messages, [], other);
  }

  lemma {:induction false} OpenSegmentOnlyGrows(rules: Rules, current: seq<Message>, rest: seq<Message>)
    requires current != []
    ensures Greedy(rules, current, rest) != [] && current <= Greedy(rules, current, rest)[0]
    decreases |rest|
  {
    if rest != [] && !MustCut(rules, current, rest[0]) {
      OpenSegmentOnlyGrows(rules, current + [rest[0]], rest[1..]);
    }
  }

  /** `later` repeats every segment of `earlier` but the last, which it may only extend. */
  ghost predicate Extends(earlier: seq<seq<Message>>, later: seq<seq<Message>>) {
    earlier == [] ||
    (&& |earlier| <= |later|
     && earlier[..|earlier| - 1] == later[..|earlier| - 1]
     && earlier[|earlier| - 1] <= later[|earlier| - 1])
  }

  /** Appending messages never moves an earlier cut. */
  lemma {:induction false} AppendingKeepsCuts(rules: Rules, current: seq<Message>, rest: seq<Message>,
                                              more: seq<Message>)
    ensures Extends(Greedy(rules, current, rest), Greedy(rules, current, rest + more))
    decreases |rest|
  {
    if rest == [] {
      assert rest + more == more;
      if current != [] {
        OpenSegmentOnlyGrows(rules, current, more);
      }
    } else {
      assert (rest + more)[1..] == rest[1..] + more;
      if MustCut(rules, current, rest[0]) {
        AppendingKeepsCuts(rules, [rest[0]], rest[1..], more);
        OpenSegmentOnlyGrows(rules, [rest[0]], rest[1..]);
        PrependKeepsExtends(current, Greedy(rules, [rest[0]], rest[1..]), Greedy(rules, [rest[0]], rest[1..] + more));
      } else {
        AppendingKeepsCuts(rules, current + [rest[0]], rest[1..], more);
      }
    }
  }

  lemma PrependKeepsExtends(group: seq<Message>, earlier: seq<seq<Message>>, later: seq<seq<Message>>)
    requires Extends(earlier, later) && earlier != []
    ensures Extends([group] + earlier, [group] + later)
  {
    var n := |earlier|;
    assert ([group] + earlier)[..n] == [group] + earlier[..n - 1];
    assert ([group] + later)[..n] == [group] + later[..n - 1];
  }

  // ---------------------------------------------------------------- the loop

  function NewSegment(rules: Rules, index: nat, messages: seq<Message>, idOf: seq<Message> -> nat): Segment
    requires messages != []
  {
    var last := |messages| - 1;
    Segment(idOf(messages), index, messages, messages[0].turnIndex, messages[last].turnIndex,
            messages[0].createdAt, messages[last].createdAt, TokenSum(rules, messages), None, None)
  }

  /** The segments of the groups, before they are linked. */
  function Unlinked(rules: Rules, groups: seq<seq<Message>>, idOf: seq<Message> -> nat): (r: seq<Segment>)
    requires forall k :: 0 <= k < |groups| ==> groups[k] != []
    ensures |r| == |groups|
  {
    seq(|groups|, k requires 0 <= k < |groups| => NewSegment(rules, k, groups[k], idOf))
  }

  /** A segment with its neighbours' ids filled in. */
  function WithLinks(unlinked: seq<Segment>, i: nat): Segment
    requires i < |unlinked|
  {
    unlinked[i].(
      prev := if i > 0 then Some(unlinked[i - 1].id) else None,
      next := if i + 1 < |unlinked| then Some(unlinked[i + 1].id) else None)
  }

  lemma TokenSumOfOneMore(rules: Rules, current: seq<Message>, m: Message)
    ensures TokenSum(rules, current + [m]) == TokenSum(rules, current) + rules.weigh(m)
  {
    assert (current + [m])[..|current|] == current;
  }

  lemma TokenSumOfOne(rules: Rules, m: Message)
    ensures TokenSum(rules, [m]) == rules.weigh(m)
  {
    assert [m][..0] == [];
  }

  /** One unlinked segment per group. */
  ghost predicate Emitted(rules: Rules, segments: seq<Segment>, groups: seq<seq<Message>>, idOf: seq<Message> -> nat) {
    && |segments| == |groups|
    && (forall k :: 0 <= k < |groups| ==> groups[k] != [] && segments[k] == NewSegment(rules, k, groups[k], idOf))
  }

  lemma EmitsOneMore(rules: Rules, segments: seq<Segment>, groups: seq<seq<Message>>, idOf: seq<Message> -> nat,
                     group: seq<Message>)
    requires Emitted(rules, segments, groups, idOf) && group != []
    ensures Emitted(rules, segments + [NewSegment(rules, |segments|, group, idOf)], groups + [group], idOf)
  {
  }

  /** The segments cut so far, and what is still to be cut from the open one and the rest. */
  ghost predicate Cutting(
      rules: Rules, whole: seq<seq<Message>>, groups: seq<seq<Message>>, segments: seq<Segment>,
      current: seq<Message>, rest: seq<Message>, idOf: seq<Message> -> nat)
  {
    Emitted(rules, segments, groups, idOf) && groups + Greedy(rules, current, rest) == whole
  }

  lemma CutStep(
      rules: Rules, whole: seq<seq<Message>>, groups: seq<seq<Message>>, segments: seq<Segment>,
      current: seq<Message>, rest: seq<Message>, idOf: seq<Message> -> nat)
    requires Cutting(rules, whole, groups, segments, current, rest, idOf) && rest != []
    ensures if MustCut(rules, current, rest[0])
            then Cutting(rules, whole, groups + [current], segments + [NewSegment(rules, |segments|, current, idOf)],
                   [rest[0]], rest[1..], idOf)
            else Cutting(rules, whole, groups, segments, current + [rest[0]], rest[1..], idOf)
  {
    GreedyTakes(rules, current, rest, groups);
    if MustCut(rules, current, rest[0]) {
      EmitsOneMore(rules, segments, groups, idOf, current);
    }
  }

  lemma CutEnd(
      rules: Rules, whole: seq<seq<Message>>, groups: seq<seq<Message>>, segments: seq<Segment>,
      current: seq<Message>, idOf: seq<Message> -> nat)
    requires Cutting(rules, whole, groups, segments, current, [], idOf) && current != []
    ensures Emitted(rules, segments + [NewSegment(rules, |segments|, current, idOf)], whole, idOf)
  {
    EmitsOneMore(rules, segments, groups, idOf, current);
  }

  /** What the loop keeps: the cut so far, and the tokens and the time of the open segment. */
  ghost predicate Reading(
      rules: Rules, whole: seq<seq<Message>>, groups: seq<seq<Message>>, segments: seq<Segment>,
      current: seq<Message>, tokens: nat, lastTime: Option<int>, rest: seq<Message>, idOf: seq<Message> -> nat)
  {
    && Cutting(rules, whole, groups, segments, current, rest, idOf)
    && tokens == TokenSum(rules, current)
    && lastTime == if current == [] then None else current[|current| - 1].createdAt
  }

  predicate CutsHere(rules: Rules, open: bool, tokens: nat, weight: nat, lastTime: Option<int>, time: Option<int>) {
    var most := Max(rules.maxTokens, 1);
    || Gap(rules, lastTime, time)
    || (open && tokens + weight > Min(Max(rules.targetTokens, 1), most))
    || (open && tokens + weight > most)
  }

  /** The three tests of the loop together are the test of the greedy partition. */
  lemma CutTest(rules: Rules, current: seq<Message>, m: Message, weight: nat, tokens: nat, lastTime: Option<int>)
    requires tokens == TokenSum(rules, current) && weight == rules.weigh(m)
    requires lastTime == if current == [] then None else current[|current| - 1].createdAt
    ensures MustCut(rules, current, m) <==> CutsHere(rules, current != [], tokens, weight, lastTime, m.createdAt)
  {
  }

  lemma ReadStep(
      rules: Rules, whole: seq<seq<Message>>, groups: seq<seq<Message>>, segments: seq<Segment>,
      current: seq<Message>, tokens: nat, lastTime: Option<int>, rest: seq<Message>, idOf: seq<Message> -> nat,
      m: Message, weight: nat)
    requires Reading(rules, whole, groups, segments, current, tokens, lastTime, rest, idOf)
    requires rest != [] && m == rest[0] && weight == rules.weigh(m)
    ensures if CutsHere(rules, current != [], tokens, weight, lastTime, m.createdAt)
            then
              && current != []
              && Reading(rules, whole, groups + [current], segments + [NewSegment(rules, |segments|, current, idOf)],
                   [m], weight, m.createdAt, rest[1..], idOf)
            else Reading(rules, whole, groups, segments, current + [m], tokens + weight, m.createdAt, rest[1..], idOf)
  {
    CutTest(rules, current, m, weight, tokens, lastTime);
    CutStep(rules, whole, groups, segments, current, rest, idOf);
    TokenSumOfOneMore(rules, current, m);
    TokenSumOfOne(rules, m);
  }

  /** The loop over the messages: the segments of the greedy partition, in order. */
  method CutSegments(messages: seq<Message>, rules: Rules, idOf: seq<Message> -> nat) returns (segments: seq<Segment>)
    requires messages != []
    ensures Emitted(rules, segments, Greedy(rules, [], messages), idOf)
  {
    segments := [];
    ghost var groups: seq<seq<Message>> := [];
    var current: seq<Message> := [];
    var currentTokens: nat := 0;
    var lastTime: Option<int> := None;
    ghost var whole := Greedy(rules, current, messages);
    assert messages[0..] == messages;
    for i := 0 to |messages|
      invariant i > 0 ==> current != []
      invariant Reading(rules, whole, groups, segments, current, currentTokens, lastTime, messages[i..], idOf)
    {
      var m := messages[i];
      var weight := rules.weigh(m);
      ghost var rest := messages[i..];
      assert rest[1..] == messages[i + 1..];
      ReadStep(rules, whole, groups, segments, current, currentTokens, lastTime, rest, idOf, m, weight);
      if CutsHere(rules, current != [], currentTokens, weight, lastTime, m.createdAt) {
        segments := segments + [NewSegment(rules, |segments|, current, idOf)];
        groups := groups + [current];
        current, currentTokens := [], 0;
        assert current + [m] == [m];
      }
      current := current + [m];
      currentTokens := currentTokens + weight;
      lastTime := m.createdAt;
    }
    assert messages[|messages|..] == [];
    CutEnd(rules, whole, groups, segments, current, idOf);
    segments := segments + [NewSegment(rules, |segments|, current, idOf)];
  }

  lemma GreedyTakes(rules: Rules, current: seq<Message>, rest: seq<Message>, groups: seq<seq<Message>>)
    requires rest != []
    ensures groups + Greedy(rules, current, rest) ==
              if MustCut(rules, current, rest[0]) then (groups + [current]) + Greedy(rules, [] + [rest[0]], rest[1..])
              else groups + Greedy(rules, current + [rest[0]], rest[1..])
  {
    assert [] + [rest[0]] == [rest[0]];
  }

  method SegmentBy(messages: seq<Message>, rules: Rules, idOf: seq<Message> -> nat)
    returns (r: Result<seq<Segment>, SegmentError>)
    ensures r.Err? <==> messages == []
    ensures r.Ok? ==> IsSegmentation(rules, messages, idOf, r.value)
  {
    if messages == [] {
      return Err(NoMessages);
    }
    var segments := CutSegments(messages, rules, idOf);
    segments := LinkSegments(segments);
    r := Ok(segments);
  }

  /** The linked segments of the greedy partition. */
  ghost predicate IsSegmentation(
      rules: Rules, messages: seq<Message>, idOf: seq<Message> -> nat, segments: seq<Segment>)
  {
    var groups := Greedy(rules, [], messages);
    && |segments| == |groups|
    && (forall i :: 0 <= i < |groups| ==> groups[i] != [])
    && (forall i :: 0 <= i < |groups| ==> segments[i] == WithLinks(Unlinked(rules, groups, idOf), i))
  }

  /** The configured limits, and messages weighed by the token estimate of their content. */
  function RulesOf(config: Config): Rules {
    Rules(config.targetTokens, config.maxTokens, config.timeGapSeconds, (m: Message) => Tokens(m))
  }

  method SegmentMessages(messages: seq<Message>, config: Config, idOf: seq<Message> -> nat)
    returns (r: Result<seq<Segment>, SegmentError>)
    ensures r.Err? <==> messages == []
    ensures r.Ok? ==> IsSegmentation(RulesOf(config), messages, idOf, r.value)
  {
    r := SegmentBy(messages, RulesOf(config), idOf);
  }

  /** Each segment learns the ids of its neighbours, in place. */
  method LinkSegments(unlinked: seq<Segment>) returns (segments: seq<Segment>)
    requires forall k :: 0 <= k < |unlinked| ==> unlinked[k].prev == None && unlinked[k].next == None
    ensures |segments| == |unlinked|
    ensures forall k :: 0 <= k < |segments| ==> segments[k] == WithLinks(unlinked, k)
  {
    segments := unlinked;
    var i := 0;
    while i < |segments|
      invariant 0 <= i <= |segments| == |unlinked|
      invariant forall k :: 0 <= k < i ==> segments[k] == WithLinks(unlinked, k)
      invariant forall k :: i <= k < |segments| ==> segments[k] == unlinked[k]
    {
      if i > 0 {
        segments := segments[i := segments[i].(prev := Some(segments[i - 1].id))];
      }
      if i + 1 < |segments| {
        segments := segments[i := segments[i].(next := Some(segments[i + 1].id))];
      }
      i := i + 1;
    }
  }
}
