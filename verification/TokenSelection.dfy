/**
 The selection step of text compression: which tokens are kept. Scores are arbitrary reals.
 */
module TokenSelection {
  import opened Arithmetic

  datatype Token = Token(text: string, score: real, structural: bool)

  datatype Selection = WholeText | Kept(positions: seq<nat>)

  function Clamp(ratio: real): real {
    if ratio < 0.1 then 0.1 else if ratio > 1.0 then 1.0 else ratio
  }

  function Ceil(x: real): int {
    -((-x).Floor)
  }

  function TargetCount(n: nat, ratio: real): nat {
    var count := Ceil(n as real * Clamp(ratio));
    if count < 1 then 1 else count
  }

  /** The positions of the structural or of the content tokens, ascending. */
  function PositionsUpTo(tokens: seq<Token>, structural: bool, n: nat): seq<nat>
    requires n <= |tokens|
  {
    if n == 0 then []
    else PositionsUpTo(tokens, structural, n - 1) + if tokens[n - 1].structural == structural then [n - 1] else []
  }

  function Positions(tokens: seq<Token>, structural: bool): seq<nat> {
    PositionsUpTo(tokens, structural, |tokens|)
  }

  /** A better score comes first; equal scores keep their order in the text. */
  predicate Ahead(tokens: seq<Token>, i: nat, j: nat)
    requires i < |tokens| && j < |tokens|
  {
    tokens[i].score > tokens[j].score || (tokens[i].score == tokens[j].score && i < j)
  }

  ghost predicate Within(tokens: seq<Token>, s: seq<nat>) {
    forall i :: 0 <= i < |s| ==> s[i] < |tokens|
  }

  function InsertRanked(tokens: seq<Token>, x: nat, s: seq<nat>): seq<nat>
    requires x < |tokens| && Within(tokens, s)
  {
    if s == [] then [x]
    else if Ahead(tokens, x, s[0]) then [x] + s
    else [s[0]] + InsertRanked(tokens, x, s[1..])
  }

  /** A stable sort by descending score. */
  function Ranked(tokens: seq<Token>, s: seq<nat>): (r: seq<nat>)
    requires Within(tokens, s)
    ensures Within(tokens, r)
  {
    if s == [] then []
    else
      InsertKeeps(tokens, s[0], Ranked(tokens, s[1..]));
      InsertRanked(tokens, s[0], Ranked(tokens, s[1..]))
  }

  lemma {:induction false} InsertKeeps(tokens: seq<Token>, x: nat, s: seq<nat>)
    requires x < |tokens| && Within(tokens, s)
    ensures Within(tokens, InsertRanked(tokens, x, s))
    ensures multiset(InsertRanked(tokens, x, s)) == multiset(s) + multiset{x}
    decreases |s|
  {
    if s != [] && !Ahead(tokens, x, s[0]) {
      InsertKeeps(tokens, x, s[1..]);
      assert s == [s[0]] + s[1..];
    }
  }

  ghost predicate InOrder(tokens: seq<Token>, s: seq<nat>)
    requires Within(tokens, s)
  {
    forall i, j :: 0 <= i < j < |s| ==> s[i] == s[j] || Ahead(tokens, s[i], s[j])
  }

  /** `low` is not beaten by anything in `s`. */
  ghost predicate Tops(tokens: seq<Token>, low: nat, s: seq<nat>)
    requires low < |tokens| && Within(tokens, s)
  {
    forall i :: 0 <= i < |s| ==> low == s[i] || Ahead(tokens, low, s[i])
  }

  lemma {:induction false} InsertKeepsTop(tokens: seq<Token>, top: nat, x: nat, s: seq<nat>)
    requires x < |tokens| && top < |tokens| && Within(tokens, s)
             && Tops(tokens, top, s) && (top == x || Ahead(tokens, top, x))
    ensures Within(tokens, InsertRanked(tokens, x, s)) && Tops(tokens, top, InsertRanked(tokens, x, s))
    decreases |s|
  {
    InsertKeeps(tokens, x, s);
    if s != [] && !Ahead(tokens, x, s[0]) {
      InsertKeepsTop(tokens, top, x, s[1..]);
    }
  }

  lemma {:induction false} InsertKeepsOrder(tokens: seq<Token>, x: nat, s: seq<nat>)
    requires x < |tokens| && Within(tokens, s) && InOrder(tokens, s)
    ensures Within(tokens, InsertRanked(tokens, x, s)) && InOrder(tokens, InsertRanked(tokens, x, s))
    decreases |s|
  {
    InsertKeeps(tokens, x, s);
    if s != [] && !Ahead(tokens, x, s[0]) {
      InsertKeepsOrder(tokens, x, s[1..]);
      InsertKeepsTop(tokens, s[0], x, s[1..]);
    }
  }

  lemma {:induction false} RankedKeeps(tokens: seq<Token>, s: seq<nat>)
    requires Within(tokens, s)
    ensures multiset(Ranked(tokens, s)) == multiset(s)
    decreases |s|
  {
    if s != [] {
      var first, rest := s[0], s[1..];
      RankedKeeps(tokens, rest);
      InsertKeeps(tokens, first, Ranked(tokens, rest));
      BagOfFirst(s);
    }
  }

  lemma {:induction false} BagOfFirst(s: seq<nat>)
    requires s != []
    ensures multiset(s) == multiset(s[1..]) + multiset{s[0]}
  {
    assert s == [s[0]] + s[1..];
  }

  lemma {:induction false} RankedOrders(tokens: seq<Token>, s: seq<nat>)
    requires Within(tokens, s)
    ensures InOrder(tokens, Ranked(tokens, s))
    decreases |s|
  {
    if s != [] {
      RankedOrders(tokens, s[1..]);
      InsertKeepsOrder(tokens, s[0], Ranked(tokens, s[1..]));
    }
  }

  lemma {:induction false} RankedSorts(tokens: seq<Token>, s: seq<nat>)
    requires Within(tokens, s)
    ensures InOrder(tokens, Ranked(tokens, s)) && multiset(Ranked(tokens, s)) == multiset(s)
    ensures |Ranked(tokens, s)| == |s|
  {
    RankedOrders(tokens, s);
    RankedKeeps(tokens, s);
    assert |multiset(Ranked(tokens, s))| == |multiset(s)|;
  }

  function InsertAscending(x: nat, s: seq<nat>): seq<nat> {
    if s == [] then [x] else if x <= s[0] then [x] + s else [s[0]] + InsertAscending(x, s[1..])
  }

  function Ascending(s: seq<nat>): seq<nat> {
    if s == [] then [] else InsertAscending(s[0], Ascending(s[1..]))
  }

  ghost predicate NonDecreasing(s: seq<nat>) {
    forall i, j :: 0 <= i < j < |s| ==> s[i] <= s[j]
  }

  lemma {:induction false} InsertAscendingKeeps(x: nat, s: seq<nat>)
    ensures multiset(InsertAscending(x, s)) == multiset(s) + multiset{x}
    decreases |s|
  {
    if s != [] && x > s[0] {
      InsertAscendingKeeps(x, s[1..]);
      assert s == [s[0]] + s[1..];
    }
  }

  lemma {:induction false} InsertAscends(x: nat, s: seq<nat>, low: nat)
    requires NonDecreasing(s) && low <= x && forall i :: 0 <= i < |s| ==> low <= s[i]
    ensures NonDecreasing(InsertAscending(x, s))
    ensures forall i :: 0 <= i < |InsertAscending(x, s)| ==> low <= InsertAscending(x, s)[i]
    decreases |s|
  {
    if s != [] && x > s[0] {
      InsertAscends(x, s[1..], s[0]);
    }
  }

  lemma {:induction false} AscendingSorts(s: seq<nat>)
    ensures NonDecreasing(Ascending(s))
    decreases |s|
  {
    if s != [] {
      AscendingSorts(s[1..]);
      InsertAscends(s[0], Ascending(s[1..]), 0);
    }
  }

  lemma {:induction false} AscendingKeeps(s: seq<nat>)
    ensures multiset(Ascending(s)) == multiset(s)
    decreases |s|
  {
    if s != [] {
      AscendingKeeps(s[1..]);
      InsertAscendingKeeps(s[0], Ascending(s[1..]));
      assert s == [s[0]] + s[1..];
    }
  }

  ghost predicate AscendsBelow(p: seq<nat>, n: nat) {
    && (forall i, j :: 0 <= i < j < |p| ==> p[i] < p[j])
    && (forall i :: 0 <= i < |p| ==> p[i] < n)
  }

  lemma {:induction false} AscendsOneMore(p: seq<nat>, n: nat)
    requires AscendsBelow(p, n)
    ensures AscendsBelow(p, n + 1) && AscendsBelow(p + [n], n + 1)
  {
  }

  lemma {:induction false} PositionsAscend(tokens: seq<Token>, structural: bool, n: nat)
    requires n <= |tokens|
    ensures AscendsBelow(PositionsUpTo(tokens, structural, n), n)
  {
    if n > 0 {
      PositionsAscend(tokens, structural, n - 1);
      var before := PositionsUpTo(tokens, structural, n - 1);
      AscendsOneMore(before, n - 1);
      assert before + [] == before;
    }
  }

  lemma {:induction false} InOneMore(s: seq<nat>, x: nat, i: nat)
    ensures i in s + [x] <==> i in s || i == x
  {
  }

  lemma {:induction false} PositionsHold(tokens: seq<Token>, structural: bool, n: nat, i: nat)
    requires n <= |tokens|
    ensures i in PositionsUpTo(tokens, structural, n) <==> i < n && tokens[i].structural == structural
  {
    if n > 0 {
      PositionsHold(tokens, structural, n - 1, i);
      InOneMore(PositionsUpTo(tokens, structural, n - 1), n - 1, i);
      if tokens[n - 1].structural != structural {
        assert PositionsUpTo(tokens, structural, n) == PositionsUpTo(tokens, structural, n - 1);
      }
    }
  }

  lemma {:induction false} PositionsFind(tokens: seq<Token>, structural: bool, n: nat)
    requires n <= |tokens|
    ensures var p := PositionsUpTo(tokens, structural, n);
            && (forall i, j :: 0 <= i < j < |p| ==> p[i] < p[j])
            && (forall i :: 0 <= i < |p| ==> p[i] < n)
            && (forall i :: i in p <==> 0 <= i < n && tokens[i].structural == structural)
  {
    PositionsAscend(tokens, structural, n);
    forall i ensures i in PositionsUpTo(tokens, structural, n) <==> 0 <= i < n && tokens[i].structural == structural {
      if i >= 0 { PositionsHold(tokens, structural, n, i); }
    }
  }

  lemma {:induction false} PositionsCover(tokens: seq<Token>, n: nat)
    requires n <= |tokens|
    ensures |PositionsUpTo(tokens, true, n)| + |PositionsUpTo(tokens, false, n)| == n
  {
    if n > 0 {
      PositionsCover(tokens, n - 1);
    }
  }

  lemma TargetFits(n: nat, ratio: real)
    ensures 0 < n ==> TargetCount(n, ratio) <= n
  {
    var x := n as real * Clamp(ratio);
    if n > 0 {
      assert x <= n as real by { ProductShrinks(n as real, Clamp(ratio)); }
    }
  }

  lemma ProductShrinks(a: real, r: real)
    requires 0.0 <= a && r <= 1.0
    ensures a * r <= a
  {
  }

  // ---------------------------------------------------------------- the selection

  /** The kept positions: ascending, every structural token, and the best content tokens. */
  ghost predicate GoodSelection(tokens: seq<Token>, count: nat, kept: seq<nat>) {
    && |kept| == count
    && (forall i, j :: 0 <= i < j < |kept| ==> kept[i] < kept[j])
    && (forall i :: 0 <= i < |kept| ==> kept[i] < |tokens|)
    && (forall i :: 0 <= i < |tokens| && tokens[i].structural ==> i in kept)
    && (forall i, j :: i in kept && 0 <= j < |tokens| && j !in kept && !tokens[i].structural ==> Ahead(tokens, i, j))
  }

  /** Once `kept` is a rearrangement of distinct positions, its order and its size follow. */
  lemma DistinctAscendStrictly(s: seq<nat>)
    requires forall i, j :: 0 <= i < j < |s| ==> s[i] != s[j]
    ensures forall i, j :: 0 <= i < j < |Ascending(s)| ==> Ascending(s)[i] < Ascending(s)[j]
    ensures |Ascending(s)| == |s| && forall x :: x in Ascending(s) <==> x in s
  {
    AscendingSorts(s);
    AscendingKeeps(s);
    var t := Ascending(s);
    assert |multiset(t)| == |multiset(s)|;
    forall x ensures x in t <==> x in s {
      assert x in multiset(t) <==> x in multiset(s);
    }
    RearrangedStaysDistinct(s, t);
  }

  lemma RearrangedStaysDistinct(s: seq<nat>, t: seq<nat>)
    requires multiset(s) == multiset(t) && forall i, j :: 0 <= i < j < |s| ==> s[i] != s[j]
    ensures forall i, j :: 0 <= i < j < |t| ==> t[i] != t[j]
  {
    forall i, j | 0 <= i < j < |t| ensures t[i] != t[j] {
      OnePlace(s, t[i]);
      if t[i] == t[j] {
        TwoPlaces(t, i, j);
      }
    }
  }

  lemma TwoPlaces(s: seq<nat>, i: nat, j: nat)
    requires i < j < |s| && s[i] == s[j]
    ensures multiset(s)[s[i]] >= 2
  {
    assert s == s[..i] + [s[i]] + s[i + 1..j] + [s[j]] + s[j + 1..];
  }

  lemma {:induction false} OnePlace(s: seq<nat>, x: nat)
    requires forall i, j :: 0 <= i < j < |s| ==> s[i] != s[j]
    ensures multiset(s)[x] <= 1
    decreases |s|
  {
    if s != [] {
      OnePlace(s[1..], x);
      assert s == [s[0]] + s[1..];
      if s[0] == x {
        assert x !in s[1..];
      }
    }
  }

  /** `ranked` holds the content positions, best first; `structural` all the others. */
  ghost predicate Split(tokens: seq<Token>, structural: seq<nat>, ranked: seq<nat>) {
    && (forall i, j :: 0 <= i < j < |structural| ==> structural[i] != structural[j])
    && (forall i, j :: 0 <= i < j < |ranked| ==> ranked[i] != ranked[j])
    && (forall i :: i in structural <==> 0 <= i < |tokens| && tokens[i].structural)
    && (forall i :: i in ranked <==> 0 <= i < |tokens| && !tokens[i].structural)
    && Within(tokens, ranked) && InOrder(tokens, ranked)
  }

  lemma RankedSplits(tokens: seq<Token>)
    ensures var content := Positions(tokens, false);
            Within(tokens, content) && Split(tokens, Positions(tokens, true), Ranked(tokens, content))
    ensures |Ranked(tokens, Positions(tokens, false))| == |tokens| - |Positions(tokens, true)|
  {
    var content := Positions(tokens, false);
    PositionsFind(tokens, true, |tokens|);
    PositionsFind(tokens, false, |tokens|);
    PositionsCover(tokens, |tokens|);
    RankedSorts(tokens, content);
    var ranked := Ranked(tokens, content);
    RearrangedStaysDistinct(content, ranked);
    forall i ensures i in ranked <==> i in content {
      assert i in multiset(ranked) <==> i in multiset(content);
    }
  }

  /** Every kept content position ranks ahead of every position left out. */
  ghost predicate Beats(tokens: seq<Token>, keep: seq<nat>) {
    forall i: nat, j: nat {:trigger Ahead(tokens, i, j)} ::
      i < |tokens| && j < |tokens| && i in keep && j !in keep && !tokens[i].structural ==> Ahead(tokens, i, j)
  }

  /** Sorting the positions to keep changes nothing about which they are. */
  lemma {:induction false} SelectionOf(tokens: seq<Token>, keep: seq<nat>, kept: seq<nat>)
    requires |kept| == |keep| && (forall x :: x in kept <==> x in keep)
    requires forall i, j :: 0 <= i < j < |kept| ==> kept[i] < kept[j]
    requires forall x :: x in keep ==> x < |tokens|
    requires forall i :: 0 <= i < |tokens| && tokens[i].structural ==> i in keep
    requires Beats(tokens, keep)
    ensures GoodSelection(tokens, |keep|, kept)
  {
    forall i | 0 <= i < |kept| ensures kept[i] < |tokens| {
      assert kept[i] in kept;
    }
  }

  lemma {:induction false} KeepIsDistinct(tokens: seq<Token>, structural: seq<nat>, ranked: seq<nat>, k: nat)
    requires Split(tokens, structural, ranked) && k <= |ranked|
    ensures var keep := structural + ranked[..k]; forall i, j :: 0 <= i < j < |keep| ==> keep[i] != keep[j]
  {
    var keep := structural + ranked[..k];
    forall i, j | 0 <= i < j < |keep| ensures keep[i] != keep[j] {
      if i < |structural| <= j {
        assert keep[i] in structural && keep[j] in ranked;
      }
    }
  }

  lemma {:induction false} KeepHolds(tokens: seq<Token>, structural: seq<nat>, ranked: seq<nat>, k: nat)
    requires Split(tokens, structural, ranked) && k <= |ranked|
    ensures var keep := structural + ranked[..k];
            && (forall x :: x in keep ==> x < |tokens|)
            && (forall i :: 0 <= i < |tokens| && tokens[i].structural ==> i in keep)
  {
    var keep := structural + ranked[..k];
    forall x | x in keep ensures x < |tokens| {
      assert x in structural || x in ranked[..k];
      assert x in structural || x in ranked;
    }
  }

  lemma {:induction false} KeepBeats(tokens: seq<Token>, structural: seq<nat>, ranked: seq<nat>, k: nat)
    requires Split(tokens, structural, ranked) && k <= |ranked|
    ensures Beats(tokens, structural + ranked[..k])
  {
    var keep := structural + ranked[..k];
    forall i: nat, j: nat | i < |tokens| && j < |tokens| && i in keep && j !in keep && !tokens[i].structural
      ensures Ahead(tokens, i, j)
    {
      KeptBeatsDropped(tokens, structural, ranked, k, i, j);
    }
  }

  lemma KeepIsGood(tokens: seq<Token>, structural: seq<nat>, ranked: seq<nat>, k: nat)
    requires Split(tokens, structural, ranked) && k <= |ranked|
    ensures GoodSelection(tokens, |structural| + k, Ascending(structural + ranked[..k]))
  {
    var keep := structural + ranked[..k];
    KeepIsDistinct(tokens, structural, ranked, k);
    KeepHolds(tokens, structural, ranked, k);
    KeepBeats(tokens, structural, ranked, k);
    DistinctAscendStrictly(keep);
    SelectionOf(tokens, keep, Ascending(keep));
  }

  lemma KeptBeatsDropped(tokens: seq<Token>, structural: seq<nat>, ranked: seq<nat>, k: nat, i: nat, j: nat)
    requires Split(tokens, structural, ranked) && k <= |ranked|
    requires i < |tokens| && j < |tokens| && i in structural + ranked[..k]
             && j !in structural + ranked[..k] && !tokens[i].structural
    ensures Ahead(tokens, i, j)
  {
    assert i in ranked[..k];
    var p :| 0 <= p < k && ranked[p] == i;
    assert ranked == ranked[..k] + ranked[k..];
    assert j in ranked && j !in ranked[..k];
    var q :| k <= q < |ranked| && ranked[q] == j;
  }

  lemma StructuralAloneIsGood(tokens: seq<Token>)
    ensures GoodSelection(tokens, |Positions(tokens, true)|, Positions(tokens, true))
  {
    PositionsFind(tokens, true, |tokens|);
  }

  method SelectTokens(tokens: seq<Token>, ratio: real) returns (selection: Selection)
    ensures selection == WholeText <==> |tokens| <= 3 || Clamp(ratio) >= 0.95
    ensures selection.Kept? ==>
              GoodSelection(tokens, Max(|Positions(tokens, true)|, TargetCount(|tokens|, ratio)), selection.positions)
  {
    if |tokens| <= 3 || Clamp(ratio) >= 0.95 {
      return WholeText;
    }
    var target := TargetCount(|tokens|, ratio);
    var structural := Positions(tokens, true);
    if |structural| >= target {
      StructuralAloneIsGood(tokens);
      return Kept(structural);
    }
    RankedSplits(tokens);
    TargetFits(|tokens|, ratio);
    var toKeep := target - |structural|;
    var ranked := Ranked(tokens, Positions(tokens, false));
    KeepIsGood(tokens, structural, ranked, toKeep);
    selection := Kept(Ascending(structural + ranked[..toKeep]));
  }
}
