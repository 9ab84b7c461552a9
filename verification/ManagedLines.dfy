/**
 The managed block of a configuration file, line by line: what a save strips from the old
 file, what it keeps, and what saving twice does. The classification of lines is a parameter.
 */
module ManagedLines {
  import opened Text

  datatype Kind = Begin | End | ManagedHeader | OtherHeader | Plain

  /** How lines are told apart, and the two sentinel lines of the managed block. */
  datatype Dialect = Dialect(kind: string -> Kind, begin: string, end: string)

  ghost predicate Lawful(d: Dialect) {
    && d.kind(d.begin) == Begin
    && d.kind(d.end) == End
    && d.kind("") == Plain
    && forall line :: d.kind(TrimEnd(line)) == d.kind(line)
  }

  /** The two flags of the stripping loop. */
  datatype Flags = Flags(inManaged: bool, skipping: bool)

  const Outside := Flags(false, false)

  function Advance(flags: Flags, kind: Kind): Flags {
    match kind
    case Begin => flags.(inManaged := true)
    case End => flags.(inManaged := false)
    case _ =>
      if flags.inManaged then flags
      else if kind == ManagedHeader then flags.(skipping := true)
      else if kind == OtherHeader then flags.(skipping := false)
      else flags
  }

  /** Whether a line of this kind is kept, given the flags after it. */
  predicate Keeps(after: Flags, kind: Kind) {
    kind != Begin && kind != End && !after.inManaged && !after.skipping
  }

  function Strip(d: Dialect, lines: seq<string>, flags: Flags): seq<string>
    decreases |lines|
  {
    if lines == [] then []
    else
      var after := Advance(flags, d.kind(lines[0]));
      (if Keeps(after, d.kind(lines[0])) then [lines[0]] else []) + Strip(d, lines[1..], after)
  }

  function FlagsAfter(d: Dialect, lines: seq<string>, flags: Flags): Flags
    decreases |lines|
  {
    if lines == [] then flags else FlagsAfter(d, lines[1..], Advance(flags, d.kind(lines[0])))
  }

  /** One round of the loop: the lines kept so far and those still to come. */
  lemma StripTakes(d: Dialect, kept: seq<string>, rest: seq<string>, flags: Flags)
    requires rest != []
    ensures var after := Advance(flags, d.kind(rest[0]));
            kept + Strip(d, rest, flags)
            == (kept + if Keeps(after, d.kind(rest[0])) then [rest[0]] else []) + Strip(d, rest[1..], after)
  {
  }

  method StripManagedAndTables(d: Dialect, lines: seq<string>) returns (kept: seq<string>)
    ensures kept == Strip(d, lines, Outside)
  {
    kept := [];
    var inManaged, skipping := false, false;
    var i := 0;
    assert lines[0..] == lines;
    while i < |lines|
      invariant 0 <= i <= |lines|
      invariant kept + Strip(d, lines[i..], Flags(inManaged, skipping)) == Strip(d, lines, Outside)
    {
      StripTakes(d, kept, lines[i..], Flags(inManaged, skipping));
      assert lines[i..][1..] == lines[i + 1..];
      ghost var flags, taken := Flags(inManaged, skipping), kept;
      var kind := d.kind(lines[i]);
      if kind == Begin {
        inManaged := true;
      } else if kind == End {
        inManaged := false;
      } else if !inManaged {
        if kind == ManagedHeader {
          skipping := true;
        } else if kind == OtherHeader {
          skipping := false;
        }
        if !skipping {
          kept := kept + [lines[i]];
        }
      }
      assert kept == taken + if Keeps(Advance(flags, kind), kind) then [lines[i]] else [];
      i := i + 1;
    }
  }

  /** Dropping the white space at the end of the joined text, seen line by line. */
  function TrimLines(lines: seq<string>): seq<string> {
    if lines == [] then []
    else
      var last := lines[|lines| - 1];
      if IsBlank(last) then TrimLines(lines[..|lines| - 1]) else lines[..|lines| - 1] + [TrimEnd(last)]
  }

  lemma {:induction false} BlankAfterBreak(br: string, last: string)
    requires br == ['\n'] && IsBlank(last)
    ensures IsBlank(br + last)
  {
    BlankFirst('\n', last);
  }

  lemma {:induction false} TrimLinesWith(lines: seq<string>, br: string)
    requires br == ['\n']
    ensures Join(TrimLines(lines), br) == TrimEnd(Join(lines, br))
    decreases |lines|
  {
    if lines != [] {
      var before, last := lines[..|lines| - 1], lines[|lines| - 1];
      assert lines == before + [last];
      if IsBlank(last) {
        TrimLinesWith(before, br);
        if before != [] {
          JoinLast(before, last, br);
          BlankAfterBreak(br, last);
          assert Join(lines, br) == Join(before, br) + (br + last);
          TrimEndOfBlankSuffix(Join(before, br), br + last, Join(lines, br));
        } else {
          assert TrimEnd(last) == [] == TrimEnd([]);
        }
      } else if before != [] {
        JoinLast(before, last, br);
        JoinLast(before, TrimEnd(last), br);
        TrimEndKeepsFront(Join(before, br) + br, last);
      } else {
        assert TrimLines(lines) == [TrimEnd(last)];
      }
    }
  }

  /** Trimming line by line is trimming the end of the joined text. */
  lemma {:induction false} TrimLinesIsTrimEnd(lines: seq<string>)
    ensures Join(TrimLines(lines), "\n") == TrimEnd(Join(lines, "\n"))
  {
    TrimLinesWith(lines, "\n");
  }

  /** The file after a save: the kept lines, a blank line if there are any, and the new block. */
  function Rewrite(d: Dialect, lines: seq<string>, body: seq<string>): seq<string> {
    var kept := TrimLines(Strip(d, lines, Outside));
    kept + (if kept == [] then [] else [""]) + [d.begin] + body + [d.end]
  }

  // ---------------------------------------------------------------- which lines are kept

  predicate Sentinel(d: Dialect, line: string) {
    d.kind(line) == Begin || d.kind(line) == End
  }

  /** The last sentinel up to line `i` opens a managed block. */
  ghost predicate BlockOpen(d: Dialect, lines: seq<string>, i: nat) {
    exists j :: 0 <= j <= i < |lines| && d.kind(lines[j]) == Begin && forall k :: j < k <= i ==> !Sentinel(d, lines[k])
  }

  ghost predicate InBlock(d: Dialect, lines: seq<string>, i: nat)
    requires i < |lines|
  {
    Sentinel(d, lines[i]) || BlockOpen(d, lines, i)
  }

  predicate IsHeader(d: Dialect, line: string) {
    d.kind(line) == ManagedHeader || d.kind(line) == OtherHeader
  }

  /** The last header up to line `i`, outside managed blocks, is that of a managed table. */
  ghost predicate InManagedTable(d: Dialect, lines: seq<string>, i: nat) {
    exists j :: 0 <= j <= i < |lines| && d.kind(lines[j]) == ManagedHeader && !InBlock(d, lines, j)
                && forall k :: j < k <= i && IsHeader(d, lines[k]) ==> InBlock(d, lines, k)
  }

  /** The line lies in no managed block and in no managed table. */
  ghost predicate KeptAt(d: Dialect, lines: seq<string>, i: nat) {
    i < |lines| && !InBlock(d, lines, i) && !InManagedTable(d, lines, i)
  }

  /** The lines, in order, that lie in no managed block and in no managed table. */
  ghost function ForeignLines(d: Dialect, lines: seq<string>, n: nat): seq<string>
    requires n <= |lines|
  {
    if n == 0 then []
    else ForeignLines(d, lines, n - 1) +
         if KeptAt(d, lines, n - 1) then [lines[n - 1]] else []
  }

  /** The flags after the first `n` lines, as the two facts they stand for. */
  ghost predicate FlagsMean(d: Dialect, lines: seq<string>, n: nat, flags: Flags)
    requires n <= |lines|
  {
    && (flags.inManaged <==> n > 0 && BlockOpen(d, lines, n - 1))
    && (flags.skipping <==> n > 0 && InManagedTable(d, lines, n - 1))
  }

  lemma BlockOpenStep(d: Dialect, lines: seq<string>, n: nat)
    requires n < |lines|
    ensures BlockOpen(d, lines, n) <==>
              d.kind(lines[n]) == Begin || (d.kind(lines[n]) != End && n > 0 && BlockOpen(d, lines, n - 1))
  {
    if d.kind(lines[n]) == Begin {
      assert 0 <= n <= n;
    } else if d.kind(lines[n]) != End && n > 0 && BlockOpen(d, lines, n - 1) {
      var j :| 0 <= j <= n - 1 && d.kind(lines[j]) == Begin && forall k :: j < k <= n - 1 ==> !Sentinel(d, lines[k]);
      assert forall k :: j < k <= n ==> !Sentinel(d, lines[k]);
    }
  }

  lemma InManagedTableStep(d: Dialect, lines: seq<string>, n: nat)
    requires n < |lines|
    ensures InManagedTable(d, lines, n) <==>
              if IsHeader(d, lines[n]) && !InBlock(d, lines, n) then d.kind(lines[n]) == ManagedHeader
              else n > 0 && InManagedTable(d, lines, n - 1)
  {
    if !(IsHeader(d, lines[n]) && !InBlock(d, lines, n)) && n > 0 && InManagedTable(d, lines, n - 1) {
      var j :| 0 <= j <= n - 1 && d.kind(lines[j]) == ManagedHeader && !InBlock(d, lines, j)
               && forall k :: j < k <= n - 1 && IsHeader(d, lines[k]) ==> InBlock(d, lines, k);
      assert forall k :: j < k <= n && IsHeader(d, lines[k]) ==> InBlock(d, lines, k);
    }
  }

  lemma FlagsStep(d: Dialect, lines: seq<string>, n: nat, flags: Flags)
    requires n < |lines| && FlagsMean(d, lines, n, flags)
    ensures FlagsMean(d, lines, n + 1, Advance(flags, d.kind(lines[n])))
    ensures Keeps(Advance(flags, d.kind(lines[n])), d.kind(lines[n])) <==>
              !InBlock(d, lines, n) && !InManagedTable(d, lines, n)
  {
    BlockOpenStep(d, lines, n);
    InManagedTableStep(d, lines, n);
  }

  lemma {:induction false} StripFrom(d: Dialect, lines: seq<string>, n: nat, flags: Flags)
    requires n <= |lines| && FlagsMean(d, lines, n, flags)
    ensures ForeignLines(d, lines, n) + Strip(d, lines[n..], flags) == ForeignLines(d, lines, |lines|)
    decreases |lines| - n
  {
    if n < |lines| {
      FlagsStep(d, lines, n, flags);
      StripTakes(d, ForeignLines(d, lines, n), lines[n..], flags);
      assert lines[n..][1..] == lines[n + 1..];
      StripFrom(d, lines, n + 1, Advance(flags, d.kind(lines[n])));
    }
  }

  /** Stripping keeps every line outside managed blocks and managed tables, in order, and no other. */
  lemma StripKeepsForeignLines(d: Dialect, lines: seq<string>)
    ensures Strip(d, lines, Outside) == ForeignLines(d, lines, |lines|)
  {
    assert lines[0..] == lines;
    StripFrom(d, lines, 0, Outside);
  }

  // ---------------------------------------------------------------- saving twice

  lemma {:induction false} StripAppend(d: Dialect, a: seq<string>, b: seq<string>, flags: Flags)
    ensures Strip(d, a + b, flags) == Strip(d, a, flags) + Strip(d, b, FlagsAfter(d, a, flags))
    decreases |a|
  {
    if a == [] {
      assert a + b == b;
    } else {
      StripAppend(d, a[1..], b, Advance(flags, d.kind(a[0])));
      assert (a + b)[1..] == a[1..] + b;
    }
  }

  /** A line that a save never touches. */
  predicate Foreign(d: Dialect, line: string) {
    d.kind(line) == OtherHeader || d.kind(line) == Plain
  }

  ghost predicate AllForeign(d: Dialect, lines: seq<string>) {
    forall i :: 0 <= i < |lines| ==> Foreign(d, lines[i])
  }

  lemma {:induction false} StrippedLinesAreForeign(d: Dialect, lines: seq<string>, flags: Flags)
    ensures AllForeign(d, Strip(d, lines, flags))
    decreases |lines|
  {
    if lines != [] {
      StrippedLinesAreForeign(d, lines[1..], Advance(flags, d.kind(lines[0])));
    }
  }

  lemma {:induction false} ForeignLinesPass(d: Dialect, lines: seq<string>)
    requires AllForeign(d, lines)
    ensures Strip(d, lines, Outside) == lines && FlagsAfter(d, lines, Outside) == Outside
    decreases |lines|
  {
    if lines != [] {
      ForeignLinesPass(d, lines[1..]);
      assert lines == [lines[0]] + lines[1..];
    }
  }

  lemma {:induction false} TrimLinesShape(lines: seq<string>)
    ensures var t := TrimLines(lines);
            && |t| <= |lines|
            && (forall i :: 0 <= i < |t| - 1 ==> t[i] == lines[i])
            && (t != [] ==> t[|t| - 1] == TrimEnd(lines[|t| - 1]) && !IsBlank(lines[|t| - 1]))
            && (forall i :: |t| <= i < |lines| ==> IsBlank(lines[i]))
    decreases |lines|
  {
    if lines != [] && IsBlank(lines[|lines| - 1]) {
      TrimLinesShape(lines[..|lines| - 1]);
    }
  }

  lemma TrimLinesKeepsForeign(d: Dialect, lines: seq<string>)
    requires Lawful(d)
    requires AllForeign(d, lines)
    ensures AllForeign(d, TrimLines(lines))
  {
    var t := TrimLines(lines);
    TrimLinesShape(lines);
    if t != [] {
      assert d.kind(TrimEnd(lines[|t| - 1])) == d.kind(lines[|t| - 1]);
    }
  }

  /** Text that ends in a trimmed line, followed by blank lines, trims back to itself. */
  lemma {:induction false} BlankTailIsTrimmed(lines: seq<string>, tail: seq<string>)
    requires lines == [] || (!IsBlank(lines[|lines| - 1]) && TrimEnd(lines[|lines| - 1]) == lines[|lines| - 1])
    requires forall i :: 0 <= i < |tail| ==> IsBlank(tail[i])
    ensures TrimLines(lines + tail) == lines
    decreases |tail|
  {
    if tail == [] {
      assert lines + tail == lines;
      if lines != [] {
        assert lines == lines[..|lines| - 1] + [lines[|lines| - 1]];
      }
    } else {
      assert (lines + tail)[..|lines + tail| - 1] == lines + tail[..|tail| - 1];
      BlankTailIsTrimmed(lines, tail[..|tail| - 1]);
    }
  }

  lemma {:induction false} InkTailIsKept(lines: seq<string>, tail: seq<string>)
    requires exists i :: 0 <= i < |tail| && !IsBlank(tail[i])
    ensures |TrimLines(lines + tail)| > |lines|
    decreases |tail|
  {
    var all := lines + tail;
    if IsBlank(tail[|tail| - 1]) {
      assert all[..|all| - 1] == lines + tail[..|tail| - 1];
      var i :| 0 <= i < |tail| && !IsBlank(tail[i]);
      assert tail[..|tail| - 1][i] == tail[i];
      InkTailIsKept(lines, tail[..|tail| - 1]);
    }
  }

  /** What would escape from a block with this body at the next save. */
  function Leak(d: Dialect, body: seq<string>): seq<string> {
    Strip(d, body, Flags(true, false))
  }

  ghost predicate AllBlank(lines: seq<string>) {
    forall i :: 0 <= i < |lines| ==> IsBlank(lines[i])
  }

  ghost predicate LeakIsBlank(d: Dialect, body: seq<string>) {
    AllBlank(Leak(d, body))
  }

  /** A kept line with something on it. */
  ghost predicate VisiblyKept(d: Dialect, lines: seq<string>, i: nat) {
    KeptAt(d, lines, i) && !IsBlank(lines[i])
  }

  ghost predicate NoneVisible(d: Dialect, lines: seq<string>, n: nat) {
    forall i: nat :: i < n ==> !VisiblyKept(d, lines, i)
  }

  /** No visible line of the body stands after a closing sentinel, in no reopened block and no managed table. */
  ghost predicate LeaksNothing(d: Dialect, body: seq<string>) {
    NoneVisible(d, [d.begin] + body, |body| + 1)
  }

  lemma {:induction false} AllBlankLast(lines: seq<string>, last: string)
    ensures AllBlank(lines + [last]) <==> AllBlank(lines) && IsBlank(last)
  {
    var all := lines + [last];
    assert all[|lines|] == last;
    assert forall i :: 0 <= i < |lines| ==> all[i] == lines[i];
  }

  lemma {:induction false} NoneVisibleLast(d: Dialect, lines: seq<string>, n: nat)
    ensures NoneVisible(d, lines, n + 1) <==> NoneVisible(d, lines, n) && !VisiblyKept(d, lines, n)
  {
  }

  lemma {:induction false} ForeignLinesBlankIff(d: Dialect, lines: seq<string>, n: nat)
    requires n <= |lines|
    ensures AllBlank(ForeignLines(d, lines, n)) <==> NoneVisible(d, lines, n)
  {
    if n > 0 {
      ForeignLinesBlankIff(d, lines, n - 1);
      NoneVisibleLast(d, lines, n - 1);
      var before, all := ForeignLines(d, lines, n - 1), ForeignLines(d, lines, n);
      if KeptAt(d, lines, n - 1) {
        assert all == before + [lines[n - 1]];
        AllBlankLast(before, lines[n - 1]);
      } else {
        assert all == before;
      }
    }
  }

  lemma {:induction false} LeakIsForeign(d: Dialect, body: seq<string>)
    requires Lawful(d)
    ensures Leak(d, body) == ForeignLines(d, [d.begin] + body, |body| + 1)
  {
    StripAppend(d, [d.begin], body, Outside);
    StripOne(d, d.begin, Outside);
    StripKeepsForeignLines(d, [d.begin] + body);
  }

  /** What leaks can be told from where the sentinels and headers of the body stand. */
  lemma {:induction false} LeaksNothingMeans(d: Dialect, body: seq<string>)
    requires Lawful(d)
    ensures LeaksNothing(d, body) <==> LeakIsBlank(d, body)
  {
    var block := [d.begin] + body;
    LeakIsForeign(d, body);
    ForeignLinesBlankIff(d, block, |block|);
  }

  lemma StripBlock(d: Dialect, body: seq<string>)
    requires Lawful(d)
    ensures Strip(d, [d.begin] + (body + [d.end]), Outside) == Leak(d, body)
  {
    StripAppend(d, [d.begin], body + [d.end], Outside);
    StripOne(d, d.begin, Outside);
    StripAppend(d, body, [d.end], Flags(true, false));
    StripOne(d, d.end, FlagsAfter(d, body, Flags(true, false)));
  }

  lemma KeptLinesAreForeign(d: Dialect, lines: seq<string>)
    requires Lawful(d)
    ensures AllForeign(d, TrimLines(Strip(d, lines, Outside)))
  {
    StrippedLinesAreForeign(d, lines, Outside);
    TrimLinesKeepsForeign(d, Strip(d, lines, Outside));
  }

  /** Stripping a saved file gives the kept lines back, with whatever the old body leaks. */
  lemma StripRewritten(d: Dialect, lines: seq<string>, body: seq<string>)
    requires Lawful(d)
    ensures var kept := TrimLines(Strip(d, lines, Outside));
            Strip(d, Rewrite(d, lines, body), Outside) == kept + (if kept == [] then [] else [""]) + Leak(d, body)
    ensures AllForeign(d, TrimLines(Strip(d, lines, Outside)))
  {
    var kept := TrimLines(Strip(d, lines, Outside));
    var head := kept + if kept == [] then [] else [""];
    KeptLinesAreForeign(d, lines);
    ForeignLinesPass(d, head);
    var rest := [d.begin] + (body + [d.end]);
    assert Rewrite(d, lines, body) == head + rest;
    StripAppend(d, head, rest, Outside);
    StripBlock(d, body);
  }

  lemma StripOne(d: Dialect, line: string, flags: Flags)
    ensures var after := Advance(flags, d.kind(line));
            Strip(d, [line], flags) == (if Keeps(after, d.kind(line)) then [line] else [])
            && FlagsAfter(d, [line], flags) == after
  {
    assert [line][1..] == [];
  }

  /** Kept lines end in a trimmed, visible line. */
  lemma KeptLinesEndTrimmed(d: Dialect, lines: seq<string>)
    ensures var kept := TrimLines(Strip(d, lines, Outside));
            kept == [] || (!IsBlank(kept[|kept| - 1]) && TrimEnd(kept[|kept| - 1]) == kept[|kept| - 1])
  {
    var stripped := Strip(d, lines, Outside);
    var kept := TrimLines(stripped);
    TrimLinesShape(stripped);
    if kept != [] {
      TrimEndTwice(stripped[|kept| - 1]);
    }
  }

  lemma BlankGapAndLeakAreTrimmed(kept: seq<string>, gap: seq<string>, leak: seq<string>)
    requires kept == [] || (!IsBlank(kept[|kept| - 1]) && TrimEnd(kept[|kept| - 1]) == kept[|kept| - 1])
    requires forall i :: 0 <= i < |gap| ==> IsBlank(gap[i])
    requires forall i :: 0 <= i < |leak| ==> IsBlank(leak[i])
    ensures TrimLines(kept + gap + leak) == kept
  {
    assert kept + gap + leak == kept + (gap + leak);
    BlankTailIsTrimmed(kept, gap + leak);
  }

  lemma QuietBodyIsAbsorbed(d: Dialect, lines: seq<string>, a: seq<string>)
    requires Lawful(d) && LeakIsBlank(d, a)
    ensures TrimLines(Strip(d, Rewrite(d, lines, a), Outside)) == TrimLines(Strip(d, lines, Outside))
  {
    var kept := TrimLines(Strip(d, lines, Outside));
    StripRewritten(d, lines, a);
    KeptLinesEndTrimmed(d, lines);
    BlankGapAndLeakAreTrimmed(kept, if kept == [] then [] else [""], Leak(d, a));
  }

  lemma LeakIsKept(d: Dialect, lines: seq<string>, a: seq<string>)
    requires Lawful(d) && !LeakIsBlank(d, a)
    ensures |TrimLines(Strip(d, Rewrite(d, lines, a), Outside))| > |TrimLines(Strip(d, lines, Outside))|
  {
    var kept := TrimLines(Strip(d, lines, Outside));
    var gap := if kept == [] then [] else [""];
    StripRewritten(d, lines, a);
    InkTailIsKept(kept + gap, Leak(d, a));
  }

  lemma RewriteLength(d: Dialect, lines: seq<string>, b: seq<string>)
    ensures var n := |TrimLines(Strip(d, lines, Outside))|;
            |Rewrite(d, lines, b)| == n + (if n == 0 then 0 else 1) + |b| + 2
  {
  }

  /**
   Saving settings `a` and then `b` gives the same file as saving `b` alone, whatever the
   file, exactly when the block written for `a` leaks no visible line; that is the case for
   every body that does not contain the closing sentinel.
   */
  lemma SavingIsAbsorbingIff(d: Dialect, lines: seq<string>, a: seq<string>, b: seq<string>)
    requires Lawful(d)
    ensures Rewrite(d, Rewrite(d, lines, a), b) == Rewrite(d, lines, b) <==> LeaksNothing(d, a)
  {
    LeaksNothingMeans(d, a);
    if LeaksNothing(d, a) {
      QuietBodyIsAbsorbed(d, lines, a);
    } else {
      LeakIsKept(d, lines, a);
      RewriteLength(d, lines, b);
      RewriteLength(d, Rewrite(d, lines, a), b);
    }
  }

  lemma {:induction false} BodyWithoutEndLeaksNothing(d: Dialect, body: seq<string>)
    requires forall i :: 0 <= i < |body| ==> d.kind(body[i]) != End
    ensures Leak(d, body) == []
    decreases |body|
  {
    if body != [] {
      BodyWithoutEndLeaksNothing(d, body[1..]);
    }
  }

  /** So a body without the closing sentinel is absorbed by the next save. */
  lemma BodyWithoutEndIsAbsorbed(d: Dialect, lines: seq<string>, a: seq<string>, b: seq<string>)
    requires Lawful(d) && forall i :: 0 <= i < |a| ==> d.kind(a[i]) != End
    ensures Rewrite(d, Rewrite(d, lines, a), b) == Rewrite(d, lines, b)
  {
    BodyWithoutEndLeaksNothing(d, a);
    LeaksNothingMeans(d, a);
    SavingIsAbsorbingIff(d, lines, a, b);
  }

  /** A saved file has one managed block, and no managed table or sentinel before it. */
  lemma SavedFileHasOneBlock(d: Dialect, lines: seq<string>, body: seq<string>)
    requires Lawful(d)
    ensures exists head :: AllForeign(d, head) && Rewrite(d, lines, body) == head + [d.begin] + body + [d.end]
  {
    StripRewritten(d, lines, body);
    var kept := TrimLines(Strip(d, lines, Outside));
    var head := kept + if kept == [] then [] else [""];
    assert AllForeign(d, head);
    assert Rewrite(d, lines, body) == head + [d.begin] + body + [d.end];
  }

  /** The save: strip, trim, and append the freshly rendered block. */
  method WriteManagedBlock(d: Dialect, existing: seq<string>, body: seq<string>) returns (out: seq<string>)
    ensures out == Rewrite(d, existing, body)
  {
    var preserved := StripManagedAndTables(d, existing);
    out := TrimLines(preserved);
    if out != [] {
      out := out + [""];
    }
    out := out + [d.begin] + body + [d.end];
  }

  lemma {:induction false} StaysManaged(d: Dialect, body: seq<string>)
    requires forall i :: 0 <= i < |body| ==> d.kind(body[i]) != End
    ensures FlagsAfter(d, body, Flags(true, false)) == Flags(true, false)
    decreases |body|
  {
    if body != [] {
      StaysManaged(d, body[1..]);
    }
  }

  lemma {:induction false} TextAfterEndLeaks(d: Dialect, pre: seq<string>, ink: string, post: seq<string>)
    requires Lawful(d) && (forall i :: 0 <= i < |pre| ==> d.kind(pre[i]) != End)
    requires d.kind(ink) == Plain && !IsBlank(ink)
    ensures !LeakIsBlank(d, pre + ([d.end] + ([ink] + post)))
  {
    BodyWithoutEndLeaksNothing(d, pre);
    StaysManaged(d, pre);
    StripAppend(d, pre, [d.end] + ([ink] + post), Flags(true, false));
    StripAppend(d, [d.end], [ink] + post, Flags(true, false));
    StripOne(d, d.end, Flags(true, false));
    StripAppend(d, [ink], post, Outside);
    StripOne(d, ink, Outside);
    assert Leak(d, pre + ([d.end] + ([ink] + post)))[0] == ink;
  }

  /**
   Settings with a line that spells the closing sentinel, and a visible plain line right after
   it, outlive the next save, whatever stands around them.
   */
  lemma {:induction false} SentinelInBodyEscapes(
      d: Dialect, lines: seq<string>, pre: seq<string>, ink: string, post: seq<string>, b: seq<string>)
    requires Lawful(d) && (forall i :: 0 <= i < |pre| ==> d.kind(pre[i]) != End)
    requires d.kind(ink) == Plain && !IsBlank(ink)
    ensures Rewrite(d, Rewrite(d, lines, pre + ([d.end] + ([ink] + post))), b) != Rewrite(d, lines, b)
  {
    var a := pre + ([d.end] + ([ink] + post));
    TextAfterEndLeaks(d, pre, ink, post);
    LeaksNothingMeans(d, a);
    SavingIsAbsorbingIff(d, lines, a, b);
  }

  // ---------------------------------------------------------------- reading headers differently

  /** The same lines are sentinels in both dialects. */
  ghost predicate SameSentinels(d: Dialect, g: Dialect) {
    forall line :: (d.kind(line) == Begin <==> g.kind(line) == Begin) && (d.kind(line) == End <==> g.kind(line) == End)
  }

  ghost predicate InTableBefore(d: Dialect, lines: seq<string>, i: nat) {
    i > 0 && InManagedTable(d, lines, i - 1)
  }

  /** Whether the text is in a managed table after a line of this kind outside the blocks. */
  predicate Turns(kind: Kind, before: bool) {
    kind == ManagedHeader || (kind != OtherHeader && before)
  }

  /** Where `d` reads line `i`, it comes out in the same table as `g` does. */
  ghost predicate AgreesAt(d: Dialect, g: Dialect, lines: seq<string>, i: nat)
    requires i < |lines|
  {
    InBlock(g, lines, i) ||
    (Turns(d.kind(lines[i]), InTableBefore(g, lines, i)) <==> InManagedTable(g, lines, i))
  }

  lemma {:induction false} SameBlocks(d: Dialect, g: Dialect, lines: seq<string>, i: nat)
    requires SameSentinels(d, g) && i < |lines|
    ensures InBlock(d, lines, i) <==> InBlock(g, lines, i)
  {
    BlockOpenStep(d, lines, i);
    BlockOpenStep(g, lines, i);
    if i > 0 {
      SameBlocks(d, g, lines, i - 1);
      BlockOpenStep(d, lines, i - 1);
      BlockOpenStep(g, lines, i - 1);
    }
  }

  lemma {:induction false} TableStep(d: Dialect, lines: seq<string>, i: nat)
    requires i < |lines|
    ensures InManagedTable(d, lines, i) <==>
            if InBlock(d, lines, i) then InTableBefore(d, lines, i)
            else Turns(d.kind(lines[i]), InTableBefore(d, lines, i))
  {
    InManagedTableStep(d, lines, i);
  }

  ghost predicate SameTablesUpTo(d: Dialect, g: Dialect, lines: seq<string>, n: nat) {
    forall i: nat :: i < n ==> (InManagedTable(d, lines, i) <==> InManagedTable(g, lines, i))
  }

  ghost predicate AgreeUpTo(d: Dialect, g: Dialect, lines: seq<string>, n: nat)
    requires n <= |lines|
  {
    forall i: nat :: i < n ==> AgreesAt(d, g, lines, i)
  }

  /** Both dialects keep the same of the first `n` lines. */
  ghost predicate SameKeptUpTo(d: Dialect, g: Dialect, lines: seq<string>, n: nat) {
    forall i: nat :: i < n ==> (KeptAt(d, lines, i) <==> KeptAt(g, lines, i))
  }

  lemma {:induction false} AgreementMeansSameTable(d: Dialect, g: Dialect, lines: seq<string>, i: nat)
    requires SameSentinels(d, g) && i < |lines| && AgreesAt(d, g, lines, i)
    requires InTableBefore(d, lines, i) <==> InTableBefore(g, lines, i)
    ensures InManagedTable(d, lines, i) <==> InManagedTable(g, lines, i)
  {
    SameBlocks(d, g, lines, i);
    TableStep(d, lines, i);
    TableStep(g, lines, i);
  }

  lemma {:induction false} SameTables(d: Dialect, g: Dialect, lines: seq<string>, n: nat)
    requires SameSentinels(d, g) && n <= |lines| && AgreeUpTo(d, g, lines, n)
    ensures SameTablesUpTo(d, g, lines, n)
  {
    if n > 0 {
      SameTables(d, g, lines, n - 1);
      assert AgreesAt(d, g, lines, n - 1);
      AgreementMeansSameTable(d, g, lines, n - 1);
    }
  }

  lemma {:induction false} KeptMeansSameTable(d: Dialect, g: Dialect, lines: seq<string>, i: nat)
    requires SameSentinels(d, g) && i < |lines|
    requires KeptAt(d, lines, i) <==> KeptAt(g, lines, i)
    requires InTableBefore(d, lines, i) <==> InTableBefore(g, lines, i)
    ensures InManagedTable(d, lines, i) <==> InManagedTable(g, lines, i)
    ensures AgreesAt(d, g, lines, i)
  {
    SameBlocks(d, g, lines, i);
    TableStep(d, lines, i);
    TableStep(g, lines, i);
  }

  lemma {:induction false} KeptMeansSameTables(d: Dialect, g: Dialect, lines: seq<string>, n: nat)
    requires SameSentinels(d, g) && n <= |lines| && SameKeptUpTo(d, g, lines, n)
    ensures SameTablesUpTo(d, g, lines, n) && AgreeUpTo(d, g, lines, n)
  {
    if n > 0 {
      KeptMeansSameTables(d, g, lines, n - 1);
      assert KeptAt(d, lines, n - 1) <==> KeptAt(g, lines, n - 1);
      KeptMeansSameTable(d, g, lines, n - 1);
    }
  }

  /**
   Stripping by `d` keeps the lines that are foreign by `g` exactly when, at every line outside
   the managed blocks, what `d` makes of it agrees with the table it stands in by `g`.
   */
  lemma {:induction false} KeepsByGrammarIff(d: Dialect, g: Dialect, lines: seq<string>)
    requires SameSentinels(d, g)
    ensures SameKeptUpTo(d, g, lines, |lines|) <==> AgreeUpTo(d, g, lines, |lines|)
  {
    if AgreeUpTo(d, g, lines, |lines|) {
      SameTables(d, g, lines, |lines|);
      forall i: nat | i < |lines| ensures KeptAt(d, lines, i) <==> KeptAt(g, lines, i) {
        SameBlocks(d, g, lines, i);
      }
    }
    if SameKeptUpTo(d, g, lines, |lines|) {
      KeptMeansSameTables(d, g, lines, |lines|);
    }
  }

  /**
   A line that two dialects read differently does no harm where the table after it is the same:
   a header that only one of them sees, and that says what was so before it.
   */
  predicate Harmless(own: Kind, grammar: Kind, before: bool) {
    match (own, grammar)
    case (Plain, ManagedHeader) => before
    case (Plain, OtherHeader) => !before
    case (ManagedHeader, Plain) => before
    case (OtherHeader, Plain) => !before
    case (ManagedHeader, OtherHeader) => false
    case (OtherHeader, ManagedHeader) => false
    case _ => true
  }

  lemma {:induction false} AgreesWhenHarmless(d: Dialect, g: Dialect, lines: seq<string>, i: nat)
    requires SameSentinels(d, g) && i < |lines| && !InBlock(g, lines, i)
    ensures AgreesAt(d, g, lines, i) <==>
            Harmless(d.kind(lines[i]), g.kind(lines[i]), InTableBefore(g, lines, i))
  {
    TableStep(g, lines, i);
  }

  /** Outside the blocks the line is read alike, or does no harm where it stands. */
  ghost predicate HarmlessAt(d: Dialect, g: Dialect, lines: seq<string>, i: nat)
    requires i < |lines|
  {
    InBlock(g, lines, i) || d.kind(lines[i]) == g.kind(lines[i]) ||
    Harmless(d.kind(lines[i]), g.kind(lines[i]), InTableBefore(g, lines, i))
  }

  ghost predicate DifferencesAreHarmless(d: Dialect, g: Dialect, lines: seq<string>) {
    forall i: nat :: i < |lines| ==> HarmlessAt(d, g, lines, i)
  }

  /** So only the lines that are read differently matter, and where they stand. */
  lemma {:induction false} SameKeptIffHarmless(d: Dialect, g: Dialect, lines: seq<string>)
    requires SameSentinels(d, g)
    ensures SameKeptUpTo(d, g, lines, |lines|) <==> DifferencesAreHarmless(d, g, lines)
  {
    KeepsByGrammarIff(d, g, lines);
    forall i: nat | i < |lines| ensures AgreesAt(d, g, lines, i) <==> HarmlessAt(d, g, lines, i) {
      if !InBlock(g, lines, i) {
        AgreesWhenHarmless(d, g, lines, i);
      }
    }
  }

  /** A header that `d` does not see, after a managed table, goes with the table. */
  lemma {:induction false} UnseenHeaderIsLost(d: Dialect, g: Dialect, table: string, header: string)
    requires SameSentinels(d, g)
    requires d.kind(table) == ManagedHeader && g.kind(table) == ManagedHeader
    requires d.kind(header) == Plain && g.kind(header) == OtherHeader
    ensures !KeptAt(d, [table, header], 1) && KeptAt(g, [table, header], 1)
  {
    var lines := [table, header];
    BlockOpenStep(d, lines, 0);
    BlockOpenStep(d, lines, 1);
    SameBlocks(d, g, lines, 0);
    SameBlocks(d, g, lines, 1);
    TableStep(d, lines, 0);
    TableStep(d, lines, 1);
    TableStep(g, lines, 1);
  }
}
