/** Cutting a long text into pieces that overlap. */
module TextPieces {
  import opened Arithmetic

  /** How far apart two pieces start: without an overlap, one character is stepped over. */
  function Stride(max: nat, overlap: nat): nat
    requires overlap < max
  {
    if overlap == 0 then max + 1 else max - overlap
  }

  function Pieces(text: string, max: nat, overlap: nat): seq<string>
    requires overlap < max
    decreases |text|
  {
    if text == [] then []
    else if |text| <= max then [text]
    else [text[..max]] + Pieces(text[Stride(max, overlap)..], max, overlap)
  }

  /** For each piece, whether it stops short of the end of the text. */
  function GoesOn(text: string, max: nat, overlap: nat): (flags: seq<bool>)
    requires overlap < max
    ensures |flags| == |Pieces(text, max, overlap)|
    decreases |text|
  {
    if text == [] then []
    else if |text| <= max then [false]
    else [true] + GoesOn(text[Stride(max, overlap)..], max, overlap)
  }

  lemma {:induction false} FullPiece(done: seq<string>, flags: seq<bool>, text: string, max: nat, overlap: nat,
                                     start: nat)
    requires overlap < max && start + max < |text|
    ensures var next := start + Stride(max, overlap);
            && done + Pieces(text[start..], max, overlap) ==
               (done + [text[start..start + max]]) + Pieces(text[next..], max, overlap)
            && flags + GoesOn(text[start..], max, overlap) ==
               (flags + [true]) + GoesOn(text[next..], max, overlap)
  {
    var rest, stride := text[start..], Stride(max, overlap);
    assert rest[stride..] == text[start + stride..];
    assert rest[..max] == text[start..start + max];
  }

  /** What the cutting loop keeps: the pieces up to `start`, and their flags. */
  ghost predicate CutUpTo(
      text: string, max: nat, overlap: nat, start: nat, pieces: seq<string>, leading: seq<bool>, trailing: seq<bool>)
    requires overlap < max
  {
    && start <= |text| && (start > 0 <==> |pieces| > 0)
    && pieces + Pieces(text[start..], max, overlap) == Pieces(text, max, overlap)
    && trailing + GoesOn(text[start..], max, overlap) == GoesOn(text, max, overlap)
    && |leading| == |pieces| && (forall i :: 0 <= i < |pieces| ==> leading[i] == (i > 0))
  }

  lemma {:induction false} CutOneMore(
      text: string, max: nat, overlap: nat, start: nat, pieces: seq<string>, leading: seq<bool>, trailing: seq<bool>)
    requires overlap < max && CutUpTo(text, max, overlap, start, pieces, leading, trailing) && start + max < |text|
    ensures CutUpTo(text, max, overlap, start + Stride(max, overlap),
              pieces + [text[start..start + max]], leading + [start > 0], trailing + [true])
  {
    FullPiece(pieces, trailing, text, max, overlap, start);
  }

  lemma {:induction false} CutTheLast(
      text: string, max: nat, overlap: nat, start: nat, pieces: seq<string>, leading: seq<bool>, trailing: seq<bool>)
    requires overlap < max && CutUpTo(text, max, overlap, start, pieces, leading, trailing)
    requires start < |text| <= start + max
    ensures CutUpTo(text, max, overlap, |text|,
              pieces + [text[start..|text|]], leading + [start > 0], trailing + [false])
  {
    assert text[start..|text|] == text[start..] && text[|text|..] == [];
  }

  lemma {:induction false} CutDone(
      text: string, max: nat, overlap: nat, pieces: seq<string>, leading: seq<bool>, trailing: seq<bool>)
    requires overlap < max && CutUpTo(text, max, overlap, |text|, pieces, leading, trailing)
    ensures pieces == Pieces(text, max, overlap) && trailing == GoesOn(text, max, overlap)
  {
    assert text[|text|..] == [];
  }

  /** The cutting loop, which also notes for each piece whether text goes on before and after it. */
  method SplitText(text: string, max: nat, overlap: nat)
    returns (pieces: seq<string>, leading: seq<bool>, trailing: seq<bool>)
    requires overlap < max
    ensures pieces == Pieces(text, max, overlap)
    ensures |leading| == |pieces| && forall i :: 0 <= i < |pieces| ==> leading[i] == (i > 0)
    ensures trailing == GoesOn(text, max, overlap)
  {
    pieces, leading, trailing := [], [], [];
    var start := 0;
    assert text[0..] == text;
    while start < |text|
      invariant CutUpTo(text, max, overlap, start, pieces, leading, trailing)
    {
      var end := if |text| < start + max then |text| else start + max;
      if end < |text| {
        CutOneMore(text, max, overlap, start, pieces, leading, trailing);
      } else {
        CutTheLast(text, max, overlap, start, pieces, leading, trailing);
      }
      pieces, leading, trailing := pieces + [text[start..end]], leading + [start > 0], trailing + [end < |text|];
      if end == |text| {
        start := end;
        break;
      }
      start := end - overlap;
      if start == end {
        start := start + 1;
      }
    }
    CutDone(text, max, overlap, pieces, leading, trailing);
  }

  /**
   The flag says that another piece follows, except after the last piece of a text cut without
   an overlap whose last character is the one stepped over.
   */
  lemma {:induction false} GoesOnMeansMorePieces(text: string, max: nat, overlap: nat, i: nat)
    requires overlap < max && i < |Pieces(text, max, overlap)|
    ensures var last := i + 1 == |Pieces(text, max, overlap)|;
            GoesOn(text, max, overlap)[i] <==> !last || (overlap == 0 && |text| % (max + 1) == 0)
    decreases |text|
  {
    if |text| > max {
      var rest := text[Stride(max, overlap)..];
      if overlap == 0 {
        ModStep(|text|, max + 1);
      }
      if i > 0 {
        GoesOnMeansMorePieces(rest, max, overlap, i - 1);
      } else {
        assert rest == [] <==> Pieces(rest, max, overlap) == [];
      }
    }
  }

  lemma {:induction false} PiecesFit(text: string, max: nat, overlap: nat, i: nat)
    requires overlap < max && i < |Pieces(text, max, overlap)|
    ensures 0 < |Pieces(text, max, overlap)[i]| <= max
    ensures i + 1 < |Pieces(text, max, overlap)| ==> |Pieces(text, max, overlap)[i]| == max
    decreases |text|
  {
    if |text| > max && i > 0 {
      PiecesFit(text[Stride(max, overlap)..], max, overlap, i - 1);
    }
  }

  /** Neighbouring pieces share exactly the overlap, and each adds something to it. */
  lemma {:induction false} NeighboursOverlap(text: string, max: nat, overlap: nat, i: nat)
    requires 1 <= overlap < max && i + 1 < |Pieces(text, max, overlap)|
    ensures var pieces := Pieces(text, max, overlap);
            && |pieces[i]| == max && overlap < |pieces[i + 1]|
            && pieces[i][max - overlap..] == pieces[i + 1][..overlap]
    decreases |text|
  {
    var rest := text[Stride(max, overlap)..];
    if i > 0 {
      NeighboursOverlap(rest, max, overlap, i - 1);
    } else {
      var next := Pieces(rest, max, overlap)[0];
      assert next[..overlap] == rest[..overlap];
      assert text[..max][max - overlap..] == rest[..overlap];
    }
  }

  /** The pieces put together again, with the shared prefix dropped from all but the first. */
  function Reassemble(pieces: seq<string>, overlap: nat): string {
    if pieces == [] then [] else pieces[0] + Additions(pieces[1..], overlap)
  }

  function Additions(pieces: seq<string>, overlap: nat): string {
    if pieces == [] then []
    else (if overlap <= |pieces[0]| then pieces[0][overlap..] else []) + Additions(pieces[1..], overlap)
  }

  lemma {:induction false} AdditionsContinue(text: string, max: nat, overlap: nat)
    requires 1 <= overlap < max && overlap < |text|
    ensures Additions(Pieces(text, max, overlap), overlap) == text[overlap..]
    decreases |text|
  {
    if |text| <= max {
      assert [text][1..] == [];
    } else {
      var rest := text[Stride(max, overlap)..];
      AdditionsContinue(rest, max, overlap);
      assert Pieces(text, max, overlap)[1..] == Pieces(rest, max, overlap);
      assert rest[overlap..] == text[max..];
      assert text[..max][overlap..] + text[max..] == text[overlap..];
    }
  }

  lemma {:induction false} OverlappingPiecesReassemble(text: string, max: nat, overlap: nat)
    requires 1 <= overlap < max
    ensures Reassemble(Pieces(text, max, overlap), overlap) == text
  {
    var pieces := Pieces(text, max, overlap);
    if |text| > max {
      var rest := text[Stride(max, overlap)..];
      AdditionsContinue(rest, max, overlap);
      assert pieces[1..] == Pieces(rest, max, overlap);
      assert rest[overlap..] == text[max..];
    } else if text != [] {
      assert pieces[1..] == [];
    }
  }

  lemma {:induction false} AdditionsLose(text: string, max: nat)
    requires 0 < max
    ensures |Additions(Pieces(text, max, 0), 0)| <= |text|
    ensures |text| > max ==> |Additions(Pieces(text, max, 0), 0)| < |text|
    decreases |text|
  {
    var pieces := Pieces(text, max, 0);
    if |text| > max {
      AdditionsLose(text[max + 1..], max);
      assert pieces[1..] == Pieces(text[max + 1..], max, 0);
    } else if text != [] {
      assert pieces[1..] == [];
    }
  }

  /** A text can be put together from its pieces exactly when there is an overlap or no cut. */
  lemma {:induction false} ReassemblesIff(text: string, max: nat, overlap: nat)
    requires overlap < max
    ensures Reassemble(Pieces(text, max, overlap), overlap) == text <==> overlap >= 1 || |text| <= max
  {
    var pieces := Pieces(text, max, overlap);
    if overlap >= 1 {
      OverlappingPiecesReassemble(text, max, overlap);
    } else if |text| > max {
      AdditionsLose(text, max);
      assert |Reassemble(pieces, 0)| == |Additions(pieces, 0)|;
    } else if text != [] {
      assert pieces[1..] == [];
    }
  }

  // ---------------------------------------------------------------- which characters are kept

  /** A slice of a suffix is the slice further on. */
  lemma {:induction false} SliceFurtherOn(text: string, stride: nat, start: nat, max: nat)
    requires stride <= start < |text|
    ensures text[stride..][start - stride..Min(start - stride + max, |text| - stride)] ==
            text[start..Min(start + max, |text|)]
  {
  }

  lemma {:induction false} OneStrideLess(i: nat, stride: nat)
    requires i > 0
    ensures i * stride == (i - 1) * stride + stride
  {
  }

  lemma {:induction false} PieceStands(text: string, max: nat, overlap: nat, i: nat, start: nat)
    requires overlap < max && i < |Pieces(text, max, overlap)| && start == i * Stride(max, overlap)
    ensures start < |text| && Pieces(text, max, overlap)[i] == text[start..Min(start + max, |text|)]
    decreases |text|
  {
    if i > 0 {
      var stride := Stride(max, overlap);
      OneStrideLess(i, stride);
      PieceStands(text[stride..], max, overlap, i - 1, start - stride);
      SliceFurtherOn(text, stride, start, max);
    } else {
      FirstPiece(text, max, overlap);
    }
  }

  lemma {:induction false} FirstPiece(text: string, max: nat, overlap: nat)
    requires overlap < max && text != []
    ensures Pieces(text, max, overlap) != [] && Pieces(text, max, overlap)[0] == text[0..Min(max, |text|)]
  {
  }

  /** Piece `i` is what stands at `i` strides, up to the limit or the end of the text. */
  lemma {:induction false} PieceAt(text: string, max: nat, overlap: nat, i: nat)
    requires overlap < max && i < |Pieces(text, max, overlap)|
    ensures var start := i * Stride(max, overlap);
            start < |text| && Pieces(text, max, overlap)[i] == text[start..Min(start + max, |text|)]
  {
    PieceStands(text, max, overlap, i, i * Stride(max, overlap));
  }

  /** Position `q` of the text lies in piece `i`. */
  predicate Covers(text: string, max: nat, overlap: nat, i: nat, q: nat)
    requires overlap < max
  {
    var pieces, stride := Pieces(text, max, overlap), Stride(max, overlap);
    i < |pieces| && i * stride <= q < i * stride + |pieces[i]|
  }

  lemma {:induction false} CoverShifts(text: string, max: nat, overlap: nat, i: nat, q: nat)
    requires overlap < max < |text| && Stride(max, overlap) <= q
    ensures var stride := Stride(max, overlap);
            Covers(text, max, overlap, i + 1, q) <==> Covers(text[stride..], max, overlap, i, q - stride)
  {
    var stride := Stride(max, overlap);
    assert (i + 1) * stride == i * stride + stride;
  }

  /** Position `q` of the text lies in some piece. */
  ghost predicate Kept(text: string, max: nat, overlap: nat, q: nat)
    requires overlap < max
  {
    exists i: nat :: Covers(text, max, overlap, i, q)
  }

  lemma {:induction false} FirstPieceCovers(text: string, max: nat, overlap: nat, q: nat)
    requires overlap < max && q < |text|
    ensures Covers(text, max, overlap, 0, q) <==> q < max
  {
    assert 0 * Stride(max, overlap) == 0;
  }

  lemma {:induction false} GapIsUncovered(text: string, max: nat, i: nat)
    requires 0 < max < |text|
    ensures !Covers(text, max, 0, i, max)
  {
    if i == 0 {
      FirstPieceCovers(text, max, 0, max);
    } else {
      MultiplyMonotone(1, i, max + 1);
    }
  }

  lemma {:induction false} KeptShifts(text: string, max: nat, q: nat)
    requires 0 < max < q < |text|
    ensures Kept(text, max, 0, q) <==> Kept(text[max + 1..], max, 0, q - (max + 1))
  {
    if i: nat :| Covers(text, max, 0, i, q) {
      FirstPieceCovers(text, max, 0, q);
      CoverShifts(text, max, 0, i - 1, q);
    }
    var rest, r := text[max + 1..], q - (max + 1);
    if i: nat :| Covers(rest, max, 0, i, r) {
      CoverShifts(text, max, 0, i, q);
    }
  }

  /** Without an overlap exactly the characters at the end of each stride are in no piece. */
  lemma {:induction false} KeptWithoutOverlapIff(text: string, max: nat, q: nat)
    requires 0 < max && q < |text|
    ensures Kept(text, max, 0, q) <==> q % (max + 1) != max
    decreases |text|
  {
    if q > max {
      KeptShifts(text, max, q);
      KeptWithoutOverlapIff(text[max + 1..], max, q - (max + 1));
      ModStep(q, max + 1);
    } else {
      ModOfFew(q, max + 1);
      FirstPieceCovers(text, max, 0, q);
      if q == max {
        forall i: nat ensures !Covers(text, max, 0, i, q) {
          GapIsUncovered(text, max, i);
        }
      }
    }
  }

  /** Three characters, limit 1 and no overlap: the middle one is lost. */
  lemma {:induction false} CutDropsACharacter(a: char, b: char, c: char)
    ensures Pieces([a, b, c], 1, 0) == [[a], [c]]
  {
    var text := [a, b, c];
    assert text[2..] == [c];
    assert Pieces([c], 1, 0) == [[c]];
    assert text[..1] == [a];
  }

  lemma {:induction false} CountWithOverlap(text: string, max: nat, overlap: nat)
    requires 1 <= overlap < max && |text| > overlap
    ensures |Pieces(text, max, overlap)| ==
            if |text| <= max then 1 else 1 + CeilDiv(|text| - max, max - overlap)
    decreases |text|
  {
    if |text| > max {
      var rest, stride := text[Stride(max, overlap)..], max - overlap;
      CountWithOverlap(rest, max, overlap);
      if |rest| > max {
        CeilDivStep(|text| - max, stride);
      } else {
        CeilDivOfFew(|text| - max, stride);
      }
    }
  }

  lemma {:induction false} CountWithoutOverlap(text: string, max: nat)
    requires 0 < max
    ensures |Pieces(text, max, 0)| == CeilDiv(|text|, max + 1)
    decreases |text|
  {
    if |text| > max {
      CountWithoutOverlap(text[max + 1..], max);
      CeilDivStep(|text|, max + 1);
    } else if text != [] {
      CeilDivOfFew(|text|, max + 1);
    } else {
      CeilDivOfNone(max + 1);
    }
  }

  /** How many pieces a text is cut into, for every limit and every overlap below it. */
  lemma {:induction false} PieceCount(text: string, max: nat, overlap: nat)
    requires overlap < max
    ensures |Pieces(text, max, overlap)| ==
            if text == [] then 0
            else if |text| <= max then 1
            else if overlap == 0 then CeilDiv(|text|, max + 1)
            else 1 + CeilDiv(|text| - max, max - overlap)
  {
    if |text| > max {
      if overlap == 0 {
        CountWithoutOverlap(text, max);
      } else {
        CountWithOverlap(text, max, overlap);
      }
    }
  }
}
