/** The workbench's reading of its configuration file against the grammar, with its own tables and sentinels. */
module ConfigHeaders {
  import opened Wrappers
  import opened Text
  import opened HeaderReadings
  import opened ManagedLines
  import opened ManagedConfig

  function GrammarKind(line: string): Kind {
    KindWith(Trim(line), GrammarHeader(Trim(line)))
  }

  ghost predicate IsGrammar(g: Dialect) {
    forall line :: g.kind(line) == GrammarKind(line)
  }

  lemma {:induction false} TrimTwice(s: string)
    ensures Trim(Trim(s)) == Trim(s)
  {
    var start := TrimStart(s);
    var t := TrimEnd(start);
    if t != [] {
      assert t[0] == start[0];
    }
    NothingToTrim(t);
  }

  lemma {:induction false} StartsAndEnds(t: string, one: string, two: string, close: string)
    requires one == ['['] && two == ['[', '['] && close == [']']
    ensures OneBracket(t) <==> StartsWith(t, one) && !StartsWith(t, two)
    ensures t != [] ==> (EndsWith(t, close) <==> t[|t| - 1] == ']')
  {
    if t != [] {
      assert t[|t| - 1..] == [t[|t| - 1]] && t[..1] == [t[0]];
    }
    if |t| > 1 {
      assert t[..2] == [t[0], t[1]];
    }
  }

  /** The header the workbench parses from a trimmed line. */
  lemma {:induction false} ParsesOwnHeader(t: string)
    requires Trim(t) == t
    ensures ParseTableHeader(t) == OwnHeader(t)
  {
    StartsAndEnds(t, "[", "[[", "]");
  }

  lemma {:induction false} ManagedNamesAreSimple()
    ensures AllSimple(MANAGED_TABLES)
  {
    assert MANAGED_TABLES[0] == "judge" && MANAGED_TABLES[1] == "search";
    assert MANAGED_TABLES[2] == "retrieval" && MANAGED_TABLES[3] == "forget";
    assert !IsSpace('j') && !IsSpace('s') && !IsSpace('r') && !IsSpace('f');
    assert !IsSpace('e') && !IsSpace('h') && !IsSpace('l') && !IsSpace('t');
  }

  predicate IsSentinel(t: string) {
    t == MANAGED_BEGIN || t == MANAGED_END
  }

  /** The kind of a line by the sort of header it is read as. */
  function KindBySort(sort: Sort, double: bool): Kind {
    match sort
    case NoHeader => if double then OtherHeader else Plain
    case ManagedTable => ManagedHeader
    case OtherTable => OtherHeader
  }

  lemma {:induction false} KindOfLine(t: string, table: Option<string>)
    ensures !IsSentinel(t) ==> KindWith(t, table) == KindBySort(SortOf(MANAGED_TABLES, table), StartsWith(t, "[["))
    ensures IsSentinel(t) ==> KindWith(t, table) == if t == MANAGED_BEGIN then Begin else End
  {
  }

  /** The line is no sentinel, and its header is read differently. */
  predicate ReadsDifferently(line: string) {
    !IsSentinel(Trim(line)) && HeaderReadsDifferently(MANAGED_TABLES, Trim(line))
  }

  lemma {:induction false} KindsBySort(one: Sort, two: Sort, double: bool)
    requires double ==> one == two
    ensures KindBySort(one, double) != KindBySort(two, double) <==> one != two
  {
  }

  lemma {:induction false} DoubleBracketsAgree(t: string, two: string)
    requires two == ['[', '['] && StartsWith(t, two)
    ensures OwnHeader(t) == GrammarHeader(t) == None
  {
    assert t[..2][0] == '[' && t[..2][1] == '[';
  }

  /** Exactly which lines the workbench reads differently from the grammar. */
  lemma {:induction false} KindsDifferIff(line: string)
    ensures KindOf(line) != GrammarKind(line) <==> ReadsDifferently(line)
  {
    var t := Trim(line);
    TrimTwice(line);
    ParsesOwnHeader(t);
    var own, grammar := OwnHeader(t), GrammarHeader(t);
    KindOfLine(t, own);
    KindOfLine(t, grammar);
    ManagedNamesAreSimple();
    SortsDifferIff(MANAGED_TABLES, t);
    var double := StartsWith(t, "[[");
    if double {
      DoubleBracketsAgree(t, "[[");
    }
    KindsBySort(SortOf(MANAGED_TABLES, own), SortOf(MANAGED_TABLES, grammar), double);
  }

  lemma {:induction false} SentinelsByBoth(d: Dialect, g: Dialect)
    requires IsWorkbench(d) && IsGrammar(g)
    ensures SameSentinels(d, g)
  {
    forall line
      ensures (d.kind(line) == Begin <==> g.kind(line) == Begin) && (d.kind(line) == End <==> g.kind(line) == End)
    {
      SameSentinelKinds(Trim(line), ParseTableHeader(Trim(line)), GrammarHeader(Trim(line)));
    }
  }

  lemma {:induction false} SameSentinelKinds(t: string, one: Option<string>, two: Option<string>)
    ensures KindWith(t, one) == Begin <==> KindWith(t, two) == Begin
    ensures KindWith(t, one) == End <==> KindWith(t, two) == End
  {
    KindOfLine(t, one);
    KindOfLine(t, two);
  }

  /** A line outside the blocks that is read differently does no harm where it stands. */
  ghost predicate ReadingIsHarmless(g: Dialect, lines: seq<string>, i: nat)
    requires i < |lines|
  {
    !InBlock(g, lines, i) && ReadsDifferently(lines[i]) ==>
      Harmless(KindOf(lines[i]), GrammarKind(lines[i]), InTableBefore(g, lines, i))
  }

  /**
   The workbench keeps exactly the lines that are foreign by the grammar if and only if every
   line outside the blocks that it reads differently says what was so before it.
   */
  lemma {:induction false} WorkbenchKeepsByGrammarIff(d: Dialect, g: Dialect, lines: seq<string>)
    requires IsWorkbench(d) && IsGrammar(g)
    ensures SameKeptUpTo(d, g, lines, |lines|) <==> forall i: nat :: i < |lines| ==> ReadingIsHarmless(g, lines, i)
  {
    SentinelsByBoth(d, g);
    SameKeptIffHarmless(d, g, lines);
    forall i: nat | i < |lines| ensures HarmlessAt(d, g, lines, i) <==> ReadingIsHarmless(g, lines, i) {
      KindsDifferIff(lines[i]);
    }
  }

  // ---------------------------------------------------------------- headers with a comment

  lemma {:induction false} NoSentinel(t: string, begin: string, end: string)
    requires t != [] && t[0] == '[' && begin == MANAGED_BEGIN && end == MANAGED_END
    ensures !IsSentinel(t)
  {
    assert begin[0] == '#' && end[0] == '#';
  }

  /** The kinds of a header line, from the sorts of its two readings. */
  lemma {:induction false} KindsOfHeader(name: string, rest: string, t: string)
    requires PlainName(name) && t == Bracketed(name) + rest && !IsSpace(t[|t| - 1])
    ensures Trim(t) == t
    ensures KindOf(t) == KindBySort(SortOf(MANAGED_TABLES, OwnHeader(t)), false)
    ensures GrammarKind(t) == KindBySort(SortOf(MANAGED_TABLES, GrammarHeader(t)), false)
  {
    assert t[0] == '[' && !IsSpace('[');
    BoundedByInk(t);
    NoSentinel(t, MANAGED_BEGIN, MANAGED_END);
    ParsesOwnHeader(t);
    HeaderShape(name, rest, t);
    StartsAndEnds(t, "[", "[[", "]");
    assert StartsWith(t, "[") by { assert t[..1] == ['[']; }
    KindOfLine(t, OwnHeader(t));
    KindOfLine(t, GrammarHeader(t));
  }

  lemma {:induction false} SimpleIsManaged(tables: seq<string>, table: string)
    requires AllSimple(tables) && table in tables
    ensures PlainName(table) && Trim(table) == table && Managed(tables, table)
  {
    BoundedByInk(table);
    TopNameOfDotless(table);
  }

  /** The header of a managed table is one by both readings. */
  lemma {:induction false} ManagedTableByBoth(table: string)
    requires table in MANAGED_TABLES
    ensures KindOf(Bracketed(table)) == ManagedHeader && GrammarKind(Bracketed(table)) == ManagedHeader
  {
    ManagedNamesAreSimple();
    SimpleIsManaged(MANAGED_TABLES, table);
    var t := Bracketed(table);
    assert t == Bracketed(table) + [] && t[|t| - 1] == ']' && !IsSpace(']');
    BracketedReadings(table);
    KindsOfHeader(table, [], t);
  }

  /** The kinds of a header with a comment. */
  lemma {:induction false} CommentedKinds(name: string, note: string)
    requires PlainName(name) && Note(note)
    ensures Trim(Commented(name, note)) == Commented(name, note)
    ensures GrammarKind(Commented(name, note)) ==
            if Managed(MANAGED_TABLES, Trim(name)) then ManagedHeader else OtherHeader
    ensures note[|note| - 1] != ']' ==> KindOf(Commented(name, note)) == Plain
  {
    var t := Commented(name, note);
    assert t[|t| - 1] == note[|note| - 1];
    CommentedReadings(name, note);
    KindsOfHeader(name, [' ', '#'] + note, t);
  }

  /** `[judge] # see [b]` is a managed table by the grammar and another one to the workbench. */
  lemma {:induction false} BracketInCommentHides(name: string, note: string)
    requires PlainName(name) && Note(note) && note[|note| - 1] == ']' && Trim(name) in MANAGED_TABLES
    ensures KindOf(Commented(name, note)) == OtherHeader && GrammarKind(Commented(name, note)) == ManagedHeader
  {
    var t := Commented(name, note);
    assert t[|t| - 1] == note[|note| - 1];
    ManagedNamesAreSimple();
    BracketInComment(MANAGED_TABLES, name, note);
    KindsOfHeader(name, [' ', '#'] + note, t);
  }

  /** After a managed table, a header of another table that carries a comment is dropped with the table. */
  lemma {:induction false} CommentedHeaderIsLost(d: Dialect, g: Dialect, table: string, name: string, note: string)
    requires IsWorkbench(d) && IsGrammar(g) && table in MANAGED_TABLES
    requires PlainName(name) && Note(note) && note[|note| - 1] != ']' && !Managed(MANAGED_TABLES, Trim(name))
    ensures var lines := [Bracketed(table), Commented(name, note)];
            !KeptAt(d, lines, 1) && KeptAt(g, lines, 1)
  {
    ManagedTableByBoth(table);
    CommentedKinds(name, note);
    SentinelsByBoth(d, g);
    UnseenHeaderIsLost(d, g, Bracketed(table), Commented(name, note));
  }

  lemma {:induction false} PlainLineIsKept(d: Dialect, t: string, body: seq<string>)
    requires Lawful(d) && d.kind(t) == Plain && t != [] && !IsSpace(t[|t| - 1])
    ensures Rewrite(d, [t], body) == [t, ""] + [d.begin] + body + [d.end]
  {
    assert AllForeign(d, [t]);
    ForeignLinesPass(d, [t]);
    LoneLineIsTrimmed(t);
  }

  lemma {:induction false} LoneLineIsTrimmed(t: string)
    requires t != [] && !IsSpace(t[|t| - 1])
    ensures TrimLines([t]) == [t]
  {
    assert t[|t| - 1] in t && [t][..0] == [];
    NothingToTrim(t);
  }

  /** A table header that carries a comment survives the save, managed or not. */
  lemma {:induction false} CommentedTableIsKept(d: Dialect, name: string, note: string, body: seq<string>)
    requires IsWorkbench(d) && PlainName(name) && Note(note) && note[|note| - 1] != ']'
    ensures Rewrite(d, [Commented(name, note)], body) ==
            [Commented(name, note), ""] + [d.begin] + body + [d.end]
  {
    var t := Commented(name, note);
    assert t[|t| - 1] == note[|note| - 1];
    CommentedKinds(name, note);
    WorkbenchIsLawful(d);
    PlainLineIsKept(d, t, body);
  }

  /**
   So a managed table whose header carries a comment ends up in the file twice: where it stood,
   and in the block that regenerates it.
   */
  lemma {:induction false} CommentedTableIsDoubled(
      d: Dialect, name: string, note: string, body: seq<string>, j: nat)
    requires IsWorkbench(d) && PlainName(name) && Note(note) && note[|note| - 1] != ']'
    requires j < |body| && GrammarHeader(Trim(body[j])) == Some(Trim(name))
    ensures var file := Rewrite(d, [Commented(name, note)], body);
            && |file| == |body| + 4
            && GrammarHeader(Trim(file[0])) == Some(Trim(name))
            && GrammarHeader(Trim(file[3 + j])) == Some(Trim(name))
  {
    CommentedTableIsKept(d, name, note, body);
    CommentedKinds(name, note);
    CommentedReadings(name, note);
    FileOf(Commented(name, note), "", d.begin, body, d.end, j);
  }

  lemma {:induction false} FileOf(first: string, gap: string, begin: string, body: seq<string>, end: string, j: nat)
    requires j < |body|
    ensures var file := [first, gap] + [begin] + body + [end];
            |file| == |body| + 4 && file[0] == first && file[3 + j] == body[j]
  {
  }
}
