/** The classification of lines used for the workbench-managed block. */
module ManagedConfig {
  import opened Wrappers
  import opened Text
  import opened HeaderReadings
  import opened ManagedLines

  const BEGIN_NAME := " ferrosa-memory workbench-managed (do not edit by hand) "
  const END_NAME := " ferrosa-memory workbench-managed "
  const MANAGED_BEGIN := "# >>>" + BEGIN_NAME + ">>>"
  const MANAGED_END := "# <<<" + END_NAME + "<<<"
  const MANAGED_TABLES := ["judge", "search", "retrieval", "forget"]

  /** A top-level table header `[name]`, but not an array of tables `[[name]]`. */
  function ParseTableHeader(line: string): Option<string> {
    var t := Trim(line);
    if StartsWith(t, "[") && !StartsWith(t, "[[") && EndsWith(t, "]") && |t| >= 2
    then Some(Trim(t[1..|t| - 1])) else None
  }

  function KindOf(line: string): Kind {
    KindOfTrimmed(Trim(line))
  }

  function KindOfTrimmed(t: string): Kind {
    KindWith(t, ParseTableHeader(t))
  }

  /** The kind of a trimmed line, given the table header it is read as. */
  function KindWith(t: string, table: Option<string>): Kind {
    if t == MANAGED_BEGIN then Begin
    else if t == MANAGED_END then End
    else
      match table
      case Some(header) => if TopName(header) in MANAGED_TABLES then ManagedHeader else OtherHeader
      case None => if StartsWith(t, "[[") then OtherHeader else Plain
  }

  /** The dialect of the workbench: the classification above and its two sentinels. */
  ghost predicate IsWorkbench(d: Dialect) {
    (forall line :: d.kind(line) == KindOf(line)) && d.begin == MANAGED_BEGIN && d.end == MANAGED_END
  }

  lemma BoundedByInk(s: string)
    requires s != [] && !IsSpace(s[0]) && !IsSpace(s[|s| - 1])
    ensures Trim(s) == s
  {
  }

  lemma TrimmedSentinels(begin: string, end: string, a: string, b: string)
    requires begin == "# >>>" + a + ">>>" && end == "# <<<" + b + "<<<"
    ensures Trim(begin) == begin && Trim(end) == end && begin != end && begin != [] && end != []
  {
    assert !IsSpace('#') && !IsSpace('>') && !IsSpace('<');
    assert begin[0] == '#' && begin[|begin| - 1] == '>' && begin[2] == '>';
    assert end[0] == '#' && end[|end| - 1] == '<' && end[2] == '<';
    BoundedByInk(begin);
    BoundedByInk(end);
  }

  /** The classification tests its argument against the sentinels first. */
  lemma KindByTrimmed(line: string, t: string)
    requires Trim(line) == t
    ensures t == MANAGED_BEGIN ==> KindOf(line) == Begin
    ensures t == MANAGED_END && t != MANAGED_BEGIN ==> KindOf(line) == End
  {
  }

  lemma EmptyIsPlain(line: string, begin: string, end: string)
    requires line == [] && begin == MANAGED_BEGIN && end == MANAGED_END && begin != [] && end != []
    ensures KindOf(line) == Plain
  {
  }

  lemma TrimEndKeepsKind(line: string)
    ensures KindOf(TrimEnd(line)) == KindOf(line)
  {
    assert Trim(TrimEnd(line)) == Trim(line) by {
      TrimStartOfPrefix(line, |TrimEnd(line)|);
    }
  }

  lemma SentinelsAreRecognised(d: Dialect)
    requires IsWorkbench(d)
    ensures d.kind(d.begin) == Begin && d.kind(d.end) == End
  {
    TrimmedSentinels(d.begin, d.end, BEGIN_NAME, END_NAME);
    KindByTrimmed(d.begin, d.begin);
    KindByTrimmed(d.end, d.end);
  }

  lemma EmptyLineIsPlain(d: Dialect, line: string)
    requires IsWorkbench(d) && line == []
    ensures d.kind(line) == Plain
  {
    assert d.begin != [] && d.end != [] by { TrimmedSentinels(d.begin, d.end, BEGIN_NAME, END_NAME); }
    EmptyIsPlain(line, d.begin, d.end);
  }

  /** Trailing white space does not change what a line is, and the sentinels are what they claim. */
  lemma WorkbenchIsLawful(d: Dialect)
    requires IsWorkbench(d)
    ensures Lawful(d)
  {
    SentinelsAreRecognised(d);
    EmptyLineIsPlain(d, "");
    forall line ensures d.kind(TrimEnd(line)) == d.kind(line) {
      TrimEndKeepsKind(line);
    }
  }

  /** A later workbench save absorbs an earlier one when no rendered line is the closing sentinel. */
  lemma WorkbenchSaveIsAbsorbing(d: Dialect, lines: seq<string>, a: seq<string>, b: seq<string>)
    requires IsWorkbench(d) && forall i :: 0 <= i < |a| ==> d.kind(a[i]) != End
    ensures Rewrite(d, Rewrite(d, lines, a), b) == Rewrite(d, lines, b)
  {
    WorkbenchIsLawful(d);
    BodyWithoutEndIsAbsorbed(d, lines, a, b);
  }

  /**
   Not for every rendering: with a line that is the closing sentinel and a visible plain line
   after it, old text outlives the next save, whatever comments and tables stand around them.
   */
  lemma WorkbenchSaveCanLeak(
      d: Dialect, lines: seq<string>, pre: seq<string>, ink: string, post: seq<string>, b: seq<string>)
    requires IsWorkbench(d) && (forall i :: 0 <= i < |pre| ==> d.kind(pre[i]) != End)
    requires d.kind(ink) == Plain && !IsBlank(ink)
    ensures Rewrite(d, Rewrite(d, lines, pre + ([d.end] + ([ink] + post))), b) != Rewrite(d, lines, b)
  {
    WorkbenchIsLawful(d);
    SentinelInBodyEscapes(d, lines, pre, ink, post, b);
  }
}
