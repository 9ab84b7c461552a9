/** Table headers read in two ways: as the workbench does, and by the grammar of the file format. */
module HeaderReadings {
  import opened Wrappers
  import opened Text

  /** The part of a dotted header before its first dot. */
  function TopName(header: string): string {
    if header == [] || header[0] == '.' then [] else [header[0]] + TopName(header[1..])
  }

  /** The place of the first closing bracket, or the length. */
  function ClosingBracket(s: string): (n: nat)
    ensures n <= |s| && (n < |s| ==> s[n] == ']')
    ensures forall i :: 0 <= i < n ==> s[i] != ']'
  {
    if s == [] || s[0] == ']' then 0 else 1 + ClosingBracket(s[1..])
  }

  /** The line opens one bracket, and not two. */
  predicate OneBracket(t: string) {
    t != [] && t[0] == '[' && (|t| > 1 ==> t[1] != '[')
  }

  predicate OnlyComment(s: string) {
    Trim(s) == [] || Trim(s)[0] == '#'
  }

  /** A top-level table header as the workbench reads it: the whole line is in brackets. */
  function OwnHeader(t: string): Option<string> {
    if OneBracket(t) && |t| > 1 && t[|t| - 1] == ']' then Some(Trim(t[1..|t| - 1])) else None
  }

  /** A table header by the grammar: a comment may follow the closing bracket. */
  function GrammarHeader(t: string): Option<string> {
    var n := ClosingBracket(t);
    if OneBracket(t) && 1 <= n < |t| && OnlyComment(t[n + 1..]) then Some(Trim(t[1..n])) else None
  }

  // ---------------------------------------------------------------- names

  lemma {:induction false} TopNameFront(front: string, back: string)
    requires '.' in front
    ensures TopName(front + back) == TopName(front)
    decreases |front|
  {
    var whole := front + back;
    if front[0] != '.' {
      assert whole[1..] == front[1..] + back && front == [front[0]] + front[1..];
      TopNameFront(front[1..], back);
    }
  }

  lemma {:induction false} TopNameDotless(front: string, back: string)
    requires '.' !in front
    ensures TopName(front + back) == front + TopName(back)
    decreases |front|
  {
    var whole := front + back;
    if front == [] {
      assert whole == back;
    } else {
      assert front[0] in front && whole[1..] == front[1..] + back;
      TopNameDotless(front[1..], back);
      assert front == [front[0]] + front[1..];
    }
  }

  lemma {:induction false} TopNameOfDotless(s: string)
    requires '.' !in s
    ensures TopName(s) == s
  {
    TopNameDotless(s, []);
    assert s + [] == s;
  }

  /** A managed name is one letter run: it has no dot, bracket or space to trim. */
  predicate SimpleName(s: string) {
    && s != [] && !IsSpace(s[0]) && !IsSpace(s[|s| - 1]) && s[0] != '['
    && ']' !in s && '.' !in s
  }

  ghost predicate AllSimple(tables: seq<string>) {
    forall i :: 0 <= i < |tables| ==> SimpleName(tables[i])
  }

  lemma {:induction false} TrimStartExtends(front: string, back: string)
    requires back != [] && !IsSpace(back[0])
    ensures TrimStart(front + back) == TrimStart(front) + back
    decreases |front|
  {
    var whole := front + back;
    if front == [] {
      assert whole == back;
      NothingToTrim(back);
    } else if IsSpace(front[0]) {
      assert whole[1..] == front[1..] + back;
      TrimStartDrops(whole);
      TrimStartDrops(front);
      TrimStartExtends(front[1..], back);
    } else {
      NothingToTrim(whole);
      NothingToTrim(front);
    }
  }

  lemma {:induction false} DotSurvivesTrimStart(s: string)
    ensures '.' in s <==> '.' in TrimStart(s)
    decreases |s|
  {
    if s != [] && IsSpace(s[0]) {
      TrimStartDrops(s);
      DotSurvivesTrimStart(s[1..]);
      assert s == [s[0]] + s[1..] && !IsSpace('.');
    } else {
      NothingToTrim(s);
    }
  }

  lemma {:induction false} DotSurvivesTrimEnd(s: string)
    requires '.' in s
    ensures '.' in TrimEnd(s)
  {
    assert s == TrimEnd(s) + s[|TrimEnd(s)|..] && !IsSpace('.');
  }

  /** What follows a bracket belongs to the name the workbench reads, and to no managed one. */
  lemma {:induction false} NameReadOn(name: string, more: string)
    requires more != [] && more[0] == ']'
    ensures '.' in name ==> TopName(Trim(name + more)) == TopName(Trim(name))
    ensures '.' !in name ==> ']' in TopName(Trim(name + more))
  {
    var start, kept := TrimStart(name), TrimEnd(more);
    assert more[0] in more && !IsSpace(']');
    TrimStartExtends(name, more);
    TrimEndKeepsFront(start, more);
    assert kept[0] == ']';
    DotSurvivesTrimStart(name);
    if '.' in name {
      TopNameFront(start, kept);
      DotSurvivesTrimEnd(start);
      assert start == TrimEnd(start) + start[|TrimEnd(start)|..];
      TopNameFront(TrimEnd(start), start[|TrimEnd(start)|..]);
    } else {
      TopNameDotless(start, kept);
      assert TopName(kept)[0] == ']';
    }
  }

  predicate Managed(tables: seq<string>, name: string) {
    TopName(name) in tables
  }

  lemma {:induction false} BracketsAreInNoName(tables: seq<string>, name: string)
    requires AllSimple(tables) && (']' in name || '.' in name)
    ensures name !in tables
  {
  }

  /** Reading on past the bracket hides a managed table exactly when its name has no dot. */
  lemma {:induction false} ReadOnIsManagedIff(tables: seq<string>, name: string, more: string)
    requires AllSimple(tables) && more != [] && more[0] == ']'
    ensures Managed(tables, Trim(name)) != Managed(tables, Trim(name + more)) <==> Trim(name) in tables
    ensures Trim(name) in tables ==> Managed(tables, Trim(name))
  {
    NameReadOn(name, more);
    DotSurvivesTrimStart(name);
    if '.' in name {
      DotSurvivesTrimEnd(TrimStart(name));
      BracketsAreInNoName(tables, Trim(name));
    } else {
      BracketsAreInNoName(tables, TopName(Trim(name + more)));
      assert TrimStart(name) == Trim(name) + TrimStart(name)[|Trim(name)|..];
      TopNameOfDotless(Trim(name));
    }
  }

  // ---------------------------------------------------------------- when the readings differ

  datatype Sort = NoHeader | ManagedTable | OtherTable

  function SortOf(tables: seq<string>, table: Option<string>): Sort {
    if table.None? then NoHeader else if Managed(tables, table.value) then ManagedTable else OtherTable
  }

  /**
   The line opens one bracket and goes on after its first closing bracket; and then it ends in
   something else and the rest is a comment, or it ends in a bracket and the rest is no comment,
   or the rest is a comment that ends in a bracket and the name is one of the managed tables.
   */
  predicate HeaderReadsDifferently(tables: seq<string>, t: string) {
    var n := ClosingBracket(t);
    && OneBracket(t) && 1 <= n && n + 1 < |t|
    && var comment, closed := OnlyComment(t[n + 1..]), t[|t| - 1] == ']';
       comment != closed || (comment && Trim(t[1..n]) in tables)
  }

  lemma {:induction false} NothingIsAComment()
    ensures OnlyComment("")
  {
  }

  /** Where the first closing bracket ends the line, or there is none, the readings are the same. */
  lemma {:induction false} ShortHeadersAgree(t: string)
    requires !OneBracket(t) || ClosingBracket(t) + 1 >= |t|
    ensures OwnHeader(t) == GrammarHeader(t)
  {
    var n := ClosingBracket(t);
    if OneBracket(t) && n < |t| {
      assert t[n + 1..] == [] && n == |t| - 1;
      NothingIsAComment();
    }
  }

  lemma {:induction false} LongHeadersDifferIff(tables: seq<string>, t: string, n: nat)
    requires AllSimple(tables) && OneBracket(t) && n == ClosingBracket(t) && n + 1 < |t|
    ensures n >= 1
    ensures SortOf(tables, OwnHeader(t)) != SortOf(tables, GrammarHeader(t)) <==> HeaderReadsDifferently(tables, t)
  {
    var name, more := t[1..n], t[n..|t| - 1];
    assert t[1..|t| - 1] == name + more && more[0] == ']';
    ReadOnIsManagedIff(tables, name, more);
  }

  /** Exactly which lines are read as another sort of header. */
  lemma {:induction false} SortsDifferIff(tables: seq<string>, t: string)
    requires AllSimple(tables)
    ensures SortOf(tables, OwnHeader(t)) != SortOf(tables, GrammarHeader(t)) <==> HeaderReadsDifferently(tables, t)
  {
    if OneBracket(t) && ClosingBracket(t) + 1 < |t| {
      LongHeadersDifferIff(tables, t, ClosingBracket(t));
    } else {
      ShortHeadersAgree(t);
    }
  }

  // ---------------------------------------------------------------- headers with a comment

  function Bracketed(name: string): string {
    ['['] + name + [']']
  }

  /** A header line with a comment after it: `[name] #note`. */
  function Commented(name: string, note: string): string {
    Bracketed(name) + ([' ', '#'] + note)
  }

  predicate PlainName(name: string) {
    name != [] && name[0] != '[' && ']' !in name
  }

  predicate Note(note: string) {
    note != [] && !IsSpace(note[|note| - 1])
  }

  lemma {:induction false} ClosesAfter(name: string, rest: string)
    requires ']' !in name
    ensures ClosingBracket(name + [']'] + rest) == |name|
    decreases |name|
  {
    var s := name + [']'] + rest;
    if name != [] {
      assert name[0] in name && s[1..] == name[1..] + [']'] + rest;
      ClosesAfter(name[1..], rest);
    }
  }

  lemma {:induction false} NoteIsComment(note: string)
    requires Note(note)
    ensures OnlyComment([' ', '#'] + note)
  {
    var s, ink := [' ', '#'] + note, ['#'] + note;
    assert s[1..] == ink && IsSpace(' ') && !IsSpace('#');
    TrimStartDrops(s);
    NothingToTrim(ink);
  }

  /** A line that opens a bracket before `name` and closes it after. */
  lemma {:induction false} HeaderShape(name: string, rest: string, t: string)
    requires PlainName(name) && t == Bracketed(name) + rest
    ensures OneBracket(t) && ClosingBracket(t) == |name| + 1
    ensures t[1..|name| + 1] == name && t[|name| + 2..] == rest
  {
    assert t[0] == '[' && t[1] == name[0];
    assert t[1..] == name + [']'] + rest;
    ClosesAfter(name, rest);
    assert ClosingBracket(t) == 1 + ClosingBracket(t[1..]);
  }

  /** A header without a comment is read alike. */
  lemma {:induction false} BracketedReadings(name: string)
    requires PlainName(name)
    ensures OwnHeader(Bracketed(name)) == GrammarHeader(Bracketed(name)) == Some(Trim(name))
  {
    var t := Bracketed(name);
    assert t == Bracketed(name) + [];
    HeaderShape(name, [], t);
    NothingIsAComment();
    assert t[1..|t| - 1] == name;
  }

  /** A header with a comment is one by the grammar. */
  lemma {:induction false} GrammarReads(name: string, note: string)
    requires PlainName(name) && Note(note)
    ensures GrammarHeader(Commented(name, note)) == Some(Trim(name))
  {
    var t, rest := Commented(name, note), [' ', '#'] + note;
    HeaderShape(name, rest, t);
    NoteIsComment(note);
  }

  /** To the workbench it is one only if the comment ends in a bracket. */
  lemma {:induction false} CommentedReadings(name: string, note: string)
    requires PlainName(name) && Note(note)
    ensures GrammarHeader(Commented(name, note)) == Some(Trim(name))
    ensures OwnHeader(Commented(name, note)).Some? <==> note[|note| - 1] == ']'
  {
    GrammarReads(name, note);
    var t := Commented(name, note);
    assert t[0] == '[' && t[1] == name[0] && t[|t| - 1] == note[|note| - 1];
  }

  lemma {:induction false} OwnHeaderOf(inner: string)
    requires inner != [] && inner[0] != '['
    ensures OwnHeader(Bracketed(inner)) == Some(Trim(inner))
  {
    var t := Bracketed(inner);
    assert t[0] == '[' && t[1] == inner[0] && t[|t| - 1] == ']' && t[1..|t| - 1] == inner;
  }

  /** The workbench reads on from the name to the bracket that ends the comment. */
  function ReadOn(note: string): string
    requires note != []
  {
    [']', ' ', '#'] + note[..|note| - 1]
  }

  lemma {:induction false} ReadsOn(name: string, note: string)
    requires PlainName(name) && Note(note) && note[|note| - 1] == ']'
    ensures OwnHeader(Commented(name, note)) == Some(Trim(name + ReadOn(note)))
  {
    var inner := name + ReadOn(note);
    assert note == note[..|note| - 1] + [']'];
    assert Commented(name, note) == Bracketed(inner);
    assert inner[0] == name[0];
    OwnHeaderOf(inner);
  }

  /** With such a comment, the name of a managed table is read on into the comment. */
  lemma {:induction false} BracketInComment(tables: seq<string>, name: string, note: string)
    requires AllSimple(tables) && PlainName(name) && Note(note) && note[|note| - 1] == ']' && Trim(name) in tables
    ensures SortOf(tables, OwnHeader(Commented(name, note))) == OtherTable
    ensures SortOf(tables, GrammarHeader(Commented(name, note))) == ManagedTable
  {
    CommentedReadings(name, note);
    ReadsOn(name, note);
    ReadOnIsManagedIff(tables, name, ReadOn(note));
  }
}
