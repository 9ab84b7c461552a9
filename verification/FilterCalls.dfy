/**
 A misspelt call is never read as a variable: in accepted input, whatever stands directly
 before an opening parenthesis takes that parenthesis.
 */
module FilterCalls {
  import opened Wrappers
  import opened FilterParser

  /** A call of the right arity starts here. */
  predicate IsCallAt(ts: Tokens) {
    var r := ParseFactor(ts);
    && ts.Cons? && ts.head.FuncTok? && r.Got? && r.value.Call?
    && r.value.func == ts.head.func && Length(r.value.args) == Arity(ts.head.func)
  }

  /** The first token may stand before the second: only calls, predicates and openers stand before `(`. */
  predicate Belongs(ts: Tokens)
    requires ts.Cons?
  {
    Starts(ts.tail, LParen) ==>
      match ts.head
      case FuncTok(_) => IsCallAt(ts)
      case StrPredTok(_) => ParseStrPred(ts).Got?
      case IsNullTok => ParseIsNull(ts).Got?
      case NameTok(_) => false
      case NumTok(_) => false
      case StrTok(_) => false
      case NullTok => false
      case InTok => false
      case RParen => false
      case RBracket => false
      case _ => true
  }

  /** All neighbours in front of `rest`, which is what a parser left over, belong together. */
  predicate Clean(ts: Tokens, rest: Tokens) {
    ts == rest || (ts.Cons? && (ts.tail == rest || Belongs(ts)) && Clean(ts.tail, rest))
  }

  lemma {:induction false} CleanJoins(a: Tokens, b: Tokens, c: Tokens)
    requires Clean(a, b) && Clean(b, c) && !Starts(b, LParen)
    ensures Clean(a, c)
  {
    if a != b {
      CleanJoins(a.tail, b, c);
    }
  }

  /** One more token, which takes what follows it. */
  lemma {:induction false} CleanStep(a: Tokens, b: Tokens, c: Tokens)
    requires Clean(a, b) && b.Cons? && !Starts(b, LParen) && Belongs(b) && Clean(b.tail, c)
    ensures Clean(a, c)
  {
    CleanJoins(a, b, c);
  }

  // ---------------------------------------------------------------- expressions

  lemma {:induction false} ExprIsClean(ts: Tokens)
    requires ParseExpr(ts).Got?
    ensures Clean(ts, ParseExpr(ts).rest)
    decreases Length(ts), 4
  {
    TermIsClean(ts);
    var first := ParseTerm(ts);
    ExprTailIsClean(first.value, first.rest, ts);
  }

  lemma {:induction false} ExprTailIsClean(acc: Expr, ts: Tokens, from: Tokens)
    requires GoodExpr(acc) && Clean(from, ts)
    ensures Clean(from, ExprTail(acc, ts).rest)
    decreases Length(ts), 3
  {
    if ts.Cons? && ts.head.OpTok? && (ts.head.op == Add || ts.head.op == Sub) && ParseTerm(ts.tail).Got? {
      TermIsClean(ts.tail);
      var rhs := ParseTerm(ts.tail);
      CleanStep(from, ts, rhs.rest);
      ExprTailIsClean(BinOp(ts.head.op, acc, rhs.value), rhs.rest, from);
    }
  }

  lemma {:induction false} TermIsClean(ts: Tokens)
    requires ParseTerm(ts).Got?
    ensures Clean(ts, ParseTerm(ts).rest)
    decreases Length(ts), 2
  {
    PowerIsClean(ts);
    var first := ParsePower(ts);
    TermTailIsClean(first.value, first.rest, ts);
  }

  lemma {:induction false} TermTailIsClean(acc: Expr, ts: Tokens, from: Tokens)
    requires GoodExpr(acc) && Clean(from, ts)
    ensures Clean(from, TermTail(acc, ts).rest)
    decreases Length(ts), 1
  {
    if ts.Cons? && ts.head.OpTok? && (ts.head.op == Mul || ts.head.op == Div || ts.head.op == Rem)
       && ParsePower(ts.tail).Got? {
      PowerIsClean(ts.tail);
      var rhs := ParsePower(ts.tail);
      CleanStep(from, ts, rhs.rest);
      TermTailIsClean(BinOp(ts.head.op, acc, rhs.value), rhs.rest, from);
    }
  }

  lemma {:induction false} PowerIsClean(ts: Tokens)
    requires ParsePower(ts).Got?
    ensures Clean(ts, ParsePower(ts).rest)
    decreases Length(ts), 1
  {
    FactorIsClean(ts);
    var base := ParseFactor(ts);
    if Starts(base.rest, OpTok(Pow)) && ParsePower(base.rest.tail).Got? {
      PowerIsClean(base.rest.tail);
      CleanStep(ts, base.rest, ParsePower(base.rest.tail).rest);
    }
  }

  lemma {:induction false} FactorIsClean(ts: Tokens)
    requires ParseFactor(ts).Got?
    ensures Clean(ts, ParseFactor(ts).rest)
    decreases Length(ts), 0
  {
    match ts.head
    case LParen =>
      ExprIsClean(ts.tail);
      OneMore(ts.tail, ParseExpr(ts.tail).rest);
    case FuncTok(func) =>
      if IsCallAt(ts) {
        assert Length(ts.tail.tail) < Length(ts.tail) < Length(ts);
        ListIsClean(ts.tail.tail);
        OneMore(ts.tail.tail, ParseList(ts.tail.tail).rest);
      } else {
        assert ParseFactor(ts).rest == ts.tail;
      }
    case OpTok(op) => FactorIsClean(ts.tail);
    case _ =>
  }

  /** A closing parenthesis or bracket ends what came before it. */
  lemma {:induction false} OneMore(a: Tokens, b: Tokens)
    requires Clean(a, b) && b.Cons? && !Starts(b, LParen)
    ensures Clean(a, b.tail)
  {
    assert Clean(b, b.tail);
    CleanJoins(a, b, b.tail);
  }

  lemma {:induction false} ListIsClean(ts: Tokens)
    ensures Clean(ts, ParseList(ts).rest)
    decreases Length(ts), 5
  {
    if ParseExpr(ts).Got? {
      ExprIsClean(ts);
      ListTailIsClean(ParseExpr(ts).rest, ts);
    }
  }

  lemma {:induction false} ListTailIsClean(ts: Tokens, from: Tokens)
    requires Clean(from, ts)
    ensures Clean(from, ListTail(ts).rest)
    decreases Length(ts), 5
  {
    if Starts(ts, Comma) && ParseExpr(ts.tail).Got? {
      ExprIsClean(ts.tail);
      var rest := ParseExpr(ts.tail).rest;
      CleanStep(from, ts, rest);
      ListTailIsClean(rest, from);
    }
  }

  // ---------------------------------------------------------------- filters

  lemma {:induction false} StrPredIsClean(ts: Tokens)
    requires ParseStrPred(ts).Got?
    ensures Clean(ts, ParseStrPred(ts).rest)
  {
    var inner := ts.tail.tail;
    ExprIsClean(inner);
    var comma := ParseExpr(inner).rest;
    ExprIsClean(comma.tail);
    var close := ParseExpr(comma.tail).rest;
    CleanStep(inner, comma, close);
    OneMore(inner, close);
    assert Clean(ts.tail, close.tail);
    assert Belongs(ts);
  }

  lemma {:induction false} IsNullIsClean(ts: Tokens)
    requires ParseIsNull(ts).Got?
    ensures Clean(ts, ParseIsNull(ts).rest)
  {
    var inner := ts.tail.tail;
    ExprIsClean(inner);
    OneMore(inner, ParseExpr(inner).rest);
    assert Clean(ts.tail, ParseIsNull(ts).rest);
    assert Belongs(ts);
  }

  lemma {:induction false} MembershipIsClean(ts: Tokens)
    requires ParseMembership(ts).Got?
    ensures Clean(ts, ParseMembership(ts).rest)
  {
    ExprIsClean(ts);
    var rest := ParseExpr(ts).rest;
    var inner := rest.tail.tail;
    ListIsClean(inner);
    var close := ParseList(inner).rest;
    OneMore(inner, close);
    assert Belongs(rest.tail) && Clean(rest.tail, close.tail);
    CleanStep(ts, rest, close.tail);
  }

  lemma {:induction false} ComparisonIsClean(ts: Tokens)
    requires ParseComparison(ts).Got?
    ensures Clean(ts, ParseComparison(ts).rest)
  {
    ExprIsClean(ts);
    var rest := ParseExpr(ts).rest;
    ExprIsClean(rest.tail);
    CleanStep(ts, rest, ParseExpr(rest.tail).rest);
  }

  lemma {:induction false} GroupIsClean(ts: Tokens)
    requires ParseGroup(ts).Got?
    ensures Clean(ts, ParseGroup(ts).rest)
    decreases Length(ts), 0
  {
    OrIsClean(ts.tail);
    OneMore(ts.tail, ParseOr(ts.tail).rest);
  }

  lemma {:induction false} PrimaryIsClean(ts: Tokens)
    requires ParsePrimary(ts).Got?
    ensures Clean(ts, ParsePrimary(ts).rest)
    decreases Length(ts), 1
  {
    if ParseGroup(ts).Got? {
      GroupIsClean(ts);
    } else if ParseStrPred(ts).Got? {
      StrPredIsClean(ts);
    } else if ParseIsNull(ts).Got? {
      IsNullIsClean(ts);
    } else if ParseMembership(ts).Got? {
      MembershipIsClean(ts);
    } else {
      ComparisonIsClean(ts);
    }
  }

  lemma {:induction false} BangsAreClean(ts: Tokens, rest: Tokens)
    requires Clean(DropBangs(ts), rest)
    ensures Clean(ts, rest)
  {
    if Starts(ts, Bang) {
      BangsAreClean(ts.tail, rest);
    }
  }

  lemma {:induction false} NotIsClean(ts: Tokens)
    requires ParseNot(ts).Got?
    ensures Clean(ts, ParseNot(ts).rest)
    decreases Length(ts), 2
  {
    PrimaryIsClean(DropBangs(ts));
    BangsAreClean(ts, ParseNot(ts).rest);
  }

  lemma {:induction false} AndIsClean(ts: Tokens)
    requires ParseAnd(ts).Got?
    ensures Clean(ts, ParseAnd(ts).rest)
    decreases Length(ts), 3
  {
    NotIsClean(ts);
    AndTailIsClean(ParseNot(ts).rest, ts);
  }

  lemma {:induction false} AndTailIsClean(ts: Tokens, from: Tokens)
    requires Clean(from, ts)
    ensures Clean(from, AndTail(ts).rest)
    decreases Length(ts), 3
  {
    if Starts(ts, AndTok) && ParseNot(ts.tail).Got? {
      NotIsClean(ts.tail);
      var rest := ParseNot(ts.tail).rest;
      CleanStep(from, ts, rest);
      AndTailIsClean(rest, from);
    }
  }

  lemma {:induction false} OrIsClean(ts: Tokens)
    requires ParseOr(ts).Got?
    ensures Clean(ts, ParseOr(ts).rest)
    decreases Length(ts), 4
  {
    AndIsClean(ts);
    OrTailIsClean(ParseAnd(ts).rest, ts);
  }

  lemma {:induction false} OrTailIsClean(ts: Tokens, from: Tokens)
    requires Clean(from, ts)
    ensures Clean(from, OrTail(ts).rest)
    decreases Length(ts), 4
  {
    if Starts(ts, OrTok) && ParseAnd(ts.tail).Got? {
      AndIsClean(ts.tail);
      var rest := ParseAnd(ts.tail).rest;
      CleanStep(from, ts, rest);
      OrTailIsClean(rest, from);
    }
  }

  // ---------------------------------------------------------------- theorem

  predicate IsSuffix(u: Tokens, ts: Tokens) {
    u == ts || (ts.Cons? && IsSuffix(u, ts.tail))
  }

  lemma {:induction false} CleanEverywhere(ts: Tokens, u: Tokens)
    requires Clean(ts, Nil) && IsSuffix(u, ts) && u.Cons?
    ensures Belongs(u)
  {
    if u != ts {
      CleanEverywhere(ts.tail, u);
    }
  }

  /**
   Wherever `(` stands in accepted input, directly after a name or a literal it does not, after
   a function it opens a call of that function with the right number of arguments, and after
   a predicate it opens its arguments.
   */
  lemma {:induction false} ParenthesesBelong(ts: Tokens, u: Tokens)
    requires ParseFilter(ts).Some? && IsSuffix(u, ts) && u.Cons?
    ensures Belongs(u)
  {
    OrIsClean(ts);
    CleanEverywhere(ts, u);
  }

  /** The same holds of a head expression, which is accepted when it uses up its input. */
  lemma {:induction false} ParenthesesBelongInHeads(ts: Tokens, u: Tokens)
    requires ParseExpr(ts).Got? && ParseExpr(ts).rest.Nil? && IsSuffix(u, ts) && u.Cons?
    ensures Belongs(u)
  {
    ExprIsClean(ts);
    CleanEverywhere(ts, u);
  }

  /** So a name that is no function is never followed by `(`: a misspelt call is refused. */
  lemma {:induction false} MisspeltCallIsRefused(ts: Tokens, u: Tokens)
    requires IsSuffix(u, ts) && u.Cons? && u.head.NameTok? && Starts(u.tail, LParen)
    ensures ParseFilter(ts) == None
  {
    if ParseFilter(ts).Some? {
      ParenthesesBelong(ts, u);
    }
  }

  /** A function name with the wrong number of arguments is refused as well. */
  lemma {:induction false} WrongArityIsRefused(ts: Tokens, u: Tokens)
    requires IsSuffix(u, ts) && u.Cons? && u.head.FuncTok? && Starts(u.tail, LParen)
    requires Length(ParseList(u.tail.tail).value) != Arity(u.head.func)
    ensures ParseFilter(ts) == None
  {
    if ParseFilter(ts).Some? {
      ParenthesesBelong(ts, u);
    }
  }
}
