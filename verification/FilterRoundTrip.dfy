/**
 Printing a filter and parsing it back gives the same tree, whatever redundant
 parentheses the printer adds.
 */
module FilterRoundTrip {
  import opened Wrappers
  import opened FilterParser

  /** Which subtrees get parentheses that they do not need. */
  datatype Style = Style(expr: Expr -> bool, filter: Filter -> bool)

  // ---------------------------------------------------------------- printing

  /** How tightly an expression binds: sums, products, powers, factors. */
  function Prec(e: Expr): nat {
    match e
    case BinOp(Add, _, _) => 0
    case BinOp(Sub, _, _) => 0
    case BinOp(Pow, _, _) => 2
    case BinOp(_, _, _) => 1
    case _ => 3
  }

  function LeftLevel(op: ArithOp): nat {
    match op
    case Add => 0
    case Sub => 0
    case Pow => 3
    case _ => 1
  }

  function RightLevel(op: ArithOp): nat {
    match op
    case Add => 1
    case Sub => 1
    case _ => 2
  }

  /** Prints an expression in front of `k`, without parentheses around it. */
  function Bare(s: Style, e: Expr, k: Tokens): Tokens
    decreases e, 0
  {
    match e
    case Var(name) => Cons(NameTok(name), k)
    case LitNum(v) => Cons(NumTok(v), k)
    case LitStr(text) => Cons(StrTok(text), k)
    case Null => Cons(NullTok, k)
    case BinOp(op, lhs, rhs) => At(s, LeftLevel(op), lhs, Cons(OpTok(op), At(s, RightLevel(op), rhs, k)))
    case Neg(inner) => Cons(OpTok(Sub), At(s, 3, inner, k))
    case Call(func, args) => Cons(FuncTok(func), Cons(LParen, Args(s, args, Cons(RParen, k))))
  }

  predicate Wrapped(s: Style, level: nat, e: Expr) {
    level > Prec(e) || s.expr(e)
  }

  /** Prints an expression where only something that binds at least `level` may stand. */
  function At(s: Style, level: nat, e: Expr, k: Tokens): Tokens
    decreases e, 1
  {
    if Wrapped(s, level, e) then Cons(LParen, Bare(s, e, Cons(RParen, k))) else Bare(s, e, k)
  }

  function Args(s: Style, es: List<Expr>, k: Tokens): Tokens
    decreases es, 2
  {
    match es
    case Nil => k
    case Cons(e, rest) => At(s, 0, e, ArgsTail(s, rest, k))
  }

  function ArgsTail(s: Style, es: List<Expr>, k: Tokens): Tokens
    decreases es, 2
  {
    match es
    case Nil => k
    case Cons(e, rest) => Cons(Comma, At(s, 0, e, ArgsTail(s, rest, k)))
  }

  /** How tightly a filter binds: disjunctions, conjunctions, negations, leaves. */
  function FilterPrec(f: Filter): nat {
    match f
    case Any(_) => 0
    case All(_) => 1
    case Not(_) => 2
    case _ => 3
  }

  function BareFilter(s: Style, f: Filter, k: Tokens): Tokens
    decreases f, 0
  {
    match f
    case Compare(op, lhs, rhs) => At(s, 0, lhs, Cons(CmpTok(op), At(s, 0, rhs, k)))
    case IsNull(e) => Cons(IsNullTok, Cons(LParen, At(s, 0, e, Cons(RParen, k))))
    case StrPred(op, subject, arg) =>
      Cons(StrPredTok(op), Cons(LParen, At(s, 0, subject, Cons(Comma, At(s, 0, arg, Cons(RParen, k))))))
    case Any(Cons(f0, rest)) => FilterAt(s, 1, f0, Branches(s, 1, OrTok, rest, k))
    case All(Cons(f0, rest)) => FilterAt(s, 2, f0, Branches(s, 2, AndTok, rest, k))
    case Not(g) => Cons(Bang, FilterAt(s, 3, g, k))
    case _ => k
  }

  predicate WrappedFilter(s: Style, level: nat, f: Filter) {
    level > FilterPrec(f) || s.filter(f)
  }

  function FilterAt(s: Style, level: nat, f: Filter, k: Tokens): Tokens
    decreases f, 1
  {
    if WrappedFilter(s, level, f) then Cons(LParen, BareFilter(s, f, Cons(RParen, k))) else BareFilter(s, f, k)
  }

  function Branches(s: Style, level: nat, connective: Token, fs: List<Filter>, k: Tokens): Tokens
    decreases fs, 2
  {
    match fs
    case Nil => k
    case Cons(f, rest) => Cons(connective, FilterAt(s, level, f, Branches(s, level, connective, rest, k)))
  }

  function Print(s: Style, f: Filter): Tokens {
    FilterAt(s, 0, f, Nil)
  }

  // ---------------------------------------------------------------- expressions parse back

  predicate NoPower(k: Tokens) {
    k.Cons? && k.head.OpTok? ==> k.head.op != Pow
  }

  predicate NoProduct(k: Tokens) {
    k.Cons? && k.head.OpTok? ==> k.head.op == Add || k.head.op == Sub
  }

  predicate NoOperator(k: Tokens) {
    k.Cons? ==> !k.head.OpTok?
  }

  lemma {:induction false} BareFactor(s: Style, e: Expr, k: Tokens)
    requires GoodExpr(e) && Prec(e) == 3
    ensures ParseFactor(Bare(s, e, k)) == Got(e, k)
    decreases e, 0
  {
    match e
    case Neg(inner) => Factor(s, inner, k);
    case Call(func, args) => ArgsParse(s, args, Cons(RParen, k));
    case _ =>
  }

  lemma {:induction false} PowerOf(s: Style, e: Expr, lhs: Expr, rhs: Expr, exponent: Tokens, k: Tokens)
    requires GoodExpr(e) && e == BinOp(Pow, lhs, rhs) && exponent == At(s, 2, rhs, k) && NoPower(k)
    ensures ParsePower(Bare(s, e, k)) == Got(e, k)
    decreases e, 0
  {
    var ts := At(s, 3, lhs, Cons(OpTok(Pow), exponent));
    assert Bare(s, e, k) == ts;
    Factor(s, lhs, Cons(OpTok(Pow), exponent));
    Power(s, rhs, k);
    PowerStep(ts, lhs, exponent, rhs, k);
  }

  lemma {:induction false} BarePower(s: Style, e: Expr, k: Tokens)
    requires GoodExpr(e) && Prec(e) >= 2 && NoPower(k)
    ensures ParsePower(Bare(s, e, k)) == Got(e, k)
    decreases e, 1
  {
    if Prec(e) == 3 {
      BareFactor(s, e, k);
      LonePower(Bare(s, e, k), e, k);
    } else {
      PowerOf(s, e, e.lhs, e.rhs, At(s, 2, e.rhs, k), k);
    }
  }

  lemma {:induction false} BareTerm(s: Style, e: Expr, k: Tokens)
    requires GoodExpr(e) && Prec(e) >= 1 && NoPower(k)
    ensures ParseTerm(Bare(s, e, k)) == TermTail(e, k)
    decreases e, 2
  {
    if Prec(e) >= 2 {
      BarePower(s, e, k);
    } else {
      Term(s, e.lhs, Cons(OpTok(e.op), At(s, 2, e.rhs, k)));
      Power(s, e.rhs, k);
    }
  }

  lemma {:induction false} BareExpr(s: Style, e: Expr, k: Tokens)
    requires GoodExpr(e) && NoProduct(k)
    ensures ParseExpr(Bare(s, e, k)) == ExprTail(e, k)
    decreases e, 3
  {
    if Prec(e) >= 1 {
      BareTerm(s, e, k);
    } else {
      Sum(s, e.lhs, Cons(OpTok(e.op), At(s, 1, e.rhs, k)));
      Term(s, e.rhs, k);
    }
  }

  lemma {:induction false} Factor(s: Style, e: Expr, k: Tokens)
    requires GoodExpr(e)
    ensures ParseFactor(At(s, 3, e, k)) == Got(e, k)
    decreases e, 4
  {
    if Wrapped(s, 3, e) {
      BareExpr(s, e, Cons(RParen, k));
    } else {
      BareFactor(s, e, k);
    }
  }

  lemma {:induction false} Power(s: Style, e: Expr, k: Tokens)
    requires GoodExpr(e) && NoPower(k)
    ensures ParsePower(At(s, 2, e, k)) == Got(e, k)
    decreases e, 5
  {
    if Wrapped(s, 2, e) {
      Factor(s, e, k);
    } else {
      BarePower(s, e, k);
    }
  }

  lemma {:induction false} Term(s: Style, e: Expr, k: Tokens)
    requires GoodExpr(e) && NoPower(k)
    ensures ParseTerm(At(s, 1, e, k)) == TermTail(e, k)
    decreases e, 6
  {
    if Wrapped(s, 1, e) {
      Power(s, e, k);
    } else {
      BareTerm(s, e, k);
    }
  }

  lemma {:induction false} Sum(s: Style, e: Expr, k: Tokens)
    requires GoodExpr(e) && NoProduct(k)
    ensures ParseExpr(At(s, 0, e, k)) == ExprTail(e, k)
    decreases e, 7
  {
    if Wrapped(s, 0, e) {
      Term(s, e, k);
    } else {
      BareExpr(s, e, k);
    }
  }

  lemma {:induction false} ArgsParse(s: Style, es: List<Expr>, k: Tokens)
    requires GoodExprs(es)
    requires Starts(k, RParen) || Starts(k, RBracket)
    ensures ParseList(Args(s, es, k)) == Got(es, k)
    decreases es, 8
  {
    if es.Cons? {
      Sum(s, es.head, ArgsTail(s, es.tail, k));
      ArgsTailParse(s, es.tail, k);
    } else {
      assert ParseFactor(k) == NoParse;
      assert ParsePower(k) == NoParse;
      assert ParseTerm(k) == NoParse;
    }
  }

  lemma {:induction false} ArgsTailParse(s: Style, es: List<Expr>, k: Tokens)
    requires GoodExprs(es)
    requires Starts(k, RParen) || Starts(k, RBracket)
    ensures ListTail(ArgsTail(s, es, k)) == Got(es, k)
    decreases es, 8
  {
    if es.Cons? {
      Sum(s, es.head, ArgsTail(s, es.tail, k));
      ArgsTailParse(s, es.tail, k);
    }
  }

  /** An expression reads back whole wherever no operator follows it. */
  lemma {:induction false} ExprRoundTrip(s: Style, e: Expr, k: Tokens)
    requires GoodExpr(e) && NoOperator(k)
    ensures ParseExpr(At(s, 0, e, k)) == Got(e, k)
  {
    Sum(s, e, k);
  }

  // ---------------------------------------------------------------- precedence

  function OpLevel(op: ArithOp): nat {
    match op
    case Add => 0
    case Sub => 0
    case Pow => 2
    case _ => 1
  }

  /** The later operator takes the middle operand when it binds tighter, or when both are powers. */
  predicate GroupsRight(first: ArithOp, second: ArithOp) {
    OpLevel(second) > OpLevel(first) || (first == Pow && second == Pow)
  }

  function Regroup(first: ArithOp, second: ArithOp, a: Expr, b: Expr, c: Expr): Expr {
    if GroupsRight(first, second)
    then BinOp(first, a, BinOp(second, b, c))
    else BinOp(second, BinOp(first, a, b), c)
  }

  lemma {:induction false} LonePower(ts: Tokens, e: Expr, k: Tokens)
    requires ParseFactor(ts) == Got(e, k) && NoPower(k)
    ensures ParsePower(ts) == Got(e, k)
  {
    assert !Starts(k, OpTok(Pow));
  }

  lemma {:induction false} PowerStep(ts: Tokens, base: Expr, ts': Tokens, exponent: Expr, k: Tokens)
    requires ParseFactor(ts) == Got(base, Cons(OpTok(Pow), ts')) && ParsePower(ts') == Got(exponent, k)
    ensures ParsePower(ts) == Got(BinOp(Pow, base, exponent), k)
  {
    assert Starts(Cons(OpTok(Pow), ts'), OpTok(Pow));
  }

  lemma {:induction false} TermStep(acc: Expr, op: ArithOp, ts: Tokens, e: Expr, k: Tokens)
    requires GoodExpr(acc) && OpLevel(op) == 1 && ParsePower(ts) == Got(e, k)
    ensures GoodExpr(e) && TermTail(acc, Cons(OpTok(op), ts)) == TermTail(BinOp(op, acc, e), k)
  {
    assert Cons(OpTok(op), ts).head.op == op;
  }

  lemma {:induction false} ExprStep(acc: Expr, op: ArithOp, ts: Tokens, e: Expr, k: Tokens)
    requires GoodExpr(acc) && OpLevel(op) == 0 && ParseTerm(ts) == Got(e, k)
    ensures GoodExpr(e) && ExprTail(acc, Cons(OpTok(op), ts)) == ExprTail(BinOp(op, acc, e), k)
  {
    assert Cons(OpTok(op), ts).head.op == op;
  }

  /** A lone power is a term when no product follows, and what a term starts with otherwise. */
  lemma {:induction false} TermOf(ts: Tokens, e: Expr, k: Tokens)
    requires ParsePower(ts) == Got(e, k)
    ensures ParseTerm(ts) == TermTail(e, k)
    ensures NoProduct(k) ==> ParseTerm(ts) == Got(e, k)
  {
    assert ParseTerm(ts) == TermTail(e, k);
  }

  /** `b op c` in front of `k`, as a term, for an operator that is no sum. */
  lemma {:induction false} PairTerm(op: ArithOp, tb: Tokens, b: Expr, tc: Tokens, c: Expr, k: Tokens)
    requires OpLevel(op) >= 1 && NoPower(k)
    requires ParseFactor(tb) == Got(b, Cons(OpTok(op), tc)) && ParseFactor(tc) == Got(c, k)
    ensures GoodExpr(BinOp(op, b, c)) && ParseTerm(tb) == TermTail(BinOp(op, b, c), k)
    ensures NoProduct(k) ==> ParseTerm(tb) == Got(BinOp(op, b, c), k)
  {
    LonePower(tc, c, k);
    if op == Pow {
      PowerStep(tb, b, tc, c, k);
      TermOf(tb, BinOp(Pow, b, c), k);
    } else {
      LonePower(tb, b, Cons(OpTok(op), tc));
      TermOf(tb, b, Cons(OpTok(op), tc));
      TermStep(b, op, tc, c, k);
    }
  }

  lemma {:induction false} AfterSum(
      op1: ArithOp, op2: ArithOp, ta: Tokens, a: Expr, tb: Tokens, b: Expr, tc: Tokens, c: Expr, k: Tokens)
    requires NoOperator(k) && OpLevel(op1) == 0
    requires ParseFactor(ta) == Got(a, Cons(OpTok(op1), tb))
    requires ParseFactor(tb) == Got(b, Cons(OpTok(op2), tc))
    requires ParseFactor(tc) == Got(c, k)
    ensures ParseExpr(ta) == Got(Regroup(op1, op2, a, b, c), k)
  {
    LonePower(ta, a, Cons(OpTok(op1), tb));
    TermOf(ta, a, Cons(OpTok(op1), tb));
    if OpLevel(op2) == 0 {
      LonePower(tb, b, Cons(OpTok(op2), tc));
      TermOf(tb, b, Cons(OpTok(op2), tc));
      ExprStep(a, op1, tb, b, Cons(OpTok(op2), tc));
      LonePower(tc, c, k);
      TermOf(tc, c, k);
      ExprStep(BinOp(op1, a, b), op2, tc, c, k);
    } else {
      PairTerm(op2, tb, b, tc, c, k);
      ExprStep(a, op1, tb, BinOp(op2, b, c), k);
    }
  }

  lemma {:induction false} AfterProduct(
      op1: ArithOp, op2: ArithOp, ta: Tokens, a: Expr, tb: Tokens, b: Expr, tc: Tokens, c: Expr, k: Tokens)
    requires NoOperator(k) && OpLevel(op1) >= 1
    requires ParseFactor(ta) == Got(a, Cons(OpTok(op1), tb))
    requires ParseFactor(tb) == Got(b, Cons(OpTok(op2), tc))
    requires ParseFactor(tc) == Got(c, k)
    ensures ParseExpr(ta) == Got(Regroup(op1, op2, a, b, c), k)
  {
    LonePower(tc, c, k);
    TermOf(tc, c, k);
    if op2 == Pow {
      PowerStep(tb, b, tc, c, k);
      if op1 == Pow {
        PowerStep(ta, a, tb, BinOp(Pow, b, c), k);
        TermOf(ta, Regroup(op1, op2, a, b, c), k);
      } else {
        LonePower(ta, a, Cons(OpTok(op1), tb));
        TermOf(ta, a, Cons(OpTok(op1), tb));
        TermStep(a, op1, tb, BinOp(Pow, b, c), k);
      }
    } else {
      PairTerm(op1, ta, a, tb, b, Cons(OpTok(op2), tc));
      if OpLevel(op2) == 1 {
        TermStep(BinOp(op1, a, b), op2, tc, c, k);
      } else {
        ExprStep(BinOp(op1, a, b), op2, tc, c, k);
      }
    }
  }

  /** How any two operators share the operand between them, for any three factors. */
  lemma {:induction false} OperatorsGroup(
      op1: ArithOp, op2: ArithOp, ta: Tokens, a: Expr, tb: Tokens, b: Expr, tc: Tokens, c: Expr, k: Tokens)
    requires NoOperator(k)
    requires ParseFactor(ta) == Got(a, Cons(OpTok(op1), tb))
    requires ParseFactor(tb) == Got(b, Cons(OpTok(op2), tc))
    requires ParseFactor(tc) == Got(c, k)
    ensures ParseExpr(ta) == Got(Regroup(op1, op2, a, b, c), k)
  {
    if OpLevel(op1) == 0 {
      AfterSum(op1, op2, ta, a, tb, b, tc, c, k);
    } else {
      AfterProduct(op1, op2, ta, a, tb, b, tc, c, k);
    }
  }

  // ---------------------------------------------------------------- the backtrack

  predicate ExprHead(ts: Tokens) {
    ts.Cons? && !ts.head.Bang? && !ts.head.StrPredTok? && !ts.head.IsNullTok?
  }

  lemma {:induction false} StartsAsExpr(s: Style, level: nat, e: Expr, k: Tokens)
    ensures ExprHead(At(s, level, e, k)) && ExprHead(Bare(s, e, k))
    decreases e
  {
    if e.BinOp? {
      StartsAsExpr(s, LeftLevel(e.op), e.lhs, Cons(OpTok(e.op), At(s, RightLevel(e.op), e.rhs, k)));
    }
    if Wrapped(s, level, e) {
      assert At(s, level, e, k).head == LParen;
    }
  }

  /** What begins like an expression and is none followed by a comparison is not a filter. */
  lemma {:induction false} NoLeaf(ts: Tokens, e: Expr, k: Tokens)
    requires ExprHead(ts) && ParseGroup(ts) == NoParse
    requires ParseExpr(ts) == Got(e, Cons(RParen, k))
    ensures ParseOr(ts) == NoParse
  {
    assert DropBangs(ts) == ts;
    assert ParsePrimary(ts) == NoParse;
    assert ParseNot(ts) == NoParse;
    assert ParseAnd(ts) == NoParse;
  }

  /** A parenthesised expression is not a filter in parentheses, however deeply it is wrapped. */
  lemma {:induction false} GroupFails(s: Style, level: nat, e: Expr, k: Tokens)
    requires GoodExpr(e)
    ensures ParseGroup(At(s, level, e, k)) == NoParse
    decreases e, 1
  {
    if Wrapped(s, level, e) {
      var inner := Bare(s, e, Cons(RParen, k));
      StartsAsExpr(s, level, e, Cons(RParen, k));
      BareGroupFails(s, e, Cons(RParen, k));
      BareExpr(s, e, Cons(RParen, k));
      NoLeaf(inner, e, k);
    } else {
      BareGroupFails(s, e, k);
    }
  }

  lemma {:induction false} BareGroupFails(s: Style, e: Expr, k: Tokens)
    requires GoodExpr(e)
    ensures ParseGroup(Bare(s, e, k)) == NoParse
    decreases e, 0
  {
    if e.BinOp? {
      GroupFails(s, LeftLevel(e.op), e.lhs, Cons(OpTok(e.op), At(s, RightLevel(e.op), e.rhs, k)));
    }
  }

  // ---------------------------------------------------------------- filters parse back

  lemma {:induction false} ComparisonParses(s: Style, op: CmpOp, lhs: Expr, rhs: Expr, k: Tokens)
    requires GoodExpr(lhs) && GoodExpr(rhs) && NoOperator(k)
    ensures ParsePrimary(BareFilter(s, Compare(op, lhs, rhs), k)) == Got(Compare(op, lhs, rhs), k)
  {
    var after := Cons(CmpTok(op), At(s, 0, rhs, k));
    GroupFails(s, 0, lhs, after);
    StartsAsExpr(s, 0, lhs, after);
    ExprRoundTrip(s, lhs, after);
    ExprRoundTrip(s, rhs, k);
  }

  /** A null test whose argument parses is taken whole. */
  lemma {:induction false} IsNullTakes(e: Expr, inner: Tokens, k: Tokens)
    requires ParseExpr(inner) == Got(e, Cons(RParen, k))
    ensures ParsePrimary(Cons(IsNullTok, Cons(LParen, inner))) == Got(IsNull(e), k)
  {
    var ts := Cons(IsNullTok, Cons(LParen, inner));
    assert ParseGroup(ts) == NoParse && ParseStrPred(ts) == NoParse;
    assert ParseIsNull(ts) == Got(IsNull(e), k);
  }

  lemma {:induction false} IsNullParses(s: Style, e: Expr, k: Tokens)
    requires GoodExpr(e)
    ensures ParsePrimary(BareFilter(s, IsNull(e), k)) == Got(IsNull(e), k)
  {
    ExprRoundTrip(s, e, Cons(RParen, k));
    IsNullTakes(e, At(s, 0, e, Cons(RParen, k)), k);
  }

  /** A predicate whose two arguments parse is taken whole. */
  lemma {:induction false} StrPredTakes(op: StrOp, subject: Expr, arg: Expr, first: Tokens, second: Tokens, k: Tokens)
    requires ParseExpr(first) == Got(subject, Cons(Comma, second))
    requires ParseExpr(second) == Got(arg, Cons(RParen, k))
    ensures ParsePrimary(Cons(StrPredTok(op), Cons(LParen, first))) == Got(StrPred(op, subject, arg), k)
  {
    var ts := Cons(StrPredTok(op), Cons(LParen, first));
    assert ParseGroup(ts) == NoParse;
    assert ParseStrPred(ts) == Got(StrPred(op, subject, arg), k);
  }

  lemma {:induction false} ArgumentsParse(
      s: Style, subject: Expr, arg: Expr, first: Tokens, second: Tokens, k: Tokens)
    requires GoodExpr(subject) && GoodExpr(arg)
    requires second == At(s, 0, arg, Cons(RParen, k)) && first == At(s, 0, subject, Cons(Comma, second))
    ensures ParseExpr(first) == Got(subject, Cons(Comma, second))
    ensures ParseExpr(second) == Got(arg, Cons(RParen, k))
  {
    ExprRoundTrip(s, subject, Cons(Comma, second));
    ExprRoundTrip(s, arg, Cons(RParen, k));
  }

  lemma {:induction false} StrPredParses(s: Style, op: StrOp, subject: Expr, arg: Expr, k: Tokens)
    requires GoodExpr(subject) && GoodExpr(arg)
    ensures ParsePrimary(BareFilter(s, StrPred(op, subject, arg), k)) == Got(StrPred(op, subject, arg), k)
  {
    var second := At(s, 0, arg, Cons(RParen, k));
    var first := At(s, 0, subject, Cons(Comma, second));
    assert BareFilter(s, StrPred(op, subject, arg), k) == Cons(StrPredTok(op), Cons(LParen, first));
    ArgumentsParse(s, subject, arg, first, second, k);
    StrPredTakes(op, subject, arg, first, second, k);
  }

  lemma {:induction false} BarePrimary(s: Style, f: Filter, k: Tokens)
    requires GoodFilter(f) && FilterPrec(f) == 3 && NoOperator(k)
    ensures ParsePrimary(BareFilter(s, f, k)) == Got(f, k)
    ensures !Starts(BareFilter(s, f, k), Bang)
  {
    match f
    case Compare(op, lhs, rhs) =>
      ComparisonParses(s, op, lhs, rhs, k);
      StartsAsExpr(s, 0, lhs, Cons(CmpTok(op), At(s, 0, rhs, k)));
    case IsNull(e) => IsNullParses(s, e, k);
    case StrPred(op, subject, arg) => StrPredParses(s, op, subject, arg, k);
  }

  lemma {:induction false} BangsFlip(ts: Tokens, f: Filter, k: Tokens)
    requires !Starts(ts, Bang) && ParsePrimary(ts) == Got(f, k)
    ensures ParseNot(ts) == Got(f, k)
    ensures ParseNot(Cons(Bang, ts)) == Got(Not(f), k)
  {
    assert CountBangs(ts) == 0 && DropBangs(ts) == ts;
    assert CountBangs(Cons(Bang, ts)) == 1 && DropBangs(Cons(Bang, ts)) == ts;
  }

  lemma {:induction false} BareNot(s: Style, f: Filter, k: Tokens)
    requires GoodFilter(f) && FilterPrec(f) >= 2 && NoOperator(k)
    ensures ParseNot(BareFilter(s, f, k)) == Got(f, k)
    decreases f, 1
  {
    if f.Not? {
      Primary(s, f.negated, k);
      BangsFlip(FilterAt(s, 3, f.negated, k), f.negated, k);
    } else {
      BarePrimary(s, f, k);
      BangsFlip(BareFilter(s, f, k), f, k);
    }
  }

  lemma {:induction false} BareAnd(s: Style, f: Filter, k: Tokens)
    requires GoodFilter(f) && FilterPrec(f) >= 1 && NoOperator(k) && !Starts(k, AndTok)
    ensures ParseAnd(BareFilter(s, f, k)) == Got(f, k)
    decreases f, 2
  {
    if f.All? {
      var first, rest := f.branches.head, f.branches.tail;
      Negation(s, first, Branches(s, 2, AndTok, rest, k));
      AndBranches(s, rest, k);
    } else {
      BareNot(s, f, k);
    }
  }

  lemma {:induction false} BareOr(s: Style, f: Filter, k: Tokens)
    requires GoodFilter(f) && NoOperator(k) && !Starts(k, AndTok) && !Starts(k, OrTok)
    ensures ParseOr(BareFilter(s, f, k)) == Got(f, k)
    decreases f, 3
  {
    if f.Any? {
      var first, rest := f.branches.head, f.branches.tail;
      Conjunction(s, first, Branches(s, 1, OrTok, rest, k));
      OrBranches(s, rest, k);
    } else {
      BareAnd(s, f, k);
    }
  }

  lemma {:induction false} GroupParses(ts: Tokens, f: Filter, k: Tokens)
    requires ParseOr(ts) == Got(f, Cons(RParen, k))
    ensures ParsePrimary(Cons(LParen, ts)) == Got(f, k)
  {
    assert ParseGroup(Cons(LParen, ts)) == Got(f, k);
  }

  lemma {:induction false} Primary(s: Style, f: Filter, k: Tokens)
    requires GoodFilter(f) && NoOperator(k)
    ensures ParsePrimary(FilterAt(s, 3, f, k)) == Got(f, k)
    ensures !Starts(FilterAt(s, 3, f, k), Bang)
    decreases f, 4
  {
    if WrappedFilter(s, 3, f) {
      BareOr(s, f, Cons(RParen, k));
      GroupParses(BareFilter(s, f, Cons(RParen, k)), f, k);
    } else {
      BarePrimary(s, f, k);
    }
  }

  lemma {:induction false} Negation(s: Style, f: Filter, k: Tokens)
    requires GoodFilter(f) && NoOperator(k)
    ensures ParseNot(FilterAt(s, 2, f, k)) == Got(f, k)
    decreases f, 5
  {
    if WrappedFilter(s, 2, f) {
      Primary(s, f, k);
      BangsFlip(FilterAt(s, 2, f, k), f, k);
    } else {
      BareNot(s, f, k);
    }
  }

  lemma {:induction false} Conjunction(s: Style, f: Filter, k: Tokens)
    requires GoodFilter(f) && NoOperator(k) && !Starts(k, AndTok)
    ensures ParseAnd(FilterAt(s, 1, f, k)) == Got(f, k)
    decreases f, 6
  {
    if WrappedFilter(s, 1, f) {
      Negation(s, f, k);
    } else {
      BareAnd(s, f, k);
    }
  }

  lemma {:induction false} Disjunction(s: Style, f: Filter, k: Tokens)
    requires GoodFilter(f) && NoOperator(k) && !Starts(k, AndTok) && !Starts(k, OrTok)
    ensures ParseOr(FilterAt(s, 0, f, k)) == Got(f, k)
    decreases f, 7
  {
    if WrappedFilter(s, 0, f) {
      Conjunction(s, f, k);
    } else {
      BareOr(s, f, k);
    }
  }

  lemma {:induction false} AndBranches(s: Style, fs: List<Filter>, k: Tokens)
    requires GoodFilters(fs) && NoOperator(k) && !Starts(k, AndTok)
    ensures AndTail(Branches(s, 2, AndTok, fs, k)) == Got(fs, k)
    ensures NoOperator(Branches(s, 2, AndTok, fs, k))
    decreases fs, 8
  {
    if fs.Cons? {
      AndBranches(s, fs.tail, k);
      Negation(s, fs.head, Branches(s, 2, AndTok, fs.tail, k));
    }
  }

  lemma {:induction false} OrBranches(s: Style, fs: List<Filter>, k: Tokens)
    requires GoodFilters(fs) && NoOperator(k) && !Starts(k, AndTok) && !Starts(k, OrTok)
    ensures OrTail(Branches(s, 1, OrTok, fs, k)) == Got(fs, k)
    ensures NoOperator(Branches(s, 1, OrTok, fs, k)) && !Starts(Branches(s, 1, OrTok, fs, k), AndTok)
    decreases fs, 8
  {
    if fs.Cons? {
      OrBranches(s, fs.tail, k);
      Conjunction(s, fs.head, Branches(s, 1, OrTok, fs.tail, k));
    }
  }

  // ---------------------------------------------------------------- theorems

  /** Every tree with the right arities parses back from every way of printing it. */
  lemma {:induction false} PrintedFilterParsesBack(s: Style, f: Filter)
    requires GoodFilter(f)
    ensures ParseFilter(Print(s, f)) == Some(f)
  {
    Disjunction(s, f, Nil);
  }

  /** So these trees are exactly the ones the parser can yield. */
  lemma {:induction false} ParserYieldsExactly(f: Filter)
    ensures GoodFilter(f) <==> exists ts :: ParseFilter(ts) == Some(f)
  {
    if GoodFilter(f) {
      var s := Style(e => false, g => false);
      PrintedFilterParsesBack(s, f);
    }
  }

  /** Normalising a text through its tree changes nothing but the parentheses. */
  lemma {:induction false} NormalisingKeepsTheTree(s: Style, ts: Tokens)
    requires ParseFilter(ts).Some?
    ensures ParseFilter(Print(s, ParseFilter(ts).value)) == ParseFilter(ts)
  {
    PrintedFilterParsesBack(s, ParseFilter(ts).value);
  }

  /** No two trees print alike, even in different styles. */
  lemma {:induction false} PrintingIsUnambiguous(s: Style, s': Style, f: Filter, f': Filter)
    requires GoodFilter(f) && GoodFilter(f') && Print(s, f) == Print(s', f')
    ensures f == f'
  {
    PrintedFilterParsesBack(s, f);
    PrintedFilterParsesBack(s', f');
  }

  function MembershipText(s: Style, subject: Expr, items: List<Expr>, k: Tokens): Tokens {
    At(s, 0, subject, Cons(InTok, Cons(LBracket, Args(s, items, Cons(RBracket, k)))))
  }

  /** A membership test whose subject and items parse is taken whole, or refused if there are none. */
  lemma {:induction false} MembershipTakes(ts: Tokens, subject: Expr, items: List<Expr>, listed: Tokens, k: Tokens)
    requires ExprHead(ts) && ParseGroup(ts) == NoParse
    requires ParseExpr(ts) == Got(subject, Cons(InTok, Cons(LBracket, listed)))
    requires ParseList(listed) == Got(items, Cons(RBracket, k))
    ensures ParsePrimary(ts) == if items.Nil? then NoParse else Got(Membership(subject, items), k)
  {
    assert ParseStrPred(ts) == NoParse && ParseIsNull(ts) == NoParse && ParseComparison(ts) == NoParse;
    assert ParseMembership(ts) == if items.Nil? then NoParse else Got(Membership(subject, items), k);
  }

  lemma {:induction false} MembershipParses(s: Style, subject: Expr, items: List<Expr>, k: Tokens)
    requires GoodExpr(subject) && GoodExprs(items)
    ensures ParsePrimary(MembershipText(s, subject, items, k)) ==
            if items.Nil? then NoParse else Got(Membership(subject, items), k)
    ensures !Starts(MembershipText(s, subject, items, k), Bang)
  {
    var listed := Args(s, items, Cons(RBracket, k));
    var after := Cons(InTok, Cons(LBracket, listed));
    GroupFails(s, 0, subject, after);
    StartsAsExpr(s, 0, subject, after);
    ExprRoundTrip(s, subject, after);
    ArgsParse(s, items, Cons(RBracket, k));
    MembershipTakes(At(s, 0, subject, after), subject, items, listed, k);
  }

  lemma {:induction false} LoneLeafParses(ts: Tokens, f: Filter)
    requires !Starts(ts, Bang) && ParsePrimary(ts) == Got(f, Nil)
    ensures ParseFilter(ts) == Some(f)
  {
    BangsFlip(ts, f, Nil);
    assert ParseAnd(ts) == Got(f, Nil) by {
      assert AndTail(Nil) == Got(Nil, Nil);
    }
    assert OrTail(Nil) == Got(Nil, Nil);
  }

  lemma {:induction false} NoLeafNoFilter(ts: Tokens)
    requires !Starts(ts, Bang) && ParsePrimary(ts) == NoParse
    ensures ParseFilter(ts) == None
  {
    assert DropBangs(ts) == ts;
    assert ParseAnd(ts) == NoParse;
  }

  /**
   Membership reads as the disjunction of equalities that the author could have written,
   and an empty set is refused.
   */
  lemma {:induction false} MembershipIsItsExpansion(s: Style, subject: Expr, items: List<Expr>)
    requires GoodExpr(subject) && GoodExprs(items)
    ensures ParseFilter(MembershipText(s, subject, items, Nil)) ==
            if items.Nil? then None else ParseFilter(Print(s, Membership(subject, items)))
  {
    MembershipParses(s, subject, items, Nil);
    var ts := MembershipText(s, subject, items, Nil);
    if items.Nil? {
      NoLeafNoFilter(ts);
    } else {
      LoneLeafParses(ts, Membership(subject, items));
      PrintedFilterParsesBack(s, Membership(subject, items));
    }
  }
}
