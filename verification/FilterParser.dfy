/**
 Filter expressions: the trees, the tokens, and the recursive-descent parser with its
 backtracking, at the level of tokens.
 */
module FilterParser {
  import opened Wrappers

  datatype List<T> = Nil | Cons(head: T, tail: List<T>)

  function Length<T>(list: List<T>): nat {
    match list
    case Nil => 0
    case Cons(_, tail) => 1 + Length(tail)
  }

  datatype ArithOp = Add | Sub | Mul | Div | Rem | Pow

  datatype CmpOp = Eq | Ne | Lt | Le | Gt | Ge

  datatype StrOp = StrStartsWith | StrEndsWith | StrContains

  datatype Func =
    | Abs | Floor | Ceil | Round | Len | Lower | Upper | Concat | Now | Date | Weeks | Days | Hours | Minutes

  datatype Expr =
    | Var(name: string)
    | LitNum(value: real)
    | LitStr(text: string)
    | Null
    | BinOp(op: ArithOp, lhs: Expr, rhs: Expr)
    | Neg(inner: Expr)
    | Call(func: Func, args: List<Expr>)

  datatype Filter =
    | Compare(op: CmpOp, lhs: Expr, rhs: Expr)
    | IsNull(subject: Expr)
    | StrPred(strOp: StrOp, subject: Expr, arg: Expr)
    | Any(branches: List<Filter>)
    | All(branches: List<Filter>)
    | Not(negated: Filter)

  datatype Token =
    | NumTok(value: real)
    | StrTok(text: string)
    | NullTok
    | NameTok(name: string)
    | FuncTok(func: Func)
    | OpTok(op: ArithOp)
    | CmpTok(cmp: CmpOp)
    | LParen | RParen | LBracket | RBracket | Comma
    | AndTok | OrTok | Bang | InTok | StrPredTok(strOp: StrOp) | IsNullTok

  type Tokens = List<Token>

  datatype Parsed<T> = NoParse | Got(value: T, rest: Tokens)

  function Arity(func: Func): nat {
    match func
    case Concat => 2
    case Now => 0
    case _ => 1
  }

  /** The name of a function read as a variable, which is what it is without a call. */
  function Keyword(func: Func): string {
    match func
    case Abs => "abs"
    case Floor => "floor"
    case Ceil => "ceil"
    case Round => "round"
    case Len => "len"
    case Lower => "lower"
    case Upper => "upper"
    case Concat => "concat"
    case Now => "now"
    case Date => "date"
    case Weeks => "weeks"
    case Days => "days"
    case Hours => "hours"
    case Minutes => "minutes"
  }

  function StrKeyword(strOp: StrOp): string {
    match strOp
    case StrStartsWith => "str_starts_with"
    case StrEndsWith => "str_ends_with"
    case StrContains => "str_contains"
  }

  // ---------------------------------------------------------------- the trees the parser yields

  /** Every call has the number of arguments its function takes. */
  predicate GoodExpr(e: Expr)
    decreases e
  {
    match e
    case BinOp(_, lhs, rhs) => GoodExpr(lhs) && GoodExpr(rhs)
    case Neg(inner) => GoodExpr(inner)
    case Call(func, args) => Length(args) == Arity(func) && GoodExprs(args)
    case _ => true
  }

  predicate GoodExprs(es: List<Expr>)
    decreases es
  {
    match es
    case Nil => true
    case Cons(e, rest) => GoodExpr(e) && GoodExprs(rest)
  }

  /** A connective has at least two branches. */
  predicate GoodFilter(f: Filter)
    decreases f
  {
    match f
    case Compare(_, lhs, rhs) => GoodExpr(lhs) && GoodExpr(rhs)
    case IsNull(subject) => GoodExpr(subject)
    case StrPred(_, subject, arg) => GoodExpr(subject) && GoodExpr(arg)
    case Any(branches) => Length(branches) >= 2 && GoodFilters(branches)
    case All(branches) => Length(branches) >= 2 && GoodFilters(branches)
    case Not(negated) => GoodFilter(negated)
  }

  predicate GoodFilters(fs: List<Filter>)
    decreases fs
  {
    match fs
    case Nil => true
    case Cons(f, rest) => GoodFilter(f) && GoodFilters(rest)
  }

  // ---------------------------------------------------------------- expressions

  predicate Starts(ts: Tokens, t: Token) {
    ts.Cons? && ts.head == t
  }

  function ParseExpr(ts: Tokens): (r: Parsed<Expr>)
    ensures r.Got? ==> Length(r.rest) < Length(ts) && GoodExpr(r.value)
    decreases Length(ts), 4
  {
    match ParseTerm(ts)
    case NoParse => NoParse
    case Got(first, rest) => ExprTail(first, rest)
  }

  /** Sums and differences, folded to the left. */
  function ExprTail(acc: Expr, ts: Tokens): (r: Parsed<Expr>)
    requires GoodExpr(acc)
    ensures r.Got? && Length(r.rest) <= Length(ts) && GoodExpr(r.value)
    decreases Length(ts), 3
  {
    if ts.Cons? && ts.head.OpTok? && (ts.head.op == Add || ts.head.op == Sub) then
      match ParseTerm(ts.tail)
      case NoParse => Got(acc, ts)
      case Got(rhs, rest) => ExprTail(BinOp(ts.head.op, acc, rhs), rest)
    else Got(acc, ts)
  }

  function ParseTerm(ts: Tokens): (r: Parsed<Expr>)
    ensures r.Got? ==> Length(r.rest) < Length(ts) && GoodExpr(r.value)
    decreases Length(ts), 2
  {
    match ParsePower(ts)
    case NoParse => NoParse
    case Got(first, rest) => TermTail(first, rest)
  }

  /** Products, quotients and remainders, folded to the left. */
  function TermTail(acc: Expr, ts: Tokens): (r: Parsed<Expr>)
    requires GoodExpr(acc)
    ensures r.Got? && Length(r.rest) <= Length(ts) && GoodExpr(r.value)
    decreases Length(ts), 1
  {
    if ts.Cons? && ts.head.OpTok? && (ts.head.op == Mul || ts.head.op == Div || ts.head.op == Rem) then
      match ParsePower(ts.tail)
      case NoParse => Got(acc, ts)
      case Got(rhs, rest) => TermTail(BinOp(ts.head.op, acc, rhs), rest)
    else Got(acc, ts)
  }

  /** A power takes a whole power as its exponent, and gives back what it cannot use. */
  function ParsePower(ts: Tokens): (r: Parsed<Expr>)
    ensures r.Got? ==> Length(r.rest) < Length(ts) && GoodExpr(r.value)
    decreases Length(ts), 1
  {
    match ParseFactor(ts)
    case NoParse => NoParse
    case Got(base, rest) =>
      if Starts(rest, OpTok(Pow)) then
        match ParsePower(rest.tail)
        case NoParse => Got(base, rest)
        case Got(exponent, after) => Got(BinOp(Pow, base, exponent), after)
      else Got(base, rest)
  }

  /** A name is a call when a whole call follows, and a variable otherwise. */
  function ParseFactor(ts: Tokens): (r: Parsed<Expr>)
    ensures r.Got? ==> Length(r.rest) < Length(ts) && GoodExpr(r.value)
    decreases Length(ts), 0
  {
    match ts
    case Nil => NoParse
    case Cons(LParen, rest) =>
      (match ParseExpr(rest)
       case NoParse => NoParse
       case Got(e, after) => if Starts(after, RParen) then Got(e, after.tail) else NoParse)
    case Cons(NumTok(v), rest) => Got(LitNum(v), rest)
    case Cons(StrTok(s), rest) => Got(LitStr(s), rest)
    case Cons(NullTok, rest) => Got(Null, rest)
    case Cons(FuncTok(func), rest) =>
      if Starts(rest, LParen) then
        assert Length(rest.tail) < Length(rest) < Length(ts);
        var Got(args, after) := ParseList(rest.tail);
        if Starts(after, RParen) && Length(args) == Arity(func) then Got(Call(func, args), after.tail)
        else Got(Var(Keyword(func)), rest)
      else Got(Var(Keyword(func)), rest)
    case Cons(NameTok(name), rest) => Got(Var(name), rest)
    case Cons(InTok, rest) => Got(Var("in"), rest)
    case Cons(IsNullTok, rest) => Got(Var("is_null"), rest)
    case Cons(StrPredTok(strOp), rest) => Got(Var(StrKeyword(strOp)), rest)
    case Cons(OpTok(Sub), rest) =>
      (match ParseFactor(rest)
       case NoParse => NoParse
       case Got(e, after) => Got(Neg(e), after))
    case _ => NoParse
  }

  /** A possibly empty list of expressions. */
  function ParseList(ts: Tokens): (r: Parsed<List<Expr>>)
    ensures r.Got? && Length(r.rest) <= Length(ts) && GoodExprs(r.value)
    decreases Length(ts), 5
  {
    match ParseExpr(ts)
    case NoParse => Got(Nil, ts)
    case Got(e, rest) => var Got(more, after) := ListTail(rest); Got(Cons(e, more), after)
  }

  /** A comma counts only when an expression follows it. */
  function ListTail(ts: Tokens): (r: Parsed<List<Expr>>)
    ensures r.Got? && Length(r.rest) <= Length(ts) && GoodExprs(r.value)
    decreases Length(ts), 5
  {
    if Starts(ts, Comma) then
      match ParseExpr(ts.tail)
      case NoParse => Got(Nil, ts)
      case Got(e, rest) => var Got(more, after) := ListTail(rest); Got(Cons(e, more), after)
    else Got(Nil, ts)
  }

  // ---------------------------------------------------------------- filters

  function ParseStrPred(ts: Tokens): (r: Parsed<Filter>)
    ensures r.Got? ==> Length(r.rest) < Length(ts) && GoodFilter(r.value)
  {
    if !(ts.Cons? && ts.head.StrPredTok? && Starts(ts.tail, LParen)) then NoParse
    else
      match ParseExpr(ts.tail.tail)
      case NoParse => NoParse
      case Got(subject, rest) =>
        if !Starts(rest, Comma) then NoParse
        else
          match ParseExpr(rest.tail)
          case NoParse => NoParse
          case Got(arg, after) =>
            if Starts(after, RParen) then Got(StrPred(ts.head.strOp, subject, arg), after.tail) else NoParse
  }

  function ParseIsNull(ts: Tokens): (r: Parsed<Filter>)
    ensures r.Got? ==> Length(r.rest) < Length(ts) && GoodFilter(r.value)
  {
    if !(Starts(ts, IsNullTok) && Starts(ts.tail, LParen)) then NoParse
    else
      match ParseExpr(ts.tail.tail)
      case NoParse => NoParse
      case Got(e, after) => if Starts(after, RParen) then Got(IsNull(e), after.tail) else NoParse
  }

  function Equalities(subject: Expr, items: List<Expr>): (r: List<Filter>)
    ensures Length(r) == Length(items)
    ensures GoodExpr(subject) && GoodExprs(items) ==> GoodFilters(r)
  {
    match items
    case Nil => Nil
    case Cons(item, rest) => Cons(Compare(Eq, subject, item), Equalities(subject, rest))
  }

  /** Set membership is the disjunction of equalities, or the one equality itself. */
  function Membership(subject: Expr, items: List<Expr>): (r: Filter)
    requires items.Cons?
    ensures GoodExpr(subject) && GoodExprs(items) ==> GoodFilter(r)
  {
    if items.tail.Nil? then Compare(Eq, subject, items.head) else Any(Equalities(subject, items))
  }

  function ParseMembership(ts: Tokens): (r: Parsed<Filter>)
    ensures r.Got? ==> Length(r.rest) < Length(ts) && GoodFilter(r.value)
  {
    match ParseExpr(ts)
    case NoParse => NoParse
    case Got(subject, rest) =>
      if !(Starts(rest, InTok) && Starts(rest.tail, LBracket)) then NoParse
      else
        var Got(items, after) := ParseList(rest.tail.tail);
        assert Length(rest.tail.tail) < Length(rest) < Length(ts);
        if items.Cons? && Starts(after, RBracket) then Got(Membership(subject, items), after.tail) else NoParse
  }

  function ParseComparison(ts: Tokens): (r: Parsed<Filter>)
    ensures r.Got? ==> Length(r.rest) < Length(ts) && GoodFilter(r.value)
  {
    match ParseExpr(ts)
    case NoParse => NoParse
    case Got(lhs, rest) =>
      if !(rest.Cons? && rest.head.CmpTok?) then NoParse
      else
        match ParseExpr(rest.tail)
        case NoParse => NoParse
        case Got(rhs, after) => Got(Compare(rest.head.cmp, lhs, rhs), after)
  }

  /** A filter in parentheses: tried first, and abandoned when the group is an expression. */
  function ParseGroup(ts: Tokens): (r: Parsed<Filter>)
    ensures r.Got? ==> Length(r.rest) < Length(ts) && GoodFilter(r.value)
    decreases Length(ts), 0
  {
    if !Starts(ts, LParen) then NoParse
    else
      match ParseOr(ts.tail)
      case NoParse => NoParse
      case Got(f, after) => if Starts(after, RParen) then Got(f, after.tail) else NoParse
  }

  function OrElse(first: Parsed<Filter>, second: Parsed<Filter>): Parsed<Filter> {
    if first.Got? then first else second
  }

  function ParsePrimary(ts: Tokens): (r: Parsed<Filter>)
    ensures r.Got? ==> Length(r.rest) < Length(ts) && GoodFilter(r.value)
    decreases Length(ts), 1
  {
    OrElse(ParseGroup(ts),
    OrElse(ParseStrPred(ts),
    OrElse(ParseIsNull(ts),
    OrElse(ParseMembership(ts),
           ParseComparison(ts)))))
  }

  function CountBangs(ts: Tokens): nat {
    if Starts(ts, Bang) then 1 + CountBangs(ts.tail) else 0
  }

  function DropBangs(ts: Tokens): (r: Tokens)
    ensures Length(r) <= Length(ts)
  {
    if Starts(ts, Bang) then DropBangs(ts.tail) else ts
  }

  /** Only the parity of a run of bangs matters. */
  function ParseNot(ts: Tokens): (r: Parsed<Filter>)
    ensures r.Got? ==> Length(r.rest) < Length(ts) && GoodFilter(r.value)
    decreases Length(ts), 2
  {
    match ParsePrimary(DropBangs(ts))
    case NoParse => NoParse
    case Got(f, rest) => Got(if CountBangs(ts) % 2 == 1 then Not(f) else f, rest)
  }

  function ParseAnd(ts: Tokens): (r: Parsed<Filter>)
    ensures r.Got? ==> Length(r.rest) < Length(ts) && GoodFilter(r.value)
    decreases Length(ts), 3
  {
    match ParseNot(ts)
    case NoParse => NoParse
    case Got(first, rest) =>
      var Got(more, after) := AndTail(rest);
      Got(if more.Nil? then first else All(Cons(first, more)), after)
  }

  function AndTail(ts: Tokens): (r: Parsed<List<Filter>>)
    ensures r.Got? && Length(r.rest) <= Length(ts) && GoodFilters(r.value)
    decreases Length(ts), 3
  {
    if Starts(ts, AndTok) then
      match ParseNot(ts.tail)
      case NoParse => Got(Nil, ts)
      case Got(f, rest) => var Got(more, after) := AndTail(rest); Got(Cons(f, more), after)
    else Got(Nil, ts)
  }

  function ParseOr(ts: Tokens): (r: Parsed<Filter>)
    ensures r.Got? ==> Length(r.rest) < Length(ts) && GoodFilter(r.value)
    decreases Length(ts), 4
  {
    match ParseAnd(ts)
    case NoParse => NoParse
    case Got(first, rest) =>
      var Got(more, after) := OrTail(rest);
      Got(if more.Nil? then first else Any(Cons(first, more)), after)
  }

  function OrTail(ts: Tokens): (r: Parsed<List<Filter>>)
    ensures r.Got? && Length(r.rest) <= Length(ts) && GoodFilters(r.value)
    decreases Length(ts), 4
  {
    if Starts(ts, OrTok) then
      match ParseAnd(ts.tail)
      case NoParse => Got(Nil, ts)
      case Got(f, rest) => var Got(more, after) := OrTail(rest); Got(Cons(f, more), after)
    else Got(Nil, ts)
  }

  /** A filter is accepted only when it uses up its input. */
  function ParseFilter(ts: Tokens): (r: Option<Filter>)
    ensures r.Some? ==> GoodFilter(r.value)
  {
    match ParseOr(ts)
    case NoParse => None
    case Got(f, rest) => if rest.Nil? then Some(f) else None
  }
}
