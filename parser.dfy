/**
 * The recursive-descent parser: one expression from a token sequence,
 * through the precedence ladder equality, comparison, term, factor, unary,
 * primary.
 *
 * The pure functions below specify each parsing routine on (tokens,
 * cursor, previous-token line). The class Parser runs the same routines
 * over a cursor and a mutable prevTokenLine field, and each of its methods
 * is proved to return what the matching function says and to leave the
 * cursor and the field where it says.
 */
module Parsing {
  import opened Wrappers
  import opened Tokens
  import opened Syntax

  /** The four parse errors. */
  datatype ParserError =
    | UnterminatedParentheses(reported: nat, open: nat)
    | NonPrimaryToken(token: Token)
    | EmptyPrimary(line: nat)
    | EmptyExpression(line: nat)
  {
    /** The line an error is reported at. */
    function Line(): nat
    {
      match this
      case UnterminatedParentheses(reported, _) => reported
      case NonPrimaryToken(token) => token.line
      case EmptyPrimary(line) => line
      case EmptyExpression(line) => line
    }
  }

  /** The binary levels, from the loosest binding to the tightest. */
  const EqualityLevel: nat := 0
  const ComparisonLevel: nat := 1
  const TermLevel: nat := 2
  const FactorLevel: nat := 3

  /** The operator kinds each binary level folds. */
  function LevelOperators(level: nat): set<TokenType>
    requires level <= FactorLevel
  {
    if level == EqualityLevel then {BangEqual, EqualEqual}
    else if level == ComparisonLevel then {TokenType.Greater, TokenType.GreaterEqual, TokenType.Less, TokenType.LessEqual}
    else if level == TermLevel then {TokenType.Minus, TokenType.Plus}
    else {TokenType.Slash, TokenType.Star}
  }

  /** The prefix operator kinds. */
  function UnaryOperators(): set<TokenType>
  {
    {TokenType.Bang, TokenType.Minus}
  }

  /** The value a literal token stands for, if it is one. */
  function LiteralOf(kind: TokenType): Option<LiteralValue>
  {
    match kind
    case False => Some(Bool(false))
    case True => Some(Bool(true))
    case Nil => Some(LiteralValue.Nil)
    case Number(n) => Some(Num(n))
    case LoxString(s) => Some(Str(s))
    case _ => None
  }

  // ---------------------------------------------------------------------
  // The parsing routines as functions of (tokens, cursor, previous line)

  /** What a parsing routine yields, and the cursor and previous-token line it leaves. */
  datatype Parsed = Parsed(result: Result<Expr, ParserError>, pos: nat, prev: nat)

  /** expression: the loosest level. */
  function ExpressionAt(toks: seq<Token>, pos: nat, prev: nat): (r: Parsed)
    requires pos <= |toks|
    ensures pos <= r.pos <= |toks|
    ensures r.result.Ok? ==> pos < r.pos
    decreases |toks| - pos, 11
  {
    BinaryAt(toks, EqualityLevel, pos, prev)
  }

  /** The operand of a binary level: the next level up, or unary above factor. */
  function OperandAt(toks: seq<Token>, level: nat, pos: nat, prev: nat): (r: Parsed)
    requires level <= FactorLevel && pos <= |toks|
    ensures pos <= r.pos <= |toks|
    ensures r.result.Ok? ==> pos < r.pos
    decreases |toks| - pos, 3 + 2 * (FactorLevel - level)
  {
    if level == FactorLevel then UnaryAt(toks, pos, prev) else BinaryAt(toks, level + 1, pos, prev)
  }

  /** binary_expr_generator at `level`: one operand, then the folding loop. */
  function BinaryAt(toks: seq<Token>, level: nat, pos: nat, prev: nat): (r: Parsed)
    requires level <= FactorLevel && pos <= |toks|
    ensures pos <= r.pos <= |toks|
    ensures r.result.Ok? ==> pos < r.pos
    decreases |toks| - pos, 4 + 2 * (FactorLevel - level)
  {
    var first := OperandAt(toks, level, pos, prev);
    match first.result
    case Err(_) => first
    case Ok(left) => FoldAt(toks, level, left, first.pos, first.prev)
  }

  /**
   * The loop of binary_expr_generator with `left` folded so far: while the
   * next token is an operator of the level, consume it and one more operand
   * and fold them in on the right.
   */
  function FoldAt(toks: seq<Token>, level: nat, left: Expr, pos: nat, prev: nat): (r: Parsed)
    requires level <= FactorLevel && pos <= |toks|
    ensures pos <= r.pos <= |toks|
    decreases |toks| - pos, 0
  {
    if pos < |toks| && toks[pos].kind in LevelOperators(level) then
      var operator := toks[pos];
      var right := OperandAt(toks, level, pos + 1, operator.line);
      match right.result
      case Err(_) => right
      case Ok(r) => FoldAt(toks, level, Binary(left, operator, r), right.pos, right.prev)
    else Parsed(Ok(left), pos, prev)
  }

  /** unary: prefix operators nest to the right, then a primary. */
  function UnaryAt(toks: seq<Token>, pos: nat, prev: nat): (r: Parsed)
    requires pos <= |toks|
    ensures pos <= r.pos <= |toks|
    ensures r.result.Ok? ==> pos < r.pos
    decreases |toks| - pos, 2
  {
    if pos < |toks| && toks[pos].kind in UnaryOperators() then
      var operator := toks[pos];
      var right := UnaryAt(toks, pos + 1, operator.line);
      match right.result
      case Err(_) => right
      case Ok(r) => Parsed(Ok(Expr.Unary(operator, r)), right.pos, right.prev)
    else PrimaryAt(toks, pos, prev)
  }

  /** primary: a literal, a parenthesised expression, or an error. */
  function PrimaryAt(toks: seq<Token>, pos: nat, prev: nat): (r: Parsed)
    requires pos <= |toks|
    ensures pos <= r.pos <= |toks|
    ensures r.result.Ok? ==> pos < r.pos
    decreases |toks| - pos, 1
  {
    if pos == |toks| then Parsed(Err(EmptyPrimary(prev)), pos, prev)
    else
      var token := toks[pos];
      var line := token.line;
      if token.kind == LeftParen then
        var inner := ExpressionAt(toks, pos + 1, line);
        match inner.result
        case Err(NonPrimaryToken(bad)) =>
          var e := if bad.kind == RightParen then EmptyExpression(bad.line) else NonPrimaryToken(bad);
          Parsed(Err(e), inner.pos, inner.prev)
        case Err(_) => inner
        case Ok(e) =>
          if inner.pos == |toks| then
            Parsed(Err(UnterminatedParentheses(inner.prev, line)), inner.pos, inner.prev)
          else if toks[inner.pos].kind == RightParen then
            Parsed(Ok(Grouping(e)), inner.pos + 1, inner.prev)
          else
            Parsed(Err(UnterminatedParentheses(inner.prev, line)), inner.pos + 1, inner.prev)
      else
        match LiteralOf(token.kind)
        case Some(value) => Parsed(Ok(Literal(value)), pos + 1, line)
        case None => Parsed(Err(NonPrimaryToken(token)), pos, line)
  }

  /** parse on a fresh parser: one expression from the start, previous line 0. */
  function Parse(toks: seq<Token>): (r: Parsed)
  {
    ExpressionAt(toks, 0, 0)
  }

  /** The kinds that begin a statement: synchronize stops in front of them. */
  function StatementStarts(): set<TokenType>
  {
    {Class, Fun, Var, For, If, While, Print, Return}
  }

  /** The first position at or after `pos` that holds a statement start, or the end. */
  function NextStatement(toks: seq<Token>, pos: nat): (r: nat)
    requires pos <= |toks|
    ensures pos <= r <= |toks|
    ensures forall k | pos <= k < r :: toks[k].kind !in StatementStarts()
    ensures r < |toks| ==> toks[r].kind in StatementStarts()
    decreases |toks| - pos
  {
    if pos == |toks| || toks[pos].kind in StatementStarts() then pos else NextStatement(toks, pos + 1)
  }

  /** Where synchronize leaves the cursor: past one token, then past every token that starts no statement. */
  function SynchronizedAt(toks: seq<Token>, pos: nat): (r: nat)
    requires pos <= |toks|
  {
    NextStatement(toks, if pos < |toks| then pos + 1 else pos)
  }

  // ---------------------------------------------------------------------
  // The parser object

  class Parser {
    const tokens: seq<Token>
    /** The cursor: tokens[pos..] is what the token iterator has left. */
    var pos: nat
    var prevTokenLine: nat

    ghost predicate Valid()
      reads this
    {
      pos <= |tokens|
    }

    constructor (tokens: seq<Token>)
      ensures Valid() && this.tokens == tokens
      ensures pos == 0 && prevTokenLine == 0
    {
      this.tokens := tokens;
      pos := 0;
      prevTokenLine := 0;
    }

    /** Reads one expression; what follows it, Eof included, is left unread. */
    method Parse() returns (r: Result<Expr, ParserError>)
      requires Valid()
      modifies this
      ensures Valid()
      ensures Parsed(r, pos, prevTokenLine) == ExpressionAt(tokens, old(pos), old(prevTokenLine))
      decreases |tokens| - pos, 22
    {
      r := Expression();
    }

    method Expression() returns (r: Result<Expr, ParserError>)
      requires Valid()
      modifies this
      ensures Valid()
      ensures Parsed(r, pos, prevTokenLine) == ExpressionAt(tokens, old(pos), old(prevTokenLine))
      decreases |tokens| - pos, 21
    {
      r := Equality();
    }

    method Equality() returns (r: Result<Expr, ParserError>)
      requires Valid()
      modifies this
      ensures Valid()
      ensures Parsed(r, pos, prevTokenLine) == BinaryAt(tokens, EqualityLevel, old(pos), old(prevTokenLine))
      decreases |tokens| - pos, 20 - 3 * EqualityLevel
    {
      r := BinaryExprGenerator(EqualityLevel);
    }

    method Comparison() returns (r: Result<Expr, ParserError>)
      requires Valid()
      modifies this
      ensures Valid()
      ensures Parsed(r, pos, prevTokenLine) == BinaryAt(tokens, ComparisonLevel, old(pos), old(prevTokenLine))
      decreases |tokens| - pos, 20 - 3 * ComparisonLevel
    {
      r := BinaryExprGenerator(ComparisonLevel);
    }

    method Term() returns (r: Result<Expr, ParserError>)
      requires Valid()
      modifies this
      ensures Valid()
      ensures Parsed(r, pos, prevTokenLine) == BinaryAt(tokens, TermLevel, old(pos), old(prevTokenLine))
      decreases |tokens| - pos, 20 - 3 * TermLevel
    {
      r := BinaryExprGenerator(TermLevel);
    }

    method Factor() returns (r: Result<Expr, ParserError>)
      requires Valid()
      modifies this
      ensures Valid()
      ensures Parsed(r, pos, prevTokenLine) == BinaryAt(tokens, FactorLevel, old(pos), old(prevTokenLine))
      decreases |tokens| - pos, 20 - 3 * FactorLevel
    {
      r := BinaryExprGenerator(FactorLevel);
    }

    /** The routine a binary level takes its operands from. */
    method Operand(level: nat) returns (r: Result<Expr, ParserError>)
      requires Valid() && level <= FactorLevel
      modifies this
      ensures Valid()
      ensures Parsed(r, pos, prevTokenLine) == OperandAt(tokens, level, old(pos), old(prevTokenLine))
      decreases |tokens| - pos, 18 - 3 * level
    {
      if level == EqualityLevel {
        r := Comparison();
      } else if level == ComparisonLevel {
        r := Term();
      } else if level == TermLevel {
        r := Factor();
      } else {
        r := Unary();
      }
    }

    /**
     * One operand, then, while the next token is an operator of the level,
     * that operator and one more operand, folded to the left.
     */
    method BinaryExprGenerator(level: nat) returns (r: Result<Expr, ParserError>)
      requires Valid() && level <= FactorLevel
      modifies this
      ensures Valid()
      ensures Parsed(r, pos, prevTokenLine) == BinaryAt(tokens, level, old(pos), old(prevTokenLine))
      decreases |tokens| - pos, 19 - 3 * level
    {
      ghost var total := BinaryAt(tokens, level, pos, prevTokenLine);
      ghost var start := pos;
      var first := Operand(level);
      if first.Err? {
        return first;
      }
      var expr := first.value;
      while pos < |tokens| && tokens[pos].kind in LevelOperators(level)
        invariant Valid() && start < pos
        invariant FoldAt(tokens, level, expr, pos, prevTokenLine) == total
        decreases |tokens| - pos
      {
        prevTokenLine := tokens[pos].line;
        var operator := tokens[pos];
        pos := pos + 1;
        var right := Operand(level);
        if right.Err? {
          return right;
        }
        expr := Binary(expr, operator, right.value);
      }
      return Ok(expr);
    }

    /** A prefix operator and, recursively, its operand; otherwise a primary. */
    method Unary() returns (r: Result<Expr, ParserError>)
      requires Valid()
      modifies this
      ensures Valid()
      ensures Parsed(r, pos, prevTokenLine) == UnaryAt(tokens, old(pos), old(prevTokenLine))
      decreases |tokens| - pos, 3
    {
      if pos < |tokens| && tokens[pos].kind in UnaryOperators() {
        prevTokenLine := tokens[pos].line;
        var operator := tokens[pos];
        pos := pos + 1;
        var right := Unary();
        if right.Err? {
          return right;
        }
        r := Ok(Expr.Unary(operator, right.value));
      } else {
        r := Primary();
      }
    }

    /** A literal or a parenthesised expression. */
    method Primary() returns (r: Result<Expr, ParserError>)
      requires Valid()
      modifies this
      ensures Valid()
      ensures Parsed(r, pos, prevTokenLine) == PrimaryAt(tokens, old(pos), old(prevTokenLine))
      decreases |tokens| - pos, 2
    {
      if pos == |tokens| {
        return Err(EmptyPrimary(prevTokenLine));
      }
      var peekToken := tokens[pos];
      prevTokenLine := peekToken.line;
      match peekToken.kind {
        case LeftParen => r := Parenthesized();
        case False => r := ConsumeAndCastLiteral(Bool(false));
        case True => r := ConsumeAndCastLiteral(Bool(true));
        case Nil => r := ConsumeAndCastLiteral(LiteralValue.Nil);
        case Number(n) => r := ConsumeAndCastLiteral(Num(n));
        case LoxString(s) => r := ConsumeAndCastLiteral(Str(s));
        case _ => r := Err(NonPrimaryToken(peekToken));
      }
    }

    /**
     * The '(' arm of primary: the inner expression, then ')'. An inner
     * NonPrimaryToken on ')' becomes EmptyExpression; a missing ')' is
     * UnterminatedParentheses(previous line, line of the '(').
     */
    method Parenthesized() returns (r: Result<Expr, ParserError>)
      requires Valid() && pos < |tokens| && tokens[pos].kind == LeftParen && prevTokenLine == tokens[pos].line
      modifies this
      ensures Valid()
      ensures Parsed(r, pos, prevTokenLine) == PrimaryAt(tokens, old(pos), old(prevTokenLine))
      decreases |tokens| - pos, 1
    {
      var token := tokens[pos];
      pos := pos + 1;
      var resultExpr := Expression();
      var expr: Expr;
      match resultExpr {
        case Ok(ex) =>
          expr := ex;
        case Err(NonPrimaryToken(bad)) =>
          if bad.kind == RightParen {
            return Err(EmptyExpression(bad.line));
          }
          return Err(NonPrimaryToken(bad));
        case Err(err) =>
          return Err(err);
      }
      if pos == |tokens| {
        return Err(UnterminatedParentheses(prevTokenLine, token.line));
      }
      var next := tokens[pos];
      pos := pos + 1;
      if next.kind == RightParen {
        return Ok(Grouping(expr));
      }
      return Err(UnterminatedParentheses(prevTokenLine, token.line));
    }

    /** Consumes the literal token and wraps its value in a node. */
    method ConsumeAndCastLiteral(value: LiteralValue) returns (r: Result<Expr, ParserError>)
      requires Valid()
      modifies this
      ensures Valid() && r == Ok(Literal(value)) && prevTokenLine == old(prevTokenLine)
      ensures pos == if old(pos) < |tokens| then old(pos) + 1 else old(pos)
    {
      if pos < |tokens| {
        pos := pos + 1;
      }
      r := Ok(Literal(value));
    }

    /** Error recovery: skips one token, then every token up to the start of the next statement. */
    method Synchronize()
      requires Valid()
      modifies this
      ensures Valid() && pos == SynchronizedAt(tokens, old(pos)) && prevTokenLine == old(prevTokenLine)
    {
      if pos < |tokens| {
        pos := pos + 1;
      }
      while pos < |tokens|
        invariant Valid() && NextStatement(tokens, pos) == SynchronizedAt(tokens, old(pos))
        invariant prevTokenLine == old(prevTokenLine)
        decreases |tokens| - pos
      {
        if tokens[pos].kind in StatementStarts() {
          return;
        }
        pos := pos + 1;
      }
    }
  }
}
