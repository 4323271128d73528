/**
 * What the parser promises: every tree it builds is one the precedence
 * grammar derives, each level stops in front of a token that is not one of
 * its operators, and the cursor moves as the grammar says.
 */
module ParserProperties {
  import opened Wrappers
  import opened Tokens
  import opened Syntax
  import opened Parsing

  /** The level of unary and primary expressions, above the four binary levels. */
  const UnaryLevel: nat := 4

  /**
   * The grammar, level by level. At a binary level a tree is either a tree
   * of the next level up, or a Binary node whose operator belongs to the
   * level, whose left operand is again of the level and whose right operand
   * is of the next level up (so chains fold to the left). At the unary
   * level a tree is a prefix operator over a unary-level tree, a literal,
   * or a parenthesised expression of any level.
   */
  predicate InLevel(e: Expr, level: nat)
    requires level <= UnaryLevel
    decreases e, UnaryLevel - level
  {
    if level < UnaryLevel then
      || InLevel(e, level + 1)
      || (&& e.Binary? && e.operator.kind in LevelOperators(level)
          && InLevel(e.left, level) && InLevel(e.right, level + 1))
    else
      match e
      case Unary(operator, right) => operator.kind in UnaryOperators() && InLevel(right, UnaryLevel)
      case Literal(_) => true
      case Grouping(inner) => InLevel(inner, EqualityLevel)
      case Binary(_, _, _) => false
  }

  /** The operators of `level` and of every level above it. */
  function OperatorsFrom(level: nat): (ops: set<TokenType>)
    requires level <= UnaryLevel
    ensures forall k | level <= k <= FactorLevel :: LevelOperators(k) <= ops
    decreases UnaryLevel - level
  {
    if level == UnaryLevel then {} else LevelOperators(level) + OperatorsFrom(level + 1)
  }

  /** The cursor is at the end or in front of a token that no level from `level` up would fold. */
  predicate StopsAt(toks: seq<Token>, pos: nat, level: nat)
    requires pos <= |toks| && level <= UnaryLevel
  {
    pos == |toks| || toks[pos].kind !in OperatorsFrom(level)
  }

  /** A tree of a level is also a tree of every looser level. */
  lemma {:induction false} InLevelLower(e: Expr, level: nat, lower: nat)
    requires lower <= level <= UnaryLevel && InLevel(e, level)
    ensures InLevel(e, lower)
    decreases level - lower
  {
    if lower < level {
      InLevelLower(e, level, lower + 1);
    }
  }

  // ---------------------------------------------------------------------
  // Every parse that succeeds yields a tree of its level and stops in front
  // of a token its levels do not fold.

  lemma {:induction false} ExpressionShape(toks: seq<Token>, pos: nat, prev: nat)
    requires pos <= |toks|
    ensures var r := ExpressionAt(toks, pos, prev);
      r.result.Ok? ==> InLevel(r.result.value, EqualityLevel) && StopsAt(toks, r.pos, EqualityLevel)
    decreases |toks| - pos, 11
  {
    BinaryShape(toks, EqualityLevel, pos, prev);
  }

  lemma {:induction false} OperandShape(toks: seq<Token>, level: nat, pos: nat, prev: nat)
    requires level <= FactorLevel && pos <= |toks|
    ensures var r := OperandAt(toks, level, pos, prev);
      r.result.Ok? ==> InLevel(r.result.value, level + 1) && StopsAt(toks, r.pos, level + 1)
    decreases |toks| - pos, 3 + 2 * (FactorLevel - level)
  {
    if level == FactorLevel {
      UnaryShape(toks, pos, prev);
    } else {
      BinaryShape(toks, level + 1, pos, prev);
    }
  }

  lemma {:induction false} BinaryShape(toks: seq<Token>, level: nat, pos: nat, prev: nat)
    requires level <= FactorLevel && pos <= |toks|
    ensures var r := BinaryAt(toks, level, pos, prev);
      r.result.Ok? ==> InLevel(r.result.value, level) && StopsAt(toks, r.pos, level)
    decreases |toks| - pos, 4 + 2 * (FactorLevel - level)
  {
    var first := OperandAt(toks, level, pos, prev);
    OperandShape(toks, level, pos, prev);
    if first.result.Ok? {
      InLevelLower(first.result.value, level + 1, level);
      FoldShape(toks, level, first.result.value, first.pos, first.prev);
    }
  }

  lemma {:induction false} FoldShape(toks: seq<Token>, level: nat, left: Expr, pos: nat, prev: nat)
    requires level <= FactorLevel && pos <= |toks|
    requires InLevel(left, level)
    requires StopsAt(toks, pos, level + 1)
    ensures var r := FoldAt(toks, level, left, pos, prev);
      r.result.Ok? ==> InLevel(r.result.value, level) && StopsAt(toks, r.pos, level)
    decreases |toks| - pos, 0
  {
    if pos < |toks| && toks[pos].kind in LevelOperators(level) {
      var operator := toks[pos];
      var right := OperandAt(toks, level, pos + 1, operator.line);
      OperandShape(toks, level, pos + 1, operator.line);
      if right.result.Ok? {
        FoldShape(toks, level, Binary(left, operator, right.result.value), right.pos, right.prev);
      }
    }
  }

  lemma {:induction false} UnaryShape(toks: seq<Token>, pos: nat, prev: nat)
    requires pos <= |toks|
    ensures var r := UnaryAt(toks, pos, prev);
      r.result.Ok? ==> InLevel(r.result.value, UnaryLevel)
    decreases |toks| - pos, 2
  {
    if pos < |toks| && toks[pos].kind in UnaryOperators() {
      UnaryShape(toks, pos + 1, toks[pos].line);
    } else {
      PrimaryShape(toks, pos, prev);
    }
  }

  lemma {:induction false} PrimaryShape(toks: seq<Token>, pos: nat, prev: nat)
    requires pos <= |toks|
    ensures var r := PrimaryAt(toks, pos, prev);
      r.result.Ok? ==> InLevel(r.result.value, UnaryLevel)
    decreases |toks| - pos, 1
  {
    if pos < |toks| && toks[pos].kind == LeftParen {
      ExpressionShape(toks, pos + 1, toks[pos].line);
    }
  }

  // ---------------------------------------------------------------------
  // Where no expression can start, every level fails as primary does and
  // consumes nothing.

  /** The cursor is at the end, or at a token that is no prefix operator, no '(' and no literal. */
  predicate NoExpressionAt(toks: seq<Token>, pos: nat)
    requires pos <= |toks|
  {
    pos == |toks|
    || (&& toks[pos].kind !in UnaryOperators() && toks[pos].kind != LeftParen
        && LiteralOf(toks[pos].kind).None?)
  }

  /** The failure primary reports there: EmptyPrimary at the end, NonPrimaryToken otherwise. */
  function NoExpressionError(toks: seq<Token>, pos: nat, prev: nat): Parsed
    requires pos <= |toks|
  {
    if pos == |toks| then Parsed(Err(EmptyPrimary(prev)), pos, prev)
    else Parsed(Err(NonPrimaryToken(toks[pos])), pos, toks[pos].line)
  }

  /** Where no prefix operator stands, unary is primary. */
  lemma UnaryIsPrimary(toks: seq<Token>, pos: nat, prev: nat)
    requires pos <= |toks| && (pos == |toks| || toks[pos].kind !in UnaryOperators())
    ensures UnaryAt(toks, pos, prev) == PrimaryAt(toks, pos, prev)
  {
  }

  lemma {:induction false} OperandRejects(toks: seq<Token>, level: nat, pos: nat, prev: nat)
    requires level <= FactorLevel && pos <= |toks| && NoExpressionAt(toks, pos)
    ensures OperandAt(toks, level, pos, prev) == NoExpressionError(toks, pos, prev)
    ensures BinaryAt(toks, level, pos, prev) == NoExpressionError(toks, pos, prev)
    decreases FactorLevel - level
  {
    if level < FactorLevel {
      OperandRejects(toks, level + 1, pos, prev);
    } else {
      UnaryIsPrimary(toks, pos, prev);
    }
  }

  lemma {:induction false} OperandErrorPropagates(toks: seq<Token>, level: nat, pos: nat, prev: nat)
    requires level <= FactorLevel && pos <= |toks| && UnaryAt(toks, pos, prev).result.Err?
    ensures OperandAt(toks, level, pos, prev) == UnaryAt(toks, pos, prev)
    ensures BinaryAt(toks, level, pos, prev) == UnaryAt(toks, pos, prev)
    decreases FactorLevel - level
  {
    if level < FactorLevel {
      OperandErrorPropagates(toks, level + 1, pos, prev);
    }
  }

  /** A failure at the unary level is the failure of the whole expression: no level catches it. */
  lemma ErrorPropagates(toks: seq<Token>, pos: nat, prev: nat)
    requires pos <= |toks| && UnaryAt(toks, pos, prev).result.Err?
    ensures ExpressionAt(toks, pos, prev) == UnaryAt(toks, pos, prev)
  {
    OperandErrorPropagates(toks, EqualityLevel, pos, prev);
  }

  /**
   * A '(' whose inner expression is read but is not followed by ')' fails
   * the whole expression with UnterminatedParentheses(previous line, line
   * of the '('); the token found in place of ')' is consumed, the end is not.
   */
  lemma UnclosedGroup(toks: seq<Token>, pos: nat, prev: nat)
    requires pos < |toks| && toks[pos].kind == LeftParen
    requires var inner := ExpressionAt(toks, pos + 1, toks[pos].line);
      inner.result.Ok? && (inner.pos == |toks| || toks[inner.pos].kind != RightParen)
    ensures var inner := ExpressionAt(toks, pos + 1, toks[pos].line);
      ExpressionAt(toks, pos, prev)
        == Parsed(Err(UnterminatedParentheses(inner.prev, toks[pos].line)),
                  if inner.pos == |toks| then inner.pos else inner.pos + 1, inner.prev)
  {
    UnaryIsPrimary(toks, pos, prev);
    ErrorPropagates(toks, pos, prev);
  }

  /**
   * Inside '(' a ')' found where a primary was needed, as in "()" or
   * "(1 +)", fails the whole expression with EmptyExpression at that ')''s
   * line; the ')' is left unread.
   */
  lemma InnerCloseParen(toks: seq<Token>, pos: nat, prev: nat)
    requires pos < |toks| && toks[pos].kind == LeftParen
    requires var inner := ExpressionAt(toks, pos + 1, toks[pos].line);
      inner.result.Err? && inner.result.error.NonPrimaryToken? && inner.result.error.token.kind == RightParen
    ensures var inner := ExpressionAt(toks, pos + 1, toks[pos].line);
      ExpressionAt(toks, pos, prev)
        == Parsed(Err(EmptyExpression(inner.result.error.token.line)), inner.pos, inner.prev)
    ensures var inner := ExpressionAt(toks, pos + 1, toks[pos].line);
      inner.pos < |toks| && toks[inner.pos] == inner.result.error.token
  {
    assert KnownLine(toks, toks[pos].line);
    ExpressionLines(toks, pos + 1, toks[pos].line);
    UnaryIsPrimary(toks, pos, prev);
    ErrorPropagates(toks, pos, prev);
  }

  /** "()": a ')' right after '(' is EmptyExpression at the ')''s line, with the cursor on the ')'. */
  lemma EmptyGroup(toks: seq<Token>, pos: nat, prev: nat)
    requires pos + 1 < |toks| && toks[pos].kind == LeftParen && toks[pos + 1].kind == RightParen
    ensures ExpressionAt(toks, pos, prev) == Parsed(Err(EmptyExpression(toks[pos + 1].line)), pos + 1, toks[pos + 1].line)
  {
    ExpressionRejects(toks, pos + 1, toks[pos].line);
    InnerCloseParen(toks, pos, prev);
  }

  /**
   * An expression cannot start at the end of the tokens or at a token that
   * is not a prefix operator, '(' or a literal: the parse fails there with
   * EmptyPrimary or NonPrimaryToken, leaving the cursor where it was.
   */
  lemma ExpressionRejects(toks: seq<Token>, pos: nat, prev: nat)
    requires pos <= |toks| && NoExpressionAt(toks, pos)
    ensures ExpressionAt(toks, pos, prev) == NoExpressionError(toks, pos, prev)
  {
    OperandRejects(toks, EqualityLevel, pos, prev);
  }

  // ---------------------------------------------------------------------
  // The line an error reports, ParserError::line, is 0 or the line of one
  // of the tokens.

  /** `n` is 0, the previous line of a fresh parser, or the line of one of the tokens. */
  predicate KnownLine(toks: seq<Token>, n: nat)
  {
    n == 0 || exists i | 0 <= i < |toks| :: toks[i].line == n
  }

  /** The previous line a parse leaves, and the line its error reports, are known lines. */
  predicate KnownLines(toks: seq<Token>, r: Parsed)
  {
    KnownLine(toks, r.prev) && (r.result.Err? ==> KnownLine(toks, r.result.error.Line()))
  }

  /** A NonPrimaryToken error leaves the cursor on the token it names, unread. */
  predicate ErrorAtCursor(toks: seq<Token>, r: Parsed)
  {
    r.result.Err? && r.result.error.NonPrimaryToken? ==> r.pos < |toks| && toks[r.pos] == r.result.error.token
  }

  lemma {:induction false} ExpressionLines(toks: seq<Token>, pos: nat, prev: nat)
    requires pos <= |toks| && KnownLine(toks, prev)
    ensures KnownLines(toks, ExpressionAt(toks, pos, prev))
    ensures ErrorAtCursor(toks, ExpressionAt(toks, pos, prev))
    decreases |toks| - pos, 11
  {
    BinaryLines(toks, EqualityLevel, pos, prev);
  }

  lemma {:induction false} OperandLines(toks: seq<Token>, level: nat, pos: nat, prev: nat)
    requires level <= FactorLevel && pos <= |toks| && KnownLine(toks, prev)
    ensures KnownLines(toks, OperandAt(toks, level, pos, prev))
    ensures ErrorAtCursor(toks, OperandAt(toks, level, pos, prev))
    decreases |toks| - pos, 3 + 2 * (FactorLevel - level)
  {
    if level == FactorLevel {
      UnaryLines(toks, pos, prev);
    } else {
      BinaryLines(toks, level + 1, pos, prev);
    }
  }

  lemma {:induction false} BinaryLines(toks: seq<Token>, level: nat, pos: nat, prev: nat)
    requires level <= FactorLevel && pos <= |toks| && KnownLine(toks, prev)
    ensures KnownLines(toks, BinaryAt(toks, level, pos, prev))
    ensures ErrorAtCursor(toks, BinaryAt(toks, level, pos, prev))
    decreases |toks| - pos, 4 + 2 * (FactorLevel - level)
  {
    var first := OperandAt(toks, level, pos, prev);
    OperandLines(toks, level, pos, prev);
    if first.result.Ok? {
      FoldLines(toks, level, first.result.value, first.pos, first.prev);
    }
  }

  lemma {:induction false} FoldLines(toks: seq<Token>, level: nat, left: Expr, pos: nat, prev: nat)
    requires level <= FactorLevel && pos <= |toks| && KnownLine(toks, prev)
    ensures KnownLines(toks, FoldAt(toks, level, left, pos, prev))
    ensures ErrorAtCursor(toks, FoldAt(toks, level, left, pos, prev))
    decreases |toks| - pos, 0
  {
    if pos < |toks| && toks[pos].kind in LevelOperators(level) {
      var operator := toks[pos];
      assert KnownLine(toks, operator.line);
      var right := OperandAt(toks, level, pos + 1, operator.line);
      OperandLines(toks, level, pos + 1, operator.line);
      if right.result.Ok? {
        FoldLines(toks, level, Binary(left, operator, right.result.value), right.pos, right.prev);
      }
    }
  }

  lemma {:induction false} UnaryLines(toks: seq<Token>, pos: nat, prev: nat)
    requires pos <= |toks| && KnownLine(toks, prev)
    ensures KnownLines(toks, UnaryAt(toks, pos, prev))
    ensures ErrorAtCursor(toks, UnaryAt(toks, pos, prev))
    decreases |toks| - pos, 2
  {
    if pos < |toks| && toks[pos].kind in UnaryOperators() {
      assert KnownLine(toks, toks[pos].line);
      UnaryLines(toks, pos + 1, toks[pos].line);
    } else {
      PrimaryLines(toks, pos, prev);
    }
  }

  lemma {:induction false} PrimaryLines(toks: seq<Token>, pos: nat, prev: nat)
    requires pos <= |toks| && KnownLine(toks, prev)
    ensures KnownLines(toks, PrimaryAt(toks, pos, prev))
    ensures ErrorAtCursor(toks, PrimaryAt(toks, pos, prev))
    decreases |toks| - pos, 1
  {
    if pos < |toks| {
      assert KnownLine(toks, toks[pos].line);
      if toks[pos].kind == LeftParen {
        ExpressionLines(toks, pos + 1, toks[pos].line);
      }
    }
  }

  /**
   * A failed parse reports, through ParserError::line, line 0 or the line
   * of one of the tokens it was given.
   */
  lemma ParseErrorLine(toks: seq<Token>)
    ensures var r := Parse(toks);
      r.result.Err? ==> r.result.error.Line() == 0 || exists i | 0 <= i < |toks| :: toks[i].line == r.result.error.Line()
  {
    ExpressionLines(toks, 0, 0);
  }

  // ---------------------------------------------------------------------
  // The parser reads back every tree of the grammar from its tokens.

  /** The token that spells a literal value. */
  function LiteralToken(v: LiteralValue, line: nat): (t: Token)
    ensures LiteralOf(t.kind) == Some(v) && t.line == line
  {
    match v
    case Bool(b) => Token(if b then TokenType.True else TokenType.False, line)
    case Nil => Token(TokenType.Nil, line)
    case Num(n) => Token(Number(n), line)
    case Str(s) => Token(LoxString(s), line)
  }

  /**
   * The tokens of a tree, left to right, with a pair of parentheses around
   * every Grouping; literals and parentheses are put on `line`.
   */
  function Unparse(e: Expr, line: nat): (ts: seq<Token>)
    ensures |ts| >= 1
  {
    match e
    case Binary(left, operator, right) => Unparse(left, line) + [operator] + Unparse(right, line)
    case Unary(operator, right) => [operator] + Unparse(right, line)
    case Grouping(inner) => [Token(LeftParen, line)] + Unparse(inner, line) + [Token(RightParen, line)]
    case Literal(value) => [LiteralToken(value, line)]
  }

  /** The line of a tree's last token that the parser records as its previous-token line. */
  function LastLine(e: Expr, line: nat): nat
  {
    match e
    case Binary(_, _, right) => LastLine(right, line)
    case Unary(_, right) => LastLine(right, line)
    case Grouping(inner) => LastLine(inner, line)
    case Literal(_) => line
  }

  /** `ts` occurs in `toks` at `pos`. */
  predicate Occurs(toks: seq<Token>, pos: nat, ts: seq<Token>)
  {
    pos + |ts| <= |toks| && forall i :: 0 <= i < |ts| ==> toks[pos + i] == ts[i]
  }

  lemma OccursSplit(toks: seq<Token>, pos: nat, a: seq<Token>, b: seq<Token>)
    requires Occurs(toks, pos, a + b)
    ensures Occurs(toks, pos, a) && Occurs(toks, pos + |a|, b)
  {
    forall i | 0 <= i < |a|
      ensures toks[pos + i] == a[i]
    {
      assert (a + b)[i] == a[i];
    }
    forall i | 0 <= i < |b|
      ensures toks[pos + |a| + i] == b[i]
    {
      assert (a + b)[|a| + i] == b[i];
    }
  }

  /** No operator belongs to two levels. */
  lemma LevelsDisjoint(level: nat)
    requires level <= FactorLevel
    ensures LevelOperators(level) * OperatorsFrom(level + 1) == {}
  {
  }

  /** An operator of `level` ends every operand of the level above. */
  lemma OperatorStops(toks: seq<Token>, pos: nat, level: nat)
    requires level <= FactorLevel && pos < |toks| && toks[pos].kind in LevelOperators(level)
    ensures StopsAt(toks, pos, level + 1)
  {
    LevelsDisjoint(level);
  }

  /** A Binary node of a level has an operator of that level or one above it. */
  lemma {:induction false} BinaryOperatorFrom(e: Expr, level: nat)
    requires level <= UnaryLevel && InLevel(e, level) && e.Binary?
    ensures e.operator.kind in OperatorsFrom(level)
    decreases UnaryLevel - level
  {
    if level < UnaryLevel && !(e.operator.kind in LevelOperators(level)) {
      BinaryOperatorFrom(e, level + 1);
    }
  }

  /** A Binary node whose operator belongs to `level` splits as the grammar says at that level. */
  lemma BinaryOfLevel(e: Expr, level: nat)
    requires level <= FactorLevel && InLevel(e, level) && e.Binary? && e.operator.kind in LevelOperators(level)
    ensures InLevel(e.left, level) && InLevel(e.right, level + 1)
  {
    LevelsDisjoint(level);
    if InLevel(e, level + 1) {
      BinaryOperatorFrom(e, level + 1);
    }
  }

  /** One more pass of the folding loop, after the left operand of `e` has been read up to `mid`. */
  lemma FoldStep(toks: seq<Token>, level: nat, pos: nat, prev: nat, e: Expr, mid: nat, lastLeft: nat, end: nat, last: nat)
    requires level <= FactorLevel && pos <= |toks| && e.Binary? && e.operator.kind in LevelOperators(level)
    requires mid < |toks| && toks[mid] == e.operator
    requires BinaryAt(toks, level, pos, prev) == FoldAt(toks, level, e.left, mid, lastLeft)
    requires OperandAt(toks, level, mid + 1, e.operator.line) == Parsed(Ok(e.right), end, last)
    ensures BinaryAt(toks, level, pos, prev) == FoldAt(toks, level, e, end, last)
  {
  }

  /** ')' is no binary operator. */
  lemma ClosingParenStops()
    ensures RightParen !in OperatorsFrom(EqualityLevel)
  {
  }

  /** Where the parts of a Binary tree lie among its tokens. */
  lemma SplitBinary(e: Expr, line: nat, toks: seq<Token>, pos: nat)
    requires e.Binary? && Occurs(toks, pos, Unparse(e, line))
    ensures var ul := Unparse(e.left, line);
      && Occurs(toks, pos, ul) && toks[pos + |ul|] == e.operator
      && Occurs(toks, pos + |ul| + 1, Unparse(e.right, line))
      && |Unparse(e, line)| == |ul| + 1 + |Unparse(e.right, line)|
      && LastLine(e, line) == LastLine(e.right, line)
  {
    OccursAround(toks, pos, Unparse(e.left, line), e.operator, Unparse(e.right, line));
  }

  /** A token between two runs, found among the tokens: each part lies where it should. */
  lemma OccursAround(toks: seq<Token>, pos: nat, a: seq<Token>, t: Token, b: seq<Token>)
    requires Occurs(toks, pos, a + [t] + b)
    ensures Occurs(toks, pos, a) && toks[pos + |a|] == t && Occurs(toks, pos + |a| + 1, b)
  {
    assert a + [t] + b == a + ([t] + b);
    OccursSplit(toks, pos, a, [t] + b);
    OccursSplit(toks, pos + |a|, [t], b);
    assert [t][0] == t;
  }

  /** Where the operand of a Unary tree lies among its tokens. */
  lemma SplitUnary(e: Expr, line: nat, toks: seq<Token>, pos: nat)
    requires e.Unary? && Occurs(toks, pos, Unparse(e, line))
    ensures && toks[pos] == e.operator && Occurs(toks, pos + 1, Unparse(e.right, line))
      && |Unparse(e, line)| == 1 + |Unparse(e.right, line)|
      && LastLine(e, line) == LastLine(e.right, line)
  {
    OccursSplit(toks, pos, [e.operator], Unparse(e.right, line));
    assert [e.operator][0] == e.operator;
  }

  /** Where the parentheses and the inner tree of a Grouping lie among its tokens. */
  lemma SplitGrouping(e: Expr, line: nat, toks: seq<Token>, pos: nat)
    requires e.Grouping? && Occurs(toks, pos, Unparse(e, line))
    ensures var ui := Unparse(e.expression, line);
      && toks[pos] == Token(LeftParen, line) && Occurs(toks, pos + 1, ui)
      && toks[pos + 1 + |ui|] == Token(RightParen, line) && StopsAt(toks, pos + 1 + |ui|, EqualityLevel)
      && |Unparse(e, line)| == |ui| + 2
      && LastLine(e, line) == LastLine(e.expression, line)
  {
    var ui := Unparse(e.expression, line);
    OccursSplit(toks, pos, [Token(LeftParen, line)] + ui, [Token(RightParen, line)]);
    OccursSplit(toks, pos, [Token(LeftParen, line)], ui);
    assert [Token(LeftParen, line)][0] == Token(LeftParen, line);
    assert [Token(RightParen, line)][0] == Token(RightParen, line);
    ClosingParenStops();
  }

  lemma {:induction false} ExpressionReads(e: Expr, line: nat, toks: seq<Token>, pos: nat, prev: nat)
    requires InLevel(e, EqualityLevel)
    requires Occurs(toks, pos, Unparse(e, line)) && StopsAt(toks, pos + |Unparse(e, line)|, EqualityLevel)
    ensures ExpressionAt(toks, pos, prev) == Parsed(Ok(e), pos + |Unparse(e, line)|, LastLine(e, line))
    decreases e, 3 * (FactorLevel - EqualityLevel) + 5
  {
    BinaryReads(e, line, EqualityLevel, toks, pos, prev);
  }

  /** A tree of `level` followed by no operator of `level` or above is read back whole. */
  lemma {:induction false} BinaryReads(e: Expr, line: nat, level: nat, toks: seq<Token>, pos: nat, prev: nat)
    requires level <= FactorLevel && InLevel(e, level)
    requires Occurs(toks, pos, Unparse(e, line)) && StopsAt(toks, pos + |Unparse(e, line)|, level)
    ensures BinaryAt(toks, level, pos, prev) == Parsed(Ok(e), pos + |Unparse(e, line)|, LastLine(e, line))
    decreases e, 3 * (FactorLevel - level) + 4
  {
    BinaryPrefix(e, line, level, toks, pos, prev);
  }

  /**
   * A tree of `level` followed by no operator above `level` is read as the
   * left operand of the level's folding loop.
   */
  lemma {:induction false} BinaryPrefix(e: Expr, line: nat, level: nat, toks: seq<Token>, pos: nat, prev: nat)
    requires level <= FactorLevel && InLevel(e, level)
    requires Occurs(toks, pos, Unparse(e, line)) && StopsAt(toks, pos + |Unparse(e, line)|, level + 1)
    ensures BinaryAt(toks, level, pos, prev) == FoldAt(toks, level, e, pos + |Unparse(e, line)|, LastLine(e, line))
    decreases e, 3 * (FactorLevel - level) + 3
  {
    if e.Binary? && e.operator.kind in LevelOperators(level) {
      BinaryPrefixStep(e, line, level, toks, pos, prev);
    } else {
      OperandReads(e, line, level, toks, pos, prev);
    }
  }

  /** The case of BinaryPrefix where the tree's top operator belongs to `level`. */
  lemma {:induction false} BinaryPrefixStep(e: Expr, line: nat, level: nat, toks: seq<Token>, pos: nat, prev: nat)
    requires level <= FactorLevel && InLevel(e, level) && e.Binary? && e.operator.kind in LevelOperators(level)
    requires Occurs(toks, pos, Unparse(e, line)) && StopsAt(toks, pos + |Unparse(e, line)|, level + 1)
    ensures BinaryAt(toks, level, pos, prev) == FoldAt(toks, level, e, pos + |Unparse(e, line)|, LastLine(e, line))
    decreases e, 3 * (FactorLevel - level) + 2
  {
    BinaryOfLevel(e, level);
    SplitBinary(e, line, toks, pos);
    var mid := pos + |Unparse(e.left, line)|;
    OperatorStops(toks, mid, level);
    BinaryPrefix(e.left, line, level, toks, pos, prev);
    OperandReads(e.right, line, level, toks, mid + 1, e.operator.line);
    FoldStep(toks, level, pos, prev, e, mid, LastLine(e.left, line), pos + |Unparse(e, line)|, LastLine(e, line));
  }

  /** A tree of the level above `level` followed by no operator from there up is read whole as an operand. */
  lemma {:induction false} OperandReads(e: Expr, line: nat, level: nat, toks: seq<Token>, pos: nat, prev: nat)
    requires level <= FactorLevel && InLevel(e, level + 1)
    requires Occurs(toks, pos, Unparse(e, line)) && StopsAt(toks, pos + |Unparse(e, line)|, level + 1)
    ensures OperandAt(toks, level, pos, prev) == Parsed(Ok(e), pos + |Unparse(e, line)|, LastLine(e, line))
    decreases e, 3 * (FactorLevel - level) + 2
  {
    if level == FactorLevel {
      UnaryReads(e, line, toks, pos, prev);
    } else {
      BinaryReads(e, line, level + 1, toks, pos, prev);
    }
  }

  /** A prefix operator in front of a parsed operand makes a Unary node. */
  lemma UnaryStep(toks: seq<Token>, pos: nat, prev: nat, right: Expr, end: nat, last: nat)
    requires pos < |toks| && toks[pos].kind in UnaryOperators()
    requires UnaryAt(toks, pos + 1, toks[pos].line) == Parsed(Ok(right), end, last)
    ensures UnaryAt(toks, pos, prev) == Parsed(Ok(Unary(toks[pos], right)), end, last)
  {
  }

  /** A literal token is read as a Literal node on its own line. */
  lemma LiteralStep(toks: seq<Token>, pos: nat, prev: nat, value: LiteralValue)
    requires pos < |toks| && LiteralOf(toks[pos].kind) == Some(value)
    ensures UnaryAt(toks, pos, prev) == Parsed(Ok(Literal(value)), pos + 1, toks[pos].line)
  {
  }

  /** A parsed expression between '(' and ')' makes a Grouping node. */
  lemma GroupStep(toks: seq<Token>, pos: nat, prev: nat, inner: Expr, end: nat, last: nat)
    requires pos < |toks| && toks[pos].kind == LeftParen
    requires ExpressionAt(toks, pos + 1, toks[pos].line) == Parsed(Ok(inner), end, last)
    requires end < |toks| && toks[end].kind == RightParen
    ensures UnaryAt(toks, pos, prev) == Parsed(Ok(Grouping(inner)), end + 1, last)
  {
  }

  /** A unary-level tree is read whole, whatever follows it. */
  lemma {:induction false} UnaryReads(e: Expr, line: nat, toks: seq<Token>, pos: nat, prev: nat)
    requires InLevel(e, UnaryLevel) && Occurs(toks, pos, Unparse(e, line))
    ensures UnaryAt(toks, pos, prev) == Parsed(Ok(e), pos + |Unparse(e, line)|, LastLine(e, line))
    decreases e, 1
  {
    match e
    case Unary(_, _) =>
      PrefixReads(e, line, toks, pos, prev);
    case Literal(value) =>
      assert Unparse(e, line)[0] == LiteralToken(value, line);
      LiteralStep(toks, pos, prev, value);
    case Grouping(_) =>
      GroupingReads(e, line, toks, pos, prev);
  }

  lemma {:induction false} PrefixReads(e: Expr, line: nat, toks: seq<Token>, pos: nat, prev: nat)
    requires e.Unary? && InLevel(e, UnaryLevel) && Occurs(toks, pos, Unparse(e, line))
    ensures UnaryAt(toks, pos, prev) == Parsed(Ok(e), pos + |Unparse(e, line)|, LastLine(e, line))
    decreases e, 0
  {
    SplitUnary(e, line, toks, pos);
    UnaryReads(e.right, line, toks, pos + 1, e.operator.line);
    UnaryStep(toks, pos, prev, e.right, pos + |Unparse(e, line)|, LastLine(e, line));
  }

  lemma {:induction false} GroupingReads(e: Expr, line: nat, toks: seq<Token>, pos: nat, prev: nat)
    requires e.Grouping? && InLevel(e, UnaryLevel) && Occurs(toks, pos, Unparse(e, line))
    ensures UnaryAt(toks, pos, prev) == Parsed(Ok(e), pos + |Unparse(e, line)|, LastLine(e, line))
    decreases e, 0
  {
    SplitGrouping(e, line, toks, pos);
    ExpressionReads(e.expression, line, toks, pos + 1, line);
    GroupStep(toks, pos, prev, e.expression, pos + 1 + |Unparse(e.expression, line)|, LastLine(e, line));
  }

  /**
   * The round trip: a tree of the grammar, spelled out as tokens and
   * followed by anything that does not start with an operator (Eof, say),
   * parses back to the same tree and leaves the cursor right after it.
   */
  lemma ParseUnparse(e: Expr, line: nat, rest: seq<Token>)
    requires InLevel(e, EqualityLevel)
    requires rest == [] || rest[0].kind !in OperatorsFrom(EqualityLevel)
    ensures Parse(Unparse(e, line) + rest) == Parsed(Ok(e), |Unparse(e, line)|, LastLine(e, line))
  {
    var toks := Unparse(e, line) + rest;
    ExpressionReads(e, line, toks, 0, 0);
  }
}
