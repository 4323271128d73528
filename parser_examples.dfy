/**
 * Worked parses: the precedence ladder, left folding, nested prefix
 * operators, parentheses, and each error outcome on a small input.
 */
module ParserExamples {
  import opened Wrappers
  import opened Tokens
  import opened Syntax
  import opened Parsing
  import opened ParserProperties

  function NumberToken(n: Num, line: nat): Token
  {
    Token(Number(n), line)
  }

  /** A tree of the grammar spelled out on line 1 and followed by Eof parses back whole, leaving Eof. */
  lemma ParseTreeThenEof(e: Expr, toks: seq<Token>)
    requires InLevel(e, EqualityLevel) && toks == Unparse(e, 1) + [Token(Eof, 1)]
    ensures Parse(toks) == Parsed(Ok(e), |toks| - 1, LastLine(e, 1))
  {
    ParseUnparse(e, 1, [Token(Eof, 1)]);
  }

  /** A literal is a tree of every level. */
  lemma LiteralInLevel(v: LiteralValue, level: nat)
    requires level <= UnaryLevel
    ensures InLevel(Literal(v), level)
  {
    assert InLevel(Literal(v), UnaryLevel);
    InLevelLower(Literal(v), UnaryLevel, level);
  }

  /** "x - y - z" folds to the left: ((x - y) - z). */
  lemma ParseLeftFold(x: Num, y: Num, z: Num)
    ensures var toks := [NumberToken(x, 1), Token(TokenType.Minus, 1), NumberToken(y, 1), Token(TokenType.Minus, 1), NumberToken(z, 1), Token(Eof, 1)];
      Parse(toks) == Parsed(Ok(Binary(Binary(Literal(Num(x)), Token(TokenType.Minus, 1), Literal(Num(y))),
                                       Token(TokenType.Minus, 1), Literal(Num(z)))), 5, 1)
  {
    var lx, ly, lz := Literal(Num(x)), Literal(Num(y)), Literal(Num(z));
    var inner := Binary(lx, Token(TokenType.Minus, 1), ly);
    var e := Binary(inner, Token(TokenType.Minus, 1), lz);
    LiteralInLevel(Num(x), TermLevel);
    LiteralInLevel(Num(y), FactorLevel);
    LiteralInLevel(Num(z), FactorLevel);
    assert InLevel(inner, TermLevel);
    assert InLevel(e, TermLevel);
    InLevelLower(e, TermLevel, EqualityLevel);
    assert Unparse(inner, 1) == [NumberToken(x, 1), Token(TokenType.Minus, 1), NumberToken(y, 1)];
    ParseTreeThenEof(e, [NumberToken(x, 1), Token(TokenType.Minus, 1), NumberToken(y, 1), Token(TokenType.Minus, 1), NumberToken(z, 1), Token(Eof, 1)]);
  }

  /** "x + y * z": the factor level binds tighter, so the product is the right operand. */
  lemma ParsePrecedence(x: Num, y: Num, z: Num)
    ensures var toks := [NumberToken(x, 1), Token(TokenType.Plus, 1), NumberToken(y, 1), Token(TokenType.Star, 1), NumberToken(z, 1), Token(Eof, 1)];
      Parse(toks) == Parsed(Ok(Binary(Literal(Num(x)), Token(TokenType.Plus, 1),
                                       Binary(Literal(Num(y)), Token(TokenType.Star, 1), Literal(Num(z))))), 5, 1)
  {
    var lx, ly, lz := Literal(Num(x)), Literal(Num(y)), Literal(Num(z));
    var product := Binary(ly, Token(TokenType.Star, 1), lz);
    var e := Binary(lx, Token(TokenType.Plus, 1), product);
    LiteralInLevel(Num(x), TermLevel);
    LiteralInLevel(Num(y), FactorLevel);
    LiteralInLevel(Num(z), UnaryLevel);
    assert InLevel(product, FactorLevel);
    assert InLevel(e, TermLevel);
    InLevelLower(e, TermLevel, EqualityLevel);
    assert Unparse(product, 1) == [NumberToken(y, 1), Token(TokenType.Star, 1), NumberToken(z, 1)];
    assert LastLine(product, 1) == 1;
    ParseTreeThenEof(e, [NumberToken(x, 1), Token(TokenType.Plus, 1), NumberToken(y, 1), Token(TokenType.Star, 1), NumberToken(z, 1), Token(Eof, 1)]);
  }

  /** "(x + y) * z": the parentheses stay in the tree as a Grouping node. */
  lemma ParseGrouping(x: Num, y: Num, z: Num)
    ensures var toks := [Token(LeftParen, 1), NumberToken(x, 1), Token(TokenType.Plus, 1), NumberToken(y, 1), Token(RightParen, 1),
                         Token(TokenType.Star, 1), NumberToken(z, 1), Token(Eof, 1)];
      Parse(toks) == Parsed(Ok(Binary(Grouping(Binary(Literal(Num(x)), Token(TokenType.Plus, 1), Literal(Num(y)))),
                                       Token(TokenType.Star, 1), Literal(Num(z)))), 7, 1)
  {
    var lx, ly, lz := Literal(Num(x)), Literal(Num(y)), Literal(Num(z));
    var sum := Binary(lx, Token(TokenType.Plus, 1), ly);
    var e := Binary(Grouping(sum), Token(TokenType.Star, 1), lz);
    LiteralInLevel(Num(x), TermLevel);
    LiteralInLevel(Num(y), FactorLevel);
    LiteralInLevel(Num(z), UnaryLevel);
    assert InLevel(sum, TermLevel);
    InLevelLower(sum, TermLevel, EqualityLevel);
    assert InLevel(Grouping(sum), UnaryLevel);
    InLevelLower(Grouping(sum), UnaryLevel, FactorLevel);
    assert InLevel(e, FactorLevel);
    InLevelLower(e, FactorLevel, EqualityLevel);
    assert Unparse(sum, 1) == [NumberToken(x, 1), Token(TokenType.Plus, 1), NumberToken(y, 1)];
    assert Unparse(Grouping(sum), 1) == [Token(LeftParen, 1)] + Unparse(sum, 1) + [Token(RightParen, 1)];
    ParseTreeThenEof(e, [Token(LeftParen, 1), NumberToken(x, 1), Token(TokenType.Plus, 1), NumberToken(y, 1), Token(RightParen, 1),
                         Token(TokenType.Star, 1), NumberToken(z, 1), Token(Eof, 1)]);
  }

  /** "- - x": prefix operators nest to the right. */
  lemma ParseDoubleNegation(x: Num)
    ensures var toks := [Token(TokenType.Minus, 1), Token(TokenType.Minus, 1), NumberToken(x, 1), Token(Eof, 1)];
      Parse(toks) == Parsed(Ok(Unary(Token(TokenType.Minus, 1), Unary(Token(TokenType.Minus, 1), Literal(Num(x))))), 3, 1)
  {
    var e := Unary(Token(TokenType.Minus, 1), Unary(Token(TokenType.Minus, 1), Literal(Num(x))));
    LiteralInLevel(Num(x), UnaryLevel);
    assert InLevel(Unary(Token(TokenType.Minus, 1), Literal(Num(x))), UnaryLevel);
    assert InLevel(e, UnaryLevel);
    InLevelLower(e, UnaryLevel, EqualityLevel);
    assert Unparse(e.right, 1) == [Token(TokenType.Minus, 1), NumberToken(x, 1)] && LastLine(e.right, 1) == 1;
    ParseTreeThenEof(e, [Token(TokenType.Minus, 1), Token(TokenType.Minus, 1), NumberToken(x, 1), Token(Eof, 1)]);
  }

  /** No tokens at all: EmptyPrimary with the initial previous line 0. */
  lemma ParseNothing()
    ensures Parse([]) == Parsed(Err(EmptyPrimary(0)), 0, 0)
  {
    ExpressionRejects([], 0, 0);
  }

  /** An identifier cannot start an expression: it is reported and left unconsumed. */
  lemma ParseIdentifier()
    ensures var toks := [Token(Identifier("x"), 3), Token(Eof, 3)];
      Parse(toks) == Parsed(Err(NonPrimaryToken(Token(Identifier("x"), 3))), 0, 3)
  {
    ExpressionRejects([Token(Identifier("x"), 3), Token(Eof, 3)], 0, 0);
  }

  /** "()": the ')' where an expression should start is reported as EmptyExpression on its line. */
  lemma ParseEmptyParentheses()
    ensures var toks := [Token(LeftParen, 1), Token(RightParen, 2), Token(Eof, 2)];
      Parse(toks) == Parsed(Err(EmptyExpression(2)), 1, 2)
  {
    EmptyGroup([Token(LeftParen, 1), Token(RightParen, 2), Token(Eof, 2)], 0, 0);
  }

  /** "(true +)": the operand missing after '+' is a ')', reported as EmptyExpression on its line. */
  lemma ParseDanglingOperator()
    ensures var toks := [Token(LeftParen, 1), Token(True, 1), Token(TokenType.Plus, 1), Token(RightParen, 2), Token(Eof, 2)];
      Parse(toks) == Parsed(Err(EmptyExpression(2)), 3, 2)
  {
    var toks := [Token(LeftParen, 1), Token(True, 1), Token(TokenType.Plus, 1), Token(RightParen, 2), Token(Eof, 2)];
    var lit := Literal(Bool(true));
    var missing := Parsed(Err(NonPrimaryToken(Token(RightParen, 2))), 3, 2);
    assert BinaryAt(toks, FactorLevel, 1, 1) == Parsed(Ok(lit), 2, 1) by {
      assert UnaryAt(toks, 1, 1) == Parsed(Ok(lit), 2, 1) by {
        UnaryIsPrimary(toks, 1, 1);
      }
      assert FoldAt(toks, FactorLevel, lit, 2, 1) == Parsed(Ok(lit), 2, 1);
    }
    assert FoldAt(toks, TermLevel, lit, 2, 1) == missing by {
      OperandRejects(toks, TermLevel, 3, 1);
    }
    assert BinaryAt(toks, TermLevel, 1, 1) == missing;
    assert BinaryAt(toks, ComparisonLevel, 1, 1) == missing;
    assert ExpressionAt(toks, 1, 1) == missing;
    assert ExpressionAt(toks, 0, 0) == Parsed(Err(EmptyExpression(2)), 3, 2) by {
      InnerCloseParen(toks, 0, 0);
    }
  }

  /** "(true" at the end of the tokens: UnterminatedParentheses(previous line, line of the '('). */
  lemma ParseUnclosedAtEnd()
    ensures var toks := [Token(LeftParen, 1), Token(True, 2)];
      Parse(toks) == Parsed(Err(UnterminatedParentheses(2, 1)), 2, 2)
  {
    var toks := [Token(LeftParen, 1), Token(True, 2)];
    assert ExpressionAt(toks, 1, 1) == Parsed(Ok(Literal(Bool(true))), 2, 2) by {
      LiteralInLevel(Bool(true), EqualityLevel);
      assert Unparse(Literal(Bool(true)), 2) == [Token(True, 2)];
      assert Occurs(toks, 1, Unparse(Literal(Bool(true)), 2));
      ExpressionReads(Literal(Bool(true)), 2, toks, 1, 1);
    }
    UnclosedGroup(toks, 0, 0);
  }

  /** "(true" then Eof: the same error, and the token found in place of ')' is consumed. */
  lemma ParseUnclosedBeforeEof()
    ensures var toks := [Token(LeftParen, 1), Token(True, 2), Token(Eof, 3)];
      Parse(toks) == Parsed(Err(UnterminatedParentheses(2, 1)), 3, 2)
  {
    var toks := [Token(LeftParen, 1), Token(True, 2), Token(Eof, 3)];
    assert ExpressionAt(toks, 1, 1) == Parsed(Ok(Literal(Bool(true))), 2, 2) by {
      LiteralInLevel(Bool(true), EqualityLevel);
      assert Unparse(Literal(Bool(true)), 2) == [Token(True, 2)];
      assert Occurs(toks, 1, Unparse(Literal(Bool(true)), 2));
      ExpressionReads(Literal(Bool(true)), 2, toks, 1, 1);
    }
    UnclosedGroup(toks, 0, 0);
  }
}
