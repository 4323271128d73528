/** The scanner on a few small inputs. */
module ScannerExamples {
  import opened Wrappers
  import opened Tokens
  import opened Scanning
  import opened ScannerProperties

  /** The loop past whitespace and one lexeme. */
  lemma LoopStep(src: seq<char>, pos: nat, p: nat, acc: (seq<Token>, seq<ScannerError>),
                 parse: string -> Option<Num>, out: Option<Result<Token, ScannerError>>, next: nat)
    requires pos <= p < |src| && SpanEnd(src, pos, IsWhitespace) == p
    requires LexemeAt(src, p, parse) == (out, next)
    ensures ScanLoop(src, pos, acc, parse) == ScanLoop(src, next, Record(acc, out), parse)
  {
  }

  /** The loop once only whitespace is left. */
  lemma LoopEnd(src: seq<char>, pos: nat, acc: (seq<Token>, seq<ScannerError>), parse: string -> Option<Num>)
    requires pos <= |src| && SpanEnd(src, pos, IsWhitespace) == |src|
    ensures ScanLoop(src, pos, acc, parse) == (acc.0 + [Token(Eof, LineAt(src, |src|))], acc.1)
  {
  }

  /** A source that is one lexeme, a token. */
  lemma ScanOneToken(src: seq<char>, parse: string -> Option<Num>, t: Token)
    requires 0 < |src| && !IsWhitespace(src[0])
    requires LexemeAt(src, 0, parse) == (Some(Ok(t)), |src|)
    ensures Scan(src, parse) == Ok([t, Token(Eof, LineAt(src, |src|))])
  {
    LoopStep(src, 0, 0, ([], []), parse, Some(Ok(t)), |src|);
    assert Record(([], []), Some(Ok(t))) == ([t], []) by { assert [] + [t] == [t]; }
    LoopEnd(src, |src|, ([t], []), parse);
    assert [t] + [Token(Eof, LineAt(src, |src|))] == [t, Token(Eof, LineAt(src, |src|))];
  }

  /** A source that is two lexemes, both tokens, with one whitespace character between them. */
  lemma ScanTwoTokens(src: seq<char>, parse: string -> Option<Num>, t1: Token, n: nat, t2: Token)
    requires 0 < n < |src| - 1 && !IsWhitespace(src[0]) && IsWhitespace(src[n]) && !IsWhitespace(src[n + 1])
    requires LexemeAt(src, 0, parse) == (Some(Ok(t1)), n)
    requires LexemeAt(src, n + 1, parse) == (Some(Ok(t2)), |src|)
    ensures Scan(src, parse) == Ok([t1, t2, Token(Eof, LineAt(src, |src|))])
  {
    LoopStep(src, 0, 0, ([], []), parse, Some(Ok(t1)), n);
    assert Record(([], []), Some(Ok(t1))) == ([t1], []) by { assert [] + [t1] == [t1]; }
    SpanEndAt(src, n, n + 1, IsWhitespace);
    LoopStep(src, n, n + 1, ([t1], []), parse, Some(Ok(t2)), |src|);
    assert Record(([t1], []), Some(Ok(t2))) == ([t1, t2], []) by { assert [t1] + [t2] == [t1, t2]; }
    LoopEnd(src, |src|, ([t1, t2], []), parse);
    assert [t1, t2] + [Token(Eof, LineAt(src, |src|))] == [t1, t2, Token(Eof, LineAt(src, |src|))];
  }

  /** `!=` is one compound token. */
  lemma ScanBangEqual(parse: string -> Option<Num>)
    ensures Scan("!=", parse) == Ok([Token(BangEqual, 1), Token(Eof, 1)])
  {
    var src := "!=";
    LineAtStart(src);
    LineAtFlat(src, 0, 2);
    OperatorLexeme(src, 0, parse);
    ScanOneToken(src, parse, Token(BangEqual, 1));
  }

  /** `! =` is two tokens: the space ends the operator. */
  lemma ScanBangSpaceEqual(parse: string -> Option<Num>)
    ensures Scan("! =", parse) == Ok([Token(Bang, 1), Token(Equal, 1), Token(Eof, 1)])
  {
    var src := "! =";
    LineAtStart(src);
    LineAtFlat(src, 0, 3);
    OperatorLexeme(src, 0, parse);
    OperatorLexeme(src, 2, parse);
    ScanTwoTokens(src, parse, Token(Bang, 1), 1, Token(Equal, 1));
  }

  lemma OrchardLexeme(parse: string -> Option<Num>)
    ensures LexemeAt("orchard", 0, parse) == (Some(Ok(Token(Identifier("orchard"), 1))), 7)
  {
    var src := "orchard";
    LineAtStart(src);
    IdentifierLexeme(src, 0, parse);
    var next := LexemeAt(src, 0, parse).1;
    assert next == 7;
    assert src[0..7] == "orchard";
    assert "orchard" !in KeywordTable();
  }

  /** A maximal run of identifier characters that is not a keyword. */
  lemma ScanOrchard(parse: string -> Option<Num>)
    ensures Scan("orchard", parse) == Ok([Token(Identifier("orchard"), 1), Token(Eof, 1)])
  {
    LineAtStart("orchard");
    LineAtFlat("orchard", 0, 7);
    OrchardLexeme(parse);
    ScanOneToken("orchard", parse, Token(Identifier("orchard"), 1));
  }

  lemma PrintLexeme(parse: string -> Option<Num>)
    ensures LexemeAt("print", 0, parse) == (Some(Ok(Token(Identifier("print"), 1))), 5)
  {
    var src := "print";
    LineAtStart(src);
    IdentifierLexeme(src, 0, parse);
    assert LexemeAt(src, 0, parse).1 == 5;
    assert src[0..5] == "print";
    KeywordTableFacts();
  }

  /** `print` is not in the keyword table, so it scans as an identifier. */
  lemma ScanPrint(parse: string -> Option<Num>)
    ensures Scan("print", parse) == Ok([Token(Identifier("print"), 1), Token(Eof, 1)])
  {
    LineAtStart("print");
    LineAtFlat("print", 0, 5);
    PrintLexeme(parse);
    ScanOneToken("print", parse, Token(Identifier("print"), 1));
  }

  /** A comment that reaches the end of the source leaves its first `/` as a Slash token. */
  lemma ScanCommentToEnd(parse: string -> Option<Num>)
    ensures Scan("//x", parse) == Ok([Token(Slash, 1), Token(Eof, 1)])
  {
    var src := "//x";
    LineAtStart(src);
    LineAtFlat(src, 0, 3);
    CommentLexeme(src, 0, parse);
    ScanOneToken(src, parse, Token(Slash, 1));
  }

  /** A number keeps its digits and drops the `+` inside it: `1+2` is the one number text `12`. */
  lemma ScanNumberDropsOperator(parse: string -> Option<Num>, n: Num)
    requires parse("12") == Some(n)
    ensures Scan("1+2", parse) == Ok([Token(Number(n), 1), Token(Eof, 1)])
  {
    var src := "1+2";
    LineAtStart(src);
    LineAtFlat(src, 0, 3);
    NumberLexeme(src, 0, parse);
    assert LexemeAt(src, 0, parse).1 == 3;
    assert NumberChars(src[1..3]) == "2" by {
      assert src[1..3][..1] == "+";
      assert NumberChars("+") == [] by { assert "+"[..0] == []; }
    }
    assert [src[0]] + "2" == "12";
    ScanOneToken(src, parse, Token(Number(n), 1));
  }

  /** A source that is one lexeme, an error. */
  lemma ScanOneError(src: seq<char>, pos: nat, parse: string -> Option<Num>, e: ScannerError)
    requires pos < |src| && SpanEnd(src, 0, IsWhitespace) == pos
    requires LexemeAt(src, pos, parse) == (Some(Err(e)), |src|)
    ensures Scan(src, parse) == Err([e])
  {
    LoopStep(src, 0, pos, ([], []), parse, Some(Err(e)), |src|);
    assert Record(([], []), Some(Err(e))) == ([], [e]) by { assert [] + [e] == [e]; }
    LoopEnd(src, |src|, ([], [e]), parse);
  }

  /** An unclosed string is one error, at the line of its opening quote. */
  lemma ScanUnterminated(parse: string -> Option<Num>)
    ensures Scan("\n\"a\nb", parse) == Err([UnterminatedString(2)])
  {
    var src := "\n\"a\nb";
    LineAtStart(src);
    LineAtNext(src, 0);
    SpanEndAt(src, 0, 1, IsWhitespace);
    StringLexeme(src, 1, parse);
    ScanOneError(src, 1, parse, UnterminatedString(2));
  }

  /** The scanner keeps going after an error and reports every error, in order. */
  lemma ScanTwoErrors(parse: string -> Option<Num>)
    ensures Scan("@ #", parse) == Err([UnknownCharacter('@', 1), UnknownCharacter('#', 1)])
  {
    var src := "@ #";
    LineAtStart(src);
    LineAtFlat(src, 0, 3);
    var e1, e2 := UnknownCharacter('@', 1), UnknownCharacter('#', 1);
    UnknownLexeme(src, 0, parse);
    UnknownLexeme(src, 2, parse);
    LoopStep(src, 0, 0, ([], []), parse, Some(Err(e1)), 1);
    assert Record(([], []), Some(Err(e1))) == ([], [e1]) by { assert [] + [e1] == [e1]; }
    SpanEndAt(src, 1, 2, IsWhitespace);
    LoopStep(src, 1, 2, ([], [e1]), parse, Some(Err(e2)), 3);
    assert Record(([], [e1]), Some(Err(e2))) == ([], [e1, e2]) by { assert [e1] + [e2] == [e1, e2]; }
    LoopEnd(src, 3, ([], [e1, e2]), parse);
  }
}
