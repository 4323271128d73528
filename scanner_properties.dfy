/**
 * What the scanner promises as a whole: the shape of a successful token
 * list, the order of tokens and errors, line bookkeeping, and a few
 * concrete inputs.
 */
module ScannerProperties {
  import opened Wrappers
  import opened Tokens
  import opened Scanning

  /** The kinds the keyword table maps to. */
  predicate IsKeywordKind(k: TokenType)
  {
    k in {And, Class, Else, False, Fun, For, If, Nil, Or, Return, Super, This, True, Var, While}
  }

  /** Every word of the table maps to a keyword kind, and `print` is not one of its words. */
  lemma KeywordTableFacts()
    ensures forall w | w in KeywordTable() :: IsKeywordKind(KeywordTable()[w])
    ensures "print" !in KeywordTable()
  {
  }

  /**
   * The converse of SpanEndIsMaximal: a position that ends a run of
   * characters in `inRun` starting at `pos` is where SpanEnd stops.
   */
  lemma {:induction false} SpanEndAt(src: seq<char>, pos: nat, e: nat, inRun: char -> bool)
    requires pos <= e <= |src|
    requires forall k | pos <= k < e :: inRun(src[k])
    requires e == |src| || !inRun(src[e])
    ensures SpanEnd(src, pos, inRun) == e
    decreases e - pos
  {
    if pos < e {
      SpanEndAt(src, pos + 1, e, inRun);
    }
  }

  /** The line counter starts at 1. */
  lemma LineAtStart(src: seq<char>)
    ensures LineAt(src, 0) == 1
  {
    assert src[..0] == [];
  }

  /** Moving over characters that are not newlines leaves the line counter alone. */
  lemma {:induction false} LineAtFlat(src: seq<char>, p: nat, q: nat)
    requires p <= q <= |src|
    requires forall k | p <= k < q :: src[k] != '\n'
    ensures LineAt(src, q) == LineAt(src, p)
    decreases q - p
  {
    if p < q {
      LineAtNext(src, q - 1);
      LineAtFlat(src, p, q - 1);
    }
  }

  /** The line counter never decreases as the cursor moves forward. */
  lemma LineAtMonotone(src: seq<char>, p: nat, q: nat)
    requires p <= q <= |src|
    ensures LineAt(src, p) <= LineAt(src, q)
  {
    LineAtSplit(src, p, q);
  }

  /** After the whole source, the line counter is 1 plus its newline count. */
  lemma LineAtEnd(src: seq<char>)
    ensures LineAt(src, |src|) == 1 + Newlines(src)
  {
    assert src[..|src|] == src;
  }

  /**
   * One token scanned from `ch`: a token is never Eof and carries the line
   * where the token ends; an error carries a line between the lines where
   * the lexeme starts and ends.
   */
  lemma ScanTokenFacts(src: seq<char>, ch: char, q: nat, parse: string -> Option<Num>)
    requires q <= |src|
    ensures var s := ScanTokenFrom(src, ch, q, parse);
      && (s.out.Ok? ==> s.out.value.kind != Eof && s.out.value.line == LineAt(src, s.next))
      && (s.out.Err? ==> LineAt(src, q) <= s.out.error.Line() <= LineAt(src, s.next))
  {
    var s := ScanTokenFrom(src, ch, q, parse);
    LineAtMonotone(src, q, s.next);
    if SingleCharKind(ch).None? && OperatorKinds(ch).None? && ch != '"' && !IsDigit(ch)
       && (IsAlphabetic(ch) || ch == '_') {
      KeywordTableFacts();
    }
  }

  /**
   * One pass of the loop: a token is never Eof and carries the line at
   * the end of its lexeme; an error carries a line between the lines at
   * the start and at the end of its lexeme.
   */
  lemma LexemeFacts(src: seq<char>, p: nat, parse: string -> Option<Num>)
    requires p < |src|
    ensures var (out, next) := LexemeAt(src, p, parse);
      && (out.Some? && out.value.Ok? ==>
            out.value.value.kind != Eof && out.value.value.line == LineAt(src, next))
      && (out.Some? && out.value.Err? ==>
            LineAt(src, p) <= out.value.error.Line() <= LineAt(src, next))
  {
    var (skipped, q) := CommentFrom(src, src[p], p + 1);
    if !skipped {
      ScanTokenFacts(src, src[p], q, parse);
      LineAtMonotone(src, p, q);
    }
  }

  /**
   * The tokens the loop adds from `pos` on: what was collected before is
   * kept, the last token is the one Eof and carries the line at the end of
   * the source, and the new tokens' lines never decrease.
   */
  lemma {:induction false} ScanLoopTokens(src: seq<char>, pos: nat, acc: (seq<Token>, seq<ScannerError>),
                                          parse: string -> Option<Num>)
    requires pos <= |src|
    ensures var ts := ScanLoop(src, pos, acc, parse).0;
      && |acc.0| < |ts|
      && (forall i | 0 <= i < |acc.0| :: ts[i] == acc.0[i])
      && ts[|ts| - 1] == Token(Eof, LineAt(src, |src|))
      && (forall i | |acc.0| <= i < |ts| - 1 :: ts[i].kind != Eof)
      && (forall i | |acc.0| <= i < |ts| :: LineAt(src, pos) <= ts[i].line <= LineAt(src, |src|))
      && (forall i, j | |acc.0| <= i < j < |ts| :: ts[i].line <= ts[j].line)
    decreases |src| - pos
  {
    var p := SpanEnd(src, pos, IsWhitespace);
    LineAtMonotone(src, pos, p);
    if p < |src| {
      var (out, next) := LexemeAt(src, p, parse);
      LexemeFacts(src, p, parse);
      LineAtMonotone(src, p, next);
      ScanLoopTokens(src, next, Record(acc, out), parse);
    }
  }

  /**
   * The errors the loop adds from `pos` on: what was collected before is
   * kept, and the new errors' lines never decrease and lie within the lines
   * the loop passes over. Which errors they are, and in what order, is
   * ScanLoopCollects.
   */
  lemma {:induction false} ScanLoopErrors(src: seq<char>, pos: nat, acc: (seq<Token>, seq<ScannerError>),
                                          parse: string -> Option<Num>)
    requires pos <= |src|
    ensures var es := ScanLoop(src, pos, acc, parse).1;
      && |acc.1| <= |es|
      && (forall i | 0 <= i < |acc.1| :: es[i] == acc.1[i])
      && (forall i | |acc.1| <= i < |es| :: LineAt(src, pos) <= es[i].Line() <= LineAt(src, |src|))
      && (forall i, j | |acc.1| <= i < j < |es| :: es[i].Line() <= es[j].Line())
    decreases |src| - pos
  {
    var p := SpanEnd(src, pos, IsWhitespace);
    LineAtMonotone(src, pos, p);
    if p < |src| {
      var (out, next) := LexemeAt(src, p, parse);
      LexemeFacts(src, p, parse);
      LineAtMonotone(src, p, next);
      LineAtMonotone(src, next, |src|);
      ScanLoopErrors(src, next, Record(acc, out), parse);
    }
  }

  // ---------------------------------------------------------------------
  // The lexemes the loop visits, and what each of them contributes

  /**
   * Where the loop starts a lexeme from the cursor `pos` on: past the run of
   * whitespace, and again past each lexeme, until the end of the source.
   * The starts are characters that are not whitespace, in increasing order.
   */
  function Starts(src: seq<char>, pos: nat, parse: string -> Option<Num>): (s: seq<nat>)
    requires pos <= |src|
    ensures forall i | 0 <= i < |s| :: pos <= s[i] < |src| && !IsWhitespace(src[s[i]])
    ensures forall i, j | 0 <= i < j < |s| :: s[i] < s[j]
    decreases |src| - pos
  {
    var p := SpanEnd(src, pos, IsWhitespace);
    if p == |src| then []
    else
      SpanEndIsMaximal(src, pos, IsWhitespace);
      [p] + Starts(src, LexemeAt(src, p, parse).1, parse)
  }

  /** Every character from `a` up to `b` is whitespace. */
  predicate AllWhitespace(src: seq<char>, a: nat, b: nat)
    requires a <= b <= |src|
  {
    forall k | a <= k < b :: IsWhitespace(src[k])
  }

  /** Only whitespace lies between the cursor and the first start, or the end when there is none. */
  lemma StartsFirstGap(src: seq<char>, pos: nat, parse: string -> Option<Num>)
    requires pos <= |src|
    ensures var s := Starts(src, pos, parse);
      AllWhitespace(src, pos, if s == [] then |src| else s[0])
  {
    SpanEndIsMaximal(src, pos, IsWhitespace);
  }

  /** Only whitespace lies after the last lexeme at Starts. */
  lemma {:induction false} StartsLastGap(src: seq<char>, pos: nat, parse: string -> Option<Num>)
    requires pos <= |src| && Starts(src, pos, parse) != []
    ensures var s := Starts(src, pos, parse);
      AllWhitespace(src, LexemeAt(src, s[|s| - 1], parse).1, |src|)
    decreases |src| - pos
  {
    var p := SpanEnd(src, pos, IsWhitespace);
    var next := LexemeAt(src, p, parse).1;
    var rest := Starts(src, next, parse);
    assert Starts(src, pos, parse) == [p] + rest;
    if rest == [] {
      StartsFirstGap(src, next, parse);
    } else {
      StartsLastGap(src, next, parse);
    }
  }

  /** The lexeme at `a` ends at or before `b`, with only whitespace in between. */
  ghost predicate GapBefore(src: seq<char>, a: nat, b: nat, parse: string -> Option<Num>)
    requires a < |src| && b <= |src|
  {
    LexemeAt(src, a, parse).1 <= b && AllWhitespace(src, LexemeAt(src, a, parse).1, b)
  }

  /** Gaps after each start but the last, for `p` in front of `rest`. */
  lemma GapsCons(src: seq<char>, p: nat, rest: seq<nat>, parse: string -> Option<Num>)
    requires p < |src| && forall i | 0 <= i < |rest| :: rest[i] < |src|
    requires rest != [] ==> GapBefore(src, p, rest[0], parse)
    requires forall i | 0 <= i < |rest| - 1 :: GapBefore(src, rest[i], rest[i + 1], parse)
    ensures var s := [p] + rest;
      forall i | 0 <= i < |s| - 1 :: GapBefore(src, s[i], s[i + 1], parse)
  {
    var s := [p] + rest;
    forall i | 0 <= i < |s| - 1
      ensures GapBefore(src, s[i], s[i + 1], parse)
    {
      if i > 0 {
        var j := i - 1;
        assert s[i] == rest[j] && s[i + 1] == rest[j + 1];
      }
    }
  }

  /** Each lexeme at Starts ends at or before the next start, with only whitespace in between. */
  lemma {:induction false} StartsGaps(src: seq<char>, pos: nat, parse: string -> Option<Num>)
    requires pos <= |src|
    ensures var s := Starts(src, pos, parse);
      forall i | 0 <= i < |s| - 1 :: GapBefore(src, s[i], s[i + 1], parse)
    decreases |src| - pos
  {
    var p := SpanEnd(src, pos, IsWhitespace);
    if p < |src| {
      var next := LexemeAt(src, p, parse).1;
      var rest := Starts(src, next, parse);
      assert Starts(src, pos, parse) == [p] + rest;
      StartsFirstGap(src, next, parse);
      StartsGaps(src, next, parse);
      GapsCons(src, p, rest, parse);
    }
  }

  /**
   * The loop reads the whole source: the lexemes at Starts follow one
   * another without overlapping, and only whitespace lies before, between
   * and after them.
   */
  lemma StartsTile(src: seq<char>, pos: nat, parse: string -> Option<Num>)
    requires pos <= |src|
    ensures var s := Starts(src, pos, parse);
      && (s == [] ==> AllWhitespace(src, pos, |src|))
      && (s != [] ==> AllWhitespace(src, pos, s[0]) && AllWhitespace(src, LexemeAt(src, s[|s| - 1], parse).1, |src|))
      && (forall i | 0 <= i < |s| - 1 :: GapBefore(src, s[i], s[i + 1], parse))
  {
    StartsFirstGap(src, pos, parse);
    if Starts(src, pos, parse) != [] {
      StartsLastGap(src, pos, parse);
    }
    StartsGaps(src, pos, parse);
  }

  /** A pass that reported an error. */
  predicate Failed(out: Option<Result<Token, ScannerError>>)
  {
    out.Some? && out.value.Err?
  }

  /** The token a pass contributes: its token, or nothing. */
  function TokenOf(out: Option<Result<Token, ScannerError>>): (ts: seq<Token>)
    ensures |ts| <= 1
  {
    if out.Some? && out.value.Ok? then [out.value.value] else []
  }

  /** The error a pass contributes: its error, or nothing. */
  function ErrorOf(out: Option<Result<Token, ScannerError>>): (es: seq<ScannerError>)
    ensures es != [] <==> Failed(out)
  {
    if Failed(out) then [out.value.error] else []
  }

  /** The tokens of the lexemes at `starts`, in the order of `starts`. */
  function LexemeTokens(src: seq<char>, starts: seq<nat>, parse: string -> Option<Num>): (ts: seq<Token>)
    requires forall i | 0 <= i < |starts| :: starts[i] < |src|
    ensures |ts| <= |starts|
  {
    if starts == [] then []
    else TokenOf(LexemeAt(src, starts[0], parse).0) + LexemeTokens(src, starts[1..], parse)
  }

  /** The errors of the lexemes at `starts`, in the order of `starts`. */
  function LexemeErrors(src: seq<char>, starts: seq<nat>, parse: string -> Option<Num>): (es: seq<ScannerError>)
    requires forall i | 0 <= i < |starts| :: starts[i] < |src|
    ensures |es| <= |starts|
  {
    if starts == [] then []
    else ErrorOf(LexemeAt(src, starts[0], parse).0) + LexemeErrors(src, starts[1..], parse)
  }

  /** The lexemes at `starts` report no error exactly when none of them failed. */
  lemma {:induction false} LexemeErrorsNone(src: seq<char>, starts: seq<nat>, parse: string -> Option<Num>)
    requires forall i | 0 <= i < |starts| :: starts[i] < |src|
    ensures LexemeErrors(src, starts, parse) == [] <==>
      forall i | 0 <= i < |starts| :: !Failed(LexemeAt(src, starts[i], parse).0)
  {
    if starts != [] {
      var rest := starts[1..];
      LexemeErrorsNone(src, rest, parse);
      if LexemeErrors(src, starts, parse) == [] {
        forall i | 0 <= i < |starts|
          ensures !Failed(LexemeAt(src, starts[i], parse).0)
        {
          if i > 0 {
            assert starts[i] == rest[i - 1];
          }
        }
      } else if !Failed(LexemeAt(src, starts[0], parse).0) {
        var i :| 0 <= i < |rest| && Failed(LexemeAt(src, rest[i], parse).0);
        assert starts[i + 1] == rest[i];
      }
    }
  }

  /** One pass adds its token to the tokens and its error to the errors. */
  lemma RecordSplit(acc: (seq<Token>, seq<ScannerError>), out: Option<Result<Token, ScannerError>>)
    ensures Record(acc, out) == (acc.0 + TokenOf(out), acc.1 + ErrorOf(out))
  {
    assert acc.0 + [] == acc.0 && acc.1 + [] == acc.1;
  }

  /** One more start in front adds its lexeme's token and error in front. */
  lemma LexemesCons(src: seq<char>, p: nat, rest: seq<nat>, parse: string -> Option<Num>)
    requires p < |src| && forall i | 0 <= i < |rest| :: rest[i] < |src|
    ensures var out := LexemeAt(src, p, parse).0;
      && LexemeTokens(src, [p] + rest, parse) == TokenOf(out) + LexemeTokens(src, rest, parse)
      && LexemeErrors(src, [p] + rest, parse) == ErrorOf(out) + LexemeErrors(src, rest, parse)
  {
    assert ([p] + rest)[0] == p && ([p] + rest)[1..] == rest;
  }

  /**
   * The loop from `pos` keeps going after a failed pass: it adds the token
   * of every lexeme at Starts, in order, then Eof, and the error of every
   * lexeme at Starts, in order.
   */
  lemma {:induction false} ScanLoopCollects(src: seq<char>, pos: nat, acc: (seq<Token>, seq<ScannerError>),
                                            parse: string -> Option<Num>)
    requires pos <= |src|
    ensures var starts := Starts(src, pos, parse);
      ScanLoop(src, pos, acc, parse)
        == (acc.0 + LexemeTokens(src, starts, parse) + [Token(Eof, LineAt(src, |src|))],
            acc.1 + LexemeErrors(src, starts, parse))
    decreases |src| - pos
  {
    var p := SpanEnd(src, pos, IsWhitespace);
    if p == |src| {
      assert acc.0 + [] == acc.0 && acc.1 + [] == acc.1;
    } else {
      var lexeme := LexemeAt(src, p, parse);
      var after := Record(acc, lexeme.0);
      var rest := Starts(src, lexeme.1, parse);
      assert ScanLoop(src, pos, acc, parse) == ScanLoop(src, lexeme.1, after, parse);
      assert Starts(src, pos, parse) == [p] + rest;
      ScanLoopCollects(src, lexeme.1, after, parse);
      assert after == (acc.0 + TokenOf(lexeme.0), acc.1 + ErrorOf(lexeme.0)) by {
        RecordSplit(acc, lexeme.0);
      }
      LexemesCons(src, p, rest, parse);
      Regroup(acc.0, TokenOf(lexeme.0), LexemeTokens(src, rest, parse), [Token(Eof, LineAt(src, |src|))]);
      Regroup(acc.1, ErrorOf(lexeme.0), LexemeErrors(src, rest, parse), []);
      assert acc.1 + ErrorOf(lexeme.0) + LexemeErrors(src, rest, parse) + [] == acc.1 + ErrorOf(lexeme.0) + LexemeErrors(src, rest, parse);
      var r := ScanLoop(src, pos, acc, parse);
      assert r.0 == acc.0 + TokenOf(lexeme.0) + LexemeTokens(src, rest, parse) + [Token(Eof, LineAt(src, |src|))];
      assert r.0 == acc.0 + LexemeTokens(src, [p] + rest, parse) + [Token(Eof, LineAt(src, |src|))];
      assert r.1 == acc.1 + ErrorOf(lexeme.0) + LexemeErrors(src, rest, parse);
      assert r.1 == acc.1 + LexemeErrors(src, [p] + rest, parse);
    }
  }

  lemma Regroup<T>(a: seq<T>, b: seq<T>, c: seq<T>, d: seq<T>)
    ensures a + b + c + d == a + (b + c) + d
  {
  }

  /**
   * A failed pass reports the line its lexeme starts on: an unknown
   * character and an unparseable number on their own line, an unterminated
   * string on the line of its opening quote.
   */
  lemma LexemeErrorLine(src: seq<char>, p: nat, parse: string -> Option<Num>)
    requires p < |src| && !IsWhitespace(src[p])
    ensures var out := LexemeAt(src, p, parse).0;
      Failed(out) ==> out.value.error.Line() == LineAt(src, p)
  {
    var c := src[p];
    if c == '/' && p + 1 < |src| && src[p + 1] == '/' {
      CommentLexeme(src, p, parse);
    } else if SingleCharKind(c).Some? {
      SingleCharLexeme(src, p, parse);
    } else if OperatorKinds(c).Some? {
      OperatorLexeme(src, p, parse);
    } else if c == '"' {
      StringLexeme(src, p, parse);
    } else if IsDigit(c) {
      NumberLexeme(src, p, parse);
    } else if IsAlphabetic(c) || c == '_' {
      IdentifierLexeme(src, p, parse);
    } else {
      UnknownLexeme(src, p, parse);
    }
  }

  /**
   * scan_tokens keeps going after a failed lexeme and reports every
   * failure: it fails exactly when some lexeme it visits fails, and then
   * returns the error of every failed lexeme, in source order. Otherwise it
   * returns the token of every lexeme, in source order, then Eof.
   */
  lemma ScanCollects(src: seq<char>, parse: string -> Option<Num>)
    ensures var starts := Starts(src, 0, parse);
      Scan(src, parse).Err? <==> exists i | 0 <= i < |starts| :: Failed(LexemeAt(src, starts[i], parse).0)
    ensures match Scan(src, parse)
      case Ok(ts) => ts == LexemeTokens(src, Starts(src, 0, parse), parse) + [Token(Eof, 1 + Newlines(src))]
      case Err(es) => es == LexemeErrors(src, Starts(src, 0, parse), parse)
  {
    VerdictCollects(src, 0, parse);
    LineAtEnd(src);
  }

  /** ScanCollects for the loop started at any cursor. */
  lemma VerdictCollects(src: seq<char>, pos: nat, parse: string -> Option<Num>)
    requires pos <= |src|
    ensures var starts := Starts(src, pos, parse);
      (Verdict(ScanLoop(src, pos, ([], []), parse)).Err? <==>
       exists i | 0 <= i < |starts| :: Failed(LexemeAt(src, starts[i], parse).0))
    ensures match Verdict(ScanLoop(src, pos, ([], []), parse))
      case Ok(ts) => ts == LexemeTokens(src, Starts(src, pos, parse), parse) + [Token(Eof, LineAt(src, |src|))]
      case Err(es) => es == LexemeErrors(src, Starts(src, pos, parse), parse)
  {
    ScanLoopCollects(src, pos, ([], []), parse);
    assert [] + LexemeTokens(src, Starts(src, pos, parse), parse) == LexemeTokens(src, Starts(src, pos, parse), parse);
    assert [] + LexemeErrors(src, Starts(src, pos, parse), parse) == LexemeErrors(src, Starts(src, pos, parse), parse);
    LexemeErrorsNone(src, Starts(src, pos, parse), parse);
  }

  /**
   * scan_tokens returns either the tokens or the errors, never both. A
   * token list ends with exactly one Eof, on line 1 plus the number of
   * newlines in the source, and its lines start at 1 and never decrease.
   * An error batch is never empty, and its lines lie within the source's
   * and never decrease.
   */
  lemma ScanResult(src: seq<char>, parse: string -> Option<Num>)
    ensures match Scan(src, parse)
      case Ok(ts) =>
        && |ts| >= 1
        && ts[|ts| - 1] == Token(Eof, 1 + Newlines(src))
        && (forall i | 0 <= i < |ts| - 1 :: ts[i].kind != Eof)
        && (forall i | 0 <= i < |ts| :: 1 <= ts[i].line <= 1 + Newlines(src))
        && (forall i, j | 0 <= i < j < |ts| :: ts[i].line <= ts[j].line)
      case Err(es) =>
        && es != []
        && (forall i | 0 <= i < |es| :: 1 <= es[i].Line() <= 1 + Newlines(src))
        && (forall i, j | 0 <= i < j < |es| :: es[i].Line() <= es[j].Line())
  {
    ScanLoopTokens(src, 0, ([], []), parse);
    ScanLoopErrors(src, 0, ([], []), parse);
    LineAtEnd(src);
    assert src[..0] == [];
  }

  // ---------------------------------------------------------------------
  // One lexeme, by its first character

  /** A character that is a token on its own (a `/` not followed by `/`) is one token on the current line. */
  lemma SingleCharLexeme(src: seq<char>, p: nat, parse: string -> Option<Num>)
    requires p < |src| && SingleCharKind(src[p]).Some?
    requires !(src[p] == '/' && p + 1 < |src| && src[p + 1] == '/')
    ensures LexemeAt(src, p, parse) == (Some(Ok(Token(SingleCharKind(src[p]).value, LineAt(src, p)))), p + 1)
  {
    LineAtNext(src, p);
  }

  /**
   * `!`, `=`, `<` or `>` followed by `=` is one compound token that takes
   * both characters; otherwise it is the one-character token and the next
   * character is left unread.
   */
  lemma OperatorLexeme(src: seq<char>, p: nat, parse: string -> Option<Num>)
    requires p < |src| && OperatorKinds(src[p]).Some?
    ensures var (one, two) := OperatorKinds(src[p]).value;
      if p + 1 < |src| && src[p + 1] == '=' then
        LexemeAt(src, p, parse) == (Some(Ok(Token(two, LineAt(src, p)))), p + 2)
      else
        LexemeAt(src, p, parse) == (Some(Ok(Token(one, LineAt(src, p)))), p + 1)
  {
    LineAtNext(src, p);
    if p + 1 < |src| {
      LineAtNext(src, p + 1);
    }
  }

  /**
   * `//` discards through the next newline and yields nothing. With no
   * newline left, the rest of the source is discarded and the first `/`
   * is scanned as Slash on the current line.
   */
  lemma CommentLexeme(src: seq<char>, p: nat, parse: string -> Option<Num>)
    requires p + 1 < |src| && src[p] == '/' && src[p + 1] == '/'
    ensures var (out, next) := LexemeAt(src, p, parse);
      && (out.None? ==>
            && p + 2 < next && src[next - 1] == '\n'
            && forall k | p + 2 <= k < next - 1 :: src[k] != '\n')
      && (out.Some? ==>
            && out == Some(Ok(Token(Slash, LineAt(src, p)))) && next == |src|
            && forall k | p + 2 <= k < |src| :: src[k] != '\n')
  {
    var k := SpanEnd(src, p + 2, InComment);
    SpanEndIsMaximal(src, p + 2, InComment);
    if k == |src| {
      LineAtFlat(src, p, |src|);
    }
  }

  /**
   * A string is the raw characters up to the next `"`, with no escapes,
   * and carries the line at its closing quote. With no closing quote left,
   * the rest of the source is consumed and the error carries the line of
   * the opening quote.
   */
  lemma StringLexeme(src: seq<char>, p: nat, parse: string -> Option<Num>)
    requires p < |src| && src[p] == '"'
    ensures var (out, next) := LexemeAt(src, p, parse);
      && out.Some?
      && (out.value.Ok? ==>
            && p + 1 < next && src[next - 1] == '"'
            && (forall k | p + 1 <= k < next - 1 :: src[k] != '"')
            && out.value.value == Token(LoxString(src[p + 1..next - 1]), LineAt(src, next)))
      && (out.value.Err? ==>
            && next == |src|
            && (forall k | p + 1 <= k < |src| :: src[k] != '"')
            && out.value.error == UnterminatedString(LineAt(src, p)))
  {
    SpanEndIsMaximal(src, p + 1, InString);
    LineAtNext(src, p);
  }

  /**
   * A number runs from its digit up to the next whitespace, which is left
   * unread; its text is the digit and the `.` and alphanumeric characters
   * of the run, and it is a Number token or an UnparseableDigit error on
   * the line it starts on.
   */
  lemma NumberLexeme(src: seq<char>, p: nat, parse: string -> Option<Num>)
    requires p < |src| && IsDigit(src[p])
    ensures var (out, next) := LexemeAt(src, p, parse);
      var text := [src[p]] + NumberChars(src[p + 1..next]);
      && p < next
      && (forall k | p < k < next :: !IsWhitespace(src[k]))
      && (next == |src| || IsWhitespace(src[next]))
      && out == Some(match parse(text)
                     case Some(n) => Ok(Token(Number(n), LineAt(src, p)))
                     case None => Err(UnparseableDigit(text, LineAt(src, p))))
  {
    assert LexemeAt(src, p, parse).1 == NumberFrom(src, src[p], p + 1, parse).next;
    var next := SpanEnd(src, p + 1, InNumber);
    SpanEndIsMaximal(src, p + 1, InNumber);
    LineAtFlat(src, p, next);
  }

  /**
   * An identifier is the longest run of letters, digits and `_` from its
   * first character; the whole run is looked up in the keyword table.
   */
  lemma IdentifierLexeme(src: seq<char>, p: nat, parse: string -> Option<Num>)
    requires p < |src| && (IsAlphabetic(src[p]) || src[p] == '_')
    ensures var (out, next) := LexemeAt(src, p, parse);
      var word := src[p..next];
      && p < next
      && (forall k | p <= k < next :: IsIdentifierChar(src[k]))
      && (next == |src| || !IsIdentifierChar(src[next]))
      && out == Some(Ok(Token(if word in KeywordTable() then KeywordTable()[word] else Identifier(word),
                              LineAt(src, p))))
  {
    var next := SpanEnd(src, p + 1, IsIdentifierChar);
    SpanEndIsMaximal(src, p + 1, IsIdentifierChar);
    assert [src[p]] + src[p + 1..next] == src[p..next];
    LineAtFlat(src, p, next);
  }

  /** Any other character is an UnknownCharacter error on the current line. */
  lemma UnknownLexeme(src: seq<char>, p: nat, parse: string -> Option<Num>)
    requires p < |src| && !IsWhitespace(src[p])
    requires SingleCharKind(src[p]).None? && OperatorKinds(src[p]).None?
    requires src[p] != '"' && !IsDigit(src[p]) && !IsAlphabetic(src[p]) && src[p] != '_'
    ensures LexemeAt(src, p, parse) == (Some(Err(UnknownCharacter(src[p], LineAt(src, p)))), p + 1)
  {
    LineAtNext(src, p);
  }

  /** Every character of a number's text is `.` or alphanumeric. */
  lemma {:induction false} NumberCharsKept(s: seq<char>)
    ensures forall k | 0 <= k < |NumberChars(s)| :: IsNumberChar(NumberChars(s)[k])
  {
    if s != [] {
      NumberCharsKept(s[..|s| - 1]);
    }
  }

  /** A run of `.` and alphanumeric characters is kept whole. */
  lemma {:induction false} NumberCharsAll(s: seq<char>)
    requires forall k | 0 <= k < |s| :: IsNumberChar(s[k])
    ensures NumberChars(s) == s
  {
    if s != [] {
      NumberCharsAll(s[..|s| - 1]);
    }
  }
}
