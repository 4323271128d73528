/**
 * The scanner: turns a character sequence into tokens, or into the whole
 * batch of lexical errors.
 *
 * The pure functions below specify each scanning routine on (source,
 * cursor). The class Scanner runs the same routines step by step over a
 * cursor and a mutable line counter, and each of its methods is proved to
 * leave the cursor where the matching function says and to return what it
 * says. The line counter is always 1 plus the number of newlines already
 * consumed (LineAt), so a token's line is fixed by where the token ends.
 */
module Scanning {
  import opened Wrappers
  import opened Tokens

  /** The three lexical errors; each carries the line it is reported at. */
  datatype ScannerError =
    | UnknownCharacter(c: char, line: nat)
    | UnterminatedString(line: nat)
    | UnparseableDigit(text: string, line: nat)
  {
    /** The line an error is reported at. */
    function Line(): nat
    {
      line
    }
  }

  // ---------------------------------------------------------------------
  // Character classes

  /** Unicode White_Space, the set Rust's char::is_whitespace accepts. */
  predicate IsWhitespace(c: char)
  {
    || ('\t' <= c <= '\r') || c == ' ' || c == '\U{85}' || c == '\U{A0}'
    || c == '\U{1680}' || ('\U{2000}' <= c <= '\U{200A}') || c == '\U{2028}'
    || c == '\U{2029}' || c == '\U{202F}' || c == '\U{205F}' || c == '\U{3000}'
  }

  /** char::is_digit(10). */
  predicate IsDigit(c: char)
  {
    '0' <= c <= '9'
  }

  /** char::is_alphabetic, restricted to ASCII letters. */
  predicate IsAlphabetic(c: char)
  {
    'a' <= c <= 'z' || 'A' <= c <= 'Z'
  }

  /** char::is_alphanumeric, restricted to ASCII. */
  predicate IsAlphanumeric(c: char)
  {
    IsAlphabetic(c) || IsDigit(c)
  }

  /** Characters that continue an identifier. */
  predicate IsIdentifierChar(c: char)
  {
    IsAlphabetic(c) || c == '_' || IsDigit(c)
  }

  /** Characters a number literal keeps in its text. */
  predicate IsNumberChar(c: char)
  {
    c == '.' || IsAlphanumeric(c)
  }

  /** Characters a line comment runs over before its newline. */
  predicate InComment(c: char)
  {
    c != '\n'
  }

  /** Characters a string body runs over before its closing quote. */
  predicate InString(c: char)
  {
    c != '"'
  }

  /** Characters a number runs over: it stops only at whitespace. */
  predicate InNumber(c: char)
  {
    !IsWhitespace(c)
  }

  // ---------------------------------------------------------------------
  // Lines

  /** How many newline characters `s` holds. */
  function Newlines(s: seq<char>): nat
  {
    if s == [] then 0 else (if s[0] == '\n' then 1 else 0) + Newlines(s[1..])
  }

  lemma {:induction false} NewlinesAppend(a: seq<char>, b: seq<char>)
    ensures Newlines(a + b) == Newlines(a) + Newlines(b)
  {
    if a == [] {
      assert a + b == b;
    } else {
      assert (a + b)[1..] == a[1..] + b;
      NewlinesAppend(a[1..], b);
    }
  }

  /** The value of the line counter once the cursor is at `pos`. */
  function LineAt(src: seq<char>, pos: nat): nat
    requires pos <= |src|
  {
    1 + Newlines(src[..pos])
  }

  lemma LineAtNext(src: seq<char>, p: nat)
    requires p < |src|
    ensures LineAt(src, p + 1) == LineAt(src, p) + (if src[p] == '\n' then 1 else 0)
  {
    assert src[..p + 1] == src[..p] + [src[p]];
    NewlinesAppend(src[..p], [src[p]]);
  }

  /** The line counter only rises, by the newlines between two positions. */
  lemma LineAtSplit(src: seq<char>, p: nat, q: nat)
    requires p <= q <= |src|
    ensures LineAt(src, q) == LineAt(src, p) + Newlines(src[p..q])
  {
    assert src[..q] == src[..p] + src[p..q];
    NewlinesAppend(src[..p], src[p..q]);
  }

  // ---------------------------------------------------------------------
  // Runs of characters

  /**
   * The first position at or after `pos` whose character is not in the
   * run, or the end of the source.
   */
  function SpanEnd(src: seq<char>, pos: nat, inRun: char -> bool): (e: nat)
    requires pos <= |src|
    ensures pos <= e <= |src|
    decreases |src| - pos
  {
    if pos < |src| && inRun(src[pos]) then SpanEnd(src, pos + 1, inRun) else pos
  }

  /** SpanEnd ends the longest run: every character before it is in the run, the one at it is not. */
  lemma {:induction false} SpanEndIsMaximal(src: seq<char>, pos: nat, inRun: char -> bool)
    requires pos <= |src|
    ensures var e := SpanEnd(src, pos, inRun);
      && (forall k | pos <= k < e :: inRun(src[k]))
      && (e < |src| ==> !inRun(src[e]))
    decreases |src| - pos
  {
    if pos < |src| && inRun(src[pos]) {
      SpanEndIsMaximal(src, pos + 1, inRun);
    }
  }

  /** The characters of `s` that a number literal keeps, in order. */
  function NumberChars(s: seq<char>): (t: seq<char>)
    ensures |t| <= |s|
  {
    if s == [] then []
    else
      var last := s[|s| - 1];
      NumberChars(s[..|s| - 1]) + (if IsNumberChar(last) then [last] else [])
  }

  lemma NumberCharsSnoc(s: seq<char>, c: char)
    ensures NumberChars(s + [c]) == NumberChars(s) + (if IsNumberChar(c) then [c] else [])
  {
    assert (s + [c])[..|s|] == s;
  }

  /** One pass of the number loop over a character that is not whitespace. */
  lemma NumberStep(src: seq<char>, start: nat, p: nat, ch: char)
    requires start <= p < |src| && InNumber(src[p])
    ensures [ch] + NumberChars(src[start..p + 1])
         == [ch] + NumberChars(src[start..p]) + (if IsNumberChar(src[p]) then [src[p]] else [])
    ensures SpanEnd(src, p + 1, InNumber) == SpanEnd(src, p, InNumber)
  {
    assert src[start..p + 1] == src[start..p] + [src[p]];
    NumberCharsSnoc(src[start..p], src[p]);
  }

  // ---------------------------------------------------------------------
  // Tables

  /** The kind of each character that is always a token on its own. */
  function SingleCharKind(c: char): Option<TokenType>
  {
    match c
    case '(' => Some(LeftParen)
    case ')' => Some(RightParen)
    case '{' => Some(LeftBrace)
    case '}' => Some(RightBrace)
    case ',' => Some(Comma)
    case '.' => Some(Dot)
    case '-' => Some(Minus)
    case '+' => Some(Plus)
    case ';' => Some(Semicolon)
    case '*' => Some(Star)
    case '/' => Some(Slash)
    case _ => None
  }

  /** The one-character and the `=`-suffixed kinds of `!`, `=`, `<` and `>`. */
  function OperatorKinds(c: char): Option<(TokenType, TokenType)>
  {
    match c
    case '!' => Some((Bang, BangEqual))
    case '=' => Some((Equal, EqualEqual))
    case '<' => Some((Less, LessEqual))
    case '>' => Some((Greater, GreaterEqual))
    case _ => None
  }

  /** The reserved words the scanner recognises (the word print is not one). */
  function KeywordTable(): map<string, TokenType>
  {
    map[
      "or" := Or, "and" := And, "if" := If, "else" := Else, "var" := Var,
      "for" := For, "while" := While, "fun" := Fun, "class" := Class,
      "super" := Super, "this" := This, "return" := Return, "true" := True,
      "false" := False, "nil" := Nil
    ]
  }

  // ---------------------------------------------------------------------
  // The scanning routines as functions of (source, cursor)

  /** What a scanning routine yields and where it leaves the cursor. */
  datatype Step = Step(out: Result<Token, ScannerError>, next: nat)

  /** skip_comments after `ch` was read, with the cursor at `q`. */
  function CommentFrom(src: seq<char>, ch: char, q: nat): (r: (bool, nat))
    requires q <= |src|
    ensures q <= r.1 <= |src|
  {
    if ch == '/' && q < |src| && src[q] == '/' then
      var k := SpanEnd(src, q, InComment);
      if k < |src| then (true, k + 1) else (false, |src|)
    else (false, q)
  }

  /** scan_operator with the cursor at `q`. */
  function OperatorFrom(src: seq<char>, one: TokenType, two: TokenType, q: nat): (s: Step)
    requires q <= |src|
    ensures q <= s.next <= |src|
  {
    if q < |src| && src[q] == '=' then Step(Ok(Token(two, LineAt(src, q + 1))), q + 1)
    else Step(Ok(Token(one, LineAt(src, q))), q)
  }

  /** parse_string with the cursor just after the opening quote. */
  function StringFrom(src: seq<char>, q: nat): (s: Step)
    requires q <= |src|
    ensures q <= s.next <= |src|
  {
    var k := SpanEnd(src, q, InString);
    if k < |src| then Step(Ok(Token(LoxString(src[q..k]), LineAt(src, k + 1))), k + 1)
    else Step(Err(UnterminatedString(LineAt(src, q))), |src|)
  }

  /** parse_number after the digit `ch` was read, with the cursor at `q`. */
  function NumberFrom(src: seq<char>, ch: char, q: nat, parse: string -> Option<Num>): (s: Step)
    requires q <= |src|
    ensures q <= s.next <= |src|
  {
    var e := SpanEnd(src, q, InNumber);
    var text := [ch] + NumberChars(src[q..e]);
    match parse(text)
    case Some(n) => Step(Ok(Token(Number(n), LineAt(src, e))), e)
    case None => Step(Err(UnparseableDigit(text, LineAt(src, e))), e)
  }

  /** parse_identifier after `ch` was read, with the cursor at `q`. */
  function IdentifierFrom(src: seq<char>, ch: char, q: nat): (s: Step)
    requires q <= |src|
    ensures q <= s.next <= |src|
  {
    var e := SpanEnd(src, q, IsIdentifierChar);
    var word := [ch] + src[q..e];
    var kind := if word in KeywordTable() then KeywordTable()[word] else Identifier(word);
    Step(Ok(Token(kind, LineAt(src, e))), e)
  }

  /** A string whose closing quote is at `k`. */
  lemma StringClosed(src: seq<char>, q: nat, k: nat)
    requires q <= k < |src| && src[k] == '"'
    requires SpanEnd(src, k, InString) == SpanEnd(src, q, InString)
    ensures StringFrom(src, q) == Step(Ok(Token(LoxString(src[q..k]), LineAt(src, k + 1))), k + 1)
  {
    assert SpanEnd(src, k, InString) == k;
  }

  /** A string that runs to the end of the source. */
  lemma StringUnclosed(src: seq<char>, q: nat)
    requires q <= |src| && SpanEnd(src, |src|, InString) == SpanEnd(src, q, InString)
    ensures StringFrom(src, q) == Step(Err(UnterminatedString(LineAt(src, q))), |src|)
  {
  }

  /** scan_token after `ch` was read, with the cursor at `q`. */
  function ScanTokenFrom(src: seq<char>, ch: char, q: nat, parse: string -> Option<Num>): (s: Step)
    requires q <= |src|
    ensures q <= s.next <= |src|
  {
    match SingleCharKind(ch)
    case Some(kind) => Step(Ok(Token(kind, LineAt(src, q))), q)
    case None =>
      match OperatorKinds(ch)
      case Some(kinds) => OperatorFrom(src, kinds.0, kinds.1, q)
      case None =>
        if ch == '"' then StringFrom(src, q)
        else if IsDigit(ch) then NumberFrom(src, ch, q, parse)
        else if IsAlphabetic(ch) || ch == '_' then IdentifierFrom(src, ch, q)
        else Step(Err(UnknownCharacter(ch, LineAt(src, q))), q)
  }

  /**
   * One pass of the scanning loop from a position holding a character that
   * is not whitespace: a skipped comment (None) or one token or error,
   * and the position after it.
   */
  function LexemeAt(src: seq<char>, p: nat, parse: string -> Option<Num>)
    : (r: (Option<Result<Token, ScannerError>>, nat))
    requires p < |src|
    ensures p < r.1 <= |src|
  {
    var ch := src[p];
    var (skipped, q) := CommentFrom(src, ch, p + 1);
    if skipped then (None, q)
    else
      var s := ScanTokenFrom(src, ch, q, parse);
      (Some(s.out), s.next)
  }

  /** The collected tokens and errors after one more pass of the loop. */
  function Record(acc: (seq<Token>, seq<ScannerError>), out: Option<Result<Token, ScannerError>>)
    : (seq<Token>, seq<ScannerError>)
  {
    match out
    case None => acc
    case Some(Ok(t)) => (acc.0 + [t], acc.1)
    case Some(Err(e)) => (acc.0, acc.1 + [e])
  }

  /**
   * The loop of scan_tokens from the cursor `pos`, with `acc` collected so
   * far: skip whitespace, then stop with Eof at the end of the source or
   * make one more pass.
   */
  function ScanLoop(src: seq<char>, pos: nat, acc: (seq<Token>, seq<ScannerError>),
                    parse: string -> Option<Num>): (seq<Token>, seq<ScannerError>)
    requires pos <= |src|
    decreases |src| - pos, 1
  {
    var p := SpanEnd(src, pos, IsWhitespace);
    if p == |src| then (acc.0 + [Token(Eof, LineAt(src, p))], acc.1)
    else PassAt(src, p, acc, parse)
  }

  /** One pass of the loop from a character that is not whitespace, then the rest of the loop. */
  function PassAt(src: seq<char>, p: nat, acc: (seq<Token>, seq<ScannerError>),
                  parse: string -> Option<Num>): (seq<Token>, seq<ScannerError>)
    requires p < |src|
    decreases |src| - p, 0
  {
    var lexeme := LexemeAt(src, p, parse);
    ScanLoop(src, lexeme.1, Record(acc, lexeme.0), parse)
  }

  /** Errors win: any error makes the whole result the error batch. */
  function Verdict(collected: (seq<Token>, seq<ScannerError>)): Result<seq<Token>, seq<ScannerError>>
  {
    if collected.1 != [] then Err(collected.1) else Ok(collected.0)
  }

  /** scan_tokens on a fresh scanner over `src`. */
  function Scan(src: seq<char>, parse: string -> Option<Num>): Result<seq<Token>, seq<ScannerError>>
  {
    Verdict(ScanLoop(src, 0, ([], []), parse))
  }

  // ---------------------------------------------------------------------
  // The scanner object

  class Scanner {
    const source: seq<char>
    /** Stands in for str::parse::<f64>, which this model does not define. */
    const parseNumber: string -> Option<Num>
    /** The cursor: source[pos..] is what the character iterator has left. */
    var pos: nat
    var line: nat
    const keywords: map<string, TokenType>

    ghost predicate Valid()
      reads this
    {
      pos <= |source| && line == LineAt(source, pos) && keywords == KeywordTable()
    }

    constructor (source: seq<char>, parseNumber: string -> Option<Num>)
      ensures Valid()
      ensures this.source == source && this.parseNumber == parseNumber
      ensures pos == 0 && line == 1
    {
      this.source := source;
      this.parseNumber := parseNumber;
      var table := GetKeywords();
      keywords := table;
      pos := 0;
      line := 1;
      new;
      assert source[..0] == [];
    }

    /** Builds the keyword table by insertion. */
    static method GetKeywords() returns (keywords: map<string, TokenType>)
      ensures keywords == KeywordTable()
    {
      keywords := map[];
      keywords := keywords["or" := Or];
      keywords := keywords["and" := And];
      keywords := keywords["if" := If];
      keywords := keywords["else" := Else];
      keywords := keywords["var" := Var];
      keywords := keywords["for" := For];
      keywords := keywords["while" := While];
      keywords := keywords["fun" := Fun];
      keywords := keywords["class" := Class];
      keywords := keywords["super" := Super];
      keywords := keywords["this" := This];
      keywords := keywords["return" := Return];
      keywords := keywords["true" := True];
      keywords := keywords["false" := False];
      keywords := keywords["nil" := Nil];
    }

    /** simple_token: a token of `kind` on the current line, 1 plus the newlines consumed so far. */
    function SimpleToken(kind: TokenType): (t: Token)
      requires Valid()
      reads this
      ensures t.kind == kind && t.line == LineAt(source, pos)
    {
      Token(kind, line)
    }

    /**
     * Scans to the end: keeps going after a failed token, and returns the
     * errors if there were any and the tokens otherwise.
     */
    method ScanTokens() returns (r: Result<seq<Token>, seq<ScannerError>>)
      requires Valid()
      modifies this
      ensures Valid() && pos == |source|
      ensures r == Verdict(ScanLoop(source, old(pos), ([], []), parseNumber))
    {
      var tokens: seq<Token> := [];
      var errors: seq<ScannerError> := [];
      ghost var total := ScanLoop(source, pos, ([], []), parseNumber);
      while true
        invariant Valid()
        invariant ScanLoop(source, pos, (tokens, errors), parseNumber) == total
        decreases |source| - pos
      {
        ghost var start := pos;
        SkipWhitespace();
        if pos == |source| {
          tokens := tokens + [SimpleToken(Eof)];
          break;
        }
        SpanEndIsMaximal(source, start, IsWhitespace);
        var out := NextLexeme();
        match out {
          case None =>
          case Some(Ok(token)) =>
            tokens := tokens + [token];
          case Some(Err(err)) =>
            errors := errors + [err];
        }
      }
      if errors != [] {
        return Err(errors);
      }
      return Ok(tokens);
    }

    /**
     * The arm of the scan_tokens loop that has read a character `ch`
     * (never whitespace, which was just skipped): a comment is skipped
     * (None), or one token or one error is scanned.
     */
    method NextLexeme() returns (out: Option<Result<Token, ScannerError>>)
      requires Valid() && pos < |source| && !IsWhitespace(source[pos])
      modifies this
      ensures Valid() && (out, pos) == LexemeAt(source, old(pos), parseNumber)
    {
      var ch := source[pos];
      LineAtNext(source, pos);
      pos := pos + 1;
      var skipped := SkipComments(ch);
      if !skipped {
        var result := ScanToken(ch);
        out := Some(result);
      } else {
        out := None;
      }
    }

    /** Reads `=` after `!`, `=`, `<` or `>` if it comes next. */
    method ScanOperator(one: TokenType, two: TokenType) returns (token: Token)
      requires Valid()
      modifies this
      ensures Valid()
      ensures var s := OperatorFrom(source, one, two, old(pos)); s.out == Ok(token) && pos == s.next
    {
      if pos < |source| && source[pos] == '=' {
        // Consume the =
        LineAtNext(source, pos);
        pos := pos + 1;
        token := SimpleToken(two);
      } else {
        token := SimpleToken(one);
      }
    }

    /**
     * After a `/`: if another `/` follows, discards through the next newline
     * and reports true; if the input ends first, everything is discarded
     * and the result is false.
     */
    method SkipComments(ch: char) returns (skipped: bool)
      requires Valid()
      modifies this
      ensures Valid() && (skipped, pos) == CommentFrom(source, ch, old(pos))
    {
      if ch == '/' && pos < |source| && source[pos] == '/' {
        while pos < |source|
          invariant Valid() && old(pos) <= pos
          invariant SpanEnd(source, pos, InComment) == SpanEnd(source, old(pos), InComment)
          decreases |source| - pos
        {
          var c := source[pos];
          LineAtNext(source, pos);
          pos := pos + 1;
          if c == '\n' {
            line := line + 1;
            return true;
          }
        }
      }
      return false;
    }

    method SkipWhitespace()
      requires Valid()
      modifies this
      ensures Valid() && pos == SpanEnd(source, old(pos), IsWhitespace)
    {
      while pos < |source|
        invariant Valid() && old(pos) <= pos
        invariant SpanEnd(source, pos, IsWhitespace) == SpanEnd(source, old(pos), IsWhitespace)
        decreases |source| - pos
      {
        var c := source[pos];
        if IsWhitespace(c) {
          if c == '\n' {
            line := line + 1;
          }
          LineAtNext(source, pos);
          pos := pos + 1;
        } else {
          return;
        }
      }
    }

    /** Reads a string body after its opening quote, with no escapes. */
    method ParseString() returns (r: Result<Token, ScannerError>)
      requires Valid()
      modifies this
      ensures Valid()
      ensures var s := StringFrom(source, old(pos)); r == s.out && pos == s.next
    {
      var text: string := [];
      var startLine := line;
      while pos < |source|
        invariant Valid() && old(pos) <= pos
        invariant text == source[old(pos)..pos]
        invariant SpanEnd(source, pos, InString) == SpanEnd(source, old(pos), InString)
        decreases |source| - pos
      {
        var c := source[pos];
        LineAtNext(source, pos);
        if c == '"' {
          StringClosed(source, old(pos), pos);
          pos := pos + 1;
          return Ok(SimpleToken(LoxString(text)));
        } else if c == '\n' {
          line := line + 1;
        }
        assert source[old(pos)..pos + 1] == text + [c];
        text := text + [c];
        pos := pos + 1;
      }
      StringUnclosed(source, old(pos));
      return Err(UnterminatedString(startLine));
    }

    /**
     * Reads a number after its first digit: keeps `.` and alphanumeric
     * characters, drops any other character, and stops before whitespace.
     */
    method ParseNumber(ch: char) returns (r: Result<Token, ScannerError>)
      requires Valid()
      modifies this
      ensures Valid()
      ensures var s := NumberFrom(source, ch, old(pos), parseNumber); r == s.out && pos == s.next
    {
      var text: string := [ch];
      ghost var start := pos;
      while pos < |source|
        invariant Valid() && start <= pos
        invariant text == [ch] + NumberChars(source[start..pos])
        invariant SpanEnd(source, pos, InNumber) == SpanEnd(source, start, InNumber)
        decreases |source| - pos
      {
        var c := source[pos];
        ghost var kept := text;
        if c == '.' {
          text := text + [c];
        } else if IsAlphanumeric(c) {
          text := text + [c];
        } else if IsWhitespace(c) {
          break;
        }
        assert InNumber(c) && text == kept + (if IsNumberChar(c) then [c] else []);
        NumberStep(source, start, pos, ch);
        LineAtNext(source, pos);
        pos := pos + 1;
      }
      assert SpanEnd(source, start, InNumber) == pos;
      match parseNumber(text)
      case Some(n) => r := Ok(SimpleToken(Number(n)));
      case None => r := Err(UnparseableDigit(text, line));
    }

    /** Reads the longest run of identifier characters and looks it up. */
    method ParseIdentifier(ch: char) returns (r: Result<Token, ScannerError>)
      requires Valid()
      modifies this
      ensures Valid()
      ensures var s := IdentifierFrom(source, ch, old(pos)); r == s.out && pos == s.next
    {
      var text: string := [ch];
      while pos < |source|
        invariant Valid() && old(pos) <= pos
        invariant text == [ch] + source[old(pos)..pos]
        invariant SpanEnd(source, pos, IsIdentifierChar) == SpanEnd(source, old(pos), IsIdentifierChar)
        decreases |source| - pos
      {
        var c := source[pos];
        if !IsAlphabetic(c) && c != '_' && !IsDigit(c) {
          break;
        }
        text := text + [c];
        LineAtNext(source, pos);
        pos := pos + 1;
      }
      if text in keywords {
        r := Ok(SimpleToken(keywords[text]));
      } else {
        r := Ok(SimpleToken(Identifier(text)));
      }
    }

    /** Scans one token that starts with `ch`, already read. */
    method ScanToken(ch: char) returns (r: Result<Token, ScannerError>)
      requires Valid()
      modifies this
      ensures Valid()
      ensures var s := ScanTokenFrom(source, ch, old(pos), parseNumber); r == s.out && pos == s.next
    {
      var token: Token;
      match ch {
      case '(' => token := SimpleToken(LeftParen);
      case ')' => token := SimpleToken(RightParen);
      case '{' => token := SimpleToken(LeftBrace);
      case '}' => token := SimpleToken(RightBrace);
      case ',' => token := SimpleToken(Comma);
      case '.' => token := SimpleToken(Dot);
      case '-' => token := SimpleToken(Minus);
      case '+' => token := SimpleToken(Plus);
      case ';' => token := SimpleToken(Semicolon);
      case '*' => token := SimpleToken(Star);
      case '!' => token := ScanOperator(Bang, BangEqual);
      case '=' => token := ScanOperator(Equal, EqualEqual);
      case '<' => token := ScanOperator(Less, LessEqual);
      case '>' => token := ScanOperator(Greater, GreaterEqual);
      case '/' => token := SimpleToken(Slash);
      case '"' =>
        r := ParseString();
        return;
      case _ =>
        if IsDigit(ch) {
          r := ParseNumber(ch);
        } else if IsAlphabetic(ch) || ch == '_' {
          r := ParseIdentifier(ch);
        } else {
          r := Err(UnknownCharacter(ch, line));
        }
        return;
      }
      r := Ok(token);
    }
  }
}
