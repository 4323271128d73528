# Lox front end: scanner, parser and tree printer

This project models the front end of a small Lox interpreter written in Rust, and proves properties of the model. The front end has three stages:

- The **scanner** (`Scanning`, `scanner.dfy`) walks the source characters with one character of lookahead. It keeps a mutable line counter. It returns either a token list that ends in `Eof`, or every lexical error it met.
- The **recursive-descent parser** (`Parsing`, `parser.dfy`) reads one expression through the ladder equality, comparison, term, factor, unary, primary. It keeps a cursor and a `prevTokenLine` field. It has four error outcomes and a `Synchronize` recovery routine.
- The **printer** (`AstPrinter`, `ast_printer.dfy`) renders a tree as a fully parenthesised string. `Fmt` concatenates the renderings of a list of trees.

The data come from `Tokens` (`tokens.dfy`) and `Syntax` (`syntax.dfy`). `Wrappers` holds `Option` and `Result`.

The scanner and the parser are modelled twice:

- **Pure functions** of (input, cursor) say what each routine yields and where it leaves the cursor. Examples: `ScanTokenFrom`, `LexemeAt`, `ScanLoop`, `BinaryAt`, `FoldAt`, `UnaryAt`, `PrimaryAt`.
- **A class** (`Scanner`, `Parser`) runs the source's loops step by step over a mutable cursor. Each method is proved to agree with its function.

The scanner's class invariant fixes the line counter: it is 1 plus the number of newlines before the cursor (`LineAt`). The lemma modules then state what the source promises:

- `ScannerProperties`: the shape of a scan, and each kind of lexeme.
- `ParserProperties`: the precedence grammar every parsed tree belongs to, and the error outcomes. It also proves the round trip: a tree of the grammar, spelled out as tokens, parses back to itself.
- `AstPrinter`: every subtree's rendering appears unbroken inside its parent's. When no operator's debug text holds a parenthesis and every literal's debug text is balanced, every rendering is one balanced group of parentheses. When, in addition, distinct tokens and distinct values have distinct debug texts, distinct trees render differently and `Fmt`'s output determines its list.

`ScannerExamples` and `ParserExamples` work through small inputs.

Some of the source files disagree with each other. The model follows the code that builds and consumes the values:

- `src/token.rs` declares `Identifier`, `String` and `Number` without payloads. The scanner and the parser use them with a string, a string and a float (`Identifier(name)`, `LoxString(text)`, `Number(value)`).
- Tokens are built from a kind and a line only (`src/scanner.rs:119-124`), so `Token` is `(kind, line)`.
- `src/parser.rs:6` imports a `LiteralValue` that `src/syntax.rs` does not define. The parser builds it from a bool, nil, a float and a string (`src/parser.rs:196-207`), so `LiteralValue` is `Bool | Nil | Num | Str`, and `Literal` nodes hold one.

The float payload is the opaque type `Num`.

## Model

| member | source | states |
|---|---|---|
| Syntax.Size | src/syntax.rs:21-39 | every expression is a finite tree: it has at least one node and strictly more nodes than each of its owned children |
| Scanning.Scanner.constructor | src/scanner.rs:58-64 | a new scanner starts at the first character, on line 1, with the keyword table |
| Scanning.Scanner.GetKeywords | src/scanner.rs:66-87 | inserting the words one by one builds exactly `KeywordTable` |
| ScannerProperties.KeywordTableFacts | src/scanner.rs:66-87 | every word of the table maps to a keyword kind, and `print` is not a word of the table |
| Scanning.Scanner.ScanTokens | src/scanner.rs:89-117 | the loop runs to the end of the source; the result is the collected errors if there are any, otherwise the collected tokens, as `ScanLoop` and `Verdict` define |
| Scanning.Scanner.NextLexeme | src/scanner.rs:96-104 | the `Some(ch)` arm of the loop: a comment yields nothing, otherwise one token or one error, as `LexemeAt` says, leaving the cursor where it says |
| ScannerProperties.ScanResult | src/scanner.rs:89-117 | a scan returns tokens or errors, never both; a token list ends with exactly one `Eof`, on line 1 plus the number of newlines, and its lines start at 1 and never decrease; an error batch is never empty, its lines within the source's and never decreasing |
| ScannerProperties.ScanCollects | src/scanner.rs:89-117 | the scan fails exactly when some lexeme it visits fails; it then returns the error of every failed lexeme in the order of `Starts`, and otherwise the token of every lexeme in that order followed by `Eof` |
| ScannerProperties.VerdictCollects | src/scanner.rs:89-117 | the same, for the loop started at any cursor |
| ScannerProperties.ScanLoopCollects | src/scanner.rs:92-110 | the loop keeps going after a failed lexeme: from any cursor it appends the token of every lexeme at `Starts` then `Eof`, and the error of every lexeme at `Starts`, each in order |
| ScannerProperties.Starts | src/scanner.rs:92-104 | the positions where the loop starts a lexeme: characters that are not whitespace, strictly increasing |
| ScannerProperties.StartsTile | src/scanner.rs:92-104 | the lexemes at `Starts` do not overlap, and only whitespace lies before, between and after them, so the loop reads every character |
| ScannerProperties.StartsFirstGap | src/scanner.rs:93-94 | only whitespace lies between a cursor and the first lexeme the loop starts from it (or the end of the source when none is left) |
| ScannerProperties.StartsLastGap | src/scanner.rs:93-106 | only whitespace lies after the last lexeme the loop starts, so `Eof` is reached right after it |
| ScannerProperties.StartsGaps | src/scanner.rs:93-104 | each lexeme at `Starts` ends at or before the next start, with only whitespace in between |
| ScannerProperties.LexemeErrorsNone | src/scanner.rs:96-112 | the collected errors are empty exactly when no visited lexeme failed |
| ScannerProperties.LexemeErrorLine | src/scanner.rs:41-49 | `line()` of an error a lexeme reports is the line the lexeme starts on: an unknown character and an unparseable number on their own line, an unterminated string on the line of its opening quote |
| ScannerProperties.ScanLoopTokens | src/scanner.rs:92-110 | the loop keeps the tokens collected before it; of the new tokens only the last is `Eof`, on the line at the end of the source, and their lines never decrease |
| ScannerProperties.ScanLoopErrors | src/scanner.rs:92-110 | the loop keeps the errors collected before it, and the lines of the errors it adds never decrease and lie within the lines it passes over |
| ScannerProperties.LexemeFacts | src/scanner.rs:96-104 | one pass of the loop yields a token that is not `Eof` and carries the line at the end of its lexeme, or an error whose line lies between the lines at the start and at the end of the lexeme |
| ScannerProperties.ScanTokenFacts | src/scanner.rs:226-261 | a scanned token is never `Eof` and carries the line where it ends; an error's line lies between the lines where the lexeme starts and ends |
| Scanning.SpanEndIsMaximal | src/scanner.rs:154-166 | a skipped run is maximal: every character before its end is in the run, and the character at its end is not |
| ScannerProperties.SpanEndAt | src/scanner.rs:154-166 | conversely, a position that ends a run of the class is where the run stops |
| Scanning.Scanner.SkipWhitespace | src/scanner.rs:154-166 | the cursor moves to the end of the run of whitespace, and the line counter follows every newline skipped |
| Scanning.Scanner.SkipComments | src/scanner.rs:140-152 | after `/`, a following `/` discards through the next newline and reports true; with no newline left everything is discarded and it reports false; otherwise nothing moves, as `CommentFrom` says |
| ScannerProperties.CommentLexeme | src/scanner.rs:140-152 | `//` discards through the next newline and yields no token; with no newline left, the rest of the source is discarded and the first `/` is a `Slash` token on the current line |
| Scanning.Scanner.SimpleToken | src/scanner.rs:119-124 | a token of the given kind on the current line, which is 1 plus the number of newlines consumed so far |
| Scanning.Scanner.ScanOperator | src/scanner.rs:126-138 | the compound kind when `=` comes next, consuming it; the one-character kind otherwise, with nothing consumed, as `OperatorFrom` says |
| ScannerProperties.OperatorLexeme | src/scanner.rs:126-138 | `!`, `=`, `<` or `>` followed by `=` is one compound token that takes both characters; otherwise it is the one-character token and the next character is left unread |
| ScannerProperties.SingleCharLexeme | src/scanner.rs:229-245 | a single-character token, and a `/` not followed by `/`, is one token of its kind on the current line, consuming one character |
| Scanning.Scanner.ParseString | src/scanner.rs:168-183 | returns and moves the cursor as `StringFrom` says; the line counter follows every newline inside the string |
| Scanning.StringClosed | src/scanner.rs:172-175 | a string whose first closing quote is at `k` is the text before `k`, on the line at the quote |
| Scanning.StringUnclosed | src/scanner.rs:182 | a string with no closing quote consumes the rest of the source and is `UnterminatedString` on its opening line |
| ScannerProperties.StringLexeme | src/scanner.rs:168-183 | a string token holds exactly the raw characters up to the next `"`, with no escapes, on the line of the closing quote; with no closing quote it consumes the rest and is `UnterminatedString` with the line of the opening quote |
| Scanning.Scanner.ParseNumber | src/scanner.rs:185-206 | returns and moves the cursor as `NumberFrom` says: the text is the first digit plus the `.` and alphanumeric characters of the run up to whitespace |
| Scanning.NumberStep | src/scanner.rs:189-198 | one pass of the number loop over a non-whitespace character appends it to the text exactly when it is `.` or alphanumeric |
| ScannerProperties.NumberLexeme | src/scanner.rs:185-206 | a number runs from its digit up to the next whitespace, which is left unread; its text is the digit and the `.` and alphanumeric characters of the run; it is a `Number` token or `UnparseableDigit(text, line)` on the line it starts on |
| ScannerProperties.NumberCharsKept | src/scanner.rs:190-196 | every character of a number's text is `.` or alphanumeric |
| ScannerProperties.NumberCharsAll | src/scanner.rs:190-196 | a run made only of `.` and alphanumeric characters is kept whole |
| Scanning.Scanner.ParseIdentifier | src/scanner.rs:208-224 | returns and moves the cursor as `IdentifierFrom` says: the longest run of identifier characters, looked up in the keyword table |
| ScannerProperties.IdentifierLexeme | src/scanner.rs:208-224 | an identifier is the longest run of letters, digits and `_` from its first character; the whole run is a keyword's kind if it is in the table, otherwise `Identifier(run)` |
| ScannerProperties.UnknownLexeme | src/scanner.rs:249-256 | any other character is `UnknownCharacter(c, line)` on the current line, consuming one character |
| Scanning.Scanner.ScanToken | src/scanner.rs:226-261 | returns and moves the cursor as `ScanTokenFrom` says, dispatching on the first character |
| Scanning.LineAtNext | src/scanner.rs:140-183 | moving past one character raises the line counter by one exactly when that character is a newline |
| Scanning.LineAtSplit | src/scanner.rs:140-183 | between two positions the line counter rises by the number of newlines between them |
| ScannerProperties.LineAtStart | src/scanner.rs:61 | the line counter starts at 1 |
| ScannerProperties.LineAtMonotone | src/scanner.rs:140-183 | the line counter never decreases as the cursor moves forward |
| ScannerProperties.LineAtFlat | src/scanner.rs:140-183 | moving over characters that are not newlines leaves the line counter alone |
| ScannerProperties.LineAtEnd | src/scanner.rs:105-108 | at the end of the source the line counter is 1 plus the number of newlines in the source |
| ScannerExamples.ScanBangEqual | src/scanner.rs:240 | `!=` scans to `BangEqual` then `Eof` |
| ScannerExamples.ScanBangSpaceEqual | src/scanner.rs:240-241 | `! =` scans to `Bang`, `Equal`, `Eof` |
| ScannerExamples.ScanOrchard | src/scanner.rs:208-224 | `orchard` is one identifier, not the keyword `or` followed by more |
| ScannerExamples.ScanPrint | src/scanner.rs:66-87 | `print` scans to `Identifier("print")` |
| ScannerExamples.ScanCommentToEnd | src/scanner.rs:140-152 | `//x` scans to `Slash` then `Eof` |
| ScannerExamples.ScanNumberDropsOperator | src/scanner.rs:189-198 | in `1+2` the `+` is consumed and dropped, leaving one number whose text is `12` |
| ScannerExamples.ScanUnterminated | src/scanner.rs:168-183 | an unclosed string that starts on line 2 is the single error `UnterminatedString(2)` |
| ScannerExamples.ScanTwoErrors | src/scanner.rs:89-117 | `@ #` gives both errors, in source order, and no tokens |
| Parsing.NextStatement | src/parser.rs:224-241 | the first position from the cursor that holds a statement-start kind, or the end; every token skipped starts no statement |
| Parsing.Parser.constructor | src/parser.rs:72-78 | a new parser is at the first token with previous line 0 |
| Parsing.Parser.Parse | src/parser.rs:80-82 | parses one expression, as `ExpressionAt` says, from the cursor; what follows is left unread |
| Parsing.Parser.Expression | src/parser.rs:111-113 | agrees with `ExpressionAt`: the equality level |
| Parsing.Parser.Equality | src/parser.rs:115-118 | agrees with `BinaryAt` at the equality level |
| Parsing.Parser.Comparison | src/parser.rs:120-123 | agrees with `BinaryAt` at the comparison level |
| Parsing.Parser.Term | src/parser.rs:125-128 | agrees with `BinaryAt` at the term level |
| Parsing.Parser.Factor | src/parser.rs:130-133 | agrees with `BinaryAt` at the factor level |
| Parsing.Parser.Operand | src/parser.rs:115-133 | the operand routine of each level is the next level up, and unary above factor, as `OperandAt` says |
| Parsing.Parser.BinaryExprGenerator | src/parser.rs:84-109 | the folding loop returns, and leaves the cursor and previous line, as `BinaryAt` says; its invariant ties the tree folded so far to `FoldAt` |
| Parsing.Parser.Unary | src/parser.rs:135-154 | agrees with `UnaryAt`: prefix operators nest to the right, then a primary |
| Parsing.Parser.Primary | src/parser.rs:156-214 | agrees with `PrimaryAt`: a literal, a parenthesised expression, or `NonPrimaryToken` / `EmptyPrimary` |
| Parsing.Parser.Parenthesized | src/parser.rs:163-194 | the `(` arm of primary agrees with `PrimaryAt` |
| Parsing.Parser.ConsumeAndCastLiteral | src/parser.rs:216-219 | consumes the one literal token and returns a `Literal` node holding its value |
| Parsing.Parser.Synchronize | src/parser.rs:221-242 | skips one token, then stops at the first statement-start kind or at the end (`NextStatement`), leaving the previous line alone |
| ParserProperties.ExpressionShape | src/parser.rs:111-133 | every expression parsed is a tree of the precedence grammar, and parsing stops in front of a token that is no binary operator |
| ParserProperties.BinaryShape | src/parser.rs:84-109 | at each binary level the parsed tree belongs to the level: every `Binary` node has an operator of its level, a left operand of the level and a right operand of the next level up, so chains fold to the left |
| ParserProperties.OperandShape | src/parser.rs:115-133 | an operand is a tree of the next level up, and parsing stops in front of no operator of that level or above |
| ParserProperties.FoldShape | src/parser.rs:91-106 | each pass of the folding loop keeps the tree folded so far within its level |
| ParserProperties.UnaryShape | src/parser.rs:135-154 | a unary parse is prefix operators over a primary |
| ParserProperties.PrimaryShape | src/parser.rs:156-214 | a primary parse is a literal or a parenthesised expression of the grammar |
| ParserProperties.UnaryIsPrimary | src/parser.rs:136-151 | where no prefix operator stands, unary is primary |
| ParserProperties.OperandRejects | src/parser.rs:209-213 | where no expression can start, every binary level fails as primary does |
| ParserProperties.ExpressionRejects | src/parser.rs:209-213 | at the end of the tokens the parse fails with `EmptyPrimary(previous line)`; at a token that is not a prefix operator, `(` or a literal it fails with `NonPrimaryToken(token)`; the cursor stays put |
| ParserProperties.OperandErrorPropagates | src/parser.rs:89-97 | a failure at the unary level is the failure of every binary level above it |
| ParserProperties.ErrorPropagates | src/parser.rs:89-97 | a failure at the unary level is the failure of the whole expression |
| ParserProperties.UnclosedGroup | src/parser.rs:177-193 | a `(` whose inner expression is read but is not followed by `)` fails with `UnterminatedParentheses(previous line, line of the '(')`; the token found instead of `)` is consumed, the end is not |
| ParserProperties.InnerCloseParen | src/parser.rs:163-176 | inside `(`, a `)` found where a primary was needed (as in `(1 +)`) fails the whole expression with `EmptyExpression` at that `)`'s line; the cursor stays on the `)`, which is left unread |
| ParserProperties.EmptyGroup | src/parser.rs:163-176 | `(` directly followed by `)` fails with `EmptyExpression` at the `)`'s line, the cursor on the `)` |
| ParserProperties.ParseErrorLine | src/parser.rs:55-64 | `line()` of the error a failed parse reports is 0 or the line of one of the tokens |
| ParserProperties.ExpressionLines | src/parser.rs:111-113 | from a known previous line, the previous line an expression parse leaves and the line of its error are 0 or token lines; a `NonPrimaryToken` error leaves the cursor on the token it names |
| ParserProperties.BinaryLines | src/parser.rs:84-109 | the same for each binary level |
| ParserProperties.OperandLines | src/parser.rs:115-133 | the same for the operand of each binary level |
| ParserProperties.FoldLines | src/parser.rs:91-106 | the same for the folding loop, which records each operator's line |
| ParserProperties.UnaryLines | src/parser.rs:135-154 | the same for unary, which records each prefix operator's line |
| ParserProperties.PrimaryLines | src/parser.rs:156-214 | the same for primary: every error it builds carries a line it read from a token or the known previous line |
| ParserProperties.InLevelLower | src/parser.rs:115-133 | a tree of a level is also a tree of every looser level |
| ParserProperties.LevelsDisjoint | src/parser.rs:116-131 | no operator kind belongs to two levels |
| ParserProperties.OperatorStops | src/parser.rs:91-92 | an operator of a level ends every operand of the level above it |
| ParserProperties.BinaryOperatorFrom | src/parser.rs:84-133 | a `Binary` node of a level has an operator of that level or of one above it |
| ParserProperties.BinaryOfLevel | src/parser.rs:98-102 | a `Binary` node whose operator is of the level has a left operand of the level and a right operand of the next level up |
| ParserProperties.FoldStep | src/parser.rs:91-102 | one more pass of the folding loop: an operator of the level and the operand after it fold into a `Binary` node on the right |
| ParserProperties.UnaryStep | src/parser.rs:136-148 | a prefix operator in front of a parsed unary makes a `Unary` node and leaves the cursor after the operand |
| ParserProperties.LiteralStep | src/parser.rs:196-219 | a literal token is read as a `Literal` node of its value, consuming exactly that token |
| ParserProperties.GroupStep | src/parser.rs:163-189 | a parsed expression between `(` and `)` makes a `Grouping` node, consuming the `)` |
| ParserProperties.ClosingParenStops | src/parser.rs:116-131 | `)` is no binary operator, so every level stops in front of it |
| ParserProperties.SplitBinary | src/parser.rs:98-102 | in the tokens of a `Binary` tree the left operand comes first, then the operator, then the right operand |
| ParserProperties.SplitUnary | src/parser.rs:140-148 | in the tokens of a `Unary` tree the operator comes first, then its operand |
| ParserProperties.SplitGrouping | src/parser.rs:163-189 | in the tokens of a `Grouping` tree, `(` then the inner tree then `)` |
| ParserProperties.ExpressionReads | src/parser.rs:111-113 | a tree of the grammar spelled out as tokens and followed by no binary operator is read back whole, with the cursor right after it |
| ParserProperties.BinaryReads | src/parser.rs:84-109 | a tree of a level followed by no operator of that level or above is read back whole by that level |
| ParserProperties.BinaryPrefix | src/parser.rs:84-109 | a tree of a level followed by no operator above the level is read as the left operand of the level's folding loop |
| ParserProperties.BinaryPrefixStep | src/parser.rs:91-102 | the case of `BinaryPrefix` whose top operator belongs to the level |
| ParserProperties.OperandReads | src/parser.rs:115-133 | a tree of the next level up is read whole as an operand |
| ParserProperties.UnaryReads | src/parser.rs:135-214 | a unary-level tree is read back whole, whatever follows it |
| ParserProperties.PrefixReads | src/parser.rs:135-151 | the `Unary` case of `UnaryReads` |
| ParserProperties.GroupingReads | src/parser.rs:163-189 | the `Grouping` case of `UnaryReads`: the parentheses are read back into a `Grouping` node, never flattened |
| ParserProperties.ParseUnparse | src/parser.rs:80-82 | a tree of the grammar, spelled out as tokens and followed by anything that does not start with an operator, parses back to the same tree, and the cursor stops right after it |
| ParserExamples.ParseTreeThenEof | src/parser.rs:80-82 | a tree of the grammar spelled out on line 1 and followed by `Eof` parses back whole, leaving `Eof` unread |
| ParserExamples.LiteralInLevel | src/parser.rs:196-207 | a literal is a tree of every level |
| ParserExamples.ParseLeftFold | src/parser.rs:84-109 | `x - y - z` parses to `((x - y) - z)` |
| ParserExamples.ParsePrecedence | src/parser.rs:125-133 | `x + y * z` parses with the product as the right operand |
| ParserExamples.ParseGrouping | src/parser.rs:163-189 | `(x + y) * z` keeps the parentheses as a `Grouping` node |
| ParserExamples.ParseDoubleNegation | src/parser.rs:135-154 | `- - x` parses to `Unary(-, Unary(-, x))` |
| ParserExamples.ParseNothing | src/parser.rs:211-213 | no tokens at all gives `EmptyPrimary(0)` |
| ParserExamples.ParseIdentifier | src/parser.rs:209 | an identifier gives `NonPrimaryToken` for it, with nothing consumed |
| ParserExamples.ParseEmptyParentheses | src/parser.rs:167-175 | `()` gives `EmptyExpression` at the line of the `)` |
| ParserExamples.ParseDanglingOperator | src/parser.rs:167-175 | `(true +)` gives `EmptyExpression` at the line of the `)`, which is left unread |
| ParserExamples.ParseUnclosedAtEnd | src/parser.rs:177-183 | `(true` at the end of the tokens gives `UnterminatedParentheses(2, 1)` and consumes nothing more |
| ParserExamples.ParseUnclosedBeforeEof | src/parser.rs:177-193 | `(true` then `Eof` gives the same error and consumes the `Eof` |
| AstPrinter.Wrapped | src/ast_printer.rs:21-38 | a node's text is its body between one `(` and one `)` |
| AstPrinter.VisitExpression | src/ast_printer.rs:15-42 | every rendering starts with `(` and ends with `)` |
| AstPrinter.Joined | src/ast_printer.rs:45-54 | the concatenated renderings are at least two characters per expression |
| AstPrinter.JoinedSnoc | src/ast_printer.rs:48-50 | writing one more expression appends exactly its rendering |
| AstPrinter.Fmt | src/ast_printer.rs:45-54 | the loop writes the renderings of the expressions in order, with no separator (`Joined`) |
| AstPrinter.RenderingIsGroup | src/ast_printer.rs:15-42 | when no operator's debug text holds a parenthesis and every literal's debug text is balanced, a rendering is one balanced group: the depth returns to zero only at its last character |
| AstPrinter.GroupBalanced | src/ast_printer.rs:15-42 | a group is balanced |
| AstPrinter.SubtreeRenderingInfix | src/ast_printer.rs:15-42 | the rendering of every subtree appears, unbroken, inside the rendering of the whole tree |
| AstPrinter.BinaryInfix | src/ast_printer.rs:21-26 | a `Binary` rendering contains both operand renderings, the left one first |
| AstPrinter.TaggedInfix | src/ast_printer.rs:30-36 | a `Unary` or `Grouping` rendering contains its child's rendering |
| AstPrinter.WrappedInjective | src/ast_printer.rs:21-38 | two equal node texts have equal bodies |
| AstPrinter.GroupsSplit | src/ast_printer.rs:48-50 | when two groups are each followed by more text and the wholes are equal, the groups are equal and so are the rests |
| AstPrinter.RenderingInjective | src/ast_printer.rs:15-42 | with debug texts that tell tokens and values apart, parenthesis-free for operators and balanced for literals, two trees with the same rendering are the same tree |
| AstPrinter.JoinedInjective | src/ast_printer.rs:45-54 | with such label texts, what `Fmt` writes determines the list of expressions it was given |

## Left out

- The rest of the repository is not part of this model: `src/lox.rs` (file reading, the prompt loop, error reporting, process exit), `src/main.rs` (argument dispatch), `src/interpreter.rs` (an evaluator stub) and `src/visit.rs` (the visitor traits; the printer's recursion is the function `VisitExpression`).
- Float parsing: `str::parse::<f64>` is the `parseNumber` parameter of `Scanner`, a function from the number text to an optional `Num`. The float payload is the opaque type `Num`, with equality only.
- The `{:?}` debug text of operator tokens and literal values in the printer is the `DebugText` parameter. `SubtreeRenderingInfix` holds for every such text. The balance and unambiguity theorems need the condition `Labelled`: operator texts free of parentheses, and literal texts balanced. The derived `Debug` text of an operator token has no parentheses. The derived texts of literals may contain them: nil is built as `LiteralValue::None` (`src/parser.rs:199`), whose text `None` has none, while the other variants are not declared in the modelled files, so texts such as `Bool(true)`, `Number(1.0)` or `String("a")` are only illustrative. Such texts are balanced except for a string whose own characters are not.
- AstPrinter.RenderingIsGroup: says nothing about a tree holding a string literal whose characters have unbalanced parentheses, such as `"(("`. Its derived `Debug` text is unbalanced, so the rendering is not one group.
- AstPrinter.RenderingInjective: needs `Labelled`, so trees with such a string literal are not covered.
- AstPrinter.JoinedInjective: needs `Labelled` for every tree in both lists, as `RenderingInjective` does.
- The `?` after `write!` in `fmt` (`src/ast_printer.rs:49`) is not modelled. `Fmt` builds a string and cannot fail, so a formatter error that stops the loop early is left out.
- Unicode character classes: `is_whitespace` is modelled exactly (the White_Space characters). `is_alphabetic` and `is_alphanumeric` are restricted to ASCII letters and digits. `is_digit(10)` is exact.
- The `Display` texts of `ScannerError` and `ParserError` are left out. Only the variants and their `line()` accessors are modelled (`Scanning.ScannerError.Line`, `Parsing.ParserError.Line`). What those accessors return is stated by `ScannerProperties.LexemeErrorLine` and `ParserProperties.ParseErrorLine`. The `println!` at `src/ast_printer.rs:47` is also left out.
- `Token::new`, the token's `lexeme` and `literal` fields and the `token::Literal` enum (`src/token.rs:53-80`) are left out. Neither the scanner nor the parser sets or reads them: every token is built from a kind and a line.
- `UnaryOperator` and `BinaryOperator` (`src/syntax.rs:3-19`) are declared, but tree nodes hold the operator token itself, so nothing builds them.
- The printer's `_ => unreachable!()` arm (`src/ast_printer.rs:40`) has no counterpart: the `match` in `VisitExpression` is exhaustive over the four node kinds, so there is no fifth case.
- `usize` lines and positions are unbounded `nat`s: overflow of the line counter is not modelled.
- ScannerProperties.KeywordTableFacts: does not state that the table has exactly fifteen entries. It states what the words map to, and that `print` is not a word.
- The peekable iterators of the source become a sequence and an index. The boxed level callbacks of `binary_expr_generator` become a level number (`Parsing.Parser.Operand`).
