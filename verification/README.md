# solver: an arithmetic expression evaluator, modelled in Dafny

The crate evaluates arithmetic text such as `30 + (8 + 5) * 3` in four
stages:

1. `tokenize` turns the text into tokens: numbers, `+ - * /` and parentheses.
2. `match_parenthesis` rejects unbalanced parentheses.
3. `imply_multiplication` inserts a `*` between `)` and `(`, so that `(30)(2)` means `(30)*(2)`.
4. A recursive-descent parser with a precedence climb (`parse_expr`, `parse_term`, `parse_factor`, `parse_primary`) computes the value.

`src/lexer.rs` holds a second copy of the first three stages. Its token
type groups the four operators under one `Binary` variant. `src/error.rs`
renders a diagnostic: the expression on one line, and under it a caret
line with a message.

The model has these parts:

- **Numbers** (`Lexemes`). A number token keeps the digit/dot run it was read from. Its exact value is a `real`. A run with two dots, or with no digit, is the `unwrap` panic of `parse::<f64>`; here it is the `MalformedNumber` error.
- **`tokenize`** (`LibTokenize`, `Lexer`). The scan is a total function returning `Result`. Proved properties:
  - rendering tokens to text and reading them back gives the same tokens;
  - the tokens spell the input with its spaces removed;
  - a character outside the accepted set makes the scan fail;
  - each symbol character becomes exactly one token.
- **`match_parenthesis`** (`Balance`). It is written once, generic over the token type, because the two copies are the same algorithm. Each of its three answers is characterised by a condition on prefix depths, in both directions.
- **`imply_multiplication`** (`Insertion`). It is written once, generic over the token type, as the index loop of the source over a growing vector. The result is characterised as the input with an inserted token after exactly the flagged positions. A flagged position is a `)(` pair the loop reaches before its fixed bound.
- **The parser** (`LibParse`). It works on token positions and returns `None` wherever the source panics or divides by zero. Parsing the rendering of any expression tree gives the tree's value: the parser is sound against an independent evaluator. For `*` and `/` chains, the tree is the right-nested one the source builds.
- **`evaluate`** (`LibEvaluate`) composes the stages. Each failure kind is tied to a condition on the text. An unknown character is reported only when some character is outside the accepted set, and such a character always makes the scan fail. A malformed number is reported only at a maximal number run that does not read as a number, and any such run makes the scan fail. On text that tokenizes, the parenthesis failures occur exactly when the depth of `(` over `)` goes negative, or ends positive. On text that tokenizes, the empty-expression failure occurs exactly when the text is blank. The scan's failures are exactly the lexical failures of `evaluate`. Success and the parser's failure (`NoValue`) are characterised for text whose tokens render an expression tree. For both `evaluate` and its corrected form, they are also characterised for numbers joined by `*` and `/`. The unit tests of both files are proved as facts about the model (`LibExamples`, `LexerCorrespondence`).
- **The two copies agree** (`LexerCorrespondence`). Renaming `Plus` to `Binary(Plus)`, and so on, maps each stage of `src/lib.rs` onto the same stage of `src/lexer.rs`, on every input.
- **Diagnostics** (`Diagnostics`). This part covers `Error::new`, `Error::from_expression`, `Error::kind` and `Display`. It includes the offset of the offending token and where the caret lands.

Three places where the code evidently does not do what was meant are listed
under Findings. Each is modelled as written and also corrected.

Notes on how the code is read:

- `src/error.rs` renders a token type with `Unary` (factorial and negation), `Modulo`, `Exponent` and `ImplicitMultiply` variants (src/error.rs:55-74). The `Token` of `src/lib.rs` (src/lib.rs:2-10) has none of them, and no file of the crate defines that type. `Diagnostics` declares it as the render cases name it. The `evaluate` of `src/lib.rs` never builds an `Error`: it returns an `anyhow` error or panics.
- The loop of `parse_term` (src/lib.rs:104-120) folds a chain of `+` and `-` to the left, as ordinary arithmetic does. The loop of `parse_factor` (src/lib.rs:122-138) reads its right operand with `parse_factor` itself, so a chain of `*` and `/` nests to the right. Since `8 / 4 / 2` is 1 in ordinary arithmetic and 4 here, this is taken as unintended (second finding).
- Parentheses are checked before implied multiplication. An empty expression reaches the `len() - 1` underflow (`EmptyExpression`).

## Model

| member | source | states |
|---|---|---|
| Lexemes.RunLength | src/lib.rs:19-29 | the run read for a number is the longest prefix of digits and dots: every character in it is one, and the next character is not |
| Lexemes.DecimalSplit | src/lib.rs:31 | a run `w.f` parses to the whole part plus the fraction digits divided by ten to their count |
| Lexemes.IntegerLexeme | src/lib.rs:31 | a run without a dot parses to the integer its digits spell |
| LibTokenize.TokenizeRoundTrip | src/lib.rs:12-66 | rendering any token sequence as text, packed or with spaces, and tokenizing that text gives the same tokens back |
| LibTokenize.TokenizeRendersInput | src/lib.rs:12-66 | when tokenizing succeeds, the spellings of the tokens concatenate to the input with its spaces removed, so no character is dropped or reordered |
| LibTokenize.TokenizeRejectsForeign | src/lib.rs:61 | a character that is not a digit, a dot, a space or one of the six symbols anywhere in the text makes tokenizing fail |
| LibTokenize.UnknownCharacterIsForeign | src/lib.rs:61 | the unknown-character error is only returned when such a character occurs in the text |
| LibTokenize.SymbolCounts | src/lib.rs:34-57 | each of `+ - * / ( )` occurs in the tokens as often as its character occurs in the text |
| LibTokenize.TokenizeSpace | src/lib.rs:58-60 | a space contributes no token |
| LibTokenize.DecimalValues | src/lib.rs:192-202 | the runs `5.3`, `.110` and `333.` have the values 5.3, 0.11 and 333 |
| LibTokenize.Tokenize | src/lib.rs:12-66 | a successful scan yields at most one token per character of the text |
| LibTokenize.TokenizeBlank | src/lib.rs:12-66 | the scan yields no tokens and no error exactly when the text is empty or all spaces |
| LibTokenize.MalformedNumberIsBadRun | src/lib.rs:18-32 | the malformed-number failure occurs only where a maximal run of digits and dots does not read as a number |
| LibTokenize.BadRunFails | src/lib.rs:18-32 | a maximal run of digits and dots that does not read as a number makes the scan fail |
| Balance.MatchParenthesis | src/lib.rs:68-86 | the counter loop returns the verdict defined by prefix depths: `Some(false)` if some prefix closes more than it opens, else `Some(true)` if openings are left over, else `None` |
| Balance.BalancedIff | src/lib.rs:68-86 | `None` exactly when the sequence is properly nested: no prefix closes more than it opens, and the whole closes everything it opens |
| Balance.TooManyCloseIff | src/lib.rs:76-78 | `Some(false)` exactly when some prefix has negative depth |
| Balance.TooManyOpenIff | src/lib.rs:81-82 | `Some(true)` exactly when no prefix has negative depth and the total depth is positive |
| LibNormalize.ParenthesesOfText | src/lib.rs:68-86 | on tokenized text the check answers as the same counter run over the characters `(` and `)` of the text |
| LibNormalize.MatchParenthesisWorks | src/lib.rs:204-214 | `()` is balanced, `(()` has too many left and `())` too many right parentheses |
| Insertion.ImplyMultiplication | src/lib.rs:88-98 | the loop's result is the input with the multiply token inserted after exactly the positions the loop flags |
| Insertion.WrittenFlagsExact | src/lib.rs:89-94 | a position is flagged exactly when it starts a `)(` pair and, shifted by the insertions before it, is still below the loop bound fixed at the input length minus one |
| Insertion.UnweaveWeave | src/lib.rs:93 | the pass only inserts: removing the token after each flagged position gives the input back |
| Insertion.WeaveAppend | src/lib.rs:88-98 | inserting after flagged positions distributes over concatenation of the input and its flags |
| Insertion.PairFreeUnchanged | src/lib.rs:88-98 | input without a `)(` pair comes back unchanged |
| LibNormalize.ImplyMultiplicationWorks | src/lib.rs:216-221 | `()()` becomes `()*()` |
| LibNormalize.ImplyMultiplicationMissesLastPair | src/lib.rs:89-95 | as written, `()()()()` becomes `()*()*()()`: the last pair keeps no `*` |
| Insertion.ImplyEveryPair | src/lib.rs:88-98 | the corrected pass inserts the multiply token after every `)(` pair of the input and nowhere else, and leaves no `)(` pair in its output |
| Insertion.ImplyEveryPairIdempotent | src/lib.rs:88-98 | the corrected pass applied twice is the pass applied once |
| LibNormalize.ImplyEveryPairSeparatesAll | src/lib.rs:89-95 | the corrected pass turns `()()()()` into `()*()*()*()` |
| LibParse.ParsePrimary | src/lib.rs:140-155 | a number gives its value and the next position; a `(` succeeds exactly when an expression parses after it and is followed by `)`, giving that expression's value and the position after the `)`; any other token or the end of input is the panic |
| LibParseIntended.ParsePrimary | src/lib.rs:140-155 | the same contract for the corrected parser, whose `(` case reads a corrected expression |
| LibParse.ParseRendering | src/lib.rs:100-155 | parsing the tokens of any expression tree gives the tree's value, computed by an evaluator independent of the parser, and consumes all tokens |
| LibParse.ParseExpr | src/lib.rs:100-102 | on success the cursor has advanced and stays within the tokens |
| LibParse.ParseTerm | src/lib.rs:104-120 | on success the cursor has advanced past at least one token and stays within the tokens |
| LibParse.TermLoop | src/lib.rs:107-117 | the `+`/`-` loop never moves the cursor back or past the end |
| LibParse.ParseFactor | src/lib.rs:122-138 | on success the cursor has advanced past at least one token and stays within the tokens |
| LibParse.FactorLoop | src/lib.rs:125-135 | the `*`/`/` loop never moves the cursor back or past the end |
| LibParse.SumSound | src/lib.rs:104-120 | the `+`/`-` loop folds its operands to the left, each operand a parsed product |
| LibParse.ProductSound | src/lib.rs:122-138 | the `*`/`/` loop computes a product tree whose right operand is again a product, with a zero divisor giving no value |
| LibParse.SubtractionFoldsLeft | src/lib.rs:104-120 | `a - b - c` is `(a - b) - c` |
| LibParse.ChainNestsRight | src/lib.rs:125-134 | a chain of `*` and `/` between numbers is read as the right fold of its operators |
| LibParse.DivisionNestsRight | src/lib.rs:125-134 | as written, `a / b / c` is `a / (b / c)` |
| LibParse.EightOverFourOverTwo | src/lib.rs:125-134 | as written, `8 / 4 / 2` is 4 |
| LibParseIntended.ChainFoldsLeft | src/lib.rs:122-138 | the corrected loop reads a chain of `*` and `/` as the left fold of its operators |
| LibParseIntended.DivisionFoldsLeft | src/lib.rs:122-138 | corrected, `a / b / c` is `(a / b) / c` |
| LibParseIntended.EightOverFourOverTwo | src/lib.rs:122-138 | corrected, `8 / 4 / 2` is 1 |
| LibParseIntended.GroupOfNumber | src/lib.rs:145-151 | corrected, a number in parentheses reads as its value and moves the cursor three tokens on |
| LibParseIntended.FactorLoopTimesGroup | src/lib.rs:125-135 | corrected, `* (n)` multiplies the running product by the value of `n` |
| LibEvaluate.Checked | src/lib.rs:157-168 | a token list passed to the parser came from tokenizing the text, is non-empty and is balanced |
| LibEvaluate.Evaluate | src/lib.rs:157-170 | `evaluate` fails in the tokenizer exactly when tokenizing fails; a value means the text tokenized to a non-empty, balanced token list |
| LibEvaluate.EvaluateIntended | src/lib.rs:157-170 | the same for `evaluate` with both corrections |
| LibEvaluate.ForeignCharacterFails | src/lib.rs:158 | a foreign character makes `evaluate` fail with the tokenizer's error |
| LibEvaluate.UnknownCharacterIsInText | src/lib.rs:158 | the unknown-character failure of `evaluate` means the text contains a foreign character |
| LibEvaluate.ParenthesisFailures | src/lib.rs:159-166 | on tokenizable text, too many right parentheses exactly when some prefix of the text closes more than it opens; too many left exactly when none does and openings are left over |
| LibEvaluate.EmptyFailure | src/lib.rs:168 | on tokenizable text, the empty-expression failure happens exactly when the text is all spaces |
| LibEvaluate.SumWellFormed | src/lib.rs:159-168 | the tokens of any expression tree are non-empty, balanced and free of `)(` pairs, so the parenthesis check passes and the multiplication pass leaves them unchanged |
| LibEvaluate.EvaluatesRendering | src/lib.rs:157-170 | `evaluate` on any rendering of an expression tree, packed or spaced, returns the tree's value |
| LibEvaluate.EvaluatesTree | src/lib.rs:157-170 | `evaluate` on any text that tokenizes to the tokens of a tree returns the tree's value |
| LibEvaluate.EvaluatesChain | src/lib.rs:157-170 | on text that reads as numbers joined by `*` and `/`, `evaluate` gives the right-grouped value and the corrected `evaluate` the left-grouped value, with a zero divisor giving no value |
| LibEvaluate.EightOverFourOverTwoEvaluated | src/lib.rs:125-134 | text reading `8 / 4 / 2` evaluates to 4 as written and to 1 when corrected |
| LibExamples.TokenizeWorks | src/lib.rs:180-190 | `53+110` tokenizes to 53, `+`, 110 |
| LibExamples.TokenizeDecimal | src/lib.rs:192-202 | `5.3 .110 333.` tokenizes to 5.3, 0.11, 333 |
| LibExamples.ParsingWorksImplied | src/lib.rs:225 | `(30)(2)` evaluates to 60 |
| LibExamples.ParsingWorksPrecedence | src/lib.rs:226 | `30 + 13 * 3` evaluates to 69 |
| LibExamples.ParsingWorksGroupTimes | src/lib.rs:227 | `30 + (8 + 5) * 3` evaluates to 69 |
| LibExamples.ParsingWorksDivision | src/lib.rs:228 | `10 / 2` evaluates to 5 |
| LibExamples.ParsingWorksMixed | src/lib.rs:229 | `(4 + 6) * 2 - 5` evaluates to 15 |
| LibExamples.ParsingWorksTimesOver | src/lib.rs:230 | `2 * (3 + 4) / 2` evaluates to 7 |
| LibExamples.ParsingWorksSumChain | src/lib.rs:231 | `1 + 2 + 3 + 4 + 5` evaluates to 15 |
| LibExamples.ParsingWorksTwoGroups | src/lib.rs:232 | `(5 - 2) * (12 / 2)` evaluates to 18 |
| LibExamples.FiveGroupsAsWritten | src/lib.rs:89-95 | as written, `(1)(2)(3)(4)(5)` evaluates to 24: the last `)(` pair gets no `*`, and the parser stops before `(5)` |
| LibExamples.ExplicitFiveGroups | src/lib.rs:157-170 | with every `*` written out, `(1)*(2)*(3)*(4)*(5)` evaluates to 120 |
| LibExamples.FiveGroupsIntended | src/lib.rs:89-95 | corrected, `(1)(2)(3)(4)(5)` gets a `*` between every pair and evaluates to 120 |
| Lexer.OperatorCharacter | src/lexer.rs:39-54 | an operator character becomes one `Binary` token of its operator |
| Lexer.Tokenize | src/lexer.rs:17-71 | a successful scan yields at most one token per character of the text |
| LexerCorrespondence.LexerTokenizeBlank | src/lexer.rs:17-71 | the second scan yields no tokens and no error exactly when the text is empty or all spaces |
| LexerCorrespondence.LexerRejectsForeign | src/lexer.rs:66 | a foreign character anywhere makes the second tokenizer fail |
| Lexer.MatchParenthesisVerdicts | src/lexer.rs:73-91 | the three answers of the second parenthesis check, each in both directions, by prefix depths |
| Lexer.ImplyMultiplicationInserts | src/lexer.rs:93-103 | the second pass only inserts `Binary(Multiply)`, and only after `)(` pairs of its input |
| LexerCorrespondence.ToLexer | src/lexer.rs:1-15 | the renaming between the two token types has an inverse, and it maps exactly the four operators to `Binary` |
| LexerCorrespondence.RenamingIsBijective | src/lexer.rs:1-15 | the renaming is one-to-one and onto |
| LexerCorrespondence.TokenizeCorresponds | src/lexer.rs:17-71 | on every text the two tokenizers fail alike with the same error, or succeed with token lists that are renamings of each other |
| LexerCorrespondence.AcceptsSameCharacters | src/lexer.rs:63-66 | the two tokenizers accept the same characters |
| LexerCorrespondence.MatchParenthesisCorresponds | src/lexer.rs:73-91 | on renamed tokens the two parenthesis checks give the same answer |
| LexerCorrespondence.ImplyMultiplicationCorresponds | src/lexer.rs:93-103 | the second pass applied to renamed tokens gives the renamed result of the first pass |
| LexerCorrespondence.TokenizeWorks | src/lexer.rs:113-123 | `53+110` tokenizes to 53, `Binary(Plus)`, 110 |
| LexerCorrespondence.TokenizeDecimal | src/lexer.rs:125-135 | `5.3 .110 333.` tokenizes to 5.3, 0.11, 333 |
| Diagnostics.Message | src/error.rs:18-24 | each kind has a non-empty message with no `^` in it |
| Diagnostics.MessagesDistinct | src/error.rs:18-24 | distinct kinds have distinct messages, so the message identifies the kind |
| Diagnostics.Repeat | src/error.rs:29 | repeating a character n times gives n copies of it |
| Diagnostics.FromExpression | src/error.rs:90-100 | the error keeps the kind, text and offset it is given, and `kind` returns that kind |
| Diagnostics.New | src/error.rs:43-88 | `Error::new` fails exactly when the token index is out of range; otherwise it keeps the kind, its expression is the tokens' texts in order, and its offset is the total length of the texts before the offending token |
| Diagnostics.ExpressionLength | src/error.rs:49-77 | the length of the built expression is the sum of the lengths of the token texts |
| Diagnostics.ExpressionAppend | src/error.rs:49-77 | the expression of a concatenation of token lists is the concatenation of their expressions |
| Diagnostics.IndexPointsAtToken | src/error.rs:51-53 | the recorded offset is where the offending token's text starts in the expression |
| Diagnostics.ImplicitMultiplyInvisible | src/error.rs:69 | an implicit multiplication adds nothing to the expression |
| Diagnostics.RenderCases | src/error.rs:55-74 | a factorial of n renders as n `!`, a negation renders like a subtraction, and an implicit multiplication renders as nothing |
| Diagnostics.Info | src/error.rs:26-36 | as written: the line starts with spaces, `index - |message|` of them when the message fits before the offset and `index + 1` otherwise; the caret is at column `index` with the message right before it, or at `index + 1` with the message after it |
| Diagnostics.Display | src/error.rs:38 | the display has its first newline right after the expression when the expression has none; on the line after the expression the first `^` is at column `index` if the message fits before it and `index + 1` if not |
| Diagnostics.CaretColumnAsWritten | src/error.rs:26-36 | as written, the caret is at column `index` when the message fits before it, and at `index + 1` otherwise |
| Diagnostics.CaretMissesFirstToken | src/error.rs:32-36 | as written, for `)` at offset 0 the caret is in column 1, past the one-character expression |
| Diagnostics.CaretColumnIntended | src/error.rs:26-36 | corrected, the caret is at column `index` whatever the message |
| Diagnostics.DisplayIntended | src/error.rs:38 | corrected, on the line after the expression the first `^` is at column `index` |
| Diagnostics.CaretUnderToken | src/error.rs:43-88 | corrected, the caret of a diagnostic built by `Error::new` stands under the first character of the offending token's text |

## Left out

- Floating point. Numbers are exact reals, and `Lexemes.Value` is the exact value of the digit run. So `f64` rounding is not modelled, and neither are the infinite and NaN results of dividing by zero. A zero divisor gives no value (`None`, or `NoValue` from `evaluate`). As a result, `10 / 0` is not infinity in the model.
- `f64::to_string` in `Error::new` is the parameter `show` of `Diagnostics`. Its output is not modelled.
- Panics are values:
  - the `unwrap` on a malformed number is `MalformedNumber`;
  - the `len() - 1` underflow in `imply_multiplication` on no tokens is `EmptyExpression`, and the pass itself requires a non-empty input;
  - the panics of `parse_primary` are `None`;
  - the `assert!` in `Error::new` is `None`.
- The message texts of the `anyhow` errors are not modelled; only which error occurs is.
- `src/main.rs` is not part of this model. It reads lines from standard input and prints results.
- `Error::new` measures its buffer in bytes with `String::len`. The model counts characters. The two agree because every token text is ASCII.
- Diagnostics.Message: the contract states only that a message is non-empty and contains no caret; the five texts themselves are in the body.
- LibEvaluate.Evaluate: which texts evaluate to a value, and which fail with `NoValue`, is stated only for texts whose tokens render an expression tree. For any other balanced token list, the outcome is left to the parser's definition.
- LibEvaluate.Evaluate: when both a foreign character and a malformed run occur, which of the two errors comes first is not stated. It is the one nearer the start of the text.
- LibEvaluate.EvaluateIntended: its value is stated only for numbers joined by `*` and `/` and for `(1)(2)(3)(4)(5)`. No soundness theorem relates the corrected parser to a tree evaluator.
- LibParse.ParseExpr: it is not stated that the parser rejects every token sequence that is not the rendering of some tree. Unparsed tokens after a complete expression are ignored, as in the source.

## Findings

| source | as written | input that shows it | evidently intended | confidence | as-written member | corrected member |
|---|---|---|---|---|---|---|
| src/lib.rs:89-95 | the range of the loop is evaluated once, before any insertion, so indices past the original length minus one are never visited | `()()()()` becomes `()*()*()()`; `(1)(2)(3)(4)(5)` evaluates to 24 | a `*` between every `)(` pair: `()*()*()*()`, and 120 | high, not executed | LibNormalize.ImplyMultiplicationMissesLastPair | Insertion.ImplyEveryPair |
| src/lib.rs:125-134 | the right operand of `*` and `/` is parsed by `parse_factor`, so a chain nests to the right | `8 / 4 / 2` is 4 | left association, as for `+` and `-`: `(8 / 4) / 2` is 1 | high, not executed | LibParse.EightOverFourOverTwo | LibParseIntended.EightOverFourOverTwo |
| src/error.rs:32-36 | when the message does not fit before the offset, the padding is `index + 1` spaces | `)` at offset 0 puts the caret in column 1, past the expression | the caret at column `index` in both layouts | medium, not executed | Diagnostics.Display | Diagnostics.DisplayIntended |

`LibExamples.FiveGroupsAsWritten` (24) and `LibExamples.FiveGroupsIntended`
(120) show the first finding through both forms of `evaluate`.
`LibParse.DivisionNestsRight` shows the second for all operands, and
`LibEvaluate.EvaluatesChain` shows it through both forms of `evaluate`.
`LibEvaluate.EvaluateIntended` is `evaluate` with both corrections.
`Diagnostics.CaretColumnAsWritten` and `Diagnostics.CaretColumnIntended`
state the third for the caret line alone.
