# BULBA! configuration frontend — a Dafny model

The repository implements one two-stage frontend for the BULBA! notation three
times: in C++ (`cpp-bson`), Go (`go-bson`) and Rust (`rs-bson`). A document
starts with the header line `BULBA!`, has `zZz` comments, section headers
`(o) name (o)`, `(O) name (O)` and `(@) name (@)` for the three evolution
stages, and assignments `key ~~~> value`. A value is one of these:

- a quoted string;
- `SuperEffective` or `NotVeryEffective`;
- `MissingNo`;
- an array `<| a, b |>`;
- a number.

The **lexer** turns the document's lines into a flat token list. It checks the
header, cuts comments, applies the tab and indentation rules, and classifies
each line and each value. The **structural parser** walks the tokens with a
context stack and a current level. It enforces the stage rule ("Not enough
badges!"), the indentation rules and the reserved key `Charizard`, and builds a
tree of maps.

The model follows all three implementations at once. The type
`Tokens.Dialect` (`Cpp | Go | Rust`) selects the branch wherever they differ:

- the tab rule;
- the key pattern (Rust refuses a leading digit);
- the white-space classes of the regex and of the trims;
- the indent width (Rust counts UTF-8 bytes);
- number recognition and conversion (Rust reads every number as a double);
- how array texts are cut into elements;
- the failure when an array's tokens run out;
- the Go and Rust slice panics, modelled as the failure `Crash`.

**What the input is.** Every entry point takes `lines: seq<string>`, the lines
exactly as each program's line reader hands them to its loop:

- **C++** (`std::getline` on `\n`): a carriage return stays on the line. The
  lexer pops it itself (cpp-bson/Lexer.cpp:21), and the model does the same
  (`Lexical.DropTrailingCR`, used by `FirstLine` and `Code`).
- **Go** (`bufio.Scanner`): lines arrive with `\r\n` / `\n` already removed.
- **Rust** (`BufRead::lines`): lines arrive with `\r\n` / `\n` already removed.

So for Go and Rust, `lines` has no line-end characters left. The readers
themselves are not modelled (see "Left out").

Layout, one module per file:

- `errors.dfy`: the closed set of failures and their messages.
- `text.dfy`: character classes, trims, search and splitting.
- `numbers.dfy`: `stoi`, `Atoi`, the decimal and hexadecimal float grammars, Go's `ParseFloat` (its `readFloat` syntax and its `underscoreOK` rule for `_` digit separators), and the float token `fmt.Sscan` reads.
- `tokens.dfy`: tokens and dialects.
- `lexical.dfy`: the lexer as functions.
- `lexer.dfy`: the lexer as a class with a `tokens` field, each method proved
  equal to its function.
- `document.dfy`: the value tree and path-based map updates.
- `structure.dfy`: the parser as functions over a state of root, stack and
  level.
- `parser.dfy`: the parser as a class with those fields, each method proved
  equal to its function.
- `frontend.dfy`: lexing followed by parsing.
- `lexical_props.dfy`, `line_props.dfy`, `structure_props.dfy`,
  `readback.dfy`: properties.
- `test_documents.dfy`, `reference_document.dfy`, `reference_parse.dfy`,
  `scenarios.dfy`: the documents of the test suites and particular inputs.

Two behaviours are reproduced as the code has them:

- Array texts are split on every comma, even one inside a string or a nested
  array.
- An assignment with an empty value makes the value reader see the next indent
  or the end-of-file token, which fails with "Target is immune!".

## Model

| member | source | states |
|---|---|---|
| Errors.MessageIdentifiesError | cpp-bson/BSONParser.cpp:7-10 | distinct failures carry distinct messages, so a message identifies its failure |
| Text.Find | cpp-bson/Lexer.cpp:35-38 | a found index is an occurrence with no occurrence before it; none found means none anywhere |
| Text.LeadingCount | cpp-bson/Lexer.cpp:49-55 | the count is the length of the leading run of the class: every counted character is in it, the next one is not |
| Text.TrimRightBySpec | cpp-bson/Lexer.cpp:40-45 | the right trim removes only characters of the class, and empties the line exactly when all of it is of the class |
| Text.TrimBySpec | cpp-bson/Lexer.cpp:181-186 | the trim keeps the infix after the leading run, and everything after it is of the class |
| Text.TrimByEmpty | cpp-bson/Lexer.cpp:182-183 | the trim is empty exactly when every character is trimmed |
| Text.Split | go-bson/lexer.go:190 | at least one part; no part holds the separator or is longer than the text |
| Text.JoinSplit | rs-bson/src/lexer.rs:102 | joining the split parts with the separator gives the text back |
| Text.SplitJoin | go-bson/lexer.go:190 | splitting a join of separator-free parts gives the parts back |
| Text.GetlineSplit | cpp-bson/Lexer.cpp:147-154 | the `getline(_, _, ',')` segments hold no comma, and there are none exactly for the empty text |
| Text.Utf8Width | rs-bson/src/lexer.rs:32-38 | the UTF-8 byte width lies between the character count and four times it, and equals the count for ASCII |
| Numbers.Stoi | cpp-bson/Lexer.cpp:160-167 | a whole-text `stoi` result lies within the 32-bit range |
| Numbers.Atoi | go-bson/parser.go:171-173 | a whole-text `Atoi` result lies within the 64-bit range |
| Numbers.SignedDecimal | cpp-bson/Lexer.cpp:162 | a text converts exactly when it is an optional sign followed by at least one digit and nothing else; a negative result only with '-' |
| Numbers.StoiIsStod | cpp-bson/BSONParser.cpp:144-152 | a text `stoi` reads whole is read whole by `stod` too, and a text `stod` reads whole is one the parser's `stod` accepts |
| Numbers.AtoiIsFloat | go-bson/parser.go:171-175 | a text `Atoi` accepts is a decimal float literal, and `ParseFloat` reads it too |
| Numbers.GoFloatEnd | go-bson/lexer.go:207 | the token `fmt.Sscan` reads for a float64 (sign, `0x` and hex digits or decimal digits, fraction, exponent) lies within the text |
| Numbers.GoExponentEnd | go-bson/lexer.go:207 | the exponent `fmt.Sscan` reads opens with `p` or `P`, or after a decimal mantissa also `e` or `E`, and then holds only digits, `_` and signs |
| Numbers.GoFloatChars | go-bson/lexer.go:207 | every character of the `fmt.Sscan` token is one a float may hold: a hex digit, `_`, `.`, a sign, `x`, `X`, `p` or `P` |
| Numbers.SignedDecimalIsFloat | cpp-bson/Lexer.cpp:160-176 | a signed decimal integer is also a decimal float |
| Numbers.ParsedFloatScans | go-bson/lexer.go:207 | a text `ParseFloat` converts is the whole token `fmt.Sscan` reads, and that token converts, so Go's lexer keeps every number its parser can read |
| Numbers.UnderscoresBetween | go-bson/parser.go:174 | under `underscoreOK`'s scan, every `_` stands before a digit and after a digit (or, first of all, after the base prefix) |
| Numbers.UnderscoreBetweenDigits | go-bson/parser.go:174 | a text `underscoreOK` accepts has each `_` between two digits, or between the base prefix `0b`, `0o`, `0x` and a digit; hex letters count as digits only after `0x` |
| Numbers.NoUnderscoreOK | go-bson/parser.go:174 | `underscoreOK` accepts every text without `_` |
| Numbers.GoDecimalNoP | go-bson/parser.go:174 | a text `ParseFloat` reads without a `0x` prefix holds no `p` |
| Numbers.DecimalFloatPlain | cpp-bson/Lexer.cpp:169-176 | a decimal float literal of C++ and Rust holds no `_` |
| Numbers.HexFloatPlain | cpp-bson/Lexer.cpp:169-176 | a hexadecimal float literal holds no `_` |
| Numbers.DecimalGoSyntax | go-bson/parser.go:174 | every decimal float literal of C++ and Rust meets the syntax of Go's `readFloat` |
| Numbers.DecimalIsGoFloat | go-bson/parser.go:174 | every decimal float literal C++ and Rust read, Go's `ParseFloat` reads too |
| Numbers.HexGoSyntax | go-bson/parser.go:174 | a hexadecimal float literal with a binary exponent meets the syntax of Go's `readFloat` |
| Numbers.HexIsGoFloat | go-bson/parser.go:174 | a hexadecimal float literal with a binary exponent is one Go's `ParseFloat` reads |
| Numbers.MantissaHasDigit | go-bson/parser.go:174 | a mantissa with a digit before or after its point holds a digit, as `readFloat` demands |
| Numbers.ExponentIsGo | go-bson/parser.go:174 | a decimal or binary exponent of the C++ and Rust grammars is one `readFloat` reads |
| Numbers.NoFloatStart | go-bson/parser.go:174 | `ParseFloat` refuses a text that is empty or opens with no digit, sign or '.' |
| Numbers.NoScanStart | go-bson/lexer.go:207 | `fmt.Sscan` reads no float from a text that is empty or opens with no digit, sign, '.' or `p` |
| Numbers.HexIsNotDecimal | cpp-bson/Lexer.cpp:169-176 | a text with `0x` after its sign is no decimal float |
| Numbers.HexIntegerText | cpp-bson/Lexer.cpp:169-176 | `0x` and hex digits: `stod` reads it whole, but it is no decimal float, and Go's `ParseFloat` and `fmt.Sscan` refuse it for want of a binary exponent |
| Numbers.HexFloatShape | go-bson/parser.go:174 | a hexadecimal float with a binary exponent ends in a digit and is no decimal float |
| Lexical.ArraySegments | cpp-bson/Lexer.cpp:146-150 | every element text is shorter than the array text |
| Lexical.ValueTokens | cpp-bson/Lexer.cpp:119-179 | a classified value is value tokens only and starts like a value; it fails only with the type failure, or in Go and Rust with a panic |
| Lexical.TrimmedValueTokens | cpp-bson/Lexer.cpp:121-178 | the same for an already trimmed text, the classification in the source's priority order |
| Lexical.ArrayTokens | cpp-bson/Lexer.cpp:144-157 | an array's tokens open with the array start and hold only value tokens, at least two |
| Lexical.SegmentsTokens | cpp-bson/Lexer.cpp:147-154 | the element tokens are value tokens only; a failure is an element's failure |
| Lexical.KeyLength | rs-bson/src/lexer.rs:209 | the key is a run of word characters, and in Rust does not start with a digit |
| Lexical.ArrowEnd | cpp-bson/Lexer.cpp:102 | a matched arrow `~+>` and its trailing white space end at a character that is no white space |
| Lexical.ScanKeyValue | cpp-bson/Lexer.cpp:102-106 | a match captures a non-empty key of word characters (no leading digit in Rust) at the start and a value of the pattern's `.` characters at the end |
| Lexical.SectionStage | cpp-bson/Lexer.cpp:78-98 | a stage is 1 to 3 and the line has that stage's markers; 0 exactly when it has none of the three |
| Lexical.LineBodyTokens | cpp-bson/Lexer.cpp:75-115 | a line yields a section or an assignment body; it fails only with the syntax or type failure, or a Go/Rust panic |
| Lexical.DropTrailingCR | cpp-bson/Lexer.cpp:21 | the line is unchanged, or loses exactly one trailing carriage return |
| Lexical.StripComment | cpp-bson/Lexer.cpp:35-38 | the code part is a prefix of the line |
| Lexical.IndentedTokens | cpp-bson/Lexer.cpp:49-65 | one indent token of level width / 4 comes first; the tab failure exactly for a C++ leading tab; the indentation failure exactly for a width not a multiple of four |
| Lexical.LineTokens | cpp-bson/Lexer.cpp:33-65 | a body line yields nothing or an indent token then a line body; never the header failure |
| Lexical.BodyTokens | cpp-bson/Lexer.cpp:18-66 | the body lines yield no header or end-of-file token and never the header failure |
| LexicalProps.TrimTextKeeps | cpp-bson/Lexer.cpp:181-186 | a text with no trimmed character at either end is left alone |
| LexicalProps.HeaderRule | cpp-bson/Lexer.cpp:21-31 | an empty document is one end-of-file token; otherwise lexing fails with the header failure exactly when the first line is not `BULBA!` |
| LexicalProps.LexShape | cpp-bson/Lexer.cpp:12-70 | a lexed document ends with exactly one end-of-file token carrying the line count, and starts with exactly one header token |
| LexicalProps.StripCommentExtend | cpp-bson/Lexer.cpp:35-38 | text after the first comment marker does not change the code part |
| LexicalProps.CommentRule | cpp-bson/Lexer.cpp:35-38 | anything after `zZz` has no effect on a line's tokens |
| LexicalProps.BlankLine | cpp-bson/Lexer.cpp:40-45 | a line yields no token exactly when its code is trailing white space (and, in Go/Rust, has no tab) |
| LexicalProps.TabRule | go-bson/lexer.go:68-72 | Go/Rust: the tab failure exactly when a tab is in the code; C++: exactly when a tab follows the leading spaces of a non-blank line |
| LexicalProps.LineBodyNoIndent | cpp-bson/Lexer.cpp:60-65 | a line body holds no indent token |
| LexicalProps.IndentRule | cpp-bson/Lexer.cpp:47-62 | the indentation failure exactly when a non-blank, tab-free line's width is not a multiple of four; else one indent token of level width / 4, first |
| LexicalProps.SectionLine | cpp-bson/Lexer.cpp:78-80 | a section header is its name plus eight marker characters |
| LexicalProps.SectionRoundTrip | cpp-bson/Lexer.cpp:78-98 | a section header of stage s and any name yields exactly open(s), the name, close(s) |
| LexicalProps.ScanAssignment | cpp-bson/Lexer.cpp:102-106 | the regex reads back the key and the value of `key ws ~..~> ws value`, for any white-space runs around the arrow |
| LexicalProps.AssignmentRoundTrip | cpp-bson/Lexer.cpp:102-112 | such a line yields the key, the arrow and exactly the value's tokens, or the value's failure |
| LexicalProps.StringRoundTrip | cpp-bson/Lexer.cpp:124-127 | a quoted text is one string token holding exactly the text between the quotes |
| LexicalProps.DigitsAreNumberText | cpp-bson/Lexer.cpp:160-166 | every implementation's number test accepts a run of digits |
| LexicalProps.PlainValue | cpp-bson/Lexer.cpp:159-178 | a trimmed text that is no string, keyword or array is a number token exactly when the number test accepts it, else the type failure |
| LexicalProps.DigitsAreNumbers | cpp-bson/Lexer.cpp:119-166 | a run of digits is one number token holding the text |
| LexicalProps.IndentedLine | cpp-bson/Lexer.cpp:49-55 | `w` spaces before a text lengthen it by `w` |
| LexicalProps.IndentNoComment | cpp-bson/Lexer.cpp:35-38 | spaces before a text add no comment marker |
| LexicalProps.IndentedTrim | cpp-bson/Lexer.cpp:64 | trimming an indented line gives back its text |
| LexicalProps.IndentRoundTrip | cpp-bson/Lexer.cpp:47-65 | a text indented by `w` spaces fails with the indentation failure unless four divides `w`, and otherwise yields indent(w / 4) then the text's own tokens |
| LineProps.QuoteIsNoNumber | cpp-bson/Lexer.cpp:160-176 | no implementation reads a text opening with a quote as a number |
| LineProps.QuotedValue | cpp-bson/Lexer.cpp:123-127 | a quoted plain text is matched whole by the value pattern and is one string token of that text |
| LineProps.UnclosedQuote | cpp-bson/Lexer.cpp:124-178 | a text that opens a quote but does not close it is the type failure |
| LineProps.UnknownWord | cpp-bson/Lexer.cpp:178 | a bare capitalised word that opens with no keyword's letter, no `I` of `Inf` and no exponent letter `E` is the type failure |
| LineProps.ArrayText | cpp-bson/Lexer.cpp:144 | a text in array brackets is read as an array |
| LineProps.SegmentsFirstFails | go-bson/lexer.go:196-198 | when the first element fails, the element list fails the same way |
| LineProps.FirstElementDecides | go-bson/lexer.go:186-199 | an array whose first element is no value fails as that element does |
| LineProps.WordAssignment | cpp-bson/Lexer.cpp:104-110 | assigning such a bare word fails to lex with the type failure |
| LineProps.IndentedString | cpp-bson/Lexer.cpp:49-65 | a string assignment indented by `w` spaces: the indentation failure unless four divides `w`, else indent(w / 4), key, arrow, string |
| LineProps.IndentedSection | cpp-bson/Lexer.cpp:60-98 | a section header indented by a multiple of four, its name free of the comment marker (and, in Go and Rust, of tabs): indent, then open, name, close |
| Document.InsertAt | cpp-bson/BSONParser.cpp:87 | a write below the root keeps the root's keys; a write at the root adds the key |
| Document.InsertAtLookup | cpp-bson/BSONParser.cpp:121-123 | after the write, the key under the path holds the value |
| Document.InsertAtFrame | cpp-bson/BSONParser.cpp:121-123 | every path neither above nor below the written entry reaches what it reached before |
| Document.InsertAtKeepsObject | cpp-bson/BSONParser.cpp:84-90 | the written map is still a map, and is the old map with the key updated |
| Document.InsertAtKeyFree | cpp-bson/BSONParser.cpp:177-179 | writing a key other than `Charizard`, with a value free of it, keeps the tree free of it |
| Structure.Init | cpp-bson/BSONParser.cpp:25-28 | the initial stack, root frame at level 0, satisfies the stack invariant |
| Structure.NumberValue | cpp-bson/BSONParser.cpp:144-154 | a number is an integer (never in Rust) or the float of its text; otherwise the type failure, or Rust's `unwrap` panic |
| Structure.ParseValue | cpp-bson/BSONParser.cpp:137-175 | on success the cursor strictly advances within the tokens and the value holds no map; failures are syntax, type or Rust panic |
| Structure.ParseElements | cpp-bson/BSONParser.cpp:157-172 | the element loop's result has the same bounds |
| Structure.OpenSection | cpp-bson/BSONParser.cpp:79-91 | opening a stage-h section keeps the stack invariant and sets the level to h |
| Structure.Dedent | cpp-bson/BSONParser.cpp:99-104 | a dedent keeps the invariant and the tree, and sets the level |
| Structure.Assign | cpp-bson/BSONParser.cpp:121-123 | an assignment keeps the invariant, the stack and the level |
| Structure.Section | cpp-bson/BSONParser.cpp:52-93 | an accepted section header consumes three tokens and keeps the invariant; failures are the parser's own |
| Structure.Assignment | cpp-bson/BSONParser.cpp:96-125 | an accepted assignment consumes key, arrow and value and keeps the invariant |
| Structure.Statement | cpp-bson/BSONParser.cpp:42-128 | a statement advances the cursor and keeps the invariant |
| Structure.Run | cpp-bson/BSONParser.cpp:31-130 | the parse loop fails only with the parser's own failures |
| Structure.ParseTokens | cpp-bson/BSONParser.cpp:17-133 | parsing never raises the lexer's header or tab failure |
| StructureProps.SectionChecks | cpp-bson/BSONParser.cpp:56-62 | a stage-s header not indented at s - 1 is the indentation failure; one with fewer than s frames is the badges failure; an accepted one passed both |
| StructureProps.SectionEffect | cpp-bson/BSONParser.cpp:79-91 | after a header: first h frames kept, level h, the new top is an empty map under the name in the parent, every path off it unchanged |
| StructureProps.AssignmentEffect | cpp-bson/BSONParser.cpp:98-123 | a deeper key is the indentation failure; an accepted one cuts the stack to level + 1 frames and stores the read value under the key in the top map, nothing else changed |
| StructureProps.StatementSyntax | cpp-bson/BSONParser.cpp:127 | an indent followed by anything but a section or a key is the syntax failure |
| StructureProps.StatementKeyFree | cpp-bson/BSONParser.cpp:112 | no accepted statement brings `Charizard` into the tree |
| StructureProps.RunKeyFree | cpp-bson/BSONParser.cpp:31-130 | the parse loop keeps the tree free of `Charizard` |
| StructureProps.NoReservedKey | cpp-bson/BSONParser.cpp:177-179 | a parsed tree holds the key `Charizard` nowhere |
| StructureProps.StatementDepth | cpp-bson/BSONParser.cpp:90-91 | with section stages at most 3, a statement leaves the level at most 3 |
| Frontend.FailureSource | go-bson/parser.go:28-31 | a lexer failure is the frontend's failure unchanged; the header and tab failures come only from the lexer; a lexed document is parsed from its tokens |
| Frontend.DocumentKeyFree | cpp-bson/BSONParser.cpp:177-179 | no document's tree holds `Charizard` at any depth |
| Frontend.LineStages | cpp-bson/Lexer.cpp:78-98 | a line's section tokens carry stages 1 to 3 |
| Frontend.LexStages | cpp-bson/Lexer.cpp:12-70 | every section token of a lexed document carries a stage of at most 3 |
| Frontend.EmptyValue | cpp-bson/BSONParser.cpp:118-121 | an assignment with nothing after the arrow before the next indent or the end is the type failure |
| ReadBack.ValueRead | cpp-bson/BSONParser.cpp:137-175 | the value reader reads the lexer's tokens of a value text back as the text's value, ending right after them; only Go can refuse, with the type failure |
| ReadBack.ValueReadBack | cpp-bson/BSONParser.cpp:137-143 | the same, stated through the reader's result and its length |
| ReadBack.ArrayReadBack | cpp-bson/BSONParser.cpp:157-172 | an array's tokens read back as the array of its segments' values |
| ReadBack.LexedNumberConverts | cpp-bson/BSONParser.cpp:144-154 | a number the C++ or Rust lexer accepts converts in the parser; a failed conversion is the type failure |
| ReadBack.CollectValues | cpp-bson/BSONParser.cpp:157-170 | what the element loop collects is the values of the segments, blank ones skipped |
| ReadBack.BlankValueTokens | cpp-bson/Lexer.cpp:120-121 | the value lexer writes no token exactly for a blank text |
| Tokenizer.Lexer.constructor | cpp-bson/Lexer.cpp:7 | a new lexer has no tokens |
| Tokenizer.Lexer.CountIndent | cpp-bson/Lexer.cpp:49-55 | the loop counts exactly the leading spaces and reports whether a tab follows them |
| Tokenizer.Lexer.TokenizeValue | cpp-bson/Lexer.cpp:119-179 | appends exactly the value's tokens, or returns its failure |
| Tokenizer.Lexer.TokenizeArray | cpp-bson/Lexer.cpp:144-157 | appends exactly the array's tokens, or returns its failure |
| Tokenizer.Lexer.TokenizeElements | cpp-bson/Lexer.cpp:150-154 | the element loop appends exactly the elements' tokens, commas between them, or returns the failing element's failure |
| Tokenizer.Lexer.TokenizeLine | cpp-bson/Lexer.cpp:75-115 | appends exactly the line body's tokens, or returns its failure |
| Tokenizer.Lexer.TokenizeBodyLine | cpp-bson/Lexer.cpp:33-65 | appends exactly the body line's tokens, or returns its failure |
| Tokenizer.Lexer.Tokenize | cpp-bson/Lexer.cpp:12-70 | the loop leaves exactly the document's tokens after those already held, or returns its failure |
| Parsing.Parser.constructor | cpp-bson/BSONParser.cpp:12 | a new parser has an empty tree, no stack and level 0 |
| Parsing.Parser.ParseValueFromTokens | cpp-bson/BSONParser.cpp:137-175 | the cursor loop returns what `ParseValue` specifies |
| Parsing.Parser.PopTo | cpp-bson/BSONParser.cpp:79-81 | the pop loop leaves the first n frames and nothing else changed |
| Parsing.Parser.ParseSection | cpp-bson/BSONParser.cpp:52-93 | the fields become exactly `Section`'s new state, or its failure is returned |
| Parsing.Parser.ParseAssignment | cpp-bson/BSONParser.cpp:96-125 | the fields become exactly `Assignment`'s new state, or its failure is returned |
| Parsing.Parser.ParseStatement | cpp-bson/BSONParser.cpp:42-128 | the fields become exactly `Statement`'s new state, or its failure is returned |
| Parsing.Parser.ParseTokens | cpp-bson/BSONParser.cpp:23-133 | the loop returns what `ParseTokens` specifies; on success root is the result, the state is valid, and with stages at most 3 the level is at most 3 with at most four frames |
| Parsing.Parser.Parse | cpp-bson/BSONParser.cpp:17-21 | lexing then the loop returns what the frontend specifies, with the level at most 3 and at most four frames |
| TestDocuments.HeaderDocument | cpp-bson/Lexer.cpp:24-27 | a document whose first line is not the header fails with the header failure |
| TestDocuments.SkippedStage | cpp-bson/BSONParser.cpp:56-62 | a stage-3 header indented under a stage-1 section fails with the badges failure |
| TestDocuments.AssignmentTree | cpp-bson/BSONParser.cpp:111-123 | one top-level string assignment parses to the map of that one key |
| TestDocuments.ReservedDocument | cpp-bson/BSONParser.cpp:111-112 | a document whose first statement assigns `Charizard` fails with "It burns the bulb" |
| TestDocuments.BadgesDocument | cpp-bson/BSONParser.cpp:59-62 | a document with a stage-3 header under a stage-1 section fails with the badges failure |
| TestDocuments.AssignmentDocument | cpp-bson/BSONParser.cpp:121-123 | a two-line document of one string assignment parses to that one key |
| TestDocuments.InvalidHeader | cpp-bson/main.cpp:59 | the "Invalid Header" document fails with "Status: Fainted" in every implementation |
| TestDocuments.TabLine | rs-bson/tests/lexer_test.rs:17-22 | a line that starts with a tab is the tab failure |
| TestDocuments.TabCharacter | cpp-bson/main.cpp:60 | the "Tab Character" document fails with the tab failure |
| TestDocuments.BadIndentation | cpp-bson/main.cpp:61 | the "Bad Indentation" document fails with "The attack missed!" |
| TestDocuments.CharizardKey | cpp-bson/main.cpp:62 | the "Charizard Key" document fails with "It burns the bulb" |
| TestDocuments.DeepNesting | cpp-bson/main.cpp:64-69 | the "Deep Nesting Violation" document fails with "Not enough badges!", for any section names other than `Charizard` that hold no comment marker (and, in Go and Rust, no tab) |
| TestDocuments.InvalidType | cpp-bson/main.cpp:71 | the "Invalid Type" document fails with "Target is immune!" |
| TestDocuments.OneAssignment | go-bson/parser_test.go:121-123 | a one-assignment document parses to the map of that key and its string |
| ReferenceDocument.LexDocument | cpp-bson/main.cpp:6-26 | the valid test document lexes, in every implementation, to its exact token list |
| ReferenceParse.ParseDocumentTokens | rs-bson/tests/parser_test.rs:12-32 | the valid test document's tokens parse to the tree the test expects |
| ReferenceParse.ParseDocument | go-bson/parser_test.go:8-57 | the valid test document parses to the expected nested map in every implementation: `max_connections` `Int(100)` in C++ and Go and a double in Rust |
| Scenarios.LoneQuote | cpp-bson/Lexer.cpp:124-127 | a lone quote is the empty string in C++ and a panic in Go and Rust |
| Scenarios.CommaString | cpp-bson/Lexer.cpp:124-127 | a string holding a comma is one string token |
| Scenarios.NaiveCommaSplit | go-bson/lexer.go:190 | inside an array the same string is cut at its comma and the value fails with the type failure |
| Scenarios.RustReadsFloats | rs-bson/src/parser.rs:82-85 | "42" is `Int(42)` in C++ and Go and a double in Rust |
| Scenarios.DigitKey | rs-bson/src/lexer.rs:209 | a key starting with a digit is the syntax failure in Rust and an assignment in C++ and Go |
| Scenarios.TabInValue | go-bson/lexer.go:70-72 | a tab inside a string value stays in the string in C++ and is the tab failure in Go and Rust |
| Scenarios.HexInteger | cpp-bson/Lexer.cpp:169-176 | `0x` and hex digits is one number token in C++ and the type failure in Go and Rust |
| Scenarios.HexIntegerCpp | cpp-bson/BSONParser.cpp:150-152 | C++ converts such a text with `stod`, since `stoi` stops at the `x` |
| Scenarios.HexFloat | go-bson/lexer.go:207 | a hexadecimal float with a binary exponent is one number token in C++ and Go and the type failure in Rust |
| Scenarios.HexFloatValue | go-bson/parser.go:174 | C++ and Go convert it to a float |
| Scenarios.DigitSeparator | go-bson/parser.go:174 | `1_000` is a number token and converts to a float in Go, and is the type failure in C++ and Rust; `1_` is the type failure in all three |
| Scenarios.SeparatorOf | go-bson/lexer.go:207 | the same for any such pair of texts: a digit separator between digits is kept by Go only, a trailing one by none |
| Scenarios.StopsAtSeparator | cpp-bson/Lexer.cpp:160-176 | a digit followed by `_` is read whole by neither `stoi`, `Atoi` nor `stod`, and is no decimal float |
| Scenarios.DigitLedValue | go-bson/lexer.go:207 | a value opening with a digit and ending in a digit or `_` is one number token exactly when it is number text, and the type failure otherwise |
| Scenarios.DecimalBinaryExponent | go-bson/parser.go:171-176 | Go's lexer keeps `1.5p3`, which its parser then refuses with the type failure, and refuses `1.5p` |
| Scenarios.ArrayLeftOpen | rs-bson/src/parser.rs:107 | an array whose tokens run out is the type failure in Rust and the syntax failure in C++ and Go |

## Left out

- IsNumberText: number recognition is the decimal grammar `sign? (digits ('.' digits*)? | '.' digits) exponent?`, the hexadecimal grammar `sign? 0x (hexdigits ('.' hexdigits*)? | '.' hexdigits) (p sign? digits)?` (the exponent mandatory for Go's `ParseFloat`, absent from Rust), whole-text `stoi` for C++, and `fmt.Sscan`'s token for Go. It differs from the programs on these texts:
  - `inf`, `infinity` and `nan`, in any case (`Inf`, `Infinity`, `NaN`): C++ `stod` (cpp-bson/Lexer.cpp:169-176), Go `fmt.Sscan` (go-bson/lexer.go:207) and Rust `parse::<f64>` (rs-bson/src/lexer.rs:125) accept them. Go's `fmt.Sscan` also keeps any text that opens with them, such as `nano` or `Info`, since it ignores what follows its token. The model gives the type failure.
  - Out-of-range exponents such as `1e999`: C++ `stod` throws, so the C++ lexer gives "Target is immune!" (cpp-bson/Lexer.cpp:178). Go's `Sscan` reports the range error (go-bson/lexer.go:212). The model accepts the text.
- NumberValue: no double is ever computed. `Float` keeps the literal, so `1.5` and `1.50` are different values here but equal doubles in the programs. The texts listed under IsNumberText differ here too:
  - C++ `stod` (cpp-bson/BSONParser.cpp:150-152), Go `ParseFloat` (go-bson/parser.go:174) and Rust `parse::<f64>` (rs-bson/src/parser.rs:83) read `inf` and `nan`. The model gives the type failure, or Rust's panic.
  - The same conversions reject out-of-range exponents in C++ and Go, where the model returns a `Float`.
  - Go's `Atoi` range is taken as 64-bit.
- Lex: the line reader is not modelled; `lines` is what it hands over (see the introduction). A caller must strip CR/LF itself for Go and Rust: given the same lines, `FirstLine(Go, "BULBA!\r")` fails the header check, although both programs accept a CRLF document because their readers strip the ending. Go's `bufio.Scanner` (go-bson/lexer.go:44-49) stops at a line longer than 64 KiB, and `scanner.Err()` is never read, so the Go program returns the tree of the lines before it; the model sees the whole line. Rust's `line_r.unwrap()` (rs-bson/src/lexer.rs:238) panics on a line that is not valid UTF-8; the model's lines are sequences of characters and cannot hold one. Opening the file and reading the stream are left out.
- Regex engines are replaced by the hand-written scanner `ScanKeyValue`, with each engine's `\s` and `.` classes. Rust's `regex` crate and Go's `regexp` are leftmost-first, while `std::regex` is ECMAScript; all three accept the same lines for this pattern.
- Go and Rust run-time panics (slicing a lone quote, a short section line such as `(o) (o)`, `<|>`, Rust's `unwrap` on a float and its `usize` underflow) become the failure `Crash`. The programs abort instead of returning an error.
- Shared references (`shared_ptr`, `Rc<RefCell>`, Go map values) are replaced by stack frames that hold the path of keys from the root. Every map on the stack is reachable by exactly one such path, so a write through a frame is an update at that path.
- Printing (`printAST`, `BSONValue::print`, `PrintAST`/`printNode`, `to_string`/`to_string_rec`), the command-line programs and the test drivers are left out. The test documents are used only as the inputs of `TestDocuments`, `ReferenceDocument` and `ReferenceParse`.
- The line number and literal of each token are kept, but error messages carry no position, as in the source.
