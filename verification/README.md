# rdb SQL front end, modelled in Dafny

rdb is a small relational database written in Rust. Its SQL front end has
three parts.

- **Lexer** (`src/parser/lexer.rs`). It turns a byte buffer into tokens, one
  per call of `next`: one-byte punctuation, blanks and line terminators,
  quoted string literals, and runs of ASCII letters. A run of letters is a
  keyword when its lower-cased text is in the keyword table, and an
  identifier otherwise.
- **Tokens and syntax tree** (`src/parser/token.rs`, `src/parser/ast.rs`).
  These are the vocabulary the other two parts share.
- **Parser** (`src/parser/mod.rs`). It is a recursive-descent parser that
  pulls tokens from the lexer on demand. It reads `COMMIT [WORK]`,
  `ROLLBACK [WORK]` and `SELECT * FROM t1 t2 ...` statements into an `AST`,
  and stops at the first error. The tables of a from clause follow one
  another; the first other token, a comma included, ends the list.

The model keeps the source's structure, one module per concern:

| module | file | models |
|---|---|---|
| `Base` | base.dfy | bytes, `Option`, and the three ways a step ends: `Done`, `Failed`, or `Halted` on a Rust panic |
| `Tokens` | tokens.dfy | `token.rs` |
| `Keywords` | keywords.dfy | `match_kw`: the keyword table, ASCII lower-casing, and the proof that no two keywords share a spelling |
| `Lexer` | lexer.dfy | `Lexer::next` and its helpers, as the pure function `Next(data, cursor)`, which returns a token and the new cursor |
| `Tokenizer` | tokenizer.dfy | calling `next` until `Eof`, and the facts the calls relate: the tokens tile the buffer, and blanks become blank tokens |
| `ParseErrors` | parse_errors.dfy | `ParseError`, its conversion from `LexerError`, and its rendering as text |
| `Ast` | ast.dfy | `ast.rs` |
| `Parser` | parser.dfy | every routine of `Parser` as a function of a token source and a cursor, plus `Parser::parse` as a method with the source's loop |
| `Frontend` | frontend.dfy | the parser run over the lexer's tokens with blanks dropped (see Findings) |
| `LexerExamples`, `ParserExamples` | lexer_examples.dfy, parser_examples.dfy | the repository's unit tests, and a few more inputs, each as a lemma about the model |

**How the Rust state maps to the model.** The lexer's mutable cursor is
threaded through as a value. The parser's `Rc<RefCell<Lexer>>` becomes a
`Source` and a cursor. A `Source` is either the raw request bytes, lexed on
demand exactly as the Rust code does, or an already lexed token stream that
ends in `Eof`. A Rust panic becomes the outcome `Halted`. There are two
kinds:

- `todo!()` in the numeric-literal lexer, the select list, `JOIN`, and the
  create, delete and update statements;
- the out-of-bounds read of an unterminated string literal.

Because of this, every operation is total on every input.

**Where the parts of the source disagree with each other.**

- No filter sits between the lexer and the parser: `Parser` reads the lexer
  directly, and the lexer returns every blank as a `Whitespace` or
  `LineTerminator` token. The
  grammar routines never skip such a token. The model follows the code (see
  Findings).
- The parser expects `Punc(Star)` after `SELECT`, but the lexer has no rule
  for `*` and reports "unknown artifact". The model follows the lexer, so
  `SELECT * ...` can only be parsed from a token stream.
- `parse_commit_stmt` and `parse_rollback_stmt` use the keywords `WORK` and
  `ROLLBACK`, which `token.rs` and `match_kw` do not define. The model adds
  both to the keyword enumeration and to the table, spelled `work` and
  `rollback`. Without them the parser does not compile.

## Model

| member | source | states |
|---|---|---|
| Lexer.Next | src/parser/lexer.rs:19-33 | At or past the end of the buffer the result is `Eof` and the cursor does not move. Otherwise a token starts at the cursor, and the cursor advances to the end of the token, within the buffer. The bytes a token spans are exactly the text it carries: the keyword's spelling in any case, the identifier's bytes, or the quotes around the literal. The only error is "unknown artifact" at the cursor, after which the cursor has moved on by one byte. |
| Lexer.NextFails | src/parser/lexer.rs:27-57 | `next` fails if and only if the byte at the cursor is not a quote, a letter or a digit, and has no entry in the one-byte table. |
| Lexer.LexSingleChar | src/parser/lexer.rs:35-58 | One byte is consumed. The result is that byte's kind from the table, or "unknown artifact" at its position. |
| Lexer.SingleByteTableInverse | src/parser/lexer.rs:40-52 | The one-byte table and `ByteOf` are inverse: a byte lexes to a kind exactly when that kind is lexed from that byte, so no two bytes share a kind. |
| Lexer.OperatorsUnknown | src/parser/lexer.rs:53-56 | `*`, `.`, `-`, `/` and `<` are rejected as "unknown artifact" and skipped. |
| Lexer.LexStringLiteral | src/parser/lexer.rs:60-72 | It never fails. It either ends at the first quote not preceded by a backslash, and carries the raw bytes between the quotes, or halts reading past the end when there is no such quote. |
| Lexer.ClosingQuote | src/parser/lexer.rs:63-65 | The scan finds the first closing quote at or after `j`, or reports that there is none. |
| Lexer.ClosingQuoteAt | src/parser/lexer.rs:63-65 | Given the first closing quote, the scan returns exactly that position. |
| Lexer.NoClosingQuote | src/parser/lexer.rs:63-65 | When every quote ahead follows a backslash, the scan finds nothing. |
| Lexer.LetterRunEnd | src/parser/lexer.rs:75-78 | The run starting at `i` holds only letters and ends at the buffer's end or at a non-letter. |
| Lexer.LetterRunEndsAt | src/parser/lexer.rs:75-78 | Any position with that property is the end the scan finds. |
| Lexer.LexIdentifierOrKeyword | src/parser/lexer.rs:74-87 | It consumes a maximal run of letters. The token is `Keyword(k)` if and only if the lower-cased run spells `k`. Otherwise it is the identifier carrying the run's bytes. |
| Lexer.MatchIgnoresCase | src/parser/lexer.rs:100-101 | Two words that lower-case alike are matched alike. |
| Lexer.DigitsHalt | src/parser/lexer.rs:89-91 | A digit at the cursor reaches the unwritten numeric-literal routine. |
| Keywords.Find | src/parser/lexer.rs:101-168 | Whatever the table scan returns is spelled as the word searched for. |
| Keywords.LowerBytes | src/parser/lexer.rs:101 | Lower-casing keeps the length, and changes each byte independently of the others. |
| Keywords.LowerIdempotent | src/parser/lexer.rs:101 | Lower-casing twice is lower-casing once. |
| Keywords.SpellingInjective | src/parser/lexer.rs:102-167 | No two keywords share a spelling, so the arms of the match are disjoint. |
| Keywords.FingerprintOwned | src/parser/lexer.rs:102-167 | Each keyword is identified by the first four characters of its spelling. |
| Keywords.LookupSpelling | src/parser/lexer.rs:102-167 | Looking up a keyword's spelling returns that keyword. |
| Keywords.LookupAll | src/parser/lexer.rs:102-167 | Looking up any keyword's spelling returns that keyword, for all keywords at once. |
| Keywords.MatchKeyword | src/parser/lexer.rs:100-170 | `match_kw` returns `k` if and only if the lower-cased word spells `k`. It returns nothing if and only if the word spells no keyword. |
| Keywords.Unreserved | src/parser/lexer.rs:168 | A word whose four-letter prefix belongs to no keyword matches no keyword. |
| Tokenizer.Tokenize | src/parser/lexer.rs:19-33 | Calling `next` until `Eof` yields a stream that ends in exactly one `Eof` and starts at the cursor. Any failure is "unknown artifact" at a position inside the buffer. |
| Tokenizer.TokenizeTiles | src/parser/lexer.rs:19-91 | The tokens tile the buffer. Each token starts where the previous one ended, each token's span is its own text, and `Eof` sits at the buffer's end. |
| Tokenizer.TilesCover | src/parser/lexer.rs:19-91 | A tiling loses no byte and invents none: its spans, joined in order, are exactly the buffer from the cursor on. |
| Tokenizer.BlankInput | src/parser/lexer.rs:41-44 | A buffer of blanks lexes without error into one whitespace or line-terminator token per byte, followed by `Eof`. |
| Tokenizer.NextSingle | src/parser/lexer.rs:40-52 | A byte of the one-byte table lexes to its kind and consumes one byte. |
| Tokenizer.NextKeyword | src/parser/lexer.rs:74-86 | A maximal letter run that spells a keyword lexes to that keyword and ends at the run's end. |
| Tokenizer.NextIdentifier | src/parser/lexer.rs:74-86 | A maximal letter run whose lower-cased text spells no keyword lexes to an identifier carrying the run's bytes. |
| Tokenizer.NextString | src/parser/lexer.rs:60-72 | A quote is closed at its first unescaped closing quote. The literal carries the bytes in between and the cursor moves past the closing quote. |
| Tokenizer.NextUnterminated | src/parser/lexer.rs:63-65 | A quote with no unescaped quote after it reads past the end of the buffer, even when escaped quotes follow it. |
| Tokenizer.NextQuoted | src/parser/lexer.rs:60-72 | A quoted text without quotes inside, and not ending in a backslash, lexes to exactly that text. |
| Tokenizer.FollowsTokenize | src/parser/lexer.rs:19-33 | If `next` yields the tokens of a run one after another, then lexing to the end yields exactly that run's tokens. |
| ParseErrors.FromLexerError | src/parser/mod.rs:35-42 | The position and the message carry over unchanged, and the conversion has an inverse. |
| ParseErrors.Decimal | src/parser/mod.rs:31 | The rendered position is a canonical decimal numeral whose value is the position. |
| ParseErrors.CanonicalIsDecimal | src/parser/mod.rs:31 | Every canonical numeral is the rendering of its value, so rendering is onto the canonical numerals. |
| ParseErrors.UnrenderRender | src/parser/mod.rs:29-33 | The rendered error text reads back as the same error. |
| ParseErrors.RenderUnrender | src/parser/mod.rs:29-33 | Every text that reads as an error is that error's rendering. |
| ParseErrors.RenderInjective | src/parser/mod.rs:29-33 | Distinct errors render to distinct texts. |
| Ast.NewAst | src/parser/ast.rs:6-8 | A new tree holds no statements. |
| Ast.AppendStmt | src/parser/ast.rs:10-12 | Appending adds the statement at the end and keeps every earlier statement in place. |
| Ast.AppendAllKeepsOrder | src/parser/ast.rs:10-12 | Appending statements one by one yields the old statements followed by the new ones, in order. |
| Ast.NewDatasetReference | src/parser/ast.rs:46-51 | A new reference is unqualified and names the dataset given. |
| Ast.NewSelectStmt | src/parser/ast.rs:72-82 | A new statement holds the given select and from clauses, and none of the optional clauses. |
| Ast.SelectAll | src/parser/ast.rs:111-115 | `SelectClause::all` selects the single item `*`. |
| Ast.EmptyFrom | src/parser/ast.rs:130-132 | A new from clause is empty. |
| Ast.Table | src/parser/ast.rs:134-138 | `FromClause::table` is not empty, and names exactly the one table given, unqualified. |
| Ast.NamesOfPlainDatasets | src/parser/ast.rs:146-149 | A list of plain dataset items has one name per item, and each item is the reference to its name. |
| Ast.EmptyIsNew | src/parser/ast.rs:140-142 | A from clause is empty exactly when it is the one `FromClause::new` builds. |
| Ast.Datasets | src/parser/ast.rs:46-51 | The references a from clause holds after reading some names: one unqualified reference per name, in order, and reading their names back gives the names. |
| Ast.DatasetsCons | src/parser/ast.rs:46-51 | One more name in front is one more reference in front. |
| Ast.AppendDatasets | src/parser/mod.rs:140 | Pushing references name by name is appending them all at once. |
| Ast.AppendStmtThen | src/parser/ast.rs:10-12 | Appending one statement and then a run is appending the longer run. |
| Ast.SelectAllFromTable | src/parser/ast.rs:111-138 | `SELECT * FROM t`, as built by the constructors, is well formed and reads exactly `t`. |
| Parser.Pull | src/parser/mod.rs:66 | A token source never moves backwards, stays on `Eof`, and strictly shrinks the input with every other token. That is what makes the parser terminate. |
| Parser.Peek | src/parser/mod.rs:198 | On a token stream, the token at the cursor. In a request, a token or lexer error located at the lexer's position: `peek` reads without consuming. |
| Parser.PositionAfterToken | src/parser/mod.rs:152 | After a token is consumed, `position` is the end of that token: in a request the token spells the bytes up to it, and on a stream it is the token's recorded end. `Eof` leaves the position unchanged. |
| Parser.Eat | src/parser/mod.rs:195 | The next token is consumed if and only if it has the given kind. Otherwise the cursor stays where it is, whether the kind differs or the lexer fails. |
| Parser.Expect | src/parser/mod.rs:94 | One token is consumed. The result is that token if and only if it has the given kind, and otherwise "Unexpected token: <kind>" at its position. |
| Parser.ParseEol | src/parser/mod.rs:192-208 | A `;` is consumed. `Eof` ends the statement and is left in place. Any other token fails with "missing ';'" at its position, and a lexer error is passed on. |
| Parser.ParseTransactionEnd | src/parser/mod.rs:158-174 | The statement is produced if and only if an optional `WORK`, whose absence or lexer error is ignored, is followed by a statement end. |
| Parser.ParseCommit | src/parser/mod.rs:158-165 | When it succeeds, it produces `COMMIT`. |
| Parser.ParseRollback | src/parser/mod.rs:167-174 | When it succeeds, it produces `ROLLBACK`. |
| Parser.ParseSelectClause | src/parser/mod.rs:112-126 | It succeeds if and only if the next token is `*`, and then it yields `SelectClause::all`. Any token other than `*` and `(` fails with "Unexpected token" at its position. |
| Parser.FromItems | src/parser/mod.rs:137-149 | Identifiers are gathered in order, as unqualified references, after what was already gathered. The first other token ends the list and is consumed. |
| Parser.FromItemsStep | src/parser/mod.rs:138-140 | An identifier pushes one unqualified reference to its text, and the loop goes on. |
| Parser.FromItemsStops | src/parser/mod.rs:141-148 | `JOIN` reaches the unwritten `todo!()`. A lexer error is the loop's result. |
| Parser.FromItemsReads | src/parser/mod.rs:137-149 | Reading a run of identifiers appends one reference per name, in order, and carries on where the run ends. |
| Parser.FromItemsRun | src/parser/mod.rs:137-149 | A run of identifiers ended by a token other than an identifier or `JOIN` yields exactly one reference per name, in order. A lexer error after the run is the result instead. |
| Parser.FromItemsDone | src/parser/mod.rs:137-149 | Conversely, every list the loop returns is one reference per identifier of a run the lexer yields, ended by such a token. |
| Parser.ParseFromClause | src/parser/mod.rs:132-156 | A from clause that succeeds is non-empty and names plain tables. With no identifier, it fails with "Missing from clause" at the lexer's position after the consumed token. |
| Parser.FromClauseRun | src/parser/mod.rs:132-156 | A from clause holds exactly the tables named, in order, before the first other token. With none, it fails with "Missing from clause" at the position reached. A lexer error after the run is the result. |
| Parser.FromClauseDone | src/parser/mod.rs:132-156 | Conversely, a from clause that parses is one reference per identifier read, and there is at least one. |
| Parser.ParseSelect | src/parser/mod.rs:87-110 | A SELECT that succeeds is a well-formed select statement: a non-empty select list, a non-empty list of plain tables, and no optional clauses. |
| Parser.SelectRun | src/parser/mod.rs:87-110 | `SELECT * FROM` followed by a run of tables is the statement that selects everything from exactly those tables, in order, built with `SelectStmt::new`. Without a table it is "Missing from clause". |
| Parser.SelectDone | src/parser/mod.rs:87-110 | Conversely, a SELECT that parses read `*`, `FROM` and a run of at least one table, and is exactly `SelectStmt::new(SelectClause::all(), ...)` over those tables. |
| Parser.ParseStmt | src/parser/mod.rs:63-85 | It returns no statement if and only if the next token is `Eof`. A statement it produces consumed input and is one the parser can produce. An undispatched keyword, any other token, or a lexer error each fail with the source's message at the token's position. |
| Parser.ParseFrom | src/parser/mod.rs:53-59 | The loop only appends: the result keeps the tree it started from as a prefix, and everything after that prefix is producible. |
| Parser.ParseFromStep | src/parser/mod.rs:54-56 | A parsed statement is appended and the loop goes on after it. |
| Parser.ParseFromReads | src/parser/mod.rs:53-59 | Parsing a run of statements appends them one by one, in order, and carries on where the run ends. |
| Parser.ParseFromRun | src/parser/mod.rs:53-59 | After a run of statements, the end of input gives exactly the statements of the run after those the loop started with. An error or halt gives that error or halt alone, with no partial tree. |
| Parser.ParseFromStops | src/parser/mod.rs:53-59 | Conversely, the loop always parses some run of statements and then stops, and its result is what it returns at that stop. |
| Parser.ParseAll | src/parser/mod.rs:51-61 | A parsed request holds only statements the parser can produce. |
| Parser.ParseAllRun | src/parser/mod.rs:51-61 | A request whose statements `parse_stmt` yields one after another up to the end of input parses to exactly those statements, in order. An error or halt on the way is the whole result. |
| Parser.ParseAllStatements | src/parser/mod.rs:51-61 | Conversely, a parsed request is such a run ended by the end of input. A failed request is such a run followed by the failing statement's error. |
| Parser.Parse | src/parser/mod.rs:51-61 | The source's loop computes exactly `ParseAll`. |
| Frontend.Significant | src/parser/mod.rs:158-165 | Corrected definition (Findings): the filtered stream keeps exactly the tokens that are neither whitespace nor line terminators, and is no longer than the input. |
| Frontend.SignificantAppend | src/parser/mod.rs:158-165 | Corrected definition (Findings): Filtering distributes over concatenation. |
| Frontend.BlankIgnored | src/parser/mod.rs:158-165 | Corrected definition (Findings): A blank token anywhere in a stream makes no difference to what the grammar reads. |
| Frontend.SignificantIdempotent | src/parser/mod.rs:158-165 | Corrected definition (Findings): Filtering twice is filtering once. |
| Frontend.SignificantNone | src/parser/mod.rs:158-165 | Corrected definition (Findings): A stream without blanks is left unchanged. |
| Frontend.SignificantStream | src/parser/mod.rs:158-165 | Corrected definition (Findings): the filtered stream still ends in exactly one `Eof`. |
| Frontend.ParseRequest | src/parser/mod.rs:51-61 | A parsed request holds only producible statements. A lexer error anywhere in the request is reported as that error. |
| LexerExamples.PuncTest | src/parser/lexer.rs:178-190 | `,:;(][)` lexes to the seven punctuation kinds in order, then `Eof`. |
| LexerExamples.KeywordTest | src/parser/lexer.rs:192-205 | `select weight from dog;` lexes to keywords, identifiers and the spaces between them, then `;` and `Eof`. |
| LexerExamples.StringTest | src/parser/lexer.rs:207-235 | The UPDATE request lexes as the test lists, with `'golden retriever'` as one literal, its space included. |
| LexerExamples.DoubledQuoteSplits | src/parser/lexer.rs:63-65 | `'it''s'` is two adjacent literals: a doubled quote is not an escape. |
| LexerExamples.BackslashKept | src/parser/lexer.rs:63-67 | A backslash keeps the next quote from closing the literal and stays in its text. |
| LexerExamples.UnterminatedHalts | src/parser/lexer.rs:63-65 | `'abc` reads past the end of the buffer. |
| LexerExamples.SelectInAnyCase | src/parser/lexer.rs:101 | `SELECT` and `SeLeCt` are both the keyword SELECT. |
| ParserExamples.CommitTest | src/parser/mod.rs:216-224 | `commit` parses to exactly one COMMIT statement. |
| ParserExamples.CommitSemiTest | src/parser/mod.rs:158-165 | `commit;`, with no blank before the `;`, parses from its bytes to exactly one COMMIT statement. |
| ParserExamples.RollbackTest | src/parser/mod.rs:226-234 | `rollback` parses to exactly one ROLLBACK statement. |
| ParserExamples.SelectTest | src/parser/mod.rs:236-247 | The tokens of `SELECT * from cats` parse to exactly `SELECT * FROM cats`, built as the test builds it. |
| ParserExamples.SelectTestFromBytes | src/parser/mod.rs:236-247 | Parsed from its bytes, the same request fails with "Unexpected token" at offset 6, because the select clause is handed the blank. |
| ParserExamples.CommaEndsFrom | src/parser/mod.rs:132-156 | In the tokens of `SELECT * FROM a, b`, the from clause ends at the comma, consumes it, and holds only `a`. |
| ParserExamples.CommaTest | src/parser/mod.rs:51-81 | The same tokens fail with "Unexpected token: Identifier(...)" at offset 17: `b` starts a statement of its own. |
| ParserExamples.StarUnknown | src/parser/lexer.rs:53-56 | In that request, `*` is an unknown artifact at offset 7. |
| ParserExamples.MissingFromClause | src/parser/mod.rs:151-153 | `select * from` with nothing after it fails with "Missing from clause" at the end of the input. |
| ParserExamples.DispatchCommit | src/parser/mod.rs:66-69 | A statement that begins with COMMIT is whatever `parse_commit_stmt` makes of the rest. |
| ParserExamples.DispatchRollback | src/parser/mod.rs:66-72 | A statement that begins with ROLLBACK is whatever `parse_rollback_stmt` makes of the rest. |
| ParserExamples.DispatchSelect | src/parser/mod.rs:66-73 | A statement that begins with SELECT is whatever `parse_select_stmt` makes of the rest. |
| ParserExamples.DispatchCreate | src/parser/mod.rs:66-70 | A statement that begins with CREATE halts in `parse_create_stmt`, whose body is `todo!()`. |
| ParserExamples.DispatchDelete | src/parser/mod.rs:66-71 | A statement that begins with DELETE halts in `parse_delete_stmt`, whose body is `todo!()`. |
| ParserExamples.DispatchUpdate | src/parser/mod.rs:66-74 | A statement that begins with UPDATE halts in `parse_update_stmt`, whose body is `todo!()`. |
| ParserExamples.OneStatement | src/parser/mod.rs:51-61 | One statement followed by the end of input is a tree of exactly that statement. |
| ParserExamples.FirstFails | src/parser/mod.rs:51-61 | A request whose first statement fails fails with that error. |
| ParserExamples.TransactionAtEnd | src/parser/mod.rs:158-174 | COMMIT or ROLLBACK at the end of input is that statement, and the end of input is left in place. |
| ParserExamples.TransactionWork | src/parser/mod.rs:158-174 | COMMIT or ROLLBACK followed by `WORK` and `;` is that statement, with all three tokens consumed. |
| ParserExamples.TransactionSemicolon | src/parser/mod.rs:158-174 | COMMIT or ROLLBACK followed directly by `;` is that statement, with the `;` consumed. |
| ParserExamples.InsertRejected | src/parser/mod.rs:75-78 | A statement starting with INSERT fails with "Unexpected keyword token: Keyword(Insert)" at its first byte. |
| ParserExamples.DispatchOther | src/parser/mod.rs:75-78 | Any keyword other than the six dispatched ones fails with the "Unexpected keyword token" message at its position. |
| ParserExamples.CommitWorkFromBytes | src/parser/mod.rs:158-165 | Parsed from its bytes, `commit work;` fails with "missing ';'" at offset 6 (Findings). |
| ParserExamples.CommitWorkRequest | src/parser/mod.rs:158-165 | With blanks dropped, `commit work;` is exactly one COMMIT statement. |
| ParserExamples.CommitRequest | src/parser/mod.rs:158-165 | With blanks dropped, `commit` and `commit work;` parse alike, and `commit` parses as it does from bytes. |

## Left out

- `src/main.rs` is not part of this model. It is a tokio TCP server on 127.0.0.1:6543 that spawns one task per connection. Each task peeks at most 1024 bytes, reads that many with `read_exact`, and runs `Parser::parse` on them. It then writes back "SUCCESS" or "[ERROR] Position: {pos}, Message: {message}". Sockets, tasks and the asynchronous runtime are I/O and concurrency.
- `DataKind`, `LiteralKind::Numeric` and `match_data` (lexer.rs:94-98) are left out. `match_data` returns nothing for every word and nothing calls it. A numeric literal would be a floating-point number, but its lexer is `todo!()`, modelled as `Halted`.
- Comments and the multi-byte punctuation of `token.rs` are declared in `Tokens`, but the lexer never produces them, so no rule produces them in the model either.
- `parse_list_literal` is left out: it is `todo!()` and nothing calls it. The parser's other `todo!()` routines are modelled as `Halted(Unimplemented(...))`. These are `parse_select_list`, the `JOIN` arm of the from clause, and the create, delete and update statements.
- `Block`, `Insert`, `Update`, `Delete`, `CreateTable`, `Grant` and `Revoke` statements are declared in `Ast`, but the parser never builds them.
- Lexer.LexStringLiteral: does not model the panic on string-literal bytes that are not valid UTF-8 (`from_utf8(..).expect`). The literal carries its raw bytes. Identifiers are ASCII letters and always valid.
- Parser.Eat: `eat`, `peek`, `expect` and `position` are called by `mod.rs` but are not defined in `lexer.rs`. The model defines them:
  - `peek` reads without consuming;
  - `eat` consumes only a token of the given kind, and treats a lexer error as a different kind;
  - `expect` consumes one token and fails unless it has the given kind;
  - `position` is the offset just past the consumed input. On a token stream that is the end of the last consumed token.
- ParseErrors.KindText: `TokenKind` derives only `Debug`, not `Display`. Messages render the token kind in the derived debug notation, without Rust's string escaping.
- Parser.ParseFromClause: follows the code, which consumes the token that ends the list of tables. The next statement therefore starts after it. SELECT does not call `parse_eol`.
- Frontend.ParseRequest: lexes the whole request before parsing it. A lexer error or halt after the first failing statement is therefore reported instead of the parse error.
- Positions are unbounded naturals. `usize` cannot overflow on a buffer held in memory.
- The borrowed `&str` slices of tokens are modelled as copies of their bytes. The shared, mutable lexer behind `Rc<RefCell<...>>` is modelled as a cursor passed from call to call.

## Findings

| source | as written | input that shows it | evidently intended | confidence | as-written member | corrected member |
|---|---|---|---|---|---|---|
| src/parser/mod.rs:158-165 | `Parser` reads `Lexer::next` directly. The lexer returns every blank as a `Whitespace` or `LineTerminator` token (lexer.rs:41-44), so the parser sees the blank after the statement's keyword: `eat(WORK)` and `parse_eol` are handed the blank. The same blank sinks `test_select`. | `commit work;` fails with "missing ';'" at offset 6 | Blanks and line terminators never reach the grammar, and `commit work;` is one COMMIT statement | not executed | ParserExamples.CommitWorkFromBytes | Frontend.ParseRequest |

For the corrected half:

- `Frontend.ParseRequest` parses the lexer's stream with blanks dropped.
- `Frontend.BlankIgnored` proves that a blank anywhere makes no difference to that stream.
- `ParserExamples.CommitWorkRequest` and `ParserExamples.CommitRequest` prove that `commit work;` is one COMMIT statement, as is `commit`.
