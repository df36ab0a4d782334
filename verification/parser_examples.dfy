/** The parser's unit tests (src/parser/mod.rs) and the dispatch and
    statement-end steps they go through, as facts about the model. Inputs
    the byte lexer can
    read are parsed from bytes; the SELECT test, whose `*` the lexer has no
    rule for, is parsed from its token stream. */
module ParserExamples {
  import opened Base
  import opened Tokens
  import opened Keywords
  import opened Lexer
  import opened Tokenizer
  import opened Ast
  import opened ParseErrors
  import opened Parser
  import opened Frontend

  // Steps shared by the examples, stated for any source

  /** A statement that begins with COMMIT. */
  lemma DispatchCommit(src: Source, c: nat, pos: nat, next: nat)
    requires Valid(src, c) && Pull(src, c) == Step(Done(Token(Keyword(KeywordKind.Commit), pos)), next)
    ensures ParseStmt(src, c) == ParseCommit(src, next)
  {
  }

  /** A statement that begins with ROLLBACK. */
  lemma DispatchRollback(src: Source, c: nat, pos: nat, next: nat)
    requires Valid(src, c) && Pull(src, c) == Step(Done(Token(Keyword(KeywordKind.Rollback), pos)), next)
    ensures ParseStmt(src, c) == ParseRollback(src, next)
  {
  }

  /** A statement that begins with SELECT. */
  lemma DispatchSelect(src: Source, c: nat, pos: nat, next: nat)
    requires Valid(src, c) && Pull(src, c) == Step(Done(Token(Keyword(KeywordKind.Select), pos)), next)
    ensures ParseStmt(src, c) == ParseSelect(src, next)
  {
  }

  /** A statement that begins with a keyword no statement starts with. */
  lemma DispatchOther(src: Source, c: nat, pos: nat, next: nat, k: KeywordKind)
    requires Valid(src, c) && Pull(src, c) == Step(Done(Token(Keyword(k), pos)), next)
    requires k !in {KeywordKind.Commit, KeywordKind.Create, KeywordKind.Delete, KeywordKind.Rollback, KeywordKind.Select, KeywordKind.Update}
    ensures ParseStmt(src, c).outcome == Failed(ParseError(pos, "Unexpected keyword token: " + KindText(Keyword(k))))
  {
  }

  /** A request of one statement followed by the end of input. */
  lemma OneStatement(src: Source, c: nat, stmt: StatementKind)
    requires Valid(src, 0)
    requires ParseStmt(src, 0) == Parsed(Done(Option.Some(stmt)), c)
    requires Valid(src, c) && Peek(src, c).Done? && Peek(src, c).value.kind == Eof
    ensures ParseAll(src) == Done(AST([stmt]))
  {
    assert ParseStmt(src, c).outcome == Done(None);
    assert AppendStmt(NewAst(), stmt) == AST([stmt]);
    assert ParseFrom(src, c, AST([stmt])) == Done(AST([stmt]));
  }

  /** A request whose first statement fails fails with it. */
  lemma FirstFails(src: Source, e: ParseError)
    requires Valid(src, 0)
    requires ParseStmt(src, 0).outcome == Failed(e)
    ensures ParseAll(src) == Failed(e)
  {
  }

  /** COMMIT or ROLLBACK at the end of input. */
  lemma TransactionAtEnd(src: Source, c: nat, stmt: StatementKind)
    requires Valid(src, c) && Peek(src, c).Done? && Peek(src, c).value.kind == Eof
    ensures ParseTransactionEnd(src, c, stmt) == Parsed(Done(Option.Some(stmt)), c)
  {
    assert Eat(src, c, Keyword(Work)) == Parsed(Done(false), c);
    assert ParseEol(src, c) == Parsed(Done(()), c);
  }

  /** COMMIT or ROLLBACK followed by WORK and `;`. */
  lemma TransactionWork(src: Source, c: nat, stmt: StatementKind)
    requires Valid(src, c) && Peek(src, c).Done? && Peek(src, c).value.kind == Keyword(Work)
    requires Peek(src, Pull(src, c).cursor).Done? && Peek(src, Pull(src, c).cursor).value.kind == Punc(SemiColon)
    ensures ParseTransactionEnd(src, c, stmt) == Parsed(Done(Option.Some(stmt)), Pull(src, Pull(src, c).cursor).cursor)
  {
    var c1 := Pull(src, c).cursor;
    assert Eat(src, c, Keyword(Work)) == Parsed(Done(true), c1);
    assert ParseEol(src, c1) == Parsed(Done(()), Pull(src, c1).cursor);
  }

  /** COMMIT or ROLLBACK followed directly by `;`, which the statement
      consumes. */
  lemma TransactionSemicolon(src: Source, c: nat, stmt: StatementKind)
    requires Valid(src, c) && Peek(src, c).Done? && Peek(src, c).value.kind == Punc(SemiColon)
    ensures ParseTransactionEnd(src, c, stmt) == Parsed(Done(Option.Some(stmt)), Pull(src, c).cursor)
  {
    assert Eat(src, c, Keyword(Work)) == Parsed(Done(false), c);
    assert ParseEol(src, c) == Parsed(Done(()), Pull(src, c).cursor);
  }

  /** A statement that begins with CREATE reaches `parse_create_stmt`,
      whose body is `todo!()`. */
  lemma DispatchCreate(src: Source, c: nat, pos: nat, next: nat)
    requires Valid(src, c) && Pull(src, c) == Step(Done(Token(Keyword(KeywordKind.Create), pos)), next)
    ensures ParseStmt(src, c) == Parsed(Halted(Unimplemented("parse_create_stmt")), next)
  {
  }

  /** A statement that begins with DELETE reaches `parse_delete_stmt`,
      whose body is `todo!()`. */
  lemma DispatchDelete(src: Source, c: nat, pos: nat, next: nat)
    requires Valid(src, c) && Pull(src, c) == Step(Done(Token(Keyword(KeywordKind.Delete), pos)), next)
    ensures ParseStmt(src, c) == Parsed(Halted(Unimplemented("parse_delete_stmt")), next)
  {
  }

  /** A statement that begins with UPDATE reaches `parse_update_stmt`,
      whose body is `todo!()`. */
  lemma DispatchUpdate(src: Source, c: nat, pos: nat, next: nat)
    requires Valid(src, c) && Pull(src, c) == Step(Done(Token(Keyword(KeywordKind.Update), pos)), next)
    ensures ParseStmt(src, c) == Parsed(Halted(Unimplemented("parse_update_stmt")), next)
  {
  }

  // test_commit

  const CommitInput: seq<Byte> := Ascii("commit")

  lemma CommitAt0()
    ensures |CommitInput| == 6
    ensures Next(CommitInput, 0) == Step(Done(Token(Keyword(KeywordKind.Commit), 0)), 6)
  {
    assert CommitInput == [99, 111, 109, 109, 105, 116];
    assert CommitInput[0..6] == CommitInput;
    NextKeyword(CommitInput, 0, 6, KeywordKind.Commit);
  }

  /** `test_commit`: the request `commit` is one COMMIT statement. */
  lemma CommitTest()
    ensures ParseAll(Raw(CommitInput)) == Done(AST([StatementKind.Commit]))
  {
    var src := Raw(CommitInput);
    CommitAt0();
    assert Peek(src, 6) == Done(Token(Eof, 6));
    DispatchCommit(src, 0, 0, 6);
    TransactionAtEnd(src, 6, StatementKind.Commit);
    OneStatement(src, 6, StatementKind.Commit);
  }

  /** `commit;`: the same statement ended by `;`, with no blank before it. */
  const CommitSemiInput: seq<Byte> := Ascii("commit;")

  lemma CommitSemiBytes()
    ensures |CommitSemiInput| == 7
    ensures CommitSemiInput[0..6] == CommitInput && CommitSemiInput[6] == 59
  {
    assert CommitSemiInput == [99, 111, 109, 109, 105, 116, 59];
  }

  lemma CommitSemiAt0()
    ensures |CommitSemiInput| == 7
    ensures Next(CommitSemiInput, 0) == Step(Done(Token(Keyword(KeywordKind.Commit), 0)), 6)
  {
    CommitSemiBytes();
    CommitAt0();
    NextKeyword(CommitSemiInput, 0, 6, KeywordKind.Commit);
  }

  lemma CommitSemiAt6()
    ensures |CommitSemiInput| == 7
    ensures Next(CommitSemiInput, 6) == Step(Done(Token(Punc(SemiColon), 6)), 7)
  {
    CommitSemiBytes();
    NextSingle(CommitSemiInput, 6, Punc(SemiColon));
  }

  /** The request `commit;` is one COMMIT statement. */
  lemma CommitSemiTest()
    ensures ParseAll(Raw(CommitSemiInput)) == Done(AST([StatementKind.Commit]))
  {
    var src := Raw(CommitSemiInput);
    CommitSemiAt0();
    CommitSemiAt6();
    assert Peek(src, 6) == Done(Token(Punc(SemiColon), 6));
    assert Peek(src, 7) == Done(Token(Eof, 7));
    DispatchCommit(src, 0, 0, 6);
    TransactionSemicolon(src, 6, StatementKind.Commit);
    OneStatement(src, 7, StatementKind.Commit);
  }

  // test_rollback

  const RollbackInput: seq<Byte> := Ascii("rollback")

  lemma RollbackAt0()
    ensures |RollbackInput| == 8
    ensures Next(RollbackInput, 0) == Step(Done(Token(Keyword(KeywordKind.Rollback), 0)), 8)
  {
    assert RollbackInput == [114, 111, 108, 108, 98, 97, 99, 107];
    assert RollbackInput[0..8] == RollbackInput;
    NextKeyword(RollbackInput, 0, 8, KeywordKind.Rollback);
  }

  /** `test_rollback`: the request `rollback` is one ROLLBACK statement. */
  lemma RollbackTest()
    ensures ParseAll(Raw(RollbackInput)) == Done(AST([StatementKind.Rollback]))
  {
    var src := Raw(RollbackInput);
    RollbackAt0();
    assert Peek(src, 8) == Done(Token(Eof, 8));
    DispatchRollback(src, 0, 0, 8);
    TransactionAtEnd(src, 8, StatementKind.Rollback);
    OneStatement(src, 8, StatementKind.Rollback);
  }

  // test_select

  const SelectInput: seq<Byte> := Ascii("SELECT * from cats")

  /** The tokens of `SELECT * from cats`, blanks left out, as a lexer that
      knew `*` would produce them. */
  const SelectTokens: seq<Lexeme> := [
    Lexeme(Token(Keyword(KeywordKind.Select), 0), 6),
    Lexeme(Token(Punc(Star), 7), 8),
    Lexeme(Token(Keyword(From), 9), 13),
    Lexeme(Token(TokenKind.Identifier(Ascii("cats")), 14), 18),
    Lexeme(Token(Eof, 18), 18)
  ]

  lemma SelectTokensStream()
    ensures Stream(SelectTokens)
  {
  }

  lemma SelectFromCats()
    ensures Stream(SelectTokens)
    ensures ParseFromClause(Lexed(SelectTokens), 3) == Parsed(Done(Ast.Table(Ascii("cats"))), 4)
  {
    SelectTokensStream();
    var src := Lexed(SelectTokens);
    var item := Dataset(NewDatasetReference(Ascii("cats")));
    assert Peek(src, 4) == Done(Token(Eof, 18));
    assert FromItems(src, 4, [item]) == Parsed(Done([item]), 4);
    assert Pull(src, 3) == Step(Done(Token(TokenKind.Identifier(Ascii("cats")), 14)), 4);
    assert FromItems(src, 3, []) == Parsed(Done([item]), 4);
  }

  lemma SelectClauseAndFrom()
    ensures Stream(SelectTokens)
    ensures ParseSelect(Lexed(SelectTokens), 1)
      == Parsed(Done(Option.Some(StatementKind.Select(NewSelectStmt(SelectAll(), Ast.Table(Ascii("cats")))))), 4)
  {
    SelectFromCats();
    var src := Lexed(SelectTokens);
    assert Pull(src, 1) == Step(Done(Token(Punc(Star), 7)), 2);
    assert Pull(src, 2) == Step(Done(Token(Keyword(From), 9)), 3);
    assert ParseSelectClause(src, 1) == Parsed(Done(SelectAll()), 2);
    assert Expect(src, 2, Keyword(From)) == Parsed(Done(Token(Keyword(From), 9)), 3);
  }

  /** `test_select`: `SELECT * from cats` is one SELECT of everything from
      the table `cats`. */
  lemma SelectTest()
    ensures Stream(SelectTokens)
    ensures ParseAll(Lexed(SelectTokens))
      == Done(AST([StatementKind.Select(NewSelectStmt(SelectAll(), Ast.Table(Ascii("cats"))))]))
  {
    SelectClauseAndFrom();
    var src := Lexed(SelectTokens);
    assert Pull(src, 0) == Step(Done(Token(Keyword(KeywordKind.Select), 0)), 1);
    assert Peek(src, 4) == Done(Token(Eof, 18));
    DispatchSelect(src, 0, 0, 1);
    OneStatement(src, 4, StatementKind.Select(NewSelectStmt(SelectAll(), Ast.Table(Ascii("cats")))));
  }

  // A comma does not separate tables

  /** The tokens of `SELECT * FROM a, b`, blanks left out. */
  const CommaTokens: seq<Lexeme> := [
    Lexeme(Token(Keyword(KeywordKind.Select), 0), 6),
    Lexeme(Token(Punc(Star), 7), 8),
    Lexeme(Token(Keyword(From), 9), 13),
    Lexeme(Token(TokenKind.Identifier(Ascii("a")), 14), 15),
    Lexeme(Token(Punc(Comma), 15), 16),
    Lexeme(Token(TokenKind.Identifier(Ascii("b")), 17), 18),
    Lexeme(Token(Eof, 18), 18)
  ]

  lemma CommaTokensStream()
    ensures Stream(CommaTokens)
  {
  }

  /** The from clause ends at the comma, which it consumes, with `a` its
      only table. */
  lemma CommaEndsFrom()
    ensures Stream(CommaTokens)
    ensures ParseSelect(Lexed(CommaTokens), 1)
      == Parsed(Done(Option.Some(StatementKind.Select(NewSelectStmt(SelectAll(), Ast.Table(Ascii("a")))))), 5)
  {
    CommaTokensStream();
    var src := Lexed(CommaTokens);
    var item := Dataset(NewDatasetReference(Ascii("a")));
    assert Pull(src, 4) == Step(Done(Token(Punc(Comma), 15)), 5);
    assert FromItems(src, 4, [item]) == Parsed(Done([item]), 5);
    assert Pull(src, 3) == Step(Done(Token(TokenKind.Identifier(Ascii("a")), 14)), 4);
    assert FromItems(src, 3, []) == Parsed(Done([item]), 5);
    assert ParseFromClause(src, 3) == Parsed(Done(Ast.Table(Ascii("a"))), 5);
    assert Pull(src, 1) == Step(Done(Token(Punc(Star), 7)), 2);
    assert Pull(src, 2) == Step(Done(Token(Keyword(From), 9)), 3);
    assert ParseSelectClause(src, 1) == Parsed(Done(SelectAll()), 2);
    assert Expect(src, 2, Keyword(From)) == Parsed(Done(Token(Keyword(From), 9)), 3);
  }

  /** `SELECT * FROM a, b` fails: after the comma, `b` begins a statement
      of its own, and no statement begins with an identifier. */
  lemma CommaTest()
    ensures Stream(CommaTokens)
    ensures ParseAll(Lexed(CommaTokens))
      == Failed(ParseError(17, "Unexpected token: " + KindText(TokenKind.Identifier(Ascii("b")))))
  {
    CommaEndsFrom();
    var src := Lexed(CommaTokens);
    var stmt := StatementKind.Select(NewSelectStmt(SelectAll(), Ast.Table(Ascii("a"))));
    assert Pull(src, 0) == Step(Done(Token(Keyword(KeywordKind.Select), 0)), 1);
    DispatchSelect(src, 0, 0, 1);
    assert Peek(src, 5) == Done(Token(TokenKind.Identifier(Ascii("b")), 17));
    assert ParseFrom(src, 5, AppendStmt(NewAst(), stmt))
      == Failed(ParseError(17, "Unexpected token: " + KindText(TokenKind.Identifier(Ascii("b")))));
  }

  lemma SelectWord()
    ensures |SelectInput| == 18
    ensures SelectInput[0..6] == [83, 69, 76, 69, 67, 84] && SelectInput[6] == 32
  {
    assert SelectInput[0..7] == [83, 69, 76, 69, 67, 84, 32];
  }

  lemma SelectAt0()
    ensures |SelectInput| == 18
    ensures Next(SelectInput, 0) == Step(Done(Token(Keyword(KeywordKind.Select), 0)), 6)
    ensures Next(SelectInput, 6) == Step(Done(Token(Whitespace(Space), 6)), 7)
  {
    SelectWord();
    assert Text(LowerBytes(SelectInput[0..6])) == Spelling(KeywordKind.Select);
    NextKeyword(SelectInput, 0, 6, KeywordKind.Select);
    NextSingle(SelectInput, 6, Whitespace(Space));
  }

  /** Read from its bytes, the same request stops at the blank after
      SELECT: the select clause is handed a whitespace token. */
  lemma SelectTestFromBytes()
    ensures ParseAll(Raw(SelectInput)) == Failed(ParseError(6, "Unexpected token"))
  {
    var src := Raw(SelectInput);
    SelectAt0();
    DispatchSelect(src, 0, 0, 6);
    assert ParseSelectClause(src, 6).outcome == Failed(ParseError(6, "Unexpected token"));
    FirstFails(src, ParseError(6, "Unexpected token"));
  }

  /** Nor does the byte lexer read the `*` itself. */
  lemma StarUnknown()
    ensures Next(SelectInput, 7) == Step(Failed(LexerError("unknown artifact", 7)), 8)
  {
    assert SelectInput[7] == 42;
    OperatorsUnknown(SelectInput, 7);
  }

  // A SELECT without a table

  const NoTableTokens: seq<Lexeme> := [
    Lexeme(Token(Keyword(KeywordKind.Select), 0), 6),
    Lexeme(Token(Punc(Star), 7), 8),
    Lexeme(Token(Keyword(From), 9), 13),
    Lexeme(Token(Eof, 13), 13)
  ]

  lemma NoTableFrom()
    ensures Stream(NoTableTokens)
    ensures ParseFromClause(Lexed(NoTableTokens), 3).outcome == Failed(ParseError(13, "Missing from clause"))
  {
    var src := Lexed(NoTableTokens);
    assert Stream(NoTableTokens);
    assert Pull(src, 3) == Step(Done(Token(Eof, 13)), 3);
    assert Position(src, 3) == 13;
  }

  /** `select * from` fails for want of a table, at the end of the
      input. */
  lemma MissingFromClause()
    ensures Stream(NoTableTokens)
    ensures ParseAll(Lexed(NoTableTokens)) == Failed(ParseError(13, "Missing from clause"))
  {
    NoTableFrom();
    var src := Lexed(NoTableTokens);
    assert Pull(src, 0) == Step(Done(Token(Keyword(KeywordKind.Select), 0)), 1);
    assert Pull(src, 1) == Step(Done(Token(Punc(Star), 7)), 2);
    assert Pull(src, 2) == Step(Done(Token(Keyword(From), 9)), 3);
    DispatchSelect(src, 0, 0, 1);
    assert ParseSelectClause(src, 1) == Parsed(Done(SelectAll()), 2);
    assert Expect(src, 2, Keyword(From)) == Parsed(Done(Token(Keyword(From), 9)), 3);
    FirstFails(src, ParseError(13, "Missing from clause"));
  }

  // Statements the parser does not accept

  const InsertInput: seq<Byte> := Ascii("insert")

  lemma InsertAt0()
    ensures Next(InsertInput, 0) == Step(Done(Token(Keyword(KeywordKind.Insert), 0)), 6)
  {
    assert InsertInput == [105, 110, 115, 101, 114, 116];
    assert InsertInput[0..6] == InsertInput;
    NextKeyword(InsertInput, 0, 6, KeywordKind.Insert);
  }

  lemma InsertName()
    ensures KeywordName(KeywordKind.Insert) == "Insert"
  {
    assert Spelling(KeywordKind.Insert) == "insert";
  }

  lemma InsertMessage()
    ensures "Unexpected keyword token: " + KindText(Keyword(KeywordKind.Insert)) == "Unexpected keyword token: Keyword(Insert)"
  {
    InsertName();
    assert KindText(Keyword(KeywordKind.Insert)) == "Keyword(" + "Insert" + ")";
  }

  /** A keyword that begins no statement the parser knows is an error at
      that keyword. */
  lemma InsertRejected()
    ensures ParseAll(Raw(InsertInput)) == Failed(ParseError(0, "Unexpected keyword token: Keyword(Insert)"))
  {
    var src := Raw(InsertInput);
    InsertAt0();
    DispatchOther(src, 0, 0, 6, KeywordKind.Insert);
    InsertMessage();
    FirstFails(src, ParseError(0, "Unexpected keyword token: Keyword(Insert)"));
  }

  /** The empty request holds no statements. */
  lemma EmptyRequest()
    ensures ParseAll(Raw([])) == Done(AST([]))
  {
  }

  // `commit work;`

  const WorkInput: seq<Byte> := Ascii("commit work;")

  lemma WorkBytes()
    ensures WorkInput == [99, 111, 109, 109, 105, 116, 32, 119, 111, 114, 107, 59]
  {
  }

  lemma WorkAt0()
    ensures |WorkInput| == 12
    ensures Next(WorkInput, 0) == Step(Done(Token(Keyword(KeywordKind.Commit), 0)), 6)
    ensures Next(WorkInput, 6) == Step(Done(Token(Whitespace(Space), 6)), 7)
  {
    WorkBytes();
    assert WorkInput[0..6] == [99, 111, 109, 109, 105, 116];
    NextKeyword(WorkInput, 0, 6, KeywordKind.Commit);
    NextSingle(WorkInput, 6, Whitespace(Space));
  }

  lemma WorkWord7()
    ensures forall i :: 7 <= i < 11 ==> IsLetter(WorkInput[i])
    ensures !IsLetter(WorkInput[11])
    ensures Text(LowerBytes(WorkInput[7..11])) == Spelling(Work)
  {
    WorkBytes();
    assert WorkInput[7..11] == [119, 111, 114, 107];
  }

  lemma WorkAt7()
    ensures Next(WorkInput, 7) == Step(Done(Token(Keyword(Work), 7)), 11)
    ensures Next(WorkInput, 11) == Step(Done(Token(Punc(SemiColon), 11)), 12)
  {
    WorkWord7();
    NextKeyword(WorkInput, 7, 11, Work);
    WorkBytes();
    NextSingle(WorkInput, 11, Punc(SemiColon));
  }

  /** Parsed straight from its bytes, `commit work;` fails: WORK is looked
      for where the blank after COMMIT is, and so is the `;`. */
  lemma CommitWorkFromBytes()
    ensures ParseAll(Raw(WorkInput)) == Failed(ParseError(6, "missing ';'"))
  {
    var src := Raw(WorkInput);
    WorkAt0();
    DispatchCommit(src, 0, 0, 6);
    assert Eat(src, 6, Keyword(Work)) == Parsed(Done(false), 6);
    assert ParseEol(src, 6).outcome == Failed(ParseError(6, "missing ';'"));
    assert ParseTransactionEnd(src, 6, StatementKind.Commit).outcome == Failed(ParseError(6, "missing ';'"));
    FirstFails(src, ParseError(6, "missing ';'"));
  }

  const WorkRun: Run :=
    Call(Keyword(KeywordKind.Commit), 6, Call(Whitespace(Space), 7,
      Call(Keyword(Work), 11, Call(Punc(SemiColon), 12, Finish))))

  const WorkTokens: seq<Lexeme> := [
    Lexeme(Token(Keyword(KeywordKind.Commit), 0), 6),
    Lexeme(Token(Keyword(Work), 7), 11),
    Lexeme(Token(Punc(SemiColon), 11), 12),
    Lexeme(Token(Eof, 12), 12)
  ]

  lemma WorkFollows()
    ensures Follows(WorkInput, 0, WorkRun)
  {
    WorkAt0();
    WorkAt7();
    assert Follows(WorkInput, 11, Call(Punc(SemiColon), 12, Finish));
    assert Follows(WorkInput, 7, Call(Keyword(Work), 11, Call(Punc(SemiColon), 12, Finish)));
  }

  lemma WorkLexemes()
    ensures RunLexemes(0, WorkRun) == [WorkTokens[0], Lexeme(Token(Whitespace(Space), 6), 7)] + WorkTokens[1..]
  {
    var tail := RunLexemes(7, Call(Keyword(Work), 11, Call(Punc(SemiColon), 12, Finish)));
    assert tail == WorkTokens[1..];
  }

  lemma WorkNoBlanks()
    ensures Significant(WorkTokens) == WorkTokens
  {
    assert forall i :: 0 <= i < |WorkTokens| ==> !Insignificant(WorkTokens[i].token.kind);
    SignificantNone(WorkTokens);
  }

  lemma WorkDropBlank()
    ensures Significant([WorkTokens[0], Lexeme(Token(Whitespace(Space), 6), 7)] + WorkTokens[1..])
         == Significant(WorkTokens)
  {
    var first, rest := WorkTokens[0], WorkTokens[1..];
    var blank := Lexeme(Token(Whitespace(Space), 6), 7);
    BlankIgnored([first], blank, rest);
    assert [first] + [blank] + rest == [first, blank] + rest;
    assert [first] + rest == WorkTokens;
  }

  lemma WorkSignificant()
    ensures Significant(RunLexemes(0, WorkRun)) == WorkTokens
  {
    WorkLexemes();
    WorkDropBlank();
    WorkNoBlanks();
  }

  lemma WorkLexed()
    ensures Tokenize(WorkInput, 0).Done?
    ensures Significant(Tokenize(WorkInput, 0).value) == WorkTokens
  {
    WorkFollows();
    FollowsTokenize(WorkInput, 0, WorkRun);
    WorkSignificant();
  }

  lemma WorkTokensParse()
    ensures Stream(WorkTokens)
    ensures ParseAll(Lexed(WorkTokens)) == Done(AST([StatementKind.Commit]))
  {
    var src := Lexed(WorkTokens);
    assert Stream(WorkTokens);
    assert Pull(src, 0) == Step(Done(Token(Keyword(KeywordKind.Commit), 0)), 1);
    assert Pull(src, 1) == Step(Done(Token(Keyword(Work), 7)), 2);
    assert Pull(src, 2) == Step(Done(Token(Punc(SemiColon), 11)), 3);
    assert Peek(src, 3) == Done(Token(Eof, 12));
    DispatchCommit(src, 0, 0, 1);
    TransactionWork(src, 1, StatementKind.Commit);
    OneStatement(src, 3, StatementKind.Commit);
  }

  /** With blanks dropped, `commit work;` is one COMMIT statement. */
  lemma CommitWorkRequest()
    ensures ParseRequest(WorkInput) == Done(AST([StatementKind.Commit]))
  {
    WorkLexed();
    WorkTokensParse();
  }

  /** The front end reads `commit` as the parser does: `commit work;` and
      `commit` are the same request. */
  lemma CommitRequest()
    ensures ParseRequest(CommitInput) == ParseAll(Raw(CommitInput))
    ensures ParseRequest(CommitInput) == ParseRequest(WorkInput)
  {
    CommitAt0();
    var run := Call(Keyword(KeywordKind.Commit), 6, Finish);
    assert Follows(CommitInput, 0, run);
    FollowsTokenize(CommitInput, 0, run);
    var ls := RunLexemes(0, run);
    assert Significant(ls) == ls by {
      assert ls[1..][1..] == [];
    }
    var src := Lexed(ls);
    assert Pull(src, 0) == Step(Done(Token(Keyword(KeywordKind.Commit), 0)), 1);
    assert Peek(src, 1) == Done(Token(Eof, 6));
    DispatchCommit(src, 0, 0, 1);
    TransactionAtEnd(src, 1, StatementKind.Commit);
    OneStatement(src, 1, StatementKind.Commit);
    CommitTest();
    CommitWorkRequest();
  }
}
