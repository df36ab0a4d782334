/** The recursive-descent parser (src/parser/mod.rs). Every routine takes the
    token source and a cursor and returns its outcome together with the cursor
    it leaves behind; a statement ends with an optional `;` or at the end of
    input. */
module Parser {
  import opened Base
  import opened Tokens
  import opened Lexer
  import opened Tokenizer
  import opened Ast
  import opened ParseErrors

  /** Where tokens come from: the byte lexer run lazily over a request, or a
      token stream lexed beforehand. */
  datatype Source = Raw(data: seq<Byte>) | Lexed(lexemes: seq<Lexeme>)

  /** A cursor the source can continue from: a byte offset within the
      request, or the index of a lexeme of a stream that ends in `Eof`. */
  predicate Valid(src: Source, c: nat)
  {
    match src
    case Raw(data) => c <= |data|
    case Lexed(ls) => Stream(ls) && c < |ls|
  }

  /** How much input is left; every non-`Eof` token shortens it. */
  function Remaining(src: Source, c: nat): nat
    requires Valid(src, c)
  {
    match src
    case Raw(data) => |data| - c
    case Lexed(ls) => |ls| - c
  }

  /** `Lexer::next` on either kind of source. A token stream stays on its
      final `Eof`, as the byte lexer does at the end of its buffer. */
  function Pull(src: Source, c: nat): (s: Step)
    requires Valid(src, c)
    ensures Valid(src, s.cursor)
    ensures Remaining(src, s.cursor) <= Remaining(src, c)
    ensures s.outcome.Done? && s.outcome.value.kind != Eof ==> Remaining(src, s.cursor) < Remaining(src, c)
    ensures s.outcome.Done? && s.outcome.value.kind == Eof ==> s.cursor == c
    ensures src.Lexed? ==> s.outcome == Done(src.lexemes[c].token)
  {
    match src
    case Raw(data) => Next(data, c)
    case Lexed(ls) =>
      var t := ls[c].token;
      Step(Done(t), if t.kind == Eof then c else c + 1)
  }

  /** The lexer's position: the byte offset just past what has been
      consumed. */
  function Position(src: Source, c: nat): nat
    requires Valid(src, c)
  {
    match src
    case Raw(_) => c
    case Lexed(ls) => if c == 0 then 0 else ls[c - 1].end
  }

  /** After a token is consumed, the lexer's position is the end of that
      token: in a request, the token spells the bytes up to it. `Eof`
      consumes nothing. */
  lemma PositionAfterToken(src: Source, c: nat)
    requires Valid(src, c) && Pull(src, c).outcome.Done?
    ensures src.Raw? ==> Reslices(src.data, Lexeme(Pull(src, c).outcome.value, Position(src, Pull(src, c).cursor)))
    ensures src.Lexed? && Pull(src, c).outcome.value.kind != Eof ==> Position(src, Pull(src, c).cursor) == src.lexemes[c].end
    ensures Pull(src, c).outcome.value.kind == Eof ==> Position(src, Pull(src, c).cursor) == Position(src, c)
  {
  }

  /** What a routine produced, and the cursor it leaves behind. */
  datatype Parsed<+T> = Parsed(outcome: Outcome<T, ParseError>, cursor: nat)

  /** The next token, without consuming it. */
  function Peek(src: Source, c: nat): (r: Outcome<Token, LexerError>)
    requires Valid(src, c)
    ensures src.Lexed? ==> r == Done(src.lexemes[c].token)
    ensures src.Raw? && r.Done? ==> r.value.pos == Position(src, c)
    ensures src.Raw? && r.Failed? ==> r.error.pos == Position(src, c)
  {
    Pull(src, c).outcome
  }

  /** Consumes the next token if, and only if, it is of the given kind. A
      lexer error counts as a different kind. */
  function Eat(src: Source, c: nat, kind: TokenKind): (r: Parsed<bool>)
    requires Valid(src, c)
    ensures Valid(src, r.cursor) && Remaining(src, r.cursor) <= Remaining(src, c)
    ensures r.outcome == Done(true) <==> Peek(src, c).Done? && Peek(src, c).value.kind == kind
    ensures r.outcome == Done(true) ==> r.cursor == Pull(src, c).cursor
    ensures r.outcome == Done(false) <==> Peek(src, c).Failed? || (Peek(src, c).Done? && Peek(src, c).value.kind != kind)
    ensures r.outcome == Done(false) ==> r.cursor == c
    ensures Peek(src, c).Halted? ==> r.outcome == Halted(Peek(src, c).halt)
  {
    var s := Pull(src, c);
    match s.outcome
    case Done(t) => if t.kind == kind then Parsed(Done(true), s.cursor) else Parsed(Done(false), c)
    case Failed(_) => Parsed(Done(false), c)
    case Halted(h) => Parsed(Halted(h), c)
  }

  /** Consumes the next token, failing at its position unless it is of the
      given kind. */
  function Expect(src: Source, c: nat, kind: TokenKind): (r: Parsed<Token>)
    requires Valid(src, c)
    ensures r.cursor == Pull(src, c).cursor
    ensures r.outcome.Done? <==> Peek(src, c).Done? && Peek(src, c).value.kind == kind
    ensures r.outcome.Done? ==> r.outcome.value == Peek(src, c).value
    ensures Peek(src, c).Done? && Peek(src, c).value.kind != kind ==>
      r.outcome == Failed(ParseError(Peek(src, c).value.pos, "Unexpected token: " + KindText(Peek(src, c).value.kind)))
  {
    var s := Pull(src, c);
    match s.outcome
    case Done(t) =>
      if t.kind == kind then Parsed(Done(t), s.cursor)
      else Parsed(Failed(ParseError(t.pos, "Unexpected token: " + KindText(t.kind))), s.cursor)
    case Failed(e) => Parsed(Failed(FromLexerError(e)), s.cursor)
    case Halted(h) => Parsed(Halted(h), s.cursor)
  }

  /** `parse_eol`: a statement ends with a `;`, which is consumed, or at the
      end of input, which is left for the caller to see. */
  function ParseEol(src: Source, c: nat): (r: Parsed<()>)
    requires Valid(src, c)
    ensures Valid(src, r.cursor) && Remaining(src, r.cursor) <= Remaining(src, c)
    ensures Peek(src, c).Done? ==>
      var t := Peek(src, c).value;
      if t.kind == Punc(SemiColon) then r == Parsed(Done(()), Pull(src, c).cursor)
      else if t.kind == Eof then r == Parsed(Done(()), c)
      else r.outcome == Failed(ParseError(t.pos, "missing ';'"))
    ensures Peek(src, c).Failed? ==> r.outcome == Failed(FromLexerError(Peek(src, c).error))
  {
    var eaten := Eat(src, c, Punc(SemiColon));
    match eaten.outcome
    case Done(true) => Parsed(Done(()), eaten.cursor)
    case Done(false) => (
      match Peek(src, c)
      case Done(t) =>
        if t.kind == Eof then Parsed(Done(()), c)
        else Parsed(Failed(ParseError(t.pos, "missing ';'")), c)
      case Failed(e) => Parsed(Failed(FromLexerError(e)), c)
      case Halted(h) => Parsed(Halted(h), c)
    )
    case Failed(e) => Parsed(Failed(e), eaten.cursor)
    case Halted(h) => Parsed(Halted(h), eaten.cursor)
  }

  /** The tail shared by COMMIT and ROLLBACK: an optional WORK, then the end
      of the statement. */
  function ParseTransactionEnd(src: Source, c: nat, stmt: StatementKind): (r: Parsed<Option<StatementKind>>)
    requires Valid(src, c)
    ensures Valid(src, r.cursor) && Remaining(src, r.cursor) <= Remaining(src, c)
    ensures r.outcome.Done? ==> r.outcome.value == Option.Some(stmt)
    ensures r.outcome.Done? <==>
      (!Eat(src, c, Keyword(Work)).outcome.Halted? && ParseEol(src, Eat(src, c, Keyword(Work)).cursor).outcome.Done?)
  {
    var work := Eat(src, c, Keyword(Work));
    match work.outcome
    case Halted(h) => Parsed(Halted(h), work.cursor)
    case Failed(e) => Parsed(Failed(e), work.cursor)
    case Done(_) =>
      var eol := ParseEol(src, work.cursor);
      match eol.outcome
      case Done(_) => Parsed(Done(Option.Some(stmt)), eol.cursor)
      case Failed(e) => Parsed(Failed(e), eol.cursor)
      case Halted(h) => Parsed(Halted(h), eol.cursor)
  }

  /** `parse_commit_stmt`, after the COMMIT keyword. */
  function ParseCommit(src: Source, c: nat): (r: Parsed<Option<StatementKind>>)
    requires Valid(src, c)
    ensures Valid(src, r.cursor) && Remaining(src, r.cursor) <= Remaining(src, c)
    ensures r.outcome.Done? ==> r.outcome.value == Option.Some(StatementKind.Commit)
  {
    ParseTransactionEnd(src, c, StatementKind.Commit)
  }

  /** `parse_rollback_stmt`, after the ROLLBACK keyword. */
  function ParseRollback(src: Source, c: nat): (r: Parsed<Option<StatementKind>>)
    requires Valid(src, c)
    ensures Valid(src, r.cursor) && Remaining(src, r.cursor) <= Remaining(src, c)
    ensures r.outcome.Done? ==> r.outcome.value == Option.Some(StatementKind.Rollback)
  {
    ParseTransactionEnd(src, c, StatementKind.Rollback)
  }

  /** `parse_select_clause`: `*` selects everything; a parenthesised list is
      not written yet; anything else is an error at that token. */
  function ParseSelectClause(src: Source, c: nat): (r: Parsed<SelectClause>)
    requires Valid(src, c)
    ensures r.cursor == Pull(src, c).cursor
    ensures r.outcome.Done? <==> Peek(src, c).Done? && Peek(src, c).value.kind == Punc(Star)
    ensures r.outcome.Done? ==> r.outcome.value == SelectAll()
    ensures Peek(src, c).Done? && Peek(src, c).value.kind !in {Punc(Star), Punc(LParen)} ==>
      r.outcome == Failed(ParseError(Peek(src, c).value.pos, "Unexpected token"))
  {
    var s := Pull(src, c);
    match s.outcome
    case Done(t) =>
      if t.kind == Punc(Star) then Parsed(Done(SelectAll()), s.cursor)
      else if t.kind == Punc(LParen) then Parsed(Halted(Unimplemented("parse_select_list")), s.cursor)
      else Parsed(Failed(ParseError(t.pos, "Unexpected token")), s.cursor)
    case Failed(e) => Parsed(Failed(FromLexerError(e)), s.cursor)
    case Halted(h) => Parsed(Halted(h), s.cursor)
  }

  /** An unqualified reference to each table named. */
  predicate PlainDatasets(items: seq<FromItemKind>)
  {
    forall i :: 0 <= i < |items| ==>
      items[i].Dataset? && items[i].reference.schema.None? && items[i].reference.dataset.Some?
  }

  /** The loop of `parse_from_clause`: collects identifiers until the first
      other token, which is consumed. */
  function FromItems(src: Source, c: nat, acc: seq<FromItemKind>): (r: Parsed<seq<FromItemKind>>)
    requires Valid(src, c)
    requires PlainDatasets(acc)
    ensures Valid(src, r.cursor) && Remaining(src, r.cursor) <= Remaining(src, c)
    ensures r.outcome.Done? ==> PlainDatasets(r.outcome.value)
    ensures r.outcome.Done? ==> |r.outcome.value| >= |acc| && r.outcome.value[..|acc|] == acc
    ensures Peek(src, c).Done? && !Peek(src, c).value.kind.Identifier? && Peek(src, c).value.kind != Keyword(KeywordKind.Join) ==>
      r == Parsed(Done(acc), Pull(src, c).cursor)
    decreases Remaining(src, c)
  {
    var s := Pull(src, c);
    match s.outcome
    case Done(t) => (
      match t.kind
      case Identifier(name) =>
        var acc' := acc + [Dataset(NewDatasetReference(name))];
        var r := FromItems(src, s.cursor, acc');
        assert r.outcome.Done? ==> r.outcome.value[..|acc|] == r.outcome.value[..|acc'|][..|acc|];
        r
      case Keyword(Join) => Parsed(Halted(Unimplemented("parse_from_clause")), s.cursor)
      case _ => Parsed(Done(acc), s.cursor)
    )
    case Failed(e) => Parsed(Failed(FromLexerError(e)), s.cursor)
    case Halted(h) => Parsed(Halted(h), s.cursor)
  }

  /** The loop goes on past an identifier, with one more reference. */
  lemma FromItemsStep(src: Source, c: nat, acc: seq<FromItemKind>)
    requires Valid(src, c) && PlainDatasets(acc)
    requires Peek(src, c).Done? && Peek(src, c).value.kind.Identifier?
    ensures PlainDatasets(acc + [Dataset(NewDatasetReference(Peek(src, c).value.kind.text))])
    ensures FromItems(src, c, acc) ==
      FromItems(src, Pull(src, c).cursor, acc + [Dataset(NewDatasetReference(Peek(src, c).value.kind.text))])
  {
  }

  /** The loop stops at JOIN, which is not written yet, and at a lexer
      error or halt, which is its result. */
  lemma FromItemsStops(src: Source, c: nat, acc: seq<FromItemKind>)
    requires Valid(src, c) && PlainDatasets(acc)
    ensures Peek(src, c).Done? && Peek(src, c).value.kind == Keyword(KeywordKind.Join) ==>
      FromItems(src, c, acc).outcome == Halted(Unimplemented("parse_from_clause"))
    ensures Peek(src, c).Failed? ==> FromItems(src, c, acc).outcome == Failed(FromLexerError(Peek(src, c).error))
    ensures Peek(src, c).Halted? ==> FromItems(src, c, acc).outcome == Halted(Peek(src, c).halt)
  {
  }

  /** From `c` the next tokens are the identifiers `names`, one each, and
      after them the source is at `d`. */
  predicate IdentifiersAt(src: Source, c: nat, names: seq<seq<Byte>>, d: nat)
    requires Valid(src, c)
    decreases |names|
  {
    if |names| == 0 then d == c
    else
      var s := Pull(src, c);
      && s.outcome.Done?
      && s.outcome.value.kind == TokenKind.Identifier(names[0])
      && IdentifiersAt(src, s.cursor, names[1..], d)
  }

  /** The token at `d` ends a list of tables: it is neither an identifier
      nor JOIN. */
  predicate EndsTables(src: Source, d: nat)
    requires Valid(src, d)
  {
    Peek(src, d).Done? && !Peek(src, d).value.kind.Identifier? && Peek(src, d).value.kind != Keyword(KeywordKind.Join)
  }

  /** Reading a run of identifiers appends one reference per name, in
      order, and carries on where the run ends. */
  lemma {:induction false} FromItemsReads(src: Source, c: nat, acc: seq<FromItemKind>, names: seq<seq<Byte>>, d: nat)
    requires Valid(src, c) && PlainDatasets(acc) && IdentifiersAt(src, c, names, d)
    ensures Valid(src, d) && PlainDatasets(acc + Datasets(names))
    ensures FromItems(src, c, acc) == FromItems(src, d, acc + Datasets(names))
    decreases |names|
  {
    if |names| == 0 {
      assert acc + Datasets(names) == acc;
    } else {
      var s := Pull(src, c);
      var acc' := acc + [Dataset(NewDatasetReference(names[0]))];
      FromItemsStep(src, c, acc);
      FromItemsReads(src, s.cursor, acc', names[1..], d);
      AppendDatasets(acc, names[0], names[1..]);
      assert [names[0]] + names[1..] == names;
    }
  }

  /** The whole loop over a run of identifiers: ended by another token, it
      yields one reference per name; a lexer error after the run is the
      result instead. */
  lemma FromItemsRun(src: Source, c: nat, acc: seq<FromItemKind>, names: seq<seq<Byte>>, d: nat)
    requires Valid(src, c) && PlainDatasets(acc) && IdentifiersAt(src, c, names, d)
    ensures Valid(src, d)
    ensures EndsTables(src, d) ==> FromItems(src, c, acc) == Parsed(Done(acc + Datasets(names)), Pull(src, d).cursor)
    ensures Peek(src, d).Failed? ==> FromItems(src, c, acc).outcome == Failed(FromLexerError(Peek(src, d).error))
  {
    FromItemsReads(src, c, acc, names, d);
    FromItemsStops(src, d, acc + Datasets(names));
  }

  /** Conversely, a loop that finishes has read a run of identifiers and
      holds exactly one reference per name read. */
  lemma {:induction false} FromItemsDone(src: Source, c: nat, acc: seq<FromItemKind>)
    requires Valid(src, c) && PlainDatasets(acc)
    requires FromItems(src, c, acc).outcome.Done?
    ensures exists names, d ::
      IdentifiersAt(src, c, names, d) && Valid(src, d) && EndsTables(src, d) &&
      FromItems(src, c, acc) == Parsed(Done(acc + Datasets(names)), Pull(src, d).cursor)
    decreases Remaining(src, c)
  {
    var s := Pull(src, c);
    if s.outcome.Done? && s.outcome.value.kind.Identifier? {
      var name := s.outcome.value.kind.text;
      var acc' := acc + [Dataset(NewDatasetReference(name))];
      FromItemsStep(src, c, acc);
      FromItemsDone(src, s.cursor, acc');
      var rest, d :| IdentifiersAt(src, s.cursor, rest, d) && Valid(src, d) && EndsTables(src, d) &&
        FromItems(src, s.cursor, acc') == Parsed(Done(acc' + Datasets(rest)), Pull(src, d).cursor);
      var names := [name] + rest;
      assert names[1..] == rest;
      assert IdentifiersAt(src, c, names, d);
      AppendDatasets(acc, name, rest);
    } else {
      assert IdentifiersAt(src, c, [], c);
      assert acc + Datasets([]) == acc;
    }
  }

  /** `parse_from_clause`: at least one table, or "Missing from clause" at
      the position reached. */
  function ParseFromClause(src: Source, c: nat): (r: Parsed<FromClause>)
    requires Valid(src, c)
    ensures Valid(src, r.cursor) && Remaining(src, r.cursor) <= Remaining(src, c)
    ensures r.outcome.Done? ==> !IsEmpty(r.outcome.value) && PlainDatasets(r.outcome.value.from)
    ensures Peek(src, c).Done? && !Peek(src, c).value.kind.Identifier? && Peek(src, c).value.kind != Keyword(KeywordKind.Join) ==>
      r.outcome == Failed(ParseError(Position(src, Pull(src, c).cursor), "Missing from clause"))
  {
    var items := FromItems(src, c, []);
    match items.outcome
    case Done(from) =>
      if IsEmpty(FromClause(from)) then Parsed(Failed(ParseError(Position(src, items.cursor), "Missing from clause")), items.cursor)
      else Parsed(Done(FromClause(from)), items.cursor)
    case Failed(e) => Parsed(Failed(e), items.cursor)
    case Halted(h) => Parsed(Halted(h), items.cursor)
  }

  /** A from clause holds the tables named before the first other token,
      in order; with none, it is "Missing from clause" at the position
      reached. */
  lemma FromClauseRun(src: Source, c: nat, names: seq<seq<Byte>>, d: nat)
    requires Valid(src, c) && IdentifiersAt(src, c, names, d)
    ensures Valid(src, d)
    ensures EndsTables(src, d) && |names| > 0 ==>
      ParseFromClause(src, c) == Parsed(Done(FromClause(Datasets(names))), Pull(src, d).cursor)
    ensures EndsTables(src, d) && |names| == 0 ==>
      ParseFromClause(src, c).outcome == Failed(ParseError(Position(src, Pull(src, d).cursor), "Missing from clause"))
    ensures Peek(src, d).Failed? ==> ParseFromClause(src, c).outcome == Failed(FromLexerError(Peek(src, d).error))
  {
    FromItemsRun(src, c, [], names, d);
    assert [] + Datasets(names) == Datasets(names);
  }

  /** Conversely, a from clause that parses is one reference per
      identifier read, and there is at least one. */
  lemma FromClauseDone(src: Source, c: nat)
    requires Valid(src, c)
    ensures ParseFromClause(src, c).outcome.Done? ==> exists names, d ::
      IdentifiersAt(src, c, names, d) && Valid(src, d) && EndsTables(src, d) && |names| > 0 &&
      ParseFromClause(src, c) == Parsed(Done(FromClause(Datasets(names))), Pull(src, d).cursor)
  {
    if FromItems(src, c, []).outcome.Done? {
      FromItemsDone(src, c, []);
      var names, d :| IdentifiersAt(src, c, names, d) && Valid(src, d) && EndsTables(src, d) &&
        FromItems(src, c, []) == Parsed(Done([] + Datasets(names)), Pull(src, d).cursor);
      FromClauseRun(src, c, names, d);
    }
  }

  /** `parse_select_stmt`, after the SELECT keyword: a select clause, FROM,
      and a from clause. */
  function ParseSelect(src: Source, c: nat): (r: Parsed<Option<StatementKind>>)
    requires Valid(src, c)
    ensures Valid(src, r.cursor) && Remaining(src, r.cursor) <= Remaining(src, c)
    ensures r.outcome.Done? ==>
      r.outcome.value.Some? && r.outcome.value.value.Select? && WellFormedSelect(r.outcome.value.value.select)
  {
    var select := ParseSelectClause(src, c);
    match select.outcome
    case Failed(e) => Parsed(Failed(e), select.cursor)
    case Halted(h) => Parsed(Halted(h), select.cursor)
    case Done(selectClause) =>
      var from := Expect(src, select.cursor, Keyword(From));
      match from.outcome
      case Failed(e) => Parsed(Failed(e), from.cursor)
      case Halted(h) => Parsed(Halted(h), from.cursor)
      case Done(_) =>
        var fromClause := ParseFromClause(src, from.cursor);
        match fromClause.outcome
        case Failed(e) => Parsed(Failed(e), fromClause.cursor)
        case Halted(h) => Parsed(Halted(h), fromClause.cursor)
        case Done(f) => Parsed(Done(Option.Some(StatementKind.Select(NewSelectStmt(selectClause, f)))), fromClause.cursor)
  }

  /** `SELECT * FROM` and a run of tables: the statement selects
      everything from exactly those tables, in order. */
  lemma SelectRun(src: Source, c: nat, names: seq<seq<Byte>>, d: nat)
    requires Valid(src, c)
    requires Peek(src, c).Done? && Peek(src, c).value.kind == Punc(Star)
    requires Peek(src, Pull(src, c).cursor).Done? && Peek(src, Pull(src, c).cursor).value.kind == Keyword(From)
    requires IdentifiersAt(src, Pull(src, Pull(src, c).cursor).cursor, names, d)
    ensures Valid(src, d)
    ensures EndsTables(src, d) && |names| > 0 ==>
      ParseSelect(src, c) ==
        Parsed(Done(Option.Some(StatementKind.Select(NewSelectStmt(SelectAll(), FromClause(Datasets(names)))))), Pull(src, d).cursor)
    ensures EndsTables(src, d) && |names| == 0 ==>
      ParseSelect(src, c).outcome == Failed(ParseError(Position(src, Pull(src, d).cursor), "Missing from clause"))
  {
    FromClauseRun(src, Pull(src, Pull(src, c).cursor).cursor, names, d);
  }

  /** Conversely, a SELECT that parses read `*`, FROM and a run of at least
      one table, and selects everything from exactly those tables. */
  lemma SelectDone(src: Source, c: nat)
    requires Valid(src, c)
    ensures ParseSelect(src, c).outcome.Done? ==>
      && Peek(src, c).Done? && Peek(src, c).value.kind == Punc(Star)
      && Peek(src, Pull(src, c).cursor).Done? && Peek(src, Pull(src, c).cursor).value.kind == Keyword(From)
      && exists names, d ::
        IdentifiersAt(src, Pull(src, Pull(src, c).cursor).cursor, names, d) && Valid(src, d) && EndsTables(src, d) && |names| > 0 &&
        ParseSelect(src, c) ==
          Parsed(Done(Option.Some(StatementKind.Select(NewSelectStmt(SelectAll(), FromClause(Datasets(names)))))), Pull(src, d).cursor)
  {
    FromClauseDone(src, Pull(src, Pull(src, c).cursor).cursor);
  }

  /** The statement kinds the parser can produce. */
  predicate Producible(s: StatementKind)
  {
    s == StatementKind.Commit || s == StatementKind.Rollback || (s.Select? && WellFormedSelect(s.select))
  }

  /** `parse_stmt`: reads one token and dispatches on it. `Eof` means there
      are no more statements. */
  function ParseStmt(src: Source, c: nat): (r: Parsed<Option<StatementKind>>)
    requires Valid(src, c)
    ensures Valid(src, r.cursor) && Remaining(src, r.cursor) <= Remaining(src, c)
    ensures r.outcome.Done? && r.outcome.value.Some? ==>
      Remaining(src, r.cursor) < Remaining(src, c) && Producible(r.outcome.value.value)
    ensures r.outcome == Done(None) <==> Peek(src, c).Done? && Peek(src, c).value.kind == Eof
    ensures Peek(src, c).Done? && Peek(src, c).value.kind.Keyword? ==>
      var t := Peek(src, c).value;
      t.kind.keyword !in {KeywordKind.Commit, KeywordKind.Create, KeywordKind.Delete, KeywordKind.Rollback, KeywordKind.Select, KeywordKind.Update} ==>
        r.outcome == Failed(ParseError(t.pos, "Unexpected keyword token: " + KindText(t.kind)))
    ensures Peek(src, c).Done? && !Peek(src, c).value.kind.Keyword? && Peek(src, c).value.kind != Eof ==>
      r.outcome == Failed(ParseError(Peek(src, c).value.pos, "Unexpected token: " + KindText(Peek(src, c).value.kind)))
    ensures Peek(src, c).Failed? ==> r.outcome == Failed(FromLexerError(Peek(src, c).error))
  {
    var s := Pull(src, c);
    match s.outcome
    case Done(t) =>
      if t.kind == Eof then Parsed(Done(None), s.cursor)
      else if !t.kind.Keyword? then Parsed(Failed(ParseError(t.pos, "Unexpected token: " + KindText(t.kind))), s.cursor)
      else if t.kind.keyword == KeywordKind.Commit then ParseCommit(src, s.cursor)
      else if t.kind.keyword == KeywordKind.Create then Parsed(Halted(Unimplemented("parse_create_stmt")), s.cursor)
      else if t.kind.keyword == KeywordKind.Delete then Parsed(Halted(Unimplemented("parse_delete_stmt")), s.cursor)
      else if t.kind.keyword == KeywordKind.Rollback then ParseRollback(src, s.cursor)
      else if t.kind.keyword == KeywordKind.Select then ParseSelect(src, s.cursor)
      else if t.kind.keyword == KeywordKind.Update then Parsed(Halted(Unimplemented("parse_update_stmt")), s.cursor)
      else Parsed(Failed(ParseError(t.pos, "Unexpected keyword token: " + KindText(t.kind))), s.cursor)
    case Failed(e) => Parsed(Failed(FromLexerError(e)), s.cursor)
    case Halted(h) => Parsed(Halted(h), s.cursor)
  }

  /** `longer` is `ast` with statements the parser can produce appended. */
  predicate Extends(ast: AST, longer: AST)
  {
    && |longer.stmts| >= |ast.stmts|
    && longer.stmts[..|ast.stmts|] == ast.stmts
    && forall i :: |ast.stmts| <= i < |longer.stmts| ==> Producible(longer.stmts[i])
  }

  lemma ExtendsAppend(ast: AST, stmt: StatementKind, longer: AST)
    requires Producible(stmt) && Extends(AppendStmt(ast, stmt), longer)
    ensures Extends(ast, longer)
  {
    var next := AppendStmt(ast, stmt);
    assert longer.stmts[..|ast.stmts|] == longer.stmts[..|next.stmts|][..|ast.stmts|];
    assert longer.stmts[|ast.stmts|] == next.stmts[|ast.stmts|];
  }

  /** The loop of `parse`: statements are appended in order until the end
      of input; the first error or halt is the whole result. */
  function ParseFrom(src: Source, c: nat, ast: AST): (r: Outcome<AST, ParseError>)
    requires Valid(src, c)
    ensures r.Done? ==> Extends(ast, r.value)
    decreases Remaining(src, c)
  {
    var s := ParseStmt(src, c);
    match s.outcome
    case Done(Some(stmt)) =>
      var r := ParseFrom(src, s.cursor, AppendStmt(ast, stmt));
      if r.Done? then ExtendsAppend(ast, stmt, r.value); r else r
    case Done(None) => Done(ast)
    case Failed(e) => Failed(e)
    case Halted(h) => Halted(h)
  }

  /** `Parser::parse` as a function: the statements of a whole request. */
  function ParseAll(src: Source): (r: Outcome<AST, ParseError>)
    requires Valid(src, 0)
    ensures r.Done? ==> forall i :: 0 <= i < |r.value.stmts| ==> Producible(r.value.stmts[i])
  {
    ParseFrom(src, 0, NewAst())
  }

  /** From `c` the statements `ss` are parsed, one `parse_stmt` call
      each, and after them the source is at `d`. */
  predicate StatementsAt(src: Source, c: nat, ss: seq<StatementKind>, d: nat)
    requires Valid(src, c)
    decreases |ss|
  {
    if |ss| == 0 then d == c
    else
      var s := ParseStmt(src, c);
      s.outcome == Done(Option.Some(ss[0])) && StatementsAt(src, s.cursor, ss[1..], d)
  }

  /** One statement in front of a run is a longer run. */
  lemma StatementsCons(src: Source, c: nat, stmt: StatementKind, rest: seq<StatementKind>, d: nat)
    requires Valid(src, c) && ParseStmt(src, c).outcome == Done(Option.Some(stmt))
    requires StatementsAt(src, ParseStmt(src, c).cursor, rest, d)
    ensures StatementsAt(src, c, [stmt] + rest, d)
  {
    assert ([stmt] + rest)[1..] == rest;
  }

  /** `parse_stmt` at `d` yields no further statement: the end of input,
      an error or a halt. */
  predicate Stops(src: Source, d: nat)
    requires Valid(src, d)
  {
    var s := ParseStmt(src, d);
    !(s.outcome.Done? && s.outcome.value.Some?)
  }

  /** The loop appends one statement and goes on. */
  lemma ParseFromStep(src: Source, c: nat, ast: AST)
    requires Valid(src, c)
    requires ParseStmt(src, c).outcome.Done? && ParseStmt(src, c).outcome.value.Some?
    ensures ParseFrom(src, c, ast) ==
      ParseFrom(src, ParseStmt(src, c).cursor, AppendStmt(ast, ParseStmt(src, c).outcome.value.value))
  {
  }

  /** Parsing a run of statements appends them one by one, in order, and
      carries on where the run ends. */
  lemma {:induction false} ParseFromReads(src: Source, c: nat, ast: AST, ss: seq<StatementKind>, d: nat)
    requires Valid(src, c) && StatementsAt(src, c, ss, d)
    ensures Valid(src, d)
    ensures ParseFrom(src, c, ast) == ParseFrom(src, d, AppendAll(ast, ss))
    decreases |ss|
  {
    if |ss| > 0 {
      var s := ParseStmt(src, c);
      ParseFromStep(src, c, ast);
      ParseFromReads(src, s.cursor, AppendStmt(ast, ss[0]), ss[1..], d);
    }
  }

  /** The loop over a run of statements: at the end of input it yields
      exactly those statements after the ones it started with; an error or
      halt after the run is the whole result, and nothing parsed before it
      survives. */
  lemma ParseFromRun(src: Source, c: nat, ast: AST, ss: seq<StatementKind>, d: nat)
    requires Valid(src, c) && StatementsAt(src, c, ss, d)
    ensures Valid(src, d)
    ensures ParseStmt(src, d).outcome == Done(None) ==> ParseFrom(src, c, ast) == Done(AST(ast.stmts + ss))
    ensures ParseStmt(src, d).outcome.Failed? ==> ParseFrom(src, c, ast) == Failed(ParseStmt(src, d).outcome.error)
    ensures ParseStmt(src, d).outcome.Halted? ==> ParseFrom(src, c, ast) == Halted(ParseStmt(src, d).outcome.halt)
  {
    ParseFromReads(src, c, ast, ss, d);
    AppendAllKeepsOrder(ast, ss);
  }

  /** The base case of `ParseFromStops`: where `parse_stmt` yields no
      statement, the loop stops at once, after the empty run. */
  lemma ParseFromStopsHere(src: Source, c: nat, ast: AST)
    requires Valid(src, c)
    requires !(ParseStmt(src, c).outcome.Done? && ParseStmt(src, c).outcome.value.Some?)
    ensures StatementsAt(src, c, [], c) && Stops(src, c)
    ensures ParseFrom(src, c, ast) == ParseFrom(src, c, AST(ast.stmts + []))
  {
    assert AST(ast.stmts + []) == ast;
  }

  /** The inductive step of `ParseFromStops`: a stop reached after the
      first statement is reached from the start, one statement later. */
  lemma ParseFromStopsCons(src: Source, c: nat, ast: AST, stmt: StatementKind, rest: seq<StatementKind>, d: nat)
    requires Valid(src, c) && ParseStmt(src, c).outcome == Done(Option.Some(stmt))
    requires StatementsAt(src, ParseStmt(src, c).cursor, rest, d) && Valid(src, d)
    requires ParseFrom(src, ParseStmt(src, c).cursor, AppendStmt(ast, stmt)) == ParseFrom(src, d, AST(AppendStmt(ast, stmt).stmts + rest))
    ensures StatementsAt(src, c, [stmt] + rest, d)
    ensures ParseFrom(src, c, ast) == ParseFrom(src, d, AST(ast.stmts + ([stmt] + rest)))
  {
    StatementsCons(src, c, stmt, rest, d);
    AppendStmtThen(ast, stmt, rest);
    ParseFromStep(src, c, ast);
  }

  /** Conversely, the loop always parses some run of statements and then
      stops, with the statements of that run after the ones it started
      with. */
  lemma {:induction false} ParseFromStops(src: Source, c: nat, ast: AST)
    requires Valid(src, c)
    ensures exists ss, d ::
      StatementsAt(src, c, ss, d) && Valid(src, d) && Stops(src, d) &&
      ParseFrom(src, c, ast) == ParseFrom(src, d, AST(ast.stmts + ss))
    decreases Remaining(src, c)
  {
    var s := ParseStmt(src, c);
    if s.outcome.Done? && s.outcome.value.Some? {
      var stmt := s.outcome.value.value;
      var next := AppendStmt(ast, stmt);
      ParseFromStops(src, s.cursor, next);
      var rest, d :|
        StatementsAt(src, s.cursor, rest, d) && Valid(src, d) && Stops(src, d) &&
        ParseFrom(src, s.cursor, next) == ParseFrom(src, d, AST(next.stmts + rest));
      ParseFromStopsCons(src, c, ast, stmt, rest, d);
    } else {
      ParseFromStopsHere(src, c, ast);
    }
  }

  /** A request parses to exactly the statements `parse_stmt` yields one
      after another up to the end of input; any error or halt on the way
      is the whole result. */
  lemma ParseAllRun(src: Source, ss: seq<StatementKind>, d: nat)
    requires Valid(src, 0) && StatementsAt(src, 0, ss, d)
    ensures Valid(src, d)
    ensures ParseStmt(src, d).outcome == Done(None) ==> ParseAll(src) == Done(AST(ss))
    ensures ParseStmt(src, d).outcome.Failed? ==> ParseAll(src) == Failed(ParseStmt(src, d).outcome.error)
    ensures ParseStmt(src, d).outcome.Halted? ==> ParseAll(src) == Halted(ParseStmt(src, d).outcome.halt)
  {
    ParseFromRun(src, 0, NewAst(), ss, d);
    assert NewAst().stmts + ss == ss;
  }

  /** Conversely, a parsed request is a run of statements ended by the end
      of input, and a failed one is a run of statements followed by the
      error. */
  lemma ParseAllStatements(src: Source)
    requires Valid(src, 0)
    ensures ParseAll(src).Done? ==> exists ss, d ::
      StatementsAt(src, 0, ss, d) && Valid(src, d) && ParseStmt(src, d).outcome == Done(None) &&
      ParseAll(src) == Done(AST(ss))
    ensures ParseAll(src).Failed? ==> exists ss, d ::
      StatementsAt(src, 0, ss, d) && Valid(src, d) && ParseStmt(src, d).outcome == Failed(ParseAll(src).error)
    ensures ParseAll(src).Halted? ==> exists ss, d ::
      StatementsAt(src, 0, ss, d) && Valid(src, d) && ParseStmt(src, d).outcome == Halted(ParseAll(src).halt)
  {
    ParseFromStops(src, 0, NewAst());
    var ss, d :|
      StatementsAt(src, 0, ss, d) && Valid(src, d) && Stops(src, d) &&
      ParseAll(src) == ParseFrom(src, d, AST(NewAst().stmts + ss));
    ParseAllRun(src, ss, d);
  }

  /** `Parser::parse`, written as the source's loop. */
  method Parse(src: Source) returns (r: Outcome<AST, ParseError>)
    requires Valid(src, 0)
    ensures r == ParseAll(src)
    ensures r.Done? ==> forall i :: 0 <= i < |r.value.stmts| ==> Producible(r.value.stmts[i])
  {
    var ast := NewAst();
    var c := 0;
    while true
      invariant Valid(src, c)
      invariant ParseFrom(src, c, ast) == ParseAll(src)
      decreases Remaining(src, c)
    {
      var s := ParseStmt(src, c);
      match s.outcome {
        case Done(Some(stmt)) =>
          ast := AppendStmt(ast, stmt);
          c := s.cursor;
        case Done(None) =>
          return Done(ast);
        case Failed(e) =>
          return Failed(e);
        case Halted(h) =>
          return Halted(h);
      }
    }
  }
}
