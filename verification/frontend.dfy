/** A request front end that gives the grammar the token source it is
    written against: the request is lexed to the end, whitespace and line
    terminators are dropped, and the parser reads what is left. */
module Frontend {
  import opened Base
  import opened Tokens
  import opened Lexer
  import opened Tokenizer
  import opened Ast
  import opened ParseErrors
  import opened Parser

  /** Tokens no grammar rule mentions. */
  predicate Insignificant(kind: TokenKind)
  {
    kind.Whitespace? || kind.LineTerminator?
  }

  /** The lexemes of `ls` that matter to the grammar, in their order. */
  function Significant(ls: seq<Lexeme>): (r: seq<Lexeme>)
    ensures |r| <= |ls|
    ensures forall l :: l in r <==> l in ls && !Insignificant(l.token.kind)
    decreases |ls|
  {
    if |ls| == 0 then []
    else if Insignificant(ls[0].token.kind) then
      assert forall l :: l in ls <==> l == ls[0] || l in ls[1..];
      Significant(ls[1..])
    else
      assert forall l :: l in ls <==> l == ls[0] || l in ls[1..];
      [ls[0]] + Significant(ls[1..])
  }

  /** Filtering distributes over concatenation. */
  lemma {:induction false} SignificantAppend(a: seq<Lexeme>, b: seq<Lexeme>)
    ensures Significant(a + b) == Significant(a) + Significant(b)
    decreases |a|
  {
    if |a| > 0 {
      var ab := a + b;
      assert ab[0] == a[0] && ab[1..] == a[1..] + b;
      SignificantAppend(a[1..], b);
      if Insignificant(a[0].token.kind) {
        assert Significant(ab) == Significant(a[1..] + b);
      } else {
        assert Significant(ab) == [a[0]] + Significant(a[1..] + b);
      }
    } else {
      assert a + b == b;
    }
  }

  /** A blank token anywhere in a stream makes no difference to what the
      grammar reads. */
  lemma BlankIgnored(a: seq<Lexeme>, l: Lexeme, b: seq<Lexeme>)
    requires Insignificant(l.token.kind)
    ensures Significant(a + [l] + b) == Significant(a + b)
  {
    assert Significant([l]) == [] by {
      assert [l][1..] == [];
    }
    SignificantAppend(a, [l]);
    SignificantAppend(a + [l], b);
    SignificantAppend(a, b);
  }

  /** Filtering a filtered stream changes nothing. */
  lemma {:induction false} SignificantIdempotent(ls: seq<Lexeme>)
    ensures Significant(Significant(ls)) == Significant(ls)
    decreases |ls|
  {
    if |ls| > 0 {
      SignificantIdempotent(ls[1..]);
      if !Insignificant(ls[0].token.kind) {
        var rest := Significant(ls[1..]);
        assert ([ls[0]] + rest)[0] == ls[0];
        assert ([ls[0]] + rest)[1..] == rest;
      }
    }
  }

  /** A stream without blanks is left as it is. */
  lemma {:induction false} SignificantNone(ls: seq<Lexeme>)
    requires forall i :: 0 <= i < |ls| ==> !Insignificant(ls[i].token.kind)
    ensures Significant(ls) == ls
    decreases |ls|
  {
    if |ls| > 0 {
      assert forall i :: 0 <= i < |ls| - 1 ==> ls[1..][i] == ls[i + 1];
      SignificantNone(ls[1..]);
      assert [ls[0]] + ls[1..] == ls;
    }
  }

  /** A filtered stream is still a stream: `Eof` is kept, and it is still
      last and alone. */
  lemma {:induction false} SignificantStream(ls: seq<Lexeme>)
    requires Stream(ls)
    ensures Stream(Significant(ls))
    decreases |ls|
  {
    if |ls| > 1 {
      var rest := ls[1..];
      assert rest[|rest| - 1] == ls[|ls| - 1];
      assert forall i :: 0 <= i < |rest| - 1 ==> rest[i] == ls[i + 1];
      SignificantStream(rest);
      if !Insignificant(ls[0].token.kind) {
        var r := [ls[0]] + Significant(rest);
        assert forall i :: 0 < i < |r| ==> r[i] == Significant(rest)[i - 1];
      }
    } else {
      assert ls == [ls[0]];
    }
  }

  /** `Parser::parse` over the filtered source: a lexer error anywhere in the
      request is reported before any statement is parsed. */
  function ParseRequest(data: seq<Byte>): (r: Outcome<AST, ParseError>)
    ensures r.Done? ==> forall i :: 0 <= i < |r.value.stmts| ==> Producible(r.value.stmts[i])
    ensures Tokenize(data, 0).Failed? ==> r == Failed(FromLexerError(Tokenize(data, 0).error))
  {
    match Tokenize(data, 0)
    case Done(ls) =>
      SignificantStream(ls);
      ParseAll(Lexed(Significant(ls)))
    case Failed(e) => Failed(FromLexerError(e))
    case Halted(h) => Halted(h)
  }
}
