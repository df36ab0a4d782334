/** Driving the lexer to the end of its buffer: the sequence of lexemes that
    repeated calls of `Lexer::next` produce, and what that sequence says about
    the buffer. */
module Tokenizer {
  import opened Base
  import opened Tokens
  import opened Keywords
  import opened Lexer

  /** A token stream as the parser consumes it: non-empty, ending in exactly
      one `Eof`. */
  predicate Stream(ls: seq<Lexeme>)
  {
    && |ls| > 0
    && ls[|ls| - 1].token.kind == Eof
    && forall i :: 0 <= i < |ls| - 1 ==> ls[i].token.kind != Eof
  }

  /** The lexemes tile `data` from `cursor` on: each starts where the previous
      one ended, each spells its token, and the last is `Eof` at the end. */
  predicate Tiles(data: seq<Byte>, cursor: nat, ls: seq<Lexeme>)
  {
    && Stream(ls)
    && ls[0].token.pos == cursor
    && (forall i :: 0 <= i < |ls| - 1 ==> ls[i].end == ls[i + 1].token.pos)
    && (forall i :: 0 <= i < |ls| ==> Reslices(data, ls[i]))
    && ls[|ls| - 1].token.pos == |data|
  }

  /** Calls `Lexer::next` from `cursor` until it yields `Eof`, stopping at the
      first error or halt. */
  function Tokenize(data: seq<Byte>, cursor: nat): (r: Outcome<seq<Lexeme>, LexerError>)
    requires cursor <= |data|
    ensures r.Done? ==> Stream(r.value) && r.value[0].token.pos == cursor
    ensures r.Failed? ==> cursor <= r.error.pos < |data| && r.error.message == "unknown artifact"
    decreases |data| - cursor
  {
    var s := Next(data, cursor);
    match s.outcome
    case Done(t) =>
      if t.kind == Eof then Done([Lexeme(t, s.cursor)])
      else (
        match Tokenize(data, s.cursor)
        case Done(rest) => Done([Lexeme(t, s.cursor)] + rest)
        case Failed(e) => Failed(e)
        case Halted(h) => Halted(h)
      )
    case Failed(e) => Failed(e)
    case Halted(h) => Halted(h)
  }

  /** What `Tokenize` returns tiles the buffer from the cursor on. */
  lemma {:induction false} TokenizeTiles(data: seq<Byte>, cursor: nat)
    requires cursor <= |data|
    ensures Tokenize(data, cursor).Done? ==> Tiles(data, cursor, Tokenize(data, cursor).value)
    decreases |data| - cursor
  {
    var s := Next(data, cursor);
    if s.outcome.Done? && s.outcome.value.kind != Eof && Tokenize(data, s.cursor).Done? {
      var l := Lexeme(s.outcome.value, s.cursor);
      var rest := Tokenize(data, s.cursor).value;
      TokenizeTiles(data, s.cursor);
      var ls := [l] + rest;
      assert Tokenize(data, cursor).value == ls;
      assert forall i :: 0 < i < |ls| ==> ls[i] == rest[i - 1];
      assert Reslices(data, ls[0]);
    }
  }

  /** The kinds of a sequence of lexemes, in order. */
  function Kinds(ls: seq<Lexeme>): (r: seq<TokenKind>)
    ensures |r| == |ls|
    ensures forall i :: 0 <= i < |ls| ==> r[i] == ls[i].token.kind
  {
    seq(|ls|, i requires 0 <= i < |ls| => ls[i].token.kind)
  }

  /** One step of `Tokenize`: a non-`Eof` token, then the rest. */
  lemma TokenizeCons(data: seq<Byte>, cursor: nat, l: Lexeme, rest: seq<Lexeme>)
    requires cursor <= |data|
    requires Next(data, cursor) == Step(Done(l.token), l.end)
    requires l.token.kind != Eof
    requires Tokenize(data, l.end) == Done(rest)
    ensures Tokenize(data, cursor) == Done([l] + rest)
  {
  }

  /** A planned run of `next` calls: each yields a kind and ends where the
      next one starts. */
  datatype Run = Finish | Call(kind: TokenKind, end: nat, rest: Run)

  /** The kinds a run yields, followed by the final `Eof`. */
  function RunKinds(run: Run): seq<TokenKind>
  {
    match run
    case Finish => [Eof]
    case Call(kind, _, rest) => [kind] + RunKinds(rest)
  }

  /** The lexemes a run yields from `cursor` on, ending in `Eof`. */
  function RunLexemes(cursor: nat, run: Run): seq<Lexeme>
    decreases run
  {
    match run
    case Finish => [Lexeme(Token(Eof, cursor), cursor)]
    case Call(kind, end, rest) => [Lexeme(Token(kind, cursor), end)] + RunLexemes(end, rest)
  }

  lemma {:induction false} RunLexemesKinds(cursor: nat, run: Run)
    ensures Kinds(RunLexemes(cursor, run)) == RunKinds(run)
    decreases run
  {
    match run
    case Finish =>
    case Call(kind, end, rest) =>
      RunLexemesKinds(end, rest);
      assert Kinds(RunLexemes(cursor, run)) == [kind] + Kinds(RunLexemes(end, rest));
  }

  /** Each call of `next` in the run, from `cursor` on, does what the run
      says, and the run finishes at the end of the buffer. */
  predicate Follows(data: seq<Byte>, cursor: nat, run: Run)
    decreases run
  {
    match run
    case Finish => cursor == |data|
    case Call(kind, end, rest) =>
      && cursor <= |data| && kind != Eof
      && Next(data, cursor) == Step(Done(Token(kind, cursor)), end)
      && Follows(data, end, rest)
  }

  /** A run of `next` calls that reaches the end of the buffer is what
      `Tokenize` computes. */
  lemma {:induction false} FollowsTokenize(data: seq<Byte>, cursor: nat, run: Run)
    requires Follows(data, cursor, run)
    ensures cursor <= |data| && Tokenize(data, cursor) == Done(RunLexemes(cursor, run))
    ensures Kinds(Tokenize(data, cursor).value) == RunKinds(run)
    decreases run
  {
    RunLexemesKinds(cursor, run);
    match run
    case Finish =>
      TokenizeEnd(data);
    case Call(kind, end, rest) =>
      FollowsTokenize(data, end, rest);
      TokenizeCons(data, cursor, Lexeme(Token(kind, cursor), end), RunLexemes(end, rest));
  }

  /** `Tokenize` at the end of the buffer. */
  lemma TokenizeEnd(data: seq<Byte>)
    ensures Tokenize(data, |data|) == Done([Lexeme(Token(Eof, |data|), |data|)])
  {
  }

  /** A byte of the one-byte table lexes to its kind. */
  lemma NextSingle(data: seq<Byte>, cursor: nat, kind: TokenKind)
    requires cursor < |data| && SingleByteKind(data[cursor]) == Option.Some(kind)
    ensures Next(data, cursor) == Step(Done(Token(kind, cursor)), cursor + 1)
  {
  }

  /** A run of letters that spells a keyword. */
  lemma NextKeyword(data: seq<Byte>, cursor: nat, end: nat, k: KeywordKind)
    requires cursor < end <= |data|
    requires forall i :: cursor <= i < end ==> IsLetter(data[i])
    requires end == |data| || !IsLetter(data[end])
    requires Text(LowerBytes(data[cursor..end])) == Spelling(k)
    ensures Next(data, cursor) == Step(Done(Token(Keyword(k), cursor)), end)
  {
    LetterRunEndsAt(data, cursor, end);
  }

  /** A run of letters that spells no keyword. */
  lemma NextIdentifier(data: seq<Byte>, cursor: nat, end: nat)
    requires cursor < end <= |data|
    requires forall i :: cursor <= i < end ==> IsLetter(data[i])
    requires end == |data| || !IsLetter(data[end])
    requires forall k :: Text(LowerBytes(data[cursor..end])) != Spelling(k)
    ensures Next(data, cursor) == Step(Done(Token(Identifier(data[cursor..end]), cursor)), end)
  {
    LetterRunEndsAt(data, cursor, end);
  }

  /** A quoted string whose closing quote is at `close`. */
  lemma NextString(data: seq<Byte>, cursor: nat, close: nat)
    requires cursor < close < |data| && data[cursor] == Quote
    requires forall k :: cursor < k < close ==> !Closes(data, k)
    requires Closes(data, close)
    ensures Next(data, cursor) == Step(Done(Token(Literal(String(data[cursor + 1..close])), cursor)), close + 1)
  {
    ClosingQuoteAt(data, cursor + 1, close);
  }

  /** A quote that nothing after it closes runs off the end of the buffer:
      there may be quotes ahead, but each follows a backslash. */
  lemma NextUnterminated(data: seq<Byte>, cursor: nat)
    requires cursor < |data| && data[cursor] == Quote
    requires forall k :: cursor < k < |data| ==> !Closes(data, k)
    ensures Next(data, cursor) == Step(Halted(IndexOutOfBounds(|data|)), |data|)
  {
    NoClosingQuote(data, cursor + 1);
  }

  /** A quoted text with no quote inside, and no backslash just before the
      closing quote, lexes as that text. */
  lemma NextQuoted(data: seq<Byte>, cursor: nat, text: seq<Byte>)
    requires cursor + |text| + 2 <= |data|
    requires data[cursor..cursor + |text| + 2] == [Quote] + text + [Quote]
    requires Quote !in text
    requires |text| == 0 || text[|text| - 1] != Backslash
    ensures Next(data, cursor) == Step(Done(Token(Literal(String(text)), cursor)), cursor + |text| + 2)
  {
    var close := cursor + |text| + 1;
    var span := data[cursor..cursor + |text| + 2];
    assert forall i :: 0 <= i < |text| ==> span[i + 1] == text[i];
    assert forall k :: cursor < k < close ==> data[k] == span[k - cursor];
    assert data[cursor] == span[0] && data[close] == span[|text| + 1];
    assert data[close - 1] == span[|text|];
    assert data[cursor + 1..close] == text;
    NextString(data, cursor, close);
  }

  /** The bytes of a lexeme's span; `Eof` spans nothing. */
  function Span(data: seq<Byte>, l: Lexeme): seq<Byte>
    requires l.token.pos <= l.end <= |data|
  {
    data[l.token.pos..l.end]
  }

  /** The spans of consecutive lexemes, joined. */
  function Joined(data: seq<Byte>, ls: seq<Lexeme>): seq<Byte>
    requires forall i :: 0 <= i < |ls| ==> ls[i].token.pos <= ls[i].end <= |data|
    decreases |ls|
  {
    if |ls| == 0 then [] else Span(data, ls[0]) + Joined(data, ls[1..])
  }

  /** Each lexeme of a tiling lies within the buffer. */
  lemma TilesWithin(data: seq<Byte>, cursor: nat, ls: seq<Lexeme>)
    requires Tiles(data, cursor, ls)
    ensures forall i :: 0 <= i < |ls| ==> ls[i].token.pos <= ls[i].end <= |data|
  {
    forall i | 0 <= i < |ls|
      ensures ls[i].token.pos <= ls[i].end <= |data|
    {
      assert Reslices(data, ls[i]);
      if ls[i].token.kind == Eof {
        assert i == |ls| - 1;
      }
    }
  }

  /** A tiling from `cursor` shortened by its first lexeme is a tiling from
      where that lexeme ends. */
  lemma TilesRest(data: seq<Byte>, cursor: nat, ls: seq<Lexeme>)
    requires Tiles(data, cursor, ls) && |ls| > 1
    ensures Tiles(data, ls[0].end, ls[1..])
  {
    var rest := ls[1..];
    assert forall i :: 0 <= i < |rest| ==> rest[i] == ls[i + 1];
  }

  /** The lexer loses no byte and invents none: the spans of a tiling, in
      order, are exactly the rest of the buffer. */
  lemma {:induction false} TilesCover(data: seq<Byte>, cursor: nat, ls: seq<Lexeme>)
    requires Tiles(data, cursor, ls)
    ensures forall i :: 0 <= i < |ls| ==> ls[i].token.pos <= ls[i].end <= |data|
    ensures cursor <= |data| && Joined(data, ls) == data[cursor..]
    decreases |ls|
  {
    TilesWithin(data, cursor, ls);
    if |ls| == 1 {
      assert ls[1..] == [];
      assert Joined(data, ls) == Span(data, ls[0]) + Joined(data, ls[1..]);
    } else {
      TilesRest(data, cursor, ls);
      TilesCover(data, ls[0].end, ls[1..]);
      var mid := ls[0].end;
      assert ls[0].token.kind != Eof;
      assert Joined(data, ls) == data[cursor..mid] + Joined(data, ls[1..]);
      assert data[cursor..] == data[cursor..mid] + data[mid..];
    }
  }

  /** Whitespace and line-terminator bytes. */
  predicate Blank(b: Byte)
  {
    b == '\t' as int || b == ' ' as int || b == '\n' as int || b == '\r' as int
  }

  /** A buffer holding only blanks lexes without error into one whitespace
      or line-terminator token per byte, then `Eof`. */
  lemma {:induction false} BlankInput(data: seq<Byte>, cursor: nat)
    requires cursor <= |data|
    requires forall i :: cursor <= i < |data| ==> Blank(data[i])
    ensures Tokenize(data, cursor).Done?
    ensures |Tokenize(data, cursor).value| == |data| - cursor + 1
    ensures forall i :: 0 <= i < |data| - cursor ==>
      var kind := Tokenize(data, cursor).value[i].token.kind;
      kind.Whitespace? || kind.LineTerminator?
    decreases |data| - cursor
  {
    if cursor < |data| {
      BlankInput(data, cursor + 1);
      var rest := Tokenize(data, cursor + 1).value;
      assert Next(data, cursor).cursor == cursor + 1;
      assert Tokenize(data, cursor).value == [Lexeme(Next(data, cursor).outcome.value, cursor + 1)] + rest;
    }
  }
}
