/** The byte-level lexer (src/parser/lexer.rs): a single forward scan over an
    immutable buffer with a cursor. `Next` is one call of `Lexer::next`: it
    takes the cursor and returns what the call produced together with the
    cursor the lexer is left with. */
module Lexer {
  import opened Base
  import opened Tokens
  import opened Keywords

  datatype LexerError = LexerError(message: string, pos: nat)

  /** What one call produced, and the cursor afterwards. */
  datatype Step = Step(outcome: Outcome<Token, LexerError>, cursor: nat)

  const Quote: Byte := '\'' as int
  const Backslash: Byte := '\\' as int

  predicate IsLetter(b: Byte)
  {
    'a' as int <= b <= 'z' as int || 'A' as int <= b <= 'Z' as int
  }

  predicate IsDigit(b: Byte)
  {
    '0' as int <= b <= '9' as int
  }

  /** The fixed one-byte table: whitespace, line terminators and the
      single-byte punctuation. */
  function SingleByteKind(b: Byte): Option<TokenKind>
  {
    if b == '\t' as int then Option.Some(Whitespace(HorizontalTab))
    else if b == ' ' as int then Option.Some(Whitespace(Space))
    else if b == '\n' as int then Option.Some(LineTerminator(LineFeed))
    else if b == '\r' as int then Option.Some(LineTerminator(CarridgeReturn))
    else if b == '(' as int then Option.Some(Punc(LParen))
    else if b == ')' as int then Option.Some(Punc(RParen))
    else if b == '[' as int then Option.Some(Punc(LBracket))
    else if b == ']' as int then Option.Some(Punc(RBracket))
    else if b == ',' as int then Option.Some(Punc(Comma))
    else if b == ';' as int then Option.Some(Punc(SemiColon))
    else if b == ':' as int then Option.Some(Punc(Colon))
    else if b == '=' as int then Option.Some(Punc(PuncKind.Equal))
    else None
  }

  /** The end of the maximal run of ASCII letters starting at `i`. */
  function LetterRunEnd(data: seq<Byte>, i: nat): (j: nat)
    requires i <= |data|
    ensures i <= j <= |data|
    ensures forall k :: i <= k < j ==> IsLetter(data[k])
    ensures j == |data| || !IsLetter(data[j])
    decreases |data| - i
  {
    if i < |data| && IsLetter(data[i]) then LetterRunEnd(data, i + 1) else i
  }

  /** The run starting at `i` ends at the first non-letter. */
  lemma {:induction false} LetterRunEndsAt(data: seq<Byte>, i: nat, j: nat)
    requires i <= j <= |data|
    requires forall k :: i <= k < j ==> IsLetter(data[k])
    requires j == |data| || !IsLetter(data[j])
    ensures LetterRunEnd(data, i) == j
    decreases j - i
  {
    if i < j {
      LetterRunEndsAt(data, i + 1, j);
    }
  }

  /** A quote at `j` closes a string literal unless a backslash precedes it. */
  predicate Closes(data: seq<Byte>, j: nat)
  {
    0 < j < |data| && data[j] == Quote && data[j - 1] != Backslash
  }

  /** The search for the closing quote, from `j` on. `None` means the search
      ran off the end of the buffer. */
  function ClosingQuote(data: seq<Byte>, j: nat): (r: Option<nat>)
    requires 0 < j <= |data|
    ensures r.Some? ==> j <= r.value < |data| && Closes(data, r.value)
    ensures r.Some? ==> forall k :: j <= k < r.value ==> !Closes(data, k)
    ensures r.None? ==> forall k :: j <= k < |data| ==> !Closes(data, k)
    decreases |data| - j
  {
    if j == |data| then None
    else if data[j] == Quote && data[j - 1] != Backslash then Option.Some(j)
    else ClosingQuote(data, j + 1)
  }

  /** The search stops at the first closing quote. */
  lemma {:induction false} ClosingQuoteAt(data: seq<Byte>, j: nat, close: nat)
    requires 0 < j <= close < |data|
    requires forall k :: j <= k < close ==> !Closes(data, k)
    requires Closes(data, close)
    ensures ClosingQuote(data, j) == Option.Some(close)
    decreases close - j
  {
    if j < close {
      ClosingQuoteAt(data, j + 1, close);
    }
  }

  /** Without a quote from `j` on, the search finds nothing. */
  lemma {:induction false} NoClosingQuote(data: seq<Byte>, j: nat)
    requires 0 < j <= |data|
    requires forall k :: j <= k < |data| ==> !Closes(data, k)
    ensures ClosingQuote(data, j) == None
    decreases |data| - j
  {
    if j < |data| {
      NoClosingQuote(data, j + 1);
    }
  }

  /** `lex_single_chars`: the cursor is bumped before the byte is classified,
      so an unknown byte still moves the cursor past it. */
  function LexSingleChar(data: seq<Byte>, pos: nat): (s: Step)
    requires pos < |data|
    ensures s.cursor == pos + 1
    ensures SingleByteKind(data[pos]).Some? ==>
      s.outcome == Done(Token(SingleByteKind(data[pos]).value, pos))
    ensures SingleByteKind(data[pos]).None? ==>
      s.outcome == Failed(LexerError("unknown artifact", pos))
  {
    match SingleByteKind(data[pos])
    case Some(kind) => Step(Done(Token(kind, pos)), pos + 1)
    case None => Step(Failed(LexerError("unknown artifact", pos)), pos + 1)
  }

  /** `lex_string_literal`: the content is the raw bytes between the opening
      quote and the first later quote not preceded by a backslash. Running
      off the end of the buffer is the source's out-of-bounds panic. */
  function LexStringLiteral(data: seq<Byte>, pos: nat): (s: Step)
    requires pos < |data| && data[pos] == Quote
    ensures !s.outcome.Failed?
    ensures s.outcome.Done? ==>
      && pos + 2 <= s.cursor <= |data|
      && Closes(data, s.cursor - 1)
      && (forall k :: pos < k < s.cursor - 1 ==> !Closes(data, k))
      && s.outcome.value == Token(Literal(String(data[pos + 1..s.cursor - 1])), pos)
    ensures s.outcome.Halted? ==>
      && s.outcome.halt == IndexOutOfBounds(|data|)
      && forall k :: pos < k < |data| ==> !Closes(data, k)
  {
    match ClosingQuote(data, pos + 1)
    case Some(close) =>
      Step(Done(Token(Literal(String(data[pos + 1..close])), pos)), close + 1)
    case None =>
      Step(Halted(IndexOutOfBounds(|data|)), |data|)
  }

  /** `lex_identifier_or_kw`: a maximal run of letters, classified through
      the keyword table. */
  function LexIdentifierOrKeyword(data: seq<Byte>, pos: nat): (s: Step)
    requires pos < |data| && IsLetter(data[pos])
    ensures s.outcome.Done? && s.outcome.value.pos == pos
    ensures pos < s.cursor <= |data|
    ensures forall k :: pos <= k < s.cursor ==> IsLetter(data[k])
    ensures s.cursor == |data| || !IsLetter(data[s.cursor])
    ensures s.outcome.value.kind.Keyword? || s.outcome.value.kind == Identifier(data[pos..s.cursor])
    ensures forall k :: s.outcome.value.kind == Keyword(k) <==> Text(LowerBytes(data[pos..s.cursor])) == Spelling(k)
  {
    var end := LetterRunEnd(data, pos);
    var word := data[pos..end];
    match MatchKeyword(word)
    case Some(k) => Step(Done(Token(Keyword(k), pos)), end)
    case None => Step(Done(Token(Identifier(word), pos)), end)
  }

  /** A produced token is accurate about the bytes it came from: the span
      `data[pos..end]` spells it. Keywords are matched after lower-casing, and
      a string literal's span includes its two quotes. */
  predicate Reslices(data: seq<Byte>, l: Lexeme)
  {
    var pos, end := l.token.pos, l.end;
    match l.token.kind
    case Eof => pos == end && pos >= |data|
    case Comment(_) => false
    case Identifier(text) => pos < end <= |data| && data[pos..end] == text
    case Keyword(k) => pos < end <= |data| && Text(LowerBytes(data[pos..end])) == Spelling(k)
    case Literal(String(text)) =>
      pos + 2 <= end <= |data| && data[pos..end] == [Quote] + text + [Quote]
    case _ => end == pos + 1 <= |data| && SingleByteKind(data[pos]) == Option.Some(l.token.kind)
  }

  /** `Lexer::next`. */
  function Next(data: seq<Byte>, cursor: nat): (s: Step)
    ensures cursor >= |data| ==> s == Step(Done(Token(Eof, cursor)), cursor)
    ensures s.outcome.Done? ==> s.outcome.value.pos == cursor
    ensures s.outcome.Done? && s.outcome.value.kind != Eof ==> cursor < s.cursor <= |data|
    ensures s.outcome.Done? && s.outcome.value.kind == Eof ==> cursor >= |data|
    ensures s.outcome.Failed? ==>
      && cursor < |data|
      && s.outcome.error == LexerError("unknown artifact", cursor)
      && s.cursor == cursor + 1
    ensures s.outcome.Done? ==> Reslices(data, Lexeme(s.outcome.value, s.cursor))
  {
    if cursor >= |data| then Step(Done(Token(Eof, cursor)), cursor)
    else if data[cursor] == Quote then LexStringLiteral(data, cursor)
    else if IsLetter(data[cursor]) then LexIdentifierOrKeyword(data, cursor)
    else if IsDigit(data[cursor]) then Step(Halted(Unimplemented("lex_numerical_literal")), cursor)
    else LexSingleChar(data, cursor)
  }

  /** The byte each one-byte kind is lexed from. */
  function ByteOf(kind: TokenKind): Option<Byte>
  {
    match kind
    case Whitespace(HorizontalTab) => Option.Some('\t' as int)
    case Whitespace(Space) => Option.Some(' ' as int)
    case LineTerminator(LineFeed) => Option.Some('\n' as int)
    case LineTerminator(CarridgeReturn) => Option.Some('\r' as int)
    case Punc(LParen) => Option.Some('(' as int)
    case Punc(RParen) => Option.Some(')' as int)
    case Punc(LBracket) => Option.Some('[' as int)
    case Punc(RBracket) => Option.Some(']' as int)
    case Punc(Comma) => Option.Some(',' as int)
    case Punc(SemiColon) => Option.Some(';' as int)
    case Punc(Colon) => Option.Some(':' as int)
    case Punc(Equal) => Option.Some('=' as int)
    case _ => None
  }

  /** The one-byte table is one-to-one: each kind it yields comes from
      exactly one byte, the one `ByteOf` names. */
  lemma SingleByteTableInverse(b: Byte, kind: TokenKind)
    ensures SingleByteKind(b) == Option.Some(kind) <==> ByteOf(kind) == Option.Some(b)
  {
  }

  /** `next` fails exactly on a byte that starts nothing: not a quote, a
      letter or a digit, and not in the one-byte table. The failure is
      reported at that byte and the cursor moves past it. */
  lemma NextFails(data: seq<Byte>, cursor: nat)
    ensures Next(data, cursor).outcome.Failed? <==>
      && cursor < |data|
      && data[cursor] != Quote && !IsLetter(data[cursor]) && !IsDigit(data[cursor])
      && SingleByteKind(data[cursor]).None?
  {
  }

  /** Operator bytes are not lexed yet: `*`, `.`, `-`, `/` and `<` are all
      unknown artifacts. */
  lemma OperatorsUnknown(data: seq<Byte>, cursor: nat)
    requires cursor < |data|
    requires data[cursor] in {'*' as int, '.' as int, '-' as int, '/' as int, '<' as int}
    ensures Next(data, cursor) == Step(Failed(LexerError("unknown artifact", cursor)), cursor + 1)
  {
    NextFails(data, cursor);
  }

  /** Keyword matching ignores case: words that agree once lower-cased are
      matched alike. */
  lemma MatchIgnoresCase(a: seq<Byte>, b: seq<Byte>)
    requires LowerBytes(a) == LowerBytes(b)
    ensures MatchKeyword(a) == MatchKeyword(b)
  {
  }

  /** A numeral reaches the unwritten numeric-literal routine. */
  lemma DigitsHalt(data: seq<Byte>, cursor: nat)
    requires cursor < |data| && IsDigit(data[cursor])
    ensures Next(data, cursor) == Step(Halted(Unimplemented("lex_numerical_literal")), cursor)
  {
  }
}
