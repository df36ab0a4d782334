/** Parse errors (src/parser/mod.rs): a message and the byte offset it refers
    to, the conversion from lexer errors, and the one-line rendering the
    server reports. */
module ParseErrors {
  import opened Base
  import opened Tokens
  import opened Keywords
  import opened Lexer

  datatype ParseError = ParseError(pos: nat, message: string)

  /** `From<LexerError>`: both fields carry over unchanged. */
  function FromLexerError(e: LexerError): (r: ParseError)
    ensures r.pos == e.pos && r.message == e.message
    ensures ToLexerError(r) == e
  {
    ParseError(e.pos, e.message)
  }

  /** The inverse view of a parse error as a lexer error. */
  function ToLexerError(e: ParseError): LexerError
  {
    LexerError(e.message, e.pos)
  }

  // Decimal numerals

  predicate IsDigitChar(c: char)
  {
    '0' <= c <= '9'
  }

  predicate AllDigits(s: string)
  {
    forall i :: 0 <= i < |s| ==> IsDigitChar(s[i])
  }

  /** A numeral as formatting writes it: at least one digit and no leading
      zero except for zero itself. */
  predicate Canonical(s: string)
  {
    |s| > 0 && AllDigits(s) && (s[0] == '0' ==> |s| == 1)
  }

  function DigitChar(d: nat): (c: char)
    requires d < 10
    ensures IsDigitChar(c) && c as int - '0' as int == d
  {
    ('0' as int + d) as char
  }

  /** The decimal numeral of `n`, as `{}` formats an unsigned integer. */
  function Decimal(n: nat): (s: string)
    ensures Canonical(s)
    ensures DigitsValue(s) == n
    decreases n
  {
    if n < 10 then [DigitChar(n)]
    else
      var s := Decimal(n / 10) + [DigitChar(n % 10)];
      assert s[..|s| - 1] == Decimal(n / 10);
      s
  }

  /** The value of a string of decimal digits. */
  function DigitsValue(s: string): nat
    requires AllDigits(s)
    decreases |s|
  {
    if |s| == 0 then 0
    else DigitsValue(s[..|s| - 1]) * 10 + (s[|s| - 1] as int - '0' as int)
  }

  /** Distinct values have distinct numerals, so a canonical numeral is
      determined by its value. */
  lemma {:induction false} CanonicalIsDecimal(s: string)
    requires Canonical(s)
    ensures Decimal(DigitsValue(s)) == s
    decreases |s|
  {
    var n := DigitsValue(s);
    var init := s[..|s| - 1];
    var last := s[|s| - 1] as int - '0' as int;
    if |s| == 1 {
      assert init == [];
      assert DigitsValue(init) == 0;
      assert s == [DigitChar(last)];
    } else {
      assert Canonical(init) by {
        assert init[0] == s[0];
      }
      CanonicalIsDecimal(init);
      assert n / 10 == DigitsValue(init) && n % 10 == last;
      assert Decimal(n) == Decimal(n / 10) + [DigitChar(n % 10)];
      assert s == init + [s[|s| - 1]];
    }
  }

  /** The number of leading digits of `s`. */
  function DigitRun(s: string): (n: nat)
    ensures n <= |s|
    ensures AllDigits(s[..n])
    ensures n == |s| || !IsDigitChar(s[n])
    decreases |s|
  {
    if |s| > 0 && IsDigitChar(s[0]) then
      var n := 1 + DigitRun(s[1..]);
      assert s[..n] == [s[0]] + s[1..][..n - 1];
      n
    else 0
  }

  lemma DigitRunOfNumeral(d: string, rest: string)
    requires AllDigits(d)
    requires |rest| > 0 && !IsDigitChar(rest[0])
    ensures DigitRun(d + rest) == |d|
    decreases |d|
  {
    if |d| > 0 {
      assert (d + rest)[1..] == d[1..] + rest;
      DigitRunOfNumeral(d[1..], rest);
    } else {
      assert d + rest == rest;
    }
  }

  // Rendering

  const Prefix: string := "ERROR[Position:"
  const Separator: string := "]: '"

  /** `Into<String>`: the position in decimal and the message in quotes. */
  function Render(e: ParseError): string
  {
    Prefix + (Decimal(e.pos) + (Separator + (e.message + "'")))
  }

  /** The remainder of `s` after the prefix `p`, if `s` starts with `p`. */
  function StripPrefix(p: string, s: string): (r: Option<string>)
    ensures r.Some? <==> |p| <= |s| && s[..|p|] == p
    ensures r.Some? ==> s == p + r.value
  {
    if |p| <= |s| && s[..|p|] == p then
      assert s == s[..|p|] + s[|p|..];
      Option.Some(s[|p|..])
    else None
  }

  lemma StripPrefixOf(p: string, t: string)
    ensures StripPrefix(p, p + t) == Option.Some(t)
  {
    assert (p + t)[..|p|] == p;
    assert (p + t)[|p|..] == t;
  }

  /** Reads a rendered error back. A string that does not have the exact
      shape `Render` produces yields nothing. */
  function Unrender(s: string): Option<ParseError>
  {
    match StripPrefix(Prefix, s)
    case None => None
    case Some(rest) => ReadNumbered(rest)
  }

  /** Reads what follows the prefix: a numeral, the separator, and the
      message up to a final quote. */
  function ReadNumbered(rest: string): Option<ParseError>
  {
    var n := DigitRun(rest);
    var digits, tail := rest[..n], rest[n..];
    if !Canonical(digits) then None
    else
      match StripPrefix(Separator, tail)
      case None => None
      case Some(body) =>
        if |body| == 0 || body[|body| - 1] != '\'' then None
        else Option.Some(ParseError(DigitsValue(digits), body[..|body| - 1]))
  }

  /** A rendered error reads back as itself. */
  lemma UnrenderRender(e: ParseError)
    ensures Unrender(Render(e)) == Option.Some(e)
  {
    var d := Decimal(e.pos);
    var body := e.message + "'";
    var tail := Separator + body;
    var rest := d + tail;
    StripPrefixOf(Prefix, rest);
    assert Separator[0] == ']';
    DigitRunOfNumeral(d, tail);
    assert rest[..|d|] == d && rest[|d|..] == tail;
    StripPrefixOf(Separator, body);
    assert body[..|body| - 1] == e.message;
  }

  lemma ReadNumberedShape(rest: string)
    requires ReadNumbered(rest).Some?
    ensures rest == Decimal(ReadNumbered(rest).value.pos) + (Separator + (ReadNumbered(rest).value.message + "'"))
  {
    var e := ReadNumbered(rest).value;
    var n := DigitRun(rest);
    var digits, tail := rest[..n], rest[n..];
    var body := StripPrefix(Separator, tail).value;
    CanonicalIsDecimal(digits);
    assert body == e.message + "'";
    assert rest == digits + tail;
  }

  /** Only rendered errors read back: whatever reads back as `e` is exactly
      the rendering of `e`. */
  lemma RenderUnrender(s: string)
    requires Unrender(s).Some?
    ensures Render(Unrender(s).value) == s
  {
    var e := Unrender(s).value;
    var rest := StripPrefix(Prefix, s).value;
    ReadNumberedShape(rest);
  }

  /** Rendering is one-to-one: two errors with the same text are the same
      error. */
  lemma RenderInjective(a: ParseError, b: ParseError)
    ensures Render(a) == Render(b) ==> a == b
  {
    UnrenderRender(a);
    UnrenderRender(b);
  }

  // Token text in messages

  /** The capitalised spelling of a keyword, which is its variant name. */
  function KeywordName(k: KeywordKind): string
  {
    var s := Spelling(k);
    if |s| > 0 && 'a' <= s[0] <= 'z' then [(s[0] as int - 32) as char] + s[1..] else s
  }

  function PuncName(p: PuncKind): string
  {
    match p
    case LParen => "LParen"
    case RParen => "RParen"
    case LBracket => "LBracket"
    case RBracket => "RBracket"
    case Comma => "Comma"
    case SemiColon => "SemiColon"
    case Colon => "Colon"
    case Star => "Star"
    case MultiplyAssign => "MultiplyAssign"
    case Period => "Period"
    case Add => "Add"
    case AddAssign => "AddAssign"
    case Subtract => "Subtract"
    case SubtractAssign => "SubtractAssign"
    case Divide => "Divide"
    case DivideAssign => "DivideAssign"
    case LessThan => "LessThan"
    case LessThanEq => "LessThanEq"
    case GreaterThan => "GreaterThan"
    case GreaterThanEq => "GreaterThanEq"
    case Equal => "Equal"
    case NotEqual => "NotEqual"
    case Modulo => "Modulo"
    case ModuloAssign => "ModuloAssign"
    case BitwiseAnd => "BitwiseAnd"
    case BitwiseAndAssign => "BitwiseAndAssign"
    case BitwiseOr => "BitwiseOr"
    case BitwiseOrAssign => "BitwiseOrAssign"
    case BitwiseXor => "BitwiseXor"
    case BitwiseXorAssign => "BitwiseXorAssign"
  }

  /** A token kind as it appears in an error message: the variant and its
      payload, in the derived debug notation. */
  function KindText(kind: TokenKind): string
  {
    match kind
    case Identifier(text) => "Identifier(\"" + Text(text) + "\")"
    case Keyword(k) => "Keyword(" + KeywordName(k) + ")"
    case Literal(String(text)) => "Literal(String(\"" + Text(text) + "\"))"
    case Punc(p) => "Punc(" + PuncName(p) + ")"
    case Comment(Single(text)) => "Comment(Single(\"" + Text(text) + "\"))"
    case Comment(Multi(text)) => "Comment(Multi(\"" + Text(text) + "\"))"
    case LineTerminator(LineFeed) => "LineTerminator(LineFeed)"
    case LineTerminator(CarridgeReturn) => "LineTerminator(CarridgeReturn)"
    case Whitespace(Space) => "Whitespace(Space)"
    case Whitespace(HorizontalTab) => "Whitespace(HorizontalTab)"
    case Eof => "Eof"
  }
}
