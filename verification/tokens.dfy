/** The token model of the SQL front-end (src/parser/token.rs): every lexical
    unit is a kind together with the byte offset of its first byte. */
module Tokens {
  import opened Base

  /** The closed set of reserved words. `Rollback` and `Work` are not in the
      source's enumeration, although the parser refers to both; the model
      adds them. */
  datatype KeywordKind =
    | Add | All | Alter | And | Any | As | Asc | Backup | Begin | By | Case
    | Check | Column | Commit | Constraint | Create | Database | Default
    | Delete | Desc | Distinct | Drop | Else | Exec | Exists | Foreign | From
    | Full | Group | Having | If | In | Into | Index | Inner | Insert | Is
    | Join | Key | Left | Like | Limit | Not | Null | Or | Order | Outer
    | Primary | Procedure | Right | Rownum | Select | Set | Some | Table
    | Then | Top | Transaction | Truncate | Union | Unique | Update | Values
    | View | When | Where
    | Rollback | Work

  /** Punctuation, including the multi-byte operators the lexer never
      produces yet. */
  datatype PuncKind =
    | LParen | RParen | LBracket | RBracket | Comma | SemiColon | Colon
    | Star | MultiplyAssign | Period | Add | AddAssign | Subtract
    | SubtractAssign | Divide | DivideAssign | LessThan | LessThanEq
    | GreaterThan | GreaterThanEq | Equal | NotEqual | Modulo | ModuloAssign
    | BitwiseAnd | BitwiseAndAssign | BitwiseOr | BitwiseOrAssign
    | BitwiseXor | BitwiseXorAssign

  /** A string literal carries the raw bytes between its quotes. */
  datatype LiteralKind = String(text: seq<Byte>)

  datatype CommentKind = Single(text: seq<Byte>) | Multi(text: seq<Byte>)

  datatype LineTerminatorKind = LineFeed | CarridgeReturn

  datatype WhitespaceKind = Space | HorizontalTab

  /** Exactly one variant per token; `Eof` is a sentinel without payload. */
  datatype TokenKind =
    | Identifier(text: seq<Byte>)
    | Keyword(keyword: KeywordKind)
    | Literal(literal: LiteralKind)
    | Punc(punc: PuncKind)
    | Comment(comment: CommentKind)
    | LineTerminator(terminator: LineTerminatorKind)
    | Whitespace(whitespace: WhitespaceKind)
    | Eof

  /** A token and the byte offset of its first byte. */
  datatype Token = Token(kind: TokenKind, pos: nat)

  /** A token together with the offset just past its last byte: the lexer's
      cursor after producing it. */
  datatype Lexeme = Lexeme(token: Token, end: nat)
}
