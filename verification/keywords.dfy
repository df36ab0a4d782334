/** The keyword table of the lexer (`match_kw`, src/parser/lexer.rs): an exact,
    case-insensitive lookup of a scanned word among the reserved spellings. */
module Keywords {
  import opened Base
  import opened Tokens

  /** The lower-case spelling under which each keyword is listed. */
  function Spelling(k: KeywordKind): string
  {
    match k
    case Add => "add"
    case All => "all"
    case Alter => "alter"
    case And => "and"
    case Any => "any"
    case As => "as"
    case Asc => "asc"
    case Backup => "backup"
    case Begin => "begin"
    case By => "by"
    case Case => "case"
    case Check => "check"
    case Column => "column"
    case Commit => "commit"
    case Constraint => "constraint"
    case Create => "create"
    case Database => "database"
    case Default => "default"
    case Delete => "delete"
    case Desc => "desc"
    case Distinct => "distinct"
    case Drop => "drop"
    case Else => "else"
    case Exec => "exec"
    case Exists => "exists"
    case Foreign => "foreign"
    case From => "from"
    case Full => "full"
    case Group => "group"
    case Having => "having"
    case If => "if"
    case In => "in"
    case Into => "into"
    case Index => "index"
    case Inner => "inner"
    case Insert => "insert"
    case Is => "is"
    case Join => "join"
    case Key => "key"
    case Left => "left"
    case Like => "like"
    case Limit => "limit"
    case Not => "not"
    case Null => "null"
    case Or => "or"
    case Order => "order"
    case Outer => "outer"
    case Primary => "primary"
    case Procedure => "procedure"
    case Right => "right"
    case Rownum => "rownum"
    case Select => "select"
    case Set => "set"
    case Some => "some"
    case Table => "table"
    case Then => "then"
    case Top => "top"
    case Transaction => "transaction"
    case Truncate => "truncate"
    case Union => "union"
    case Unique => "unique"
    case Update => "update"
    case Values => "values"
    case View => "view"
    case When => "when"
    case Where => "where"
    case Rollback => "rollback"
    case Work => "work"
  }

  /** The number of table entries: the source's 66 plus ROLLBACK and WORK. */
  const KeywordCount: nat := 68

  /** The table entries in the order the source lists them, with ROLLBACK
      and WORK last, selected by bisecting the index range. */
  function KeywordAt(i: nat): KeywordKind
    requires i < KeywordCount
  {
    if i < 34 then
      if i < 17 then
        if i < 8 then
          if i < 4 then
            if i < 2 then
              if i < 1 then
                KeywordKind.Add
              else
                KeywordKind.All
            else
              if i < 3 then
                KeywordKind.Alter
              else
                KeywordKind.And
          else
            if i < 6 then
              if i < 5 then
                KeywordKind.Any
              else
                KeywordKind.As
            else
              if i < 7 then
                KeywordKind.Asc
              else
                KeywordKind.Backup
        else
          if i < 12 then
            if i < 10 then
              if i < 9 then
                KeywordKind.Begin
              else
                KeywordKind.By
            else
              if i < 11 then
                KeywordKind.Case
              else
                KeywordKind.Check
          else
            if i < 14 then
              if i < 13 then
                KeywordKind.Column
              else
                KeywordKind.Commit
            else
              if i < 15 then
                KeywordKind.Constraint
              else
                if i < 16 then
                  KeywordKind.Create
                else
                  KeywordKind.Database
      else
        if i < 25 then
          if i < 21 then
            if i < 19 then
              if i < 18 then
                KeywordKind.Default
              else
                KeywordKind.Delete
            else
              if i < 20 then
                KeywordKind.Desc
              else
                KeywordKind.Distinct
          else
            if i < 23 then
              if i < 22 then
                KeywordKind.Drop
              else
                KeywordKind.Else
            else
              if i < 24 then
                KeywordKind.Exec
              else
                KeywordKind.Exists
        else
          if i < 29 then
            if i < 27 then
              if i < 26 then
                KeywordKind.Foreign
              else
                KeywordKind.From
            else
              if i < 28 then
                KeywordKind.Full
              else
                KeywordKind.Group
          else
            if i < 31 then
              if i < 30 then
                KeywordKind.Having
              else
                KeywordKind.If
            else
              if i < 32 then
                KeywordKind.In
              else
                if i < 33 then
                  KeywordKind.Into
                else
                  KeywordKind.Index
    else
      if i < 51 then
        if i < 42 then
          if i < 38 then
            if i < 36 then
              if i < 35 then
                KeywordKind.Inner
              else
                KeywordKind.Insert
            else
              if i < 37 then
                KeywordKind.Is
              else
                KeywordKind.Join
          else
            if i < 40 then
              if i < 39 then
                KeywordKind.Key
              else
                KeywordKind.Left
            else
              if i < 41 then
                KeywordKind.Like
              else
                KeywordKind.Limit
        else
          if i < 46 then
            if i < 44 then
              if i < 43 then
                KeywordKind.Not
              else
                KeywordKind.Null
            else
              if i < 45 then
                KeywordKind.Or
              else
                KeywordKind.Order
          else
            if i < 48 then
              if i < 47 then
                KeywordKind.Outer
              else
                KeywordKind.Primary
            else
              if i < 49 then
                KeywordKind.Procedure
              else
                if i < 50 then
                  KeywordKind.Right
                else
                  KeywordKind.Rownum
      else
        if i < 59 then
          if i < 55 then
            if i < 53 then
              if i < 52 then
                KeywordKind.Select
              else
                KeywordKind.Set
            else
              if i < 54 then
                KeywordKind.Some
              else
                KeywordKind.Table
          else
            if i < 57 then
              if i < 56 then
                KeywordKind.Then
              else
                KeywordKind.Top
            else
              if i < 58 then
                KeywordKind.Transaction
              else
                KeywordKind.Truncate
        else
          if i < 63 then
            if i < 61 then
              if i < 60 then
                KeywordKind.Union
              else
                KeywordKind.Unique
            else
              if i < 62 then
                KeywordKind.Update
              else
                KeywordKind.Values
          else
            if i < 65 then
              if i < 64 then
                KeywordKind.View
              else
                KeywordKind.When
            else
              if i < 66 then
                KeywordKind.Where
              else
                if i < 67 then
                  KeywordKind.Rollback
                else
                  KeywordKind.Work
  }

  // Proof tables. `FingerprintOwner` and the `Listed*` and `Owned*` lemmas
  // below are not part of the lexer: they exist only so that
  // `SpellingInjective`, `LookupAll` and `Unreserved` can be proved a few
  // keywords at a time instead of over all 68 constructors at once.

  /** The keyword whose spelling starts with the four characters coded by
      `n` (zero-padded, as `PrefixCode` reads them), if any: looked up by the
      first letter and then in full. No two keywords share an entry. */
  function FingerprintOwner(n: int): Option<KeywordKind>
  {
    match n / 0x1000000
    case 0x61 => (
      match n
      case 0x61646400 => Option.Some(KeywordKind.Add)
      case 0x616c6c00 => Option.Some(KeywordKind.All)
      case 0x616c7465 => Option.Some(KeywordKind.Alter)
      case 0x616e6400 => Option.Some(KeywordKind.And)
      case 0x616e7900 => Option.Some(KeywordKind.Any)
      case 0x61730000 => Option.Some(KeywordKind.As)
      case 0x61736300 => Option.Some(KeywordKind.Asc)
      case _ => None
    )
    case 0x62 => (
      match n
      case 0x6261636b => Option.Some(KeywordKind.Backup)
      case 0x62656769 => Option.Some(KeywordKind.Begin)
      case 0x62790000 => Option.Some(KeywordKind.By)
      case _ => None
    )
    case 0x63 => (
      match n
      case 0x63617365 => Option.Some(KeywordKind.Case)
      case 0x63686563 => Option.Some(KeywordKind.Check)
      case 0x636f6c75 => Option.Some(KeywordKind.Column)
      case 0x636f6d6d => Option.Some(KeywordKind.Commit)
      case 0x636f6e73 => Option.Some(KeywordKind.Constraint)
      case 0x63726561 => Option.Some(KeywordKind.Create)
      case _ => None
    )
    case 0x64 => (
      match n
      case 0x64617461 => Option.Some(KeywordKind.Database)
      case 0x64656661 => Option.Some(KeywordKind.Default)
      case 0x64656c65 => Option.Some(KeywordKind.Delete)
      case 0x64657363 => Option.Some(KeywordKind.Desc)
      case 0x64697374 => Option.Some(KeywordKind.Distinct)
      case 0x64726f70 => Option.Some(KeywordKind.Drop)
      case _ => None
    )
    case 0x65 => (
      match n
      case 0x656c7365 => Option.Some(KeywordKind.Else)
      case 0x65786563 => Option.Some(KeywordKind.Exec)
      case 0x65786973 => Option.Some(KeywordKind.Exists)
      case _ => None
    )
    case 0x66 => (
      match n
      case 0x666f7265 => Option.Some(KeywordKind.Foreign)
      case 0x66726f6d => Option.Some(KeywordKind.From)
      case 0x66756c6c => Option.Some(KeywordKind.Full)
      case _ => None
    )
    case 0x67 => (
      match n
      case 0x67726f75 => Option.Some(KeywordKind.Group)
      case _ => None
    )
    case 0x68 => (
      match n
      case 0x68617669 => Option.Some(KeywordKind.Having)
      case _ => None
    )
    case 0x69 => (
      match n
      case 0x69660000 => Option.Some(KeywordKind.If)
      case 0x696e0000 => Option.Some(KeywordKind.In)
      case 0x696e746f => Option.Some(KeywordKind.Into)
      case 0x696e6465 => Option.Some(KeywordKind.Index)
      case 0x696e6e65 => Option.Some(KeywordKind.Inner)
      case 0x696e7365 => Option.Some(KeywordKind.Insert)
      case 0x69730000 => Option.Some(KeywordKind.Is)
      case _ => None
    )
    case 0x6a => (
      match n
      case 0x6a6f696e => Option.Some(KeywordKind.Join)
      case _ => None
    )
    case 0x6b => (
      match n
      case 0x6b657900 => Option.Some(KeywordKind.Key)
      case _ => None
    )
    case 0x6c => (
      match n
      case 0x6c656674 => Option.Some(KeywordKind.Left)
      case 0x6c696b65 => Option.Some(KeywordKind.Like)
      case 0x6c696d69 => Option.Some(KeywordKind.Limit)
      case _ => None
    )
    case 0x6e => (
      match n
      case 0x6e6f7400 => Option.Some(KeywordKind.Not)
      case 0x6e756c6c => Option.Some(KeywordKind.Null)
      case _ => None
    )
    case 0x6f => (
      match n
      case 0x6f720000 => Option.Some(KeywordKind.Or)
      case 0x6f726465 => Option.Some(KeywordKind.Order)
      case 0x6f757465 => Option.Some(KeywordKind.Outer)
      case _ => None
    )
    case 0x70 => (
      match n
      case 0x7072696d => Option.Some(KeywordKind.Primary)
      case 0x70726f63 => Option.Some(KeywordKind.Procedure)
      case _ => None
    )
    case 0x72 => (
      match n
      case 0x72696768 => Option.Some(KeywordKind.Right)
      case 0x726f776e => Option.Some(KeywordKind.Rownum)
      case 0x726f6c6c => Option.Some(KeywordKind.Rollback)
      case _ => None
    )
    case 0x73 => (
      match n
      case 0x73656c65 => Option.Some(KeywordKind.Select)
      case 0x73657400 => Option.Some(KeywordKind.Set)
      case 0x736f6d65 => Option.Some(KeywordKind.Some)
      case _ => None
    )
    case 0x74 => (
      match n
      case 0x7461626c => Option.Some(KeywordKind.Table)
      case 0x7468656e => Option.Some(KeywordKind.Then)
      case 0x746f7000 => Option.Some(KeywordKind.Top)
      case 0x7472616e => Option.Some(KeywordKind.Transaction)
      case 0x7472756e => Option.Some(KeywordKind.Truncate)
      case _ => None
    )
    case 0x75 => (
      match n
      case 0x756e696f => Option.Some(KeywordKind.Union)
      case 0x756e6971 => Option.Some(KeywordKind.Unique)
      case 0x75706461 => Option.Some(KeywordKind.Update)
      case _ => None
    )
    case 0x76 => (
      match n
      case 0x76616c75 => Option.Some(KeywordKind.Values)
      case 0x76696577 => Option.Some(KeywordKind.View)
      case _ => None
    )
    case 0x77 => (
      match n
      case 0x7768656e => Option.Some(KeywordKind.When)
      case 0x77686572 => Option.Some(KeywordKind.Where)
      case 0x776f726b => Option.Some(KeywordKind.Work)
      case _ => None
    )
    case _ => None
  }

  /** The table scan from entry `i` on: the first keyword whose spelling is
      exactly `s`. */
  function Find(s: string, i: nat): (r: Option<KeywordKind>)
    requires i <= KeywordCount
    ensures r.Some? ==> Spelling(r.value) == s
    decreases KeywordCount - i
  {
    if i == KeywordCount then None
    else if Spelling(KeywordAt(i)) == s then Option.Some(KeywordAt(i))
    else Find(s, i + 1)
  }

  /** The table lookup on an already lower-cased word. */
  function Lookup(s: string): Option<KeywordKind>
  {
    Find(s, 0)
  }

  /** ASCII lower-casing of one byte; every other byte is left alone. */
  function Lower(b: Byte): Byte
  {
    if 'A' as int <= b <= 'Z' as int then b + 32 else b
  }

  function LowerBytes(word: seq<Byte>): (r: seq<Byte>)
    ensures |r| == |word|
    ensures forall i :: 0 <= i < |word| ==> r[i] == Lower(word[i])
  {
    seq(|word|, i requires 0 <= i < |word| => Lower(word[i]))
  }

  /** Lower-casing twice is lower-casing once. */
  lemma LowerIdempotent(word: seq<Byte>)
    ensures LowerBytes(LowerBytes(word)) == LowerBytes(word)
  {
  }

  /** A byte span read as text, one character per byte. */
  function Text(word: seq<Byte>): (s: string)
    ensures |s| == |word|
    ensures forall i :: 0 <= i < |word| ==> s[i] as int == word[i]
  {
    seq(|word|, i requires 0 <= i < |word| => word[i] as char)
  }


  /** The character code at index `i`, or 0 past the end. */
  function CodeAt(s: string, i: nat): int
  {
    if i < |s| then s[i] as int else 0
  }

  /** The first four characters of a string, padded with zeros, read as a
      base-256 number. */
  function PrefixCode(s: string): int
  {
    ((CodeAt(s, 0) * 256 + CodeAt(s, 1)) * 256 + CodeAt(s, 2)) * 256 + CodeAt(s, 3)
  }

  /** `Listed` for the keywords from Add to Database. */
  lemma ListedAddToDatabase(k: KeywordKind)
    requires k.Add? || k.All? || k.Alter? || k.And? || k.Any? || k.As? || k.Asc? || k.Backup? || k.Begin? || k.By? || k.Case? || k.Check? || k.Column? || k.Commit? || k.Constraint? || k.Create? || k.Database?
    ensures exists i :: 0 <= i < KeywordCount && KeywordAt(i) == k
  {
    match k
    case Add => assert KeywordAt(0) == KeywordKind.Add;
    case All => assert KeywordAt(1) == KeywordKind.All;
    case Alter => assert KeywordAt(2) == KeywordKind.Alter;
    case And => assert KeywordAt(3) == KeywordKind.And;
    case Any => assert KeywordAt(4) == KeywordKind.Any;
    case As => assert KeywordAt(5) == KeywordKind.As;
    case Asc => assert KeywordAt(6) == KeywordKind.Asc;
    case Backup => assert KeywordAt(7) == KeywordKind.Backup;
    case Begin => assert KeywordAt(8) == KeywordKind.Begin;
    case By => assert KeywordAt(9) == KeywordKind.By;
    case Case => assert KeywordAt(10) == KeywordKind.Case;
    case Check => assert KeywordAt(11) == KeywordKind.Check;
    case Column => assert KeywordAt(12) == KeywordKind.Column;
    case Commit => assert KeywordAt(13) == KeywordKind.Commit;
    case Constraint => assert KeywordAt(14) == KeywordKind.Constraint;
    case Create => assert KeywordAt(15) == KeywordKind.Create;
    case Database => assert KeywordAt(16) == KeywordKind.Database;
    case _ => assert false;
  }

  /** `Listed` for the keywords from Default to Having. */
  lemma ListedDefaultToHaving(k: KeywordKind)
    requires k.Default? || k.Delete? || k.Desc? || k.Distinct? || k.Drop? || k.Else? || k.Exec? || k.Exists? || k.Foreign? || k.From? || k.Full? || k.Group? || k.Having?
    ensures exists i :: 0 <= i < KeywordCount && KeywordAt(i) == k
  {
    match k
    case Default => assert KeywordAt(17) == KeywordKind.Default;
    case Delete => assert KeywordAt(18) == KeywordKind.Delete;
    case Desc => assert KeywordAt(19) == KeywordKind.Desc;
    case Distinct => assert KeywordAt(20) == KeywordKind.Distinct;
    case Drop => assert KeywordAt(21) == KeywordKind.Drop;
    case Else => assert KeywordAt(22) == KeywordKind.Else;
    case Exec => assert KeywordAt(23) == KeywordKind.Exec;
    case Exists => assert KeywordAt(24) == KeywordKind.Exists;
    case Foreign => assert KeywordAt(25) == KeywordKind.Foreign;
    case From => assert KeywordAt(26) == KeywordKind.From;
    case Full => assert KeywordAt(27) == KeywordKind.Full;
    case Group => assert KeywordAt(28) == KeywordKind.Group;
    case Having => assert KeywordAt(29) == KeywordKind.Having;
    case _ => assert false;
  }

  /** `Listed` for the keywords from If to Left. */
  lemma ListedIfToLeft(k: KeywordKind)
    requires k.If? || k.In? || k.Into? || k.Index? || k.Inner? || k.Insert? || k.Is? || k.Join? || k.Key? || k.Left?
    ensures exists i :: 0 <= i < KeywordCount && KeywordAt(i) == k
  {
    match k
    case If => assert KeywordAt(30) == KeywordKind.If;
    case In => assert KeywordAt(31) == KeywordKind.In;
    case Into => assert KeywordAt(32) == KeywordKind.Into;
    case Index => assert KeywordAt(33) == KeywordKind.Index;
    case Inner => assert KeywordAt(34) == KeywordKind.Inner;
    case Insert => assert KeywordAt(35) == KeywordKind.Insert;
    case Is => assert KeywordAt(36) == KeywordKind.Is;
    case Join => assert KeywordAt(37) == KeywordKind.Join;
    case Key => assert KeywordAt(38) == KeywordKind.Key;
    case Left => assert KeywordAt(39) == KeywordKind.Left;
    case _ => assert false;
  }

  /** `Listed` for the keywords from Like to Right. */
  lemma ListedLikeToRight(k: KeywordKind)
    requires k.Like? || k.Limit? || k.Not? || k.Null? || k.Or? || k.Order? || k.Outer? || k.Primary? || k.Procedure? || k.Right?
    ensures exists i :: 0 <= i < KeywordCount && KeywordAt(i) == k
  {
    match k
    case Like => assert KeywordAt(40) == KeywordKind.Like;
    case Limit => assert KeywordAt(41) == KeywordKind.Limit;
    case Not => assert KeywordAt(42) == KeywordKind.Not;
    case Null => assert KeywordAt(43) == KeywordKind.Null;
    case Or => assert KeywordAt(44) == KeywordKind.Or;
    case Order => assert KeywordAt(45) == KeywordKind.Order;
    case Outer => assert KeywordAt(46) == KeywordKind.Outer;
    case Primary => assert KeywordAt(47) == KeywordKind.Primary;
    case Procedure => assert KeywordAt(48) == KeywordKind.Procedure;
    case Right => assert KeywordAt(49) == KeywordKind.Right;
    case _ => assert false;
  }

  /** `Listed` for the keywords from Rownum to Truncate. */
  lemma ListedRownumToTruncate(k: KeywordKind)
    requires k.Rownum? || k.Select? || k.Set? || k.Some? || k.Table? || k.Then? || k.Top? || k.Transaction? || k.Truncate?
    ensures exists i :: 0 <= i < KeywordCount && KeywordAt(i) == k
  {
    match k
    case Rownum => assert KeywordAt(50) == KeywordKind.Rownum;
    case Select => assert KeywordAt(51) == KeywordKind.Select;
    case Set => assert KeywordAt(52) == KeywordKind.Set;
    case Some => assert KeywordAt(53) == KeywordKind.Some;
    case Table => assert KeywordAt(54) == KeywordKind.Table;
    case Then => assert KeywordAt(55) == KeywordKind.Then;
    case Top => assert KeywordAt(56) == KeywordKind.Top;
    case Transaction => assert KeywordAt(57) == KeywordKind.Transaction;
    case Truncate => assert KeywordAt(58) == KeywordKind.Truncate;
    case _ => assert false;
  }

  /** `Listed` for the keywords from Union to Work. */
  lemma ListedUnionToWork(k: KeywordKind)
    requires k.Union? || k.Unique? || k.Update? || k.Values? || k.View? || k.When? || k.Where? || k.Rollback? || k.Work?
    ensures exists i :: 0 <= i < KeywordCount && KeywordAt(i) == k
  {
    match k
    case Union => assert KeywordAt(59) == KeywordKind.Union;
    case Unique => assert KeywordAt(60) == KeywordKind.Unique;
    case Update => assert KeywordAt(61) == KeywordKind.Update;
    case Values => assert KeywordAt(62) == KeywordKind.Values;
    case View => assert KeywordAt(63) == KeywordKind.View;
    case When => assert KeywordAt(64) == KeywordKind.When;
    case Where => assert KeywordAt(65) == KeywordKind.Where;
    case Rollback => assert KeywordAt(66) == KeywordKind.Rollback;
    case Work => assert KeywordAt(67) == KeywordKind.Work;
    case _ => assert false;
  }

  /** Every keyword has an entry in the table. */
  lemma Listed(k: KeywordKind)
    ensures exists i :: 0 <= i < KeywordCount && KeywordAt(i) == k
  {
    match k
    case Add | All | Alter | And | Any | As | Asc | Backup | Begin | By | Case | Check | Column | Commit | Constraint | Create | Database => ListedAddToDatabase(k);
    case Default | Delete | Desc | Distinct | Drop | Else | Exec | Exists | Foreign | From | Full | Group | Having => ListedDefaultToHaving(k);
    case If | In | Into | Index | Inner | Insert | Is | Join | Key | Left => ListedIfToLeft(k);
    case Like | Limit | Not | Null | Or | Order | Outer | Primary | Procedure | Right => ListedLikeToRight(k);
    case Rownum | Select | Set | Some | Table | Then | Top | Transaction | Truncate => ListedRownumToTruncate(k);
    case Union | Unique | Update | Values | View | When | Where | Rollback | Work => ListedUnionToWork(k);
  }


  /** `FingerprintOwned` for the keywords from Add to Commit. */
  lemma OwnedAddToCommit(k: KeywordKind)
    requires k.Add? || k.All? || k.Alter? || k.And? || k.Any? || k.As? || k.Asc? || k.Backup? || k.Begin? || k.By? || k.Case? || k.Check? || k.Column? || k.Commit?
    ensures FingerprintOwner(PrefixCode(Spelling(k))) == Option.Some(k)
  {
    match k
    case Add => assert PrefixCode(Spelling(k)) == 0x61646400;
    case All => assert PrefixCode(Spelling(k)) == 0x616c6c00;
    case Alter => assert PrefixCode(Spelling(k)) == 0x616c7465;
    case And => assert PrefixCode(Spelling(k)) == 0x616e6400;
    case Any => assert PrefixCode(Spelling(k)) == 0x616e7900;
    case As => assert PrefixCode(Spelling(k)) == 0x61730000;
    case Asc => assert PrefixCode(Spelling(k)) == 0x61736300;
    case Backup => assert PrefixCode(Spelling(k)) == 0x6261636b;
    case Begin => assert PrefixCode(Spelling(k)) == 0x62656769;
    case By => assert PrefixCode(Spelling(k)) == 0x62790000;
    case Case => assert PrefixCode(Spelling(k)) == 0x63617365;
    case Check => assert PrefixCode(Spelling(k)) == 0x63686563;
    case Column => assert PrefixCode(Spelling(k)) == 0x636f6c75;
    case Commit => assert PrefixCode(Spelling(k)) == 0x636f6d6d;
    case _ => assert false;
  }

  /** `FingerprintOwned` for the keywords from Constraint to Exec. */
  lemma OwnedConstraintToExec(k: KeywordKind)
    requires k.Constraint? || k.Create? || k.Database? || k.Default? || k.Delete? || k.Desc? || k.Distinct? || k.Drop? || k.Else? || k.Exec?
    ensures FingerprintOwner(PrefixCode(Spelling(k))) == Option.Some(k)
  {
    match k
    case Constraint => assert PrefixCode(Spelling(k)) == 0x636f6e73;
    case Create => assert PrefixCode(Spelling(k)) == 0x63726561;
    case Database => assert PrefixCode(Spelling(k)) == 0x64617461;
    case Default => assert PrefixCode(Spelling(k)) == 0x64656661;
    case Delete => assert PrefixCode(Spelling(k)) == 0x64656c65;
    case Desc => assert PrefixCode(Spelling(k)) == 0x64657363;
    case Distinct => assert PrefixCode(Spelling(k)) == 0x64697374;
    case Drop => assert PrefixCode(Spelling(k)) == 0x64726f70;
    case Else => assert PrefixCode(Spelling(k)) == 0x656c7365;
    case Exec => assert PrefixCode(Spelling(k)) == 0x65786563;
    case _ => assert false;
  }

  /** `FingerprintOwned` for the keywords from Exists to In. */
  lemma OwnedExistsToIn(k: KeywordKind)
    requires k.Exists? || k.Foreign? || k.From? || k.Full? || k.Group? || k.Having? || k.If? || k.In?
    ensures FingerprintOwner(PrefixCode(Spelling(k))) == Option.Some(k)
  {
    match k
    case Exists => assert PrefixCode(Spelling(k)) == 0x65786973;
    case Foreign => assert PrefixCode(Spelling(k)) == 0x666f7265;
    case From => assert PrefixCode(Spelling(k)) == 0x66726f6d;
    case Full => assert PrefixCode(Spelling(k)) == 0x66756c6c;
    case Group => assert PrefixCode(Spelling(k)) == 0x67726f75;
    case Having => assert PrefixCode(Spelling(k)) == 0x68617669;
    case If => assert PrefixCode(Spelling(k)) == 0x69660000;
    case In => assert PrefixCode(Spelling(k)) == 0x696e0000;
    case _ => assert false;
  }

  /** `FingerprintOwned` for the keywords from Into to Key. */
  lemma OwnedIntoToKey(k: KeywordKind)
    requires k.Into? || k.Index? || k.Inner? || k.Insert? || k.Is? || k.Join? || k.Key?
    ensures FingerprintOwner(PrefixCode(Spelling(k))) == Option.Some(k)
  {
    match k
    case Into => assert PrefixCode(Spelling(k)) == 0x696e746f;
    case Index => assert PrefixCode(Spelling(k)) == 0x696e6465;
    case Inner => assert PrefixCode(Spelling(k)) == 0x696e6e65;
    case Insert => assert PrefixCode(Spelling(k)) == 0x696e7365;
    case Is => assert PrefixCode(Spelling(k)) == 0x69730000;
    case Join => assert PrefixCode(Spelling(k)) == 0x6a6f696e;
    case Key => assert PrefixCode(Spelling(k)) == 0x6b657900;
    case _ => assert false;
  }

  /** `FingerprintOwned` for the keywords from Left to Or. */
  lemma OwnedLeftToOr(k: KeywordKind)
    requires k.Left? || k.Like? || k.Limit? || k.Not? || k.Null? || k.Or?
    ensures FingerprintOwner(PrefixCode(Spelling(k))) == Option.Some(k)
  {
    match k
    case Left => assert PrefixCode(Spelling(k)) == 0x6c656674;
    case Like => assert PrefixCode(Spelling(k)) == 0x6c696b65;
    case Limit => assert PrefixCode(Spelling(k)) == 0x6c696d69;
    case Not => assert PrefixCode(Spelling(k)) == 0x6e6f7400;
    case Null => assert PrefixCode(Spelling(k)) == 0x6e756c6c;
    case Or => assert PrefixCode(Spelling(k)) == 0x6f720000;
    case _ => assert false;
  }

  /** `FingerprintOwned` for the keywords from Order to Rownum. */
  lemma OwnedOrderToRownum(k: KeywordKind)
    requires k.Order? || k.Outer? || k.Primary? || k.Procedure? || k.Right? || k.Rownum?
    ensures FingerprintOwner(PrefixCode(Spelling(k))) == Option.Some(k)
  {
    match k
    case Order => assert PrefixCode(Spelling(k)) == 0x6f726465;
    case Outer => assert PrefixCode(Spelling(k)) == 0x6f757465;
    case Primary => assert PrefixCode(Spelling(k)) == 0x7072696d;
    case Procedure => assert PrefixCode(Spelling(k)) == 0x70726f63;
    case Right => assert PrefixCode(Spelling(k)) == 0x72696768;
    case Rownum => assert PrefixCode(Spelling(k)) == 0x726f776e;
    case _ => assert false;
  }

  /** `FingerprintOwned` for the keywords from Select to Top. */
  lemma OwnedSelectToTop(k: KeywordKind)
    requires k.Select? || k.Set? || k.Some? || k.Table? || k.Then? || k.Top?
    ensures FingerprintOwner(PrefixCode(Spelling(k))) == Option.Some(k)
  {
    match k
    case Select => assert PrefixCode(Spelling(k)) == 0x73656c65;
    case Set => assert PrefixCode(Spelling(k)) == 0x73657400;
    case Some => assert PrefixCode(Spelling(k)) == 0x736f6d65;
    case Table => assert PrefixCode(Spelling(k)) == 0x7461626c;
    case Then => assert PrefixCode(Spelling(k)) == 0x7468656e;
    case Top => assert PrefixCode(Spelling(k)) == 0x746f7000;
    case _ => assert false;
  }

  /** `FingerprintOwned` for the keywords from Transaction to Values. */
  lemma OwnedTransactionToValues(k: KeywordKind)
    requires k.Transaction? || k.Truncate? || k.Union? || k.Unique? || k.Update? || k.Values?
    ensures FingerprintOwner(PrefixCode(Spelling(k))) == Option.Some(k)
  {
    match k
    case Transaction => assert PrefixCode(Spelling(k)) == 0x7472616e;
    case Truncate => assert PrefixCode(Spelling(k)) == 0x7472756e;
    case Union => assert PrefixCode(Spelling(k)) == 0x756e696f;
    case Unique => assert PrefixCode(Spelling(k)) == 0x756e6971;
    case Update => assert PrefixCode(Spelling(k)) == 0x75706461;
    case Values => assert PrefixCode(Spelling(k)) == 0x76616c75;
    case _ => assert false;
  }

  /** `FingerprintOwned` for the keywords from View to Work. */
  lemma OwnedViewToWork(k: KeywordKind)
    requires k.View? || k.When? || k.Where? || k.Rollback? || k.Work?
    ensures FingerprintOwner(PrefixCode(Spelling(k))) == Option.Some(k)
  {
    match k
    case View => assert PrefixCode(Spelling(k)) == 0x76696577;
    case When => assert PrefixCode(Spelling(k)) == 0x7768656e;
    case Where => assert PrefixCode(Spelling(k)) == 0x77686572;
    case Rollback => assert PrefixCode(Spelling(k)) == 0x726f6c6c;
    case Work => assert PrefixCode(Spelling(k)) == 0x776f726b;
    case _ => assert false;
  }

  /** Every keyword owns the entry of its own spelling's first four
      characters. */
  lemma FingerprintOwned(k: KeywordKind)
    ensures FingerprintOwner(PrefixCode(Spelling(k))) == Option.Some(k)
  {
    match k
    case Add | All | Alter | And | Any | As | Asc | Backup | Begin | By | Case | Check | Column | Commit => OwnedAddToCommit(k);
    case Constraint | Create | Database | Default | Delete | Desc | Distinct | Drop | Else | Exec => OwnedConstraintToExec(k);
    case Exists | Foreign | From | Full | Group | Having | If | In => OwnedExistsToIn(k);
    case Into | Index | Inner | Insert | Is | Join | Key => OwnedIntoToKey(k);
    case Left | Like | Limit | Not | Null | Or => OwnedLeftToOr(k);
    case Order | Outer | Primary | Procedure | Right | Rownum => OwnedOrderToRownum(k);
    case Select | Set | Some | Table | Then | Top => OwnedSelectToTop(k);
    case Transaction | Truncate | Union | Unique | Update | Values => OwnedTransactionToValues(k);
    case View | When | Where | Rollback | Work => OwnedViewToWork(k);
  }

  /** No two keywords share a spelling. */
  lemma SpellingInjective(a: KeywordKind, b: KeywordKind)
    ensures Spelling(a) == Spelling(b) ==> a == b
  {
    FingerprintOwned(a);
    FingerprintOwned(b);
  }

  /** The scan finds a spelling listed at or after entry `i`. */
  lemma {:induction false} FindReaches(s: string, i: nat, j: nat)
    requires i <= j < KeywordCount
    requires Spelling(KeywordAt(j)) == s
    ensures Find(s, i).Some?
    decreases j - i
  {
    if Spelling(KeywordAt(i)) != s {
      FindReaches(s, i + 1, j);
    }
  }

  /** Each keyword's spelling is found, and maps back to that keyword. */
  lemma LookupSpelling(k: KeywordKind)
    ensures Lookup(Spelling(k)) == Option.Some(k)
  {
    Listed(k);
    var i :| 0 <= i < KeywordCount && KeywordAt(i) == k;
    FindReaches(Spelling(k), 0, i);
    SpellingInjective(k, Lookup(Spelling(k)).value);
  }

  lemma LookupAll()
    ensures forall k :: Lookup(Spelling(k)) == Option.Some(k)
  {
    forall k ensures Lookup(Spelling(k)) == Option.Some(k) {
      LookupSpelling(k);
    }
  }

  /** `match_kw`: lower-case the word, then look it up. It returns `k`
      exactly when the lower-cased word is `k`'s spelling, and nothing for a
      word that spells no keyword. */
  function MatchKeyword(word: seq<Byte>): (r: Option<KeywordKind>)
    ensures forall k :: r == Option.Some(k) <==> Text(LowerBytes(word)) == Spelling(k)
    ensures r.None? <==> forall k :: Text(LowerBytes(word)) != Spelling(k)
  {
    LookupAll();
    Lookup(Text(LowerBytes(word)))
  }

  /** A word whose lower-cased first four letters start no keyword is an
      identifier. */
  lemma Unreserved(word: seq<Byte>)
    requires FingerprintOwner(PrefixCode(Text(LowerBytes(word)))) == None
    ensures forall k :: Text(LowerBytes(word)) != Spelling(k)
    ensures MatchKeyword(word) == None
  {
    forall k ensures Text(LowerBytes(word)) != Spelling(k) {
      FingerprintOwned(k);
    }
  }
}
