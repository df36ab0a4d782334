/** The syntax tree the parser builds (src/parser/ast.rs). Names and table
    names are the bytes of the spans the lexer cut out of the request. */
module Ast {
  import opened Base

  /** A possibly schema-qualified table name. */
  datatype DatasetReference = DatasetReference(schema: Option<seq<Byte>>, dataset: Option<seq<Byte>>)

  datatype ObjectReference = ObjectReference(dataset: Option<DatasetReference>, obj: Option<seq<Byte>>)

  datatype SelectItemKind = All | Identifier(reference: ObjectReference)

  datatype SelectClause = SelectClause(selected: seq<SelectItemKind>)

  /** The clauses the grammar has not reached yet carry no content. */
  datatype JoinClause = JoinClause
  datatype WhereClause = WhereClause
  datatype GroupByClause = GroupByClause
  datatype HavingClause = HavingClause
  datatype OrderByClause = OrderByClause
  datatype LimitClause = LimitClause

  datatype FromItemKind = Dataset(reference: DatasetReference) | Join(join: JoinClause)

  datatype FromClause = FromClause(from: seq<FromItemKind>)

  datatype SelectStmt = SelectStmt(
    selectClause: SelectClause,
    fromClause: FromClause,
    whereClause: Option<WhereClause>,
    groupByClause: Option<GroupByClause>,
    havingClause: Option<HavingClause>,
    orderByClause: Option<OrderByClause>,
    limitClause: Option<LimitClause>)

  datatype UpdateStmt = UpdateStmt(table: seq<Byte>)
  datatype InsertStmt = InsertStmt(table: seq<Byte>)
  datatype DeleteStmt = DeleteStmt(table: seq<Byte>)
  datatype CreateTableStmt = CreateTableStmt(table: seq<Byte>)

  /** One statement of a request. A block nests further statements. */
  datatype StatementKind =
    | Block(block: BlockStmt)
    | Select(select: SelectStmt)
    | Update(update: UpdateStmt)
    | Insert(insert: InsertStmt)
    | Delete(delete: DeleteStmt)
    | CreateTable(create: CreateTableStmt)
    | Commit
    | Rollback
    | Grant
    | Revoke

  datatype BlockStmt = BlockStmt(stmts: seq<StatementKind>)

  /** The statements of one request, in the order they were written. */
  datatype AST = AST(stmts: seq<StatementKind>)

  /** `AST::new`. */
  function NewAst(): (a: AST)
    ensures |a.stmts| == 0
  {
    AST([])
  }

  /** `AST::append_stmt`: the new statement goes last and the earlier ones
      keep their places. */
  function AppendStmt(a: AST, s: StatementKind): (r: AST)
    ensures |r.stmts| == |a.stmts| + 1
    ensures forall i :: 0 <= i < |a.stmts| ==> r.stmts[i] == a.stmts[i]
    ensures r.stmts[|a.stmts|] == s
  {
    AST(a.stmts + [s])
  }

  /** Appending one statement and then a run is appending the longer run. */
  lemma AppendStmtThen(a: AST, s: StatementKind, rest: seq<StatementKind>)
    ensures AppendStmt(a, s).stmts + rest == a.stmts + ([s] + rest)
  {
  }

  /** Appending statements one by one to an AST, first to last. */
  function AppendAll(a: AST, ss: seq<StatementKind>): AST
    decreases |ss|
  {
    if |ss| == 0 then a else AppendAll(AppendStmt(a, ss[0]), ss[1..])
  }

  /** Appending a list of statements to a fresh AST yields exactly that
      list: nothing is dropped, duplicated or reordered. */
  lemma {:induction false} AppendAllKeepsOrder(a: AST, ss: seq<StatementKind>)
    ensures AppendAll(a, ss).stmts == a.stmts + ss
    decreases |ss|
  {
    if |ss| > 0 {
      AppendAllKeepsOrder(AppendStmt(a, ss[0]), ss[1..]);
      assert a.stmts + [ss[0]] + ss[1..] == a.stmts + ss;
    }
  }

  /** `DatasetReference::new`: an unqualified name. */
  function NewDatasetReference(name: seq<Byte>): (r: DatasetReference)
    ensures r.schema.None?
    ensures r.dataset == Option.Some(name)
  {
    DatasetReference(None, Option.Some(name))
  }

  /** `SelectStmt::new`: the given select and from clauses, and none of the
      optional clauses. */
  function NewSelectStmt(select: SelectClause, from: FromClause): (r: SelectStmt)
    ensures r.selectClause == select && r.fromClause == from
    ensures r.whereClause.None? && r.groupByClause.None? && r.havingClause.None?
    ensures r.orderByClause.None? && r.limitClause.None?
  {
    SelectStmt(select, from, None, None, None, None, None)
  }

  /** `SelectClause::all`: the single item `*`. */
  function SelectAll(): (r: SelectClause)
    ensures |r.selected| == 1 && r.selected[0].All?
  {
    SelectClause([All])
  }

  /** `FromClause::new`. */
  function EmptyFrom(): (r: FromClause)
    ensures IsEmpty(r)
  {
    FromClause([])
  }

  /** `FromClause::table`: the one unqualified table. */
  function Table(name: seq<Byte>): (r: FromClause)
    ensures !IsEmpty(r)
    ensures DatasetNames(r) == [name]
    ensures |r.from| == 1 && r.from[0].Dataset? && r.from[0].reference.schema.None?
  {
    var items := [Dataset(NewDatasetReference(name))];
    assert Names(items[1..]) == [];
    FromClause(items)
  }

  /** `FromClause::is_empty`. */
  predicate IsEmpty(f: FromClause)
  {
    |f.from| == 0
  }

  /** A from clause is empty exactly when it is the one `FromClause::new`
      builds. */
  lemma EmptyIsNew(f: FromClause)
    ensures IsEmpty(f) <==> f == EmptyFrom()
  {
  }

  /** The names a from clause reads from, in order; joins and unnamed
      references contribute nothing. */
  function DatasetNames(f: FromClause): seq<seq<Byte>>
  {
    Names(f.from)
  }

  function Names(items: seq<FromItemKind>): seq<seq<Byte>>
    decreases |items|
  {
    if |items| == 0 then []
    else
      var head := if items[0].Dataset? && items[0].reference.dataset.Some?
                  then [items[0].reference.dataset.value] else [];
      head + Names(items[1..])
  }

  /** A from clause made only of unqualified named references has one name
      per item, and each item is the reference to its name. */
  lemma {:induction false} NamesOfPlainDatasets(items: seq<FromItemKind>)
    requires forall i :: 0 <= i < |items| ==>
      items[i].Dataset? && items[i].reference.schema.None? && items[i].reference.dataset.Some?
    ensures |Names(items)| == |items|
    ensures forall i :: 0 <= i < |items| ==> items[i] == Dataset(NewDatasetReference(Names(items)[i]))
    decreases |items|
  {
    if |items| > 0 {
      NamesOfPlainDatasets(items[1..]);
      var rest := Names(items[1..]);
      assert Names(items) == [items[0].reference.dataset.value] + rest;
      forall i | 0 <= i < |items|
        ensures items[i] == Dataset(NewDatasetReference(Names(items)[i]))
      {
        if i > 0 {
          assert items[i] == items[1..][i - 1];
        }
      }
    }
  }

  /** One unqualified reference per name, in order: what a from clause
      holds after reading those names. */
  function Datasets(names: seq<seq<Byte>>): (items: seq<FromItemKind>)
    ensures |items| == |names|
    ensures forall i :: 0 <= i < |names| ==> items[i] == Dataset(NewDatasetReference(names[i]))
    ensures Names(items) == names
  {
    var items := seq(|names|, i requires 0 <= i < |names| => Dataset(NewDatasetReference(names[i])));
    NamesOfPlainDatasets(items);
    assert forall i :: 0 <= i < |names| ==> NewDatasetReference(Names(items)[i]).dataset == NewDatasetReference(names[i]).dataset;
    items
  }

  /** Reading one more name appends one more reference. */
  lemma DatasetsCons(name: seq<Byte>, names: seq<seq<Byte>>)
    ensures Datasets([name] + names) == [Dataset(NewDatasetReference(name))] + Datasets(names)
  {
    var all := [name] + names;
    assert forall i :: 0 < i < |all| ==> all[i] == names[i - 1];
  }

  /** Appending the references of a run name by name is appending them all
      at once. */
  lemma AppendDatasets(acc: seq<FromItemKind>, name: seq<Byte>, names: seq<seq<Byte>>)
    ensures (acc + [Dataset(NewDatasetReference(name))]) + Datasets(names) == acc + Datasets([name] + names)
  {
    DatasetsCons(name, names);
  }

  /** The shape every SELECT the parser builds has: something selected,
      something to select from, all unqualified, and no optional clause. */
  predicate WellFormedSelect(s: SelectStmt)
  {
    && |s.selectClause.selected| > 0
    && !IsEmpty(s.fromClause)
    && (forall i :: 0 <= i < |s.fromClause.from| ==>
          s.fromClause.from[i].Dataset? && s.fromClause.from[i].reference.schema.None?
          && s.fromClause.from[i].reference.dataset.Some?)
    && s.whereClause.None? && s.groupByClause.None? && s.havingClause.None?
    && s.orderByClause.None? && s.limitClause.None?
  }

  /** `SELECT * FROM t` is well formed, and reads exactly `t`. */
  lemma SelectAllFromTable(name: seq<Byte>)
    ensures WellFormedSelect(NewSelectStmt(SelectAll(), Table(name)))
    ensures DatasetNames(NewSelectStmt(SelectAll(), Table(name)).fromClause) == [name]
  {
  }
}
