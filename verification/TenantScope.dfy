/**
 The tenant-scoping query rewriter (prisma.service.ts): what it does to the arguments of each
 operation, what the operations do to a table of rows, and why the rewritten operations of a
 tenant see and touch that tenant's slice only.
 */
module TenantScope {
  import opened Wrappers

  datatype Value = Null | Num(n: int) | Str(s: string)

  type Row = map<string, Value>

  const TENANT := "tenantId"

  // A where object: every clause must hold. NOT with a list negates each of its members.
  datatype Where = Where(clauses: seq<Clause>)

  datatype Clause =
    Field(column: string, test: Test) | AND(all: seq<Where>) | OR(any: seq<Where>) | NOT(none: seq<Where>)

  datatype Test = Equals(v: Value) | OneOf(vs: seq<Value>) | Below(n: int) | Except(t: Test)

  // The operations of a model. findUnique and upsert are the ones the rewriter does not list; groupBy, a function of
  // the rows it is given like aggregate, is not distinguished from it.
  datatype Operation =
    | FindMany(where: Option<Where>, skip: nat, take: Option<nat>)
    | FindFirst(where: Option<Where>)
    | Count(where: Option<Where>)
    | Aggregate(where: Option<Where>)
    | Create(data: Row)
    | CreateMany(rows: seq<Row>)
    | Update(where: Option<Where>, data: Row)
    | UpdateMany(where: Option<Where>, data: Row)
    | Delete(where: Option<Where>)
    | DeleteMany(where: Option<Where>)
    | FindUnique(where: Option<Where>)
    | Upsert(where: Option<Where>, create: Row, data: Row)

  const UNSCOPED_MODELS := {"Tenant", "BillingInfo"}

  // ---------------------------------------------------------------- the rewriter

  predicate TestsTenant(clause: Clause) {
    clause.Field? && clause.column == TENANT
  }

  function WithoutTenant(clauses: seq<Clause>): seq<Clause> {
    if clauses == [] then []
    else if TestsTenant(clauses[0]) then WithoutTenant(clauses[1..])
    else [clauses[0]] + WithoutTenant(clauses[1..])
  }

  // { ...where, tenantId }: the caller's own top-level test of tenantId is replaced.
  function Spread(where: Option<Where>, tenantId: string): Option<Where> {
    var clauses := if where.Some? then WithoutTenant(where.value.clauses) else [];
    Some(Where(clauses + [Field(TENANT, Equals(Str(tenantId)))]))
  }

  function Stamped(rows: seq<Row>, tenantId: string): seq<Row> {
    if rows == [] then [] else [rows[0][TENANT := Str(tenantId)]] + Stamped(rows[1..], tenantId)
  }

  function Rewrite(tenantId: string, model: string, op: Operation): Operation {
    if tenantId == "" || model in UNSCOPED_MODELS then op
    else
      match op
      case FindMany(where, skip, take) => FindMany(Spread(where, tenantId), skip, take)
      case FindFirst(where) => FindFirst(Spread(where, tenantId))
      case Count(where) => Count(Spread(where, tenantId))
      case Aggregate(where) => Aggregate(Spread(where, tenantId))
      case Create(data) => Create(data[TENANT := Str(tenantId)])
      case CreateMany(rows) => CreateMany(Stamped(rows, tenantId))
      case Update(where, data) => Update(Spread(where, tenantId), data)
      case UpdateMany(where, data) => UpdateMany(Spread(where, tenantId), data)
      case Delete(where) => Delete(Spread(where, tenantId))
      case DeleteMany(where) => DeleteMany(Spread(where, tenantId))
      case FindUnique(_) => op
      case Upsert(_, _, _) => op
  }

  // ---------------------------------------------------------------- what a filter selects

  // A test of a missing value is neither true nor false, as in SQL.
  datatype Truth = True | False | Unknown

  function Not(t: Truth): Truth {
    match t
    case True => False
    case False => True
    case Unknown => Unknown
  }

  function Column(row: Row, column: string): Value {
    if column in row then row[column] else Null
  }

  function Passes(v: Value, test: Test): Truth {
    match test
    case Equals(w) =>
      if w == Null then (if v == Null then True else False)
      else if v == Null then Unknown
      else if v == w then True
      else False
    case OneOf(ws) => if v == Null then Unknown else if v in ws then True else False
    case Below(n) => if v == Null then Unknown else if v.Num? && v.n < n then True else False
    case Except(t) => Not(Passes(v, t))
  }

  function Judge(row: Row, where: Where): Truth {
    if exists i :: 0 <= i < |where.clauses| && Weigh(row, where.clauses[i]) == False then False
    else if exists i :: 0 <= i < |where.clauses| && Weigh(row, where.clauses[i]) == Unknown then Unknown
    else True
  }

  function Weigh(row: Row, clause: Clause): Truth {
    match clause
    case Field(column, test) => Passes(Column(row, column), test)
    case AND(all) =>
      if exists i :: 0 <= i < |all| && Judge(row, all[i]) == False then False
      else if exists i :: 0 <= i < |all| && Judge(row, all[i]) == Unknown then Unknown
      else True
    case OR(any) =>
      if exists i :: 0 <= i < |any| && Judge(row, any[i]) == True then True
      else if exists i :: 0 <= i < |any| && Judge(row, any[i]) == Unknown then Unknown
      else False
    case NOT(none) =>
      if exists i :: 0 <= i < |none| && Judge(row, none[i]) == True then False
      else if exists i :: 0 <= i < |none| && Judge(row, none[i]) == Unknown then Unknown
      else True
  }

  predicate Holds(row: Row, clause: Clause) {
    Weigh(row, clause) == True
  }

  predicate Matches(row: Row, where: Where) {
    Judge(row, where) == True
  }

  predicate Picks(where: Option<Where>, row: Row) {
    where.Some? ==> Matches(row, where.value)
  }

  function Select(table: seq<Row>, where: Option<Where>): seq<Row> {
    if table == [] then []
    else if Picks(where, table[0]) then [table[0]] + Select(table[1..], where)
    else Select(table[1..], where)
  }

  // ---------------------------------------------------------------- what an operation does

  datatype Answer = Rows(rows: seq<Row>) | Number(n: nat) | NotFound

  function Page(rows: seq<Row>, skip: nat, take: Option<nat>): seq<Row> {
    if skip > |rows| then []
    else if take.None? || skip + take.value > |rows| then rows[skip..]
    else rows[skip..skip + take.value]
  }

  // The first row the filter picks is replaced.
  function UpdateFirst(table: seq<Row>, where: Option<Where>, data: Row): (seq<Row>, Answer) {
    if table == [] then ([], NotFound)
    else if Picks(where, table[0]) then ([table[0] + data] + table[1..], Rows([table[0] + data]))
    else
      var (rest, answer) := UpdateFirst(table[1..], where, data);
      ([table[0]] + rest, answer)
  }

  function UpdateAll(table: seq<Row>, where: Option<Where>, data: Row): seq<Row> {
    if table == [] then []
    else [if Picks(where, table[0]) then table[0] + data else table[0]] + UpdateAll(table[1..], where, data)
  }

  function DeleteFirst(table: seq<Row>, where: Option<Where>): (seq<Row>, Answer) {
    if table == [] then ([], NotFound)
    else if Picks(where, table[0]) then (table[1..], Rows([table[0]]))
    else
      var (rest, answer) := DeleteFirst(table[1..], where);
      ([table[0]] + rest, answer)
  }

  function DeleteAll(table: seq<Row>, where: Option<Where>): seq<Row> {
    if table == [] then []
    else if Picks(where, table[0]) then DeleteAll(table[1..], where)
    else [table[0]] + DeleteAll(table[1..], where)
  }

  // An aggregate is a function of the rows it is given, so those rows stand for it.
  function Execute(table: seq<Row>, op: Operation): (seq<Row>, Answer) {
    match op
    case FindMany(where, skip, take) => (table, Rows(Page(Select(table, where), skip, take)))
    case FindFirst(where) => (table, if Select(table, where) == [] then NotFound else Rows([Select(table, where)[0]]))
    case Count(where) => (table, Number(|Select(table, where)|))
    case Aggregate(where) => (table, Rows(Select(table, where)))
    case Create(data) => (table + [data], Rows([data]))
    case CreateMany(rows) => (table + rows, Number(|rows|))
    case Update(where, data) => UpdateFirst(table, where, data)
    case UpdateMany(where, data) => (UpdateAll(table, where, data), Number(|Select(table, where)|))
    case Delete(where) => DeleteFirst(table, where)
    case DeleteMany(where) => (DeleteAll(table, where), Number(|Select(table, where)|))
    case FindUnique(where) => (table, if Select(table, where) == [] then NotFound else Rows([Select(table, where)[0]]))
    case Upsert(where, create, data) =>
      if Select(table, where) == [] then (table + [create], Rows([create])) else UpdateFirst(table, where, data)
  }

  // ---------------------------------------------------------------- slices

  predicate Owned(row: Row, tenantId: string) {
    "tenantId" in row && row["tenantId"] == Str(tenantId)
  }

  function Slice(table: seq<Row>, tenantId: string): seq<Row> {
    if table == [] then []
    else if Owned(table[0], tenantId) then [table[0]] + Slice(table[1..], tenantId)
    else Slice(table[1..], tenantId)
  }

  function Others(table: seq<Row>, tenantId: string): seq<Row> {
    if table == [] then []
    else if Owned(table[0], tenantId) then Others(table[1..], tenantId)
    else [table[0]] + Others(table[1..], tenantId)
  }

  // The caller's own top-level tests of tenantId, which the rewriter drops, let the tenant through.
  predicate AcceptsTenant(where: Option<Where>, tenantId: string) {
    where.Some? ==> forall i :: 0 <= i < |where.value.clauses| && TestsTenant(where.value.clauses[i]) ==>
      Passes(Str(tenantId), where.value.clauses[i].test) == True
  }

  function Rest(where: Option<Where>): Option<Where> {
    if where.None? then None else Some(Where(WithoutTenant(where.value.clauses)))
  }

  // ---------------------------------------------------------------- the filter of a rewritten operation

  lemma MatchesAll(row: Row, where: Where)
    ensures Matches(row, where) <==> forall i :: 0 <= i < |where.clauses| ==> Holds(row, where.clauses[i])
  {
  }

  lemma {:induction false} WithoutTenantHolds(row: Row, clauses: seq<Clause>)
    ensures Matches(row, Where(WithoutTenant(clauses)))
       <==> forall i :: 0 <= i < |clauses| && !TestsTenant(clauses[i]) ==> Holds(row, clauses[i])
  {
    hide Judge, Weigh;
    var kept := WithoutTenant(clauses);
    MatchesAll(row, Where(kept));
    if clauses != [] {
      var tail := WithoutTenant(clauses[1..]);
      MatchesAll(row, Where(tail));
      WithoutTenantHolds(row, clauses[1..]);
      assert forall i :: 1 <= i < |clauses| ==> clauses[i] == clauses[1..][i - 1];
      if TestsTenant(clauses[0]) {
        assert kept == tail;
      } else {
        assert kept[0] == clauses[0] && kept[1..] == tail;
        assert forall i :: 0 <= i < |tail| ==> tail[i] == kept[i + 1];
      }
    }
  }

  // A row passes the rewritten filter iff it is the tenant's and passes what the caller asked, tenantId aside.
  lemma SpreadPicks(row: Row, where: Option<Where>, tenantId: string)
    ensures Picks(Spread(where, tenantId), row) <==> Owned(row, tenantId) && Picks(Rest(where), row)
  {
    hide Judge, Weigh;
    var kept := if where.Some? then WithoutTenant(where.value.clauses) else [];
    var all := Spread(where, tenantId).value.clauses;
    var last := Field(TENANT, Equals(Str(tenantId)));
    MatchesAll(row, Where(all));
    MatchesAll(row, Where(kept));
    assert all[|kept|] == last && forall i :: 0 <= i < |kept| ==> all[i] == kept[i];
    OwnedTest(row, tenantId);
  }

  lemma OwnedTest(row: Row, tenantId: string)
    ensures Holds(row, Field(TENANT, Equals(Str(tenantId)))) <==> Owned(row, tenantId)
  {
  }

  // On the tenant's own rows the dropped tests decide nothing but whether they accept the tenant.
  lemma RestPicks(row: Row, where: Option<Where>, tenantId: string)
    requires Owned(row, tenantId)
    ensures Picks(where, row) <==> AcceptsTenant(where, tenantId) && Picks(Rest(where), row)
  {
    if where.Some? {
      var clauses := where.value.clauses;
      MatchesAll(row, where.value);
      WithoutTenantHolds(row, clauses);
      forall i | 0 <= i < |clauses| && TestsTenant(clauses[i])
        ensures Holds(row, clauses[i]) <==> Passes(Str(tenantId), clauses[i].test) == True
      {
      }
      hide Judge, Weigh;
      if Picks(where, row) {
        assert forall i :: 0 <= i < |clauses| ==> Holds(row, clauses[i]);
      }
    }
  }
}
