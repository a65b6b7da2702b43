/**
 What the rewriter of TenantScope achieves: every operation it rewrites means the caller's
 operation on the tenant's own slice of the table, leaves the other rows alone, and so a run
 of operations by many tenants is, to each of them, a run on a database of its own.
 */
module TenantIsolation {
  import opened Wrappers
  import opened TenantScope

  // ---------------------------------------------------------------- one filter, one slice

  lemma {:induction false} ScopedRead(table: seq<Row>, where: Option<Where>, tenantId: string)
    ensures Select(table, Spread(where, tenantId)) == Select(Slice(table, tenantId), Rest(where))
    ensures Select(Slice(table, tenantId), Spread(where, tenantId)) == Select(Slice(table, tenantId), Rest(where))
  {
    hide Picks, Spread, Rest;
    if table != [] {
      SpreadPicks(table[0], where, tenantId);
      ScopedRead(table[1..], where, tenantId);
      var slice := Slice(table, tenantId);
      if Owned(table[0], tenantId) {
        assert slice[0] == table[0] && slice[1..] == Slice(table[1..], tenantId);
      }
    }
  }

  lemma {:induction false} RejectedRead(table: seq<Row>, where: Option<Where>, tenantId: string)
    ensures Select(Slice(table, tenantId), where)
         == if AcceptsTenant(where, tenantId) then Select(Slice(table, tenantId), Rest(where)) else []
  {
    hide Picks, AcceptsTenant, Rest;
    if table != [] {
      RejectedRead(table[1..], where, tenantId);
      var slice := Slice(table, tenantId);
      if Owned(table[0], tenantId) {
        RestPicks(table[0], where, tenantId);
        assert slice[0] == table[0] && slice[1..] == Slice(table[1..], tenantId);
      }
    }
  }

  // The rewritten filter returns what the caller's own filter returns on the tenant's slice, except when the caller
  // constrained tenantId at the top level, the constraint shuts the tenant out, and the rest of the filter would find
  // something: the rewriter has then replaced it.
  lemma ReadsTheSlice(table: seq<Row>, where: Option<Where>, tenantId: string)
    ensures Select(table, Spread(where, tenantId)) == Select(Slice(table, tenantId), where)
       <==> AcceptsTenant(where, tenantId) || Select(Slice(table, tenantId), Rest(where)) == []
  {
    ScopedRead(table, where, tenantId);
    RejectedRead(table, where, tenantId);
  }

  lemma {:induction false} SliceIsOwned(table: seq<Row>, tenantId: string)
    ensures forall row <- Slice(table, tenantId) :: Owned(row, tenantId)
    ensures Slice(Slice(table, tenantId), tenantId) == Slice(table, tenantId)
    ensures Others(Slice(table, tenantId), tenantId) == []
  {
    if table != [] {
      SliceIsOwned(table[1..], tenantId);
      if Owned(table[0], tenantId) {
        assert Slice(table, tenantId)[1..] == Slice(table[1..], tenantId);
      }
    }
  }

  lemma Regroup(a: seq<Row>, b: seq<Row>, c: seq<Row>)
    ensures a + (b + c) == (a + b) + c
  {
  }

  lemma {:induction false} SliceAppend(left: seq<Row>, right: seq<Row>, tenantId: string)
    ensures Slice(left + right, tenantId) == Slice(left, tenantId) + Slice(right, tenantId)
  {
    hide Owned;
    var both := left + right;
    if left == [] {
      assert both == right;
    } else {
      SliceAppend(left[1..], right, tenantId);
      assert both[0] == left[0] && both[1..] == left[1..] + right;
      if Owned(left[0], tenantId) {
        assert Slice(both, tenantId) == [left[0]] + Slice(both[1..], tenantId);
        Regroup([left[0]], Slice(left[1..], tenantId), Slice(right, tenantId));
      } else {
        assert Slice(both, tenantId) == Slice(both[1..], tenantId)
          && Slice(left, tenantId) == Slice(left[1..], tenantId);
      }
    }
  }

  lemma {:induction false} OthersAppend(left: seq<Row>, right: seq<Row>, tenantId: string)
    ensures Others(left + right, tenantId) == Others(left, tenantId) + Others(right, tenantId)
  {
    hide Owned;
    var both := left + right;
    if left == [] {
      assert both == right;
    } else {
      OthersAppend(left[1..], right, tenantId);
      assert both[0] == left[0] && both[1..] == left[1..] + right;
      if Owned(left[0], tenantId) {
        assert Others(both, tenantId) == Others(both[1..], tenantId)
          && Others(left, tenantId) == Others(left[1..], tenantId);
      } else {
        assert Others(both, tenantId) == [left[0]] + Others(both[1..], tenantId);
        Regroup([left[0]], Others(left[1..], tenantId), Others(right, tenantId));
      }
    }
  }

  lemma SliceOfOne(row: Row, tenantId: string)
    ensures Slice([row], tenantId) == if Owned(row, tenantId) then [row] else []
    ensures Others([row], tenantId) == if Owned(row, tenantId) then [] else [row]
  {
    assert [row][1..] == [];
  }

  lemma {:induction false} StampedIsOwned(rows: seq<Row>, tenantId: string)
    ensures Slice(Stamped(rows, tenantId), tenantId) == Stamped(rows, tenantId)
      && Others(Stamped(rows, tenantId), tenantId) == []
    ensures |Stamped(rows, tenantId)| == |rows|
  {
    if rows != [] {
      StampedIsOwned(rows[1..], tenantId);
      var all := Stamped(rows, tenantId);
      assert all[0] == rows[0][TENANT := Str(tenantId)] && all[1..] == Stamped(rows[1..], tenantId);
    }
  }

  // ---------------------------------------------------------------- writes

  predicate KeepsTenant(data: Row, tenantId: string) {
    TENANT in data ==> data[TENANT] == Str(tenantId)
  }

  lemma {:induction false} UpdateFirstStays(table: seq<Row>, where: Option<Where>, data: Row, tenantId: string)
    requires KeepsTenant(data, tenantId)
    ensures var (after, answer) := UpdateFirst(table, Spread(where, tenantId), data);
            UpdateFirst(Slice(table, tenantId), Spread(where, tenantId), data) == (Slice(after, tenantId), answer)
            && Others(after, tenantId) == Others(table, tenantId)
  {
    hide Picks, Spread, Rest;
    if table != [] {
      SpreadPicks(table[0], where, tenantId);
      UpdateFirstStays(table[1..], where, data, tenantId);
      var slice := Slice(table, tenantId);
      if Owned(table[0], tenantId) {
        assert slice[0] == table[0] && slice[1..] == Slice(table[1..], tenantId);
        var after := UpdateFirst(table, Spread(where, tenantId), data).0;
        if Picks(Spread(where, tenantId), table[0]) {
          assert after[0] == table[0] + data && after[1..] == table[1..];
        } else {
          assert after[1..] == UpdateFirst(table[1..], Spread(where, tenantId), data).0;
        }
      } else {
        var after := UpdateFirst(table, Spread(where, tenantId), data).0;
        assert after[0] == table[0] && after[1..] == UpdateFirst(table[1..], Spread(where, tenantId), data).0;
      }
    }
  }

  lemma {:induction false} UpdateAllStays(table: seq<Row>, where: Option<Where>, data: Row, tenantId: string)
    requires KeepsTenant(data, tenantId)
    ensures UpdateAll(Slice(table, tenantId), Spread(where, tenantId), data)
      == Slice(UpdateAll(table, Spread(where, tenantId), data), tenantId)
    ensures Others(UpdateAll(table, Spread(where, tenantId), data), tenantId) == Others(table, tenantId)
  {
    hide Picks, Spread, Rest;
    if table != [] {
      SpreadPicks(table[0], where, tenantId);
      UpdateAllStays(table[1..], where, data, tenantId);
      var after := UpdateAll(table, Spread(where, tenantId), data);
      assert after[1..] == UpdateAll(table[1..], Spread(where, tenantId), data);
      if Owned(table[0], tenantId) {
        var slice := Slice(table, tenantId);
        assert slice[0] == table[0] && slice[1..] == Slice(table[1..], tenantId);
        assert Owned(after[0], tenantId);
      } else {
        assert after[0] == table[0];
      }
    }
  }

  lemma {:induction false} DeleteFirstStays(table: seq<Row>, where: Option<Where>, tenantId: string)
    ensures var (after, answer) := DeleteFirst(table, Spread(where, tenantId));
            DeleteFirst(Slice(table, tenantId), Spread(where, tenantId)) == (Slice(after, tenantId), answer)
            && Others(after, tenantId) == Others(table, tenantId)
  {
    hide Picks, Spread, Rest;
    if table != [] {
      SpreadPicks(table[0], where, tenantId);
      DeleteFirstStays(table[1..], where, tenantId);
      var slice := Slice(table, tenantId);
      if Owned(table[0], tenantId) {
        assert slice[0] == table[0] && slice[1..] == Slice(table[1..], tenantId);
      }
      if !Picks(Spread(where, tenantId), table[0]) {
        var after := DeleteFirst(table, Spread(where, tenantId)).0;
        assert after[0] == table[0] && after[1..] == DeleteFirst(table[1..], Spread(where, tenantId)).0;
      }
    }
  }

  lemma {:induction false} DeleteAllStays(table: seq<Row>, where: Option<Where>, tenantId: string)
    ensures DeleteAll(Slice(table, tenantId), Spread(where, tenantId))
      == Slice(DeleteAll(table, Spread(where, tenantId)), tenantId)
    ensures Others(DeleteAll(table, Spread(where, tenantId)), tenantId) == Others(table, tenantId)
  {
    hide Picks, Spread, Rest;
    if table != [] {
      SpreadPicks(table[0], where, tenantId);
      DeleteAllStays(table[1..], where, tenantId);
      var slice := Slice(table, tenantId);
      if Owned(table[0], tenantId) {
        assert slice[0] == table[0] && slice[1..] == Slice(table[1..], tenantId);
      }
      if !Picks(Spread(where, tenantId), table[0]) {
        var after := DeleteAll(table, Spread(where, tenantId));
        assert after[0] == table[0] && after[1..] == DeleteAll(table[1..], Spread(where, tenantId));
      }
    }
  }

  // updateMany lets the caller's data write tenantId: a foreign value hands the rows over, and the others' rows are
  // left unchanged exactly when nothing was picked.
  lemma {:induction false} ForeignWrite(table: seq<Row>, where: Option<Where>, data: Row, tenantId: string)
    requires !KeepsTenant(data, tenantId)
    ensures var after := UpdateAll(table, Spread(where, tenantId), data);
            |Others(after, tenantId)| == |Others(table, tenantId)| + |Select(table, Spread(where, tenantId))|
            && (Others(after, tenantId) == Others(table, tenantId) <==> Select(table, Spread(where, tenantId)) == [])
  {
    hide Picks, Spread, Rest;
    if table != [] {
      SpreadPicks(table[0], where, tenantId);
      ForeignWrite(table[1..], where, data, tenantId);
      var after := UpdateAll(table, Spread(where, tenantId), data);
      assert after[1..] == UpdateAll(table[1..], Spread(where, tenantId), data);
    }
  }

  // ---------------------------------------------------------------- one operation

  // The operations the rewriter covers, with data that does not hand rows to another tenant.
  predicate Contained(op: Operation, tenantId: string) {
    match op
    case Update(_, data) => KeepsTenant(data, tenantId)
    case UpdateMany(_, data) => KeepsTenant(data, tenantId)
    case FindUnique(_) => false
    case Upsert(_, _, _) => false
    case _ => true
  }

  // A request of a tenant, on any model but two.
  predicate IsScoped(tenantId: string, model: string) {
    tenantId != "" && model != "Tenant" && model != "BillingInfo"
  }

  // On these two models, and without a tenant, the caller's own operation runs on the whole table.
  lemma UnscopedRunsAsAsked(table: seq<Row>, tenantId: string, model: string, op: Operation)
    requires tenantId == "" || model == "Tenant" || model == "BillingInfo"
    ensures Execute(table, Rewrite(tenantId, model, op)) == Execute(table, op)
  {
  }

  lemma OwnStep(table: seq<Row>, tenantId: string, model: string, op: Operation)
    requires IsScoped(tenantId, model) && Contained(op, tenantId)
    ensures var (after, answer) := Execute(table, Rewrite(tenantId, model, op));
            Execute(Slice(table, tenantId), Rewrite(tenantId, model, op)) == (Slice(after, tenantId), answer)
            && Others(after, tenantId) == Others(table, tenantId)
  {
    hide Select, UpdateFirst, UpdateAll, DeleteFirst, DeleteAll, Spread, Rest, Page, Slice, Others, Stamped;
    match op
    case Create(data) =>
      SliceOfOne(data[TENANT := Str(tenantId)], tenantId);
      SliceAppend(table, [data[TENANT := Str(tenantId)]], tenantId);
      OthersAppend(table, [data[TENANT := Str(tenantId)]], tenantId);
    case CreateMany(rows) =>
      StampedIsOwned(rows, tenantId);
      SliceAppend(table, Stamped(rows, tenantId), tenantId);
      OthersAppend(table, Stamped(rows, tenantId), tenantId);
    case Update(where, data) => UpdateFirstStays(table, where, data, tenantId);
    case UpdateMany(where, data) =>
      UpdateAllStays(table, where, data, tenantId);
      ScopedRead(table, where, tenantId);
    case Delete(where) => DeleteFirstStays(table, where, tenantId);
    case DeleteMany(where) =>
      DeleteAllStays(table, where, tenantId);
      ScopedRead(table, where, tenantId);
    case FindMany(where, _, _) => ScopedRead(table, where, tenantId);
    case FindFirst(where) => ScopedRead(table, where, tenantId);
    case Count(where) => ScopedRead(table, where, tenantId);
    case Aggregate(where) => ScopedRead(table, where, tenantId);
  }

  function Filter(op: Operation): Option<Where> {
    if op.Create? || op.CreateMany? then None else op.where
  }

  predicate SamePicks(rows: seq<Row>, left: Option<Where>, right: Option<Where>) {
    forall i :: 0 <= i < |rows| ==> (Picks(left, rows[i]) <==> Picks(right, rows[i]))
  }

  lemma {:induction false} SameEffect(rows: seq<Row>, left: Option<Where>, right: Option<Where>, data: Row)
    requires SamePicks(rows, left, right)
    ensures Select(rows, left) == Select(rows, right)
    ensures UpdateFirst(rows, left, data) == UpdateFirst(rows, right, data)
      && UpdateAll(rows, left, data) == UpdateAll(rows, right, data)
    ensures DeleteFirst(rows, left) == DeleteFirst(rows, right) && DeleteAll(rows, left) == DeleteAll(rows, right)
  {
    hide Picks;
    if rows != [] {
      assert forall i :: 0 <= i < |rows[1..]| ==> rows[1..][i] == rows[i + 1];
      SameEffect(rows[1..], left, right, data);
    }
  }

  // The meaning of a rewritten operation: the caller's own operation, run on a table that holds the tenant's rows only.
  // Rows to be inserted are the caller's with the tenant stamped on them.
  lemma MeansTheSlice(table: seq<Row>, tenantId: string, model: string, op: Operation)
    requires IsScoped(tenantId, model) && Contained(op, tenantId) && AcceptsTenant(Filter(op), tenantId)
    ensures var (after, answer) := Execute(table, Rewrite(tenantId, model, op));
            var own := match op
              case Create(data) => Create(data[TENANT := Str(tenantId)])
              case CreateMany(rows) => CreateMany(Stamped(rows, tenantId))
              case _ => op;
            Execute(Slice(table, tenantId), own) == (Slice(after, tenantId), answer)
            && Others(after, tenantId) == Others(table, tenantId)
  {
    OwnStep(table, tenantId, model, op);
    hide Select, UpdateFirst, UpdateAll, DeleteFirst, DeleteAll, Spread, Rest, Page, Picks, Slice, Others;
    if !op.Create? && !op.CreateMany? {
      var slice := Slice(table, tenantId);
      SliceIsOwned(table, tenantId);
      forall i | 0 <= i < |slice| ensures Picks(Spread(op.where, tenantId), slice[i]) <==> Picks(op.where, slice[i]) {
        SpreadPicks(slice[i], op.where, tenantId);
        RestPicks(slice[i], op.where, tenantId);
      }
      SameEffect(slice, Spread(op.where, tenantId), op.where, if op.Update? || op.UpdateMany? then op.data else map[]);
    }
  }

  // ---------------------------------------------------------------- runs

  type Database = map<string, seq<Row>>

  datatype Request = Request(tenantId: string, model: string, op: Operation)

  function Run(db: Database, requests: seq<Request>): (Database, seq<Answer>)
    requires forall request <- requests :: request.model in db
  {
    if requests == [] then (db, [])
    else
      var r := requests[0];
      var (after, answer) := Execute(db[r.model], Rewrite(r.tenantId, r.model, r.op));
      var (final, answers) := Run(db[r.model := after], requests[1..]);
      (final, [answer] + answers)
  }

  predicate WellBehaved(request: Request) {
    IsScoped(request.tenantId, request.model) && Contained(request.op, request.tenantId)
  }

  function SliceOf(db: Database, tenantId: string): Database {
    map model | model in db :: Slice(db[model], tenantId)
  }

  function Own(requests: seq<Request>, tenantId: string): seq<Request> {
    if requests == [] then []
    else if requests[0].tenantId == tenantId then [requests[0]] + Own(requests[1..], tenantId)
    else Own(requests[1..], tenantId)
  }

  function AnswersTo(requests: seq<Request>, answers: seq<Answer>, tenantId: string): seq<Answer>
    requires |requests| == |answers|
  {
    if requests == [] then []
    else if requests[0].tenantId == tenantId then [answers[0]] + AnswersTo(requests[1..], answers[1..], tenantId)
    else AnswersTo(requests[1..], answers[1..], tenantId)
  }

  lemma {:induction false} OneAnswerEach(db: Database, requests: seq<Request>)
    requires forall request <- requests :: request.model in db
    ensures |Run(db, requests).1| == |requests|
    ensures Run(db, requests).0.Keys == db.Keys
  {
    hide Execute, Rewrite;
    if requests != [] {
      var r := requests[0];
      OneAnswerEach(db[r.model := Execute(db[r.model], Rewrite(r.tenantId, r.model, r.op)).0], requests[1..]);
    }
  }

  lemma {:induction false} OwnModels(db: Database, requests: seq<Request>, tenantId: string)
    requires forall request <- requests :: request.model in db
    ensures forall request <- Own(requests, tenantId) :: request.model in db
  {
    if requests != [] {
      OwnModels(db, requests[1..], tenantId);
    }
  }

  // The rows of a third party are among the others.
  lemma {:induction false} SliceOfOthers(table: seq<Row>, actor: string, tenantId: string)
    requires actor != tenantId
    ensures Slice(Others(table, actor), tenantId) == Slice(table, tenantId)
  {
    if table != [] {
      SliceOfOthers(table[1..], actor, tenantId);
      SliceAppend(if Owned(table[0], actor) then [] else [table[0]], Others(table[1..], actor), tenantId);
    }
  }

  lemma OtherStep(table: seq<Row>, request: Request, tenantId: string)
    requires WellBehaved(request) && request.tenantId != tenantId
    ensures Slice(Execute(table, Rewrite(request.tenantId, request.model, request.op)).0, tenantId)
      == Slice(table, tenantId)
  {
    hide Execute, Rewrite, Slice, Others;
    OwnStep(table, request.tenantId, request.model, request.op);
    SliceOfOthers(table, request.tenantId, tenantId);
    SliceOfOthers(Execute(table, Rewrite(request.tenantId, request.model, request.op)).0, request.tenantId, tenantId);
  }

  // Any run of well-behaved requests of many tenants is, to one of them, the run of its own requests on a database that
  // holds its own rows only: the same answers, and the same rows in the end.
  lemma {:induction false} AsIfAlone(db: Database, requests: seq<Request>, tenantId: string)
    requires forall request <- requests :: request.model in db && WellBehaved(request)
    ensures forall request <- Own(requests, tenantId) :: request.model in db
    ensures |Run(db, requests).1| == |requests|
    ensures Run(SliceOf(db, tenantId), Own(requests, tenantId))
         == (SliceOf(Run(db, requests).0, tenantId), AnswersTo(requests, Run(db, requests).1, tenantId))
  {
    hide Execute, Rewrite, Slice, Others, WellBehaved;
    OwnModels(db, requests, tenantId);
    OneAnswerEach(db, requests);
    if requests != [] {
      var r := requests[0];
      var (after, answer) := Execute(db[r.model], Rewrite(r.tenantId, r.model, r.op));
      var next := db[r.model := after];
      AsIfAlone(next, requests[1..], tenantId);
      var own := Own(requests, tenantId);
      assert Run(db, requests).1[1..] == Run(next, requests[1..]).1;
      if r.tenantId == tenantId {
        OwnAnswer(db[r.model], r);
        assert SliceOf(next, tenantId) == SliceOf(db, tenantId)[r.model := Slice(after, tenantId)];
        assert own[0] == r && own[1..] == Own(requests[1..], tenantId);
      } else {
        OtherStep(db[r.model], r, tenantId);
        assert SliceOf(next, tenantId) == SliceOf(db, tenantId);
      }
    }
  }

  lemma OwnAnswer(table: seq<Row>, request: Request)
    requires WellBehaved(request)
    ensures var (after, answer) := Execute(table, Rewrite(request.tenantId, request.model, request.op));
            Execute(Slice(table, request.tenantId), Rewrite(request.tenantId, request.model, request.op))
              == (Slice(after, request.tenantId), answer)
  {
    hide Execute, Rewrite, Slice, Others;
    OwnStep(table, request.tenantId, request.model, request.op);
  }

  // Hence what a tenant is answered does not depend on the others' rows or requests.
  lemma NoInterference(left: Database, right: Database, theirs: seq<Request>, mine: seq<Request>, tenantId: string)
    requires forall request <- theirs :: request.model in left && WellBehaved(request)
    requires forall request <- mine :: request.model in right && WellBehaved(request)
    requires SliceOf(left, tenantId) == SliceOf(right, tenantId) && Own(theirs, tenantId) == Own(mine, tenantId)
    ensures |Run(left, theirs).1| == |theirs| && |Run(right, mine).1| == |mine|
    ensures AnswersTo(theirs, Run(left, theirs).1, tenantId) == AnswersTo(mine, Run(right, mine).1, tenantId)
    ensures SliceOf(Run(left, theirs).0, tenantId) == SliceOf(Run(right, mine).0, tenantId)
  {
    AsIfAlone(left, theirs, tenantId);
    AsIfAlone(right, mine, tenantId);
  }

  // ---------------------------------------------------------------- what the rewriter does not cover

  // Writing the data to the row does not change the others' rows.
  predicate Harmless(row: Row, data: Row, tenantId: string) {
    if Owned(row, tenantId) then KeepsTenant(data, tenantId) else row + data == row
  }

  lemma {:induction false} UpdateFirstReaches(table: seq<Row>, where: Option<Where>, data: Row, tenantId: string)
    ensures Others(UpdateFirst(table, where, data).0, tenantId) == Others(table, tenantId)
       <==> Select(table, where) == [] || Harmless(Select(table, where)[0], data, tenantId)
  {
    hide Picks;
    if table != [] {
      var after := UpdateFirst(table, where, data).0;
      if Picks(where, table[0]) {
        assert after[0] == table[0] + data && after[1..] == table[1..];
        OthersHead(table, tenantId);
        OthersHead(after, tenantId);
        OneRowApart(table[0], table[0] + data, Others(table[1..], tenantId));
      } else {
        UpdateFirstReaches(table[1..], where, data, tenantId);
        assert after[0] == table[0] && after[1..] == UpdateFirst(table[1..], where, data).0;
        OthersHead(table, tenantId);
        OthersHead(after, tenantId);
        SameHead(table[0], Others(after[1..], tenantId), Others(table[1..], tenantId));
      }
    }
  }

  lemma OthersHead(table: seq<Row>, tenantId: string)
    requires table != []
    ensures Others(table, tenantId)
         == if Owned(table[0], tenantId) then Others(table[1..], tenantId)
           else [table[0]] + Others(table[1..], tenantId)
  {
  }

  lemma OneRowApart(row: Row, other: Row, rest: seq<Row>)
    ensures [row] + rest == [other] + rest <==> row == other
    ensures [row] + rest != rest && [other] + rest != rest
  {
    assert ([row] + rest)[0] == row && ([other] + rest)[0] == other;
    assert |[row] + rest| == |rest| + 1 && |[other] + rest| == |rest| + 1;
  }

  lemma SameHead(row: Row, left: seq<Row>, right: seq<Row>)
    ensures [row] + left == [row] + right <==> left == right
  {
    if [row] + left == [row] + right {
      assert left == ([row] + left)[1..] && right == ([row] + right)[1..];
    }
  }

  // An upsert is not rewritten. It leaves the others' rows alone exactly when it inserts a row of the tenant, or the
  // row it finds is the tenant's and stays so, or a foreign row is written with what it holds already.
  lemma UpsertStaysWhen(table: seq<Row>, tenantId: string, model: string, where: Option<Where>, create: Row, data: Row)
    ensures (Others(Execute(table, Rewrite(tenantId, model, Upsert(where, create, data))).0, tenantId)
             == Others(table, tenantId))
       <==> (if Select(table, where) == [] then Owned(create, tenantId)
             else Harmless(Select(table, where)[0], data, tenantId))
  {
    hide Select, UpdateFirst;
    if Select(table, where) == [] {
      OthersAppend(table, [create], tenantId);
      SliceOfOne(create, tenantId);
    } else {
      UpdateFirstReaches(table, where, data, tenantId);
    }
  }

  // A findUnique is not rewritten either. It answers as on the tenant's slice exactly when it finds nothing, or a row
  // of the tenant.
  lemma FindUniqueStaysWhen(table: seq<Row>, tenantId: string, model: string, where: Option<Where>)
    ensures (Execute(table, Rewrite(tenantId, model, FindUnique(where))).1
             == Execute(Slice(table, tenantId), FindUnique(where)).1)
       <==> Select(table, where) == [] || Owned(Select(table, where)[0], tenantId)
  {
    FirstOfSlice(table, tenantId, where);
  }

  lemma {:induction false} FirstOfSlice(table: seq<Row>, tenantId: string, where: Option<Where>)
    ensures forall row <- Select(Slice(table, tenantId), where) :: Owned(row, tenantId)
    ensures Select(table, where) == [] ==> Select(Slice(table, tenantId), where) == []
    ensures Select(table, where) != [] && Owned(Select(table, where)[0], tenantId) ==>
      Select(Slice(table, tenantId), where) != [] && Select(Slice(table, tenantId), where)[0] == Select(table, where)[0]
  {
    hide Picks;
    if table != [] {
      FirstOfSlice(table[1..], tenantId, where);
      var slice := Slice(table, tenantId);
      if Owned(table[0], tenantId) {
        assert slice[0] == table[0] && slice[1..] == Slice(table[1..], tenantId);
      }
    }
  }

  // A single update whose data names another tenant hands the row it finds over: the others gain one row, and are
  // unchanged exactly when nothing was found.
  lemma ForeignUpdate(table: seq<Row>, where: Option<Where>, data: Row, tenantId: string)
    requires !KeepsTenant(data, tenantId)
    ensures var after := UpdateFirst(table, Spread(where, tenantId), data).0;
            |Others(after, tenantId)|
              == |Others(table, tenantId)| + (if Select(table, Spread(where, tenantId)) == [] then 0 else 1)
            && (Others(after, tenantId) == Others(table, tenantId) <==> Select(table, Spread(where, tenantId)) == [])
  {
    hide Picks, Spread, Rest;
    if table != [] {
      SpreadPicks(table[0], where, tenantId);
      var after := UpdateFirst(table, Spread(where, tenantId), data).0;
      OthersHead(table, tenantId);
      OthersHead(after, tenantId);
      if Picks(Spread(where, tenantId), table[0]) {
        assert after[0] == table[0] + data && after[1..] == table[1..];
      } else {
        ForeignUpdate(table[1..], where, data, tenantId);
        assert after[0] == table[0] && after[1..] == UpdateFirst(table[1..], Spread(where, tenantId), data).0;
      }
    }
  }

  // An upsert by the id of another tenant's row changes it.
  lemma UpsertReachesAcross()
    ensures var table: seq<Row> := [map[TENANT := Str("t2"), "id" := Num(1), "name" := Str("a")]];
            var upsert := Upsert(Some(Where([Field("id", Equals(Num(1)))])), map["id" := Num(1)],
              map["name" := Str("b")]);
            Others(Execute(table, Rewrite("t1", "Lead", upsert)).0, "t1") != Others(table, "t1")
  {
    var row: Row := map[TENANT := Str("t2"), "id" := Num(1), "name" := Str("a")];
    var data: Row := map["name" := Str("b")];
    var byId := Some(Where([Field("id", Equals(Num(1)))]));
    assert Holds(row, byId.value.clauses[0]);
    MatchesAll(row, byId.value);
    hide Judge, Weigh;
    assert Picks(byId, row) && Select([row], byId)[0] == row;
    assert (row + data)["name"] == Str("b");
    UpsertStaysWhen([row], "t1", "Lead", byId, map["id" := Num(1)], data);
  }
}
