/**
 The filters of TenantScope are three-valued logic as SQL has it: unknown lies between false and
 true, AND takes the least of its parts, OR the greatest, and NOT turns the order around.
 */
module TenantFilters {
  import opened Wrappers
  import opened TenantScope

  function Grade(t: Truth): int {
    match t
    case False => 0
    case Unknown => 1
    case True => 2
  }

  function Least(grades: seq<int>): int {
    if grades == [] then 2
    else
      var rest := Least(grades[1..]);
      if grades[0] < rest then grades[0] else rest
  }

  function Greatest(grades: seq<int>): int {
    if grades == [] then 0
    else
      var rest := Greatest(grades[1..]);
      if grades[0] > rest then grades[0] else rest
  }

  function Grades(row: Row, filters: seq<Where>): (grades: seq<int>)
    ensures |grades| == |filters| && forall i :: 0 <= i < |filters| ==> grades[i] == Grade(Judge(row, filters[i]))
  {
    if filters == [] then [] else [Grade(Judge(row, filters[0]))] + Grades(row, filters[1..])
  }

  function ClauseGrades(row: Row, clauses: seq<Clause>): (grades: seq<int>)
    ensures |grades| == |clauses| && forall i :: 0 <= i < |clauses| ==> grades[i] == Grade(Weigh(row, clauses[i]))
  {
    if clauses == [] then [] else [Grade(Weigh(row, clauses[0]))] + ClauseGrades(row, clauses[1..])
  }

  lemma {:induction false} LeastIs(grades: seq<int>)
    requires forall i :: 0 <= i < |grades| ==> 0 <= grades[i] <= 2
    ensures Least(grades)
         == if exists i :: 0 <= i < |grades| && grades[i] == 0 then 0
            else if exists i :: 0 <= i < |grades| && grades[i] == 1 then 1 else 2
  {
    if grades != [] {
      LeastIs(grades[1..]);
      assert forall i :: 1 <= i < |grades| ==> grades[i] == grades[1..][i - 1];
      assert forall i :: 0 <= i < |grades[1..]| ==> grades[1..][i] == grades[i + 1];
    }
  }

  lemma {:induction false} GreatestIs(grades: seq<int>)
    requires forall i :: 0 <= i < |grades| ==> 0 <= grades[i] <= 2
    ensures Greatest(grades)
         == if exists i :: 0 <= i < |grades| && grades[i] == 2 then 2
            else if exists i :: 0 <= i < |grades| && grades[i] == 1 then 1 else 0
  {
    if grades != [] {
      GreatestIs(grades[1..]);
      assert forall i :: 1 <= i < |grades| ==> grades[i] == grades[1..][i - 1];
      assert forall i :: 0 <= i < |grades[1..]| ==> grades[1..][i] == grades[i + 1];
    }
  }

  lemma JudgeIsLeast(row: Row, where: Where)
    ensures Grade(Judge(row, where)) == Least(ClauseGrades(row, where.clauses))
  {
    var grades := ClauseGrades(row, where.clauses);
    LeastIs(grades);
    hide Weigh;
    assert forall i :: 0 <= i < |grades| ==>
      (grades[i] == 0 <==> Weigh(row, where.clauses[i]) == False)
      && (grades[i] == 1 <==> Weigh(row, where.clauses[i]) == Unknown);
  }

  lemma GradesTell(row: Row, filters: seq<Where>, grades: seq<int>, t: Truth)
    requires grades == Grades(row, filters)
    ensures (exists i :: 0 <= i < |filters| && Judge(row, filters[i]) == t)
      <==> (exists i :: 0 <= i < |grades| && grades[i] == Grade(t))
  {
    hide Judge;
    if i :| 0 <= i < |filters| && Judge(row, filters[i]) == t {
      assert grades[i] == Grade(t);
    }
    if i :| 0 <= i < |grades| && grades[i] == Grade(t) {
      assert Judge(row, filters[i]) == t;
    }
  }

  lemma AndIsLeast(row: Row, all: seq<Where>)
    ensures Grade(Weigh(row, AND(all))) == Least(Grades(row, all))
  {
    hide Judge, Least;
    var grades := Grades(row, all);
    LeastIs(grades);
    GradesTell(row, all, grades, False);
    GradesTell(row, all, grades, Unknown);
  }

  lemma OrIsGreatest(row: Row, any: seq<Where>)
    ensures Grade(Weigh(row, OR(any))) == Greatest(Grades(row, any))
  {
    hide Judge, Greatest;
    var grades := Grades(row, any);
    GreatestIs(grades);
    GradesTell(row, any, grades, True);
    GradesTell(row, any, grades, Unknown);
  }

  // NOT with a list negates each of its members.
  lemma NotIsOpposite(row: Row, none: seq<Where>)
    ensures Grade(Weigh(row, NOT(none))) == 2 - Greatest(Grades(row, none))
  {
    hide Judge, Greatest;
    var grades := Grades(row, none);
    GreatestIs(grades);
    GradesTell(row, none, grades, True);
    GradesTell(row, none, grades, Unknown);
  }

  // A test of a column: unknown where the column is null and the test is not for null.
  lemma TestExactly(row: Row, column: string, w: Value, ws: seq<Value>, n: int, test: Test)
    ensures var v := if column in row then row[column] else Null;
      && Grade(Weigh(row, Field(column, Equals(w))))
         == (if v == w then 2 else if v == Null && w != Null then 1 else 0)
      && Grade(Weigh(row, Field(column, OneOf(ws))))
         == (if v == Null then 1 else if exists i :: 0 <= i < |ws| && ws[i] == v then 2 else 0)
      && Grade(Weigh(row, Field(column, Below(n)))) == (if v == Null then 1 else if v.Num? && n > v.n then 2 else 0)
      && Grade(Weigh(row, Field(column, Except(test)))) == 2 - Grade(Weigh(row, Field(column, test)))
  {
    var v := if column in row then row[column] else Null;
    if w != Null && v == Null {
      assert Passes(v, Equals(w)) == Unknown;
    }
  }
}
