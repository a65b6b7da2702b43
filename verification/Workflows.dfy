/**
 processEvent of automation.service.ts: one execution for every workflow that listens to the
 event. The condition evaluator, the action executor and the database may answer anything or
 throw; a script holds what they do for one workflow.
 */
module Workflows {
  import opened Wrappers

  datatype Action = Action(stopOnFailure: bool)

  datatype Outcome = Result(success: bool) | Throws

  datatype Verdict = Pass | Reject | EvaluatorThrows

  // Which of the database writes of a workflow's turn throws, if it is reached. The first, which creates the execution,
  // lies outside the try block.
  datatype Faults = Faults(created: bool, skipped: bool, recorded: bool, stats: bool, failed: bool, errorStats: bool)

  datatype Script = Script(workflowId: nat, verdict: Verdict, actions: seq<Action>, outcomes: seq<Outcome>,
    faults: Faults)

  datatype Status = RUNNING | SUCCESS | FAILED | SKIPPED

  datatype Execution = Execution(workflowId: nat, status: Status, results: Option<seq<bool>>, hasError: bool)

  datatype Tally = Tally(executions: seq<Execution>, runs: multiset<nat>, errors: multiset<nat>)

  predicate Complete(s: Script) {
    |s.outcomes| == |s.actions|
  }

  predicate Stops(s: Script, k: nat)
    requires Complete(s) && k < |s.actions|
  {
    s.outcomes[k] == Result(false) && s.actions[k].stopOnFailure
  }

  // The executor is called for the first n actions and no more, and none of the calls throws.
  predicate RunsUpTo(s: Script, n: nat)
    requires Complete(s)
  {
    n <= |s.actions|
    && (forall k :: 0 <= k < n ==>
          s.outcomes[k].Result? && (k + 1 < n && s.actions[k].stopOnFailure ==> s.outcomes[k].success))
    && (n < |s.actions| ==> n > 0 && s.actions[n - 1].stopOnFailure && !s.outcomes[n - 1].success)
  }

  // The call for action k throws, and is reached.
  predicate ThrowsAt(s: Script, k: nat)
    requires Complete(s)
  {
    k < |s.actions| && s.outcomes[k].Throws?
    && forall i :: 0 <= i < k ==> s.outcomes[i].Result? && (s.actions[i].stopOnFailure ==> s.outcomes[i].success)
  }

  function Successes(s: Script, n: nat): (results: seq<bool>)
    requires Complete(s) && n <= |s.actions|
    requires forall k :: 0 <= k < n ==> s.outcomes[k].Result?
    ensures |results| == n && forall k :: 0 <= k < n ==> results[k] == s.outcomes[k].success
  {
    if n == 0 then [] else Successes(s, n - 1) + [s.outcomes[n - 1].success]
  }

  // What the loop over the actions leaves from action k on: how many results, or none when a call throws.
  function Ending(s: Script, k: nat): (n: Option<nat>)
    requires Complete(s) && k <= |s.actions|
    ensures n.Some? ==> k <= n.value <= |s.actions|
    decreases |s.actions| - k
  {
    if k == |s.actions| then Some(k)
    else if s.outcomes[k].Throws? then None
    else if Stops(s, k) then Some(k + 1)
    else Ending(s, k + 1)
  }

  lemma {:induction false} EndingIsPrefix(s: Script, k: nat)
    requires Complete(s) && k <= |s.actions|
    requires forall i :: 0 <= i < k ==> s.outcomes[i].Result? && !Stops(s, i)
    ensures Ending(s, k).Some? ==> RunsUpTo(s, Ending(s, k).value)
    ensures Ending(s, k).None? ==> exists i :: ThrowsAt(s, i)
    decreases |s.actions| - k
  {
    if k < |s.actions| {
      if s.outcomes[k].Throws? {
        assert ThrowsAt(s, k);
      } else if !Stops(s, k) {
        EndingIsPrefix(s, k + 1);
      }
    }
  }

  lemma OneEnding(s: Script, n: nat, m: nat)
    requires Complete(s) && RunsUpTo(s, n)
    ensures RunsUpTo(s, m) ==> n == m
    ensures !ThrowsAt(s, m)
  {
    if RunsUpTo(s, m) {
      assert n < |s.actions| ==> Stops(s, n - 1);
      assert m < |s.actions| ==> Stops(s, m - 1);
    }
    if m >= n && n < |s.actions| {
      assert Stops(s, n - 1);
    }
  }

  function Recorded(s: Script): Option<seq<bool>>
    requires Complete(s)
  {
    if Ending(s, 0).None? then None
    else
      EndingIsPrefix(s, 0);
      Some(Successes(s, Ending(s, 0).value))
  }

  predicate IsPrefix(s: Script, results: seq<bool>)
    requires Complete(s)
  {
    RunsUpTo(s, |results|) && forall k :: 0 <= k < |results| ==> s.outcomes[k] == Result(results[k])
  }

  // The recorded results are exactly the outcomes of the actions up to the first failing one that stops; there are none
  // exactly when a call throws before that.
  lemma RecordedIsThePrefix(s: Script, results: seq<bool>)
    requires Complete(s)
    ensures Recorded(s) == Some(results) <==> IsPrefix(s, results)
    ensures Recorded(s).None? <==> exists k :: ThrowsAt(s, k)
  {
    hide Ending;
    EndingIsPrefix(s, 0);
    if Ending(s, 0).Some? {
      var n := Ending(s, 0).value;
      forall m ensures !ThrowsAt(s, m) {
        if m >= 0 { OneEnding(s, n, m); }
      }
      OneEnding(s, n, |results|);
      if IsPrefix(s, results) {
        assert Successes(s, n) == results;
      }
    } else {
      var k :| ThrowsAt(s, k);
      if k >= 0 && IsPrefix(s, results) {
        OneEnding(s, |results|, k);
        assert false;
      }
    }
  }

  // ---------------------------------------------------------------- one workflow

  predicate AllSucceed(results: seq<bool>) {
    forall k :: 0 <= k < |results| ==> results[k]
  }

  // How a turn whose execution was created ends: quietly, in the catch block, or with an exception of the catch block
  // itself.
  datatype Turn = Turn(execution: Execution, ran: bool, erred: bool, escapes: bool)

  function Caught(s: Script, execution: Execution): (turn: Turn)
    ensures !turn.ran && turn.execution.workflowId == execution.workflowId
  {
    if s.faults.failed then Turn(execution, false, false, true)
    else Turn(execution.(status := FAILED, hasError := true), false, !s.faults.errorStats, s.faults.errorStats)
  }

  function TurnOf(s: Script): Turn
    requires Complete(s)
  {
    var started := Execution(s.workflowId, RUNNING, None, false);
    match s.verdict
    case EvaluatorThrows => Caught(s, started)
    case Reject => if s.faults.skipped then Caught(s, started)
      else Turn(started.(status := SKIPPED), false, false, false)
    case Pass =>
      var results := Recorded(s);
      if results.None? || s.faults.recorded then Caught(s, started)
      else
        var done := started.(status := if AllSucceed(results.value) then SUCCESS else FAILED, results := results);
        if s.faults.stats then Caught(s, done) else Turn(done, true, false, false)
  }

  // ---------------------------------------------------------------- the event

  ghost predicate AllComplete(scripts: seq<Script>) {
    forall s <- scripts :: Complete(s)
  }

  function Counting(counts: multiset<nat>, id: nat, happens: bool): multiset<nat> {
    if happens then counts + multiset{id} else counts
  }

  function After(before: Tally, turn: Turn): Tally {
    var id := turn.execution.workflowId;
    Tally(before.executions + [turn.execution], Counting(before.runs, id, turn.ran),
      Counting(before.errors, id, turn.erred))
  }

  function Process(before: Tally, scripts: seq<Script>): (Tally, bool)
    requires AllComplete(scripts)
    decreases |scripts|
  {
    if scripts == [] then (before, false)
    else if scripts[0].faults.created then (before, true)
    else
      var turn := TurnOf(scripts[0]);
      if turn.escapes then (After(before, turn), true) else Process(After(before, turn), scripts[1..])
  }

  function Created(executions: seq<Execution>, id: nat): nat {
    if executions == [] then 0
    else Created(executions[..|executions| - 1], id) + if executions[|executions| - 1].workflowId == id then 1 else 0
  }

  function Skipped(executions: seq<Execution>, id: nat): nat {
    if executions == [] then 0
    else
      var last := executions[|executions| - 1];
      Skipped(executions[..|executions| - 1], id) + if last.workflowId == id && last.status == SKIPPED then 1 else 0
  }

  function StillRunning(executions: seq<Execution>): nat {
    if executions == [] then 0
    else
      StillRunning(executions[..|executions| - 1]) + if executions[|executions| - 1].status == RUNNING then 1 else 0
  }

  lemma OneMore(executions: seq<Execution>, e: Execution, id: nat)
    ensures Created(executions + [e], id) == Created(executions, id) + if e.workflowId == id then 1 else 0
    ensures Skipped(executions + [e], id)
         == Skipped(executions, id) + if e.workflowId == id && e.status == SKIPPED then 1 else 0
    ensures StillRunning(executions + [e]) == StillRunning(executions) + if e.status == RUNNING then 1 else 0
  {
    assert (executions + [e])[..|executions|] == executions;
  }

  ghost predicate AnActionThrows(s: Script)
    requires Complete(s)
  {
    exists k: nat :: ThrowsAt(s, k)
  }

  // Something in the try block throws: before the outcome of the actions is recorded, or when the run is counted.
  ghost predicate ThrowsEarly(s: Script)
    requires Complete(s)
  {
    match s.verdict
    case EvaluatorThrows => true
    case Reject => s.faults.skipped
    case Pass => AnActionThrows(s) || s.faults.recorded
  }

  ghost predicate ThrowsLate(s: Script)
    requires Complete(s)
  {
    s.verdict.Pass? && !ThrowsEarly(s) && s.faults.stats
  }

  // The exception handler throws in turn.
  ghost predicate HandlerThrows(s: Script)
    requires Complete(s)
  {
    (ThrowsEarly(s) || ThrowsLate(s)) && (s.faults.failed || s.faults.errorStats)
  }

  // One turn is a run, an error or a skip, unless the exception handler throws; a run holds the recorded results, and
  // is SUCCESS exactly when they all are.
  lemma TurnIsAccounted(s: Script)
    requires Complete(s)
    ensures var t := TurnOf(s);
            (if t.ran then 1 else 0) + (if t.erred then 1 else 0) + (if t.execution.status == SKIPPED then 1 else 0)
            == if HandlerThrows(s) then 0 else 1
    ensures var t := TurnOf(s);
            t.execution.workflowId == s.workflowId
            && (t.ran ==> t.execution.results == Recorded(s) && t.execution.results.Some?
                          && (t.execution.status == SUCCESS <==> AllSucceed(t.execution.results.value)))
            && (t.escapes <==> HandlerThrows(s))
  {
    RecordedIsThePrefix(s, []);
    hide Ending, ThrowsAt, IsPrefix;
  }

  // What the row of an execution holds in the end: SUCCESS or FAILED by the recorded results, unless an exception
  // marked it FAILED with its error.
  lemma ExecutionExactly(s: Script)
    requires Complete(s)
    ensures var e := TurnOf(s).execution;
      && e.results == (if s.verdict.Pass? && !ThrowsEarly(s) then Recorded(s) else None)
      && (e.hasError <==> (ThrowsEarly(s) || ThrowsLate(s)) && !s.faults.failed)
      && (e.status == SKIPPED <==> s.verdict.Reject? && !s.faults.skipped)
      && (e.status == SUCCESS <==> e.results.Some? && false !in e.results.value && !e.hasError)
      && (e.status == FAILED <==> e.hasError || (e.results.Some? && false in e.results.value))
    ensures TurnOf(s).ran <==> s.verdict.Pass? && !ThrowsEarly(s) && !ThrowsLate(s)
    ensures TurnOf(s).erred <==> (ThrowsEarly(s) || ThrowsLate(s)) && !s.faults.failed && !s.faults.errorStats
  {
    RecordedIsThePrefix(s, []);
    hide Ending, ThrowsAt, IsPrefix;
  }

  // An execution is left RUNNING exactly when something throws before its outcome is recorded and the handler cannot
  // write FAILED.
  lemma StrandedExactly(s: Script)
    requires Complete(s)
    ensures TurnOf(s).execution.status == RUNNING <==> ThrowsEarly(s) && s.faults.failed
  {
    RecordedIsThePrefix(s, []);
    hide Ending, ThrowsAt, IsPrefix;
  }

  // The event reaches the first script whose turn ends it with an exception, and then: it strands its execution.
  ghost predicate Strands(scripts: seq<Script>)
    requires AllComplete(scripts)
    decreases |scripts|
  {
    scripts != [] && !scripts[0].faults.created
    && if HandlerThrows(scripts[0]) then ThrowsEarly(scripts[0]) && scripts[0].faults.failed else Strands(scripts[1..])
  }

  // The workflow, if any, whose execution was created and whose handler ends the event with an exception.
  ghost predicate EscapesIn(scripts: seq<Script>, id: nat)
    requires AllComplete(scripts)
    decreases |scripts|
  {
    scripts != [] && !scripts[0].faults.created
    && if HandlerThrows(scripts[0]) then scripts[0].workflowId == id else EscapesIn(scripts[1..], id)
  }

  // Whatever evaluator, executor and database do: the executions created for a workflow are its runs, its errors and
  // its skips, and one more exactly when the event ends with an exception of the handler in that workflow's turn. One
  // execution is left RUNNING when that exception strands it, and none otherwise. The event ends with an exception
  // exactly when a handler throws or an execution cannot be created.
  lemma {:induction false} EventIsAccounted(before: Tally, scripts: seq<Script>, id: nat)
    requires AllComplete(scripts)
    ensures var after := Process(before, scripts).0;
            Created(after.executions, id) - Created(before.executions, id)
            == after.runs[id] - before.runs[id] + after.errors[id] - before.errors[id]
               + Skipped(after.executions, id) - Skipped(before.executions, id)
               + if EscapesIn(scripts, id) then 1 else 0
    ensures StillRunning(Process(before, scripts).0.executions)
         == StillRunning(before.executions) + if Strands(scripts) then 1 else 0
    ensures Process(before, scripts).1 <==> exists s <- scripts :: s.faults.created || HandlerThrows(s)
    ensures !Process(before, scripts).1 ==> |Process(before, scripts).0.executions| == |before.executions| + |scripts|
    decreases |scripts|
  {
    hide TurnOf, ThrowsEarly, ThrowsLate, HandlerThrows;
    if scripts != [] && !scripts[0].faults.created {
      var s := scripts[0];
      var turn := TurnOf(s);
      TurnIsAccounted(s);
      StrandedExactly(s);
      StrandedThrows(s);
      OneMore(before.executions, turn.execution, id);
      var after := After(before, turn);
      if !turn.escapes {
        EventIsAccounted(after, scripts[1..], id);
      }
    }
  }

  lemma StrandedThrows(s: Script)
    requires Complete(s)
    ensures ThrowsEarly(s) && s.faults.failed ==> HandlerThrows(s)
  {
  }

  // An evaluator that throws, and a database that then refuses the FAILED mark.
  lemma AnExecutionIsStranded()
    ensures var script := Script(0, EvaluatorThrows, [], [], Faults(false, false, false, false, true, false));
            AllComplete([script])
            && Process(Tally([], multiset{}, multiset{}), [script])
               == (Tally([Execution(0, RUNNING, None, false)], multiset{}, multiset{}), true)
  {
    var script := Script(0, EvaluatorThrows, [], [], Faults(false, false, false, false, true, false));
    var execution := Execution(0, RUNNING, None, false);
    assert TurnOf(script) == Turn(execution, false, false, true);
    assert After(Tally([], multiset{}, multiset{}), TurnOf(script)).executions == [execution];
  }

  // ---------------------------------------------------------------- the service

  class AutomationService {
    var executions: seq<Execution>
    var runCount: multiset<nat>
    var errorCount: multiset<nat>

    function Contents(): Tally
      reads this
    {
      Tally(executions, runCount, errorCount)
    }

    constructor ()
      ensures Contents() == Tally([], multiset{}, multiset{})
    {
      executions, runCount, errorCount := [], multiset{}, multiset{};
    }

    // The inner loop over the actions; None when the executor throws.
    method ExecuteActions(s: Script) returns (actionResults: Option<seq<bool>>)
      requires Complete(s)
      ensures actionResults == Recorded(s)
    {
      var results: seq<bool> := [];
      EndingIsPrefix(s, 0);
      var i := 0;
      while i < |s.actions|
        invariant i <= |s.actions| && |results| == i
        invariant forall k :: 0 <= k < i ==>
          s.outcomes[k].Result? && !Stops(s, k) && results[k] == s.outcomes[k].success
        invariant Ending(s, 0) == Ending(s, i)
      {
        if s.outcomes[i].Throws? {
          return None;
        }
        var result := s.outcomes[i].success;
        results := results + [result];
        if !result && s.actions[i].stopOnFailure {
          break;
        }
        i := i + 1;
      }
      assert results == Successes(s, |results|);
      return Some(results);
    }

    // update of the execution row that was created last.
    method UpdateExecution(ghost others: seq<Execution>, execution: Execution)
      requires |executions| == |others| + 1 && executions[..|others|] == others
      modifies this`executions
      ensures executions == others + [execution]
    {
      executions := executions[|executions| - 1 := execution];
    }

    method HandleError(ghost others: seq<Execution>, s: Script, execution: Execution) returns (escaped: bool)
      requires executions == others + [execution]
      modifies this`executions, this`errorCount
      ensures var turn := Caught(s, execution);
        executions == others + [turn.execution] && errorCount == Counting(old(errorCount), s.workflowId, turn.erred)
        && escaped == turn.escapes
    {
      if s.faults.failed {
        return true;
      }
      UpdateExecution(others, execution.(status := FAILED, hasError := true));
      if s.faults.errorStats {
        return true;
      }
      errorCount := errorCount + multiset{s.workflowId};
      return false;
    }

    // One round of the outer loop whose execution can be created; escaped when the exception handler throws.
    method ProcessWorkflow(s: Script) returns (escaped: bool)
      requires Complete(s)
      modifies this
      ensures Contents() == After(old(Contents()), TurnOf(s)) && escaped == TurnOf(s).escapes
    {
      hide Recorded, Ending, AllSucceed, Complete, Caught;
      ghost var before := executions;
      var execution := Execution(s.workflowId, RUNNING, None, false);
      executions := executions + [execution];
      escaped := false;
      if s.verdict.EvaluatorThrows? {
        escaped := HandleError(before, s, execution);
        return;
      }
      if s.verdict.Reject? {
        if s.faults.skipped {
          escaped := HandleError(before, s, execution);
        } else {
          UpdateExecution(before, execution.(status := SKIPPED));
        }
        return;
      }
      var actionResults := ExecuteActions(s);
      if actionResults.None? || s.faults.recorded {
        escaped := HandleError(before, s, execution);
        return;
      }
      execution := execution.(status := if AllSucceed(actionResults.value) then SUCCESS else FAILED,
        results := actionResults);
      UpdateExecution(before, execution);
      if s.faults.stats {
        escaped := HandleError(before, s, execution);
      } else {
        runCount := runCount + multiset{s.workflowId};
      }
    }

    // findThrows: the query for the workflows throws.
    method ProcessEvent(workflows: seq<Script>, findThrows: bool) returns (threw: bool)
      requires AllComplete(workflows)
      modifies this
      ensures (Contents(), threw) == if findThrows then (old(Contents()), true) else Process(old(Contents()), workflows)
    {
      hide TurnOf, After;
      if findThrows {
        return true;
      }
      for w := 0 to |workflows|
        invariant Process(Contents(), workflows[w..]) == Process(old(Contents()), workflows)
      {
        assert workflows[w..][0] == workflows[w] && workflows[w..][1..] == workflows[w + 1..];
        if workflows[w].faults.created {
          return true;
        }
        var escaped := ProcessWorkflow(workflows[w]);
        if escaped {
          return true;
        }
      }
      return false;
    }
  }
}
