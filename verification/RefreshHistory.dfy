/**
 What the browser client's requests and its login say about the run that led to them: told by the
 answers that arrived, not by what the interceptor makes of them.
 */
module RefreshHistory {
  import opened RefreshClient

  // The answers a request has been given so far.
  function Answers(labels: seq<Label>, i: nat): set<Outcome> {
    if labels == [] then {}
    else
      var n := |labels| - 1;
      var l := labels[n];
      Answers(labels[..n], i)
      + if l.Respond? && l.id == i && Enabled(Run(labels[..n]), l) then {l.outcome} else {}
  }

  lemma PhasesAfter(c: Client, l: Label, i: nat)
    requires Inv(c) && Enabled(c, l) && i < |c.requests|
    ensures i < |Step(c, l).requests|
    ensures Step(c, l).requests[i].phase == Fulfilled <==> c.requests[i].phase == Fulfilled || l == Respond(i, Success)
  {
    hide QueueOk, OneLeader, CountsOk, Started, Retried, Ordinary, Issued, Tickets;
    if l.Continue? {
      assert RequestOk(c, i);
      RefreshedRows(c, l.id, l.tokenOk && c.requests[c.requests[l.id].phase.refresh].phase == Fulfilled);
    }
  }

  lemma NewIsUnanswered(c: Client, l: Label, i: nat)
    requires Enabled(c, l) && |c.requests| <= i < |Step(c, l).requests|
    ensures Step(c, l).requests[i].phase == InFlight
  {
  }

  lemma {:induction false} NobodyAnswersTheUnsent(labels: seq<Label>, i: nat)
    requires i >= |Run(labels).requests|
    ensures Answers(labels, i) == {}
  {
    hide Step;
    if labels != [] {
      var n := |labels| - 1;
      RunKeeps(labels[..n]);
      Grows(labels);
      NobodyAnswersTheUnsent(labels[..n], i);
    }
  }

  lemma Grows(labels: seq<Label>)
    requires labels != []
    ensures |Run(labels[..|labels| - 1]).requests| <= |Run(labels).requests|
  {
    var c := Run(labels[..|labels| - 1]);
    RunKeeps(labels[..|labels| - 1]);
    hide Run, Inv;
    if Enabled(c, labels[|labels| - 1]) {
      StepGrows(c, labels[|labels| - 1]);
    }
  }

  lemma StepGrows(c: Client, l: Label)
    requires Enabled(c, l)
    ensures |c.requests| <= |Step(c, l).requests|
  {
  }

  // After any run a request is fulfilled exactly when an answer to it was a success.
  lemma {:induction false} FulfilledExactly(labels: seq<Label>, i: nat)
    requires i < |Run(labels).requests|
    ensures Run(labels).requests[i].phase == Fulfilled <==> Success in Answers(labels, i)
  {
    hide Step, Enabled, Inv;
    var n := |labels| - 1;
    var c := Run(labels[..n]);
    RunKeeps(labels[..n]);
    if i < |c.requests| {
      FulfilledExactly(labels[..n], i);
      if Enabled(c, labels[n]) {
        PhasesAfter(c, labels[n], i);
      }
    } else {
      NobodyAnswersTheUnsent(labels[..n], i);
      NewIsUnanswered(c, labels[n], i);
      if labels[n].Respond? {
        RespondsToSent(c, labels[n]);
      }
    }
  }

  lemma RespondsToSent(c: Client, l: Label)
    requires l.Respond? && Enabled(c, l)
    ensures l.id < |c.requests|
  {
  }

  // ---------------------------------------------------------------- the login

  // The refresh a continuation waits for has succeeded and brought a token.
  predicate Refreshed(labels: seq<Label>, id: nat, tokenOk: bool)
    requires Awaits(Run(labels), id)
  {
    tokenOk && Success in Answers(labels, Run(labels).requests[id].phase.refresh)
  }

  // The steps that end the login: a refresh call is answered with a 401, or the request that started a refresh goes on
  // without a new token.
  predicate LogsOut(labels: seq<Label>, l: Label) {
    var c := Run(labels);
    && Enabled(c, l)
    && match l
       case Send(_) => false
       case Respond(id, outcome) => outcome == Unauthorized && c.requests[id].isRefresh
       case Continue(id, tokenOk) => !Refreshed(labels, id, tokenOk)
  }

  predicate EverLogsOut(labels: seq<Label>) {
    labels != []
    && var n := |labels| - 1;
       EverLogsOut(labels[..n]) || LogsOut(labels[..n], labels[n])
  }

  lemma LoginAfter(labels: seq<Label>, l: Label)
    requires Enabled(Run(labels), l)
    ensures Step(Run(labels), l).loggedIn <==> Run(labels).loggedIn && !LogsOut(labels, l)
  {
    var c := Run(labels);
    RunKeeps(labels);
    hide Run, QueueOk, OneLeader, CountsOk, Answers;
    match l
    case Send(_) =>
    case Respond(id, _) => assert RequestOk(c, id);
    case Continue(id, _) => FulfilledExactly(labels, c.requests[id].phase.refresh);
  }

  // After any run the user is logged out if and only if one of those steps was taken.
  lemma {:induction false} LoggedOutExactly(labels: seq<Label>)
    ensures !Run(labels).loggedIn <==> EverLogsOut(labels)
  {
    hide Step, Enabled, LogsOut;
    if labels != [] {
      var n := |labels| - 1;
      LoggedOutExactly(labels[..n]);
      if Enabled(Run(labels[..n]), labels[n]) {
        LoginAfter(labels[..n], labels[n]);
      } else {
        NotTaken(labels[..n], labels[n]);
      }
    }
  }

  lemma NotTaken(labels: seq<Label>, l: Label)
    requires !Enabled(Run(labels), l)
    ensures !LogsOut(labels, l)
  {
  }

  // When the request that started a refresh goes on, it and every parked request are sent again if the refresh brought
  // a token, and are rejected otherwise; no other request is touched.
  lemma WaitersGoOn(labels: seq<Label>, id: nat, tokenOk: bool, i: nat)
    requires Enabled(Run(labels), Continue(id, tokenOk)) && i < |Run(labels).requests|
    ensures var c := Run(labels);
      i < |Step(c, Continue(id, tokenOk)).requests|
      && Step(c, Continue(id, tokenOk)).requests[i].phase
         == if i != id && !c.requests[i].phase.Parked? then c.requests[i].phase
            else if Refreshed(labels, id, tokenOk) then InFlight
            else Rejected
  {
    var c := Run(labels);
    RunKeeps(labels);
    hide Run, Inv, Answers;
    FulfilledExactly(labels, c.requests[id].phase.refresh);
    RefreshedRows(c, id, tokenOk && c.requests[c.requests[id].phase.refresh].phase == Fulfilled);
  }

  // What an answer makes of a request, by the request's own past.
  lemma AnsweredExactly(labels: seq<Label>, i: nat, outcome: Outcome)
    requires Enabled(Run(labels), Respond(i, outcome))
    ensures var c := Run(labels);
      var r := c.requests[i];
      var after := Step(c, Respond(i, outcome));
      i < |after.requests|
      && after.requests[i].phase
         == match outcome
            case Success => Fulfilled
            case Failure => Rejected
            case Unauthorized =>
              if r.retry || r.isRefresh then Rejected
              else if c.isRefreshing then Parked(c.nextTicket)
              else Leading(|c.requests|)
  {
    hide Run;
  }
}
