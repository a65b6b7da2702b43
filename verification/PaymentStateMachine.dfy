/**
 The status machine of a payment (payment-state-machine.ts): the table of listed
 transitions, and the check a service call makes before it writes a status.
 */
module PaymentStateMachine {
  datatype Status = PENDING | CONFIRMING | COMPLETED | FAILED | REFUNDED | EXPIRED

  datatype Row = Row(from: seq<Status>, to: Status)

  const VALID_TRANSITIONS: seq<Row> := [
    Row([PENDING], CONFIRMING),
    Row([PENDING], EXPIRED),
    Row([PENDING], FAILED),
    Row([CONFIRMING], COMPLETED),
    Row([CONFIRMING], FAILED),
    Row([COMPLETED], REFUNDED)
  ]

  const TERMINAL_STATES: seq<Status> := [COMPLETED, FAILED, REFUNDED, EXPIRED]

  datatype Verdict = Accepted | FromTerminal | NotListed

  // Some row of the table, searched in order, allows the move.
  predicate FoundIn(rows: seq<Row>, from: Status, to: Status) {
    rows != [] && ((rows[0].to == to && from in rows[0].from) || FoundIn(rows[1..], from, to))
  }

  predicate Listed(from: Status, to: Status) {
    FoundIn(VALID_TRANSITIONS, from, to)
  }

  predicate IsTerminal(status: Status) {
    status in TERMINAL_STATES
  }

  predicate CanAcceptDeposit(status: Status) {
    status == PENDING
  }

  function AssertTransition(from: Status, to: Status): Verdict {
    if from == to then Accepted
    else if Listed(from, to) then Accepted
    else if IsTerminal(from) then FromTerminal
    else NotListed
  }

  // Length of the longest listed path from PENDING to a status.
  function Rank(status: Status): nat {
    match status
    case PENDING => 0
    case CONFIRMING | EXPIRED => 1
    case COMPLETED | FAILED => 2
    case REFUNDED => 3
  }

  lemma {:induction false} FoundSomewhere(rows: seq<Row>, from: Status, to: Status)
    ensures FoundIn(rows, from, to) <==> exists i :: 0 <= i < |rows| && rows[i].to == to && from in rows[i].from
  {
    if rows != [] {
      FoundSomewhere(rows[1..], from, to);
      assert forall i :: 1 <= i < |rows| ==> rows[i] == rows[1..][i - 1];
      if FoundIn(rows[1..], from, to) {
        var i :| 0 <= i < |rows[1..]| && rows[1..][i].to == to && from in rows[1..][i].from;
        assert rows[i + 1].to == to && from in rows[i + 1].from;
      }
    }
  }

  // What the search through the table accepts, pair by pair.
  lemma ListedPairs(from: Status, to: Status)
    ensures Listed(from, to) <==>
      (from, to) in {(PENDING, CONFIRMING), (PENDING, EXPIRED), (PENDING, FAILED),
                     (CONFIRMING, COMPLETED), (CONFIRMING, FAILED), (COMPLETED, REFUNDED)}
  {
    FoundSomewhere(VALID_TRANSITIONS, from, to);
    hide FoundIn;
    assert VALID_TRANSITIONS[0].from == [PENDING] && VALID_TRANSITIONS[1].from == [PENDING]
        && VALID_TRANSITIONS[2].from == [PENDING] && VALID_TRANSITIONS[3].from == [CONFIRMING]
        && VALID_TRANSITIONS[4].from == [CONFIRMING] && VALID_TRANSITIONS[5].from == [COMPLETED];
  }

  // COMPLETED is called terminal and yet has an exit: it is the only such status.
  lemma TerminalExits(from: Status, to: Status)
    requires IsTerminal(from) && from != to
    ensures AssertTransition(from, to).Accepted? <==> from == COMPLETED && to == REFUNDED
    ensures !AssertTransition(from, to).Accepted? ==> AssertTransition(from, to).FromTerminal?
  {
    ListedPairs(from, to);
  }

  // The verdict on any two statuses: the same one twice is accepted, and so are the six moves of the table; any other
  // move is refused, as one out of a terminal status unless it starts at PENDING or CONFIRMING.
  lemma VerdictExactly(from: Status, to: Status)
    ensures AssertTransition(from, to)
         == if from == to then Accepted
            else if from == PENDING then (if to in {CONFIRMING, EXPIRED, FAILED} then Accepted else NotListed)
            else if from == CONFIRMING then (if to in {COMPLETED, FAILED} then Accepted else NotListed)
            else if from == COMPLETED && to == REFUNDED then Accepted
            else FromTerminal
  {
    ListedPairs(from, to);
    hide Listed;
  }

  ghost predicate IsPath(statuses: seq<Status>) {
    forall i :: 0 < i < |statuses| ==> Listed(statuses[i - 1], statuses[i])
  }

  // The table has no cycle: along listed transitions the rank climbs, so a path makes at most three moves.
  lemma {:induction false} PathsAreShort(statuses: seq<Status>)
    requires statuses != [] && IsPath(statuses)
    ensures |statuses| - 1 <= Rank(statuses[|statuses| - 1]) <= 3
  {
    var n := |statuses|;
    if n > 1 {
      PathsAreShort(statuses[..n - 1]);
      assert Listed(statuses[n - 2], statuses[n - 1]);
      ListedPairs(statuses[n - 2], statuses[n - 1]);
    }
  }
}
