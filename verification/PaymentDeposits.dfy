/**
 Deposit conservation: what was received on chain covers what was expected by the payments
 that were matched to it, up to one unit each.
 */
module PaymentDeposits {
  import opened Wrappers
  import opened PaymentStateMachine
  import opened Ledger
  import opened PaymentRail
  import opened PaymentInvariants
  import opened PaymentAudit

  // All deposits, or those to one address of one chain.
  datatype Where = Anywhere | At(chain: Chain, address: string)

  predicate Within(where: Where, chain: Chain, address: string) {
    where.Anywhere? || (where.chain == chain && Lower(where.address) == Lower(address))
  }

  // The payment reached CONFIRMING: it holds a transaction hash.
  predicate Attached(where: Where, p: Payment) {
    p.txHash.Some? && Within(where, p.chain, p.toAddress)
  }

  function Expected(where: Where, ps: seq<Payment>): int {
    if ps == [] then 0
    else
      var p := ps[|ps| - 1];
      Expected(where, ps[..|ps| - 1]) + if Attached(where, p) then p.amount else 0
  }

  function Matched(where: Where, ps: seq<Payment>): nat {
    if ps == [] then 0
    else Matched(where, ps[..|ps| - 1]) + if Attached(where, ps[|ps| - 1]) then 1 else 0
  }

  function Received(where: Where, transfers: seq<Transfer>): nat {
    if transfers == [] then 0
    else
      var t := transfers[|transfers| - 1];
      Received(where, transfers[..|transfers| - 1]) + if Within(where, t.chain, t.toAddress) then t.amountRaw else 0
  }

  // ---------------------------------------------------------------- one transfer per payment

  // A transfer that pays for the payment.
  ghost function Payer(env: Env, p: Payment): (k: nat)
    ensures Backed(env, p) ==> k < |env.transfers| && PaysFor(env.transfers[k], p)
  {
    if Backed(env, p) then
      var k :| 0 <= k < |env.transfers| && PaysFor(env.transfers[k], p);
      k
    else |env.transfers|
  }

  // What is expected of the transfers before k, less the unit of tolerance.
  ghost function ExpectedBefore(env: Env, where: Where, ps: seq<Payment>, k: nat): int {
    if ps == [] then 0
    else
      var p := ps[|ps| - 1];
      ExpectedBefore(env, where, ps[..|ps| - 1], k)
      + if Attached(where, p) && Payer(env, p) < k then p.amount - 1 else 0
  }

  ghost predicate DistinctHashes(ps: seq<Payment>) {
    forall i, j :: 0 <= i < j < |ps| && ps[i].txHash.Some? ==> ps[i].txHash != ps[j].txHash
  }

  // One more transfer adds the expectation of one payment at most, because a hash is attached once.
  lemma {:induction false} OneMoreTransfer(env: Env, where: Where, ps: seq<Payment>, k: nat)
    requires k < |env.transfers| && DistinctHashes(ps)
    requires forall i :: 0 <= i < |ps| && ps[i].txHash.Some? ==> Backed(env, ps[i])
    ensures var t := env.transfers[k];
      var more := ExpectedBefore(env, where, ps, k + 1) - ExpectedBefore(env, where, ps, k);
      && more <= (if Within(where, t.chain, t.toAddress) then t.amountRaw else 0)
      && ((forall i :: 0 <= i < |ps| ==> ps[i].txHash != Some(t.txHash)) ==> more == 0)
  {
    if ps != [] {
      var n := |ps| - 1;
      OneMoreTransfer(env, where, ps[..n], k);
      assert forall i :: 0 <= i < n ==> ps[..n][i] == ps[i];
    }
  }

  lemma {:induction false} CoveredByTransfers(env: Env, where: Where, ps: seq<Payment>, k: nat)
    requires k <= |env.transfers| && DistinctHashes(ps)
    requires forall i :: 0 <= i < |ps| && ps[i].txHash.Some? ==> Backed(env, ps[i])
    ensures ExpectedBefore(env, where, ps, k) <= Received(where, env.transfers[..k])
  {
    if k == 0 {
      NothingBeforeZero(env, where, ps);
    } else {
      CoveredByTransfers(env, where, ps, k - 1);
      OneMoreTransfer(env, where, ps, k - 1);
      assert env.transfers[..k][..k - 1] == env.transfers[..k - 1];
    }
  }

  lemma {:induction false} NothingBeforeZero(env: Env, where: Where, ps: seq<Payment>)
    ensures ExpectedBefore(env, where, ps, 0) == 0
  {
    if ps != [] {
      NothingBeforeZero(env, where, ps[..|ps| - 1]);
    }
  }

  lemma {:induction false} AllArePaid(env: Env, where: Where, ps: seq<Payment>)
    requires forall i :: 0 <= i < |ps| && ps[i].txHash.Some? ==> Backed(env, ps[i])
    ensures ExpectedBefore(env, where, ps, |env.transfers|) == Expected(where, ps) - Matched(where, ps)
  {
    if ps != [] {
      var n := |ps| - 1;
      assert forall i :: 0 <= i < n ==> ps[..n][i] == ps[i];
      AllArePaid(env, where, ps[..n]);
    }
  }

  // ---------------------------------------------------------------- main result

  // Over any run, overall and for each deposit address, the payments that reached CONFIRMING expected at most what
  // the distinct transfers brought, plus one unit per such payment.
  lemma DepositConservation(env: Env, labels: seq<Label>, where: Where)
    ensures var ps := Run(env, labels).s.payments;
      Expected(where, ps) <= Received(where, env.transfers) + Matched(where, ps)
  {
    var ps := Run(env, labels).s.payments;
    RunKeepsTrails(env, labels);
    AllArePaid(env, where, ps);
    CoveredByTransfers(env, where, ps, |env.transfers|);
    assert env.transfers[..|env.transfers|] == env.transfers;
  }

  // Holding a transaction hash is having been detected, as the trail shows.
  lemma AttachedIsDetected(env: Env, labels: seq<Label>, i: nat)
    requires i < |Run(env, labels).s.payments|
    ensures var s := Run(env, labels).s;
      s.payments[i].txHash.Some? <==> DetectedEvent(s.payments[i], i) in EventsOf(s.events, i)
  {
    var s := Run(env, labels).s;
    RunKeepsTrails(env, labels);
    if IsSettled(s.payments[i]) {
      assert EventsOf(s.events, i)[0] == DetectedEvent(s.payments[i], i);
    }
  }
}
