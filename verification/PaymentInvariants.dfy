/**
 What every step of the payment rail keeps. One predicate per concern, one lemma per
 concern saying that any enabled step keeps it, and the induction over runs.
 */
module PaymentInvariants {
  import opened Wrappers
  import opened PaymentStateMachine
  import opened Ledger
  import opened PaymentRail

  // ---------------------------------------------------------------- the payment rows

  predicate IsSettled(p: Payment) {
    p.status == COMPLETED || p.status == REFUNDED
  }

  predicate FailedUnderpaid(p: Payment) {
    p.status == FAILED && p.failure == Some(Underpayment)
  }

  // An on-chain transfer to the payment's address pays for it, up to one unit.
  ghost predicate PaysFor(t: Transfer, p: Payment) {
    && p.txHash == Some(t.txHash) && p.blockNumber == Some(t.blockNumber)
    && p.chain == t.chain && Lower(p.toAddress) == Lower(t.toAddress)
    && p.amount <= t.amountRaw + 1
  }

  ghost predicate Backed(env: Env, p: Payment) {
    exists k :: 0 <= k < |env.transfers| && PaysFor(env.transfers[k], p)
  }

  ghost predicate RowOk(env: Env, p: Payment) {
    && (p.txHash.Some? <==> p.status == CONFIRMING || IsSettled(p) || (p.status == FAILED && !FailedUnderpaid(p)))
    && (p.txHash.Some? ==> Visible(env, p) && Backed(env, p))
    && (p.failure.Some? ==> p.status == FAILED)
    && (p.status == FAILED ==> p.failure.Some?)
  }

  ghost predicate PaymentsOk(env: Env, ps: seq<Payment>) {
    && (forall i :: 0 <= i < |ps| ==> RowOk(env, ps[i]))
    && (forall i, j :: 0 <= i < j < |ps| ==> ps[i].idempotencyKey != ps[j].idempotencyKey)
    && (forall i, j :: 0 <= i < j < |ps| && ps[i].txHash.Some? ==> ps[i].txHash != ps[j].txHash)
  }

  // The columns a payment keeps for life.
  ghost predicate SameIntent(p: Payment, q: Payment) {
    q == p.(status := q.status, txHash := q.txHash, blockNumber := q.blockNumber,
            confirmations := q.confirmations, failure := q.failure)
  }

  // What one step may do to one row: nothing, or a listed move, or a new confirmation count.
  ghost predicate RowMove(p: Payment, q: Payment) {
    && SameIntent(p, q)
    && (p.status == q.status || Listed(p.status, q.status))
    && (p.txHash.Some? ==> q.txHash == p.txHash && q.blockNumber == p.blockNumber)
    && (p.status == q.status ==> q.txHash == p.txHash && q.failure == p.failure)
  }

  lemma ListedMoves()
    ensures Listed(PENDING, CONFIRMING) && Listed(PENDING, EXPIRED) && Listed(PENDING, FAILED)
    ensures Listed(CONFIRMING, COMPLETED) && Listed(CONFIRMING, FAILED) && Listed(COMPLETED, REFUNDED)
  {
    ListedPairs(PENDING, CONFIRMING);
    ListedPairs(PENDING, EXPIRED);
    ListedPairs(PENDING, FAILED);
    ListedPairs(CONFIRMING, COMPLETED);
    ListedPairs(CONFIRMING, FAILED);
    ListedPairs(COMPLETED, REFUNDED);
  }

  lemma ExpireEffect(s: State, id: nat, crash: Crash)
    requires id < |s.payments|
    ensures var r := Expire(s, id, crash);
      && r == s.(payments := r.payments, events := r.events)
      && r.payments == (if id in crash.unwritten then s.payments
                        else s.payments[id := s.payments[id].(status := EXPIRED)])
      && forall i: nat :: EventsOf(r.events, i) ==
           EventsOf(s.events, i) + if i == id && i !in crash.unwritten && i !in crash.silent
                                   then [Event(i, s.payments[i].tenantId, PENDING, EXPIRED, PaymentExpired)] else []
  {
    hide EventsOf;
    var e := Event(id, s.payments[id].tenantId, PENDING, EXPIRED, PaymentExpired);
    forall i: nat
      ensures EventsOf(s.events + [e], i) == EventsOf(s.events, i) + if i == id then [e] else []
    {
      EventsOfAppend(s.events, e, i);
    }
  }

  // The sweep changes exactly the rows of its batch it can write, and appends one event to each it can.
  lemma {:induction false} ExpireAllEffect(s: State, ids: seq<nat>, crash: Crash)
    requires forall k :: 0 <= k < |ids| ==> ids[k] < |s.payments|
    requires forall k, m :: 0 <= k < m < |ids| ==> ids[k] != ids[m]
    ensures var r := ExpireAll(s, ids, crash);
      && r == s.(payments := r.payments, events := r.events)
      && |r.payments| == |s.payments|
      && (forall i: nat :: i < |s.payments| ==>
            r.payments[i] == if i in ids && i !in crash.unwritten then s.payments[i].(status := EXPIRED)
                             else s.payments[i])
      && (forall i: nat :: EventsOf(r.events, i) ==
            EventsOf(s.events, i) + if i < |s.payments| && i in ids && i !in crash.unwritten && i !in crash.silent
                                    then [Event(i, s.payments[i].tenantId, PENDING, EXPIRED, PaymentExpired)] else [])
  {
    hide EventsOf, Expire;
    if ids != [] {
      var n := |ids| - 1;
      var before := ids[..n];
      ExpireAllEffect(s, before, crash);
      var id := ids[n];
      assert id !in before;
      assert forall i :: i in ids <==> i in before || i == id;
      ExpireEffect(ExpireAll(s, before, crash), id, crash);
    }
  }

  function EventsOf(events: seq<Event>, id: nat): seq<Event> {
    if events == [] then []
    else
      var e := events[|events| - 1];
      EventsOf(events[..|events| - 1], id) + if e.paymentId == id then [e] else []
  }

  lemma EventsOfAppend(events: seq<Event>, e: Event, id: nat)
    ensures EventsOf(events + [e], id) == EventsOf(events, id) + if e.paymentId == id then [e] else []
  {
    assert (events + [e])[..|events|] == events;
  }

  // ---------------------------------------------------------------- one row per step

  // The row a poll leaves, by the way it ends.
  function PolledRow(p: Payment, end: PollEnd, confirmations: int): Payment {
    match end
    case Settled => p.(status := COMPLETED)
    case TxWasLost => p.(status := FAILED, failure := Some(Dropped))
    case TxReverted => p.(status := FAILED, failure := Some(Reverted))
    case FailedSilently(reason) => p.(status := FAILED, failure := Some(reason))
    case _ => p.(confirmations := confirmations)
  }

  function PollEvents(id: nat, p: Payment, end: PollEnd): seq<Event> {
    match end
    case Settled => [Event(id, p.tenantId, CONFIRMING, COMPLETED, PaymentSettled)]
    case TxWasLost | TxReverted => [Event(id, p.tenantId, CONFIRMING, FAILED, TxFailed)]
    case _ => []
  }

  predicate PollDecides(end: PollEnd) {
    end.Settled? || end.TxWasLost? || end.TxReverted? || end.FailedSilently?
  }

  ghost predicate PollWrites(s: State, id: nat, after: State, end: PollEnd)
    requires id < |s.payments|
  {
    && |after.payments| == |s.payments|
    && after.payments == s.payments[id := PolledRow(s.payments[id], end, after.payments[id].confirmations)]
    && after.events == s.events + PollEvents(id, s.payments[id], end)
    && (PollDecides(end) ==> s.payments[id].status == CONFIRMING)
    && (end.FailedSilently? ==> !end.reason.Underpayment?)
  }

  lemma UpdateEffect(env: Env, s: State, id: nat, confirmations: int, fault: Fault)
    requires id < |s.payments|
    ensures var (after, end) := HandleConfirmationUpdate(env, s, id, confirmations, fault);
      && PollWrites(s, id, after, end)
      && !end.TxWasLost? && !end.TxReverted? && !end.FailedSilently?
  {
  }

  lemma ReceiptEffect(env: Env, s: State, id: nat, job: ConfirmJob, confirmations: int, fault: Fault)
    requires id < |s.payments|
    ensures var r := PollReceipt(env, s, id, job, confirmations, fault); PollWrites(s, id, r.state, r.end)
  {
    hide HandleConfirmationUpdate, UpdateTx;
    var updated := UpdateTx(s, job.txHash, if confirmations >= job.target then CONFIRMED else SUBMITTED,
      Some(confirmations));
    RowOnly(s, job.txHash, if confirmations >= job.target then CONFIRMED else SUBMITTED, Some(confirmations));
    UpdateEffect(env, updated, id, confirmations, fault);
  }

  lemma RowOnly(s: State, txHash: string, status: ChainTxStatus, confirmations: Option<int>)
    ensures var after := UpdateTx(s, txHash, status, confirmations);
      after.payments == s.payments && after.events == s.events
  {
  }

  lemma GiveUpEffect(s: State, id: nat, job: ConfirmJob, reason: FailureReason, fault: Fault)
    requires id < |s.payments| && s.payments[id].status == CONFIRMING && reason != Underpayment
    ensures var r := GiveUp(s, id, job, reason, fault); PollWrites(s, id, r.state, r.end)
  {
  }

  lemma PollEffect(env: Env, s: State, id: nat, view: View, fault: Fault)
    requires id < |s.payments| && id in s.jobs
    ensures var r := OnPoll(env, s, id, view, fault); PollWrites(s, id, r.state, r.end)
  {
    hide PollReceipt, GiveUp;
    var job := s.jobs[id];
    if s.payments[id].status == CONFIRMING {
      GiveUpEffect(s, id, job, Dropped, fault);
      GiveUpEffect(s, id, job, Reverted, fault);
    }
    if view.receipt.Some? {
      ReceiptEffect(env, s, id, job, view.currentBlock - view.receipt.value.blockNumber + 1, fault);
    }
  }

  // What a transfer does to the payment it matched.
  lemma TransferEffect(env: Env, s: State, t: Transfer, id: nat, stop: Stop)
    requires id < |s.payments| && s.payments[id].status == PENDING
    ensures var after := OnTransfer(env, s, t, Some(id), stop);
      var p := s.payments[id];
      var q := after.payments[id];
      && after.payments == s.payments[id := q]
      && (if stop.AfterRecord? then q == p && after.events == s.events
          else if Underpaid(p, t) then
            q == p.(status := FAILED, failure := Some(Underpayment)) && after.events == s.events
          else if Visible(env, p) && !TxHashTaken(s.payments, t.txHash) then
            q == Detected(p, t) && after.events == s.events + [Event(id, p.tenantId, PENDING, CONFIRMING, TxDetected)]
          else q == p && after.events == s.events)
  {
  }

  // The five ways a step touches the payment table.
  datatype Touch = Untouched | Appended(p: Payment) | Changed(id: nat, q: Payment) | Swept(ids: seq<nat>, crash: Crash)

  function TouchOf(env: Env, s: State, l: Label): Touch
    requires Enabled(env, s, l)
  {
    match l
    case Provision(_) => Untouched
    case Create(_, _, _, _, _, _, _) =>
      var after := Step(env, s, l).payments;
      if |after| > |s.payments| then Appended(after[|s.payments|]) else Untouched
    case Detect(_, found, _) =>
      if found.None? then Untouched else Changed(found.value, Step(env, s, l).payments[found.value])
    case PollStep(id, _, _) => Changed(id, Step(env, s, l).payments[id])
    case Sweep(_, batch, crash) => Swept(batch, crash)
    case Refund(id, _) => if id < |s.payments| then Changed(id, Step(env, s, l).payments[id]) else Untouched
  }

  ghost predicate TouchedBy(before: seq<Payment>, touch: Touch, after: seq<Payment>) {
    match touch
    case Untouched => after == before
    case Appended(p) => after == before + [p]
    case Changed(id, q) => id < |before| && after == before[id := q]
    case Swept(ids, crash) =>
      && |after| == |before|
      && forall i: nat :: i < |before| ==>
           after[i] == if i in ids && i !in crash.unwritten then before[i].(status := EXPIRED) else before[i]
  }

  lemma StepTouches(env: Env, s: State, l: Label)
    requires Enabled(env, s, l)
    ensures TouchedBy(s.payments, TouchOf(env, s, l), Step(env, s, l).payments)
    ensures TouchOf(env, s, l).Untouched? || TouchOf(env, s, l).Appended? ==> Step(env, s, l).events == s.events
  {
    match l
    case Detect(t, found, f) => if found.Some? { TransferEffect(env, s, env.transfers[t], found.value, f); }
    case PollStep(id, view, fault) => PollEffect(env, s, id, view, fault);
    case Sweep(_, batch, crash) => ExpireAllEffect(s, batch, crash);
    case _ =>
  }

  // A changed row moves as RowMove says and stays a good row; a transaction hash it gains was free.
  ghost predicate GoodChange(env: Env, ps: seq<Payment>, id: nat, q: Payment) {
    && id < |ps| && RowMove(ps[id], q) && RowOk(env, q)
    && (q.txHash != ps[id].txHash ==> q.txHash.Some? && !TxHashTaken(ps, q.txHash.value))
  }

  lemma DetectChange(env: Env, s: State, t: Transfer, id: nat, f: Stop)
    requires id < |s.payments| && RowOk(env, s.payments[id]) && t in env.transfers
    requires AwaitsDeposit(s.payments[id], t.chain, t.toAddress)
    ensures GoodChange(env, s.payments, id, OnTransfer(env, s, t, Some(id), f).payments[id])
  {
    hide OnTransfer;
    TransferEffect(env, s, t, id, f);
    ListedMoves();
    var p := s.payments[id];
    if !Underpaid(p, t) && !f.AfterRecord? {
      var k :| 0 <= k < |env.transfers| && env.transfers[k] == t;
      assert PaysFor(env.transfers[k], Detected(p, t));
    }
  }

  lemma PollChange(env: Env, s: State, id: nat, view: View, fault: Fault)
    requires id < |s.payments| && RowOk(env, s.payments[id]) && id in s.jobs
    ensures GoodChange(env, s.payments, id, OnPoll(env, s, id, view, fault).state.payments[id])
  {
    hide OnPoll;
    PollEffect(env, s, id, view, fault);
    ListedMoves();
    BackedStays(env, s.payments[id], OnPoll(env, s, id, view, fault).state.payments[id]);
  }

  lemma RefundChange(env: Env, s: State, id: nat, caller: string)
    requires id < |s.payments| && RowOk(env, s.payments[id])
    ensures GoodChange(env, s.payments, id, HandleRefund(s, id, caller).0.payments[id])
  {
    hide Listed, IsTerminal, Backed;
    ListedPairs(s.payments[id].status, REFUNDED);
    BackedStays(env, s.payments[id], HandleRefund(s, id, caller).0.payments[id]);
  }

  lemma ChangedRowOk(env: Env, s: State, l: Label)
    requires PaymentsOk(env, s.payments) && Enabled(env, s, l) && TouchOf(env, s, l).Changed?
    ensures var c := TouchOf(env, s, l); GoodChange(env, s.payments, c.id, c.q)
  {
    hide OnTransfer, OnPoll, HandleRefund, GoodChange;
    match l
    case Detect(t, found, f) => DetectChange(env, s, env.transfers[t], found.value, f);
    case PollStep(id, view, fault) => PollChange(env, s, id, view, fault);
    case Refund(id, caller) => RefundChange(env, s, id, caller);
  }

  lemma BackedStays(env: Env, p: Payment, q: Payment)
    requires SameIntent(p, q) && q.txHash == p.txHash && q.blockNumber == p.blockNumber
    ensures Backed(env, p) ==> Backed(env, q)
  {
    if Backed(env, p) {
      var k :| 0 <= k < |env.transfers| && PaysFor(env.transfers[k], p);
      assert PaysFor(env.transfers[k], q);
    }
  }

  lemma SweptRowsMove(s: State, now: int, batch: seq<nat>, crash: Crash)
    requires SweepBatch(s.payments, now, batch)
    ensures forall i :: 0 <= i < |s.payments| ==> RowMove(s.payments[i], ExpireAll(s, batch, crash).payments[i])
  {
    hide ExpireAll, EventsOf, Listed;
    ExpireAllEffect(s, batch, crash);
    ListedMoves();
  }

  lemma RowsMove(env: Env, s: State, l: Label)
    requires PaymentsOk(env, s.payments) && Enabled(env, s, l)
    ensures forall i :: 0 <= i < |s.payments| ==> RowMove(s.payments[i], Step(env, s, l).payments[i])
  {
    hide OnTransfer, OnPoll, HandleRefund, PaymentsOk, ExpireAll, Listed;
    match l
    case Sweep(now, batch, crash) => SweptRowsMove(s, now, batch, crash);
    case _ =>
      StepTouches(env, s, l);
      if TouchOf(env, s, l).Changed? {
        ChangedRowOk(env, s, l);
      }
  }

  lemma ChangeKeepsPayments(env: Env, ps: seq<Payment>, id: nat, q: Payment)
    requires PaymentsOk(env, ps) && GoodChange(env, ps, id, q)
    ensures PaymentsOk(env, ps[id := q])
  {
    var after := ps[id := q];
    forall i, j | 0 <= i < j < |ps| && after[i].txHash.Some?
      ensures after[i].txHash != after[j].txHash
    {
      assert after[i] == ps[i] || i == id;
      assert after[j] == ps[j] || j == id;
    }
  }

  lemma SweepKeepsPayments(env: Env, s: State, now: int, batch: seq<nat>, crash: Crash)
    requires PaymentsOk(env, s.payments) && SweepBatch(s.payments, now, batch)
    ensures PaymentsOk(env, ExpireAll(s, batch, crash).payments)
  {
    hide ExpireAll, EventsOf, Backed;
    ExpireAllEffect(s, batch, crash);
    var after := ExpireAll(s, batch, crash).payments;
    forall i | 0 <= i < |after|
      ensures RowOk(env, after[i]) && after[i].idempotencyKey == s.payments[i].idempotencyKey
      ensures after[i].txHash == s.payments[i].txHash
    {
      BackedStays(env, s.payments[i], after[i]);
    }
  }

  lemma CreateKeepsPayments(env: Env, s: State, l: Label)
    requires PaymentsOk(env, s.payments) && l.Create?
    ensures PaymentsOk(env, Step(env, s, l).payments)
  {
  }

  lemma ChangedKeepsPayments(env: Env, s: State, l: Label)
    requires PaymentsOk(env, s.payments) && Enabled(env, s, l) && TouchOf(env, s, l).Changed?
    ensures PaymentsOk(env, Step(env, s, l).payments)
  {
    hide GoodChange, PaymentsOk, Step, TouchOf;
    StepTouches(env, s, l);
    ChangedRowOk(env, s, l);
    ChangeKeepsPayments(env, s.payments, TouchOf(env, s, l).id, TouchOf(env, s, l).q);
  }

  lemma StepKeepsPayments(env: Env, s: State, l: Label)
    requires PaymentsOk(env, s.payments) && Enabled(env, s, l)
    ensures PaymentsOk(env, Step(env, s, l).payments)
  {
    hide OnTransfer, OnPoll, HandleRefund, PaymentsOk, ExpireAll;
    match l
    case Sweep(now, batch, crash) => SweepKeepsPayments(env, s, now, batch, crash);
    case Create(_, _, _, _, _, _, _) => CreateKeepsPayments(env, s, l);
    case _ =>
      StepTouches(env, s, l);
      if TouchOf(env, s, l).Changed? {
        ChangedKeepsPayments(env, s, l);
      }
  }
}
