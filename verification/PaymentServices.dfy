/**
 The services and workers of the payment rail as they run: they read and update the tables
 step by step. Each is proved to do what its function of PaymentRail says, so that any
 sequence of these calls is a run of the transition system.
 */
module PaymentServices {
  import opened Wrappers
  import opened PaymentStateMachine
  import opened Ledger
  import opened PaymentRail

  class PaymentStore {
    const env: Env
    const ledger: LedgerStore
    var payments: seq<Payment>
    var events: seq<Event>
    var chainTxs: map<string, ChainTx>
    var jobs: map<nat, ConfirmJob>
    var failedJobs: set<nat>

    constructor (env: Env, ledger: LedgerStore)
      requires ledger.accounts == map[] && ledger.journal == []
      ensures this.env == env && this.ledger == ledger && Contents() == EMPTY
    {
      this.env, this.ledger := env, ledger;
      payments, events, chainTxs, jobs, failedJobs := [], [], map[], map[], {};
    }

    function Contents(): State
      reads this, ledger
    {
      State(payments, events, chainTxs, jobs, failedJobs, ledger.Contents())
    }

    // ---------------------------------------------------------------- repository

    method Update(id: nat, p: Payment)
      requires id < |payments|
      modifies this`payments
      ensures payments == old(payments)[id := p]
    {
      payments := payments[id := p];
    }

    method AppendEvent(id: nat, tenantId: string, from: Status, to: Status, name: EventName)
      modifies this`events
      ensures events == old(events) + [Event(id, tenantId, from, to, name)]
    {
      events := events + [Event(id, tenantId, from, to, name)];
    }

    method FindPendingByAddress(toAddress: string, chain: Chain) returns (found: Option<nat>)
      ensures found.Some? ==> found.value < |payments| && AwaitsDeposit(payments[found.value], chain, toAddress)
      ensures found.None? ==> forall i :: 0 <= i < |payments| ==> !AwaitsDeposit(payments[i], chain, toAddress)
    {
      if i :| 0 <= i < |payments| && AwaitsDeposit(payments[i], chain, toAddress) {
        return Some(i);
      }
      return None;
    }

    // At most SWEEP_BATCH stale rows.
    method FindExpiredPending(now: int) returns (stale: seq<nat>)
      ensures SweepBatch(payments, now, stale)
    {
      stale := [];
      var i := 0;
      while i < |payments| && |stale| < SWEEP_BATCH
        invariant 0 <= i <= |payments| && |stale| <= SWEEP_BATCH
        invariant forall k :: 0 <= k < |stale| ==> stale[k] < i && Stale(payments[stale[k]], now)
        invariant forall k, m :: 0 <= k < m < |stale| ==> stale[k] != stale[m]
        invariant forall id: nat :: id < i && Stale(payments[id], now) ==> id in stale
      {
        if Stale(payments[i], now) {
          stale := stale + [i];
        }
        i := i + 1;
      }
    }

    // ---------------------------------------------------------------- PaymentsService

    method CreatePaymentIntent(tenantId: string, key: string, amount: int, chain: Chain, walletId: string,
                               required: Option<int>, now: int) returns (r: Result<nat, Error>)
      modifies this`payments
      ensures (Contents(), r)
        == CreateIntent(env, old(Contents()), tenantId, key, amount, chain, walletId, required, now)
    {
      var existing := FindByKey(payments, key);
      if existing.Some? {
        if payments[existing.value].tenantId != tenantId {
          return Err(IdempotencyConflict);
        }
        return Ok(existing.value);
      }
      if walletId !in env.wallets || env.wallets[walletId].tenantId != tenantId {
        return Err(NotFound);
      }
      var wallet := env.wallets[walletId];
      var confirmations := if required.Some? then required.value else DEFAULT_REQUIRED_CONFIRMATIONS;
      payments := payments + [Payment(tenantId, key, amount, chain, walletId, wallet.address, now + PAYMENT_EXPIRY_MS,
                                      confirmations, PENDING, None, None, 0, None)];
      return Ok(|payments| - 1);
    }

    // The unique index on txHash rolls the transaction back.
    method MarkDetected(id: nat, t: Transfer) returns (r: Result<(), Error>)
      requires id < |payments|
      modifies this`payments, this`events
      ensures (Contents(), r) == HandleTxDetected(env, old(Contents()), id, t)
    {
      var p := payments[id];
      if !Visible(env, p) || !CanAcceptDeposit(p.status) {
        return Ok(());
      }
      if TxHashTaken(payments, t.txHash) {
        return Err(DuplicateTxHash);
      }
      Update(id, p.(status := CONFIRMING, txHash := Some(t.txHash), blockNumber := Some(t.blockNumber),
        confirmations := 0));
      AppendEvent(id, p.tenantId, p.status, CONFIRMING, TxDetected);
      return Ok(());
    }

    // The ledger settles in its own transaction, between the writes of this one and their commit.
    method Settle(id: nat, fault: Fault) returns (end: PollEnd)
      requires id < |payments|
      modifies this`payments, this`events, ledger
      ensures (Contents(), end) == SettlePayment(old(Contents()), id, fault)
    {
      if fault.StatusFails? {
        return Threw(false);
      }
      var p := payments[id];
      var savedPayments, savedEvents := payments, events;
      Update(id, p.(status := COMPLETED));
      AppendEvent(id, p.tenantId, CONFIRMING, COMPLETED, PaymentSettled);
      var settled := ledger.Settle(p.tenantId, p.walletId, p.chain, id, p.amount, fault.LedgerThrows?);
      if !settled || fault.OuterCommitFails? {
        payments, events := savedPayments, savedEvents;
        return Threw(settled);
      }
      return PollEnd.Settled;
    }

    method ConfirmationUpdate(id: nat, confirmations: int, fault: Fault) returns (end: PollEnd)
      requires id < |payments|
      modifies this`payments, this`events, ledger
      ensures (Contents(), end) == HandleConfirmationUpdate(env, old(Contents()), id, confirmations, fault)
    {
      var p := payments[id];
      if !Visible(env, p) || p.status != CONFIRMING {
        return Ignored;
      }
      if confirmations < p.required {
        if fault.StatusFails? {
          return Threw(false);
        }
        Update(id, p.(confirmations := confirmations));
        return Ignored;
      }
      end := Settle(id, fault);
    }

    method ExpireStalePendingPayments(now: int, crash: Crash) returns (stale: seq<nat>)
      modifies this`payments, this`events
      ensures SweepBatch(old(payments), now, stale)
      ensures Contents() == ExpireAll(old(Contents()), stale, crash)
    {
      stale := FindExpiredPending(now);
      ghost var before := Contents();
      for k := 0 to |stale|
        invariant |payments| == |before.payments|
        invariant Contents() == ExpireAll(before, stale[..k], crash)
      {
        assert stale[..k + 1][..k] == stale[..k];
        var id := stale[k];
        var p := payments[id];
        if id in crash.unwritten {
          continue;
        }
        Update(id, p.(status := EXPIRED));
        if id !in crash.silent {
          AppendEvent(id, p.tenantId, PENDING, EXPIRED, PaymentExpired);
        }
      }
      assert stale[..|stale|] == stale;
    }

    method RefundPayment(id: nat, tenantId: string) returns (r: Result<Payment, Error>)
      modifies this`payments, this`events
      ensures (Contents(), r) == HandleRefund(old(Contents()), id, tenantId)
    {
      if id >= |payments| || payments[id].tenantId != tenantId {
        return Err(NotFound);
      }
      var p := payments[id];
      if !AssertTransition(p.status, REFUNDED).Accepted? {
        return Err(BadTransition);
      }
      Update(id, p.(status := REFUNDED));
      AppendEvent(id, p.tenantId, COMPLETED, REFUNDED, PaymentRefunded);
      return Ok(payments[id]);
    }

    // ---------------------------------------------------------------- BlockchainEventsWorker

    method ProcessTransfer(t: Transfer, stop: Stop) returns (found: Option<nat>)
      modifies this
      ensures found.Some? ==>
        found.value < |old(payments)| && AwaitsDeposit(old(payments)[found.value], t.chain, t.toAddress)
      ensures found.None? ==>
        forall i :: 0 <= i < |old(payments)| ==> !AwaitsDeposit(old(payments)[i], t.chain, t.toAddress)
      ensures Contents() == OnTransfer(env, old(Contents()), t, found, stop)
    {
      found := FindPendingByAddress(t.toAddress, t.chain);
      if found.None? {
        return;
      }
      var id := found.value;
      var p := payments[id];
      if t.txHash !in chainTxs {
        chainTxs := chainTxs[t.txHash := ChainTx(p.tenantId, id, t.amountRaw, SUBMITTED, 0)];
      }
      if stop.AfterRecord? {
        return;
      }
      var diff := t.amountRaw - p.amount;
      if diff < -1 {
        Update(id, p.(status := FAILED, failure := Some(Underpayment)));
        return;
      }
      var r := MarkDetected(id, t);
      if r.Err? || stop.BeforeQueue? {
        return;
      }
      if env.queue.Replaces? || id !in jobs {
        jobs := jobs[id := ConfirmJob(t.txHash, p.required, 0)];
      }
    }

    // ---------------------------------------------------------------- TransactionConfirmationWorker

    method UpdateTxRow(txHash: string, status: ChainTxStatus, confirmations: Option<int>)
      modifies this`chainTxs
      ensures Contents() == UpdateTx(old(Contents()), txHash, status, confirmations)
    {
      if txHash in chainTxs {
        var row := chainTxs[txHash];
        var count := if confirmations.Some? then confirmations.value else row.confirmations;
        chainTxs := chainTxs[txHash := row.(status := status, confirmations := count)];
      }
    }

    method Fail(id: nat, txHash: string, reason: FailureReason, fault: Fault)
      requires id < |payments|
      modifies this`chainTxs, this`payments, this`events
      ensures Contents() == FailPayment(old(Contents()), id, txHash, reason, fault)
    {
      UpdateTxRow(txHash, TX_FAILED, None);
      if fault.StatusFails? {
        return;
      }
      var p := payments[id];
      Update(id, p.(status := FAILED, failure := Some(reason)));
      if !fault.EventFails? {
        AppendEvent(id, p.tenantId, CONFIRMING, FAILED, TxFailed);
      }
    }

    // The poll of a payment that is given up.
    method Abandon(id: nat, job: ConfirmJob, reason: FailureReason, fault: Fault) returns (end: PollEnd)
      requires id < |payments|
      modifies this
      ensures Poll(Contents(), end) == GiveUp(old(Contents()), id, job, reason, fault)
    {
      Fail(id, job.txHash, reason, fault);
      if fault.StatusFails? || fault.EventFails? {
        RetryJob(id, job);
        return if fault.StatusFails? then Threw(false) else FailedSilently(reason);
      }
      FinishJob(id);
      return if reason.Dropped? then TxWasLost else TxReverted;
    }

    method ScheduleRecheck(id: nat, job: ConfirmJob)
      modifies this`jobs
      ensures Contents() == Recheck(env, old(Contents()), id, job)
    {
      if env.queue.Drops? {
        FinishJob(id);
      } else {
        jobs := jobs[id := job.(attempts := 0)];
      }
    }

    // The queue's answer to a processor that throws.
    method RetryJob(id: nat, job: ConfirmJob)
      modifies this`jobs, this`failedJobs
      ensures Contents() == Retry(old(Contents()), id, job)
    {
      if job.attempts + 1 < ATTEMPTS {
        jobs := jobs[id := job.(attempts := job.attempts + 1)];
      } else {
        jobs, failedJobs := jobs - {id}, failedJobs + {id};
      }
    }

    method FinishJob(id: nat)
      modifies this`jobs
      ensures Contents() == WithoutJob(old(Contents()), id)
    {
      jobs := jobs - {id};
    }

    method ProcessReceipt(id: nat, job: ConfirmJob, confirmations: int, fault: Fault) returns (end: PollEnd)
      requires id < |payments|
      modifies this, ledger
      ensures Poll(Contents(), end) == PollReceipt(env, old(Contents()), id, job, confirmations, fault)
    {
      var reached := confirmations >= job.target;
      UpdateTxRow(job.txHash, if reached then CONFIRMED else SUBMITTED, Some(confirmations));
      end := ConfirmationUpdate(id, confirmations, fault);
      if end.Threw? {
        RetryJob(id, job);
      } else if reached {
        FinishJob(id);
      } else {
        ScheduleRecheck(id, job);
        end := if end.Ignored? then Rechecked else end;
      }
    }

    method ProcessPoll(id: nat, view: View, fault: Fault) returns (end: PollEnd)
      requires id < |payments| && id in jobs
      modifies this, ledger
      ensures Poll(Contents(), end) == OnPoll(env, old(Contents()), id, view, fault)
    {
      hide PollReceipt, GiveUp, UpdateTx;
      var job := jobs[id];
      var p := payments[id];
      if p.status != CONFIRMING {
        FinishJob(id);
        return NotConfirming;
      }
      if fault.RpcThrows? {
        RetryJob(id, job);
        return Threw(false);
      }
      if view.receipt.None? {
        if BlocksSinceSeen(p, view.currentBlock) > MAX_WAIT_BLOCKS {
          end := Abandon(id, job, Dropped, fault);
          return;
        }
        ScheduleRecheck(id, job);
        return Rechecked;
      }
      if view.receipt.value.reverted {
        end := Abandon(id, job, Reverted, fault);
        return;
      }
      end := ProcessReceipt(id, job, view.currentBlock - view.receipt.value.blockNumber + 1, fault);
    }
  }
}
