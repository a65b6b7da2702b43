/**
 What each call does to a payment's confirmation job and to the row of a transaction, in plain
 numbers: ten attempts, three hundred blocks, and the status a transaction is shown with.
 */
module PaymentJobs {
  import opened Wrappers
  import opened PaymentStateMachine
  import opened Ledger
  import opened PaymentRail
  import opened PaymentInvariants
  import opened PaymentAudit
  import opened PaymentPolling
  import opened PaymentHistory

  // ---------------------------------------------------------------- the job

  // A poll of a CONFIRMING payment ends with an exception.
  predicate PollThrows(s: State, p: Payment, view: View, fault: Fault) {
    if fault.RpcThrows? then true
    else if view.receipt.None? then LongGone(p, view.currentBlock) && (fault.StatusFails? || fault.EventFails?)
    else if view.receipt.value.reverted then fault.StatusFails? || fault.EventFails?
    else if BlocksOn(view) < p.required then fault.StatusFails?
    else fault.StatusFails? || fault.LedgerThrows? || fault.OuterCommitFails? || !CanBook(s, p)
  }

  predicate TooEarly(p: Payment, view: View) {
    if view.receipt.None? then !LongGone(p, view.currentBlock)
    else !view.receipt.value.reverted && BlocksOn(view) < p.required
  }

  function JobOf(s: State, id: nat): Option<ConfirmJob> {
    if id in s.jobs then Some(s.jobs[id]) else None
  }

  // A transfer that is large enough ends with the job being queued, unless its hash is taken or the queue is lost.
  predicate Queues(env: Env, s: State, l: Label, id: nat)
    requires id < |s.payments|
  {
    && Reaches(env, l, id) && !l.stop.BeforeQueue?
    && env.transfers[l.transfer].amountRaw + 1 >= s.payments[id].amount
    && (Found(env, s.payments[id]) ==> HashIsFree(s, env.transfers[l.transfer].txHash))
  }

  function JobAfter(env: Env, s: State, l: Label, id: nat): Option<ConfirmJob>
    requires id < |s.payments|
  {
    var p := s.payments[id];
    var job := JobOf(s, id);
    if Queues(env, s, l, id) then
      if env.queue == Drops && job.Some? then job
      else Some(ConfirmJob(env.transfers[l.transfer].txHash, p.required, 0))
    else if l.PollStep? && l.id == id && job.Some? then
      if p.status != CONFIRMING then None
      else if PollThrows(s, p, l.view, l.fault) then
        if job.value.attempts + 1 < 10 then Some(job.value.(attempts := job.value.attempts + 1)) else None
      else if TooEarly(p, l.view) && env.queue == Replaces then Some(job.value.(attempts := 0))
      else None
    else job
  }

  lemma SettlementEnds(s: State, id: nat, fault: Fault)
    requires id < |s.payments|
    ensures SettlePayment(s, id, fault).1.Threw?
       <==> fault.StatusFails? || fault.LedgerThrows? || fault.OuterCommitFails? || !CanBook(s, s.payments[id])
    ensures SettlePayment(s, id, fault).1.Threw? || SettlePayment(s, id, fault).1.Settled?
  {
  }

  lemma ReceiptEnds(env: Env, s: State, id: nat, view: View, fault: Fault)
    requires id < |s.payments| && id in s.jobs && s.payments[id].status == CONFIRMING && Visible(env, s.payments[id])
    requires s.jobs[id].target == s.payments[id].required
    requires view.receipt.Some? && !view.receipt.value.reverted && !fault.RpcThrows?
    ensures JobOf(PollReceipt(env, s, id, s.jobs[id], BlocksOn(view), fault).state, id)
         == JobAfter(env, s, PollStep(id, view, fault), id)
  {
    hide SettlePayment, CanBook, UpdateTx;
    var job := s.jobs[id];
    var status := if BlocksOn(view) >= job.target then CONFIRMED else SUBMITTED;
    var updated := UpdateTx(s, job.txHash, status, Some(BlocksOn(view)));
    UpdateLeavesRest(s, job.txHash, status, Some(BlocksOn(view)));
    SettlementEnds(updated, id, fault);
    UpdateLeavesJobs(env, updated, id, BlocksOn(view), fault);
    SameBook(s, updated, id);
  }

  lemma SameBook(s: State, t: State, id: nat)
    requires id < |s.payments| && t == s.(chainTxs := t.chainTxs)
    ensures CanBook(t, t.payments[id]) <==> CanBook(s, s.payments[id])
  {
  }

  lemma GiveUpEnds(s: State, id: nat, reason: FailureReason, fault: Fault)
    requires id < |s.payments| && id in s.jobs
    ensures JobOf(GiveUp(s, id, s.jobs[id], reason, fault).state, id)
         == if !fault.StatusFails? && !fault.EventFails? then None
            else if s.jobs[id].attempts + 1 < 10 then Some(s.jobs[id].(attempts := s.jobs[id].attempts + 1))
            else None
  {
    hide UpdateTx;
    UpdateLeavesRest(s, s.jobs[id].txHash, TX_FAILED, None);
  }

  lemma PolledJob(env: Env, s: State, id: nat, view: View, fault: Fault)
    requires PaymentsOk(env, s.payments) && JobsOk(env, s) && id < |s.payments| && id in s.jobs
    ensures JobOf(OnPoll(env, s, id, view, fault).state, id) == JobAfter(env, s, PollStep(id, view, fault), id)
  {
    hide PollReceipt, GiveUp, CanBook;
    assert RowOk(env, s.payments[id]);
    if s.payments[id].status == CONFIRMING {
      GiveUpEnds(s, id, if view.receipt.Some? then Reverted else Dropped, fault);
      if view.receipt.Some? && !view.receipt.value.reverted && !fault.RpcThrows? {
        ReceiptEnds(env, s, id, view, fault);
      }
    }
  }

  lemma QueuedJob(env: Env, s: State, l: Label, id: nat)
    requires Enabled(env, s, l) && l.Detect? && l.found == Some(id)
    ensures JobOf(Step(env, s, l), id) == JobAfter(env, s, l, id)
  {
    assert HashIsFree(s, env.transfers[l.transfer].txHash)
      <==> !TxHashTaken(s.payments, env.transfers[l.transfer].txHash);
  }

  lemma OtherJob(env: Env, s: State, l: Label, id: nat)
    requires Enabled(env, s, l) && id < |s.payments|
    requires !(l.PollStep? && l.id == id) && !(l.Detect? && l.found == Some(id))
    ensures JobOf(Step(env, s, l), id) == JobOf(s, id)
  {
    hide OnPoll, ExpireAll, EventsOf;
    match l
    case PollStep(k, view, fault) => PollWaits(env, s, k, view, fault);
    case Sweep(_, batch, crash) => ExpireAllEffect(s, batch, crash);
    case _ =>
  }

  // From any reachable state, a call leaves a payment with this confirmation job, or none.
  lemma JobExactly(env: Env, labels: seq<Label>, l: Label, id: nat)
    requires Enabled(env, Run(env, labels).s, l) && id < |Run(env, labels).s.payments|
    ensures JobOf(Step(env, Run(env, labels).s, l), id) == JobAfter(env, Run(env, labels).s, l, id)
  {
    var s := Run(env, labels).s;
    RunKeepsJobs(env, labels);
    hide Run, PaymentsOk, JobsOk, OnPoll, OnTransfer, ExpireAll, HandleRefund, CreateIntent, PollThrows, HashIsFree;
    if l.PollStep? && l.id == id {
      PolledJob(env, s, id, l.view, l.fault);
    } else if l.Detect? && l.found == Some(id) {
      QueuedJob(env, s, l, id);
    } else {
      OtherJob(env, s, l, id);
    }
  }

  // ---------------------------------------------------------------- the row of a transaction

  function TxOf(s: State, txHash: string): Option<ChainTx> {
    if txHash in s.chainTxs then Some(s.chainTxs[txHash]) else None
  }

  predicate Records(env: Env, s: State, l: Label, txHash: string) {
    && l.Detect? && l.transfer < |env.transfers| && l.found.Some? && l.found.value < |s.payments|
    && env.transfers[l.transfer].txHash == txHash
  }

  predicate LooksUp(s: State, l: Label, txHash: string) {
    && l.PollStep? && l.id < |s.payments| && l.id in s.jobs && s.jobs[l.id].txHash == txHash
    && s.payments[l.id].status == CONFIRMING && !l.fault.RpcThrows?
  }

  // The first transfer matched creates the row, which later ones leave alone; a poll shows the transaction confirmed
  // from the target on, submitted below it, and failed when the payment is given up.
  function TxAfter(env: Env, s: State, l: Label, txHash: string): Option<ChainTx> {
    var row := TxOf(s, txHash);
    if Records(env, s, l, txHash) && row.None? then
      var i := l.found.value;
      Some(ChainTx(s.payments[i].tenantId, i, env.transfers[l.transfer].amountRaw, SUBMITTED, 0))
    else if LooksUp(s, l, txHash) && row.Some? then
      if l.view.receipt.None? then
        if LongGone(s.payments[l.id], l.view.currentBlock) then Some(row.value.(status := TX_FAILED)) else row
      else if l.view.receipt.value.reverted then Some(row.value.(status := TX_FAILED))
      else if BlocksOn(l.view) >= s.jobs[l.id].target then
        Some(row.value.(status := CONFIRMED, confirmations := BlocksOn(l.view)))
      else Some(row.value.(status := SUBMITTED, confirmations := BlocksOn(l.view)))
    else row
  }

  lemma UpdateLeavesTxs(env: Env, s: State, id: nat, confirmations: int, fault: Fault)
    requires id < |s.payments|
    ensures HandleConfirmationUpdate(env, s, id, confirmations, fault).0.chainTxs == s.chainTxs
  {
  }

  lemma ReceiptTx(env: Env, s: State, id: nat, job: ConfirmJob, confirmations: int, fault: Fault, txHash: string)
    requires id < |s.payments|
    ensures var status := if confirmations >= job.target then CONFIRMED else SUBMITTED;
      TxOf(PollReceipt(env, s, id, job, confirmations, fault).state, txHash)
      == if txHash == job.txHash && txHash in s.chainTxs
         then Some(s.chainTxs[txHash].(status := status, confirmations := confirmations)) else TxOf(s, txHash)
  {
    hide HandleConfirmationUpdate;
    var status := if confirmations >= job.target then CONFIRMED else SUBMITTED;
    UpdateLeavesTxs(env, UpdateTx(s, job.txHash, status, Some(confirmations)), id, confirmations, fault);
  }

  lemma GiveUpTx(s: State, id: nat, job: ConfirmJob, reason: FailureReason, fault: Fault, txHash: string)
    requires id < |s.payments|
    ensures TxOf(GiveUp(s, id, job, reason, fault).state, txHash)
         == if txHash == job.txHash && txHash in s.chainTxs then Some(s.chainTxs[txHash].(status := TX_FAILED))
            else TxOf(s, txHash)
  {
  }

  lemma PolledTx(env: Env, s: State, id: nat, view: View, fault: Fault, txHash: string)
    requires id < |s.payments| && id in s.jobs
    ensures TxOf(OnPoll(env, s, id, view, fault).state, txHash) == TxAfter(env, s, PollStep(id, view, fault), txHash)
  {
    hide PollReceipt, GiveUp;
    GiveUpTx(s, id, s.jobs[id], if view.receipt.Some? then Reverted else Dropped, fault, txHash);
    if view.receipt.Some? {
      ReceiptTx(env, s, id, s.jobs[id], BlocksOn(view), fault, txHash);
    }
  }

  lemma SweepLeavesTxs(s: State, ids: seq<nat>, crash: Crash)
    requires forall k :: 0 <= k < |ids| ==> ids[k] < |s.payments|
    ensures ExpireAll(s, ids, crash).chainTxs == s.chainTxs
  {
    if ids != [] {
      SweepLeavesTxs(s, ids[..|ids| - 1], crash);
    }
  }

  lemma DetectedTx(env: Env, s: State, id: nat, t: Transfer)
    requires id < |s.payments|
    ensures HandleTxDetected(env, s, id, t).0.chainTxs == s.chainTxs
  {
  }

  lemma TransferTx(env: Env, s: State, l: Label, txHash: string)
    requires Enabled(env, s, l) && l.Detect?
    ensures TxOf(Step(env, s, l), txHash) == TxAfter(env, s, l, txHash)
  {
    if l.found.Some? {
      var t := env.transfers[l.transfer];
      DetectedTx(env, RecordTx(s, s.payments[l.found.value], l.found.value, t), l.found.value, t);
      hide HandleTxDetected;
    }
  }

  lemma OtherTx(env: Env, s: State, l: Label, txHash: string)
    requires Enabled(env, s, l) && !l.PollStep?
    ensures TxOf(Step(env, s, l), txHash) == TxAfter(env, s, l, txHash)
  {
    hide ExpireAll, OnTransfer, OnPoll;
    match l
    case Detect(_, _, _) => TransferTx(env, s, l, txHash);
    case Sweep(_, batch, crash) => SweepLeavesTxs(s, batch, crash);
    case _ =>
  }

  // Any enabled call leaves a transaction with this row, or none.
  lemma TxExactly(env: Env, s: State, l: Label, txHash: string)
    requires Enabled(env, s, l)
    ensures TxOf(Step(env, s, l), txHash) == TxAfter(env, s, l, txHash)
  {
    hide OnPoll, OnTransfer, ExpireAll, HandleRefund, CreateIntent;
    if l.PollStep? {
      PolledTx(env, s, l.id, l.view, l.fault, txHash);
    } else {
      OtherTx(env, s, l, txHash);
    }
  }
}
