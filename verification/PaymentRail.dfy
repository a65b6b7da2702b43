/**
 The stablecoin payment rail as a labelled transition system: payments, audit events,
 chain transactions, confirmation jobs and the ledger, and one function per service or
 worker call. A payment's id is its position in the table; rows are never deleted.
 */
module PaymentRail {
  import opened Wrappers
  import opened PaymentStateMachine
  import opened Ledger

  datatype FailureReason = Underpayment | Dropped | Reverted

  datatype Payment = Payment(
    tenantId: string, idempotencyKey: string, amount: int, chain: Chain, walletId: string, toAddress: string,
    expiresAt: int, required: int, status: Status, txHash: Option<string>, blockNumber: Option<nat>,
    confirmations: int, failure: Option<FailureReason>)

  datatype EventName = TxDetected | PaymentSettled | PaymentExpired | TxFailed | PaymentRefunded

  datatype Event = Event(paymentId: nat, tenantId: string, from: Status, to: Status, name: EventName)

  datatype ChainTxStatus = SUBMITTED | CONFIRMED | TX_FAILED

  datatype ChainTx = ChainTx(tenantId: string, paymentId: nat, amountRaw: nat, status: ChainTxStatus,
    confirmations: int)

  // The job "confirm:<paymentId>"; attempts counts the failed tries of this job.
  datatype ConfirmJob = ConfirmJob(txHash: string, target: int, attempts: nat)

  datatype State = State(
    payments: seq<Payment>, events: seq<Event>, chainTxs: map<string, ChainTx>,
    jobs: map<nat, ConfirmJob>, failedJobs: set<nat>, books: Books)

  const EMPTY := State([], [], map[], map[], {}, Books(map[], []))

  datatype Wallet = Wallet(tenantId: string, chain: Chain, address: string)

  datatype Transfer = Transfer(chain: Chain, txHash: string, blockNumber: nat, toAddress: string, amountRaw: nat)

  // handleTxDetected and handleConfirmationUpdate ask for the tenant ''; ById is the lookup they intend.
  datatype Lookup = AsWritten | ById

  // What the queue does with a job whose id it holds already, be it waiting or active: the confirmation worker relies
  // on its being replaced, the queue's options say that the new one is dropped.
  datatype Queue = Replaces | Drops

  // What a run cannot change: the lookup, the queue, the wallets, and the transfers the chains ever emit, one per log
  // entry.
  datatype Env = Env(lookup: Lookup, queue: Queue, wallets: map<string, Wallet>, transfers: seq<Transfer>)

  datatype Error = IdempotencyConflict | NotFound | BadTransition | DuplicateTxHash

  const DEFAULT_REQUIRED_CONFIRMATIONS := 3
  const PAYMENT_EXPIRY_MS := 24 * 60 * 60 * 1000
  const SWEEP_BATCH := 200
  const MAX_WAIT_BLOCKS := 300
  const ATTEMPTS := 10

  // ---------------------------------------------------------------- lookups

  predicate Visible(env: Env, p: Payment) {
    env.lookup.ById? || p.tenantId == ""
  }

  function FindByKey(payments: seq<Payment>, key: string): (r: Option<nat>)
    ensures r.Some? ==> r.value < |payments| && payments[r.value].idempotencyKey == key
    ensures r.None? ==> forall i :: 0 <= i < |payments| ==> payments[i].idempotencyKey != key
  {
    if payments == [] then None
    else
      var n := |payments| - 1;
      var before := FindByKey(payments[..n], key);
      if before.Some? then before
      else if payments[n].idempotencyKey == key then Some(n)
      else None
  }

  // Address comparison ignores case.
  function Lower(s: string): string {
    seq(|s|, i requires 0 <= i < |s| => if 'A' <= s[i] <= 'Z' then s[i] + ('a' - 'A') else s[i])
  }

  predicate AwaitsDeposit(p: Payment, chain: Chain, toAddress: string) {
    p.status == PENDING && p.chain == chain && Lower(p.toAddress) == Lower(toAddress)
  }

  // The unique index on Payment.txHash would be violated.
  predicate TxHashTaken(payments: seq<Payment>, txHash: string) {
    exists i :: 0 <= i < |payments| && payments[i].txHash == Some(txHash)
  }

  predicate Stale(p: Payment, now: int) {
    p.status == PENDING && p.expiresAt < now
  }

  // ---------------------------------------------------------------- intent creation

  function CreateIntent(env: Env, s: State, tenantId: string, key: string, amount: int, chain: Chain, walletId: string,
                        required: Option<int>, now: int): (State, Result<nat, Error>)
  {
    var existing := FindByKey(s.payments, key);
    if existing.Some? then
      (s, if s.payments[existing.value].tenantId != tenantId then Err(IdempotencyConflict) else Ok(existing.value))
    else if walletId !in env.wallets || env.wallets[walletId].tenantId != tenantId then (s, Err(NotFound))
    else
      var p := Payment(tenantId, key, amount, chain, walletId, env.wallets[walletId].address, now + PAYMENT_EXPIRY_MS,
                       if required.Some? then required.value else DEFAULT_REQUIRED_CONFIRMATIONS,
                       PENDING, None, None, 0, None);
      (s.(payments := s.payments + [p]), Ok(|s.payments|))
  }

  // ---------------------------------------------------------------- transfers

  function Detected(p: Payment, t: Transfer): Payment {
    p.(status := CONFIRMING, txHash := Some(t.txHash), blockNumber := Some(t.blockNumber), confirmations := 0)
  }

  function HandleTxDetected(env: Env, s: State, id: nat, t: Transfer): (r: (State, Result<(), Error>))
    requires id < |s.payments|
    ensures |r.0.payments| == |s.payments|
  {
    var p := s.payments[id];
    if !Visible(env, p) then (s, Ok(()))
    else if !CanAcceptDeposit(p.status) then (s, Ok(()))
    else if TxHashTaken(s.payments, t.txHash) then (s, Err(DuplicateTxHash))
    else
      (s.(payments := s.payments[id := Detected(p, t)],
          events := s.events + [Event(id, p.tenantId, p.status, CONFIRMING, TxDetected)]), Ok(()))
  }

  function RecordTx(s: State, p: Payment, id: nat, t: Transfer): State {
    if t.txHash in s.chainTxs then s
    else s.(chainTxs := s.chainTxs[t.txHash := ChainTx(p.tenantId, id, t.amountRaw, SUBMITTED, 0)])
  }

  predicate Underpaid(p: Payment, t: Transfer) {
    t.amountRaw - p.amount < -1
  }

  // How far a transfer event gets: a crash behind the row of the transaction, or a queue that is lost once the status
  // is committed.
  datatype Stop = RunsThrough | AfterRecord | BeforeQueue

  // BlockchainEventsWorker.process
  function OnTransfer(env: Env, s: State, t: Transfer, found: Option<nat>, stop: Stop): (after: State)
    requires found.Some? ==> found.value < |s.payments|
    ensures |after.payments| == |s.payments|
  {
    if found.None? then s
    else
      var id := found.value;
      var p := s.payments[id];
      var recorded := RecordTx(s, p, id, t);
      if stop.AfterRecord? then recorded
      else if Underpaid(p, t) then
        recorded.(payments := s.payments[id := p.(status := FAILED, failure := Some(Underpayment))])
      else
        var (detected, r) := HandleTxDetected(env, recorded, id, t);
        if r.Err? || stop.BeforeQueue? || (env.queue.Drops? && id in detected.jobs) then detected
        else detected.(jobs := detected.jobs[id := ConfirmJob(t.txHash, p.required, 0)])
  }

  // ---------------------------------------------------------------- confirmation polling

  datatype Receipt = Receipt(reverted: bool, blockNumber: nat)

  datatype View = View(receipt: Option<Receipt>, currentBlock: nat)

  // Where a poll can be interrupted: reading the chain, when it writes the payment, when it appends the event of a
  // failure, inside the ledger's own transaction, or between the ledger's commit and the commit of the surrounding one.
  datatype Fault = NoFault | RpcThrows | StatusFails | EventFails | LedgerThrows | OuterCommitFails

  // FailedSilently: the payment is FAILED, its event is not written, and the poll throws.
  datatype PollEnd =
    | NotConfirming | TxWasLost | TxReverted | Rechecked | Settled | Ignored
    | Threw(orphaned: bool) | FailedSilently(reason: FailureReason)

  datatype Poll = Poll(state: State, end: PollEnd)

  function WithoutJob(s: State, id: nat): State {
    s.(jobs := s.jobs - {id})
  }

  // BullMQ keeps a job that threw until its attempts are spent.
  function Retry(s: State, id: nat, job: ConfirmJob): State {
    if job.attempts + 1 < ATTEMPTS then s.(jobs := s.jobs[id := job.(attempts := job.attempts + 1)])
    else WithoutJob(s, id).(failedJobs := s.failedJobs + {id})
  }

  // The next poll is added while this one is active under the same id; dropped, it leaves no job when this one ends.
  function Recheck(env: Env, s: State, id: nat, job: ConfirmJob): State {
    if env.queue.Drops? then WithoutJob(s, id) else s.(jobs := s.jobs[id := job.(attempts := 0)])
  }

  function UpdateTx(s: State, txHash: string, status: ChainTxStatus, confirmations: Option<int>): State {
    if txHash !in s.chainTxs then s
    else
      var row := s.chainTxs[txHash];
      s.(chainTxs := s.chainTxs[txHash := row.(
           status := status, confirmations := if confirmations.Some? then confirmations.value else row.confirmations)])
  }

  // Three writes, one after the other, of which the second or the third may fail.
  function FailPayment(s: State, id: nat, txHash: string, reason: FailureReason, fault: Fault): (after: State)
    requires id < |s.payments|
    ensures |after.payments| == |s.payments|
  {
    var p := s.payments[id];
    var marked := UpdateTx(s, txHash, TX_FAILED, None);
    if fault.StatusFails? then marked
    else
      var failed := marked.(payments := s.payments[id := p.(status := FAILED, failure := Some(reason))]);
      if fault.EventFails? then failed
      else failed.(events := s.events + [Event(id, p.tenantId, CONFIRMING, FAILED, TxFailed)])
  }

  // The poll gives the payment up; the queue tries it again when one of the writes fails.
  function GiveUp(s: State, id: nat, job: ConfirmJob, reason: FailureReason, fault: Fault): (r: Poll)
    requires id < |s.payments|
    ensures |r.state.payments| == |s.payments|
  {
    var after := FailPayment(s, id, job.txHash, reason, fault);
    if fault.StatusFails? then Poll(Retry(after, id, job), Threw(false))
    else if fault.EventFails? then Poll(Retry(after, id, job), FailedSilently(reason))
    else Poll(WithoutJob(after, id), if reason.Dropped? then TxWasLost else TxReverted)
  }

  // Status and event, then the ledger in a transaction of its own.
  function SettlePayment(s: State, id: nat, fault: Fault): (r: (State, PollEnd))
    requires id < |s.payments|
    ensures |r.0.payments| == |s.payments|
  {
    var p := s.payments[id];
    var (ready, found) := ReadyAccounts(s.books.accounts, p.tenantId, p.walletId, p.chain);
    if fault.StatusFails? then (s, Threw(false))
    else if !found || fault.LedgerThrows? then
      (s.(books := s.books.(accounts := ready)), Threw(false))
    else
      var written := s.(books := WriteSettlement(Books(ready, s.books.journal), p.tenantId, p.chain, id, p.amount));
      if fault.OuterCommitFails? then (written, Threw(true))
      else
        (written.(payments := s.payments[id := p.(status := COMPLETED)],
                  events := s.events + [Event(id, p.tenantId, CONFIRMING, COMPLETED, PaymentSettled)]), Settled)
  }

  function HandleConfirmationUpdate(env: Env, s: State, id: nat, confirmations: int,
    fault: Fault): (r: (State, PollEnd))
    requires id < |s.payments|
    ensures |r.0.payments| == |s.payments|
  {
    var p := s.payments[id];
    if !Visible(env, p) || p.status != CONFIRMING then (s, Ignored)
    else if confirmations < p.required then
      if fault.StatusFails? then (s, Threw(false))
      else (s.(payments := s.payments[id := p.(confirmations := confirmations)]), Ignored)
    else SettlePayment(s, id, fault)
  }

  // payment.blockNumber must be truthy to count, so block 0 counts as unknown.
  function BlocksSinceSeen(p: Payment, currentBlock: nat): int {
    if p.blockNumber.Some? && p.blockNumber.value != 0 then currentBlock - p.blockNumber.value else 0
  }

  // The branch of a poll that finds a receipt of a transaction that did not revert.
  function PollReceipt(env: Env, s: State, id: nat, job: ConfirmJob, confirmations: int, fault: Fault): (r: Poll)
    requires id < |s.payments|
    ensures |r.state.payments| == |s.payments|
  {
    var reached := confirmations >= job.target;
    var updated := UpdateTx(s, job.txHash, if reached then CONFIRMED else SUBMITTED, Some(confirmations));
    var (after, end) := HandleConfirmationUpdate(env, updated, id, confirmations, fault);
    if end.Threw? then Poll(Retry(after, id, job), end)
    else if reached then Poll(WithoutJob(after, id), end)
    else Poll(Recheck(env, after, id, job), if end.Ignored? then Rechecked else end)
  }

  // TransactionConfirmationWorker.process
  function OnPoll(env: Env, s: State, id: nat, view: View, fault: Fault): (r: Poll)
    requires id < |s.payments| && id in s.jobs
    ensures |r.state.payments| == |s.payments|
  {
    var job := s.jobs[id];
    var p := s.payments[id];
    if p.status != CONFIRMING then Poll(WithoutJob(s, id), NotConfirming)
    else if fault.RpcThrows? then Poll(Retry(s, id, job), Threw(false))
    else if view.receipt.None? then
      if BlocksSinceSeen(p, view.currentBlock) > MAX_WAIT_BLOCKS then
        GiveUp(s, id, job, Dropped, fault)
      else Poll(Recheck(env, s, id, job), Rechecked)
    else if view.receipt.value.reverted then
      GiveUp(s, id, job, Reverted, fault)
    else PollReceipt(env, s, id, job, view.currentBlock - view.receipt.value.blockNumber + 1, fault)
  }

  // ---------------------------------------------------------------- expiry and refunds

  // The payments of a sweep whose status could not be written, and those whose event could not.
  datatype Crash = Crash(unwritten: set<nat>, silent: set<nat>)

  const NO_CRASH := Crash({}, {})

  function Expire(s: State, id: nat, crash: Crash): State
    requires id < |s.payments|
  {
    var p := s.payments[id];
    if id in crash.unwritten then s
    else
      var expired := s.(payments := s.payments[id := p.(status := EXPIRED)]);
      if id in crash.silent then expired
      else expired.(events := s.events + [Event(id, p.tenantId, PENDING, EXPIRED, PaymentExpired)])
  }

  function ExpireAll(s: State, ids: seq<nat>, crash: Crash): (r: State)
    requires forall k :: 0 <= k < |ids| ==> ids[k] < |s.payments|
    ensures |r.payments| == |s.payments|
  {
    if ids == [] then s else Expire(ExpireAll(s, ids[..|ids| - 1], crash), ids[|ids| - 1], crash)
  }

  // At most 200 stale rows, in no particular order, and all of them when there are fewer.
  predicate SweepBatch(payments: seq<Payment>, now: int, ids: seq<nat>) {
    && |ids| <= SWEEP_BATCH
    && (forall k :: 0 <= k < |ids| ==> ids[k] < |payments| && Stale(payments[ids[k]], now))
    && (forall i, j :: 0 <= i < j < |ids| ==> ids[i] != ids[j])
    && (|ids| < SWEEP_BATCH ==> forall id: nat :: id < |payments| && Stale(payments[id], now) ==> id in ids)
  }

  function HandleRefund(s: State, id: nat, tenantId: string): (State, Result<Payment, Error>) {
    if id >= |s.payments| || s.payments[id].tenantId != tenantId then (s, Err(NotFound))
    else
      var p := s.payments[id];
      if !AssertTransition(p.status, REFUNDED).Accepted? then (s, Err(BadTransition))
      else
        var updated := p.(status := REFUNDED);
        (s.(payments := s.payments[id := updated],
            events := s.events + [Event(id, p.tenantId, COMPLETED, REFUNDED, PaymentRefunded)]), Ok(updated))
  }

  // ---------------------------------------------------------------- runs

  datatype Label =
    | Provision(walletId: string)
    | Create(tenantId: string, key: string, amount: int, chain: Chain, walletId: string, required: Option<int>,
      now: int)
    | Detect(transfer: nat, found: Option<nat>, stop: Stop)
    | PollStep(id: nat, view: View, fault: Fault)
    | Sweep(at: int, batch: seq<nat>, crash: Crash)
    | Refund(paymentId: nat, caller: string)

  // The choices a label records are choices the call could have made.
  predicate Enabled(env: Env, s: State, l: Label) {
    match l
    case Provision(w) => w in env.wallets
    case Create(_, _, _, _, _, _, _) => true
    case Detect(t, found, _) =>
      && t < |env.transfers|
      && (found.Some? ==>
            found.value < |s.payments|
              && AwaitsDeposit(s.payments[found.value], env.transfers[t].chain, env.transfers[t].toAddress))
      && (found.None? ==>
            forall i :: 0 <= i < |s.payments|
              ==> !AwaitsDeposit(s.payments[i], env.transfers[t].chain, env.transfers[t].toAddress))
    case PollStep(id, _, _) => id < |s.payments| && id in s.jobs
    case Sweep(now, batch, _) => SweepBatch(s.payments, now, batch)
    case Refund(_, _) => true
  }

  function Step(env: Env, s: State, l: Label): (after: State)
    requires Enabled(env, s, l)
    ensures |after.payments| == |s.payments| || (l.Create? && |after.payments| == |s.payments| + 1)
  {
    match l
    case Provision(w) =>
      s.(books := s.books.(accounts := EnsureWalletAccounts(s.books.accounts, env.wallets[w].tenantId, w,
        env.wallets[w].chain).0))
    case Create(tenantId, key, amount, chain, walletId, required, now) =>
      CreateIntent(env, s, tenantId, key, amount, chain, walletId, required, now).0
    case Detect(t, found, stop) => OnTransfer(env, s, env.transfers[t], found, stop)
    case PollStep(id, view, fault) => OnPoll(env, s, id, view, fault).state
    case Sweep(_, batch, crash) => ExpireAll(s, batch, crash)
    case Refund(id, tenantId) => HandleRefund(s, id, tenantId).0
  }

  // A state together with what a run did to each payment that the tables do not show: how often its ledger entries
  // were committed without the payment.
  datatype History = History(s: State, orphans: seq<nat>)

  // The poll commits ledger entries and then loses the surrounding commit.
  predicate Orphans(env: Env, s: State, l: Label) {
    l.PollStep? && Enabled(env, s, l) && OnPoll(env, s, l.id, l.view, l.fault).end == Threw(true)
  }

  function Next(env: Env, h: History, l: Label): (after: History)
    requires |h.orphans| == |h.s.payments|
    ensures |after.orphans| == |after.s.payments|
  {
    if !Enabled(env, h.s, l) then h
    else
      var after := Step(env, h.s, l);
      History(after,
              if Orphans(env, h.s, l) then h.orphans[l.id := h.orphans[l.id] + 1]
              else if |after.payments| > |h.s.payments| then h.orphans + [0]
              else h.orphans)
  }

  // The run of a list of calls from the empty tables; a label that is not enabled is skipped.
  function Run(env: Env, labels: seq<Label>): (h: History)
    ensures |h.orphans| == |h.s.payments|
  {
    if labels == [] then History(EMPTY, [])
    else Next(env, Run(env, labels[..|labels| - 1]), labels[|labels| - 1])
  }
}
