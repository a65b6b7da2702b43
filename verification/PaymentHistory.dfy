/**
 What the row of a payment says about the run that led to it. The calls that move a payment are
 written out in plain numbers, each as it can be seen before the call; every column of a payment,
 after any run, is then a statement about the calls of that run and nothing else.
 */
module PaymentHistory {
  import opened Wrappers
  import opened PaymentStateMachine
  import opened Ledger
  import opened PaymentRail
  import opened PaymentInvariants
  import opened PaymentAudit
  import opened PaymentPolling

  // ---------------------------------------------------------------- the calls that move a payment

  predicate Found(env: Env, p: Payment) {
    env.lookup == ById || p.tenantId == ""
  }

  predicate HashIsFree(s: State, txHash: string) {
    forall i :: 0 <= i < |s.payments| ==> s.payments[i].txHash != Some(txHash)
  }

  // A transfer matched to the payment, whose handling gets past the row of the transaction.
  predicate Reaches(env: Env, l: Label, id: nat) {
    l.Detect? && l.transfer < |env.transfers| && l.found == Some(id) && !l.stop.AfterRecord?
  }

  predicate FallsShort(env: Env, s: State, l: Label, id: nat)
    requires id < |s.payments|
  {
    Reaches(env, l, id) && env.transfers[l.transfer].amountRaw + 1 < s.payments[id].amount
  }

  predicate Accepts(env: Env, s: State, l: Label, id: nat)
    requires id < |s.payments|
  {
    && Reaches(env, l, id) && env.transfers[l.transfer].amountRaw + 1 >= s.payments[id].amount
    && Found(env, s.payments[id]) && HashIsFree(s, env.transfers[l.transfer].txHash)
  }

  // A poll of the payment while it is CONFIRMING that gets as far as writing a status.
  predicate Looks(s: State, l: Label, id: nat)
    requires id < |s.payments|
  {
    && l.PollStep? && l.id == id && id in s.jobs && s.payments[id].status == CONFIRMING
    && !l.fault.RpcThrows? && !l.fault.StatusFails?
  }

  predicate Misses(s: State, l: Label, id: nat)
    requires id < |s.payments|
  {
    Looks(s, l, id) && l.view.receipt.None? && LongGone(s.payments[id], l.view.currentBlock)
  }

  predicate SeesRevert(s: State, l: Label, id: nat)
    requires id < |s.payments|
  {
    Looks(s, l, id) && l.view.receipt.Some? && l.view.receipt.value.reverted
  }

  predicate SeesBlocks(s: State, l: Label, id: nat)
    requires id < |s.payments|
  {
    Looks(s, l, id) && l.view.receipt.Some? && !l.view.receipt.value.reverted
  }

  // How many blocks confirm the transaction, its own included.
  function BlocksOn(view: View): int
    requires view.receipt.Some?
  {
    view.currentBlock - view.receipt.value.blockNumber + 1
  }

  predicate CountsBlocks(s: State, l: Label, id: nat)
    requires id < |s.payments|
  {
    SeesBlocks(s, l, id) && BlocksOn(l.view) < s.payments[id].required
  }

  // The account of the payment's tenant and chain exists, or its wallet has no account yet.
  predicate CanBook(s: State, p: Payment) {
    Code(p.tenantId, ASSET, p.chain) in s.books.accounts
    || forall k :: k in s.books.accounts ==> s.books.accounts[k].walletId != Some(p.walletId)
  }

  predicate Completes(s: State, l: Label, id: nat)
    requires id < |s.payments|
  {
    && SeesBlocks(s, l, id) && BlocksOn(l.view) >= s.payments[id].required
    && !l.fault.LedgerThrows? && !l.fault.OuterCommitFails? && CanBook(s, s.payments[id])
  }

  predicate Expires(l: Label, id: nat) {
    l.Sweep? && id in l.batch && id !in l.crash.unwritten
  }

  predicate Refunds(s: State, l: Label, id: nat)
    requires id < |s.payments|
  {
    l.Refund? && l.paymentId == id && l.caller == s.payments[id].tenantId && IsSettled(s.payments[id])
  }

  // The row after a call: one of these, or as it was.
  function RowAfter(env: Env, s: State, l: Label, id: nat): Payment
    requires id < |s.payments|
  {
    var p := s.payments[id];
    if FallsShort(env, s, l, id) then p.(status := FAILED, failure := Some(Underpayment))
    else if Accepts(env, s, l, id) then
      var t := env.transfers[l.transfer];
      p.(status := CONFIRMING, txHash := Some(t.txHash), blockNumber := Some(t.blockNumber), confirmations := 0)
    else if Misses(s, l, id) then p.(status := FAILED, failure := Some(Dropped))
    else if SeesRevert(s, l, id) then p.(status := FAILED, failure := Some(Reverted))
    else if CountsBlocks(s, l, id) then p.(confirmations := BlocksOn(l.view))
    else if Completes(s, l, id) then p.(status := COMPLETED)
    else if Expires(l, id) then p.(status := EXPIRED)
    else if Refunds(s, l, id) then p.(status := REFUNDED)
    else p
  }

  // ---------------------------------------------------------------- every call does that to the row

  lemma TransferRow(env: Env, s: State, l: Label, id: nat)
    requires Enabled(env, s, l) && l.Detect? && l.found == Some(id)
    ensures OnTransfer(env, s, env.transfers[l.transfer], Some(id), l.stop).payments[id] == RowAfter(env, s, l, id)
  {
    hide OnTransfer;
    TransferEffect(env, s, env.transfers[l.transfer], id, l.stop);
  }

  lemma SettlementRow(s: State, id: nat, fault: Fault)
    requires id < |s.payments|
    ensures var p := s.payments[id];
      SettlePayment(s, id, fault).0.payments
      == if !fault.StatusFails? && !fault.LedgerThrows? && !fault.OuterCommitFails?
            && (Code(p.tenantId, ASSET, p.chain) in s.books.accounts || !WalletTaken(s.books.accounts, p.walletId))
         then s.payments[id := p.(status := COMPLETED)] else s.payments
  {
  }

  lemma ReceiptRow(env: Env, s: State, id: nat, confirmations: int, fault: Fault)
    requires id < |s.payments| && id in s.jobs && s.payments[id].status == CONFIRMING && Visible(env, s.payments[id])
    ensures var p := s.payments[id];
      PollReceipt(env, s, id, s.jobs[id], confirmations, fault).state.payments[id]
      == if fault.StatusFails? then p
         else if confirmations < p.required then p.(confirmations := confirmations)
         else if !fault.LedgerThrows? && !fault.OuterCommitFails?
                 && (Code(p.tenantId, ASSET, p.chain) in s.books.accounts || !WalletTaken(s.books.accounts, p.walletId))
         then p.(status := COMPLETED)
         else p
  {
    hide SettlePayment, WalletTaken, UpdateTx;
    var job := s.jobs[id];
    var status := if confirmations >= job.target then CONFIRMED else SUBMITTED;
    UpdateLeavesRest(s, job.txHash, status, Some(confirmations));
    SettlementRow(UpdateTx(s, job.txHash, status, Some(confirmations)), id, fault);
  }

  lemma UpdateLeavesRest(s: State, txHash: string, status: ChainTxStatus, confirmations: Option<int>)
    ensures var after := UpdateTx(s, txHash, status, confirmations); after == s.(chainTxs := after.chainTxs)
  {
  }

  lemma GiveUpRow(s: State, id: nat, reason: FailureReason, fault: Fault)
    requires id < |s.payments| && id in s.jobs
    ensures GiveUp(s, id, s.jobs[id], reason, fault).state.payments[id]
         == if fault.StatusFails? then s.payments[id]
            else s.payments[id].(status := FAILED, failure := Some(reason))
  {
  }

  lemma PollRow(env: Env, s: State, id: nat, view: View, fault: Fault)
    requires PaymentsOk(env, s.payments) && id < |s.payments| && id in s.jobs
    ensures OnPoll(env, s, id, view, fault).state.payments[id] == RowAfter(env, s, PollStep(id, view, fault), id)
  {
    hide PollReceipt, GiveUp;
    if s.payments[id].status == CONFIRMING {
      GiveUpRow(s, id, if view.receipt.Some? then Reverted else Dropped, fault);
      if view.receipt.Some? {
        ReceiptRow(env, s, id, BlocksOn(view), fault);
      }
    }
  }

  lemma RefundRow(env: Env, s: State, id: nat, caller: string, i: nat)
    requires i < |s.payments|
    ensures HandleRefund(s, id, caller).0.payments[i] == RowAfter(env, s, Refund(id, caller), i)
  {
    if id < |s.payments| {
      ListedPairs(s.payments[id].status, REFUNDED);
      hide Listed;
    }
  }

  lemma OtherRow(env: Env, s: State, l: Label, id: nat)
    requires Enabled(env, s, l) && id < |s.payments|
    requires l.Sweep? || l.Create? || l.Provision? || l.Detect? || l.PollStep?
    requires !(l.Detect? && l.found == Some(id)) && !(l.PollStep? && l.id == id)
    ensures id < |Step(env, s, l).payments| && Step(env, s, l).payments[id] == RowAfter(env, s, l, id)
  {
    hide OnTransfer, OnPoll, ExpireAll, EventsOf;
    StepTouches(env, s, l);
  }

  // Any enabled call turns the row of any payment into that.
  lemma RowExactly(env: Env, s: State, l: Label, id: nat)
    requires PaymentsOk(env, s.payments) && Enabled(env, s, l) && id < |s.payments|
    ensures id < |Step(env, s, l).payments| && Step(env, s, l).payments[id] == RowAfter(env, s, l, id)
  {
    hide OnTransfer, OnPoll, ExpireAll, HandleRefund, CreateIntent, RowAfter, PaymentsOk, EnsureWalletAccounts;
    match l
    case Refund(k, caller) => RefundRow(env, s, k, caller, id);
    case Detect(_, found, _) => if found == Some(id) { TransferRow(env, s, l, id); } else { OtherRow(env, s, l, id); }
    case PollStep(k, view, fault) =>
      if k == id { PollRow(env, s, id, view, fault); } else { OtherRow(env, s, l, id); }
    case _ => OtherRow(env, s, l, id);
  }

  // ---------------------------------------------------------------- which payment a transfer finds

  // The two are one letter, one of them a capital.
  predicate OneLetter(c: char, d: char) {
    c == d
    || ('A' <= c <= 'Z' && d as int == c as int + 32)
    || ('A' <= d <= 'Z' && c as int == d as int + 32)
  }

  lemma LowerLetter(c: char, d: char)
    ensures Lower([c]) == Lower([d]) <==> OneLetter(c, d)
  {
    assert Lower([c]) == Lower([d]) <==> Lower([c])[0] == Lower([d])[0];
  }

  lemma LowerTexts(a: string, b: string)
    ensures Lower(a) == Lower(b) <==> |a| == |b| && forall i :: 0 <= i < |a| ==> OneLetter(a[i], b[i])
  {
    forall i | 0 <= i < |a| && |a| == |b|
      ensures Lower(a)[i] == Lower(b)[i] <==> OneLetter(a[i], b[i])
    {
      LowerLetter(a[i], b[i]);
      assert Lower([a[i]])[0] == Lower(a)[i] && Lower([b[i]])[0] == Lower(b)[i];
    }
  }

  // A transfer can be matched to a payment exactly if that is pending on its chain, at an address that differs in
  // capitals at most; it goes unmatched exactly if there is none.
  lemma MatchedExactly(env: Env, s: State, t: nat, id: nat, stop: Stop)
    requires t < |env.transfers|
    ensures Enabled(env, s, Detect(t, Some(id), stop)) <==> id < |s.payments| && Fits(s.payments[id], env.transfers[t])
    ensures Enabled(env, s, Detect(t, None, stop))
       <==> forall i :: 0 <= i < |s.payments| ==> !Fits(s.payments[i], env.transfers[t])
  {
    hide Lower;
    forall i | 0 <= i < |s.payments|
      ensures Fits(s.payments[i], env.transfers[t])
         <==> AwaitsDeposit(s.payments[i], env.transfers[t].chain, env.transfers[t].toAddress)
    {
      LowerTexts(s.payments[i].toAddress, env.transfers[t].toAddress);
    }
  }

  predicate Fits(p: Payment, t: Transfer) {
    && p.status == PENDING && p.chain == t.chain && |p.toAddress| == |t.toAddress|
    && forall i :: 0 <= i < |p.toAddress| ==> OneLetter(p.toAddress[i], t.toAddress[i])
  }

  // ---------------------------------------------------------------- the accounts a settlement leaves

  // Once a poll has come as far as the ledger, the tenant has its liability and revenue accounts on the chain, and its
  // asset account exactly if that could be made, whether the settlement then goes through or not.
  lemma AccountsExactly(s: State, id: nat, fault: Fault)
    requires id < |s.payments| && !fault.StatusFails?
    ensures var p := s.payments[id];
      var after := SettlePayment(s, id, fault).0.books.accounts;
      && Code(p.tenantId, LIABILITY, p.chain) in after && Code(p.tenantId, REVENUE, p.chain) in after
      && (Code(p.tenantId, ASSET, p.chain) in after <==> CanBook(s, p))
      && (forall k :: k in s.books.accounts ==> k in after)
      && (forall k :: k in after && k !in s.books.accounts ==> k.tenantId == p.tenantId && k.chain == p.chain)
  {
  }

  // ---------------------------------------------------------------- over a run

  // What has happened to a payment.
  datatype Cause =
    | PaidShort | Deposited(txHash: string, blockNumber: nat) | WentMissing | WasReverted
    | Completed | TimedOut | PaidBack

  function CauseOf(env: Env, s: State, l: Label, id: nat): set<Cause>
    requires id < |s.payments|
  {
    if FallsShort(env, s, l, id) then {PaidShort}
    else if Accepts(env, s, l, id) then
      {Deposited(env.transfers[l.transfer].txHash, env.transfers[l.transfer].blockNumber)}
    else if Misses(s, l, id) then {WentMissing}
    else if SeesRevert(s, l, id) then {WasReverted}
    else if Completes(s, l, id) then {Completed}
    else if Expires(l, id) then {TimedOut}
    else if Refunds(s, l, id) then {PaidBack}
    else {}
  }

  function Past(env: Env, labels: seq<Label>, id: nat): set<Cause> {
    if labels == [] then {}
    else
      var n := |labels| - 1;
      var s := Run(env, labels[..n]).s;
      Past(env, labels[..n], id)
      + if id < |s.payments| && Enabled(env, s, labels[n]) then CauseOf(env, s, labels[n], id) else {}
  }

  predicate WasDeposited(past: set<Cause>) {
    exists cause <- past :: cause.Deposited?
  }

  // The columns a payment has with such a past.
  ghost predicate Tells(p: Payment, past: set<Cause>) {
    && (p.status == PENDING <==> !WasDeposited(past) && PaidShort !in past && TimedOut !in past)
    && (p.status == CONFIRMING <==>
          WasDeposited(past) && WentMissing !in past && WasReverted !in past && Completed !in past)
    && (p.status == COMPLETED <==> Completed in past && PaidBack !in past)
    && (p.status == REFUNDED <==> PaidBack in past)
    && (p.status == EXPIRED <==> TimedOut in past)
    && (p.failure == Some(Underpayment) <==> PaidShort in past)
    && (p.failure == Some(Dropped) <==> WentMissing in past)
    && (p.failure == Some(Reverted) <==> WasReverted in past)
    && (p.status == FAILED <==> p.failure.Some?)
    && (p.txHash.Some? <==> p.blockNumber.Some?)
    && forall h: string, b: nat :: p.txHash == Some(h) && p.blockNumber == Some(b) <==> Deposited(h, b) in past
  }

  // Each cause finds the payment where it must be.
  lemma CauseFinds(env: Env, s: State, l: Label, id: nat)
    requires Enabled(env, s, l) && id < |s.payments|
    ensures Reaches(env, l, id) || Expires(l, id) ==> s.payments[id].status == PENDING
    ensures Looks(s, l, id) ==> s.payments[id].status == CONFIRMING
    ensures Refunds(s, l, id) ==> IsSettled(s.payments[id])
  {
  }

  lemma TellsMore(p: Payment, q: Payment, past: set<Cause>, cause: Cause)
    requires Tells(p, past) && (p.txHash.Some? <==> WasDeposited(past))
    requires match cause
      case PaidShort => p.status == PENDING && q == p.(status := FAILED, failure := Some(Underpayment))
      case Deposited(h, b) =>
        p.status == PENDING && p.txHash.None?
        && q == p.(status := CONFIRMING, txHash := Some(h), blockNumber := Some(b), confirmations := 0)
      case WentMissing => p.status == CONFIRMING && q == p.(status := FAILED, failure := Some(Dropped))
      case WasReverted => p.status == CONFIRMING && q == p.(status := FAILED, failure := Some(Reverted))
      case Completed => p.status == CONFIRMING && q == p.(status := COMPLETED)
      case TimedOut => p.status == PENDING && q == p.(status := EXPIRED)
      case PaidBack => IsSettled(p) && q == p.(status := REFUNDED)
    ensures Tells(q, past + {cause})
  {
    assert WasDeposited(past + {cause}) <==> WasDeposited(past) || cause.Deposited?;
    hide WasDeposited;
  }

  lemma TellsNext(env: Env, s: State, l: Label, id: nat, past: set<Cause>)
    requires PaymentsOk(env, s.payments) && Enabled(env, s, l) && id < |s.payments| && Tells(s.payments[id], past)
    ensures Tells(RowAfter(env, s, l, id), past + CauseOf(env, s, l, id))
  {
    hide Enabled, HashIsFree, Tells;
    CauseFinds(env, s, l, id);
    var p := s.payments[id];
    HashAndBlock(env, s, id, past);
    hide PaymentsOk;
    var causes := CauseOf(env, s, l, id);
    if causes == {} {
      assert past + causes == past;
      TellsSame(p, RowAfter(env, s, l, id), past);
    } else {
      var cause :| cause in causes;
      assert causes == {cause};
      TellsMore(p, RowAfter(env, s, l, id), past, cause);
    }
  }

  lemma TellsSame(p: Payment, q: Payment, past: set<Cause>)
    requires Tells(p, past) && q == p.(confirmations := q.confirmations)
    ensures Tells(q, past)
  {
  }

  lemma HashAndBlock(env: Env, s: State, id: nat, past: set<Cause>)
    requires PaymentsOk(env, s.payments) && id < |s.payments| && Tells(s.payments[id], past)
    ensures var p := s.payments[id];
      && (p.txHash.Some? <==> WasDeposited(past))
      && (p.status == PENDING ==> p.txHash.None?)
  {
    var p := s.payments[id];
    assert RowOk(env, p);
    if WasDeposited(past) {
      var cause :| cause in past && cause.Deposited?;
      assert Deposited(cause.txHash, cause.blockNumber) in past;
    }
    if p.txHash.Some? && p.blockNumber.Some? {
      assert Deposited(p.txHash.value, p.blockNumber.value) in past;
    }
  }

  lemma NewTells(env: Env, s: State, l: Label)
    requires Enabled(env, s, l) && |Step(env, s, l).payments| > |s.payments|
    ensures Tells(Step(env, s, l).payments[|s.payments|], {})
  {
  }

  lemma {:induction false} NoPast(env: Env, labels: seq<Label>, id: nat)
    requires id >= |Run(env, labels).s.payments|
    ensures Past(env, labels, id) == {}
  {
    hide Step, Enabled, CauseOf;
    if labels != [] {
      NoPast(env, labels[..|labels| - 1], id);
    }
  }

  // After any run the columns of a payment say exactly what happened to it: which transfer it accepted, what it failed
  // of, whether it was completed, paid back or timed out.
  lemma {:induction false} HistoryExactly(env: Env, labels: seq<Label>, id: nat)
    requires id < |Run(env, labels).s.payments|
    ensures Tells(Run(env, labels).s.payments[id], Past(env, labels, id))
  {
    hide Step, Enabled, CauseOf, Tells, RowAfter, PaymentsOk;
    var n := |labels| - 1;
    var s := Run(env, labels[..n]).s;
    if id < |s.payments| {
      HistoryExactly(env, labels[..n], id);
      RunKeepsTrails(env, labels[..n]);
      assert Past(env, labels[..n], id) + {} == Past(env, labels[..n], id);
      if Enabled(env, s, labels[n]) {
        RowExactly(env, s, labels[n], id);
        TellsNext(env, s, labels[n], id, Past(env, labels[..n], id));
      }
    } else {
      NoPast(env, labels[..n], id);
      NewTells(env, s, labels[n]);
      assert Past(env, labels, id) == {};
    }
  }

  // From any reachable state, a faultless poll without a receipt of a CONFIRMING payment detected in block b fails it
  // exactly when the chain is more than three hundred blocks on, and otherwise leaves it as it is, to be polled again.
  lemma GivenUpExactly(env: Env, labels: seq<Label>, id: nat, b: nat, height: nat)
    requires var s := Run(env, labels).s;
      id < |s.payments| && id in s.jobs && s.payments[id].status == CONFIRMING && s.payments[id].blockNumber == Some(b)
    requires b > 0
    ensures var s := Run(env, labels).s;
      var r := OnPoll(env, s, id, View(None, height), NoFault);
      && (r.state.payments[id].status == FAILED <==> height > b + 300)
      && (height > b + 300 ==> r.state.payments[id].failure == Some(Dropped) && id !in r.state.jobs)
      && (height <= b + 300 ==> r.state.payments == s.payments && r.end == Rechecked)
  {
  }

  // ---------------------------------------------------------------- the order

  // The call that created a payment.
  function Origin(env: Env, labels: seq<Label>, id: nat): (l: Label)
    requires id < |Run(env, labels).s.payments|
    ensures l.Create?
  {
    var n := |labels| - 1;
    if id < |Run(env, labels[..n]).s.payments| then Origin(env, labels[..n], id) else labels[n]
  }

  predicate OrderedBy(env: Env, p: Payment, l: Label) {
    && l.Create? && l.walletId in env.wallets && env.wallets[l.walletId].tenantId == l.tenantId
    && p.tenantId == l.tenantId && p.idempotencyKey == l.key && p.amount == l.amount && p.chain == l.chain
    && p.walletId == l.walletId && p.toAddress == env.wallets[l.walletId].address
    && p.expiresAt == l.now + 86_400_000
    && p.required == if l.required.Some? then l.required.value else 3
  }

  lemma NewIsOrdered(env: Env, s: State, l: Label)
    requires Enabled(env, s, l) && |Step(env, s, l).payments| > |s.payments|
    ensures OrderedBy(env, Step(env, s, l).payments[|s.payments|], l)
  {
  }

  lemma OrderStays(env: Env, s: State, l: Label, id: nat, origin: Label)
    requires id < |s.payments| && OrderedBy(env, s.payments[id], origin)
    ensures OrderedBy(env, RowAfter(env, s, l, id), origin)
  {
  }

  // After any run, a payment is what the call that created it asked for: for a wallet of its own tenant, to be paid
  // within a day, with three confirmations unless another number was asked for.
  lemma {:induction false} OrderExactly(env: Env, labels: seq<Label>, id: nat)
    requires id < |Run(env, labels).s.payments|
    ensures OrderedBy(env, Run(env, labels).s.payments[id], Origin(env, labels, id))
  {
    hide Step, Enabled, RowAfter, PaymentsOk, OrderedBy;
    var n := |labels| - 1;
    var s := Run(env, labels[..n]).s;
    if id < |s.payments| {
      OrderExactly(env, labels[..n], id);
      RunKeepsTrails(env, labels[..n]);
      if Enabled(env, s, labels[n]) {
        RowExactly(env, s, labels[n], id);
        OrderStays(env, s, labels[n], id, Origin(env, labels[..n], id));
      }
    } else {
      NewIsOrdered(env, s, labels[n]);
    }
  }

  // Who gets a payment created, and what anybody else is told.
  lemma CreatedExactly(env: Env, labels: seq<Label>, tenantId: string, key: string, amount: int, chain: Chain,
        walletId: string, required: Option<int>, now: int)
    ensures var s := Run(env, labels).s;
      var (after, answer) := CreateIntent(env, s, tenantId, key, amount, chain, walletId, required, now);
      && (|after.payments| > |s.payments| <==>
            (forall i :: 0 <= i < |s.payments| ==> s.payments[i].idempotencyKey != key)
            && walletId in env.wallets && env.wallets[walletId].tenantId == tenantId)
      && (|after.payments| > |s.payments| ==> answer == Ok(|s.payments|))
      && (|after.payments| == |s.payments| ==> after == s)
      && (forall i: nat :: i < |s.payments| && s.payments[i].idempotencyKey == key ==>
            answer == if s.payments[i].tenantId == tenantId then Ok(i) else Err(IdempotencyConflict))
      && ((forall i :: 0 <= i < |s.payments| ==> s.payments[i].idempotencyKey != key) && after == s ==>
            answer == Err(NotFound))
  {
    RunKeepsTrails(env, labels);
    hide Run;
  }

  // ---------------------------------------------------------------- the sweep

  // A sweep takes pending payments that were created more than a day before it, and no others; one that takes fewer
  // than 200 leaves none of them behind.
  lemma SweepExactly(env: Env, labels: seq<Label>, at: int, batch: seq<nat>, crash: Crash, id: nat)
    requires var s := Run(env, labels).s; Enabled(env, s, Sweep(at, batch, crash)) && id < |s.payments|
    ensures var s := Run(env, labels).s;
      && |batch| <= 200 && id < |Step(env, s, Sweep(at, batch, crash)).payments|
      && (id in batch ==> s.payments[id].status == PENDING && Origin(env, labels, id).now < at - 86_400_000)
      && (|batch| < 200 && s.payments[id].status == PENDING && Origin(env, labels, id).now < at - 86_400_000 ==>
            id in batch)
      && var after := Step(env, s, Sweep(at, batch, crash)).payments;
         after[id] == if id in batch && id !in crash.unwritten then s.payments[id].(status := EXPIRED)
                      else s.payments[id]
  {
    var s := Run(env, labels).s;
    OrderExactly(env, labels, id);
    RunKeepsTrails(env, labels);
    hide Run, ExpireAll, PaymentsOk;
    RowExactly(env, s, Sweep(at, batch, crash), id);
  }

  // Any 200 such payments may make up a batch, and so may all of them when there are no more than that.
  lemma SweepMayTake(env: Env, s: State, at: int, batch: seq<nat>, crash: Crash)
    requires forall k :: 0 <= k < |batch| ==>
      batch[k] < |s.payments| && s.payments[batch[k]].status == PENDING && s.payments[batch[k]].expiresAt < at
    requires forall i, j :: 0 <= i < j < |batch| ==> batch[i] != batch[j]
    requires |batch| == 200 || (|batch| < 200 && forall id: nat ::
      id < |s.payments| && s.payments[id].status == PENDING && s.payments[id].expiresAt < at ==> id in batch)
    ensures Enabled(env, s, Sweep(at, batch, crash))
  {
    assert forall k :: 0 <= k < |batch| ==> Stale(s.payments[batch[k]], at);
    assert forall id: nat :: id < |s.payments| ==>
      (Stale(s.payments[id], at) <==> s.payments[id].status == PENDING && s.payments[id].expiresAt < at);
  }

  predicate SweptAt(env: Env, labels: seq<Label>, id: nat, k: nat)
    requires id < |Run(env, labels).s.payments|
  {
    k < |labels| && labels[k].Sweep? && id in labels[k].batch && id !in labels[k].crash.unwritten
    && labels[k].at > Origin(env, labels, id).now + 86_400_000
  }

  ghost predicate SweptLate(env: Env, labels: seq<Label>, id: nat)
    requires id < |Run(env, labels).s.payments|
  {
    exists k: nat :: SweptAt(env, labels, id, k)
  }

  lemma {:induction false} TimedOutIsLate(env: Env, labels: seq<Label>, id: nat)
    requires id < |Run(env, labels).s.payments| && TimedOut in Past(env, labels, id)
    ensures SweptLate(env, labels, id)
  {
    hide Step, Enabled, PaymentsOk;
    var n := |labels| - 1;
    var before := labels[..n];
    if TimedOut in Past(env, before, id) {
      PastIsOfRow(env, before, id);
      TimedOutIsLate(env, before, id);
      var k :| SweptAt(env, before, id, k);
      assert SweptAt(env, labels, id, k);
    } else {
      ItsCause(env, Run(env, before).s, labels[n], id);
      SweepExactly(env, before, labels[n].at, labels[n].batch, labels[n].crash, id);
      assert SweptAt(env, labels, id, n);
    }
  }

  lemma ItsCause(env: Env, s: State, l: Label, id: nat)
    requires id < |s.payments| && TimedOut in CauseOf(env, s, l, id)
    ensures Expires(l, id)
  {
  }

  lemma PastIsOfRow(env: Env, labels: seq<Label>, id: nat)
    requires Past(env, labels, id) != {}
    ensures id < |Run(env, labels).s.payments|
  {
    if id >= |Run(env, labels).s.payments| {
      NoPast(env, labels, id);
    }
  }

  // So after any run a payment is EXPIRED only if a sweep came more than a day after its creation.
  lemma ExpiredIsLate(env: Env, labels: seq<Label>, id: nat)
    requires id < |Run(env, labels).s.payments| && Run(env, labels).s.payments[id].status == EXPIRED
    ensures SweptLate(env, labels, id)
  {
    hide Run, Past;
    HistoryExactly(env, labels, id);
    TimedOutIsLate(env, labels, id);
  }
}
