/**
 Money over any run of the payment rail: how often each payment is in the journal, what
 the stored balances add up to, and how much was received for what was expected.
 */
module PaymentSettlement {
  import opened Wrappers
  import opened PaymentStateMachine
  import opened Ledger
  import opened PaymentRail
  import opened PaymentInvariants

  // ---------------------------------------------------------------- what a run should have booked

  // How often the ledger entries of a payment were committed.
  function Times(p: Payment, orphans: nat): nat {
    (if IsSettled(p) then 1 else 0) + orphans
  }

  function Repeat(entries: seq<Entry>, n: nat): seq<Entry> {
    if n == 0 then [] else Repeat(entries, n - 1) + entries
  }

  function SettlementOf(p: Payment, id: nat): seq<Entry> {
    Settlement(p.tenantId, p.chain, id, p.amount)
  }

  datatype Measure = Gross | Fees

  function Weight(m: Measure, p: Payment, times: nat, tenantId: string, chain: Chain): int {
    if p.tenantId != tenantId || p.chain != chain then 0
    else times * if m.Gross? then p.amount else BookedFee(p.amount)
  }

  function Total(m: Measure, ps: seq<Payment>, orphans: seq<nat>, tenantId: string, chain: Chain): int
    requires |ps| == |orphans|
  {
    if ps == [] then 0
    else
      var n := |ps| - 1;
      Total(m, ps[..n], orphans[..n], tenantId, chain) + Weight(m, ps[n], Times(ps[n], orphans[n]), tenantId, chain)
  }

  // The number of settlements booked for a tenant and chain.
  function Count(ps: seq<Payment>, orphans: seq<nat>, tenantId: string, chain: Chain): nat
    requires |ps| == |orphans|
  {
    if ps == [] then 0
    else
      var n := |ps| - 1;
      Count(ps[..n], orphans[..n], tenantId, chain)
      + if ps[n].tenantId == tenantId && ps[n].chain == chain then Times(ps[n], orphans[n]) else 0
  }

  ghost predicate JournalOk(ps: seq<Payment>, orphans: seq<nat>, journal: seq<Entry>) {
    && |ps| == |orphans|
    && (forall i: nat :: i < |ps| ==> EntriesOf(journal, i) == Repeat(SettlementOf(ps[i], i), Times(ps[i], orphans[i])))
    && (forall i: nat :: i >= |ps| ==> EntriesOf(journal, i) == [])
  }

  ghost predicate TotalsOk(ps: seq<Payment>, orphans: seq<nat>, books: Books) {
    && |ps| == |orphans|
    && BooksOk(books)
    && (forall t, c :: Balance(books.accounts, Code(t, ASSET, c)) == Total(Gross, ps, orphans, t, c))
    && (forall t, c :: Balance(books.accounts, Code(t, REVENUE, c)) == Total(Fees, ps, orphans, t, c))
  }

  // ---------------------------------------------------------------- what a step does to the books

  predicate Booked(end: PollEnd) {
    end.Settled? || end == Threw(true)
  }

  // This step commits the ledger entries of payment i.
  predicate Commits(env: Env, s: State, l: Label, i: nat)
    requires Enabled(env, s, l)
  {
    l.PollStep? && l.id == i && Booked(OnPoll(env, s, i, l.view, l.fault).end)
  }

  // The books after a poll: written once when it commits, and otherwise no balance and no entry changed.
  ghost predicate PollBooks(p: Payment, id: nat, before: Books, after: Books, end: PollEnd) {
    if Booked(end) then
      exists ready ::
        && HasWalletAccounts(ready, p.tenantId, p.chain)
        && (forall k :: Balance(ready, k) == Balance(before.accounts, k))
        && after == WriteSettlement(Books(ready, before.journal), p.tenantId, p.chain, id, p.amount)
    else
      after.journal == before.journal && forall k :: Balance(after.accounts, k) == Balance(before.accounts, k)
  }

  lemma SettleBooks(s: State, id: nat, fault: Fault)
    requires id < |s.payments|
    ensures var (after, end) := SettlePayment(s, id, fault);
      PollBooks(s.payments[id], id, s.books, after.books, end)
  {
    var p := s.payments[id];
    var (ready, found) := ReadyAccounts(s.books.accounts, p.tenantId, p.walletId, p.chain);
    forall k
      ensures Balance(ready, k) == Balance(s.books.accounts, k)
    {
      EnsureKeepsBalances(s.books.accounts, p.tenantId, p.walletId, p.chain, k);
    }
  }

  lemma RowLeavesBooks(s: State, txHash: string, status: ChainTxStatus, confirmations: Option<int>)
    ensures var after := UpdateTx(s, txHash, status, confirmations);
      after.payments == s.payments && after.books == s.books
  {
  }

  lemma UpdateBooks(env: Env, s: State, id: nat, confirmations: int, fault: Fault)
    requires id < |s.payments|
    ensures var (after, end) := HandleConfirmationUpdate(env, s, id, confirmations, fault);
      && PollBooks(s.payments[id], id, s.books, after.books, end)
      && (end.Ignored? ==> PollBooks(s.payments[id], id, s.books, after.books, Rechecked))
  {
    hide SettlePayment;
    SettleBooks(s, id, fault);
  }

  lemma ReceiptBooks(env: Env, s: State, id: nat, job: ConfirmJob, confirmations: int, fault: Fault)
    requires id < |s.payments|
    ensures var r := PollReceipt(env, s, id, job, confirmations, fault);
      PollBooks(s.payments[id], id, s.books, r.state.books, r.end)
  {
    hide SettlePayment, UpdateTx, PollBooks;
    var status := if confirmations >= job.target then CONFIRMED else SUBMITTED;
    var updated := UpdateTx(s, job.txHash, status, Some(confirmations));
    RowLeavesBooks(s, job.txHash, status, Some(confirmations));
    UpdateBooks(env, updated, id, confirmations, fault);
  }

  lemma GiveUpBooks(s: State, id: nat, reason: FailureReason, fault: Fault)
    requires id < |s.payments| && id in s.jobs
    ensures var r := GiveUp(s, id, s.jobs[id], reason, fault);
      PollBooks(s.payments[id], id, s.books, r.state.books, r.end)
  {
  }

  // The ends of a poll that leaves the books alone.
  lemma NoBooks(s: State, id: nat)
    requires id < |s.payments|
    ensures forall end :: !Booked(end) ==> PollBooks(s.payments[id], id, s.books, s.books, end)
  {
  }

  lemma PollKeepsBooks(env: Env, s: State, id: nat, view: View, fault: Fault)
    requires id < |s.payments| && id in s.jobs
    ensures var r := OnPoll(env, s, id, view, fault);
      PollBooks(s.payments[id], id, s.books, r.state.books, r.end)
  {
    hide PollReceipt, GiveUp, PollBooks;
    GiveUpBooks(s, id, if view.receipt.Some? then Reverted else Dropped, fault);
    NoBooks(s, id);
    if view.receipt.Some? {
      ReceiptBooks(env, s, id, s.jobs[id], view.currentBlock - view.receipt.value.blockNumber + 1, fault);
    }
  }

  // Every other step leaves the journal and all balances alone.
  lemma OtherStepsKeepBooks(env: Env, s: State, l: Label)
    requires Enabled(env, s, l) && !l.PollStep?
    ensures var after := Step(env, s, l).books;
      after.journal == s.books.journal && forall k :: Balance(after.accounts, k) == Balance(s.books.accounts, k)
  {
    match l
    case Sweep(_, batch, crash) => ExpireAllEffect(s, batch, crash);
    case _ =>
  }

  // A step raises the number of settlements of a payment by one exactly when it commits its entries.
  lemma TimesMove(env: Env, h: History, l: Label)
    requires |h.orphans| == |h.s.payments| && PaymentsOk(env, h.s.payments) && Enabled(env, h.s, l)
    ensures var after := Next(env, h, l);
      && (forall i: nat :: i < |h.s.payments| ==>
            Times(after.s.payments[i], after.orphans[i])
            == Times(h.s.payments[i], h.orphans[i]) + if Commits(env, h.s, l, i) then 1 else 0)
      && (forall i: nat :: |h.s.payments| <= i < |after.s.payments| ==>
            Times(after.s.payments[i], after.orphans[i]) == 0)
  {
    hide OnTransfer, OnPoll, HandleRefund, PaymentsOk;
    StepTouches(env, h.s, l);
    match l
    case Detect(t, found, f) => if found.Some? { TransferEffect(env, h.s, env.transfers[t], found.value, f); }
    case PollStep(id, view, fault) => PollEffect(env, h.s, id, view, fault);
    case Refund(id, caller) => if id < |h.s.payments| { RefundKeepsSettled(h.s, id, caller); }
    case _ =>
  }

  lemma RefundKeepsSettled(s: State, id: nat, caller: string)
    requires id < |s.payments|
    ensures IsSettled(HandleRefund(s, id, caller).0.payments[id]) == IsSettled(s.payments[id])
  {
    ListedPairs(s.payments[id].status, REFUNDED);
  }

  // Rows keep what a settlement is made of.
  lemma IntentsStay(env: Env, s: State, l: Label)
    requires PaymentsOk(env, s.payments) && Enabled(env, s, l)
    ensures var after := Step(env, s, l).payments;
      forall i: nat :: i < |s.payments| ==>
        SameIntent(s.payments[i], after[i]) && SettlementOf(after[i], i) == SettlementOf(s.payments[i], i)
  {
    hide Step, PaymentsOk;
    RowsMove(env, s, l);
  }

  lemma StepKeepsJournal(env: Env, h: History, l: Label)
    requires PaymentsOk(env, h.s.payments) && JournalOk(h.s.payments, h.orphans, h.s.books.journal)
    requires BooksOk(h.s.books) && Enabled(env, h.s, l)
    ensures var after := Next(env, h, l); JournalOk(after.s.payments, after.orphans, after.s.books.journal)
  {
    hide Step, PaymentsOk, SettlementOf, BooksOk, Commits, EntriesOf, Repeat;
    var after := Next(env, h, l);
    TimesMove(env, h, l);
    forall i: nat
      ensures EntriesOf(after.s.books.journal, i)
           == if i < |after.s.payments|
              then Repeat(SettlementOf(after.s.payments[i], i), Times(after.s.payments[i], after.orphans[i]))
              else []
    {
      JournalGrows(env, h.s, l, i);
      if i < |h.s.payments| {
        IntentsStay(env, h.s, l);
        OneMoreTime(SettlementOf(h.s.payments[i], i), Times(h.s.payments[i], h.orphans[i]));
      } else if i < |after.s.payments| {
        OneMoreTime(SettlementOf(after.s.payments[i], i), 0);
      }
    }
  }

  lemma OneMoreTime(entries: seq<Entry>, n: nat)
    ensures Repeat(entries, n + 1) == Repeat(entries, n) + entries
    ensures n == 0 ==> Repeat(entries, n) == []
  {
  }

  lemma JournalGrows(env: Env, s: State, l: Label, i: nat)
    requires BooksOk(s.books) && Enabled(env, s, l)
    ensures EntriesOf(Step(env, s, l).books.journal, i)
         == if i < |s.payments| && Commits(env, s, l, i)
            then EntriesOf(s.books.journal, i) + SettlementOf(s.payments[i], i)
            else EntriesOf(s.books.journal, i)
  {
    if l.PollStep? {
      hide OnPoll, Settlement;
      PollKeepsBooks(env, s, l.id, l.view, l.fault);
      var p := s.payments[l.id];
      var end := OnPoll(env, s, l.id, l.view, l.fault).end;
      if Booked(end) {
        var ready :| HasWalletAccounts(ready, p.tenantId, p.chain)
          && (forall k :: Balance(ready, k) == Balance(s.books.accounts, k))
          && Step(env, s, l).books
            == WriteSettlement(Books(ready, s.books.journal), p.tenantId, p.chain, l.id, p.amount);
        SettlementEffect(Books(ready, s.books.journal), p.tenantId, p.chain, l.id, p.amount);
        EntriesOfAppend(s.books.journal, SettlementOf(p, l.id), i);
        SettlementEntries(p.tenantId, p.chain, l.id, p.amount, i);
      }
    } else {
      OtherStepsKeepBooks(env, s, l);
    }
  }

  // ---------------------------------------------------------------- totals

  lemma {:induction false} TotalMoves(m: Measure, ps: seq<Payment>, orphans: seq<nat>, qs: seq<Payment>,
        after: seq<nat>, t: string, c: Chain, hit: nat, delta: int)
    requires |ps| == |orphans| == |qs| == |after|
    requires forall i: nat :: i < |ps| ==>
      Weight(m, qs[i], Times(qs[i], after[i]), t, c)
      == Weight(m, ps[i], Times(ps[i], orphans[i]), t, c) + if i == hit then delta else 0
    ensures Total(m, qs, after, t, c) == Total(m, ps, orphans, t, c) + if hit < |ps| then delta else 0
  {
    if ps != [] {
      var n := |ps| - 1;
      TotalMoves(m, ps[..n], orphans[..n], qs[..n], after[..n], t, c, hit, delta);
    }
  }

  lemma WeightOnceMore(m: Measure, p: Payment, times: nat, t: string, c: Chain)
    ensures Weight(m, p, times + 1, t, c) == Weight(m, p, times, t, c) + Weight(m, p, 1, t, c)
  {
  }

  lemma WeightOfIntent(m: Measure, p: Payment, q: Payment, times: nat, t: string, c: Chain)
    requires SameIntent(p, q)
    ensures Weight(m, q, times, t, c) == Weight(m, p, times, t, c)
  {
  }

  // A row that was never settled adds nothing.
  lemma TotalPrefix(m: Measure, ps: seq<Payment>, orphans: seq<nat>, n: nat, t: string, c: Chain)
    requires n <= |ps| == |orphans| <= n + 1
    requires |ps| > n ==> Times(ps[n], orphans[n]) == 0
    ensures Total(m, ps, orphans, t, c) == Total(m, ps[..n], orphans[..n], t, c)
  {
    if |ps| == n {
      assert ps[..n] == ps && orphans[..n] == orphans;
    }
  }

  lemma NextTotal(env: Env, h: History, l: Label, m: Measure, t: string, c: Chain)
    requires |h.orphans| == |h.s.payments| && PaymentsOk(env, h.s.payments) && Enabled(env, h.s, l)
    ensures var after := Next(env, h, l);
      Total(m, after.s.payments, after.orphans, t, c) == Total(m, h.s.payments, h.orphans, t, c)
        + if l.PollStep? && Commits(env, h.s, l, l.id) then Weight(m, h.s.payments[l.id], 1, t, c) else 0
  {
    hide Step, OnPoll, PaymentsOk, Weight, Total;
    var after := Next(env, h, l);
    var n := |h.s.payments|;
    TimesMove(env, h, l);
    IntentsStay(env, h.s, l);
    var hit := if l.PollStep? && Commits(env, h.s, l, l.id) then l.id else n;
    var delta := if hit < n then Weight(m, h.s.payments[hit], 1, t, c) else 0;
    forall i: nat | i < n
      ensures Weight(m, after.s.payments[i], Times(after.s.payments[i], after.orphans[i]), t, c)
           == Weight(m, h.s.payments[i], Times(h.s.payments[i], h.orphans[i]), t, c) + if i == hit then delta else 0
    {
      WeightOfIntent(m, h.s.payments[i], after.s.payments[i], Times(after.s.payments[i], after.orphans[i]), t, c);
      WeightOnceMore(m, h.s.payments[i], Times(h.s.payments[i], h.orphans[i]), t, c);
    }
    TotalMoves(m, h.s.payments, h.orphans, after.s.payments[..n], after.orphans[..n], t, c, hit, delta);
    TotalPrefix(m, after.s.payments, after.orphans, n, t, c);
  }

  lemma StepKeepsTotals(env: Env, h: History, l: Label)
    requires PaymentsOk(env, h.s.payments) && TotalsOk(h.s.payments, h.orphans, h.s.books) && Enabled(env, h.s, l)
    ensures var after := Next(env, h, l); TotalsOk(after.s.payments, after.orphans, after.s.books)
  {
    hide Step, OnPoll, PaymentsOk, Total, BooksOk, Balance;
    var after := Next(env, h, l);
    BalancesMove(env, h.s, l);
    forall t, c
      ensures Balance(after.s.books.accounts, Code(t, ASSET, c)) == Total(Gross, after.s.payments, after.orphans, t, c)
      ensures Balance(after.s.books.accounts, Code(t, REVENUE, c)) == Total(Fees, after.s.payments, after.orphans, t, c)
    {
      NextTotal(env, h, l, Gross, t, c);
      NextTotal(env, h, l, Fees, t, c);
    }
  }

  lemma PollStepBooks(env: Env, s: State, l: Label)
    requires Enabled(env, s, l) && l.PollStep?
    ensures Step(env, s, l).books == OnPoll(env, s, l.id, l.view, l.fault).state.books
  {
    hide OnPoll;
  }

  lemma ReadyBooks(books: Books, ready: Accounts)
    requires BooksOk(books) && forall k :: Balance(ready, k) == Balance(books.accounts, k)
    ensures BooksOk(Books(ready, books.journal))
  {
  }

  lemma SameBooks(books: Books, after: Books)
    requires BooksOk(books) && after.journal == books.journal
    requires forall k :: Balance(after.accounts, k) == Balance(books.accounts, k)
    ensures BooksOk(after)
  {
  }

  // What a poll adds to the balances, from how it changes the books.
  lemma PollBooksMove(p: Payment, id: nat, before: Books, after: Books, end: PollEnd)
    requires BooksOk(before) && PollBooks(p, id, before, after, end)
    ensures BooksOk(after)
    ensures forall t, c ::
      && Balance(after.accounts, Code(t, ASSET, c)) == Balance(before.accounts, Code(t, ASSET, c))
           + (if Booked(end) then Weight(Gross, p, 1, t, c) else 0)
      && Balance(after.accounts, Code(t, REVENUE, c)) == Balance(before.accounts, Code(t, REVENUE, c))
           + (if Booked(end) then Weight(Fees, p, 1, t, c) else 0)
  {
    hide WriteSettlement, BookedFee, BooksOk, HasWalletAccounts, Settlement, Balance;
    if Booked(end) {
      var ready :| HasWalletAccounts(ready, p.tenantId, p.chain)
        && (forall k :: Balance(ready, k) == Balance(before.accounts, k))
        && after == WriteSettlement(Books(ready, before.journal), p.tenantId, p.chain, id, p.amount);
      ReadyBooks(before, ready);
      SettlementEffect(Books(ready, before.journal), p.tenantId, p.chain, id, p.amount);
    } else {
      SameBooks(before, after);
    }
  }

  lemma BalancesMove(env: Env, s: State, l: Label)
    requires BooksOk(s.books) && Enabled(env, s, l)
    ensures var after := Step(env, s, l).books;
      && BooksOk(after)
      && forall t, c ::
           && Balance(after.accounts, Code(t, ASSET, c)) == Balance(s.books.accounts, Code(t, ASSET, c))
                + (if l.PollStep? && Commits(env, s, l, l.id) then Weight(Gross, s.payments[l.id], 1, t, c) else 0)
           && Balance(after.accounts, Code(t, REVENUE, c)) == Balance(s.books.accounts, Code(t, REVENUE, c))
                + (if l.PollStep? && Commits(env, s, l, l.id) then Weight(Fees, s.payments[l.id], 1, t, c) else 0)
  {
    hide Step, OnPoll, PollBooks, Weight, Balance, BooksOk;
    if l.PollStep? {
      PollKeepsBooks(env, s, l.id, l.view, l.fault);
      PollStepBooks(env, s, l);
      PollBooksMove(s.payments[l.id], l.id, s.books, Step(env, s, l).books, OnPoll(env, s, l.id, l.view, l.fault).end);
    } else {
      OtherStepsKeepBooks(env, s, l);
      SameBooks(s.books, Step(env, s, l).books);
    }
  }

  ghost predicate MoneyOk(env: Env, h: History) {
    && PaymentsOk(env, h.s.payments)
    && JournalOk(h.s.payments, h.orphans, h.s.books.journal)
    && TotalsOk(h.s.payments, h.orphans, h.s.books)
  }

  lemma {:induction false} RunKeepsMoney(env: Env, labels: seq<Label>)
    ensures MoneyOk(env, Run(env, labels))
  {
    hide Step, PaymentsOk, JournalOk, TotalsOk;
    if labels == [] {
      EmptyIsOk(env);
    } else {
      var n := |labels| - 1;
      var h := Run(env, labels[..n]);
      RunKeepsMoney(env, labels[..n]);
      if Enabled(env, h.s, labels[n]) {
        StepKeepsPayments(env, h.s, labels[n]);
        TotalsAreBooks(h);
        StepKeepsJournal(env, h, labels[n]);
        StepKeepsTotals(env, h, labels[n]);
      }
    }
  }

  lemma EmptyIsOk(env: Env)
    ensures MoneyOk(env, History(EMPTY, []))
  {
  }

  lemma TotalsAreBooks(h: History)
    requires TotalsOk(h.s.payments, h.orphans, h.s.books)
    ensures BooksOk(h.s.books)
  {
  }

  // ---------------------------------------------------------------- exactly once

  // After any run the journal holds the settlement of each payment once if its status is COMPLETED or REFUNDED, and
  // once more for every poll that committed the ledger and then lost the surrounding commit: nothing else.
  lemma JournalOfPayment(env: Env, labels: seq<Label>, i: nat)
    requires i < |Run(env, labels).s.payments|
    ensures var h := Run(env, labels);
      EntriesOf(h.s.books.journal, i)
      == Repeat(SettlementOf(h.s.payments[i], i), (if IsSettled(h.s.payments[i]) then 1 else 0) + h.orphans[i])
  {
    RunKeepsMoney(env, labels);
  }

  lemma {:induction false} RepeatLength(entries: seq<Entry>, n: nat)
    requires entries != []
    ensures n <= |Repeat(entries, n)| && (n > 1 ==> |Repeat(entries, n)| > |entries|)
  {
    if n > 0 {
      RepeatLength(entries, n - 1);
    }
  }

  // One gross entry, and one fee entry iff the fee is positive, exactly when the payment is settled, and none
  // otherwise.
  ghost predicate BookedOnce(s: State, i: nat)
    requires i < |s.payments|
  {
    EntriesOf(s.books.journal, i) == if IsSettled(s.payments[i]) then SettlementOf(s.payments[i], i) else []
  }

  // The call commits ledger entries and loses the commit around them: a poll of a CONFIRMING payment the lookup can
  // see, with a receipt that did not revert and enough confirmations, whose accounts exist or can be made, and whose
  // outer commit fails.
  predicate LosesCommit(env: Env, s: State, l: Label, i: nat) {
    && l.PollStep? && l.id == i && l.fault.OuterCommitFails? && i < |s.payments| && i in s.jobs
    && var p := s.payments[i];
       && p.status == CONFIRMING && Visible(env, p)
       && l.view.receipt.Some? && !l.view.receipt.value.reverted
       && l.view.currentBlock - l.view.receipt.value.blockNumber + 1 >= p.required
       && (Code(p.tenantId, ASSET, p.chain) in s.books.accounts || !WalletTaken(s.books.accounts, p.walletId))
  }

  lemma SettlementLoses(s: State, id: nat, fault: Fault)
    requires id < |s.payments|
    ensures var p := s.payments[id];
      SettlePayment(s, id, fault).1 == Threw(true)
      <==> fault.OuterCommitFails?
           && (Code(p.tenantId, ASSET, p.chain) in s.books.accounts || !WalletTaken(s.books.accounts, p.walletId))
  {
  }

  lemma ReceiptLoses(env: Env, s: State, id: nat, job: ConfirmJob, confirmations: int, fault: Fault)
    requires id < |s.payments| && s.payments[id].status == CONFIRMING
    ensures var p := s.payments[id];
      PollReceipt(env, s, id, job, confirmations, fault).end == Threw(true)
      <==> Visible(env, p) && confirmations >= p.required && fault.OuterCommitFails?
           && (Code(p.tenantId, ASSET, p.chain) in s.books.accounts || !WalletTaken(s.books.accounts, p.walletId))
  {
    hide SettlePayment, WalletTaken;
    SettlementLoses(UpdateTx(s, job.txHash, if confirmations >= job.target then CONFIRMED else SUBMITTED,
                             Some(confirmations)), id, fault);
  }

  lemma GiveUpLosesNothing(s: State, id: nat, job: ConfirmJob, reason: FailureReason, fault: Fault)
    requires id < |s.payments|
    ensures GiveUp(s, id, job, reason, fault).end != Threw(true)
  {
    hide FailPayment;
  }

  lemma LosesExactly(env: Env, s: State, l: Label, i: nat)
    requires Enabled(env, s, l)
    ensures Orphans(env, s, l) && l.id == i <==> LosesCommit(env, s, l, i)
  {
    hide PollReceipt, GiveUp, WalletTaken;
    if l.PollStep? && s.payments[l.id].status == CONFIRMING {
      GiveUpLosesNothing(s, l.id, s.jobs[l.id], if l.view.receipt.Some? then Reverted else Dropped, l.fault);
      if l.view.receipt.Some? {
        ReceiptLoses(env, s, l.id, s.jobs[l.id], l.view.currentBlock - l.view.receipt.value.blockNumber + 1, l.fault);
      }
    }
  }

  lemma OneOrTwice(entries: seq<Entry>, n: nat)
    requires entries != []
    ensures Repeat(entries, n) == entries <==> n == 1
    ensures Repeat(entries, n) == [] <==> n == 0
  {
    RepeatLength(entries, n);
    OneMoreTime(entries, 0);
  }

  lemma OnceIffNoOrphans(env: Env, labels: seq<Label>, i: nat)
    requires i < |Run(env, labels).s.payments|
    ensures BookedOnce(Run(env, labels).s, i) <==> Run(env, labels).orphans[i] == 0
  {
    var h := Run(env, labels);
    JournalOfPayment(env, labels, i);
    OneOrTwice(SettlementOf(h.s.payments[i], i), Times(h.s.payments[i], h.orphans[i]));
  }

  // From any reachable state, a call keeps a payment booked once exactly when it does not lose such a commit.
  lemma CallKeepsBookedOnce(env: Env, labels: seq<Label>, l: Label, i: nat)
    requires i < |Run(env, labels).s.payments| && Enabled(env, Run(env, labels).s, l)
    requires BookedOnce(Run(env, labels).s, i)
    ensures i < |Step(env, Run(env, labels).s, l).payments|
    ensures BookedOnce(Step(env, Run(env, labels).s, l), i) <==> !LosesCommit(env, Run(env, labels).s, l, i)
  {
    hide Step, BookedOnce, LosesCommit, Orphans;
    var h := Run(env, labels);
    assert (labels + [l])[..|labels|] == labels;
    OnceIffNoOrphans(env, labels, i);
    OnceIffNoOrphans(env, labels + [l], i);
    LosesExactly(env, h.s, l, i);
  }

  // Some call of the run loses such a commit of the payment.
  predicate EverLoses(env: Env, labels: seq<Label>, i: nat) {
    labels != []
    && var n := |labels| - 1;
       EverLoses(env, labels[..n], i) || LosesCommit(env, Run(env, labels[..n]).s, labels[n], i)
  }

  lemma {:induction false} OrphansAreLosses(env: Env, labels: seq<Label>, i: nat)
    ensures EverLoses(env, labels, i) <==> i < |Run(env, labels).orphans| && Run(env, labels).orphans[i] > 0
  {
    hide Step, LosesCommit, Orphans;
    if labels != [] {
      var n := |labels| - 1;
      var h := Run(env, labels[..n]);
      OrphansAreLosses(env, labels[..n], i);
      if LosesCommit(env, h.s, labels[n], i) {
        LossIsEnabled(env, h.s, labels[n], i);
      }
      if Enabled(env, h.s, labels[n]) {
        LosesExactly(env, h.s, labels[n], i);
        if Orphans(env, h.s, labels[n]) {
          OrphansAreOld(env, h.s, labels[n]);
        }
      }
    }
  }

  lemma LossIsEnabled(env: Env, s: State, l: Label, i: nat)
    requires LosesCommit(env, s, l, i)
    ensures Enabled(env, s, l) && i < |s.payments|
  {
  }

  lemma OrphansAreOld(env: Env, s: State, l: Label)
    requires Enabled(env, s, l) && Orphans(env, s, l)
    ensures |Step(env, s, l).payments| == |s.payments| && l.id < |s.payments|
  {
    hide OnPoll;
  }

  // After any run a payment is booked once if and only if no call of the run lost the commit around its ledger entries.
  lemma ExactlyOnce(env: Env, labels: seq<Label>, i: nat)
    requires i < |Run(env, labels).s.payments|
    ensures BookedOnce(Run(env, labels).s, i) <==> !EverLoses(env, labels, i)
  {
    OnceIffNoOrphans(env, labels, i);
    OrphansAreLosses(env, labels, i);
  }

  // With one transaction around both, no run loses one.
  lemma {:induction false} NoLostCommits(env: Env, labels: seq<Label>)
    requires forall l :: l in labels && l.PollStep? ==> !l.fault.OuterCommitFails?
    ensures forall i: nat :: i < |Run(env, labels).orphans| ==> Run(env, labels).orphans[i] == 0
  {
    if labels != [] {
      var n := |labels| - 1;
      var h := Run(env, labels[..n]);
      NoLostCommits(env, labels[..n]);
      if labels[n].PollStep? && Enabled(env, h.s, labels[n]) {
        assert labels[n] in labels;
        OrphansNeedTheFault(env, h.s, labels[n]);
      }
    }
  }

  lemma OrphansNeedTheFault(env: Env, s: State, l: Label)
    requires Enabled(env, s, l) && l.PollStep? && !l.fault.OuterCommitFails?
    ensures !Orphans(env, s, l)
  {
  }

  // ---------------------------------------------------------------- the books

  // Per tenant and chain, after any run: with G the gross of the settlements and F their fees, the journal gives
  // Asset = Liability + Revenue with Liability G - F, while the stored Liability is that plus twice the fees.
  lemma BooksBalance(env: Env, labels: seq<Label>, t: string, c: Chain)
    ensures var h := Run(env, labels);
      var G, F := Total(Gross, h.s.payments, h.orphans, t, c), Total(Fees, h.s.payments, h.orphans, t, c);
      var asset, liability, revenue := Code(t, ASSET, c), Code(t, LIABILITY, c), Code(t, REVENUE, c);
      && NetDebit(h.s.books.journal, asset) == G
      && -NetDebit(h.s.books.journal, liability) == G - F
      && -NetDebit(h.s.books.journal, revenue) == F
      && Balance(h.s.books.accounts, asset) == G
      && Balance(h.s.books.accounts, liability) == (G - F) + 2 * F
      && Balance(h.s.books.accounts, revenue) == F
  {
    var h := Run(env, labels);
    RunKeepsMoney(env, labels);
    OneSided(h.s.books.journal, t, c);
    TrialBalance(h.s.books.journal, t, c);
    StoredLaw(h.s.books.journal, t, c);
  }

  // Assets are only debited and revenue only credited.
  lemma {:induction false} OneSided(journal: seq<Entry>, t: string, c: Chain)
    requires forall e :: e in journal ==> Regular(e)
    ensures NetDebit(journal, Code(t, ASSET, c)) == Touching(journal, Code(t, ASSET, c))
    ensures NetDebit(journal, Code(t, REVENUE, c)) == -Touching(journal, Code(t, REVENUE, c))
  {
    if journal != [] {
      assert journal[|journal| - 1] in journal;
      OneSided(journal[..|journal| - 1], t, c);
    }
  }

  // The balance reported for a tenant is the gross of its settled payments, over the three chains.
  lemma TenantBalanceIsGross(env: Env, labels: seq<Label>, t: string)
    ensures var h := Run(env, labels);
      TenantBalance(h.s.books.accounts, t)
      == Total(Gross, h.s.payments, h.orphans, t, POLYGON) + Total(Gross, h.s.payments, h.orphans, t, BASE)
         + Total(Gross, h.s.payments, h.orphans, t, ETHEREUM)
  {
    RunKeepsMoney(env, labels);
  }

  // Total fees never exceed a two-hundredth of the gross and fall short of it by less than one unit per settlement,
  // provided no amount is negative.
  lemma {:induction false} FeesOfGross(ps: seq<Payment>, orphans: seq<nat>, t: string, c: Chain)
    requires |ps| == |orphans|
    requires forall i :: 0 <= i < |ps| && ps[i].tenantId == t && ps[i].chain == c ==> ps[i].amount >= 0
    ensures var G, F := Total(Gross, ps, orphans, t, c), Total(Fees, ps, orphans, t, c);
      200 * F <= G <= 200 * F + 199 * Count(ps, orphans, t, c)
  {
    if ps != [] {
      var n := |ps| - 1;
      FeesOfGross(ps[..n], orphans[..n], t, c);
      if ps[n].tenantId == t && ps[n].chain == c {
        FeeBounds(ps[n].amount);
        ScaledBounds(Times(ps[n], orphans[n]), ps[n].amount, BookedFee(ps[n].amount));
      }
    }
  }

  lemma {:induction false} ScaledBounds(k: nat, amount: int, fee: nat)
    requires 200 * fee <= amount <= 200 * fee + 199
    ensures 200 * (k * fee) <= k * amount <= 200 * (k * fee) + 199 * k
  {
    if k > 0 {
      ScaledBounds(k - 1, amount, fee);
      assert k * fee == (k - 1) * fee + fee && k * amount == (k - 1) * amount + amount;
    }
  }

  // ---------------------------------------------------------------- the lookup as it is written

  // A poll writes to the ledger only for a payment the lookup can see.
  lemma CommitsAreVisible(env: Env, s: State, l: Label, i: nat)
    requires Enabled(env, s, l) && Commits(env, s, l, i)
    ensures i < |s.payments| && Visible(env, s.payments[i])
  {
  }

  lemma {:induction false} OrphansAreVisible(env: Env, labels: seq<Label>, i: nat)
    requires i < |Run(env, labels).s.payments| && Run(env, labels).orphans[i] > 0
    ensures Visible(env, Run(env, labels).s.payments[i])
  {
    if labels != [] {
      var n := |labels| - 1;
      var h := Run(env, labels[..n]);
      if Enabled(env, h.s, labels[n]) {
        RunKeepsMoney(env, labels[..n]);
        IntentsStay(env, h.s, labels[n]);
        TimesMove(env, h, labels[n]);
        if i < |h.s.payments| {
          if Commits(env, h.s, labels[n], i) {
            CommitsAreVisible(env, h.s, labels[n], i);
          } else if h.orphans[i] > 0 {
            OrphansAreVisible(env, labels[..n], i);
          }
        }
      } else {
        OrphansAreVisible(env, labels[..n], i);
      }
    }
  }

  // Asked for the tenant '', the lookups find nothing for any real tenant: no payment of such a tenant is ever
  // confirmed, settled or refunded, and none reaches the journal, whatever the run.
  lemma AsWrittenNothingSettles(env: Env, labels: seq<Label>, i: nat)
    requires env.lookup.AsWritten? && i < |Run(env, labels).s.payments| && Run(env, labels).s.payments[i].tenantId != ""
    ensures var h := Run(env, labels);
      var p := h.s.payments[i];
      && (p.status == PENDING || p.status == EXPIRED || FailedUnderpaid(p))
      && EntriesOf(h.s.books.journal, i) == []
  {
    RunKeepsMoney(env, labels);
    if Run(env, labels).orphans[i] > 0 {
      OrphansAreVisible(env, labels, i);
    }
  }
}
