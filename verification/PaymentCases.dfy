/**
 Idempotent intent creation over any run, and the concrete runs on which the rail as it is
 written departs from what it promises.
 */
module PaymentCases {
  import opened Wrappers
  import opened PaymentStateMachine
  import opened Ledger
  import opened PaymentRail
  import opened PaymentInvariants
  import opened PaymentAudit
  import opened PaymentSettlement
  import opened PaymentPolling

  // ---------------------------------------------------------------- idempotency

  lemma {:induction false} RowsStay(env: Env, before: seq<Label>, labels: seq<Label>, i: nat)
    requires i < |Run(env, before).s.payments|
    ensures var ps := Run(env, before + labels).s.payments;
      i < |ps| && SameIntent(Run(env, before).s.payments[i], ps[i])
  {
    hide Step, PaymentsOk, RowMove, Enabled;
    if labels == [] {
      assert before + labels == before;
    } else {
      var n := |labels| - 1;
      var s := Run(env, before + labels[..n]).s;
      RunOn(env, before, labels);
      hide Run;
      RowsStay(env, before, labels[..n], i);
      RunKeepsTrails(env, before + labels[..n]);
      if Enabled(env, s, labels[n]) {
        RowsMove(env, s, labels[n]);
        IntentStays(env, s, labels[n], i);
      }
    }
  }

  lemma IntentStays(env: Env, s: State, l: Label, i: nat)
    requires PaymentsOk(env, s.payments) && Enabled(env, s, l) && i < |s.payments|
    ensures i < |Step(env, s, l).payments| && SameIntent(s.payments[i], Step(env, s, l).payments[i])
  {
    hide Step, PaymentsOk, Enabled;
    RowsMove(env, s, l);
  }

  // Once a payment exists, asking again with its key, after anything else has run and whatever the rest of the
  // request says, changes nothing: its own tenant gets the same payment, any other a conflict.
  lemma CreateIsIdempotent(env: Env, before: seq<Label>, labels: seq<Label>, i: nat, tenantId: string, amount: int,
        chain: Chain, walletId: string, required: Option<int>, now: int)
    requires i < |Run(env, before).s.payments|
    ensures var p := Run(env, before).s.payments[i];
      var s := Run(env, before + labels).s;
      CreateIntent(env, s, tenantId, p.idempotencyKey, amount, chain, walletId, required, now)
      == (s, if tenantId == p.tenantId then Ok(i) else Err(IdempotencyConflict))
  {
    RowsStay(env, before, labels, i);
    RunKeepsTrails(env, before + labels);
  }

  // ---------------------------------------------------------------- concrete departures

  // One wallet, and one transfer to it in a given block.
  function Shop(queue: Queue, block: nat): Env {
    Env(ById, queue, map["w" := Wallet("t", POLYGON, "a")], [Transfer(POLYGON, "h", block, "a", 1000)])
  }

  const SHOP := Shop(Replaces, 5)

  const ORDER := Create("t", "k", 1000, POLYGON, "w", None, 0)
  const DEPOSIT := Detect(0, Some(0), RunsThrough)
  const SEEN := View(Some(Receipt(false, 5)), 7)

  const OPEN := Payment("t", "k", 1000, POLYGON, "w", "a", PAYMENT_EXPIRY_MS, 3, PENDING, None, None, 0, None)

  lemma Ordered(queue: Queue, block: nat, amount: int)
    ensures var h := Run(Shop(queue, block), [Create("t", "k", amount, POLYGON, "w", None, 0)]);
      h.orphans == [0] && h.s == EMPTY.(payments := [OPEN.(amount := amount)])
  {
    var order := [Create("t", "k", amount, POLYGON, "w", None, 0)];
    assert order[..0] == [];
    assert Run(Shop(queue, block), order[..0]) == History(EMPTY, []);
  }

  lemma DepositMatches(amount: int)
    ensures AwaitsDeposit(OPEN.(amount := amount), POLYGON, "a")
  {
  }

  lemma Deposited(queue: Queue, block: nat)
    ensures var h := Run(Shop(queue, block), [ORDER, DEPOSIT]);
      && h.orphans == [0] && |h.s.payments| == 1 && h.s.payments[0].status == CONFIRMING
      && h.s.payments[0] == OPEN.(status := CONFIRMING, txHash := Some("h"), blockNumber := Some(block))
      && h.s.jobs == map[0 := ConfirmJob("h", 3, 0)] && h.s.books == Books(map[], [])
      && h.s.events == [DetectedEvent(OPEN, 0)]
  {
    Ordered(queue, block, 1000);
    DepositMatches(1000);
    LastCall(Shop(queue, block), [ORDER], DEPOSIT);
    assert [ORDER] + [DEPOSIT] == [ORDER, DEPOSIT];
    hide Run;
  }

  lemma LastCall(env: Env, labels: seq<Label>, l: Label)
    ensures Run(env, labels + [l]) == Next(env, Run(env, labels), l)
  {
    hide Next;
    assert (labels + [l])[..|labels|] == labels;
  }

  lemma SettlesFor(fault: Fault)
    requires fault.NoFault? || fault.OuterCommitFails?
    ensures var h := Run(SHOP, [ORDER, DEPOSIT, PollStep(0, SEEN, fault)]);
      && |h.s.payments| == 1 && h.s.payments[0].tenantId == "t" && h.s.payments[0].walletId == "w"
      && h.s.payments[0].chain == POLYGON && h.s.payments[0].required == 3
      && h.s.payments[0].status == (if fault.NoFault? then COMPLETED else CONFIRMING)
      && h.orphans == [if fault.NoFault? then 0 else 1]
      && (fault.OuterCommitFails? ==> 0 in h.s.jobs && h.s.jobs[0] == ConfirmJob("h", 3, 1))
      && Code("t", ASSET, POLYGON) in h.s.books.accounts
  {
    Deposited(Replaces, 5);
    var s := Run(SHOP, [ORDER, DEPOSIT]).s;
    LastCall(SHOP, [ORDER, DEPOSIT], PollStep(0, SEEN, fault));
    assert [ORDER, DEPOSIT] + [PollStep(0, SEEN, fault)] == [ORDER, DEPOSIT, PollStep(0, SEEN, fault)];
    hide OnPoll, Run, Next;
    FirstPoll(s, fault);
    PollCounted(SHOP, Run(SHOP, [ORDER, DEPOSIT]), SEEN, fault);
  }

  lemma PollCounted(env: Env, h: History, view: View, fault: Fault)
    requires |h.s.payments| == 1 && h.orphans == [0] && 0 in h.s.jobs
    ensures var r := OnPoll(env, h.s, 0, view, fault);
      Next(env, h, PollStep(0, view, fault)) == History(r.state, [if r.end == Threw(true) then 1 else 0])
  {
    hide OnPoll;
  }

  lemma FirstPoll(s: State, fault: Fault)
    requires fault.NoFault? || fault.OuterCommitFails?
    requires |s.payments| == 1 && s.jobs == map[0 := ConfirmJob("h", 3, 0)] && s.books == Books(map[], [])
    requires s.payments[0] == OPEN.(status := CONFIRMING, txHash := Some("h"), blockNumber := Some(5))
    ensures var r := OnPoll(SHOP, s, 0, SEEN, fault);
      var p := r.state.payments[0];
      && p.tenantId == "t" && p.walletId == "w" && p.chain == POLYGON && p.required == 3
      && p.status == (if fault.NoFault? then COMPLETED else CONFIRMING)
      && r.end == (if fault.NoFault? then Settled else Threw(true))
      && (fault.OuterCommitFails? ==> 0 in r.state.jobs && r.state.jobs[0] == ConfirmJob("h", 3, 1))
      && Code("t", ASSET, POLYGON) in r.state.books.accounts
  {
    hide OnPoll;
    ThresholdPoll(SHOP, s, 0, SEEN, fault);
    PollEffect(SHOP, s, 0, SEEN, fault);
    PollWaits(SHOP, s, 0, SEEN, fault);
  }

  // A poll at the threshold settles, or throws after the ledger has committed.
  lemma ThresholdPoll(env: Env, s: State, id: nat, view: View, fault: Fault)
    requires id < |s.payments| && id in s.jobs && s.payments[id].status == CONFIRMING && Visible(env, s.payments[id])
    requires view.receipt.Some? && !view.receipt.value.reverted
    requires view.currentBlock - view.receipt.value.blockNumber + 1 >= s.jobs[id].target == s.payments[id].required
    requires var p := s.payments[id];
      Code(p.tenantId, ASSET, p.chain) in s.books.accounts || !WalletTaken(s.books.accounts, p.walletId)
    requires fault.NoFault? || fault.OuterCommitFails?
    ensures var r := OnPoll(env, s, id, view, fault);
      && r.end == (if fault.NoFault? then Settled else Threw(true))
      && Code(s.payments[id].tenantId, ASSET, s.payments[id].chain) in r.state.books.accounts
  {
    SettlesExactlyWhen(s, id);
  }

  // The ledger commits on its own. When the commit around it is lost, the retried poll settles again, and the payment
  // is in the journal twice.
  lemma LostCommitBooksTwice()
    ensures var h := Run(SHOP, [ORDER, DEPOSIT, PollStep(0, SEEN, OuterCommitFails), PollStep(0, SEEN, NoFault)]);
      && |h.s.payments| == 1 && h.s.payments[0].status == COMPLETED
      && EntriesOf(h.s.books.journal, 0) == SettlementOf(h.s.payments[0], 0) + SettlementOf(h.s.payments[0], 0)
  {
    var twice := [ORDER, DEPOSIT, PollStep(0, SEEN, OuterCommitFails), PollStep(0, SEEN, NoFault)];
    RetrySettles();
    hide Run, SettlementOf, EntriesOf;
    var h := Run(SHOP, twice);
    JournalOfPayment(SHOP, twice, 0);
    OneMoreTime(SettlementOf(h.s.payments[0], 0), 1);
    OneMoreTime(SettlementOf(h.s.payments[0], 0), 0);
  }

  lemma RetrySettles()
    ensures var h := Run(SHOP, [ORDER, DEPOSIT, PollStep(0, SEEN, OuterCommitFails), PollStep(0, SEEN, NoFault)]);
      |h.s.payments| == 1 && h.s.payments[0].status == COMPLETED && h.orphans == [1]
  {
    var once := [ORDER, DEPOSIT, PollStep(0, SEEN, OuterCommitFails)];
    var twice := [ORDER, DEPOSIT, PollStep(0, SEEN, OuterCommitFails), PollStep(0, SEEN, NoFault)];
    SettlesFor(OuterCommitFails);
    LastCall(SHOP, once, PollStep(0, SEEN, NoFault));
    assert once + [PollStep(0, SEEN, NoFault)] == twice;
    hide OnPoll, Run;
    var s := Run(SHOP, once).s;
    ThresholdPoll(SHOP, s, 0, SEEN, NoFault);
    PollEffect(SHOP, s, 0, SEEN, NoFault);
  }

  lemma Refunded()
    ensures var h := Run(SHOP, [ORDER, DEPOSIT, PollStep(0, SEEN, NoFault), Refund(0, "t")]);
      && |h.s.payments| == 1 && h.s.payments[0].status == REFUNDED && h.s.payments[0].tenantId == "t"
      && Whole(h.s, 0)
  {
    var settled := [ORDER, DEPOSIT, PollStep(0, SEEN, NoFault)];
    var refunded := [ORDER, DEPOSIT, PollStep(0, SEEN, NoFault), Refund(0, "t")];
    SettlesFor(NoFault);
    assert refunded[..3] == settled;
    ListedPairs(COMPLETED, REFUNDED);
    RunKeepsTrails(SHOP, settled);
    WholeIsLong(SHOP, settled, 0);
    EventsSoFar(Run(SHOP, settled).s.payments[0], 0, EventsOf(Run(SHOP, settled).s.events, 0));
    assert Whole(Run(SHOP, settled).s, 0);
    CallKeepsTrailWhole(SHOP, settled, Refund(0, "t"), 0);
  }

  // A deposit in block 0: whatever the chain's height is by then, any number of polls without a receipt reschedule
  // themselves and never give the payment up.
  lemma BlockZeroIsPolledForEver(blocks: seq<nat>)
    ensures var s := Run(Shop(Replaces, 0), [ORDER, DEPOSIT] + UnseenPolls(0, blocks)).s;
      |s.payments| == 1 && s.payments[0].status == CONFIRMING && 0 in s.jobs
      && forall b :: OnPoll(Shop(Replaces, 0), s, 0, View(None, b), NoFault).end == Rechecked
  {
    Deposited(Replaces, 0);
    UnseenIsRun(Shop(Replaces, 0), [ORDER, DEPOSIT], 0, blocks);
    BlockZeroNeverGivesUp(Shop(Replaces, 0), Run(Shop(Replaces, 0), [ORDER, DEPOSIT]).s, 0, blocks);
    hide Run, OnPoll, PollUnseen;
  }

  const EARLY := View(Some(Receipt(false, 5)), 5)

  // If the queue drops the id of an active job, the first poll that comes too early is the last: whatever runs
  // afterwards, the payment stays CONFIRMING and is not polled again.
  lemma DroppedPollIsTheLast(labels: seq<Label>)
    ensures var env := Shop(Drops, 5);
      var before := [ORDER, DEPOSIT, PollStep(0, EARLY, NoFault)];
      0 < |Run(env, before + labels).s.payments| && Run(env, before + labels).s.payments[0].status == CONFIRMING
      && Polls(env, before, labels, 0) == []
  {
    var env := Shop(Drops, 5);
    var poll := PollStep(0, EARLY, NoFault);
    Deposited(Drops, 5);
    LastCall(env, [ORDER, DEPOSIT], poll);
    assert [ORDER, DEPOSIT] + [poll] == [ORDER, DEPOSIT, poll];
    RunKeepsJobs(env, [ORDER, DEPOSIT]);
    hide Run, OnPoll, PaymentsOk, JobsOk;
    StopsExactly(env, Run(env, [ORDER, DEPOSIT]).s, poll, 0);
    StoppedForEver(env, [ORDER, DEPOSIT, poll], labels, 0);
  }

  // A second refund is accepted, and logs COMPLETED -> REFUNDED for a payment that is REFUNDED.
  lemma SecondRefundBreaksTrail()
    ensures var s := Run(SHOP, [ORDER, DEPOSIT, PollStep(0, SEEN, NoFault), Refund(0, "t"), Refund(0, "t")]).s;
      |s.payments| == 1 && s.payments[0].status == REFUNDED && !Whole(s, 0)
  {
    var once := [ORDER, DEPOSIT, PollStep(0, SEEN, NoFault), Refund(0, "t")];
    var twice := [ORDER, DEPOSIT, PollStep(0, SEEN, NoFault), Refund(0, "t"), Refund(0, "t")];
    Refunded();
    assert twice[..4] == once;
    CallKeepsTrailWhole(SHOP, once, Refund(0, "t"), 0);
  }

  // An underpayment fails the payment without an event.
  lemma UnderpaymentLeavesNoEvent()
    ensures var s := Run(SHOP, [Create("t", "k", 2000, POLYGON, "w", None, 0), DEPOSIT]).s;
      |s.payments| == 1 && s.payments[0].status == FAILED && EventsOf(s.events, 0) == [] && !Whole(s, 0)
  {
    var order := [Create("t", "k", 2000, POLYGON, "w", None, 0)];
    var run := [Create("t", "k", 2000, POLYGON, "w", None, 0), DEPOSIT];
    Ordered(Replaces, 5, 2000);
    DepositMatches(2000);
    assert run[..1] == order;
  }

  // A settlement that meets no fault succeeds exactly when the ASSET account of the payment's tenant and chain exists
  // or its wallet has no account yet: a wallet whose account is on another chain can never settle the payment.
  lemma SettlesExactlyWhen(s: State, id: nat)
    requires id < |s.payments|
    ensures var p := s.payments[id];
      SettlePayment(s, id, NoFault).1.Settled?
      <==> Code(p.tenantId, ASSET, p.chain) in s.books.accounts || !WalletTaken(s.books.accounts, p.walletId)
  {
  }
}
