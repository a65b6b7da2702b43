/**
 Confirmation polling over any run: which payments still have a poll to come, and how many
 polls a payment can have in all, whatever else runs in between and whichever polls throw.
 */
module PaymentPolling {
  import opened Wrappers
  import opened PaymentStateMachine
  import opened Ledger
  import opened PaymentRail
  import opened PaymentInvariants
  import opened PaymentAudit

  // ---------------------------------------------------------------- one poll and its job

  // What a poll does to the job it runs, by the way it ends.
  ghost predicate PollJob(env: Env, s: State, id: nat, after: State, end: PollEnd)
    requires id in s.jobs
  {
    var job := s.jobs[id];
    && (forall k :: k != id ==> (k in after.jobs <==> k in s.jobs) && (k in s.jobs ==> after.jobs[k] == s.jobs[k]))
    && (forall k :: k != id ==> (k in after.failedJobs <==> k in s.failedJobs))
    && (match end
        case NotConfirming | TxWasLost | TxReverted | Ignored => id !in after.jobs
        case Rechecked =>
          if env.queue.Drops? then id !in after.jobs else id in after.jobs && after.jobs[id] == job.(attempts := 0)
        case Settled => id in after.jobs ==> after.jobs[id] == job.(attempts := 0)
        case Threw(_) | FailedSilently(_) =>
          if job.attempts + 1 < ATTEMPTS then id in after.jobs && after.jobs[id] == job.(attempts := job.attempts + 1)
          else id !in after.jobs && id in after.failedJobs)
  }

  lemma UpdateLeavesJobs(env: Env, s: State, id: nat, confirmations: int, fault: Fault)
    requires id < |s.payments|
    ensures var after := HandleConfirmationUpdate(env, s, id, confirmations, fault).0;
      after.jobs == s.jobs && after.failedJobs == s.failedJobs
  {
  }

  lemma ReceiptJob(env: Env, s: State, id: nat, confirmations: int, fault: Fault)
    requires id < |s.payments| && id in s.jobs
    ensures var r := PollReceipt(env, s, id, s.jobs[id], confirmations, fault);
      && PollJob(env, s, id, r.state, r.end)
      && !r.end.NotConfirming?
      && (confirmations >= s.jobs[id].target ==> !r.end.Rechecked?)
      && (confirmations < s.jobs[id].target ==> !r.end.Ignored?)
      && (r.end.Ignored? ==>
            !Visible(env, s.payments[id]) || s.payments[id].status != CONFIRMING
            || confirmations < s.payments[id].required)
  {
    hide HandleConfirmationUpdate, Retry, WithoutJob, Recheck, PollJob;
    var job := s.jobs[id];
    var status := if confirmations >= job.target then CONFIRMED else SUBMITTED;
    var updated := UpdateTx(s, job.txHash, status, Some(confirmations));
    UpdateLeavesJobs(env, updated, id, confirmations, fault);
    UpdateIgnores(env, updated, id, confirmations, fault);
    JobEnds(env, s, id, HandleConfirmationUpdate(env, updated, id, confirmations, fault).0);
  }

  // What each end of a poll does to the queue.
  lemma JobEnds(env: Env, s: State, id: nat, after: State)
    requires id in s.jobs && after.jobs == s.jobs && after.failedJobs == s.failedJobs
    ensures forall orphaned :: PollJob(env, s, id, Retry(after, id, s.jobs[id]), Threw(orphaned))
    ensures forall reason :: PollJob(env, s, id, Retry(after, id, s.jobs[id]), FailedSilently(reason))
    ensures PollJob(env, s, id, WithoutJob(after, id), TxWasLost)
    ensures PollJob(env, s, id, WithoutJob(after, id), TxReverted)
    ensures PollJob(env, s, id, WithoutJob(after, id), Ignored) && PollJob(env, s, id, WithoutJob(after, id), Settled)
    ensures PollJob(env, s, id, Recheck(env, after, id, s.jobs[id]), Rechecked)
    ensures PollJob(env, s, id, Recheck(env, after, id, s.jobs[id]), Settled)
  {
  }

  lemma UpdateIgnores(env: Env, s: State, id: nat, confirmations: int, fault: Fault)
    requires id < |s.payments|
    ensures var end := HandleConfirmationUpdate(env, s, id, confirmations, fault).1;
      && (end.Ignored? || end.Settled? || end.Threw?)
      && (end.Ignored? ==>
            !Visible(env, s.payments[id]) || s.payments[id].status != CONFIRMING
            || confirmations < s.payments[id].required)
  {
  }

  // A poll that neither throws nor ends the chain waited for a reason.
  lemma PollWaits(env: Env, s: State, id: nat, view: View, fault: Fault)
    requires id < |s.payments| && id in s.jobs
    ensures var r := OnPoll(env, s, id, view, fault);
      && PollJob(env, s, id, r.state, r.end)
      && (r.end.Rechecked? ==>
            if view.receipt.None? then !LongGone(s.payments[id], view.currentBlock)
            else view.currentBlock - view.receipt.value.blockNumber + 1 < s.jobs[id].target)
      && (r.end.Settled? && id in r.state.jobs ==>
            view.receipt.Some? && view.currentBlock - view.receipt.value.blockNumber + 1 < s.jobs[id].target)
  {
    hide PollReceipt, GiveUp;
    GiveUpJob(env, s, id, if view.receipt.Some? then Reverted else Dropped, fault);
    if view.receipt.Some? {
      var confirmations := view.currentBlock - view.receipt.value.blockNumber + 1;
      ReceiptJob(env, s, id, confirmations, fault);
      ReceiptSettles(env, s, id, s.jobs[id], confirmations, fault);
    }
  }

  lemma ReceiptSettles(env: Env, s: State, id: nat, job: ConfirmJob, confirmations: int, fault: Fault)
    requires id < |s.payments|
    ensures var r := PollReceipt(env, s, id, job, confirmations, fault);
      r.end.Settled? && id in r.state.jobs ==> confirmations < job.target
  {
  }

  lemma GiveUpJob(env: Env, s: State, id: nat, reason: FailureReason, fault: Fault)
    requires id < |s.payments| && id in s.jobs && !reason.Underpayment?
    ensures var r := GiveUp(s, id, s.jobs[id], reason, fault);
      && PollJob(env, s, id, r.state, r.end)
      && !r.end.Rechecked? && !r.end.Settled? && !r.end.Ignored? && !r.end.NotConfirming?
  {
    hide Retry, WithoutJob, PollJob, UpdateTx;
    FailLeavesJobs(s, id, s.jobs[id].txHash, reason, fault);
    JobEnds(env, s, id, FailPayment(s, id, s.jobs[id].txHash, reason, fault));
  }

  lemma FailLeavesJobs(s: State, id: nat, txHash: string, reason: FailureReason, fault: Fault)
    requires id < |s.payments|
    ensures var after := FailPayment(s, id, txHash, reason, fault);
      after.jobs == s.jobs && after.failedJobs == s.failedJobs
  {
  }

  // Any other step leaves the job alone, and gives no job to a payment that has one behind it.
  lemma OthersLeaveJob(env: Env, s: State, l: Label, id: nat)
    requires Enabled(env, s, l) && !(l.PollStep? && l.id == id)
    ensures id < |s.payments| && s.payments[id].status != PENDING ==>
      var after := Step(env, s, l);
      (id in after.jobs <==> id in s.jobs) && (id in s.jobs ==> after.jobs[id] == s.jobs[id])
  {
    hide OnPoll;
    match l
    case PollStep(k, view, fault) => PollWaits(env, s, k, view, fault);
    case Sweep(_, batch, crash) => ExpireAllEffect(s, batch, crash);
    case _ =>
  }

  // ---------------------------------------------------------------- how long a chain of polls can be

  // What the polls of a payment saw during the steps that follow a run.
  function Polls(env: Env, before: seq<Label>, labels: seq<Label>, id: nat): seq<View> {
    if labels == [] then []
    else
      var n := |labels| - 1;
      var l := labels[n];
      Polls(env, before, labels[..n], id)
      + if l.PollStep? && l.id == id && Enabled(env, Run(env, before + labels[..n]).s, l) then [l.view] else []
  }

  // The chain grows by at least one block between polls, starting no lower than the block of the transfer, and a
  // receipt once seen stays.
  ghost predicate Growing(views: seq<View>, from: nat) {
    && (forall i :: 0 <= i < |views| ==> views[i].currentBlock >= from + i)
    && (forall i, j :: 0 <= i < j < |views| ==> views[j].currentBlock >= views[i].currentBlock + (j - i))
    && (forall i, j :: 0 <= i < j < |views| && views[i].receipt.Some? ==> views[j].receipt == views[i].receipt)
    && (forall i :: 0 <= i < |views| && views[i].receipt.Some? ==>
          views[i].receipt.value.blockNumber <= views[i].currentBlock)
  }

  predicate Unseen(views: seq<View>) {
    forall i :: 0 <= i < |views| ==> views[i].receipt.None?
  }

  function AtLeastOne(n: int): nat {
    if n < 1 then 1 else n
  }

  const UNSEEN_POLLS := MAX_WAIT_BLOCKS + 1

  // Where a chain of polls can be: its job counts the polls that threw since the last that did not, and without
  // throwing it could not have come this far.
  ghost predicate ChainAt(job: ConfirmJob, views: seq<View>, target: int) {
    && job.target == target && job.attempts < ATTEMPTS
    && (Unseen(views) ==> |views| <= UNSEEN_POLLS + job.attempts)
    && (!Unseen(views) ==> exists f: nat :: SeenAt(f, job, views, target))
  }

  // The first receipt was seen at poll f, and since then the count of blocks has been closing in on the target.
  ghost predicate SeenAt(f: nat, job: ConfirmJob, views: seq<View>, target: int) {
    && f < |views| && views[f].receipt.Some?
    && f <= UNSEEN_POLLS + ATTEMPTS - 1 && |views| <= f + AtLeastOne(target) - 1 + job.attempts
  }

  const LAST_ATTEMPTS := 2 * (ATTEMPTS - 1)

  // The most polls a payment can have: 319 plus its target.
  function PollBound(target: int): nat {
    UNSEEN_POLLS + LAST_ATTEMPTS + AtLeastOne(target)
  }

  ghost predicate ChainOk(s: State, id: nat, from: nat, views: seq<View>, target: int) {
    && id < |s.payments|
    && s.payments[id].status != PENDING
    && s.payments[id].blockNumber == Some(from)
    && |views| <= PollBound(target)
    && (id in s.jobs ==> ChainAt(s.jobs[id], views, target))
  }

  lemma ChainIsBounded(job: ConfirmJob, views: seq<View>, target: int)
    requires ChainAt(job, views, target)
    ensures |views| < PollBound(target)
  {
  }

  lemma UnseenPoll(views: seq<View>, view: View, from: nat, job: ConfirmJob, target: int)
    requires Growing(views + [view], from) && ChainAt(job, views, target)
    requires view.receipt.None? && view.currentBlock - from <= MAX_WAIT_BLOCKS
    ensures ChainAt(job.(attempts := 0), views + [view], target)
  {
    var all := views + [view];
    assert all[|views|] == view;
    forall i | 0 <= i < |views|
      ensures views[i].receipt.None?
    {
      assert all[i] == views[i];
    }
    assert Unseen(all);
  }

  lemma SeenPoll(views: seq<View>, view: View, from: nat, job: ConfirmJob, target: int)
    requires Growing(views + [view], from) && ChainAt(job, views, target)
    requires view.receipt.Some? && view.currentBlock - view.receipt.value.blockNumber + 1 < target
    ensures ChainAt(job.(attempts := 0), views + [view], target)
  {
    var all := views + [view];
    var n := |views|;
    assert all[n] == view && !Unseen(all);
    if Unseen(views) {
      assert SeenAt(n, job.(attempts := 0), all, target);
    } else {
      var f: nat :| SeenAt(f, job, views, target);
      assert all[f] == views[f];
      assert all[n].receipt == all[f].receipt;
      assert SeenAt(f, job.(attempts := 0), all, target);
    }
  }

  lemma ThrownPoll(views: seq<View>, view: View, job: ConfirmJob, target: int)
    requires ChainAt(job, views, target) && job.attempts + 1 < ATTEMPTS
    ensures ChainAt(job.(attempts := job.attempts + 1), views + [view], target)
  {
    var all := views + [view];
    var n := |views|;
    assert all[n] == view;
    if Unseen(views) {
      if view.receipt.Some? {
        assert SeenAt(n, job.(attempts := job.attempts + 1), all, target);
      } else {
        assert Unseen(all);
      }
    } else {
      var f: nat :| SeenAt(f, job, views, target);
      assert all[f] == views[f];
      assert SeenAt(f, job.(attempts := job.attempts + 1), all, target);
    }
  }

  lemma PollKeepsChain(env: Env, s: State, id: nat, view: View, fault: Fault, from: nat, views: seq<View>, target: int)
    requires ChainOk(s, id, from, views, target) && id in s.jobs && from != 0 && Growing(views + [view], from)
    ensures ChainOk(OnPoll(env, s, id, view, fault).state, id, from, views + [view], target)
  {
    hide OnPoll, ChainAt, Growing;
    var r := OnPoll(env, s, id, view, fault);
    PollEffect(env, s, id, view, fault);
    PollWaits(env, s, id, view, fault);
    ChainIsBounded(s.jobs[id], views, target);
    if id in r.state.jobs {
      if r.end.Threw? || r.end.FailedSilently? {
        ThrownPoll(views, view, s.jobs[id], target);
      } else {
        SameTarget(s.jobs[id], views, target);
        if view.receipt.None? {
          UnseenPoll(views, view, from, s.jobs[id], target);
        } else {
          SeenPoll(views, view, from, s.jobs[id], target);
        }
      }
    }
  }

  lemma SameTarget(job: ConfirmJob, views: seq<View>, target: int)
    requires ChainAt(job, views, target)
    ensures job.target == target
  {
  }

  lemma OthersKeepChain(env: Env, s: State, l: Label, id: nat, from: nat, views: seq<View>, target: int)
    requires PaymentsOk(env, s.payments) && ChainOk(s, id, from, views, target) && s.payments[id].txHash.Some?
    requires Enabled(env, s, l) && !(l.PollStep? && l.id == id)
    ensures ChainOk(Step(env, s, l), id, from, views, target)
  {
    hide Step, ChainAt;
    OthersLeaveJob(env, s, l, id);
    RowsMove(env, s, l);
    ListedPairs(s.payments[id].status, Step(env, s, l).payments[id].status);
  }

  lemma GrowingPrefix(views: seq<View>, more: seq<View>, from: nat)
    requires Growing(views + more, from)
    ensures Growing(views, from)
  {
    forall i | 0 <= i < |views|
      ensures (views + more)[i] == views[i]
    {
    }
  }

  lemma RunOn(env: Env, before: seq<Label>, labels: seq<Label>)
    requires labels != []
    ensures var n := |labels| - 1; var h := Run(env, before + labels[..n]);
      Run(env, before + labels).s == if Enabled(env, h.s, labels[n]) then Step(env, h.s, labels[n]) else h.s
  {
    hide Step, Enabled;
    var n := |labels| - 1;
    assert (before + labels)[..|before| + n] == before + labels[..n];
  }

  lemma {:induction false} PollsKeepChain(env: Env, before: seq<Label>, labels: seq<Label>, id: nat, from: nat,
        target: int)
    requires ChainOk(Run(env, before).s, id, from, [], target) && Run(env, before).s.payments[id].txHash.Some?
    requires from != 0 && Growing(Polls(env, before, labels, id), from)
    ensures var s := Run(env, before + labels).s;
      ChainOk(s, id, from, Polls(env, before, labels, id), target) && s.payments[id].txHash.Some?
  {
    hide Step, Growing, PaymentsOk, ChainAt;
    if labels == [] {
      assert before + labels == before;
    } else {
      var n := |labels| - 1;
      var s := Run(env, before + labels[..n]).s;
      var seen := Polls(env, before, labels[..n], id);
      RunOn(env, before, labels);
      hide Run;
      var more :=
        if labels[n].PollStep? && labels[n].id == id && Enabled(env, s, labels[n]) then [labels[n].view] else [];
      assert Polls(env, before, labels, id) == seen + more;
      assert seen + [] == seen;
      GrowingPrefix(seen, more, from);
      PollsKeepChain(env, before, labels[..n], id, from, target);
      RunKeepsTrails(env, before + labels[..n]);
      ChainStep(env, s, labels[n], id, from, seen, target);
    }
  }

  lemma ChainStep(env: Env, s: State, l: Label, id: nat, from: nat, seen: seq<View>, target: int)
    requires PaymentsOk(env, s.payments) && ChainOk(s, id, from, seen, target)
    requires s.payments[id].txHash.Some? && from != 0
    requires Growing(seen + if l.PollStep? && l.id == id && Enabled(env, s, l) then [l.view] else [], from)
    ensures var after := if Enabled(env, s, l) then Step(env, s, l) else s;
      && ChainOk(after, id, from,
                 seen + if l.PollStep? && l.id == id && Enabled(env, s, l) then [l.view] else [], target)
      && after.payments[id].txHash.Some?
  {
    hide Step, ChainOk, Growing, PaymentsOk;
    assert seen + [] == seen;
    ChainLength(s, id, from, seen, target);
    if Enabled(env, s, l) {
      RowsMove(env, s, l);
      if l.PollStep? && l.id == id {
        PollStepKeepsChain(env, s, l, id, from, seen, target);
      } else {
        OthersKeepChain(env, s, l, id, from, seen, target);
      }
    }
  }

  lemma ChainLength(s: State, id: nat, from: nat, views: seq<View>, target: int)
    requires ChainOk(s, id, from, views, target)
    ensures id < |s.payments| && |views| <= PollBound(target)
  {
  }

  lemma PollStepKeepsChain(env: Env, s: State, l: Label, id: nat, from: nat, views: seq<View>, target: int)
    requires l.PollStep? && l.id == id && Enabled(env, s, l)
    requires ChainOk(s, id, from, views, target) && from != 0 && Growing(views + [l.view], from)
    ensures ChainOk(Step(env, s, l), id, from, views + [l.view], target)
  {
    hide OnPoll, Growing, ChainOk;
    PollKeepsChain(env, s, id, l.view, l.fault, from, views, target);
  }

  // ---------------------------------------------------------------- main results

  // However the run goes on and whichever polls throw, a CONFIRMING payment whose job has just been queued has at
  // most 319 + target further polls.
  lemma PollingTerminates(env: Env, before: seq<Label>, labels: seq<Label>, id: nat)
    requires var s := Run(env, before).s;
      && id < |s.payments| && s.payments[id].status == CONFIRMING && id in s.jobs && s.jobs[id].attempts == 0
      && s.payments[id].blockNumber != Some(0)
    requires var s := Run(env, before).s;
      s.payments[id].blockNumber.Some? ==> Growing(Polls(env, before, labels, id), s.payments[id].blockNumber.value)
    ensures var target := Run(env, before).s.jobs[id].target;
      |Polls(env, before, labels, id)| <= 319 + if target < 1 then 1 else target
  {
    var s := Run(env, before).s;
    RunKeepsTrails(env, before);
    var k :| 0 <= k < |env.transfers| && PaysFor(env.transfers[k], s.payments[id]);
    var from := s.payments[id].blockNumber.value;
    PollsKeepChain(env, before, labels, id, from, s.jobs[id].target);
  }

  // Block 0 counts as unknown: such a payment is polled for ever while its receipt is missing.
  lemma {:induction false} BlockZeroNeverGivesUp(env: Env, s: State, id: nat, blocks: seq<nat>)
    requires env.queue.Replaces?
    requires id < |s.payments| && id in s.jobs && s.payments[id].status == CONFIRMING
      && s.payments[id].blockNumber == Some(0)
    ensures var after := PollUnseen(env, s, id, blocks);
      && after.payments == s.payments && id in after.jobs
      && forall b :: OnPoll(env, after, id, View(None, b), NoFault).end == Rechecked
  {
    if blocks != [] {
      BlockZeroNeverGivesUp(env, s, id, blocks[..|blocks| - 1]);
    }
  }

  function PollUnseen(env: Env, s: State, id: nat, blocks: seq<nat>): (after: State)
    ensures |after.payments| == |s.payments|
  {
    if blocks == [] then s
    else
      var before := PollUnseen(env, s, id, blocks[..|blocks| - 1]);
      if id < |before.payments| && id in before.jobs
      then OnPoll(env, before, id, View(None, blocks[|blocks| - 1]), NoFault).state
      else before
  }

  function UnseenPolls(id: nat, blocks: seq<nat>): seq<Label> {
    if blocks == [] then []
    else UnseenPolls(id, blocks[..|blocks| - 1]) + [PollStep(id, View(None, blocks[|blocks| - 1]), NoFault)]
  }

  lemma {:induction false} UnseenIsRun(env: Env, before: seq<Label>, id: nat, blocks: seq<nat>)
    ensures Run(env, before + UnseenPolls(id, blocks)).s == PollUnseen(env, Run(env, before).s, id, blocks)
  {
    hide OnPoll;
    if blocks == [] {
      assert before + UnseenPolls(id, blocks) == before;
    } else {
      UnseenIsRun(env, before, id, blocks[..|blocks| - 1]);
      RunOn(env, before, UnseenPolls(id, blocks));
      assert UnseenPolls(id, blocks)[..|UnseenPolls(id, blocks)| - 1] == UnseenPolls(id, blocks[..|blocks| - 1]);
    }
  }

  lemma {:induction false} UnseenAreSeen(env: Env, before: seq<Label>, id: nat, blocks: seq<nat>)
    requires env.queue.Replaces?
    requires var s := Run(env, before).s;
      && id < |s.payments| && id in s.jobs && s.payments[id].status == CONFIRMING
      && s.payments[id].blockNumber == Some(0)
    ensures var views := Polls(env, before, UnseenPolls(id, blocks), id);
      |views| == |blocks| && forall i :: 0 <= i < |views| ==> views[i] == View(None, blocks[i])
  {
    hide Run, OnPoll, PollUnseen, Polls;
    if blocks == [] {
      NothingSeen(env, before, id);
    } else {
      var n := |blocks| - 1;
      UnseenAreSeen(env, before, id, blocks[..n]);
      UnseenIsRun(env, before, id, blocks[..n]);
      BlockZeroNeverGivesUp(env, Run(env, before).s, id, blocks[..n]);
      OnePollMore(env, before, UnseenPolls(id, blocks[..n]), id, View(None, blocks[n]));
    }
  }

  lemma NothingSeen(env: Env, before: seq<Label>, id: nat)
    ensures Polls(env, before, [], id) == []
  {
  }

  lemma OnePollMore(env: Env, before: seq<Label>, labels: seq<Label>, id: nat, view: View)
    requires var s := Run(env, before + labels).s; id < |s.payments| && id in s.jobs
    ensures Polls(env, before, labels + [PollStep(id, view, NoFault)], id) == Polls(env, before, labels, id) + [view]
  {
    hide Run;
    assert (labels + [PollStep(id, view, NoFault)])[..|labels|] == labels;
  }

  // What the polls see is a chain that grows from the block of the transfer.
  ghost predicate SeesGrowth(env: Env, before: seq<Label>, labels: seq<Label>, id: nat, blockNumber: Option<nat>) {
    blockNumber.Some? ==> Growing(Polls(env, before, labels, id), blockNumber.value)
  }

  ghost predicate PollsBounded(env: Env, before: seq<Label>, id: nat, blockNumber: Option<nat>, bound: nat) {
    forall labels :: SeesGrowth(env, before, labels, id, blockNumber) ==> |Polls(env, before, labels, id)| <= bound
  }

  // On a queue that takes the next poll: the polls of a payment are bounded over all continuations if and only if the
  // payment was not detected in block 0.
  lemma PollingBoundedExactly(env: Env, before: seq<Label>, id: nat)
    requires env.queue.Replaces?
    requires var s := Run(env, before).s;
      id < |s.payments| && s.payments[id].status == CONFIRMING && id in s.jobs && s.jobs[id].attempts == 0
    ensures var p := Run(env, before).s.payments[id];
      (exists bound: nat :: PollsBounded(env, before, id, p.blockNumber, bound)) <==> p.blockNumber != Some(0)
  {
    var s := Run(env, before).s;
    var p := s.payments[id];
    hide Run, Polls;
    if p.blockNumber != Some(0) {
      forall labels | SeesGrowth(env, before, labels, id, p.blockNumber)
        ensures |Polls(env, before, labels, id)| <= PollBound(s.jobs[id].target)
      {
        PollingTerminates(env, before, labels, id);
      }
      assert PollsBounded(env, before, id, p.blockNumber, PollBound(s.jobs[id].target));
    } else {
      forall bound: nat ensures !PollsBounded(env, before, id, p.blockNumber, bound) {
        var blocks: seq<nat> := seq(bound + 1, i => i);
        UnseenAreSeen(env, before, id, blocks);
        assert SeesGrowth(env, before, UnseenPolls(id, blocks), id, p.blockNumber);
      }
    }
  }

  // ---------------------------------------------------------------- nobody is forgotten

  // A CONFIRMING payment has a poll to come.
  predicate Polled(s: State, id: nat)
    requires id < |s.payments|
  {
    s.payments[id].status == CONFIRMING ==> id in s.jobs
  }

  // A payment the lookup sees has no job before it is detected.
  ghost predicate JobsOk(env: Env, s: State) {
    forall id :: id in s.jobs ==>
      && id < |s.payments| && s.jobs[id].target == s.payments[id].required && s.jobs[id].attempts < ATTEMPTS
      && (Visible(env, s.payments[id]) ==> s.payments[id].status != PENDING)
  }

  function Confirmations(view: View): int
    requires view.receipt.Some?
  {
    view.currentBlock - view.receipt.value.blockNumber + 1
  }

  // The transfer is accepted for the payment, and the queue is lost before the first poll is in it.
  predicate LosesFirstPoll(env: Env, s: State, l: Label, id: nat)
    requires id < |s.payments|
  {
    && l.Detect? && l.transfer < |env.transfers| && l.found == Some(id) && l.stop.BeforeQueue?
    && var t := env.transfers[l.transfer];
       && t.amountRaw + 1 >= s.payments[id].amount
       && Visible(env, s.payments[id]) && !TxHashTaken(s.payments, t.txHash)
  }

  // A poll of a CONFIRMING payment throws before it has written a status.
  predicate ThrowsUnwritten(s: State, p: Payment, view: View, fault: Fault) {
    || fault.RpcThrows?
    || if view.receipt.None? then LongGone(p, view.currentBlock) && fault.StatusFails?
       else if view.receipt.value.reverted || Confirmations(view) < p.required then fault.StatusFails?
       else
         || fault.StatusFails? || fault.LedgerThrows? || fault.OuterCommitFails?
         || (Code(p.tenantId, ASSET, p.chain) !in s.books.accounts && WalletTaken(s.books.accounts, p.walletId))
  }

  // A poll of a CONFIRMING payment finds that it is too early, and adds the next.
  predicate AddsNext(p: Payment, view: View, fault: Fault) {
    && !fault.RpcThrows?
    && if view.receipt.None? then !LongGone(p, view.currentBlock)
       else !view.receipt.value.reverted && Confirmations(view) < p.required && !fault.StatusFails?
  }

  // The calls that leave a payment CONFIRMING with no poll to come: an accepted transfer whose first poll is not
  // queued, the last attempt of a poll that throws, and, if the queue drops the id of an active job, any poll that
  // adds the next one.
  predicate StopsPolling(env: Env, s: State, l: Label, id: nat)
    requires id < |s.payments|
  {
    || LosesFirstPoll(env, s, l, id)
    || (l.PollStep? && l.id == id && id in s.jobs && s.payments[id].status == CONFIRMING
        && ((s.jobs[id].attempts + 1 >= 10 && ThrowsUnwritten(s, s.payments[id], l.view, l.fault))
            || (env.queue.Drops? && AddsNext(s.payments[id], l.view, l.fault))))
  }

  lemma NeverIgnored(env: Env, s: State, id: nat, view: View, fault: Fault)
    requires PaymentsOk(env, s.payments) && id < |s.payments| && id in s.jobs
      && s.jobs[id].target == s.payments[id].required
    ensures !OnPoll(env, s, id, view, fault).end.Ignored?
    ensures OnPoll(env, s, id, view, fault).end.NotConfirming? ==> s.payments[id].status != CONFIRMING
  {
    hide PollReceipt;
    if s.payments[id].status == CONFIRMING && view.receipt.Some? {
      ReceiptJob(env, s, id, view.currentBlock - view.receipt.value.blockNumber + 1, fault);
    }
  }

  lemma TransferJobs(env: Env, s: State, t: Transfer, id: nat, stop: Stop)
    requires id < |s.payments| && s.payments[id].status == PENDING
    ensures var after := OnTransfer(env, s, t, Some(id), stop);
      && (after.jobs == s.jobs || after.jobs == s.jobs[id := ConfirmJob(t.txHash, s.payments[id].required, 0)])
      && (after.payments[id].status == CONFIRMING && !stop.BeforeQueue? ==> id in after.jobs)
      && (after.payments[id].status == CONFIRMING && stop.BeforeQueue? ==> after.jobs == s.jobs)
      && (after.payments[id].status == FAILED ==> after.jobs == s.jobs)
      && (after.payments[id].status == PENDING && Visible(env, s.payments[id]) ==> after.jobs == s.jobs)
  {
  }

  lemma NoMatchNoChange(env: Env, s: State, t: Transfer, stop: Stop)
    ensures OnTransfer(env, s, t, None, stop) == s
  {
  }

  // ---------------------------------------------------------------- every step keeps the jobs

  lemma PollKeepsJobs(env: Env, s: State, id: nat, view: View, fault: Fault)
    requires JobsOk(env, s) && id < |s.payments| && id in s.jobs
    ensures JobsOk(env, OnPoll(env, s, id, view, fault).state)
  {
    hide OnPoll;
    var after := OnPoll(env, s, id, view, fault).state;
    PollRows(env, s, id, view, fault);
    PollWaits(env, s, id, view, fault);
    forall k | k in after.jobs
      ensures k in s.jobs && after.jobs[k].target == s.jobs[k].target && after.jobs[k].attempts < ATTEMPTS
    {
    }
  }

  // A poll leaves what its job is checked against.
  lemma PollRows(env: Env, s: State, id: nat, view: View, fault: Fault)
    requires id < |s.payments| && id in s.jobs
    ensures var ps := OnPoll(env, s, id, view, fault).state.payments;
      |ps| == |s.payments| && forall k: nat :: k < |ps| ==>
        ps[k].required == s.payments[k].required && ps[k].tenantId == s.payments[k].tenantId
        && (s.payments[k].status != PENDING ==> ps[k].status != PENDING)
  {
    hide OnPoll;
    PollEffect(env, s, id, view, fault);
  }

  lemma TransferKeepsJobs(env: Env, s: State, t: Transfer, found: Option<nat>, stop: Stop)
    requires JobsOk(env, s)
    requires found.Some? ==> found.value < |s.payments| && s.payments[found.value].status == PENDING
    ensures JobsOk(env, OnTransfer(env, s, t, found, stop))
  {
    hide OnTransfer;
    if found.Some? {
      TransferEffect(env, s, t, found.value, stop);
      TransferJobs(env, s, t, found.value, stop);
    } else {
      NoMatchNoChange(env, s, t, stop);
    }
  }

  lemma SweepKeepsJobs(env: Env, s: State, now: int, batch: seq<nat>, crash: Crash)
    requires JobsOk(env, s) && SweepBatch(s.payments, now, batch)
    ensures JobsOk(env, ExpireAll(s, batch, crash))
  {
    hide ExpireAll, EventsOf;
    ExpireAllEffect(s, batch, crash);
  }

  lemma StepKeepsJobs(env: Env, s: State, l: Label)
    requires JobsOk(env, s) && Enabled(env, s, l)
    ensures JobsOk(env, Step(env, s, l))
  {
    hide OnPoll, OnTransfer, ExpireAll, HandleRefund;
    match l
    case PollStep(id, view, fault) =>
      PollKeepsJobs(env, s, id, view, fault);
    case Detect(t, found, stop) =>
      TransferKeepsJobs(env, s, env.transfers[t], found, stop);
    case Sweep(now, batch, crash) =>
      SweepKeepsJobs(env, s, now, batch, crash);
    case Refund(id, caller) => RefundLeavesJobs(s, id, caller);
    case _ =>
  }

  lemma RefundLeavesJobs(s: State, id: nat, caller: string)
    ensures var after := HandleRefund(s, id, caller).0;
      && after.jobs == s.jobs && |after.payments| == |s.payments|
      && forall i: nat :: i < |s.payments| ==>
           after.payments[i] == s.payments[i]
           || (IsSettled(s.payments[i]) && after.payments[i] == s.payments[i].(status := REFUNDED))
  {
    if id < |s.payments| {
      ListedPairs(s.payments[id].status, REFUNDED);
    }
  }

  // ---------------------------------------------------------------- the calls that stop the polling

  lemma GiveUpStops(s: State, id: nat, reason: FailureReason, fault: Fault)
    requires id < |s.payments| && id in s.jobs && s.payments[id].status == CONFIRMING
    ensures Polled(GiveUp(s, id, s.jobs[id], reason, fault).state, id)
       <==> !(s.jobs[id].attempts + 1 >= ATTEMPTS && fault.StatusFails?)
  {
  }

  lemma SettlementStops(s: State, id: nat, fault: Fault)
    requires id < |s.payments| && s.payments[id].status == CONFIRMING
    ensures var p := s.payments[id];
      var (after, end) := SettlePayment(s, id, fault);
      && (after.payments[id].status == CONFIRMING <==> end.Threw?)
      && (end.Threw? <==>
          || fault.StatusFails? || fault.LedgerThrows? || fault.OuterCommitFails?
          || (Code(p.tenantId, ASSET, p.chain) !in s.books.accounts && WalletTaken(s.books.accounts, p.walletId)))
  {
  }

  lemma ReceiptStops(env: Env, s: State, id: nat, confirmations: int, fault: Fault)
    requires id < |s.payments| && id in s.jobs && s.payments[id].status == CONFIRMING && Visible(env, s.payments[id])
    requires s.jobs[id].target == s.payments[id].required
    ensures var p := s.payments[id];
      var last := s.jobs[id].attempts + 1 >= ATTEMPTS;
      Polled(PollReceipt(env, s, id, s.jobs[id], confirmations, fault).state, id)
      <==> !(if confirmations < p.required then (if fault.StatusFails? then last else env.queue.Drops?)
             else
               && last
               && (|| fault.StatusFails? || fault.LedgerThrows? || fault.OuterCommitFails?
                   || (Code(p.tenantId, ASSET, p.chain) !in s.books.accounts
                       && WalletTaken(s.books.accounts, p.walletId))))
  {
    hide SettlePayment;
    var job := s.jobs[id];
    var status := if confirmations >= job.target then CONFIRMED else SUBMITTED;
    var updated := UpdateTx(s, job.txHash, status, Some(confirmations));
    assert updated.payments == s.payments && updated.jobs == s.jobs && updated.books == s.books;
    SettlementStops(updated, id, fault);
    UpdateLeavesJobs(env, updated, id, confirmations, fault);
  }

  lemma PollStops(env: Env, s: State, id: nat, view: View, fault: Fault)
    requires PaymentsOk(env, s.payments) && id < |s.payments| && id in s.jobs
      && s.jobs[id].target == s.payments[id].required
    ensures Polled(OnPoll(env, s, id, view, fault).state, id)
       <==> !StopsPolling(env, s, PollStep(id, view, fault), id)
  {
    hide PollReceipt, GiveUp;
    if s.payments[id].status == CONFIRMING {
      GiveUpStops(s, id, if view.receipt.Some? then Reverted else Dropped, fault);
      if view.receipt.Some? {
        ReceiptStops(env, s, id, Confirmations(view), fault);
      }
    }
  }

  lemma DetectStops(env: Env, s: State, l: Label, id: nat)
    requires JobsOk(env, s) && Enabled(env, s, l) && l.Detect? && l.found == Some(id)
    ensures Polled(Step(env, s, l), id) <==> !StopsPolling(env, s, l, id)
    ensures Polled(s, id)
  {
    hide OnTransfer;
    TransferEffect(env, s, env.transfers[l.transfer], id, l.stop);
    TransferJobs(env, s, env.transfers[l.transfer], id, l.stop);
  }

  // Any other call leaves a payment CONFIRMING, or not CONFIRMING, with the jobs it had.
  lemma OthersLeaveStatus(env: Env, s: State, l: Label, id: nat)
    requires PaymentsOk(env, s.payments) && Enabled(env, s, l) && id < |s.payments|
    requires !(l.PollStep? && l.id == id) && !(l.Detect? && l.found == Some(id))
    ensures id < |Step(env, s, l).payments|
    ensures Step(env, s, l).payments[id].status == CONFIRMING <==> s.payments[id].status == CONFIRMING
  {
    hide OnTransfer, OnPoll, PaymentsOk, ExpireAll, HandleRefund, EventsOf;
    match l
    case Refund(k, caller) => RefundLeavesJobs(s, k, caller);
    case _ => StepTouches(env, s, l);
  }

  // From a state of any run, a call leaves a payment with its next poll exactly when it does not stop its polling;
  // once stopped, it stays so.
  lemma StopsExactly(env: Env, s: State, l: Label, id: nat)
    requires PaymentsOk(env, s.payments) && JobsOk(env, s) && Enabled(env, s, l) && id < |s.payments|
    ensures id < |Step(env, s, l).payments|
    ensures Polled(s, id) ==> (Polled(Step(env, s, l), id) <==> !StopsPolling(env, s, l, id))
    ensures !Polled(s, id) ==> !Polled(Step(env, s, l), id)
  {
    hide OnPoll, OnTransfer, PaymentsOk, ExpireAll, HandleRefund, CreateIntent;
    if l.PollStep? && l.id == id {
      PollStops(env, s, id, l.view, l.fault);
    } else if l.Detect? && l.found == Some(id) {
      DetectStops(env, s, l, id);
    } else {
      hide Step;
      OthersLeaveStatus(env, s, l, id);
      if s.payments[id].status == CONFIRMING {
        OthersLeaveJob(env, s, l, id);
      }
    }
  }

  // ---------------------------------------------------------------- over a run

  lemma {:induction false} RunKeepsJobs(env: Env, labels: seq<Label>)
    ensures PaymentsOk(env, Run(env, labels).s.payments) && JobsOk(env, Run(env, labels).s)
  {
    hide Step, JobsOk, PaymentsOk;
    RunKeepsTrails(env, labels);
    if labels == [] {
      NoJobs(env);
    } else {
      var n := |labels| - 1;
      var s := Run(env, labels[..n]).s;
      RunKeepsJobs(env, labels[..n]);
      if Enabled(env, s, labels[n]) {
        StepKeepsJobs(env, s, labels[n]);
      }
    }
  }

  lemma NoJobs(env: Env)
    ensures JobsOk(env, EMPTY)
  {
  }

  // Some call of the run stops the polling of the payment.
  predicate EverStops(env: Env, labels: seq<Label>, id: nat) {
    labels != []
    && var n := |labels| - 1;
       var s := Run(env, labels[..n]).s;
       || EverStops(env, labels[..n], id)
       || (id < |s.payments| && Enabled(env, s, labels[n]) && StopsPolling(env, s, labels[n], id))
  }

  // After any run a CONFIRMING payment has a poll to come if and only if no call of the run stopped its polling.
  lemma {:induction false} ConfirmingIsPolled(env: Env, labels: seq<Label>, id: nat)
    ensures id < |Run(env, labels).s.payments| ==>
      (Polled(Run(env, labels).s, id) <==> !EverStops(env, labels, id))
    ensures id >= |Run(env, labels).s.payments| ==> !EverStops(env, labels, id)
  {
    hide Step, JobsOk, PaymentsOk, Polled, StopsPolling, Enabled;
    if labels != [] {
      var n := |labels| - 1;
      var s := Run(env, labels[..n]).s;
      ConfirmingIsPolled(env, labels[..n], id);
      RunKeepsJobs(env, labels[..n]);
      if Enabled(env, s, labels[n]) {
        if id < |s.payments| {
          StopsExactly(env, s, labels[n], id);
        } else if id < |Step(env, s, labels[n]).payments| {
          NewIsPolled(env, s, labels[n]);
        }
      }
    }
  }

  lemma NewIsPolled(env: Env, s: State, l: Label)
    requires Enabled(env, s, l) && |Step(env, s, l).payments| > |s.payments|
    ensures Polled(Step(env, s, l), |s.payments|)
  {
  }

  // A payment whose polling has stopped is never polled again: it stays CONFIRMING for ever.
  lemma {:induction false} StoppedForEver(env: Env, before: seq<Label>, labels: seq<Label>, id: nat)
    requires id < |Run(env, before).s.payments| && !Polled(Run(env, before).s, id)
    ensures Polls(env, before, labels, id) == []
    ensures id < |Run(env, before + labels).s.payments| && !Polled(Run(env, before + labels).s, id)
  {
    hide Step, JobsOk, PaymentsOk, StopsPolling;
    if labels == [] {
      assert before + labels == before;
    } else {
      var n := |labels| - 1;
      var s := Run(env, before + labels[..n]).s;
      StoppedForEver(env, before, labels[..n], id);
      RunKeepsJobs(env, before + labels[..n]);
      RunOn(env, before, labels);
      if Enabled(env, s, labels[n]) {
        StopsExactly(env, s, labels[n], id);
      }
    }
  }
}
