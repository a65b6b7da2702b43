/**
 One payment under a finer scheduler: every call of the rail is split at its accesses to the
 payment row, its events, the queue and the ledger, and the pieces of any number of calls
 interleave. A write that follows a stale read is carried out all the same, as the unconditional
 updates of the repository are. The lock that the outer transaction of a settlement holds on the
 row is not modelled, so there are more interleavings here than the database allows.
 */
module PaymentInterleaving {
  import opened Wrappers
  import opened PaymentStateMachine
  import opened PaymentRail
  import opened PaymentAudit

  // The queue's memory of the job id "confirm:<paymentId>".
  datatype QueueJob = NoJob | Waiting | Active | Finished

  // A call in flight, by what it will do next.
  datatype Task =
    | ReadAgain | WriteConfirming | Enqueue | WriteUnderpaid
    | WriteExpired | AppendExpired | WriteRefunded
    | PollReads | PollDecides | AppendFailed
    | CountReads | WriteCount | Requeue
    | UpdateReads | CommitLedger | CommitOuter

  // booked: how often the ledger entries have been committed; lost: how often the commit around them failed.
  datatype Rail = Rail(status: Status, job: QueueJob, booked: nat, lost: nat, trail: seq<Event>, tasks: seq<Task>)

  const FRESH := Rail(PENDING, NoJob, 0, 0, [], [])

  // What a poll makes of the chain: no receipt yet, none for too long or a reverted one, too few confirmations, enough.
  // RecheckLost: no receipt yet, and the queue drops the next poll, its id being held by the active job; decided where
  // too few confirmations lead to the next poll, it says the same of that.
  datatype Decision = Recheck | RecheckLost | GiveUp | Count | Confirm

  datatype Action =
    | ReadForDeposit(underpaid: bool) | ReadForSweep | ReadForRefund | StartPoll | ForgetJob
    | Advance(k: nat, decision: Decision) | Throw(k: nat, exhausted: bool)

  datatype Kind = Polling | Committing | Expiring | Failing

  predicate Is(kind: Kind, t: Task) {
    match kind
    case Polling =>
      t in {PollReads, PollDecides, AppendFailed, CountReads, WriteCount, Requeue, UpdateReads, CommitLedger,
        CommitOuter}
    case Committing => t == CommitOuter
    case Expiring => t == AppendExpired
    case Failing => t == AppendFailed
  }

  function Log(source: Status, target: Status, name: EventName): Event {
    Event(0, "", source, target, name)
  }

  function Begin(r: Rail, t: Task): Rail {
    r.(tasks := r.tasks + [t])
  }

  function Done(r: Rail, k: nat): Rail
    requires k < |r.tasks|
  {
    r.(tasks := r.tasks[..k] + r.tasks[k + 1..])
  }

  // What a call does after its next access, if anything; what it reads there is the status.
  function Successor(status: Status, t: Task, decision: Decision): Option<Task> {
    match t
    case ReadAgain => Some(if CanAcceptDeposit(status) then WriteConfirming else Enqueue)
    case WriteConfirming => Some(Enqueue)
    case WriteExpired => Some(AppendExpired)
    case PollReads => if status == CONFIRMING then Some(PollDecides) else None
    case PollDecides => (match decision
      case Recheck | RecheckLost => None
      case GiveUp => Some(AppendFailed)
      case Count => Some(CountReads)
      case Confirm => Some(UpdateReads))
    case CountReads => Some(if status == CONFIRMING then WriteCount else Requeue)
    case WriteCount => Some(Requeue)
    case UpdateReads => if status == CONFIRMING then Some(CommitLedger) else None
    case CommitLedger => Some(CommitOuter)
    case Enqueue | WriteUnderpaid | AppendExpired | WriteRefunded | AppendFailed | Requeue | CommitOuter => None
  }

  // What an access writes: status and event in one transaction, or one of them, or the queue, or the ledger.
  function Write(r: Rail, t: Task, decision: Decision): Rail {
    match t
    case WriteConfirming => r.(status := CONFIRMING, trail := r.trail + [Log(PENDING, CONFIRMING, TxDetected)])
    case Enqueue => r.(job := if r.job == NoJob then Waiting else r.job)
    case WriteUnderpaid => r.(status := FAILED)
    case WriteExpired => r.(status := EXPIRED)
    case AppendExpired => r.(trail := r.trail + [Log(PENDING, EXPIRED, PaymentExpired)])
    case WriteRefunded => r.(status := REFUNDED, trail := r.trail + [Log(COMPLETED, REFUNDED, PaymentRefunded)])
    case PollReads | UpdateReads => if r.status == CONFIRMING then r else r.(job := Finished)
    case PollDecides =>
      if decision == Recheck then r.(job := Waiting)
      else if decision == RecheckLost then r.(job := Finished)
      else if decision == GiveUp then r.(status := FAILED)
      else r
    case AppendFailed => r.(job := Finished, trail := r.trail + [Log(CONFIRMING, FAILED, TxFailed)])
    case WriteCount => r.(status := CONFIRMING)
    case Requeue => r.(job := if decision == RecheckLost then Finished else Waiting)
    case CommitLedger => r.(booked := r.booked + 1)
    case CommitOuter =>
      r.(status := COMPLETED, job := Finished, trail := r.trail + [Log(CONFIRMING, COMPLETED, PaymentSettled)])
    case ReadAgain | CountReads => r
  }

  // The k-th call in flight makes its next access.
  function AdvanceTask(r: Rail, k: nat, decision: Decision): Rail
    requires k < |r.tasks|
  {
    var next := Successor(r.status, r.tasks[k], decision);
    Write(if next.Some? then r.(tasks := r.tasks[k := next.value]) else Done(r, k), r.tasks[k], decision)
  }

  // The settlement is thrown away with its ledger entries committed.
  predicate LosesCommit(r: Rail, a: Action) {
    a.Throw? && a.k < |r.tasks| && r.tasks[a.k] == CommitOuter
  }

  // The k-th call ends with an exception instead; the queue tries a poll again until its attempts are spent.
  function ThrowTask(r: Rail, k: nat, exhausted: bool): Rail
    requires k < |r.tasks|
  {
    var gone := Done(r, k).(lost := r.lost + if r.tasks[k] == CommitOuter then 1 else 0);
    if Is(Polling, r.tasks[k]) then gone.(job := if exhausted then Finished else Waiting) else gone
  }

  // remembers: a finished job keeps its id, so that adding it again is dropped.
  function Act(remembers: bool, r: Rail, a: Action): Rail {
    match a
    case ReadForDeposit(underpaid) =>
      if r.status == PENDING then Begin(r, if underpaid then WriteUnderpaid else ReadAgain) else r
    case ReadForSweep => if r.status == PENDING then Begin(r, WriteExpired) else r
    case ReadForRefund => if AssertTransition(r.status, REFUNDED).Accepted? then Begin(r, WriteRefunded) else r
    case StartPoll => if r.job == Waiting then Begin(r, PollReads).(job := Active) else r
    case ForgetJob => if !remembers && r.job == Finished then r.(job := NoJob) else r
    case Advance(k, decision) => if k < |r.tasks| then AdvanceTask(r, k, decision) else r
    case Throw(k, exhausted) => if k < |r.tasks| then ThrowTask(r, k, exhausted) else r
  }

  function Play(remembers: bool, actions: seq<Action>): Rail {
    if actions == [] then FRESH
    else Act(remembers, Play(remembers, actions[..|actions| - 1]), actions[|actions| - 1])
  }

  // ---------------------------------------------------------------- counting calls in flight

  function Number(kind: Kind, tasks: seq<Task>): nat {
    if tasks == [] then 0
    else Number(kind, tasks[..|tasks| - 1]) + if Is(kind, tasks[|tasks| - 1]) then 1 else 0
  }

  lemma OneMoreTask(kind: Kind, tasks: seq<Task>, t: Task)
    ensures Number(kind, tasks + [t]) == Number(kind, tasks) + if Is(kind, t) then 1 else 0
  {
    assert (tasks + [t])[..|tasks|] == tasks;
  }

  lemma {:induction false} NumberOfBoth(kind: Kind, left: seq<Task>, right: seq<Task>)
    ensures Number(kind, left + right) == Number(kind, left) + Number(kind, right)
  {
    if right == [] {
      assert left + right == left;
    } else {
      var n := |right| - 1;
      NumberOfBoth(kind, left, right[..n]);
      OneMoreTask(kind, left + right[..n], right[n]);
      OneMoreTask(kind, right[..n], right[n]);
      assert left + right == left + right[..n] + [right[n]] && right == right[..n] + [right[n]];
    }
  }

  lemma NumberAfter(kind: Kind, tasks: seq<Task>, k: nat, t: Task)
    requires k < |tasks|
    ensures Number(kind, tasks[k := t])
         == Number(kind, tasks) - (if Is(kind, tasks[k]) then 1 else 0) + (if Is(kind, t) then 1 else 0)
    ensures Number(kind, tasks[..k] + tasks[k + 1..]) == Number(kind, tasks) - if Is(kind, tasks[k]) then 1 else 0
  {
    hide Number, Is;
    var left := tasks[..k];
    var right := tasks[k + 1..];
    assert tasks == left + [tasks[k]] + right && tasks[k := t] == left + [t] + right;
    OneMoreTask(kind, left, tasks[k]);
    OneMoreTask(kind, left, t);
    NumberOfBoth(kind, left + [tasks[k]], right);
    NumberOfBoth(kind, left + [t], right);
    NumberOfBoth(kind, left, right);
  }

  lemma AdvanceNumbers(kind: Kind, r: Rail, k: nat, decision: Decision)
    requires k < |r.tasks|
    ensures var next := Successor(r.status, r.tasks[k], decision);
      Number(kind, AdvanceTask(r, k, decision).tasks)
      == Number(kind, r.tasks) - (if Is(kind, r.tasks[k]) then 1 else 0)
         + (if next.Some? && Is(kind, next.value) then 1 else 0)
  {
    hide Number, Is, Successor;
    var next := Successor(r.status, r.tasks[k], decision);
    NumberAfter(kind, r.tasks, k, if next.Some? then next.value else Enqueue);
    hide Write;
    WriteKeepsTasks(if next.Some? then r.(tasks := r.tasks[k := next.value]) else Done(r, k), r.tasks[k], decision);
  }

  lemma WriteKeepsTasks(r: Rail, t: Task, decision: Decision)
    ensures Write(r, t, decision).tasks == r.tasks
  {
  }

  lemma BeginNumbers(kind: Kind, r: Rail, t: Task)
    ensures Number(kind, Begin(r, t).tasks) == Number(kind, r.tasks) + if Is(kind, t) then 1 else 0
  {
    hide Number;
    OneMoreTask(kind, r.tasks, t);
  }

  lemma ThrowNumbers(kind: Kind, r: Rail, k: nat, exhausted: bool)
    requires k < |r.tasks|
    ensures Number(kind, ThrowTask(r, k, exhausted).tasks)
         == Number(kind, r.tasks) - if Is(kind, r.tasks[k]) then 1 else 0
  {
    hide Number;
    NumberAfter(kind, r.tasks, k, Enqueue);
  }

  // ---------------------------------------------------------------- at most once more than lost

  // A poll is in flight exactly while its job is active; up to its last commit the ledger holds the lost settlements
  // and the one that waits for its outer commit, and once the job is finished at most one more than the lost ones.
  ghost predicate OneActiveJob(r: Rail) {
    && Number(Polling, r.tasks) == (if r.job == Active then 1 else 0)
    && (r.job != Finished ==> r.booked == r.lost + Number(Committing, r.tasks))
    && (r.job == Finished ==> r.lost <= r.booked <= r.lost + 1)
  }

  // A settlement that waits for its outer commit is a poll.
  lemma {:induction false} CommitsArePolls(tasks: seq<Task>)
    ensures Number(Committing, tasks) <= Number(Polling, tasks)
  {
    if tasks != [] {
      CommitsArePolls(tasks[..|tasks| - 1]);
    }
  }

  lemma AdvanceKeepsOneJob(r: Rail, k: nat, decision: Decision)
    requires OneActiveJob(r) && k < |r.tasks|
    ensures OneActiveJob(AdvanceTask(r, k, decision))
  {
    hide Number;
    AdvanceNumbers(Polling, r, k, decision);
    AdvanceNumbers(Committing, r, k, decision);
    NumberAfter(Polling, r.tasks, k, Enqueue);
    NumberAfter(Committing, r.tasks, k, Enqueue);
    CommitsArePolls(r.tasks[..k] + r.tasks[k + 1..]);
  }

  lemma ThrowKeepsOneJob(r: Rail, k: nat, exhausted: bool)
    requires OneActiveJob(r) && k < |r.tasks|
    ensures OneActiveJob(ThrowTask(r, k, exhausted))
  {
    hide Number;
    ThrowNumbers(Polling, r, k, exhausted);
    ThrowNumbers(Committing, r, k, exhausted);
    CommitsArePolls(r.tasks[..k] + r.tasks[k + 1..]);
  }

  // The id of a finished job is given out again though its payment has been booked.
  predicate ForgetsBooked(remembers: bool, r: Rail, a: Action) {
    a == ForgetJob && !remembers && r.job == Finished && r.booked > r.lost
  }

  // Any step keeps that exactly when it does not forget such a job.
  lemma OneJobExactly(remembers: bool, r: Rail, a: Action)
    requires OneActiveJob(r)
    ensures OneActiveJob(Act(remembers, r, a)) <==> !ForgetsBooked(remembers, r, a)
  {
    hide AdvanceTask, ThrowTask, Number, AssertTransition;
    match a
    case Advance(k, decision) => if k < |r.tasks| { AdvanceKeepsOneJob(r, k, decision); }
    case Throw(k, exhausted) => if k < |r.tasks| { ThrowKeepsOneJob(r, k, exhausted); }
    case ForgetJob => CommitsArePolls(r.tasks);
    case _ =>
      var t := match a
        case ReadForDeposit(underpaid) => if underpaid then WriteUnderpaid else ReadAgain
        case ReadForSweep => WriteExpired
        case ReadForRefund => WriteRefunded
        case _ => PollReads;
      BeginNumbers(Polling, r, t);
      BeginNumbers(Committing, r, t);
  }

  // How many outer commits were lost, read off the actions of the run.
  function Losses(remembers: bool, actions: seq<Action>): nat {
    if actions == [] then 0
    else
      var before := actions[..|actions| - 1];
      Losses(remembers, before) + if LosesCommit(Play(remembers, before), actions[|actions| - 1]) then 1 else 0
  }

  lemma {:induction false} LossesAreCounted(remembers: bool, actions: seq<Action>)
    ensures Play(remembers, actions).lost == Losses(remembers, actions)
  {
    if actions != [] {
      LossesAreCounted(remembers, actions[..|actions| - 1]);
      ActCountsLoss(remembers, Play(remembers, actions[..|actions| - 1]), actions[|actions| - 1]);
      hide Act, LosesCommit;
    }
  }

  lemma ActCountsLoss(remembers: bool, r: Rail, a: Action)
    ensures Act(remembers, r, a).lost == r.lost + if LosesCommit(r, a) then 1 else 0
  {
  }

  predicate NothingForgotten(remembers: bool, actions: seq<Action>) {
    actions == []
    || (NothingForgotten(remembers, actions[..|actions| - 1])
        && !ForgetsBooked(remembers, Play(remembers, actions[..|actions| - 1]), actions[|actions| - 1]))
  }

  lemma {:induction false} RunKeepsOneJob(remembers: bool, actions: seq<Action>)
    requires NothingForgotten(remembers, actions)
    ensures OneActiveJob(Play(remembers, actions))
  {
    hide Act, ForgetsBooked;
    if actions != [] {
      RunKeepsOneJob(remembers, actions[..|actions| - 1]);
      OneJobExactly(remembers, Play(remembers, actions[..|actions| - 1]), actions[|actions| - 1]);
    }
  }

  // Whatever interleaves, stale writes included, the ledger entries of a payment are committed at most once more than
  // an outer commit was lost, as long as the job id of a booked payment is not given out again.
  lemma BookedOnceUnlessForgotten(remembers: bool, actions: seq<Action>)
    requires NothingForgotten(remembers, actions)
    ensures Play(remembers, actions).booked <= 1 + Losses(remembers, actions)
  {
    hide Play, Losses;
    RunKeepsOneJob(remembers, actions);
    LossesAreCounted(remembers, actions);
    CommitsArePolls(Play(remembers, actions).tasks);
  }

  // In particular over every run of a queue that remembers its finished jobs.
  lemma BookedAtMostOnce(actions: seq<Action>)
    ensures Play(true, actions).booked <= 1 + Losses(true, actions)
    ensures OneActiveJob(Play(true, actions))
  {
    hide Play, Losses;
    NothingIsForgotten(actions);
    RunKeepsOneJob(true, actions);
    BookedOnceUnlessForgotten(true, actions);
  }

  lemma {:induction false} NothingIsForgotten(actions: seq<Action>)
    ensures NothingForgotten(true, actions)
  {
    hide Play;
    if actions != [] {
      NothingIsForgotten(actions[..|actions| - 1]);
    }
  }

  // ---------------------------------------------------------------- without stale writes

  predicate IsSettledStatus(status: Status) {
    status == COMPLETED || status == REFUNDED
  }

  // The status a write was decided on.
  predicate Fits(status: Status, t: Task, decision: Decision) {
    match t
    case WriteConfirming | WriteUnderpaid | WriteExpired => status == PENDING
    case WriteRefunded => IsSettledStatus(status)
    case PollDecides => decision == GiveUp ==> status == CONFIRMING
    case WriteCount | CommitOuter => status == CONFIRMING
    case _ => true
  }

  predicate StaleWrite(r: Rail, a: Action) {
    a.Advance? && a.k < |r.tasks| && !Fits(r.status, r.tasks[a.k], a.decision)
  }

  predicate NoStaleWrites(remembers: bool, actions: seq<Action>) {
    actions == []
    || (NoStaleWrites(remembers, actions[..|actions| - 1])
        && !StaleWrite(Play(remembers, actions[..|actions| - 1]), actions[|actions| - 1]))
  }

  // A deposit and a sweep begin on a pending payment, a refund on a settled one, refunded or not.
  lemma BeginsExactly(remembers: bool, r: Rail, a: Action)
    requires a.ReadForDeposit? || a.ReadForSweep? || a.ReadForRefund?
    ensures var ready := if a.ReadForRefund? then r.status in {COMPLETED, REFUNDED} else r.status == PENDING;
      var first := if a.ReadForRefund? then WriteRefunded
                   else if a.ReadForSweep? then WriteExpired
                   else if a.underpaid then WriteUnderpaid
                   else ReadAgain;
      Act(remembers, r, a) == if ready then r.(tasks := r.tasks + [first]) else r
  {
    VerdictExactly(r.status, REFUNDED);
  }

  // A call that reads the payment changes nothing of it, and goes on to its write exactly when the status it has read
  // is the one the write is for: no write is stale unless something else has come in between.
  lemma ReadsBeforeItWrites(r: Rail, k: nat, decision: Decision)
    requires k < |r.tasks|
    ensures var t, after := r.tasks[k], AdvanceTask(r, k, decision);
      && (t in {ReadAgain, PollReads, CountReads, UpdateReads} ==>
            after.status == r.status && after.booked == r.booked && after.trail == r.trail)
      && (t == ReadAgain ==> (after.tasks == r.tasks[k := WriteConfirming] <==> r.status == PENDING))
      && (t == PollReads ==> (after.tasks == r.tasks[k := PollDecides] <==> r.status == CONFIRMING))
      && (t == CountReads ==> (after.tasks == r.tasks[k := WriteCount] <==> r.status == CONFIRMING))
      && (t == UpdateReads ==> (after.tasks == r.tasks[k := CommitLedger] <==> r.status == CONFIRMING))
  {
    var t, after := r.tasks[k], AdvanceTask(r, k, decision);
    var next := Successor(r.status, t, decision);
    assert after.tasks == if next.Some? then r.tasks[k := next.value] else Done(r, k).tasks;
    hide AdvanceTask, Write, Done;
    var write := if t == ReadAgain then WriteConfirming
                 else if t == PollReads then PollDecides
                 else if t == CountReads then WriteCount
                 else CommitLedger;
    assert r.tasks[k := write][k] == write;
  }

  ghost predicate Accounted(r: Rail) {
    Excess(r) == 0
  }

  // The bookings beyond the lost ones, the pending one and that of a settled payment.
  ghost function Excess(r: Rail): int {
    r.booked - r.lost - Number(Committing, r.tasks) - if IsSettledStatus(r.status) then 1 else 0
  }

  // What a step adds to them: a settled payment that is given another status leaves its booking behind, one that is
  // settled again has been booked again, and one that is refunded without being settled lacks a booking.
  function Drift(r: Rail, a: Action): int {
    if !a.Advance? || a.k >= |r.tasks| then 0
    else
      match r.tasks[a.k]
      case WriteConfirming | WriteUnderpaid | WriteExpired | WriteCount | CommitOuter =>
        if IsSettledStatus(r.status) then 1 else 0
      case PollDecides => if a.decision == GiveUp && IsSettledStatus(r.status) then 1 else 0
      case WriteRefunded => if IsSettledStatus(r.status) then 0 else -1
      case _ => 0
  }

  function Drifts(remembers: bool, actions: seq<Action>): int {
    if actions == [] then 0
    else
      var before := actions[..|actions| - 1];
      Drifts(remembers, before) + Drift(Play(remembers, before), actions[|actions| - 1])
  }

  lemma AdvanceDrifts(r: Rail, k: nat, decision: Decision)
    requires k < |r.tasks|
    ensures Excess(AdvanceTask(r, k, decision)) == Excess(r) + Drift(r, Advance(k, decision))
  {
    hide Number;
    AdvanceNumbers(Committing, r, k, decision);
  }

  lemma ThrowDrifts(r: Rail, k: nat, exhausted: bool)
    requires k < |r.tasks|
    ensures Excess(ThrowTask(r, k, exhausted)) == Excess(r)
  {
    hide Number;
    ThrowNumbers(Committing, r, k, exhausted);
  }

  lemma StepDrifts(remembers: bool, r: Rail, a: Action)
    ensures Excess(Act(remembers, r, a)) == Excess(r) + Drift(r, a)
  {
    hide AssertTransition, Number, AdvanceTask, ThrowTask;
    match a
    case Advance(k, decision) => if k < |r.tasks| { AdvanceDrifts(r, k, decision); }
    case Throw(k, exhausted) => if k < |r.tasks| { ThrowDrifts(r, k, exhausted); }
    case ReadForDeposit(underpaid) => BeginNumbers(Committing, r, if underpaid then WriteUnderpaid else ReadAgain);
    case ReadForSweep => BeginNumbers(Committing, r, WriteExpired);
    case ReadForRefund => BeginNumbers(Committing, r, WriteRefunded);
    case StartPoll => BeginNumbers(Committing, r, PollReads);
    case ForgetJob =>
  }

  // Any step, stale or not, keeps the bookings accounted for exactly when it has no such effect.
  lemma AccountedExactly(remembers: bool, r: Rail, a: Action)
    requires Accounted(r)
    ensures Accounted(Act(remembers, r, a)) <==> Drift(r, a) == 0
  {
    StepDrifts(remembers, r, a);
    hide Act, Excess, Drift;
  }

  // Whatever interleaves, stale writes included: the bookings are the lost ones, the one that waits for its outer
  // commit, that of a settled payment, and what the steps added.
  lemma {:induction false} BookedExactly(remembers: bool, actions: seq<Action>)
    ensures var r := Play(remembers, actions);
      r.booked == Losses(remembers, actions) + Number(Committing, r.tasks)
                  + (if IsSettledStatus(r.status) then 1 else 0) + Drifts(remembers, actions)
  {
    hide Act, Drift, LosesCommit;
    LossesAreCounted(remembers, actions);
    if actions != [] {
      var before := actions[..|actions| - 1];
      BookedExactly(remembers, before);
      LossesAreCounted(remembers, before);
      StepDrifts(remembers, Play(remembers, before), actions[|actions| - 1]);
    }
  }

  // So once no settlement waits for its outer commit, the entries are there exactly when the payment is settled, and
  // once only, if and only if the losses and what the steps added come to nothing; even if finished jobs are forgotten.
  lemma ExactlyOnceExactly(remembers: bool, actions: seq<Action>)
    requires CommitOuter !in Play(remembers, actions).tasks
    ensures var r := Play(remembers, actions);
      r.booked == (if IsSettledStatus(r.status) then 1 else 0)
      <==> Losses(remembers, actions) + Drifts(remembers, actions) == 0
  {
    BookedExactly(remembers, actions);
    NoneInFlight(Committing, Play(remembers, actions).tasks);
  }

  predicate NothingDrifts(remembers: bool, actions: seq<Action>) {
    actions == []
    || (NothingDrifts(remembers, actions[..|actions| - 1])
        && Drift(Play(remembers, actions[..|actions| - 1]), actions[|actions| - 1]) == 0)
  }

  lemma {:induction false} FreshWritesDoNotDrift(remembers: bool, actions: seq<Action>)
    requires NoStaleWrites(remembers, actions)
    ensures NothingDrifts(remembers, actions)
  {
    hide Play;
    if actions != [] {
      FreshWritesDoNotDrift(remembers, actions[..|actions| - 1]);
    }
  }

  lemma {:induction false} NoDrift(remembers: bool, actions: seq<Action>)
    requires NothingDrifts(remembers, actions)
    ensures Drifts(remembers, actions) == 0
  {
    hide Play, Drift;
    if actions != [] {
      NoDrift(remembers, actions[..|actions| - 1]);
    }
  }

  // In particular where every write finds the status it was decided on, or harms nothing where it does not: if and only
  // if no outer commit was lost.
  lemma ExactlyOnceWithoutHarm(remembers: bool, actions: seq<Action>)
    requires NothingDrifts(remembers, actions) && CommitOuter !in Play(remembers, actions).tasks
    ensures var r := Play(remembers, actions);
      r.booked == (if IsSettledStatus(r.status) then 1 else 0) <==> Losses(remembers, actions) == 0
  {
    ExactlyOnceExactly(remembers, actions);
    NoDrift(remembers, actions);
  }

  lemma {:induction false} NoneInFlight(kind: Kind, tasks: seq<Task>)
    requires forall t <- tasks :: !Is(kind, t)
    ensures Number(kind, tasks) == 0
  {
    if tasks != [] {
      NoneInFlight(kind, tasks[..|tasks| - 1]);
    }
  }

  // ---------------------------------------------------------------- the trail without stale writes

  // The steps that leave a change without its event, or log one that did not happen: a failure for underpayment, a
  // refund of a payment already refunded, and a crash between the status and the event of an expiry or a failure.
  predicate BreaksTrail(r: Rail, a: Action) {
    (a.Advance? || a.Throw?) && a.k < |r.tasks|
    && if a.Advance? then
         (r.tasks[a.k] == WriteUnderpaid && r.status != FAILED)
         || (r.tasks[a.k] == WriteRefunded && r.status == REFUNDED)
       else r.tasks[a.k] == AppendExpired || r.tasks[a.k] == AppendFailed
  }

  // A stale write that harms the trail: all do, but a failure for underpayment written again.
  predicate SpoilsTrail(r: Rail, a: Action) {
    StaleWrite(r, a) && !(r.tasks[a.k] == WriteUnderpaid && r.status == FAILED)
  }

  predicate NothingSpoils(remembers: bool, actions: seq<Action>) {
    actions == []
    || (NothingSpoils(remembers, actions[..|actions| - 1])
        && !SpoilsTrail(Play(remembers, actions[..|actions| - 1]), actions[|actions| - 1]))
  }

  predicate EverBreaks(remembers: bool, actions: seq<Action>) {
    actions != []
    && (EverBreaks(remembers, actions[..|actions| - 1])
        || BreaksTrail(Play(remembers, actions[..|actions| - 1]), actions[|actions| - 1]))
  }

  // An event that is still to be appended belongs to the status the payment has, and there is one of them at most.
  ghost predicate AppendsFit(r: Rail) {
    && Number(Expiring, r.tasks) <= (if r.status == EXPIRED then 1 else 0)
    && Number(Failing, r.tasks) <= (if r.status == FAILED then 1 else 0)
  }

  ghost predicate NothingToAppend(r: Rail) {
    Number(Expiring, r.tasks) == 0 && Number(Failing, r.tasks) == 0
  }

  // The status the trail has reached: the payment's own, or the one before while an event is still to come.
  function Reached(r: Rail): Status {
    if Number(Expiring, r.tasks) > 0 then PENDING else if Number(Failing, r.tasks) > 0 then CONFIRMING else r.status
  }

  ghost predicate Unbroken(r: Rail) {
    AppendsFit(r) && Walk(r.trail, PENDING) == Some(Reached(r))
  }

  ghost predicate Broken(r: Rail) {
    && NothingToAppend(r)
    && if r.status == FAILED || r.status == EXPIRED then
         Walk(r.trail, PENDING) == Some(PENDING) || Walk(r.trail, PENDING) == Some(CONFIRMING)
       else r.status == REFUNDED && Walk(r.trail, PENDING) == None
  }

  lemma WalkMore(trail: seq<Event>, e: Event)
    ensures Walk(trail + [e], PENDING)
         == if Walk(trail, PENDING) == Some(e.from) && Listed(e.from, e.to) then Some(e.to) else None
  {
    assert (trail + [e])[..|trail|] == trail;
  }

  lemma LoggedMoves()
    ensures Listed(PENDING, CONFIRMING) && Listed(PENDING, EXPIRED) && Listed(CONFIRMING, COMPLETED)
    ensures Listed(CONFIRMING, FAILED) && Listed(COMPLETED, REFUNDED)
  {
    ListedPairs(PENDING, CONFIRMING);
    ListedPairs(PENDING, EXPIRED);
    ListedPairs(CONFIRMING, COMPLETED);
    ListedPairs(CONFIRMING, FAILED);
    ListedPairs(COMPLETED, REFUNDED);
  }

  predicate Logs(t: Task) {
    t in {WriteConfirming, AppendExpired, WriteRefunded, AppendFailed, CommitOuter}
  }

  lemma LoggingTrail(r: Rail, k: nat, decision: Decision)
    requires Unbroken(r) && k < |r.tasks| && Fits(r.status, r.tasks[k], decision) && Logs(r.tasks[k])
    ensures var after := AdvanceTask(r, k, decision);
      if BreaksTrail(r, Advance(k, decision)) then Broken(after) else Unbroken(after)
  {
    hide Number, Walk, Listed;
    AdvanceNumbers(Expiring, r, k, decision);
    AdvanceNumbers(Failing, r, k, decision);
    NumberAfter(Expiring, r.tasks, k, Enqueue);
    NumberAfter(Failing, r.tasks, k, Enqueue);
    LoggedMoves();
    var after := AdvanceTask(r, k, decision);
    WalkMore(r.trail, after.trail[|r.trail|]);
  }

  lemma SilentTrail(r: Rail, k: nat, decision: Decision)
    requires Unbroken(r) && k < |r.tasks| && Fits(r.status, r.tasks[k], decision) && !Logs(r.tasks[k])
    ensures var after := AdvanceTask(r, k, decision);
      if BreaksTrail(r, Advance(k, decision)) then Broken(after) else Unbroken(after)
  {
    hide Number, Walk;
    AdvanceNumbers(Expiring, r, k, decision);
    AdvanceNumbers(Failing, r, k, decision);
  }

  lemma AdvanceTrail(r: Rail, k: nat, decision: Decision)
    requires Unbroken(r) && k < |r.tasks| && Fits(r.status, r.tasks[k], decision)
    ensures var after := AdvanceTask(r, k, decision);
      if BreaksTrail(r, Advance(k, decision)) then Broken(after) else Unbroken(after)
  {
    if Logs(r.tasks[k]) {
      LoggingTrail(r, k, decision);
    } else {
      SilentTrail(r, k, decision);
    }
  }

  lemma ThrowTrail(r: Rail, k: nat, exhausted: bool)
    requires Unbroken(r) && k < |r.tasks|
    ensures var after := ThrowTask(r, k, exhausted);
      if BreaksTrail(r, Throw(k, exhausted)) then Broken(after) else Unbroken(after)
  {
    hide Number, Walk;
    ThrowNumbers(Expiring, r, k, exhausted);
    ThrowNumbers(Failing, r, k, exhausted);
    NumberAfter(Expiring, r.tasks, k, Enqueue);
    NumberAfter(Failing, r.tasks, k, Enqueue);
  }

  lemma BrokenStays(remembers: bool, r: Rail, a: Action)
    requires Broken(r) && !SpoilsTrail(r, a)
    ensures Broken(Act(remembers, r, a))
  {
    hide Number, Walk, AssertTransition;
    match a
    case Advance(k, decision) =>
      if k < |r.tasks| {
        AdvanceNumbers(Expiring, r, k, decision);
        AdvanceNumbers(Failing, r, k, decision);
        NumberAfter(Expiring, r.tasks, k, Enqueue);
        NumberAfter(Failing, r.tasks, k, Enqueue);
        var after := AdvanceTask(r, k, decision);
        if |after.trail| > |r.trail| {
          WalkMore(r.trail, after.trail[|r.trail|]);
        }
      }
    case Throw(k, exhausted) =>
      if k < |r.tasks| {
        ThrowNumbers(Expiring, r, k, exhausted);
        ThrowNumbers(Failing, r, k, exhausted);
      }
    case _ => BeginTrail(remembers, r, a);
  }

  lemma BeginTrail(remembers: bool, r: Rail, a: Action)
    requires !a.Advance? && !a.Throw?
    ensures var after := Act(remembers, r, a);
      after.status == r.status && after.trail == r.trail
      && Number(Expiring, after.tasks) == Number(Expiring, r.tasks)
      && Number(Failing, after.tasks) == Number(Failing, r.tasks)
  {
    hide Number, AssertTransition;
    if !a.ForgetJob? {
      var t := match a
        case ReadForDeposit(underpaid) => if underpaid then WriteUnderpaid else ReadAgain
        case ReadForSweep => WriteExpired
        case ReadForRefund => WriteRefunded
        case _ => PollReads;
      BeginNumbers(Expiring, r, t);
      BeginNumbers(Failing, r, t);
    }
  }

  // A stale failure for underpayment of a payment that has failed changes nothing.
  lemma FailedAgain(r: Rail, k: nat, decision: Decision)
    requires Unbroken(r) && k < |r.tasks| && r.tasks[k] == WriteUnderpaid && r.status == FAILED
    ensures Unbroken(AdvanceTask(r, k, decision))
  {
    hide Number, Walk;
    AdvanceNumbers(Expiring, r, k, decision);
    AdvanceNumbers(Failing, r, k, decision);
  }

  lemma SpoiledTrail(r: Rail, k: nat, decision: Decision)
    requires Unbroken(r) && k < |r.tasks| && SpoilsTrail(r, Advance(k, decision))
    ensures !Unbroken(AdvanceTask(r, k, decision))
  {
    hide Number, Walk, Listed;
    AdvanceNumbers(Expiring, r, k, decision);
    AdvanceNumbers(Failing, r, k, decision);
    var after := AdvanceTask(r, k, decision);
    if |after.trail| > |r.trail| {
      WalkMore(r.trail, after.trail[|r.trail|]);
    }
  }

  lemma BrokenIsNotUnbroken(r: Rail)
    requires Broken(r)
    ensures !Unbroken(r)
  {
  }

  lemma UnbrokenStep(remembers: bool, r: Rail, a: Action)
    requires Unbroken(r)
    ensures SpoilsTrail(r, a) ==> !Unbroken(Act(remembers, r, a))
    ensures !SpoilsTrail(r, a) ==>
      if BreaksTrail(r, a) then Broken(Act(remembers, r, a)) else Unbroken(Act(remembers, r, a))
  {
    hide AdvanceTask, ThrowTask, Number, Walk, AssertTransition, Broken, Unbroken, Fits;
    match a
    case Advance(k, decision) =>
      if k < |r.tasks| {
        if SpoilsTrail(r, a) {
          SpoiledTrail(r, k, decision);
        } else if StaleWrite(r, a) {
          FailedAgain(r, k, decision);
        } else {
          AdvanceTrail(r, k, decision);
        }
      }
    case Throw(k, exhausted) => if k < |r.tasks| { ThrowTrail(r, k, exhausted); }
    case _ => BeginsUnbroken(remembers, r, a);
  }

  lemma BeginsUnbroken(remembers: bool, r: Rail, a: Action)
    requires Unbroken(r) && !a.Advance? && !a.Throw?
    ensures Unbroken(Act(remembers, r, a))
  {
    hide Act, Number, Walk;
    BeginTrail(remembers, r, a);
  }

  // Any step, stale or not, keeps the trail a path to the status, up to an event that is still to come, exactly when it
  // neither breaks nor spoils it.
  lemma UnbrokenExactly(remembers: bool, r: Rail, a: Action)
    requires Unbroken(r)
    ensures Unbroken(Act(remembers, r, a)) <==> !BreaksTrail(r, a) && !SpoilsTrail(r, a)
  {
    hide Act, Unbroken, Broken, BreaksTrail, SpoilsTrail;
    UnbrokenStep(remembers, r, a);
    if BreaksTrail(r, a) && !SpoilsTrail(r, a) {
      BrokenIsNotUnbroken(Act(remembers, r, a));
    }
  }

  lemma {:induction false} RunIsUnbroken(remembers: bool, actions: seq<Action>)
    requires NothingSpoils(remembers, actions)
    ensures if EverBreaks(remembers, actions) then Broken(Play(remembers, actions))
      else Unbroken(Play(remembers, actions))
  {
    hide Act, SpoilsTrail, BreaksTrail, Broken, Unbroken;
    if actions == [] {
      FreshIsUnbroken();
    } else {
      var before := actions[..|actions| - 1];
      var a := actions[|actions| - 1];
      RunIsUnbroken(remembers, before);
      if EverBreaks(remembers, before) {
        BrokenStays(remembers, Play(remembers, before), a);
      } else {
        UnbrokenStep(remembers, Play(remembers, before), a);
      }
    }
  }

  lemma FreshIsUnbroken()
    ensures Unbroken(FRESH)
  {
  }

  // While no stale write spoils the trail, and no event is still to come, the events form a path of
  // listed transitions from PENDING to the payment's status if and only if no step of the run broke the trail.
  lemma TrailWithoutHarm(remembers: bool, actions: seq<Action>)
    requires NothingSpoils(remembers, actions) && NothingToAppend(Play(remembers, actions))
    ensures var r := Play(remembers, actions);
      Walk(r.trail, PENDING) == Some(r.status) <==> !EverBreaks(remembers, actions)
  {
    RunIsUnbroken(remembers, actions);
  }

  // ---------------------------------------------------------------- concrete interleavings

  function Go(k: nat): Action {
    Advance(k, Confirm)
  }

  lemma OneMore(remembers: bool, actions: seq<Action>, a: Action)
    ensures Play(remembers, actions + [a]) == Act(remembers, Play(remembers, actions), a)
    ensures NoStaleWrites(remembers, actions + [a])
       <==> NoStaleWrites(remembers, actions) && !StaleWrite(Play(remembers, actions), a)
  {
    hide Act, StaleWrite;
    assert (actions + [a])[..|actions|] == actions;
  }

  // A poll up to the commit of its ledger entries, for a run that ends with the payment CONFIRMING and its job waiting.
  function PollAndBook(k: nat): seq<Action> {
    [StartPoll] + [Go(k)] + [Go(k)] + [Go(k)] + [Go(k)]
  }

  // The call begun last goes on to its next access, for a task that only moves on.
  lemma LastMoves(remembers: bool, actions: seq<Action>, others: seq<Task>, t: Task, next: Task)
    requires Play(remembers, actions).tasks == others + [t] && Play(remembers, actions).status == CONFIRMING
    requires (t, next) in {(PollReads, PollDecides), (PollDecides, UpdateReads), (UpdateReads, CommitLedger)}
    ensures Play(remembers, actions + [Go(|others|)]) == Play(remembers, actions).(tasks := others + [next])
    ensures NoStaleWrites(remembers, actions) ==> NoStaleWrites(remembers, actions + [Go(|others|)])
  {
    OneMore(remembers, actions, Go(|others|));
    hide Play, NoStaleWrites;
    assert (others + [t])[|others| := next] == others + [next];
  }

  lemma StartsPoll(remembers: bool, actions: seq<Action>)
    requires Play(remembers, actions).job == Waiting
    ensures var r := Play(remembers, actions);
      Play(remembers, actions + [StartPoll]) == r.(job := Active, tasks := r.tasks + [PollReads])
    ensures NoStaleWrites(remembers, actions) ==> NoStaleWrites(remembers, actions + [StartPoll])
  {
    OneMore(remembers, actions, StartPoll);
    hide Play, NoStaleWrites;
  }

  lemma LastBooks(remembers: bool, actions: seq<Action>, others: seq<Task>)
    requires Play(remembers, actions).tasks == others + [CommitLedger]
    ensures var r := Play(remembers, actions);
      Play(remembers, actions + [Go(|others|)]) == r.(booked := r.booked + 1, tasks := others + [CommitOuter])
    ensures NoStaleWrites(remembers, actions) ==> NoStaleWrites(remembers, actions + [Go(|others|)])
  {
    OneMore(remembers, actions, Go(|others|));
    hide Play, NoStaleWrites;
    assert (others + [CommitLedger])[|others| := CommitOuter] == others + [CommitOuter];
  }

  lemma BooksFrom(remembers: bool, actions: seq<Action>)
    requires var r := Play(remembers, actions); r.status == CONFIRMING && r.job == Waiting
    ensures var r := Play(remembers, actions);
      Play(remembers, actions + PollAndBook(|r.tasks|))
      == r.(job := Active, booked := r.booked + 1, tasks := r.tasks + [CommitOuter])
    ensures NoStaleWrites(remembers, actions) ==>
      NoStaleWrites(remembers, actions + PollAndBook(|Play(remembers, actions).tasks|))
  {
    hide Play, NoStaleWrites, Go;
    var others := Play(remembers, actions).tasks;
    var k := |others|;
    var a := actions + [StartPoll];
    StartsPoll(remembers, actions);
    LastMoves(remembers, a, others, PollReads, PollDecides);
    LastMoves(remembers, a + [Go(k)], others, PollDecides, UpdateReads);
    LastMoves(remembers, a + [Go(k)] + [Go(k)], others, UpdateReads, CommitLedger);
    LastBooks(remembers, a + [Go(k)] + [Go(k)] + [Go(k)], others);
    assert actions + PollAndBook(k) == a + [Go(k)] + [Go(k)] + [Go(k)] + [Go(k)];
  }

  // The outer commit then succeeds, or is lost and the poll is tried again.
  lemma EndsWith(remembers: bool, actions: seq<Action>, others: seq<Task>)
    requires Play(remembers, actions).tasks == others + [CommitOuter]
    ensures var r := Play(remembers, actions);
      var k := |others|;
      && Play(remembers, actions + [Go(k)])
         == r.(status := COMPLETED, job := Finished, tasks := others,
               trail := r.trail + [Log(CONFIRMING, COMPLETED, PaymentSettled)])
      && Play(remembers, actions + [Throw(k, false)]) == r.(lost := r.lost + 1, job := Waiting, tasks := others)
      && (NoStaleWrites(remembers, actions) ==> NoStaleWrites(remembers, actions + [Throw(k, false)]))
      && (NoStaleWrites(remembers, actions) && r.status == CONFIRMING ==> NoStaleWrites(remembers, actions + [Go(k)]))
  {
    OneMore(remembers, actions, Go(|others|));
    OneMore(remembers, actions, Throw(|others|, false));
    hide Play, NoStaleWrites;
    var tasks := others + [CommitOuter];
    assert tasks[..|others|] + tasks[|others| + 1..] == others;
  }

  lemma DepositDetects(remembers: bool, actions: seq<Action>)
    requires Play(remembers, actions).status == PENDING
    ensures var r := Play(remembers, actions);
      var k := |r.tasks|;
      var after := actions + [ReadForDeposit(false)] + [Go(k)] + [Go(k)];
      && Play(remembers, after)
         == r.(status := CONFIRMING, trail := r.trail + [Log(PENDING, CONFIRMING, TxDetected)],
               tasks := r.tasks + [Enqueue])
      && (NoStaleWrites(remembers, actions) ==> NoStaleWrites(remembers, after))
  {
    var r := Play(remembers, actions);
    var k := |r.tasks|;
    var a := actions + [ReadForDeposit(false)];
    OneMore(remembers, actions, ReadForDeposit(false));
    OneMore(remembers, a, Go(k));
    OneMore(remembers, a + [Go(k)], Go(k));
    hide Play, NoStaleWrites;
    assert Play(remembers, a) == r.(tasks := r.tasks + [ReadAgain]);
    assert Play(remembers, a + [Go(k)]) == r.(tasks := r.tasks + [WriteConfirming]);
  }

  // A deposit that finds the payment PENDING twice and is queued, beside other calls.
  lemma DepositFrom(remembers: bool, actions: seq<Action>)
    requires var r := Play(remembers, actions); r.status == PENDING && r.job == NoJob
    ensures var r := Play(remembers, actions);
      var k := |r.tasks|;
      var after := actions + [ReadForDeposit(false)] + [Go(k)] + [Go(k)] + [Go(k)];
      && Play(remembers, after)
         == r.(status := CONFIRMING, job := Waiting, trail := r.trail + [Log(PENDING, CONFIRMING, TxDetected)])
      && (NoStaleWrites(remembers, actions) ==> NoStaleWrites(remembers, after))
  {
    var r := Play(remembers, actions);
    var k := |r.tasks|;
    DepositDetects(remembers, actions);
    OneMore(remembers, actions + [ReadForDeposit(false)] + [Go(k)] + [Go(k)], Go(k));
    hide Play, NoStaleWrites;
    assert (r.tasks + [Enqueue])[..k] + (r.tasks + [Enqueue])[k + 1..] == r.tasks;
  }

  // A poll that loses its outer commit leaves the payment to be polled again, with one settlement more in the ledger.
  lemma LosesFrom(remembers: bool, actions: seq<Action>, k: nat)
    requires var r := Play(remembers, actions); r.status == CONFIRMING && r.job == Waiting && |r.tasks| == k
    ensures var r := Play(remembers, actions);
      Play(remembers, actions + PollAndBook(k) + [Throw(k, false)]) == r.(booked := r.booked + 1, lost := r.lost + 1)
    ensures NoStaleWrites(remembers, actions) ==> NoStaleWrites(remembers, actions + PollAndBook(k) + [Throw(k, false)])
  {
    hide Play, NoStaleWrites, PollAndBook;
    BooksFrom(remembers, actions);
    EndsWith(remembers, actions + PollAndBook(k), Play(remembers, actions).tasks);
  }

  lemma SettlesFrom(remembers: bool, actions: seq<Action>, k: nat)
    requires var r := Play(remembers, actions); r.status == CONFIRMING && r.job == Waiting && |r.tasks| == k
    ensures var r := Play(remembers, actions);
      Play(remembers, actions + PollAndBook(k) + [Go(k)])
      == r.(status := COMPLETED, job := Finished, booked := r.booked + 1,
            trail := r.trail + [Log(CONFIRMING, COMPLETED, PaymentSettled)])
    ensures NoStaleWrites(remembers, actions) ==> NoStaleWrites(remembers, actions + PollAndBook(k) + [Go(k)])
  {
    hide Play, NoStaleWrites, PollAndBook, Go;
    BooksFrom(remembers, actions);
    EndsWith(remembers, actions + PollAndBook(k), Play(remembers, actions).tasks);
  }

  predicate BookedAgain(actions: seq<Action>) {
    && NoStaleWrites(true, actions) && Losses(true, actions) == 1
    && var r := Play(true, actions); r.booked == 2 && r.status == COMPLETED && r.tasks == []
  }

  // The bound of BookedAtMostOnce is reached: an outer commit is lost, the poll is tried again, and the payment is
  // booked twice without any stale write and with its job id remembered.
  lemma LostCommitBooksAgain()
    ensures exists actions :: BookedAgain(actions)
  {
    hide Play, NoStaleWrites, Go, PollAndBook, Losses;
    NothingPlayed(true);
    BooksTwice([]);
  }

  lemma BooksTwice(none: seq<Action>)
    requires Play(true, none) == FRESH && NoStaleWrites(true, none)
    ensures exists actions :: BookedAgain(actions)
  {
    hide Play, NoStaleWrites, Go, PollAndBook, Losses, BookedAgain;
    DepositFrom(true, none);
    BooksTwiceFrom(none + [ReadForDeposit(false)] + [Go(0)] + [Go(0)] + [Go(0)]);
  }

  lemma BooksTwiceFrom(read: seq<Action>)
    requires var r := Play(true, read);
      r.status == CONFIRMING && r.job == Waiting && r.tasks == [] && r.booked == 0 && r.lost == 0
    requires NoStaleWrites(true, read)
    ensures BookedAgain(read + PollAndBook(0) + [Throw(0, false)] + PollAndBook(0) + [Go(0)])
  {
    hide Play, NoStaleWrites, Go, PollAndBook, Losses;
    LosesFrom(true, read, 0);
    SettlesFrom(true, read + PollAndBook(0) + [Throw(0, false)], 0);
    LossesAreCounted(true, read + PollAndBook(0) + [Throw(0, false)] + PollAndBook(0) + [Go(0)]);
  }

  predicate HidesSettlement(actions: seq<Action>) {
    var r := Play(true, actions); r.booked == 1 && Losses(true, actions) == 0 && r.status == EXPIRED && r.tasks == []
  }

  lemma NothingPlayed(remembers: bool)
    ensures Play(remembers, []) == FRESH && NoStaleWrites(remembers, [])
  {
  }

  lemma SweepBegins(none: seq<Action>)
    requires Play(true, none) == FRESH
    ensures Play(true, none + [ReadForSweep]) == FRESH.(tasks := [WriteExpired])
  {
    hide Play, NoStaleWrites;
    OneMore(true, none, ReadForSweep);
  }

  lemma SweepEnds(actions: seq<Action>)
    requires Play(true, actions).tasks == [WriteExpired]
    ensures var after := Play(true, actions + [Go(0)] + [Go(0)]);
      after.status == EXPIRED && after.tasks == [] && after.booked == Play(true, actions).booked
      && after.lost == Play(true, actions).lost
  {
    OneMore(true, actions, Go(0));
    OneMore(true, actions + [Go(0)], Go(0));
    hide Play, NoStaleWrites;
    assert Play(true, actions + [Go(0)]).tasks == [AppendExpired];
  }

  // A sweep that read PENDING before the deposit was seen expires the payment after it has been settled.
  lemma StaleSweepHidesSettlement()
    ensures exists actions :: HidesSettlement(actions)
  {
    hide Play, NoStaleWrites, Go, PollAndBook, Losses;
    NothingPlayed(true);
    SweepHides([]);
  }

  lemma SweepHides(none: seq<Action>)
    requires Play(true, none) == FRESH
    ensures exists actions :: HidesSettlement(actions)
  {
    hide Play, NoStaleWrites, Go, PollAndBook, Losses;
    SweepBegins(none);
    var swept := none + [ReadForSweep];
    DepositFrom(true, swept);
    var read := swept + [ReadForDeposit(false)] + [Go(1)] + [Go(1)] + [Go(1)];
    SettlesFrom(true, read, 1);
    var settled := read + PollAndBook(1) + [Go(1)];
    SweepEnds(settled);
    LossesAreCounted(true, settled + [Go(0)] + [Go(0)]);
    assert HidesSettlement(settled + [Go(0)] + [Go(0)]);
  }

  predicate BookedByTwo(actions: seq<Action>) {
    Play(false, actions).booked == 2 && Losses(false, actions) == 0
  }

  lemma DepositBegins(none: seq<Action>)
    requires Play(false, none) == FRESH
    ensures Play(false, none + [ReadForDeposit(false)] + [Go(0)]) == FRESH.(tasks := [WriteConfirming])
  {
    hide Play, NoStaleWrites;
    OneMore(false, none, ReadForDeposit(false));
    OneMore(false, none + [ReadForDeposit(false)], Go(0));
    assert Play(false, none + [ReadForDeposit(false)]) == FRESH.(tasks := [ReadAgain]);
  }

  lemma DepositEnds(actions: seq<Action>)
    requires Play(false, actions).tasks == [WriteConfirming] && Play(false, actions).job == Finished
    ensures var after := Play(false, actions + [ForgetJob] + [Go(0)] + [Go(0)]);
      after.status == CONFIRMING && after.job == Waiting && after.tasks == []
      && after.booked == Play(false, actions).booked && after.lost == Play(false, actions).lost
  {
    OneMore(false, actions, ForgetJob);
    OneMore(false, actions + [ForgetJob], Go(0));
    OneMore(false, actions + [ForgetJob] + [Go(0)], Go(0));
    hide Play, NoStaleWrites;
    assert Play(false, actions + [ForgetJob] + [Go(0)]).tasks == [Enqueue];
  }

  // Two deposits that both read PENDING book the payment twice once the queue has forgotten the first job, though no
  // commit is lost.
  lemma ForgottenJobBooksTwice()
    ensures exists actions :: BookedByTwo(actions)
  {
    hide Play, NoStaleWrites, Go, PollAndBook, Losses;
    NothingPlayed(false);
    TwoBook([]);
  }

  lemma TwoBook(none: seq<Action>)
    requires Play(false, none) == FRESH
    ensures exists actions :: BookedByTwo(actions)
  {
    hide Play, NoStaleWrites, Go, PollAndBook, Losses;
    DepositBegins(none);
    var waits := none + [ReadForDeposit(false)] + [Go(0)];
    DepositFrom(false, waits);
    var read := waits + [ReadForDeposit(false)] + [Go(1)] + [Go(1)] + [Go(1)];
    SettlesFrom(false, read, 1);
    var once := read + PollAndBook(1) + [Go(1)];
    DepositEnds(once);
    var again := once + [ForgetJob] + [Go(0)] + [Go(0)];
    BooksFrom(false, again);
    LossesAreCounted(false, again + PollAndBook(0));
    assert BookedByTwo(again + PollAndBook(0));
  }
}
