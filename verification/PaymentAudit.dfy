/**
 The audit trail of a payment over any run: what its events are, when they form a path
 of listed transitions to its current status, and how often its status can change.
 */
module PaymentAudit {
  import opened Wrappers
  import opened PaymentStateMachine
  import opened PaymentRail
  import opened PaymentInvariants

  // ---------------------------------------------------------------- reading a trail

  // The status a list of events leads to, if each starts where the one before ended and is a listed transition.
  function Walk(events: seq<Event>, start: Status): Option<Status> {
    if events == [] then Some(start)
    else
      var e := events[|events| - 1];
      var before := Walk(events[..|events| - 1], start);
      if before == Some(e.from) && Listed(e.from, e.to) then Some(e.to) else None
  }

  // The events of payment i chain from PENDING to its current status.
  ghost predicate Whole(s: State, i: nat)
    requires i < |s.payments|
  {
    Walk(EventsOf(s.events, i), PENDING) == Some(s.payments[i].status)
  }

  // ---------------------------------------------------------------- what a trail can be

  function DetectedEvent(p: Payment, i: nat): Event { Event(i, p.tenantId, PENDING, CONFIRMING, TxDetected) }
  function SettledEvent(p: Payment, i: nat): Event { Event(i, p.tenantId, CONFIRMING, COMPLETED, PaymentSettled) }
  function ExpiredEvent(p: Payment, i: nat): Event { Event(i, p.tenantId, PENDING, EXPIRED, PaymentExpired) }
  function FailedEvent(p: Payment, i: nat): Event { Event(i, p.tenantId, CONFIRMING, FAILED, TxFailed) }
  function RefundedEvent(p: Payment, i: nat): Event { Event(i, p.tenantId, COMPLETED, REFUNDED, PaymentRefunded) }

  ghost predicate TrailOk(p: Payment, i: nat, events: seq<Event>) {
    match p.status
    case PENDING => events == []
    case CONFIRMING => events == [DetectedEvent(p, i)]
    case COMPLETED => events == [DetectedEvent(p, i), SettledEvent(p, i)]
    case EXPIRED => events == [ExpiredEvent(p, i)] || events == []
    case FAILED =>
      if FailedUnderpaid(p) then events == []
      else events == [DetectedEvent(p, i), FailedEvent(p, i)] || events == [DetectedEvent(p, i)]
    case REFUNDED =>
      && |events| >= 3 && events[0] == DetectedEvent(p, i) && events[1] == SettledEvent(p, i)
      && forall k :: 2 <= k < |events| ==> events[k] == RefundedEvent(p, i)
  }

  ghost predicate TrailsOk(ps: seq<Payment>, events: seq<Event>) {
    && (forall i: nat :: i < |ps| ==> TrailOk(ps[i], i, EventsOf(events, i)))
    && (forall i: nat :: i >= |ps| ==> EventsOf(events, i) == [])
  }

  lemma {:induction false} RefundTail(p: Payment, i: nat, events: seq<Event>)
    requires |events| >= 2 && events[0] == DetectedEvent(p, i) && events[1] == SettledEvent(p, i)
    requires forall k :: 2 <= k < |events| ==> events[k] == RefundedEvent(p, i)
    ensures Walk(events, PENDING)
         == if |events| == 2 then Some(COMPLETED) else if |events| == 3 then Some(REFUNDED) else None
  {
    ListedMoves();
    if |events| == 2 {
      assert events[..1] == [events[0]] && events[..1][..0] == [];
      assert Walk([], PENDING) == Some(PENDING) && Walk(events[..1], PENDING) == Some(CONFIRMING);
    } else {
      RefundTail(p, i, events[..|events| - 1]);
    }
  }

  lemma ShortTrail(p: Payment, i: nat)
    ensures Walk([DetectedEvent(p, i)], PENDING) == Some(CONFIRMING)
    ensures Walk([ExpiredEvent(p, i)], PENDING) == Some(EXPIRED)
    ensures Walk([DetectedEvent(p, i), FailedEvent(p, i)], PENDING) == Some(FAILED)
  {
    ListedMoves();
    assert [DetectedEvent(p, i)][..0] == [] && [ExpiredEvent(p, i)][..0] == [];
    assert [DetectedEvent(p, i), FailedEvent(p, i)][..1] == [DetectedEvent(p, i)];
  }

  // A trail of the right shape is a path to the current status exactly when it has as many events as the longest path
  // there: an expiry or a failure may lack its event, and a refund may be logged again.
  lemma TrailIsPath(p: Payment, i: nat, events: seq<Event>)
    requires TrailOk(p, i, events)
    ensures Walk(events, PENDING) == Some(p.status) <==> |events| == Rank(p.status)
  {
    match p.status
    case COMPLETED => RefundTail(p, i, events);
    case REFUNDED => RefundTail(p, i, events);
    case _ => ShortTrail(p, i);
  }

  // ---------------------------------------------------------------- every step keeps the shape

  // The events a step appends to a payment it changes.
  function Logged(env: Env, s: State, l: Label): seq<Event>
    requires Enabled(env, s, l) && TouchOf(env, s, l).Changed?
  {
    match l
    case Detect(t, found, stop) =>
      var p := s.payments[found.value];
      if !stop.AfterRecord? && !Underpaid(p, env.transfers[t]) && Visible(env, p)
        && !TxHashTaken(s.payments, env.transfers[t].txHash)
      then [DetectedEvent(p, found.value)] else []
    case PollStep(id, view, fault) => PollEvents(id, s.payments[id], OnPoll(env, s, id, view, fault).end)
    case Refund(id, caller) => if HandleRefund(s, id, caller).1.Ok? then [RefundedEvent(s.payments[id], id)] else []
  }

  // The step logs at most one event, of the payment it changes, and the lengthened trail fits the new status.
  ghost predicate LogFits(s: State, id: nat, after: State, logged: seq<Event>) {
    && id < |s.payments| && id < |after.payments|
    && (logged == [] || (|logged| == 1 && logged[0].paymentId == id))
    && after.events == s.events + logged
    && TrailOk(after.payments[id], id, EventsOf(s.events, id) + logged)
  }

  lemma DetectLogs(env: Env, s: State, l: Label)
    requires Enabled(env, s, l) && l.Detect? && l.found.Some?
    requires TrailOk(s.payments[l.found.value], l.found.value, EventsOf(s.events, l.found.value))
    ensures LogFits(s, l.found.value, Step(env, s, l), Logged(env, s, l))
  {
    hide OnTransfer;
    TransferEffect(env, s, env.transfers[l.transfer], l.found.value, l.stop);
  }

  lemma PollLogs(env: Env, s: State, id: nat, view: View, fault: Fault)
    requires id < |s.payments| && id in s.jobs && RowOk(env, s.payments[id])
    requires TrailOk(s.payments[id], id, EventsOf(s.events, id))
    ensures var r := OnPoll(env, s, id, view, fault);
      LogFits(s, id, r.state, PollEvents(id, s.payments[id], r.end))
  {
    hide OnPoll, RowOk;
    PollEffect(env, s, id, view, fault);
    var p := s.payments[id];
    var r := OnPoll(env, s, id, view, fault);
    assert r.state.payments[id] == PolledRow(p, r.end, r.state.payments[id].confirmations);
    if p.status == FAILED {
      assert FailedUnderpaid(r.state.payments[id]) == FailedUnderpaid(p);
    }
  }

  lemma RefundLogs(s: State, id: nat, caller: string)
    requires id < |s.payments| && TrailOk(s.payments[id], id, EventsOf(s.events, id))
    ensures var (after, r) := HandleRefund(s, id, caller);
      LogFits(s, id, after, if r.Ok? then [RefundedEvent(s.payments[id], id)] else [])
  {
    RefundTwice(s, id, caller);
    hide HandleRefund, EventsOf;
  }

  lemma StepLogs(env: Env, s: State, l: Label)
    requires PaymentsOk(env, s.payments) && Enabled(env, s, l) && TouchOf(env, s, l).Changed?
    requires TrailsOk(s.payments, s.events)
    ensures LogFits(s, TouchOf(env, s, l).id, Step(env, s, l), Logged(env, s, l))
  {
    hide OnTransfer, OnPoll, HandleRefund, LogFits, TrailOk, RowOk;
    match l
    case Detect(_, _, _) => DetectLogs(env, s, l);
    case PollStep(id, view, fault) => PollLogs(env, s, id, view, fault);
    case Refund(id, caller) => RefundLogs(s, id, caller);
  }

  lemma LoggedOf(events: seq<Event>, logged: seq<Event>, id: nat, i: nat)
    requires logged == [] || (|logged| == 1 && logged[0].paymentId == id)
    ensures EventsOf(events + logged, i) == if i == id then EventsOf(events, i) + logged else EventsOf(events, i)
  {
    if logged != [] {
      assert logged == [logged[0]];
      EventsOfAppend(events, logged[0], i);
    } else {
      assert events + logged == events;
    }
  }

  lemma ChangeKeepsTrails(s: State, id: nat, after: State, logged: seq<Event>)
    requires TrailsOk(s.payments, s.events) && LogFits(s, id, after, logged)
    requires after.payments == s.payments[id := after.payments[id]]
    ensures TrailsOk(after.payments, after.events)
  {
    hide TrailOk;
    forall i: nat
      ensures EventsOf(after.events, i) == if i == id then EventsOf(s.events, i) + logged else EventsOf(s.events, i)
    {
      LoggedOf(s.events, logged, id, i);
    }
  }

  lemma SweepKeepsTrails(s: State, ids: seq<nat>, now: int, crash: Crash)
    requires TrailsOk(s.payments, s.events) && SweepBatch(s.payments, now, ids)
    ensures TrailsOk(ExpireAll(s, ids, crash).payments, ExpireAll(s, ids, crash).events)
  {
    hide TrailOk, ExpireAll, EventsOf;
    var after := ExpireAll(s, ids, crash);
    ExpireAllEffect(s, ids, crash);
    forall i: nat | i < |s.payments|
      ensures TrailOk(after.payments[i], i, EventsOf(after.events, i))
    {
      assert EventsOf(s.events, i) + [] == EventsOf(s.events, i);
      if i in ids {
        assert Stale(s.payments[i], now);
        ExpiredTrail(s.payments[i], i, EventsOf(s.events, i));
      }
    }
  }

  lemma ExpiredTrail(p: Payment, i: nat, events: seq<Event>)
    requires p.status == PENDING && TrailOk(p, i, events)
    ensures TrailOk(p.(status := EXPIRED), i, events + [ExpiredEvent(p, i)])
    ensures TrailOk(p.(status := EXPIRED), i, events)
  {
  }

  lemma StepKeepsTrails(env: Env, s: State, l: Label)
    requires PaymentsOk(env, s.payments) && Enabled(env, s, l) && TrailsOk(s.payments, s.events)
    ensures TrailsOk(Step(env, s, l).payments, Step(env, s, l).events)
  {
    hide OnTransfer, OnPoll, HandleRefund, TrailOk, RowOk;
    StepTouches(env, s, l);
    if TouchOf(env, s, l).Changed? {
      StepLogs(env, s, l);
      ChangeKeepsTrails(s, TouchOf(env, s, l).id, Step(env, s, l), Logged(env, s, l));
    } else if l.Sweep? {
      SweepKeepsTrails(s, l.batch, l.at, l.crash);
    } else if TouchOf(env, s, l).Appended? {
      CreatedTrail(env, s, l);
    }
  }

  lemma CreatedTrail(env: Env, s: State, l: Label)
    requires Enabled(env, s, l) && l.Create? && |Step(env, s, l).payments| > |s.payments|
    ensures TrailOk(Step(env, s, l).payments[|s.payments|], |s.payments|, [])
  {
  }

  lemma {:induction false} RunKeepsTrails(env: Env, labels: seq<Label>)
    ensures var s := Run(env, labels).s; PaymentsOk(env, s.payments) && TrailsOk(s.payments, s.events)
  {
    if labels != [] {
      var n := |labels| - 1;
      var h := Run(env, labels[..n]);
      RunKeepsTrails(env, labels[..n]);
      if Enabled(env, h.s, labels[n]) {
        StepKeepsPayments(env, h.s, labels[n]);
        StepKeepsTrails(env, h.s, labels[n]);
      }
    }
  }

  // ---------------------------------------------------------------- main results

  // More than three hundred blocks have gone by since the block the payment was detected in.
  predicate LongGone(p: Payment, currentBlock: nat) {
    p.blockNumber.Some? && p.blockNumber.value > 0 && currentBlock > p.blockNumber.value + 300
  }

  // The calls that break a trail: an underpaid transfer, a refund of a payment already refunded, a sweep that expires
  // the payment and cannot append its event, and a poll that gives it up and cannot append its event.
  predicate BreaksTrail(env: Env, s: State, l: Label, i: nat)
    requires i < |s.payments|
  {
    match l
    case Detect(t, found, stop) =>
      t < |env.transfers| && found == Some(i) && !stop.AfterRecord?
      && env.transfers[t].amountRaw + 1 < s.payments[i].amount
    case Refund(id, caller) => id == i && caller == s.payments[i].tenantId && s.payments[i].status == REFUNDED
    case Sweep(_, batch, crash) => i in batch && i !in crash.unwritten && i in crash.silent
    case PollStep(id, view, fault) =>
      id == i && fault.EventFails? && s.payments[i].status == CONFIRMING
      && if view.receipt.None? then LongGone(s.payments[i], view.currentBlock) else view.receipt.value.reverted
    case _ => false
  }

  ghost predicate HasAllEvents(s: State, i: nat)
    requires i < |s.payments|
  {
    |EventsOf(s.events, i)| == Rank(s.payments[i].status)
  }

  lemma WholeIsLong(env: Env, labels: seq<Label>, i: nat)
    requires i < |Run(env, labels).s.payments|
    ensures Whole(Run(env, labels).s, i) <==> HasAllEvents(Run(env, labels).s, i)
  {
    hide Run;
    RunKeepsTrails(env, labels);
    var s := Run(env, labels).s;
    TrailIsPath(s.payments[i], i, EventsOf(s.events, i));
  }

  // From any reachable state a call keeps a whole trail whole exactly when it does not break it so.
  lemma CallKeepsTrailWhole(env: Env, labels: seq<Label>, l: Label, i: nat)
    requires var s := Run(env, labels).s; Enabled(env, s, l) && i < |s.payments| && Whole(s, i)
    ensures i < |Step(env, Run(env, labels).s, l).payments|
    ensures var s := Run(env, labels).s; Whole(Step(env, s, l), i) <==> !BreaksTrail(env, s, l, i)
  {
    hide Step, Whole, HasAllEvents, BreaksTrail;
    var s := Run(env, labels).s;
    assert (labels + [l])[..|labels|] == labels;
    RunKeepsTrails(env, labels);
    WholeIsLong(env, labels, i);
    WholeIsLong(env, labels + [l], i);
    TrailMoves(env, s, l, i);
  }

  // The row of a payment and the number of its events, across a call.
  lemma TrailMoves(env: Env, s: State, l: Label, i: nat)
    requires PaymentsOk(env, s.payments) && TrailsOk(s.payments, s.events) && Enabled(env, s, l) && i < |s.payments|
    ensures i < |Step(env, s, l).payments|
    ensures HasAllEvents(s, i) ==> (HasAllEvents(Step(env, s, l), i) <==> !BreaksTrail(env, s, l, i))
    ensures !HasAllEvents(s, i) ==> !HasAllEvents(Step(env, s, l), i)
  {
    hide OnTransfer, OnPoll, HandleRefund, PaymentsOk, EventsOf, LogFits;
    hide TrailOk, RowOk;
    StepTouches(env, s, l);
    EventsSoFar(s.payments[i], i, EventsOf(s.events, i));
    if TouchOf(env, s, l).Changed? {
      StepLogs(env, s, l);
      LogLength(s, TouchOf(env, s, l).id, Step(env, s, l), Logged(env, s, l), i);
      hide Step, Logged, Enabled;
      if i == TouchOf(env, s, l).id {
        ChangedTrailMoves(env, s, l, i);
      } else {
        OnlyItsOwn(env, s, l, i);
      }
    } else if l.Sweep? {
      ExpireAllEffect(s, l.batch, l.crash);
    }
  }

  lemma OnlyItsOwn(env: Env, s: State, l: Label, i: nat)
    requires Enabled(env, s, l) && i < |s.payments| && TouchOf(env, s, l).Changed? && i != TouchOf(env, s, l).id
    ensures !BreaksTrail(env, s, l, i)
  {
    hide Step;
  }

  // The row and the events of the payment a call changes.
  lemma ChangedTrailMoves(env: Env, s: State, l: Label, i: nat)
    requires Enabled(env, s, l) && TouchOf(env, s, l).Changed? && i == TouchOf(env, s, l).id && i < |s.payments|
    ensures i < |Step(env, s, l).payments|
    ensures var before, after, n := s.payments[i].status, Step(env, s, l).payments[i].status, |Logged(env, s, l)|;
      && (BreaksTrail(env, s, l, i) ==> Rank(after) != Rank(before) + n)
      && (!BreaksTrail(env, s, l, i) ==> Rank(after) == Rank(before) + n)
      && (before == EXPIRED || before == FAILED ==> after == before && n == 0)
      && (before == REFUNDED ==> after == before)
  {
    hide OnTransfer, OnPoll, HandleRefund;
    match l
    case Detect(_, _, _) => DetectMoves(env, s, l);
    case PollStep(_, _, _) => PollMoves(env, s, l);
    case Refund(_, caller) => RefundTwice(s, i, caller);
  }

  // A trail without all its events belongs to a payment whose status is final.
  lemma EventsSoFar(p: Payment, i: nat, events: seq<Event>)
    requires TrailOk(p, i, events)
    ensures |events| != Rank(p.status) ==>
      p.status == EXPIRED || p.status == FAILED || (p.status == REFUNDED && |events| > 3)
  {
  }

  lemma DetectMoves(env: Env, s: State, l: Label)
    requires Enabled(env, s, l) && l.Detect? && l.found.Some?
    ensures var id := l.found.value;
      s.payments[id].status == PENDING
      && Rank(Step(env, s, l).payments[id].status) == |Logged(env, s, l)| + if BreaksTrail(env, s, l, id) then 2 else 0
  {
    hide OnTransfer;
    TransferEffect(env, s, env.transfers[l.transfer], l.found.value, l.stop);
  }

  lemma PollMoves(env: Env, s: State, l: Label)
    requires Enabled(env, s, l) && l.PollStep?
    ensures var p, q := s.payments[l.id], Step(env, s, l).payments[l.id];
      && |Logged(env, s, l)| <= (if p.status == CONFIRMING then 1 else 0)
      && Rank(q.status) == Rank(p.status) + |Logged(env, s, l)| + (if BreaksTrail(env, s, l, l.id) then 1 else 0)
      && (p.status != CONFIRMING ==> q.status == p.status)
  {
    hide OnPoll;
    PollEffect(env, s, l.id, l.view, l.fault);
    SilentExactly(env, s, l);
  }

  lemma SilentExactly(env: Env, s: State, l: Label)
    requires Enabled(env, s, l) && l.PollStep?
    ensures OnPoll(env, s, l.id, l.view, l.fault).end.FailedSilently? <==> BreaksTrail(env, s, l, l.id)
  {
    hide HandleConfirmationUpdate, UpdateTx, Retry, WithoutJob, Recheck;
    if l.view.receipt.Some? {
      var confirmations := l.view.currentBlock - l.view.receipt.value.blockNumber + 1;
      ReceiptIsLoud(env, s, l.id, s.jobs[l.id], confirmations, l.fault);
    }
  }

  lemma ReceiptIsLoud(env: Env, s: State, id: nat, job: ConfirmJob, confirmations: int, fault: Fault)
    requires id < |s.payments|
    ensures !PollReceipt(env, s, id, job, confirmations, fault).end.FailedSilently?
  {
    hide HandleConfirmationUpdate;
    var status := if confirmations >= job.target then CONFIRMED else SUBMITTED;
    UpdateEffect(env, UpdateTx(s, job.txHash, status, Some(confirmations)), id, confirmations, fault);
  }

  // Some call of the run breaks the trail of the payment.
  predicate EverBreaksTrail(env: Env, labels: seq<Label>, i: nat) {
    labels != []
    && var n := |labels| - 1;
       var s := Run(env, labels[..n]).s;
       EverBreaksTrail(env, labels[..n], i)
         || (i < |s.payments| && Enabled(env, s, labels[n]) && BreaksTrail(env, s, labels[n], i))
  }

  // After any run, a payment's events chain from PENDING to its status by listed transitions if and only if no call of
  // the run broke its trail.
  lemma {:induction false} AuditTrail(env: Env, labels: seq<Label>, i: nat)
    ensures i < |Run(env, labels).s.payments| ==> (Whole(Run(env, labels).s, i) <==> !EverBreaksTrail(env, labels, i))
    ensures i >= |Run(env, labels).s.payments| ==> !EverBreaksTrail(env, labels, i)
  {
    hide Step, Whole, HasAllEvents, BreaksTrail, TrailsOk, PaymentsOk, Enabled;
    if labels != [] {
      var n := |labels| - 1;
      var s := Run(env, labels[..n]).s;
      AuditTrail(env, labels[..n], i);
      RunKeepsTrails(env, labels[..n]);
      if i < |Run(env, labels).s.payments| {
        WholeIsLong(env, labels, i);
      }
      if Enabled(env, s, labels[n]) {
        NewRowIsFirst(env, s, labels[n]);
        if i < |s.payments| {
          WholeIsLong(env, labels[..n], i);
          TrailMoves(env, s, labels[n], i);
        } else if i < |Run(env, labels).s.payments| {
          NewTrail(env, s, labels[n], i);
        }
      }
    }
  }

  lemma NewTrail(env: Env, s: State, l: Label, i: nat)
    requires PaymentsOk(env, s.payments) && TrailsOk(s.payments, s.events) && Enabled(env, s, l)
    requires |s.payments| <= i < |Step(env, s, l).payments|
    ensures HasAllEvents(Step(env, s, l), i)
  {
    hide OnTransfer, OnPoll, HandleRefund, ExpireAll, PaymentsOk, TrailOk;
  }

  lemma LogLength(s: State, id: nat, after: State, logged: seq<Event>, i: nat)
    requires LogFits(s, id, after, logged)
    ensures |EventsOf(after.events, i)| == |EventsOf(s.events, i)| + if i == id then |logged| else 0
  {
    LoggedOf(s.events, logged, id, i);
  }

  lemma RefundTwice(s: State, id: nat, caller: string)
    requires id < |s.payments|
    ensures var (after, r) := HandleRefund(s, id, caller);
      var p := s.payments[id];
      && (r.Ok? <==> caller == p.tenantId && (p.status == COMPLETED || p.status == REFUNDED))
      && after.payments == s.payments[id := if r.Ok? then p.(status := REFUNDED) else p]
      && after.events == s.events + if r.Ok? then [RefundedEvent(p, id)] else []
  {
    ListedPairs(s.payments[id].status, REFUNDED);
  }

  // How often a run changed the status of payment i after creating it.
  function StatusChanges(env: Env, labels: seq<Label>, i: nat): nat {
    if labels == [] then 0
    else
      var n := |labels| - 1;
      var before, after := Run(env, labels[..n]).s.payments, Run(env, labels).s.payments;
      StatusChanges(env, labels[..n], i)
      + if i < |before| && i < |after| && before[i].status != after[i].status then 1 else 0
  }

  // A listed transition raises the rank, and no rank exceeds three.
  lemma RankStep(env: Env, s: State, l: Label, i: nat)
    requires PaymentsOk(env, s.payments) && Enabled(env, s, l) && i < |s.payments|
    ensures i < |Step(env, s, l).payments|
    ensures var p, q := s.payments[i], Step(env, s, l).payments[i];
      Rank(p.status) + (if p.status != q.status then 1 else 0) <= Rank(q.status) <= 3
  {
    hide Step, PaymentsOk;
    RowsMove(env, s, l);
    ListedPairs(s.payments[i].status, Step(env, s, l).payments[i].status);
  }

  lemma NewRowIsFirst(env: Env, s: State, l: Label)
    requires Enabled(env, s, l)
    ensures |s.payments| <= |Step(env, s, l).payments|
  {
    hide Step;
  }

  // Every change is a listed transition, so there are at most three in any run.
  lemma {:induction false} AtMostThreeChanges(env: Env, labels: seq<Label>, i: nat)
    ensures i < |Run(env, labels).s.payments|
      ==> StatusChanges(env, labels, i) <= Rank(Run(env, labels).s.payments[i].status)
    ensures i >= |Run(env, labels).s.payments| ==> StatusChanges(env, labels, i) == 0
    ensures StatusChanges(env, labels, i) <= 3
  {
    hide Step, PaymentsOk, TrailsOk, Rank, Orphans, Enabled;
    RanksAreSmall();
    if labels != [] {
      var n := |labels| - 1;
      var s := Run(env, labels[..n]).s;
      AtMostThreeChanges(env, labels[..n], i);
      RunKeepsTrails(env, labels[..n]);
      if Enabled(env, s, labels[n]) {
        NewRowIsFirst(env, s, labels[n]);
        if i < |s.payments| {
          RankStep(env, s, labels[n], i);
        }
      }
    }
  }

  lemma RanksAreSmall()
    ensures forall status :: Rank(status) <= 3
  {
  }

  // FAILED, EXPIRED and REFUNDED are final: no step changes the status of such a payment.
  lemma FinalStatuses(env: Env, labels: seq<Label>, l: Label, i: nat)
    requires var s := Run(env, labels).s;
      Enabled(env, s, l) && i < |s.payments| && IsTerminal(s.payments[i].status) && s.payments[i].status != COMPLETED
    ensures var s := Run(env, labels).s; Step(env, s, l).payments[i].status == s.payments[i].status
  {
    hide PaymentsOk, TrailsOk, Run;
    var s := Run(env, labels).s;
    RunKeepsTrails(env, labels);
    RankStep(env, s, l, i);
    RowsMove(env, s, l);
    hide Step;
    ListedPairs(s.payments[i].status, Step(env, s, l).payments[i].status);
  }
}
