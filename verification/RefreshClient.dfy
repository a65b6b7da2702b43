/**
 The single-flight token refresh of the browser client (client.ts): the response interceptor,
 its isRefreshing flag and its queue of parked requests. One step is one turn of the event
 loop: a response that arrives, or the continuation of the request that awaits the refresh.
 */
module RefreshClient {
  // Parked holds the ticket of the parking; Leading the request that carries the refresh.
  datatype Phase = InFlight | Parked(ticket: nat) | Leading(refresh: nat) | Fulfilled | Rejected

  // leader: who started this refresh call, for a refresh the interceptor started itself.
  // parks: how often the request has been parked so far.
  datatype Request = Request(isRefresh: bool, retry: bool, leader: int, phase: Phase, parks: nat)

  const NO_LEADER := -1

  datatype Waiter = Waiter(ticket: nat, id: nat)

  datatype Client = Client(
    requests: seq<Request>, isRefreshing: bool, failedQueue: seq<Waiter>, loggedIn: bool,
    nextTicket: nat, released: seq<nat>)

  const IDLE := Client([], false, [], true, 0, [])

  datatype Outcome = Success | Unauthorized | Failure

  // ---------------------------------------------------------------- the interceptor

  function Settle(c: Client, id: nat, phase: Phase): Client
    requires id < |c.requests|
  {
    c.(requests := c.requests[id := c.requests[id].(phase := phase)])
  }

  function Park(c: Client, id: nat): Client
    requires id < |c.requests|
  {
    var r := c.requests[id];
    c.(requests := c.requests[id := r.(phase := Parked(c.nextTicket), parks := r.parks + 1)],
       failedQueue := c.failedQueue + [Waiter(c.nextTicket, id)],
       nextTicket := c.nextTicket + 1)
  }

  function Lead(c: Client, id: nat): Client
    requires id < |c.requests|
  {
    var r := c.requests[id];
    c.(requests := c.requests[id := r.(retry := true, phase := Leading(|c.requests|))]
                   + [Request(true, false, id, InFlight, 0)],
       isRefreshing := true)
  }

  function OnUnauthorized(c: Client, id: nat): Client
    requires id < |c.requests|
  {
    var r := c.requests[id];
    if r.retry then Settle(c, id, Rejected)
    else if r.isRefresh then Settle(c, id, Rejected).(loggedIn := false)
    else if c.isRefreshing then Park(c, id)
    else Lead(c, id)
  }

  function OnResponse(c: Client, id: nat, outcome: Outcome): Client
    requires id < |c.requests|
  {
    match outcome
    case Success => Settle(c, id, Fulfilled)
    case Failure => Settle(c, id, Rejected)
    case Unauthorized => OnUnauthorized(c, id)
  }

  // Every waiter in turn: sent again with the new token, or rejected.
  function Release(requests: seq<Request>, queue: seq<Waiter>, phase: Phase): (r: seq<Request>)
    requires forall k :: 0 <= k < |queue| ==> queue[k].id < |requests|
    ensures |r| == |requests|
  {
    if queue == [] then requests
    else
      var n := |queue| - 1;
      var before := Release(requests, queue[..n], phase);
      before[queue[n].id := before[queue[n].id].(phase := phase)]
  }

  function Tickets(queue: seq<Waiter>): seq<nat> {
    seq(|queue|, k requires 0 <= k < |queue| => queue[k].ticket)
  }

  // The request that awaited the refresh goes on; ok: the refresh succeeded and its answer held a token.
  function OnRefreshed(c: Client, id: nat, ok: bool): Client
    requires id < |c.requests| && forall k :: 0 <= k < |c.failedQueue| ==> c.failedQueue[k].id < |c.requests|
  {
    var phase := if ok then InFlight else Rejected;
    var requests := Release(c.requests, c.failedQueue, phase);
    Client(requests[id := requests[id].(phase := phase)], false, [], c.loggedIn && ok,
           c.nextTicket, c.released + Tickets(c.failedQueue))
  }

  // ---------------------------------------------------------------- runs

  datatype Label = Send(isRefresh: bool) | Respond(id: nat, outcome: Outcome) | Continue(id: nat, tokenOk: bool)

  predicate Awaits(c: Client, id: nat) {
    id < |c.requests| && c.requests[id].phase.Leading? && c.requests[id].phase.refresh < |c.requests|
  }

  predicate Answered(c: Client, id: nat)
    requires Awaits(c, id)
  {
    var phase := c.requests[c.requests[id].phase.refresh].phase;
    phase == Fulfilled || phase == Rejected
  }

  predicate Enabled(c: Client, l: Label) {
    match l
    case Send(_) => true
    case Respond(id, _) => id < |c.requests| && c.requests[id].phase == InFlight
    case Continue(id, _) =>
      && Awaits(c, id) && Answered(c, id)
      && forall k :: 0 <= k < |c.failedQueue| ==> c.failedQueue[k].id < |c.requests|
  }

  function Step(c: Client, l: Label): Client
    requires Enabled(c, l)
  {
    match l
    case Send(isRefresh) => c.(requests := c.requests + [Request(isRefresh, false, NO_LEADER, InFlight, 0)])
    case Respond(id, outcome) => OnResponse(c, id, outcome)
    case Continue(id, tokenOk) =>
      OnRefreshed(c, id, tokenOk && c.requests[c.requests[id].phase.refresh].phase == Fulfilled)
  }

  function Run(labels: seq<Label>): Client {
    if labels == [] then IDLE
    else
      var n := |labels| - 1;
      var c := Run(labels[..n]);
      if Enabled(c, labels[n]) then Step(c, labels[n]) else c
  }

  // ---------------------------------------------------------------- the invariant

  // Refresh calls the interceptor has started, and those it has finished.
  function Started(requests: seq<Request>): nat {
    if requests == [] then 0
    else Started(requests[..|requests| - 1]) + if requests[|requests| - 1].leader != NO_LEADER then 1 else 0
  }

  function Retried(requests: seq<Request>): nat {
    if requests == [] then 0
    else Retried(requests[..|requests| - 1]) + if requests[|requests| - 1].retry then 1 else 0
  }

  function Ordinary(requests: seq<Request>): nat {
    if requests == [] then 0
    else Ordinary(requests[..|requests| - 1]) + if requests[|requests| - 1].isRefresh then 0 else 1
  }

  // The tickets handed out so far, in order.
  function Issued(n: nat): seq<nat> {
    if n == 0 then [] else Issued(n - 1) + [n - 1]
  }

  ghost predicate Waits(queue: seq<Waiter>, i: nat) {
    exists k :: 0 <= k < |queue| && queue[k].id == i
  }

  // A request that waits for the refresh r: r is an unparked refresh call of its own.
  ghost predicate LeadsProperly(c: Client, i: nat)
    requires i < |c.requests|
  {
    c.requests[i].phase.Leading? ==>
      var r := c.requests[i].phase.refresh;
      && r < |c.requests| && c.requests[r].leader == i && c.isRefreshing
      && c.requests[i].retry
  }

  ghost predicate RequestOk(c: Client, i: nat)
    requires i < |c.requests|
  {
    var r := c.requests[i];
    && LeadsProperly(c, i)
    && (r.isRefresh ==> !r.retry && !r.phase.Parked? && !r.phase.Leading?)
    && (r.leader != NO_LEADER ==> r.isRefresh && 0 <= r.leader < |c.requests|)
    && (r.leader != NO_LEADER && r.phase == InFlight ==> c.requests[r.leader].phase == Leading(i))
    && (r.phase.Parked? ==> Waiter(r.phase.ticket, i) in c.failedQueue && !r.retry)
  }

  ghost predicate QueueOk(c: Client) {
    && (forall k :: 0 <= k < |c.failedQueue| ==>
          c.failedQueue[k].id < |c.requests|
            && c.requests[c.failedQueue[k].id].phase == Parked(c.failedQueue[k].ticket))
    && (!c.isRefreshing ==> c.failedQueue == [])
    && c.released + Tickets(c.failedQueue) == Issued(c.nextTicket)
  }

  ghost predicate OneLeader(c: Client) {
    && (forall i, j :: 0 <= i < j < |c.requests| ==> !(c.requests[i].phase.Leading? && c.requests[j].phase.Leading?))
    && (c.isRefreshing <==> exists i :: 0 <= i < |c.requests| && c.requests[i].phase.Leading?)
  }

  ghost predicate CountsOk(c: Client) {
    && Started(c.requests) == Retried(c.requests) <= Ordinary(c.requests)
    && (c.isRefreshing ==> Started(c.requests) > 0)
    && forall i :: 0 <= i < |c.requests| ==>
         c.requests[i].parks + (if c.isRefreshing then 1 else 0) <= Started(c.requests)
           + if c.requests[i].phase.Parked? then 1 else 0
  }

  ghost predicate Inv(c: Client) {
    && (forall i: nat :: i < |c.requests| ==> RequestOk(c, i))
    && QueueOk(c) && OneLeader(c) && CountsOk(c)
  }

  // ---------------------------------------------------------------- every step keeps it

  lemma {:induction false} CountsAfter(requests: seq<Request>, i: nat, q: Request)
    requires i < |requests| && q.leader == requests[i].leader && q.isRefresh == requests[i].isRefresh
    ensures Started(requests[i := q]) == Started(requests) && Ordinary(requests[i := q]) == Ordinary(requests)
    ensures Retried(requests[i := q]) + (if requests[i].retry then 1 else 0)
         == Retried(requests) + if q.retry then 1 else 0
  {
    var n := |requests| - 1;
    if i == n {
      assert requests[i := q][..n] == requests[..n];
    } else {
      CountsAfter(requests[..n], i, q);
      assert requests[i := q][..n] == requests[..n][i := q];
    }
  }

  lemma CountsAppend(requests: seq<Request>, q: Request)
    ensures Started(requests + [q]) == Started(requests) + if q.leader != NO_LEADER then 1 else 0
    ensures Retried(requests + [q]) == Retried(requests) + if q.retry then 1 else 0
    ensures Ordinary(requests + [q]) == Ordinary(requests) + if q.isRefresh then 0 else 1
  {
    assert (requests + [q])[..|requests|] == requests;
  }

  // A request that is neither retried nor a refresh leaves room below the count of ordinary requests.
  lemma {:induction false} RoomToRetry(requests: seq<Request>, i: nat)
    requires forall k :: 0 <= k < |requests| && requests[k].retry ==> !requests[k].isRefresh
    requires i < |requests| && !requests[i].retry && !requests[i].isRefresh
    ensures Retried(requests) < Ordinary(requests)
  {
    var n := |requests| - 1;
    if i < n {
      RoomToRetry(requests[..n], i);
    } else {
      RetriedAreOrdinary(requests[..n]);
    }
  }

  lemma {:induction false} RetriedAreOrdinary(requests: seq<Request>)
    requires forall k :: 0 <= k < |requests| && requests[k].retry ==> !requests[k].isRefresh
    ensures Retried(requests) <= Ordinary(requests)
  {
    if requests != [] {
      RetriedAreOrdinary(requests[..|requests| - 1]);
    }
  }

  lemma WaitsSplit(queue: seq<Waiter>, i: nat)
    requires queue != []
    ensures Waits(queue, i) == (Waits(queue[..|queue| - 1], i) || queue[|queue| - 1].id == i)
  {
    var n := |queue| - 1;
    if Waits(queue, i) && queue[n].id != i {
      var k :| 0 <= k < |queue| && queue[k].id == i;
      assert queue[..n][k].id == i;
    }
    if Waits(queue[..n], i) {
      var k :| 0 <= k < n && queue[..n][k].id == i;
      assert queue[k].id == i;
    }
  }

  lemma {:induction false} ReleaseEffect(requests: seq<Request>, queue: seq<Waiter>, phase: Phase)
    requires forall k :: 0 <= k < |queue| ==> queue[k].id < |requests|
    ensures var r := Release(requests, queue, phase);
      && (forall i: nat :: i < |requests| ==>
            r[i] == if Waits(queue, i) then requests[i].(phase := phase) else requests[i])
      && Started(r) == Started(requests) && Retried(r) == Retried(requests) && Ordinary(r) == Ordinary(requests)
  {
    if queue != [] {
      var n := |queue| - 1;
      ReleaseEffect(requests, queue[..n], phase);
      var before := Release(requests, queue[..n], phase);
      CountsAfter(before, queue[n].id, before[queue[n].id].(phase := phase));
      forall i: nat
        ensures Waits(queue, i) == (Waits(queue[..n], i) || queue[n].id == i)
      {
        WaitsSplit(queue, i);
      }
    }
  }

  lemma SendKeeps(c: Client, isRefresh: bool)
    requires Inv(c)
    ensures Inv(Step(c, Send(isRefresh)))
  {
    hide Started, Retried, Ordinary, Issued, Tickets;
    CountsAppend(c.requests, Request(isRefresh, false, NO_LEADER, InFlight, 0));
    var after := Step(c, Send(isRefresh));
    forall i: nat | i < |after.requests|
      ensures RequestOk(after, i)
    {
      assert i < |c.requests| ==> RequestOk(c, i) && after.requests[i] == c.requests[i];
    }
    if c.isRefreshing {
      var i :| 0 <= i < |c.requests| && c.requests[i].phase.Leading?;
      assert after.requests[i].phase.Leading?;
    }
  }

  lemma SettleKeeps(c: Client, id: nat, phase: Phase)
    requires Inv(c) && id < |c.requests| && c.requests[id].phase == InFlight
      && (phase == Fulfilled || phase == Rejected)
    ensures Inv(Settle(c, id, phase))
  {
    var after := Settle(c, id, phase);
    CountsAfter(c.requests, id, after.requests[id]);
    forall i: nat | i < |c.requests|
      ensures RequestOk(after, i)
    {
      assert RequestOk(c, i);
    }
    if c.isRefreshing {
      var i :| 0 <= i < |c.requests| && c.requests[i].phase.Leading?;
      assert after.requests[i].phase.Leading?;
    }
  }

  lemma ParkKeeps(c: Client, id: nat)
    requires Inv(c) && id < |c.requests| && c.requests[id].phase == InFlight && c.isRefreshing
    requires !c.requests[id].retry && !c.requests[id].isRefresh
    ensures Inv(Park(c, id))
  {
    var after := Park(c, id);
    CountsAfter(c.requests, id, after.requests[id]);
    forall i: nat | i < |c.requests|
      ensures RequestOk(after, i)
    {
      assert RequestOk(c, i);
    }
    assert after.failedQueue[|c.failedQueue|] == Waiter(c.nextTicket, id);
    assert Tickets(after.failedQueue) == Tickets(c.failedQueue) + [c.nextTicket];
    var i :| 0 <= i < |c.requests| && c.requests[i].phase.Leading?;
    assert after.requests[i].phase.Leading?;
  }

  lemma LeadKeeps(c: Client, id: nat)
    requires Inv(c) && id < |c.requests| && c.requests[id].phase == InFlight && !c.isRefreshing
    requires !c.requests[id].retry && !c.requests[id].isRefresh
    ensures Inv(Lead(c, id))
  {
    var after := Lead(c, id);
    var r := c.requests[id];
    var q := r.(retry := true, phase := Leading(|c.requests|));
    forall k | 0 <= k < |c.requests| && c.requests[k].retry
      ensures !c.requests[k].isRefresh
    {
      assert RequestOk(c, k);
    }
    RoomToRetry(c.requests, id);
    CountsAfter(c.requests, id, q);
    CountsAppend(c.requests[id := q], Request(true, false, id, InFlight, 0));
    forall i: nat | i < |after.requests|
      ensures RequestOk(after, i)
    {
      assert i < |c.requests| ==> RequestOk(c, i);
    }
    assert after.requests[id].phase.Leading?;
  }

  // After the continuation the leader and every parked request have moved on; nothing else has.
  lemma RefreshedRows(c: Client, id: nat, ok: bool)
    requires Inv(c) && Awaits(c, id)
    ensures var after := OnRefreshed(c, id, ok);
      var phase := if ok then InFlight else Rejected;
      && |after.requests| == |c.requests|
      && (forall i: nat :: i < |c.requests| ==>
            after.requests[i] == if i == id || c.requests[i].phase.Parked? then c.requests[i].(phase := phase)
                                 else c.requests[i])
      && Started(after.requests) == Started(c.requests) && Retried(after.requests) == Retried(c.requests)
      && Ordinary(after.requests) == Ordinary(c.requests)
  {
    var phase := if ok then InFlight else Rejected;
    var released := Release(c.requests, c.failedQueue, phase);
    ReleaseEffect(c.requests, c.failedQueue, phase);
    CountsAfter(released, id, released[id].(phase := phase));
    forall i: nat | i < |c.requests|
      ensures Waits(c.failedQueue, i) <==> c.requests[i].phase.Parked?
    {
      ParkedWaits(c, i);
    }
  }

  lemma ParkedWaits(c: Client, i: nat)
    requires Inv(c) && i < |c.requests|
    ensures Waits(c.failedQueue, i) <==> c.requests[i].phase.Parked?
  {
    assert RequestOk(c, i);
    if c.requests[i].phase.Parked? {
      var k :| 0 <= k < |c.failedQueue| && c.failedQueue[k] == Waiter(c.requests[i].phase.ticket, i);
      assert c.failedQueue[k].id == i;
    }
  }

  lemma RefreshedKeeps(c: Client, id: nat, ok: bool)
    requires Inv(c) && Awaits(c, id) && Answered(c, id)
    ensures Inv(OnRefreshed(c, id, ok))
  {
    var after := OnRefreshed(c, id, ok);
    RefreshedRows(c, id, ok);
    hide OnRefreshed, Started, Retried, Ordinary;
    assert after.released == c.released + Tickets(c.failedQueue) && after.failedQueue == [] && !after.isRefreshing
           && after.nextTicket == c.nextTicket by {
      RefreshedQueue(c, id, ok);
    }
    assert Tickets([]) == [];
    forall i: nat | i < |c.requests|
      ensures RequestOk(after, i) && !after.requests[i].phase.Leading? && !after.requests[i].phase.Parked?
    {
      assert RequestOk(c, i) && RequestOk(c, id);
    }
  }

  lemma RefreshedQueue(c: Client, id: nat, ok: bool)
    requires Inv(c) && Awaits(c, id)
    ensures var after := OnRefreshed(c, id, ok);
      after.released == c.released + Tickets(c.failedQueue) && after.failedQueue == [] && !after.isRefreshing
      && after.nextTicket == c.nextTicket
  {
  }

  lemma StepKeeps(c: Client, l: Label)
    requires Inv(c) && Enabled(c, l)
    ensures Inv(Step(c, l))
  {
    hide Inv, Settle, Park, Lead, OnRefreshed;
    match l
    case Send(isRefresh) => SendKeeps(c, isRefresh);
    case Continue(id, tokenOk) =>
      RefreshedKeeps(c, id, tokenOk && c.requests[c.requests[id].phase.refresh].phase == Fulfilled);
    case Respond(id, outcome) =>
      SettleKeeps(c, id, Fulfilled);
      SettleKeeps(c, id, Rejected);
      LoginIsAside(Settle(c, id, Rejected));
      if outcome == Unauthorized && !c.requests[id].retry && !c.requests[id].isRefresh {
        if c.isRefreshing {
          ParkKeeps(c, id);
        } else {
          LeadKeeps(c, id);
        }
      }
  }

  lemma LoginIsAside(c: Client)
    requires Inv(c)
    ensures Inv(c.(loggedIn := false))
  {
    var after := c.(loggedIn := false);
    forall i: nat | i < |c.requests|
      ensures RequestOk(after, i)
    {
      assert RequestOk(c, i);
    }
  }

  lemma {:induction false} RunKeeps(labels: seq<Label>)
    ensures Inv(Run(labels))
  {
    if labels != [] {
      var n := |labels| - 1;
      RunKeeps(labels[..n]);
      if Enabled(Run(labels[..n]), labels[n]) {
        StepKeeps(Run(labels[..n]), labels[n]);
      }
    }
  }

  // ---------------------------------------------------------------- main results

  // After any run at most one refresh started by the interceptor is in flight, its leader is waiting for it, and it is
  // never parked.
  lemma SingleFlight(labels: seq<Label>, i: nat, j: nat)
    requires var c := Run(labels); i < |c.requests| && j < |c.requests|
    requires var c := Run(labels);
      c.requests[i].leader != NO_LEADER && c.requests[j].leader != NO_LEADER
      && c.requests[i].phase == InFlight && c.requests[j].phase == InFlight
    ensures i == j && Run(labels).isRefreshing
  {
    hide Run, QueueOk, CountsOk, Started, Retried, Ordinary, Issued, Tickets;
    RunKeeps(labels);
    var c := Run(labels);
    assert RequestOk(c, i) && RequestOk(c, j);
  }

  lemma RefreshNeverParked(labels: seq<Label>, i: nat)
    requires i < |Run(labels).requests| && Run(labels).requests[i].isRefresh
    ensures var phase := Run(labels).requests[i].phase; !phase.Parked? && !phase.Leading?
  {
    RunKeeps(labels);
    assert RequestOk(Run(labels), i);
  }

  // No request stays parked while isRefreshing is false, and then every parking so far has been released exactly once,
  // in the order of parking; while it is true, the waiters are exactly the parkings not yet released.
  lemma ParkingsReleasedOnce(labels: seq<Label>)
    ensures var c := Run(labels);
      && c.released + Tickets(c.failedQueue) == Issued(c.nextTicket)
      && (!c.isRefreshing ==>
            c.released == Issued(c.nextTicket) && forall i :: 0 <= i < |c.requests| ==> !c.requests[i].phase.Parked?)
  {
    RunKeeps(labels);
    var c := Run(labels);
    if !c.isRefreshing {
      assert Tickets([]) == [];
      forall i: nat | i < |c.requests|
        ensures !c.requests[i].phase.Parked?
      {
        assert RequestOk(c, i);
      }
    }
  }

  // No deadlock: while a refresh is on, its leader waits for a call that is in flight or answered, and however that
  // call is answered, the leader's next turn releases every waiter and ends the refresh.
  lemma NoDeadlock(labels: seq<Label>, outcome: Outcome, tokenOk: bool) returns (leader: nat)
    requires Run(labels).isRefreshing
    ensures Awaits(Run(labels), leader)
    ensures var c := Run(labels);
      var call := c.requests[leader].phase.refresh;
      var respond := Respond(call, outcome);
      && (Answered(c, leader) || Enabled(c, respond))
      && var answered := if Answered(c, leader) then c else Step(c, respond);
         && Enabled(answered, Continue(leader, tokenOk))
         && var after := Step(answered, Continue(leader, tokenOk));
            && !after.isRefreshing && after.failedQueue == []
            && forall i :: 0 <= i < |c.requests| && c.requests[i].phase.Parked? ==>
                 after.requests[i].phase == InFlight || after.requests[i].phase == Rejected
  {
    hide Run, Started, Retried, Ordinary, Issued, Tickets, CountsOk;
    RunKeeps(labels);
    var c := Run(labels);
    var l :| 0 <= l < |c.requests| && c.requests[l].phase.Leading?;
    leader := l;
    assert RequestOk(c, leader);
    var call := c.requests[leader].phase.refresh;
    assert RequestOk(c, call);
    var answered := if Answered(c, leader) then c else Step(c, Respond(call, outcome));
    StepOfCall(c, leader, outcome);
    if !Answered(c, leader) {
      StepKeeps(c, Respond(call, outcome));
    }
    var ok := tokenOk && answered.requests[call].phase == Fulfilled;
    RefreshedRows(answered, leader, ok);
    RefreshedQueue(answered, leader, ok);
  }

  // An answer to the refresh call itself is never parked and starts no second refresh.
  lemma StepOfCall(c: Client, leader: nat, outcome: Outcome)
    requires Inv(c) && Awaits(c, leader)
    ensures var call := c.requests[leader].phase.refresh;
      c.requests[call].phase == InFlight ==>
        var after := Step(c, Respond(call, outcome));
        && after.failedQueue == c.failedQueue && call != leader
        && after.requests
          == c.requests[call := c.requests[call].(phase := if outcome == Success then Fulfilled else Rejected)]
  {
    var call := c.requests[leader].phase.refresh;
    assert RequestOk(c, leader) && RequestOk(c, call);
  }

  // A storm of 401s dies out: the interceptor starts at most one refresh per ordinary request, and parks no request
  // more often than that.
  lemma BoundedEffort(labels: seq<Label>, i: nat)
    requires i < |Run(labels).requests|
    ensures var c := Run(labels);
      Started(c.requests) <= Ordinary(c.requests) && c.requests[i].parks <= Ordinary(c.requests)
  {
    RunKeeps(labels);
    assert RequestOk(Run(labels), i);
  }

  // ---------------------------------------------------------------- the module as it runs

  class ApiClient {
    var requests: seq<Request>
    var isRefreshing: bool
    var failedQueue: seq<Waiter>
    var loggedIn: bool
    var nextTicket: nat
    var released: seq<nat>

    constructor ()
      ensures Contents() == IDLE
    {
      requests, isRefreshing, failedQueue, loggedIn, nextTicket, released := [], false, [], true, 0, [];
    }

    function Contents(): Client
      reads this
    {
      Client(requests, isRefreshing, failedQueue, loggedIn, nextTicket, released)
    }

    method SetPhase(id: nat, phase: Phase)
      requires id < |requests|
      modifies this`requests
      ensures requests == old(requests)[id := old(requests)[id].(phase := phase)]
    {
      requests := requests[id := requests[id].(phase := phase)];
    }

    // Walks the queue in order, resolving or rejecting every waiter, and empties it.
    method ProcessQueue(phase: Phase)
      requires forall k :: 0 <= k < |failedQueue| ==> failedQueue[k].id < |requests|
      modifies this`requests, this`failedQueue, this`released
      ensures requests == Release(old(requests), old(failedQueue), phase)
      ensures failedQueue == [] && released == old(released) + Tickets(old(failedQueue))
    {
      ghost var before := requests;
      ghost var done := released;
      for k := 0 to |failedQueue|
        invariant failedQueue == old(failedQueue)
        invariant |requests| == |before| && requests == Release(before, failedQueue[..k], phase)
        invariant released == done + Tickets(failedQueue[..k])
      {
        var waiter := failedQueue[k];
        assert failedQueue[..k + 1][..k] == failedQueue[..k];
        assert Tickets(failedQueue[..k + 1]) == Tickets(failedQueue[..k]) + [waiter.ticket];
        SetPhase(waiter.id, phase);
        released := released + [waiter.ticket];
      }
      assert failedQueue[..|failedQueue|] == failedQueue;
      failedQueue := [];
    }

    // The response interceptor, up to its first await.
    method Intercept(id: nat, outcome: Outcome)
      requires id < |requests|
      modifies this
      ensures Contents() == OnResponse(old(Contents()), id, outcome)
    {
      if outcome == Success {
        SetPhase(id, Fulfilled);
        return;
      }
      var original := requests[id];
      if outcome == Unauthorized && !original.retry {
        if original.isRefresh {
          loggedIn := false;
          SetPhase(id, Rejected);
          return;
        }
        if isRefreshing {
          requests := requests[id := original.(phase := Parked(nextTicket), parks := original.parks + 1)];
          failedQueue := failedQueue + [Waiter(nextTicket, id)];
          nextTicket := nextTicket + 1;
          return;
        }
        isRefreshing := true;
        requests := requests[id := original.(retry := true, phase := Leading(|requests|))]
                    + [Request(true, false, id, InFlight, 0)];
        return;
      }
      SetPhase(id, Rejected);
    }

    // What follows the await of the refresh: the try branch, the catch branch, and the finally of both.
    method AfterRefresh(id: nat, ok: bool)
      requires id < |requests| && forall k :: 0 <= k < |failedQueue| ==> failedQueue[k].id < |requests|
      modifies this
      ensures Contents() == OnRefreshed(old(Contents()), id, ok)
    {
      if ok {
        ProcessQueue(InFlight);
        SetPhase(id, InFlight);
      } else {
        ProcessQueue(Rejected);
        loggedIn := false;
        SetPhase(id, Rejected);
      }
      isRefreshing := false;
    }
  }
}
