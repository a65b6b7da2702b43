/**
 The unread counter when calls of one user overlap in any way: what each call in flight still owes
 the counter, and exactly which accesses upset the balance of counter, debts and unread rows.
 */
module UnreadBalance {
  import opened UnreadCache
  import opened I = UnreadInterleaving

  // What a call still has to add to the counter for the rows it has written, or for having subtracted too early.
  function Due(stage: Stage): int {
    match stage
    case LookBeforeLess | Less => -1
    case LookBeforeMore | More => 1
    case Remove(_, subtracted) => if subtracted then 1 else 0
    case _ => 0
  }

  type Flights = map<nat, Flight>

  function Owing(flights: Flights, user: User, due: int): set<nat> {
    set c | c in flights && flights[c].user == user && Due(flights[c].stage) == due
  }

  function Owed(flights: Flights, user: User): int {
    |Owing(flights, user, 1)| - |Owing(flights, user, -1)|
  }

  // A count is about to be stored, whatever the counter is.
  predicate Storing(flights: Flights, user: User) {
    exists c <- flights :: flights[c].user == user && flights[c].stage.Store?
  }

  predicate Balanced(w: World, user: User) {
    user in w.s.cache && !Storing(w.flights, user) ==>
      w.s.cache[user] + Owed(w.flights, user) == |Unread(w.s.rows, user)|
  }

  // The rows that calls in flight name are their own users'.
  predicate OwnRow(s: State, flight: Flight) {
    match flight.stage
    case WriteRead(id) => OwnId(s, id, flight.user)
    case LookBeforeDelete(id) => OwnId(s, id, flight.user)
    case LessBeforeDelete(id) => OwnId(s, id, flight.user)
    case Remove(id, _) => OwnId(s, id, flight.user)
    case _ => true
  }

  predicate OwnId(s: State, id: nat, user: User) {
    id < s.nextId && (id in s.rows ==> s.rows[id].userId == user)
  }

  predicate OwnRows(w: World) {
    IdsAreOld(w.s) && forall c <- w.flights :: OwnRow(w.s, w.flights[c])
  }

  // The steps that upset the balance of a user, seen before they are made.
  predicate Upsets(w: World, l: Label, user: User) {
    match l
    case Begin(_, _) | Expire(_) => false
    case Throw(c) =>
      c in w.flights && w.flights[c].user == user && user in w.s.cache && !Storing(w.flights - {c}, user)
      && if w.flights[c].stage.Store? then
           w.s.cache[user] + Owed(w.flights, user) != |Unread(w.s.rows, user)|
         else Due(w.flights[c].stage) != 0
    case Advance(c) =>
      c in w.flights && w.flights[c].user == user && !Storing(w.flights - {c}, user)
      && match w.flights[c].stage
         case Store(n) => n + Owed(w.flights, user) != |Unread(w.s.rows, user)|
         case WriteRead(id) => user in w.s.cache && id in w.s.rows && w.s.rows[id].isRead
         case LookBeforeLess => user in w.s.cache && w.s.cache[user] <= 0
         case Less | More | LessBeforeDelete(_) =>
           user !in w.s.cache && Owed(w.flights, user) != |Unread(w.s.rows, user)|
         case Remove(id, subtracted) => user in w.s.cache && (subtracted <==> !OwnsUnread(w.s, id, user))
         case _ => false
  }

  // ---------------------------------------------------------------- debts

  function DueAt(flights: Flights, c: nat, user: User): int {
    if c in flights && flights[c].user == user then Due(flights[c].stage) else 0
  }

  lemma OwingAfter(flights: Flights, c: nat, flight: Flight, user: User, due: int)
    requires due != 0
    ensures |Owing(flights[c := flight], user, due)|
         == |Owing(flights, user, due)| - (if DueAt(flights, c, user) == due then 1 else 0)
            + if flight.user == user && Due(flight.stage) == due then 1 else 0
    ensures |Owing(flights - {c}, user, due)|
         == |Owing(flights, user, due)| - if DueAt(flights, c, user) == due then 1 else 0
  {
    WhoOwes(flights, c, flight, user, due);
    var before := Owing(flights, user, due);
    hide Owing;
    if flight.user == user && Due(flight.stage) == due {
      assert |before - {c} + {c}| == |before - {c}| + 1;
    }
  }

  lemma WhoOwes(flights: Flights, c: nat, flight: Flight, user: User, due: int)
    requires due != 0
    ensures c in Owing(flights, user, due) <==> DueAt(flights, c, user) == due
    ensures Owing(flights - {c}, user, due) == Owing(flights, user, due) - {c}
    ensures Owing(flights[c := flight], user, due)
         == if flight.user == user && Due(flight.stage) == due then Owing(flights, user, due) - {c} + {c}
            else Owing(flights, user, due) - {c}
  {
    hide Due;
  }

  lemma OwedAfter(flights: Flights, c: nat, flight: Flight, user: User)
    ensures Owed(flights[c := flight], user)
         == Owed(flights, user) - DueAt(flights, c, user) + if flight.user == user then Due(flight.stage) else 0
    ensures Owed(flights - {c}, user) == Owed(flights, user) - DueAt(flights, c, user)
  {
    hide Owing;
    OwingAfter(flights, c, flight, user, 1);
    OwingAfter(flights, c, flight, user, -1);
  }

  lemma StoringAfter(flights: Flights, c: nat, flight: Flight, user: User)
    ensures Storing(flights[c := flight], user)
       <==> Storing(flights - {c}, user) || (flight.user == user && flight.stage.Store?)
    ensures Storing(flights, user)
       <==> Storing(flights - {c}, user) || (c in flights && flights[c].user == user && flights[c].stage.Store?)
  {
    var after := flights[c := flight];
    assert c in after && after[c] == flight;
    assert forall d :: d in flights - {c} ==> d in after && after[d] == flights[d] && d in flights;
    if Storing(after, user) && !(flight.user == user && flight.stage.Store?) {
      var d :| d in after && after[d].user == user && after[d].stage.Store?;
      assert d in flights - {c};
    }
    if Storing(flights, user) && !(c in flights && flights[c].user == user && flights[c].stage.Store?) {
      var d :| d in flights && flights[d].user == user && flights[d].stage.Store?;
      assert d in flights - {c};
    }
  }

  // ---------------------------------------------------------------- one access

  lemma MoveLeavesOtherUsers(s: State, user: User, stage: Stage, other: User)
    requires IdsAreOld(s) && OwnRow(s, Flight(user, stage)) && other != user
    ensures var t := Move(s, user, stage).0;
      (other in t.cache <==> other in s.cache) && (other in s.cache ==> t.cache[other] == s.cache[other])
      && |Unread(t.rows, other)| == |Unread(s.rows, other)|
  {
    hide Unread, AllRead;
    match stage
    case WriteRead(id) => UnreadAfterWrite(s.rows, id, Row(user, true), other);
    case WriteAllRead => UnreadAfterAll(s.rows, user, other);
    case Insert => UnreadAfterWrite(s.rows, s.nextId, Row(user, false), other);
    case Remove(id, _) => UnreadAfterDelete(s.rows, id, other);
    case _ =>
  }

  // By how much an access of a user's call changes the number of its unread rows.
  function Counted(s: State, user: User, stage: Stage): int {
    match stage
    case WriteRead(id) => if OwnsUnread(s, id, user) then -1 else 0
    case WriteAllRead => -|Unread(s.rows, user)|
    case Insert => 1
    case Remove(id, _) => if OwnsUnread(s, id, user) then -1 else 0
    case _ => 0
  }

  lemma MoveCounts(s: State, user: User, stage: Stage)
    requires IdsAreOld(s) && OwnRow(s, Flight(user, stage))
    ensures |Unread(Move(s, user, stage).0.rows, user)| == |Unread(s.rows, user)| + Counted(s, user, stage)
  {
    hide Unread, AllRead;
    match stage
    case WriteRead(id) => UnreadAfterWrite(s.rows, id, Row(user, true), user);
    case WriteAllRead => UnreadAfterAll(s.rows, user, user);
    case Insert => UnreadAfterWrite(s.rows, s.nextId, Row(user, false), user);
    case Remove(id, _) => UnreadAfterDelete(s.rows, id, user);
    case _ =>
  }

  lemma OwnAdvance(w: World, c: nat)
    requires OwnRows(w) && c in w.flights && Balanced(w, w.flights[c].user)
    ensures var user := w.flights[c].user;
      Balanced(Step(w, Advance(c)), user) <==> !Upsets(w, Advance(c), user)
  {
    hide Owed, Unread, Storing, IdsAreOld;
    var user := w.flights[c].user;
    var stage := w.flights[c].stage;
    var next := Move(w.s, user, stage).1;
    MoveCounts(w.s, user, stage);
    OwedAfter(w.flights, c, Flight(user, next), user);
    StoringAfter(w.flights, c, Flight(user, next), user);
  }

  lemma OtherAdvance(w: World, c: nat, user: User)
    requires OwnRows(w) && c in w.flights && w.flights[c].user != user
    ensures Balanced(Step(w, Advance(c)), user) <==> Balanced(w, user)
  {
    hide Owed, Unread, Storing, Move, IdsAreOld, OwnRow;
    var owner := w.flights[c].user;
    var stage := w.flights[c].stage;
    MoveLeavesOtherUsers(w.s, owner, stage, user);
    OwedAfter(w.flights, c, Flight(owner, Move(w.s, owner, stage).1), user);
    StoringAfter(w.flights, c, Flight(owner, Move(w.s, owner, stage).1), user);
  }

  // From any state of any run, a step keeps the balance of a user exactly when it does not upset it.
  lemma BalanceExactly(w: World, l: Label, user: User)
    requires OwnRows(w) && Balanced(w, user)
    ensures Balanced(Step(w, l), user) <==> !Upsets(w, l, user)
  {
    hide Owed, Unread, Storing, Move, OwnRows;
    match l
    case Advance(c) =>
      if c in w.flights && w.flights[c].user == user {
        OwnAdvance(w, c);
      } else if c in w.flights {
        OtherAdvance(w, c, user);
      }
    case Throw(c) =>
      OwedAfter(w.flights, c, Flight(user, Over), user);
      StoringAfter(w.flights, c, Flight(user, Over), user);
      if c !in w.flights {
        assert w.flights - {c} == w.flights;
      }
    case Begin(c, flight) =>
      OwedAfter(w.flights, c, flight, user);
      StoringAfter(w.flights, c, flight, user);
      if c !in w.flights {
        assert w.flights - {c} == w.flights;
      }
    case Expire(_) =>
  }

  // ---------------------------------------------------------------- over a run

  lemma StepKeepsOwnRows(w: World, l: Label)
    requires OwnRows(w)
    ensures OwnRows(Step(w, l))
  {
    hide Unread;
    if l.Advance? && l.c in w.flights && w.flights[l.c].stage.WriteAllRead? {
      AllReadKeepsIds(w.s, w.flights[l.c].user);
    }
  }

  lemma {:induction false} RunKeepsOwnRows(labels: seq<Label>)
    ensures OwnRows(I.Run(labels))
  {
    hide Step, OwnRows;
    if labels == [] {
      NothingOwned();
    } else {
      RunKeepsOwnRows(labels[..|labels| - 1]);
      StepKeepsOwnRows(I.Run(labels[..|labels| - 1]), labels[|labels| - 1]);
    }
  }

  lemma NothingOwned()
    ensures OwnRows(START)
  {
  }

  predicate NothingUpsets(labels: seq<Label>, user: User) {
    labels == []
    || (NothingUpsets(labels[..|labels| - 1], user)
        && !Upsets(I.Run(labels[..|labels| - 1]), labels[|labels| - 1], user))
  }

  lemma {:induction false} RunIsBalanced(labels: seq<Label>, user: User)
    requires NothingUpsets(labels, user)
    ensures Balanced(I.Run(labels), user)
  {
    hide Step, Balanced, Upsets, OwnRows;
    if labels == [] {
      StartIsBalanced(user);
    } else {
      RunIsBalanced(labels[..|labels| - 1], user);
      RunKeepsOwnRows(labels[..|labels| - 1]);
      BalanceExactly(I.Run(labels[..|labels| - 1]), labels[|labels| - 1], user);
    }
  }

  lemma StartIsBalanced(user: User)
    ensures Balanced(START, user)
  {
  }

  // However the calls of a user overlap, one another and those of others: while no step upsets the user's balance, the
  // counter is the count whenever none of the user's calls is in flight.
  lemma IdleCounterIsCount(labels: seq<Label>, user: User)
    requires NothingUpsets(labels, user) && Idle(I.Run(labels), user)
    ensures Agrees(I.Run(labels).s, user)
  {
    hide I.Run, NothingUpsets, Unread;
    RunIsBalanced(labels, user);
    NothingOwedByNobody(I.Run(labels).flights, user);
  }

  lemma NothingOwedByNobody(flights: Flights, user: User)
    requires forall c <- flights :: flights[c].user != user
    ensures Owed(flights, user) == 0 && !Storing(flights, user)
  {
    assert Owing(flights, user, 1) == {} && Owing(flights, user, -1) == {};
  }

  // ---------------------------------------------------------------- calls that do not overlap

  lemma SoundIsBalanced(w: World, user: User)
    requires Sound(w)
    ensures Balanced(w, user)
  {
    hide Unread, IdsAreOld;
    if Idle(w, user) {
      NothingOwedByNobody(w.flights, user);
      assert Agrees(w.s, user);
    } else {
      var c :| c in w.flights && w.flights[c].user == user;
      var others := w.flights - {c};
      OwedAfter(w.flights, c, w.flights[c], user);
      NothingOwedByNobody(others, user);
      assert Fits(w.s, user, w.flights[c].stage);
    }
  }

  // Calls of one user that do not overlap, and are not cut off, upset nothing.
  lemma {:induction false} ApartNothingUpsets(labels: seq<Label>, user: User)
    requires NothingOverlaps(labels) && NothingIsCutOff(labels)
    ensures NothingUpsets(labels, user)
  {
    hide Step, Overlaps, CutsOff, Upsets, Balanced, OwnRows, Sound, Idle;
    if labels != [] {
      var before := labels[..|labels| - 1];
      ApartNothingUpsets(before, user);
      IdleCountersAreCounts(before, user);
      IdleCountersAreCounts(labels, user);
      SoundIsBalanced(I.Run(before), user);
      SoundIsBalanced(I.Run(labels), user);
      RunKeepsOwnRows(before);
      BalanceExactly(I.Run(before), labels[|labels| - 1], user);
    }
  }
}
