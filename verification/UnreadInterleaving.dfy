/**
 The calls of UnreadCache split at their reads and writes, any number of them in flight. While
 no two calls of one user overlap, no counter expires between the look at it and its change, and
 no call is cut off between the table and the counter, every idle user's counter is the count,
 whatever the calls of other users do meanwhile.
 */
module UnreadInterleaving {
  import opened UnreadCache

  // A call in flight, by what it will do next.
  datatype Stage =
    | LookUp | CountRows | Store(n: int)
    | FindToRead(id: nat) | WriteRead(id: nat) | LookBeforeLess | Less
    | WriteAllRead
    | Insert | LookBeforeMore | More
    | FindToDelete(id: nat) | LookBeforeDelete(id: nat) | LessBeforeDelete(id: nat)
    | Remove(id: nat, subtracted: bool)
    | Over

  datatype Flight = Flight(user: User, stage: Stage)

  datatype World = World(s: State, flights: map<nat, Flight>)

  const START := World(EMPTY, map[])

  predicate IsFirst(stage: Stage) {
    stage.LookUp? || stage.FindToRead? || stage.WriteAllRead? || stage.Insert? || stage.FindToDelete?
  }

  function Move(s: State, user: User, stage: Stage): (State, Stage) {
    match stage
    case LookUp => (s, if user in s.cache then Over else CountRows)
    case CountRows => (s, Store(|Unread(s.rows, user)|))
    case Store(n) => (s.(cache := s.cache[user := n]), Over)
    case FindToRead(id) => (s, if id in s.rows && s.rows[id] == Row(user, false) then WriteRead(id) else Over)
    case WriteRead(id) =>
      if id in s.rows then (s.(rows := s.rows[id := s.rows[id].(isRead := true)]), LookBeforeLess) else (s, Over)
    case LookBeforeLess => (s, if user in s.cache && s.cache[user] > 0 then Less else Over)
    case Less => (s.(cache := IncrBy(s.cache, user, -1)), Over)
    case WriteAllRead => (s.(rows := AllRead(s.rows, user)), Store(0))
    case Insert => (s.(rows := s.rows[s.nextId := Row(user, false)], nextId := s.nextId + 1), LookBeforeMore)
    case LookBeforeMore => (s, if user in s.cache then More else Over)
    case More => (s.(cache := IncrBy(s.cache, user, 1)), Over)
    case FindToDelete(id) =>
      (s, if id !in s.rows || s.rows[id].userId != user then Over
          else if s.rows[id].isRead then Remove(id, false)
          else LookBeforeDelete(id))
    case LookBeforeDelete(id) =>
      (s, if user in s.cache && s.cache[user] > 0 then LessBeforeDelete(id) else Remove(id, false))
    case LessBeforeDelete(id) => (s.(cache := IncrBy(s.cache, user, -1)), Remove(id, true))
    case Remove(id, _) => (s.(rows := s.rows - {id}), Over)
    case Over => (s, Over)
  }

  // Throw: the next access of the call fails, and ends it.
  datatype Label = Begin(c: nat, flight: Flight) | Advance(c: nat) | Throw(c: nat) | Expire(user: User)

  function Step(w: World, l: Label): World {
    match l
    case Begin(c, flight) =>
      if c !in w.flights && IsFirst(flight.stage) then w.(flights := w.flights[c := flight]) else w
    case Advance(c) =>
      if c !in w.flights then w
      else
        var (s, stage) := Move(w.s, w.flights[c].user, w.flights[c].stage);
        World(s, if stage == Over then w.flights - {c} else w.flights[c := Flight(w.flights[c].user, stage)])
    case Throw(c) => w.(flights := w.flights - {c})
    case Expire(user) => w.(s := w.s.(cache := w.s.cache - {user}))
  }

  function Run(labels: seq<Label>): World {
    if labels == [] then START else Step(Run(labels[..|labels| - 1]), labels[|labels| - 1])
  }

  // ---------------------------------------------------------------- runs in which nothing of one user overlaps

  predicate Idle(w: World, user: User) {
    forall c <- w.flights :: w.flights[c].user != user
  }

  predicate Relies(stage: Stage) {
    stage.Less? || stage.More? || stage.LessBeforeDelete?
  }

  predicate Overlaps(w: World, l: Label) {
    match l
    case Begin(c, flight) => c !in w.flights && IsFirst(flight.stage) && !Idle(w, flight.user)
    case Expire(user) => exists c <- w.flights :: w.flights[c].user == user && Relies(w.flights[c].stage)
    case Advance(_) | Throw(_) => false
  }

  // A call is cut off between the table and a counter that is there: before its change of the counter, before it stores
  // a count the counter does not have yet, or before it deletes the unread row it has already subtracted.
  predicate CutsOff(w: World, l: Label) {
    l.Throw? && l.c in w.flights && w.flights[l.c].user in w.s.cache
    && match w.flights[l.c].stage
       case LookBeforeLess | Less | LookBeforeMore | More => true
       case Store(n) => w.s.cache[w.flights[l.c].user] != n
       case Remove(id, _) => OwnsUnread(w.s, id, w.flights[l.c].user)
       case _ => false
  }

  predicate NothingOverlaps(labels: seq<Label>) {
    labels == []
    || (NothingOverlaps(labels[..|labels| - 1]) && !Overlaps(Run(labels[..|labels| - 1]), labels[|labels| - 1]))
  }

  predicate NothingIsCutOff(labels: seq<Label>) {
    labels == []
    || (NothingIsCutOff(labels[..|labels| - 1]) && !CutsOff(Run(labels[..|labels| - 1]), labels[|labels| - 1]))
  }

  // What a user's counter is, given where the user's call stands.
  predicate Fits(s: State, user: User, stage: Stage) {
    var count := |Unread(s.rows, user)|;
    var there := user in s.cache;
    match stage
    case LookUp | FindToRead(_) | WriteAllRead | Insert | FindToDelete(_) | Over => there ==> s.cache[user] == count
    case CountRows => !there
    case Store(n) => n == count
    case WriteRead(id) => OwnsUnread(s, id, user) && (there ==> s.cache[user] == count)
    case LookBeforeDelete(id) => OwnsUnread(s, id, user) && (there ==> s.cache[user] == count)
    case LessBeforeDelete(id) => OwnsUnread(s, id, user) && there && s.cache[user] == count
    case LookBeforeLess => there ==> s.cache[user] == count + 1
    case Less => there && s.cache[user] == count + 1
    case LookBeforeMore => there ==> s.cache[user] == count - 1
    case More => there && s.cache[user] == count - 1
    case Remove(id, subtracted) =>
      id in s.rows && s.rows[id].userId == user
        && (there ==> (subtracted <==> !s.rows[id].isRead) && s.cache[user] == count - if subtracted then 1 else 0)
  }

  predicate OwnsUnread(s: State, id: nat, user: User) {
    id in s.rows && s.rows[id] == Row(user, false)
  }

  ghost predicate Sound(w: World) {
    IdsAreOld(w.s)
    && (forall c, d | c in w.flights && d in w.flights && c != d :: w.flights[c].user != w.flights[d].user)
    && (forall c <- w.flights :: Fits(w.s, w.flights[c].user, w.flights[c].stage))
    && (forall user | Idle(w, user) :: Agrees(w.s, user))
  }

  // A move of a user's call leads to the place it should.
  lemma MoveFits(s: State, user: User, stage: Stage)
    requires IdsAreOld(s) && Fits(s, user, stage)
    ensures var (t, next) := Move(s, user, stage); IdsAreOld(t) && Fits(t, user, next)
  {
    hide Unread, AllRead;
    match stage
    case WriteRead(id) => UnreadAfterWrite(s.rows, id, Row(user, true), user);
    case WriteAllRead =>
      UnreadAfterAll(s.rows, user, user);
      AllReadKeepsIds(s, user);
    case Insert => UnreadAfterWrite(s.rows, s.nextId, Row(user, false), user);
    case Remove(id, _) => UnreadAfterDelete(s.rows, id, user);
    case LookBeforeDelete(id) => OwnUnread(s.rows, id, user);
    case _ =>
  }

  // The rows and the counter of a user.
  predicate SameFor(s: State, t: State, user: User) {
    (user in s.cache <==> user in t.cache) && (user in s.cache ==> s.cache[user] == t.cache[user])
    && |Unread(s.rows, user)| == |Unread(t.rows, user)|
    && forall id: nat :: id in s.rows && s.rows[id].userId == user ==> id in t.rows && t.rows[id] == s.rows[id]
  }

  lemma MoveLeavesOthers(s: State, user: User, stage: Stage, other: User)
    requires IdsAreOld(s) && Fits(s, user, stage) && other != user
    ensures SameFor(s, Move(s, user, stage).0, other)
  {
    hide Unread;
    match stage
    case WriteRead(id) => UnreadAfterWrite(s.rows, id, Row(user, true), other);
    case WriteAllRead => UnreadAfterAll(s.rows, user, other);
    case Insert => UnreadAfterWrite(s.rows, s.nextId, Row(user, false), other);
    case Remove(id, _) => UnreadAfterDelete(s.rows, id, other);
    case _ =>
  }

  lemma SameFits(s: State, t: State, user: User, stage: Stage)
    requires SameFor(s, t, user) && Fits(s, user, stage)
    ensures Fits(t, user, stage)
  {
    hide Unread;
  }

  lemma AdvanceKeepsSound(w: World, c: nat)
    requires Sound(w) && c in w.flights
    ensures Sound(Step(w, Advance(c)))
  {
    hide Move, Fits, IdsAreOld, SameFor, Agrees;
    var user := w.flights[c].user;
    var stage := w.flights[c].stage;
    var (t, next) := Move(w.s, user, stage);
    var after := Step(w, Advance(c));
    MoveFits(w.s, user, stage);
    forall d | d in after.flights ensures Fits(t, after.flights[d].user, after.flights[d].stage) {
      if d != c {
        MoveLeavesOthers(w.s, user, stage, w.flights[d].user);
        SameFits(w.s, t, w.flights[d].user, w.flights[d].stage);
      }
    }
    assert next != Over ==> c in after.flights && after.flights[c].user == user;
    forall other | Idle(after, other) ensures Agrees(t, other) {
      if other == user {
        assert next == Over;
        OverAgrees(t, user);
      } else {
        assert Idle(w, other) by {
          forall d | d in w.flights ensures w.flights[d].user != other {
            if d != c { assert d in after.flights; }
          }
        }
        MoveLeavesOthers(w.s, user, stage, other);
        OverAgrees(w.s, other);
        SameFits(w.s, t, other, Over);
        OverAgrees(t, other);
      }
    }
  }

  lemma OverAgrees(s: State, user: User)
    ensures Fits(s, user, Over) <==> Agrees(s, user)
  {
  }

  // A call that throws leaves the counters right exactly when it is not cut off so.
  lemma ThrowKeepsSound(w: World, c: nat)
    requires Sound(w)
    ensures Sound(Step(w, Throw(c))) <==> !CutsOff(w, Throw(c))
  {
    hide Unread, Move;
    if c in w.flights {
      var user := w.flights[c].user;
      var after := Step(w, Throw(c));
      assert Fits(w.s, user, w.flights[c].stage);
      assert Idle(after, user);
      forall other | other != user && Idle(after, other) ensures Agrees(w.s, other) {
        forall d | d in w.flights ensures w.flights[d].user != other {
          if d != c { assert d in after.flights; }
        }
        assert Idle(w, other);
      }
      assert Sound(after) <==> Agrees(w.s, user);
    } else {
      assert w.flights - {c} == w.flights;
    }
  }

  lemma BeginKeepsSound(w: World, c: nat, flight: Flight)
    requires Sound(w)
    ensures Sound(Step(w, Begin(c, flight))) <==> !Overlaps(w, Begin(c, flight))
  {
    hide Unread, Move;
    var after := Step(w, Begin(c, flight));
    if after != w && Idle(w, flight.user) {
      assert Agrees(w.s, flight.user);
      forall user | Idle(after, user) ensures Agrees(w.s, user) {
        forall d | d in w.flights ensures w.flights[d].user != user {
          assert d in after.flights && after.flights[d] == w.flights[d];
        }
        assert Idle(w, user);
      }
    } else if after != w {
      var d :| d in w.flights && w.flights[d].user == flight.user;
      assert c in after.flights && d in after.flights && c != d && after.flights[d].user == after.flights[c].user;
    }
  }

  lemma ExpireKeepsSound(w: World, user: User)
    requires Sound(w)
    ensures Sound(Step(w, Expire(user))) <==> !Overlaps(w, Expire(user))
  {
    hide Unread, Move;
    var after := Step(w, Expire(user));
    forall other | Idle(after, other) ensures Agrees(after.s, other) {
      assert Idle(w, other) && Agrees(w.s, other);
    }
    if Overlaps(w, Expire(user)) {
      var c :| c in w.flights && w.flights[c].user == user && Relies(w.flights[c].stage);
      assert c in after.flights && !Fits(after.s, user, after.flights[c].stage);
    } else {
      forall c | c in after.flights ensures Fits(after.s, after.flights[c].user, after.flights[c].stage) {
        assert Fits(w.s, w.flights[c].user, w.flights[c].stage);
        if w.flights[c].user == user {
          assert !Relies(w.flights[c].stage);
        }
      }
    }
  }

  lemma NothingInFlight(w: World, c: nat)
    requires c !in w.flights
    ensures Step(w, Advance(c)) == w
  {
  }

  // From a state with right counters and no overlap, a step leads to another one exactly when it neither overlaps nor
  // is cut off so.
  lemma SoundExactly(w: World, l: Label)
    requires Sound(w)
    ensures Sound(Step(w, l)) <==> !Overlaps(w, l) && !CutsOff(w, l)
  {
    match l
    case Throw(c) => ThrowKeepsSound(w, c);
    case Advance(c) =>
      hide Move, Fits, Step, Sound;
      if c in w.flights { AdvanceKeepsSound(w, c); } else { NothingInFlight(w, c); }
    case Begin(c, flight) => BeginKeepsSound(w, c, flight);
    case Expire(user) => ExpireKeepsSound(w, user);
  }

  // The counter of a user none of whose calls is in flight.
  lemma {:induction false} IdleCountersAreCounts(labels: seq<Label>, user: User)
    requires NothingOverlaps(labels) && NothingIsCutOff(labels)
    ensures Sound(Run(labels))
    ensures Idle(Run(labels), user) && user in Run(labels).s.cache
      ==> Run(labels).s.cache[user] == |Unread(Run(labels).s.rows, user)|
  {
    hide Step, Overlaps, CutsOff, Unread, Fits;
    if labels != [] {
      IdleCountersAreCounts(labels[..|labels| - 1], user);
      SoundExactly(Run(labels[..|labels| - 1]), labels[|labels| - 1]);
    }
    if Idle(Run(labels), user) {
      assert Agrees(Run(labels).s, user);
    }
  }

  // ---------------------------------------------------------------- calls that run alone

  // How many accesses a call can still make.
  function Left(stage: Stage): nat {
    match stage
    case Over => 0
    case Store(_) | Less | More | Remove(_, _) => 1
    case CountRows | LookBeforeLess | WriteAllRead | LookBeforeMore | LessBeforeDelete(_) => 2
    case LookUp | WriteRead(_) | Insert | LookBeforeDelete(_) => 3
    case FindToRead(_) | FindToDelete(_) => 4
  }

  function Finish(s: State, user: User, stage: Stage): State
    decreases Left(stage)
  {
    if stage == Over then s
    else
      var (t, next) := Move(s, user, stage);
      Finish(t, user, next)
  }

  // A call whose accesses nothing interleaves with does what the whole call does.
  lemma LoneCallIsCall(s: State, user: User, id: nat)
    ensures Finish(s, user, LookUp) == Apply(s, DoCount(user))
    ensures Finish(s, user, FindToRead(id)) == Apply(s, DoRead(id, user))
    ensures Finish(s, user, WriteAllRead) == Apply(s, DoReadAll(user))
    ensures Finish(s, user, Insert) == Apply(s, DoNotify(user))
    ensures Finish(s, user, FindToDelete(id)) == Apply(s, DoDelete(id, user, false))
  {
    hide Unread, AllRead;
    LoneCount(s, user);
    LoneRead(s, user, id);
    LoneNotify(s, user);
    LoneDelete(s, user, id);
  }

  lemma LoneCount(s: State, user: User)
    ensures Finish(s, user, LookUp) == Apply(s, DoCount(user))
    ensures Finish(s, user, WriteAllRead) == Apply(s, DoReadAll(user))
  {
    hide Unread, AllRead;
  }

  lemma LoneRead(s: State, user: User, id: nat)
    ensures Finish(s, user, FindToRead(id)) == Apply(s, DoRead(id, user))
  {
    if id in s.rows && s.rows[id] == Row(user, false) {
      var t := s.(rows := s.rows[id := Row(user, true)]);
      assert Finish(t, user, LookBeforeLess) == t.(cache := DecrementSafely(t.cache, user));
    }
  }

  lemma LoneNotify(s: State, user: User)
    ensures Finish(s, user, Insert) == Apply(s, DoNotify(user))
  {
  }

  lemma LoneRemove(s: State, user: User, id: nat, subtracted: bool)
    ensures Finish(s, user, Remove(id, subtracted)) == s.(rows := s.rows - {id})
  {
  }

  lemma LoneDelete(s: State, user: User, id: nat)
    ensures Finish(s, user, FindToDelete(id)) == Apply(s, DoDelete(id, user, false))
  {
    LoneRemove(s, user, id, false);
    if id in s.rows && s.rows[id] == Row(user, false) {
      var t := s.(cache := DecrementSafely(s.cache, user));
      LoneRemove(t, user, id, true);
      if user in s.cache && s.cache[user] > 0 {
        assert Move(s, user, LookBeforeDelete(id)) == (s, LessBeforeDelete(id));
        assert Move(s, user, LessBeforeDelete(id)) == (t, Remove(id, true));
        assert Finish(s, user, LessBeforeDelete(id)) == Finish(t, user, Remove(id, true));
      }
      assert Finish(s, user, LookBeforeDelete(id)) == t.(rows := t.rows - {id});
    }
  }

  // ---------------------------------------------------------------- what overlapping does

  lemma OneMore(labels: seq<Label>, l: Label)
    ensures Run(labels + [l]) == Step(Run(labels), l)
  {
    assert (labels + [l])[..|labels|] == labels;
  }

  lemma Follow(labels: seq<Label>, a: Label, b: Label, c: Label)
    ensures Run(labels + [a] + [b] + [c]) == Step(Step(Step(Run(labels), a), b), c)
  {
    OneMore(labels, a);
    OneMore(labels + [a], b);
    OneMore(labels + [a] + [b], c);
  }

  predicate HidesOne(w: World) {
    w.flights == map[] && "u" in w.s.cache && w.s.cache["u"] == 0 && |Unread(w.s.rows, "u")| == 1
  }

  // A count that is stored after a notification arrived: one unread, counted as none.
  lemma LateCountHidesNotification()
    ensures exists labels :: HidesOne(Run(labels))
  {
    var none: seq<Label> := [];
    CountInFlight(none);
    var counted := none + [Begin(0, Flight("u", LookUp))] + [Advance(0)] + [Advance(0)];
    NotifyInFlight(counted);
    var told := counted + [Begin(1, Flight("u", Insert))] + [Advance(1)] + [Advance(1)];
    OneMore(told, Advance(0));
    assert Unread(map[0 := Row("u", false)], "u") == {0};
    hide Unread, Run;
    assert HidesOne(Run(told + [Advance(0)]));
  }

  lemma NotifyInFlight(counted: seq<Label>)
    requires Run(counted) == World(EMPTY, map[0 := Flight("u", Store(0))])
    ensures Run(counted + [Begin(1, Flight("u", Insert))] + [Advance(1)] + [Advance(1)])
         == World(State(map[0 := Row("u", false)], map[], 1), map[0 := Flight("u", Store(0))])
  {
    Follow(counted, Begin(1, Flight("u", Insert)), Advance(1), Advance(1));
    hide Run, Unread;
  }

  lemma CountInFlight(none: seq<Label>)
    requires none == []
    ensures Run(none + [Begin(0, Flight("u", LookUp))] + [Advance(0)] + [Advance(0)])
      == World(EMPTY, map[0 := Flight("u", Store(0))])
  {
    assert Unread(map[], "u") == {};
    hide Unread;
    Follow(none, Begin(0, Flight("u", LookUp)), Advance(0), Advance(0));
  }

  predicate StartsOver(w: World) {
    w.flights == map[] && "u" in w.s.cache && w.s.cache["u"] == 1 && |Unread(w.s.rows, "u")| == 2
  }

  // A counter that expires between EXISTS and INCR starts again from nothing, and then stays.
  lemma LateIncrementStartsOver()
    ensures exists labels :: StartsOver(Run(labels))
  {
    hide Run, Unread, StartsOver;
    var none: seq<Label> := [];
    FirstNotify(none);
    var one := none + [Begin(0, Flight("u", Insert))] + [Advance(0)] + [Advance(0)];
    CountOfOne(one);
    var counted := one + [Begin(0, Flight("u", LookUp))] + [Advance(0)] + [Advance(0)] + [Advance(0)];
    SecondNotify(counted);
    var two := counted + [Begin(0, Flight("u", Insert))] + [Advance(0)] + [Advance(0)];
    ExpiresInBetween(two);
  }

  lemma ExpiresInBetween(two: seq<Label>)
    requires Run(two)
          == World(State(map[0 := Row("u", false), 1 := Row("u", false)], map["u" := 1], 2),
            map[0 := Flight("u", More)])
    ensures StartsOver(Run(two + [Expire("u")] + [Advance(0)]))
  {
    OneMore(two, Expire("u"));
    OneMore(two + [Expire("u")], Advance(0));
    assert Unread(map[0 := Row("u", false), 1 := Row("u", false)], "u") == {0, 1};
    hide Unread, Run;
  }

  lemma FirstNotify(none: seq<Label>)
    requires none == []
    ensures Run(none + [Begin(0, Flight("u", Insert))] + [Advance(0)] + [Advance(0)])
         == World(State(map[0 := Row("u", false)], map[], 1), map[])
  {
    Follow(none, Begin(0, Flight("u", Insert)), Advance(0), Advance(0));
    assert Run(none) == START;
    hide Run, Unread;
  }

  lemma CountOfOne(one: seq<Label>)
    requires Run(one) == World(State(map[0 := Row("u", false)], map[], 1), map[])
    ensures Run(one + [Begin(0, Flight("u", LookUp))] + [Advance(0)] + [Advance(0)] + [Advance(0)])
         == World(State(map[0 := Row("u", false)], map["u" := 1], 1), map[])
  {
    Follow(one, Begin(0, Flight("u", LookUp)), Advance(0), Advance(0));
    OneMore(one + [Begin(0, Flight("u", LookUp))] + [Advance(0)] + [Advance(0)], Advance(0));
    assert Unread(map[0 := Row("u", false)], "u") == {0};
    hide Run, Unread;
  }

  lemma SecondNotify(counted: seq<Label>)
    requires Run(counted) == World(State(map[0 := Row("u", false)], map["u" := 1], 1), map[])
    ensures Run(counted + [Begin(0, Flight("u", Insert))] + [Advance(0)] + [Advance(0)])
         == World(State(map[0 := Row("u", false), 1 := Row("u", false)], map["u" := 1], 2), map[0 := Flight("u", More)])
  {
    Follow(counted, Begin(0, Flight("u", Insert)), Advance(0), Advance(0));
    hide Run, Unread;
  }
}
