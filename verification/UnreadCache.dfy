/**
 The unread counter of notifications.service.ts and notification.worker.ts: a number in the
 cache for each user, beside the notification rows it counts.
 */
module UnreadCache {
  import opened Wrappers

  type User = string

  datatype Row = Row(userId: User, isRead: bool)

  datatype State = State(rows: map<nat, Row>, cache: map<User, int>, nextId: nat)

  const EMPTY := State(map[], map[], 0)

  datatype Error = NotFound | Forbidden | WriteFailed

  function Unread(rows: map<nat, Row>, user: User): set<nat> {
    set id | id in rows && rows[id] == Row(user, false)
  }

  function AllRead(rows: map<nat, Row>, user: User): map<nat, Row> {
    map id | id in rows :: if rows[id].userId == user then rows[id].(isRead := true) else rows[id]
  }

  // INCRBY: a missing key counts as 0.
  function IncrBy(cache: map<User, int>, user: User, delta: int): map<User, int> {
    cache[user := delta + if user in cache then cache[user] else 0]
  }

  function DecrementSafely(cache: map<User, int>, user: User): map<User, int> {
    if user in cache && cache[user] > 0 then IncrBy(cache, user, -1) else cache
  }

  // ---------------------------------------------------------------- whole calls

  function GetUnreadCount(s: State, user: User): (State, int) {
    if user in s.cache then (s, s.cache[user])
    else (s.(cache := s.cache[user := |Unread(s.rows, user)|]), |Unread(s.rows, user)|)
  }

  function MarkRead(s: State, id: nat, user: User): (State, Result<Row, Error>) {
    if id !in s.rows then (s, Err(NotFound))
    else if s.rows[id].userId != user then (s, Err(Forbidden))
    else if s.rows[id].isRead then (s, Ok(s.rows[id]))
    else
      (s.(rows := s.rows[id := Row(user, true)], cache := DecrementSafely(s.cache, user)), Ok(Row(user, true)))
  }

  function MarkAllRead(s: State, user: User): (State, nat) {
    (s.(rows := AllRead(s.rows, user), cache := s.cache[user := 0]), |Unread(s.rows, user)|)
  }

  // create of the service and process of the worker.
  function Notify(s: State, user: User): (State, nat) {
    (s.(rows := s.rows[s.nextId := Row(user, false)], nextId := s.nextId + 1,
        cache := if user in s.cache then IncrBy(s.cache, user, 1) else s.cache), s.nextId)
  }

  // The counter goes down before the row is deleted, which may fail.
  function Delete(s: State, id: nat, user: User, fails: bool): (State, Result<bool, Error>) {
    if id !in s.rows then (s, Err(NotFound))
    else if s.rows[id].userId != user then (s, Err(Forbidden))
    else
      var counted := if s.rows[id].isRead then s else s.(cache := DecrementSafely(s.cache, user));
      if fails then (counted, Err(WriteFailed)) else (counted.(rows := counted.rows - {id}), Ok(true))
  }

  datatype Call =
    | DoCount(user: User) | DoRead(id: nat, user: User) | DoReadAll(user: User) | DoNotify(user: User)
    | DoDelete(id: nat, user: User, fails: bool) | TimeOut(user: User)

  function Apply(s: State, call: Call): State {
    match call
    case DoCount(user) => GetUnreadCount(s, user).0
    case DoRead(id, user) => MarkRead(s, id, user).0
    case DoReadAll(user) => MarkAllRead(s, user).0
    case DoNotify(user) => Notify(s, user).0
    case DoDelete(id, user, fails) => Delete(s, id, user, fails).0
    case TimeOut(user) => s.(cache := s.cache - {user})
  }

  function Run(calls: seq<Call>): State {
    if calls == [] then EMPTY else Apply(Run(calls[..|calls| - 1]), calls[|calls| - 1])
  }

  // ---------------------------------------------------------------- the counter is the count

  predicate IdsAreOld(s: State) {
    forall id <- s.rows :: id < s.nextId
  }

  predicate Agrees(s: State, user: User) {
    user in s.cache ==> s.cache[user] == |Unread(s.rows, user)|
  }

  ghost predicate Good(s: State) {
    IdsAreOld(s) && forall user :: Agrees(s, user)
  }

  lemma UnreadAfterWrite(rows: map<nat, Row>, id: nat, row: Row, user: User)
    ensures |Unread(rows[id := row], user)|
         == |Unread(rows, user)| - (if id in rows && rows[id] == Row(user, false) then 1 else 0)
            + if row == Row(user, false) then 1 else 0
  {
    var before := Unread(rows, user);
    SetAfterWrite(rows, id, row, user);
    assert id in before <==> id in rows && rows[id] == Row(user, false);
    hide Unread;
    if row == Row(user, false) {
      assert id in before ==> before + {id} == before;
    }
  }

  lemma SetAfterWrite(rows: map<nat, Row>, id: nat, row: Row, user: User)
    ensures Unread(rows[id := row], user)
         == if row == Row(user, false) then Unread(rows, user) + {id} else Unread(rows, user) - {id}
  {
  }

  lemma UnreadAfterDelete(rows: map<nat, Row>, id: nat, user: User)
    ensures |Unread(rows - {id}, user)|
         == |Unread(rows, user)| - if id in rows && rows[id] == Row(user, false) then 1 else 0
  {
    assert Unread(rows - {id}, user) == Unread(rows, user) - {id};
  }

  lemma UnreadAfterAll(rows: map<nat, Row>, reader: User, user: User)
    ensures |Unread(AllRead(rows, reader), user)| == if user == reader then 0 else |Unread(rows, user)|
  {
    assert Unread(AllRead(rows, reader), user) == if user == reader then {} else Unread(rows, user);
  }

  lemma OwnUnread(rows: map<nat, Row>, id: nat, user: User)
    requires id in rows && rows[id] == Row(user, false)
    ensures |Unread(rows, user)| > 0
  {
    assert id in Unread(rows, user);
  }

  // A deletion that fails after the counter went down.
  predicate CountsTwice(s: State, call: Call) {
    call.DoDelete? && call.fails && call.id in s.rows && s.rows[call.id] == Row(call.user, false)
      && call.user in s.cache
  }

  // A call keeps every counter equal to its count exactly when it is not such a deletion.
  lemma CallKeepsCount(s: State, call: Call)
    requires Good(s)
    ensures Good(Apply(s, call)) <==> !CountsTwice(s, call)
  {
    hide Unread, AllRead;
    var t := Apply(s, call);
    match call
    case DoCount(_) => forall u ensures Agrees(t, u) { assert Agrees(s, u); }
    case TimeOut(_) => forall u ensures Agrees(t, u) { assert Agrees(s, u); }
    case DoRead(id, user) =>
      forall u ensures Agrees(t, u) {
        UnreadAfterWrite(s.rows, id, Row(user, true), u);
        assert Agrees(s, u);
        if id in s.rows && s.rows[id] == Row(user, false) { OwnUnread(s.rows, id, user); }
      }
    case DoReadAll(user) =>
      AllReadKeepsIds(s, user);
      forall u ensures Agrees(t, u) {
        UnreadAfterAll(s.rows, user, u);
        assert Agrees(s, u);
      }
    case DoNotify(user) =>
      forall u ensures Agrees(t, u) {
        UnreadAfterWrite(s.rows, s.nextId, Row(user, false), u);
        assert Agrees(s, u);
      }
    case DoDelete(id, user, fails) => DeleteKeepsCount(s, id, user, fails);
  }

  lemma AllReadKeepsIds(s: State, user: User)
    requires IdsAreOld(s)
    ensures IdsAreOld(MarkAllRead(s, user).0)
  {
  }

  lemma DeleteKeepsCount(s: State, id: nat, user: User, fails: bool)
    requires Good(s)
    ensures Good(Delete(s, id, user, fails).0) <==> !CountsTwice(s, DoDelete(id, user, fails))
  {
    hide Unread;
    var t := Delete(s, id, user, fails).0;
    if id in s.rows && s.rows[id] == Row(user, false) {
      OwnUnread(s.rows, id, user);
    }
    assert Agrees(s, user);
    if CountsTwice(s, DoDelete(id, user, fails)) {
      assert !Agrees(t, user);
    } else {
      forall u ensures Agrees(t, u) {
        UnreadAfterDelete(s.rows, id, u);
        assert Agrees(s, u);
      }
    }
  }

  predicate NeverCountsTwice(calls: seq<Call>) {
    calls == []
    || (NeverCountsTwice(calls[..|calls| - 1]) && !CountsTwice(Run(calls[..|calls| - 1]), calls[|calls| - 1]))
  }

  // After any calls, expiries included, a counter that is there is the user's number of unread rows, never negative,
  // and what getUnreadCount answers is that number whether it is there or not.
  lemma {:induction false} CacheAgreesWithTable(calls: seq<Call>, user: User)
    requires NeverCountsTwice(calls)
    ensures Good(Run(calls))
    ensures var s := Run(calls);
            GetUnreadCount(s, user).1 == |Unread(s.rows, user)| && (user in s.cache ==> s.cache[user] >= 0)
  {
    hide Apply, CountsTwice, Unread;
    if calls != [] {
      CacheAgreesWithTable(calls[..|calls| - 1], user);
      CallKeepsCount(Run(calls[..|calls| - 1]), calls[|calls| - 1]);
    }
    assert Agrees(Run(calls), user);
  }

  // ---------------------------------------------------------------- the service

  class NotificationsService {
    var rows: map<nat, Row>
    var cache: map<User, int>
    var nextId: nat

    function Contents(): State
      reads this
    {
      State(rows, cache, nextId)
    }

    constructor ()
      ensures Contents() == EMPTY
    {
      rows, cache, nextId := map[], map[], 0;
    }

    method CountUnreadOf(user: User) returns (count: int)
      modifies this`cache
      ensures (Contents(), count) == GetUnreadCount(old(Contents()), user)
    {
      if user in cache {
        return cache[user];
      }
      count := |Unread(rows, user)|;
      cache := cache[user := count];
    }

    method ReadOne(id: nat, user: User) returns (result: Result<Row, Error>)
      modifies this
      ensures (Contents(), result) == MarkRead(old(Contents()), id, user)
    {
      if id !in rows {
        return Err(NotFound);
      }
      var notification := rows[id];
      if notification.userId != user {
        return Err(Forbidden);
      }
      if notification.isRead {
        return Ok(notification);
      }
      var updated := notification.(isRead := true);
      rows := rows[id := updated];
      DecrementIfPositive(user);
      return Ok(updated);
    }

    method DecrementIfPositive(user: User)
      modifies this`cache
      ensures cache == DecrementSafely(old(cache), user)
    {
      if user in cache && cache[user] > 0 {
        cache := cache[user := cache[user] - 1];
      }
    }

    method ReadAll(user: User) returns (updated: nat)
      modifies this
      ensures (Contents(), updated) == MarkAllRead(old(Contents()), user)
    {
      updated := |Unread(rows, user)|;
      rows := AllRead(rows, user);
      cache := cache[user := 0];
    }

    method Create(user: User) returns (id: nat)
      modifies this
      ensures (Contents(), id) == Notify(old(Contents()), user)
    {
      id := nextId;
      rows, nextId := rows[id := Row(user, false)], nextId + 1;
      if user in cache {
        cache := cache[user := cache[user] + 1];
      }
    }

    method Remove(id: nat, user: User, fails: bool) returns (result: Result<bool, Error>)
      modifies this
      ensures (Contents(), result) == Delete(old(Contents()), id, user, fails)
    {
      if id !in rows {
        return Err(NotFound);
      }
      var notification := rows[id];
      if notification.userId != user {
        return Err(Forbidden);
      }
      if !notification.isRead {
        DecrementIfPositive(user);
      }
      if fails {
        return Err(WriteFailed);
      }
      rows := rows - {id};
      return Ok(true);
    }
  }
}
