/**
 What the notification rows say about the calls that led to them, each row told by itself and
 without the counter; and how far below the truth a counter can ever be.
 */
module NotificationRows {
  import opened Wrappers
  import opened UnreadCache

  function Notified(calls: seq<Call>): nat {
    if calls == [] then 0
    else Notified(calls[..|calls| - 1]) + if calls[|calls| - 1].DoNotify? then 1 else 0
  }

  // The row of the notification with a number: whose it is, and whether it has been read.
  function Told(calls: seq<Call>, id: nat): Option<Row> {
    if calls == [] then None
    else
      var before := calls[..|calls| - 1];
      var row := Told(before, id);
      match calls[|calls| - 1]
      case DoNotify(user) => if Notified(before) == id then Some(Row(user, false)) else row
      case DoRead(k, user) => if k == id && row.Some? && row.value.userId == user then Some(Row(user, true)) else row
      case DoReadAll(user) => if row.Some? && row.value.userId == user then Some(Row(user, true)) else row
      case DoDelete(k, user, fails) =>
        if k == id && row.Some? && row.value.userId == user && !fails then None else row
      case DoCount(_) | TimeOut(_) => row
  }

  // After any calls, a notification is there if it was sent and not deleted by its user, and is read if its user read
  // it, alone or with all others.
  lemma {:induction false} RowsExactly(calls: seq<Call>, id: nat)
    ensures var s := Run(calls);
      && s.nextId == Notified(calls)
      && (id in s.rows <==> Told(calls, id).Some?)
      && (id in s.rows ==> s.rows[id] == Told(calls, id).value)
  {
    if calls != [] {
      RowsExactly(calls[..|calls| - 1], id);
    }
  }

  // The unread notifications of a user are those.
  lemma UnreadExactly(calls: seq<Call>, user: User, id: nat)
    ensures id in Unread(Run(calls).rows, user) <==> Told(calls, id) == Some(Row(user, false))
  {
    RowsExactly(calls, id);
    hide Run, Told;
  }

  // A counter never falls below zero, whatever fails.
  lemma {:induction false} NeverNegative(calls: seq<Call>, user: User)
    ensures user in Run(calls).cache ==> Run(calls).cache[user] >= 0
  {
    hide Unread, AllRead;
    if calls != [] {
      NeverNegative(calls[..|calls| - 1], user);
    }
  }

  // Asking for the number of unread notifications leaves the answer in the cache.
  lemma CountIsKept(calls: seq<Call>, user: User)
    ensures var s := Run(calls + [DoCount(user)]);
      user in s.cache && s.cache[user] == GetUnreadCount(Run(calls), user).1 && s.rows == Run(calls).rows
  {
    assert (calls + [DoCount(user)])[..|calls|] == calls;
    hide Unread;
  }

  // What the callers are told.
  lemma AnswersExactly(calls: seq<Call>, id: nat, user: User, fails: bool)
    ensures var s := Run(calls);
      var row := Told(calls, id);
      && MarkRead(s, id, user).1
         == (if row.None? then Err(NotFound)
             else if row.value.userId != user then Err(Forbidden)
             else Ok(Row(user, true)))
      && Delete(s, id, user, fails).1
         == (if row.None? then Err(NotFound)
             else if row.value.userId != user then Err(Forbidden)
             else if fails then Err(WriteFailed)
             else Ok(true))
  {
    RowsExactly(calls, id);
    hide Run, Told;
  }

  // Sending one gives it the next number; reading all answers how many were unread, and leaves none.
  lemma NumbersExactly(calls: seq<Call>, user: User)
    ensures Notify(Run(calls), user).1 == Notified(calls)
    ensures MarkAllRead(Run(calls), user).1 == |Unread(Run(calls).rows, user)|
    ensures Unread(MarkAllRead(Run(calls), user).0.rows, user) == {}
  {
    RowsExactly(calls, 0);
    hide Run;
  }
}
