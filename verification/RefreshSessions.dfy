/**
 Refresh-session rotation (auth.service.ts, auth.repository.ts). A session row is keyed by its
 token, whose hash is taken as injective. Each refresh is split at its database statements:
 find, delete, create or delete-all, and any number of refreshes interleave.
 */
module RefreshSessions {
  import opened Wrappers

  type User = nat
  type Token = nat
  type Sessions = map<Token, User>

  datatype Stage = Finding | Deleting(owner: User) | Signing | Revoking | Issued(successor: Token) | Refused

  // A call of refreshTokens: the user its JWT names, and the token it presents.
  datatype Request = Request(user: User, token: Token, stage: Stage)

  // issued: every token signed so far, and for whom.
  datatype State = State(sessions: Sessions, requests: seq<Request>, issued: map<Token, User>)

  const EMPTY := State(map[], [], map[])

  // The token a step signs is a parameter of the step: the signed payload holds nothing that makes it fresh.
  datatype Label =
    | Login(user: User, signed: Token)
    | Begin(user: User, token: Token)
    | Advance(k: nat, signed: Token)
    | RevokeAll(user: User)

  // ---------------------------------------------------------------- the statements

  function WithoutUser(sessions: Sessions, user: User): Sessions {
    map t | t in sessions && sessions[t] != user :: sessions[t]
  }

  // The unique index on tokenHash refuses a second row.
  function CreateSession(s: State, user: User, signed: Token): State {
    s.(sessions := if signed in s.sessions then s.sessions else s.sessions[signed := user],
       issued := s.issued[signed := user])
  }

  function AdvanceRequest(s: State, k: nat, signed: Token): State
    requires k < |s.requests|
  {
    var r := s.requests[k];
    match r.stage
    case Finding =>
      Moved(s, k, if r.token in s.sessions then Deleting(s.sessions[r.token]) else Revoking)
    case Deleting(owner) =>
      if r.token !in s.sessions then Moved(s, k, Refused)
      else Moved(s.(sessions := s.sessions - {r.token}), k, if owner == r.user then Signing else Revoking)
    case Revoking => Moved(s.(sessions := WithoutUser(s.sessions, r.user)), k, Refused)
    case Signing =>
      Moved(CreateSession(s, r.user, signed), k, if signed in s.sessions then Refused else Issued(signed))
    case Issued(_) | Refused => s
  }

  function Moved(s: State, k: nat, stage: Stage): State
    requires k < |s.requests|
  {
    s.(requests := s.requests[k := s.requests[k].(stage := stage)])
  }

  function Step(s: State, l: Label): State {
    match l
    case Login(user, signed) => CreateSession(s, user, signed)
    case Begin(user, token) => s.(requests := s.requests + [Request(user, token, Finding)])
    case Advance(k, signed) => if k < |s.requests| then AdvanceRequest(s, k, signed) else s
    case RevokeAll(user) => s.(sessions := WithoutUser(s.sessions, user))
  }

  function Run(s: State, labels: seq<Label>): State {
    if labels == [] then s else Step(Run(s, labels[..|labels| - 1]), labels[|labels| - 1])
  }

  predicate Signs(s: State, l: Label) {
    l.Login? || (l.Advance? && l.k < |s.requests| && s.requests[l.k].stage == Signing)
  }

  // Every token the run signs differs from all signed before.
  predicate Fresh(s: State, labels: seq<Label>) {
    labels == []
    || (Fresh(s, labels[..|labels| - 1])
        && var before := Run(s, labels[..|labels| - 1]);
           var l := labels[|labels| - 1];
           Signs(before, l) ==> l.signed !in before.issued)
  }

  // ---------------------------------------------------------------- counting

  predicate Took(r: Request, token: Token) {
    r.token == token && (r.stage == Signing || r.stage.Issued?)
  }

  // Refreshes that consumed a token: each has a successor pair, or is about to sign it.
  function Takers(requests: seq<Request>, token: Token): nat {
    if requests == [] then 0
    else Takers(requests[..|requests| - 1], token) + if Took(requests[|requests| - 1], token) then 1 else 0
  }

  function SigningFor(requests: seq<Request>, user: User): nat {
    if requests == [] then 0
    else
      var r := requests[|requests| - 1];
      SigningFor(requests[..|requests| - 1], user) + if r.user == user && r.stage == Signing then 1 else 0
  }

  function LiveTokens(sessions: Sessions, user: User): set<Token> {
    set t | t in sessions && sessions[t] == user
  }

  function LoginsIn(labels: seq<Label>, user: User): nat {
    if labels == [] then 0
    else
      var l := labels[|labels| - 1];
      LoginsIn(labels[..|labels| - 1], user) + if l.Login? && l.user == user then 1 else 0
  }

  // Sessions a user has, or is about to be given.
  function Budget(s: State, user: User): nat {
    |LiveTokens(s.sessions, user)| + SigningFor(s.requests, user)
  }

  lemma {:induction false} CountsAfter(requests: seq<Request>, k: nat, r: Request, token: Token, user: User)
    requires k < |requests|
    ensures Takers(requests[k := r], token) + (if Took(requests[k], token) then 1 else 0)
         == Takers(requests, token) + if Took(r, token) then 1 else 0
    ensures SigningFor(requests[k := r], user)
            + (if requests[k].user == user && requests[k].stage == Signing then 1 else 0)
         == SigningFor(requests, user) + if r.user == user && r.stage == Signing then 1 else 0
  {
    var n := |requests| - 1;
    if k == n {
      assert requests[k := r][..n] == requests[..n];
    } else {
      CountsAfter(requests[..n], k, r, token, user);
      assert requests[k := r][..n] == requests[..n][k := r];
    }
  }

  // ---------------------------------------------------------------- live sessions never exceed logins

  lemma LiveMoves(sessions: Sessions, token: Token, owner: User, user: User)
    ensures token !in sessions ==>
      |LiveTokens(sessions[token := owner], user)| == |LiveTokens(sessions, user)| + if owner == user then 1 else 0
    ensures token in sessions ==>
      |LiveTokens(sessions - {token}, user)| == |LiveTokens(sessions, user)| - if sessions[token] == user then 1 else 0
    ensures |LiveTokens(WithoutUser(sessions, owner), user)| <= |LiveTokens(sessions, user)|
    ensures LiveTokens(WithoutUser(sessions, user), user) == {}
  {
    hide LiveTokens, WithoutUser;
    if token !in sessions {
      LiveAdded(sessions, token, owner, user);
    } else {
      LiveRemoved(sessions, token, user);
    }
    LiveWithout(sessions, owner, user);
    LiveWithout(sessions, user, user);
  }

  lemma LiveAdded(sessions: Sessions, token: Token, owner: User, user: User)
    requires token !in sessions
    ensures |LiveTokens(sessions[token := owner], user)|
         == |LiveTokens(sessions, user)| + if owner == user then 1 else 0
  {
    assert LiveTokens(sessions[token := owner], user)
        == LiveTokens(sessions, user) + if owner == user then {token} else {};
  }

  lemma LiveRemoved(sessions: Sessions, token: Token, user: User)
    requires token in sessions
    ensures |LiveTokens(sessions - {token}, user)|
         == |LiveTokens(sessions, user)| - if sessions[token] == user then 1 else 0
  {
    assert LiveTokens(sessions - {token}, user) == LiveTokens(sessions, user) - {token};
  }

  lemma LiveWithout(sessions: Sessions, owner: User, user: User)
    ensures |LiveTokens(WithoutUser(sessions, owner), user)| <= |LiveTokens(sessions, user)|
    ensures owner == user ==> LiveTokens(WithoutUser(sessions, owner), user) == {}
  {
    SubsetSize(LiveTokens(WithoutUser(sessions, owner), user), LiveTokens(sessions, user));
  }

  lemma {:induction false} SubsetSize(a: set<Token>, b: set<Token>)
    requires a <= b
    ensures |a| <= |b|
  {
    if a != {} {
      var t :| t in a;
      SubsetSize(a - {t}, b - {t});
    }
  }

  ghost predicate Inv(s: State) {
    && (forall t :: t in s.sessions ==> t in s.issued && s.issued[t] == s.sessions[t])
    && (forall k :: 0 <= k < |s.requests| && s.requests[k].stage.Deleting? ==>
          s.requests[k].token in s.issued && s.issued[s.requests[k].token] == s.requests[k].stage.owner)
    && (forall t :: Takers(s.requests, t) <= (if t in s.issued && t !in s.sessions then 1 else 0))
  }

  lemma AdvanceKeeps(s: State, k: nat, signed: Token)
    requires Inv(s) && k < |s.requests| && (s.requests[k].stage == Signing ==> signed !in s.issued)
    ensures Inv(AdvanceRequest(s, k, signed))
  {
    var after := AdvanceRequest(s, k, signed);
    forall t
      ensures Takers(after.requests, t) <= if t in after.issued && t !in after.sessions then 1 else 0
    {
      CountsAfter(s.requests, k, after.requests[k], t, 0);
      assert after.requests == s.requests[k := after.requests[k]];
    }
  }

  lemma StepKeeps(s: State, l: Label)
    requires Inv(s) && (Signs(s, l) ==> l.signed !in s.issued)
    ensures Inv(Step(s, l))
  {
    hide AdvanceRequest, CreateSession, WithoutUser, Inv;
    match l
    case Advance(k, signed) => if k < |s.requests| { AdvanceKeeps(s, k, signed); }
    case Begin(user, token) => BeginKeeps(s, user, token);
    case Login(user, signed) => LoginKeeps(s, user, signed);
    case RevokeAll(user) => RevokeKeeps(s, user);
  }

  lemma BeginKeeps(s: State, user: User, token: Token)
    requires Inv(s)
    ensures Inv(Step(s, Begin(user, token)))
  {
    hide Takers;
    BeginsTakingNothing(s.requests, user, token);
  }

  lemma BeginsTakingNothing(requests: seq<Request>, user: User, token: Token)
    ensures forall t :: Takers(requests + [Request(user, token, Finding)], t) == Takers(requests, t)
  {
    assert (requests + [Request(user, token, Finding)])[..|requests|] == requests;
  }

  lemma LoginKeeps(s: State, user: User, signed: Token)
    requires Inv(s) && signed !in s.issued
    ensures Inv(CreateSession(s, user, signed))
  {
    hide Takers;
  }

  lemma RevokeKeeps(s: State, user: User)
    requires Inv(s)
    ensures Inv(s.(sessions := WithoutUser(s.sessions, user)))
  {
    hide Takers;
  }

  lemma {:induction false} RunKeeps(s: State, labels: seq<Label>)
    requires Inv(s) && Fresh(s, labels)
    ensures Inv(Run(s, labels))
  {
    if labels != [] {
      RunKeeps(s, labels[..|labels| - 1]);
      StepKeeps(Run(s, labels[..|labels| - 1]), labels[|labels| - 1]);
    }
  }

  lemma EmptyIsOk()
    ensures Inv(EMPTY)
  {
  }

  lemma DeleteBudget(s: State, k: nat, user: User)
    requires Inv(s) && k < |s.requests| && s.requests[k].stage.Deleting?
    ensures Budget(AdvanceRequest(s, k, 0), user) <= Budget(s, user)
  {
    var r := s.requests[k];
    var after := AdvanceRequest(s, k, 0);
    CountsAfter(s.requests, k, after.requests[k], 0, user);
    LiveMoves(s.sessions, r.token, r.user, user);
  }

  lemma SignBudget(s: State, k: nat, signed: Token, user: User)
    requires k < |s.requests| && s.requests[k].stage == Signing
    ensures Budget(AdvanceRequest(s, k, signed), user) <= Budget(s, user)
  {
    var r := s.requests[k];
    var after := AdvanceRequest(s, k, signed);
    CountsAfter(s.requests, k, after.requests[k], 0, user);
    LiveMoves(s.sessions, signed, r.user, user);
  }

  lemma OtherBudget(s: State, k: nat, signed: Token, user: User)
    requires k < |s.requests| && s.requests[k].stage != Signing && !s.requests[k].stage.Deleting?
    ensures Budget(AdvanceRequest(s, k, signed), user) <= Budget(s, user)
  {
    var r := s.requests[k];
    var after := AdvanceRequest(s, k, signed);
    assert after.requests == s.requests[k := after.requests[k]];
    CountsAfter(s.requests, k, after.requests[k], 0, user);
    LiveMoves(s.sessions, 0, r.user, user);
  }

  lemma BudgetStep(s: State, l: Label, user: User)
    requires Inv(s)
    ensures Budget(Step(s, l), user) <= Budget(s, user) + if l.Login? && l.user == user then 1 else 0
  {
    hide AdvanceRequest, Inv;
    match l
    case Login(owner, signed) => LiveMoves(s.sessions, signed, owner, user);
    case Begin(owner, token) => assert (s.requests + [Request(owner, token, Finding)])[..|s.requests|] == s.requests;
    case RevokeAll(owner) => LiveMoves(s.sessions, 0, owner, user);
    case Advance(k, signed) =>
      if k < |s.requests| {
        if s.requests[k].stage.Deleting? {
          DeleteBudget(s, k, user);
          DeleteSignsNothing(s, k, signed);
        } else if s.requests[k].stage == Signing {
          SignBudget(s, k, signed, user);
        } else {
          OtherBudget(s, k, signed, user);
        }
      }
  }

  lemma DeleteSignsNothing(s: State, k: nat, signed: Token)
    requires k < |s.requests| && s.requests[k].stage.Deleting?
    ensures AdvanceRequest(s, k, signed) == AdvanceRequest(s, k, 0)
  {
  }

  // ---------------------------------------------------------------- main results

  // Under any interleaving of the statements of concurrent refreshes, two refreshes that got a successor for the same
  // token, or are about to sign one, are the same refresh.
  lemma OneSuccessorPerToken(labels: seq<Label>, i: nat, j: nat)
    requires Fresh(EMPTY, labels)
    requires var rs := Run(EMPTY, labels).requests;
      i < |rs| && j < |rs| && Took(rs[i], rs[i].token) && Took(rs[j], rs[i].token)
    ensures i == j
  {
    var s := Run(EMPTY, labels);
    EmptyIsOk();
    RunKeeps(EMPTY, labels);
    TwoTakers(s.requests, s.requests[i].token, i, j);
  }

  // What that rests on: a token a refresh has consumed is not live, and no second refresh has consumed it.
  ghost predicate TakenOnce(s: State) {
    forall t :: Takers(s.requests, t) <= if t in s.sessions then 0 else 1
  }

  // The step signs, and thereby makes live again, a token that a refresh has consumed.
  predicate Revives(s: State, l: Label) {
    Signs(s, l) && l.signed !in s.sessions && Takers(s.requests, l.signed) > 0
  }

  lemma AdvanceTakes(s: State, k: nat, signed: Token)
    requires TakenOnce(s) && k < |s.requests|
    ensures TakenOnce(AdvanceRequest(s, k, signed)) <==> !Revives(s, Advance(k, signed))
  {
    var after := AdvanceRequest(s, k, signed);
    assert after.requests == s.requests[k := after.requests[k]];
    forall t
      ensures Takers(after.requests, t) + (if Took(s.requests[k], t) then 1 else 0)
           == Takers(s.requests, t) + if Took(after.requests[k], t) then 1 else 0
    {
      CountsAfter(s.requests, k, after.requests[k], t, 0);
    }
    if Revives(s, Advance(k, signed)) {
      assert Takers(after.requests, signed) > 0 && signed in after.sessions;
    }
  }

  // A step keeps that exactly when it does not sign a consumed token again, fresh or not.
  lemma TakenOnceExactly(s: State, l: Label)
    requires TakenOnce(s)
    ensures TakenOnce(Step(s, l)) <==> !Revives(s, l)
  {
    hide AdvanceRequest, Takers, WithoutUser;
    match l
    case Advance(k, signed) => if k < |s.requests| { AdvanceTakes(s, k, signed); }
    case Begin(user, token) => BeginsTakingNothing(s.requests, user, token);
    case Login(user, signed) =>
      assert Step(s, l).requests == s.requests && signed in Step(s, l).sessions;
    case RevokeAll(user) =>
      assert forall t :: t in WithoutUser(s.sessions, user) ==> t in s.sessions by { OnlyFewer(s.sessions, user); }
  }

  lemma OnlyFewer(sessions: Sessions, user: User)
    ensures forall t :: t in WithoutUser(sessions, user) ==> t in sessions
  {
  }

  predicate NothingRevived(labels: seq<Label>) {
    labels == []
    || (NothingRevived(labels[..|labels| - 1]) && !Revives(Run(EMPTY, labels[..|labels| - 1]), labels[|labels| - 1]))
  }

  lemma {:induction false} RunTakesOnce(labels: seq<Label>)
    requires NothingRevived(labels)
    ensures TakenOnce(Run(EMPTY, labels))
  {
    hide Step, Revives;
    if labels != [] {
      RunTakesOnce(labels[..|labels| - 1]);
      TakenOnceExactly(Run(EMPTY, labels[..|labels| - 1]), labels[|labels| - 1]);
    }
  }

  // So freshness is more than is needed for one successor a token: no consumed token may be signed again.
  lemma OneSuccessorUnlessRevived(labels: seq<Label>, i: nat, j: nat)
    requires NothingRevived(labels)
    requires var rs := Run(EMPTY, labels).requests;
      i < |rs| && j < |rs| && Took(rs[i], rs[i].token) && Took(rs[j], rs[i].token)
    ensures i == j
  {
    hide Run, Took;
    RunTakesOnce(labels);
    var rs := Run(EMPTY, labels).requests;
    TwoTakers(rs, rs[i].token, i, j);
  }

  lemma {:induction false} FreshRevivesNothing(labels: seq<Label>)
    requires Fresh(EMPTY, labels)
    ensures NothingRevived(labels)
  {
    if labels != [] {
      var before := labels[..|labels| - 1];
      FreshRevivesNothing(before);
      EmptyIsOk();
      RunKeeps(EMPTY, before);
      hide Step, Signs, Run, Takers;
      assert forall t :: Takers(Run(EMPTY, before).requests, t) > 0 ==> t in Run(EMPTY, before).issued;
    }
  }

  lemma {:induction false} TwoTakers(requests: seq<Request>, token: Token, i: nat, j: nat)
    requires i < |requests| && j < |requests| && Took(requests[i], token) && Took(requests[j], token)
    requires Takers(requests, token) <= 1
    ensures i == j
  {
    var n := |requests| - 1;
    if i < n && j < n {
      TwoTakers(requests[..n], token, i, j);
    } else if i < n {
      OneTaker(requests[..n], token, i);
    } else if j < n {
      OneTaker(requests[..n], token, j);
    }
  }

  lemma {:induction false} OneTaker(requests: seq<Request>, token: Token, i: nat)
    requires i < |requests| && Took(requests[i], token)
    ensures Takers(requests, token) >= 1
  {
    var n := |requests| - 1;
    if i < n {
      OneTaker(requests[..n], token, i);
    }
  }

  // From any reachable state, whatever runs next, the sessions of a user and those about to be created for it grow by
  // its logins at most.
  lemma {:induction false} BudgetGrowsByLogins(s: State, labels: seq<Label>, user: User)
    requires Inv(s) && Fresh(s, labels)
    ensures Budget(Run(s, labels), user) <= Budget(s, user) + LoginsIn(labels, user)
  {
    if labels != [] {
      var before := labels[..|labels| - 1];
      BudgetGrowsByLogins(s, before, user);
      RunKeeps(s, before);
      BudgetStep(Run(s, before), labels[|labels| - 1], user);
    }
  }

  // In particular a user never has more live sessions than logins.
  lemma SessionsWithinLogins(labels: seq<Label>, user: User)
    requires Fresh(EMPTY, labels)
    ensures |LiveTokens(Run(EMPTY, labels).sessions, user)| <= LoginsIn(labels, user)
  {
    EmptyIsOk();
    BudgetGrowsByLogins(EMPTY, labels, user);
    assert LiveTokens(map[], user) == {};
  }

  // What survives a revocation at this granularity: no more sessions than refreshes that had deleted their row and not
  // yet created the next one when the rows were deleted, plus later logins.
  lemma SurvivorsOfRevocation(labels: seq<Label>, user: User, later: seq<Label>)
    requires Fresh(EMPTY, labels)
    requires Fresh(Step(Run(EMPTY, labels), RevokeAll(user)), later)
    ensures var s := Run(EMPTY, labels);
      |LiveTokens(Run(Step(s, RevokeAll(user)), later).sessions, user)|
      <= SigningFor(s.requests, user) + LoginsIn(later, user)
  {
    var s := Run(EMPTY, labels);
    EmptyIsOk();
    RunKeeps(EMPTY, labels);
    StepKeeps(s, RevokeAll(user));
    LiveMoves(s.sessions, 0, user, user);
    BudgetGrowsByLogins(Step(s, RevokeAll(user)), later, user);
  }

  lemma {:induction false} RunFirst(s: State, l: Label, later: seq<Label>, user: User)
    ensures Run(s, [l] + later) == Run(Step(s, l), later)
    ensures Fresh(s, [l] + later) <==> (Signs(s, l) ==> l.signed !in s.issued) && Fresh(Step(s, l), later)
    ensures LoginsIn([l] + later, user) == LoginsIn(later, user) + if l.Login? && l.user == user then 1 else 0
  {
    hide Step, Signs;
    var all := [l] + later;
    if later == [] {
      assert all == [l] && all[..0] == [];
      assert Run(s, all) == Step(Run(s, all[..0]), l);
    } else {
      var n := |later| - 1;
      assert all[..n + 1] == [l] + later[..n] && all[n + 1] == later[n];
      RunFirst(s, l, later[..n], user);
    }
  }

  lemma {:induction false} SomeSigning(requests: seq<Request>, user: User) returns (k: nat)
    requires SigningFor(requests, user) > 0
    ensures k < |requests| && requests[k].user == user && requests[k].stage == Signing
  {
    var n := |requests| - 1;
    if requests[n].user == user && requests[n].stage == Signing {
      k := n;
    } else {
      k := SomeSigning(requests[..n], user);
    }
  }

  lemma {:induction false} NewToken(tokens: set<Token>) returns (t: Token)
    ensures forall other <- tokens :: other < t
  {
    if tokens == {} {
      t := 0;
    } else {
      var one :| one in tokens;
      var rest := NewToken(tokens - {one});
      t := if one < rest then rest else one + 1;
      assert forall other <- tokens :: other == one || other in tokens - {one};
    }
  }

  // The refreshes that are about to sign for a user can all go on to do so, one after the other.
  lemma {:induction false} EachSigns(s: State, user: User) returns (later: seq<Label>)
    requires forall t :: t in s.sessions ==> t in s.issued
    ensures Fresh(s, later) && LoginsIn(later, user) == 0
    ensures |LiveTokens(Run(s, later).sessions, user)| == Budget(s, user)
    decreases SigningFor(s.requests, user)
  {
    if SigningFor(s.requests, user) == 0 {
      later := [];
    } else {
      var k := SomeSigning(s.requests, user);
      var signed := NewToken(s.issued.Keys);
      assert signed !in s.issued;
      var l := Advance(k, signed);
      SigningKeepsBudget(s, k, signed, user);
      hide Step, LiveTokens, Signs, SigningFor;
      var rest := EachSigns(Step(s, l), user);
      RunFirst(s, l, rest, user);
      later := [l] + rest;
    }
  }

  lemma SigningKeepsBudget(s: State, k: nat, signed: Token, user: User)
    requires forall t :: t in s.sessions ==> t in s.issued
    requires k < |s.requests| && s.requests[k].user == user && s.requests[k].stage == Signing && signed !in s.issued
    ensures var after := Step(s, Advance(k, signed));
      && Budget(after, user) == Budget(s, user)
      && SigningFor(after.requests, user) == SigningFor(s.requests, user) - 1
      && forall t :: t in after.sessions ==> t in after.issued
  {
    hide LiveTokens, SigningFor;
    CountsAfter(s.requests, k, s.requests[k].(stage := Issued(signed)), 0, user);
    LiveAdded(s.sessions, signed, user, user);
  }

  // The bound is exact from every reachable state: without later logins, the most sessions that can survive the
  // revocation are as many as the refreshes caught there.
  lemma SurvivorsExactly(labels: seq<Label>, user: User, n: nat)
    requires Fresh(EMPTY, labels)
    ensures var s := Run(EMPTY, labels);
      var revoked := Step(s, RevokeAll(user));
      (forall later :: Fresh(revoked, later) && LoginsIn(later, user) == 0 ==>
         |LiveTokens(Run(revoked, later).sessions, user)| <= n)
      <==> SigningFor(s.requests, user) <= n
  {
    var s := Run(EMPTY, labels);
    var revoked := Step(s, RevokeAll(user));
    EmptyIsOk();
    RunKeeps(EMPTY, labels);
    StepKeeps(s, RevokeAll(user));
    LiveWithout(s.sessions, user, user);
    var worst := EachSigns(revoked, user);
    hide Run, Step, LiveTokens;
    forall later | Fresh(revoked, later) && LoginsIn(later, user) == 0
      ensures |LiveTokens(Run(revoked, later).sessions, user)| <= SigningFor(s.requests, user)
    {
      SurvivorsOfRevocation(labels, user, later);
    }
  }

  // So a logout ends every session of the user for good if and only if no refresh of the user is caught there.
  lemma LogoutEndsAllExactly(labels: seq<Label>, user: User)
    requires Fresh(EMPTY, labels)
    ensures var s := Run(EMPTY, labels);
      var revoked := Step(s, RevokeAll(user));
      (forall later :: Fresh(revoked, later) && LoginsIn(later, user) == 0 ==>
         LiveTokens(Run(revoked, later).sessions, user) == {})
      <==> SigningFor(s.requests, user) == 0
  {
    var revoked := Step(Run(EMPTY, labels), RevokeAll(user));
    SurvivorsExactly(labels, user, 0);
    hide Run, Step, LiveTokens;
    forall later
      ensures LiveTokens(Run(revoked, later).sessions, user) == {}
         <==> |LiveTokens(Run(revoked, later).sessions, user)| <= 0
    {
    }
  }

  // One such run: a refresh caught between its delete and its create outlives a logout.
  lemma RefreshOutlivesLogout()
    ensures var s := Run(EMPTY, [Login(7, 1), Begin(7, 1), Advance(0, 0), Advance(0, 0), RevokeAll(7), Advance(0, 2)]);
      s.sessions == map[2 := 7]
  {
    var l1, l2, l3 := [Login(7, 1)], [Login(7, 1), Begin(7, 1)], [Login(7, 1), Begin(7, 1), Advance(0, 0)];
    var l4 := [Login(7, 1), Begin(7, 1), Advance(0, 0), Advance(0, 0)];
    var l5 := [Login(7, 1), Begin(7, 1), Advance(0, 0), Advance(0, 0), RevokeAll(7)];
    var l6 := [Login(7, 1), Begin(7, 1), Advance(0, 0), Advance(0, 0), RevokeAll(7), Advance(0, 2)];
    assert l6[..5] == l5 && l5[..4] == l4 && l4[..3] == l3 && l3[..2] == l2 && l2[..1] == l1 && l1[..0] == [];
    assert Run(EMPTY, l1) == State(map[1 := 7], [], map[1 := 7]);
    assert Run(EMPTY, l2) == State(map[1 := 7], [Request(7, 1, Finding)], map[1 := 7]);
    assert Run(EMPTY, l3) == State(map[1 := 7], [Request(7, 1, Deleting(7))], map[1 := 7]);
    assert Run(EMPTY, l4) == State(map[], [Request(7, 1, Signing)], map[1 := 7]);
    assert Run(EMPTY, l5) == State(map[], [Request(7, 1, Signing)], map[1 := 7]);
  }

  function LoneRefresh(k: nat): seq<Label> {
    [Begin(7, 1), Advance(k, 1), Advance(k, 1), Advance(k, 1)]
  }

  // Without freshness a token can have two successors: nothing in the payload tells two tokens of one user, signed in
  // the same second, apart.
  lemma SameSecondTokensRepeat()
    ensures Run(EMPTY, [Login(7, 1)] + LoneRefresh(0) + LoneRefresh(1)).requests
         == [Request(7, 1, Issued(1)), Request(7, 1, Issued(1))]
  {
    assert [Login(7, 1)][..0] == [];
    assert Run(EMPTY, [Login(7, 1)]) == State(map[1 := 7], [], map[1 := 7]);
    FourMore(EMPTY, [Login(7, 1)], 0);
    FourMore(EMPTY, [Login(7, 1)] + LoneRefresh(0), 1);
  }

  lemma OneMoreStep(s: State, labels: seq<Label>, l: Label)
    ensures Run(s, labels + [l]) == Step(Run(s, labels), l)
  {
    hide Step;
    assert (labels + [l])[..|labels|] == labels;
  }

  // A refresh that runs alone from begin to end, signing the token it was given.
  lemma FourMore(s: State, labels: seq<Label>, k: nat)
    requires var b := Run(s, labels); |b.requests| == k && b.sessions == map[1 := 7] && b.issued == map[1 := 7]
    ensures Run(s, labels + LoneRefresh(k))
         == Run(s, labels).(requests := Run(s, labels).requests + [Request(7, 1, Issued(1))])
  {
    hide Run, WithoutUser, LoneRefresh, Step;
    var b := Run(s, labels);
    LoneRefreshInSteps(labels, k);
    OneMoreStep(s, labels, Begin(7, 1));
    OneMoreStep(s, labels + [Begin(7, 1)], Advance(k, 1));
    OneMoreStep(s, labels + [Begin(7, 1)] + [Advance(k, 1)], Advance(k, 1));
    OneMoreStep(s, labels + [Begin(7, 1)] + [Advance(k, 1)] + [Advance(k, 1)], Advance(k, 1));
    FourSteps(b, k);
  }

  lemma LoneRefreshInSteps(labels: seq<Label>, k: nat)
    ensures labels + LoneRefresh(k) == labels + [Begin(7, 1)] + [Advance(k, 1)] + [Advance(k, 1)] + [Advance(k, 1)]
  {
  }

  lemma FourSteps(b: State, k: nat)
    requires |b.requests| == k && b.sessions == map[1 := 7] && b.issued == map[1 := 7]
    ensures var go := Advance(k, 1);
      Step(Step(Step(Step(b, Begin(7, 1)), go), go), go) == b.(requests := b.requests + [Request(7, 1, Issued(1))])
  {
    hide WithoutUser;
    var found := b.(requests := b.requests + [Request(7, 1, Finding)]);
    var deleting := b.(requests := b.requests + [Request(7, 1, Deleting(7))]);
    var signing := State(map[], b.requests + [Request(7, 1, Signing)], b.issued);
    assert Step(b, Begin(7, 1)) == found && Step(found, Advance(k, 1)) == deleting;
    assert deleting.sessions - {1} == map[];
    assert Step(deleting, Advance(k, 1)) == signing;
  }

  // ---------------------------------------------------------------- whole requests

  // One call of refreshTokens that nothing interleaves with.
  function RefreshTokens(sessions: Sessions, user: User, token: Token, signed: Token): (Sessions, Option<Token>) {
    if token !in sessions then (WithoutUser(sessions, user), None)
    else
      var rest := sessions - {token};
      if sessions[token] != user then (WithoutUser(rest, user), None)
      else if signed in rest then (rest, None)
      else (rest[signed := user], Some(signed))
  }

  lemma RunOfFour(s: State, a: Label, b: Label, c: Label, d: Label)
    ensures Run(s, [a, b, c, d]) == Step(Step(Step(Step(s, a), b), c), d)
  {
    assert [a, b, c, d][..3] == [a, b, c] && [a, b, c][..2] == [a, b] && [a, b][..1] == [a] && [a][..0] == [];
    assert Run(s, [a]) == Step(s, a);
    assert Run(s, [a, b]) == Step(Step(s, a), b);
    assert Run(s, [a, b, c]) == Step(Step(Step(s, a), b), c);
  }

  // From its first find to its end.
  lemma AdvancesAlone(s: State, k: nat, signed: Token)
    requires k < |s.requests| && s.requests[k].stage == Finding
    ensures var after := AdvanceRequest(AdvanceRequest(AdvanceRequest(s, k, signed), k, signed), k, signed);
      var r := s.requests[k];
      var (sessions, successor) := RefreshTokens(s.sessions, r.user, r.token, signed);
      && after.sessions == sessions
      && after.requests == s.requests[k := r.(stage := if successor.Some? then Issued(signed) else Refused)]
  {
  }

  // It is what the interleaving model does when the request begins and runs to its end alone.
  lemma LoneRefreshIsOneRequest(s: State, user: User, token: Token, signed: Token)
    ensures var k := |s.requests|;
      var after := Run(s, [Begin(user, token), Advance(k, signed), Advance(k, signed), Advance(k, signed)]);
      var (sessions, successor) := RefreshTokens(s.sessions, user, token, signed);
      && after.sessions == sessions
      && after.requests == s.requests + [Request(user, token, if successor.Some? then Issued(signed) else Refused)]
  {
    hide AdvanceRequest, RefreshTokens, Run;
    var k := |s.requests|;
    var began := Step(s, Begin(user, token));
    RunOfFour(s, Begin(user, token), Advance(k, signed), Advance(k, signed), Advance(k, signed));
    AdvancesAlone(began, k, signed);
    SameLength(began, k, signed);
    SameLength(AdvanceRequest(began, k, signed), k, signed);
  }

  lemma SameLength(s: State, k: nat, signed: Token)
    requires k < |s.requests|
    ensures |AdvanceRequest(s, k, signed).requests| == |s.requests|
  {
  }

  // resets: the reset token and its expiry kept in a user's settings.
  datatype Auth = Auth(sessions: Sessions, issued: map<Token, User>, resets: map<User, (Token, int)>)

  const NOBODY := Auth(map[], map[], map[])

  const RESET_EXPIRY_MS := 60 * 60 * 1000

  datatype Call =
    | LoginCall(user: User, signed: Token)
    | RefreshCall(user: User, token: Token, signed: Token)
    | LogoutCall(user: User)
    | ForgotCall(user: User, resetToken: Token, now: int)
    | ResetCall(user: User, resetToken: Token, now: int)

  predicate ResetMatches(a: Auth, user: User, resetToken: Token, now: int) {
    user in a.resets && a.resets[user].0 == resetToken && a.resets[user].1 > now
  }

  // The update clears the token of every row it matches; the call goes on with the row it names.
  function ResetPassword(a: Auth, user: User, resetToken: Token, now: int): Auth {
    if !ResetMatches(a, user, resetToken, now) then a
    else Auth(WithoutUser(a.sessions, user), a.issued,
              map u | u in a.resets && !ResetMatches(a, u, resetToken, now) :: a.resets[u])
  }

  function Answer(a: Auth, c: Call): Auth {
    match c
    case LoginCall(user, signed) =>
      a.(sessions := if signed in a.sessions then a.sessions else a.sessions[signed := user],
        issued := a.issued[signed := user])
    case RefreshCall(user, token, signed) =>
      var (sessions, successor) := RefreshTokens(a.sessions, user, token, signed);
      a.(sessions := sessions, issued := if successor.Some? then a.issued[signed := user] else a.issued)
    case LogoutCall(user) => a.(sessions := WithoutUser(a.sessions, user))
    case ForgotCall(user, resetToken, now) => a.(resets := a.resets[user := (resetToken, now + RESET_EXPIRY_MS)])
    case ResetCall(user, resetToken, now) => ResetPassword(a, user, resetToken, now)
  }

  function Serve(calls: seq<Call>): Auth {
    if calls == [] then NOBODY else Answer(Serve(calls[..|calls| - 1]), calls[|calls| - 1])
  }

  // The token a call signs, if it signs one, was never signed before.
  predicate SignsFresh(a: Auth, c: Call) {
    && (c.LoginCall? ==> c.signed !in a.issued)
    && (c.RefreshCall? ==> c.signed !in a.issued)
  }

  predicate AllFresh(calls: seq<Call>) {
    calls == [] || (AllFresh(calls[..|calls| - 1]) && SignsFresh(Serve(calls[..|calls| - 1]), calls[|calls| - 1]))
  }

  // A call that revokes a user: a logout, a refresh whose token has no live session of that user, a password reset.
  predicate Revokes(a: Auth, c: Call, user: User) {
    match c
    case LogoutCall(u) => u == user
    case RefreshCall(u, token, _) => u == user && !(token in a.sessions && a.sessions[token] == user)
    case ResetCall(u, resetToken, now) => u == user && ResetMatches(a, u, resetToken, now)
    case LoginCall(_, _) | ForgotCall(_, _, _) => false
  }

  ghost predicate SessionsIssued(a: Auth) {
    forall t :: t in a.sessions ==> t in a.issued && a.issued[t] == a.sessions[t]
  }

  lemma {:induction false} ServeIssues(calls: seq<Call>)
    requires AllFresh(calls)
    ensures SessionsIssued(Serve(calls))
  {
    if calls != [] {
      ServeIssues(calls[..|calls| - 1]);
    }
  }

  lemma DeadStep(a: Auth, c: Call, token: Token)
    requires SignsFresh(a, c) && token in a.issued && token !in a.sessions
    ensures var b := Answer(a, c); token in b.issued && token !in b.sessions
  {
  }

  lemma {:induction false} DeadStaysDead(before: seq<Call>, later: seq<Call>, token: Token)
    requires AllFresh(before + later) && token in Serve(before).issued && token !in Serve(before).sessions
    ensures var a := Serve(before + later); token in a.issued && token !in a.sessions
  {
    if later == [] {
      assert before + later == before;
    } else {
      var n := |later| - 1;
      assert (before + later)[..|before| + n] == before + later[..n];
      hide Answer, SignsFresh;
      DeadStaysDead(before, later[..n], token);
      DeadStep(Serve(before + later[..n]), later[n], token);
    }
  }

  // Revocation is permanent: no token signed for a user before a logout, a replay or a password reset of that user
  // refreshes again, whoever presents it, whatever is served in between.
  lemma PermanentRevocation(before: seq<Call>, c: Call, later: seq<Call>, user: User, token: Token)
    requires AllFresh(before + [c] + later)
    requires token in Serve(before).issued && Serve(before).issued[token] == user && Revokes(Serve(before), c, user)
    ensures forall presenter, signed ::
      RefreshTokens(Serve(before + [c] + later).sessions, presenter, token, signed).1 == None
  {
    FreshPrefix(before + [c], later);
    FreshPrefix(before, [c]);
    ServeIssues(before);
    assert (before + [c])[..|before|] == before;
    DeadStaysDead(before + [c], later, token);
  }

  lemma {:induction false} FreshPrefix(before: seq<Call>, later: seq<Call>)
    requires AllFresh(before + later)
    ensures AllFresh(before)
  {
    if later == [] {
      assert before + later == before;
    } else {
      var n := |later| - 1;
      assert (before + later)[..|before| + n] == before + later[..n];
      FreshPrefix(before, later[..n]);
    }
  }

  // A reset token works once: after it has, it matches no user until it is sent out again.
  lemma {:induction false} ResetWorksOnce(before: seq<Call>, user: User, resetToken: Token, now: int,
    later: seq<Call>, other: User, then_: int)
    requires ResetMatches(Serve(before), user, resetToken, now) && now <= then_
    requires forall c :: c in later && c.ForgotCall? ==> c.resetToken != resetToken
    ensures !ResetMatches(Serve(before + [ResetCall(user, resetToken, now)] + later), other, resetToken, then_)
  {
    var used := before + [ResetCall(user, resetToken, now)];
    if later == [] {
      assert used + later == used && used[..|before|] == before;
    } else {
      var n := |later| - 1;
      assert (used + later)[..|used| + n] == used + later[..n];
      assert later[n] in later;
      ResetWorksOnce(before, user, resetToken, now, later[..n], other, then_);
    }
  }

  // The reset token last sent to a user, with the time it was sent, unless it has been used.
  function Sent(calls: seq<Call>, user: User): Option<(Token, int)> {
    if calls == [] then None
    else
      var before := calls[..|calls| - 1];
      var sent := Sent(before, user);
      match calls[|calls| - 1]
      case ForgotCall(u, resetToken, now) => if u == user then Some((resetToken, now)) else sent
      case ResetCall(u, resetToken, now) =>
        if GoodFor(Sent(before, u), resetToken, now) && GoodFor(sent, resetToken, now) then None else sent
      case _ => sent
  }

  // It is the token asked for, and was sent less than an hour ago.
  predicate GoodFor(sent: Option<(Token, int)>, resetToken: Token, now: int) {
    sent.Some? && sent.value.0 == resetToken && now < sent.value.1 + 3_600_000
  }

  lemma {:induction false} ResetsAreSent(calls: seq<Call>, user: User)
    ensures user in Serve(calls).resets <==> Sent(calls, user).Some?
    ensures user in Serve(calls).resets ==>
      Serve(calls).resets[user] == (Sent(calls, user).value.0, Sent(calls, user).value.1 + 3_600_000)
  {
    hide RefreshTokens, WithoutUser;
    if calls != [] {
      var before := calls[..|calls| - 1];
      ResetsAreSent(before, user);
      if calls[|calls| - 1].ResetCall? {
        ResetsAreSent(before, calls[|calls| - 1].user);
      }
    }
  }

  // After any calls, a reset is accepted if and only if its token is the one last sent to the user, less than an hour
  // ago, and not used since; it then ends all sessions of the user, and otherwise changes nothing.
  lemma ResetExactly(calls: seq<Call>, user: User, resetToken: Token, now: int)
    ensures ResetMatches(Serve(calls), user, resetToken, now) <==> GoodFor(Sent(calls, user), resetToken, now)
    ensures GoodFor(Sent(calls, user), resetToken, now) ==>
      LiveTokens(Serve(calls + [ResetCall(user, resetToken, now)]).sessions, user) == {}
    ensures !GoodFor(Sent(calls, user), resetToken, now) ==>
      Serve(calls + [ResetCall(user, resetToken, now)]) == Serve(calls)
  {
    ResetsAreSent(calls, user);
    assert (calls + [ResetCall(user, resetToken, now)])[..|calls|] == calls;
    hide Sent;
  }

  // A token that was just signed refreshes, for the user it was signed for.
  lemma SignedTokenWorks(calls: seq<Call>, user: User, signed: Token, next: Token)
    requires AllFresh(calls + [LoginCall(user, signed)])
    requires next !in Serve(calls + [LoginCall(user, signed)]).sessions
    ensures RefreshTokens(Serve(calls + [LoginCall(user, signed)]).sessions, user, signed, next).1 == Some(next)
  {
    var all := calls + [LoginCall(user, signed)];
    assert all[..|calls|] == calls;
    ServeIssues(calls);
  }

  // ---------------------------------------------------------------- the service

  class AuthService {
    var sessions: Sessions
    var resets: map<User, (Token, int)>
    ghost var issued: map<Token, User>

    constructor ()
      ensures Contents() == NOBODY
    {
      sessions, resets, issued := map[], map[], map[];
    }

    ghost function Contents(): Auth
      reads this
    {
      Auth(sessions, issued, resets)
    }

    // findUnique, then delete: null when no row holds the token.
    method ConsumeRefreshSession(token: Token) returns (owner: Option<User>)
      modifies this`sessions
      ensures owner == if token in old(sessions) then Some(old(sessions)[token]) else None
      ensures sessions == old(sessions) - {token}
    {
      if token !in sessions {
        assert sessions - {token} == sessions;
        return None;
      }
      owner := Some(sessions[token]);
      sessions := sessions - {token};
    }

    method DeleteAllRefreshSessions(user: User)
      modifies this`sessions
      ensures sessions == WithoutUser(old(sessions), user)
    {
      sessions := map t | t in sessions && sessions[t] != user :: sessions[t];
    }

    // Signs the pair and stores the refresh token; the unique index may refuse it.
    method GenerateTokens(user: User, signed: Token) returns (ok: bool)
      modifies this`sessions, this`issued
      ensures ok == (signed !in old(sessions))
      ensures sessions == if ok then old(sessions)[signed := user] else old(sessions)
      ensures issued == if ok then old(issued)[signed := user] else old(issued)
    {
      ok := signed !in sessions;
      if ok {
        sessions := sessions[signed := user];
        issued := issued[signed := user];
      }
    }

    method Refresh(user: User, token: Token, signed: Token) returns (successor: Option<Token>)
      modifies this`sessions, this`issued
      ensures (sessions, successor) == RefreshTokens(old(sessions), user, token, signed)
      ensures Contents() == Answer(old(Contents()), RefreshCall(user, token, signed))
    {
      var owner := ConsumeRefreshSession(token);
      if owner.None? {
        assert sessions == old(sessions);
        DeleteAllRefreshSessions(user);
        return None;
      }
      if owner.value != user {
        DeleteAllRefreshSessions(user);
        return None;
      }
      var ok := GenerateTokens(user, signed);
      return if ok then Some(signed) else None;
    }

    method Logout(user: User)
      modifies this`sessions
      ensures Contents() == Answer(old(Contents()), LogoutCall(user))
    {
      DeleteAllRefreshSessions(user);
    }

    method Reset(user: User, resetToken: Token, now: int) returns (ok: bool)
      modifies this`sessions, this`resets
      ensures Contents() == Answer(old(Contents()), ResetCall(user, resetToken, now))
      ensures ok == ResetMatches(old(Contents()), user, resetToken, now)
    {
      ok := user in resets && resets[user].0 == resetToken && resets[user].1 > now;
      if ok {
        resets := map u | u in resets && !(resets[u].0 == resetToken && resets[u].1 > now) :: resets[u];
        DeleteAllRefreshSessions(user);
      }
    }
  }
}
