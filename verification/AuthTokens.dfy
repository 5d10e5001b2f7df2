/** Refresh-token rotation, and the one-time tokens that end every session of a user.

    Tables are sequences: a raw token is identified with the row it hashes to, so a fresh token is
    the next row and a raw value beyond the table is one the server never issued. */
module AuthTokens {
  import opened Wrappers
  import EngineTypes

  type UserId = nat
  type Token = nat

  datatype User = User(email: string, password: string, suspended: bool)

  datatype RefreshRow = RefreshRow(user: UserId, expiresAt: int, revokedAt: Option<int>, rotatedFrom: Option<Token>)

  /** A password-reset or email-change token; only the latter uses `newEmail`. */
  datatype OneTime = OneTime(user: UserId, newEmail: string, expiresAt: int, usedAt: Option<int>)

  datatype Db = Db(users: seq<User>, refresh: seq<RefreshRow>, resets: seq<OneTime>, changes: seq<OneTime>)

  datatype Error = BadCredentials | Suspended | UnknownToken | Reused | Expired | Unavailable | BadToken |
                   Taken | SameEmail

  datatype Outcome = Done | Issued(token: Token) | Rejected(error: Error)

  datatype Request =
    | Login(email: string, password: string, now: int)
    | Refresh(raw: Token, now: int)
    | Logout(cookie: Option<Token>, now: int)
    | StartReset(email: string, now: int)
    | FinishReset(token: Token, newPassword: string, now: int)
    | ChangePassword(user: UserId, current: string, newPassword: string, now: int)
    | RequestEmailChange(user: UserId, newEmail: string, current: string, now: int)
    | ConfirmEmailChange(token: Token, now: int)

  const REFRESH_TTL: nat := 2592000
  const RESET_TTL: nat := 3600
  const CHANGE_TTL: nat := 7200

  // ----- the service, on values -----

  function FindEmail(users: seq<User>, email: string, from: nat): (id: Option<UserId>)
    requires from <= |users|
    ensures id.Some? ==> from <= id.value < |users| && users[id.value].email == email
    ensures id.Some? ==> forall i :: from <= i < id.value ==> users[i].email != email
    ensures id.None? ==> forall i :: from <= i < |users| ==> users[i].email != email
    decreases |users| - from
  {
    if from == |users| then None
    else if users[from].email == email then Some(from)
    else FindEmail(users, email, from + 1)
  }

  function RevokeAll(rows: seq<RefreshRow>, user: UserId, now: int): (after: seq<RefreshRow>)
    ensures |after| == |rows|
    ensures forall i :: 0 <= i < |rows| ==>
              after[i] ==
                if rows[i].user == user && rows[i].revokedAt.None? then rows[i].(revokedAt := Some(now)) else rows[i]
  {
    seq(|rows|, i requires 0 <= i < |rows| =>
      if rows[i].user == user && rows[i].revokedAt.None? then rows[i].(revokedAt := Some(now)) else rows[i])
  }

  function Issue(db: Db, user: UserId, now: int, from: Option<Token>): Db {
    db.(refresh := db.refresh + [RefreshRow(user, now + REFRESH_TTL, None, from)])
  }

  predicate Usable(rows: seq<OneTime>, token: Token, now: int) {
    token < |rows| && rows[token].usedAt.None? && rows[token].expiresAt > now
  }

  /** What a service call does to its session, and its answer. */
  function Serve(db: Db, q: Request): (Db, Outcome) {
    match q
    case Login(email, password, now) =>
      (match FindEmail(db.users, email, 0)
       case None => (db, Rejected(BadCredentials))
       case Some(u) =>
         if db.users[u].password != password then (db, Rejected(BadCredentials))
         else if db.users[u].suspended then (db, Rejected(Suspended))
         else (Issue(db, u, now, None), Issued(|db.refresh|)))
    case Refresh(raw, now) =>
      if raw >= |db.refresh| then (db, Rejected(UnknownToken))
      else if db.refresh[raw].revokedAt.Some? then
        (db.(refresh := RevokeAll(db.refresh, db.refresh[raw].user, now)), Rejected(Reused))
      else if db.refresh[raw].expiresAt <= now then (db, Rejected(Expired))
      else if db.refresh[raw].user >= |db.users| || db.users[db.refresh[raw].user].suspended then
        (db, Rejected(Unavailable))
      else (Rotate(db, raw, now), Issued(|db.refresh|))
    case Logout(cookie, now) =>
      if cookie.Some? && cookie.value < |db.refresh| && db.refresh[cookie.value].revokedAt.None? then
        (db.(refresh := db.refresh[cookie.value := db.refresh[cookie.value].(revokedAt := Some(now))]), Done)
      else (db, Done)
    case StartReset(email, now) =>
      (match FindEmail(db.users, email, 0)
       case None => (db, Done)
       case Some(u) => (db.(resets := db.resets + [OneTime(u, "", now + RESET_TTL, None)]), Done))
    case FinishReset(token, newPassword, now) =>
      if !Usable(db.resets, token, now) || db.resets[token].user >= |db.users| then (db, Rejected(BadToken))
      else
        var u := db.resets[token].user;
        (db.(users := db.users[u := db.users[u].(password := newPassword)],
             resets := db.resets[token := db.resets[token].(usedAt := Some(now))],
             refresh := RevokeAll(db.refresh, u, now)), Done)
    case ChangePassword(u, current, newPassword, now) =>
      if u >= |db.users| || db.users[u].password != current then (db, Rejected(BadCredentials))
      else
        (db.(users := db.users[u := db.users[u].(password := newPassword)],
             refresh := RevokeAll(db.refresh, u, now)), Done)
    case RequestEmailChange(u, newEmail, current, now) =>
      if u >= |db.users| || db.users[u].password != current then (db, Rejected(BadCredentials))
      else if EngineTypes.Lower(newEmail) == EngineTypes.Lower(db.users[u].email) then (db, Rejected(SameEmail))
      else if FindEmail(db.users, newEmail, 0).Some? then (db, Rejected(Taken))
      else (db.(changes := db.changes + [OneTime(u, newEmail, now + CHANGE_TTL, None)]), Done)
    case ConfirmEmailChange(token, now) =>
      if !Usable(db.changes, token, now) then (db, Rejected(BadToken))
      else
        var row := db.changes[token];
        var taken := FindEmail(db.users, row.newEmail, 0);
        if taken.Some? && taken.value != row.user then (db, Rejected(Taken))
        else if row.user >= |db.users| then (db, Rejected(BadToken))
        else
          (db.(users := db.users[row.user := db.users[row.user].(email := row.newEmail)],
               changes := db.changes[token := row.(usedAt := Some(now))],
               refresh := RevokeAll(db.refresh, row.user, now)), Done)
  }

  function Rotate(db: Db, raw: Token, now: int): Db
    requires raw < |db.refresh|
  {
    var spent := db.refresh[raw].(revokedAt := Some(now));
    Issue(db.(refresh := db.refresh[raw := spent]), spent.user, now, Some(raw))
  }

  /** A whole request: its session is committed if the service returns and rolled back if it raises. */
  function Handle(db: Db, q: Request): (Db, Outcome) {
    var (after, outcome) := Serve(db, q);
    (if outcome.Rejected? then db else after, outcome)
  }

  function History(db: Db, qs: seq<Request>): Db {
    if qs == [] then db else Handle(History(db, qs[..|qs| - 1]), qs[|qs| - 1]).0
  }

  // ----- the service, as a session -----

  class AuthService {
    var users: seq<User>
    var refresh: seq<RefreshRow>
    var resets: seq<OneTime>
    var changes: seq<OneTime>

    function Contents(): Db
      reads this
    { Db(users, refresh, resets, changes) }

    method RevokeAllRefreshTokens(user: UserId, now: int)
      modifies this`refresh
      ensures refresh == RevokeAll(old(refresh), user, now)
    {
      for i := 0 to |refresh|
        invariant |refresh| == |old(refresh)|
        invariant forall k :: 0 <= k < i ==> refresh[k] == RevokeAll(old(refresh), user, now)[k]
        invariant forall k :: i <= k < |refresh| ==> refresh[k] == old(refresh)[k]
      {
        if refresh[i].user == user && refresh[i].revokedAt.None? {
          refresh := refresh[i := refresh[i].(revokedAt := Some(now))];
        }
      }
    }

    method IssueRefresh(user: UserId, now: int, from: Option<Token>) returns (raw: Token)
      modifies this`refresh
      ensures raw == |old(refresh)| && Contents() == Issue(old(Contents()), user, now, from)
    {
      raw := |refresh|;
      refresh := refresh + [RefreshRow(user, now + REFRESH_TTL, None, from)];
    }

    method DoLogin(email: string, password: string, now: int) returns (o: Outcome)
      modifies this
      ensures (Contents(), o) == Serve(old(Contents()), Login(email, password, now))
      ensures o.Issued? ==>
                && o.token == |old(refresh)| && refresh[..|old(refresh)|] == old(refresh)
                && Active(refresh, o.token) && Root(refresh, o.token) == o.token
                && refresh[o.token].user < |users| && users[refresh[o.token].user].email == email
      ensures !o.Issued? ==> Contents() == old(Contents())
    {
      var found := FindEmail(users, email, 0);
      if found.None? || users[found.value].password != password {
        return Rejected(BadCredentials);
      }
      if users[found.value].suspended {
        return Rejected(Suspended);
      }
      var raw := IssueRefresh(found.value, now, None);
      return Issued(raw);
    }

    method DoRefresh(raw: Token, now: int) returns (o: Outcome)
      modifies this
      ensures (Contents(), o) == Serve(old(Contents()), Refresh(raw, now))
      ensures o.Issued? <==> Live(old(refresh), raw, now) && Welcome(users, old(refresh)[raw].user)
      ensures o == Rejected(Expired) <==> Active(old(refresh), raw) && old(refresh)[raw].expiresAt <= now
      ensures Chained(old(refresh)) ==> Chained(refresh)
      ensures o.Issued? ==> Active(old(refresh), raw) && Succeeds(refresh, o.token, raw)
      ensures o.Issued? && Chained(old(refresh)) ==> OnlyLive(refresh, o.token)
      ensures o == Rejected(Reused) ==> raw < |refresh| && Sessions(refresh, refresh[raw].user) == 0
      ensures o.Rejected? && o != Rejected(Reused) ==> Contents() == old(Contents())
    {
      ghost var before := Contents();
      RefreshMeaning(before, raw, now);
      if raw >= |refresh| {
        return Rejected(UnknownToken);
      }
      var row := refresh[raw];
      if row.revokedAt.Some? {
        RevokeAllRefreshTokens(row.user, now);
        return Rejected(Reused);
      }
      if row.expiresAt <= now {
        return Rejected(Expired);
      }
      if row.user >= |users| || users[row.user].suspended {
        return Rejected(Unavailable);
      }
      refresh := refresh[raw := row.(revokedAt := Some(now))];
      var next := IssueRefresh(row.user, now, Some(raw));
      return Issued(next);
    }

    method DoLogout(cookie: Option<Token>, now: int) returns (o: Outcome)
      modifies this
      ensures (Contents(), o) == Serve(old(Contents()), Logout(cookie, now))
      ensures |refresh| == |old(refresh)| && (cookie.Some? ==> !Active(refresh, cookie.value))
      ensures forall t: Token :: t < |refresh| && cookie != Some(t) ==> refresh[t] == old(refresh[t])
      ensures forall user :: Sessions(refresh, user) == SessionsAfter(old(Contents()), Logout(cookie, now), user)
    {
      ghost var before := Contents();
      forall user ensures Sessions(Handle(before, Logout(cookie, now)).0.refresh, user)
                          == SessionsAfter(before, Logout(cookie, now), user) {
        SessionAccounting(before, Logout(cookie, now), user);
      }
      if cookie.Some? && cookie.value < |refresh| {
        var row := refresh[cookie.value];
        if row.revokedAt.None? {
          refresh := refresh[cookie.value := row.(revokedAt := Some(now))];
        }
      }
      return Done;
    }

    method DoStartReset(email: string, now: int) returns (o: Outcome)
      modifies this
      ensures (Contents(), o) == Serve(old(Contents()), StartReset(email, now))
    {
      var found := FindEmail(users, email, 0);
      if found.Some? {
        resets := resets + [OneTime(found.value, "", now + RESET_TTL, None)];
      }
      return Done;
    }

    method DoRequestEmailChange(user: UserId, newEmail: string, current: string, now: int) returns (o: Outcome)
      modifies this
      ensures (Contents(), o) == Serve(old(Contents()), RequestEmailChange(user, newEmail, current, now))
    {
      if user >= |users| || users[user].password != current {
        return Rejected(BadCredentials);
      }
      if EngineTypes.Lower(newEmail) == EngineTypes.Lower(users[user].email) {
        return Rejected(SameEmail);
      }
      var taken := FindEmail(users, newEmail, 0);
      if taken.Some? {
        return Rejected(Taken);
      }
      changes := changes + [OneTime(user, newEmail, now + CHANGE_TTL, None)];
      return Done;
    }

    method DoFinishReset(token: Token, newPassword: string, now: int) returns (o: Outcome)
      modifies this
      ensures (Contents(), o) == Serve(old(Contents()), FinishReset(token, newPassword, now))
      ensures o.Done? <==> Fresh(old(resets), token, now) && old(resets)[token].user < |users|
    {
      if token >= |resets| || resets[token].usedAt.Some? || resets[token].expiresAt <= now {
        return Rejected(BadToken);
      }
      var user := resets[token].user;
      if user >= |users| {
        return Rejected(BadToken);
      }
      users := users[user := users[user].(password := newPassword)];
      resets := resets[token := resets[token].(usedAt := Some(now))];
      RevokeAllRefreshTokens(user, now);
      return Done;
    }

    method DoChangePassword(user: UserId, current: string, newPassword: string, now: int) returns (o: Outcome)
      modifies this
      ensures (Contents(), o) == Serve(old(Contents()), ChangePassword(user, current, newPassword, now))
    {
      if user >= |users| || users[user].password != current {
        return Rejected(BadCredentials);
      }
      users := users[user := users[user].(password := newPassword)];
      RevokeAllRefreshTokens(user, now);
      return Done;
    }

    method DoConfirmEmailChange(token: Token, now: int) returns (o: Outcome)
      modifies this
      ensures (Contents(), o) == Serve(old(Contents()), ConfirmEmailChange(token, now))
      ensures o.Done? ==> Fresh(old(changes), token, now) && old(changes)[token].user < |users| &&
                          users[old(changes)[token].user].email == old(changes)[token].newEmail
    {
      if token >= |changes| || changes[token].usedAt.Some? || changes[token].expiresAt <= now {
        return Rejected(BadToken);
      }
      var row := changes[token];
      var taken := FindEmail(users, row.newEmail, 0);
      if taken.Some? && taken.value != row.user {
        return Rejected(Taken);
      }
      if row.user >= |users| {
        return Rejected(BadToken);
      }
      users := users[row.user := users[row.user].(email := row.newEmail)];
      changes := changes[token := row.(usedAt := Some(now))];
      RevokeAllRefreshTokens(row.user, now);
      return Done;
    }

    /** The request wrapper: commit when the service returns, roll back when it raises. */
    method Answer(q: Request) returns (o: Outcome)
      modifies this
      ensures (Contents(), o) == Handle(old(Contents()), q)
      ensures Chained(old(refresh)) ==> Chained(refresh) && Grows(old(refresh), refresh)
      ensures forall user :: Sessions(refresh, user) == SessionsAfter(old(Contents()), q, user)
      ensures o.Rejected? ==> Contents() == old(Contents())
      ensures !o.Rejected? <==> Accepted(old(Contents()), q)
    {
      ghost var before := Contents();
      AcceptedExactly(before, q);
      var users0, refresh0, resets0, changes0 := users, refresh, resets, changes;
      match q {
        case Login(email, password, now) => o := DoLogin(email, password, now);
        case Refresh(raw, now) => o := DoRefresh(raw, now);
        case Logout(cookie, now) => o := DoLogout(cookie, now);
        case StartReset(email, now) => o := DoStartReset(email, now);
        case FinishReset(token, newPassword, now) => o := DoFinishReset(token, newPassword, now);
        case ChangePassword(user, current, newPassword, now) => o := DoChangePassword(user, current, newPassword, now);
        case RequestEmailChange(user, newEmail, current, now) =>
          o := DoRequestEmailChange(user, newEmail, current, now);
        case ConfirmEmailChange(token, now) => o := DoConfirmEmailChange(token, now);
      }
      if o.Rejected? {
        users, refresh, resets, changes := users0, refresh0, resets0, changes0;
      }
      if Chained(before.refresh) {
        ServeChained(before, q);
      }
      forall user ensures Sessions(refresh, user) == SessionsAfter(before, q, user) {
        SessionAccounting(before, q, user);
      }
    }
  }

  // ----- when a request is accepted -----

  /** A refresh token that is neither ended nor past its lifetime. */
  predicate Live(rows: seq<RefreshRow>, t: Token, now: int) {
    t < |rows| && rows[t].revokedAt.None? && now < rows[t].expiresAt
  }

  /** A one-time token that is neither used nor past its lifetime. */
  predicate Fresh(rows: seq<OneTime>, t: Token, now: int) {
    t < |rows| && rows[t].usedAt.None? && now < rows[t].expiresAt
  }

  predicate Welcome(users: seq<User>, u: UserId) { u < |users| && !users[u].suspended }

  /** The first user of that address. */
  predicate Named(users: seq<User>, u: UserId, email: string) {
    u < |users| && users[u].email == email && forall i :: 0 <= i < u ==> users[i].email != email
  }

  predicate Accepted(db: Db, q: Request) {
    match q
    case Login(email, password, _) =>
      exists u | 0 <= u < |db.users| :: Named(db.users, u, email) && db.users[u].password == password &&
                                        !db.users[u].suspended
    case Refresh(raw, now) => Live(db.refresh, raw, now) && Welcome(db.users, db.refresh[raw].user)
    case Logout(_, _) => true
    case StartReset(_, _) => true
    case FinishReset(token, _, now) => Fresh(db.resets, token, now) && db.resets[token].user < |db.users|
    case ChangePassword(u, current, _, _) => u < |db.users| && db.users[u].password == current
    case RequestEmailChange(u, newEmail, current, _) =>
      && u < |db.users| && db.users[u].password == current
      && EngineTypes.Lower(newEmail) != EngineTypes.Lower(db.users[u].email)
      && forall i :: 0 <= i < |db.users| ==> db.users[i].email != newEmail
    case ConfirmEmailChange(token, now) =>
      && Fresh(db.changes, token, now) && db.changes[token].user < |db.users|
      && forall u | 0 <= u < |db.users| ::
           Named(db.users, u, db.changes[token].newEmail) ==> u == db.changes[token].user
  }

  /** A request is accepted exactly then, and a refused one changes nothing. */
  lemma AcceptedExactly(db: Db, q: Request)
    ensures !Handle(db, q).1.Rejected? <==> Accepted(db, q)
    ensures !Accepted(db, q) ==> Handle(db, q).0 == db
  {
    match q {
      case Login(email, _, _) => FoundIsNamed(db.users, email);
      case RequestEmailChange(_, newEmail, _, _) => FoundIsNamed(db.users, newEmail);
      case ConfirmEmailChange(token, _) =>
        if token < |db.changes| {
          FoundIsNamed(db.users, db.changes[token].newEmail);
        }
      case _ =>
    }
  }

  lemma FoundIsNamed(users: seq<User>, email: string)
    ensures forall u: UserId :: Named(users, u, email) <==> FindEmail(users, email, 0) == Some(u)
  {
    var found := FindEmail(users, email, 0);
    forall u: UserId | Named(users, u, email) ensures found == Some(u) {
      assert found.Some?;
    }
  }

  /** A refresh is answered with a new token if and only if the token presented was issued, has not ended, has
      not expired, and its user exists and is not suspended; each refusal says why. */
  lemma RefreshExactly(db: Db, raw: Token, now: int)
    ensures var o := Handle(db, Refresh(raw, now)).1;
            && (o.Issued? <==> Live(db.refresh, raw, now) && Welcome(db.users, db.refresh[raw].user))
            && (o == Rejected(UnknownToken) <==> raw >= |db.refresh|)
            && (o == Rejected(Reused) <==> raw < |db.refresh| && !Active(db.refresh, raw))
            && (o == Rejected(Expired) <==> Active(db.refresh, raw) && db.refresh[raw].expiresAt <= now)
            && (o == Rejected(Unavailable) <==>
                  Live(db.refresh, raw, now) && !Welcome(db.users, db.refresh[raw].user))
  {}

  /** What a request writes besides refresh tokens: an accepted change sets the password or the address of its
      user and uses its token, an accepted wish for one adds a token of that user, and nothing else is written. */
  lemma WritesExactly(db: Db, q: Request)
    ensures var later, ok := Handle(db, q).0, Accepted(db, q);
            match q
            case StartReset(email, _) =>
              && later.users == db.users && later.changes == db.changes && db.resets <= later.resets
              && |later.resets| == |db.resets| + (if FindEmail(db.users, email, 0).Some? then 1 else 0)
            case FinishReset(token, password, now) =>
              && later.changes == db.changes
              && later.users == (if ok then Renewed(db.users, db.resets[token].user, password) else db.users)
              && later.resets == if ok then Spent(db.resets, token, now) else db.resets
            case ChangePassword(u, _, password, _) =>
              && later.users == (if ok then Renewed(db.users, u, password) else db.users)
              && later.resets == db.resets && later.changes == db.changes
            case RequestEmailChange(_, _, _, _) =>
              && later.users == db.users && later.resets == db.resets && db.changes <= later.changes
              && |later.changes| == |db.changes| + (if ok then 1 else 0)
            case ConfirmEmailChange(token, now) =>
              && later.resets == db.resets
              && |later.users| == |db.users|
              && (forall v :: 0 <= v < |db.users| && !(ok && v == db.changes[token].user) ==>
                    later.users[v] == db.users[v])
              && later.changes == if ok then Spent(db.changes, token, now) else db.changes
            case _ => later.users == db.users && later.resets == db.resets && later.changes == db.changes
  {
    AcceptedExactly(db, q);
  }

  function Renewed(users: seq<User>, u: UserId, password: string): (after: seq<User>)
    requires u < |users|
    ensures |after| == |users| && after[u].password == password
  { users[u := users[u].(password := password)] }

  function Spent(rows: seq<OneTime>, token: Token, now: int): (after: seq<OneTime>)
    requires token < |rows|
    ensures |after| == |rows| && after[token].usedAt == Some(now)
  { rows[token := rows[token].(usedAt := Some(now))] }

  // ----- lifetimes -----

  /** Rows are only added, and a row keeps its owner, its address and its end. */
  ghost predicate Stays(rows: seq<OneTime>, later: seq<OneTime>) {
    && |rows| <= |later|
    && forall t :: 0 <= t < |rows| ==>
         && later[t].user == rows[t].user && later[t].newEmail == rows[t].newEmail
         && later[t].expiresAt == rows[t].expiresAt
  }

  ghost predicate Continues(db: Db, later: Db) {
    && |later.users| == |db.users| && Grows(db.refresh, later.refresh)
    && Stays(db.resets, later.resets) && Stays(db.changes, later.changes)
  }

  lemma HandleContinues(db: Db, q: Request)
    ensures Continues(db, Handle(db, q).0)
  {}

  lemma {:induction false} HistoryContinues(db: Db, qs: seq<Request>)
    ensures Continues(db, History(db, qs))
  {
    if qs != [] {
      HistoryContinues(db, qs[..|qs| - 1]);
      HandleContinues(History(db, qs[..|qs| - 1]), qs[|qs| - 1]);
      GrowsTransitive(db.refresh, History(db, qs[..|qs| - 1]).refresh, History(db, qs).refresh);
    }
  }

  /** A session's token lives for thirty days from its issue: whatever is requested in between, from then on it
      is never exchanged, and before it is unless it has ended or its user is gone or suspended. */
  lemma RefreshLifetime(db: Db, q: Request, t: Token, qs: seq<Request>, at: int)
    requires Handle(db, q).1 == Issued(t)
    ensures var later := History(Handle(db, q).0, qs);
            && t < |later.refresh|
            && (Handle(later, Refresh(t, at)).1.Issued? <==>
                  at < q.now + 30 * 24 * 3600 && Active(later.refresh, t) &&
                  Welcome(later.users, later.refresh[t].user))
            && (at >= q.now + 30 * 24 * 3600 ==>
                  Handle(later, Refresh(t, at)) ==
                  (later, Rejected(if Active(later.refresh, t) then Expired else Reused)))
  {
    HistoryContinues(Handle(db, q).0, qs);
    RefreshExactly(History(Handle(db, q).0, qs), t, at);
  }

  /** A reset token lives for an hour: whatever is requested in between, it resets the password of the user it
      was asked for if and only if it is presented within the hour and was not used. */
  lemma ResetLifetime(db: Db, email: string, start: int, qs: seq<Request>, password: string, at: int)
    requires FindEmail(db.users, email, 0).Some?
    ensures var u, token := FindEmail(db.users, email, 0).value, |db.resets|;
            var later := History(Handle(db, StartReset(email, start)).0, qs);
            var (after, o) := Handle(later, FinishReset(token, password, at));
            && (o.Done? <==> at < start + 3600 && !Used(later.resets, token))
            && u < |later.users|
            && (o.Done? ==> after.users == later.users[u := later.users[u].(password := password)])
            && (!o.Done? ==> after == later)
  {
    HistoryContinues(Handle(db, StartReset(email, start)).0, qs);
  }

  lemma {:induction false} FindAfterEmail(users: seq<User>, u: UserId, email: string, from: nat)
    requires from <= u < |users|
    requires FindEmail(users, email, from).Some? ==> FindEmail(users, email, from).value == u
    ensures FindEmail(users[u := users[u].(email := email)], email, from) == Some(u)
    decreases |users| - from
  {
    if from < u {
      FindAfterEmail(users, u, email, from + 1);
    }
  }

  /** A confirmation token lives for two hours: whatever is requested in between, it is accepted if and only if
      it is presented within them, was not used, and nobody else has come to the address; then the address
      becomes the user's and nothing else about any user changes. */
  lemma EmailTakesEffect(db: Db, u: UserId, email: string, current: string, start: int, qs: seq<Request>, at: int)
    requires Handle(db, RequestEmailChange(u, email, current, start)).1.Done?
    ensures var token, later := |db.changes|, History(Handle(db, RequestEmailChange(u, email, current, start)).0, qs);
            var (after, o) := Handle(later, ConfirmEmailChange(token, at));
            && (o.Done? <==> at < start + 7200 && !Used(later.changes, token) &&
                             (FindEmail(later.users, email, 0).Some? ==> FindEmail(later.users, email, 0).value == u))
            && u < |later.users|
            && (o.Done? ==> after.users == later.users[u := later.users[u].(email := email)])
            && (o.Done? ==> FindEmail(after.users, email, 0) == Some(u))
            && (!o.Done? ==> after == later)
  {
    var first := Handle(db, RequestEmailChange(u, email, current, start)).0;
    HistoryContinues(first, qs);
    var later := History(first, qs);
    if FindEmail(later.users, email, 0).Some? ==> FindEmail(later.users, email, 0).value == u {
      FindAfterEmail(later.users, u, email, 0);
    }
  }

  // ----- rotation chains -----

  predicate Active(rows: seq<RefreshRow>, t: Token) { t < |rows| && rows[t].revokedAt.None? }

  predicate Succeeds(rows: seq<RefreshRow>, t: Token, p: Token) { t < |rows| && rows[t].rotatedFrom == Some(p) }

  /** Rotation points to older, revoked tokens of the same user, and never twice to the same one. */
  ghost predicate Chained(rows: seq<RefreshRow>) {
    && (forall t: Token, p: Token :: Succeeds(rows, t, p) ==> p < t && rows[p].user == rows[t].user && !Active(rows, p))
    && (forall t: Token, u: Token, p: Token :: Succeeds(rows, t, p) && Succeeds(rows, u, p) ==> t == u)
  }

  /** Rows are only added, and a row keeps everything but its first revocation. */
  ghost predicate Grows(rows: seq<RefreshRow>, later: seq<RefreshRow>) {
    && |rows| <= |later|
    && forall t :: 0 <= t < |rows| ==>
         && later[t].user == rows[t].user && later[t].rotatedFrom == rows[t].rotatedFrom
         && later[t].expiresAt == rows[t].expiresAt
         && (rows[t].revokedAt.Some? ==> later[t].revokedAt == rows[t].revokedAt)
  }

  lemma RotateChained(db: Db, raw: Token, now: int)
    requires Chained(db.refresh) && Active(db.refresh, raw)
    ensures Chained(Rotate(db, raw, now).refresh) && Grows(db.refresh, Rotate(db, raw, now).refresh)
  {
    var rows, later := db.refresh, Rotate(db, raw, now).refresh;
    forall t: Token, p: Token | Succeeds(later, t, p)
      ensures p < t && later[p].user == later[t].user && !Active(later, p)
      ensures t < |rows| ==> Succeeds(rows, t, p)
    {
      if t < |rows| {
        assert Succeeds(rows, t, p);
      }
    }
  }

  /** Without a rotation the links are those there were. */
  lemma LinksKept(rows: seq<RefreshRow>, later: seq<RefreshRow>)
    requires Chained(rows) && Grows(rows, later)
    requires forall t :: |rows| <= t < |later| ==> later[t].rotatedFrom.None?
    ensures Chained(later)
  {
    forall t: Token, p: Token | Succeeds(later, t, p)
      ensures Succeeds(rows, t, p) && p < t && later[p].user == later[t].user && !Active(later, p)
    {
      assert Succeeds(rows, t, p);
    }
  }

  /** Every service call, committed or not, keeps the chains and only adds to the history of tokens. */
  lemma ServeChained(db: Db, q: Request)
    requires Chained(db.refresh)
    ensures Chained(Serve(db, q).0.refresh) && Grows(db.refresh, Serve(db, q).0.refresh)
  {
    var rows, later := db.refresh, Serve(db, q).0.refresh;
    if q.Refresh? && Serve(db, q).1.Issued? {
      RotateChained(db, q.raw, q.now);
    } else {
      LinksKept(rows, later);
    }
  }

  lemma GrowsTransitive(a: seq<RefreshRow>, b: seq<RefreshRow>, c: seq<RefreshRow>)
    requires Grows(a, b) && Grows(b, c)
    ensures Grows(a, c)
  {}

  /** In every history each token has at most one successor, a token with a successor is revoked,
      and a revoked token never becomes active again. */
  lemma {:induction false} HistoryChained(db: Db, qs: seq<Request>)
    requires Chained(db.refresh)
    ensures Chained(History(db, qs).refresh) && Grows(db.refresh, History(db, qs).refresh)
  {
    if qs != [] {
      HistoryChained(db, qs[..|qs| - 1]);
      ServeChained(History(db, qs[..|qs| - 1]), qs[|qs| - 1]);
      GrowsTransitive(db.refresh, History(db, qs[..|qs| - 1]).refresh, History(db, qs).refresh);
    }
  }

  /** The login a token descends from. */
  function Root(rows: seq<RefreshRow>, t: Token): Token
    requires t < |rows|
  {
    match rows[t].rotatedFrom
    case Some(p) => if p < t then Root(rows, p) else t
    case None => t
  }

  predicate Ancestor(rows: seq<RefreshRow>, a: Token, t: Token)
    requires t < |rows|
  {
    a == t ||
    match rows[t].rotatedFrom
    case Some(p) => p < t && Ancestor(rows, a, p)
    case None => false
  }

  lemma {:induction false} AncestorTransitive(rows: seq<RefreshRow>, a: Token, b: Token, c: Token)
    requires b < |rows| && c < |rows| && Ancestor(rows, a, b) && Ancestor(rows, b, c)
    ensures Ancestor(rows, a, c)
  {
    if b != c {
      AncestorTransitive(rows, a, b, rows[c].rotatedFrom.value);
    }
  }

  lemma {:induction false} RootIsAncestor(rows: seq<RefreshRow>, t: Token)
    requires Chained(rows) && t < |rows|
    ensures Root(rows, t) <= t && Ancestor(rows, Root(rows, t), t) && rows[Root(rows, t)].user == rows[t].user
    ensures rows[Root(rows, t)].rotatedFrom.None?
  {
    if rows[t].rotatedFrom.Some? {
      assert Succeeds(rows, t, rows[t].rotatedFrom.value);
      RootIsAncestor(rows, rows[t].rotatedFrom.value);
    }
  }

  /** A proper ancestor has a successor on the way down. */
  lemma {:induction false} NextDown(rows: seq<RefreshRow>, a: Token, t: Token) returns (s: Token)
    requires Chained(rows) && t < |rows| && a != t && Ancestor(rows, a, t)
    ensures Succeeds(rows, s, a) && Ancestor(rows, s, t)
  {
    var p := rows[t].rotatedFrom.value;
    if p == a {
      s := t;
    } else {
      s := NextDown(rows, a, p);
    }
  }

  /** Chains do not branch: of two tokens of one login, one descends from the other. */
  lemma {:induction false} ChainLinear(rows: seq<RefreshRow>, t: Token, u: Token)
    requires Chained(rows) && t < |rows| && u < |rows| && Root(rows, t) == Root(rows, u)
    ensures Ancestor(rows, t, u) || Ancestor(rows, u, t)
    decreases t + u
  {
    RootIsAncestor(rows, t);
    RootIsAncestor(rows, u);
    if rows[t].rotatedFrom.Some? && rows[u].rotatedFrom.Some? {
      var p, r := rows[t].rotatedFrom.value, rows[u].rotatedFrom.value;
      assert Succeeds(rows, t, p) && Succeeds(rows, u, r);
      ChainLinear(rows, p, r);
      if p == r {
      } else if Ancestor(rows, p, r) {
        var s := NextDown(rows, p, r);
        assert s == t;
      } else {
        var s := NextDown(rows, r, p);
        assert s == u;
      }
    }
  }

  /** One login, one live token: two active tokens of the same chain are the same token. */
  lemma OneActivePerLogin(rows: seq<RefreshRow>, t: Token, u: Token)
    requires Chained(rows) && Active(rows, t) && Active(rows, u)
    ensures Root(rows, t) == Root(rows, u) ==> t == u
  {
    if Root(rows, t) == Root(rows, u) && t != u {
      ChainLinear(rows, t, u);
      var older, newer := t, u;
      if !Ancestor(rows, t, u) {
        older, newer := u, t;
      }
      var s := NextDown(rows, older, newer);
    }
  }

  lemma {:induction false} RootStays(rows: seq<RefreshRow>, later: seq<RefreshRow>, t: Token)
    requires Grows(rows, later) && t < |rows|
    ensures Root(later, t) == Root(rows, t)
  {
    if rows[t].rotatedFrom.Some? && rows[t].rotatedFrom.value < t {
      RootStays(rows, later, rows[t].rotatedFrom.value);
    }
  }

  /** No other token of the same login is live. */
  ghost predicate OnlyLive(rows: seq<RefreshRow>, token: Token) {
    Active(rows, token) &&
    forall t: Token :: t < |rows| && t != token && Root(rows, t) == Root(rows, token) ==> !Active(rows, t)
  }

  /** A refresh continues the login of the token it presents: its new token is live, for the same user
      and from the same login, and no other token of that login is live any more. */
  lemma RefreshContinuesLogin(db: Db, raw: Token, now: int)
    requires Chained(db.refresh) && Handle(db, Refresh(raw, now)).1.Issued?
    ensures var rows, next := Handle(db, Refresh(raw, now)).0.refresh, Handle(db, Refresh(raw, now)).1.token;
            && raw < |db.refresh| && Active(db.refresh, raw) && Succeeds(rows, next, raw) && OnlyLive(rows, next)
            && rows[next].user == db.refresh[raw].user && Root(rows, next) == Root(db.refresh, raw)
  {
    var rows, next := Handle(db, Refresh(raw, now)).0.refresh, Handle(db, Refresh(raw, now)).1.token;
    RotateChained(db, raw, now);
    RootStays(db.refresh, rows, raw);
    forall t: Token | t < |rows| && t != next && Root(rows, t) == Root(rows, next) ensures !Active(rows, t) {
      if Active(rows, t) {
        OneActivePerLogin(rows, t, next);
      }
    }
  }

  /** What the session is left with: by a rotation the one live token of the login, by a reuse no
      session of the user. */
  lemma RefreshMeaning(db: Db, raw: Token, now: int)
    ensures var (after, o) := Serve(db, Refresh(raw, now));
            && (Chained(db.refresh) ==> Chained(after.refresh))
            && (o.Issued? ==> Active(db.refresh, raw) && Succeeds(after.refresh, o.token, raw))
            && (o.Issued? && Chained(db.refresh) ==> OnlyLive(after.refresh, o.token))
            && (o == Rejected(Reused) ==>
                  raw < |after.refresh| && Sessions(after.refresh, after.refresh[raw].user) == 0)
  {
    var (after, o) := Serve(db, Refresh(raw, now));
    if Chained(db.refresh) {
      ServeChained(db, Refresh(raw, now));
      if o.Issued? {
        RefreshContinuesLogin(db, raw, now);
      }
    }
    if o == Rejected(Reused) {
      SessionsRevokeAll(db.refresh, db.refresh[raw].user, now, db.refresh[raw].user);
    }
  }

  // ----- counting sessions -----

  /** How many live sessions a user has. */
  function Sessions(rows: seq<RefreshRow>, user: UserId): nat {
    if rows == [] then 0
    else
      Sessions(rows[..|rows| - 1], user) +
      (if rows[|rows| - 1].user == user && rows[|rows| - 1].revokedAt.None? then 1 else 0)
  }

  lemma SessionsAppend(rows: seq<RefreshRow>, row: RefreshRow, user: UserId)
    ensures Sessions(rows + [row], user) ==
            Sessions(rows, user) + (if row.user == user && row.revokedAt.None? then 1 else 0)
  {
    assert (rows + [row])[..|rows|] == rows;
  }

  lemma {:induction false} SessionsRevoke(rows: seq<RefreshRow>, t: Token, now: int, user: UserId)
    requires Active(rows, t)
    ensures Sessions(rows[t := rows[t].(revokedAt := Some(now))], user) ==
            Sessions(rows, user) - (if rows[t].user == user then 1 else 0)
  {
    var front, after := rows[..|rows| - 1], rows[t := rows[t].(revokedAt := Some(now))];
    if t == |rows| - 1 {
      assert after[..|rows| - 1] == front;
    } else {
      assert after[..|rows| - 1] == front[t := rows[t].(revokedAt := Some(now))];
      SessionsRevoke(front, t, now, user);
    }
  }

  lemma {:induction false} SessionsRevokeAll(rows: seq<RefreshRow>, ended: UserId, now: int, user: UserId)
    ensures Sessions(RevokeAll(rows, ended, now), user) == if user == ended then 0 else Sessions(rows, user)
  {
    if rows != [] {
      assert RevokeAll(rows, ended, now)[..|rows| - 1] == RevokeAll(rows[..|rows| - 1], ended, now);
      SessionsRevokeAll(rows[..|rows| - 1], ended, now, user);
    }
  }

  /** The session that a request opens for a user. */
  predicate Opens(db: Db, q: Request, user: UserId) {
    q.Login? && Handle(db, q).1.Issued? && FindEmail(db.users, q.email, 0) == Some(user)
  }

  /** The session of a user that a logout closes. */
  predicate Closes(db: Db, q: Request, user: UserId) {
    q.Logout? && q.cookie.Some? && Active(db.refresh, q.cookie.value) && db.refresh[q.cookie.value].user == user
  }

  predicate EndsAll(db: Db, q: Request, user: UserId) {
    EndsSessionsOf(db, q) == Some(user) && !Handle(db, q).1.Rejected?
  }

  /** How many sessions a user has after a request: a login adds one to its user, a logout with a live
      cookie takes one away, a credential change leaves none, and nothing else, a refresh included,
      changes any count. */
  function SessionsAfter(db: Db, q: Request, user: UserId): int {
    if EndsAll(db, q, user) then 0
    else if Opens(db, q, user) then Sessions(db.refresh, user) + 1
    else Sessions(db.refresh, user) - (if Closes(db, q, user) then 1 else 0)
  }

  /** Session accounting. */
  lemma SessionAccounting(db: Db, q: Request, user: UserId)
    ensures Sessions(Handle(db, q).0.refresh, user) == SessionsAfter(db, q, user)
  {
    match q {
      case Login(_, _, _) => LoginSessions(db, q, user);
      case Refresh(_, _) => RefreshSessions(db, q, user);
      case Logout(_, _) => LogoutSessions(db, q, user);
      case FinishReset(_, _, _) => EndedSessions(db, q, user);
      case ChangePassword(_, _, _, _) => EndedSessions(db, q, user);
      case ConfirmEmailChange(_, _) => EndedSessions(db, q, user);
      case StartReset(_, _) =>
      case RequestEmailChange(_, _, _, _) =>
    }
  }

  lemma LoginSessions(db: Db, q: Request, user: UserId)
    requires q.Login?
    ensures Sessions(Handle(db, q).0.refresh, user) ==
              Sessions(db.refresh, user) + (if Opens(db, q, user) then 1 else 0)
  {
    if Handle(db, q).1.Issued? {
      var owner := FindEmail(db.users, q.email, 0).value;
      SessionsAppend(db.refresh, RefreshRow(owner, q.now + REFRESH_TTL, None, None), user);
    }
  }

  lemma RefreshSessions(db: Db, q: Request, user: UserId)
    requires q.Refresh?
    ensures Sessions(Handle(db, q).0.refresh, user) == Sessions(db.refresh, user)
  {
    if Handle(db, q).1.Issued? {
      var row := db.refresh[q.raw];
      SessionsRevoke(db.refresh, q.raw, q.now, user);
      SessionsAppend(db.refresh[q.raw := row.(revokedAt := Some(q.now))],
                     RefreshRow(row.user, q.now + REFRESH_TTL, None, Some(q.raw)), user);
    }
  }

  lemma LogoutSessions(db: Db, q: Request, user: UserId)
    requires q.Logout?
    ensures Sessions(Handle(db, q).0.refresh, user) ==
              Sessions(db.refresh, user) - (if Closes(db, q, user) then 1 else 0)
  {
    if q.cookie.Some? && Active(db.refresh, q.cookie.value) {
      SessionsRevoke(db.refresh, q.cookie.value, q.now, user);
    }
  }

  lemma EndedSessions(db: Db, q: Request, user: UserId)
    requires q.FinishReset? || q.ChangePassword? || q.ConfirmEmailChange?
    ensures Sessions(Handle(db, q).0.refresh, user) == if EndsAll(db, q, user) then 0 else Sessions(db.refresh, user)
  {
    if !Handle(db, q).1.Rejected? {
      SessionsRevokeAll(db.refresh, EndsSessionsOf(db, q).value, q.now, user);
    }
  }

  // ----- ending sessions -----

  /** The user whose sessions a successful request ends. */
  function EndsSessionsOf(db: Db, q: Request): Option<UserId> {
    match q
    case FinishReset(token, _, _) => if token < |db.resets| then Some(db.resets[token].user) else None
    case ChangePassword(user, _, _, _) => Some(user)
    case ConfirmEmailChange(token, _) => if token < |db.changes| then Some(db.changes[token].user) else None
    case _ => None
  }

  /** A credential change leaves its user without a live session and everyone else's as they were. */
  lemma CredentialChangeEndsSessions(db: Db, q: Request)
    requires EndsSessionsOf(db, q).Some? && !Handle(db, q).1.Rejected?
    ensures var user, later := EndsSessionsOf(db, q).value, Handle(db, q).0;
            && |later.refresh| == |db.refresh|
            && (forall t :: 0 <= t < |later.refresh| && later.refresh[t].user == user ==> !Active(later.refresh, t))
            && (forall t :: 0 <= t < |later.refresh| && later.refresh[t].user != user ==>
                 later.refresh[t] == db.refresh[t])
  {}

  lemma {:induction false} FindAfterPassword(users: seq<User>, u: UserId, password: string, email: string, from: nat)
    requires u < |users| && from <= |users|
    ensures FindEmail(users[u := users[u].(password := password)], email, from) == FindEmail(users, email, from)
    decreases |users| - from
  {
    if from < |users| {
      FindAfterPassword(users, u, password, email, from + 1);
    }
  }

  /** The password that an accepted reset or change sets. */
  function NewPassword(db: Db, q: Request): Option<string> {
    match q
    case FinishReset(_, newPassword, _) => Some(newPassword)
    case ChangePassword(_, _, newPassword, _) => Some(newPassword)
    case _ => None
  }

  /** From then on exactly the new password logs its user in. */
  lemma PasswordTakesEffect(db: Db, q: Request, u: UserId, password: string, at: int)
    requires NewPassword(db, q).Some? && EndsAll(db, q, u) && u < |db.users|
    requires FindEmail(db.users, db.users[u].email, 0) == Some(u)
    ensures var later := Handle(db, q).0;
            Handle(later, Login(db.users[u].email, password, at)).1 ==
              if password != NewPassword(db, q).value then Rejected(BadCredentials)
              else if db.users[u].suspended then Rejected(Suspended)
              else Issued(|db.refresh|)
  {
    FindAfterPassword(db.users, u, NewPassword(db, q).value, db.users[u].email, 0);
  }

  /** Used one-time tokens stay used, so each takes effect at most once. */
  lemma UsedOnce(db: Db, qs: seq<Request>, token: Token, newPassword: string, now: int)
    requires Handle(db, FinishReset(token, newPassword, now)).1.Done?
    ensures var later := History(Handle(db, FinishReset(token, newPassword, now)).0, qs);
            forall again, at :: Handle(later, FinishReset(token, again, at)) == (later, Rejected(BadToken))
  {
    UsedStays(Handle(db, FinishReset(token, newPassword, now)).0, qs, token);
  }

  /** Nor does an email-change token, even if the address is free again. */
  lemma ConfirmedOnce(db: Db, qs: seq<Request>, token: Token, now: int)
    requires Handle(db, ConfirmEmailChange(token, now)).1.Done?
    ensures var later := History(Handle(db, ConfirmEmailChange(token, now)).0, qs);
            forall at :: Handle(later, ConfirmEmailChange(token, at)) == (later, Rejected(BadToken))
  {
    UsedStays(Handle(db, ConfirmEmailChange(token, now)).0, qs, token);
  }

  predicate Used(rows: seq<OneTime>, token: Token) { token < |rows| && rows[token].usedAt.Some? }

  lemma ServeKeepsUsed(db: Db, q: Request, token: Token)
    ensures Used(db.resets, token) ==> Used(Handle(db, q).0.resets, token)
    ensures Used(db.changes, token) ==> Used(Handle(db, q).0.changes, token)
  {
    match q {
      case ConfirmEmailChange(_, _) =>
      case FinishReset(_, _, _) =>
      case _ =>
    }
  }

  lemma {:induction false} UsedStays(db: Db, qs: seq<Request>, token: Token)
    ensures Used(db.resets, token) ==> Used(History(db, qs).resets, token)
    ensures Used(db.changes, token) ==> Used(History(db, qs).changes, token)
  {
    if qs != [] {
      UsedStays(db, qs[..|qs| - 1], token);
      ServeKeepsUsed(History(db, qs[..|qs| - 1]), qs[|qs| - 1], token);
    }
  }

  // ----- how a token ends -----

  /** A request that ends a live token other than by rotating it: a logout with it, or an accepted
      credential change of its user. */
  predicate Ends(db: Db, q: Request, t: Token)
    requires t < |db.refresh|
  { (q.Logout? && q.cookie == Some(t)) || EndsAll(db, q, db.refresh[t].user) }

  /** A live token ends in exactly these ways, or by a refresh that presents it and succeeds. */
  lemma EndsExactly(db: Db, q: Request, t: Token)
    requires Active(db.refresh, t)
    ensures |db.refresh| <= |Handle(db, q).0.refresh|
    ensures !Active(Handle(db, q).0.refresh, t) <==>
            Ends(db, q, t) || (q.Refresh? && q.raw == t && Handle(db, q).1.Issued?)
  {}

  /** New tokens are live. */
  lemma BornActive(db: Db, q: Request, t: Token)
    requires |db.refresh| <= t < |Handle(db, q).0.refresh|
    ensures Active(Handle(db, q).0.refresh, t)
  {}

  // ----- reuse -----

  /** On the session, presenting a revoked token ends every session of its user. The request then
      fails, its session is rolled back, and the database keeps them: the effect is never stored. */
  lemma ReuseIsRolledBack(db: Db, raw: Token, now: int)
    requires raw < |db.refresh| && !Active(db.refresh, raw)
    ensures Serve(db, Refresh(raw, now)).1 == Rejected(Reused)
    ensures forall t :: 0 <= t < |db.refresh| && db.refresh[t].user == db.refresh[raw].user ==>
              !Active(Serve(db, Refresh(raw, now)).0.refresh, t)
    ensures Handle(db, Refresh(raw, now)) == (db, Rejected(Reused))
  {}
}
