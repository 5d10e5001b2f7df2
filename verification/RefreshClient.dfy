/** The browser's single-flight refresh, composed with the server over one cookie jar.

    Requests and responses travel separately: between any two steps the server may serve other
    requests, other callers may run into a 401, and responses may be delivered in any order. */
module RefreshClient {
  import opened Wrappers
  import opened AuthTokens

  const REUSE_WINDOW_MS: nat := 3000

  // ----- the tab's own variables -----

  /** What a caller of `refreshAccessToken` is told to do. */
  datatype Verdict = UseCurrent | StartRefresh | ShareRefresh

  datatype Tab = Tab(access: bool, inFlight: bool, lastRefreshAt: int)

  function Asking(tab: Tab, now: int): (Tab, Verdict) {
    if tab.access && now - tab.lastRefreshAt < REUSE_WINDOW_MS then (tab, UseCurrent)
    else if tab.inFlight then (tab, ShareRefresh)
    else (tab.(inFlight := true), StartRefresh)
  }

  function Refreshed(tab: Tab, now: int): Tab { Tab(true, false, now) }

  // ----- the composed system -----

  /** The refresh in flight: the request with the cookie it was sent with, the answer on its way back,
      and after a refusal the logout that drops the cookie. */
  datatype Flight =
    | Idle
    | Asked(raw: Option<Token>)
    | Answered(raw: Option<Token>, outcome: Outcome)
    | LogoutAsked(raw: Option<Token>)
    | LogoutAnswered

  /** `logins` are tokens on their way to the jar, `logouts` cookies of logout requests on their way
      to the server, `cleared` logout responses on their way back. */
  datatype Net = Net(db: Db, now: int, cookie: Option<Token>, tab: Tab, flight: Flight,
                     logins: seq<Token>, logouts: seq<Option<Token>>, cleared: nat)

  datatype Act =
    | Tick(ms: nat)
    | Caller401
    | ServeRefresh
    | DeliverRefresh
    | LoseRefresh
    | ServeCleanup
    | DeliverCleanup
    | LoseCleanup
    | ServeLogin(email: string, password: string)
    | DeliverLogin(i: nat)
    | AskLogout
    | ServeLogout(i: nat)
    | DeliverLogout
    | Elsewhere(request: Request)

  function Without<T>(xs: seq<T>, i: nat): seq<T>
    requires i < |xs|
  { xs[..i] + xs[i + 1..] }

  /** The server's clock in seconds. */
  function Seconds(n: Net): int { n.now / 1000 }

  function Step(n: Net, a: Act): Net {
    match a
    case Tick(ms) => n.(now := n.now + ms)
    case Caller401 =>
      var (tab, verdict) := Asking(n.tab, n.now);
      if verdict.StartRefresh? && n.flight.Idle? then n.(tab := tab, flight := Asked(n.cookie)) else n.(tab := tab)
    case ServeRefresh =>
      if !n.flight.Asked? then n
      else if n.flight.raw.None? then n.(flight := Answered(None, Rejected(UnknownToken)))
      else
        var (db, outcome) := Handle(n.db, Refresh(n.flight.raw.value, Seconds(n)));
        n.(db := db, flight := Answered(n.flight.raw, outcome))
    case DeliverRefresh =>
      if !n.flight.Answered? then n
      else if n.flight.outcome.Issued? then
        n.(cookie := Some(n.flight.outcome.token), tab := Refreshed(n.tab, n.now), flight := Idle)
      else n.(tab := n.tab.(access := false), flight := LogoutAsked(n.cookie))
    case LoseRefresh =>
      if !n.flight.Asked? && !n.flight.Answered? then n
      else n.(tab := n.tab.(inFlight := false), flight := Idle)
    case ServeCleanup =>
      if !n.flight.LogoutAsked? then n
      else n.(db := Handle(n.db, Logout(n.flight.raw, Seconds(n))).0, flight := LogoutAnswered)
    case DeliverCleanup =>
      if !n.flight.LogoutAnswered? then n
      else n.(cookie := None, tab := n.tab.(inFlight := false), flight := Idle)
    case LoseCleanup =>
      if !n.flight.LogoutAsked? && !n.flight.LogoutAnswered? then n
      else n.(tab := n.tab.(inFlight := false), flight := Idle)
    case ServeLogin(email, password) =>
      var (db, outcome) := Handle(n.db, Login(email, password, Seconds(n)));
      n.(db := db, logins := if outcome.Issued? then n.logins + [outcome.token] else n.logins)
    case DeliverLogin(i) =>
      if i >= |n.logins| then n
      else n.(cookie := Some(n.logins[i]), tab := n.tab.(access := true), logins := Without(n.logins, i))
    case AskLogout => n.(logouts := n.logouts + [n.cookie])
    case ServeLogout(i) =>
      if i >= |n.logouts| then n
      else n.(db := Handle(n.db, Logout(n.logouts[i], Seconds(n))).0, logouts := Without(n.logouts, i),
             cleared := n.cleared + 1)
    case DeliverLogout =>
      if n.cleared == 0 then n
      else n.(cookie := None, tab := n.tab.(access := false), cleared := n.cleared - 1)
    case Elsewhere(request) => n.(db := Handle(n.db, request).0)
  }

  function Steps(n: Net, acts: seq<Act>): Net {
    if acts == [] then n else Step(Steps(n, acts[..|acts| - 1]), acts[|acts| - 1])
  }

  /** Tokens this tab has or is about to have. */
  predicate Held(n: Net, t: Token) {
    || n.cookie == Some(t)
    || t in n.logins
    || (n.flight.Asked? && n.flight.raw == Some(t))
    || (n.flight.Answered? && (n.flight.raw == Some(t) || n.flight.outcome == Issued(t)))
  }

  /** One tab that gets its answers: nobody else refreshes with a token of this jar, and no answer that
      brings a new token is lost. */
  predicate OneTab(n: Net, a: Act) {
    && (a.Elsewhere? && a.request.Refresh? ==> !Held(n, a.request.raw))
    && (a.LoseRefresh? && n.flight.Answered? ==> !n.flight.outcome.Issued?)
  }

  ghost predicate OneTabRun(n: Net, acts: seq<Act>) {
    acts == [] || (OneTabRun(n, acts[..|acts| - 1]) && OneTab(Steps(n, acts[..|acts| - 1]), acts[|acts| - 1]))
  }

  // ----- never presenting a rotated token -----

  ghost predicate Rotated(rows: seq<RefreshRow>, t: Token) { exists s: Token :: Succeeds(rows, s, t) }

  /** A token that may still be presented. */
  ghost predicate Presentable(db: Db, t: Token) { t < |db.refresh| && !Rotated(db.refresh, t) }

  /** The cookie is presentable, or is about to be replaced by its successor; tokens on their way to
      the jar are presentable and all different, from each other and from those in use. */
  ghost predicate Inv(n: Net) {
    && Chained(n.db.refresh)
    && (n.tab.inFlight <==> !n.flight.Idle?)
    && (forall i :: 0 <= i < |n.logins| ==> Presentable(n.db, n.logins[i]))
    && (forall i, j :: 0 <= i < j < |n.logins| ==> n.logins[i] != n.logins[j])
    && (n.cookie.Some? ==> n.cookie.value !in n.logins && n.cookie.value < |n.db.refresh|)
    && (n.cookie.Some? && !Presentable(n.db, n.cookie.value) ==>
          n.flight.Answered? && n.flight.outcome.Issued? && n.flight.raw == n.cookie)
    && (n.flight.Asked? && n.flight.raw.Some? ==>
         Presentable(n.db, n.flight.raw.value) && n.flight.raw.value !in n.logins)
    && (n.flight.Answered? && n.flight.raw.Some? ==>
         n.flight.raw.value !in n.logins && n.flight.raw.value < |n.db.refresh|)
    && (n.flight.Answered? && n.flight.outcome.Issued? ==>
          Presentable(n.db, n.flight.outcome.token) && n.flight.outcome.token !in n.logins &&
          n.cookie != Some(n.flight.outcome.token) &&
          n.flight.raw.Some? && Succeeds(n.db.refresh, n.flight.outcome.token, n.flight.raw.value))
  }

  /** A request rotates at most the token it presents. */
  lemma HandleKeepsPresentable(db: Db, q: Request, t: Token)
    requires Chained(db.refresh) && Presentable(db, t)
    requires q.Refresh? ==> q.raw != t
    ensures Presentable(Handle(db, q).0, t)
  {
    ServeChained(db, q);
    var later := Handle(db, q).0.refresh;
    forall s: Token ensures !Succeeds(later, s, t) {
      assert !Succeeds(db.refresh, s, t);
    }
  }

  lemma HandleChained(db: Db, q: Request)
    requires Chained(db.refresh)
    ensures Chained(Handle(db, q).0.refresh) && |db.refresh| <= |Handle(db, q).0.refresh|
  {
    ServeChained(db, q);
  }

  lemma IssuedIsFresh(db: Db, q: Request)
    requires Chained(db.refresh) && Handle(db, q).1.Issued?
    ensures Handle(db, q).1.token == |db.refresh| && Presentable(Handle(db, q).0, |db.refresh|)
  {
    HandleChained(db, q);
    var later := Handle(db, q).0.refresh;
    forall s: Token ensures !Succeeds(later, s, |db.refresh|) {}
  }

  /** Any request that refreshes none of the tab's tokens keeps the invariant. */
  lemma ForeignRequest(n: Net, q: Request)
    requires Inv(n) && (q.Refresh? ==> !Held(n, q.raw))
    ensures Inv(n.(db := Handle(n.db, q).0))
  {
    HandleChained(n.db, q);
    forall t: Token | Held(n, t) && Presentable(n.db, t) ensures Presentable(Handle(n.db, q).0, t) {
      HandleKeepsPresentable(n.db, q, t);
    }
    forall i | 0 <= i < |n.logins| ensures Presentable(Handle(n.db, q).0, n.logins[i]) {
      assert Held(n, n.logins[i]);
    }
    if n.cookie.Some? && Presentable(n.db, n.cookie.value) {
      assert Held(n, n.cookie.value);
    }
  }

  lemma OwnRefresh(n: Net)
    requires Inv(n) && n.flight.Asked?
    ensures Inv(Step(n, ServeRefresh))
  {
    if n.flight.raw.Some? {
      var raw, q := n.flight.raw.value, Refresh(n.flight.raw.value, Seconds(n));
      var (db, outcome) := Handle(n.db, q);
      HandleChained(n.db, q);
      if outcome.Issued? {
        IssuedIsFresh(n.db, q);
        forall t: Token | t != raw && Presentable(n.db, t) ensures Presentable(db, t) {
          HandleKeepsPresentable(n.db, q, t);
        }
      } else {
        assert db == n.db;
      }
    }
  }

  lemma LoginArrives(n: Net, email: string, password: string)
    requires Inv(n)
    ensures Inv(Step(n, ServeLogin(email, password)))
  {
    var q := Login(email, password, Seconds(n));
    ForeignRequest(n, q);
    if Handle(n.db, q).1.Issued? {
      IssuedIsFresh(n.db, q);
    }
  }

  lemma LoginDelivered(n: Net, i: nat)
    requires Inv(n)
    ensures Inv(Step(n, DeliverLogin(i)))
  {
    if i < |n.logins| {
      var rest := Without(n.logins, i);
      forall t | t in rest ensures t in n.logins && t != n.logins[i] {
        var k :| 0 <= k < |rest| && rest[k] == t;
        assert t == if k < i then n.logins[k] else n.logins[k + 1];
      }
      forall k | 0 <= k < |rest| ensures Presentable(n.db, rest[k]) {
        assert rest[k] == if k < i then n.logins[k] else n.logins[k + 1];
      }
    }
  }

  lemma StepInv(n: Net, a: Act)
    requires Inv(n) && OneTab(n, a)
    ensures Inv(Step(n, a))
  {
    match a {
      case ServeRefresh =>
        if n.flight.Asked? {
          OwnRefresh(n);
        }
      case ServeCleanup =>
        if n.flight.LogoutAsked? {
          ForeignRequest(n, Logout(n.flight.raw, Seconds(n)));
        }
      case ServeLogin(email, password) => LoginArrives(n, email, password);
      case DeliverLogin(i) => LoginDelivered(n, i);
      case ServeLogout(i) =>
        if i < |n.logouts| {
          ForeignRequest(n, Logout(n.logouts[i], Seconds(n)));
        }
      case Elsewhere(request) => ForeignRequest(n, request);
      case _ =>
    }
  }

  /** A tab just opened or reloaded: the jar may hold a cookie, nothing is in flight. */
  function Opened(db: Db, now: int, cookie: Option<Token>): Net {
    Net(db, now, cookie, Tab(false, false, 0), Idle, [], [], 0)
  }

  lemma OpenedInv(db: Db, now: int, cookie: Option<Token>)
    requires Chained(db.refresh) && (cookie.Some? ==> Presentable(db, cookie.value))
    ensures Inv(Opened(db, now, cookie))
    ensures (cookie.Some? ==> Active(db.refresh, cookie.value)) ==> Live(Opened(db, now, cookie))
  {}

  lemma {:induction false} RunInv(n0: Net, acts: seq<Act>)
    requires Inv(n0) && OneTabRun(n0, acts)
    ensures Inv(Steps(n0, acts))
  {
    if acts != [] {
      RunInv(n0, acts[..|acts| - 1]);
      StepInv(Steps(n0, acts[..|acts| - 1]), acts[|acts| - 1]);
    }
  }

  /** With one tab and every rotating answer delivered, however many callers run into a 401 and whatever
      logins, logouts and credential changes overlap, a refresh never presents a rotated token. */
  lemma NeverPresentsRotated(n0: Net, acts: seq<Act>)
    requires Inv(n0) && OneTabRun(n0, acts)
    ensures var n := Steps(n0, acts);
            n.flight.Asked? && n.flight.raw.Some? ==> Presentable(n.db, n.flight.raw.value)
  {
    RunInv(n0, acts);
  }

  // ----- the reuse branch, exactly -----

  /** The request that a step has the server handle. */
  function Served(n: Net, a: Act): Option<Request> {
    match a
    case ServeRefresh =>
      if n.flight.Asked? && n.flight.raw.Some? then Some(Refresh(n.flight.raw.value, Seconds(n))) else None
    case ServeCleanup => if n.flight.LogoutAsked? then Some(Logout(n.flight.raw, Seconds(n))) else None
    case ServeLogin(email, password) => Some(Login(email, password, Seconds(n)))
    case ServeLogout(i) => if i < |n.logouts| then Some(Logout(n.logouts[i], Seconds(n))) else None
    case Elsewhere(request) => Some(request)
    case _ => None
  }

  lemma StepServes(n: Net, a: Act)
    ensures Step(n, a).db == if Served(n, a).Some? then Handle(n.db, Served(n, a).value).0 else n.db
  {}

  /** A step that ends the live token `t`: a logout with it, or an accepted credential change of its user. */
  predicate EndsNow(n: Net, a: Act, t: Token) {
    Active(n.db.refresh, t) && Served(n, a).Some? && Ends(n.db, Served(n, a).value, t)
  }

  ghost predicate EndedIn(n: Net, acts: seq<Act>, t: Token) {
    acts != [] && (EndedIn(n, acts[..|acts| - 1], t) || EndsNow(Steps(n, acts[..|acts| - 1]), acts[|acts| - 1], t))
  }

  predicate Dead(db: Db, t: Token) { t < |db.refresh| && !Active(db.refresh, t) }

  lemma StepGrows(n: Net, a: Act)
    requires Chained(n.db.refresh)
    ensures Chained(Step(n, a).db.refresh) && Grows(n.db.refresh, Step(n, a).db.refresh)
  {
    StepServes(n, a);
    if Served(n, a).Some? {
      ServeChained(n.db, Served(n, a).value);
    }
  }

  lemma RotatedStays(rows: seq<RefreshRow>, later: seq<RefreshRow>, t: Token)
    requires Grows(rows, later) && Rotated(rows, t)
    ensures Rotated(later, t)
  {
    var s: Token :| Succeeds(rows, s, t);
    assert Succeeds(later, s, t);
  }

  /** One step, for a token that is not rotated after it. */
  lemma DeadStep(n: Net, a: Act, t: Token)
    requires Chained(n.db.refresh) && !Rotated(Step(n, a).db.refresh, t)
    ensures Dead(Step(n, a).db, t) <==> Dead(n.db, t) || EndsNow(n, a, t)
  {
    StepGrows(n, a);
    StepServes(n, a);
    if Served(n, a).Some? {
      var q := Served(n, a).value;
      if Active(n.db.refresh, t) {
        EndsExactly(n.db, q, t);
        if q.Refresh? && q.raw == t && Handle(n.db, q).1.Issued? {
          assert Succeeds(Handle(n.db, q).0.refresh, |n.db.refresh|, t);
        }
      } else if |n.db.refresh| <= t < |Step(n, a).db.refresh| {
        BornActive(n.db, q, t);
      }
    }
  }

  /** In any history, one tab or many: a token that was not rotated is dead exactly if it was at the
      start or a logout or an accepted credential change ended it on the way. */
  lemma {:induction false} DeadExactly(n0: Net, acts: seq<Act>, t: Token)
    requires Chained(n0.db.refresh) && !Rotated(Steps(n0, acts).db.refresh, t)
    ensures Chained(Steps(n0, acts).db.refresh)
    ensures Dead(Steps(n0, acts).db, t) <==> Dead(n0.db, t) || EndedIn(n0, acts, t)
  {
    if acts != [] {
      var front, last := acts[..|acts| - 1], acts[|acts| - 1];
      var n := Steps(n0, front);
      HistoryGrows(n0, front);
      StepGrows(n, last);
      if Rotated(n.db.refresh, t) {
        RotatedStays(n.db.refresh, Step(n, last).db.refresh, t);
      }
      DeadExactly(n0, front, t);
      DeadStep(n, last, t);
    }
  }

  lemma {:induction false} HistoryGrows(n0: Net, acts: seq<Act>)
    requires Chained(n0.db.refresh)
    ensures Chained(Steps(n0, acts).db.refresh)
  {
    if acts != [] {
      HistoryGrows(n0, acts[..|acts| - 1]);
      StepGrows(Steps(n0, acts[..|acts| - 1]), acts[|acts| - 1]);
    }
  }

  /** The reuse branch, exactly: the tab's refresh is answered that its token was reused if and only if
      that token was dead when the history began, or a logout or an accepted credential change of its
      user ended it since. Rotation is never the reason. */
  lemma ReuseExactly(n0: Net, acts: seq<Act>)
    requires Inv(n0) && OneTabRun(n0, acts)
    requires Steps(n0, acts).flight.Asked? && Steps(n0, acts).flight.raw.Some?
    ensures var n := Steps(n0, acts);
            var t := n.flight.raw.value;
            Step(n, ServeRefresh).flight.outcome == Rejected(Reused) <==> Dead(n0.db, t) || EndedIn(n0, acts, t)
  {
    RunInv(n0, acts);
    DeadExactly(n0, acts, Steps(n0, acts).flight.raw.value);
  }

  // ----- the client as it runs -----

  /** A caller at this moment would not rotate again. */
  predicate Settled(tab: Tab, now: int) { Asking(tab, now).1.UseCurrent? }

  /** The module-level variables of the client, reassigned as its promises settle. Each method takes
      exactly one step of the composed system. */
  class ApiClient {
    var accessToken: bool
    var refreshInFlight: bool
    var lastRefreshAt: int
    ghost var net: Net

    function State(): Tab
      reads this
    { Tab(accessToken, refreshInFlight, lastRefreshAt) }

    ghost predicate Valid()
      reads this
    { net.tab == State() && Inv(net) }

    constructor (db: Db, now: int, cookie: Option<Token>)
      requires Chained(db.refresh) && (cookie.Some? ==> Presentable(db, cookie.value))
      ensures Valid() && net == Opened(db, now, cookie)
    {
      accessToken, refreshInFlight, lastRefreshAt := false, false, 0;
      net := Opened(db, now, cookie);
      new;
      OpenedInv(db, now, cookie);
    }

    /** Only one refresh is ever under way, it starts with a token that was not rotated, and nobody is
        told to use an access token older than the reuse window. */
    method RefreshAccessToken(now: int) returns (v: Verdict)
      requires Valid() && net.now == now
      modifies this
      ensures Valid() && net == Step(old(net), Caller401)
      ensures v.StartRefresh? ==> old(net.flight).Idle? && net.flight == Asked(net.cookie) &&
                                  (net.cookie.Some? ==> Presentable(net.db, net.cookie.value))
      ensures v.ShareRefresh? ==> !old(net.flight).Idle? && net == old(net)
      ensures v.UseCurrent? <==> old(accessToken) && now - old(lastRefreshAt) < 3000
      ensures v.UseCurrent? ==> accessToken && net == old(net)
      ensures !net.flight.Idle? || v.UseCurrent?
    {
      StepInv(net, Caller401);
      net := Step(net, Caller401);
      if accessToken && now - lastRefreshAt < REUSE_WINDOW_MS {
        return UseCurrent;
      }
      if !refreshInFlight {
        refreshInFlight := true;
        return StartRefresh;
      }
      return ShareRefresh;
    }

    /** The answer brings a token: the jar holds it, it was not rotated, and no caller of the next three
        seconds rotates it. */
    method OnRefreshed(now: int)
      requires Valid() && net.now == now && net.flight.Answered? && net.flight.outcome.Issued?
      modifies this
      ensures Valid() && net == Step(old(net), DeliverRefresh)
      ensures net.cookie == Some(old(net.flight.outcome.token)) && Presentable(net.db, net.cookie.value)
      ensures net.flight.Idle? && forall later :: later < now + 3000 ==> Settled(State(), later)
    {
      StepInv(net, DeliverRefresh);
      net := Step(net, DeliverRefresh);
      accessToken := true;
      lastRefreshAt := now;
      refreshInFlight := false;
    }

    /** A refusal: no caller is told to use the old access token any more, and none starts another
        refresh until the stale cookie is dropped. */
    method OnRefused()
      requires Valid() && net.flight.Answered? && net.flight.outcome.Rejected?
      modifies this
      ensures Valid() && net == Step(old(net), DeliverRefresh)
      ensures net.flight == LogoutAsked(net.cookie) && forall now :: Asking(State(), now).1.ShareRefresh?
    {
      StepInv(net, DeliverRefresh);
      net := Step(net, DeliverRefresh);
      accessToken := false;
    }

    /** The refresh is over, its answer or the logout after a refusal delivered, refused or lost. */
    method OnCleanedUp(a: Act)
      requires Valid() && (a.DeliverCleanup? || a.LoseCleanup? || a.LoseRefresh?)
      requires if a.DeliverCleanup? then net.flight.LogoutAnswered?
               else if a.LoseCleanup? then net.flight.LogoutAsked? || net.flight.LogoutAnswered?
               else net.flight.Asked? || (net.flight.Answered? && !net.flight.outcome.Issued?)
      modifies this
      ensures Valid() && net == Step(old(net), a) && net.flight.Idle?
      ensures net.cookie == if a.DeliverCleanup? then None else old(net.cookie)
    {
      StepInv(net, a);
      net := Step(net, a);
      refreshInFlight := false;
    }
  }

  // ----- never reaching the reuse branch -----

  /** The tab's own logouts do not overlap its refreshes and are delivered, and no request from elsewhere
      is granted that logs it out or changes the credentials of the user of one of its tokens. */
  ghost predicate Peaceful(n: Net, a: Act) {
    match a
    case Caller401 => Asking(n.tab, n.now).1.StartRefresh? ==> n.logouts == [] && n.cleared == 0
    case AskLogout => n.flight.Idle?
    case LoseRefresh => n.flight.Answered? ==> !n.flight.outcome.Issued?
    case LoseCleanup => false
    case Elsewhere(request) => Foreign(n, request)
    case _ => true
  }

  /** A request that neither presents nor ends a token of this tab; a rejected one ends none. */
  ghost predicate Foreign(n: Net, q: Request) {
    && (q.Refresh? ==> !Held(n, q.raw))
    && forall t: Token :: Held(n, t) && t < |n.db.refresh| ==> !Ends(n.db, q, t)
  }

  ghost predicate PeacefulRun(n: Net, acts: seq<Act>) {
    acts == [] || (PeacefulRun(n, acts[..|acts| - 1]) && Peaceful(Steps(n, acts[..|acts| - 1]), acts[|acts| - 1]))
  }

  predicate LoggedOut(n: Net, cookie: Option<Token>) {
    cookie.Some? ==> cookie.value !in n.logins && cookie.value < |n.db.refresh|
  }

  /** Tokens that may still be presented are live, but for one that the tab has just logged out. While
      a logout is under way there is no refresh, and what it logs out is on its way nowhere. */
  ghost predicate Live(n: Net) {
    && (forall i :: 0 <= i < |n.logins| ==> Active(n.db.refresh, n.logins[i]))
    && (n.flight.Asked? && n.flight.raw.Some? ==> Active(n.db.refresh, n.flight.raw.value))
    && (n.flight.Answered? && n.flight.outcome.Issued? ==> Active(n.db.refresh, n.flight.outcome.token))
    && (n.cookie.Some? && !Active(n.db.refresh, n.cookie.value) ==>
          n.cleared > 0 || n.flight.LogoutAnswered? ||
          (n.flight.Answered? && n.flight.outcome.Issued? && n.flight.raw == n.cookie))
    && (n.logouts != [] || n.cleared > 0 ==> n.flight.Idle?)
    && (forall i :: 0 <= i < |n.logouts| ==> LoggedOut(n, n.logouts[i]))
    && (n.flight.LogoutAsked? && n.flight.raw.Some? ==>
         n.flight.raw.value !in n.logins && n.flight.raw.value < |n.db.refresh|)
  }

  lemma PeacefulServe(n: Net, q: Request)
    requires Inv(n) && Live(n) && Foreign(n, q)
    ensures Live(n.(db := Handle(n.db, q).0))
  {
    HandleChained(n.db, q);
    forall t: Token | Held(n, t) && Active(n.db.refresh, t) ensures Active(Handle(n.db, q).0.refresh, t) {
      EndsExactly(n.db, q, t);
    }
    forall i | 0 <= i < |n.logins| ensures Active(Handle(n.db, q).0.refresh, n.logins[i]) {
      assert Held(n, n.logins[i]);
    }
  }

  lemma LiveOwnRefresh(n: Net)
    requires Inv(n) && Live(n) && n.flight.Asked?
    ensures Live(Step(n, ServeRefresh))
  {
    if n.flight.raw.Some? {
      var q := Refresh(n.flight.raw.value, Seconds(n));
      forall t: Token | t != n.flight.raw.value && Active(n.db.refresh, t)
        ensures Active(Handle(n.db, q).0.refresh, t)
      {
        EndsExactly(n.db, q, t);
      }
    }
  }

  lemma LiveCleanup(n: Net)
    requires Inv(n) && Live(n) && n.flight.LogoutAsked?
    ensures Live(Step(n, ServeCleanup))
  {
    var q := Logout(n.flight.raw, Seconds(n));
    forall t: Token | Some(t) != n.flight.raw && Active(n.db.refresh, t) ensures Active(Handle(n.db, q).0.refresh, t) {
      EndsExactly(n.db, q, t);
    }
  }

  lemma StepLive(n: Net, a: Act)
    requires Inv(n) && Live(n) && Peaceful(n, a)
    ensures Live(Step(n, a))
  {
    match a {
      case ServeRefresh =>
        if n.flight.Asked? {
          LiveOwnRefresh(n);
        }
      case ServeCleanup =>
        if n.flight.LogoutAsked? {
          LiveCleanup(n);
        }
      case ServeLogin(email, password) => LiveLogin(n, email, password);
      case DeliverLogin(i) => LiveDelivered(n, i);
      case ServeLogout(i) => LiveLogout(n, i);
      case Elsewhere(request) => PeacefulServe(n, request);
      case _ =>
    }
  }

  lemma LiveLogout(n: Net, i: nat)
    requires Inv(n) && Live(n)
    ensures Live(Step(n, ServeLogout(i)))
  {
    if i < |n.logouts| {
      var q, rest := Logout(n.logouts[i], Seconds(n)), Without(n.logouts, i);
      HandleChained(n.db, q);
      assert LoggedOut(n, n.logouts[i]);
      forall t: Token | t in n.logins && Active(n.db.refresh, t) ensures Active(Handle(n.db, q).0.refresh, t) {
        EndsExactly(n.db, q, t);
      }
      forall k | 0 <= k < |rest| ensures LoggedOut(n, rest[k]) {
        assert rest[k] == if k < i then n.logouts[k] else n.logouts[k + 1];
      }
    }
  }

  lemma LiveLogin(n: Net, email: string, password: string)
    requires Inv(n) && Live(n)
    ensures Live(Step(n, ServeLogin(email, password)))
  {
    var q := Login(email, password, Seconds(n));
    PeacefulServe(n, q);
    if Handle(n.db, q).1.Issued? {
      IssuedIsFresh(n.db, q);
    }
  }

  lemma LiveDelivered(n: Net, i: nat)
    requires Inv(n) && Live(n)
    ensures Live(Step(n, DeliverLogin(i)))
  {
    if i < |n.logins| {
      var rest := Without(n.logins, i);
      forall k | 0 <= k < |rest| ensures rest[k] in n.logins && Active(n.db.refresh, rest[k]) {
        assert rest[k] == if k < i then n.logins[k] else n.logins[k + 1];
      }
    }
  }

  lemma {:induction false} RunLive(n0: Net, acts: seq<Act>)
    requires Inv(n0) && Live(n0) && PeacefulRun(n0, acts)
    ensures OneTabRun(n0, acts) && Live(Steps(n0, acts))
  {
    if acts != [] {
      RunLive(n0, acts[..|acts| - 1]);
      RunInv(n0, acts[..|acts| - 1]);
      StepLive(Steps(n0, acts[..|acts| - 1]), acts[|acts| - 1]);
    }
  }

  /** In a peaceful history of a tab that starts out live nothing ends the token it presents, so the
      server never answers its refresh with the reuse branch. */
  lemma ReuseUnreachable(n0: Net, acts: seq<Act>)
    requires Inv(n0) && Live(n0) && PeacefulRun(n0, acts)
    requires Steps(n0, acts).flight.Asked? && Steps(n0, acts).flight.raw.Some?
    ensures var n := Steps(n0, acts);
            var t := n.flight.raw.value;
            && !Dead(n0.db, t) && !EndedIn(n0, acts, t)
            && Step(n, ServeRefresh).flight.outcome != Rejected(Reused)
  {
    RunLive(n0, acts);
    RunInv(n0, acts);
    ReuseExactly(n0, acts);
  }

  // ----- why one tab, and why every response -----

  const DEMO := Db([User("a", "p", false)], [], [], [])

  /** A tab that has logged in. */
  lemma LoggedIn() returns (acts: seq<Act>)
    ensures OneTabRun(Opened(DEMO, 0, None), acts)
    ensures Steps(Opened(DEMO, 0, None), acts) ==
            Net(DEMO.(refresh := [RefreshRow(0, REFRESH_TTL, None, None)]), 0, Some(0), Tab(true, false, 0), Idle, [],
                [], 0)
  {
    var n0 := Opened(DEMO, 0, None);
    var n1 := Step(n0, ServeLogin("a", "p"));
    assert n1.db.refresh == [RefreshRow(0, REFRESH_TTL, None, None)] && n1.logins == [0];
    acts := Then(n0, [], ServeLogin("a", "p"));
    acts := Then(n0, acts, DeliverLogin(0));
  }

  /** Its access token goes stale and it asks for a refresh. */
  lemma LoggedInAsks() returns (acts: seq<Act>)
    ensures OneTabRun(Opened(DEMO, 0, None), acts)
    ensures var n := Steps(Opened(DEMO, 0, None), acts);
            && n.flight == Asked(Some(0)) && n.now == REUSE_WINDOW_MS && n.db.users == DEMO.users && n.cookie == Some(0)
            && n.tab == Tab(true, true, 0) && n.db.refresh == [RefreshRow(0, REFRESH_TTL, None, None)]
  {
    var n0 := Opened(DEMO, 0, None);
    acts := LoggedIn();
    acts := Then(n0, acts, Tick(REUSE_WINDOW_MS));
    acts := Then(n0, acts, Caller401);
  }

  /** Two tabs on one jar: the other refreshes with the same cookie while this one's request is on its
      way, and this one then presents a rotated token. */
  lemma TwoTabsReuse() returns (acts: seq<Act>)
    ensures var n := Steps(Opened(DEMO, 0, None), acts);
            && n.flight == Asked(Some(0)) && Rotated(n.db.refresh, 0)
            && Step(n, ServeRefresh).flight == Answered(Some(0), Rejected(Reused))
  {
    var n0 := Opened(DEMO, 0, None);
    var asks := LoggedInAsks();
    acts := Then(n0, asks, Elsewhere(Refresh(0, 1)));
    assert Succeeds(Steps(n0, acts).db.refresh, 1, 0);
  }

  /** A credential change between two refreshes: with one tab and every answer delivered, the next
      refresh presents a token that the change has ended, and reaches the reuse branch. */
  lemma CredentialChangeReuse() returns (acts: seq<Act>)
    ensures OneTabRun(Opened(DEMO, 0, None), acts)
    ensures var n := Steps(Opened(DEMO, 0, None), acts);
            && n.flight == Asked(Some(0)) && EndedIn(Opened(DEMO, 0, None), acts, 0)
            && Step(n, ServeRefresh).flight == Answered(Some(0), Rejected(Reused))
  {
    var n0 := Opened(DEMO, 0, None);
    var logged := LoggedIn();
    acts := Then(n0, logged, Elsewhere(ChangePassword(0, "p", "q", 1)));
    assert EndsNow(Steps(n0, logged), Elsewhere(ChangePassword(0, "p", "q", 1)), 0);
    EndedThen(n0, logged, acts, Elsewhere(ChangePassword(0, "p", "q", 1)), 0);
    var later := Then(n0, acts, Tick(REUSE_WINDOW_MS));
    EndedThen(n0, acts, later, Tick(REUSE_WINDOW_MS), 0);
    acts := Then(n0, later, Caller401);
    EndedThen(n0, later, acts, Caller401, 0);
  }

  lemma EndedThen(n0: Net, acts: seq<Act>, more: seq<Act>, a: Act, t: Token)
    requires more == acts + [a] && (EndedIn(n0, acts, t) || EndsNow(Steps(n0, acts), a, t))
    ensures EndedIn(n0, more, t)
  {
    assert more[..|more| - 1] == acts;
  }

  /** A rotating answer is lost: the jar keeps the spent token, and the next refresh, whenever it comes,
      presents it and is refused for reuse. */
  lemma LostResponseReuse(n: Net)
    requires Inv(n) && n.flight.Answered? && n.flight.outcome.Issued? && n.cookie == n.flight.raw
    requires Asking(n.tab.(inFlight := false), n.now).1.StartRefresh?
    ensures var again := Step(Step(n, LoseRefresh), Caller401);
            && again.flight == Asked(n.cookie) && Rotated(again.db.refresh, n.cookie.value)
            && Step(again, ServeRefresh).flight.outcome == Rejected(Reused)
  {
    assert Succeeds(n.db.refresh, n.flight.outcome.token, n.flight.raw.value);
  }

  /** Such a world is reachable by one tab. */
  lemma LostResponseReachable() returns (acts: seq<Act>)
    ensures var n0, k := Opened(DEMO, 0, None), |acts| - 2;
            && |acts| >= 2 && acts[k..] == [LoseRefresh, Caller401] && OneTabRun(n0, acts[..k])
            && Steps(n0, acts).flight == Asked(Some(0))
            && Step(Steps(n0, acts), ServeRefresh).flight.outcome == Rejected(Reused)
  {
    var n0 := Opened(DEMO, 0, None);
    OpenedInv(DEMO, 0, None);
    var asks := LoggedInAsks();
    var served := Then(n0, asks, ServeRefresh);
    var n := Steps(n0, served);
    RunInv(n0, served);
    assert n.flight == Answered(Some(0), Issued(1)) && n.cookie == Some(0);
    LostResponseReuse(n);
    var lost := Then(n0, served, LoseRefresh);
    acts := Then(n0, lost, Caller401);
    assert acts[..|acts| - 2] == served;
  }

  lemma StepsOne(n: Net, acts: seq<Act>, a: Act)
    ensures Steps(n, acts + [a]) == Step(Steps(n, acts), a)
  {
    assert (acts + [a])[..|acts + [a]| - 1] == acts;
  }

  lemma Then(n: Net, acts: seq<Act>, a: Act) returns (more: seq<Act>)
    ensures more == acts + [a] && Steps(n, more) == Step(Steps(n, acts), a)
    ensures OneTabRun(n, acts) && OneTab(Steps(n, acts), a) ==> OneTabRun(n, more)
  {
    more := acts + [a];
    StepsOne(n, acts, a);
    assert more[..|more| - 1] == acts;
  }
}
