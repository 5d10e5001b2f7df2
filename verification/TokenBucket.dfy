/** The dual token bucket: one script call takes a token from a tenant's bucket and
    from the site-wide bucket, or from neither.

    Levels are exact integers: one token is `TOKEN` units, and a limit of `rpm`
    requests a minute refills `rpm` units each millisecond. */
module TokenBucket {
  import opened Arithmetic
  import opened Policies

  const TOKEN: nat := 60000
  const TTL_MS: nat := 300000

  /** A tenant's bucket is named by the whole acquire key, the site-wide one by the site. */
  datatype BucketKey = TenantBucket(key: string) | GlobalBucket(site: string)
  datatype Bucket = Bucket(tok: int, ts: int)
  type Store = map<BucketKey, Bucket>
  datatype Limit = Limit(rpm: nat, burst: nat)
  datatype Reply = Granted | Denied(waitMs: nat)

  function Min(a: int, b: int): int { if a <= b then a else b }
  function Max(a: int, b: int): int { if a >= b then a else b }

  function CeilDiv(a: nat, b: nat): nat
    requires b > 0
  { (a + b - 1) / b }

  // ----- the script -----

  function Level(s: Store, b: BucketKey, lim: Limit, now: int): int {
    if b !in s then lim.burst * TOKEN
    else Min(lim.burst * TOKEN, s[b].tok + Max(0, now - s[b].ts) * lim.rpm)
  }

  function Shortfall(level: int, lim: Limit): nat
    requires lim.rpm > 0
  { if level < TOKEN then CeilDiv(TOKEN - level, lim.rpm) else 0 }

  function Script(s: Store, t: BucketKey, g: BucketKey, tl: Limit, gl: Limit, now: int): (Store, Reply)
    requires tl.rpm > 0 && gl.rpm > 0
  {
    var tTok, gTok := Level(s, t, tl, now), Level(s, g, gl, now);
    if tTok >= TOKEN && gTok >= TOKEN then
      (s[t := Bucket(tTok - TOKEN, now)][g := Bucket(gTok - TOKEN, now)], Granted)
    else
      (s, Denied(Max(Shortfall(tTok, tl), Shortfall(gTok, gl))))
  }

  /** The Redis keyspace that the script overwrites. */
  class Redis {
    var store: Store

    constructor ()
      ensures store == map[]
    { store := map[]; }

    method ReadLevel(key: BucketKey, lim: Limit, now: int) returns (level: int)
      ensures level == Level(store, key, lim, now)
    {
      var tok, ts := lim.burst * TOKEN, now;
      if key in store {
        tok, ts := store[key].tok, store[key].ts;
      }
      var elapsed := Max(0, now - ts);
      assert key !in store ==> elapsed * lim.rpm == 0;
      level := Min(lim.burst * TOKEN, tok + elapsed * lim.rpm);
    }

    method Eval(t: BucketKey, g: BucketKey, tl: Limit, gl: Limit, now: int) returns (allowed: bool, waitMs: nat)
      requires tl.rpm > 0 && gl.rpm > 0
      modifies this
      ensures (store, if allowed then Granted else Denied(waitMs)) == Script(old(store), t, g, tl, gl, now)
    {
      var tTok := ReadLevel(t, tl, now);
      var gTok := ReadLevel(g, gl, now);
      if tTok >= TOKEN && gTok >= TOKEN {
        store := store[t := Bucket(tTok - TOKEN, now)];
        store := store[g := Bucket(gTok - TOKEN, now)];
        return true, 0;
      }
      var tw, gw := 0, 0;
      if tTok < TOKEN {
        tw := CeilDiv(TOKEN - tTok, tl.rpm);
      }
      if gTok < TOKEN {
        gw := CeilDiv(TOKEN - gTok, gl.rpm);
      }
      return false, Max(tw, gw);
    }

    /** Other clients and Redis itself acting on the store between two calls. */
    method Interfere(policy: Lookup, es: seq<Event>)
      requires Usable(policy)
      modifies this
      ensures store == Run(policy, old(store), es)
    {
      var i := 0;
      while i < |es|
        invariant 0 <= i <= |es|
        invariant Run(policy, store, es[i..]) == Run(policy, old(store), es)
      {
        match es[i] {
          case Call(key, now) =>
            var p := policy(SiteOf(key));
            var _, _ := Eval(TenantBucket(key), GlobalBucket(SiteOf(key)), Limit(p.rpm, p.burst),
                             Limit(p.globalRpm, p.globalBurst), now);
          case Expire(b, _) =>
            store := store - {b};
        }
        i := i + 1;
      }
    }
  }

  // ----- naming the buckets -----

  /** The part of the acquire key before its first colon (all of it when there is none). */
  function SiteOf(key: string): string {
    if key == "" || key[0] == ':' then "" else [key[0]] + SiteOf(key[1..])
  }

  function TagOf(b: BucketKey): string { if b.TenantBucket? then SiteOf(b.key) else b.site }

  function SuffixOf(b: BucketKey): string { if b.TenantBucket? then b.key else "__all__" }

  /** The Redis key of a bucket. */
  function Render(b: BucketKey): string { "rl:{" + TagOf(b) + "}:" + SuffixOf(b) }

  predicate PlainKey(b: BucketKey) {
    match b
    case TenantBucket(key) => ':' in key && '}' !in SiteOf(key)
    case GlobalBucket(site) => '}' !in site
  }

  /** The hash tag of a rendered key: what stands between the opening "rl:{" and the first brace. */
  function UpToBrace(s: string): string {
    if s == "" || s[0] == '}' then "" else [s[0]] + UpToBrace(s[1..])
  }

  lemma {:induction false} HashTag(site: string, rest: string)
    requires '}' !in site
    ensures UpToBrace(site + "}:" + rest) == site
  {
    if site != "" {
      assert (site + "}:" + rest)[1..] == site[1..] + "}:" + rest;
      HashTag(site[1..], rest);
    }
  }

  lemma TagAndRest(tag: string, rest: string)
    ensures var r := "rl:{" + tag + "}:" + rest;
            |r| == 6 + |tag| + |rest| && r[4..] == tag + "}:" + rest && r[6 + |tag|..] == rest
  {}

  lemma RenderParts(b: BucketKey)
    requires PlainKey(b)
    ensures var r := Render(b);
            |r| >= 6 + |TagOf(b)| && UpToBrace(r[4..]) == TagOf(b) && r[6 + |TagOf(b)|..] == SuffixOf(b)
  {
    HashTag(TagOf(b), SuffixOf(b));
    TagAndRest(TagOf(b), SuffixOf(b));
  }

  /** Two buckets share a Redis key only if they are the same bucket, so the model may
      index its store by bucket. The scrapers' keys are all of this plain form. */
  lemma RenderInjective(b: BucketKey, c: BucketKey)
    requires PlainKey(b) && PlainKey(c)
    ensures Render(b) == Render(c) <==> b == c
  {
    RenderParts(b);
    RenderParts(c);
    assert ':' !in "__all__";
  }

  // ----- runs of the limiter -----

  /** What can happen to the store: a script call for an acquire key, or Redis
      dropping a bucket whose time to live has run out. */
  datatype Event = Call(key: string, now: int) | Expire(bucket: BucketKey, now: int)

  type Lookup = string -> SitePolicy

  ghost predicate Usable(policy: Lookup) {
    forall site :: policy(site).rpm > 0 && policy(site).globalRpm > 0
  }

  function LimitOf(policy: Lookup, b: BucketKey): Limit {
    match b
    case TenantBucket(key) => var p := policy(SiteOf(key)); Limit(p.rpm, p.burst)
    case GlobalBucket(site) => var p := policy(site); Limit(p.globalRpm, p.globalBurst)
  }

  function GlobalOf(key: string): BucketKey { GlobalBucket(SiteOf(key)) }

  ghost function CallScript(policy: Lookup, s: Store, key: string, now: int): (Store, Reply)
    requires Usable(policy)
  {
    var p := policy(SiteOf(key));
    Script(s, TenantBucket(key), GlobalOf(key), Limit(p.rpm, p.burst), Limit(p.globalRpm, p.globalBurst), now)
  }

  ghost function Apply(policy: Lookup, s: Store, e: Event): Store
    requires Usable(policy)
  {
    match e
    case Call(key, now) => CallScript(policy, s, key, now).0
    case Expire(b, _) => s - {b}
  }

  ghost function Run(policy: Lookup, s: Store, es: seq<Event>): Store
    requires Usable(policy)
    decreases |es|
  { if es == [] then s else Run(policy, Apply(policy, s, es[0]), es[1..]) }

  /** The replies of the script calls of a run, in order. */
  ghost function Replies(policy: Lookup, s: Store, es: seq<Event>): seq<Reply>
    requires Usable(policy)
    decreases |es|
  {
    if es == [] then []
    else
      (if es[0].Call? then [CallScript(policy, s, es[0].key, es[0].now).1] else []) +
      Replies(policy, Apply(policy, s, es[0]), es[1..])
  }

  predicate Touches(key: string, b: BucketKey) { b == TenantBucket(key) || b == GlobalOf(key) }

  ghost function GrantOf(policy: Lookup, s: Store, e: Event, b: BucketKey): nat
    requires Usable(policy)
  {
    if e.Call? && Touches(e.key, b) && CallScript(policy, s, e.key, e.now).1.Granted? then 1 else 0
  }

  /** How many calls of a run were granted a token of bucket `b`. */
  ghost function Grants(policy: Lookup, s: Store, es: seq<Event>, b: BucketKey): nat
    requires Usable(policy)
    decreases |es|
  {
    if es == [] then 0
    else
      GrantOf(policy, s, es[0], b) +
      Grants(policy, Apply(policy, s, es[0]), es[1..], b)
  }

  /** Timestamps never go back, and a bucket expires only a full TTL after its last grant. */
  ghost predicate Legal(policy: Lookup, s: Store, es: seq<Event>, from: int)
    requires Usable(policy)
    decreases |es|
  {
    es == [] ||
    (from <= es[0].now &&
     (es[0].Expire? && es[0].bucket in s ==> s[es[0].bucket].ts + TTL_MS <= es[0].now) &&
     Legal(policy, Apply(policy, s, es[0]), es[1..], es[0].now))
  }

  function EndTime(es: seq<Event>, from: int): int {
    if es == [] then from else es[|es| - 1].now
  }

  /** What every store of a run satisfies: levels within the burst, stamps in the past. */
  ghost predicate Sound(policy: Lookup, s: Store, now: int) {
    forall b :: b in s ==> 0 <= s[b].tok <= LimitOf(policy, b).burst * TOKEN && s[b].ts <= now
  }

  /** A TTL of refill fills the bucket: 300 s at `rpm` a minute is `5 * rpm` tokens. */
  predicate RefillsWithinTtl(lim: Limit) { lim.burst <= 5 * lim.rpm }

  lemma LevelLater(s: Store, b: BucketKey, lim: Limit, now: int, later: int)
    requires now <= later && (b in s ==> s[b].ts <= now)
    ensures Level(s, b, lim, later) == Min(lim.burst * TOKEN, Level(s, b, lim, now) + (later - now) * lim.rpm)
  {
    if b in s {
      var ts := s[b].ts;
      assert (later - ts) * lim.rpm == (now - ts) * lim.rpm + (later - now) * lim.rpm;
    }
    MulMonotone(0, later - now, lim.rpm);
  }

  lemma LevelInRange(policy: Lookup, s: Store, b: BucketKey, now: int)
    requires Sound(policy, s, now)
    ensures 0 <= Level(s, b, LimitOf(policy, b), now) <= LimitOf(policy, b).burst * TOKEN
  {
    if b in s {
      MulMonotone(0, now - s[b].ts, LimitOf(policy, b).rpm);
    }
  }

  /** A grant costs one token of each bucket the call names and nothing else; a denial costs nothing. */
  lemma CallEffect(policy: Lookup, s: Store, key: string, now: int, b: BucketKey)
    requires Usable(policy) && Sound(policy, s, now)
    ensures var (s', reply) := CallScript(policy, s, key, now);
            Level(s', b, LimitOf(policy, b), now) ==
            Level(s, b, LimitOf(policy, b), now) - (if reply.Granted? && Touches(key, b) then TOKEN else 0)
    ensures CallScript(policy, s, key, now).1.Denied? ==> CallScript(policy, s, key, now).0 == s
    ensures CallScript(policy, s, key, now).1.Granted? <==>
            Level(s, TenantBucket(key), LimitOf(policy, TenantBucket(key)), now) >= TOKEN &&
            Level(s, GlobalOf(key), LimitOf(policy, GlobalOf(key)), now) >= TOKEN
  {
    LevelInRange(policy, s, TenantBucket(key), now);
    LevelInRange(policy, s, GlobalOf(key), now);
  }

  lemma SoundLater(policy: Lookup, s: Store, now: int, later: int)
    requires Sound(policy, s, now) && now <= later
    ensures Sound(policy, s, later)
  {}

  /** Every event keeps the store sound. */
  lemma ApplySound(policy: Lookup, s: Store, e: Event, from: int)
    requires Usable(policy) && Sound(policy, s, from) && from <= e.now
    ensures Sound(policy, Apply(policy, s, e), e.now)
  {
    SoundLater(policy, s, from, e.now);
    if e.Call? {
      LevelInRange(policy, s, TenantBucket(e.key), e.now);
      LevelInRange(policy, s, GlobalOf(e.key), e.now);
    }
  }

  /** A legal expiry leaves the level of every bucket as it was. */
  lemma ExpiryKeepsLevel(s: Store, b: BucketKey, lim: Limit, now: int, c: BucketKey)
    requires RefillsWithinTtl(lim)
    requires b in s ==> 0 <= s[b].tok && s[b].ts + TTL_MS <= now
    ensures b == c ==> Level(s - {b}, c, lim, now) == Level(s, c, lim, now)
  {
    if b in s && b == c {
      MulMonotone(TTL_MS, now - s[b].ts, lim.rpm);
    }
  }

  // ----- the window bound -----

  /** One event spends at most what the refill since the last one added, unless it is an expiry that shows. */
  lemma EventBudgetUnless(policy: Lookup, s: Store, e: Event, from: int, b: BucketKey)
    requires Usable(policy) && Sound(policy, s, from) && from <= e.now
    requires var lim := LimitOf(policy, b);
             e.Expire? ==> Level(Apply(policy, s, e), b, lim, e.now) == Level(s, b, lim, e.now)
    ensures var lim := LimitOf(policy, b);
            GrantOf(policy, s, e, b) * TOKEN + Level(Apply(policy, s, e), b, lim, e.now)
            <= Level(s, b, lim, from) + (e.now - from) * lim.rpm
  {
    LevelLater(s, b, LimitOf(policy, b), from, e.now);
    SoundLater(policy, s, from, e.now);
    if e.Call? {
      CallEffect(policy, s, e.key, e.now, b);
    }
  }

  lemma EventBudget(policy: Lookup, s: Store, e: Event, from: int, b: BucketKey)
    requires Usable(policy) && Sound(policy, s, from) && from <= e.now && RefillsWithinTtl(LimitOf(policy, b))
    requires e.Expire? && e.bucket in s ==> s[e.bucket].ts + TTL_MS <= e.now
    ensures var lim := LimitOf(policy, b);
            GrantOf(policy, s, e, b) * TOKEN + Level(Apply(policy, s, e), b, lim, e.now)
            <= Level(s, b, lim, from) + (e.now - from) * lim.rpm
  {
    if e.Expire? {
      ExpiryKeepsLevel(s, e.bucket, LimitOf(policy, b), e.now, b);
    }
    EventBudgetUnless(policy, s, e, from, b);
  }

  lemma SplitTime(from: int, mid: int, end: int, rpm: nat)
    ensures (end - from) * rpm == (end - mid) * rpm + (mid - from) * rpm
  {}

  /** The budget argument: grants, plus what is left, never exceed what was there plus the refill. */
  lemma {:induction false} GrantBudget(policy: Lookup, s: Store, es: seq<Event>, from: int, b: BucketKey)
    requires Usable(policy) && Sound(policy, s, from) && Legal(policy, s, es, from)
    requires RefillsWithinTtl(LimitOf(policy, b))
    ensures var lim := LimitOf(policy, b);
            Grants(policy, s, es, b) * TOKEN + Level(Run(policy, s, es), b, lim, EndTime(es, from))
            <= Level(s, b, lim, from) + (EndTime(es, from) - from) * lim.rpm
    ensures Sound(policy, Run(policy, s, es), EndTime(es, from)) && from <= EndTime(es, from)
    decreases |es|
  {
    if es != [] {
      var e := es[0];
      EventBudget(policy, s, e, from, b);
      ApplySound(policy, s, e, from);
      GrantBudget(policy, Apply(policy, s, e), es[1..], e.now, b);
      assert EndTime(es[1..], e.now) == EndTime(es, from);
      assert Grants(policy, s, es, b) == GrantOf(policy, s, e, b) + Grants(policy, Apply(policy, s, e), es[1..], b);
      SplitTime(from, e.now, EndTime(es, from), LimitOf(policy, b).rpm);
    }
  }

  lemma {:induction false} RunConcat(policy: Lookup, s: Store, xs: seq<Event>, ys: seq<Event>, from: int)
    requires Usable(policy)
    ensures Run(policy, s, xs + ys) == Run(policy, Run(policy, s, xs), ys)
    ensures Legal(policy, s, xs + ys, from) <==>
            Legal(policy, s, xs, from) && Legal(policy, Run(policy, s, xs), ys, EndTime(xs, from))
    decreases |xs|
  {
    if xs == [] {
      assert xs + ys == ys;
    } else {
      assert (xs + ys)[1..] == xs[1..] + ys;
      RunConcat(policy, Apply(policy, s, xs[0]), xs[1..], ys, xs[0].now);
      assert EndTime(xs[1..], xs[0].now) == EndTime(xs, from);
    }
  }

  /** The window bound. In any run from an empty Redis, whatever other keys are called and
      whichever buckets expire, the calls between two moments are granted at most
      `burst + rate * elapsed` tokens of any one bucket. With a tenant bucket this bounds one
      tenant, with a site-wide bucket all tenants of the site together. */
  lemma {:induction false} WindowBound(policy: Lookup, pre: seq<Event>, window: seq<Event>, post: seq<Event>,
                                       from: int, b: BucketKey)
    requires Usable(policy) && Legal(policy, map[], pre + window + post, from)
    requires RefillsWithinTtl(LimitOf(policy, b)) && window != []
    ensures var lim := LimitOf(policy, b);
            Grants(policy, Run(policy, map[], pre), window, b) * TOKEN
            <= lim.burst * TOKEN + (window[|window| - 1].now - window[0].now) * lim.rpm
  {
    RunConcat(policy, map[], pre + window, post, from);
    RunConcat(policy, map[], pre, window, from);
    var s, t, lim := Run(policy, map[], pre), window[0].now, LimitOf(policy, b);
    SoundAfter(policy, map[], pre, from);
    SoundLater(policy, s, EndTime(pre, from), t);
    assert Legal(policy, s, window, t);
    GrantBudget(policy, s, window, t, b);
    LevelInRange(policy, s, b, t);
    LevelInRange(policy, Run(policy, s, window), b, EndTime(window, t));
  }

  lemma {:induction false} SoundAfter(policy: Lookup, s: Store, es: seq<Event>, from: int)
    requires Usable(policy) && Sound(policy, s, from) && Legal(policy, s, es, from)
    ensures Sound(policy, Run(policy, s, es), EndTime(es, from)) && from <= EndTime(es, from)
    decreases |es|
  {
    if es != [] {
      ApplySound(policy, s, es[0], from);
      SoundAfter(policy, Apply(policy, s, es[0]), es[1..], es[0].now);
    }
  }

  // ----- expiry -----

  function CallsOnly(es: seq<Event>): seq<Event> {
    if es == [] then [] else (if es[0].Call? then [es[0]] else []) + CallsOnly(es[1..])
  }

  /** Two stores that no call can tell apart from time `now` on. */
  ghost predicate SameLevels(policy: Lookup, s: Store, r: Store, now: int) {
    forall b :: Level(s, b, LimitOf(policy, b), now) == Level(r, b, LimitOf(policy, b), now)
  }

  lemma SameLevelsLater(policy: Lookup, s: Store, r: Store, now: int, later: int)
    requires SameLevels(policy, s, r, now) && now <= later
    requires Sound(policy, s, now) && Sound(policy, r, now)
    ensures SameLevels(policy, s, r, later)
  {
    forall b ensures Level(s, b, LimitOf(policy, b), later) == Level(r, b, LimitOf(policy, b), later) {
      LevelLater(s, b, LimitOf(policy, b), now, later);
      LevelLater(r, b, LimitOf(policy, b), now, later);
    }
  }

  lemma SameLevelsCall(policy: Lookup, s: Store, r: Store, key: string, now: int)
    requires Usable(policy) && SameLevels(policy, s, r, now) && Sound(policy, s, now) && Sound(policy, r, now)
    ensures CallScript(policy, s, key, now).1 == CallScript(policy, r, key, now).1
    ensures SameLevels(policy, CallScript(policy, s, key, now).0, CallScript(policy, r, key, now).0, now)
  {
    var s', r' := CallScript(policy, s, key, now).0, CallScript(policy, r, key, now).0;
    assert Level(s, TenantBucket(key), LimitOf(policy, TenantBucket(key)), now)
        == Level(r, TenantBucket(key), LimitOf(policy, TenantBucket(key)), now);
    assert Level(s, GlobalOf(key), LimitOf(policy, GlobalOf(key)), now)
        == Level(r, GlobalOf(key), LimitOf(policy, GlobalOf(key)), now);
    forall b ensures Level(s', b, LimitOf(policy, b), now) == Level(r', b, LimitOf(policy, b), now) {
      CallEffect(policy, s, key, now, b);
      CallEffect(policy, r, key, now, b);
    }
  }

  /** Expiry is unobservable: a run answers its calls exactly as if Redis never dropped a key. */
  lemma {:induction false} ExpiryUnobservable(policy: Lookup, s: Store, r: Store, es: seq<Event>, from: int)
    requires Usable(policy) && Legal(policy, s, es, from)
    requires Sound(policy, s, from) && Sound(policy, r, from) && SameLevels(policy, s, r, from)
    requires forall b :: RefillsWithinTtl(LimitOf(policy, b))
    ensures Replies(policy, s, es) == Replies(policy, r, CallsOnly(es))
    decreases |es|
  {
    if es != [] {
      var e := es[0];
      SoundLater(policy, s, from, e.now);
      SoundLater(policy, r, from, e.now);
      SameLevelsLater(policy, s, r, from, e.now);
      ApplySound(policy, s, e, from);
      var s1 := Apply(policy, s, e);
      if e.Call? {
        SameLevelsCall(policy, s, r, e.key, e.now);
        ApplySound(policy, r, e, from);
        ExpiryUnobservable(policy, s1, Apply(policy, r, e), es[1..], e.now);
        assert CallsOnly(es)[1..] == CallsOnly(es[1..]);
      } else {
        forall b ensures Level(s1, b, LimitOf(policy, b), e.now) == Level(r, b, LimitOf(policy, b), e.now) {
          ExpiryKeepsLevel(s, e.bucket, LimitOf(policy, b), e.now, b);
          assert Level(s, b, LimitOf(policy, b), e.now) == Level(r, b, LimitOf(policy, b), e.now);
        }
        ExpiryUnobservable(policy, s1, r, es[1..], e.now);
        assert CallsOnly(es) == CallsOnly(es[1..]);
      }
    }
  }

  /** Every row of the policy table, and the default, refills within the TTL. */
  lemma TableRefillsWithinTtl(b: BucketKey)
    ensures Usable(PolicyFor) && RefillsWithinTtl(LimitOf(PolicyFor, b))
  {
    var site := if b.TenantBucket? then SiteOf(b.key) else b.site;
    assert site in SITE_POLICIES ==> site in {"jobspy", "wellfound", "yc", "hackernews", "openrouter"};
  }

  lemma {:induction false} SiteOfKey(site: string, tenant: string)
    requires ':' !in site
    ensures SiteOf(site + ":" + tenant) == site
  {
    if site != "" {
      SiteOfKey(site[1..], tenant);
      assert (site + ":" + tenant)[1..] == site[1..] + ":" + tenant;
    }
  }

  /** What the table promises a site: within any minute of any run, one tenant is granted at most its burst and
      its rate, all tenants together at most the site's. */
  lemma MinuteBound(pre: seq<Event>, window: seq<Event>, post: seq<Event>, from: int, site: string, tenant: string)
    requires ':' !in site && Usable(PolicyFor) && Legal(PolicyFor, map[], pre + window + post, from)
    requires window != [] && window[|window| - 1].now - window[0].now <= 60000
    ensures var p, s := PolicyFor(site), Run(PolicyFor, map[], pre);
            && Grants(PolicyFor, s, window, TenantBucket(site + ":" + tenant)) <= p.burst + p.rpm
            && Grants(PolicyFor, s, window, GlobalBucket(site)) <= p.globalBurst + p.globalRpm
  {
    SiteOfKey(site, tenant);
    var t, g := TenantBucket(site + ":" + tenant), GlobalBucket(site);
    TableRefillsWithinTtl(t);
    TableRefillsWithinTtl(g);
    WindowBound(PolicyFor, pre, window, post, from, t);
    WindowBound(PolicyFor, pre, window, post, from, g);
    var length := window[|window| - 1].now - window[0].now;
    MulMonotone(length, 60000, PolicyFor(site).rpm);
    MulMonotone(length, 60000, PolicyFor(site).globalRpm);
  }

  lemma {:induction false} GrantsConcat(policy: Lookup, s: Store, xs: seq<Event>, ys: seq<Event>, b: BucketKey)
    requires Usable(policy)
    ensures Grants(policy, s, xs + ys, b) == Grants(policy, s, xs, b) + Grants(policy, Run(policy, s, xs), ys, b)
    decreases |xs|
  {
    if xs == [] {
      assert xs + ys == ys;
    } else {
      assert (xs + ys)[1..] == xs[1..] + ys;
      GrantsConcat(policy, Apply(policy, s, xs[0]), xs[1..], ys, b);
    }
  }

  // ----- the site-wide bucket, exactly -----

  /** The acquire key of the `k`-th tenant of a site. */
  function TenantKey(site: string, k: nat): string { site + ":" + seq(k, _ => 'x') }

  lemma TenantKeySite(site: string, k: nat)
    requires ':' !in site
    ensures SiteOf(TenantKey(site, k)) == site
  {
    SiteOfKey(site, seq(k, _ => 'x'));
  }

  lemma TenantKeysDiffer(site: string, j: nat, k: nat)
    ensures TenantKey(site, j) == TenantKey(site, k) <==> j == k
  {
    assert |TenantKey(site, j)| == |site| + 1 + j && |TenantKey(site, k)| == |site| + 1 + k;
  }

  /** One call by each of `n` tenants of a site, from the `first`-th on, at one moment. */
  function Crowd(site: string, first: nat, n: nat, now: int): (es: seq<Event>)
    ensures |es| == n && forall k :: 0 <= k < n ==> es[k] == Call(TenantKey(site, first + k), now)
  { seq(n, k requires 0 <= k < n => Call(TenantKey(site, first + k), now)) }

  /** No bucket yet for the `first`-th tenant and those after it. */
  ghost predicate Newcomers(s: Store, site: string, first: nat) {
    forall k: nat :: first <= k ==> TenantBucket(TenantKey(site, k)) !in s
  }

  /** The site has `n` tokens left at `now` and as many newcomers as one likes. */
  ghost predicate Welcoming(policy: Lookup, s: Store, site: string, first: nat, n: nat, now: int) {
    && Sound(policy, s, now) && Newcomers(s, site, first)
    && n * TOKEN <= Level(s, GlobalBucket(site), LimitOf(policy, GlobalBucket(site)), now)
  }

  lemma NewcomerGranted(policy: Lookup, s: Store, site: string, first: nat, n: nat, now: int)
    requires Usable(policy) && ':' !in site && policy(site).burst >= 1
    requires n > 0 && Welcoming(policy, s, site, first, n, now)
    ensures var g, e := GlobalBucket(site), Call(TenantKey(site, first), now);
            var s' := Apply(policy, s, e);
            GrantOf(policy, s, e, g) == 1 && Welcoming(policy, s', site, first + 1, n - 1, now) && g in s' &&
                s'[g].ts == now
  {
    var key, g := TenantKey(site, first), GlobalBucket(site);
    TenantKeySite(site, first);
    CallEffect(policy, s, key, now, g);
    ApplySound(policy, s, Call(key, now), now);
    var s' := CallScript(policy, s, key, now).0;
    forall k: nat | first + 1 <= k ensures TenantBucket(TenantKey(site, k)) !in s' {
      TenantKeysDiffer(site, first, k);
    }
  }

  /** While the site-wide bucket holds enough, every newcomer of a crowd is granted. */
  lemma {:induction false} CrowdGranted(policy: Lookup, s: Store, site: string, first: nat, n: nat, now: int)
    requires Usable(policy) && ':' !in site && policy(site).burst >= 1
    requires Welcoming(policy, s, site, first, n, now)
    ensures var g, es := GlobalBucket(site), Crowd(site, first, n, now);
            && Grants(policy, s, es, g) == n && Legal(policy, s, es, now)
            && Welcoming(policy, Run(policy, s, es), site, first + n, 0, now)
            && (n > 0 ==> g in Run(policy, s, es) && Run(policy, s, es)[g].ts == now)
    decreases n
  {
    if n == 0 {
      assert Crowd(site, first, n, now) == [];
    } else {
      CrowdMore(policy, s, site, first, n, now);
    }
  }

  lemma {:induction false} CrowdMore(policy: Lookup, s: Store, site: string, first: nat, n: nat, now: int)
    requires Usable(policy) && ':' !in site && policy(site).burst >= 1
    requires n > 0 && Welcoming(policy, s, site, first, n, now)
    ensures var g, es := GlobalBucket(site), Crowd(site, first, n, now);
            && Grants(policy, s, es, g) == n && Legal(policy, s, es, now)
            && Welcoming(policy, Run(policy, s, es), site, first + n, 0, now)
            && g in Run(policy, s, es) && Run(policy, s, es)[g].ts == now
    decreases n, 0
  {
    var es, g := Crowd(site, first, n, now), GlobalBucket(site);
    var rest, s1 := Crowd(site, first + 1, n - 1, now), Apply(policy, s, es[0]);
    assert es[1..] == rest;
    NewcomerGranted(policy, s, site, first, n, now);
    FirstOfRun(policy, s, es, g, now);
    if n == 1 {
      assert Run(policy, s1, rest) == s1;
    } else {
      CrowdMore(policy, s1, site, first + 1, n - 1, now);
    }
  }

  lemma FirstOfRun(policy: Lookup, s: Store, es: seq<Event>, b: BucketKey, now: int)
    requires Usable(policy) && es != [] && es[0].Call? && es[0].now == now
    ensures var s1 := Apply(policy, s, es[0]);
            && Run(policy, s, es) == Run(policy, s1, es[1..])
            && Grants(policy, s, es, b) == GrantOf(policy, s, es[0], b) + Grants(policy, s1, es[1..], b)
            && (Legal(policy, s, es, now) <==> Legal(policy, s1, es[1..], now))
  {}

  /** In every window of every legal run, `b` hands out at most its burst plus the refill. */
  ghost predicate Bounded(policy: Lookup, b: BucketKey)
    requires Usable(policy)
  {
    forall pre: seq<Event>, window: seq<Event>, post: seq<Event>, from: int ::
      window != [] && Legal(policy, map[], pre + window + post, from) ==>
      Grants(policy, Run(policy, map[], pre), window, b) * TOKEN <= Budget(LimitOf(policy, b), window)
  }

  function Budget(lim: Limit, window: seq<Event>): int
    requires window != []
  { lim.burst * TOKEN + (window[|window| - 1].now - window[0].now) * lim.rpm }

  /** A crowd right after the site-wide bucket expired takes its full burst. */
  lemma CrowdAfterExpiry(policy: Lookup, s: Store, site: string, first: nat, now: int, later: int)
    requires Usable(policy) && ':' !in site && policy(site).burst >= 1
    requires Sound(policy, s, now) && now <= later && Newcomers(s, site, first)
    requires GlobalBucket(site) in s ==> s[GlobalBucket(site)].ts + TTL_MS <= later
    ensures var g := GlobalBucket(site);
            var es := [Expire(g, later)] + Crowd(site, first, LimitOf(policy, g).burst, later);
            Legal(policy, s, es, now) && Grants(policy, s, es, g) == LimitOf(policy, g).burst
  {
    var g := GlobalBucket(site);
    var es := [Expire(g, later)] + Crowd(site, first, LimitOf(policy, g).burst, later);
    var after := s - {g};
    assert es[1..] == Crowd(site, first, LimitOf(policy, g).burst, later);
    ApplySound(policy, s, es[0], now);
    CrowdGranted(policy, after, site, first, LimitOf(policy, g).burst, later);
  }

  lemma TwiceTheBurst(lim: Limit)
    requires !RefillsWithinTtl(lim)
    ensures 2 * lim.burst * TOKEN > lim.burst * TOKEN + TTL_MS * lim.rpm
  {}

  /** A crowd, the expiry of the site-wide bucket, and another crowd. */
  lemma {:induction false} TwoCrowds(policy: Lookup, site: string) returns (window: seq<Event>)
    requires Usable(policy) && ':' !in site && policy(site).burst >= 1
    requires !RefillsWithinTtl(LimitOf(policy, GlobalBucket(site)))
    ensures window != [] && Legal(policy, map[], window, 0)
    ensures Grants(policy, map[], window, GlobalBucket(site)) * TOKEN >
            Budget(LimitOf(policy, GlobalBucket(site)), window)
  {
    var g := GlobalBucket(site);
    var lim := LimitOf(policy, g);
    var one, two := Crowd(site, 0, lim.burst, 0), [Expire(g, TTL_MS)] + Crowd(site, lim.burst, lim.burst, TTL_MS);
    CrowdGranted(policy, map[], site, 0, lim.burst, 0);
    CrowdAfterExpiry(policy, Run(policy, map[], one), site, lim.burst, 0, TTL_MS);
    window := one + two;
    assert EndTime(one, 0) == 0;
    Joined(policy, map[], one, two, 0, g);
    TwiceTheBurst(lim);
    CrowdEnds(site, lim.burst, g);
    OverBudget(lim, window, Grants(policy, map[], window, g));
  }

  lemma Joined(policy: Lookup, s: Store, xs: seq<Event>, ys: seq<Event>, from: int, b: BucketKey)
    requires Usable(policy) && Legal(policy, s, xs, from) && Legal(policy, Run(policy, s, xs), ys, EndTime(xs, from))
    ensures Legal(policy, s, xs + ys, from)
    ensures Grants(policy, s, xs + ys, b) == Grants(policy, s, xs, b) + Grants(policy, Run(policy, s, xs), ys, b)
  {
    RunConcat(policy, s, xs, ys, from);
    GrantsConcat(policy, s, xs, ys, b);
  }

  lemma OverBudget(lim: Limit, window: seq<Event>, grants: nat)
    requires window != [] && window[0].now == 0 && window[|window| - 1].now == TTL_MS && grants == 2 * lim.burst
    requires 2 * lim.burst * TOKEN > lim.burst * TOKEN + TTL_MS * lim.rpm
    ensures grants * TOKEN > Budget(lim, window)
  {}

  lemma CrowdEnds(site: string, n: nat, g: BucketKey)
    requires n > 0
    ensures var window := Crowd(site, 0, n, 0) + ([Expire(g, TTL_MS)] + Crowd(site, n, n, TTL_MS));
            window != [] && window[0].now == 0 && window[|window| - 1].now == TTL_MS
  {}

  /** The window bound of a site with tenants that may call at all holds if and only if 300 s of refill
      cover its site-wide burst. */
  lemma SiteBoundExactly(policy: Lookup, site: string)
    requires Usable(policy) && ':' !in site && policy(site).burst >= 1
    ensures Bounded(policy, GlobalBucket(site)) <==> RefillsWithinTtl(LimitOf(policy, GlobalBucket(site)))
  {
    var g := GlobalBucket(site);
    if RefillsWithinTtl(LimitOf(policy, g)) {
      forall pre: seq<Event>, window: seq<Event>, post: seq<Event>, from: int |
        window != [] && Legal(policy, map[], pre + window + post, from)
        ensures Grants(policy, Run(policy, map[], pre), window, g) * TOKEN <= Budget(LimitOf(policy, g), window)
      {
        WindowBound(policy, pre, window, post, from, g);
      }
    } else {
      var window := TwoCrowds(policy, site);
      assert [] + window + [] == window && Run(policy, map[], []) == map[];
      assert Legal(policy, map[], [] + window + [], 0);
    }
  }

  // ----- the wait hint -----

  lemma CeilDivExact(a: nat, r: nat, d: nat)
    requires r > 0
    ensures d * r >= a <==> d >= CeilDiv(a, r)
  {
    var q := CeilDiv(a, r);
    assert q * r <= a + r - 1 < (q + 1) * r by {
      assert a + r - 1 == r * ((a + r - 1) / r) + (a + r - 1) % r;
    }
    if d >= q {
      MulMonotone(q, d, r);
    } else {
      MulMonotone(d + 1, q, r);
    }
  }

  lemma RefillTime(s: Store, b: BucketKey, lim: Limit, now: int, d: nat)
    requires lim.rpm > 0 && lim.burst > 0 && (b in s ==> s[b].ts <= now)
    ensures Level(s, b, lim, now + d) >= TOKEN <==> d >= Shortfall(Level(s, b, lim, now), lim)
  {
    LevelLater(s, b, lim, now, now + d);
    var x := Level(s, b, lim, now);
    MulMonotone(0, d, lim.rpm);
    if x < TOKEN {
      CeilDivExact(TOKEN - x, lim.rpm, d);
    }
  }

  /** The hint is exact: with no grant in between, the same call is denied at every moment
      before `now + w` and granted at every moment from it, and `w` is never zero. A bucket of
      burst zero is the one exception: it never grants, whatever the hint says. */
  lemma WaitHintExact(policy: Lookup, s: Store, key: string, now: int, w: nat, d: nat)
    requires Usable(policy) && Sound(policy, s, now) && CallScript(policy, s, key, now).1 == Denied(w)
    ensures w > 0
    ensures CallScript(policy, s, key, now + d).1.Granted? <==>
            d >= w && LimitOf(policy, TenantBucket(key)).burst > 0 && LimitOf(policy, GlobalOf(key)).burst > 0
  {
    var t, g := TenantBucket(key), GlobalOf(key);
    var tl, gl := LimitOf(policy, t), LimitOf(policy, g);
    LevelInRange(policy, s, t, now);
    LevelInRange(policy, s, g, now);
    if tl.burst > 0 && gl.burst > 0 {
      RefillTime(s, t, tl, now, d);
      RefillTime(s, g, gl, now, d);
    }
    CeilDivExact(TOKEN - Min(TOKEN, Level(s, t, tl, now)), tl.rpm, 0);
    CeilDivExact(TOKEN - Min(TOKEN, Level(s, g, gl, now)), gl.rpm, 0);
  }

  // ----- the acquire loop -----

  function Nap(waitMs: nat, sleepCapMs: nat): nat { Min(Max(waitMs, 1), sleepCapMs) }

  /** The world around one acquire: before its i-th call other clients and expiries do
      `others(i)`, and the call then reads `clock(i)`. */
  datatype World = World(others: nat -> seq<Event>, clock: nat -> int)

  /** One acquire: what it is for, how patient it is, and the world around it. */
  datatype Client = Client(policy: Lookup, key: string, maxWaitMs: nat, sleepCapMs: nat, world: World)

  ghost predicate Ready(c: Client) { Usable(c.policy) && c.sleepCapMs > 0 }

  /** What one acquire did: the store it left, whether it got its token, how many script calls it made,
      how long it slept and what the naps added up to. */
  datatype Outcome = Outcome(store: Store, granted: bool, calls: nat, sleptMs: nat, waitedMs: nat)

  /** The store that the acquire's i-th call meets. */
  ghost function Met(c: Client, s: Store, i: nat): Store
    requires Ready(c)
  { Run(c.policy, s, c.world.others(i)) }

  ghost function Answered(c: Client, s: Store, i: nat): (Store, Reply)
    requires Ready(c)
  { CallScript(c.policy, Met(c, s, i), c.key, c.world.clock(i)) }

  ghost function AcquireFrom(c: Client, s: Store, i: nat, waited: nat): Outcome
    requires Ready(c) && waited <= c.maxWaitMs
    decreases c.maxWaitMs - waited
  {
    var (s', reply) := Answered(c, s, i);
    match reply
    case Granted => Outcome(s', true, i + 1, waited + c.policy(SiteOf(c.key)).minDelayMs, waited)
    case Denied(w) =>
      var waited' := waited + Nap(w, c.sleepCapMs);
      if waited' > c.maxWaitMs then Outcome(s', false, i + 1, waited, waited')
      else AcquireFrom(c, s', i + 1, waited')
  }

  /** The acquire tries again after its i-th call. */
  ghost predicate Persists(c: Client, s: Store, i: nat, waited: nat)
    requires Ready(c) && waited <= c.maxWaitMs
  {
    var reply := Answered(c, s, i).1;
    reply.Denied? && waited + Nap(reply.waitMs, c.sleepCapMs) <= c.maxWaitMs
  }

  /** Bounded waiting: at most one call for each millisecond of patience and one more, sleep within the
      patience plus the politeness delay, and no token only once the naps asked for exceed the patience. */
  lemma {:induction false} AcquireBounded(c: Client, s: Store, i: nat, waited: nat)
    requires Ready(c) && i <= waited <= c.maxWaitMs
    ensures var o := AcquireFrom(c, s, i, waited);
            && i < o.calls <= c.maxWaitMs + 1
            && (o.granted <==> o.waitedMs <= c.maxWaitMs)
            && (o.granted ==> o.sleptMs == o.waitedMs + c.policy(SiteOf(c.key)).minDelayMs)
            && (!o.granted ==> o.sleptMs <= c.maxWaitMs < o.waitedMs <= o.sleptMs + c.sleepCapMs)
    decreases c.maxWaitMs - waited
  {
    var (s', reply) := Answered(c, s, i);
    if Persists(c, s, i, waited) {
      AcquireBounded(c, s', i + 1, waited + Nap(reply.waitMs, c.sleepCapMs));
    }
  }

  // ----- an acquire that nobody disturbs -----

  /** Each further call is made when the acquire has slept its naps since `start`. */
  ghost predicate OnTime(c: Client, s: Store, i: nat, waited: nat, start: int)
    requires Ready(c) && waited <= c.maxWaitMs
    decreases c.maxWaitMs - waited
  {
    && c.world.clock(i) == start + waited
    && (Persists(c, s, i, waited) ==>
          var (s', reply) := Answered(c, s, i);
          OnTime(c, s', i + 1, waited + Nap(reply.waitMs, c.sleepCapMs), start))
  }

  /** Nobody else acts, and the buckets can hold a token. */
  ghost predicate Alone(c: Client) {
    && Ready(c) && (forall i: nat :: c.world.others(i) == [])
    && c.policy(SiteOf(c.key)).burst > 0 && c.policy(SiteOf(c.key)).globalBurst > 0
  }

  /** The acquire has the limiter to itself, and the clock advances by what it sleeps. */
  ghost predicate Undisturbed(c: Client, s: Store) {
    Alone(c) && Sound(c.policy, s, c.world.clock(0)) && OnTime(c, s, 0, 0, c.world.clock(0))
  }

  /** What comes of an acquire whose token is `left` milliseconds away and whose patience is `patience`: it is
      granted if that is long enough, and then it has slept to the millisecond until the token was there, in
      naps of `cap` and a last shorter one; otherwise it has slept all the whole naps that fit. */
  predicate Comes(o: Outcome, i: nat, waited: nat, left: nat, patience: nat, cap: nat, delay: nat)
    requires cap > 0
  {
    && (o.granted <==> left <= patience)
    && (o.granted ==> o.sleptMs == waited + left + delay && o.calls == i + (left + cap - 1) / cap + 1)
    && (!o.granted ==> o.sleptMs == waited + patience / cap * cap && o.calls == i + patience / cap + 1)
  }

  lemma NextNap(left: nat, cap: nat)
    requires cap > 0 && left > 0
    ensures left > cap ==> (left + cap - 1) / cap == 1 + (left - cap + cap - 1) / cap
    ensures left <= cap ==> (left + cap - 1) / cap == 1
    ensures (cap - 1) / cap == 0
  {
    QuotientNext(left - 1, cap);
  }

  /** As the naps pass the hint counts down, and at its end the call is granted. */
  lemma HintCountsDown(policy: Lookup, s: Store, key: string, start: int, w: nat, e: nat)
    requires Usable(policy) && Sound(policy, s, start) && CallScript(policy, s, key, start).1 == Denied(w) && e <= w
    requires policy(SiteOf(key)).burst > 0 && policy(SiteOf(key)).globalBurst > 0
    ensures var (after, reply) := CallScript(policy, s, key, start + e);
            if e == w then reply.Granted? else reply == Denied(w - e) && after == s
  {
    WaitHintExact(policy, s, key, start, w, e);
    if e < w {
      SoundLater(policy, s, start, start + e);
      var later := CallScript(policy, s, key, start + e).1.waitMs;
      WaitHintExact(policy, s, key, start + e, later, later);
      WaitHintExact(policy, s, key, start, w, e + later);
      WaitHintExact(policy, s, key, start + e, later, w - e);
      WaitHintExact(policy, s, key, start, w, w);
      CallEffect(policy, s, key, start + e, TenantBucket(key));
    }
  }

  lemma ComesNext(o: Outcome, i: nat, waited: nat, left: nat, patience: nat, cap: nat, delay: nat, nap: nat)
    requires cap > 0 && left > 0 && nap == (if left <= cap then left else cap) && nap <= patience
    requires Comes(o, i + 1, waited + nap, left - nap, patience - nap, cap, delay)
    ensures Comes(o, i, waited, left, patience, cap, delay)
  {
    NextNap(left, cap);
    if left > cap {
      QuotientNext(patience - cap, cap);
      assert (1 + (patience - cap) / cap) * cap == cap + (patience - cap) / cap * cap;
    }
  }

  /** One turn of an undisturbed acquire whose token is `w - waited` milliseconds away. */
  lemma UndisturbedTurn(c: Client, s: Store, i: nat, waited: nat, start: int, w: nat)
    requires Alone(c) && waited <= c.maxWaitMs && OnTime(c, s, i, waited, start) && Sound(c.policy, s, start)
    requires CallScript(c.policy, s, c.key, start).1 == Denied(w) && waited <= w
    ensures var o := AcquireFrom(c, s, i, waited);
            var nap := if w - waited <= c.sleepCapMs then w - waited else c.sleepCapMs;
            if waited == w then
              o.granted && o.calls == i + 1 && o.sleptMs == waited + c.policy(SiteOf(c.key)).minDelayMs
            else if waited + nap > c.maxWaitMs then
              !o.granted && o.calls == i + 1 && o.sleptMs == waited
            else o == AcquireFrom(c, s, i + 1, waited + nap) && OnTime(c, s, i + 1, waited + nap, start)
  {
    AnsweredAlone(c, s, i, waited, start, w);
  }

  lemma AnsweredAlone(c: Client, s: Store, i: nat, waited: nat, start: int, w: nat)
    requires Alone(c) && c.world.clock(i) == start + waited && waited <= w && Sound(c.policy, s, start)
    requires CallScript(c.policy, s, c.key, start).1 == Denied(w)
    ensures if waited == w then Answered(c, s, i).1.Granted? else Answered(c, s, i) == (s, Denied(w - waited))
  {
    HintCountsDown(c.policy, s, c.key, start, w, waited);
    assert Met(c, s, i) == s;
  }

  lemma ComesAtOnce(o: Outcome, i: nat, waited: nat, left: nat, patience: nat, cap: nat, delay: nat)
    requires cap > 0 && o.calls == i + 1
    requires if o.granted then left == 0 && o.sleptMs == waited + delay
             else o.sleptMs == waited && left > patience && cap > patience
    ensures Comes(o, i, waited, left, patience, cap, delay)
  {
    NextNap(1, cap);
    if cap > patience {
      QuotientAtLeast(patience, cap, 1);
    }
  }

  lemma {:induction false} UndisturbedFrom(c: Client, s: Store, i: nat, waited: nat, start: int, w: nat)
    requires Alone(c) && waited <= c.maxWaitMs && OnTime(c, s, i, waited, start) && Sound(c.policy, s, start)
    requires CallScript(c.policy, s, c.key, start).1 == Denied(w) && waited <= w
    ensures Comes(AcquireFrom(c, s, i, waited), i, waited, w - waited, c.maxWaitMs - waited, c.sleepCapMs,
                  c.policy(SiteOf(c.key)).minDelayMs)
    decreases c.maxWaitMs - waited
  {
    UndisturbedTurn(c, s, i, waited, start, w);
    var o, left, patience := AcquireFrom(c, s, i, waited), w - waited, c.maxWaitMs - waited;
    var cap, delay := c.sleepCapMs, c.policy(SiteOf(c.key)).minDelayMs;
    var nap := if left <= cap then left else cap;
    if left == 0 || nap > patience {
      ComesAtOnce(o, i, waited, left, patience, cap, delay);
    } else {
      UndisturbedFrom(c, s, i + 1, waited + nap, start, w);
      ComesNext(o, i, waited, left, patience, cap, delay, nap);
    }
  }

  /** An acquire that nobody disturbs and whose first call is told to wait `w` milliseconds gets its token if and
      only if `w` is within its patience; it then has slept `w` and the politeness delay, in one call for each
      nap and one more. Otherwise it gives up after the naps that fit into its patience. */
  lemma UndisturbedAcquire(c: Client, s: Store, w: nat)
    requires Undisturbed(c, s) && CallScript(c.policy, s, c.key, c.world.clock(0)).1 == Denied(w)
    ensures var o := AcquireFrom(c, s, 0, 0);
            && (o.granted <==> w <= c.maxWaitMs)
            && (o.granted ==> o.sleptMs == w + c.policy(SiteOf(c.key)).minDelayMs)
            && (o.granted ==> o.calls == CeilDiv(w, c.sleepCapMs) + 1)
            && (!o.granted ==> o.sleptMs == c.maxWaitMs / c.sleepCapMs * c.sleepCapMs)
            && (!o.granted ==> o.calls == c.maxWaitMs / c.sleepCapMs + 1)
  {
    UndisturbedFrom(c, s, 0, 0, c.world.clock(0), w);
  }

  /** The naps of such an acquire, added up over its first `k` calls. */
  function Slept(k: nat, cap: nat, w: nat): (ms: nat)
    ensures ms <= w
  {
    if k == 0 then 0
    else
      var before := Slept(k - 1, cap, w);
      if before + cap <= w then before + cap else w
  }

  lemma {:induction false} ClockKept(c: Client, s: Store, i: nat, start: int, w: nat)
    requires Alone(c) && Sound(c.policy, s, start) && CallScript(c.policy, s, c.key, start).1 == Denied(w)
    requires forall k: nat {:trigger c.world.clock(k)} :: c.world.clock(k) == start + Slept(k, c.sleepCapMs, w)
    requires Slept(i, c.sleepCapMs, w) <= c.maxWaitMs
    ensures OnTime(c, s, i, Slept(i, c.sleepCapMs, w), start)
    decreases c.maxWaitMs - Slept(i, c.sleepCapMs, w)
  {
    var waited := Slept(i, c.sleepCapMs, w);
    if waited < w {
      SleptNext(i, c.sleepCapMs, w);
      if Slept(i + 1, c.sleepCapMs, w) <= c.maxWaitMs {
        ClockKept(c, s, i + 1, start, w);
      }
    }
    OnTimeNext(c, s, i, waited, start, w);
  }

  lemma OnTimeNext(c: Client, s: Store, i: nat, waited: nat, start: int, w: nat)
    requires Alone(c) && Sound(c.policy, s, start) && CallScript(c.policy, s, c.key, start).1 == Denied(w)
    requires c.world.clock(i) == start + waited && waited <= w && waited <= c.maxWaitMs
    requires waited < w && waited + Nap(w - waited, c.sleepCapMs) <= c.maxWaitMs ==>
               OnTime(c, s, i + 1, waited + Nap(w - waited, c.sleepCapMs), start)
    ensures OnTime(c, s, i, waited, start)
  {
    AnsweredAlone(c, s, i, waited, start, w);
  }

  lemma SleptNext(k: nat, cap: nat, w: nat)
    requires cap > 0 && Slept(k, cap, w) < w
    ensures Slept(k + 1, cap, w) == Slept(k, cap, w) + Nap(w - Slept(k, cap, w), cap)
  {}

  /** Such acquires exist: whenever a client's call is denied there is a clock that advances by its naps. */
  lemma UndisturbedExists(c: Client, s: Store, w: nat) returns (quiet: Client)
    requires Ready(c) && c.policy(SiteOf(c.key)).burst > 0 && c.policy(SiteOf(c.key)).globalBurst > 0
    requires Sound(c.policy, s, c.world.clock(0))
    requires CallScript(c.policy, s, c.key, c.world.clock(0)).1 == Denied(w)
    ensures quiet == c.(world := quiet.world) && quiet.world.clock(0) == c.world.clock(0) && Undisturbed(quiet, s)
  {
    var start, cap := c.world.clock(0), c.sleepCapMs;
    quiet := c.(world := World((i: nat) => [], (k: nat) => start + Slept(k, cap, w)));
    ClockKept(quiet, s, 0, start, w);
  }

  // ----- what an acquire takes -----

  /** Everything that happens to the store during an acquire: the others' events and its own calls. */
  ghost function Trace(c: Client, s: Store, i: nat, waited: nat): seq<Event>
    requires Ready(c) && waited <= c.maxWaitMs
    decreases c.maxWaitMs - waited
  {
    var (s', reply) := Answered(c, s, i);
    var own := c.world.others(i) + [Call(c.key, c.world.clock(i))];
    if Persists(c, s, i, waited) then own + Trace(c, s', i + 1, waited + Nap(reply.waitMs, c.sleepCapMs)) else own
  }

  /** The acquire's own calls: the store each one met, and when. */
  datatype OwnCall = OwnCall(met: Store, now: int)

  ghost function OwnCalls(c: Client, s: Store, i: nat, waited: nat): seq<OwnCall>
    requires Ready(c) && waited <= c.maxWaitMs
    decreases c.maxWaitMs - waited
  {
    var (s', reply) := Answered(c, s, i);
    var own := [OwnCall(Met(c, s, i), c.world.clock(i))];
    if Persists(c, s, i, waited) then own + OwnCalls(c, s', i + 1, waited + Nap(reply.waitMs, c.sleepCapMs)) else own
  }

  lemma RunOwn(policy: Lookup, s: Store, others: seq<Event>, key: string, now: int, from: int)
    requires Usable(policy)
    ensures var own := others + [Call(key, now)];
            && Run(policy, s, own) == CallScript(policy, Run(policy, s, others), key, now).0
            && (Legal(policy, s, own, from) <==> Legal(policy, s, others, from) && EndTime(others, from) <= now)
  {
    var call := [Call(key, now)];
    RunConcat(policy, s, others, call, from);
    assert call[1..] == [];
  }

  /** The acquire is one run of the limiter: the store it leaves is that of its trace, its calls before the
      last are denied and change nothing, and the last one is granted exactly if the acquire is. */
  lemma {:induction false} AcquireIsItsTrace(c: Client, s: Store, i: nat, waited: nat)
    requires Ready(c) && waited <= c.maxWaitMs
    ensures var o, calls := AcquireFrom(c, s, i, waited), OwnCalls(c, s, i, waited);
            && o.store == Run(c.policy, s, Trace(c, s, i, waited))
            && |calls| == o.calls - i && |calls| > 0
            && (forall k :: 0 <= k < |calls| - 1 ==> Refused(c, calls[k]))
            && (o.granted <==> !Refused(c, calls[|calls| - 1]))
            && o.store == CallScript(c.policy, calls[|calls| - 1].met, c.key, calls[|calls| - 1].now).0
    decreases c.maxWaitMs - waited
  {
    var (s', reply) := Answered(c, s, i);
    var others, now := c.world.others(i), c.world.clock(i);
    RunOwn(c.policy, s, others, c.key, now, 0);
    if Persists(c, s, i, waited) {
      var waited' := waited + Nap(reply.waitMs, c.sleepCapMs);
      AcquireIsItsTrace(c, s', i + 1, waited');
      RunConcat(c.policy, s, others + [Call(c.key, now)], Trace(c, s', i + 1, waited'), 0);
      var rest := OwnCalls(c, s', i + 1, waited');
      assert OwnCalls(c, s, i, waited) == [OwnCall(Met(c, s, i), now)] + rest;
    }
  }

  /** A call that was denied, and so left the store as it met it. */
  ghost predicate Refused(c: Client, a: OwnCall)
    requires Ready(c)
  {
    var (after, reply) := CallScript(c.policy, a.met, c.key, a.now);
    reply.Denied? && after == a.met
  }

  /** What the acquire's own calls took out of a bucket, in units. */
  ghost function Taken(c: Client, calls: seq<OwnCall>, b: BucketKey): int
    requires Ready(c)
  {
    if calls == [] then 0
    else
      var a, lim := calls[0], LimitOf(c.policy, b);
      Level(a.met, b, lim, a.now) - Level(CallScript(c.policy, a.met, c.key, a.now).0, b, lim, a.now) +
      Taken(c, calls[1..], b)
  }

  /** Exactly one token or none: with time not going back and keys expiring only after their TTL, the
      acquire's own calls take one token from its tenant's bucket and one from its site's if it is
      granted, none if it is not, and nothing from any other bucket. */
  lemma {:induction false} AcquireTakesOneOrNone(c: Client, s: Store, i: nat, waited: nat, from: int, b: BucketKey)
    requires Ready(c) && waited <= c.maxWaitMs
    requires Sound(c.policy, s, from) && Legal(c.policy, s, Trace(c, s, i, waited), from)
    ensures Taken(c, OwnCalls(c, s, i, waited), b) ==
            if AcquireFrom(c, s, i, waited).granted && Touches(c.key, b) then TOKEN else 0
    decreases c.maxWaitMs - waited
  {
    var (s', reply) := Answered(c, s, i);
    var now := c.world.clock(i);
    TraceStep(c, s, i, waited, from);
    OwnCallTakes(c, s, i, from, b);
    AcquireStep(c, s, i, waited);
    if Persists(c, s, i, waited) {
      var waited' := waited + Nap(reply.waitMs, c.sleepCapMs);
      AcquireTakesOneOrNone(c, s', i + 1, waited', now, b);
      TakenMore(c, OwnCall(Met(c, s, i), now), OwnCalls(c, s', i + 1, waited'), b);
    }
  }

  lemma AcquireStep(c: Client, s: Store, i: nat, waited: nat)
    requires Ready(c) && waited <= c.maxWaitMs
    ensures var (s', reply) := Answered(c, s, i);
            var first := [OwnCall(Met(c, s, i), c.world.clock(i))];
            if Persists(c, s, i, waited) then
              var waited' := waited + Nap(reply.waitMs, c.sleepCapMs);
              && AcquireFrom(c, s, i, waited) == AcquireFrom(c, s', i + 1, waited')
              && OwnCalls(c, s, i, waited) == first + OwnCalls(c, s', i + 1, waited')
            else AcquireFrom(c, s, i, waited).granted == reply.Granted? && OwnCalls(c, s, i, waited) == first
  {}

  /** The first turn of a legal trace is legal, and so is the rest of it. */
  lemma TraceStep(c: Client, s: Store, i: nat, waited: nat, from: int)
    requires Ready(c) && waited <= c.maxWaitMs && Legal(c.policy, s, Trace(c, s, i, waited), from)
    ensures Legal(c.policy, s, c.world.others(i), from) && EndTime(c.world.others(i), from) <= c.world.clock(i)
    ensures Persists(c, s, i, waited) ==>
              var (s', reply) := Answered(c, s, i);
              Legal(c.policy, s', Trace(c, s', i + 1, waited + Nap(reply.waitMs, c.sleepCapMs)), c.world.clock(i))
  {
    var (s', reply) := Answered(c, s, i);
    var others, now := c.world.others(i), c.world.clock(i);
    RunOwn(c.policy, s, others, c.key, now, from);
    if Persists(c, s, i, waited) {
      var rest := Trace(c, s', i + 1, waited + Nap(reply.waitMs, c.sleepCapMs));
      RunConcat(c.policy, s, others + [Call(c.key, now)], rest, from);
    }
  }

  lemma TakenMore(c: Client, first: OwnCall, rest: seq<OwnCall>, b: BucketKey)
    requires Ready(c)
    ensures Taken(c, [first] + rest, b) == Taken(c, [first], b) + Taken(c, rest, b)
  {
    assert ([first] + rest)[1..] == rest && [first][1..] == [];
  }

  lemma OwnCallTakes(c: Client, s: Store, i: nat, from: int, b: BucketKey)
    requires Ready(c) && Sound(c.policy, s, from)
    requires Legal(c.policy, s, c.world.others(i), from) && EndTime(c.world.others(i), from) <= c.world.clock(i)
    ensures Sound(c.policy, Answered(c, s, i).0, c.world.clock(i))
    ensures Taken(c, [OwnCall(Met(c, s, i), c.world.clock(i))], b) ==
            if Answered(c, s, i).1.Granted? && Touches(c.key, b) then TOKEN else 0
  {
    var met, now := Met(c, s, i), c.world.clock(i);
    SoundAfter(c.policy, s, c.world.others(i), from);
    SoundLater(c.policy, met, EndTime(c.world.others(i), from), now);
    CallEffect(c.policy, met, c.key, now, b);
    ApplySound(c.policy, met, Call(c.key, now), now);
    assert [OwnCall(met, now)][1..] == [];
  }

  // ----- the limiter as it runs -----

  class RedisTokenBucket {
    const redis: Redis
    const policyLookup: Lookup
    const maxWaitMs: nat
    const sleepCapMs: nat

    constructor (redis: Redis, policyLookup: Lookup, maxWaitMs: nat, sleepCapMs: nat)
      ensures this.redis == redis && this.policyLookup == policyLookup
      ensures this.maxWaitMs == maxWaitMs && this.sleepCapMs == sleepCapMs
    {
      this.redis, this.policyLookup := redis, policyLookup;
      this.maxWaitMs, this.sleepCapMs := maxWaitMs, sleepCapMs;
    }

    ghost function ClientFor(key: string, world: World): Client {
      Client(policyLookup, key, maxWaitMs, sleepCapMs, world)
    }

    /** One script call, after whatever others did since the last one. */
    method Attempt(key: string, p: SitePolicy, world: World, i: nat) returns (allowed: bool, waitMs: nat)
      requires Ready(ClientFor(key, world)) && p == policyLookup(SiteOf(key))
      modifies redis
      ensures (redis.store, if allowed then Granted else Denied(waitMs)) ==
              Answered(ClientFor(key, world), old(redis.store), i)
    {
      redis.Interfere(policyLookup, world.others(i));
      allowed, waitMs := redis.Eval(TenantBucket(key), GlobalOf(key), Limit(p.rpm, p.burst),
                                    Limit(p.globalRpm, p.globalBurst), world.clock(i));
    }

    /** After a denial the nap is as long as the hint says, but at least 1 ms and at most the cap. */
    predicate Naps(reply: Reply, nap: int) {
      && reply.Denied?
      && nap == if sleepCapMs <= 1 || reply.waitMs > sleepCapMs then sleepCapMs
                else if reply.waitMs == 0 then 1 else reply.waitMs
    }

    /** One turn of the loop: the call, then the politeness delay, the end of patience, or a nap. */
    method Turn(key: string, p: SitePolicy, world: World, i: nat, waited: nat)
      returns (done: bool, granted: bool, waitedMs: nat, sleptMs: nat)
      requires Ready(ClientFor(key, world)) && p == policyLookup(SiteOf(key)) && waited <= maxWaitMs
      modifies redis
      ensures done ==> AcquireFrom(ClientFor(key, world), old(redis.store), i, waited) ==
                       Outcome(redis.store, granted, i + 1, sleptMs, waitedMs)
      ensures !done ==> Naps(Answered(ClientFor(key, world), old(redis.store), i).1, sleptMs - waited)
      ensures !done ==> waited < waitedMs <= maxWaitMs && sleptMs == waitedMs &&
                        AcquireFrom(ClientFor(key, world), old(redis.store), i, waited) ==
                        AcquireFrom(ClientFor(key, world), redis.store, i + 1, waitedMs)
    {
      var allowed, waitMs := Attempt(key, p, world, i);
      if allowed {
        return true, true, waited, waited + p.minDelayMs;
      }
      var nap := Nap(waitMs, sleepCapMs);
      if waited + nap > maxWaitMs {
        return true, false, waited + nap, waited;
      }
      return false, false, waited + nap, waited + nap;
    }

    method Acquire(key: string, world: World) returns (granted: bool, calls: nat, sleptMs: nat)
      requires Ready(ClientFor(key, world))
      modifies redis
      ensures var o := AcquireFrom(ClientFor(key, world), old(redis.store), 0, 0);
              redis.store == o.store && granted == o.granted && calls == o.calls && sleptMs == o.sleptMs
      ensures var c, store := ClientFor(key, world), old(redis.store);
              Undisturbed(c, store) && Answered(c, store, 0).1.Denied? ==>
                var w := Answered(c, store, 0).1.waitMs;
                (granted <==> w <= maxWaitMs) && (granted ==> sleptMs == w + policyLookup(SiteOf(key)).minDelayMs)
    {
      if Undisturbed(ClientFor(key, world), redis.store) && Answered(ClientFor(key, world), redis.store, 0).1.Denied? {
        UndisturbedAcquire(ClientFor(key, world), redis.store,
                           Answered(ClientFor(key, world), redis.store, 0).1.waitMs);
      }
      var p := policyLookup(SiteOf(key));
      var waited: nat := 0;
      calls, sleptMs := 0, 0;
      ghost var goal := AcquireFrom(ClientFor(key, world), redis.store, 0, 0);
      while true
        invariant waited <= maxWaitMs
        invariant AcquireFrom(ClientFor(key, world), redis.store, calls, waited) == goal
        decreases maxWaitMs - waited
      {
        var done;
        done, granted, waited, sleptMs := Turn(key, p, world, calls, waited);
        calls := calls + 1;
        if done {
          return;
        }
      }
    }
  }
}
