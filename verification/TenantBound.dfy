/** When the window bound holds for one tenant's bucket, exactly: the site-wide bucket, which every call of
    the tenant draws on too, can make expiries harmless that its own refill does not. */
module TenantBound {
  import opened Arithmetic
  import opened Policies
  import opened TokenBucket

  // ----- rounds that earn more than the refill -----

  /** `n` calls of one key, one every `gap` milliseconds. */
  function Paced(key: string, at: int, n: nat, gap: nat): seq<Event>
    decreases n
  { if n == 0 then [] else [Call(key, at)] + Paced(key, at + gap, n - 1, gap) }

  /** When the last of them is made. */
  function LastCall(at: int, n: nat, gap: nat): int
    decreases n
  { if n <= 1 then at else LastCall(at + gap, n - 1, gap) }

  /** The level that `n` such calls need to be all granted, when a gap refills `refill` units. */
  function Need(n: nat, refill: nat): int { if n <= 1 then TOKEN else Need(n - 1, refill) + TOKEN - refill }

  lemma {:induction false} LastCallAt(at: int, n: nat, gap: nat)
    requires n > 0
    ensures LastCall(at, n, gap) == at + (n - 1) * gap
    decreases n
  {
    if n > 1 {
      LastCallAt(at + gap, n - 1, gap);
      assert (n - 1) * gap == (n - 2) * gap + gap;
    }
  }

  lemma {:induction false} LastCallLater(at: int, later: int, n: nat, gap: nat)
    ensures LastCall(at, n, gap) - at == LastCall(later, n, gap) - later
    decreases n
  {
    if n > 1 {
      LastCallLater(at + gap, later + gap, n - 1, gap);
    }
  }

  lemma {:induction false} NeedIs(n: nat, refill: nat)
    requires n > 0
    ensures Need(n, refill) == n * TOKEN - (n - 1) * refill
  {
    if n > 1 {
      NeedIs(n - 1, refill);
      assert (n - 1) * refill == (n - 2) * refill + refill;
    }
  }

  ghost function TenantLimit(policy: Lookup, key: string): Limit { LimitOf(policy, TenantBucket(key)) }

  ghost function SiteLimit(policy: Lookup, key: string): Limit { LimitOf(policy, GlobalOf(key)) }

  /** What the site-wide bucket must hold for them: all at once, or one more each gap. */
  predicate SiteNeed(level: int, rpm: nat, n: nat, gap: nat) {
    if gap == 0 then n * TOKEN <= level else TOKEN <= level && TOKEN <= gap * rpm
  }

  /** Nobody but this tenant has called, and both buckets hold enough for `n` calls from `now` on. */
  ghost predicate Supplied(policy: Lookup, s: Store, key: string, now: int, n: nat, gap: nat) {
    && n > 0 && Sound(policy, s, now) && s.Keys <= {TenantBucket(key), GlobalOf(key)}
    && gap * TenantLimit(policy, key).rpm <= TOKEN
    && Need(n, gap * TenantLimit(policy, key).rpm) <= Level(s, TenantBucket(key), TenantLimit(policy, key), now)
    && SiteNeed(Level(s, GlobalOf(key), SiteLimit(policy, key), now), SiteLimit(policy, key).rpm, n, gap)
  }

  lemma {:induction false} NeedAtLeast(n: nat, refill: nat)
    requires refill <= TOKEN
    ensures Need(n, refill) >= TOKEN
  {
    if n > 1 {
      NeedAtLeast(n - 1, refill);
    }
  }

  /** The first of the calls is granted, and a gap later the rest can be. */
  lemma PacedCall(policy: Lookup, s: Store, key: string, now: int, n: nat, gap: nat)
    requires Usable(policy) && Supplied(policy, s, key, now, n, gap)
    ensures var t, g, e := TenantBucket(key), GlobalOf(key), Call(key, now);
            var s' := Apply(policy, s, e);
            && GrantOf(policy, s, e, t) == 1 && Sound(policy, s', now)
            && s'.Keys == {t, g} && s'[t].ts == now && s'[g].ts == now
            && (n > 1 ==> Supplied(policy, s', key, now + gap, n - 1, gap))
  {
    var t, g := TenantBucket(key), GlobalOf(key);
    var tl, gl := TenantLimit(policy, key), SiteLimit(policy, key);
    NeedAtLeast(n, gap * tl.rpm);
    CallEffect(policy, s, key, now, t);
    CallEffect(policy, s, key, now, g);
    ApplySound(policy, s, Call(key, now), now);
    var s' := Apply(policy, s, Call(key, now));
    SoundLater(policy, s', now, now + gap);
    LevelInRange(policy, s, t, now);
    LevelInRange(policy, s, g, now);
    LevelLater(s', t, tl, now, now + gap);
    LevelLater(s', g, gl, now, now + gap);
  }

  /** All of them are granted. */
  lemma {:induction false} PacedGranted(policy: Lookup, s: Store, key: string, now: int, n: nat, gap: nat)
    requires Usable(policy) && Supplied(policy, s, key, now, n, gap)
    ensures var t, g, es := TenantBucket(key), GlobalOf(key), Paced(key, now, n, gap);
            var last, r := LastCall(now, n, gap), Run(policy, s, es);
            && Grants(policy, s, es, t) == n && Legal(policy, s, es, now) && EndTime(es, now) == last
            && Sound(policy, r, last) && r.Keys == {t, g} && r[t].ts == last && r[g].ts == last
    decreases n
  {
    var es, rest := Paced(key, now, n, gap), Paced(key, now + gap, n - 1, gap);
    var s' := Apply(policy, s, Call(key, now));
    assert es[0] == Call(key, now) && es[1..] == rest;
    PacedCall(policy, s, key, now, n, gap);
    FirstOfRun(policy, s, es, TenantBucket(key), now);
    if n == 1 {
      assert rest == [] && Run(policy, s', rest) == s';
    } else {
      PacedGranted(policy, s', key, now + gap, n - 1, gap);
      LegalSooner(policy, s', rest, now, now + gap);
    }
  }

  lemma LegalSooner(policy: Lookup, s: Store, es: seq<Event>, from: int, later: int)
    requires Usable(policy) && from <= later && Legal(policy, s, es, later)
    ensures Legal(policy, s, es, from)
  {}

  /** Both buckets expire. */
  function Expiries(key: string, at: int): seq<Event> { [Expire(TenantBucket(key), at), Expire(GlobalOf(key), at)] }

  lemma ExpiriesClear(policy: Lookup, s: Store, key: string, from: int, at: int)
    requires Usable(policy) && from <= at && s.Keys == {TenantBucket(key), GlobalOf(key)}
    requires s[TenantBucket(key)].ts + TTL_MS <= at && s[GlobalOf(key)].ts + TTL_MS <= at
    ensures var es := Expiries(key, at);
            && Legal(policy, s, es, from) && Run(policy, s, es) == map[]
            && Grants(policy, s, es, TenantBucket(key)) == 0 && EndTime(es, from) == at
  {
    var t, g, es := TenantBucket(key), GlobalOf(key), Expiries(key, at);
    var s1 := s - {t};
    var s2 := s1 - {g};
    assert s2 == map[];
    assert es[1..] == [Expire(g, at)] && es[1..][1..] == [];
    assert Apply(policy, s, es[0]) == s1 && Apply(policy, s1, es[1]) == s2;
    assert Run(policy, s1, es[1..]) == Run(policy, s2, []) == s2;
    assert Grants(policy, s1, es[1..], t) == GrantOf(policy, s1, es[1], t) + Grants(policy, s2, [], t) == 0;
  }

  /** A round: paced calls on fresh buckets, then a TTL without any. */
  function Round(key: string, at: int, n: nat, gap: nat): seq<Event> {
    Paced(key, at, n, gap) + Expiries(key, LastCall(at, n, gap) + TTL_MS)
  }

  lemma RoundGranted(policy: Lookup, key: string, at: int, n: nat, gap: nat)
    requires Usable(policy) && Supplied(policy, map[], key, at, n, gap)
    ensures var es := Round(key, at, n, gap);
            && Legal(policy, map[], es, at) && Run(policy, map[], es) == map[]
            && Grants(policy, map[], es, TenantBucket(key)) == n
            && es != [] && es[0].now == at && EndTime(es, at) == LastCall(at, n, gap) + TTL_MS
  {
    var calls, last := Paced(key, at, n, gap), LastCall(at, n, gap);
    PacedGranted(policy, map[], key, at, n, gap);
    var s := Run(policy, map[], calls);
    ExpiriesClear(policy, s, key, last, last + TTL_MS);
    Joined(policy, map[], calls, Expiries(key, last + TTL_MS), at, TenantBucket(key));
    RunConcat(policy, map[], calls, Expiries(key, last + TTL_MS), at);
    assert calls[0] == Call(key, at);
  }

  function Rounds(key: string, at: int, n: nat, gap: nat, k: nat): seq<Event>
    decreases k
  { if k == 0 then [] else Round(key, at, n, gap) + Rounds(key, LastCall(at, n, gap) + TTL_MS, n, gap, k - 1) }

  lemma FreshSupply(policy: Lookup, key: string, at: int, later: int, n: nat, gap: nat)
    requires Supplied(policy, map[], key, at, n, gap)
    ensures Supplied(policy, map[], key, later, n, gap)
  {}

  /** A run from an empty store that leaves it empty, with its grants to the tenant and its length. */
  ghost predicate Yields(policy: Lookup, key: string, es: seq<Event>, at: int, grants: int, length: int)
    requires Usable(policy)
  {
    && Legal(policy, map[], es, at) && Run(policy, map[], es) == map[]
    && Grants(policy, map[], es, TenantBucket(key)) == grants && EndTime(es, at) == at + length
  }

  function Times(k: nat, x: int): int { if k == 0 then 0 else x + Times(k - 1, x) }

  lemma {:induction false} TimesIs(k: nat, x: int)
    ensures Times(k, x) == k * x
  {
    if k > 0 {
      TimesIs(k - 1, x);
      assert k * x == x + (k - 1) * x;
    }
  }

  /** `k` rounds, one after the other. */
  lemma {:induction false} RoundsGranted(policy: Lookup, key: string, at: int, n: nat, gap: nat, k: nat, d: nat)
    requires Usable(policy) && Supplied(policy, map[], key, at, n, gap) && LastCall(0, n, gap) + TTL_MS == d
    ensures Yields(policy, key, Rounds(key, at, n, gap, k), at, Times(k, n), Times(k, d))
    decreases k
  {
    if k == 0 {
      YieldsNothing(policy, key, at);
    } else {
      var first, rest := Round(key, at, n, gap), Rounds(key, at + d, n, gap, k - 1);
      LastCallLater(0, at, n, gap);
      RoundGranted(policy, key, at, n, gap);
      FreshSupply(policy, key, at, at + d, n, gap);
      RoundsGranted(policy, key, at + d, n, gap, k - 1, d);
      YieldsBoth(policy, key, first, rest, at, n, d, Times(k - 1, n), Times(k - 1, d));
    }
  }

  lemma YieldsNothing(policy: Lookup, key: string, at: int)
    requires Usable(policy)
    ensures Yields(policy, key, [], at, 0, 0)
  {}

  lemma YieldsBoth(policy: Lookup, key: string, first: seq<Event>, rest: seq<Event>, at: int,
                   grants: int, length: int, more: int, longer: int)
    requires Usable(policy) && first != []
    requires Yields(policy, key, first, at, grants, length) && Yields(policy, key, rest, at + length, more, longer)
    ensures Yields(policy, key, first + rest, at, grants + more, length + longer)
  {
    Chained(policy, first, rest, at, TenantBucket(key));
  }

  /** Two runs from an empty store, the first of which leaves it empty. */
  lemma Chained(policy: Lookup, first: seq<Event>, rest: seq<Event>, at: int, b: BucketKey)
    requires Usable(policy) && first != [] && Legal(policy, map[], first, at) && Run(policy, map[], first) == map[]
    requires Legal(policy, map[], rest, EndTime(first, at))
    ensures Legal(policy, map[], first + rest, at) && Run(policy, map[], first + rest) == Run(policy, map[], rest)
    ensures Grants(policy, map[], first + rest, b) == Grants(policy, map[], first, b) + Grants(policy, map[], rest, b)
    ensures EndTime(first + rest, at) == EndTime(rest, EndTime(first, at))
  {
    Joined(policy, map[], first, rest, at, b);
    RunConcat(policy, map[], first, rest, at);
  }

  /** If a round earns more tokens than its time refills, enough rounds exceed every window bound. */
  lemma RoundsExceed(policy: Lookup, key: string, n: nat, gap: nat)
    requires Usable(policy) && Supplied(policy, map[], key, 0, n, gap)
    requires n * TOKEN > TenantLimit(policy, key).rpm * ((n - 1) * gap + TTL_MS)
    ensures !Bounded(policy, TenantBucket(key))
  {
    var grants, length := ManyRounds(TenantLimit(policy, key), n, (n - 1) * gap + TTL_MS);
    var window := SomeRounds(policy, key, n, gap, TenantLimit(policy, key).burst * TOKEN + 1, grants, length);
    Breaks(policy, TenantBucket(key), window, grants, length);
  }

  lemma SomeRounds(policy: Lookup, key: string, n: nat, gap: nat, k: nat, grants: nat, length: nat)
    returns (window: seq<Event>)
    requires Usable(policy) && Supplied(policy, map[], key, 0, n, gap) && k > 0
    requires grants == k * n && length == k * ((n - 1) * gap + TTL_MS)
    ensures window != [] && Legal(policy, map[], window, 0) && window[0].now == 0
    ensures Grants(policy, map[], window, TenantBucket(key)) == grants && EndTime(window, 0) == length
  {
    LastCallAt(0, n, gap);
    TimesIs(k, n);
    TimesIs(k, (n - 1) * gap + TTL_MS);
    RoundsGranted(policy, key, 0, n, gap, k, (n - 1) * gap + TTL_MS);
    RoundGranted(policy, key, 0, n, gap);
    window := Rounds(key, 0, n, gap, k);
  }

  /** A window from an empty store that hands out too much. */
  lemma Breaks(policy: Lookup, b: BucketKey, window: seq<Event>, grants: nat, length: nat)
    requires Usable(policy) && window != [] && Legal(policy, map[], window, 0) && window[0].now == 0
    requires Grants(policy, map[], window, b) == grants && EndTime(window, 0) == length
    requires grants * TOKEN > LimitOf(policy, b).burst * TOKEN + length * LimitOf(policy, b).rpm
    ensures !Bounded(policy, b)
  {
    var none: seq<Event> := [];
    assert none + window + none == window && Run(policy, map[], none) == map[];
    assert Legal(policy, map[], none + window + none, 0);
    assert Grants(policy, Run(policy, map[], none), window, b) * TOKEN > Budget(LimitOf(policy, b), window);
  }

  lemma ManyRounds(lim: Limit, n: nat, d: nat) returns (grants: nat, length: nat)
    requires n * TOKEN > lim.rpm * d
    ensures grants == (lim.burst * TOKEN + 1) * n && length == (lim.burst * TOKEN + 1) * d
    ensures grants * TOKEN > lim.burst * TOKEN + length * lim.rpm
  {
    var k := lim.burst * TOKEN + 1;
    grants, length := k * n, k * d;
    ManyExceed(lim.burst * TOKEN, n * TOKEN, lim.rpm * d);
    assert k * n * TOKEN == k * (n * TOKEN);
    assert k * d * lim.rpm == k * (lim.rpm * d);
  }

  lemma ManyExceed(slack: nat, earned: nat, refilled: nat)
    requires earned > refilled
    ensures (slack + 1) * earned > slack + (slack + 1) * refilled
  {
    MulMonotone(refilled + 1, earned, slack + 1);
  }

  // ----- a site that refills no faster than its tenants -----

  /** The tenant's shortfall at `now`. */
  ghost function Missing(policy: Lookup, s: Store, key: string, now: int): int {
    TenantLimit(policy, key).burst * TOKEN - Level(s, TenantBucket(key), TenantLimit(policy, key), now)
  }

  /** What of the site's shortfall at its last grant the tenant's refill has not made up for by `now`. */
  ghost function Shadow(policy: Lookup, s: Store, key: string, now: int): int {
    var g := GlobalOf(key);
    if g !in s then 0
    else
      Max(0, SiteLimit(policy, key).burst * TOKEN - s[g].tok - (now - s[g].ts) * TenantLimit(policy, key).rpm)
  }

  /** The tenant's bucket never lacks more than the site's does. */
  ghost predicate Shadowed(policy: Lookup, s: Store, key: string, now: int) {
    var t, tl := TenantBucket(key), TenantLimit(policy, key);
    && Missing(policy, s, key, now) <= Shadow(policy, s, key, now)
    && (t in s ==> tl.burst * TOKEN - s[t].tok <= SiteLimit(policy, key).burst * TOKEN)
  }

  /** The site refills no faster than the tenant, and its burst within a TTL at that rate. */
  ghost predicate SlowSite(policy: Lookup, key: string) {
    && SiteLimit(policy, key).rpm <= TenantLimit(policy, key).rpm
    && SiteLimit(policy, key).burst <= 5 * TenantLimit(policy, key).rpm
  }

  lemma ShadowLater(policy: Lookup, s: Store, key: string, now: int, later: int)
    requires Sound(policy, s, now) && now <= later && Shadowed(policy, s, key, now)
    ensures Shadowed(policy, s, key, later)
  {
    var gained := (later - now) * TenantLimit(policy, key).rpm;
    MulMonotone(0, later - now, TenantLimit(policy, key).rpm);
    MissingLater(policy, s, key, now, later, gained);
    ShadowShrinks(policy, s, key, now, later, gained);
  }

  lemma MissingLater(policy: Lookup, s: Store, key: string, now: int, later: int, gained: int)
    requires Sound(policy, s, now) && now <= later && gained == (later - now) * TenantLimit(policy, key).rpm
    ensures Missing(policy, s, key, later) == Max(0, Missing(policy, s, key, now) - gained)
  {
    LevelLater(s, TenantBucket(key), TenantLimit(policy, key), now, later);
  }

  lemma ShadowShrinks(policy: Lookup, s: Store, key: string, now: int, later: int, gained: int)
    requires now <= later && gained == (later - now) * TenantLimit(policy, key).rpm && gained >= 0
    ensures Shadow(policy, s, key, later) == Max(0, Shadow(policy, s, key, now) - gained)
  {
    if GlobalOf(key) in s {
      SplitTime(s[GlobalOf(key)].ts, now, later, TenantLimit(policy, key).rpm);
    }
  }

  /** The site's shortfall is at least the shadow. */
  lemma ShadowWithin(policy: Lookup, s: Store, key: string, now: int)
    requires Sound(policy, s, now) && SlowSite(policy, key)
    ensures Shadow(policy, s, key, now) <=
            SiteLimit(policy, key).burst * TOKEN - Level(s, GlobalOf(key), SiteLimit(policy, key), now)
  {
    var g := GlobalOf(key);
    if g in s {
      var dt := now - s[g].ts;
      assert dt * SiteLimit(policy, key).rpm <= dt * TenantLimit(policy, key).rpm by {
        ProductMonotone(dt, SiteLimit(policy, key).rpm, TenantLimit(policy, key).rpm);
      }
    }
  }

  lemma ProductMonotone(m: nat, a: nat, b: nat)
    requires a <= b
    ensures m * a <= m * b
  {}

  /** What a granted call writes. */
  lemma CallWrites(policy: Lookup, s: Store, key: string, now: int)
    requires Usable(policy)
    ensures var t, g, (s', reply) := TenantBucket(key), GlobalOf(key), CallScript(policy, s, key, now);
            if reply.Denied? then s' == s
            else
              && s' == s[t := s'[t]][g := s'[g]]
              && s'[t] == Bucket(Level(s, t, LimitOf(policy, t), now) - TOKEN, now)
              && s'[g] == Bucket(Level(s, g, LimitOf(policy, g), now) - TOKEN, now)
              && Level(s, g, LimitOf(policy, g), now) >= TOKEN
  {}

  /** Right after a grant the shadow is the whole shortfall of the site. */
  lemma FreshShadow(policy: Lookup, s: Store, key: string, now: int)
    requires GlobalOf(key) in s && s[GlobalOf(key)].ts == now
    ensures Shadow(policy, s, key, now) == Max(0, SiteLimit(policy, key).burst * TOKEN - s[GlobalOf(key)].tok)
  {}

  /** A call of the tenant itself. */
  lemma OwnCallShadowed(policy: Lookup, s: Store, key: string, now: int)
    requires Usable(policy) && Sound(policy, s, now) && SlowSite(policy, key) && Shadowed(policy, s, key, now)
    ensures Shadowed(policy, Apply(policy, s, Call(key, now)), key, now)
  {
    var (s', reply) := CallScript(policy, s, key, now);
    CallWrites(policy, s, key, now);
    if reply.Granted? {
      ShadowWithin(policy, s, key, now);
      CallEffect(policy, s, key, now, TenantBucket(key));
      FreshShadow(policy, s', key, now);
    }
  }

  /** A call of another tenant of the site. */
  lemma NeighbourShadowed(policy: Lookup, s: Store, key: string, other: string, now: int)
    requires Usable(policy) && Sound(policy, s, now) && SlowSite(policy, key) && Shadowed(policy, s, key, now)
    requires other != key && GlobalOf(other) == GlobalOf(key)
    ensures Shadowed(policy, CallScript(policy, s, other, now).0, key, now)
  {
    var (s', reply) := CallScript(policy, s, other, now);
    CallWrites(policy, s, other, now);
    if reply.Granted? {
      ShadowWithin(policy, s, key, now);
      CallEffect(policy, s, other, now, TenantBucket(key));
      FreshShadow(policy, s', key, now);
    }
  }

  lemma SameShadow(policy: Lookup, s: Store, s': Store, key: string, now: int)
    requires Shadowed(policy, s, key, now)
    requires forall b :: b == TenantBucket(key) || b == GlobalOf(key) ==>
      (b in s <==> b in s') && (b in s ==> s'[b] == s[b])
    ensures Shadowed(policy, s', key, now)
  {
    var t, g := TenantBucket(key), GlobalOf(key);
    assert (t in s <==> t in s') && (g in s <==> g in s');
  }

  /** A call of any other tenant. */
  lemma OtherCallShadowed(policy: Lookup, s: Store, key: string, other: string, now: int)
    requires Usable(policy) && Sound(policy, s, now) && SlowSite(policy, key) && Shadowed(policy, s, key, now)
    requires other != key
    ensures Shadowed(policy, CallScript(policy, s, other, now).0, key, now)
  {
    if GlobalOf(other) == GlobalOf(key) {
      NeighbourShadowed(policy, s, key, other, now);
    } else {
      CallWrites(policy, s, other, now);
      SameShadow(policy, s, CallScript(policy, s, other, now).0, key, now);
    }
  }

  /** The site's expiry: by then the tenant lacks nothing. */
  lemma SiteExpiryShadowed(policy: Lookup, s: Store, key: string, now: int)
    requires Sound(policy, s, now) && SlowSite(policy, key) && Shadowed(policy, s, key, now)
    requires GlobalOf(key) in s ==> s[GlobalOf(key)].ts + TTL_MS <= now
    ensures Shadowed(policy, s - {GlobalOf(key)}, key, now)
  {
    var g := GlobalOf(key);
    if g in s {
      MulMonotone(TTL_MS, now - s[g].ts, TenantLimit(policy, key).rpm);
    }
  }

  /** The tenant's expiry does not show. */
  lemma TenantExpiryHidden(policy: Lookup, s: Store, key: string, now: int)
    requires Sound(policy, s, now) && SlowSite(policy, key) && Shadowed(policy, s, key, now)
    requires TenantBucket(key) in s ==> s[TenantBucket(key)].ts + TTL_MS <= now
    ensures var t, tl := TenantBucket(key), TenantLimit(policy, key); Level(s - {t}, t, tl, now) == Level(s, t, tl, now)
    ensures Shadowed(policy, s - {TenantBucket(key)}, key, now)
  {
    var t := TenantBucket(key);
    if t in s {
      MulMonotone(TTL_MS, now - s[t].ts, TenantLimit(policy, key).rpm);
    }
  }

  lemma EventShadowed(policy: Lookup, s: Store, e: Event, from: int, key: string)
    requires Usable(policy) && Sound(policy, s, from) && from <= e.now && SlowSite(policy, key)
    requires Shadowed(policy, s, key, from)
    requires e.Expire? && e.bucket in s ==> s[e.bucket].ts + TTL_MS <= e.now
    ensures Shadowed(policy, Apply(policy, s, e), key, e.now)
    ensures var t, tl := TenantBucket(key), TenantLimit(policy, key);
            e.Expire? ==> Level(Apply(policy, s, e), t, tl, e.now) == Level(s, t, tl, e.now)
  {
    ShadowLater(policy, s, key, from, e.now);
    SoundLater(policy, s, from, e.now);
    match e {
      case Call(other, now) =>
        if other == key {
          OwnCallShadowed(policy, s, key, now);
        } else {
          OtherCallShadowed(policy, s, key, other, now);
        }
      case Expire(b, now) =>
        if b == TenantBucket(key) {
          TenantExpiryHidden(policy, s, key, now);
        } else if b == GlobalOf(key) {
          SiteExpiryShadowed(policy, s, key, now);
        }
    }
  }

  /** The budget argument again, for the shadowed bucket. */
  lemma {:induction false} ShadowBudget(policy: Lookup, s: Store, es: seq<Event>, from: int, key: string)
    requires Usable(policy) && Sound(policy, s, from) && Legal(policy, s, es, from) && SlowSite(policy, key)
    requires Shadowed(policy, s, key, from)
    ensures var t, lim := TenantBucket(key), TenantLimit(policy, key);
            Grants(policy, s, es, t) * TOKEN + Level(Run(policy, s, es), t, lim, EndTime(es, from))
            <= Level(s, t, lim, from) + (EndTime(es, from) - from) * lim.rpm
    ensures Sound(policy, Run(policy, s, es), EndTime(es, from)) && from <= EndTime(es, from)
    ensures Shadowed(policy, Run(policy, s, es), key, EndTime(es, from))
    decreases |es|
  {
    if es != [] {
      var e, t := es[0], TenantBucket(key);
      EventShadowed(policy, s, e, from, key);
      EventBudgetUnless(policy, s, e, from, t);
      ApplySound(policy, s, e, from);
      ShadowBudget(policy, Apply(policy, s, e), es[1..], e.now, key);
      assert EndTime(es[1..], e.now) == EndTime(es, from);
      assert Grants(policy, s, es, t) == GrantOf(policy, s, e, t) + Grants(policy, Apply(policy, s, e), es[1..], t);
      SplitTime(from, e.now, EndTime(es, from), TenantLimit(policy, key).rpm);
    }
  }

  lemma ShadowWindow(policy: Lookup, key: string, pre: seq<Event>, window: seq<Event>, post: seq<Event>, from: int)
    requires Usable(policy) && SlowSite(policy, key) && window != [] && Legal(policy, map[], pre + window + post, from)
    ensures Grants(policy, Run(policy, map[], pre), window, TenantBucket(key)) * TOKEN
            <= Budget(TenantLimit(policy, key), window)
  {
    RunConcat(policy, map[], pre + window, post, from);
    RunConcat(policy, map[], pre, window, from);
    var s, now := Run(policy, map[], pre), window[0].now;
    ShadowBudget(policy, map[], pre, from, key);
    SoundLater(policy, s, EndTime(pre, from), now);
    ShadowLater(policy, s, key, EndTime(pre, from), now);
    assert Legal(policy, s, window, now);
    ShadowBudget(policy, s, window, now, key);
    LevelInRange(policy, s, TenantBucket(key), now);
    LevelInRange(policy, Run(policy, s, window), TenantBucket(key), EndTime(window, now));
  }

  /** At a slow site every tenant's window bound holds, however large the tenant's burst. */
  lemma SlowSiteBounds(policy: Lookup, key: string)
    requires Usable(policy) && SlowSite(policy, key)
    ensures Bounded(policy, TenantBucket(key))
  {
    forall pre: seq<Event>, window: seq<Event>, post: seq<Event>, from: int |
      window != [] && Legal(policy, map[], pre + window + post, from)
      ensures Grants(policy, Run(policy, map[], pre), window, TenantBucket(key)) * TOKEN
              <= Budget(TenantLimit(policy, key), window)
    {
      ShadowWindow(policy, key, pre, window, post, from);
    }
  }

  // ----- the condition -----

  lemma RefillBounds(policy: Lookup, b: BucketKey)
    requires Usable(policy) && RefillsWithinTtl(LimitOf(policy, b))
    ensures Bounded(policy, b)
  {
    forall pre: seq<Event>, window: seq<Event>, post: seq<Event>, from: int |
      window != [] && Legal(policy, map[], pre + window + post, from)
      ensures Grants(policy, Run(policy, map[], pre), window, b) * TOKEN <= Budget(LimitOf(policy, b), window)
    {
      WindowBound(policy, pre, window, post, from, b);
    }
  }

  lemma {:induction false} NoGrants(policy: Lookup, s: Store, es: seq<Event>, key: string)
    requires Usable(policy) && SiteLimit(policy, key).burst == 0
    ensures Grants(policy, s, es, TenantBucket(key)) == 0
    decreases |es|
  {
    if es != [] {
      NoGrants(policy, Apply(policy, s, es[0]), es[1..], key);
    }
  }

  lemma ClosedSiteBounds(policy: Lookup, key: string)
    requires Usable(policy) && SiteLimit(policy, key).burst == 0
    ensures Bounded(policy, TenantBucket(key))
  {
    forall pre: seq<Event>, window: seq<Event>, post: seq<Event>, from: int |
      window != [] && Legal(policy, map[], pre + window + post, from)
      ensures Grants(policy, Run(policy, map[], pre), window, TenantBucket(key)) * TOKEN
              <= Budget(TenantLimit(policy, key), window)
    {
      var s := Run(policy, map[], pre);
      RunConcat(policy, map[], pre + window, post, from);
      RunConcat(policy, map[], pre, window, from);
      SoundAfter(policy, map[], pre, from);
      SoundLater(policy, s, EndTime(pre, from), window[0].now);
      SoundAfter(policy, s, window, window[0].now);
      NoGrants(policy, s, window, key);
      MulMonotone(0, window[|window| - 1].now - window[0].now, TenantLimit(policy, key).rpm);
    }
  }

  /** A site-wide burst above what the tenant refills within a TTL: volleys are such rounds. */
  lemma LargeSiteExceeds(policy: Lookup, key: string)
    requires Usable(policy) && !RefillsWithinTtl(TenantLimit(policy, key))
    requires SiteLimit(policy, key).burst > 5 * TenantLimit(policy, key).rpm
    ensures !Bounded(policy, TenantBucket(key))
  {
    var n := 5 * TenantLimit(policy, key).rpm + 1;
    NeedIs(n, 0);
    assert Supplied(policy, map[], key, 0, n, 0);
    RoundsExceed(policy, key, n, 0);
  }

  /** The least number of calls, `gap` apart, by which the tenant's bucket lacks more than a TTL refills. */
  lemma EnoughCalls(rpm: nat, burst: nat, refill: nat) returns (n: nat)
    requires rpm > 0 && burst > 5 * rpm && refill < TOKEN
    ensures n > 0 && 5 * rpm * TOKEN < n * TOKEN - (n - 1) * refill <= burst * TOKEN
  {
    var earn := TOKEN - refill;
    n := (5 * rpm * TOKEN - refill) / earn + 1;
    assert (n - 1) * earn <= 5 * rpm * TOKEN - refill < n * earn by {
      var a := 5 * rpm * TOKEN - refill;
      assert a == a / earn * earn + a % earn;
    }
    assert n * earn == n * TOKEN - n * refill && (n - 1) * refill == n * refill - refill;
    assert (n - 1) * earn == n * earn - earn;
  }

  lemma RoundEarns(rpm: nat, n: nat, gap: nat)
    requires n > 0 && 5 * rpm * TOKEN < n * TOKEN - (n - 1) * (gap * rpm)
    ensures n * TOKEN > rpm * ((n - 1) * gap + TTL_MS)
  {
    assert rpm * ((n - 1) * gap + TTL_MS) == (n - 1) * (gap * rpm) + rpm * TTL_MS by {
      assert rpm * ((n - 1) * gap) == (n - 1) * (gap * rpm);
    }
  }

  /** The millisecond clock lets the site hand out tokens faster than the tenant refills. */
  ghost predicate FastSite(policy: Lookup, key: string)
    requires Usable(policy)
  { CeilDiv(TOKEN, SiteLimit(policy, key).rpm) * TenantLimit(policy, key).rpm < TOKEN }

  /** At such a site a tenant can be drained one call at a time, and expiry then hands out too much. */
  lemma FastSiteExceeds(policy: Lookup, key: string)
    requires Usable(policy) && FastSite(policy, key) && !RefillsWithinTtl(TenantLimit(policy, key))
    requires SiteLimit(policy, key).burst > 0
    ensures !Bounded(policy, TenantBucket(key))
  {
    var tl, gap := TenantLimit(policy, key), CeilDiv(TOKEN, SiteLimit(policy, key).rpm);
    var n := EnoughCalls(tl.rpm, tl.burst, gap * tl.rpm);
    NeedIs(n, gap * tl.rpm);
    CeilDivExact(TOKEN, SiteLimit(policy, key).rpm, gap);
    CeilDivExact(TOKEN, SiteLimit(policy, key).rpm, 0);
    assert Supplied(policy, map[], key, 0, n, gap);
    RoundEarns(tl.rpm, n, gap);
    RoundsExceed(policy, key, n, gap);
  }

  /** The window bound of a tenant's bucket, exactly: it holds in every window of every legal run if and only
      if 300 s refill the tenant's burst, or the site never grants, or it refills no faster than the tenant
      and its burst within 300 s at the tenant's rate. */
  lemma TenantBoundExactly(policy: Lookup, key: string)
    requires Usable(policy)
    requires
      || SiteLimit(policy, key).rpm <= TenantLimit(policy, key).rpm || FastSite(policy, key)
      || SiteLimit(policy, key).burst == 0 || SiteLimit(policy, key).burst > 5 * TenantLimit(policy, key).rpm
    ensures Bounded(policy, TenantBucket(key)) <==>
            RefillsWithinTtl(TenantLimit(policy, key)) || SiteLimit(policy, key).burst == 0 || SlowSite(policy, key)
  {
    if RefillsWithinTtl(TenantLimit(policy, key)) {
      RefillBounds(policy, TenantBucket(key));
    } else if SiteLimit(policy, key).burst == 0 {
      ClosedSiteBounds(policy, key);
    } else if SlowSite(policy, key) {
      SlowSiteBounds(policy, key);
    } else if SiteLimit(policy, key).burst > 5 * TenantLimit(policy, key).rpm {
      LargeSiteExceeds(policy, key);
    } else {
      FastSiteExceeds(policy, key);
    }
  }

  /** In particular, at a site whose burst is at least the tenant's the refill condition is exact. */
  lemma TenantBoundAtLargeSite(policy: Lookup, key: string)
    requires Usable(policy) && SiteLimit(policy, key).burst >= TenantLimit(policy, key).burst
    ensures Bounded(policy, TenantBucket(key)) <==> RefillsWithinTtl(TenantLimit(policy, key))
  {
    if RefillsWithinTtl(TenantLimit(policy, key)) {
      RefillBounds(policy, TenantBucket(key));
    } else {
      LargeSiteExceeds(policy, key);
    }
  }

  /** The rounding of the clock is no matter for site rates up to 245 a minute. */
  lemma ModestSiteIsFast(policy: Lookup, key: string)
    requires Usable(policy) && TenantLimit(policy, key).rpm < SiteLimit(policy, key).rpm <= 245
    ensures FastSite(policy, key)
  {
    var r, rate := TenantLimit(policy, key).rpm, SiteLimit(policy, key).rpm;
    var c := CeilDiv(TOKEN, rate);
    CeilDivExact(TOKEN, rate, c);
    CeilDivExact(TOKEN, rate, c - 1);
    if c < rate {
      MulMonotone(c, rate - 1, rate);
      MulMonotone(rate - 1, 244, rate);
    }
    ProductMonotone(c, r, rate - 1);
    assert c * (rate - 1) == c * rate - c && (c - 1) * rate == c * rate - rate;
  }
}
