/** Sealed site credentials, across rotations of the master key. */
module Credentials {
  import opened Wrappers

  type Bytes = seq<bv8>
  type UserId = nat

  const KEY_LEN: nat := 32

  datatype Site = Linkedin | Indeed | Glassdoor | Wellfound

  datatype AuthType = Cookie | ApiKey | Session

  datatype Status = Unverified | Valid | Invalid | Expired

  /** A value of a secret's JSON object: only strings are looked at. */
  datatype Value = Str(s: string) | NotString

  type Secret = map<string, Value>

  /** The AEAD and the JSON codec, as far as the program depends on them. */
  datatype Primitives = Primitives(seal: (Bytes, Bytes, Bytes) -> Bytes, open: (Bytes, Bytes, Bytes) -> Option<Bytes>,
                                   encode: Secret -> Bytes, decode: Bytes -> Option<Secret>)

  /** Opening undoes sealing under the same key and nonce, decoding undoes encoding. */
  ghost predicate Sound(c: Primitives) {
    && (forall key, nonce, text :: c.open(key, nonce, c.seal(key, nonce, text)) == Some(text))
    && (forall secret :: c.decode(c.encode(secret)) == Some(secret))
  }

  // ----- the master keys -----

  datatype Settings = Settings(multi: seq<(int, Bytes)>, single: Option<Bytes>, version: int, isProd: bool)

  datatype KeyRing = KeyRing(keys: map<int, Bytes>, current: int)

  function ZeroKey(): Bytes { seq(KEY_LEN, _ => 0) }

  /** The largest of the known versions. */
  ghost predicate IsLargest(keys: map<int, Bytes>, v: int) { v in keys && forall w :: w in keys ==> w <= v }

  function KeysOf(multi: seq<(int, Bytes)>): map<int, Bytes> {
    if multi == [] then map[] else KeysOf(multi[..|multi| - 1])[multi[|multi| - 1].0 := multi[|multi| - 1].1]
  }

  predicate WellSized(keys: seq<(int, Bytes)>) { forall i :: 0 <= i < |keys| ==> |keys[i].1| == KEY_LEN }

  /** The largest version of a non-empty list of keys. */
  method Largest(multi: seq<(int, Bytes)>) returns (v: int)
    requires multi != []
    ensures IsLargest(KeysOf(multi), v)
  {
    v := multi[0].0;
    assert multi[..1][..0] == [];
    for i := 1 to |multi|
      invariant IsLargest(KeysOf(multi[..i]), v)
    {
      assert multi[..i + 1][..i] == multi[..i];
      if multi[i].0 > v {
        v := multi[i].0;
      }
    }
    assert multi[..|multi|] == multi;
  }

  /** The keys of a deployment, or nothing when a key has the wrong length or production has none.
      The current version is the configured one if it is known, else the largest known. */
  method EnvMasterKey(s: Settings) returns (ring: Option<KeyRing>)
    ensures ring.Some? ==> ring.value.current in ring.value.keys
    ensures ring.Some? ==> forall v :: v in ring.value.keys ==> |ring.value.keys[v]| == KEY_LEN
    ensures ring.Some? ==>
      if s.version in ring.value.keys then ring.value.current == s.version
      else IsLargest(ring.value.keys, ring.value.current)
    ensures s.multi != [] ==>
      (ring.Some? <==> WellSized(s.multi)) && (ring.Some? ==> ring.value.keys == KeysOf(s.multi))
    ensures s.multi == [] && s.single.Some? ==> (ring.Some? <==> |s.single.value| == KEY_LEN)
    ensures s.multi == [] && s.single.None? ==> (ring.Some? <==> !s.isProd)
    ensures ring.Some? && s.multi == [] ==>
      ring.value.keys == map[1 := if s.single.Some? then s.single.value else ZeroKey()]
  {
    var keys: map<int, Bytes> := map[];
    if s.multi != [] {
      for i := 0 to |s.multi|
        invariant keys == KeysOf(s.multi[..i]) && WellSized(s.multi[..i])
        invariant i > 0 ==> keys != map[]
        invariant forall v :: v in keys ==> |keys[v]| == KEY_LEN
      {
        if |s.multi[i].1| != KEY_LEN {
          return None;
        }
        assert s.multi[..i + 1][..i] == s.multi[..i];
        keys := keys[s.multi[i].0 := s.multi[i].1];
        assert s.multi[i].0 in keys;
      }
      assert s.multi[..|s.multi|] == s.multi;
    } else if s.single.Some? {
      if |s.single.value| != KEY_LEN {
        return None;
      }
      keys := map[1 := s.single.value];
      assert 1 in keys;
    }
    if keys == map[] {
      if s.isProd {
        return None;
      }
      keys := map[1 := ZeroKey()];
      assert 1 in keys;
    }
    var current := s.version;
    if current !in keys {
      if s.multi != [] {
        current := Largest(s.multi);
      } else {
        current := 1;
      }
    }
    return Some(KeyRing(keys, current));
  }

  // ----- sealing and opening -----

  datatype Row = Row(authType: AuthType, ciphertext: Bytes, nonce: Bytes, version: int, status: Status)

  type Rows = map<(UserId, Site), Row>

  /** Decrypt one row's secret, or fail: no key for its version, a bad tag, or no JSON object. */
  function OpenSecret(c: Primitives, ring: KeyRing, row: Row): Option<Secret> {
    if row.version !in ring.keys then None
    else
      match c.open(ring.keys[row.version], row.nonce, row.ciphertext)
      case None => None
      case Some(text) => c.decode(text)
  }

  /** What Python's `strip` removes. */
  predicate Space(c: char) {
    c in {' ', '\U{0085}', '\U{00A0}', '\U{1680}', '\U{2028}', '\U{2029}', '\U{202F}', '\U{205F}', '\U{3000}'} ||
    '\t' <= c <= '\r' || '\U{001C}' <= c <= '\U{001F}' || '\U{2000}' <= c <= '\U{200A}'
  }

  predicate Blank(s: string) { forall i :: 0 <= i < |s| ==> Space(s[i]) }

  predicate HasValue(secret: Secret, key: string) { key in secret && secret[key].Str? && !Blank(secret[key].s) }

  function RequiredKeys(site: Site, authType: AuthType): seq<string> {
    match (site, authType)
    case (Linkedin, Cookie) => ["li_at"]
    case (Indeed, Cookie) => ["CTK", "SHARED_INDEED_CSRF_TOKEN", "cookie"]
    case (Glassdoor, Cookie) => ["gdId", "cookie"]
    case (Wellfound, ApiKey) => ["api_key"]
    case _ => []
  }

  /** The structural check: some value, the API key where one is promised, one of the site's keys. */
  predicate WellFormed(site: Site, authType: AuthType, secret: Secret) {
    && (exists k :: k in secret && HasValue(secret, k))
    && (authType.ApiKey? ==> HasValue(secret, "api_key"))
    && (RequiredKeys(site, authType) != [] ==> exists k :: k in RequiredKeys(site, authType) && HasValue(secret, k))
  }

  /** The key has a string for its value that is more than white space. */
  ghost predicate Filled(secret: Secret, key: string) {
    key in secret && secret[key].Str? && exists i :: 0 <= i < |secret[key].s| && !Space(secret[key].s[i])
  }

  /** What a secret must hold, site by site. */
  lemma WellFormedExactly(site: Site, authType: AuthType, secret: Secret)
    ensures WellFormed(site, authType, secret) <==>
      if authType.ApiKey? then Filled(secret, "api_key")
      else if authType.Cookie? && site.Linkedin? then Filled(secret, "li_at")
      else if authType.Cookie? && site.Indeed? then
        Filled(secret, "CTK") || Filled(secret, "SHARED_INDEED_CSRF_TOKEN") || Filled(secret, "cookie")
      else if authType.Cookie? && site.Glassdoor? then Filled(secret, "gdId") || Filled(secret, "cookie")
      else exists key :: key in secret && Filled(secret, key)
  {
    var keys := RequiredKeys(site, authType);
    forall key ensures HasValue(secret, key) <==> Filled(secret, key) {}
    if key :| key in keys && HasValue(secret, key) {
      assert HasValue(secret, key);
    }
    if |keys| > 0 {
      assert keys[0] in keys;
    }
    if |keys| > 1 {
      assert keys[1] in keys;
    }
    if |keys| > 2 {
      assert keys[2] in keys;
    }
  }

  // ----- the history of a store -----

  /** What was last written for a (user, site): kept only to state theorems. */
  datatype Entry = Entry(authType: AuthType, secret: Secret)

  datatype Vault = Vault(ring: KeyRing, rows: Rows, last: map<(UserId, Site), Entry>)

  datatype Act =
    | Deploy(ring: KeyRing)
    | Upsert(user: UserId, site: Site, entry: Entry, nonce: Bytes)
    | Verify(user: UserId, site: Site)
    | Delete(user: UserId, site: Site)

  function Sealed(c: Primitives, ring: KeyRing, entry: Entry, nonce: Bytes): Row
    requires ring.current in ring.keys
  {
    Row(entry.authType, c.seal(ring.keys[ring.current], nonce, c.encode(entry.secret)), nonce, ring.current, Unverified)
  }

  function Verdict(c: Primitives, ring: KeyRing, site: Site, row: Row): Status {
    match OpenSecret(c, ring, row)
    case None => Invalid
    case Some(secret) => if WellFormed(site, row.authType, secret) then Valid else Invalid
  }

  function Step(c: Primitives, v: Vault, a: Act): Vault
    requires v.ring.current in v.ring.keys
  {
    match a
    case Deploy(ring) => v.(ring := ring)
    case Upsert(user, site, entry, nonce) =>
      v.(rows := v.rows[(user, site) := Sealed(c, v.ring, entry, nonce)], last := v.last[(user, site) := entry])
    case Verify(user, site) =>
      if (user, site) !in v.rows then v
      else
        var row := v.rows[(user, site)];
        v.(rows := v.rows[(user, site) := row.(status := Verdict(c, v.ring, site, row))])
    case Delete(user, site) => v.(rows := v.rows - {(user, site)}, last := v.last - {(user, site)})
  }

  /** A deployment has a current key, and keeps the key of every version that a row still carries. */
  ghost predicate Careful(v: Vault, a: Act) {
    a.Deploy? ==>
      && a.ring.current in a.ring.keys
      && forall key :: key in v.rows && v.rows[key].version in v.ring.keys ==>
           v.rows[key].version in a.ring.keys && a.ring.keys[v.rows[key].version] == v.ring.keys[v.rows[key].version]
  }

  /** Every row opens to what was last written, and its status tells the truth about that. */
  ghost predicate Intact(c: Primitives, v: Vault) {
    && v.ring.current in v.ring.keys
    && v.rows.Keys == v.last.Keys
    && forall key :: key in v.rows ==>
         && v.rows[key].version in v.ring.keys
         && OpenSecret(c, v.ring, v.rows[key]) == Some(v.last[key].secret)
         && v.rows[key].authType == v.last[key].authType
         && (v.rows[key].status.Valid? ==> WellFormed(key.1, v.last[key].authType, v.last[key].secret))
         && (v.rows[key].status.Invalid? ==> !WellFormed(key.1, v.last[key].authType, v.last[key].secret))
  }

  lemma StepIntact(c: Primitives, v: Vault, a: Act)
    requires Sound(c) && Intact(c, v) && Careful(v, a)
    ensures Intact(c, Step(c, v, a))
  {
    if a.Upsert? {
      var row := Sealed(c, v.ring, a.entry, a.nonce);
      assert c.open(v.ring.keys[row.version], row.nonce, row.ciphertext) == Some(c.encode(a.entry.secret));
    }
  }

  ghost predicate CarefulRun(c: Primitives, v: Vault, acts: seq<Act>)
    requires v.ring.current in v.ring.keys
    decreases |acts|
  {
    acts == [] ||
    (Careful(v, acts[0]) && CarefulRun(c, Step(c, v, acts[0]), acts[1..]))
  }

  ghost function Run(c: Primitives, v: Vault, acts: seq<Act>): Vault
    requires v.ring.current in v.ring.keys && CarefulRun(c, v, acts)
    decreases |acts|
  { if acts == [] then v else Run(c, Step(c, v, acts[0]), acts[1..]) }

  /** Over any history of deployments, writes, verifications and deletions: there is always a current
      key, every stored row opens to the last secret written for its user and site, and `valid` and
      `invalid` say exactly whether that secret passes the structural check. */
  lemma {:induction false} HistoryIntact(c: Primitives, v: Vault, acts: seq<Act>)
    requires Sound(c) && Intact(c, v) && CarefulRun(c, v, acts)
    ensures Intact(c, Run(c, v, acts))
    decreases |acts|
  {
    if acts != [] {
      StepIntact(c, v, acts[0]);
      HistoryIntact(c, Step(c, v, acts[0]), acts[1..]);
    }
  }

  /** A deployment that keeps the keys it keeps unchanged leaves every row openable exactly when it
      drops no version that a row carries. */
  lemma DroppingVersions(c: Primitives, v: Vault, ring: KeyRing)
    requires Sound(c) && Intact(c, v) && ring.current in ring.keys
    requires forall w :: w in ring.keys && w in v.ring.keys ==> ring.keys[w] == v.ring.keys[w]
    ensures (forall key :: key in v.rows ==> OpenSecret(c, ring, v.rows[key]) == Some(v.last[key].secret)) <==>
            (forall key :: key in v.rows ==> v.rows[key].version in ring.keys)
  {
    forall key | key in v.rows
      ensures OpenSecret(c, ring, v.rows[key]) == Some(v.last[key].secret) <==> v.rows[key].version in ring.keys
    {
      assert v.rows[key].version in v.ring.keys && OpenSecret(c, v.ring, v.rows[key]) == Some(v.last[key].secret);
    }
  }

  /** A write is read back: the row opens to the secret just written, its old verdict is forgotten, and no
      other row changes. */
  lemma UpsertReadsBack(c: Primitives, v: Vault, user: UserId, site: Site, entry: Entry, nonce: Bytes)
    requires Sound(c) && v.ring.current in v.ring.keys
    ensures var after := Step(c, v, Upsert(user, site, entry, nonce));
            && OpenSecret(c, after.ring, after.rows[(user, site)]) == Some(entry.secret)
            && after.rows[(user, site)].status.Unverified? && after.rows - {(user, site)} == v.rows - {(user, site)}
  {
    var key, text := v.ring.keys[v.ring.current], c.encode(entry.secret);
    assert c.open(key, nonce, c.seal(key, nonce, text)) == Some(text);
  }

  /** A verification tells exactly whether the secret last written is well formed, and changes no other row. */
  lemma VerifyTellsExactly(c: Primitives, v: Vault, user: UserId, site: Site)
    requires Sound(c) && Intact(c, v)
    ensures var after := Step(c, v, Verify(user, site));
            && after.rows.Keys == v.rows.Keys && after.rows - {(user, site)} == v.rows - {(user, site)}
            && ((user, site) in v.rows ==>
                  after.rows[(user, site)].status ==
                    if WellFormed(site, v.last[(user, site)].authType, v.last[(user, site)].secret) then Valid
                    else Invalid)
  {}

  // ----- the services -----

  class CredentialStore {
    const primitives: Primitives
    var ring: KeyRing
    var rows: Rows
    ghost var last: map<(UserId, Site), Entry>

    ghost function Contents(): Vault
      reads this
    { Vault(ring, rows, last) }

    method PutCredential(user: UserId, site: Site, authType: AuthType, secret: Secret, nonce: Bytes)
      requires ring.current in ring.keys
      modifies this`rows, this`last
      ensures Contents() == Step(primitives, old(Contents()), Upsert(user, site, Entry(authType, secret), nonce))
      ensures Sound(primitives) ==> OpenSecret(primitives, ring, rows[(user, site)]) == Some(secret)
      ensures rows[(user, site)].status.Unverified? && rows - {(user, site)} == old(rows) - {(user, site)}
      ensures Sound(primitives) && Intact(primitives, old(Contents())) ==> Intact(primitives, Contents())
    {
      ghost var before := Contents();
      if Sound(primitives) {
        UpsertReadsBack(primitives, before, user, site, Entry(authType, secret), nonce);
        if Intact(primitives, before) {
          StepIntact(primitives, before, Upsert(user, site, Entry(authType, secret), nonce));
        }
      }
      var version := ring.current;
      var ciphertext := primitives.seal(ring.keys[version], nonce, primitives.encode(secret));
      rows := rows[(user, site) := Row(authType, ciphertext, nonce, version, Unverified)];
      last := last[(user, site) := Entry(authType, secret)];
    }

    method VerifyCredential(user: UserId, site: Site)
      requires ring.current in ring.keys
      modifies this`rows
      ensures Contents() == Step(primitives, old(Contents()), Verify(user, site))
      ensures rows.Keys == old(rows).Keys && rows - {(user, site)} == old(rows) - {(user, site)}
      ensures Sound(primitives) && Intact(primitives, old(Contents())) ==>
                && Intact(primitives, Contents())
                && ((user, site) in rows ==>
                      rows[(user, site)].status ==
                        if WellFormed(site, last[(user, site)].authType, last[(user, site)].secret) then Valid
                        else Invalid)
    {
      if Sound(primitives) && Intact(primitives, Contents()) {
        VerifyTellsExactly(primitives, Contents(), user, site);
        StepIntact(primitives, Contents(), Verify(user, site));
      }
      if (user, site) !in rows {
        return;
      }
      var row := rows[(user, site)];
      var secret := OpenSecret(primitives, ring, row);
      if secret.None? {
        row := row.(status := Invalid);
      } else if WellFormed(site, row.authType, secret.value) {
        row := row.(status := Valid);
      } else {
        row := row.(status := Invalid);
      }
      rows := rows[(user, site) := row];
    }

    /** The secrets a run gets: those of every row not known to be bad, as last written. */
    method LoadSourceCredentials(user: UserId) returns (out: map<Site, Entry>)
      requires Sound(primitives) && Intact(primitives, Contents())
      ensures forall site :: site in out <==> (user, site) in rows && !rows[(user, site)].status.Invalid?
      ensures forall site :: site in out ==> out[site] == last[(user, site)]
      ensures forall site :: (user, site) in rows &&
                WellFormed(site, last[(user, site)].authType, last[(user, site)].secret)
                ==> site in out
    {
      out := map[];
      var sites := [Linkedin, Indeed, Glassdoor, Wellfound];
      for i := 0 to |sites|
        invariant forall site :: site in out <==>
          site in sites[..i] && (user, site) in rows && !rows[(user, site)].status.Invalid?
        invariant forall site :: site in out ==> out[site] == last[(user, site)]
      {
        var site := sites[i];
        assert sites[..i + 1] == sites[..i] + [site];
        if (user, site) in rows && !rows[(user, site)].status.Invalid? {
          var secret := OpenSecret(primitives, ring, rows[(user, site)]);
          if secret.Some? {
            out := out[site := Entry(rows[(user, site)].authType, secret.value)];
          }
        }
      }
      forall site: Site ensures site in sites {
        match site {
          case Linkedin => assert sites[0] == site;
          case Indeed => assert sites[1] == site;
          case Glassdoor => assert sites[2] == site;
          case Wellfound => assert sites[3] == site;
        }
      }
      assert sites[..|sites|] == sites;
    }
  }
}
