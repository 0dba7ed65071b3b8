/** The user bundle in Redis (60 s) and the signed bundle cookie stacked on top of it (60 s):
    how old the role and permissions in an accepted cookie can be. Times in milliseconds. */
module BundleCaches {
  import opened Common

  const TTL := 60 * 1000

  datatype Bundle = Bundle(role: string, permissions: seq<string>)

  // ---- The cookie -----------------------------------------------------------------------

  const VERSION := 2

  datatype Payload = Payload(v: int, iat: int, exp: int, user: string, role: string, permissions: seq<string>)

  /** Serialisation, base64url and the keyed hash, which are not part of this model. */
  datatype Codec = Codec(
    write: Payload -> string, read: string -> Option<Payload>,
    enc: string -> string, dec: string -> Option<string>,
    mac: (string, string) -> string)

  ghost predicate Faithful(c: Codec) {
    && (forall p :: c.read(c.write(p)) == Some(p))
    && (forall s :: c.dec(c.enc(s)) == Some(s))
    && (forall s :: '.' !in c.enc(s))
  }

  function Sign(c: Codec, user: string, role: string, permissions: seq<string>, secret: string, now: int): string {
    var json := c.write(Payload(VERSION, now, now + TTL, user, role, permissions));
    c.enc(json) + "." + c.enc(c.mac(json, secret))
  }

  function FirstDot(s: string): Option<nat> {
    if s == "" then None
    else if s[0] == '.' then Some(0)
    else match FirstDot(s[1..]) case None => None case Some(i) => Some(i + 1)
  }

  lemma {:induction false} FirstDotIs(s: string)
    ensures match FirstDot(s)
            case None => '.' !in s
            case Some(i) => i < |s| && s[i] == '.' && '.' !in s[..i]
  {
    if s != "" && s[0] != '.' {
      FirstDotIs(s[1..]);
      if FirstDot(s).Some? {
        var i := FirstDot(s).value;
        assert s[..i] == [s[0]] + s[1..][..i - 1];
      }
    }
  }

  lemma {:induction false} FirstDotBetween(head: string, tail: string)
    requires '.' !in head
    ensures FirstDot(head + "." + tail) == Some(|head|)
  {
    if head != "" {
      FirstDotBetween(head[1..], tail);
      assert (head + "." + tail)[1..] == head[1..] + "." + tail;
    }
  }

  function Verify(c: Codec, cookie: string, secret: string, now: int): Option<Payload> {
    FirstDotIs(cookie);
    match FirstDot(cookie)
    case None => None
    case Some(i) =>
      var json, sig := c.dec(cookie[..i]), c.dec(cookie[i + 1..]);
      if json.None? || sig.None? || sig.value != c.mac(json.value, secret) then None
      else
        var p := c.read(json.value);
        if p.None? || p.value.v != VERSION || now > p.value.exp then None else p
  }

  /** A signed cookie verifies for exactly its 60 seconds, and gives back what was signed. */
  lemma SignedVerifies(c: Codec, user: string, role: string, permissions: seq<string>, secret: string,
                       at: int, now: int)
    requires Faithful(c)
    ensures Verify(c, Sign(c, user, role, permissions, secret, at), secret, now)
         == if now <= at + 60000 then Some(Payload(2, at, at + 60000, user, role, permissions)) else None
  {
    var p := Payload(VERSION, at, at + TTL, user, role, permissions);
    var head, tail := c.enc(c.write(p)), c.enc(c.mac(c.write(p), secret));
    var cookie := head + "." + tail;
    FirstDotBetween(head, tail);
    assert cookie[..|head|] == head && cookie[|head| + 1..] == tail;
    assert c.read(c.write(p)) == Some(p);
  }

  /** Two parts around a first dot, the second the keyed hash of what the first decodes to. */
  ghost predicate Sealed(c: Codec, cookie: string, secret: string, head: string, tail: string, json: string) {
    && cookie == head + "." + tail && '.' !in head
    && c.dec(head) == Some(json) && c.dec(tail) == Some(c.mac(json, secret))
  }

  /** A cookie is accepted exactly if it is sealed with this secret and its payload is readable,
      of this version and not expired. */
  lemma VerifyIff(c: Codec, cookie: string, secret: string, now: int, p: Payload)
    ensures Verify(c, cookie, secret, now) == Some(p)
       <==> (exists head, tail, json :: Sealed(c, cookie, secret, head, tail, json) && c.read(json) == Some(p))
            && p.v == 2 && now <= p.exp
  {
    FirstDotIs(cookie);
    if Verify(c, cookie, secret, now) == Some(p) {
      var i := FirstDot(cookie).value;
      assert cookie == cookie[..i] + "." + cookie[i + 1..];
      assert Sealed(c, cookie, secret, cookie[..i], cookie[i + 1..], c.dec(cookie[..i]).value);
    }
    if head, tail, json :| Sealed(c, cookie, secret, head, tail, json) && c.read(json) == Some(p) {
      FirstDotBetween(head, tail);
      assert cookie[..|head|] == head && cookie[|head| + 1..] == tail;
    }
  }

  // ---- The service ----------------------------------------------------------------------

  datatype Entry = Entry(bundle: Bundle, expiresAt: int)

  function Loaded(db: map<string, Bundle>, userId: string): Bundle {
    if userId in db then db[userId] else Bundle("", [])
  }

  predicate Live(cache: map<string, Entry>, userId: string, now: int) {
    userId in cache && cache[userId].expiresAt > now
  }

  /** What a load answers, and the cache after it. */
  function Load(db: map<string, Bundle>, cache: map<string, Entry>, userId: string, now: int)
    : (Bundle, map<string, Entry>)
  {
    if Live(cache, userId, now) then (cache[userId].bundle, cache)
    else (Loaded(db, userId), cache[userId := Entry(Loaded(db, userId), now + TTL)])
  }

  /** A load that misses answers what the database has, and the empty role and no permissions for a
      user who is not there; for 60 s every load of the user answers the same, whatever is written,
      and then the database is asked again. No other user is affected. */
  lemma LoadLasts(db: map<string, Bundle>, cache: map<string, Entry>, user: string, now: int,
                  next: map<string, Bundle>, later: int, other: string)
    requires now <= later && other != user && !Live(cache, user, now)
    ensures var b, cache1 := Load(db, cache, user, now).0, Load(db, cache, user, now).1;
            && b == (if user in db then db[user] else Bundle("", []))
            && Load(next, cache1, user, later).0
               == (if later < now + 60000 then b else if user in next then next[user] else Bundle("", []))
            && (later < now + 60000 ==> Load(next, cache1, user, later).1 == cache1)
            && Load(next, cache1, other, later).0 == Load(next, cache, other, later).0
  {
  }

  class UserBundleCacheService {
    var db: map<string, Bundle>
    var cache: map<string, Entry>
    var now: int

    constructor (db: map<string, Bundle>, now: int)
      ensures this.db == db && cache == map[] && this.now == now
    {
      this.db, this.cache, this.now := db, map[], now;
    }

    /** Cache-aside; a user without a row has an empty role and no permissions. */
    method GetOrLoad(userId: string) returns (b: Bundle)
      modifies this`cache
      ensures (b, cache) == Load(db, old(cache), userId, now)
    {
      if userId in cache && cache[userId].expiresAt > now { return cache[userId].bundle; }
      b := Loaded(db, userId);
      cache := cache[userId := Entry(b, now + TTL)];
    }

    method Invalidate(userId: string)
      modifies this`cache
      ensures cache == if userId == "" then old(cache) else old(cache) - {userId}
    {
      if userId == "" { return; }
      cache := cache - {userId};
    }

    method InvalidateMany(userIds: seq<string>)
      modifies this`cache
      ensures cache == old(cache) - (set u | u in userIds && u != "")
    {
      for i := 0 to |userIds|
        invariant cache == old(cache) - (set u | u in userIds[..i] && u != "")
      {
        assert userIds[..i + 1] == userIds[..i] + [userIds[i]];
        Invalidate(userIds[i]);
      }
      assert userIds[..|userIds|] == userIds;
    }
  }

  // ---- Steps, with requests in flight -----------------------------------------------------

  /** A bundle value the database held from some moment until `until`. */
  datatype Held = Held(user: string, bundle: Bundle, until: int)

  /** A request by what it has: the role of the first query, the whole bundle, or a bundle that
      it is about to sign. `at` is when it began to read, or when it hit. */
  datatype Request =
    | Reading(user: string, role: string, at: int)
    | Loading(user: string, bundle: Bundle, at: int)
    | Signing(user: string, bundle: Bundle, at: int)

  datatype Cookie = Cookie(user: string, role: string, permissions: seq<string>, exp: int)

  /** `owed` tells since when a committed write waits for an invalidation that follows it. */
  datatype World = World(
    now: int, db: map<string, Bundle>, past: set<Held>, owed: map<string, int>, cache: map<string, Entry>,
    requests: map<nat, Request>, cookies: set<Cookie>)

  datatype Step =
    | Passes(ms: nat)
    | Writes(user: string, bundle: Bundle, invalidates: bool)
    | Invalidates(user: string)
    | Hits(r: nat, user: string)
    | ReadsRole(r: nat, user: string)
    | ReadsPermissions(r: nat)
    | Stores(r: nat)
    | Signs(r: nat, sessionRole: string)
    | Evicts(user: string)

  predicate Enabled(w: World, step: Step) {
    match step
    case Invalidates(user) => user in w.owed
    case Hits(r, user) => r !in w.requests && Live(w.cache, user, w.now)
    case ReadsRole(r, user) => r !in w.requests && !Live(w.cache, user, w.now)
    case ReadsPermissions(r) => r in w.requests && w.requests[r].Reading?
    case Stores(r) => r in w.requests && w.requests[r].Loading?
    case Signs(r, _) => r in w.requests && w.requests[r].Signing?
    case _ => true
  }

  /** The role of the session stands in for an empty one. */
  function Issued(q: Request, sessionRole: string, now: int): Cookie
    requires q.Signing?
  {
    Cookie(q.user, if q.bundle.role != "" then q.bundle.role else sessionRole, q.bundle.permissions, now + TTL)
  }

  function Apply(w: World, step: Step): World
    requires Enabled(w, step)
  {
    match step
    case Passes(ms) => w.(now := w.now + ms)
    case Writes(user, bundle, invalidates) =>
      w.(db := w.db[user := bundle], past := w.past + {Held(user, Loaded(w.db, user), w.now)},
         owed := if invalidates && user !in w.owed then w.owed[user := w.now] else w.owed)
    case Invalidates(user) => w.(cache := w.cache - {user}, owed := w.owed - {user})
    case Hits(r, user) => w.(requests := w.requests[r := Signing(user, w.cache[user].bundle, w.now)])
    case ReadsRole(r, user) => w.(requests := w.requests[r := Reading(user, Loaded(w.db, user).role, w.now)])
    case ReadsPermissions(r) =>
      var q := w.requests[r];
      w.(requests := w.requests[r := Loading(q.user, Bundle(q.role, Loaded(w.db, q.user).permissions), q.at)])
    case Stores(r) =>
      var q := w.requests[r];
      w.(cache := w.cache[q.user := Entry(q.bundle, w.now + TTL)],
         requests := w.requests[r := Signing(q.user, q.bundle, q.at)])
    case Signs(r, sessionRole) =>
      w.(requests := w.requests - {r}, cookies := w.cookies + {Issued(w.requests[r], sessionRole, w.now)})
    case Evicts(user) => w.(cache := w.cache - {user})
  }

  /** An undisturbed load is one hit, exactly if the entry is live, or else two reads and a store;
      then the request is about to sign what it has. */
  lemma LoadIsSteps(w: World, r: nat, user: string)
    requires r !in w.requests
    ensures Enabled(w, Hits(r, user)) <==> Live(w.cache, user, w.now)
    ensures Enabled(w, ReadsRole(r, user)) <==> !Live(w.cache, user, w.now)
    ensures Live(w.cache, user, w.now) ==>
      var w', load := Apply(w, Hits(r, user)), Load(w.db, w.cache, user, w.now);
      w'.requests[r] == Signing(user, load.0, w.now) && w'.cache == load.1
    ensures !Live(w.cache, user, w.now) ==>
      var w' := Apply(Apply(Apply(w, ReadsRole(r, user)), ReadsPermissions(r)), Stores(r));
      var load := Load(w.db, w.cache, user, w.now);
      w'.requests[r] == Signing(user, load.0, w.now) && w'.cache == load.1
  {
    if !Live(w.cache, user, w.now) {
      var w1 := Apply(w, ReadsRole(r, user));
      assert w1.requests[r] == Reading(user, Loaded(w.db, user).role, w.now);
      var w2 := Apply(w1, ReadsPermissions(r));
      assert w2.requests[r] == Loading(user, Loaded(w.db, user), w.now);
    }
  }

  /** After an eviction or an invalidation the user's next request reads the database; everybody
      else's entry is as it was, and a request under way is not stopped. */
  lemma DroppedIsRead(w: World, step: Step, other: string, r: nat)
    requires (step.Evicts? || step.Invalidates?) && Enabled(w, step) && other != step.user && r !in w.requests
    ensures var w' := Apply(w, step);
            && Enabled(w', ReadsRole(r, step.user)) && w'.requests == w.requests && w'.db == w.db
            && (other in w'.cache <==> other in w.cache)
            && (other in w.cache ==> w'.cache[other] == w.cache[other])
  {
  }

  /** Signing ends the request with one more cookie, for 60 s: the bundle's permissions and its role,
      or, where that is empty, the role of the session. */
  lemma SignsOne(w: World, r: nat, sessionRole: string)
    requires Enabled(w, Signs(r, sessionRole))
    ensures var w', b := Apply(w, Signs(r, sessionRole)), w.requests[r].bundle;
            && w' == w.(requests := w.requests - {r}, cookies := w'.cookies)
            && exists c :: w'.cookies == w.cookies + {c} && c.user == w.requests[r].user && c.exp == w.now + 60000
                 && c.permissions == b.permissions
                 && (b.role != "" ==> c.role == b.role) && (b.role == "" ==> c.role == sessionRole)
  {
    assert Apply(w, Signs(r, sessionRole)).cookies == w.cookies + {Issued(w.requests[r], sessionRole, w.now)};
  }

  /** The database held this role, these permissions, for the user at `since` or later. */
  predicate RoleWas(w: World, user: string, role: string, since: int) {
    || Loaded(w.db, user).role == role
    || exists h :: h in w.past && h.user == user && h.bundle.role == role && h.until >= since
  }

  predicate PermissionsWere(w: World, user: string, permissions: seq<string>, since: int) {
    || Loaded(w.db, user).permissions == permissions
    || exists h :: h in w.past && h.user == user && h.bundle.permissions == permissions && h.until >= since
  }

  predicate Was(w: World, user: string, b: Bundle, since: int) {
    RoleWas(w, user, b.role, since) && PermissionsWere(w, user, b.permissions, since)
  }

  /** Role and permissions of the cookie were the database's at `since` or later; where the role
      was empty the session's may stand in for it. */
  ghost predicate Shows(w: World, c: Cookie, since: int) {
    && PermissionsWere(w, c.user, c.permissions, since)
    && exists role :: RoleWas(w, c.user, role, since) && (role != "" ==> c.role == role)
  }

  /** Every cookie that is still accepted is at most `age` old in that sense. */
  ghost predicate Within(w: World, age: int) {
    forall c :: c in w.cookies && w.now <= c.exp ==> Shows(w, c, w.now - age)
  }

  /** Each request stores and signs within `lag` of its first read or hit. */
  predicate Prompt(w: World, step: Step, lag: nat) {
    (step.Stores? || step.Signs?) && step.r in w.requests ==> w.now - w.requests[step.r].at <= lag
  }

  lemma RoleKept(w: World, step: Step, user: string, role: string, since: int)
    requires Enabled(w, step) && RoleWas(w, user, role, since) && since <= w.now
    ensures RoleWas(Apply(w, step), user, role, since)
  {
    var w' := Apply(w, step);
    if Loaded(w.db, user).role == role {
      if step.Writes? && step.user == user { assert Held(user, Loaded(w.db, user), w.now) in w'.past; }
    } else {
      var h :| h in w.past && h.user == user && h.bundle.role == role && h.until >= since;
      assert h in w'.past;
    }
  }

  lemma PermissionsKept(w: World, step: Step, user: string, permissions: seq<string>, since: int)
    requires Enabled(w, step) && PermissionsWere(w, user, permissions, since) && since <= w.now
    ensures PermissionsWere(Apply(w, step), user, permissions, since)
  {
    var w' := Apply(w, step);
    if Loaded(w.db, user).permissions == permissions {
      if step.Writes? && step.user == user { assert Held(user, Loaded(w.db, user), w.now) in w'.past; }
    } else {
      var h :| h in w.past && h.user == user && h.bundle.permissions == permissions && h.until >= since;
      assert h in w'.past;
    }
  }

  lemma WasKept(w: World, step: Step, user: string, b: Bundle, since: int)
    requires Enabled(w, step) && Was(w, user, b, since) && since <= w.now
    ensures Was(Apply(w, step), user, b, since)
  {
    RoleKept(w, step, user, b.role, since);
    PermissionsKept(w, step, user, b.permissions, since);
  }

  ghost predicate CookieAged(w: World, c: Cookie, age: int) {
    c.exp - TTL <= w.now && Shows(w, c, c.exp - age)
  }

  lemma CookieKept(w: World, step: Step, c: Cookie, age: int)
    requires Enabled(w, step) && CookieAged(w, c, age) && age >= TTL
    ensures CookieAged(Apply(w, step), c, age)
  {
    PermissionsKept(w, step, c.user, c.permissions, c.exp - age);
    var role :| RoleWas(w, c.user, role, c.exp - age) && (role != "" ==> c.role == role);
    RoleKept(w, step, c.user, role, c.exp - age);
  }

  /** A bundle that was right at `since` is signed into a cookie that is as right. */
  lemma SignedAged(w: World, step: Step, since: int, age: int)
    requires Enabled(w, step) && step.Signs? && age >= TTL
    requires var q := w.requests[step.r]; Was(w, q.user, q.bundle, since)
    requires w.now + TTL - age <= since <= w.now
    ensures CookieAged(Apply(w, step), Issued(w.requests[step.r], step.sessionRole, w.now), age)
  {
    var q := w.requests[step.r];
    WasKept(w, step, q.user, q.bundle, since);
    var w', c := Apply(w, step), Issued(q, step.sessionRole, w.now);
    assert RoleWas(w', c.user, q.bundle.role, c.exp - age) && (q.bundle.role != "" ==> c.role == q.bundle.role);
  }

  lemma AgedIsWithin(w: World, age: int)
    requires forall c :: c in w.cookies ==> CookieAged(w, c, age)
    ensures Within(w, age)
  {
    forall c | c in w.cookies && w.now <= c.exp ensures Shows(w, c, w.now - age) {
      assert CookieAged(w, c, age);
      var role :| RoleWas(w, c.user, role, c.exp - age) && (role != "" ==> c.role == role);
      assert RoleWas(w, c.user, role, w.now - age);
    }
  }

  ghost predicate Legal(w: World, steps: seq<Step>, lag: nat)
    decreases |steps|
  {
    steps != [] ==>
      Enabled(w, steps[0]) && Prompt(w, steps[0], lag) && Legal(Apply(w, steps[0]), steps[1..], lag)
  }

  ghost function Run(w: World, steps: seq<Step>, lag: nat): World
    requires Legal(w, steps, lag)
    decreases |steps|
  {
    if steps == [] then w else Run(Apply(w, steps[0]), steps[1..], lag)
  }

  function Boot(db: map<string, Bundle>, now: int): World {
    World(now, db, {}, map[], map[], map[], {})
  }

  // ---- Without invalidation ---------------------------------------------------------------

  predicate CacheAged(w: World, lag: nat) {
    forall u :: u in w.cache ==>
      w.cache[u].expiresAt - TTL <= w.now && Was(w, u, w.cache[u].bundle, w.cache[u].expiresAt - TTL - lag)
  }

  predicate RequestAged(w: World, q: Request, lag: nat) {
    && q.at <= w.now
    && match q
       case Reading(user, role, at) => RoleWas(w, user, role, at)
       case Loading(user, bundle, at) => Was(w, user, bundle, at)
       case Signing(user, bundle, at) => Was(w, user, bundle, at - TTL - lag)
  }

  ghost predicate Aged(w: World, lag: nat) {
    && CacheAged(w, lag)
    && (forall r :: r in w.requests ==> RequestAged(w, w.requests[r], lag))
    && forall c :: c in w.cookies ==> CookieAged(w, c, 2 * TTL + 2 * lag)
  }

  lemma CacheAgedKept(w: World, step: Step, lag: nat)
    requires Aged(w, lag) && Enabled(w, step) && Prompt(w, step, lag)
    ensures CacheAged(Apply(w, step), lag)
  {
    var w' := Apply(w, step);
    forall u | u in w'.cache
      ensures w'.cache[u].expiresAt - TTL <= w'.now
      ensures Was(w', u, w'.cache[u].bundle, w'.cache[u].expiresAt - TTL - lag)
    {
      var since := w'.cache[u].expiresAt - TTL - lag;
      if step.Stores? && w.requests[step.r].user == u { assert RequestAged(w, w.requests[step.r], lag); }
      assert Was(w, u, w'.cache[u].bundle, since);
      WasKept(w, step, u, w'.cache[u].bundle, since);
    }
  }

  lemma RequestStays(w: World, step: Step, q: Request, lag: nat)
    requires Enabled(w, step) && RequestAged(w, q, lag)
    ensures RequestAged(Apply(w, step), q, lag)
  {
    match q
    case Reading(user, role, at) => RoleKept(w, step, user, role, at);
    case Loading(user, bundle, at) => WasKept(w, step, user, bundle, at);
    case Signing(user, bundle, at) => WasKept(w, step, user, bundle, at - TTL - lag);
  }

  lemma RequestMoves(w: World, step: Step, lag: nat)
    requires Aged(w, lag) && Enabled(w, step)
    requires step.Hits? || step.ReadsRole? || step.ReadsPermissions? || step.Stores?
    ensures RequestAged(Apply(w, step), Apply(w, step).requests[step.r], lag)
  {
    if step.r in w.requests { assert RequestAged(w, w.requests[step.r], lag); }
  }

  lemma AgedKept(w: World, step: Step, lag: nat)
    requires Aged(w, lag) && Enabled(w, step) && Prompt(w, step, lag)
    ensures Aged(Apply(w, step), lag)
  {
    var w' := Apply(w, step);
    CacheAgedKept(w, step, lag);
    forall r | r in w'.requests ensures RequestAged(w', w'.requests[r], lag) {
      if r in w.requests && w'.requests[r] == w.requests[r] { RequestStays(w, step, w.requests[r], lag); }
      else { RequestMoves(w, step, lag); }
    }
    forall c | c in w'.cookies ensures CookieAged(w', c, 2 * TTL + 2 * lag) {
      if c in w.cookies {
        CookieKept(w, step, c, 2 * TTL + 2 * lag);
      } else {
        assert RequestAged(w, w.requests[step.r], lag);
        SignedAged(w, step, w.requests[step.r].at - TTL - lag, 2 * TTL + 2 * lag);
      }
    }
  }

  lemma {:induction false} AgedAlong(w: World, steps: seq<Step>, lag: nat)
    requires Aged(w, lag) && Legal(w, steps, lag)
    ensures Aged(Run(w, steps, lag), lag)
    decreases |steps|
  {
    if steps != [] {
      AgedKept(w, steps[0], lag);
      AgedAlong(Apply(w, steps[0]), steps[1..], lag);
    }
  }

  /** Any interleaving of requests and writes, invalidating or not: a cookie that is still
      accepted carries what the database held 120 s ago or later, plus twice the time one
      request may take between its first read and its signing. */
  lemma StalenessBound(db: map<string, Bundle>, start: int, steps: seq<Step>, lag: nat)
    requires Legal(Boot(db, start), steps, lag)
    ensures Within(Run(Boot(db, start), steps, lag), 120000 + 2 * lag)
  {
    AgedAlong(Boot(db, start), steps, lag);
    AgedIsWithin(Run(Boot(db, start), steps, lag), 2 * TTL + 2 * lag);
  }

  // ---- With invalidation ------------------------------------------------------------------

  /** A request that may still store what it has read, and has read something else than `b`. */
  predicate Stale(w: World, q: Request, b: Bundle, lag: nat) {
    && w.now - q.at <= lag
    && match q
       case Reading(_, role, _) => role != b.role
       case Loading(_, bundle, _) => bundle != b
       case Signing(_, _, _) => false
  }

  predicate AnyStale(w: World, user: string, b: Bundle, lag: nat) {
    exists r :: r in w.requests && w.requests[r].user == user && Stale(w, w.requests[r], b, lag)
  }

  /** Every write invalidates, within `gap` of its commit, and no invalidation finds a request
      that holds something else than the database and may still store it. */
  predicate Clean(w: World, step: Step, lag: nat, gap: nat) {
    match step
    case Writes(_, _, invalidates) => invalidates
    case Passes(ms) => forall u :: u in w.owed ==> w.now + ms - w.owed[u] <= gap
    case Invalidates(user) => !AnyStale(w, user, Loaded(w.db, user), lag)
    case _ => true
  }

  ghost predicate AllClean(w: World, steps: seq<Step>, lag: nat, gap: nat)
    requires Legal(w, steps, lag)
    decreases |steps|
  {
    steps != [] ==> Clean(w, steps[0], lag, gap) && AllClean(Apply(w, steps[0]), steps[1..], lag, gap)
  }

  /** What the database holds, or, while an invalidation is owed, held when it came to be owed. */
  predicate RoleCovered(w: World, user: string, role: string) {
    Loaded(w.db, user).role == role || (user in w.owed && RoleWas(w, user, role, w.owed[user]))
  }

  predicate PermissionsCovered(w: World, user: string, permissions: seq<string>) {
    || Loaded(w.db, user).permissions == permissions
    || (user in w.owed && PermissionsWere(w, user, permissions, w.owed[user]))
  }

  predicate Covered(w: World, user: string, b: Bundle) {
    RoleCovered(w, user, b.role) && PermissionsCovered(w, user, b.permissions)
  }

  predicate RequestCurrent(w: World, q: Request, lag: nat, gap: nat) {
    && q.at <= w.now
    && (w.now - q.at <= lag ==>
          match q
          case Reading(user, role, at) => RoleCovered(w, user, role)
          case Loading(user, bundle, at) => Covered(w, user, bundle)
          case Signing(user, bundle, at) => Was(w, user, bundle, at - gap))
  }

  ghost predicate Current(w: World, lag: nat, gap: nat) {
    && (forall u :: u in w.owed ==> w.now - gap <= w.owed[u] <= w.now)
    && (forall u :: u in w.cache ==> Covered(w, u, w.cache[u].bundle))
    && (forall r :: r in w.requests ==> RequestCurrent(w, w.requests[r], lag, gap))
    && (forall c :: c in w.cookies ==> CookieAged(w, c, TTL + lag + gap))
  }

  lemma CoveredIsRecent(w: World, user: string, b: Bundle, lag: nat, gap: nat)
    requires Current(w, lag, gap) && Covered(w, user, b)
    ensures Was(w, user, b, w.now - gap)
  {
  }

  lemma RoleCoveredKept(w: World, step: Step, user: string, role: string, lag: nat, gap: nat)
    requires Current(w, lag, gap) && Enabled(w, step) && RoleCovered(w, user, role)
    requires Clean(w, step, lag, gap) && !(step.Invalidates? && step.user == user)
    ensures RoleCovered(Apply(w, step), user, role)
  {
    var w' := Apply(w, step);
    if user in w.owed { if RoleWas(w, user, role, w.owed[user]) { RoleKept(w, step, user, role, w.owed[user]); } }
    if step.Writes? && step.user == user && Loaded(w.db, user).role == role {
      assert Held(user, Loaded(w.db, user), w.now) in w'.past;
    }
  }

  lemma PermissionsCoveredKept(w: World, step: Step, user: string, permissions: seq<string>, lag: nat, gap: nat)
    requires Current(w, lag, gap) && Enabled(w, step) && PermissionsCovered(w, user, permissions)
    requires Clean(w, step, lag, gap) && !(step.Invalidates? && step.user == user)
    ensures PermissionsCovered(Apply(w, step), user, permissions)
  {
    var w' := Apply(w, step);
    if user in w.owed {
      if PermissionsWere(w, user, permissions, w.owed[user]) {
        PermissionsKept(w, step, user, permissions, w.owed[user]);
      }
    }
    if step.Writes? && step.user == user && Loaded(w.db, user).permissions == permissions {
      assert Held(user, Loaded(w.db, user), w.now) in w'.past;
    }
  }

  lemma CoveredKept(w: World, step: Step, user: string, b: Bundle, lag: nat, gap: nat)
    requires Current(w, lag, gap) && Enabled(w, step) && Covered(w, user, b)
    requires Clean(w, step, lag, gap) && !(step.Invalidates? && step.user == user)
    ensures Covered(Apply(w, step), user, b)
  {
    RoleCoveredKept(w, step, user, b.role, lag, gap);
    PermissionsCoveredKept(w, step, user, b.permissions, lag, gap);
  }

  lemma CurrentCacheKept(w: World, step: Step, lag: nat, gap: nat, u: string)
    requires Current(w, lag, gap) && Enabled(w, step) && Prompt(w, step, lag) && Clean(w, step, lag, gap)
    requires u in Apply(w, step).cache
    ensures Covered(Apply(w, step), u, Apply(w, step).cache[u].bundle)
  {
    var b := Apply(w, step).cache[u].bundle;
    if step.Stores? && w.requests[step.r].user == u { assert RequestCurrent(w, w.requests[step.r], lag, gap); }
    assert Covered(w, u, b);
    CoveredKept(w, step, u, b, lag, gap);
  }

  lemma CurrentRequestStays(w: World, step: Step, lag: nat, gap: nat, r: nat)
    requires Current(w, lag, gap) && Enabled(w, step) && Clean(w, step, lag, gap)
    requires r in w.requests && r in Apply(w, step).requests && Apply(w, step).requests[r] == w.requests[r]
    ensures RequestCurrent(Apply(w, step), w.requests[r], lag, gap)
  {
    var w', q := Apply(w, step), w.requests[r];
    assert RequestCurrent(w, q, lag, gap);
    if w'.now - q.at <= lag {
      if step.Invalidates? && step.user == q.user {
        assert !Stale(w, q, Loaded(w.db, q.user), lag);
        if q.Signing? { WasKept(w, step, q.user, q.bundle, q.at - gap); }
      } else {
        match q
        case Reading(user, role, at) => RoleCoveredKept(w, step, user, role, lag, gap);
        case Loading(user, bundle, at) => CoveredKept(w, step, user, bundle, lag, gap);
        case Signing(user, bundle, at) => WasKept(w, step, user, bundle, at - gap);
      }
    }
  }

  lemma CurrentRequestMoves(w: World, step: Step, lag: nat, gap: nat)
    requires Current(w, lag, gap) && Enabled(w, step) && Prompt(w, step, lag)
    requires step.Hits? || step.ReadsRole? || step.ReadsPermissions? || step.Stores?
    ensures RequestCurrent(Apply(w, step), Apply(w, step).requests[step.r], lag, gap)
  {
    var w' := Apply(w, step);
    if step.r in w.requests { assert RequestCurrent(w, w.requests[step.r], lag, gap); }
    if step.Hits? {
      CoveredIsRecent(w, step.user, w.cache[step.user].bundle, lag, gap);
    } else if step.Stores? {
      CoveredIsRecent(w, w.requests[step.r].user, w.requests[step.r].bundle, lag, gap);
    }
  }

  lemma CurrentKept(w: World, step: Step, lag: nat, gap: nat)
    requires Current(w, lag, gap) && Enabled(w, step) && Prompt(w, step, lag) && Clean(w, step, lag, gap)
    ensures Current(Apply(w, step), lag, gap)
  {
    var w' := Apply(w, step);
    forall u | u in w'.cache ensures Covered(w', u, w'.cache[u].bundle) { CurrentCacheKept(w, step, lag, gap, u); }
    forall r | r in w'.requests ensures RequestCurrent(w', w'.requests[r], lag, gap) {
      if r in w.requests && w'.requests[r] == w.requests[r] { CurrentRequestStays(w, step, lag, gap, r); }
      else { CurrentRequestMoves(w, step, lag, gap); }
    }
    forall c | c in w'.cookies ensures CookieAged(w', c, TTL + lag + gap) {
      if c in w.cookies {
        CookieKept(w, step, c, TTL + lag + gap);
      } else {
        assert RequestCurrent(w, w.requests[step.r], lag, gap);
        SignedAged(w, step, w.requests[step.r].at - gap, TTL + lag + gap);
      }
    }
  }

  lemma {:induction false} CurrentAlong(w: World, steps: seq<Step>, lag: nat, gap: nat)
    requires Current(w, lag, gap) && Legal(w, steps, lag) && AllClean(w, steps, lag, gap)
    ensures Current(Run(w, steps, lag), lag, gap)
    decreases |steps|
  {
    if steps != [] {
      CurrentKept(w, steps[0], lag, gap);
      CurrentAlong(Apply(w, steps[0]), steps[1..], lag, gap);
    }
  }

  lemma CurrentIsWithin(w: World, lag: nat, gap: nat)
    requires Current(w, lag, gap)
    ensures Within(w, TTL + lag + gap)
  {
    AgedIsWithin(w, TTL + lag + gap);
  }

  lemma BootIsCurrent(db: map<string, Bundle>, start: int, lag: nat, gap: nat)
    ensures Current(Boot(db, start), lag, gap)
  {
  }

  /** When every write is invalidated within `gap`, and no invalidation finds a request that
      holds something older and may still store it, an accepted cookie is at most 60 s old, plus
      the gap and the time of one request. */
  lemma InvalidatedBound(db: map<string, Bundle>, start: int, steps: seq<Step>, lag: nat, gap: nat)
    requires Legal(Boot(db, start), steps, lag) && AllClean(Boot(db, start), steps, lag, gap)
    ensures Within(Run(Boot(db, start), steps, lag), 60000 + lag + gap)
  {
    BootIsCurrent(db, start, lag, gap);
    CurrentAlong(Boot(db, start), steps, lag, gap);
    CurrentIsWithin(Run(Boot(db, start), steps, lag), lag, gap);
  }

  // ---- Exactly when an invalidation is enough ----------------------------------------------

  ghost predicate CleanTo(w: World, steps: seq<Step>, lag: nat, gap: nat, end: World) {
    Legal(w, steps, lag) && AllClean(w, steps, lag, gap) && Run(w, steps, lag) == end
  }

  lemma Stay(w: World, lag: nat, gap: nat)
    ensures CleanTo(w, [], lag, gap, w)
  {
  }

  lemma Go(w: World, step: Step, w1: World, steps: seq<Step>, lag: nat, gap: nat, end: World)
    requires Enabled(w, step) && Apply(w, step) == w1 && Prompt(w, step, lag) && Clean(w, step, lag, gap)
    requires CleanTo(w1, steps, lag, gap, end)
    ensures CleanTo(w, [step] + steps, lag, gap, end)
  {
    assert ([step] + steps)[1..] == steps;
  }

  predicate PastOk(w: World) {
    forall h :: h in w.past ==> h.until <= w.now
  }

  /** A hit at the end of the entry's life, signed `lag` later, accepted to the end of its own. */
  function LateSteps(n: nat, user: string, sessionRole: string, lag: nat): seq<Step> {
    [Passes(TTL - 1)] + ([Hits(n, user)] + ([Passes(lag)] + ([Signs(n, sessionRole)] + ([Passes(TTL)] + []))))
  }

  function LateEnd(w: World, user: string, x: Bundle, sessionRole: string, lag: nat): World {
    var signed := w.now + TTL - 1 + lag;
    w.(now := signed + TTL, cookies := w.cookies + {Issued(Signing(user, x, signed), sessionRole, signed)})
  }

  lemma LateRun(w: World, n: nat, user: string, x: Bundle, sessionRole: string, lag: nat, gap: nat)
    requires w.owed == map[] && n !in w.requests && user in w.cache && w.cache[user] == Entry(x, w.now + TTL)
    ensures CleanTo(w, LateSteps(n, user, sessionRole, lag), lag, gap, LateEnd(w, user, x, sessionRole, lag))
  {
    var w1 := w.(now := w.now + TTL - 1);
    var w2 := w1.(requests := w.requests[n := Signing(user, x, w1.now)]);
    var w3 := w2.(now := w1.now + lag);
    var c := Issued(Signing(user, x, w3.now), sessionRole, w3.now);
    var w4 := w3.(requests := w.requests, cookies := w.cookies + {c});
    var end := LateEnd(w, user, x, sessionRole, lag);
    assert w3.requests - {n} == w.requests;
    Stay(end, lag, gap);
    Go(w4, Passes(TTL), end, [], lag, gap, end);
    Go(w3, Signs(n, sessionRole), w4, [Passes(TTL)] + [], lag, gap, end);
    Go(w2, Passes(lag), w3, [Signs(n, sessionRole)] + ([Passes(TTL)] + []), lag, gap, end);
    Go(w1, Hits(n, user), w2, [Passes(lag)] + ([Signs(n, sessionRole)] + ([Passes(TTL)] + [])), lag, gap, end);
    Go(w, Passes(TTL - 1), w1,
       [Hits(n, user)] + ([Passes(lag)] + ([Signs(n, sessionRole)] + ([Passes(TTL)] + []))), lag, gap, end);
  }

  /** A cookie that shows something else than the one value of the window is too old. */
  lemma TooOld(w: World, c: Cookie, age: int)
    requires c in w.cookies && w.now <= c.exp && (forall h :: h in w.past ==> h.until < w.now - age)
    requires var b := Loaded(w.db, c.user); b.role != "" && (c.permissions != b.permissions || c.role != b.role)
    ensures !Within(w, age)
  {
    var b := Loaded(w.db, c.user);
    var since := w.now - age;
    forall role | RoleWas(w, c.user, role, since) ensures role == b.role { }
    assert PermissionsWere(w, c.user, c.permissions, since) ==> c.permissions == b.permissions;
    assert !Shows(w, c, since);
  }

  function OtherRole(b: Bundle): string {
    if b.role == "A" then "B" else "A"
  }

  /** An entry that was stored stale outlives the bound. */
  lemma StaleEntryBreaks(w: World, user: string, x: Bundle, b: Bundle, lag: nat, gap: nat)
    returns (steps: seq<Step>)
    requires w.owed == map[] && PastOk(w) && gap < TTL - 1
    requires user in w.cache && w.cache[user] == Entry(x, w.now + TTL)
    requires Loaded(w.db, user) == b && b.role != "" && x != b
    ensures Legal(w, steps, lag) && AllClean(w, steps, lag, gap)
    ensures !Within(Run(w, steps, lag), TTL + lag + gap)
    ensures forall i :: 0 <= i < |steps| ==> !steps[i].Writes?
  {
    var n := Above(w.requests.Keys);
    assert n !in w.requests;
    var sessionRole := OtherRole(b);
    LateRun(w, n, user, x, sessionRole, lag, gap);
    steps := LateSteps(n, user, sessionRole, lag);
    var end := LateEnd(w, user, x, sessionRole, lag);
    var signed := w.now + TTL - 1 + lag;
    var c := Issued(Signing(user, x, signed), sessionRole, signed);
    assert c in end.cookies && end.now == c.exp && end.db == w.db && end.past == w.past;
    TooOld(end, c, TTL + lag + gap);
  }

  /** A stale request stores what it holds, and the entry outlives the bound. */
  lemma StaleRequestBreaks(w: World, r: nat, b: Bundle, lag: nat, gap: nat) returns (steps: seq<Step>)
    requires w.owed == map[] && PastOk(w) && gap < TTL - 1
    requires r in w.requests && Stale(w, w.requests[r], b, lag)
    requires Loaded(w.db, w.requests[r].user) == b && b.role != ""
    ensures Legal(w, steps, lag) && AllClean(w, steps, lag, gap)
    ensures !Within(Run(w, steps, lag), TTL + lag + gap)
    ensures forall i :: 0 <= i < |steps| ==> !steps[i].Writes?
    decreases if r in w.requests && w.requests[r].Reading? then 1 else 0
  {
    var q := w.requests[r];
    if q.Loading? {
      var w1 := Apply(w, Stores(r));
      var rest := StaleEntryBreaks(w1, q.user, q.bundle, b, lag, gap);
      Go(w, Stores(r), w1, rest, lag, gap, Run(w1, rest, lag));
      steps := [Stores(r)] + rest;
    } else {
      var w1 := Apply(w, ReadsPermissions(r));
      var rest := StaleRequestBreaks(w1, r, b, lag, gap);
      Go(w, ReadsPermissions(r), w1, rest, lag, gap, Run(w1, rest, lag));
      steps := [ReadsPermissions(r)] + rest;
    }
  }

  /** The world right after a write and its invalidation. */
  function Rewritten(w: World, user: string, b: Bundle): World
    requires w.owed == map[]
  {
    Apply(Apply(w, Writes(user, b, true)), Invalidates(user))
  }

  lemma RewrittenIs(w: World, user: string, b: Bundle)
    requires w.owed == map[]
    ensures Rewritten(w, user, b)
         == w.(db := w.db[user := b], past := w.past + {Held(user, Loaded(w.db, user), w.now)},
               cache := w.cache - {user})
  {
    assert map[user := w.now] - {user} == map[];
  }

  /** After a write that is invalidated at once, everything that can still happen stays within
      the bound exactly when no request of that user that may still store holds something else
      than what was written. Requests that are already signing are within their `lag`. */
  lemma InvalidationIff(w: World, user: string, b: Bundle, lag: nat, gap: nat)
    requires Current(w, lag, gap) && w.owed == map[] && PastOk(w) && b.role != "" && gap < TTL - 1
    ensures var w2 := Rewritten(w, user, b);
            (forall steps :: Legal(w2, steps, lag) && AllClean(w2, steps, lag, gap)
                             ==> Within(Run(w2, steps, lag), TTL + lag + gap))
            <==> !AnyStale(w, user, b, lag)
  {
    var w1, w2 := Apply(w, Writes(user, b, true)), Rewritten(w, user, b);
    RewrittenIs(w, user, b);
    if AnyStale(w, user, b, lag) {
      var r :| r in w.requests && w.requests[r].user == user && Stale(w, w.requests[r], b, lag);
      var steps := StaleRequestBreaks(w2, r, b, lag, gap);
    } else {
      CurrentKept(w, Writes(user, b, true), lag, gap);
      CurrentKept(w1, Invalidates(user), lag, gap);
      forall steps | Legal(w2, steps, lag) && AllClean(w2, steps, lag, gap)
        ensures Within(Run(w2, steps, lag), TTL + lag + gap)
      {
        CurrentAlong(w2, steps, lag, gap);
        CurrentIsWithin(Run(w2, steps, lag), lag, gap);
      }
    }
  }

  lemma Prefixed(w: World, step: Step, w1: World, steps: seq<Step>, lag: nat)
    requires Enabled(w, step) && Apply(w, step) == w1 && Prompt(w, step, lag) && Legal(w1, steps, lag)
    ensures Legal(w, [step] + steps, lag) && Run(w, [step] + steps, lag) == Run(w1, steps, lag)
  {
    assert ([step] + steps)[1..] == steps;
  }

  /** One input: a load that read before the write stores after the invalidation. A later request
      hits that entry, and its cookie is accepted two minutes, less a millisecond, after the write
      was invalidated. */
  lemma OverlapOutlivesInvalidation(user: string, prior: Bundle, next: Bundle, lag: nat) returns (rest: seq<Step>)
    requires prior != next && next.role != ""
    ensures forall i :: 0 <= i < |rest| ==> !rest[i].Writes?
    ensures var steps := [ReadsRole(0, user)] + ([ReadsPermissions(0)]
                         + ([Writes(user, next, true)] + ([Invalidates(user)] + rest)));
            && Legal(Boot(map[user := prior], 0), steps, lag)
            && !Within(Run(Boot(map[user := prior], 0), steps, lag), TTL + lag)
  {
    var w0 := Boot(map[user := prior], 0);
    var w1 := w0.(requests := map[0 := Reading(user, prior.role, 0)]);
    var w2 := w0.(requests := map[0 := Loading(user, prior, 0)]);
    var w3, w4 := Apply(w2, Writes(user, next, true)), Rewritten(w2, user, next);
    RewrittenIs(w2, user, next);
    rest := StaleRequestBreaks(w4, 0, next, lag, 0);
    Prefixed(w3, Invalidates(user), w4, rest, lag);
    Prefixed(w2, Writes(user, next, true), w3, [Invalidates(user)] + rest, lag);
    Prefixed(w1, ReadsPermissions(0), w2, [Writes(user, next, true)] + ([Invalidates(user)] + rest), lag);
    Prefixed(w0, ReadsRole(0, user), w1,
             [ReadsPermissions(0)] + ([Writes(user, next, true)] + ([Invalidates(user)] + rest)), lag);
  }

  /** From the hit on: the invalidation, then `lag` until the signing, then the cookie's life. */
  lemma AfterTheHit(w: World, user: string, q: Request, sessionRole: string, lag: nat, gap: nat)
    returns (steps: seq<Step>, end: World)
    requires q.Signing? && q.user == user && q.at == w.now && w.requests == map[0 := q] && w.owed.Keys == {user}
    ensures CleanTo(w, steps, lag, gap, end)
    ensures end.now == w.now + lag + TTL && end.db == w.db && end.past == w.past
    ensures Issued(q, sessionRole, w.now + lag) in end.cookies
  {
    var w4 := w.(cache := w.cache - {user}, owed := map[]);
    var w5 := w4.(now := w.now + lag);
    var c := Issued(q, sessionRole, w5.now);
    var w6 := w5.(requests := map[], cookies := w.cookies + {c});
    end := w6.(now := c.exp);
    assert w.owed - {user} == map[] && w.requests - {0} == map[];
    Stay(end, lag, gap);
    Go(w6, Passes(TTL), end, [], lag, gap, end);
    steps := [Passes(TTL)] + [];
    Go(w5, Signs(0, sessionRole), w6, steps, lag, gap, end);
    steps := [Signs(0, sessionRole)] + steps;
    Go(w4, Passes(lag), w5, steps, lag, gap, end);
    steps := [Passes(lag)] + steps;
    Go(w, Invalidates(user), w4, steps, lag, gap, end);
    steps := [Invalidates(user)] + steps;
  }

  /** The gap counts in full: a hit just before the invalidation of a write made `gap` ago is
      signed, and accepted 60 s, `gap` and `lag` after that write. */
  lemma GapReached(w: World, user: string, b: Bundle, lag: nat, gap: nat, age: int) returns (steps: seq<Step>)
    requires w.owed == map[] && w.requests == map[] && PastOk(w) && b.role != ""
    requires user in w.cache && w.cache[user].bundle != b && w.cache[user].expiresAt > w.now + gap
    requires age < TTL + lag + gap
    ensures Legal(w, steps, lag) && AllClean(w, steps, lag, gap) && !Within(Run(w, steps, lag), age)
  {
    var x, sessionRole := w.cache[user].bundle, OtherRole(b);
    var q := Signing(user, x, w.now + gap);
    var w1 := Apply(w, Writes(user, b, true));
    var w2 := w1.(now := w.now + gap);
    var w3 := w2.(requests := map[0 := q]);
    assert w1.owed == map[user := w.now];
    var rest, end := AfterTheHit(w3, user, q, sessionRole, lag, gap);
    Go(w2, Hits(0, user), w3, rest, lag, gap, end);
    steps := [Hits(0, user)] + rest;
    Go(w1, Passes(gap), w2, steps, lag, gap, end);
    steps := [Passes(gap)] + steps;
    Go(w, Writes(user, b, true), w1, steps, lag, gap, end);
    steps := [Writes(user, b, true)] + steps;
    assert Loaded(end.db, user) == b;
    TooOld(end, Issued(q, sessionRole, w3.now + lag), age);
  }
}
