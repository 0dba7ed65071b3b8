/** Sessions kept twice: a database row that is authoritative and a Redis entry that is read
    first. The two levels refine one map from tokens to the last session written. */
module SessionStore {
  import opened Common
  import opened SessionTypes

  /** `rest` stands for the fields no operation here looks at. */
  datatype Session = Session(
    id: string, branchIds: seq<string>, currentBranchId: Option<string>, activeGroupId: Option<string>,
    currencyCodes: seq<string>, rest: string)

  datatype Row = Row(userId: string, session: Session, expiresAt: int, revoked: bool)
  datatype Cached = Cached(session: Session, expiresAt: int)

  /** Times are in milliseconds, `ttl` arguments in seconds. */
  datatype Store = Store(db: map<string, Row>, cache: map<string, Cached>, now: int, healthy: bool)

  // ---- Redis, skipped while unhealthy ----------------------------------------------------

  function RedisGet(s: Store, t: string): Option<Session> {
    if s.healthy && t in s.cache && s.cache[t].expiresAt > s.now then Some(s.cache[t].session) else None
  }

  /** A lifetime that is not positive is refused, and the refusal only logged. */
  function RedisSet(s: Store, t: string, u: Session, ttl: int): Store {
    if s.healthy && ttl > 0 then s.(cache := s.cache[t := Cached(u, s.now + ttl * 1000)]) else s
  }

  function RedisDel(s: Store, t: string): Store {
    if s.healthy then s.(cache := s.cache - {t}) else s
  }

  function RedisExpire(s: Store, t: string, ttl: int): Store {
    if s.healthy && t in s.cache && s.cache[t].expiresAt > s.now
    then s.(cache := s.cache[t := s.cache[t].(expiresAt := s.now + ttl * 1000)])
    else s
  }

  // ---- Operations -----------------------------------------------------------------------

  predicate Readable(s: Store, t: string) {
    t in s.db && !s.db[t].revoked && s.db[t].expiresAt > s.now
  }

  function Max(a: int, b: int): int {
    if a >= b then a else b
  }

  function Created(s: Store, t: string, u: Session, ttl: int): Store {
    RedisSet(if t in s.db then s else s.(db := s.db[t := Row(u.id, u, s.now + ttl * 1000, false)]), t, u, ttl)
  }

  function Got(s: Store, t: string, fallback: bool): (Option<Session>, Store) {
    if RedisGet(s, t).Some? then (RedisGet(s, t), s)
    else if !fallback || !Readable(s, t) then (None, s)
    else
      var u := s.db[t].session;
      (Some(u), RedisSet(s, t, u, Max(1, (s.db[t].expiresAt - s.now) / 1000)))
  }

  function Touched(s: Store, t: string, ttl: int): Store {
    var s1 := RedisExpire(s, t, ttl);
    if s.healthy || t !in s.db || s.db[t].revoked then s1
    else s1.(db := s.db[t := s.db[t].(expiresAt := s.now + ttl * 1000)])
  }

  function Updated(s: Store, t: string, u: Session, ttl: int): Store {
    var s1 := if t in s.db && !s.db[t].revoked
              then s.(db := s.db[t := s.db[t].(session := u, expiresAt := s.now + ttl * 1000)])
              else s;
    RedisSet(s1, t, u, ttl)
  }

  function Deleted(s: Store, t: string): Store {
    RedisDel(if t in s.db then s.(db := s.db[t := s.db[t].(revoked := true)]) else s, t)
  }

  function DeletedAll(s: Store, tokens: seq<string>): Store
    decreases |tokens|
  {
    if tokens == [] then s else DeletedAll(Deleted(s, tokens[0]), tokens[1..])
  }

  /** The tokens a by-user query selects. */
  function ActiveOf(s: Store, userId: string): set<string> {
    set t | t in s.db && s.db[t].userId == userId && Readable(s, t)
  }

  function RemainingTtl(s: Store, t: string, dbExpiresAt: int): int {
    var ttl := if t in s.cache then (s.cache[t].expiresAt - s.now + 500) / 1000 else -2;
    if s.healthy && ttl > 0 then ttl else Max(60, (dbExpiresAt - s.now) / 1000)
  }

  function Rebranched(u: Session, ms: seq<Membership>): Session {
    u.(branchIds := Ids(ms), currentBranchId := Reconciled(u.currentBranchId, ms))
  }

  function Recountried(u: Session, gs: seq<Grant>): Session {
    u.(currencyCodes := RefreshedCodes(gs, u.activeGroupId))
  }

  datatype Refresh = Branches(ms: seq<Membership>) | Countries(gs: seq<Grant>)

  function Refreshed(u: Session, r: Refresh): Session {
    match r
    case Branches(ms) => Rebranched(u, ms)
    case Countries(gs) => Recountried(u, gs)
  }

  /** The loop over the selected rows; `seen` is the state they were selected in. */
  function RefreshRows(s: Store, seen: Store, r: Refresh, tokens: seq<string>): Store
    requires forall t :: t in tokens ==> t in seen.db
    decreases |tokens|
  {
    if tokens == [] then s
    else
      var t := tokens[0];
      var ttl := RemainingTtl(s, t, seen.db[t].expiresAt);
      RefreshRows(Updated(s, t, Refreshed(seen.db[t].session, r), ttl), seen, r, tokens[1..])
  }

  lemma RefreshNext(s: Store, seen: Store, r: Refresh, tokens: seq<string>, i: nat)
    requires i < |tokens| && forall t :: t in tokens ==> t in seen.db
    ensures var t := tokens[i];
            var ttl := RemainingTtl(s, t, seen.db[t].expiresAt);
            RefreshRows(s, seen, r, tokens[i..])
            == RefreshRows(Updated(s, t, Refreshed(seen.db[t].session, r), ttl), seen, r, tokens[i + 1..])
  {
    assert tokens[i..][1..] == tokens[i + 1..];
  }

  ghost predicate Enumerates(tokens: seq<string>, all: set<string>) {
    && (forall t :: t in tokens <==> t in all)
    && (forall i, j :: 0 <= i < j < |tokens| ==> tokens[i] != tokens[j])
  }

  // ---- The service ----------------------------------------------------------------------

  class SessionStoreService {
    const fallback: bool
    var db: map<string, Row>
    var cache: map<string, Cached>
    var now: int
    var healthy: bool

    ghost function State(): Store
      reads this
    {
      Store(db, cache, now, healthy)
    }

    constructor (fallback: bool, now: int)
      ensures State() == Store(map[], map[], now, false) && this.fallback == fallback
    {
      this.fallback, this.now := fallback, now;
      db, cache, healthy := map[], map[], false;
    }

    method TryRedisSet(t: string, u: Session, ttl: int)
      modifies this`cache
      ensures State() == RedisSet(old(State()), t, u, ttl)
    {
      if !healthy || ttl <= 0 { return; }
      cache := cache[t := Cached(u, now + ttl * 1000)];
    }

    method CreateSession(t: string, u: Session, ttl: int)
      modifies this`db, this`cache
      ensures State() == Created(old(State()), t, u, ttl)
    {
      if t !in db { db := db[t := Row(u.id, u, now + ttl * 1000, false)]; }
      TryRedisSet(t, u, ttl);
    }

    method GetSession(t: string) returns (r: Option<Session>)
      modifies this`cache
      ensures r == Got(old(State()), t, fallback).0 && State() == Got(old(State()), t, fallback).1
    {
      if healthy && t in cache && cache[t].expiresAt > now { return Some(cache[t].session); }
      if !fallback { return None; }
      if t !in db || db[t].revoked || db[t].expiresAt <= now { return None; }
      var row := db[t];
      TryRedisSet(t, row.session, Max(1, (row.expiresAt - now) / 1000));
      return Some(row.session);
    }

    method TouchSession(t: string, ttl: int)
      modifies this`db, this`cache
      ensures State() == Touched(old(State()), t, ttl)
    {
      if healthy && t in cache && cache[t].expiresAt > now {
        cache := cache[t := cache[t].(expiresAt := now + ttl * 1000)];
      }
      if healthy { return; }
      if t in db && !db[t].revoked {
        db := db[t := db[t].(expiresAt := now + ttl * 1000)];
      }
    }

    method UpdateSession(t: string, u: Session, ttl: int)
      modifies this`db, this`cache
      ensures State() == Updated(old(State()), t, u, ttl)
    {
      if t in db && !db[t].revoked {
        db := db[t := db[t].(session := u, expiresAt := now + ttl * 1000)];
      }
      TryRedisSet(t, u, ttl);
    }

    method DeleteSession(t: string)
      modifies this`db, this`cache
      ensures State() == Deleted(old(State()), t)
    {
      if t in db { db := db[t := db[t].(revoked := true)]; }
      if healthy { cache := cache - {t}; }
    }

    /** `tokens` is the order in which the query returns the user's active rows. */
    method DeleteAllUserSessions(userId: string, tokens: seq<string>) returns (n: nat)
      requires Enumerates(tokens, ActiveOf(State(), userId))
      modifies this`db, this`cache
      ensures State() == DeletedAll(old(State()), tokens) && n == |tokens|
    {
      for i := 0 to |tokens|
        invariant DeletedAll(State(), tokens[i..]) == DeletedAll(old(State()), tokens)
      {
        assert tokens[i..][1..] == tokens[i + 1..];
        DeleteSession(tokens[i]);
      }
      return |tokens|;
    }

    /** Both refresh operations: one row at a time, from the rows selected at the start. */
    method RefreshUser(userId: string, r: Refresh, tokens: seq<string>) returns (updated: nat)
      requires Enumerates(tokens, ActiveOf(State(), userId))
      modifies this`db, this`cache
      ensures State() == RefreshRows(old(State()), old(State()), r, tokens) && updated == |tokens|
    {
      var rows := db;
      ghost var seen := State();
      updated := 0;
      for i := 0 to |tokens|
        invariant updated == i && rows == seen.db
        invariant forall t :: t in tokens ==> t in rows
        invariant RefreshRows(State(), seen, r, tokens[i..]) == RefreshRows(seen, seen, r, tokens)
      {
        var t := tokens[i];
        RefreshNext(State(), seen, r, tokens, i);
        var left := if t in cache then (cache[t].expiresAt - now + 500) / 1000 else -2;
        var ttl := if healthy && left > 0 then left else Max(60, (rows[t].expiresAt - now) / 1000);
        assert ttl == RemainingTtl(State(), t, rows[t].expiresAt);
        UpdateSession(t, Refreshed(rows[t].session, r), ttl);
        updated := updated + 1;
      }
      assert tokens[|tokens|..] == [];
    }
  }

  // ---- One map --------------------------------------------------------------------------

  /** Cold recovery: Redis comes back empty. `Evicts` is Redis dropping an entry on its own. */
  datatype Op =
    | Create(t: string, u: Session, ttl: int)
    | Get(t: string)
    | Touch(t: string, ttl: int)
    | Update(t: string, u: Session, ttl: int)
    | Delete(t: string)
    | DeleteAll(userId: string, tokens: seq<string>)
    | RefreshAll(userId: string, r: Refresh, tokens: seq<string>)
    | Passes(ms: nat)
    | Outage
    | Recovers
    | Evicts(t: string)

  /** Sessions by token, without levels, clocks or health. */
  type Sessions = map<string, Session>

  function AbsRefresh(m: Sessions, r: Refresh, tokens: seq<string>): Sessions {
    map t | t in m :: if t in tokens then Refreshed(m[t], r) else m[t]
  }

  function AbsApply(m: Sessions, op: Op): Sessions {
    match op
    case Create(t, u, _) => m[t := u]
    case Update(t, u, _) => m[t := u]
    case Delete(t) => m - {t}
    case DeleteAll(_, tokens) => m - (set t | t in tokens)
    case RefreshAll(_, r, tokens) => AbsRefresh(m, r, tokens)
    case _ => m
  }

  /** The last session written for the token, unless it was deleted. */
  function Live(s: Store): Sessions {
    map t | t in s.db && !s.db[t].revoked :: s.db[t].session
  }

  /** Redis is not in use, or will take the entry, or holds nothing else for the token. */
  predicate UpdateFits(s: Store, t: string, u: Session, ttl: int) {
    !s.healthy || if ttl > 0 then t in Live(s) else t in Live(s) && RedisGet(s, t).Some? ==> RedisGet(s, t).value == u
  }

  ghost predicate Allowed(s: Store, op: Op) {
    match op
    case Create(t, _, _) => t !in s.db
    case Update(t, u, ttl) => t in Live(s) && UpdateFits(s, t, u, ttl)
    case DeleteAll(userId, tokens) => Enumerates(tokens, ActiveOf(s, userId))
    case RefreshAll(userId, _, tokens) => Enumerates(tokens, ActiveOf(s, userId))
    case _ => true
  }

  ghost function Apply(s: Store, op: Op, fallback: bool): Store
    requires Allowed(s, op)
  {
    match op
    case Create(t, u, ttl) => Created(s, t, u, ttl)
    case Get(t) => Got(s, t, fallback).1
    case Touch(t, ttl) => Touched(s, t, ttl)
    case Update(t, u, ttl) => Updated(s, t, u, ttl)
    case Delete(t) => Deleted(s, t)
    case DeleteAll(_, tokens) => DeletedAll(s, tokens)
    case RefreshAll(_, r, tokens) => RefreshRows(s, s, r, tokens)
    case Passes(ms) => s.(now := s.now + ms)
    case Outage => s.(healthy := false)
    case Recovers => s.(healthy := true, cache := map[])
    case Evicts(t) => s.(cache := s.cache - {t})
  }

  /** While Redis is in use, what it holds unexpired is what was last written. */
  predicate Coherent(s: Store) {
    s.healthy ==>
      forall t :: t in s.cache && s.cache[t].expiresAt > s.now ==> t in Live(s) && s.cache[t].session == Live(s)[t]
  }

  lemma DeletedLive(s: Store, t: string)
    requires Coherent(s)
    ensures Coherent(Deleted(s, t)) && Live(Deleted(s, t)) == Live(s) - {t}
  {
  }

  lemma {:induction false} DeletedAllLive(s: Store, tokens: seq<string>)
    requires Coherent(s)
    ensures Coherent(DeletedAll(s, tokens)) && Live(DeletedAll(s, tokens)) == Live(s) - (set t | t in tokens)
    decreases |tokens|
  {
    if tokens != [] {
      DeletedLive(s, tokens[0]);
      DeletedAllLive(Deleted(s, tokens[0]), tokens[1..]);
      assert (set t | t in tokens) == {tokens[0]} + (set t | t in tokens[1..]);
    }
  }

  lemma UpdatedLive(s: Store, t: string, u: Session, ttl: int)
    requires Coherent(s) && t in Live(s) && UpdateFits(s, t, u, ttl)
    ensures Coherent(Updated(s, t, u, ttl)) && Live(Updated(s, t, u, ttl)) == Live(s)[t := u]
    ensures Updated(s, t, u, ttl).db.Keys == s.db.Keys
  {
  }

  lemma TailApart(tokens: seq<string>)
    requires tokens != [] && forall i, j :: 0 <= i < j < |tokens| ==> tokens[i] != tokens[j]
    ensures tokens[0] !in tokens[1..] && forall x :: x in tokens <==> x == tokens[0] || x in tokens[1..]
    ensures forall i, j :: 0 <= i < j < |tokens[1..]| ==> tokens[1..][i] != tokens[1..][j]
  {
    forall i | 0 <= i < |tokens[1..]| ensures tokens[1..][i] == tokens[i + 1] {}
    assert tokens == [tokens[0]] + tokens[1..];
  }

  lemma AbsRefreshNext(m: Sessions, r: Refresh, tokens: seq<string>)
    requires tokens != [] && tokens[0] in m && tokens[0] !in tokens[1..]
    ensures AbsRefresh(m[tokens[0] := Refreshed(m[tokens[0]], r)], r, tokens[1..]) == AbsRefresh(m, r, tokens)
  {
    assert tokens == [tokens[0]] + tokens[1..];
  }

  lemma {:induction false} RefreshedLive(s: Store, seen: Store, r: Refresh, tokens: seq<string>)
    requires Coherent(s)
    requires forall t :: t in tokens ==> t in seen.db && t in Live(s) && Live(s)[t] == seen.db[t].session
    requires forall i, j :: 0 <= i < j < |tokens| ==> tokens[i] != tokens[j]
    ensures Coherent(RefreshRows(s, seen, r, tokens))
    ensures Live(RefreshRows(s, seen, r, tokens)) == AbsRefresh(Live(s), r, tokens)
    decreases |tokens|
  {
    if tokens == [] {
      assert AbsRefresh(Live(s), r, tokens) == Live(s);
    } else {
      var t := tokens[0];
      var u, ttl := Refreshed(seen.db[t].session, r), RemainingTtl(s, t, seen.db[t].expiresAt);
      var s1 := Updated(s, t, u, ttl);
      TailApart(tokens);
      UpdatedLive(s, t, u, ttl);
      RefreshedLive(s1, seen, r, tokens[1..]);
      AbsRefreshNext(Live(s), r, tokens);
    }
  }

  lemma CreatedLive(s: Store, t: string, u: Session, ttl: int)
    requires Coherent(s) && t !in s.db
    ensures Coherent(Created(s, t, u, ttl)) && Live(Created(s, t, u, ttl)) == Live(s)[t := u]
  {
  }

  lemma GotLive(s: Store, t: string, fallback: bool)
    requires Coherent(s)
    ensures Coherent(Got(s, t, fallback).1) && Live(Got(s, t, fallback).1) == Live(s)
  {
  }

  lemma TouchedLive(s: Store, t: string, ttl: int)
    requires Coherent(s)
    ensures Coherent(Touched(s, t, ttl)) && Live(Touched(s, t, ttl)) == Live(s)
  {
  }

  /** One step of the two-level store is the same step of the plain map. */
  lemma StepRefines(s: Store, op: Op, fallback: bool)
    requires Coherent(s) && Allowed(s, op)
    ensures Coherent(Apply(s, op, fallback))
    ensures Live(Apply(s, op, fallback)) == AbsApply(Live(s), op)
  {
    match op
    case Create(t, u, ttl) => CreatedLive(s, t, u, ttl);
    case Get(t) => GotLive(s, t, fallback);
    case Touch(t, ttl) => TouchedLive(s, t, ttl);
    case Update(t, u, ttl) => UpdatedLive(s, t, u, ttl);
    case Delete(t) => DeletedLive(s, t);
    case DeleteAll(userId, tokens) => DeletedAllLive(s, tokens);
    case RefreshAll(userId, r, tokens) => RefreshedLive(s, s, r, tokens);
    case _ =>
  }

  ghost predicate Legal(s: Store, ops: seq<Op>, fallback: bool)
    decreases |ops|
  {
    ops == [] || (Allowed(s, ops[0]) && Legal(Apply(s, ops[0], fallback), ops[1..], fallback))
  }

  ghost function Run(s: Store, ops: seq<Op>, fallback: bool): Store
    requires Legal(s, ops, fallback)
    decreases |ops|
  {
    if ops == [] then s else Run(Apply(s, ops[0], fallback), ops[1..], fallback)
  }

  function AbsRun(m: Sessions, ops: seq<Op>): Sessions
    decreases |ops|
  {
    if ops == [] then m else AbsRun(AbsApply(m, ops[0]), ops[1..])
  }

  lemma {:induction false} RunRefines(s: Store, ops: seq<Op>, fallback: bool)
    requires Coherent(s) && Legal(s, ops, fallback)
    ensures Coherent(Run(s, ops, fallback)) && Live(Run(s, ops, fallback)) == AbsRun(Live(s), ops)
    decreases |ops|
  {
    if ops != [] {
      StepRefines(s, ops[0], fallback);
      RunRefines(Apply(s, ops[0], fallback), ops[1..], fallback);
    }
  }

  /** After any run, a read returns the last session written for the token or nothing, and
      nothing at all for a deleted one, whichever level answers. */
  lemma GetReturnsLastWritten(ops: seq<Op>, fallback: bool, now: int, t: string)
    requires Legal(Store(map[], map[], now, false), ops, fallback)
    ensures var s, m := Run(Store(map[], map[], now, false), ops, fallback), AbsRun(map[], ops);
            var r := Got(s, t, fallback).0;
            && (r.Some? ==> t in m && r.value == m[t])
            && (t in m && fallback ==> t in s.db && (s.db[t].expiresAt > s.now ==> r == Some(m[t])))
  {
    var s0 := Store(map[], map[], now, false);
    assert Live(s0) == map[];
    RunRefines(s0, ops, fallback);
    var s := Run(s0, ops, fallback);
    assert Live(s) == AbsRun(map[], ops);
    if t in Live(s) { assert t in s.db && !s.db[t].revoked; }
  }

  // ---- Where it stops holding -----------------------------------------------------------

  /** Every token reads the last session written for it, or nothing. */
  ghost predicate ReadsRight(s: Store, fallback: bool, m: Sessions) {
    forall t :: Got(s, t, fallback).0.Some? ==> t in m && Got(s, t, fallback).0.value == m[t]
  }

  /** Coherence is no more and no less than that. */
  lemma CoherentIff(s: Store, fallback: bool)
    ensures Coherent(s) <==> ReadsRight(s, fallback, Live(s))
  {
    if ReadsRight(s, fallback, Live(s)) && s.healthy {
      forall t | t in s.cache && s.cache[t].expiresAt > s.now ensures t in Live(s) && s.cache[t].session == Live(s)[t] {
        assert Got(s, t, fallback).0 == Some(s.cache[t].session);
      }
    }
  }

  /** An update leaves all reads right exactly when Redis is not in use, or the token is live and
      its lifetime is positive; without a lifetime Redis refuses the entry and goes on answering
      with the one it holds, which must then be the session just written. */
  lemma UpdateReadsIff(s: Store, t: string, u: Session, ttl: int, fallback: bool)
    requires Coherent(s)
    ensures var s' := Updated(s, t, u, ttl);
            ReadsRight(s', fallback, Live(s')) <==> UpdateFits(s, t, u, ttl)
  {
    var s' := Updated(s, t, u, ttl);
    CoherentIff(s', fallback);
    if t in Live(s) { UpdatedFits(s, t, u, ttl); } else { UpdatedDead(s, t, u, ttl); }
  }

  lemma UpdatedFits(s: Store, t: string, u: Session, ttl: int)
    requires Coherent(s) && t in Live(s)
    ensures Coherent(Updated(s, t, u, ttl)) <==> UpdateFits(s, t, u, ttl)
  {
    var s' := Updated(s, t, u, ttl);
    assert Live(s') == Live(s)[t := u] && (!s.healthy || ttl <= 0 ==> s'.cache == s.cache);
    if UpdateFits(s, t, u, ttl) { UpdatedLive(s, t, u, ttl); }
  }

  lemma UpdatedDead(s: Store, t: string, u: Session, ttl: int)
    requires Coherent(s) && t !in Live(s)
    ensures Coherent(Updated(s, t, u, ttl)) <==> UpdateFits(s, t, u, ttl)
  {
    var s' := Updated(s, t, u, ttl);
    assert Live(s') == Live(s);
    if s.healthy && ttl > 0 { assert s'.cache[t].expiresAt > s'.now; }
  }

  predicate SameSession(a: Sessions, b: Sessions, t: string) {
    t in a && t in b && a[t] == b[t]
  }

  /** A read that fell through to the database and writes Redis only after other operations:
      all reads are right afterwards exactly when Redis is out of use by then, or none of the
      operations changed or deleted the session. */
  lemma RefillRaceIff(s: Store, t: string, ops: seq<Op>, ttl: int, fallback: bool)
    requires Coherent(s) && Readable(s, t) && Legal(s, ops, fallback) && ttl > 0
    ensures var s' := RedisSet(Run(s, ops, fallback), t, s.db[t].session, ttl);
            ReadsRight(s', fallback, AbsRun(Live(s), ops))
            <==> !s'.healthy || SameSession(Live(s), AbsRun(Live(s), ops), t)
  {
    RunRefines(s, ops, fallback);
    var s1 := Run(s, ops, fallback);
    var s2 := RedisSet(s1, t, s.db[t].session, ttl);
    assert Live(s2) == Live(s1);
    CoherentIff(s2, fallback);
    if s1.healthy { assert t in s2.cache && s2.cache[t].expiresAt > s2.now; }
  }

  predicate IsOffline(op: Op) {
    !op.Recovers? && !op.Outage? && !op.Evicts?
  }

  lemma OfflineStep(s: Store, op: Op, fallback: bool)
    requires !s.healthy && Allowed(s, op) && IsOffline(op)
    ensures !Apply(s, op, fallback).healthy && Apply(s, op, fallback).cache == s.cache
    ensures Apply(s, op, fallback).now >= s.now
  {
    match op
    case DeleteAll(_, tokens) => OfflineDeletes(s, tokens);
    case RefreshAll(_, r, tokens) => OfflineRefresh(s, s, r, tokens);
    case _ =>
  }

  lemma {:induction false} OfflineDeletes(s: Store, tokens: seq<string>)
    requires !s.healthy
    ensures !DeletedAll(s, tokens).healthy && DeletedAll(s, tokens).cache == s.cache
    ensures DeletedAll(s, tokens).now == s.now
    decreases |tokens|
  {
    if tokens != [] { OfflineDeletes(Deleted(s, tokens[0]), tokens[1..]); }
  }

  lemma {:induction false} OfflineRefresh(s: Store, seen: Store, r: Refresh, tokens: seq<string>)
    requires !s.healthy && forall t :: t in tokens ==> t in seen.db
    ensures !RefreshRows(s, seen, r, tokens).healthy && RefreshRows(s, seen, r, tokens).cache == s.cache
    ensures RefreshRows(s, seen, r, tokens).now == s.now
    decreases |tokens|
  {
    if tokens != [] {
      var ttl := RemainingTtl(s, tokens[0], seen.db[tokens[0]].expiresAt);
      OfflineRefresh(Updated(s, tokens[0], Refreshed(seen.db[tokens[0]].session, r), ttl), seen, r, tokens[1..]);
    }
  }

  lemma {:induction false} OfflineRun(s: Store, ops: seq<Op>, fallback: bool)
    requires !s.healthy && Legal(s, ops, fallback) && forall op :: op in ops ==> IsOffline(op)
    ensures Run(s, ops, fallback).cache == s.cache && Run(s, ops, fallback).now >= s.now
    decreases |ops|
  {
    if ops != [] {
      assert ops[0] in ops;
      OfflineStep(s, ops[0], fallback);
      OfflineRun(Apply(s, ops[0], fallback), ops[1..], fallback);
    }
  }

  /** Redis returning from an outage with its old entries: all reads are right exactly when no
      session of an entry that has not expired by then was changed or deleted in between. */
  lemma WarmRecoveryIff(s: Store, ops: seq<Op>, fallback: bool)
    requires s.healthy && Coherent(s)
    requires Legal(s.(healthy := false), ops, fallback) && forall op :: op in ops ==> IsOffline(op)
    ensures var s' := Run(s.(healthy := false), ops, fallback).(healthy := true);
            ReadsRight(s', fallback, AbsRun(Live(s), ops))
            <==> forall t :: t in s.cache && s.cache[t].expiresAt > s'.now ==>
                               SameSession(Live(s), AbsRun(Live(s), ops), t)
  {
    var down := s.(healthy := false);
    OfflineRun(down, ops, fallback);
    assert Live(down) == Live(s);
    RunRefines(down, ops, fallback);
    var s' := Run(down, ops, fallback).(healthy := true);
    assert Live(s') == AbsRun(Live(s), ops) && s'.cache == s.cache && s'.now >= s.now;
    CoherentIff(s', fallback);
    forall t | t in s.cache && s.cache[t].expiresAt > s'.now
      ensures SameSession(Live(s), Live(s'), t) <==> t in Live(s') && s'.cache[t].session == Live(s')[t] {
    }
  }

  // ---- One input for each -----------------------------------------------------------------

  /** A healthy store with one session, in the database and perhaps in Redis. */
  function OneSession(t: string, u: Session, cached: bool): Store {
    Store(map[t := Row(u.id, u, 1000, false)], if cached then map[t := Cached(u, 1000)] else map[], 0, true)
  }

  /** A token is deleted, a request that read it before writes it once more: it reads again. */
  lemma UpdateRevives(t: string, u: Session, fallback: bool)
    ensures var s := Deleted(OneSession(t, u, true), t);
            && Coherent(s) && t !in Live(s) && Got(s, t, fallback).0.None?
            && Got(Updated(s, t, u, 1), t, fallback).0 == Some(u)
  {
  }

  /** A read falls through to the database, the session is deleted, the read writes Redis. */
  lemma RefillRevives(t: string, u: Session, fallback: bool)
    ensures var s := OneSession(t, u, false);
            && Coherent(s) && Readable(s, t) && t !in Live(Deleted(s, t))
            && Got(RedisSet(Deleted(s, t), t, u, 1), t, fallback).0 == Some(u)
  {
  }

  /** A session is deleted during an outage, Redis returns with it. */
  lemma RecoveryRevives(t: string, u: Session, fallback: bool)
    ensures var s := OneSession(t, u, true);
            var s' := Deleted(s.(healthy := false), t).(healthy := true);
            Coherent(s) && t !in Live(s') && Got(s', t, fallback).0 == Some(u)
  {
  }

  /** "Kill all sessions" ends a session of the user exactly when the query can see its row:
      one whose database expiry has passed survives while Redis keeps it alive. */
  lemma DeleteAllReachesIff(s: Store, userId: string, tokens: seq<string>, t: string, fallback: bool)
    requires Coherent(s) && Enumerates(tokens, ActiveOf(s, userId))
    requires t in Live(s) && s.db[t].userId == userId
    ensures Got(DeletedAll(s, tokens), t, fallback).0.None?
       <==> s.db[t].expiresAt > s.now || RedisGet(s, t).None?
  {
    DeletedAllLive(s, tokens);
    DeletedAllFrame(s, tokens, t);
    var s' := DeletedAll(s, tokens);
    if s.db[t].expiresAt > s.now {
      assert t in tokens;
      assert t !in Live(s');
    }
  }

  predicate SameAt<V(==)>(a: map<string, V>, b: map<string, V>, t: string) {
    (t in a <==> t in b) && (t in a ==> a[t] == b[t])
  }

  lemma {:induction false} DeletedAllFrame(s: Store, tokens: seq<string>, t: string)
    ensures var s' := DeletedAll(s, tokens);
            && s'.now == s.now && s'.healthy == s.healthy
            && (t !in tokens ==> SameAt(s.cache, s'.cache, t) && SameAt(s.db, s'.db, t))
    decreases |tokens|
  {
    if tokens != [] { DeletedAllFrame(Deleted(s, tokens[0]), tokens[1..], t); }
  }
}
