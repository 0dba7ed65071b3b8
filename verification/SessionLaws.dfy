/** What the session operations mean for the next reads: which sessions a membership or country
    refresh rewrites, and to what, and how long a session can be read. */
module SessionLaws {
  import opened Common
  import opened SessionTypes
  import opened SessionStore

  // ---- What a refresh writes --------------------------------------------------------------

  /** The memberships' branches in order; the current branch kept while it is one of them or none,
      else the first primary one, else the first, else none. */
  predicate BranchesRefreshed(was: Session, u: Session, ms: seq<Membership>) {
    && u == was.(branchIds := u.branchIds, currentBranchId := u.currentBranchId)
    && BranchesOf(u.branchIds, ms) && BranchKept(was.currentBranchId, u.currentBranchId, ms)
  }

  /** The codes granted in the session's company, in order; without a company every granted code,
      in the order of its first grant. */
  ghost predicate CountriesRefreshed(was: Session, u: Session, gs: seq<Grant>) {
    u == was.(currencyCodes := u.currencyCodes) && GrantsKept(u.currencyCodes, was.activeGroupId, gs)
  }

  ghost predicate IsRefreshed(was: Session, u: Session, r: Refresh) {
    match r
    case Branches(ms) => BranchesRefreshed(was, u, ms)
    case Countries(gs) => CountriesRefreshed(was, u, gs)
  }

  lemma RefreshedIs(was: Session, r: Refresh)
    ensures IsRefreshed(was, Refreshed(was, r), r)
  {
    match r
    case Branches(ms) => ReconciledIs(was.currentBranchId, ms);
    case Countries(gs) => RefreshedCodesAre(gs, was.activeGroupId);
  }

  /** The row and the Redis entry that a refresh leaves at one of its tokens. */
  predicate RefreshedAt(s: Store, s': Store, r: Refresh, t: string) {
    t in s.db && t in s'.db &&
    var u, until := Refreshed(s.db[t].session, r), s.now + RemainingTtl(s, t, s.db[t].expiresAt) * 1000;
    && s'.db[t] == s.db[t].(session := u, expiresAt := until)
    && (s.healthy ==> t in s'.cache && s'.cache[t] == Cached(u, until))
  }

  lemma {:induction false} RefreshFrame(s: Store, seen: Store, r: Refresh, tokens: seq<string>, t: string)
    requires (forall x :: x in tokens ==> x in seen.db) && t !in tokens
    ensures var s' := RefreshRows(s, seen, r, tokens);
            SameAt(s.db, s'.db, t) && SameAt(s.cache, s'.cache, t) && s'.now == s.now && s'.healthy == s.healthy
    decreases |tokens|
  {
    if tokens != [] {
      var x := tokens[0];
      var ttl := RemainingTtl(s, x, seen.db[x].expiresAt);
      RefreshFrame(Updated(s, x, Refreshed(seen.db[x].session, r), ttl), seen, r, tokens[1..], t);
    }
  }

  lemma LifetimeLeft(s: Store, t: string, expiresAt: int)
    ensures RemainingTtl(s, t, expiresAt) > 0
  {
  }

  lemma {:induction false} RefreshAt(s: Store, seen: Store, r: Refresh, tokens: seq<string>, t: string)
    requires (forall x :: x in tokens ==> x in seen.db) && t in tokens
    requires forall i, j :: 0 <= i < j < |tokens| ==> tokens[i] != tokens[j]
    requires t in s.db && s.db[t] == seen.db[t] && !s.db[t].revoked
    ensures RefreshedAt(s, RefreshRows(s, seen, r, tokens), r, t)
    ensures RefreshRows(s, seen, r, tokens).now == s.now && RefreshRows(s, seen, r, tokens).healthy == s.healthy
    decreases |tokens|
  {
    var x, rest := tokens[0], tokens[1..];
    var u, ttl := Refreshed(seen.db[x].session, r), RemainingTtl(s, x, seen.db[x].expiresAt);
    var s1 := Updated(s, x, u, ttl);
    assert tokens == [x] + rest;
    assert x !in rest by { forall i | 0 <= i < |rest| ensures rest[i] != x { assert rest[i] == tokens[i + 1]; } }
    UpdatedAt(s, x, u, ttl, t);
    if t == x {
      LifetimeLeft(s, x, seen.db[x].expiresAt);
      RefreshFrame(s1, seen, r, rest, t);
    } else {
      RefreshAt(s1, seen, r, rest, t);
      RefreshedAtToo(s, s1, RefreshRows(s1, seen, r, rest), r, t);
    }
  }

  lemma RefreshedAtToo(s: Store, s1: Store, s': Store, r: Refresh, t: string)
    requires SameAt(s.db, s1.db, t) && SameAt(s.cache, s1.cache, t) && s.now == s1.now && s.healthy == s1.healthy
    requires RefreshedAt(s1, s', r, t)
    ensures RefreshedAt(s, s', r, t)
  {
  }

  lemma UpdatedAt(s: Store, x: string, u: Session, ttl: int, t: string)
    ensures var s' := Updated(s, x, u, ttl);
            && s'.now == s.now && s'.healthy == s.healthy
            && (t != x ==> SameAt(s.db, s'.db, t) && SameAt(s.cache, s'.cache, t))
            && (x in Live(s) ==> x in s'.db && s'.db[x] == s.db[x].(session := u, expiresAt := s.now + ttl * 1000))
            && (s.healthy && ttl > 0 ==> x in s'.cache && s'.cache[x] == Cached(u, s.now + ttl * 1000))
  {
  }

  /** After a refresh of a user, every live token of theirs whose row has not expired reads the
      refreshed session, and every other token what it read before. */
  lemma RefreshReaches(s: Store, userId: string, r: Refresh, tokens: seq<string>, t: string, fallback: bool)
    requires Coherent(s) && Enumerates(tokens, ActiveOf(s, userId)) && t in s.db
    ensures var s' := RefreshRows(s, s, r, tokens);
            && (t in Live(s') <==> t in Live(s))
            && if s.db[t].userId == userId && !s.db[t].revoked && s.db[t].expiresAt > s.now then
                 && IsRefreshed(Live(s)[t], Live(s')[t], r)
                 && (s.healthy || fallback ==> Got(s', t, fallback).0 == Some(Live(s')[t]))
               else SameAt(s.db, s'.db, t) && Got(s', t, fallback).0 == Got(s, t, fallback).0
  {
    if s.db[t].userId == userId && !s.db[t].revoked && s.db[t].expiresAt > s.now {
      assert t in ActiveOf(s, userId);
      RefreshAt(s, s, r, tokens, t);
      RefreshedIs(s.db[t].session, r);
      LifetimeLeft(s, t, s.db[t].expiresAt);
    } else {
      assert t !in ActiveOf(s, userId);
      RefreshFrame(s, s, r, tokens, t);
    }
  }

  // ---- How long a session can be read -----------------------------------------------------

  /** The reads from now on, nothing else happening, succeed exactly before `until`. */
  ghost predicate ReadsUntil(s: Store, t: string, fallback: bool, until: int) {
    forall n :: n >= s.now ==> (Got(s.(now := n), t, fallback).0.Some? <==> n < until)
  }

  /** The longer of the lifetimes of the entry and of the row, where each is in use. */
  function Until(s: Store, t: string, fallback: bool): int {
    Max(if s.healthy && t in s.cache then s.cache[t].expiresAt else s.now,
        if fallback && t in s.db && !s.db[t].revoked then s.db[t].expiresAt else s.now)
  }

  lemma UntilIs(s: Store, t: string, fallback: bool)
    ensures ReadsUntil(s, t, fallback, Until(s, t, fallback))
  {
  }

  /** A new session, or one that is written again, is read for its lifetime. */
  lemma WrittenUntil(s: Store, t: string, u: Session, ttl: int, fallback: bool)
    requires Coherent(s) && ttl > 0 && (s.healthy || fallback)
    ensures t !in s.db ==> ReadsUntil(Created(s, t, u, ttl), t, fallback, s.now + ttl * 1000)
    ensures t in Live(s) ==> ReadsUntil(Updated(s, t, u, ttl), t, fallback, s.now + ttl * 1000)
  {
    UntilIs(Created(s, t, u, ttl), t, fallback);
    UntilIs(Updated(s, t, u, ttl), t, fallback);
  }

  /** A token that is drawn twice: the row stays whoever's it was, and as long as Redis is in use
      the new session is read. */
  lemma CreatedTwice(s: Store, t: string, u: Session, ttl: int, fallback: bool)
    requires t in s.db && ttl > 0
    ensures var s' := Created(s, t, u, ttl);
            && s'.db == s.db && (s.healthy ==> Got(s', t, fallback).0 == Some(u)) && (!s.healthy ==> s' == s)
  {
  }

  /** While Redis is out, when it comes back empty and when it drops an entry, the row alone decides
      what is read; a cold recovery puts Redis in use, an outage takes it out, and no other entry is
      dropped. */
  lemma RowDecides(s: Store, op: Op, t: string, x: string)
    requires op.Outage? || op.Recovers? || (op.Evicts? && op.t == t && x != t)
    ensures var s' := Apply(s, op, true);
            && s'.db == s.db && s'.now == s.now
            && s'.healthy == (if op.Outage? then false else if op.Recovers? then true else s.healthy)
            && Got(s', t, true).0 == (if Readable(s, t) then Some(s.db[t].session) else None)
            && Got(s', t, false).0.None?
            && (op.Evicts? ==> Got(s', x, true).0 == Got(s, x, true).0)
  {
  }

  /** A touch while Redis is in use extends the entry, if there is one, and never the row: should
      Redis go away, the session ends when its row does. Without Redis the row is extended. */
  lemma TouchedUntil(s: Store, t: string, ttl: int, fallback: bool)
    requires t in Live(s)
    ensures var s' := Touched(s, t, ttl);
            && s'.now == s.now && s'.healthy == s.healthy && Live(s') == Live(s)
            && (s.healthy && RedisGet(s, t).Some? ==>
                  ReadsUntil(s', t, fallback, Max(s.now + ttl * 1000, if fallback then s.db[t].expiresAt else s.now)))
            && (s.healthy && RedisGet(s, t).None? ==> s' == s)
            && (s.healthy ==> ReadsUntil(s'.(healthy := false), t, true, s.db[t].expiresAt))
            && (!s.healthy && fallback ==> ReadsUntil(s', t, fallback, s.now + ttl * 1000))
  {
    var s' := Touched(s, t, ttl);
    UntilIs(s', t, fallback);
    UntilIs(s'.(healthy := false), t, true);
  }

  /** Steps that leave the session and its entry alone, other than by touching it. */
  predicate Bystands(op: Op, t: string) {
    op.Passes? || op.Touch? || op.Get? || ((op.Create? || op.Update? || op.Delete?) && op.t != t)
  }

  /** What is left of an entry's lifetime: time uses it up, a touch in time renews it. */
  function Left(left: int, ops: seq<Op>, t: string): int
    decreases |ops|
  {
    if ops == [] then left
    else
      var next := match ops[0]
        case Passes(ms) => left - ms
        case Touch(x, ttl) => if x == t && left > 0 then ttl * 1000 else left
        case _ => left;
      Left(next, ops[1..], t)
  }

  /** The session slides: with reads from Redis alone it lasts, unchanged, exactly as long as every
      touch comes before the lifetime given by the last one is over. */
  lemma {:induction false} SlidingIff(s: Store, ops: seq<Op>, t: string)
    requires s.healthy && t in s.cache && Legal(s, ops, false)
    requires forall i :: 0 <= i < |ops| ==> Bystands(ops[i], t)
    ensures Got(Run(s, ops, false), t, false).0
         == if Left(s.cache[t].expiresAt - s.now, ops, t) > 0 then Some(s.cache[t].session) else None
    decreases |ops|
  {
    if ops != [] {
      var s1 := Apply(s, ops[0], false);
      assert Bystands(ops[0], t);
      Slid(s, ops[0], t);
      forall i | 0 <= i < |ops[1..]| ensures Bystands(ops[1..][i], t) { assert ops[1..][i] == ops[i + 1]; }
      SlidingIff(s1, ops[1..], t);
    }
  }

  lemma Slid(s: Store, op: Op, t: string)
    requires s.healthy && t in s.cache && Allowed(s, op) && Bystands(op, t)
    ensures var s1, left := Apply(s, op, false), s.cache[t].expiresAt - s.now;
            && s1.healthy && t in s1.cache && s1.cache[t].session == s.cache[t].session
            && s1.cache[t].expiresAt - s1.now
               == match op
                  case Passes(ms) => left - ms
                  case Touch(x, ttl) => if x == t && left > 0 then ttl * 1000 else left
                  case _ => left
  {
  }

  /** A read that refills Redis gives the entry the whole seconds its row has left, at least one:
      the session is read as long as its row, or for one second if that is longer. */
  lemma RefillUntil(s: Store, t: string)
    requires s.healthy && RedisGet(s, t).None? && Readable(s, t)
    ensures var s' := Apply(s, Get(t), true);
            && s'.db == s.db && s'.now == s.now
            && RedisGet(s', t) == Some(s.db[t].session)
            && ReadsUntil(s', t, true, Max(s.db[t].expiresAt, s.now + 1000))
            && s.db[t].expiresAt - 1000 < s'.cache[t].expiresAt
  {
    UntilIs(Got(s, t, true).1, t, true);
  }

  /** A refresh hardly moves the end of a session: within half a second of its Redis entry's, and
      without one to the last whole second of its row, or to one minute if that is more. */
  lemma RefreshedUntil(s: Store, userId: string, r: Refresh, tokens: seq<string>, t: string, fallback: bool)
    requires Coherent(s) && Enumerates(tokens, ActiveOf(s, userId)) && t in ActiveOf(s, userId)
    requires s.healthy || fallback
    ensures var s', left := RefreshRows(s, s, r, tokens), s.db[t].expiresAt - s.now;
            && t in s'.db && ReadsUntil(s', t, fallback, s'.db[t].expiresAt)
            && (s.healthy && t in s.cache && s.cache[t].expiresAt >= s.now + 500 ==>
                  -500 <= s'.db[t].expiresAt - s.cache[t].expiresAt <= 500)
            && (!s.healthy || RedisGet(s, t).None? ==>
                  if left < 61000 then s'.db[t].expiresAt == s.now + 60000
                  else s.db[t].expiresAt - 1000 < s'.db[t].expiresAt <= s.db[t].expiresAt)
  {
    RefreshAt(s, s, r, tokens, t);
    UntilIs(RefreshRows(s, s, r, tokens), t, fallback);
  }

  /** Killing a user's sessions leaves everyone else's as they were. */
  lemma DeleteAllSparesOthers(s: Store, userId: string, tokens: seq<string>, t: string, fallback: bool)
    requires Enumerates(tokens, ActiveOf(s, userId)) && t in s.db && s.db[t].userId != userId
    ensures var s' := DeletedAll(s, tokens);
            SameAt(s.db, s'.db, t) && SameAt(s.cache, s'.cache, t)
            && Until(s', t, fallback) == Until(s, t, fallback)
            && Got(s', t, fallback).0 == Got(s, t, fallback).0
  {
    assert t !in ActiveOf(s, userId);
    DeletedAllFrame(s, tokens, t);
  }
}
