/** The assistant's limiter: one fixed-window bucket per user. Times in milliseconds. */
module AssistantRateLimit {

  const WINDOW := 5 * 60 * 1000
  const MAX: nat := 30

  datatype Bucket = Bucket(count: nat, start: int)
  datatype Call = Call(user: string, at: int)

  type Buckets = map<string, Bucket>

  predicate Opens(b: Buckets, c: Call) {
    c.user !in b || c.at - b[c.user].start > WINDOW
  }

  predicate Admitted(b: Buckets, c: Call) {
    Opens(b, c) || b[c.user].count < MAX
  }

  function After(b: Buckets, c: Call): Buckets {
    if Opens(b, c) then b[c.user := Bucket(1, c.at)]
    else if b[c.user].count < MAX then b[c.user := Bucket(b[c.user].count + 1, b[c.user].start)]
    else b
  }

  class Limiter {
    var rateBuckets: Buckets

    constructor ()
      ensures rateBuckets == map[]
    {
      rateBuckets := map[];
    }

    method CheckRateLimit(userId: string, now: int) returns (ok: bool)
      modifies this`rateBuckets
      ensures ok == Admitted(old(rateBuckets), Call(userId, now))
      ensures rateBuckets == After(old(rateBuckets), Call(userId, now))
    {
      if userId !in rateBuckets || now - rateBuckets[userId].start > WINDOW {
        rateBuckets := rateBuckets[userId := Bucket(1, now)];
        return true;
      }
      var bucket := rateBuckets[userId];
      if bucket.count >= MAX { return false; }
      rateBuckets := rateBuckets[userId := bucket.(count := bucket.count + 1)];
      ok := true;
    }
  }

  // ---- Whole traces -----------------------------------------------------------------------

  predicate NonDecreasing(calls: seq<Call>) {
    forall i, j :: 0 <= i < j < |calls| ==> calls[i].at <= calls[j].at
  }

  function Run(b: Buckets, calls: seq<Call>): Buckets
    decreases |calls|
  {
    if calls == [] then b else Run(After(b, calls[0]), calls[1..])
  }

  /** How many of one user's calls are admitted in [from, to]. */
  function Accepted(b: Buckets, calls: seq<Call>, user: string, from: int, to: int): nat
    decreases |calls|
  {
    if calls == [] then 0
    else
      var c := calls[0];
      (if c.user == user && from <= c.at <= to && Admitted(b, c) then 1 else 0)
      + Accepted(After(b, c), calls[1..], user, from, to)
  }

  lemma {:induction false} NothingLater(b: Buckets, calls: seq<Call>, user: string, from: int, to: int)
    requires forall i :: 0 <= i < |calls| ==> calls[i].at > to
    ensures Accepted(b, calls, user, from, to) == 0
    decreases |calls|
  {
    if calls != [] { NothingLater(After(b, calls[0]), calls[1..], user, from, to); }
  }

  /** What a window that opens at `from` can still admit, given the user's bucket. */
  function Room(b: Buckets, user: string, from: int): int {
    if user !in b then MAX
    else (MAX - b[user].count) + if b[user].start < from then MAX else 0
  }

  predicate Sane(b: Buckets) {
    forall u :: u in b ==> 1 <= b[u].count <= MAX
  }

  lemma {:induction false} WithinRoom(b: Buckets, calls: seq<Call>, user: string, from: int)
    requires Sane(b) && NonDecreasing(calls) && forall i :: 0 <= i < |calls| ==> calls[i].at >= from
    ensures Accepted(b, calls, user, from, from + WINDOW) <= Room(b, user, from)
    decreases |calls|
  {
    if calls != [] {
      if calls[0].at > from + WINDOW { NothingLater(b, calls, user, from, from + WINDOW); }
      else { WithinRoom(After(b, calls[0]), calls[1..], user, from); }
    }
  }

  lemma {:induction false} BoundFrom(b: Buckets, calls: seq<Call>, user: string, from: int)
    requires Sane(b) && NonDecreasing(calls)
    ensures Accepted(b, calls, user, from, from + WINDOW) <= 2 * MAX - 1
    decreases |calls|
  {
    if calls != [] {
      if calls[0].at >= from { WithinRoom(b, calls, user, from); }
      else { BoundFrom(After(b, calls[0]), calls[1..], user, from); }
    }
  }

  /** Whatever the calls, at most 59 of one user are admitted in any closed five minutes. */
  lemma WindowBound(calls: seq<Call>, user: string, from: int)
    requires NonDecreasing(calls)
    ensures Accepted(map[], calls, user, from, from + 300000) <= 59
  {
    BoundFrom(map[], calls, user, from);
  }

  // ---- The bound is reached ---------------------------------------------------------------

  function Repeat(user: string, at: int, n: nat): seq<Call> {
    seq(n, i => Call(user, at))
  }

  lemma {:induction false} AcceptedConcat(b: Buckets, x: seq<Call>, y: seq<Call>, user: string, from: int, to: int)
    ensures Accepted(b, x + y, user, from, to)
         == Accepted(b, x, user, from, to) + Accepted(Run(b, x), y, user, from, to)
    decreases |x|
  {
    if x == [] {
      assert x + y == y;
    } else {
      assert (x + y)[1..] == x[1..] + y;
      AcceptedConcat(After(b, x[0]), x[1..], y, user, from, to);
    }
  }

  lemma {:induction false} Filling(b: Buckets, user: string, at: int, n: nat, from: int, to: int)
    requires user in b && at - b[user].start <= WINDOW && b[user].count + n <= MAX
    ensures Run(b, Repeat(user, at, n)) == b[user := Bucket(b[user].count + n, b[user].start)]
    ensures Accepted(b, Repeat(user, at, n), user, from, to) == if from <= at <= to then n else 0
    decreases n
  {
    if n != 0 {
      assert Repeat(user, at, n)[1..] == Repeat(user, at, n - 1);
      Filling(After(b, Call(user, at)), user, at, n - 1, from, to);
    }
  }

  lemma Opening(b: Buckets, user: string, at: int, n: nat, from: int, to: int)
    requires Opens(b, Call(user, at)) && 1 <= n <= MAX
    ensures Run(b, Repeat(user, at, n)) == b[user := Bucket(n, at)]
    ensures Accepted(b, Repeat(user, at, n), user, from, to) == if from <= at <= to then n else 0
  {
    assert Repeat(user, at, n)[1..] == Repeat(user, at, n - 1);
    Filling(After(b, Call(user, at)), user, at, n - 1, from, to);
  }

  /** One call, 29 more exactly when the bucket is five minutes old, 30 a millisecond later: 59
      of them fall into one window, and all are admitted. */
  lemma BoundReached(user: string)
    ensures var calls := Repeat(user, 0, 1) + Repeat(user, 300000, 29) + Repeat(user, 300001, 30);
            NonDecreasing(calls) && Accepted(map[], calls, user, 1, 300001) == 59
  {
    var x, y, z := Repeat(user, 0, 1), Repeat(user, WINDOW, 29), Repeat(user, WINDOW + 1, 30);
    Opening(map[], user, 0, 1, 1, 1 + WINDOW);
    var b1 := Run(map[], x);
    Filling(b1, user, WINDOW, 29, 1, 1 + WINDOW);
    var b2 := Run(b1, y);
    Opening(b2, user, WINDOW + 1, 30, 1, 1 + WINDOW);
    AcceptedConcat(b1, y, z, user, 1, 1 + WINDOW);
    AcceptedConcat(map[], x, y + z, user, 1, 1 + WINDOW);
    assert x + y + z == x + (y + z);
  }

  // ---- Users do not affect each other -----------------------------------------------------

  function Own(calls: seq<Call>, user: string): seq<Call> {
    if calls == [] then []
    else if calls[0].user == user then [calls[0]] + Own(calls[1..], user)
    else Own(calls[1..], user)
  }

  function Outcomes(b: Buckets, calls: seq<Call>, user: string): seq<bool>
    decreases |calls|
  {
    if calls == [] then []
    else
      var rest := Outcomes(After(b, calls[0]), calls[1..], user);
      if calls[0].user == user then [Admitted(b, calls[0])] + rest else rest
  }

  predicate SameBucket(a: Buckets, b: Buckets, user: string) {
    (user in a <==> user in b) && (user in a ==> a[user] == b[user])
  }

  /** A user gets the answers they would get alone. */
  lemma {:induction false} UsersIndependent(a: Buckets, b: Buckets, calls: seq<Call>, user: string)
    requires SameBucket(a, b, user)
    ensures Outcomes(a, calls, user) == Outcomes(b, Own(calls, user), user)
    decreases |calls|
  {
    if calls != [] {
      var c := calls[0];
      if c.user == user {
        UsersIndependent(After(a, c), After(b, c), calls[1..], user);
        assert ([c] + Own(calls[1..], user))[1..] == Own(calls[1..], user);
      } else {
        UsersIndependent(After(a, c), b, calls[1..], user);
      }
    }
  }
}
