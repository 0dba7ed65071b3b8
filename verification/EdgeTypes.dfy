/** The edge worker's queue records and the three Redis list commands the failover uses. */
module EdgeTypes {

  import opened Common

  /** The order or cart that is forwarded; only its payment method matters to the ladder. */
  datatype Payload = Payload(body: string, payOnline: bool)

  datatype Queued = Queued(
    payload: Payload,
    attempts: nat,
    firstQueuedAt: int,
    lastAttemptAt: Option<int>)

  /** One element of a Redis list: the JSON text of a record, or text that is not JSON. */
  datatype Entry = Order(queued: Queued) | Corrupt(text: string)

  /** What the client hands back for a JSON-shaped element: its text, or an already parsed object. */
  datatype Shape = AsText | AsObject

  const MAX_ATTEMPTS: nat := 6
  const ORDER_BATCH: nat := 20
  const CART_BATCH: nat := 30
  const RECLAIM_BOUND: nat := ORDER_BATCH * 4

  /** `queued.attempts += 1; queued.lastAttemptAt = now`. */
  function Bump(q: Queued, now: int): Queued {
    q.(attempts := q.attempts + 1, lastAttemptAt := Some(now))
  }

  /** The argument of the `lrem` that ends an iteration. For a parsed object `raw` and
      `queued` are one object, so by then it carries the bumped fields. */
  function RemovalValue(popped: Queued, bumped: Queued, shape: Shape): Entry {
    if shape.AsText? then Order(popped) else Order(bumped)
  }

  /** `lrem list 1 x`. */
  function RemoveFirst<T(==)>(s: seq<T>, x: T): seq<T> {
    if s == [] then []
    else if s[0] == x then s[1..]
    else [s[0]] + RemoveFirst(s[1..], x)
  }

  predicate IsCopy(e: Entry, p: Payload, level: nat) {
    e.Order? && e.queued.payload == p && e.queued.attempts == level
  }

  /** How many elements carry payload `p` with exactly `level` attempts. */
  function Copies(s: seq<Entry>, p: Payload, level: nat): nat {
    if s == [] then 0
    else (if IsCopy(s[0], p, level) then 1 else 0) + Copies(s[1..], p, level)
  }

  predicate Holds(s: seq<Entry>, p: Payload) {
    exists i :: 0 <= i < |s| && s[i].Order? && s[i].queued.payload == p
  }

  lemma {:induction false} CopiesConcat(a: seq<Entry>, b: seq<Entry>, p: Payload, level: nat)
    ensures Copies(a + b, p, level) == Copies(a, p, level) + Copies(b, p, level)
  {
    if a == [] {
      assert a + b == b;
    } else {
      assert (a + b)[1..] == a[1..] + b;
      CopiesConcat(a[1..], b, p, level);
    }
  }

  lemma {:induction false} CopiesRemoveFirst(s: seq<Entry>, x: Entry, p: Payload, level: nat)
    ensures Copies(RemoveFirst(s, x), p, level)
         == Copies(s, p, level) - (if x in s && IsCopy(x, p, level) then 1 else 0)
  {
    if s != [] && s[0] != x {
      CopiesRemoveFirst(s[1..], x, p, level);
      assert x in s <==> x in s[1..];
      var r := RemoveFirst(s[1..], x);
      assert ([s[0]] + r)[1..] == r;
    }
  }

  lemma {:induction false} CopiesWitness(s: seq<Entry>, p: Payload, level: nat)
    requires Copies(s, p, level) > 0
    ensures exists i :: 0 <= i < |s| && IsCopy(s[i], p, level)
    ensures Holds(s, p)
  {
    if IsCopy(s[0], p, level) {
    } else {
      CopiesWitness(s[1..], p, level);
      var i :| 0 <= i < |s[1..]| && IsCopy(s[1..][i], p, level);
      assert IsCopy(s[i + 1], p, level);
    }
  }

  lemma HoldsAppend(s: seq<Entry>, e: Entry, p: Payload)
    ensures Holds(s, p) ==> Holds(s + [e], p)
    ensures e.Order? && e.queued.payload == p ==> Holds(s + [e], p)
  {
    if Holds(s, p) {
      var i :| 0 <= i < |s| && s[i].Order? && s[i].queued.payload == p;
      assert (s + [e])[i] == s[i];
    }
    assert (s + [e])[|s|] == e;
  }
}
