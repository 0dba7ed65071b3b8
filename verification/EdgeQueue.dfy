/** The Redis queue as the worker drives it: buffer, reclaim and one drain at a time, in
    place over three lists, against a script of what the outside world does meanwhile. */
module EdgeQueue {
  import opened Common
  import opened EdgeTypes

  datatype Lists = Lists(pending: seq<Entry>, processing: seq<Entry>, dead: seq<Entry>)

  /** What happens around one iteration: entries pushed before the pop and during the API
      call, the shape the client returns, the clock and the API's answer. */
  datatype Tick = Tick(before: seq<Entry>, during: seq<Entry>, shape: Shape, now: int, apiOk: bool)

  datatype Outcome = Outcome(
    lists: Lists, drained: nat, requeued: nat, deadLettered: nat, arrived: nat, calls: nat)

  function Start(l: Lists): Outcome {
    Outcome(l, 0, 0, 0, 0, 0)
  }

  function Reclaimed(l: Lists, bound: nat): Lists {
    var n := if |l.processing| <= bound then |l.processing| else bound;
    l.(pending := l.pending + l.processing[..n], processing := l.processing[n..])
  }

  /** One pass of the loop body over a non-empty pending list. */
  function Iterate(o: Outcome, t: Tick): Outcome
    requires o.lists.pending != []
  {
    var raw := o.lists.pending[0];
    var rest, inFlight := o.lists.pending[1..] + t.during, o.lists.processing + [raw];
    var o1 := o.(arrived := o.arrived + |t.during|);
    match raw
    case Corrupt(_) =>
      o1.(lists := Lists(rest, RemoveFirst(inFlight, raw), o.lists.dead + [raw]),
          deadLettered := o.deadLettered + 1)
    case Order(q) =>
      var bumped := Bump(q, t.now);
      var left := RemoveFirst(inFlight, RemovalValue(q, bumped, t.shape));
      if t.apiOk then
        o1.(lists := Lists(rest, left, o.lists.dead), drained := o.drained + 1, calls := o.calls + 1)
      else if bumped.attempts >= MAX_ATTEMPTS then
        o1.(lists := Lists(rest, left, o.lists.dead + [Order(bumped)]),
            deadLettered := o.deadLettered + 1, calls := o.calls + 1)
      else
        o1.(lists := Lists(rest + [Order(bumped)], left, o.lists.dead),
            requeued := o.requeued + 1, calls := o.calls + 1)
  }

  function Arrive(o: Outcome, es: seq<Entry>): Outcome {
    o.(lists := o.lists.(pending := o.lists.pending + es), arrived := o.arrived + |es|)
  }

  /** The whole loop: it stops early when the pending list is found empty. */
  function Drain(o: Outcome, ticks: seq<Tick>): Outcome
    decreases |ticks|
  {
    if ticks == [] then o
    else
      var o1 := Arrive(o, ticks[0].before);
      if o1.lists.pending == [] then o1 else Drain(Iterate(o1, ticks[0]), ticks[1..])
  }

  class RedisQueue {
    const configured: bool
    const batch: nat
    var pending: seq<Entry>
    var processing: seq<Entry>
    var dead: seq<Entry>

    ghost function Contents(): Lists
      reads this
    {
      Lists(pending, processing, dead)
    }

    constructor (configured: bool, batch: nat)
      ensures this.configured == configured && this.batch == batch
      ensures Contents() == Lists([], [], [])
    {
      this.configured, this.batch := configured, batch;
      pending, processing, dead := [], [], [];
    }

    /** `bufferToRedis`: `pushed` says whether the `rpush` succeeds. */
    method BufferToRedis(p: Payload, now: int, pushed: bool) returns (ok: bool)
      modifies this
      ensures ok == (configured && pushed)
      ensures Contents() == if ok
                            then old(Contents()).(pending := old(pending) + [Order(Queued(p, 0, now, None))])
                            else old(Contents())
    {
      if !configured { return false; }
      if !pushed { return false; }
      pending := pending + [Order(Queued(p, 0, now, None))];
      return true;
    }

    /** The QStash failure callback: an exhausted message is dead-lettered, never retried. */
    method DeadLetter(p: Option<Payload>, now: int)
      modifies this
      ensures Contents() == if configured && p.Some?
                            then old(Contents()).(dead := old(dead)
                                                          + [Order(Queued(p.value, MAX_ATTEMPTS, now, Some(now)))])
                            else old(Contents())
    {
      if configured && p.Some? {
        dead := dead + [Order(Queued(p.value, MAX_ATTEMPTS, now, Some(now)))];
      }
    }

    method ReclaimProcessing()
      modifies this
      ensures Contents() == Reclaimed(old(Contents()), RECLAIM_BOUND)
    {
      ghost var was := processing;
      for i := 0 to RECLAIM_BOUND
        invariant i <= |was|
        invariant dead == old(dead) && processing == was[i..] && pending == old(pending) + was[..i]
      {
        if processing == [] {
          assert was[..i] == was;
          break;
        }
        assert was[..i + 1] == was[..i] + [was[i]];
        pending, processing := pending + [processing[0]], processing[1..];
      }
    }

    method DrainRedisQueue(ticks: seq<Tick>) returns (drained: nat, requeued: nat, deadLettered: nat)
      requires |ticks| == batch
      modifies this
      ensures !configured ==> Contents() == old(Contents()) && drained == requeued == deadLettered == 0
      ensures configured ==>
        var o := Drain(Start(Reclaimed(old(Contents()), RECLAIM_BOUND)), ticks);
        Contents() == o.lists && drained == o.drained && requeued == o.requeued && deadLettered == o.deadLettered
    {
      drained, requeued, deadLettered := 0, 0, 0;
      if !configured { return; }
      ReclaimProcessing();
      ghost var o := Start(Contents());
      ghost var result := Drain(o, ticks);
      for i := 0 to batch
        invariant Contents() == o.lists
        invariant drained == o.drained && requeued == o.requeued && deadLettered == o.deadLettered
        invariant Drain(o, ticks[i..]) == result
      {
        var t := ticks[i];
        assert ticks[i..][1..] == ticks[i + 1..];
        pending := pending + t.before;
        o := Arrive(o, t.before);
        if pending == [] {
          assert result == o;
          return;
        }
        var raw := pending[0];
        pending, processing := pending[1..], processing + [raw];
        pending := pending + t.during;
        ghost var next := Iterate(o, t);
        match raw {
          case Corrupt(_) =>
            dead := dead + [raw];
            processing := RemoveFirst(processing, raw);
            deadLettered := deadLettered + 1;
          case Order(q) =>
            var queued := Bump(q, t.now);
            var value := RemovalValue(q, queued, t.shape);
            if t.apiOk {
              processing := RemoveFirst(processing, value);
              drained := drained + 1;
            } else if queued.attempts >= MAX_ATTEMPTS {
              dead := dead + [Order(queued)];
              processing := RemoveFirst(processing, value);
              deadLettered := deadLettered + 1;
            } else {
              pending := pending + [Order(queued)];
              processing := RemoveFirst(processing, value);
              requeued := requeued + 1;
            }
        }
        o := next;
      }
      assert ticks[batch..] == [];
    }
  }

  // ---- One iteration ----------------------------------------------------------------------

  lemma {:induction false} RemoveFirstBag<T>(s: seq<T>, x: T)
    ensures multiset(RemoveFirst(s, x)) == multiset(s) - multiset{x}
  {
    if s != [] {
      assert s == [s[0]] + s[1..];
      if s[0] != x { RemoveFirstBag(s[1..], x); }
    }
  }

  /** The head goes: corrupt text to the dead letters; an order, if the API takes it, nowhere; if
      not, with one more attempt and this moment's stamp, behind everything pending, or at its
      sixth attempt to the dead letters. Its copy in `processing` goes with it, unless the client
      returned it parsed: then the element that reads like the bumped record goes, if any. */
  lemma IterationIs(o: Outcome, t: Tick)
    requires o.lists.pending != []
    ensures var raw, r := o.lists.pending[0], Iterate(o, t);
            var rest, inFlight := o.lists.pending[1..] + t.during, multiset(o.lists.processing) + multiset{raw};
            match raw
            case Corrupt(_) =>
              && r.lists.pending == rest && r.lists.dead == o.lists.dead + [raw]
              && multiset(r.lists.processing) == inFlight - multiset{raw}
              && (r.drained, r.requeued, r.deadLettered, r.calls)
                 == (o.drained, o.requeued, o.deadLettered + 1, o.calls)
            case Order(q) =>
              var tried := Order(Queued(q.payload, q.attempts + 1, q.firstQueuedAt, Some(t.now)));
              var again, last := !t.apiOk && q.attempts + 1 < 6, !t.apiOk && q.attempts + 1 >= 6;
              && r.lists.pending == (if again then rest + [tried] else rest)
              && r.lists.dead == (if last then o.lists.dead + [tried] else o.lists.dead)
              && multiset(r.lists.processing) == inFlight - multiset{if t.shape.AsText? then raw else tried}
              && r.drained == o.drained + (if t.apiOk then 1 else 0)
              && r.requeued == o.requeued + (if again then 1 else 0)
              && r.deadLettered == o.deadLettered + (if last then 1 else 0)
              && r.calls == o.calls + 1
  {
    var raw := o.lists.pending[0];
    var value := if raw.Corrupt? then raw else RemovalValue(raw.queued, Bump(raw.queued, t.now), t.shape);
    RemoveFirstBag(o.lists.processing + [raw], value);
  }

  // ---- Accounting -----------------------------------------------------------------------

  /** Whatever the shapes: nothing is popped without ending in one of the three counters. */
  lemma {:induction false} DrainAccounting(o: Outcome, ticks: seq<Tick>)
    ensures var r := Drain(o, ticks);
            && |r.lists.pending| + r.drained + r.deadLettered - r.arrived
               == |o.lists.pending| + o.drained + o.deadLettered - o.arrived
            && |r.lists.dead| - r.deadLettered == |o.lists.dead| - o.deadLettered
            && r.requeued >= o.requeued
            && r.calls - o.calls
               <= r.drained + r.requeued + r.deadLettered - o.drained - o.requeued - o.deadLettered
               <= |ticks|
    decreases |ticks|
  {
    if ticks != [] {
      var o1 := Arrive(o, ticks[0].before);
      if o1.lists.pending != [] {
        DrainAccounting(Iterate(o1, ticks[0]), ticks[1..]);
      }
    }
  }

  /** A whole call, reclaim included: pending after + drained + dead-lettered is what was pending
      or in flight before, plus the arrivals, exactly when the reclaim reaches everything. */
  lemma CallAccounting(l: Lists, ticks: seq<Tick>)
    ensures var r := Drain(Start(Reclaimed(l, RECLAIM_BOUND)), ticks);
            |r.lists.pending| + r.drained + r.deadLettered == |l.pending| + |l.processing| + r.arrived
            <==> |l.processing| <= RECLAIM_BOUND
  {
    DrainAccounting(Start(Reclaimed(l, RECLAIM_BOUND)), ticks);
  }

  // ---- What a drain leaves in `processing` ----------------------------------------------

  /** Every order popped by this drain comes back in one of the client's shapes. */
  predicate Returns(client: set<Shape>, o: Outcome, ticks: seq<Tick>)
    decreases |ticks|
  {
    ticks == [] ||
    var o1 := Arrive(o, ticks[0].before);
    o1.lists.pending == [] ||
    ((o1.lists.pending[0].Order? ==> ticks[0].shape in client) && Returns(client, Iterate(o1, ticks[0]), ticks[1..]))
  }

  predicate AllText(o: Outcome, ticks: seq<Tick>) {
    Returns({AsText}, o, ticks)
  }

  lemma {:induction false} TextOnly(client: set<Shape>, o: Outcome, ticks: seq<Tick>)
    requires AsObject !in client && Returns(client, o, ticks)
    ensures AllText(o, ticks)
    decreases |ticks|
  {
    if ticks != [] {
      var o1 := Arrive(o, ticks[0].before);
      if o1.lists.pending != [] {
        assert ticks[0].shape.AsText? || ticks[0].shape == AsObject;
        TextOnly(client, Iterate(o1, ticks[0]), ticks[1..]);
      }
    }
  }

  lemma {:induction false} RemoveFirstLength<T>(s: seq<T>, x: T)
    ensures |RemoveFirst(s, x)| == |s| - (if x in s then 1 else 0)
  {
    if s != [] && s[0] != x { RemoveFirstLength(s[1..], x); }
  }

  lemma {:induction false} ProcessingGrows(o: Outcome, ticks: seq<Tick>)
    ensures |Drain(o, ticks).lists.processing| >= |o.lists.processing|
    decreases |ticks|
  {
    if ticks != [] {
      var o1 := Arrive(o, ticks[0].before);
      if o1.lists.pending != [] {
        var raw := o1.lists.pending[0];
        RemoveFirstLength(o1.lists.processing + [raw],
                          if raw.Corrupt? then raw
                          else RemovalValue(raw.queued, Bump(raw.queued, ticks[0].now), ticks[0].shape));
        ProcessingGrows(Iterate(o1, ticks[0]), ticks[1..]);
      }
    }
  }

  /** "An item leaves processing once its outcome is recorded" holds exactly when every popped
      order came back as text: the removal of a parsed object misses the stored element. */
  lemma {:induction false} ProcessingClearedIff(o: Outcome, ticks: seq<Tick>)
    requires o.lists.processing == []
    ensures Drain(o, ticks).lists.processing == [] <==> AllText(o, ticks)
    decreases |ticks|
  {
    if ticks != [] {
      var o1 := Arrive(o, ticks[0].before);
      if o1.lists.pending != [] {
        var raw := o1.lists.pending[0];
        assert o1.lists.processing + [raw] == [raw];
        if raw.Order? && ticks[0].shape.AsObject? {
          assert Iterate(o1, ticks[0]).lists.processing == [raw] by {
            assert RemoveFirst([raw][1..], Order(Bump(raw.queued, ticks[0].now))) == [];
          }
          ProcessingGrows(Iterate(o1, ticks[0]), ticks[1..]);
        } else {
          assert Iterate(o1, ticks[0]).lists.processing == [];
          ProcessingClearedIff(Iterate(o1, ticks[0]), ticks[1..]);
        }
      }
    }
  }

  // ---- First in, first out within attempts ----------------------------------------------

  /** The order of arrival, by what stays with an order while it is retried: finer than its stamp,
      so that two orders of one millisecond can be told apart. */
  type Rank = (Payload, int) -> int

  function Of(rank: Rank, e: Entry): int
    requires e.Order?
  {
    rank(e.queued.payload, e.queued.firstQueuedAt)
  }

  predicate InTurn(rank: Rank, a: Entry, b: Entry) {
    a.Order? && b.Order? ==>
      && (Of(rank, a) < Of(rank, b) ==> a.queued.attempts >= b.queued.attempts)
      && (Of(rank, a) > Of(rank, b) ==> a.queued.attempts < b.queued.attempts)
  }

  /** For each order and each one behind it, whatever else is queued: an earlier arrival has at
      least as many attempts, and an order behind a later arrival has strictly more. */
  predicate Fifo(rank: Rank, s: seq<Entry>) {
    forall i, j :: 0 <= i < j < |s| ==> InTurn(rank, s[i], s[j])
  }

  predicate UpTo(rank: Rank, s: seq<Entry>, latest: int) {
    forall e :: e in s && e.Order? ==> Of(rank, e) <= latest
  }

  /** New arrivals: orders without attempts, none before anything that came earlier, and text that
      is not JSON. */
  predicate Stamped(rank: Rank, s: seq<Entry>, latest: int) {
    s == [] ||
    ((s[0].Order? ==> s[0].queued.attempts == 0 && Of(rank, s[0]) >= latest)
     && Stamped(rank, s[1..], if s[0].Order? then Of(rank, s[0]) else latest))
  }

  function Latest(rank: Rank, s: seq<Entry>, latest: int): int
  {
    if s == [] then latest else Latest(rank, s[1..], if s[0].Order? then Of(rank, s[0]) else latest)
  }

  predicate TicksStamped(rank: Rank, ticks: seq<Tick>, latest: int)
    decreases |ticks|
  {
    ticks == [] ||
    (Stamped(rank, ticks[0].before, latest) &&
     var l1 := Latest(rank, ticks[0].before, latest);
     Stamped(rank, ticks[0].during, l1) && TicksStamped(rank, ticks[1..], Latest(rank, ticks[0].during, l1)))
  }

  lemma FifoArrival(rank: Rank, s: seq<Entry>, e: Entry, latest: int)
    requires Fifo(rank, s) && UpTo(rank, s, latest) && Stamped(rank, [e], latest)
    ensures Fifo(rank, s + [e]) && UpTo(rank, s + [e], if e.Order? then Of(rank, e) else latest)
  {
    var all := s + [e];
    assert [e][0] == e;
    forall i, j | 0 <= i < j < |all| ensures InTurn(rank, all[i], all[j]) {
      assert s[i] in s;
      if j < |s| { assert InTurn(rank, s[i], s[j]); }
    }
  }

  lemma {:induction false} FifoArrivals(rank: Rank, s: seq<Entry>, es: seq<Entry>, latest: int)
    requires Fifo(rank, s) && UpTo(rank, s, latest) && Stamped(rank, es, latest)
    ensures Fifo(rank, s + es) && UpTo(rank, s + es, Latest(rank, es, latest)) && Latest(rank, es, latest) >= latest
    decreases |es|
  {
    if es == [] {
      assert s + es == s;
    } else {
      assert [es[0]][1..] == [];
      FifoArrival(rank, s, es[0], latest);
      FifoArrivals(rank, s + [es[0]], es[1..], if es[0].Order? then Of(rank, es[0]) else latest);
      assert s + [es[0]] + es[1..] == s + es;
    }
  }

  lemma FifoTail(rank: Rank, s: seq<Entry>)
    requires Fifo(rank, s) && s != []
    ensures Fifo(rank, s[1..])
  {
    var rest := s[1..];
    forall i, j | 0 <= i < j < |rest| ensures InTurn(rank, rest[i], rest[j]) {
      assert InTurn(rank, s[i + 1], s[j + 1]);
    }
  }

  lemma FifoRequeue(rank: Rank, head: Queued, rest: seq<Entry>, now: int)
    requires Fifo(rank, [Order(head)] + rest)
    ensures Fifo(rank, rest) && Fifo(rank, rest + [Order(Bump(head, now))])
  {
    var s, all := [Order(head)] + rest, rest + [Order(Bump(head, now))];
    FifoTail(rank, s);
    assert s[1..] == rest;
    forall i, j | 0 <= i < j < |all| ensures InTurn(rank, all[i], all[j]) {
      if j < |rest| { assert InTurn(rank, rest[i], rest[j]); } else { assert InTurn(rank, s[0], s[i + 1]); }
    }
  }

  function TicksLatest(rank: Rank, ticks: seq<Tick>, latest: int): int
    decreases |ticks|
  {
    if ticks == [] then latest
    else TicksLatest(rank, ticks[1..], Latest(rank, ticks[0].during, Latest(rank, ticks[0].before, latest)))
  }

  lemma IterationIsFifo(rank: Rank, o: Outcome, t: Tick, latest: int)
    requires o.lists.pending != [] && Fifo(rank, o.lists.pending) && UpTo(rank, o.lists.pending, latest)
    requires Stamped(rank, t.during, latest)
    ensures Fifo(rank, Iterate(o, t).lists.pending)
    ensures UpTo(rank, Iterate(o, t).lists.pending, Latest(rank, t.during, latest))
  {
    var raw, all := o.lists.pending[0], o.lists.pending + t.during;
    FifoArrivals(rank, o.lists.pending, t.during, latest);
    assert all[1..] == o.lists.pending[1..] + t.during && all == [raw] + all[1..];
    FifoTail(rank, all);
    assert raw in all && forall e :: e in all[1..] ==> e in all;
    if raw.Order? { FifoRequeue(rank, raw.queued, all[1..], t.now); }
  }

  lemma {:induction false} RankGrows(rank: Rank, ticks: seq<Tick>, latest: int)
    requires TicksStamped(rank, ticks, latest)
    ensures TicksLatest(rank, ticks, latest) >= latest
    decreases |ticks|
  {
    if ticks != [] {
      FifoArrivals(rank, [], ticks[0].before, latest);
      var l1 := Latest(rank, ticks[0].before, latest);
      FifoArrivals(rank, [], ticks[0].during, l1);
      RankGrows(rank, ticks[1..], Latest(rank, ticks[0].during, l1));
    }
  }

  /** Orders with equal attempts stay in arrival order through a drain, arrivals and corrupt text
      included. */
  lemma {:induction false} DrainIsFifo(rank: Rank, o: Outcome, ticks: seq<Tick>, latest: int)
    requires Fifo(rank, o.lists.pending) && UpTo(rank, o.lists.pending, latest) && TicksStamped(rank, ticks, latest)
    ensures Fifo(rank, Drain(o, ticks).lists.pending)
    ensures UpTo(rank, Drain(o, ticks).lists.pending, TicksLatest(rank, ticks, latest))
    decreases |ticks|
  {
    if ticks != [] {
      var t := ticks[0];
      var o1, l1 := Arrive(o, t.before), Latest(rank, t.before, latest);
      FifoArrivals(rank, o.lists.pending, t.before, latest);
      if o1.lists.pending != [] {
        IterationIsFifo(rank, o1, t, l1);
        DrainIsFifo(rank, Iterate(o1, t), ticks[1..], Latest(rank, t.during, l1));
      }
    }
  }

  /** An element with `k` ahead of it is the one popped by iteration `k + 1`. */
  lemma {:induction false} PoppedInTurn(o: Outcome, ticks: seq<Tick>, k: nat)
    requires k < |o.lists.pending| && |ticks| == k
    ensures Drain(o, ticks).lists.pending != [] && Drain(o, ticks).lists.pending[0] == o.lists.pending[k]
    decreases k
  {
    if k > 0 {
      var o1 := Arrive(o, ticks[0].before);
      var o2 := Iterate(o1, ticks[0]);
      assert o2.lists.pending[k - 1] == o1.lists.pending[k] == o.lists.pending[k];
      PoppedInTurn(o2, ticks[1..], k - 1);
    }
  }

  // ---- Progress against an API that always fails ----------------------------------------

  /** The attempts that the orders of a list have left. */
  function Remaining(s: seq<Entry>): nat
    requires InRange(s)
  {
    if s == [] then 0
    else (if s[0].Order? then MAX_ATTEMPTS - s[0].queued.attempts else 0) + Remaining(s[1..])
  }

  function Corrupts(s: seq<Entry>): nat {
    if s == [] then 0 else (if s[0].Corrupt? then 1 else 0) + Corrupts(s[1..])
  }

  /** The iterations a list asks for: one for each attempt left, and one for each corrupt text. */
  function Work(s: seq<Entry>): nat
    requires InRange(s)
  {
    Remaining(s) + Corrupts(s)
  }

  predicate InRange(s: seq<Entry>) {
    forall e :: e in s && e.Order? ==> e.queued.attempts < MAX_ATTEMPTS
  }

  predicate Failing(ticks: seq<Tick>) {
    forall t :: t in ticks ==> !t.apiOk && t.before == [] && t.during == []
  }

  lemma {:induction false} WorkConcat(s: seq<Entry>, t: seq<Entry>)
    requires InRange(s + t)
    ensures InRange(s) && InRange(t)
    ensures Remaining(s + t) == Remaining(s) + Remaining(t) && Corrupts(s + t) == Corrupts(s) + Corrupts(t)
  {
    assert forall x :: x in s ==> x in s + t;
    assert forall x :: x in t ==> x in s + t;
    if s == [] {
      assert s + t == t;
    } else {
      assert (s + t)[1..] == s[1..] + t;
      WorkConcat(s[1..], t);
    }
  }

  lemma WorkAppend(s: seq<Entry>, q: Queued)
    requires InRange(s) && q.attempts < MAX_ATTEMPTS
    ensures InRange(s + [Order(q)]) && Remaining(s + [Order(q)]) == Remaining(s) + MAX_ATTEMPTS - q.attempts
    ensures Corrupts(s + [Order(q)]) == Corrupts(s)
  {
    assert [Order(q)][1..] == [];
    WorkConcat(s, [Order(q)]);
  }

  lemma {:induction false} WorkBounds(s: seq<Entry>)
    requires InRange(s)
    ensures |s| <= Work(s) <= MAX_ATTEMPTS * |s|
  {
    if s != [] {
      assert s[0] in s;
      WorkBounds(s[1..]);
    }
  }

  /** One failing iteration: an order keeps its place in the order and loses one attempt, corrupt
      text goes without a call. */
  lemma FailingIteration(o: Outcome, t: Tick)
    requires o.lists.pending != [] && InRange(o.lists.pending) && Failing([t])
    ensures var r := Iterate(o, t);
            && InRange(r.lists.pending) && Work(r.lists.pending) == Work(o.lists.pending) - 1
            && r.calls - o.calls == Remaining(o.lists.pending) - Remaining(r.lists.pending)
            && |r.lists.dead| + |r.lists.pending| == |o.lists.dead| + |o.lists.pending|
  {
    assert t in [t];
    var raw, rest := o.lists.pending[0], o.lists.pending[1..] + t.during;
    assert raw in o.lists.pending && rest == o.lists.pending[1..];
    if raw.Order? && raw.queued.attempts + 1 < MAX_ATTEMPTS { WorkAppend(rest, Bump(raw.queued, t.now)); }
  }

  /** Whatever the client returns, a drain makes exactly min(batch, work) iterations and a call for
      each attempt used up, and nothing leaves the pending list except for the dead letters. No
      element is popped twice exactly when the iterations do not outnumber the elements. */
  lemma {:induction false} FailingDrain(o: Outcome, ticks: seq<Tick>)
    requires InRange(o.lists.pending) && Failing(ticks)
    ensures var r, work := Drain(o, ticks), Work(o.lists.pending);
            var done := if |ticks| <= work then |ticks| else work;
            && InRange(r.lists.pending) && Work(r.lists.pending) == work - done
            && r.calls - o.calls == Remaining(o.lists.pending) - Remaining(r.lists.pending)
            && |r.lists.dead| + |r.lists.pending| == |o.lists.dead| + |o.lists.pending|
            && (done <= |o.lists.pending| <==> |ticks| <= |o.lists.pending| || work == |o.lists.pending|)
    decreases |ticks|
  {
    WorkBounds(o.lists.pending);
    if ticks != [] {
      assert ticks[0] in ticks;
      assert Arrive(o, ticks[0].before) == o by { assert o.lists.pending + [] == o.lists.pending; }
      if o.lists.pending != [] {
        FailingIteration(o, ticks[0]);
        FailingDrain(Iterate(o, ticks[0]), ticks[1..]);
      }
    }
  }

  // ---- Successive drains ------------------------------------------------------------------

  /** One cron run: the reclaim pass comes first. */
  function Cron(l: Lists, script: seq<Tick>): Lists {
    Drain(Start(Reclaimed(l, RECLAIM_BOUND)), script).lists
  }

  /** Successive cron runs, each with its own script. */
  function Drains(l: Lists, scripts: seq<seq<Tick>>): Lists
    decreases |scripts|
  {
    if scripts == [] then l else Drains(Cron(l, scripts[0]), scripts[1..])
  }

  predicate AllReturn(client: set<Shape>, l: Lists, scripts: seq<seq<Tick>>)
    decreases |scripts|
  {
    scripts == [] ||
    (Returns(client, Start(Reclaimed(l, RECLAIM_BOUND)), scripts[0])
     && AllReturn(client, Cron(l, scripts[0]), scripts[1..]))
  }

  lemma OneDrain(client: set<Shape>, l: Lists, script: seq<Tick>)
    ensures Drains(l, [script]) == Cron(l, script)
    ensures AllReturn(client, l, [script]) == Returns(client, Start(Reclaimed(l, RECLAIM_BOUND)), script)
  {
    var scripts, none: seq<seq<Tick>> := [script], [];
    assert scripts[1..] == none;
  }

  predicate Batches(scripts: seq<seq<Tick>>, batch: nat) {
    forall i :: 0 <= i < |scripts| ==> |scripts[i]| == batch
  }

  lemma NothingToReclaim(l: Lists)
    requires l.processing == []
    ensures Reclaimed(l, RECLAIM_BOUND) == l
  {
    assert l.pending + [] == l.pending;
  }

  /** With text, each cron run starts and ends with `processing` empty, whatever a crash left. */
  lemma TextClears(client: set<Shape>, l: Lists, script: seq<Tick>)
    requires AsObject !in client && |l.processing| <= RECLAIM_BOUND
    requires Returns(client, Start(Reclaimed(l, RECLAIM_BOUND)), script)
    ensures Reclaimed(l, RECLAIM_BOUND) == Lists(l.pending + l.processing, [], l.dead)
    ensures Cron(l, script).processing == []
  {
    var start := Start(Reclaimed(l, RECLAIM_BOUND));
    assert start.lists.processing == [] && l.processing[..|l.processing|] == l.processing;
    TextOnly(client, start, script);
    ProcessingClearedIff(start, script);
  }

  // ---- Emptying the queue -----------------------------------------------------------------

  predicate Emptied(l: Lists) {
    l.pending == [] && l.processing == []
  }

  predicate AllFailing(scripts: seq<seq<Tick>>) {
    forall i :: 0 <= i < |scripts| ==> Failing(scripts[i])
  }

  /** k * batch, batch by batch. */
  function Covered(k: nat, batch: nat): nat {
    if k == 0 then 0 else Covered(k - 1, batch) + batch
  }

  lemma {:induction false} CoveredIs(k: nat, batch: nat)
    ensures Covered(k, batch) == k * batch
  {
    if k > 0 { CoveredIs(k - 1, batch); }
  }

  lemma EmptyIffNothingLeft(s: seq<Entry>)
    requires InRange(s)
    ensures s == [] <==> Work(s) == 0
  {
    WorkBounds(s);
  }

  /** What both lists still ask for: a crash leaves elements in `processing`, the reclaim brings
      them back. */
  function Outstanding(l: Lists): nat
    requires InRange(l.pending + l.processing)
  {
    Work(l.pending + l.processing)
  }

  /** A list set that a failing drain may start from, and what it asks for. */
  predicate Failable(l: Lists) {
    InRange(l.pending + l.processing) && |l.processing| <= RECLAIM_BOUND
  }

  lemma ClearedIs(l: Lists)
    requires l.processing == [] && InRange(l.pending)
    ensures Failable(l) && Outstanding(l) == Work(l.pending)
  {
    assert l.pending + [] == l.pending;
  }

  lemma FailingCron(client: set<Shape>, l: Lists, script: seq<Tick>)
    requires AsObject !in client && Failable(l)
    requires Failing(script) && Returns(client, Start(Reclaimed(l, RECLAIM_BOUND)), script)
    ensures var next, work := Cron(l, script), Outstanding(l);
            && next.processing == [] && Failable(next)
            && Outstanding(next) == (if |script| <= work then work - |script| else 0)
            && |next.dead| + |next.pending| == |l.dead| + |l.pending| + |l.processing|
  {
    var start := Reclaimed(l, RECLAIM_BOUND);
    TextClears(client, l, script);
    assert start.pending == l.pending + l.processing;
    FailingStart(start, script);
    ClearedIs(Cron(l, script));
  }

  lemma FailingStart(l: Lists, script: seq<Tick>)
    requires InRange(l.pending) && Failing(script)
    ensures var next, work := Drain(Start(l), script).lists, Work(l.pending);
            && InRange(next.pending)
            && Work(next.pending) == (if |script| <= work then work - |script| else 0)
            && |next.dead| + |next.pending| == |l.dead| + |l.pending|
  {
    FailingDrain(Start(l), script);
  }

  lemma ScriptsSplit(client: set<Shape>, l: Lists, scripts: seq<seq<Tick>>, batch: nat)
    requires scripts != [] && Batches(scripts, batch) && AllFailing(scripts) && AllReturn(client, l, scripts)
    ensures |scripts[0]| == batch && Failing(scripts[0])
    ensures Returns(client, Start(Reclaimed(l, RECLAIM_BOUND)), scripts[0])
    ensures Batches(scripts[1..], batch) && AllFailing(scripts[1..])
    ensures AllReturn(client, Cron(l, scripts[0]), scripts[1..])
    ensures Drains(l, scripts) == Drains(Cron(l, scripts[0]), scripts[1..])
  {
  }

  lemma {:induction false} DeadLetteredBatchwise(client: set<Shape>, l: Lists, scripts: seq<seq<Tick>>, batch: nat)
    requires AsObject !in client && Failable(l)
    requires Batches(scripts, batch) && AllFailing(scripts) && AllReturn(client, l, scripts)
    ensures var r := Drains(l, scripts);
            && (Emptied(r) <==> Covered(|scripts|, batch) >= Outstanding(l))
            && |r.dead| + |r.pending| + |r.processing| == |l.dead| + |l.pending| + |l.processing|
    decreases |scripts|
  {
    if scripts == [] {
      EmptyIffNothingLeft(l.pending + l.processing);
    } else {
      ScriptsSplit(client, l, scripts, batch);
      FailingCron(client, l, scripts[0]);
      DeadLetteredBatchwise(client, Cron(l, scripts[0]), scripts[1..], batch);
    }
  }

  /** Against an API that always fails, both lists are empty after k drains exactly when k * batch
      covers what was outstanding, so after ceil(outstanding / batch) drains and no sooner; every
      element has then been dead-lettered. */
  lemma AllDeadLettered(client: set<Shape>, l: Lists, scripts: seq<seq<Tick>>, batch: nat)
    requires AsObject !in client && Failable(l)
    requires Batches(scripts, batch) && AllFailing(scripts) && AllReturn(client, l, scripts)
    ensures var r := Drains(l, scripts);
            && (Emptied(r) <==> |scripts| * batch >= Outstanding(l))
            && |r.dead| + |r.pending| + |r.processing| == |l.dead| + |l.pending| + |l.processing|
  {
    DeadLetteredBatchwise(client, l, scripts, batch);
    CoveredIs(|scripts|, batch);
  }

  predicate FailingRun(client: set<Shape>, l: Lists, scripts: seq<seq<Tick>>, batch: nat) {
    && Failable(l)
    && Batches(scripts, batch) && AllFailing(scripts) && AllReturn(client, l, scripts)
  }

  ghost predicate EmptiesInTime(client: set<Shape>, batch: nat) {
    forall l, scripts :: FailingRun(client, l, scripts, batch) ==>
      (Emptied(Drains(l, scripts)) <==> |scripts| * batch >= Outstanding(l))
  }

  lemma {:induction false} MissesAll(s: seq<Entry>, x: Entry)
    requires x !in s
    ensures RemoveFirst(s, x) == s
  {
    if s != [] { MissesAll(s[1..], x); }
  }

  /** An order at its last attempt, and one drain: dead-lettered, but still in `processing`, from
      where the next drain brings it back. */
  lemma ParsedNotEmptied(client: set<Shape>, batch: nat)
    requires AsObject in client && batch > 0
    ensures var l := Lists([Order(Queued(Payload("", false), 5, 0, None))], [], []);
            var script := seq(batch, i => Tick([], [], AsObject, 0, false));
            && FailingRun(client, l, [script], batch) && Outstanding(l) == 1
            && Drains(l, [script]).processing == l.pending && |Drains(l, [script]).dead| == 1
  {
    var x := Order(Queued(Payload("", false), 5, 0, None));
    var l := Lists([x], [], []);
    var t := Tick([], [], AsObject, 0, false);
    var script := seq(batch, i => Tick([], [], AsObject, 0, false));
    NothingToReclaim(l);
    OneDrain(client, l, script);
    assert script[0] == t && [x][1..] + [] == [] && l.pending + l.processing == [x];
    assert Arrive(Start(l), []) == Start(l) by { assert [x] + [] == [x]; }
    var o := Iterate(Start(l), t);
    assert l.processing + [x] == [x];
    MissesAll([x], Order(Bump(x.queued, 0)));
    assert o.lists.pending == [] && o.lists.processing == [x];
    if script[1..] != [] { assert Arrive(o, script[1..][0].before) == o by { assert [] + [] == o.lists.pending; } }
    assert Returns(client, o, script[1..]) && Drain(o, script[1..]) == o;
  }

  /** The queue empties in that time, on every script, exactly when the client returns text. */
  lemma EmptiesInTimeIff(client: set<Shape>, batch: nat)
    requires batch > 0
    ensures EmptiesInTime(client, batch) <==> AsObject !in client
  {
    if AsObject in client {
      ParsedNotEmptied(client, batch);
      var l := Lists([Order(Queued(Payload("", false), 5, 0, None))], [], []);
      var script := seq(batch, i => Tick([], [], AsObject, 0, false));
      assert FailingRun(client, l, [script], batch) && |[script]| * batch >= Outstanding(l);
    } else {
      forall l, scripts | FailingRun(client, l, scripts, batch)
        ensures Emptied(Drains(l, scripts)) <==> |scripts| * batch >= Outstanding(l)
      {
        AllDeadLettered(client, l, scripts, batch);
      }
    }
  }

  // ---- First in, first out over successive drains -------------------------------------------

  /** Arrivals come in order throughout. */
  predicate InOrder(rank: Rank, scripts: seq<seq<Tick>>, latest: int)
    decreases |scripts|
  {
    scripts == [] ||
    (TicksStamped(rank, scripts[0], latest) && InOrder(rank, scripts[1..], TicksLatest(rank, scripts[0], latest)))
  }

  /** The lists the next drain will pop from. */
  function Upcoming(l: Lists, scripts: seq<seq<Tick>>): seq<Entry> {
    Reclaimed(Drains(l, scripts), RECLAIM_BOUND).pending
  }

  predicate OrderedRun(client: set<Shape>, rank: Rank, l: Lists, scripts: seq<seq<Tick>>, latest: int) {
    && l.processing == [] && Fifo(rank, l.pending) && UpTo(rank, l.pending, latest)
    && InOrder(rank, scripts, latest) && AllReturn(client, l, scripts)
  }

  /** First in, first out within attempts, over any number of successive drains with arrivals in
      between and meanwhile. */
  lemma {:induction false} DrainsAreFifo(client: set<Shape>, rank: Rank, l: Lists, scripts: seq<seq<Tick>>, latest: int)
    requires AsObject !in client && OrderedRun(client, rank, l, scripts, latest)
    ensures Fifo(rank, Upcoming(l, scripts)) && Drains(l, scripts).processing == []
    decreases |scripts|
  {
    NothingToReclaim(l);
    if scripts != [] {
      TextClears(client, l, scripts[0]);
      DrainIsFifo(rank, Start(l), scripts[0], latest);
      DrainsAreFifo(client, rank, Cron(l, scripts[0]), scripts[1..], TicksLatest(rank, scripts[0], latest));
    }
  }

  ghost predicate StaysFifo(client: set<Shape>, batch: nat) {
    forall rank: Rank, l, scripts, latest :: Batches(scripts, batch) && OrderedRun(client, rank, l, scripts, latest) ==>
      Fifo(rank, Upcoming(l, scripts))
  }

  /** Orders ranked by their stamps. */
  function ByStamp(): Rank {
    (p: Payload, at: int) => at
  }

  /** The order that arrived at time k. */
  function Nth(k: nat): Entry {
    Order(Queued(Payload("", false), 0, k, None))
  }

  /** Each call succeeds, and the next order arrives during it. */
  function Relay(k: nat, n: nat): seq<Tick>
    decreases n
  {
    if n == 0 then [] else [Tick([], [Nth(k + 1)], AsObject, 0, true)] + Relay(k + 1, n - 1)
  }

  lemma {:induction false} RelayStamped(k: nat, n: nat)
    ensures TicksStamped(ByStamp(), Relay(k, n), k) && |Relay(k, n)| == n
    decreases n
  {
    if n > 0 {
      RelayStamped(k + 1, n - 1);
      assert [Nth(k + 1)][1..] == [];
      assert Stamped(ByStamp(), [Nth(k + 1)], k) && Latest(ByStamp(), [Nth(k + 1)], k) == k + 1;
    }
  }

  /** Every delivered order stays in `processing`, and only the last arrival is pending. */
  lemma {:induction false} RelayLeaves(client: set<Shape>, o: Outcome, k: nat, n: nat)
    requires AsObject in client && o.lists.pending == [Nth(k)]
    requires forall e :: e in o.lists.processing ==> e.Order? && e.queued.attempts == 0
    ensures Returns(client, o, Relay(k, n))
    ensures var r := Drain(o, Relay(k, n)).lists;
            && r.pending == [Nth(k + n)]
            && o.lists.processing <= r.processing
            && (n > 0 ==> |r.processing| > |o.lists.processing| && r.processing[|o.lists.processing|] == Nth(k))
    decreases n
  {
    if n > 0 {
      var t := Tick([], [Nth(k + 1)], AsObject, 0, true);
      assert Relay(k, n)[0] == t && Relay(k, n)[1..] == Relay(k + 1, n - 1);
      assert Arrive(o, []) == o by { assert o.lists.pending + [] == o.lists.pending; }
      var gone := Order(Bump(Nth(k).queued, 0));
      MissesAll(o.lists.processing + [Nth(k)], gone);
      var next := Iterate(o, t);
      assert next.lists.pending == [Nth(k + 1)] && next.lists.processing == o.lists.processing + [Nth(k)];
      RelayLeaves(client, next, k + 1, n - 1);
    }
  }

  /** The next reclaim puts the first order behind the last, both with no attempts used. */
  lemma ParsedOvertaken(client: set<Shape>, batch: nat)
    requires AsObject in client && batch > 0
    ensures !StaysFifo(client, batch)
  {
    var l, script := Lists([Nth(0)], [], []), Relay(0, batch);
    NothingToReclaim(l);
    RelayStamped(0, batch);
    RelayLeaves(client, Start(l), 0, batch);
    OneDrain(client, l, script);
    var r := Drains(l, [script]);
    assert r == Cron(l, script) && r.pending == [Nth(batch)] && r.processing[0] == Nth(0);
    var up := Upcoming(l, [script]);
    assert up[0] == Nth(batch) && up[1] == Nth(0);
    assert !InTurn(ByStamp(), up[0], up[1]);
    var scripts, none: seq<seq<Tick>> := [script], [];
    assert scripts[1..] == none && InOrder(ByStamp(), scripts, 0);
    assert Batches(scripts, batch) && OrderedRun(client, ByStamp(), l, scripts, 0);
  }

  /** Orders stay first in, first out across drains exactly when the client returns text. */
  lemma StaysFifoIff(client: set<Shape>, batch: nat)
    requires batch > 0
    ensures StaysFifo(client, batch) <==> AsObject !in client
  {
    if AsObject in client {
      ParsedOvertaken(client, batch);
    } else {
      forall rank: Rank, l, scripts, latest | Batches(scripts, batch) && OrderedRun(client, rank, l, scripts, latest)
        ensures Fifo(rank, Upcoming(l, scripts))
      {
        DrainsAreFifo(client, rank, l, scripts, latest);
      }
    }
  }
}
