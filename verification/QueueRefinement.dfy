/** The in-place drain, reclaim pass and arrivals included, is a run of the step protocol, so
    whatever holds of every protocol run holds of the code that is executed. */
module QueueRefinement {
  import opened Common
  import opened EdgeTypes
  import opened QueueProtocol
  import EdgeQueue

  function ListsOf(s: System): EdgeQueue.Lists {
    EdgeQueue.Lists(s.pending, s.processing, s.dead)
  }

  // ---- Arrivals ---------------------------------------------------------------------------

  predicate AllArrivable(cfg: Config, es: seq<Entry>) {
    forall i :: 0 <= i < |es| ==> Arrivable(cfg, es[i])
  }

  /** Any entries may be pushed between two steps of a drain, each by a submission of its own. */
  lemma {:induction false} ArrivalsAreRun(cfg: Config, s: System, es: seq<Entry>, n: nat)
    returns (steps: seq<Step>, end: System, m: nat)
    requires cfg.redis && Unused(s, n) && AllArrivable(cfg, es)
    ensures Reaches(cfg, s, steps, end) && Unused(end, m)
    ensures ListsOf(end) == ListsOf(s).(pending := s.pending + es) && end.drains == s.drains
    decreases |es|
  {
    if es == [] {
      Nil(cfg, s);
      steps, end, m := [], s, n;
    } else {
      var mid := AfterArrival(s, es[0], n);
      SubmissionIsRun(cfg, s, es[0], n);
      assert AllArrivable(cfg, es[1..]);
      var more;
      more, end, m := ArrivalsAreRun(cfg, mid, es[1..], n + 1);
      RunConcat(cfg, s, Submission(es[0], n), mid, more, end);
      steps := Submission(es[0], n) + more;
    }
  }

  // ---- From the pop to the removal ----------------------------------------------------------

  /** What a drain is about to do with the element it popped. */
  function Popped(k: nat, raw: Entry, t: EdgeQueue.Tick): Drain {
    match raw
    case Order(q) => Calling(k, Job(q, Bump(q, t.now), t.shape))
    case Corrupt(text) => Salvaging(k, text)
  }

  function Value(raw: Entry, t: EdgeQueue.Tick): Entry {
    if raw.Corrupt? then raw else RemovalValue(raw.queued, Bump(raw.queued, t.now), t.shape)
  }

  function Requeue(raw: Entry, t: EdgeQueue.Tick): seq<Entry> {
    if raw.Order? && !t.apiOk && raw.queued.attempts + 1 < MAX_ATTEMPTS then [Order(Bump(raw.queued, t.now))] else []
  }

  function DeadLetter(raw: Entry, t: EdgeQueue.Tick): seq<Entry> {
    if raw.Corrupt? then [raw]
    else if !t.apiOk && raw.queued.attempts + 1 >= MAX_ATTEMPTS then [Order(Bump(raw.queued, t.now))]
    else []
  }

  /** Only the lists, the drains and the counters have changed. */
  predicate SameIntake(s: System, s': System) {
    s'.requests == s.requests && s'.answers == s.answers && s'.qstash == s.qstash
  }

  lemma RemoveIsRun(cfg: Config, s: System, d: nat, k: nat, raw: Entry, value: Entry) returns (end: System)
    requires d in s.drains && s.drains[d] == Removing(k, raw, value)
    ensures Reaches(cfg, s, [Removes(d)], end) && SameIntake(s, end)
    ensures ListsOf(end) == ListsOf(s).(processing := RemoveFirst(s.processing, value))
    ensures end.drains == s.drains[d := Popping(k + 1)]
  {
    end := s.(processing := RemoveFirst(s.processing, value), drains := s.drains[d := Popping(k + 1)]);
    One(cfg, s, Removes(d), end);
  }

  lemma SalvageIsRun(cfg: Config, s: System, d: nat, k: nat, raw: Entry, t: EdgeQueue.Tick)
    returns (steps: seq<Step>, end: System)
    requires d in s.drains && s.drains[d] == Popped(k, raw, t) && raw.Corrupt?
    ensures Reaches(cfg, s, steps, end) && SameIntake(s, end)
    ensures ListsOf(end) == EdgeQueue.Lists(s.pending, RemoveFirst(s.processing, raw), s.dead + [raw])
    ensures end.drains == s.drains[d := Popping(k + 1)]
  {
    var s1 := s.(dead := s.dead + [raw], drains := s.drains[d := Removing(k, raw, raw)]);
    assert Goes(cfg, s, Records(d), s1);
    end := RemoveIsRun(cfg, s1, d, k, raw, raw);
    Then(cfg, s, Records(d), s1, [Removes(d)], end);
    steps := [Records(d)] + [Removes(d)];
  }

  lemma RecordIsRun(cfg: Config, s: System, d: nat, k: nat, job: Job) returns (steps: seq<Step>, end: System)
    requires d in s.drains && s.drains[d] == Recording(k, job)
    ensures Reaches(cfg, s, steps, end) && SameIntake(s, end)
    ensures end.pending == s.pending + (if job.bumped.attempts < MAX_ATTEMPTS then [Order(job.bumped)] else [])
    ensures end.dead == s.dead + (if job.bumped.attempts < MAX_ATTEMPTS then [] else [Order(job.bumped)])
    ensures end.processing == RemoveFirst(s.processing, RemovalValue(job.popped, job.bumped, job.shape))
    ensures end.drains == s.drains[d := Popping(k + 1)]
  {
    var value := RemovalValue(job.popped, job.bumped, job.shape);
    var s1 := Apply(cfg, s, Records(d));
    assert s1.drains == s.drains[d := Removing(k, Order(job.popped), value)];
    end := RemoveIsRun(cfg, s1, d, k, Order(job.popped), value);
    Then(cfg, s, Records(d), s1, [Removes(d)], end);
    steps := [Records(d)] + [Removes(d)];
  }

  lemma CallIsRun(cfg: Config, s: System, d: nat, k: nat, raw: Entry, t: EdgeQueue.Tick)
    returns (steps: seq<Step>, end: System)
    requires d in s.drains && s.drains[d] == Popped(k, raw, t) && raw.Order?
    ensures Reaches(cfg, s, steps, end) && SameIntake(s, end)
    ensures ListsOf(end) == EdgeQueue.Lists(s.pending + Requeue(raw, t), RemoveFirst(s.processing, Value(raw, t)),
                                            s.dead + DeadLetter(raw, t))
    ensures end.drains == s.drains[d := Popping(k + 1)]
  {
    var job := s.drains[d].job;
    var call := Calls(d, t.apiOk, t.apiOk);
    var s1 := Apply(cfg, s, call);
    assert Goes(cfg, s, call, s1) && ListsOf(s1) == ListsOf(s) && SameIntake(s, s1);
    var rest;
    if t.apiOk {
      assert s1.drains == s.drains[d := Removing(k, raw, Value(raw, t))];
      end := RemoveIsRun(cfg, s1, d, k, raw, Value(raw, t));
      rest := [Removes(d)];
    } else {
      assert s1.drains == s.drains[d := Recording(k, job)];
      rest, end := RecordIsRun(cfg, s1, d, k, job);
    }
    Then(cfg, s, call, s1, rest, end);
    steps := [call] + rest;
  }

  /** The lists after one iteration, as one expression. */
  lemma IterateIs(l: EdgeQueue.Lists, t: EdgeQueue.Tick)
    requires l.pending != []
    ensures var raw := l.pending[0];
            EdgeQueue.Iterate(EdgeQueue.Start(l), t).lists
            == EdgeQueue.Lists(l.pending[1..] + t.during + Requeue(raw, t),
                               RemoveFirst(l.processing + [raw], Value(raw, t)), l.dead + DeadLetter(raw, t))
  {
  }

  lemma PopIsRun(cfg: Config, s: System, d: nat, k: nat, t: EdgeQueue.Tick) returns (end: System)
    requires d in s.drains && s.drains[d] == Popping(k) && k < Batch(cfg.intake) && s.pending != []
    requires s.pending[0].Corrupt? ==> t.shape.AsText?
    ensures Reaches(cfg, s, [Pops(d, t.shape, t.now)], end) && SameIntake(s, end)
    ensures ListsOf(end) == EdgeQueue.Lists(s.pending[1..], s.processing + [s.pending[0]], s.dead)
    ensures end.drains == s.drains[d := Popped(k, s.pending[0], t)]
  {
    end := Apply(cfg, s, Pops(d, t.shape, t.now));
    One(cfg, s, Pops(d, t.shape, t.now), end);
  }

  /** One in-place iteration is a run: the pop, then whatever arrives during the call, then the
      outcome. The lists are the same and the drain is ready for its next pop. */
  lemma IterationIsRun(cfg: Config, s: System, d: nat, k: nat, t: EdgeQueue.Tick, n: nat)
    returns (steps: seq<Step>, end: System, m: nat)
    requires d in s.drains && s.drains[d] == Popping(k) && k < Batch(cfg.intake) && s.pending != []
    requires s.pending[0].Corrupt? ==> t.shape.AsText?
    requires cfg.redis && Unused(s, n) && AllArrivable(cfg, t.during)
    ensures Reaches(cfg, s, steps, end) && Unused(end, m)
    ensures ListsOf(end) == EdgeQueue.Iterate(EdgeQueue.Start(ListsOf(s)), t).lists
    ensures end.drains == s.drains[d := Popping(k + 1)]
  {
    var raw := s.pending[0];
    var s1 := PopIsRun(cfg, s, d, k, t);
    var arrivals, s2, m' := ArrivalsAreRun(cfg, s1, t.during, n);
    var rest;
    if raw.Corrupt? {
      rest, end := SalvageIsRun(cfg, s2, d, k, raw, t);
      assert s2.pending + Requeue(raw, t) == s2.pending;
    } else {
      rest, end := CallIsRun(cfg, s2, d, k, raw, t);
    }
    m := m';
    IterateIs(ListsOf(s), t);
    RunConcat(cfg, s1, arrivals, s2, rest, end);
    RunConcat(cfg, s, [Pops(d, t.shape, t.now)], s1, arrivals + rest, end);
    steps := [Pops(d, t.shape, t.now)] + (arrivals + rest);
    assert s.drains[d := Popped(k, raw, t)][d := Popping(k + 1)] == s.drains[d := Popping(k + 1)];
  }

  // ---- A whole drain ----------------------------------------------------------------------

  /** Everything that arrives may arrive, and only JSON-shaped elements come back parsed. */
  predicate Feasible(cfg: Config, l: EdgeQueue.Lists, ticks: seq<EdgeQueue.Tick>)
    decreases |ticks|
  {
    ticks == [] ||
    var l1 := l.(pending := l.pending + ticks[0].before);
    AllArrivable(cfg, ticks[0].before) && AllArrivable(cfg, ticks[0].during) &&
    (l1.pending == [] ||
     ((l1.pending[0].Corrupt? ==> ticks[0].shape.AsText?) &&
      Feasible(cfg, EdgeQueue.Iterate(EdgeQueue.Start(l1), ticks[0]).lists, ticks[1..])))
  }

  /** The counters play no part in what happens to the lists. */
  lemma {:induction false} ListsOnly(o: EdgeQueue.Outcome, p: EdgeQueue.Outcome, ticks: seq<EdgeQueue.Tick>)
    requires o.lists == p.lists
    ensures EdgeQueue.Drain(o, ticks).lists == EdgeQueue.Drain(p, ticks).lists
    decreases |ticks|
  {
    if ticks != [] {
      var t := ticks[0];
      var o1, p1 := EdgeQueue.Arrive(o, t.before), EdgeQueue.Arrive(p, t.before);
      if o1.lists.pending != [] { ListsOnly(EdgeQueue.Iterate(o1, t), EdgeQueue.Iterate(p1, t), ticks[1..]); }
    }
  }

  lemma DrainNext(l: EdgeQueue.Lists, ticks: seq<EdgeQueue.Tick>)
    requires ticks != []
    ensures var l1 := l.(pending := l.pending + ticks[0].before);
            EdgeQueue.Drain(EdgeQueue.Start(l), ticks).lists
            == if l1.pending == [] then l1
               else
                 var next := EdgeQueue.Iterate(EdgeQueue.Start(l1), ticks[0]).lists;
                 EdgeQueue.Drain(EdgeQueue.Start(next), ticks[1..]).lists
  {
    var l1 := l.(pending := l.pending + ticks[0].before);
    var o1 := EdgeQueue.Arrive(EdgeQueue.Start(l), ticks[0].before);
    if l1.pending != [] {
      assert EdgeQueue.Iterate(o1, ticks[0]).lists == EdgeQueue.Iterate(EdgeQueue.Start(l1), ticks[0]).lists;
      ListsOnly(EdgeQueue.Iterate(o1, ticks[0]),
                EdgeQueue.Start(EdgeQueue.Iterate(EdgeQueue.Start(l1), ticks[0]).lists), ticks[1..]);
    }
  }

  lemma {:induction false} IterationsAreRun(
      cfg: Config, s: System, d: nat, k: nat, ticks: seq<EdgeQueue.Tick>, n: nat)
    returns (steps: seq<Step>, end: System, last: nat)
    requires d in s.drains && s.drains[d] == Popping(k) && k + |ticks| == Batch(cfg.intake)
    requires cfg.redis && Unused(s, n) && Feasible(cfg, ListsOf(s), ticks)
    ensures Reaches(cfg, s, steps, end)
    ensures ListsOf(end) == EdgeQueue.Drain(EdgeQueue.Start(ListsOf(s)), ticks).lists
    ensures end.drains == s.drains[d := Popping(last)] && (last == Batch(cfg.intake) || end.pending == [])
    decreases |ticks|
  {
    if ticks == [] {
      Nil(cfg, s);
      steps, end, last := [], s, k;
    } else {
      DrainNext(ListsOf(s), ticks);
      var arrivals, s1, n1 := ArrivalsAreRun(cfg, s, ticks[0].before, n);
      if s1.pending == [] {
        steps, end, last := arrivals, s1, k;
      } else {
        var first, s2, n2 := IterationIsRun(cfg, s1, d, k, ticks[0], n1);
        var more;
        more, end, last := IterationsAreRun(cfg, s2, d, k + 1, ticks[1..], n2);
        RunConcat(cfg, s1, first, s2, more, end);
        RunConcat(cfg, s, arrivals, s1, first + more, end);
        steps := arrivals + (first + more);
        assert s.drains[d := Popping(k + 1)][d := Popping(last)] == s.drains[d := Popping(last)];
      }
    }
  }

  lemma {:induction false} ReclaimIsRun(cfg: Config, s: System, d: nat, moves: nat)
    returns (steps: seq<Step>, end: System)
    requires d in s.drains && s.drains[d] == Reclaiming(moves) && moves <= RECLAIM_BOUND
    ensures Reaches(cfg, s, steps, end) && SameIntake(s, end)
    ensures ListsOf(end) == EdgeQueue.Reclaimed(ListsOf(s), RECLAIM_BOUND - moves)
    ensures end.drains == s.drains[d := Popping(0)]
    decreases RECLAIM_BOUND - moves
  {
    if moves == RECLAIM_BOUND || s.processing == [] {
      end := s.(drains := s.drains[d := Popping(0)]);
      One(cfg, s, EndsReclaim(d), end);
      steps := [EndsReclaim(d)];
      assert s.pending + s.processing[..0] == s.pending;
    } else {
      var next := s.(pending := s.pending + [s.processing[0]], processing := s.processing[1..],
                     drains := s.drains[d := Reclaiming(moves + 1)]);
      assert Goes(cfg, s, Reclaims(d), next);
      var rest;
      rest, end := ReclaimIsRun(cfg, next, d, moves + 1);
      Then(cfg, s, Reclaims(d), next, rest, end);
      steps := [Reclaims(d)] + rest;
      ReclaimedOneMore(ListsOf(s), RECLAIM_BOUND - moves);
      assert s.drains[d := Reclaiming(moves + 1)][d := Popping(0)] == s.drains[d := Popping(0)];
    }
  }

  lemma ReclaimedOneMore(l: EdgeQueue.Lists, bound: nat)
    requires bound > 0 && l.processing != []
    ensures var moved := l.(pending := l.pending + [l.processing[0]], processing := l.processing[1..]);
            EdgeQueue.Reclaimed(l, bound) == EdgeQueue.Reclaimed(moved, bound - 1)
  {
    var n := if |l.processing| <= bound then |l.processing| else bound;
    assert l.processing[..n] == [l.processing[0]] + l.processing[1..][..n - 1];
    assert l.processing[n..] == l.processing[1..][n - 1..];
    assert l.pending + l.processing[..n] == l.pending + [l.processing[0]] + l.processing[1..][..n - 1];
  }

  lemma Assembled(cfg: Config, s: System, d: nat, s1: System, reclaim: seq<Step>, s2: System,
                  loop: seq<Step>, s3: System, end: System)
    requires Goes(cfg, s, StartsDrain(d), s1) && Reaches(cfg, s1, reclaim, s2)
    requires Reaches(cfg, s2, loop, s3) && Goes(cfg, s3, Finishes(d), end)
    ensures Reaches(cfg, s, [StartsDrain(d)] + (reclaim + (loop + [Finishes(d)])), end)
  {
    One(cfg, s3, Finishes(d), end);
    RunConcat(cfg, s2, loop, s3, [Finishes(d)], end);
    RunConcat(cfg, s1, reclaim, s2, loop + [Finishes(d)], end);
    Then(cfg, s, StartsDrain(d), s1, reclaim + (loop + [Finishes(d)]), end);
  }

  lemma Ended(cfg: Config, s: System, d: nat, k: nat)
    requires d in s.drains && s.drains[d] == Popping(k) && (k >= Batch(cfg.intake) || s.pending == [])
    ensures Goes(cfg, s, Finishes(d), s.(drains := s.drains - {d}))
  {
  }

  lemma Started(cfg: Config, s: System, d: nat)
    requires Enabled(cfg, s, StartsDrain(d))
    ensures Goes(cfg, s, StartsDrain(d), s.(drains := s.drains[d := Reclaiming(0)]))
  {
  }

  lemma NextUnused(s: System) returns (n: nat)
    ensures Unused(s, n)
  {
    var keys := s.requests.Keys + s.answers.Keys + s.qstash.Keys;
    n := Above(keys);
    assert forall k :: k in s.requests ==> k in keys;
    assert forall k :: k in s.answers ==> k in keys;
    assert forall k :: k in s.qstash ==> k in keys;
  }

  /** A whole in-place drain is a run of the protocol that ends with the drain gone and the same
      three lists: the reclaim pass, each iteration, and every order or cart that is pushed
      before a pop or during a call, from any state in which a drain may start. */
  lemma DrainIsRun(cfg: Config, s: System, d: nat, ticks: seq<EdgeQueue.Tick>)
    returns (steps: seq<Step>, end: System)
    requires Enabled(cfg, s, StartsDrain(d)) && |ticks| == Batch(cfg.intake)
    requires Feasible(cfg, EdgeQueue.Reclaimed(ListsOf(s), RECLAIM_BOUND), ticks)
    ensures Reaches(cfg, s, steps, end)
    ensures ListsOf(end)
         == EdgeQueue.Drain(EdgeQueue.Start(EdgeQueue.Reclaimed(ListsOf(s), RECLAIM_BOUND)), ticks).lists
    ensures end.drains == s.drains
  {
    var n := NextUnused(s);
    var s1 := s.(drains := s.drains[d := Reclaiming(0)]);
    Started(cfg, s, d);
    var reclaim, s2 := ReclaimIsRun(cfg, s1, d, 0);
    var loop, s3, last := IterationsAreRun(cfg, s2, d, 0, ticks, n);
    end := s3.(drains := s3.drains - {d});
    Ended(cfg, s3, d, last);
    Assembled(cfg, s, d, s1, reclaim, s2, loop, s3, end);
    steps := [StartsDrain(d)] + (reclaim + (loop + [Finishes(d)]));
    assert end.drains == s.drains;
  }
}
