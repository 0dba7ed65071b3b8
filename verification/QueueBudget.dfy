/** Retry budget and copy accounting of the queue, for runs in which drains do not overlap.
    Drains may die at any await, and elements may come back as text or parsed. */
module QueueBudget {
  import opened Common
  import opened EdgeTypes
  import opened QueueProtocol

  /** No second drain starts while one is running. */
  ghost predicate Solo(cfg: Config, s: System, steps: seq<Step>)
    requires Legal(cfg, s, steps)
    decreases |steps|
  {
    steps != [] ==> (steps[0].StartsDrain? ==> s.drains == map[]) && Solo(cfg, Apply(cfg, s, steps[0]), steps[1..])
  }

  // ---- Potential ------------------------------------------------------------------------

  function Weight(e: Entry): nat {
    if e.Order? && e.queued.attempts < MAX_ATTEMPTS then MAX_ATTEMPTS - e.queued.attempts else 0
  }

  /** Attempts the elements of a list may still use. */
  function Credit(s: seq<Entry>): nat {
    if s == [] then 0 else Weight(s[0]) + Credit(s[1..])
  }

  function Single(e: Entry): nat {
    if e.Order? then 1 else 0
  }

  function CountOrders(s: seq<Entry>): nat {
    if s == [] then 0 else Single(s[0]) + CountOrders(s[1..])
  }

  /** 0 to 5 attempts. */
  predicate InBudget(s: seq<Entry>) {
    forall e :: e in s && e.Order? ==> e.queued.attempts < MAX_ATTEMPTS
  }

  lemma {:induction false} SumsConcat(a: seq<Entry>, b: seq<Entry>)
    ensures Credit(a + b) == Credit(a) + Credit(b)
    ensures CountOrders(a + b) == CountOrders(a) + CountOrders(b)
  {
    if a == [] {
      assert a + b == b;
    } else {
      assert (a + b)[1..] == a[1..] + b;
      SumsConcat(a[1..], b);
    }
  }

  lemma SumsAppend(s: seq<Entry>, e: Entry)
    ensures Credit(s + [e]) == Credit(s) + Weight(e)
    ensures CountOrders(s + [e]) == CountOrders(s) + Single(e)
  {
    assert [e][1..] == [];
    SumsConcat(s, [e]);
  }

  lemma {:induction false} SumsRemoveFirst(s: seq<Entry>, x: Entry)
    ensures Credit(RemoveFirst(s, x)) == Credit(s) - if x in s then Weight(x) else 0
    ensures CountOrders(RemoveFirst(s, x)) == CountOrders(s) - if x in s then Single(x) else 0
    ensures |RemoveFirst(s, x)| == |s| - if x in s then 1 else 0
    ensures forall e :: e in RemoveFirst(s, x) ==> e in s
  {
    if s != [] && s[0] != x {
      SumsRemoveFirst(s[1..], x);
      var r := RemoveFirst(s[1..], x);
      assert ([s[0]] + r)[1..] == r;
      assert x in s <==> x in s[1..];
    }
  }

  // ---- Invariant ------------------------------------------------------------------------

  /** The drain will try to remove another value than the one it popped. */
  predicate Parsed(drain: Drain) {
    if drain.Calling? || drain.Recording? then drain.job.shape.AsObject?
    else drain.Removing? && drain.value != drain.popped
  }

  predicate GoodJob(drain: Drain) {
    && (drain.Calling? || drain.Recording? ==>
          && drain.job.bumped.payload == drain.job.popped.payload
          && drain.job.bumped.attempts == drain.job.popped.attempts + 1)
    && (drain.Removing? && drain.value != drain.popped ==> drain.popped.Order?)
  }

  /** What the drain popped is in `processing`. */
  predicate InHand(s: System, drain: Drain) {
    match drain
    case Calling(_, job) => Order(job.popped) in s.processing
    case Recording(_, job) => Order(job.popped) in s.processing
    case Salvaging(_, text) => Corrupt(text) in s.processing
    case Removing(_, popped, _) => popped in s.processing
    case _ => true
  }

  /** Calls already made for the element in hand that its remaining attempts still show, less the
      six attempts set aside when it came back parsed. */
  function Debt(drain: Drain): int {
    (if drain.Recording? then 1 else if drain.Removing? then Weight(drain.popped) else 0)
    - if Parsed(drain) then MAX_ATTEMPTS else 0
  }

  /** The order in hand already has its successor, or is settled. */
  function Copied(drain: Drain): nat {
    if drain.Removing? then Single(drain.popped) else 0
  }

  predicate Accounts(s: System, debt: int, copied: nat, aside: nat) {
    && s.calls + Credit(s.pending) + Credit(s.processing) <= MAX_ATTEMPTS * (s.buffered + s.crashes + s.parsed) + debt
    && s.buffered + copied <= CountOrders(s.pending) + CountOrders(s.processing) + s.settled
    && CountOrders(s.pending) + CountOrders(s.processing) + s.settled + aside
       <= s.buffered + s.crashes + s.parsed + copied
  }

  function Aside(drain: Drain): nat {
    if Parsed(drain) then 1 else 0
  }

  /** How full `processing` can be: reclaim empties it, and each pop adds one at most. */
  predicate Room(cfg: Config, s: System, drain: Drain) {
    match drain
    case Reclaiming(moves) => |s.processing| + moves <= Batch(cfg.intake) && |s.processing| <= 1 + s.parsed
    case Popping(n) => |s.processing| <= n <= Batch(cfg.intake) && |s.processing| <= s.parsed
    case _ => |s.processing| <= drain.pops + 1 <= Batch(cfg.intake) && |s.processing| + Aside(drain) <= 1 + s.parsed
  }

  predicate Fine(cfg: Config, s: System, drain: Drain) {
    && GoodJob(drain) && InHand(s, drain) && Room(cfg, s, drain)
    && Accounts(s, Debt(drain), Copied(drain), Aside(drain))
  }

  predicate Idle(cfg: Config, s: System) {
    |s.processing| <= Batch(cfg.intake) && |s.processing| <= 1 + s.parsed && Accounts(s, 0, 0, 0)
  }

  ghost predicate Inv(cfg: Config, s: System) {
    && (forall d, e :: d in s.drains && e in s.drains ==> d == e)
    && InBudget(s.pending) && InBudget(s.processing)
    && (s.drains == map[] ==> Idle(cfg, s))
    && (forall d :: d in s.drains ==> Fine(cfg, s, s.drains[d]))
  }

  /** A step of the one drain there is: it is enough to look at that drain. */
  lemma DrainMoved(cfg: Config, s: System, s': System, d: nat, next: Drain)
    requires Inv(cfg, s) && d in s.drains && s'.drains == s.drains[d := next]
    requires InBudget(s'.pending) && InBudget(s'.processing) && Fine(cfg, s', next)
    ensures Inv(cfg, s')
  {
    forall e | e in s'.drains ensures e == d {}
    assert d in s'.drains;
  }

  predicate IsOutside(step: Step) {
    step.Arrives? || step.ApiReplies? || step.Publishes? || step.Pushes? || step.RequestDies?
    || step.QStashReplays? || step.QStashGivesUp? || step.Garbage?
  }

  predicate SameQueue(s: System, s': System) {
    && s'.drains == s.drains && s'.processing == s.processing && s'.pending == s.pending
    && s'.buffered == s.buffered && s'.calls == s.calls && s'.settled == s.settled
    && s'.crashes == s.crashes && s'.parsed == s.parsed
  }

  predicate Appends(s: System, e: Entry, s': System) {
    SameQueue(s.(pending := s.pending + [e], buffered := s.buffered + Single(e)), s')
    && (e.Order? ==> e.queued.attempts == 0)
  }

  /** Outside the drains, only a `rpush` to the pending tail touches the queue. */
  lemma OutsideEffect(cfg: Config, s: System, step: Step)
    requires Enabled(cfg, s, step) && IsOutside(step)
    ensures SameQueue(s, Apply(cfg, s, step)) || exists e :: Appends(s, e, Apply(cfg, s, step))
  {
    var s' := Apply(cfg, s, step);
    if step.Garbage? {
      assert Appends(s, Corrupt(step.text), s');
    } else if step.Pushes? && step.landed {
      assert Appends(s, Fresh(s.requests[step.r].payload, step.now), s');
    }
  }

  lemma SameKept(cfg: Config, s: System, s': System)
    requires Inv(cfg, s) && SameQueue(s, s')
    ensures Inv(cfg, s')
  {
    forall d | d in s'.drains ensures Fine(cfg, s', s'.drains[d]) { assert Fine(cfg, s, s.drains[d]); }
  }

  lemma AppendKept(cfg: Config, s: System, s': System, e: Entry)
    requires Inv(cfg, s) && Appends(s, e, s')
    ensures Inv(cfg, s')
  {
    SumsAppend(s.pending, e);
    forall d | d in s'.drains ensures Fine(cfg, s', s'.drains[d]) { assert Fine(cfg, s, s.drains[d]); }
  }

  lemma KeptOutside(cfg: Config, s: System, step: Step)
    requires Inv(cfg, s) && Enabled(cfg, s, step) && IsOutside(step)
    ensures Inv(cfg, Apply(cfg, s, step))
  {
    var s' := Apply(cfg, s, step);
    OutsideEffect(cfg, s, step);
    if SameQueue(s, s') {
      SameKept(cfg, s, s');
    } else {
      var e :| Appends(s, e, s');
      AppendKept(cfg, s, s', e);
    }
  }

  /** A pop moves one element over, and sets six attempts aside if it came back parsed. */
  lemma PopAccounts(s: System, s': System, drain: Drain)
    requires s.pending != [] && Accounts(s, 0, 0, 0) && Copied(drain) == 0 && !drain.Recording? && !drain.Removing?
    requires s'.pending == s.pending[1..] && s'.processing == s.processing + [s.pending[0]]
    requires s'.buffered == s.buffered && s'.calls == s.calls && s'.settled == s.settled && s'.crashes == s.crashes
    requires s'.parsed == s.parsed + Aside(drain)
    ensures Accounts(s', Debt(drain), Copied(drain), Aside(drain))
  {
    SumsAppend(s.processing, s.pending[0]);
  }

  lemma KeptPopping(cfg: Config, s: System, step: Step)
    requires Inv(cfg, s) && Enabled(cfg, s, step) && step.Pops?
    ensures Inv(cfg, Apply(cfg, s, step))
  {
    var s', raw := Apply(cfg, s, step), s.pending[0];
    var next := s'.drains[step.d];
    assert Fine(cfg, s, s.drains[step.d]);
    assert raw in s.pending;
    PopAccounts(s, s', next);
    DrainMoved(cfg, s, s', step.d, next);
  }

  lemma KeptReclaiming(cfg: Config, s: System, step: Step)
    requires Inv(cfg, s) && Enabled(cfg, s, step) && step.Reclaims?
    ensures Inv(cfg, Apply(cfg, s, step))
  {
    var s' := Apply(cfg, s, step);
    assert Fine(cfg, s, s.drains[step.d]);
    assert s.processing[0] in s.processing;
    SumsAppend(s.pending, s.processing[0]);
    DrainMoved(cfg, s, s', step.d, s'.drains[step.d]);
  }

  lemma KeptStarting(cfg: Config, s: System, step: Step)
    requires Inv(cfg, s) && Enabled(cfg, s, step) && step.StartsDrain? && s.drains == map[]
    ensures Inv(cfg, Apply(cfg, s, step))
  {
    var s' := Apply(cfg, s, step);
    forall d | d in s'.drains ensures d == step.d {}
    assert step.d in s'.drains;
  }

  /** The reclaim pass ends with `processing` empty: its bound of 80 is never reached. */
  lemma ReclaimReachesAll(cfg: Config, s: System, d: nat)
    requires Inv(cfg, s) && Enabled(cfg, s, EndsReclaim(d))
    ensures s.processing == []
  {
    assert Fine(cfg, s, s.drains[d]);
  }

  lemma KeptReclaimed(cfg: Config, s: System, step: Step)
    requires Inv(cfg, s) && Enabled(cfg, s, step) && step.EndsReclaim?
    ensures Inv(cfg, Apply(cfg, s, step))
  {
    ReclaimReachesAll(cfg, s, step.d);
    assert Fine(cfg, s, s.drains[step.d]);
    DrainMoved(cfg, s, Apply(cfg, s, step), step.d, Popping(0));
  }

  lemma KeptEnding(cfg: Config, s: System, step: Step)
    requires Inv(cfg, s) && Enabled(cfg, s, step) && (step.Finishes? || step.DrainDies?)
    ensures Inv(cfg, Apply(cfg, s, step))
  {
    assert Fine(cfg, s, s.drains[step.d]);
    assert Apply(cfg, s, step).drains == map[];
  }

  lemma KeptCalling(cfg: Config, s: System, step: Step)
    requires Inv(cfg, s) && Enabled(cfg, s, step) && step.Calls?
    ensures Inv(cfg, Apply(cfg, s, step))
  {
    var s', drain := Apply(cfg, s, step), s.drains[step.d];
    assert Fine(cfg, s, drain);
    assert Order(drain.job.popped) in s.processing;
    DrainMoved(cfg, s, s', step.d, s'.drains[step.d]);
  }

  /** A requeue: the copy gained has one attempt less than the one in hand. */
  lemma Requeued(s: System, s': System, job: Job, aside: nat)
    requires Accounts(s, 1 - MAX_ATTEMPTS * aside, 0, aside)
    requires job.bumped.attempts == job.popped.attempts + 1 < MAX_ATTEMPTS
    requires SameQueue(s.(pending := s.pending + [Order(job.bumped)], drains := s'.drains), s')
    ensures Accounts(s', Weight(Order(job.popped)) - MAX_ATTEMPTS * aside, 1, aside)
  {
    SumsAppend(s.pending, Order(job.bumped));
  }

  lemma GivenUp(s: System, s': System, job: Job, aside: nat)
    requires Accounts(s, 1 - MAX_ATTEMPTS * aside, 0, aside)
    requires job.popped.attempts + 1 == MAX_ATTEMPTS
    requires SameQueue(s.(settled := s.settled + 1, drains := s'.drains), s')
    ensures Accounts(s', Weight(Order(job.popped)) - MAX_ATTEMPTS * aside, 1, aside)
  {
  }

  lemma KeptRecording(cfg: Config, s: System, step: Step)
    requires Inv(cfg, s) && Enabled(cfg, s, step) && step.Records? && s.drains[step.d].Recording?
    ensures Inv(cfg, Apply(cfg, s, step))
  {
    var s', drain := Apply(cfg, s, step), s.drains[step.d];
    var job := drain.job;
    assert Fine(cfg, s, drain) && Order(job.popped) in s.processing;
    if job.bumped.attempts >= MAX_ATTEMPTS { GivenUp(s, s', job, Aside(drain)); }
    else { Requeued(s, s', job, Aside(drain)); }
    var next := Removing(drain.pops, Order(job.popped), RemovalValue(job.popped, job.bumped, job.shape));
    assert s'.drains[step.d] == next && Aside(next) == Aside(drain);
    DrainMoved(cfg, s, s', step.d, next);
  }

  lemma KeptSalvaging(cfg: Config, s: System, step: Step)
    requires Inv(cfg, s) && Enabled(cfg, s, step) && step.Records? && s.drains[step.d].Salvaging?
    ensures Inv(cfg, Apply(cfg, s, step))
  {
    var s' := Apply(cfg, s, step);
    assert Fine(cfg, s, s.drains[step.d]);
    DrainMoved(cfg, s, s', step.d, s'.drains[step.d]);
  }

  lemma KeptRemoving(cfg: Config, s: System, step: Step)
    requires Inv(cfg, s) && Enabled(cfg, s, step) && step.Removes?
    ensures Inv(cfg, Apply(cfg, s, step))
  {
    var s', drain := Apply(cfg, s, step), s.drains[step.d];
    assert Fine(cfg, s, drain);
    SumsRemoveFirst(s.processing, drain.value);
    DrainMoved(cfg, s, s', step.d, s'.drains[step.d]);
  }

  lemma {:induction false} InvAlong(cfg: Config, s: System, steps: seq<Step>)
    requires Inv(cfg, s) && Legal(cfg, s, steps) && Solo(cfg, s, steps)
    ensures Inv(cfg, Run(cfg, s, steps))
    decreases |steps|
  {
    if steps != [] {
      var step := steps[0];
      if step.Pops? { KeptPopping(cfg, s, step); }
      else if step.Reclaims? { KeptReclaiming(cfg, s, step); }
      else if step.StartsDrain? { KeptStarting(cfg, s, step); }
      else if step.EndsReclaim? { KeptReclaimed(cfg, s, step); }
      else if step.Finishes? || step.DrainDies? { KeptEnding(cfg, s, step); }
      else if step.Calls? { KeptCalling(cfg, s, step); }
      else if step.Records? && s.drains[step.d].Recording? { KeptRecording(cfg, s, step); }
      else if step.Records? { KeptSalvaging(cfg, s, step); }
      else if step.Removes? { KeptRemoving(cfg, s, step); }
      else { KeptOutside(cfg, s, step); }
      InvAlong(cfg, Apply(cfg, s, step), steps[1..]);
    }
  }

  // ---- The bounds -----------------------------------------------------------------------

  /** Amortised retry bound, in every reachable state: every call is paid for by one of the 6
      attempts of a buffered order, or of a copy that a crash or a parsed element left behind;
      between drains the attempts still waiting in `processing` are paid for too. Queued orders
      have 0 to 5 attempts throughout. */
  lemma RetryBudget(cfg: Config, steps: seq<Step>)
    requires Legal(cfg, Init, steps) && Solo(cfg, Init, steps)
    ensures var s := Run(cfg, Init, steps);
            var paid := MAX_ATTEMPTS * (s.buffered + s.crashes + s.parsed);
            && s.calls + Credit(s.pending) <= paid
            && (s.drains == map[] ==> s.calls + Credit(s.pending) + Credit(s.processing) <= paid)
            && InBudget(s.pending) && InBudget(s.processing)
  {
    InvAlong(cfg, Init, steps);
    var s := Run(cfg, Init, steps);
    forall d | d in s.drains ensures s.calls + Credit(s.pending) <= MAX_ATTEMPTS * (s.buffered + s.crashes + s.parsed) {
      assert Fine(cfg, s, s.drains[d]);
      HandCovers(s, s.drains[d]);
    }
  }

  /** What a drain owes is at most what its element in hand is worth. */
  lemma HandCovers(s: System, drain: Drain)
    requires GoodJob(drain) && InHand(s, drain) && InBudget(s.processing)
    ensures Debt(drain) <= Credit(s.processing)
  {
    var e := if drain.Recording? then Order(drain.job.popped)
             else if drain.Removing? then drain.popped
             else Corrupt("");
    SumsRemoveFirst(s.processing, e);
  }

  /** In every reachable state each buffered order is queued or settled (delivered or
      dead-lettered); between drains the extra copies never outnumber crashes and parsed
      elements, and during one there is at most one more. */
  lemma CopiesAccount(cfg: Config, steps: seq<Step>)
    requires Legal(cfg, Init, steps) && Solo(cfg, Init, steps)
    ensures var s := Run(cfg, Init, steps);
            var copies := CountOrders(s.pending) + CountOrders(s.processing) + s.settled;
            s.buffered <= copies <= s.buffered + s.crashes + s.parsed + if s.drains == map[] then 0 else 1
  {
    InvAlong(cfg, Init, steps);
    var s := Run(cfg, Init, steps);
    if s.drains != map[] {
      var d :| d in s.drains;
      assert Fine(cfg, s, s.drains[d]);
    }
  }

  /** The reclaim pass never reaches its bound of 80 moves, whatever the client returns: it ends
      exactly when `processing` is empty. At no time does `processing` hold more than one batch,
      nor more than one element beyond those that came back parsed. */
  lemma ReclaimEmpties(cfg: Config, steps: seq<Step>, d: nat)
    requires Legal(cfg, Init, steps) && Solo(cfg, Init, steps)
    ensures var s := Run(cfg, Init, steps);
            && |s.processing| <= Batch(cfg.intake) && |s.processing| <= 1 + s.parsed
            && (d in s.drains && s.drains[d].Reclaiming? ==>
                  s.drains[d].moves < RECLAIM_BOUND && (Enabled(cfg, s, EndsReclaim(d)) <==> s.processing == []))
  {
    InvAlong(cfg, Init, steps);
    var s := Run(cfg, Init, steps);
    if e :| e in s.drains { assert Fine(cfg, s, s.drains[e]); }
  }

  // ---- Which client keeps the bound of six ------------------------------------------------

  predicate Returned(client: set<Shape>, s: System, step: Step) {
    step.Pops? && s.pending != [] && s.pending[0].Order? ==> step.shape in client
  }

  /** Every order popped comes back in one of the client's shapes. */
  ghost predicate Returns(client: set<Shape>, cfg: Config, s: System, steps: seq<Step>)
    requires Legal(cfg, s, steps)
    decreases |steps|
  {
    steps != [] ==> Returned(client, s, steps[0]) && Returns(client, cfg, Apply(cfg, s, steps[0]), steps[1..])
  }

  ghost predicate Possible(client: set<Shape>, cfg: Config, steps: seq<Step>) {
    Legal(cfg, Init, steps) && Solo(cfg, Init, steps) && Returns(client, cfg, Init, steps)
  }

  /** Between drains: at most 6 calls for each buffered order and 6 for each crash. */
  ghost predicate SixEach(s: System) {
    s.drains == map[] ==>
      s.calls + Credit(s.pending) + Credit(s.processing) <= MAX_ATTEMPTS * (s.buffered + s.crashes)
  }

  /** Between drains: no more extra copies than crashes. */
  ghost predicate NoSpares(s: System) {
    s.drains == map[] ==> CountOrders(s.pending) + CountOrders(s.processing) + s.settled <= s.buffered + s.crashes
  }

  lemma {:induction false} TextNeverParsed(client: set<Shape>, cfg: Config, s: System, steps: seq<Step>)
    requires AsObject !in client && Legal(cfg, s, steps) && Returns(client, cfg, s, steps)
    ensures Run(cfg, s, steps).parsed == s.parsed
    decreases |steps|
  {
    if steps != [] { TextNeverParsed(client, cfg, Apply(cfg, s, steps[0]), steps[1..]); }
  }

  lemma {:induction false} NoRedisNoDrain(cfg: Config, s: System, steps: seq<Step>)
    requires !cfg.redis && s.drains == map[] && Legal(cfg, s, steps)
    ensures Run(cfg, s, steps).parsed == s.parsed
    decreases |steps|
  {
    if steps != [] { NoRedisNoDrain(cfg, Apply(cfg, s, steps[0]), steps[1..]); }
  }

  /** One order, delivered, and its element still in `processing`. */
  function Relic(p: Payload): System {
    Init.(pending := [], processing := [Fresh(p, 0)], delivered := {p}, answers := map[0 := Answer(p, Accepted)],
          buffered := 1, calls := 1, settled := 1, parsed := 1)
  }

  /** A run without overlapping drains that the client makes possible. */
  ghost predicate Allows(client: set<Shape>, cfg: Config, s: System, steps: seq<Step>, s': System) {
    Reaches(cfg, s, steps, s') && Solo(cfg, s, steps) && Returns(client, cfg, s, steps)
  }

  lemma Allowed(client: set<Shape>, cfg: Config, s: System, step: Step, s1: System, steps: seq<Step>, s2: System)
    requires Goes(cfg, s, step, s1) && (step.StartsDrain? ==> s.drains == map[]) && Returned(client, s, step)
    requires Allows(client, cfg, s1, steps, s2)
    ensures Allows(client, cfg, s, [step] + steps, s2)
  {
    assert ([step] + steps)[1..] == steps;
  }

  /** Steps outside the drains are always allowed. */
  lemma {:induction false} OutsideAllowed(client: set<Shape>, cfg: Config, s: System, a: seq<Step>, s1: System,
                                          b: seq<Step>, s2: System)
    requires Reaches(cfg, s, a, s1) && Allows(client, cfg, s1, b, s2)
    requires forall i :: 0 <= i < |a| ==> IsOutside(a[i])
    ensures Allows(client, cfg, s, a + b, s2)
    decreases |a|
  {
    if a == [] {
      assert a + b == b;
    } else {
      var next := Apply(cfg, s, a[0]);
      OutsideAllowed(client, cfg, next, a[1..], s1, b, s2);
      Allowed(client, cfg, s, a[0], next, a[1..] + b, s2);
      assert a + b == [a[0]] + (a[1..] + b);
    }
  }

  lemma RelicSteps(cfg: Config, p: Payload, s: System)
    requires cfg.redis && s == AfterArrival(Init, Fresh(p, 0), 0)
    ensures var q := Queued(p, 0, 0, None);
            var job := Job(q, Bump(q, 0), AsObject);
            var s1, s2 := s.(drains := map[0 := Reclaiming(0)]), s.(drains := map[0 := Popping(0)]);
            var s3 := s.(pending := [], processing := [Fresh(p, 0)], parsed := 1, drains := map[0 := Calling(0, job)]);
            var s4 := s3.(delivered := {p}, calls := 1, settled := 1,
                          drains := map[0 := Removing(0, Order(q), Order(job.bumped))]);
            var s5 := s4.(drains := map[0 := Popping(1)]);
            && Goes(cfg, s, StartsDrain(0), s1) && Goes(cfg, s1, EndsReclaim(0), s2)
            && Goes(cfg, s2, Pops(0, AsObject, 0), s3) && Goes(cfg, s3, Calls(0, true, true), s4)
            && Goes(cfg, s4, Removes(0), s5) && Goes(cfg, s5, Finishes(0), Relic(p))
  {
    var q := Queued(p, 0, 0, None);
    assert RemoveFirst([Fresh(p, 0)][1..], Order(Bump(q, 0))) == [];
    assert map[0 := Popping(1)] - {0} == map[];
  }

  lemma RelicDrain(client: set<Shape>, cfg: Config, p: Payload, s: System) returns (steps: seq<Step>)
    requires AsObject in client && cfg.redis && s == AfterArrival(Init, Fresh(p, 0), 0)
    ensures Allows(client, cfg, s, steps, Relic(p))
  {
    var q := Queued(p, 0, 0, None);
    var job := Job(q, Bump(q, 0), AsObject);
    var s1, s2 := s.(drains := map[0 := Reclaiming(0)]), s.(drains := map[0 := Popping(0)]);
    var s3 := s.(pending := [], processing := [Fresh(p, 0)], parsed := 1, drains := map[0 := Calling(0, job)]);
    var s4 := s3.(delivered := {p}, calls := 1, settled := 1,
                  drains := map[0 := Removing(0, Order(q), Order(job.bumped))]);
    var s5 := s4.(drains := map[0 := Popping(1)]);
    RelicSteps(cfg, p, s);
    Nil(cfg, Relic(p));
    Allowed(client, cfg, s5, Finishes(0), Relic(p), [], Relic(p));
    steps := [Finishes(0)] + [];
    Allowed(client, cfg, s4, Removes(0), s5, steps, Relic(p));
    steps := [Removes(0)] + steps;
    Allowed(client, cfg, s3, Calls(0, true, true), s4, steps, Relic(p));
    steps := [Calls(0, true, true)] + steps;
    Allowed(client, cfg, s2, Pops(0, AsObject, 0), s3, steps, Relic(p));
    steps := [Pops(0, AsObject, 0)] + steps;
    Allowed(client, cfg, s1, EndsReclaim(0), s2, steps, Relic(p));
    steps := [EndsReclaim(0)] + steps;
    Allowed(client, cfg, s, StartsDrain(0), s1, steps, Relic(p));
    steps := [StartsDrain(0)] + steps;
  }

  /** One order comes back parsed and is delivered, no crash: 1 call and 6 attempts left make 7,
      and the settled order still has a copy. */
  lemma ParsedBreaksBound(client: set<Shape>, cfg: Config) returns (steps: seq<Step>)
    requires AsObject in client && cfg.redis
    ensures Possible(client, cfg, steps)
    ensures var s := Run(cfg, Init, steps); !SixEach(s) && !NoSpares(s) && s.crashes == 0
  {
    var p := Payload("", false);
    var first := Submission(Fresh(p, 0), 0);
    var s := AfterArrival(Init, Fresh(p, 0), 0);
    SubmissionIsRun(cfg, Init, Fresh(p, 0), 0);
    var rest := RelicDrain(client, cfg, p, s);
    OutsideAllowed(client, cfg, Init, first, s, rest, Relic(p));
    steps := first + rest;
    assert [Fresh(p, 0)][1..] == [];
  }

  /** Six calls for each order and each crash, and no spare copies: on every run without
      overlapping drains exactly when the client never returns parsed objects (or nothing is
      ever drained). */
  lemma SixEachIff(client: set<Shape>, cfg: Config)
    ensures (forall steps :: Possible(client, cfg, steps) ==> SixEach(Run(cfg, Init, steps)))
       <==> AsObject !in client || !cfg.redis
    ensures (forall steps :: Possible(client, cfg, steps) ==> NoSpares(Run(cfg, Init, steps)))
       <==> AsObject !in client || !cfg.redis
  {
    if AsObject in client && cfg.redis {
      var steps := ParsedBreaksBound(client, cfg);
    } else {
      forall steps | Possible(client, cfg, steps)
        ensures SixEach(Run(cfg, Init, steps)) && NoSpares(Run(cfg, Init, steps))
      {
        if cfg.redis { TextNeverParsed(client, cfg, Init, steps); } else { NoRedisNoDrain(cfg, Init, steps); }
        RetryBudget(cfg, steps);
        CopiesAccount(cfg, steps);
      }
    }
  }
}
