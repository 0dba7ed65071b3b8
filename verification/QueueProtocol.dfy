/** The failover ladder and the Redis queue as one step system: any number of submissions,
    QStash messages and overlapping drains, interleaved at every `await`, each of which may
    also die there. The nondeterminism of the outside world sits in the step labels. */
module QueueProtocol {
  import opened Common
  import opened EdgeTypes

  datatype Intake = Orders | Carts

  /** Which of the optional bindings are configured. */
  datatype Config = Config(intake: Intake, qstash: bool, redis: bool, callbackUrl: bool)

  function Batch(intake: Intake): nat {
    match intake
    case Orders => ORDER_BATCH
    case Carts => CART_BATCH
  }

  // ---- Actors -------------------------------------------------------------------------

  datatype Form = Form(parses: bool, honeypot: bool, valid: bool, limited: bool, payload: Payload)

  datatype ApiResult = ApiResult(ok: bool, status: nat, edgeAuthMessage: bool, timedOut: bool)

  datatype Reply = Accepted | HoneypotReply | PendingConfirmation | Rejected(status: nat)

  datatype Answer = Answer(payload: Payload, reply: Reply)

  /** A submission, by the call it is waiting for. */
  datatype Request =
    | Forwarding(payload: Payload)
    | Publishing(payload: Payload, timedOut: bool)
    | Buffering(payload: Payload, timedOut: bool)

  datatype Message = Message(payload: Payload, triesLeft: nat)

  datatype Job = Job(popped: Queued, bumped: Queued, shape: Shape)

  /** A drain, by the Redis or API call it is about to make. */
  datatype Drain =
    | Reclaiming(moves: nat)
    | Popping(pops: nat)
    | Calling(pops: nat, job: Job)
    | Recording(pops: nat, job: Job)
    | Salvaging(pops: nat, text: string)
    | Removing(pops: nat, popped: Entry, value: Entry)

  datatype System = System(
    requests: map<nat, Request>,
    answers: map<nat, Answer>,
    delivered: set<Payload>,
    qstash: map<nat, Message>,
    pending: seq<Entry>,
    processing: seq<Entry>,
    dead: seq<Entry>,
    drains: map<nat, Drain>,
    // Counters for the retry bound; `parsed` counts the orders that came back as objects.
    buffered: nat,
    calls: nat,
    settled: nat,
    crashes: nat,
    parsed: nat)

  datatype Step =
    | Arrives(r: nat, form: Form)
    | ApiReplies(r: nat, result: ApiResult, landed: bool)
    | Publishes(r: nat, m: nat, landed: bool, reported: bool)
    | Pushes(r: nat, now: int, landed: bool, reported: bool)
    | RequestDies(r: nat)
    | QStashReplays(m: nat, ok: bool, landed: bool)
    | QStashGivesUp(m: nat, now: int, decoded: bool, pushed: bool)
    | Garbage(text: string)
    | StartsDrain(d: nat)
    | Reclaims(d: nat)
    | EndsReclaim(d: nat)
    | Pops(d: nat, shape: Shape, now: int)
    | Calls(d: nat, ok: bool, landed: bool)
    | Records(d: nat)
    | Removes(d: nat)
    | Finishes(d: nat)
    | DrainDies(d: nat)

  // ---- The ladder ---------------------------------------------------------------------

  predicate IsInfraFailure(a: ApiResult) {
    a.status >= 500 || a.status == 503 || (a.status == 401 && a.edgeAuthMessage)
  }

  /** The checks before anything is forwarded; carts have no honeypot and no limiter. */
  function Screen(intake: Intake, f: Form): Option<Reply> {
    if !f.parses then Some(Rejected(400))
    else if intake.Orders? && f.honeypot then Some(HoneypotReply)
    else if !f.valid then Some(Rejected(400))
    else if intake.Orders? && f.limited then Some(Rejected(429))
    else None
  }

  datatype Onward = Reply(reply: Reply) | FailOver

  function AfterApi(intake: Intake, p: Payload, a: ApiResult): Onward {
    if a.ok then Onward.Reply(Accepted)
    else if intake.Orders? && p.payOnline && IsInfraFailure(a) then Onward.Reply(Rejected(503))
    else if IsInfraFailure(a) then FailOver
    else Onward.Reply(Rejected(if intake.Orders? then a.status else 500))
  }

  function AfterLastBuffer(intake: Intake, reported: bool, timedOut: bool): Reply {
    if reported then Accepted
    else if intake.Carts? then Rejected(500)
    else if timedOut then PendingConfirmation
    else Rejected(503)
  }

  function Respond(s: System, r: nat, p: Payload, reply: Reply): System {
    s.(requests := s.requests - {r}, answers := s.answers[r := Answer(p, reply)])
  }

  function Fresh(p: Payload, now: int): Entry {
    Order(Queued(p, 0, now, None))
  }

  // ---- Steps --------------------------------------------------------------------------

  predicate Enabled(cfg: Config, s: System, step: Step) {
    match step
    case Arrives(r, _) => r !in s.requests && r !in s.answers
    case ApiReplies(r, a, landed) => r in s.requests && s.requests[r].Forwarding? && (a.ok ==> landed)
    case Publishes(r, m, landed, reported) =>
      && r in s.requests && s.requests[r].Publishing? && m !in s.qstash
      && (reported ==> landed) && (landed ==> cfg.qstash)
    case Pushes(r, _, landed, reported) =>
      && r in s.requests && s.requests[r].Buffering?
      && (reported ==> landed) && (landed ==> cfg.redis)
    case RequestDies(r) => r in s.requests
    case QStashReplays(m, ok, landed) => m in s.qstash && s.qstash[m].triesLeft > 0 && (ok ==> landed)
    case QStashGivesUp(m, _, _, _) => m in s.qstash && s.qstash[m].triesLeft == 0
    case Garbage(_) => true
    case StartsDrain(d) => cfg.redis && d !in s.drains
    case Reclaims(d) =>
      d in s.drains && s.drains[d].Reclaiming? && s.drains[d].moves < RECLAIM_BOUND && s.processing != []
    case EndsReclaim(d) =>
      d in s.drains && s.drains[d].Reclaiming? && (s.drains[d].moves >= RECLAIM_BOUND || s.processing == [])
    case Pops(d, shape, _) =>
      && d in s.drains && s.drains[d].Popping? && s.drains[d].pops < Batch(cfg.intake) && s.pending != []
      && (s.pending[0].Corrupt? ==> shape.AsText?)
    case Calls(d, ok, landed) => d in s.drains && s.drains[d].Calling? && (ok ==> landed)
    case Records(d) => d in s.drains && (s.drains[d].Recording? || s.drains[d].Salvaging?)
    case Removes(d) => d in s.drains && s.drains[d].Removing?
    case Finishes(d) =>
      d in s.drains && s.drains[d].Popping? && (s.drains[d].pops >= Batch(cfg.intake) || s.pending == [])
    case DrainDies(d) => d in s.drains
  }

  function Apply(cfg: Config, s: System, step: Step): System
    requires Enabled(cfg, s, step)
  {
    match step
    case Arrives(r, form) =>
      (match Screen(cfg.intake, form)
       case Some(reply) => Respond(s, r, form.payload, reply)
       case None => s.(requests := s.requests[r := Forwarding(form.payload)]))
    case ApiReplies(r, a, landed) =>
      var p := s.requests[r].payload;
      var s1 := if landed then s.(delivered := s.delivered + {p}) else s;
      (match AfterApi(cfg.intake, p, a)
       case Reply(reply) => Respond(s1, r, p, reply)
       case FailOver => s1.(requests := s1.requests[r := Publishing(p, a.timedOut)]))
    case Publishes(r, m, landed, reported) =>
      var p := s.requests[r].payload;
      var s1 := if landed then s.(qstash := s.qstash[m := Message(p, 4)]) else s;
      if reported then Respond(s1, r, p, Accepted)
      else s1.(requests := s1.requests[r := Buffering(p, s.requests[r].timedOut)])
    case Pushes(r, now, landed, reported) =>
      var p := s.requests[r].payload;
      var s1 := if landed
                then s.(pending := s.pending + [Fresh(p, now)], buffered := s.buffered + 1)
                else s;
      Respond(s1, r, p, AfterLastBuffer(cfg.intake, reported, s.requests[r].timedOut))
    case RequestDies(r) => s.(requests := s.requests - {r})
    case QStashReplays(m, ok, landed) =>
      var msg := s.qstash[m];
      var s1 := if landed then s.(delivered := s.delivered + {msg.payload}) else s;
      s1.(qstash := if ok then s.qstash - {m} else s.qstash[m := msg.(triesLeft := msg.triesLeft - 1)])
    case QStashGivesUp(m, now, decoded, pushed) =>
      var p := s.qstash[m].payload;
      var s1 := s.(qstash := s.qstash - {m});
      if cfg.callbackUrl && cfg.redis && decoded && pushed
      then s1.(dead := s.dead + [Order(Queued(p, MAX_ATTEMPTS, now, Some(now)))])
      else s1
    case Garbage(text) => s.(pending := s.pending + [Corrupt(text)])
    case StartsDrain(d) => s.(drains := s.drains[d := Reclaiming(0)])
    case Reclaims(d) =>
      s.(pending := s.pending + [s.processing[0]], processing := s.processing[1..],
         drains := s.drains[d := Reclaiming(s.drains[d].moves + 1)])
    case EndsReclaim(d) => s.(drains := s.drains[d := Popping(0)])
    case Pops(d, shape, now) =>
      var raw := s.pending[0];
      var n := s.drains[d].pops;
      var next := match raw
        case Order(q) => Calling(n, Job(q, Bump(q, now), shape))
        case Corrupt(text) => Salvaging(n, text);
      s.(pending := s.pending[1..], processing := s.processing + [raw], drains := s.drains[d := next],
         parsed := s.parsed + if raw.Order? && shape.AsObject? then 1 else 0)
    case Calls(d, ok, landed) =>
      var n, job := s.drains[d].pops, s.drains[d].job;
      var s1 := if landed then s.(delivered := s.delivered + {job.popped.payload}) else s;
      s1.(calls := s.calls + 1,
          settled := if ok then s.settled + 1 else s.settled,
          drains := s.drains[d := if ok
                                  then Removing(n, Order(job.popped), RemovalValue(job.popped, job.bumped, job.shape))
                                  else Recording(n, job)])
    case Records(d) =>
      (match s.drains[d]
       case Recording(n, job) =>
         var next := Removing(n, Order(job.popped), RemovalValue(job.popped, job.bumped, job.shape));
         if job.bumped.attempts >= MAX_ATTEMPTS
         then s.(dead := s.dead + [Order(job.bumped)], settled := s.settled + 1, drains := s.drains[d := next])
         else s.(pending := s.pending + [Order(job.bumped)], drains := s.drains[d := next])
       case Salvaging(n, text) =>
         s.(dead := s.dead + [Corrupt(text)], drains := s.drains[d := Removing(n, Corrupt(text), Corrupt(text))]))
    case Removes(d) =>
      s.(processing := RemoveFirst(s.processing, s.drains[d].value),
         drains := s.drains[d := Popping(s.drains[d].pops + 1)])
    case Finishes(d) => s.(drains := s.drains - {d})
    case DrainDies(d) => s.(drains := s.drains - {d}, crashes := s.crashes + 1)
  }

  const Init: System := System(map[], map[], {}, map[], [], [], [], map[], 0, 0, 0, 0, 0)

  ghost predicate Legal(cfg: Config, s: System, steps: seq<Step>)
    decreases |steps|
  {
    steps != [] ==> Enabled(cfg, s, steps[0]) && Legal(cfg, Apply(cfg, s, steps[0]), steps[1..])
  }

  ghost function Run(cfg: Config, s: System, steps: seq<Step>): System
    requires Legal(cfg, s, steps)
    decreases |steps|
  {
    if steps == [] then s else Run(cfg, Apply(cfg, s, steps[0]), steps[1..])
  }

  // ---- Runs, step by step ---------------------------------------------------------------

  ghost predicate Goes(cfg: Config, s: System, step: Step, s': System) {
    Enabled(cfg, s, step) && Apply(cfg, s, step) == s'
  }

  ghost predicate Reaches(cfg: Config, s: System, steps: seq<Step>, s': System) {
    Legal(cfg, s, steps) && Run(cfg, s, steps) == s'
  }

  lemma Nil(cfg: Config, s: System)
    ensures Reaches(cfg, s, [], s)
  {
  }

  lemma Then(cfg: Config, s: System, step: Step, s1: System, steps: seq<Step>, s2: System)
    requires Goes(cfg, s, step, s1) && Reaches(cfg, s1, steps, s2)
    ensures Reaches(cfg, s, [step] + steps, s2)
  {
    assert ([step] + steps)[1..] == steps;
  }

  lemma One(cfg: Config, s: System, step: Step, s1: System)
    requires Goes(cfg, s, step, s1)
    ensures Reaches(cfg, s, [step], s1)
  {
    assert [step][1..] == [];
  }

  lemma {:induction false} RunConcat(cfg: Config, s: System, a: seq<Step>, s1: System, b: seq<Step>, s2: System)
    requires Reaches(cfg, s, a, s1) && Reaches(cfg, s1, b, s2)
    ensures Reaches(cfg, s, a + b, s2)
    decreases |a|
  {
    if a == [] {
      assert a + b == b;
    } else {
      RunConcat(cfg, Apply(cfg, s, a[0]), a[1..], s1, b, s2);
      assert (a + b)[1..] == a[1..] + b;
    }
  }

  // ---- A submission that ends in the Redis buffer ---------------------------------------

  /** What may be pushed to the pending list: text that is not JSON, or the fresh record of an
      order that is allowed to be buffered. */
  predicate Arrivable(cfg: Config, e: Entry) {
    e.Order? ==>
      && e == Fresh(e.queued.payload, e.queued.firstQueuedAt)
      && (cfg.intake.Orders? ==> !e.queued.payload.payOnline)
  }

  /** Every request, answer and QStash message has a smaller number. */
  ghost predicate Unused(s: System, n: nat) {
    && (forall r :: r in s.requests ==> r < n)
    && (forall r :: r in s.answers ==> r < n)
    && (forall m :: m in s.qstash ==> m < n)
  }

  function AfterArrival(s: System, e: Entry, n: nat): System {
    if e.Corrupt? then s.(pending := s.pending + [e])
    else s.(pending := s.pending + [e], buffered := s.buffered + 1,
            answers := s.answers[n := Answer(e.queued.payload, Accepted)])
  }

  function Submission(e: Entry, n: nat): seq<Step> {
    if e.Corrupt? then [Garbage(e.text)]
    else
      var p := e.queued.payload;
      [Arrives(n, Form(true, false, true, false, p)),
       ApiReplies(n, ApiResult(false, 503, false, false), false),
       Publishes(n, n, false, false),
       Pushes(n, e.queued.firstQueuedAt, true, true)]
  }

  function At(s: System, n: nat, r: Request): System {
    s.(requests := s.requests[n := r])
  }

  lemma Arrival(cfg: Config, s: System, p: Payload, n: nat)
    requires Unused(s, n)
    ensures Goes(cfg, s, Arrives(n, Form(true, false, true, false, p)), At(s, n, Forwarding(p)))
  {
  }

  lemma ApiFails(cfg: Config, s: System, p: Payload, n: nat)
    requires cfg.intake.Orders? ==> !p.payOnline
    ensures Goes(cfg, At(s, n, Forwarding(p)), ApiReplies(n, ApiResult(false, 503, false, false), false),
                 At(s, n, Publishing(p, false)))
  {
    assert s.requests[n := Forwarding(p)][n := Publishing(p, false)] == s.requests[n := Publishing(p, false)];
  }

  lemma NotPublished(cfg: Config, s: System, p: Payload, n: nat)
    requires Unused(s, n)
    ensures Goes(cfg, At(s, n, Publishing(p, false)), Publishes(n, n, false, false), At(s, n, Buffering(p, false)))
  {
    assert s.requests[n := Publishing(p, false)][n := Buffering(p, false)] == s.requests[n := Buffering(p, false)];
  }

  lemma Pushed(cfg: Config, s: System, p: Payload, now: int, n: nat)
    requires cfg.redis && Unused(s, n)
    ensures Goes(cfg, At(s, n, Buffering(p, false)), Pushes(n, now, true, true), AfterArrival(s, Fresh(p, now), n))
  {
    assert s.requests[n := Buffering(p, false)] - {n} == s.requests;
  }

  /** The API fails, QStash takes nothing, the push lands: the entry is at the pending tail. */
  lemma SubmissionIsRun(cfg: Config, s: System, e: Entry, n: nat)
    requires cfg.redis && Unused(s, n) && Arrivable(cfg, e)
    ensures Reaches(cfg, s, Submission(e, n), AfterArrival(s, e, n)) && Unused(AfterArrival(s, e, n), n + 1)
  {
    var end, steps := AfterArrival(s, e, n), Submission(e, n);
    if e.Corrupt? {
      One(cfg, s, Garbage(e.text), end);
    } else {
      var p := e.queued.payload;
      Arrival(cfg, s, p, n);
      ApiFails(cfg, s, p, n);
      NotPublished(cfg, s, p, n);
      Pushed(cfg, s, p, e.queued.firstQueuedAt, n);
      One(cfg, At(s, n, Buffering(p, false)), steps[3], end);
      Then(cfg, At(s, n, Publishing(p, false)), steps[2], At(s, n, Buffering(p, false)), [steps[3]], end);
      Then(cfg, At(s, n, Forwarding(p)), steps[1], At(s, n, Publishing(p, false)), [steps[2]] + [steps[3]], end);
      Then(cfg, s, steps[0], At(s, n, Forwarding(p)), [steps[1]] + ([steps[2]] + [steps[3]]), end);
      assert steps == [steps[0]] + ([steps[1]] + ([steps[2]] + [steps[3]]));
    }
  }
}
