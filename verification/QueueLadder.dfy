/** The submission ladder: what a request is answered and when it is handed on, whatever all
    other actors do meanwhile. */
module QueueLadder {
  import opened Common
  import opened EdgeTypes
  import opened QueueProtocol
  import opened QueueNoLoss

  /** The request that takes the step. */
  function By(step: Step): Option<nat> {
    match step
    case Arrives(r, _) => Some(r)
    case ApiReplies(r, _, _) => Some(r)
    case Publishes(r, _, _, _) => Some(r)
    case Pushes(r, _, _, _) => Some(r)
    case RequestDies(r) => Some(r)
    case _ => None
  }

  predicate NothingBuffered(s: System, s': System) {
    s'.qstash == s.qstash && s'.pending == s.pending && s'.processing == s.processing && s'.dead == s.dead
    && s'.drains == s.drains
  }

  predicate Answers(s: System, r: nat, p: Payload, reply: Reply) {
    r in s.answers && s.answers[r] == Answer(p, reply) && r !in s.requests
  }

  predicate Waits(s: System, r: nat, request: Request) {
    r in s.requests && s.requests[r] == request && r !in s.answers
  }

  // ---- One step -------------------------------------------------------------------------

  /** A submission is forwarded exactly if it parses and is valid and, for orders, fills in no
      honeypot and is within the rate limit. The honeypot answers a success that is none. */
  lemma ArrivalOutcome(cfg: Config, s: System, r: nat, f: Form)
    requires Enabled(cfg, s, Arrives(r, f))
    ensures var s', orders := Apply(cfg, s, Arrives(r, f)), cfg.intake.Orders?;
            && NothingBuffered(s, s') && s'.delivered == s.delivered
            && (Waits(s', r, Forwarding(f.payload))
                <==> f.parses && f.valid && (orders ==> !f.honeypot && !f.limited))
            && (!f.parses ==> Answers(s', r, f.payload, Rejected(400)))
            && (f.parses && orders && f.honeypot ==> Answers(s', r, f.payload, HoneypotReply))
            && (f.parses && !(orders && f.honeypot) && !f.valid ==> Answers(s', r, f.payload, Rejected(400)))
            && (f.parses && orders && !f.honeypot && f.valid && f.limited
                ==> Answers(s', r, f.payload, Rejected(429)))
  {
  }

  /** The failures that say nothing about the order: a server error, or the edge's own key refused. */
  predicate Transient(a: ApiResult) {
    !a.ok && (a.status >= 500 || (a.status == 401 && a.edgeAuthMessage))
  }

  /** An order that is paid online exists only once it is paid, so nothing may be replayed. */
  predicate Replayable(cfg: Config, p: Payload) {
    cfg.intake.Orders? ==> !p.payOnline
  }

  /** A failed API call goes on to QStash exactly if the failure is transient and the payload
      replayable. Otherwise it is answered at once: an order with the API's own status, or with 503
      when a payment cannot be prepared, a cart with 500. Either way nothing is buffered yet. */
  lemma ApiOutcome(cfg: Config, s: System, r: nat, a: ApiResult, landed: bool)
    requires Enabled(cfg, s, ApiReplies(r, a, landed)) && r !in s.answers
    ensures var s', p := Apply(cfg, s, ApiReplies(r, a, landed)), s.requests[r].payload;
            && NothingBuffered(s, s')
            && (a.ok ==> Answers(s', r, p, Accepted) && p in s'.delivered)
            && (r in s'.requests <==> Transient(a) && Replayable(cfg, p))
            && (Transient(a) && Replayable(cfg, p) ==> Waits(s', r, Publishing(p, a.timedOut)))
            && (!a.ok && !Transient(a) ==>
                  Answers(s', r, p, Rejected(if cfg.intake.Orders? then a.status else 500)))
            && (Transient(a) && !Replayable(cfg, p) ==> Answers(s', r, p, Rejected(503)))
  {
  }

  /** QStash's word is final: the payload is there, with four replays to go, and the answer is a
      success. Without it the request goes on to Redis, with or without a copy that landed. */
  lemma PublishOutcome(cfg: Config, s: System, r: nat, m: nat, landed: bool, reported: bool)
    requires Enabled(cfg, s, Publishes(r, m, landed, reported)) && r !in s.answers
    ensures var s', p := Apply(cfg, s, Publishes(r, m, landed, reported)), s.requests[r].payload;
            && s'.pending == s.pending && s'.dead == s.dead && s'.delivered == s.delivered
            && s'.qstash == (if landed then s.qstash[m := Message(p, 4)] else s.qstash)
            && (if reported then Answers(s', r, p, Accepted) && InQStash(s', p)
                else Waits(s', r, Buffering(p, s.requests[r].timedOut)))
  {
    var s' := Apply(cfg, s, Publishes(r, m, landed, reported));
    if reported { assert m in s'.qstash && s'.qstash[m].payload == s.requests[r].payload; }
  }

  /** The last buffer: what a request is answered that neither QStash nor Redis took. */
  function LastWord(cfg: Config, timedOut: bool): Reply {
    if cfg.intake.Carts? then Rejected(500) else if timedOut then PendingConfirmation else Rejected(503)
  }

  lemma PushOutcome(cfg: Config, s: System, r: nat, now: int, landed: bool, reported: bool)
    requires Enabled(cfg, s, Pushes(r, now, landed, reported)) && r !in s.answers
    ensures var s', p := Apply(cfg, s, Pushes(r, now, landed, reported)), s.requests[r].payload;
            && s'.qstash == s.qstash && s'.dead == s.dead && s'.delivered == s.delivered
            && s'.pending == s.pending + (if landed then [Order(Queued(p, 0, now, None))] else [])
            && Answers(s', r, p, if reported then Accepted else LastWord(cfg, s.requests[r].timedOut))
            && (reported ==> Holds(s'.pending, p))
  {
    var s' := Apply(cfg, s, Pushes(r, now, landed, reported));
    if reported { HoldsAppend(s.pending, s'.pending[|s.pending|], s.requests[r].payload); }
  }

  /** A request that dies is gone, without an answer and with nothing buffered. */
  lemma DeathOutcome(cfg: Config, s: System, r: nat)
    requires Enabled(cfg, s, RequestDies(r)) && r !in s.answers
    ensures var s' := Apply(cfg, s, RequestDies(r));
            NothingBuffered(s, s') && s'.delivered == s.delivered && r !in s'.requests && s'.answers == s.answers
  {
  }

  // ---- Whole runs -----------------------------------------------------------------------

  lemma DrainsApart(cfg: Config, s: System, step: Step)
    requires Enabled(cfg, s, step) && IsDrainStep(step)
    ensures var s' := Apply(cfg, s, step);
            s'.requests == s.requests && s'.answers == s.answers && s'.qstash == s.qstash
  {
  }

  /** Drains, QStash's replays and garbage touch no request and no answer. */
  lemma NoRequest(cfg: Config, s: System, step: Step)
    requires Enabled(cfg, s, step) && By(step).None?
    ensures Apply(cfg, s, step).requests == s.requests && Apply(cfg, s, step).answers == s.answers
  {
    if IsDrainStep(step) { DrainsApart(cfg, s, step); }
  }

  lemma OthersLeave(cfg: Config, s: System, step: Step, r: nat)
    requires Enabled(cfg, s, step) && By(step) != Some(r)
    ensures var s' := Apply(cfg, s, step);
            && (r in s'.requests <==> r in s.requests) && (r in s.answers <==> r in s'.answers)
            && (r in s.requests ==> s'.requests[r] == s.requests[r])
            && (r in s.answers ==> s'.answers[r] == s.answers[r])
  {
    if By(step).None? { NoRequest(cfg, s, step); }
  }

  /** An answer is final, and whoever has it takes no further step, so it adds nothing to any list. */
  lemma {:induction false} AnsweredIsFinal(cfg: Config, s: System, steps: seq<Step>, r: nat)
    requires Legal(cfg, s, steps) && r in s.answers && r !in s.requests
    ensures var end := Run(cfg, s, steps); r in end.answers && end.answers[r] == s.answers[r] && r !in end.requests
    ensures forall i :: 0 <= i < |steps| ==> By(steps[i]) != Some(r)
    decreases |steps|
  {
    if steps != [] {
      assert By(steps[0]) != Some(r);
      OthersLeave(cfg, s, steps[0], r);
      AnsweredIsFinal(cfg, Apply(cfg, s, steps[0]), steps[1..], r);
      forall i | 0 <= i < |steps| ensures By(steps[i]) != Some(r) {
        if i > 0 { assert steps[i] == steps[1..][i - 1]; }
      }
    }
  }

  /** QStash or Redis says that it took the request. */
  predicate Takes(step: Step, r: nat) {
    (step.Publishes? || step.Pushes?) && step.r == r && step.reported
  }

  predicate GivesUp(step: Step, r: nat) {
    step.Pushes? && step.r == r && !step.reported
  }

  predicate Survives(steps: seq<Step>, r: nat) {
    forall i :: 0 <= i < |steps| ==> steps[i] != RequestDies(r)
  }

  /** How a request that was handed on ends. */
  ghost predicate Ends(cfg: Config, steps: seq<Step>, end: System, r: nat, p: Payload, timedOut: bool) {
    && (forall i :: 0 <= i < |steps| && Takes(steps[i], r) ==>
          r in end.answers && r !in end.requests && end.answers[r] == Answer(p, Accepted))
    && (forall i :: 0 <= i < |steps| && GivesUp(steps[i], r) ==>
          r in end.answers && r !in end.requests && end.answers[r] == Answer(p, LastWord(cfg, timedOut)))
    && ((forall i :: 0 <= i < |steps| ==> !Takes(steps[i], r) && !GivesUp(steps[i], r)) ==>
          r !in end.answers && r in end.requests && end.requests[r].payload == p)
  }

  lemma EndsLater(cfg: Config, steps: seq<Step>, end: System, r: nat, p: Payload, timedOut: bool)
    requires steps != [] && !Takes(steps[0], r) && !GivesUp(steps[0], r) && Ends(cfg, steps[1..], end, r, p, timedOut)
    ensures Ends(cfg, steps, end, r, p, timedOut)
  {
    forall i | 0 < i < |steps| ensures steps[i] == steps[1..][i - 1] {}
    if forall i :: 0 <= i < |steps| ==> !Takes(steps[i], r) && !GivesUp(steps[i], r) {
      forall i | 0 <= i < |steps[1..]| ensures !Takes(steps[1..][i], r) && !GivesUp(steps[1..][i], r) {
        assert steps[1..][i] == steps[i + 1];
      }
    }
  }

  /** A step of the request's own that does not end it leaves it handed on. */
  lemma StillHandedOn(cfg: Config, s: System, step: Step, r: nat)
    requires Enabled(cfg, s, step) && step != RequestDies(r) && !Takes(step, r) && !GivesUp(step, r)
    requires r in s.requests && !s.requests[r].Forwarding? && r !in s.answers
    ensures var s' := Apply(cfg, s, step);
            && r in s'.requests && !s'.requests[r].Forwarding? && r !in s'.answers
            && s'.requests[r].payload == s.requests[r].payload && s'.requests[r].timedOut == s.requests[r].timedOut
  {
    if By(step) != Some(r) { OthersLeave(cfg, s, step, r); }
  }

  lemma EndsNow(cfg: Config, s: System, step: Step, r: nat)
    requires Enabled(cfg, s, step) && (Takes(step, r) || GivesUp(step, r)) && r !in s.answers
    requires r in s.requests && !s.requests[r].Forwarding?
    ensures Answers(Apply(cfg, s, step), r, s.requests[r].payload,
                    if Takes(step, r) then Accepted else LastWord(cfg, s.requests[r].timedOut))
  {
  }

  lemma {:induction false} HandedOnEnds(cfg: Config, s: System, steps: seq<Step>, r: nat)
    requires Legal(cfg, s, steps) && Survives(steps, r)
    requires r in s.requests && !s.requests[r].Forwarding? && r !in s.answers
    ensures Ends(cfg, steps, Run(cfg, s, steps), r, s.requests[r].payload, s.requests[r].timedOut)
    decreases |steps|
  {
    if steps != [] {
      var step, rest := steps[0], steps[1..];
      var s1, end := Apply(cfg, s, step), Run(cfg, s, steps);
      assert step != RequestDies(r) && Survives(rest, r);
      if Takes(step, r) || GivesUp(step, r) {
        EndsNow(cfg, s, step, r);
        AnsweredIsFinal(cfg, s1, rest, r);
        forall i | 0 < i < |steps| ensures By(steps[i]) != Some(r) { assert steps[i] == rest[i - 1]; }
      } else {
        StillHandedOn(cfg, s, step, r);
        HandedOnEnds(cfg, s1, rest, r);
        EndsLater(cfg, steps, end, r, s.requests[r].payload, s.requests[r].timedOut);
      }
    }
  }

  /** From the API's failure on, whatever everyone else does. A request whose failure is transient
      and whose payload is replayable is answered with success exactly when QStash or Redis takes
      it, and otherwise by its last word. Every other request is answered at once, for good, and
      takes no further step. */
  lemma LadderOutcome(cfg: Config, s: System, steps: seq<Step>, r: nat, p: Payload)
    requires Waits(s, r, Forwarding(p)) && Legal(cfg, s, steps) && Survives(steps, r)
    requires steps != [] && steps[0].ApiReplies? && steps[0].r == r && !steps[0].result.ok
    ensures var a, end := steps[0].result, Run(cfg, s, steps);
            if Transient(a) && Replayable(cfg, p) then Ends(cfg, steps, end, r, p, a.timedOut)
            else
              && Answers(end, r, p, Rejected(if Transient(a) && cfg.intake.Orders? then 503
                                                else if cfg.intake.Orders? then a.status else 500))
              && forall i :: 0 < i < |steps| ==> By(steps[i]) != Some(r)
  {
    var a, rest := steps[0].result, steps[1..];
    var s1 := Apply(cfg, s, steps[0]);
    ApiOutcome(cfg, s, r, a, steps[0].landed);
    if Transient(a) && Replayable(cfg, p) {
      HandedOnEnds(cfg, s1, rest, r);
      EndsLater(cfg, steps, Run(cfg, s, steps), r, p, a.timedOut);
    } else {
      AnsweredIsFinal(cfg, s1, rest, r);
      forall i | 0 < i < |steps| ensures By(steps[i]) != Some(r) { assert steps[i] == rest[i - 1]; }
    }
  }

  /** No request is both waiting and answered. */
  ghost predicate Sorted(s: System) {
    forall r :: r in s.requests ==> r !in s.answers
  }

  lemma SortedKept(cfg: Config, s: System, step: Step)
    requires Enabled(cfg, s, step) && Sorted(s)
    ensures Sorted(Apply(cfg, s, step))
  {
    if By(step).None? { NoRequest(cfg, s, step); }
  }

  lemma TakenNow(cfg: Config, s: System, step: Step, r: nat)
    requires Enabled(cfg, s, step) && Sorted(s) && Takes(step, r)
    ensures var s' := Apply(cfg, s, step); r !in s'.requests && r in s'.answers && s'.answers[r].reply.Accepted?
  {
  }

  lemma {:induction false} TakenFrom(cfg: Config, s: System, steps: seq<Step>, i: nat, r: nat)
    requires Legal(cfg, s, steps) && Sorted(s) && i < |steps| && Takes(steps[i], r)
    ensures var end := Run(cfg, s, steps); r in end.answers && end.answers[r].reply.Accepted?
    decreases |steps|
  {
    var s1 := Apply(cfg, s, steps[0]);
    if i == 0 {
      TakenNow(cfg, s, steps[0], r);
      AnsweredIsFinal(cfg, s1, steps[1..], r);
    } else {
      assert steps[1..][i - 1] == steps[i];
      SortedKept(cfg, s, steps[0]);
      TakenFrom(cfg, s1, steps[1..], i - 1, r);
    }
  }

  /** Whatever QStash or Redis took in any run is answered with success, and held in its end. */
  lemma TakenIsHeld(cfg: Config, steps: seq<Step>, i: nat, r: nat)
    requires Legal(cfg, Init, steps) && forall j :: 0 <= j < |steps| ==> Captured(cfg, steps[j])
    requires i < |steps| && Takes(steps[i], r)
    ensures var end := Run(cfg, Init, steps);
            r in end.answers && end.answers[r].reply.Accepted? && Held(end, end.answers[r].payload)
  {
    TakenFrom(cfg, Init, steps, i, r);
    NoLoss(cfg, steps, r);
  }

  // ---- Messages with QStash -------------------------------------------------------------

  /** The steps that concern a message. */
  predicate Concerns(step: Step, m: nat) {
    (step.QStashReplays? || step.QStashGivesUp?) && step.m == m
  }

  predicate FailsReplay(step: Step, m: nat) {
    step.QStashReplays? && step.m == m && !step.ok
  }

  predicate Closes(step: Step, m: nat) {
    (step.QStashReplays? && step.m == m && step.ok) || (step.QStashGivesUp? && step.m == m)
  }

  /** An acknowledged replay removes the message, a failed one costs it one of its tries; either may
      have reached the API. */
  lemma ReplayOutcome(cfg: Config, s: System, m: nat, ok: bool, landed: bool)
    requires Enabled(cfg, s, QStashReplays(m, ok, landed))
    ensures var s', msg := Apply(cfg, s, QStashReplays(m, ok, landed)), s.qstash[m];
            && s' == s.(delivered := s'.delivered, qstash := s'.qstash)
            && s'.delivered == (if landed then s.delivered + {msg.payload} else s.delivered)
            && (ok ==> msg.payload in s'.delivered && s'.qstash == s.qstash - {m})
            && (!ok ==> s'.qstash == s.qstash[m := Message(msg.payload, msg.triesLeft - 1)])
  {
  }

  /** The failure callback dead-letters the exhausted payload as an order with all six attempts used,
      exactly if callback URL and Redis are there, the body decodes and the push succeeds. */
  lemma GiveUpOutcome(cfg: Config, s: System, m: nat, now: int, decoded: bool, pushed: bool)
    requires Enabled(cfg, s, QStashGivesUp(m, now, decoded, pushed))
    ensures var s', msg := Apply(cfg, s, QStashGivesUp(m, now, decoded, pushed)), s.qstash[m];
            && s' == s.(qstash := s.qstash - {m}, dead := s'.dead)
            && s'.dead == s.dead + (if cfg.callbackUrl && cfg.redis && decoded && pushed
                                    then [Order(Queued(msg.payload, 6, now, Some(now)))] else [])
  {
  }

  function FailedReplays(steps: seq<Step>, m: nat): nat {
    if steps == [] then 0 else (if FailsReplay(steps[0], m) then 1 else 0) + FailedReplays(steps[1..], m)
  }

  /** Whatever else happens: each failed replay costs one try and nothing else does, and the message
      stays until a replay is acknowledged or QStash gives up. */
  lemma {:induction false} TriesLeft(cfg: Config, s: System, steps: seq<Step>, m: nat)
    requires Legal(cfg, s, steps) && m in s.qstash
    requires forall i :: 0 <= i < |steps| ==> !Closes(steps[i], m)
    ensures var end := Run(cfg, s, steps);
            && m in end.qstash && end.qstash[m].payload == s.qstash[m].payload
            && end.qstash[m].triesLeft + FailedReplays(steps, m) == s.qstash[m].triesLeft
    decreases |steps|
  {
    if steps != [] {
      var s1, rest := Apply(cfg, s, steps[0]), steps[1..];
      forall i | 0 <= i < |rest| ensures !Closes(rest[i], m) { assert rest[i] == steps[i + 1]; }
      MessageStays(cfg, s, steps[0], m);
      TriesLeft(cfg, s1, rest, m);
    }
  }

  lemma NoMessage(cfg: Config, s: System, step: Step)
    requires Enabled(cfg, s, step) && !step.Publishes? && !step.QStashReplays? && !step.QStashGivesUp?
    ensures Apply(cfg, s, step).qstash == s.qstash
  {
    if IsDrainStep(step) { DrainsApart(cfg, s, step); }
  }

  lemma MessageStays(cfg: Config, s: System, step: Step, m: nat)
    requires Enabled(cfg, s, step) && m in s.qstash && !Closes(step, m)
    ensures var s' := Apply(cfg, s, step);
            && m in s'.qstash && s'.qstash[m].payload == s.qstash[m].payload
            && s'.qstash[m].triesLeft == s.qstash[m].triesLeft - if FailsReplay(step, m) then 1 else 0
  {
    if !step.Publishes? && !step.QStashReplays? && !step.QStashGivesUp? { NoMessage(cfg, s, step); }
  }

  /** From the publish on, as long as no replay is acknowledged: QStash may give up exactly after
      four failed ones, and may go on replaying exactly before that. */
  lemma FourReplays(cfg: Config, s: System, publish: Step, steps: seq<Step>, now: int)
    requires publish.Publishes? && publish.landed && Enabled(cfg, s, publish)
    requires Legal(cfg, Apply(cfg, s, publish), steps)
    requires forall i :: 0 <= i < |steps| ==> !Closes(steps[i], publish.m)
    ensures var end, failed := Run(cfg, Apply(cfg, s, publish), steps), FailedReplays(steps, publish.m);
            && failed <= 4
            && (Enabled(cfg, end, QStashGivesUp(publish.m, now, true, true)) <==> failed == 4)
            && (Enabled(cfg, end, QStashReplays(publish.m, true, true)) <==> failed < 4)
  {
    var s1 := Apply(cfg, s, publish);
    assert publish.m in s1.qstash && s1.qstash[publish.m].triesLeft == 4;
    TriesLeft(cfg, s1, steps, publish.m);
  }

  // ---- The size of a drain --------------------------------------------------------------

  function Most(intake: Intake): nat {
    if intake.Orders? then 20 else 30
  }

  predicate InSize(intake: Intake, drain: Drain) {
    if drain.Reclaiming? then drain.moves <= 80
    else if drain.Popping? then drain.pops <= Most(intake) else drain.pops < Most(intake)
  }

  /** No drain ever makes more than 80 moves in its reclaim, nor more than 20 pops, or 30 of carts;
      and it may end exactly when it has made them or finds its list empty. */
  lemma {:induction false} DrainSize(cfg: Config, s: System, steps: seq<Step>, d: nat)
    requires Legal(cfg, s, steps) && (d in s.drains ==> InSize(cfg.intake, s.drains[d]))
    ensures var end := Run(cfg, s, steps);
            d in end.drains ==>
              && InSize(cfg.intake, end.drains[d])
              && (end.drains[d].Reclaiming? ==>
                    (Enabled(cfg, end, EndsReclaim(d)) <==> end.drains[d].moves == 80 || end.processing == []))
              && (end.drains[d].Popping? ==>
                    (Enabled(cfg, end, Finishes(d)) <==> end.drains[d].pops == Most(cfg.intake) || end.pending == []))
    decreases |steps|
  {
    if steps != [] {
      SizeKept(cfg, s, steps[0], d);
      DrainSize(cfg, Apply(cfg, s, steps[0]), steps[1..], d);
    }
  }

  lemma NoDrain(cfg: Config, s: System, step: Step)
    requires Enabled(cfg, s, step) && !IsDrainStep(step)
    ensures Apply(cfg, s, step).drains == s.drains
  {
  }

  lemma OwnSizeKept(cfg: Config, s: System, step: Step)
    requires Enabled(cfg, s, step) && IsDrainStep(step)
    requires step.d in s.drains ==> InSize(cfg.intake, s.drains[step.d])
    ensures step.d in Apply(cfg, s, step).drains ==> InSize(cfg.intake, Apply(cfg, s, step).drains[step.d])
  {
  }

  lemma OtherDrains(cfg: Config, s: System, step: Step, d: nat)
    requires Enabled(cfg, s, step) && IsDrainStep(step) && step.d != d
    ensures var s' := Apply(cfg, s, step);
            (d in s'.drains <==> d in s.drains) && (d in s.drains ==> s'.drains[d] == s.drains[d])
  {
  }

  lemma SizeKept(cfg: Config, s: System, step: Step, d: nat)
    requires Enabled(cfg, s, step) && (d in s.drains ==> InSize(cfg.intake, s.drains[d]))
    ensures d in Apply(cfg, s, step).drains ==> InSize(cfg.intake, Apply(cfg, s, step).drains[d])
  {
    if !IsDrainStep(step) { NoDrain(cfg, s, step); }
    else if step.d == d { OwnSizeKept(cfg, s, step); }
    else { OtherDrains(cfg, s, step, d); }
  }
}
