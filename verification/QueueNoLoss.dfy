/** Nothing answered with success is ever lost, under any interleaving of the protocol. */
module QueueNoLoss {
  import opened EdgeTypes
  import opened QueueProtocol

  ghost predicate InQStash(s: System, p: Payload) {
    exists m :: m in s.qstash && s.qstash[m].payload == p
  }

  /** Acknowledged by the API, dead-lettered, or still with QStash. */
  ghost predicate Placed(s: System, p: Payload) {
    p in s.delivered || Holds(s.dead, p) || InQStash(s, p)
  }

  /** Some component outside the request still has the payload. */
  ghost predicate Held(s: System, p: Payload) {
    Placed(s, p) || Holds(s.pending, p) || Holds(s.processing, p)
  }

  /** QStash's terminal failure callback reaches the dead-letter list. */
  predicate Captured(cfg: Config, step: Step) {
    step.QStashGivesUp? ==> cfg.callbackUrl && cfg.redis && step.decoded && step.pushed
  }

  function Live(s: System, p: Payload, level: nat): nat {
    Copies(s.pending, p, level) + Copies(s.processing, p, level)
  }

  /** A drain about to `lrem` a value that is not the one it popped. */
  predicate Misremoves(drain: Drain, p: Payload, level: nat) {
    drain.Removing? && drain.popped != drain.value && IsCopy(drain.value, p, level)
  }

  ghost function Misremovers(drains: map<nat, Drain>, p: Payload, level: nat): set<nat> {
    set d | d in drains && Misremoves(drains[d], p, level)
  }

  /** More live copies at this level than pending `lrem`s that may take one without having popped it. */
  ghost predicate Surplus(s: System, p: Payload, level: nat) {
    Live(s, p, level) > |Misremovers(s.drains, p, level)|
  }

  ghost predicate SafeFrom(s: System, p: Payload, low: nat) {
    Placed(s, p) || exists k: nat :: k >= low && Surplus(s, p, k)
  }

  ghost predicate Balanced(s: System, p: Payload, level: nat) {
    Live(s, p, level) >= |Misremovers(s.drains, p, level)| || SafeFrom(s, p, level + 1)
  }

  /** A drain about to `lrem` what it popped leaves a witness with strictly more attempts. */
  ghost predicate Witnessed(s: System, drain: Drain) {
    drain.Removing? && drain.value.Order? ==>
      && drain.popped.Order? && drain.popped.queued.payload == drain.value.queued.payload
      && (drain.popped == drain.value
          ==> SafeFrom(s, drain.popped.queued.payload, drain.popped.queued.attempts + 1))
  }

  predicate WellBumped(drain: Drain) {
    drain.Calling? || drain.Recording? ==>
      && drain.job.bumped.payload == drain.job.popped.payload
      && drain.job.bumped.attempts == drain.job.popped.attempts + 1
  }

  ghost predicate Inv(s: System) {
    && (forall r :: r in s.answers && s.answers[r].reply.Accepted? ==> SafeFrom(s, s.answers[r].payload, 0))
    && (forall d :: d in s.drains ==> Witnessed(s, s.drains[d]) && WellBumped(s.drains[d]))
    && (forall p, level: nat :: Balanced(s, p, level))
  }

  lemma MisremoversUpdate(drains: map<nat, Drain>, d: nat, next: Drain, p: Payload, level: nat)
    ensures |Misremovers(drains[d := next], p, level)|
         == |Misremovers(drains - {d}, p, level)| + (if Misremoves(next, p, level) then 1 else 0)
  {
    var before, after := Misremovers(drains - {d}, p, level), Misremovers(drains[d := next], p, level);
    assert after == before + (if Misremoves(next, p, level) then {d} else {});
  }

  lemma MisremoversDrop(drains: map<nat, Drain>, d: nat, p: Payload, level: nat)
    requires d in drains
    ensures |Misremovers(drains, p, level)|
         == |Misremovers(drains - {d}, p, level)| + (if Misremoves(drains[d], p, level) then 1 else 0)
  {
    MisremoversUpdate(drains, d, drains[d], p, level);
    assert drains[d := drains[d]] == drains;
  }

  /** The removal of exactly the element that was popped, at this level. */
  predicate RemovesOwn(s: System, step: Step, p: Payload, level: nat)
  {
    step.Removes? && step.d in s.drains && s.drains[step.d].Removing?
    && s.drains[step.d].popped == s.drains[step.d].value && IsCopy(s.drains[step.d].value, p, level)
  }

  predicate IsDrainStep(step: Step) {
    step.StartsDrain? || step.Reclaims? || step.EndsReclaim? || step.Pops? || step.Calls?
    || step.Records? || step.Removes? || step.Finishes? || step.DrainDies?
  }

  lemma PlacedKept(cfg: Config, s: System, step: Step, p: Payload)
    requires Enabled(cfg, s, step) && Captured(cfg, step) && Placed(s, p)
    ensures Placed(Apply(cfg, s, step), p)
  {
    var s' := Apply(cfg, s, step);
    if Holds(s.dead, p) {
      if s'.dead != s.dead { HoldsAppend(s.dead, s'.dead[|s.dead|], p); }
    } else if p !in s.delivered {
      var m :| m in s.qstash && s.qstash[m].payload == p;
      if step.QStashGivesUp? && step.m == m {
        HoldsAppend(s.dead, s'.dead[|s.dead|], p);
      } else if step.QStashReplays? && step.m == m && step.ok {
        assert p in s'.delivered;
      } else {
        assert m in s'.qstash && s'.qstash[m].payload == p;
      }
    }
  }

  lemma LevelKeptOutside(cfg: Config, s: System, step: Step, p: Payload, level: nat)
    requires Enabled(cfg, s, step) && !IsDrainStep(step)
    ensures Live(Apply(cfg, s, step), p, level) >= Live(s, p, level)
    ensures Apply(cfg, s, step).drains == s.drains
  {
    var s' := Apply(cfg, s, step);
    if s'.pending != s.pending { CopiesConcat(s.pending, [s'.pending[|s.pending|]], p, level); }
  }

  lemma LevelKeptMoving(cfg: Config, s: System, step: Step, p: Payload, level: nat)
    requires Enabled(cfg, s, step) && (step.Pops? || step.Reclaims?)
    ensures Live(Apply(cfg, s, step), p, level) == Live(s, p, level)
    ensures |Misremovers(Apply(cfg, s, step).drains, p, level)| == |Misremovers(s.drains, p, level)|
  {
    var s' := Apply(cfg, s, step);
    MisremoversDrop(s.drains, step.d, p, level);
    MisremoversUpdate(s.drains, step.d, s'.drains[step.d], p, level);
    if step.Pops? {
      assert s.pending == [s.pending[0]] + s.pending[1..];
      CopiesConcat([s.pending[0]], s.pending[1..], p, level);
      CopiesConcat(s.processing, [s.pending[0]], p, level);
    } else {
      assert s.processing == [s.processing[0]] + s.processing[1..];
      CopiesConcat([s.processing[0]], s.processing[1..], p, level);
      CopiesConcat(s.pending, [s.processing[0]], p, level);
    }
  }

  lemma LevelKeptEnding(cfg: Config, s: System, step: Step, p: Payload, level: nat)
    requires Enabled(cfg, s, step)
    requires step.StartsDrain? || step.EndsReclaim? || step.Finishes? || step.DrainDies?
    ensures Live(Apply(cfg, s, step), p, level) == Live(s, p, level)
    ensures |Misremovers(Apply(cfg, s, step).drains, p, level)| <= |Misremovers(s.drains, p, level)|
  {
    var s' := Apply(cfg, s, step);
    if step.StartsDrain? {
      assert s.drains - {step.d} == s.drains;
      MisremoversUpdate(s.drains, step.d, s'.drains[step.d], p, level);
    } else {
      MisremoversDrop(s.drains, step.d, p, level);
      if step.EndsReclaim? { MisremoversUpdate(s.drains, step.d, s'.drains[step.d], p, level); }
    }
  }

  lemma LevelKeptCalling(cfg: Config, s: System, step: Step, p: Payload, level: nat)
    requires Enabled(cfg, s, step) && step.Calls? && WellBumped(s.drains[step.d])
    ensures Live(Apply(cfg, s, step), p, level) == Live(s, p, level)
    ensures |Misremovers(Apply(cfg, s, step).drains, p, level)| <= |Misremovers(s.drains, p, level)|
         || p in Apply(cfg, s, step).delivered
  {
    var s' := Apply(cfg, s, step);
    MisremoversDrop(s.drains, step.d, p, level);
    MisremoversUpdate(s.drains, step.d, s'.drains[step.d], p, level);
  }

  lemma LevelKeptRecording(cfg: Config, s: System, step: Step, p: Payload, level: nat)
    requires Enabled(cfg, s, step) && step.Records? && WellBumped(s.drains[step.d])
    ensures var s' := Apply(cfg, s, step);
            || Live(s', p, level) - |Misremovers(s'.drains, p, level)|
               >= Live(s, p, level) - |Misremovers(s.drains, p, level)|
            || Holds(s'.dead, p)
  {
    var s' := Apply(cfg, s, step);
    MisremoversDrop(s.drains, step.d, p, level);
    MisremoversUpdate(s.drains, step.d, s'.drains[step.d], p, level);
    if s.drains[step.d].Recording? {
      var bumped := Order(s.drains[step.d].job.bumped);
      CopiesConcat(s.pending, [bumped], p, level);
      HoldsAppend(s.dead, bumped, p);
    }
  }

  lemma LevelKeptRemoving(cfg: Config, s: System, step: Step, p: Payload, level: nat)
    requires Enabled(cfg, s, step) && step.Removes? && !RemovesOwn(s, step, p, level)
    ensures var s' := Apply(cfg, s, step);
            Live(s', p, level) - |Misremovers(s'.drains, p, level)|
            >= Live(s, p, level) - |Misremovers(s.drains, p, level)|
  {
    var s' := Apply(cfg, s, step);
    MisremoversDrop(s.drains, step.d, p, level);
    MisremoversUpdate(s.drains, step.d, s'.drains[step.d], p, level);
    CopiesRemoveFirst(s.processing, s.drains[step.d].value, p, level);
  }

  /** No step lowers the surplus of a level, except a drain's removal of its own element. */
  lemma LevelKept(cfg: Config, s: System, step: Step, p: Payload, level: nat)
    requires Inv(s) && Enabled(cfg, s, step) && !RemovesOwn(s, step, p, level)
    ensures var s' := Apply(cfg, s, step);
            || Live(s', p, level) - |Misremovers(s'.drains, p, level)|
               >= Live(s, p, level) - |Misremovers(s.drains, p, level)|
            || Placed(s', p)
  {
    if !IsDrainStep(step) { LevelKeptOutside(cfg, s, step, p, level); }
    else if step.Pops? || step.Reclaims? { LevelKeptMoving(cfg, s, step, p, level); }
    else if step.Calls? { LevelKeptCalling(cfg, s, step, p, level); }
    else if step.Records? { LevelKeptRecording(cfg, s, step, p, level); }
    else if step.Removes? { LevelKeptRemoving(cfg, s, step, p, level); }
    else { LevelKeptEnding(cfg, s, step, p, level); }
  }

  /** Whoever relied on the removed copy can rely on the witness of the drain that removed it. */
  lemma SafeKept(cfg: Config, s: System, step: Step, p: Payload, low: nat)
    requires Inv(s) && Enabled(cfg, s, step) && Captured(cfg, step) && SafeFrom(s, p, low)
    ensures SafeFrom(Apply(cfg, s, step), p, low)
  {
    var s' := Apply(cfg, s, step);
    if Placed(s, p) {
      PlacedKept(cfg, s, step, p);
    } else {
      var k: nat :| k >= low && Surplus(s, p, k);
      if RemovesOwn(s, step, p, k) {
        var j: nat :| j >= k + 1 && Surplus(s, p, j);
        LevelKept(cfg, s, step, p, j);
        assert Placed(s', p) || Surplus(s', p, j);
      } else {
        LevelKept(cfg, s, step, p, k);
        assert Placed(s', p) || Surplus(s', p, k);
      }
    }
  }

  lemma BalancedKept(cfg: Config, s: System, step: Step, p: Payload, level: nat)
    requires Inv(s) && Enabled(cfg, s, step) && Captured(cfg, step)
    ensures Balanced(Apply(cfg, s, step), p, level)
  {
    if SafeFrom(s, p, level + 1) {
      SafeKept(cfg, s, step, p, level + 1);
    } else if RemovesOwn(s, step, p, level) {
      assert false;
    } else {
      assert Balanced(s, p, level);
      LevelKept(cfg, s, step, p, level);
    }
  }

  /** A requeue adds the witness itself, unless a better one already exists. */
  lemma RequeueWitness(cfg: Config, s: System, step: Step)
    requires Inv(s) && Enabled(cfg, s, step) && Captured(cfg, step)
    requires step.Records? && s.drains[step.d].Recording? && s.drains[step.d].job.shape.AsText?
    ensures var q := s.drains[step.d].job.popped;
            SafeFrom(Apply(cfg, s, step), q.payload, q.attempts + 1)
  {
    var s' := Apply(cfg, s, step);
    var job := s.drains[step.d].job;
    assert WellBumped(s.drains[step.d]);
    var p, up, bumped := job.popped.payload, job.popped.attempts + 1, Order(job.bumped);
    if job.bumped.attempts >= MAX_ATTEMPTS {
      HoldsAppend(s.dead, bumped, p);
    } else {
      assert Balanced(s, p, up);
      if SafeFrom(s, p, up + 1) {
        SafeKept(cfg, s, step, p, up + 1);
      } else {
        CopiesConcat(s.pending, [bumped], p, up);
        MisremoversDrop(s.drains, step.d, p, up);
        MisremoversUpdate(s.drains, step.d, s'.drains[step.d], p, up);
        assert Surplus(s', p, up);
      }
    }
  }

  lemma WitnessedKept(cfg: Config, s: System, step: Step, d: nat)
    requires Inv(s) && Enabled(cfg, s, step) && Captured(cfg, step) && d in Apply(cfg, s, step).drains
    ensures Witnessed(Apply(cfg, s, step), Apply(cfg, s, step).drains[d])
    ensures WellBumped(Apply(cfg, s, step).drains[d])
  {
    var s' := Apply(cfg, s, step);
    if d in s.drains && s'.drains[d] == s.drains[d] {
      assert Witnessed(s, s.drains[d]) && WellBumped(s.drains[d]);
      if s.drains[d].Removing? && s.drains[d].popped == s.drains[d].value && s.drains[d].value.Order? {
        var q := s.drains[d].popped.queued;
        SafeKept(cfg, s, step, q.payload, q.attempts + 1);
      }
    } else if step.Records? && s.drains[d].Recording? {
      assert WellBumped(s.drains[d]);
      if s.drains[d].job.shape.AsText? { RequeueWitness(cfg, s, step); }
    } else if step.Calls? {
      assert WellBumped(s.drains[d]);
    }
  }

  lemma AnswerKept(cfg: Config, s: System, step: Step, r: nat)
    requires Inv(s) && Enabled(cfg, s, step) && Captured(cfg, step)
    requires r in Apply(cfg, s, step).answers && Apply(cfg, s, step).answers[r].reply.Accepted?
    ensures SafeFrom(Apply(cfg, s, step), Apply(cfg, s, step).answers[r].payload, 0)
  {
    var s' := Apply(cfg, s, step);
    var p := s'.answers[r].payload;
    if r in s.answers && s.answers[r] == s'.answers[r] {
      SafeKept(cfg, s, step, p, 0);
    } else if step.ApiReplies? {
      assert p in s'.delivered;
    } else if step.Publishes? {
      assert s'.qstash[step.m].payload == p;
      assert InQStash(s', p);
    } else if step.Pushes? {
      assert s'.pending == s.pending + [Fresh(p, step.now)];
      CopiesConcat(s.pending, [Fresh(p, step.now)], p, 0);
      assert Balanced(s, p, 0);
      if SafeFrom(s, p, 1) {
        SafeKept(cfg, s, step, p, 1);
      } else {
        assert Surplus(s', p, 0);
      }
    }
  }

  lemma InvKept(cfg: Config, s: System, step: Step)
    requires Inv(s) && Enabled(cfg, s, step) && Captured(cfg, step)
    ensures Inv(Apply(cfg, s, step))
  {
    var s' := Apply(cfg, s, step);
    forall r | r in s'.answers && s'.answers[r].reply.Accepted? ensures SafeFrom(s', s'.answers[r].payload, 0) {
      AnswerKept(cfg, s, step, r);
    }
    forall d | d in s'.drains ensures Witnessed(s', s'.drains[d]) && WellBumped(s'.drains[d]) {
      WitnessedKept(cfg, s, step, d);
    }
    forall p, level: nat ensures Balanced(s', p, level) {
      BalancedKept(cfg, s, step, p, level);
    }
  }

  lemma SafeIsHeld(s: System, p: Payload)
    requires SafeFrom(s, p, 0)
    ensures Held(s, p)
  {
    if !Placed(s, p) {
      var k: nat :| Surplus(s, p, k);
      if Copies(s.pending, p, k) > 0 { CopiesWitness(s.pending, p, k); }
      else { CopiesWitness(s.processing, p, k); }
    }
  }

  lemma {:induction false} InvAlong(cfg: Config, s: System, steps: seq<Step>)
    requires Inv(s) && Legal(cfg, s, steps)
    requires forall i :: 0 <= i < |steps| ==> Captured(cfg, steps[i])
    ensures Inv(Run(cfg, s, steps))
    decreases |steps|
  {
    if steps != [] {
      InvKept(cfg, s, steps[0]);
      InvAlong(cfg, Apply(cfg, s, steps[0]), steps[1..]);
    }
  }

  lemma InitInv()
    ensures Inv(Init)
  {
    forall p, level: nat ensures Balanced(Init, p, level) {
      assert Misremovers(Init.drains, p, level) == {};
    }
  }

  /** Whatever was answered with success is held somewhere, in every reachable state: any
      overlap of drains, any death at any await, text and parsed elements mixed freely. */
  lemma NoLoss(cfg: Config, steps: seq<Step>, r: nat)
    requires Legal(cfg, Init, steps)
    requires forall i :: 0 <= i < |steps| ==> Captured(cfg, steps[i])
    requires r in Run(cfg, Init, steps).answers && Run(cfg, Init, steps).answers[r].reply.Accepted?
    ensures Held(Run(cfg, Init, steps), Run(cfg, Init, steps).answers[r].payload)
  {
    InitInv();
    InvAlong(cfg, Init, steps);
    SafeIsHeld(Run(cfg, Init, steps), Run(cfg, Init, steps).answers[r].payload);
  }

  /** A drain about to `lrem` an element it popped, with `a` attempts, has a witness: placed
      elsewhere, or a queued copy with strictly more attempts. */
  lemma RemovalWitness(cfg: Config, steps: seq<Step>, d: nat)
    requires Legal(cfg, Init, steps)
    requires forall i :: 0 <= i < |steps| ==> Captured(cfg, steps[i])
    requires d in Run(cfg, Init, steps).drains
    requires var drain := Run(cfg, Init, steps).drains[d];
             drain.Removing? && drain.value == drain.popped && drain.popped.Order?
    ensures var s := Run(cfg, Init, steps);
            var q := s.drains[d].popped.queued;
            || Placed(s, q.payload)
            || exists k: nat :: k > q.attempts && Live(s, q.payload, k) > 0
  {
    InitInv();
    InvAlong(cfg, Init, steps);
    var s := Run(cfg, Init, steps);
    assert Witnessed(s, s.drains[d]);
  }

  // ---- When the guarantee needs its configuration ---------------------------------------

  /** The callback body decodes and its push succeeds; the configuration is left open. */
  predicate CallbackWorks(step: Step) {
    step.QStashGivesUp? ==> step.decoded && step.pushed
  }

  ghost predicate LosesNothing(cfg: Config) {
    forall steps: seq<Step>, r: nat ::
      && Legal(cfg, Init, steps)
      && (forall i :: 0 <= i < |steps| ==> CallbackWorks(steps[i]))
      && r in Run(cfg, Init, steps).answers
      && Run(cfg, Init, steps).answers[r].reply.Accepted?
      ==> Held(Run(cfg, Init, steps), Run(cfg, Init, steps).answers[r].payload)
  }

  lemma {:induction false} NoMessages(cfg: Config, s: System, steps: seq<Step>)
    requires !cfg.qstash && s.qstash == map[] && Legal(cfg, s, steps)
    ensures forall i :: 0 <= i < |steps| ==> !steps[i].QStashGivesUp?
    decreases |steps|
  {
    if steps != [] {
      NoMessages(cfg, Apply(cfg, s, steps[0]), steps[1..]);
      forall i | 0 <= i < |steps| ensures !steps[i].QStashGivesUp? {
        if i > 0 { assert steps[i] == steps[1..][i - 1]; }
      }
    }
  }

  predicate IsGiveUpRun(steps: seq<Step>) {
    && |steps| == 8
    && steps[0] == Arrives(0, Form(true, false, true, false, Payload("", false)))
    && steps[1] == ApiReplies(0, ApiResult(false, 503, false, false), false)
    && steps[2] == Publishes(0, 0, true, true)
    && (forall i :: 3 <= i < 7 ==> steps[i] == QStashReplays(0, false, false))
    && steps[7] == QStashGivesUp(0, 0, true, true)
  }

  lemma StepThrough(cfg: Config, s: System, steps: seq<Step>)
    requires steps != [] && Enabled(cfg, s, steps[0]) && Legal(cfg, Apply(cfg, s, steps[0]), steps[1..])
    ensures Legal(cfg, s, steps) && Run(cfg, s, steps) == Run(cfg, Apply(cfg, s, steps[0]), steps[1..])
  {
  }

  function Waiting(p: Payload, tries: nat): System {
    Init.(answers := map[0 := Answer(p, Accepted)], qstash := map[0 := Message(p, tries)])
  }

  lemma {:induction false} Exhausts(cfg: Config, p: Payload, tries: nat, steps: seq<Step>)
    requires |steps| == tries + 1
    requires forall i :: 0 <= i < tries ==> steps[i] == QStashReplays(0, false, false)
    requires steps[tries] == QStashGivesUp(0, 0, true, true)
    requires !(cfg.redis && cfg.callbackUrl)
    ensures Legal(cfg, Waiting(p, tries), steps)
    ensures Run(cfg, Waiting(p, tries), steps) == Init.(answers := map[0 := Answer(p, Accepted)])
  {
    var s := Waiting(p, tries);
    if tries == 0 {
      assert steps[1..] == [];
      assert Apply(cfg, s, steps[0]).qstash == map[];
    } else {
      assert Apply(cfg, s, steps[0]) == Waiting(p, tries - 1);
      Exhausts(cfg, p, tries - 1, steps[1..]);
    }
  }

  lemma FirstThree(cfg: Config, p: Payload)
    requires cfg.qstash && !p.payOnline
    ensures var s1 := Init.(requests := map[0 := Forwarding(p)]);
            var s2 := Init.(requests := map[0 := Publishing(p, false)]);
            var arrives := Arrives(0, Form(true, false, true, false, p));
            var fails := ApiReplies(0, ApiResult(false, 503, false, false), false);
            var publishes := Publishes(0, 0, true, true);
            && Enabled(cfg, Init, arrives) && Apply(cfg, Init, arrives) == s1
            && Enabled(cfg, s1, fails) && Apply(cfg, s1, fails) == s2
            && Enabled(cfg, s2, publishes) && Apply(cfg, s2, publishes) == Waiting(p, 4)
  {
    var s2 := Init.(requests := map[0 := Publishing(p, false)]);
    assert s2.requests - {0} == map[];
  }

  lemma Publishing503(cfg: Config, steps: seq<Step>)
    requires cfg.qstash && IsGiveUpRun(steps)
    requires Legal(cfg, Waiting(Payload("", false), 4), steps[3..])
    ensures Legal(cfg, Init, steps)
    ensures Run(cfg, Init, steps) == Run(cfg, Waiting(Payload("", false), 4), steps[3..])
  {
    var p := Payload("", false);
    var s1 := Init.(requests := map[0 := Forwarding(p)]);
    var s2 := Init.(requests := map[0 := Publishing(p, false)]);
    FirstThree(cfg, p);
    assert steps[1..][1..] == steps[2..] && steps[2..][1..] == steps[3..];
    StepThrough(cfg, s2, steps[2..]);
    StepThrough(cfg, s1, steps[1..]);
    StepThrough(cfg, Init, steps);
  }

  lemma GiveUpRunLoses(cfg: Config, steps: seq<Step>)
    requires cfg.qstash && !(cfg.redis && cfg.callbackUrl) && IsGiveUpRun(steps)
    ensures !LosesNothing(cfg)
  {
    var p := Payload("", false);
    Exhausts(cfg, p, 4, steps[3..]);
    Publishing503(cfg, steps);
    var last := Init.(answers := map[0 := Answer(p, Accepted)]);
    assert Run(cfg, Init, steps) == last && !Held(last, p);
    forall i | 0 <= i < |steps| ensures CallbackWorks(steps[i]) {
      if 3 <= i < 7 { assert steps[i] == QStashReplays(0, false, false); }
    }
    assert 0 in last.answers && last.answers[0].reply.Accepted?;
  }

  lemma GiveUpLoses(cfg: Config)
    requires cfg.qstash && !(cfg.redis && cfg.callbackUrl)
    ensures !LosesNothing(cfg)
  {
    var fail := QStashReplays(0, false, false);
    var steps := [Arrives(0, Form(true, false, true, false, Payload("", false))),
                  ApiReplies(0, ApiResult(false, 503, false, false), false),
                  Publishes(0, 0, true, true),
                  fail, fail, fail, fail,
                  QStashGivesUp(0, 0, true, true)];
    assert IsGiveUpRun(steps);
    GiveUpRunLoses(cfg, steps);
  }

  /** Exactly the configurations under which no accepted submission can be lost. */
  lemma LosesNothingIff(cfg: Config)
    ensures LosesNothing(cfg) <==> !cfg.qstash || (cfg.redis && cfg.callbackUrl)
  {
    if cfg.qstash && !(cfg.redis && cfg.callbackUrl) {
      GiveUpLoses(cfg);
    } else {
      forall steps: seq<Step>, r: nat |
        && Legal(cfg, Init, steps)
        && (forall i :: 0 <= i < |steps| ==> CallbackWorks(steps[i]))
        && r in Run(cfg, Init, steps).answers
        && Run(cfg, Init, steps).answers[r].reply.Accepted?
        ensures Held(Run(cfg, Init, steps), Run(cfg, Init, steps).answers[r].payload)
      {
        if !cfg.qstash { NoMessages(cfg, Init, steps); }
        NoLoss(cfg, steps, r);
      }
    }
  }

  // ---- PAY_ONLINE -----------------------------------------------------------------------

  predicate NotOnline(s: seq<Entry>) {
    forall e :: e in s && e.Order? ==> !e.queued.payload.payOnline
  }

  ghost predicate OfflineMessages(s: System) {
    forall m :: m in s.qstash ==> !s.qstash[m].payload.payOnline
  }

  ghost predicate OfflineRequests(s: System) {
    forall r :: r in s.requests && !s.requests[r].Forwarding? ==> !s.requests[r].payload.payOnline
  }

  predicate OfflineDrain(drain: Drain) {
    drain.Calling? || drain.Recording? ==> !drain.job.popped.payload.payOnline && WellBumped(drain)
  }

  ghost predicate OfflineDrains(s: System) {
    forall d :: d in s.drains ==> OfflineDrain(s.drains[d])
  }

  ghost predicate OfflineOnly(s: System) {
    && NotOnline(s.pending) && NotOnline(s.processing) && NotOnline(s.dead)
    && OfflineMessages(s) && OfflineRequests(s) && OfflineDrains(s)
  }

  lemma {:induction false} RemoveFirstSubset(s: seq<Entry>, x: Entry)
    ensures forall e :: e in RemoveFirst(s, x) ==> e in s
  {
    if s != [] && s[0] != x { RemoveFirstSubset(s[1..], x); }
  }

  lemma OfflineLists(cfg: Config, s: System, step: Step)
    requires cfg.intake.Orders? && OfflineOnly(s) && Enabled(cfg, s, step)
    ensures var s' := Apply(cfg, s, step); NotOnline(s'.pending) && NotOnline(s'.processing) && NotOnline(s'.dead)
  {
    if step.Removes? {
      RemoveFirstSubset(s.processing, s.drains[step.d].value);
    }
  }

  lemma OfflineIntakeKept(cfg: Config, s: System, step: Step)
    requires cfg.intake.Orders? && OfflineOnly(s) && Enabled(cfg, s, step)
    ensures OfflineMessages(Apply(cfg, s, step)) && OfflineRequests(Apply(cfg, s, step))
  {
    if IsDrainStep(step) {
      assert Apply(cfg, s, step).qstash == s.qstash && Apply(cfg, s, step).requests == s.requests;
    }
  }

  lemma OfflineDrainsKept(cfg: Config, s: System, step: Step)
    requires cfg.intake.Orders? && OfflineOnly(s) && Enabled(cfg, s, step)
    ensures OfflineDrains(Apply(cfg, s, step))
  {
    if !IsDrainStep(step) {
      assert Apply(cfg, s, step).drains == s.drains;
    }
  }

  /** A PAY_ONLINE order is never handed to QStash, to the queue or to the dead-letter list. */
  lemma {:induction false} PayOnlineNeverBuffered(cfg: Config, s: System, steps: seq<Step>)
    requires cfg.intake.Orders? && OfflineOnly(s) && Legal(cfg, s, steps)
    ensures OfflineOnly(Run(cfg, s, steps))
    decreases |steps|
  {
    if steps != [] {
      OfflineLists(cfg, s, steps[0]);
      OfflineIntakeKept(cfg, s, steps[0]);
      OfflineDrainsKept(cfg, s, steps[0]);
      PayOnlineNeverBuffered(cfg, Apply(cfg, s, steps[0]), steps[1..]);
    }
  }

  // ---- Parsed elements are never discharged ---------------------------------------------

  predicate PopsParsed(s: System, step: Step) {
    step.Pops? && s.pending != [] && s.pending[0].Order? ==> step.shape.AsObject?
  }

  ghost predicate AllParsed(cfg: Config, s: System, steps: seq<Step>)
    requires Legal(cfg, s, steps)
    decreases |steps|
  {
    steps != [] ==> PopsParsed(s, steps[0]) && AllParsed(cfg, Apply(cfg, s, steps[0]), steps[1..])
  }

  predicate OnlyParsedJob(drain: Drain) {
    && WellBumped(drain)
    && (drain.Calling? || drain.Recording? ==> drain.job.shape.AsObject?)
    && (drain.Removing? && drain.value.Order? ==> drain.value.queued.attempts >= 1)
  }

  /** No drain in flight can remove an entry that still has 0 attempts. */
  ghost predicate OnlyParsedJobs(s: System) {
    forall d :: d in s.drains ==> OnlyParsedJob(s.drains[d])
  }

  lemma ParsedJobsKept(cfg: Config, s: System, step: Step)
    requires OnlyParsedJobs(s) && Enabled(cfg, s, step) && PopsParsed(s, step)
    ensures OnlyParsedJobs(Apply(cfg, s, step))
  {
    var s' := Apply(cfg, s, step);
    forall d | d in s'.drains ensures OnlyParsedJob(s'.drains[d]) {
      if d in s.drains { assert OnlyParsedJob(s.drains[d]); }
    }
  }

  lemma UntriedKept(cfg: Config, s: System, step: Step, p: Payload)
    requires OnlyParsedJobs(s) && Enabled(cfg, s, step) && PopsParsed(s, step)
    ensures Live(Apply(cfg, s, step), p, 0) >= Live(s, p, 0)
  {
    if !IsDrainStep(step) { LevelKeptOutside(cfg, s, step, p, 0); }
    else if step.Pops? || step.Reclaims? { LevelKeptMoving(cfg, s, step, p, 0); }
    else if step.Calls? { LevelKeptCalling(cfg, s, step, p, 0); }
    else if step.Records? {
      if s.drains[step.d].Recording? { CopiesConcat(s.pending, [Order(s.drains[step.d].job.bumped)], p, 0); }
    }
    else if step.Removes? { CopiesRemoveFirst(s.processing, s.drains[step.d].value, p, 0); }
    else { LevelKeptEnding(cfg, s, step, p, 0); }
  }

  /** When the client returns parsed objects, a buffered order stays queued with 0 attempts
      in every later state: neither a delivery nor a dead-letter ever removes it. */
  lemma {:induction false} ParsedNeverDischarged(cfg: Config, s: System, steps: seq<Step>, p: Payload)
    requires OnlyParsedJobs(s) && Legal(cfg, s, steps) && AllParsed(cfg, s, steps)
    requires Live(s, p, 0) > 0
    ensures OnlyParsedJobs(Run(cfg, s, steps)) && Live(Run(cfg, s, steps), p, 0) > 0
    decreases |steps|
  {
    if steps != [] {
      ParsedJobsKept(cfg, s, steps[0]);
      UntriedKept(cfg, s, steps[0], p);
      ParsedNeverDischarged(cfg, Apply(cfg, s, steps[0]), steps[1..], p);
    }
  }
}
