/** The edge worker's limiter: a counter per address whose expiry each accepted request renews.
    Times in seconds. */
module EdgeRateLimit {

  const WINDOW := 300
  const MAX_REQUESTS: nat := 5
  const CAPTCHA_THRESHOLD: nat := 3

  datatype Answer = Allowed | CaptchaRequired | Blocked

  datatype Counter = Counter(count: nat, expiresAt: int)

  /** `writes` is whether the store takes the new count; when its write quota is used up, the
      request proceeds all the same. */
  datatype Call = Call(ip: string, at: int, writes: bool)

  type Counters = map<string, Counter>

  function Count(kv: Counters, ip: string, now: int): nat {
    if ip in kv && now < kv[ip].expiresAt then kv[ip].count else 0
  }

  function AnswerFor(count: nat): Answer {
    if count >= MAX_REQUESTS then Blocked else if count >= CAPTCHA_THRESHOLD then CaptchaRequired else Allowed
  }

  function After(kv: Counters, c: Call): Counters {
    var count := Count(kv, c.ip, c.at);
    if count < MAX_REQUESTS && c.writes then kv[c.ip := Counter(count + 1, c.at + WINDOW)] else kv
  }

  class Limiter {
    /** Whether the store is bound at all; it is not in local development. */
    const bound: bool
    var kv: Counters

    constructor (bound: bool)
      ensures this.bound == bound && kv == map[]
    {
      this.bound, kv := bound, map[];
    }

    method CheckRateLimit(c: Call) returns (answer: Answer)
      modifies this`kv
      ensures answer == if bound then AnswerFor(Count(old(kv), c.ip, c.at)) else Allowed
      ensures kv == if bound then After(old(kv), c) else old(kv)
    {
      if !bound { return Allowed; }
      var count := Count(kv, c.ip, c.at);
      if count >= MAX_REQUESTS { return Blocked; }
      if c.writes { kv := kv[c.ip := Counter(count + 1, c.at + WINDOW)]; }
      if count >= CAPTCHA_THRESHOLD { return CaptchaRequired; }
      answer := Allowed;
    }
  }

  // ---- Whole traces -----------------------------------------------------------------------

  predicate NonDecreasing(calls: seq<Call>) {
    forall i, j :: 0 <= i < j < |calls| ==> calls[i].at <= calls[j].at
  }

  predicate Passed(kv: Counters, c: Call) {
    !AnswerFor(Count(kv, c.ip, c.at)).Blocked?
  }

  /** How many requests of one address get through and are recorded in [from, to). */
  function Recorded(kv: Counters, calls: seq<Call>, ip: string, from: int, to: int): nat
    decreases |calls|
  {
    if calls == [] then 0
    else
      var c := calls[0];
      (if c.ip == ip && from <= c.at < to && c.writes && Passed(kv, c) then 1 else 0)
      + Recorded(After(kv, c), calls[1..], ip, from, to)
  }

  lemma {:induction false} NothingLater(kv: Counters, calls: seq<Call>, ip: string, from: int, to: int)
    requires forall i :: 0 <= i < |calls| ==> calls[i].at >= to
    ensures Recorded(kv, calls, ip, from, to) == 0
    decreases |calls|
  {
    if calls != [] { NothingLater(After(kv, calls[0]), calls[1..], ip, from, to); }
  }

  /** Once something was recorded in the window, its counter outlives the window. */
  lemma {:induction false} WindowLeft(kv: Counters, calls: seq<Call>, ip: string, from: int)
    requires NonDecreasing(calls)
    requires ip in kv ==> forall i :: 0 <= i < |calls| ==> kv[ip].expiresAt <= calls[i].at + WINDOW
    ensures Recorded(kv, calls, ip, from, from + WINDOW)
         <= if ip in kv && kv[ip].expiresAt >= from + WINDOW && kv[ip].count <= MAX_REQUESTS
            then MAX_REQUESTS - kv[ip].count else MAX_REQUESTS
    decreases |calls|
  {
    if calls != [] {
      var c := calls[0];
      if c.at >= from + WINDOW {
        NothingLater(kv, calls, ip, from, from + WINDOW);
      } else {
        WindowLeft(After(kv, c), calls[1..], ip, from);
      }
    }
  }

  /** Whatever the requests, at most five of one address are recorded in any half-open stretch
      of 300 seconds. */
  lemma WindowBound(calls: seq<Call>, ip: string, from: int)
    requires NonDecreasing(calls)
    ensures Recorded(map[], calls, ip, from, from + 300) <= 5
  {
    WindowLeft(map[], calls, ip, from);
  }

  /** One address, requests within 300 s, every write taken. */
  predicate Burst(calls: seq<Call>, ip: string, from: int) {
    forall i :: 0 <= i < |calls| ==> calls[i].ip == ip && from <= calls[i].at < from + WINDOW && calls[i].writes
  }

  function Answers(kv: Counters, calls: seq<Call>): seq<Answer>
    decreases |calls|
  {
    if calls == [] then []
    else [AnswerFor(Count(kv, calls[0].ip, calls[0].at))] + Answers(After(kv, calls[0]), calls[1..])
  }

  lemma {:induction false} BurstAnswers(kv: Counters, calls: seq<Call>, ip: string, from: int, seen: nat)
    requires Burst(calls, ip, from) && seen <= MAX_REQUESTS
    requires if seen == 0 then ip !in kv else ip in kv && kv[ip].count == seen && kv[ip].expiresAt >= from + WINDOW
    ensures |Answers(kv, calls)| == |calls|
    ensures forall i :: 0 <= i < |calls| ==> Answers(kv, calls)[i] == AnswerFor(seen + i)
    decreases |calls|
  {
    if calls != [] {
      BurstAnswers(After(kv, calls[0]), calls[1..], ip, from, if seen < MAX_REQUESTS then seen + 1 else seen);
      forall i | 0 < i < |calls| ensures Answers(kv, calls)[i] == AnswerFor(seen + i) {
        assert Answers(kv, calls)[i] == Answers(After(kv, calls[0]), calls[1..])[i - 1];
      }
    }
  }

  // ---- Afterwards ---------------------------------------------------------------------------

  function Run(kv: Counters, calls: seq<Call>): Counters
    decreases |calls|
  {
    if calls == [] then kv else Run(After(kv, calls[0]), calls[1..])
  }

  /** Whoever was blocked stays so for exactly 300 s from their last recorded request, however often
      they and others try meanwhile: a blocked request renews nothing. */
  lemma {:induction false} BlockedUntil(kv: Counters, calls: seq<Call>, ip: string, last: int, now: int)
    requires ip in kv && kv[ip] == Counter(5, last + 300)
    requires forall i :: 0 <= i < |calls| ==> calls[i].at < last + 300
    ensures AnswerFor(Count(Run(kv, calls), ip, now)) == if now < last + 300 then Blocked else Allowed
    decreases |calls|
  {
    if calls != [] { BlockedUntil(After(kv, calls[0]), calls[1..], ip, last, now); }
  }

  /** After 300 s without a request of the address its counter is gone. */
  lemma {:induction false} QuietForgets(kv: Counters, calls: seq<Call>, ip: string, now: int)
    requires ip in kv ==> kv[ip].expiresAt <= now
    requires forall i :: 0 <= i < |calls| && calls[i].ip == ip ==> calls[i].at + 300 <= now
    ensures AnswerFor(Count(Run(kv, calls), ip, now)) == Allowed
    decreases |calls|
  {
    if calls != [] { QuietForgets(After(kv, calls[0]), calls[1..], ip, now); }
  }

  predicate SameCounter(a: Counters, b: Counters, ip: string) {
    (ip in a <==> ip in b) && (ip in a ==> a[ip] == b[ip])
  }

  function Own(calls: seq<Call>, ip: string): seq<Call> {
    if calls == [] then []
    else if calls[0].ip == ip then [calls[0]] + Own(calls[1..], ip)
    else Own(calls[1..], ip)
  }

  /** What one address is answered depends on its own requests only. */
  lemma {:induction false} AddressesIndependent(a: Counters, b: Counters, calls: seq<Call>, ip: string, now: int)
    requires SameCounter(a, b, ip)
    ensures AnswerFor(Count(Run(a, calls), ip, now)) == AnswerFor(Count(Run(b, Own(calls, ip)), ip, now))
    decreases |calls|
  {
    if calls != [] {
      var c := calls[0];
      if c.ip == ip {
        AddressesIndependent(After(a, c), After(b, c), calls[1..], ip, now);
        assert ([c] + Own(calls[1..], ip))[1..] == Own(calls[1..], ip);
      } else {
        AddressesIndependent(After(a, c), b, calls[1..], ip, now);
      }
    }
  }

  /** The bound is reached: of a new address's requests within 300 s, three pass freely, two pass
      with a challenge and all the others are blocked. */
  lemma BurstFillsWindow(kv: Counters, calls: seq<Call>, ip: string, from: int)
    requires ip !in kv
    requires forall i :: 0 <= i < |calls| ==> calls[i].ip == ip && from <= calls[i].at < from + 300 && calls[i].writes
    ensures |Answers(kv, calls)| == |calls|
    ensures forall i :: 0 <= i < |calls| ==>
              Answers(kv, calls)[i] == if i < 3 then Allowed else if i < 5 then CaptchaRequired else Blocked
  {
    BurstAnswers(kv, calls, ip, from, 0);
  }
}
