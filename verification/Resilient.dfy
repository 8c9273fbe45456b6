/** Retries with backoff, a circuit breaker in front of the primary provider, and a fallback provider. */
module Resilient {
  import opened Wrappers

  type Name = string

  datatype Policy = Policy(maxAttempts: int, baseDelay: real, maxDelay: real, jitter: real)

  /** What one provider call does; only retryable errors are tried again. */
  datatype CallResult = Answer(text: string) | Retryable(retryAfter: Option<real>) | Permanent(error: string)

  datatype ModelError = CircuitOpen | Exhausted(retryAfter: Option<real>) | Broken(error: string)

  datatype Reply = Reply(text: string, provider: Name, attempts: nat, usedFallback: bool)

  /** What the outside will answer to the n-th call and draw for the n-th pause. */
  datatype Outside = Outside(answer: (Name, nat) -> CallResult, random: nat -> real)

  /******* Specification of the retry loop *******/

  function Power2(n: nat): real {
    if n == 0 then 1.0 else 2.0 * Power2(n - 1)
  }

  function Min(a: real, b: real): real {
    if a < b then a else b
  }

  function RetryDelay(policy: Policy, retryAfter: Option<real>, attempt: nat, random: real): real
    requires attempt >= 1
  {
    if retryAfter.Some? then retryAfter.value
    else
      var base := Min(policy.maxDelay, policy.baseDelay * Power2(attempt - 1));
      base + base * policy.jitter * random
  }

  /** How many calls a retry loop makes that starts with call number `from`, at this attempt. */
  function Calls(outside: Outside, policy: Policy, name: Name, from: nat, attempt: nat): (n: nat)
    requires 1 <= attempt
    decreases policy.maxAttempts - attempt
  {
    if attempt > policy.maxAttempts then 0
    else if !outside.answer(name, from).Retryable? || attempt == policy.maxAttempts then 1
    else 1 + Calls(outside, policy, name, from + 1, attempt + 1)
  }

  /** The result of the last call of the loop. */
  function LoopResult(outside: Outside, policy: Policy, name: Name, from: nat): Result<string, ModelError> {
    var n := Calls(outside, policy, name, from, 1);
    if n == 0 then Err(Broken("retry loop exhausted unexpectedly"))
    else
      match outside.answer(name, from + n - 1)
      case Answer(text) => Ok(text)
      case Retryable(after) => Err(Exhausted(after))
      case Permanent(error) => Err(Broken(error))
  }

  /** The pauses of the loop; `slept` numbers the next one. */
  function Pauses(outside: Outside, policy: Policy, name: Name, from: nat, slept: nat, attempt: nat): seq<real>
    requires 1 <= attempt
    decreases policy.maxAttempts - attempt
  {
    if attempt >= policy.maxAttempts || !outside.answer(name, from).Retryable? then []
    else
      [RetryDelay(policy, outside.answer(name, from).retryAfter, attempt, outside.random(slept))]
      + Pauses(outside, policy, name, from + 1, slept + 1, attempt + 1)
  }

  function Longest(policy: Policy): real {
    policy.maxDelay * (1.0 + policy.jitter)
  }

  ghost predicate NoServerDelay(outside: Outside, name: Name) {
    forall k: nat :: outside.answer(name, k).Retryable? ==> outside.answer(name, k).retryAfter.None?
  }

  ghost predicate Fair(outside: Outside) {
    forall k: nat :: 0.0 <= outside.random(k) <= 1.0
  }

  /** Whether a request finds the circuit open. */
  predicate Opened(b: Breaker, now: real, recovery: real) {
    b.openedAt.Some? && now - b.openedAt.value < recovery
  }

  /** The breaker after a request that was let through or not. */
  function Recorded(
    b: Breaker, first: Result<string, ModelError>, now: real, later: real, threshold: int, recovery: real): Breaker
  {
    var asked := After(b, Ask(now), threshold, recovery);
    if first.Ok? then After(asked, Success, threshold, recovery)
    else if first.error.Exhausted? then After(asked, Failure(later), threshold, recovery)
    else asked
  }

  /** The reply of `generate` and the calls it makes. */
  function Answered(
    outside: Outside, policy: Policy, primary: Name, fallback: Option<Name>, from: nat, open: bool, notified: bool)
    : (Result<Reply, ModelError>, seq<Name>)
  {
    var n := if open then 0 else Calls(outside, policy, primary, from, 1);
    var first := if open then Err(CircuitOpen) else LoopResult(outside, policy, primary, from);
    if first.Ok? then (Ok(Reply(first.value, primary, n, false)), Repeat(primary, n))
    else if first.error.Broken? || fallback.None? then (Err(first.error), Repeat(primary, n))
    else if !notified then (Err(Broken("fallback callback failed")), Repeat(primary, n))
    else
      var m := Calls(outside, policy, fallback.value, from + n, 1);
      match LoopResult(outside, policy, fallback.value, from + n)
      case Ok(text) => (Ok(Reply(text, fallback.value, n + m, true)), Repeat(primary, n) + Repeat(fallback.value, m))
      case Err(error) => (Err(error), Repeat(primary, n) + Repeat(fallback.value, m))
  }

  function Repeat(name: Name, n: nat): (names: seq<Name>)
    ensures |names| == n && forall k :: 0 <= k < n ==> names[k] == name
  {
    if n == 0 then [] else Repeat(name, n - 1) + [name]
  }

  function Total(pauses: seq<real>): real {
    if pauses == [] then 0.0 else Total(pauses[..|pauses| - 1]) + pauses[|pauses| - 1]
  }

  /** A loop makes at most `maxAttempts` calls, and only the last of them may do anything but ask for another. */
  lemma {:induction false} CallsAreBounded(outside: Outside, policy: Policy, name: Name, from: nat, attempt: nat)
    requires 1 <= attempt <= policy.maxAttempts
    ensures var n := Calls(outside, policy, name, from, attempt);
            && 1 <= n <= policy.maxAttempts - attempt + 1
            && (forall k :: from <= k < from + n - 1 ==> outside.answer(name, k).Retryable?)
            && (outside.answer(name, from + n - 1).Retryable? ==> n == policy.maxAttempts - attempt + 1)
    decreases policy.maxAttempts - attempt
  {
    if outside.answer(name, from).Retryable? && attempt < policy.maxAttempts {
      CallsAreBounded(outside, policy, name, from + 1, attempt + 1);
    }
  }

  /** Call `k` answers, is among the first `maxAttempts`, and all before it ask for a retry. */
  ghost predicate FirstAnswer(outside: Outside, policy: Policy, name: Name, from: nat, k: nat) {
    && from <= k < from + policy.maxAttempts && outside.answer(name, k).Answer?
    && forall j :: from <= j < k ==> outside.answer(name, j).Retryable?
  }

  /** The loop answers exactly when one of the first `maxAttempts` calls answers after retryable errors only. */
  lemma AnswersExactlyWhen(outside: Outside, policy: Policy, name: Name, from: nat)
    ensures LoopResult(outside, policy, name, from).Ok? <==>
              exists k :: FirstAnswer(outside, policy, name, from, k)
  {
    if policy.maxAttempts >= 1 {
      CallsAreBounded(outside, policy, name, from, 1);
      var last := from + Calls(outside, policy, name, from, 1) - 1;
      if LoopResult(outside, policy, name, from).Ok? {
        assert FirstAnswer(outside, policy, name, from, last);
      }
    }
  }

  /** A loop that ends exhausted made all its calls. */
  lemma ExhaustedAfterAll(outside: Outside, policy: Policy, name: Name, from: nat)
    ensures var r := LoopResult(outside, policy, name, from);
            r.Err? && r.error.Exhausted? ==> Calls(outside, policy, name, from, 1) == policy.maxAttempts
  {
    if policy.maxAttempts >= 1 {
      CallsAreBounded(outside, policy, name, from, 1);
    }
  }

  lemma AnswerOfTheLoop(outside: Outside, policy: Policy, name: Name, from: nat)
    requires LoopResult(outside, policy, name, from).Ok?
    ensures var n := Calls(outside, policy, name, from, 1);
            n > 0 && outside.answer(name, from + n - 1) == Answer(LoopResult(outside, policy, name, from).value)
  {
  }

  /** A reply is what the last call answered, by the provider it names. The fallback is asked only when the circuit is open
      or the primary provider asked for a retry in every attempt. */
  lemma ReplyIsTheLastAnswer(
    outside: Outside, policy: Policy, primary: Name, fallback: Option<Name>, from: nat, open: bool, notified: bool)
    requires policy.maxAttempts >= 1 && Answered(outside, policy, primary, fallback, from, open, notified).0.Ok?
    ensures var (reply, calls) := Answered(outside, policy, primary, fallback, from, open, notified);
            var last := |calls| - 1;
            && last >= 0 && calls[last] == reply.value.provider
            && outside.answer(reply.value.provider, from + last) == Answer(reply.value.text)
            && (reply.value.usedFallback ==> fallback == Some(reply.value.provider) && notified)
            && (reply.value.usedFallback && !open ==>
                  forall k :: from <= k < from + policy.maxAttempts ==> outside.answer(primary, k).Retryable?)
            && (!reply.value.usedFallback ==> reply.value.provider == primary && !open)
  {
    var n := if open then 0 else Calls(outside, policy, primary, from, 1);
    CallsAreBounded(outside, policy, primary, from, 1);
    if !open && LoopResult(outside, policy, primary, from).Ok? {
      AnswerOfTheLoop(outside, policy, primary, from);
    } else {
      AnswerOfTheLoop(outside, policy, fallback.value, from + n);
      ExhaustedAfterAll(outside, policy, primary, from);
    }
  }

  /******* The circuit breaker *******/

  datatype BreakerOp = Ask(now: real) | Success | Failure(now: real)

  class CircuitBreaker {
    const threshold: int
    const recovery: real
    var failures: nat
    var openedAt: Option<real>

    constructor (threshold: int, recovery: real)
      ensures this.threshold == threshold && this.recovery == recovery && failures == 0 && openedAt == None
    {
      this.threshold, this.recovery, failures, openedAt := threshold, recovery, 0, None;
    }

    ghost function Contents(): Breaker
      reads this
    {
      Breaker(failures, openedAt)
    }

    method AllowRequest(now: real) returns (allowed: bool)
      modifies this
      ensures Contents() == After(old(Contents()), Ask(now), threshold, recovery)
      ensures allowed == Contents().openedAt.None?
    {
      if openedAt.None? {
        return true;
      }
      if now - openedAt.value >= recovery {
        openedAt, failures := None, 0;
        return true;
      }
      return false;
    }

    method RecordSuccess()
      modifies this
      ensures Contents() == After(old(Contents()), Success, threshold, recovery)
    {
      failures, openedAt := 0, None;
    }

    method RecordFailure(now: real)
      modifies this
      ensures Contents() == After(old(Contents()), Failure(now), threshold, recovery)
    {
      failures := failures + 1;
      if failures >= threshold {
        openedAt := Some(now);
      }
    }
  }

  datatype Breaker = Breaker(failures: nat, openedAt: Option<real>)

  function After(b: Breaker, op: BreakerOp, threshold: int, recovery: real): Breaker {
    match op
    case Ask(now) => if b.openedAt.Some? && now - b.openedAt.value >= recovery then Breaker(0, None) else b
    case Success => Breaker(0, None)
    case Failure(now) => Breaker(b.failures + 1, if b.failures + 1 >= threshold then Some(now) else b.openedAt)
  }

  function Run(ops: seq<BreakerOp>, threshold: int, recovery: real): Breaker {
    if ops == [] then Breaker(0, None)
    else After(Run(ops[..|ops| - 1], threshold, recovery), ops[|ops| - 1], threshold, recovery)
  }

  /** Failures recorded since the last success, or since a request was let through an open breaker. */
  function FailuresSince(ops: seq<BreakerOp>, threshold: int, recovery: real): nat {
    if ops == [] then 0
    else
      var front, last := ops[..|ops| - 1], ops[|ops| - 1];
      match last
      case Failure(_) => FailuresSince(front, threshold, recovery) + 1
      case Success => 0
      case Ask(_) => if Resets(front, last, threshold, recovery) then 0 else FailuresSince(front, threshold, recovery)
  }

  predicate Resets(front: seq<BreakerOp>, ask: BreakerOp, threshold: int, recovery: real)
    requires ask.Ask?
  {
    var b := Run(front, threshold, recovery);
    b.openedAt.Some? && ask.now - b.openedAt.value >= recovery
  }

  /** Over any history, the breaker is open exactly when at least the threshold of failures, and at least one, were
      recorded since the last success or reset; it opened at the last of them. */
  lemma {:induction false} OpenExactlyWhen(ops: seq<BreakerOp>, threshold: int, recovery: real)
    ensures var b := Run(ops, threshold, recovery);
            && b.failures == FailuresSince(ops, threshold, recovery)
            && (b.openedAt.Some? <==> b.failures >= 1 && b.failures >= threshold)
  {
    if ops != [] {
      OpenExactlyWhen(ops[..|ops| - 1], threshold, recovery);
    }
  }

  /** What a request does to the breaker: a call that is let through closes it when it answers, counts when it is
      exhausted, and otherwise leaves it; a request that finds the circuit open leaves it too. */
  lemma OnlyExhaustionCounts(
    b: Breaker, first: Result<string, ModelError>, now: real, later: real, threshold: int, recovery: real)
    ensures var asked, after := After(b, Ask(now), threshold, recovery), Recorded(b, first, now, later, threshold, recovery);
            && (Opened(b, now, recovery) <==> asked.openedAt.Some?)
            && (first.Ok? ==> after == Breaker(0, None))
            && (first.Err? && !first.error.Exhausted? ==> after == asked)
            && (first.Err? && first.error.Exhausted? ==>
                  after.failures == asked.failures + 1
                  && after.openedAt == if after.failures >= threshold then Some(later) else asked.openedAt)
  {
  }

  /******* The provider *******/

  /** The outside world as the provider sees it: calls made and pauses taken so far. */
  class Wire {
    const outside: Outside
    var calls: seq<Name>
    var slept: seq<real>

    constructor (outside: Outside)
      ensures this.outside == outside && calls == [] && slept == []
    {
      this.outside, calls, slept := outside, [], [];
    }

    method Call(name: Name) returns (r: CallResult)
      modifies this`calls
      ensures r == outside.answer(name, |old(calls)|) && calls == old(calls) + [name]
    {
      r := outside.answer(name, |calls|);
      calls := calls + [name];
    }

    method Sleep(seconds: real)
      modifies this`slept
      ensures slept == old(slept) + [seconds]
    {
      slept := slept + [seconds];
    }
  }

  predicate Sensible(policy: Policy) {
    policy.baseDelay >= 0.0 && policy.maxDelay >= 0.0 && policy.jitter >= 0.0
  }

  lemma {:induction false} PowerIsPositive(n: nat)
    ensures Power2(n) >= 1.0
  {
    if n > 0 {
      PowerIsPositive(n - 1);
    }
  }

  lemma ScaledDown(x: real, r: real)
    requires 0.0 <= x && 0.0 <= r <= 1.0
    ensures 0.0 <= x * r <= x
  {
  }

  lemma ScaledAlike(x: real, y: real, r: real)
    requires 0.0 <= x <= y && 0.0 <= r
    ensures 0.0 <= x * r <= y * r
  {
  }

  lemma JitterIsBounded(base: real, longest: real, jitter: real, random: real)
    requires 0.0 <= base <= longest && 0.0 <= jitter && 0.0 <= random <= 1.0
    ensures 0.0 <= base + base * jitter * random <= longest * (1.0 + jitter)
  {
    var full, most := base * jitter, longest * jitter;
    ScaledAlike(base, longest, jitter);
    ScaledDown(full, random);
    var drawn := full * random;
    assert 0.0 <= drawn <= full <= most;
    assert longest * (1.0 + jitter) == longest + most;
  }

  lemma ProductIsPositive(x: real, y: real)
    requires x >= 0.0 && y >= 0.0
    ensures x * y >= 0.0
  {
  }

  /** A pause that doubles from the base delay on, up to the longest one. */
  function Doubled(policy: Policy, retries: nat): real {
    var pause := if retries == 0 then policy.baseDelay else 2.0 * Doubled(policy, retries - 1);
    if pause < policy.maxDelay then pause else policy.maxDelay
  }

  lemma DoubledWithinLimit(x: real, limit: real)
    requires x >= 0.0 && limit >= 0.0
    ensures Min(limit, 2.0 * x) == if 2.0 * Min(limit, x) < limit then 2.0 * Min(limit, x) else limit
  {
  }

  lemma TwiceAsLong(x: real, y: real)
    ensures x * (2.0 * y) == 2.0 * (x * y)
  {
  }

  lemma {:induction false} BackoffDoubles(policy: Policy, retries: nat, unlimited: real)
    requires Sensible(policy) && unlimited == policy.baseDelay * Power2(retries)
    ensures Min(policy.maxDelay, unlimited) == Doubled(policy, retries)
  {
    if retries == 0 {
      assert unlimited == policy.baseDelay;
    } else {
      var power := Power2(retries - 1);
      var before := policy.baseDelay * power;
      PowerIsPositive(retries - 1);
      ProductIsPositive(policy.baseDelay, power);
      BackoffDoubles(policy, retries - 1, before);
      TwiceAsLong(policy.baseDelay, power);
      DoubledWithinLimit(before, policy.maxDelay);
    }
  }

  function WithJitter(pause: real, jitter: real, random: real): real {
    pause + pause * jitter * random
  }

  lemma DelayIsDoubled(policy: Policy, attempt: nat, random: real)
    requires Sensible(policy) && attempt >= 1
    ensures RetryDelay(policy, None, attempt, random) == WithJitter(Doubled(policy, attempt - 1), policy.jitter, random)
  {
    BackoffDoubles(policy, attempt - 1, policy.baseDelay * Power2(attempt - 1));
  }

  lemma {:induction false} DoubledIsBounded(policy: Policy, retries: nat)
    requires Sensible(policy)
    ensures 0.0 <= Doubled(policy, retries) <= policy.maxDelay
  {
    if retries > 0 {
      DoubledIsBounded(policy, retries - 1);
    }
  }

  /** A pause without a server delay is at most the longest delay with full jitter. */
  lemma DelayIsBounded(policy: Policy, attempt: nat, random: real)
    requires Sensible(policy) && attempt >= 1 && 0.0 <= random <= 1.0
    ensures 0.0 <= RetryDelay(policy, None, attempt, random) <= Longest(policy)
  {
    DelayIsDoubled(policy, attempt, random);
    DoubledIsBounded(policy, attempt - 1);
    JitterIsBounded(Doubled(policy, attempt - 1), policy.maxDelay, policy.jitter, random);
  }

  lemma {:induction false} TotalIsBounded(pauses: seq<real>, longest: real)
    requires forall k :: 0 <= k < |pauses| ==> pauses[k] <= longest
    ensures Total(pauses) <= |pauses| as real * longest
  {
    if pauses != [] {
      TotalIsBounded(pauses[..|pauses| - 1], longest);
    }
  }

  lemma {:induction false} PausesAreBounded(
    outside: Outside, policy: Policy, name: Name, from: nat, slept: nat, attempt: nat)
    requires Sensible(policy) && 1 <= attempt <= policy.maxAttempts && NoServerDelay(outside, name) && Fair(outside)
    ensures var pauses := Pauses(outside, policy, name, from, slept, attempt);
            && |pauses| == Calls(outside, policy, name, from, attempt) - 1 <= policy.maxAttempts - attempt
            && forall k :: 0 <= k < |pauses| ==> pauses[k] <= Longest(policy)
    decreases policy.maxAttempts - attempt
  {
    if outside.answer(name, from).Retryable? && attempt < policy.maxAttempts {
      PausesAreBounded(outside, policy, name, from + 1, slept + 1, attempt + 1);
      DelayIsBounded(policy, attempt, outside.random(slept));
    }
  }

  /** Every pause is the one the provider asked for, or has doubled since the one before, with its own jitter on top. */
  lemma {:induction false} PausesAreDoubled(
    outside: Outside, policy: Policy, name: Name, from: nat, slept: nat, attempt: nat, k: nat)
    requires Sensible(policy) && attempt >= 1 && k < |Pauses(outside, policy, name, from, slept, attempt)|
    ensures var pause := Pauses(outside, policy, name, from, slept, attempt)[k];
            var doubled := Doubled(policy, attempt - 1 + k);
            && outside.answer(name, from + k).Retryable?
            && match outside.answer(name, from + k).retryAfter
               case Some(seconds) => pause == seconds
               case None => pause == WithJitter(doubled, policy.jitter, outside.random(slept + k))
    decreases k
  {
    if k > 0 {
      PausesAreDoubled(outside, policy, name, from + 1, slept + 1, attempt + 1, k - 1);
    } else {
      DelayIsDoubled(policy, attempt, outside.random(slept));
    }
  }

  /** The attempts a reply reports are the calls that were made, at most `maxAttempts` to each provider. */
  lemma AttemptsAreTheCalls(
    outside: Outside, policy: Policy, primary: Name, fallback: Option<Name>, from: nat, open: bool, notified: bool)
    requires policy.maxAttempts >= 1
    ensures var (reply, calls) := Answered(outside, policy, primary, fallback, from, open, notified);
            && |calls| <= 2 * policy.maxAttempts
            && (reply.Ok? ==> reply.value.attempts == |calls| >= 1)
            && (reply.Ok? && !reply.value.usedFallback ==> |calls| <= policy.maxAttempts)
            && (fallback.None? ==> |calls| <= policy.maxAttempts) && (open && fallback.None? ==> calls == [])
  {
    CallsAreBounded(outside, policy, primary, from, 1);
    var n := if open then 0 else Calls(outside, policy, primary, from, 1);
    if fallback.Some? {
      CallsAreBounded(outside, policy, fallback.value, from + n, 1);
    }
  }

  /** All pauses of one retry loop together, when no provider names a delay. */
  lemma BackoffIsBounded(outside: Outside, policy: Policy, name: Name, from: nat, slept: nat)
    requires Sensible(policy) && policy.maxAttempts >= 1 && NoServerDelay(outside, name) && Fair(outside)
    ensures Total(Pauses(outside, policy, name, from, slept, 1)) <= (policy.maxAttempts - 1) as real * Longest(policy)
  {
    var pauses := Pauses(outside, policy, name, from, slept, 1);
    PausesAreBounded(outside, policy, name, from, slept, 1);
    TotalIsBounded(pauses, Longest(policy));
    assert 0.0 <= Longest(policy) by { ScaledAlike(0.0, policy.maxDelay, 1.0 + policy.jitter); }
    MorePauses(|pauses|, policy.maxAttempts - 1, Longest(policy));
  }

  lemma MorePauses(n: nat, m: nat, longest: real)
    requires n <= m && 0.0 <= longest
    ensures n as real * longest <= m as real * longest
  {
    ScaledAlike(n as real, m as real, longest);
  }

  class ResilientProvider {
    const primary: Name
    const fallback: Option<Name>
    const policy: Policy
    const breaker: CircuitBreaker
    const wire: Wire

    constructor (primary: Name, fallback: Option<Name>, policy: Policy, breaker: CircuitBreaker, wire: Wire)
      ensures this.primary == primary && this.fallback == fallback && this.policy == policy
      ensures this.breaker == breaker && this.wire == wire
    {
      this.primary, this.fallback, this.policy, this.breaker, this.wire := primary, fallback, policy, breaker, wire;
    }

    /** Calls the provider until it answers, fails for good, or the attempts are used up. */
    method GenerateWithRetry(name: Name) returns (r: Result<string, ModelError>, attempts: nat)
      modifies wire
      ensures r == LoopResult(wire.outside, policy, name, |old(wire.calls)|)
      ensures attempts == Calls(wire.outside, policy, name, |old(wire.calls)|, 1)
      ensures wire.calls == old(wire.calls) + Repeat(name, attempts)
      ensures wire.slept
                == old(wire.slept) + Pauses(wire.outside, policy, name, |old(wire.calls)|, |old(wire.slept)|, 1)
    {
      var attempt := 1;
      while attempt <= policy.maxAttempts
        invariant attempt == 1 || 1 <= attempt <= policy.maxAttempts
        invariant wire.calls == old(wire.calls) + Repeat(name, attempt - 1)
        invariant Calls(wire.outside, policy, name, |old(wire.calls)|, 1)
                    == attempt - 1 + Calls(wire.outside, policy, name, |wire.calls|, attempt)
        invariant wire.slept + Pauses(wire.outside, policy, name, |wire.calls|, |wire.slept|, attempt)
                    == old(wire.slept) + Pauses(wire.outside, policy, name, |old(wire.calls)|, |old(wire.slept)|, 1)
      {
        ghost var slept := wire.slept;
        ghost var pauses := Pauses(wire.outside, policy, name, |wire.calls|, |slept|, attempt);
        var result := wire.Call(name);
        match result
        case Answer(text) => return Ok(text), attempt;
        case Permanent(error) => return Err(Broken(error)), attempt;
        case Retryable(after) =>
          if attempt >= policy.maxAttempts {
            return Err(Exhausted(after)), attempt;
          }
          wire.Sleep(RetryDelay(policy, after, attempt, wire.outside.random(|wire.slept|)));
          assert slept + pauses == wire.slept + pauses[1..];
        attempt := attempt + 1;
      }
      return Err(Broken("retry loop exhausted unexpectedly")), 0;
    }

    /** The primary provider, behind its breaker. */
    method AskPrimary(now: real, later: real) returns (first: Result<string, ModelError>, attempts: nat)
      modifies wire, breaker
      ensures var open := Opened(old(breaker.Contents()), now, breaker.recovery);
              && first == (if open then Err(CircuitOpen) else LoopResult(wire.outside, policy, primary, |old(wire.calls)|))
              && attempts == (if open then 0 else Calls(wire.outside, policy, primary, |old(wire.calls)|, 1))
      ensures wire.calls == old(wire.calls) + Repeat(primary, attempts)
      ensures breaker.Contents() == Recorded(old(breaker.Contents()), first, now, later, breaker.threshold, breaker.recovery)
    {
      var allowed := breaker.AllowRequest(now);
      if !allowed {
        return Err(CircuitOpen), 0;
      }
      first, attempts := GenerateWithRetry(primary);
      if first.Ok? {
        breaker.RecordSuccess();
      } else if first.error.Exhausted? {
        breaker.RecordFailure(later);
      }
    }

    /** The fallback provider, if there is one; `earlier` counts the calls made before. */
    method AskFallback(error: ModelError, earlier: nat, notified: bool) returns (r: Result<Reply, ModelError>)
      modifies wire
      ensures fallback.None? ==> r == Err(error) && wire.calls == old(wire.calls)
      ensures fallback.Some? && !notified ==>
                r == Err(Broken("fallback callback failed")) && wire.calls == old(wire.calls)
      ensures fallback.Some? && notified ==>
                var m := Calls(wire.outside, policy, fallback.value, |old(wire.calls)|, 1);
                && wire.calls == old(wire.calls) + Repeat(fallback.value, m)
                && r == match LoopResult(wire.outside, policy, fallback.value, |old(wire.calls)|)
                        case Ok(text) => Ok(Reply(text, fallback.value, earlier + m, true))
                        case Err(last) => Err(last)
    {
      if fallback.None? {
        return Err(error);
      }
      if !notified {
        return Err(Broken("fallback callback failed"));
      }
      var response, m := GenerateWithRetry(fallback.value);
      match response
      case Ok(text) => return Ok(Reply(text, fallback.value, earlier + m, true));
      case Err(last) => return Err(last);
    }

    /** Asks the primary provider unless its circuit is open, then the fallback. `now` and `later` are the clock when
        the breaker is asked and when it records; `notified` says whether the fallback callback went well. */
    method Generate(now: real, later: real, notified: bool) returns (r: Result<Reply, ModelError>)
      modifies wire, breaker
      ensures var open := Opened(old(breaker.Contents()), now, breaker.recovery);
              var answer := Answered(wire.outside, policy, primary, fallback, |old(wire.calls)|, open, notified);
              r == answer.0 && wire.calls == old(wire.calls) + answer.1
      ensures r.Ok? ==> r.value.attempts == |wire.calls| - |old(wire.calls)|
    {
      ghost var calls := wire.calls;
      var first, n := AskPrimary(now, later);
      if first.Ok? {
        return Ok(Reply(first.value, primary, n, false));
      }
      if first.error.Broken? {
        return Err(first.error);
      }
      var primaryAttempts: nat := 0;
      if first.error.Exhausted? {
        ExhaustedAfterAll(wire.outside, policy, primary, |calls|);
        primaryAttempts := policy.maxAttempts;
      }
      assert primaryAttempts == n;
      r := AskFallback(first.error, primaryAttempts, notified);
      ghost var m := |wire.calls| - |calls| - n;
      assert fallback.Some? && notified ==>
          wire.calls == calls + (Repeat(primary, n) + Repeat(fallback.value, m));
    }
  }
}
