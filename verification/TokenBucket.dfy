/**
 The token-bucket rate limiter of middleware/rate_limiter.go.

 Every section that runs under the mutex is one atomic step.  A caller that has to wait releases the
 mutex, sleeps, and comes back with a second step, so the steps of any number of callers interleave.
 Time is in seconds; floats are reals.
 */
module TokenBucket {

  /** A limiter's configuration; `maxWait == 0.0` means no limit on the wait. */
  datatype Config = Config(rate: real, capacity: int, tokensPerRequest: int, maxWait: real) {
    ghost predicate Valid() {
      rate > 0.0 && 1 <= tokensPerRequest <= capacity
    }
  }

  /** The slack that the second attempt allows itself. */
  const EPSILON: real := 0.01

  const DEFAULTS := Config(10.0, 10, 1, 0.0)

  /** The defaults and clamps that the constructor of the limiter applies to a configuration. */
  function Normalize(c: Config): (r: Config)
    ensures r.Valid() && r.maxWait == c.maxWait
    ensures c.Valid() ==> r == c
    ensures r.rate == (if c.rate > 0.0 then c else DEFAULTS).rate
    ensures r.capacity == (if c.capacity > 0 then c else DEFAULTS).capacity
    ensures c.tokensPerRequest > 0 ==> r.tokensPerRequest == c.tokensPerRequest || r.tokensPerRequest == r.capacity
    ensures c.tokensPerRequest <= 0 ==> r.tokensPerRequest == DEFAULTS.tokensPerRequest
  {
    var rate := if c.rate <= 0.0 then 10.0 else c.rate;
    var capacity := if c.capacity < 1 then 10 else c.capacity;
    var perRequest := if c.tokensPerRequest < 1 then 1 else c.tokensPerRequest;
    Config(rate, capacity, if perRequest > capacity then capacity else perRequest, c.maxWait)
  }

  datatype Bucket = Bucket(tokens: real, lastUpdate: real)

  function Min(a: real, b: real): real {
    if a < b then a else b
  }

  function Refill(c: Config, b: Bucket, now: real): Bucket {
    Bucket(Min(b.tokens + (now - b.lastUpdate) * c.rate, c.capacity as real), now)
  }

  /** How long a caller that misses `deficit` tokens sleeps: whole milliseconds, rounded down. */
  function WaitTime(c: Config, deficit: real): real
    requires c.rate > 0.0
  {
    (deficit / c.rate * 1000.0).Floor as real / 1000.0
  }

  /** What one locked section tells its caller. */
  datatype Outcome = Granted | Refused(available: real) | Asleep(wakeAt: real)

  /** The first locked section of an acquisition. */
  function FirstAttempt(c: Config, b: Bucket, need: nat, wait: bool, now: real): (Bucket, Outcome)
    requires c.rate > 0.0
  {
    var b' := Refill(c, b, now);
    if b'.tokens >= need as real then
      (b'.(tokens := b'.tokens - need as real), Granted)
    else if !wait then
      (b', Refused(b'.tokens))
    else
      var pause := WaitTime(c, need as real - b'.tokens);
      if c.maxWait > 0.0 && pause > c.maxWait then (b', Refused(b'.tokens)) else (b', Asleep(now + pause))
  }

  /** The second locked section, after the sleep; it accepts a shortfall of up to EPSILON. */
  function SecondAttempt(c: Config, b: Bucket, need: nat, now: real): (Bucket, Outcome) {
    var b' := Refill(c, b, now);
    if b'.tokens >= need as real - EPSILON then
      (b'.(tokens := b'.tokens - need as real), Granted)
    else
      (b', Refused(b'.tokens))
  }

  /** The limiter as an object; each method is one section under the mutex. */
  class Limiter {
    const config: Config
    var tokens: real
    var lastUpdate: real
    var currentTokens: real  // the gauge that the metrics publish

    ghost function State(): Bucket
      reads this
    {
      Bucket(tokens, lastUpdate)
    }

    constructor (c: Config, now: real)
      ensures config == Normalize(c)
      ensures State() == Bucket(config.capacity as real, now)
      ensures currentTokens == tokens
    {
      var n := Normalize(c);
      config := n;
      tokens, lastUpdate, currentTokens := n.capacity as real, now, n.capacity as real;
    }

    method RefillTokens(now: real)
      modifies this
      ensures State() == Refill(config, old(State()), now)
      ensures currentTokens == tokens
    {
      var elapsed := now - lastUpdate;
      var tokensToAdd := elapsed * config.rate;
      tokens := Min(tokens + tokensToAdd, config.capacity as real);
      lastUpdate := now;
      currentTokens := tokens;
    }

    method TryAcquire(need: nat, wait: bool, now: real) returns (r: Outcome)
      requires config.Valid()
      modifies this
      ensures (State(), r) == FirstAttempt(config, old(State()), need, wait, now)
      ensures currentTokens == tokens
    {
      RefillTokens(now);
      if tokens >= need as real {
        tokens := tokens - need as real;
        currentTokens := tokens;
        return Granted;
      }
      if !wait {
        return Refused(tokens);
      }
      var deficit := need as real - tokens;
      var pause := WaitTime(config, deficit);
      if config.maxWait > 0.0 && pause > config.maxWait {
        return Refused(tokens);
      }
      return Asleep(now + pause);
    }

    method AcquireAfterWait(need: nat, now: real) returns (r: Outcome)
      modifies this
      ensures (State(), r) == SecondAttempt(config, old(State()), need, now)
      ensures currentTokens == tokens
    {
      RefillTokens(now);
      if tokens >= need as real - EPSILON {
        tokens := tokens - need as real;
        currentTokens := tokens;
        return Granted;
      }
      return Refused(tokens);
    }
  }

  // ---------------------------------------------------------------------------------------------
  // Interleaved callers

  type Caller = nat

  datatype Sleeper = Sleeper(need: nat, wakeAt: real)

  datatype Grant = Grant(time: real, amount: nat)

  /** The limiter, the callers asleep outside the mutex, and the log of everything granted so far. */
  datatype State = State(bucket: Bucket, sleepers: map<Caller, Sleeper>, log: seq<Grant>)

  datatype Event =
    | Begin(caller: Caller, need: nat, wait: bool, now: real)
    | Wake(caller: Caller, now: real)
    | Cancel(caller: Caller)

  function Start(c: Config, now: real): State {
    State(Bucket(c.capacity as real, now), map[], [])
  }

  /** Clocks do not run backwards, and a sleep lasts at least as long as it was asked to. */
  predicate Enabled(s: State, e: Event) {
    match e
    case Begin(caller, _, _, now) => caller !in s.sleepers && s.bucket.lastUpdate <= now
    case Wake(caller, now) => caller in s.sleepers && s.bucket.lastUpdate <= now && s.sleepers[caller].wakeAt <= now
    case Cancel(caller) => caller in s.sleepers
  }

  /** The state after a first attempt that left bucket `b` and was answered `r`. */
  function AfterBegin(s: State, caller: Caller, need: nat, now: real, b: Bucket, r: Outcome): State {
    match r
    case Granted => s.(bucket := b, log := s.log + [Grant(now, need)])
    case Refused(_) => s.(bucket := b)
    case Asleep(wakeAt) => s.(bucket := b, sleepers := s.sleepers[caller := Sleeper(need, wakeAt)])
  }

  /** The effect of one event and what it tells the caller; a cancelled sleep counts as a refusal. */
  function Step(c: Config, s: State, e: Event): (State, Outcome)
    requires c.rate > 0.0 && Enabled(s, e)
  {
    match e
    case Begin(caller, need, wait, now) =>
      var (b, r) := FirstAttempt(c, s.bucket, need, wait, now);
      (AfterBegin(s, caller, need, now, b, r), r)
    case Wake(caller, now) =>
      var need := s.sleepers[caller].need;
      var (b, r) := SecondAttempt(c, s.bucket, need, now);
      var awake := s.sleepers - {caller};
      (if r.Granted? then State(b, awake, s.log + [Grant(now, need)]) else State(b, awake, s.log), r)
    case Cancel(caller) =>
      (s.(sleepers := s.sleepers - {caller}), Refused(s.bucket.tokens))
  }

  ghost predicate Legal(c: Config, s: State, es: seq<Event>)
    requires c.rate > 0.0
    decreases |es|
  {
    es == [] || (Enabled(s, es[0]) && Legal(c, Step(c, s, es[0]).0, es[1..]))
  }

  ghost function Run(c: Config, s: State, es: seq<Event>): State
    requires c.rate > 0.0 && Legal(c, s, es)
    decreases |es|
  {
    if es == [] then s else Run(c, Step(c, s, es[0]).0, es[1..])
  }

  /** What the run answers, event by event. */
  ghost function Answers(c: Config, s: State, es: seq<Event>): seq<Outcome>
    requires c.rate > 0.0 && Legal(c, s, es)
    decreases |es|
  {
    if es == [] then [] else [Step(c, s, es[0]).1] + Answers(c, Step(c, s, es[0]).0, es[1..])
  }

  // ---------------------------------------------------------------------------------------------
  // The rate bound

  /** The tokens granted in the closed interval from t0 to t1. */
  ghost function GrantedIn(log: seq<Grant>, t0: real, t1: real): nat {
    if log == [] then 0
    else
      var last := log[|log| - 1];
      GrantedIn(log[..|log| - 1], t0, t1) + if t0 <= last.time <= t1 then last.amount else 0
  }

  /** The bucket stays between -EPSILON and the capacity. */
  ghost predicate InRange(c: Config, b: Bucket) {
    -EPSILON <= b.tokens <= c.capacity as real
  }

  /** What has been granted since t0, plus what is left, is paid for by the capacity and the refill. */
  ghost predicate Paid(c: Config, b: Bucket, log: seq<Grant>, t0: real) {
    t0 <= b.lastUpdate ==>
      GrantedIn(log, t0, b.lastUpdate) as real + b.tokens <= c.capacity as real + c.rate * (b.lastUpdate - t0)
  }

  ghost predicate Bounded(c: Config, log: seq<Grant>, t0: real) {
    forall t1 :: t0 <= t1 ==>
      GrantedIn(log, t0, t1) as real <= c.capacity as real + c.rate * (t1 - t0) + EPSILON
  }

  ghost predicate LoggedBy(log: seq<Grant>, t: real) {
    forall i :: 0 <= i < |log| ==> log[i].time <= t
  }

  ghost predicate Inv(c: Config, b: Bucket, log: seq<Grant>, t0: real) {
    && InRange(c, b)
    && LoggedBy(log, b.lastUpdate)
    && Paid(c, b, log, t0)
    && Bounded(c, log, t0)
  }

  /** Nothing later than `t` was logged, so two intervals that both reach past `t` hold the same grants. */
  lemma {:induction false} GrantedPast(log: seq<Grant>, t: real, t0: real, t1: real, t2: real)
    requires LoggedBy(log, t) && t <= t1 && t <= t2
    ensures GrantedIn(log, t0, t1) == GrantedIn(log, t0, t2)
    ensures t < t0 ==> GrantedIn(log, t0, t1) == 0
  {
    if log != [] {
      GrantedPast(log[..|log| - 1], t, t0, t1, t2);
    }
  }

  lemma MulStep(r: real, t: real, a: real, b: real)
    requires r > 0.0 && a <= b
    ensures r * (b - t) == r * (a - t) + (b - a) * r
    ensures r * (a - t) <= r * (b - t)
    ensures 0.0 <= (b - a) * r
  {}

  lemma RefillKeeps(c: Config, b: Bucket, log: seq<Grant>, now: real, t0: real)
    requires c.Valid() && Inv(c, b, log, t0) && b.lastUpdate <= now
    ensures Inv(c, Refill(c, b, now), log, t0)
  {
    var last := b.lastUpdate;
    var b' := Refill(c, b, now);
    var earned := (now - last) * c.rate;
    MulStep(c.rate, t0, last, now);
    assert InRange(c, b') by { assert b'.tokens == Min(b.tokens + earned, c.capacity as real); }
    if t0 <= now {
      GrantedPast(log, last, t0, now, if t0 <= last then last else now);
      MulStep(c.rate, t0, t0, now);
      assert Paid(c, b', log, t0);
    }
  }

  lemma Afford(paid: real, need: real, tokens: real, capacity: real, earned: real, earnedLater: real)
    requires paid + tokens <= capacity + earned && need - EPSILON <= tokens && earned <= earnedLater
    ensures paid + need <= capacity + earnedLater + EPSILON
  {}

  lemma GrantAdds(log: seq<Grant>, now: real, need: nat, t0: real, t1: real)
    requires LoggedBy(log, now) && t0 <= t1
    ensures
      GrantedIn(log + [Grant(now, need)], t0, t1)
        == if t0 <= now <= t1 then GrantedIn(log, t0, now) + need else GrantedIn(log, t0, t1)
  {
    var log' := log + [Grant(now, need)];
    assert log'[..|log'| - 1] == log;
    if now <= t1 {
      GrantedPast(log, now, t0, t1, now);
    }
  }

  lemma GrantBounded(c: Config, b: Bucket, log: seq<Grant>, need: nat, t0: real, t1: real)
    requires c.Valid() && LoggedBy(log, b.lastUpdate) && Paid(c, b, log, t0)
    requires b.tokens >= need as real - EPSILON && t0 <= b.lastUpdate <= t1
    ensures
      GrantedIn(log + [Grant(b.lastUpdate, need)], t0, t1) as real
        <= c.capacity as real + c.rate * (t1 - t0) + EPSILON
  {
    var now := b.lastUpdate;
    var paid := GrantedIn(log, t0, now);
    GrantAdds(log, now, need, t0, t1);
    MulStep(c.rate, t0, now, t1);
    Afford(paid as real, need as real, b.tokens, c.capacity as real, c.rate * (now - t0), c.rate * (t1 - t0));
    assert (paid + need) as real == paid as real + need as real;
  }

  lemma GrantPaid(c: Config, b: Bucket, log: seq<Grant>, need: nat, t0: real)
    requires LoggedBy(log, b.lastUpdate) && Paid(c, b, log, t0)
    ensures Paid(c, b.(tokens := b.tokens - need as real), log + [Grant(b.lastUpdate, need)], t0)
  {
    if t0 <= b.lastUpdate {
      GrantAdds(log, b.lastUpdate, need, t0, b.lastUpdate);
    }
  }

  lemma GrantAllBounded(c: Config, b: Bucket, log: seq<Grant>, need: nat, t0: real)
    requires c.Valid() && Inv(c, b, log, t0) && b.tokens >= need as real - EPSILON
    ensures Bounded(c, log + [Grant(b.lastUpdate, need)], t0)
  {
    var log' := log + [Grant(b.lastUpdate, need)];
    forall t1 | t0 <= t1
      ensures GrantedIn(log', t0, t1) as real <= c.capacity as real + c.rate * (t1 - t0) + EPSILON
    {
      if t0 <= b.lastUpdate <= t1 {
        GrantBounded(c, b, log, need, t0, t1);
      } else {
        GrantAdds(log, b.lastUpdate, need, t0, t1);
        BoundedAt(c, log, t0, t1);
      }
    }
  }

  lemma BoundedAt(c: Config, log: seq<Grant>, t0: real, t1: real)
    requires Bounded(c, log, t0) && t0 <= t1
    ensures GrantedIn(log, t0, t1) as real <= c.capacity as real + c.rate * (t1 - t0) + EPSILON
  {}

  lemma GrantKeeps(c: Config, b: Bucket, log: seq<Grant>, need: nat, t0: real)
    requires c.Valid() && Inv(c, b, log, t0) && b.tokens >= need as real - EPSILON
    ensures Inv(c, b.(tokens := b.tokens - need as real), log + [Grant(b.lastUpdate, need)], t0)
  {
    GrantPaid(c, b, log, need, t0);
    GrantAllBounded(c, b, log, need, t0);
  }

  lemma StepKeeps(c: Config, s: State, e: Event, t0: real)
    requires c.Valid() && Inv(c, s.bucket, s.log, t0) && Enabled(s, e)
    ensures Inv(c, Step(c, s, e).0.bucket, Step(c, s, e).0.log, t0)
  {
    if !e.Cancel? {
      RefillKeeps(c, s.bucket, s.log, e.now, t0);
      var b := Refill(c, s.bucket, e.now);
      var need := if e.Begin? then e.need else s.sleepers[e.caller].need;
      if b.tokens >= need as real - EPSILON {
        GrantKeeps(c, b, s.log, need, t0);
      }
    }
  }

  lemma {:induction false} RunKeeps(c: Config, s: State, es: seq<Event>, t0: real)
    requires c.Valid() && Inv(c, s.bucket, s.log, t0) && Legal(c, s, es)
    ensures Inv(c, Run(c, s, es).bucket, Run(c, s, es).log, t0)
    decreases |es|
  {
    if es != [] {
      StepKeeps(c, s, es[0], t0);
      RunKeeps(c, Step(c, s, es[0]).0, es[1..], t0);
    }
  }

  lemma StartInv(c: Config, start: real, t0: real)
    requires c.Valid()
    ensures Inv(c, Start(c, start).bucket, [], t0)
  {
    forall t | t0 <= t
      ensures GrantedIn([], t0, t) as real <= c.capacity as real + c.rate * (t - t0) + EPSILON
    {
      MulStep(c.rate, t0, t0, t);
    }
    if t0 <= start {
      MulStep(c.rate, t0, t0, start);
    }
  }

  /**
   In every run, however the callers interleave, the bucket stays in range and no interval sees more
   than a full bucket, the refill of that interval, and EPSILON.
   */
  lemma RateBound(c: Config, start: real, es: seq<Event>, t0: real, t1: real)
    requires c.Valid() && Legal(c, Start(c, start), es) && t0 <= t1
    ensures
      var s := Run(c, Start(c, start), es);
      && -EPSILON <= s.bucket.tokens <= c.capacity as real
      && GrantedIn(s.log, t0, t1) as real <= c.capacity as real + c.rate * (t1 - t0) + EPSILON
  {
    StartInv(c, start, t0);
    RunKeeps(c, Start(c, start), es, t0);
    var s := Run(c, Start(c, start), es);
    BoundedAt(c, s.log, t0, t1);
  }

  // ---------------------------------------------------------------------------------------------
  // What each caller is told, and where the tokens go

  /** What the bucket holds at `now`, before anything is taken out; the capacity cuts off the rest. */
  ghost function Available(c: Config, b: Bucket, now: real): real {
    var filled := b.tokens + (now - b.lastUpdate) * c.rate;
    if filled <= c.capacity as real then filled else c.capacity as real
  }

  /** `pause` is `exact` cut to whole milliseconds. */
  ghost predicate WholeMilliseconds(pause: real, exact: real) {
    pause <= exact < pause + 0.001 && (pause * 1000.0).Floor as real == pause * 1000.0
  }

  /**
   A first attempt is granted exactly if the tokens are there.  Otherwise a caller that may wait is refused only if
   there is a limit and the tokens would take longer than it to come in; else it sleeps until they are there, to the
   millisecond and never beyond the limit.
   */
  ghost predicate LawfulFirst(c: Config, have: real, need: nat, wait: bool, now: real, r: Outcome)
    requires c.rate > 0.0
  {
    var exact := (need as real - have) / c.rate;
    && (r.Granted? <==> have >= need as real)
    && (r.Refused? ==> r.available == have && (wait ==> 0.0 < c.maxWait < exact))
    && (r.Asleep? ==> wait && WholeMilliseconds(r.wakeAt - now, exact) && (c.maxWait > 0.0 ==> r.wakeAt - now <= c.maxWait))
  }

  /** The step from `s` to `s'` answers `r`: nothing but a grant takes tokens, and it takes exactly what it grants. */
  ghost predicate LawfulStep(c: Config, s: State, e: Event, s': State, r: Outcome)
    requires c.rate > 0.0 && Enabled(s, e)
  {
    if e.Cancel? then s' == s.(sleepers := s.sleepers - {e.caller}) && r.Refused?
    else
      var have := Available(c, s.bucket, e.now);
      var need := if e.Begin? then e.need else s.sleepers[e.caller].need;
      && s'.bucket == Bucket(have - (if r.Granted? then need as real else 0.0), e.now)
      && s'.log == s.log + (if r.Granted? then [Grant(e.now, need)] else [])
      && (e.Begin? ==>
           && LawfulFirst(c, have, need, e.wait, e.now, r)
           && s'.sleepers == if r.Asleep? then s.sleepers[e.caller := Sleeper(need, r.wakeAt)] else s.sleepers)
      && (e.Wake? ==>
           && (r.Granted? <==> have >= need as real - EPSILON)
           && (!r.Granted? ==> r == Refused(have))
           && s'.sleepers == s.sleepers - {e.caller})
  }

  lemma WaitIsCut(c: Config, deficit: real)
    requires c.rate > 0.0
    ensures WholeMilliseconds(WaitTime(c, deficit), deficit / c.rate)
  {
    var ms := (deficit / c.rate * 1000.0).Floor;
    assert ms as real / 1000.0 * 1000.0 == ms as real;
  }

  lemma RefillIs(c: Config, b: Bucket, now: real)
    ensures Refill(c, b, now) == Bucket(Available(c, b, now), now)
  {
  }

  lemma FirstLawful(c: Config, b: Bucket, need: nat, wait: bool, now: real)
    requires c.rate > 0.0
    ensures
      var (b', r) := FirstAttempt(c, b, need, wait, now);
      var have := Available(c, b, now);
      b' == Bucket(have - (if r.Granted? then need as real else 0.0), now) && LawfulFirst(c, have, need, wait, now, r)
  {
    RefillIs(c, b, now);
    WaitIsCut(c, need as real - Available(c, b, now));
  }

  /** Every step of every caller, in whatever state the others have left the limiter. */
  lemma StepLawful(c: Config, s: State, e: Event)
    requires c.rate > 0.0 && Enabled(s, e)
    ensures LawfulStep(c, s, e, Step(c, s, e).0, Step(c, s, e).1)
  {
    if e.Begin? {
      FirstLawful(c, s.bucket, e.need, e.wait, e.now);
    }
  }

  /** All tokens ever granted. */
  ghost function Poured(log: seq<Grant>): nat {
    if log == [] then 0 else Poured(log[..|log| - 1]) + log[|log| - 1].amount
  }

  /** What the capacity cuts off when the step refills the bucket. */
  ghost function Overflow(c: Config, s: State, e: Event): (r: real)
    ensures r >= 0.0
  {
    if e.Cancel? then 0.0
    else
      var filled := s.bucket.tokens + (e.now - s.bucket.lastUpdate) * c.rate;
      if filled <= c.capacity as real then 0.0 else filled - c.capacity as real
  }

  ghost function Spilled(c: Config, s: State, es: seq<Event>): (r: real)
    requires c.rate > 0.0 && Legal(c, s, es)
    ensures r >= 0.0
    decreases |es|
  {
    if es == [] then 0.0 else Overflow(c, s, es[0]) + Spilled(c, Step(c, s, es[0]).0, es[1..])
  }

  /** From `s` to `s'`, what is in the bucket and what was granted grew by the refill, less what was spilled. */
  ghost predicate Conserved(c: Config, s: State, s': State, spilled: real) {
    s'.bucket.tokens + Poured(s'.log) as real ==
      s.bucket.tokens + Poured(s.log) as real + (s'.bucket.lastUpdate - s.bucket.lastUpdate) * c.rate - spilled
  }

  lemma PouredOn(log: seq<Grant>, g: Grant)
    ensures Poured(log + [g]) == Poured(log) + g.amount
  {
    assert (log + [g])[..|log|] == log;
  }

  /** A visit at `now` that took `amount` tokens out. */
  lemma VisitConserves(c: Config, s: State, s': State, now: real, amount: nat, over: real)
    requires s'.bucket == Bucket(Available(c, s.bucket, now) - amount as real, now)
    requires Poured(s'.log) == Poured(s.log) + amount
    requires over == s.bucket.tokens + (now - s.bucket.lastUpdate) * c.rate - Available(c, s.bucket, now)
    ensures Conserved(c, s, s', over)
  {
  }

  /** The step takes what it grants out of what was available, and logs it. */
  lemma StepTakes(c: Config, s: State, e: Event) returns (amount: nat)
    requires c.rate > 0.0 && Enabled(s, e) && !e.Cancel?
    ensures
      var s' := Step(c, s, e).0;
      && s'.bucket == Bucket(Available(c, s.bucket, e.now) - amount as real, e.now)
      && Poured(s'.log) == Poured(s.log) + amount
  {
    StepLawful(c, s, e);
    var need := if e.Begin? then e.need else s.sleepers[e.caller].need;
    PouredOn(s.log, Grant(e.now, need));
    assert s.log + [] == s.log;
    amount := if Step(c, s, e).1.Granted? then need else 0;
  }

  lemma OverflowIs(c: Config, s: State, e: Event)
    requires !e.Cancel?
    ensures Overflow(c, s, e) == s.bucket.tokens + (e.now - s.bucket.lastUpdate) * c.rate - Available(c, s.bucket, e.now)
  {
  }

  lemma CancelConserves(c: Config, s: State, s': State)
    requires s'.bucket == s.bucket && s'.log == s.log
    ensures Conserved(c, s, s', 0.0)
  {
    assert (s.bucket.lastUpdate - s.bucket.lastUpdate) * c.rate == 0.0;
  }

  lemma StepConserves(c: Config, s: State, e: Event)
    requires c.rate > 0.0 && Enabled(s, e)
    ensures Conserved(c, s, Step(c, s, e).0, Overflow(c, s, e))
  {
    if e.Cancel? {
      CancelConserves(c, s, Step(c, s, e).0);
    } else {
      var amount := StepTakes(c, s, e);
      OverflowIs(c, s, e);
      VisitConserves(c, s, Step(c, s, e).0, e.now, amount, Overflow(c, s, e));
    }
  }

  lemma ConservedOn(c: Config, s: State, s1: State, s2: State, x: real, y: real)
    requires Conserved(c, s, s1, x) && Conserved(c, s1, s2, y)
    ensures Conserved(c, s, s2, x + y)
  {
    var a, b, d := s.bucket.lastUpdate, s1.bucket.lastUpdate, s2.bucket.lastUpdate;
    assert (d - a) * c.rate == (b - a) * c.rate + (d - b) * c.rate;
  }

  /** In every run, tokens come from the passing time alone and go to grants, or over the brim, alone. */
  lemma {:induction false} RunConserves(c: Config, s: State, es: seq<Event>)
    requires c.rate > 0.0 && Legal(c, s, es)
    ensures Conserved(c, s, Run(c, s, es), Spilled(c, s, es))
    decreases |es|
  {
    if es != [] {
      var s1 := Step(c, s, es[0]).0;
      StepConserves(c, s, es[0]);
      RunConserves(c, s1, es[1..]);
      ConservedOn(c, s, s1, Run(c, s1, es[1..]), Overflow(c, s, es[0]), Spilled(c, s1, es[1..]));
    }
  }

  // ---------------------------------------------------------------------------------------------
  // A caller that sleeps while nobody else is granted anything

  ghost predicate NoGrant(answers: seq<Outcome>) {
    forall i :: 0 <= i < |answers| ==> !answers[i].Granted?
  }

  /**
   From `s`, `caller` asks for `need` tokens at time `t` and has to sleep; while it sleeps the events
   `mid` of other callers grant nothing; then it wakes at `now`.
   */
  ghost predicate LoneWait(c: Config, s: State, need: nat, caller: Caller, t: real, mid: seq<Event>, now: real)
    requires c.rate > 0.0
  {
    && Enabled(s, Begin(caller, need, true, t))
    && var (s1, r) := Step(c, s, Begin(caller, need, true, t));
    && r.Asleep?
    && Legal(c, s1, mid)
    && (forall i :: 0 <= i < |mid| ==> mid[i].caller != caller)
    && NoGrant(Answers(c, s1, mid))
    && Enabled(Run(c, s1, mid), Wake(caller, now))
  }

  /** What the lone waiter is told when it wakes. */
  ghost function LoneAnswer(c: Config, s: State, need: nat, caller: Caller, t: real, mid: seq<Event>, now: real): Outcome
    requires c.rate > 0.0 && LoneWait(c, s, need, caller, t, mid, now)
  {
    Step(c, Run(c, Step(c, s, Begin(caller, need, true, t)).0, mid), Wake(caller, now)).1
  }

  /** Since time `t`, when it held `tokens`, the bucket has lost nothing but what the capacity cuts off. */
  ghost predicate Keeping(c: Config, b: Bucket, tokens: real, t: real) {
    b.tokens >= c.capacity as real || b.tokens >= tokens + (b.lastUpdate - t) * c.rate
  }

  lemma RefillKeeping(c: Config, b: Bucket, tokens: real, t: real, now: real)
    requires c.rate > 0.0 && Keeping(c, b, tokens, t) && b.lastUpdate <= now
    ensures Keeping(c, Refill(c, b, now), tokens, t)
  {
    assert (now - t) * c.rate == (b.lastUpdate - t) * c.rate + (now - b.lastUpdate) * c.rate;
    assert (now - b.lastUpdate) * c.rate >= 0.0;
  }

  lemma {:induction false} RunKeeping(c: Config, s: State, es: seq<Event>, tokens: real, t: real, caller: Caller)
    requires c.rate > 0.0 && Legal(c, s, es) && NoGrant(Answers(c, s, es)) && Keeping(c, s.bucket, tokens, t)
    requires forall i :: 0 <= i < |es| ==> es[i].caller != caller
    requires caller in s.sleepers
    ensures Keeping(c, Run(c, s, es).bucket, tokens, t)
    ensures caller in Run(c, s, es).sleepers && Run(c, s, es).sleepers[caller] == s.sleepers[caller]
    decreases |es|
  {
    if es != [] {
      var s' := Step(c, s, es[0]).0;
      assert !Answers(c, s, es)[0].Granted?;
      assert Answers(c, s, es)[1..] == Answers(c, s', es[1..]);
      if !es[0].Cancel? {
        RefillKeeping(c, s.bucket, tokens, t, es[0].now);
      }
      RunKeeping(c, s', es[1..], tokens, t, caller);
    }
  }

  lemma Quotient(a: real, b: real, k: real)
    requires b > 0.0
    ensures a / b * b == a
    ensures a < k * b ==> a / b < k
    ensures 0.0 <= a ==> 0.0 <= a / b
  {
    var q := a / b;
    assert q * b == a;
    assert (q - k) * b == a - k * b;
  }

  lemma LateBy(elapsed: real, exact: real, rate: real)
    requires 0.0 < rate <= 10.0 && elapsed >= exact - 0.001
    ensures elapsed * rate >= exact * rate - EPSILON
  {
    var slack := elapsed - exact + 0.001;
    assert slack * rate >= 0.0;
    assert slack * rate == elapsed * rate - exact * rate + 0.001 * rate;
  }

  /** Rounding the sleep down to a millisecond costs less than a thousandth of the rate. */
  lemma SleepEarns(c: Config, deficit: real, elapsed: real)
    requires 0.0 < c.rate <= 10.0 && elapsed >= WaitTime(c, deficit)
    ensures elapsed * c.rate >= deficit - EPSILON
  {
    Quotient(deficit, c.rate, 0.0);
    LateBy(elapsed, deficit / c.rate, c.rate);
  }

  lemma SecondServed(c: Config, b: Bucket, tokens: real, need: nat, t: real, now: real)
    requires c.Valid() && c.rate <= 10.0 && need <= c.capacity
    requires Keeping(c, b, tokens, t) && b.lastUpdate <= now && now - t >= WaitTime(c, need as real - tokens)
    ensures SecondAttempt(c, b, need, now).1.Granted?
  {
    RefillKeeping(c, b, tokens, t, now);
    SleepEarns(c, need as real - tokens, now - t);
  }

  lemma LoneWaiterServed(c: Config, s: State, need: nat, caller: Caller, t: real, mid: seq<Event>, now: real)
    requires c.Valid() && c.rate <= 10.0 && need <= c.capacity
    requires LoneWait(c, s, need, caller, t, mid, now)
    ensures LoneAnswer(c, s, need, caller, t, mid, now).Granted?
  {
    var (s1, r) := Step(c, s, Begin(caller, need, true, t));
    var tokens := s1.bucket.tokens;
    RunKeeping(c, s1, mid, tokens, t, caller);
    SecondServed(c, Run(c, s1, mid).bucket, tokens, need, t, now);
  }

  // For a rate above 10 the guarantee fails: a shortfall between EPSILON and rate / 1000 rounds to no
  // sleep at all.

  lemma OneTimeMore(k: nat, need: nat)
    requires k > 0
    ensures k * need == (k - 1) * need + need && (k - 1) * need >= 0
  {
  }

  lemma ServedAtOnce(c: Config, s: State, left: nat, need: nat)
    requires c.Valid() && s.sleepers == map[] && s.bucket == Bucket(left as real, 0.0) && need <= left <= c.capacity
    ensures
      var s' := Step(c, s, Begin(0, need, true, 0.0)).0;
      s'.sleepers == map[] && s'.bucket == Bucket((left - need) as real, 0.0)
  {
    assert (0.0 - 0.0) * c.rate == 0.0;
    assert Refill(c, s.bucket, 0.0) == s.bucket;
  }

  /** The bucket can be drained to any remainder by requests that are served at once. */
  lemma {:induction false} Drain(c: Config, s: State, left: nat, k: nat) returns (es: seq<Event>)
    requires c.Valid() && s.sleepers == map[] && s.bucket == Bucket(left as real, 0.0)
    requires k * c.tokensPerRequest <= left <= c.capacity
    ensures Legal(c, s, es)
    ensures Run(c, s, es).sleepers == map[]
    ensures Run(c, s, es).bucket == Bucket((left - k * c.tokensPerRequest) as real, 0.0)
    decreases k
  {
    if k == 0 {
      return [];
    }
    var need := c.tokensPerRequest;
    var e := Begin(0, need, true, 0.0);
    OneTimeMore(k, need);
    ServedAtOnce(c, s, left, need);
    var s' := Step(c, s, e).0;
    var rest := Drain(c, s', left - need, k - 1);
    es := [e] + rest;
    assert es[1..] == rest;
  }

  /** A shortfall that the sleep rounds away but the second attempt does not forgive. */
  function Shortfall(c: Config): (d: real)
    requires c.rate > 10.0
    ensures EPSILON < d < 1.0 && d < c.rate / 1000.0
  {
    if c.rate >= 100.0 then 0.05 else (EPSILON + c.rate / 1000.0) / 2.0
  }

  lemma ShortfallSleepsNotAtAll(c: Config)
    requires c.rate > 10.0
    ensures WaitTime(c, Shortfall(c)) == 0.0
  {
    Quotient(Shortfall(c), c.rate, 0.001);
  }

  /** From `left` tokens at time 0, the time at which exactly the shortfall is missing. */
  lemma MissingAt(c: Config, left: nat) returns (t: real)
    requires c.Valid() && c.rate > 10.0 && left < c.tokensPerRequest
    ensures t >= 0.0
    ensures Refill(c, Bucket(left as real, 0.0), t) == Bucket(c.tokensPerRequest as real - Shortfall(c), t)
  {
    var missing := c.tokensPerRequest as real - Shortfall(c) - left as real;
    t := missing / c.rate;
    Quotient(missing, c.rate, 0.0);
    assert (t - 0.0) * c.rate == missing;
  }

  lemma AttemptsMiss(c: Config, b: Bucket, t: real)
    requires c.Valid() && c.rate > 10.0
    requires Refill(c, b, t) == Bucket(c.tokensPerRequest as real - Shortfall(c), t)
    ensures FirstAttempt(c, b, c.tokensPerRequest, true, t) == (Refill(c, b, t), Asleep(t))
    ensures SecondAttempt(c, Refill(c, b, t), c.tokensPerRequest, t).1.Refused?
  {
    ShortfallSleepsNotAtAll(c);
    assert c.tokensPerRequest as real - (c.tokensPerRequest as real - Shortfall(c)) == Shortfall(c);
    var b' := Refill(c, b, t);
    assert (t - t) * c.rate == 0.0;
    assert Refill(c, b', t) == b';
  }

  lemma LoneWaiterRefused(c: Config) returns (es: seq<Event>, t: real)
    requires c.Valid() && c.rate > 10.0
    ensures Legal(c, Start(c, 0.0), es)
    ensures LoneWait(c, Run(c, Start(c, 0.0), es), c.tokensPerRequest, 1, t, [], t)
    ensures LoneAnswer(c, Run(c, Start(c, 0.0), es), c.tokensPerRequest, 1, t, [], t).Refused?
  {
    var need := c.tokensPerRequest;
    var left := c.capacity % need;
    assert c.capacity == (c.capacity / need) * need + left;
    es := Drain(c, Start(c, 0.0), c.capacity, c.capacity / need);
    var s := Run(c, Start(c, 0.0), es);
    t := MissingAt(c, left);
    AttemptsMiss(c, s.bucket, t);
    ShowRefusal(c, s, t);
  }

  lemma ShowRefusal(c: Config, s: State, t: real)
    requires c.Valid() && s.sleepers == map[] && s.bucket.lastUpdate <= t
    requires FirstAttempt(c, s.bucket, c.tokensPerRequest, true, t) == (Refill(c, s.bucket, t), Asleep(t))
    requires SecondAttempt(c, Refill(c, s.bucket, t), c.tokensPerRequest, t).1.Refused?
    ensures LoneWait(c, s, c.tokensPerRequest, 1, t, [], t)
    ensures LoneAnswer(c, s, c.tokensPerRequest, 1, t, [], t).Refused?
  {
    var s1 := Step(c, s, Begin(1, c.tokensPerRequest, true, t)).0;
    assert s1.bucket.lastUpdate == t && s1.sleepers == map[1 := Sleeper(c.tokensPerRequest, t)];
    assert Legal(c, s1, []) && Run(c, s1, []) == s1;
  }

  /** Every lone waiter, in every run, is served when it wakes. */
  ghost predicate LoneWaitersServed(c: Config)
    requires c.rate > 0.0
  {
    forall start, es, caller, t, mid, now |
      && Legal(c, Start(c, start), es)
      && c.tokensPerRequest >= 0
      && LoneWait(c, Run(c, Start(c, start), es), c.tokensPerRequest, caller, t, mid, now) ::
      LoneAnswer(c, Run(c, Start(c, start), es), c.tokensPerRequest, caller, t, mid, now).Granted?
  }

  /** The second attempt "should not" fail, says the source: that is so exactly for rates up to 10. */
  lemma LoneWaitersServedIff(c: Config)
    requires c.Valid()
    ensures LoneWaitersServed(c) <==> c.rate <= 10.0
  {
    if c.rate <= 10.0 {
      forall start, es, caller, t, mid, now |
        && Legal(c, Start(c, start), es)
        && LoneWait(c, Run(c, Start(c, start), es), c.tokensPerRequest, caller, t, mid, now)
        ensures LoneAnswer(c, Run(c, Start(c, start), es), c.tokensPerRequest, caller, t, mid, now).Granted?
      {
        LoneWaiterServed(c, Run(c, Start(c, start), es), c.tokensPerRequest, caller, t, mid, now);
      }
    } else {
      var es, t := LoneWaiterRefused(c);
    }
  }
}
