/**
 The circuit breaker of middleware/circuit_breaker.go.

 A request takes the mutex twice: once to be admitted or rejected, once to report its outcome.  In
 between the agent runs outside the mutex, so a completion may land in any state, long after the
 circuit has changed.  Times are in seconds.
 */
module CircuitBreaker {
  import opened Common

  datatype Config = Config(failureThreshold: int, recoveryTimeout: real, successThreshold: int, timeout: real) {
    ghost predicate Valid() {
      failureThreshold >= 1 && recoveryTimeout > 0.0 && successThreshold >= 1 && timeout > 0.0
    }
  }

  const DEFAULTS := Config(5, 60.0, 2, 30.0)

  /** The defaults that the constructor applies: what is given and usable stays, field by field. */
  function Normalize(c: Config): (r: Config)
    ensures r.Valid()
    ensures c.Valid() ==> r == c
    ensures c.failureThreshold > 0 ==> r.failureThreshold == c.failureThreshold
    ensures c.recoveryTimeout > 0.0 ==> r.recoveryTimeout == c.recoveryTimeout
    ensures c.successThreshold > 0 ==> r.successThreshold == c.successThreshold
    ensures c.timeout > 0.0 ==> r.timeout == c.timeout
    ensures
      c.failureThreshold <= 0 && c.recoveryTimeout <= 0.0 && c.successThreshold <= 0 && c.timeout <= 0.0 ==> r == DEFAULTS
  {
    Config(
      if c.failureThreshold <= 0 then 5 else c.failureThreshold,
      if c.recoveryTimeout <= 0.0 then 60.0 else c.recoveryTimeout,
      if c.successThreshold <= 0 then 2 else c.successThreshold,
      if c.timeout <= 0.0 then 30.0 else c.timeout)
  }

  datatype Circuit = Closed | Open | HalfOpen

  /** The fields that decide what the circuit does next. */
  datatype Core = Core(circuit: Circuit, failureCount: nat, successCount: nat, lastFailure: Option<real>)

  /** The request counters of the metrics. */
  datatype Tally = Tally(total: nat, successful: nat, failed: nat, rejected: nat)

  type Changes = map<(Circuit, Circuit), nat>

  datatype Breaker = Breaker(core: Core, tally: Tally, changes: Changes)

  function Count(changes: Changes, from: Circuit, to: Circuit): nat {
    if (from, to) in changes then changes[(from, to)] else 0
  }

  /** What the metrics record when the circuit goes from one state to another. */
  function Record(changes: Changes, from: Circuit, to: Circuit): Changes {
    if from == to then changes else changes[(from, to) := Count(changes, from, to) + 1]
  }

  predicate ShouldAttemptReset(c: Config, core: Core, now: real) {
    core.lastFailure.Some? && now - core.lastFailure.value >= c.recoveryTimeout
  }

  predicate Admits(c: Config, core: Core, now: real) {
    core.circuit == Open ==> ShouldAttemptReset(c, core, now)
  }

  function CoreArrive(c: Config, core: Core, now: real): Core {
    if core.circuit == Open && ShouldAttemptReset(c, core, now)
    then core.(circuit := HalfOpen, successCount := 0) else core
  }

  function CoreSuccess(c: Config, core: Core): Core {
    match core.circuit
    case HalfOpen =>
      if core.successCount + 1 >= c.successThreshold then core.(circuit := Closed, failureCount := 0, successCount := 0)
      else core.(successCount := core.successCount + 1)
    case Closed => core.(failureCount := 0)
    case Open => core
  }

  function CoreFailure(c: Config, core: Core, now: real): Core {
    var core := core.(failureCount := core.failureCount + 1, lastFailure := Some(now));
    match core.circuit
    case HalfOpen => core.(circuit := Open, successCount := 0)
    case Closed => if core.failureCount >= c.failureThreshold then core.(circuit := Open) else core
    case Open => core
  }

  function Moved(b: Breaker, core: Core, tally: Tally): Breaker {
    Breaker(core, tally, Record(b.changes, b.core.circuit, core.circuit))
  }

  /** The first section under the mutex. */
  function Arrived(c: Config, b: Breaker, now: real): Breaker {
    var t := b.tally.(total := b.tally.total + 1);
    Moved(b, CoreArrive(c, b.core, now), if Admits(c, b.core, now) then t else t.(rejected := t.rejected + 1))
  }

  /** The second section under the mutex, for the two outcomes of the agent. */
  function OnSuccess(c: Config, b: Breaker): Breaker {
    Moved(b, CoreSuccess(c, b.core), b.tally.(successful := b.tally.successful + 1))
  }

  function OnFailure(c: Config, b: Breaker, now: real): Breaker {
    Moved(b, CoreFailure(c, b.core, now), b.tally.(failed := b.tally.failed + 1))
  }

  /** The decorator as an object; each public method is one section under the mutex. */
  class Decorator {
    const config: Config
    var circuit: Circuit
    var failureCount: nat
    var successCount: nat
    var lastFailure: Option<real>
    var total: nat
    var successful: nat
    var failed: nat
    var rejected: nat
    var changes: Changes

    ghost function State(): Breaker
      reads this
    {
      Breaker(Core(circuit, failureCount, successCount, lastFailure), Tally(total, successful, failed, rejected), changes)
    }

    constructor (c: Config)
      ensures config == Normalize(c)
      ensures State() == Fresh()
    {
      config := Normalize(c);
      circuit, failureCount, successCount, lastFailure := Closed, 0, 0, None;
      total, successful, failed, rejected, changes := 0, 0, 0, 0, map[];
    }

    method ChangeCircuit(to: Circuit)
      modifies this
      ensures circuit == to && changes == Record(old(changes), old(circuit), to)
      ensures failureCount == old(failureCount) && successCount == old(successCount) && lastFailure == old(lastFailure)
      ensures State().tally == old(State()).tally
    {
      if circuit != to {
        var from := circuit;
        circuit := to;
        changes := changes[(from, to) := Count(changes, from, to) + 1];
      }
    }

    method BeginRequest(now: real) returns (admitted: bool)
      modifies this
      ensures State() == Arrived(config, old(State()), now)
      ensures admitted == Admits(config, old(State()).core, now)
      ensures admitted <==> circuit != Open
      ensures !admitted <==>
        old(circuit) == Open && (old(lastFailure).None? || now - old(lastFailure).value < config.recoveryTimeout)
      ensures total == old(total) + 1 && rejected == old(rejected) + if admitted then 0 else 1
    {
      total := total + 1;
      if circuit == Open {
        if lastFailure.Some? && now - lastFailure.value >= config.recoveryTimeout {
          ChangeCircuit(HalfOpen);
          successCount := 0;
        } else {
          rejected := rejected + 1;
          return false;
        }
      }
      return true;
    }

    method ReportSuccess()
      modifies this
      ensures State() == OnSuccess(config, old(State()))
    {
      successful := successful + 1;
      match circuit
      case HalfOpen =>
        successCount := successCount + 1;
        if successCount >= config.successThreshold {
          ChangeCircuit(Closed);
          failureCount := 0;
          successCount := 0;
        }
      case Closed =>
        failureCount := 0;
      case Open =>
    }

    method ReportFailure(now: real)
      modifies this
      ensures State() == OnFailure(config, old(State()), now)
    {
      failed := failed + 1;
      failureCount := failureCount + 1;
      lastFailure := Some(now);
      match circuit
      case HalfOpen =>
        ChangeCircuit(Open);
        successCount := 0;
      case Closed =>
        if failureCount >= config.failureThreshold {
          ChangeCircuit(Open);
        }
      case Open =>
    }
  }

  function Fresh(): Breaker {
    Breaker(Core(Closed, 0, 0, None), Tally(0, 0, 0, 0), map[])
  }

  // ---------------------------------------------------------------------------------------------
  // Runs of interleaved requests

  datatype Completion = Completion(ok: bool, time: real)

  /**
   The breaker, the number of requests at the agent, every completion reported so far, and how many of them there
   were when the circuit last became half-open.
   */
  datatype State = State(breaker: Breaker, inFlight: nat, history: seq<Completion>, halfOpenAt: nat, clock: real)

  datatype Event = Arrive(now: real) | Complete(ok: bool, now: real)

  predicate Enabled(s: State, e: Event) {
    s.clock <= e.now && (e.Complete? ==> s.inFlight > 0)
  }

  function Step(c: Config, s: State, e: Event): State
    requires Enabled(s, e)
  {
    match e
    case Arrive(now) =>
      State(
        Arrived(c, s.breaker, now),
        if Admits(c, s.breaker.core, now) then s.inFlight + 1 else s.inFlight,
        s.history,
        if s.breaker.core.circuit == Open && Admits(c, s.breaker.core, now) then |s.history| else s.halfOpenAt,
        now)
    case Complete(ok, now) =>
      var b := if ok then OnSuccess(c, s.breaker) else OnFailure(c, s.breaker, now);
      State(b, s.inFlight - 1, s.history + [Completion(ok, now)], s.halfOpenAt, now)
  }

  function Start(now: real): State {
    State(Fresh(), 0, [], 0, now)
  }

  ghost predicate Legal(c: Config, s: State, es: seq<Event>)
    decreases |es|
  {
    es == [] || (Enabled(s, es[0]) && Legal(c, Step(c, s, es[0]), es[1..]))
  }

  ghost function Run(c: Config, s: State, es: seq<Event>): State
    requires Legal(c, s, es)
    decreases |es|
  {
    if es == [] then s else Run(c, Step(c, s, es[0]), es[1..])
  }

  // ---------------------------------------------------------------------------------------------
  // What every run keeps

  /** How many completions at the end of the history have the given outcome without a break. */
  function Streak(h: seq<Completion>, ok: bool): nat {
    if h != [] && h[|h| - 1].ok == ok then Streak(h[..|h| - 1], ok) + 1 else 0
  }

  /** When the latest failure was reported. */
  function LatestFailure(h: seq<Completion>): Option<real> {
    if h == [] then None
    else if !h[|h| - 1].ok then Some(h[|h| - 1].time)
    else LatestFailure(h[..|h| - 1])
  }

  function Occurrences(h: seq<Completion>, ok: bool): nat {
    if h == [] then 0 else Occurrences(h[..|h| - 1], ok) + if h[|h| - 1].ok == ok then 1 else 0
  }

  ghost predicate Counters(c: Config, core: Core, h: seq<Completion>, halfOpenAt: nat) {
    && (core.circuit == Closed ==> core.failureCount < c.failureThreshold && core.failureCount == Streak(h, false))
    && (core.circuit == HalfOpen ==>
         && core.successCount < c.successThreshold
         && halfOpenAt + core.successCount == |h| && LastAll(h, core.successCount, true))
    && (core.circuit != HalfOpen ==> core.successCount == 0)
    && (core.circuit != Closed ==> core.lastFailure.Some?)
    && core.lastFailure == LatestFailure(h)
  }

  /** Every request is accounted for exactly once. */
  ghost predicate Ledger(t: Tally, inFlight: nat, h: seq<Completion>) {
    && t.total == t.successful + t.failed + t.rejected + inFlight
    && t.successful == Occurrences(h, true)
    && t.failed == Occurrences(h, false)
  }

  /** The recorded transitions form a walk from Closed to `at` along the documented edges. */
  ghost predicate Walk(n: Changes, at: Circuit) {
    && Count(n, Closed, HalfOpen) == 0
    && Count(n, Open, Closed) == 0
    && Count(n, HalfOpen, Closed) + (if at == Closed then 0 else 1) == Count(n, Closed, Open)
    && Count(n, Closed, Open) + Count(n, HalfOpen, Open) == Count(n, Open, HalfOpen) + (if at == Open then 1 else 0)
    && Count(n, Open, HalfOpen) == Count(n, HalfOpen, Open) + Count(n, HalfOpen, Closed) + (if at == HalfOpen then 1 else 0)
  }

  ghost predicate Inv(c: Config, s: State) {
    && Counters(c, s.breaker.core, s.history, s.halfOpenAt)
    && Ledger(s.breaker.tally, s.inFlight, s.history)
    && Walk(s.breaker.changes, s.breaker.core.circuit)
  }

  /** The history functions follow the completion just reported. */
  lemma {:induction false} Reported(h: seq<Completion>, k: Completion)
    ensures Streak(h + [k], k.ok) == Streak(h, k.ok) + 1
    ensures Streak(h + [k], !k.ok) == 0
    ensures LatestFailure(h + [k]) == if k.ok then LatestFailure(h) else Some(k.time)
    ensures Occurrences(h + [k], k.ok) == Occurrences(h, k.ok) + 1
    ensures Occurrences(h + [k], !k.ok) == Occurrences(h, !k.ok)
  {
    assert (h + [k])[..|h + [k]| - 1] == h;
  }

  lemma {:induction false} SuccessCounters(c: Config, core: Core, h: seq<Completion>, halfOpenAt: nat, k: Completion)
    requires c.Valid() && Counters(c, core, h, halfOpenAt) && k.ok
    ensures Counters(c, CoreSuccess(c, core), h + [k], halfOpenAt)
  {
    Reported(h, k);
  }

  lemma {:induction false} FailureCounters(c: Config, core: Core, h: seq<Completion>, halfOpenAt: nat, k: Completion)
    requires c.Valid() && Counters(c, core, h, halfOpenAt) && !k.ok
    ensures Counters(c, CoreFailure(c, core, k.time), h + [k], halfOpenAt)
  {
    Reported(h, k);
  }

  lemma {:induction false} CountersKept(c: Config, s: State, e: Event)
    requires c.Valid() && Counters(c, s.breaker.core, s.history, s.halfOpenAt) && Enabled(s, e)
    ensures Counters(c, Step(c, s, e).breaker.core, Step(c, s, e).history, Step(c, s, e).halfOpenAt)
  {
    if e.Complete? {
      var k := Completion(e.ok, e.now);
      if e.ok {
        SuccessCounters(c, s.breaker.core, s.history, s.halfOpenAt, k);
      } else {
        FailureCounters(c, s.breaker.core, s.history, s.halfOpenAt, k);
      }
    }
  }

  lemma {:induction false} LedgerKept(c: Config, s: State, e: Event)
    requires Ledger(s.breaker.tally, s.inFlight, s.history) && Enabled(s, e)
    ensures Ledger(Step(c, s, e).breaker.tally, Step(c, s, e).inFlight, Step(c, s, e).history)
  {
    if e.Complete? {
      Reported(s.history, Completion(e.ok, e.now));
    }
  }

  /** The changes of the circuit along a step are edges of the walk. */
  lemma StepWalks(c: Config, s: State, e: Event)
    requires Enabled(s, e)
    ensures Step(c, s, e).breaker.changes ==
      Record(s.breaker.changes, s.breaker.core.circuit, Step(c, s, e).breaker.core.circuit)
    ensures (s.breaker.core.circuit, Step(c, s, e).breaker.core.circuit) !in {(Closed, HalfOpen), (Open, Closed)}
  {
  }

  lemma {:induction false} WalkKept(n: Changes, from: Circuit, to: Circuit)
    requires Walk(n, from)
    requires (from, to) !in {(Closed, HalfOpen), (Open, Closed)}
    ensures Walk(Record(n, from, to), to)
  {}

  lemma {:induction false} StepKeeps(c: Config, s: State, e: Event)
    requires c.Valid() && Inv(c, s) && Enabled(s, e)
    ensures Inv(c, Step(c, s, e))
  {
    CountersKept(c, s, e);
    LedgerKept(c, s, e);
    StepWalks(c, s, e);
    WalkKept(s.breaker.changes, s.breaker.core.circuit, Step(c, s, e).breaker.core.circuit);
  }

  lemma {:induction false} RunKeeps(c: Config, s: State, es: seq<Event>)
    requires c.Valid() && Inv(c, s) && Legal(c, s, es)
    ensures Inv(c, Run(c, s, es))
    decreases |es|
  {
    if es != [] {
      StepKeeps(c, s, es[0]);
      RunKeeps(c, Step(c, s, es[0]), es[1..]);
    }
  }

  lemma StartCounters(c: Config)
    requires c.Valid()
    ensures Counters(c, Fresh().core, [], 0)
  {
  }

  lemma StartLedger()
    ensures Ledger(Fresh().tally, 0, [])
  {
  }

  lemma StartWalk()
    ensures Walk(Fresh().changes, Closed)
  {
  }

  lemma {:induction false} StartInv(c: Config, start: real)
    requires c.Valid()
    ensures Inv(c, Start(start))
  {
    StartCounters(c);
    StartLedger();
    StartWalk();
  }

  /**
   In every reachable state: the circuit is closed only while fewer than FailureThreshold failures have
   come in a row, the success count is zero outside HalfOpen, every request is accounted for, and the
   transition counts form a walk.
   */
  lemma {:induction false} Reachable(c: Config, start: real, es: seq<Event>)
    requires c.Valid() && Legal(c, Start(start), es)
    ensures Inv(c, Run(c, Start(start), es))
  {
    StartInv(c, start);
    RunKeeps(c, Start(start), es);
  }

  /** The last `n` completions all had the outcome `ok`. */
  ghost predicate LastAll(h: seq<Completion>, n: int, ok: bool) {
    0 <= n <= |h| && forall i :: |h| - n <= i < |h| ==> h[i].ok == ok
  }

  lemma {:induction false} StreakMeans(h: seq<Completion>, ok: bool, n: nat)
    ensures Streak(h, ok) >= n <==> LastAll(h, n, ok)
    decreases n
  {
    if h != [] && n > 0 {
      var front := h[..|h| - 1];
      StreakMeans(front, ok, n - 1);
      assert forall i :: 0 <= i < |front| ==> front[i] == h[i];
      if LastAll(h, n, ok) {
        assert h[|h| - 1].ok == ok;
        assert LastAll(front, n - 1, ok);
      }
    }
  }

  /** The changes of the circuit that a step from `s` to `s'` may make, and exactly when it makes them. */
  ghost predicate LawfulChange(c: Config, s: State, e: Event, s': State) {
    match s.breaker.core.circuit
    case Closed =>
      && s'.breaker.core.circuit != HalfOpen
      && (s'.breaker.core.circuit == Open <==> e.Complete? && LastAll(s'.history, c.failureThreshold, false))
    case HalfOpen =>
      && (s'.breaker.core.circuit == Open <==> e.Complete? && !e.ok)
      && (s'.breaker.core.circuit == Closed <==>
          && e.Complete? && |s'.history| - s.halfOpenAt == c.successThreshold
          && LastAll(s'.history, c.successThreshold, true))
    case Open =>
      && s'.breaker.core.circuit != Closed
      && LatestFailure(s.history).Some?
      && (s'.breaker.core.circuit == HalfOpen <==>
          e.Arrive? && e.now - LatestFailure(s.history).value >= c.recoveryTimeout)
  }

  lemma {:induction false} StepLawful(c: Config, s: State, e: Event)
    requires c.Valid() && Counters(c, s.breaker.core, s.history, s.halfOpenAt) && Enabled(s, e)
    ensures LawfulChange(c, s, e, Step(c, s, e))
  {
    if e.Complete? {
      var k := Completion(e.ok, e.now);
      Reported(s.history, k);
      StreakMeans(s.history + [k], false, c.failureThreshold);
    }
  }

  /**
   Every change of the circuit, in any run and with any number of stale completions still to come, is lawful:
   it opens from Closed exactly when the last FailureThreshold completions have all failed, it closes exactly
   when the completions since it became half-open number SuccessThreshold and all succeeded, it reopens on any
   failure, and it leaves Open exactly for an arrival that comes RecoveryTimeout or more after the latest failure.
   */
  lemma {:induction false} Transitions(c: Config, start: real, es: seq<Event>, e: Event)
    requires c.Valid() && Legal(c, Start(start), es) && Enabled(Run(c, Start(start), es), e)
    ensures LawfulChange(c, Run(c, Start(start), es), e, Step(c, Run(c, Start(start), es), e))
  {
    Reachable(c, start, es);
    StepLawful(c, Run(c, Start(start), es), e);
  }

  /** The recovery timeout is running: the circuit is open and the latest failure is not long enough ago. */
  ghost predicate Recovering(c: Config, s: State, now: real) {
    && s.breaker.core.circuit == Open
    && LatestFailure(s.history).Some? && now - LatestFailure(s.history).value < c.recoveryTimeout
  }

  /** Who gets through to the agent, and how each request is counted. */
  ghost predicate LawfulPassage(c: Config, s: State, e: Event, s': State) {
    var t, t' := s.breaker.tally, s'.breaker.tally;
    match e
    case Arrive(now) =>
      && s'.history == s.history
      && (s'.breaker.core.circuit == Open <==> Recovering(c, s, now))
      && s'.inFlight == s.inFlight + (if Recovering(c, s, now) then 0 else 1)
      && t' == Tally(t.total + 1, t.successful, t.failed, t.rejected + if Recovering(c, s, now) then 1 else 0)
    case Complete(ok, now) =>
      && s'.history == s.history + [Completion(ok, now)]
      && s'.inFlight == s.inFlight - 1
      && t' == Tally(t.total, t.successful + (if ok then 1 else 0), t.failed + (if ok then 0 else 1), t.rejected)
  }

  lemma {:induction false} StepPasses(c: Config, s: State, e: Event)
    requires c.Valid() && Counters(c, s.breaker.core, s.history, s.halfOpenAt) && Enabled(s, e)
    ensures LawfulPassage(c, s, e, Step(c, s, e))
  {
    if e.Arrive? && s.breaker.core.circuit == Open {
      assert LatestFailure(s.history) == s.breaker.core.lastFailure;
    }
  }

  /**
   In any run, an arrival is rejected exactly while the circuit is open and less than RecoveryTimeout has passed since
   the latest failure; every other arrival reaches the agent, and every request is counted once on each way.
   */
  lemma {:induction false} Passage(c: Config, start: real, es: seq<Event>, e: Event)
    requires c.Valid() && Legal(c, Start(start), es) && Enabled(Run(c, Start(start), es), e)
    ensures LawfulPassage(c, Run(c, Start(start), es), e, Step(c, Run(c, Start(start), es), e))
  {
    Reachable(c, start, es);
    StepPasses(c, Run(c, Start(start), es), e);
  }
}
