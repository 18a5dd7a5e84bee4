/**
 The per-user rate limiter of middleware/rate_limiter.go: one token bucket per user, all behind one
 mutex, each created full on the user's first request.
 */
module PerUserLimiter {
  import opened TokenBucket

  type User = string

  /** The limiter as an object; each method is one section under the mutex. */
  class Limiter {
    const config: Config
    var buckets: map<User, Bucket>
    var activeUsers: nat

    constructor (c: Config)
      ensures config == Normalize(c)
      ensures buckets == map[] && activeUsers == 0
    {
      config := Normalize(c);
      buckets, activeUsers := map[], 0;
    }

    method GetUserBucket(user: User, now: real) returns (b: Bucket)
      modifies this
      ensures b == BucketOf(config, old(buckets), user, now)
      ensures buckets == old(buckets)[user := b]
      ensures old(activeUsers) == |old(buckets)| ==> activeUsers == |buckets|
    {
      if user in buckets {
        assert buckets[user := buckets[user]] == buckets;
        return buckets[user];
      }
      b := Bucket(config.capacity as real, now);
      buckets := buckets[user := b];
      activeUsers := |buckets|;
    }

    method TryAcquire(user: User, need: nat, wait: bool, now: real) returns (r: Outcome)
      requires config.Valid()
      modifies this
      ensures
        var (b, o) := FirstAttempt(config, BucketOf(config, old(buckets), user, now), need, wait, now);
        buckets == old(buckets)[user := b] && r == o
      ensures old(activeUsers) == |old(buckets)| ==> activeUsers == |buckets|
    {
      var b := GetUserBucket(user, now);
      b := Refill(config, b, now);
      if b.tokens >= need as real {
        b := b.(tokens := b.tokens - need as real);
        r := Granted;
      } else if !wait {
        r := Refused(b.tokens);
      } else {
        var pause := WaitTime(config, need as real - b.tokens);
        r := if config.maxWait > 0.0 && pause > config.maxWait then Refused(b.tokens) else Asleep(now + pause);
      }
      assert |buckets[user := b]| == |buckets| by { assert buckets[user := b].Keys == buckets.Keys; }
      buckets := buckets[user := b];
    }

    method AcquireAfterWait(user: User, need: nat, now: real) returns (r: Outcome)
      requires user in buckets
      modifies this
      ensures
        var (b, o) := SecondAttempt(config, old(buckets)[user], need, now);
        buckets == old(buckets)[user := b] && r == o
      ensures activeUsers == old(activeUsers)
    {
      var b := Refill(config, buckets[user], now);
      if b.tokens >= need as real - EPSILON {
        b := b.(tokens := b.tokens - need as real);
        r := Granted;
      } else {
        r := Refused(b.tokens);
      }
      buckets := buckets[user := b];
    }
  }

  function BucketOf(c: Config, buckets: map<User, Bucket>, user: User, now: real): Bucket {
    if user in buckets then buckets[user] else Bucket(c.capacity as real, now)
  }

  // ---------------------------------------------------------------------------------------------
  // Interleaved callers of many users

  datatype UserEvent = UserEvent(user: User, event: Event)

  datatype UserSleeper = UserSleeper(user: User, sleeper: Sleeper)

  datatype UserGrant = UserGrant(user: User, grant: Grant)

  datatype Shared = Shared(buckets: map<User, Bucket>, sleepers: map<Caller, UserSleeper>, log: seq<UserGrant>, clock: real)

  function StartAll(now: real): Shared {
    Shared(map[], map[], [], now)
  }

  predicate EnabledFor(s: Shared, e: UserEvent) {
    match e.event
    case Begin(caller, _, _, now) => caller !in s.sleepers && s.clock <= now
    case Wake(caller, now) =>
      caller in s.sleepers && s.sleepers[caller].user == e.user && s.clock <= now && s.sleepers[caller].sleeper.wakeAt <= now
    case Cancel(caller) => caller in s.sleepers && s.sleepers[caller].user == e.user
  }

  ghost predicate WellFormed(s: Shared) {
    && (forall u :: u in s.buckets ==> s.buckets[u].lastUpdate <= s.clock)
    && (forall k :: k in s.sleepers ==> s.sleepers[k].user in s.buckets)
  }

  /** The state after a first attempt of `user` that left bucket `b` and was answered `r`. */
  function AfterBeginFor(s: Shared, user: User, caller: Caller, need: nat, now: real, b: Bucket, r: Outcome): Shared {
    var s' := s.(buckets := s.buckets[user := b], clock := now);
    match r
    case Granted => s'.(log := s.log + [UserGrant(user, Grant(now, need))])
    case Refused(_) => s'
    case Asleep(wakeAt) => s'.(sleepers := s.sleepers[caller := UserSleeper(user, Sleeper(need, wakeAt))])
  }

  function StepAll(c: Config, s: Shared, e: UserEvent): (Shared, Outcome)
    requires c.rate > 0.0 && EnabledFor(s, e) && (e.event.Wake? ==> e.user in s.buckets)
  {
    match e.event
    case Begin(caller, need, wait, now) =>
      var (b, r) := FirstAttempt(c, BucketOf(c, s.buckets, e.user, now), need, wait, now);
      (AfterBeginFor(s, e.user, caller, need, now, b, r), r)
    case Wake(caller, now) =>
      var need := s.sleepers[caller].sleeper.need;
      var (b, r) := SecondAttempt(c, s.buckets[e.user], need, now);
      var log := if r.Granted? then s.log + [UserGrant(e.user, Grant(now, need))] else s.log;
      (Shared(s.buckets[e.user := b], s.sleepers - {caller}, log, now), r)
    case Cancel(caller) =>
      var tokens := if e.user in s.buckets then s.buckets[e.user].tokens else c.capacity as real;
      (s.(sleepers := s.sleepers - {caller}), Refused(tokens))
  }

  ghost predicate LegalAll(c: Config, s: Shared, es: seq<UserEvent>)
    requires c.rate > 0.0 && WellFormed(s)
    decreases |es|
  {
    es == [] || (EnabledFor(s, es[0]) && LegalAll(c, Next(c, s, es[0]), es[1..]))
  }

  ghost function Next(c: Config, s: Shared, e: UserEvent): (s': Shared)
    requires c.rate > 0.0 && WellFormed(s) && EnabledFor(s, e)
    ensures WellFormed(s')
  {
    StepAll(c, s, e).0
  }

  ghost function RunAll(c: Config, s: Shared, es: seq<UserEvent>): Shared
    requires c.rate > 0.0 && WellFormed(s) && LegalAll(c, s, es)
    decreases |es|
  {
    if es == [] then s else RunAll(c, Next(c, s, es[0]), es[1..])
  }

  /** What the shared run answers to the calls of one user. */
  ghost function AnswersTo(c: Config, s: Shared, es: seq<UserEvent>, u: User): seq<Outcome>
    requires c.rate > 0.0 && WellFormed(s) && LegalAll(c, s, es)
    decreases |es|
  {
    if es == [] then []
    else (if es[0].user == u then [StepAll(c, s, es[0]).1] else []) + AnswersTo(c, Next(c, s, es[0]), es[1..], u)
  }

  // ---------------------------------------------------------------------------------------------
  // One user's view

  ghost function EventsOf(es: seq<UserEvent>, u: User): seq<Event> {
    if es == [] then []
    else (if es[0].user == u then [es[0].event] else []) + EventsOf(es[1..], u)
  }

  ghost function LogOf(log: seq<UserGrant>, u: User): seq<Grant> {
    if log == [] then []
    else LogOf(log[..|log| - 1], u) + if log[|log| - 1].user == u then [log[|log| - 1].grant] else []
  }

  /** The state of a limiter of u's own, created at time `start`. */
  ghost function View(c: Config, s: Shared, u: User, start: real): State {
    State(
      BucketOf(c, s.buckets, u, start),
      map k | k in s.sleepers && s.sleepers[k].user == u :: s.sleepers[k].sleeper,
      LogOf(s.log, u))
  }

  lemma {:induction false} LogSnoc(log: seq<UserGrant>, g: UserGrant, u: User)
    ensures LogOf(log + [g], u) == if g.user == u then LogOf(log, u) + [g.grant] else LogOf(log, u)
  {
    assert (log + [g])[..|log + [g]| - 1] == log;
  }

  /** A bucket that nobody has touched is full, whenever it was created. */
  lemma FullBucket(c: Config, start: real, now: real)
    requires c.rate > 0.0 && start <= now
    ensures Refill(c, Bucket(c.capacity as real, start), now) == Refill(c, Bucket(c.capacity as real, now), now)
  {
    assert (now - start) * c.rate >= 0.0;
  }

  /** What a step of another user may change. */
  ghost predicate OfOthers(s: Shared, s': Shared, u: User) {
    && (u in s'.buckets <==> u in s.buckets) && (u in s.buckets ==> s'.buckets[u] == s.buckets[u])
    && (forall k :: (k in s'.sleepers && s'.sleepers[k].user == u) <==> (k in s.sleepers && s.sleepers[k].user == u))
    && (forall k :: k in s.sleepers && s.sleepers[k].user == u ==> s'.sleepers[k] == s.sleepers[k])
    && (s'.log == s.log || exists g: UserGrant :: g.user != u && s'.log == s.log + [g])
  }

  lemma {:induction false} OthersStep(c: Config, s: Shared, e: UserEvent, u: User)
    requires c.rate > 0.0 && WellFormed(s) && EnabledFor(s, e) && e.user != u
    ensures OfOthers(s, Next(c, s, e), u)
  {
  }

  lemma {:induction false} OthersDoNotMatter(c: Config, s: Shared, e: UserEvent, u: User, start: real)
    requires c.rate > 0.0 && WellFormed(s) && EnabledFor(s, e) && e.user != u
    ensures View(c, Next(c, s, e), u, start) == View(c, s, u, start)
  {
    OthersStep(c, s, e, u);
    SameView(c, s, Next(c, s, e), u, start);
  }

  lemma {:induction false} SameSleepers(c: Config, s: Shared, s': Shared, u: User, start: real)
    requires OfOthers(s, s', u)
    ensures View(c, s', u, start).sleepers == View(c, s, u, start).sleepers
  {
  }

  lemma {:induction false} SameLog(s: Shared, s': Shared, u: User)
    requires OfOthers(s, s', u)
    ensures LogOf(s'.log, u) == LogOf(s.log, u)
  {
    if s'.log != s.log {
      var g: UserGrant :| g.user != u && s'.log == s.log + [g];
      LogSnoc(s.log, g, u);
    }
  }

  lemma {:induction false} SameView(c: Config, s: Shared, s': Shared, u: User, start: real)
    requires OfOthers(s, s', u)
    ensures View(c, s', u, start) == View(c, s, u, start)
  {
    SameSleepers(c, s, s', u, start);
    SameLog(s, s', u);
  }

  lemma ViewAfterBegin(c: Config, s: Shared, u: User, caller: Caller, need: nat, now: real, b: Bucket, r: Outcome, start: real)
    requires caller !in s.sleepers
    ensures
      View(c, AfterBeginFor(s, u, caller, need, now, b, r), u, start)
        == AfterBegin(View(c, s, u, start), caller, need, now, b, r)
  {
  }

  lemma SameAttempt(c: Config, s: Shared, u: User, need: nat, wait: bool, now: real, start: real)
    requires c.rate > 0.0 && start <= now
    ensures
      FirstAttempt(c, BucketOf(c, s.buckets, u, start), need, wait, now)
        == FirstAttempt(c, BucketOf(c, s.buckets, u, now), need, wait, now)
  {
    FullBucket(c, start, now);
  }

  lemma OwnBegin(c: Config, s: Shared, e: UserEvent, start: real)
    requires c.rate > 0.0 && WellFormed(s) && EnabledFor(s, e) && start <= s.clock && e.event.Begin?
    ensures Enabled(View(c, s, e.user, start), e.event)
    ensures Step(c, View(c, s, e.user, start), e.event) == (View(c, Next(c, s, e), e.user, start), StepAll(c, s, e).1)
  {
    var Begin(caller, need, wait, now) := e.event;
    SameAttempt(c, s, e.user, need, wait, now, start);
    var (b, r) := FirstAttempt(c, BucketOf(c, s.buckets, e.user, now), need, wait, now);
    ViewAfterBegin(c, s, e.user, caller, need, now, b, r, start);
  }

  lemma OwnWake(c: Config, s: Shared, e: UserEvent, start: real)
    requires c.rate > 0.0 && WellFormed(s) && EnabledFor(s, e) && start <= s.clock && e.event.Wake?
    ensures Enabled(View(c, s, e.user, start), e.event)
    ensures Step(c, View(c, s, e.user, start), e.event) == (View(c, Next(c, s, e), e.user, start), StepAll(c, s, e).1)
  {
    var Wake(caller, now) := e.event;
    var v, s' := View(c, s, e.user, start), Next(c, s, e);
    LogSnoc(s.log, UserGrant(e.user, Grant(now, s.sleepers[caller].sleeper.need)), e.user);
    assert Step(c, v, e.event).0.sleepers == View(c, s', e.user, start).sleepers;
  }

  lemma OwnStep(c: Config, s: Shared, e: UserEvent, start: real)
    requires c.rate > 0.0 && WellFormed(s) && EnabledFor(s, e) && start <= s.clock
    ensures Enabled(View(c, s, e.user, start), e.event)
    ensures Step(c, View(c, s, e.user, start), e.event) == (View(c, Next(c, s, e), e.user, start), StepAll(c, s, e).1)
  {
    match e.event
    case Begin(_, _, _, _) => OwnBegin(c, s, e, start);
    case Wake(_, _) => OwnWake(c, s, e, start);
    case Cancel(_) =>
      var v, s' := View(c, s, e.user, start), Next(c, s, e);
      assert Step(c, v, e.event).0.sleepers == View(c, s', e.user, start).sleepers;
  }

  /**
   Non-interference: what a user is answered, and the state it leaves behind, is what a limiter of the
   user's own would give to that user's calls alone.
   */
  lemma {:induction false} NonInterference(c: Config, s: Shared, es: seq<UserEvent>, u: User, start: real)
    requires c.rate > 0.0 && WellFormed(s) && LegalAll(c, s, es) && start <= s.clock
    ensures Legal(c, View(c, s, u, start), EventsOf(es, u))
    ensures Run(c, View(c, s, u, start), EventsOf(es, u)) == View(c, RunAll(c, s, es), u, start)
    ensures Answers(c, View(c, s, u, start), EventsOf(es, u)) == AnswersTo(c, s, es, u)
    decreases |es|
  {
    if es != [] {
      var e, s' := es[0], Next(c, s, es[0]);
      NonInterference(c, s', es[1..], u, start);
      if e.user == u {
        OwnStep(c, s, e, start);
        assert EventsOf(es, u)[1..] == EventsOf(es[1..], u);
      } else {
        OthersDoNotMatter(c, s, e, u, start);
        assert EventsOf(es, u) == EventsOf(es[1..], u);
        assert AnswersTo(c, s, es, u) == AnswersTo(c, s', es[1..], u);
      }
    }
  }

  /** The same for whole runs: each user might as well have a limiter to itself. */
  lemma UsersAreIndependent(c: Config, start: real, es: seq<UserEvent>, u: User)
    requires c.Valid() && LegalAll(c, StartAll(start), es)
    ensures Legal(c, Start(c, start), EventsOf(es, u))
    ensures Answers(c, Start(c, start), EventsOf(es, u)) == AnswersTo(c, StartAll(start), es, u)
    ensures LogOf(RunAll(c, StartAll(start), es).log, u) == Run(c, Start(c, start), EventsOf(es, u)).log
  {
    assert View(c, StartAll(start), u, start) == Start(c, start);
    NonInterference(c, StartAll(start), es, u, start);
  }

  /** Hence the rate bound holds for every user separately, whatever the other users do. */
  lemma UserRateBound(c: Config, start: real, es: seq<UserEvent>, u: User, t0: real, t1: real)
    requires c.Valid() && LegalAll(c, StartAll(start), es) && t0 <= t1
    ensures
      GrantedIn(LogOf(RunAll(c, StartAll(start), es).log, u), t0, t1) as real
        <= c.capacity as real + c.rate * (t1 - t0) + EPSILON
  {
    UsersAreIndependent(c, start, es, u);
    RateBound(c, start, EventsOf(es, u), t0, t1);
  }
}
