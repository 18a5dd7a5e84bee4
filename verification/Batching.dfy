/**
 The batching decorator of middleware/batching.go: any number of producers, a bounded queue, one processor
 that collects batches until they are full, a deadline passes or the decorator shuts down, and a drain.

 Every channel operation and every pass of the processor through a `select` is one step; the steps of the
 producers and of the processor interleave freely.
 */
module Batching {
  import opened Common

  datatype Request = Request(id: nat, message: string)

  type Reply = Result<string, string>

  /** How the wrapped agent answers each request; a request reaches the agent at most once. */
  type Agent = Request -> Reply

  datatype Config = Config(maxBatchSize: nat, maxQueueSize: nat)

  // ---------------------------------------------------------------------------------------------
  // Metrics

  datatype Metrics = Metrics(
    requests: nat, batches: nat, successful: nat, failed: nat, partial: nat,
    minSize: Option<nat>, maxSize: Option<nat>)

  function RecordBatch(m: Metrics, size: nat, successes: nat, failures: nat): Metrics {
    Metrics(
      m.requests + size,
      m.batches + 1,
      if failures == 0 then m.successful + 1 else m.successful,
      if failures != 0 && successes == 0 then m.failed + 1 else m.failed,
      if failures != 0 && successes != 0 then m.partial + 1 else m.partial,
      if m.minSize == None || size < m.minSize.value then Some(size) else m.minSize,
      if m.maxSize == None || size > m.maxSize.value then Some(size) else m.maxSize)
  }

  // ---------------------------------------------------------------------------------------------
  // The protocol

  /** Where the processor stands; a batch being answered knows where to go next. */
  datatype Phase = Top | First | Filling | Draining | Sending(next: Phase) | Stopped

  /**
   `current` is the batch under way, of which the first `sent` requests have been answered.  The fields
   after `metrics` are the history: everything accepted into the queue, everything answered, the finished
   batches, the replies put into each caller's channel, and how many requests had been accepted when the
   drain last found the queue empty.
   */
  datatype State = State(
    queue: seq<Request>, phase: Phase, shutdown: bool,
    current: seq<Request>, sent: nat, successes: nat, failures: nat,
    metrics: Metrics,
    accepted: seq<Request>, answered: seq<Request>, finished: seq<seq<Request>>,
    replies: map<nat, seq<Reply>>, cutoff: Option<nat>)

  function Start(): State {
    State([], Top, false, [], 0, 0, 0, Metrics(0, 0, 0, 0, 0, None, None), [], [], [], map[], None)
  }

  datatype Event =
    | Enqueue(request: Request)  // a producer's send wins its select
    | Shutdown                   // the shutdown channel is closed
    | Look                       // the processor is at the top of its loop
    | Receive                    // the processor takes a request
    | Cut                        // the deadline passes, or the shutdown is seen, while collecting
    | Full                       // the batch has reached its maximal size
    | Empty                      // the drain finds the queue empty
    | Answer                     // the next reply of the batch goes into its caller's channel
    | Record                     // the batch is done

  predicate Enabled(c: Config, s: State, e: Event) {
    match e
    case Enqueue(r) => |s.queue| < c.maxQueueSize && forall i :: 0 <= i < |s.accepted| ==> s.accepted[i].id != r.id
    case Shutdown => !s.shutdown
    case Look => s.phase == Top
    case Receive =>
      s.queue != [] && (s.phase == First || (s.phase in {Filling, Draining} && |s.current| < c.maxBatchSize))
    case Cut => (s.phase == First && s.shutdown) || (s.phase == Filling && |s.current| < c.maxBatchSize)
    case Full => s.phase in {Filling, Draining} && |s.current| >= c.maxBatchSize
    case Empty => s.phase == Draining && |s.current| < c.maxBatchSize && s.queue == []
    case Answer => s.phase.Sending? && s.sent < |s.current|
    case Record => s.phase.Sending? && s.sent == |s.current|
  }

  function Accept(s: State, r: Request): State {
    s.(queue := s.queue + [r], accepted := s.accepted + [r])
  }

  function Take(s: State): State
    requires s.queue != []
  {
    s.(queue := s.queue[1..], current := s.current + [s.queue[0]],
       phase := if s.phase == First then Filling else s.phase)
  }

  function Flush(s: State, next: Phase): State {
    if s.current == [] then s.(phase := next) else s.(phase := Sending(next))
  }

  function AnswerNext(agent: Agent, s: State): State
    requires s.sent < |s.current|
  {
    var r := s.current[s.sent];
    var before := if r.id in s.replies then s.replies[r.id] else [];
    s.(sent := s.sent + 1,
       successes := if agent(r).Ok? then s.successes + 1 else s.successes,
       failures := if agent(r).Ok? then s.failures else s.failures + 1,
       answered := s.answered + [r],
       replies := s.replies[r.id := before + [agent(r)]])
  }

  function Finish(s: State): State
    requires s.phase.Sending?
  {
    s.(phase := s.phase.next, current := [], sent := 0, successes := 0, failures := 0,
       metrics := RecordBatch(s.metrics, |s.current|, s.successes, s.failures),
       finished := s.finished + [s.current])
  }

  function Step(c: Config, agent: Agent, s: State, e: Event): State
    requires Enabled(c, s, e)
  {
    match e
    case Enqueue(r) => Accept(s, r)
    case Shutdown => s.(shutdown := true)
    case Look => s.(phase := if s.shutdown then Draining else First)
    case Receive => Take(s)
    case Cut => Flush(s, Top)
    case Full => s.(phase := Sending(if s.phase == Draining then Draining else Top))
    case Empty => Flush(s, Stopped).(cutoff := Some(|s.accepted|))
    case Answer => AnswerNext(agent, s)
    case Record => Finish(s)
  }

  ghost predicate Legal(c: Config, agent: Agent, s: State, es: seq<Event>)
    decreases |es|
  {
    es == [] || (Enabled(c, s, es[0]) && Legal(c, agent, Step(c, agent, s, es[0]), es[1..]))
  }

  ghost function Run(c: Config, agent: Agent, s: State, es: seq<Event>): State
    requires Legal(c, agent, s, es)
    decreases |es|
  {
    if es == [] then s else Run(c, agent, Step(c, agent, s, es[0]), es[1..])
  }

  // ---------------------------------------------------------------------------------------------
  // What every run keeps

  /** First in, first out: what was accepted is what was answered, what is under way, and what waits. */
  ghost predicate Fifo(s: State) {
    s.sent <= |s.current| && s.accepted == s.answered + s.current[s.sent..] + s.queue
  }

  ghost predicate FreshIds(s: State) {
    forall i, j :: 0 <= i < j < |s.accepted| ==> s.accepted[i].id != s.accepted[j].id
  }

  function Flatten(bs: seq<seq<Request>>): seq<Request> {
    if bs == [] then [] else Flatten(bs[..|bs| - 1]) + bs[|bs| - 1]
  }

  /** The answered requests, in order, are the finished batches and the answered part of the current one. */
  ghost predicate Batched(c: Config, s: State) {
    && s.sent <= |s.current|
    && s.answered == Flatten(s.finished) + s.current[..s.sent]
    && (forall k :: 0 <= k < |s.finished| ==> 1 <= |s.finished[k]| <= c.maxBatchSize)
  }

  ghost predicate WellPhased(c: Config, s: State) {
    && |s.current| <= c.maxBatchSize
    && (s.phase in {Top, First, Stopped} ==> s.current == [])
    && (!s.phase.Sending? ==> s.sent == 0)
    && (s.phase.Sending? ==> s.phase.next in {Top, Draining, Stopped} && s.current != [])
    && (s.phase == Filling ==> s.current != [])
    && (s.cutoff.Some? <==> s.phase in {Stopped, Sending(Stopped)})
    && (s.cutoff.Some? ==> s.cutoff.value == |s.answered| + |s.current| - s.sent)
  }

  predicate Leaving(p: Phase) {
    p in {Draining, Stopped, Sending(Draining), Sending(Stopped)}
  }

  /** The processor drains and stops only after a shutdown. */
  ghost predicate Willing(s: State) {
    Leaving(s.phase) ==> s.shutdown
  }

  /** Each answered caller has been sent exactly one reply, its own; nobody else has been sent anything. */
  ghost predicate Replied(agent: Agent, s: State) {
    && (forall i :: 0 <= i < |s.answered| ==>
         s.answered[i].id in s.replies && s.replies[s.answered[i].id] == [agent(s.answered[i])])
    && (forall id :: id in s.replies ==> exists i :: 0 <= i < |s.answered| && s.answered[i].id == id)
  }

  function OkCount(agent: Agent, b: seq<Request>): nat {
    if b == [] then 0 else OkCount(agent, b[..|b| - 1]) + if agent(b[|b| - 1]).Ok? then 1 else 0
  }

  datatype Kind = Good | Bad | Mixed

  function KindOf(agent: Agent, b: seq<Request>): Kind {
    if OkCount(agent, b) == |b| then Good else if OkCount(agent, b) == 0 then Bad else Mixed
  }

  function CountKind(agent: Agent, bs: seq<seq<Request>>, k: Kind): nat {
    if bs == [] then 0
    else CountKind(agent, bs[..|bs| - 1], k) + if KindOf(agent, bs[|bs| - 1]) == k then 1 else 0
  }

  /** The metrics are exactly the statistics of the finished batches. */
  ghost predicate Accounted(agent: Agent, s: State) {
    var m := s.metrics;
    && s.sent <= |s.current|
    && s.successes == OkCount(agent, s.current[..s.sent]) && s.failures == s.sent - s.successes
    && m.requests == |Flatten(s.finished)|
    && m.batches == |s.finished|
    && m.successful == CountKind(agent, s.finished, Good)
    && m.failed == CountKind(agent, s.finished, Bad)
    && m.partial == CountKind(agent, s.finished, Mixed)
    && m.successful + m.failed + m.partial == m.batches
    && IsLeast(s.finished, m.minSize)
    && IsGreatest(s.finished, m.maxSize)
  }

  ghost predicate IsSizeOf(bs: seq<seq<Request>>, size: nat) {
    exists k :: 0 <= k < |bs| && |bs[k]| == size
  }

  /** `size` is the least size of a finished batch; there is none before the first batch. */
  ghost predicate IsLeast(bs: seq<seq<Request>>, size: Option<nat>) {
    && (size.None? <==> bs == [])
    && (size.Some? ==> IsSizeOf(bs, size.value) && forall k :: 0 <= k < |bs| ==> size.value <= |bs[k]|)
  }

  ghost predicate IsGreatest(bs: seq<seq<Request>>, size: Option<nat>) {
    && (size.None? <==> bs == [])
    && (size.Some? ==> IsSizeOf(bs, size.value) && forall k :: 0 <= k < |bs| ==> |bs[k]| <= size.value)
  }

  ghost predicate Bounded(c: Config, s: State) {
    |s.queue| <= c.maxQueueSize
  }

  ghost predicate Inv(c: Config, agent: Agent, s: State) {
    && Bounded(c, s) && Fifo(s) && FreshIds(s) && Batched(c, s) && WellPhased(c, s) && Willing(s)
    && Replied(agent, s) && Accounted(agent, s)
  }

  lemma FifoAccept(s: State, r: Request)
    requires Fifo(s)
    ensures Fifo(Accept(s, r))
  {
    assert s.accepted + [r] == s.answered + s.current[s.sent..] + (s.queue + [r]);
  }

  lemma FifoTake(s: State)
    requires Fifo(s) && s.queue != [] && s.sent == 0
    ensures Fifo(Take(s))
  {
    assert s.queue == [s.queue[0]] + s.queue[1..];
    assert Take(s).current[0..] == s.current[0..] + [s.queue[0]];
  }

  lemma FifoAnswer(agent: Agent, s: State)
    requires Fifo(s) && s.sent < |s.current|
    ensures Fifo(AnswerNext(agent, s))
  {
    assert s.current[s.sent..] == [s.current[s.sent]] + s.current[s.sent + 1..];
  }

  lemma FifoFinish(s: State)
    requires Fifo(s) && s.phase.Sending? && s.sent == |s.current|
    ensures Fifo(Finish(s))
  {
    assert s.current[s.sent..] == [] && Finish(s).current[0..] == [];
  }

  lemma FifoKept(c: Config, agent: Agent, s: State, e: Event)
    requires c.maxBatchSize >= 1 && Enabled(c, s, e) && Fifo(s) && WellPhased(c, s)
    ensures Fifo(Step(c, agent, s, e))
  {
    match e
    case Enqueue(r) => FifoAccept(s, r);
    case Receive => FifoTake(s);
    case Answer => FifoAnswer(agent, s);
    case Record => FifoFinish(s);
    case _ =>
  }

  lemma BatchedAnswer(c: Config, agent: Agent, s: State)
    requires Batched(c, s) && s.sent < |s.current|
    ensures Batched(c, AnswerNext(agent, s))
  {
    assert s.current[..s.sent + 1] == s.current[..s.sent] + [s.current[s.sent]];
  }

  lemma BatchedFinish(c: Config, s: State)
    requires Batched(c, s) && s.phase.Sending? && s.sent == |s.current| && 1 <= |s.current| <= c.maxBatchSize
    ensures Batched(c, Finish(s))
  {
    var s' := Finish(s);
    assert s'.finished[..|s'.finished| - 1] == s.finished;
    assert s.current[..s.sent] == s.current && s'.current[..s'.sent] == [];
  }

  lemma BatchedTake(c: Config, s: State)
    requires Batched(c, s) && s.queue != [] && s.sent == 0
    ensures Batched(c, Take(s))
  {
    assert Take(s).current[..0] == s.current[..0];
  }

  lemma BatchedKept(c: Config, agent: Agent, s: State, e: Event)
    requires c.maxBatchSize >= 1 && Enabled(c, s, e) && Batched(c, s) && WellPhased(c, s)
    ensures Batched(c, Step(c, agent, s, e))
  {
    match e
    case Receive => BatchedTake(c, s);
    case Answer => BatchedAnswer(c, agent, s);
    case Record => BatchedFinish(c, s);
    case _ =>
  }

  lemma WellPhasedKept(c: Config, agent: Agent, s: State, e: Event)
    requires c.maxBatchSize >= 1 && Enabled(c, s, e) && WellPhased(c, s) && Fifo(s)
    ensures WellPhased(c, Step(c, agent, s, e))
  {
  }

  lemma WillingKept(c: Config, agent: Agent, s: State, e: Event)
    requires c.maxBatchSize >= 1 && Enabled(c, s, e) && WellPhased(c, s) && Willing(s)
    ensures Willing(Step(c, agent, s, e))
  {
  }

  lemma FreshIdsKept(c: Config, agent: Agent, s: State, e: Event)
    requires Enabled(c, s, e) && FreshIds(s)
    ensures FreshIds(Step(c, agent, s, e))
  {}

  /** The request to be answered next has been sent nothing yet. */
  lemma NextUnanswered(agent: Agent, s: State)
    requires Fifo(s) && FreshIds(s) && Replied(agent, s) && s.sent < |s.current|
    ensures s.current[s.sent].id !in s.replies
    ensures forall i :: 0 <= i < |s.answered| ==> s.answered[i].id != s.current[s.sent].id
  {
    var n := |s.answered|;
    assert s.accepted[n] == s.current[s.sent..][0];
    forall i | 0 <= i < n ensures s.answered[i].id != s.current[s.sent].id {
      assert s.accepted[i] == s.answered[i];
    }
  }

  lemma RepliedKept(c: Config, agent: Agent, s: State, e: Event)
    requires Enabled(c, s, e) && Fifo(s) && FreshIds(s) && Replied(agent, s)
    ensures Replied(agent, Step(c, agent, s, e))
  {
    if e == Answer {
      NextUnanswered(agent, s);
      var s' := Step(c, agent, s, e);
      assert s'.answered[|s.answered|] == s.current[s.sent];
      forall id | id in s'.replies ensures exists i :: 0 <= i < |s'.answered| && s'.answered[i].id == id {
        if id in s.replies {
          var i :| 0 <= i < |s.answered| && s.answered[i].id == id;
          assert s'.answered[i].id == id;
        }
      }
    }
  }

  lemma {:induction false} OkCountBound(agent: Agent, b: seq<Request>)
    ensures OkCount(agent, b) <= |b|
  {
    if b != [] {
      OkCountBound(agent, b[..|b| - 1]);
    }
  }

  lemma SizesRecorded(bs: seq<seq<Request>>, b: seq<Request>, m: Metrics, successes: nat, failures: nat)
    requires IsLeast(bs, m.minSize) && IsGreatest(bs, m.maxSize)
    ensures IsLeast(bs + [b], RecordBatch(m, |b|, successes, failures).minSize)
    ensures IsGreatest(bs + [b], RecordBatch(m, |b|, successes, failures).maxSize)
  {
    var bs' := bs + [b];
    assert bs'[|bs|] == b;
    assert forall k :: 0 <= k < |bs| ==> bs'[k] == bs[k];
    forall size | IsSizeOf(bs, size) ensures IsSizeOf(bs', size) {
      var k :| 0 <= k < |bs| && |bs[k]| == size;
      assert |bs'[k]| == size;
    }
  }

  lemma AccountedKept(c: Config, agent: Agent, s: State, e: Event)
    requires c.maxBatchSize >= 1 && Enabled(c, s, e) && WellPhased(c, s) && Accounted(agent, s)
    ensures Accounted(agent, Step(c, agent, s, e))
  {
    if e == Answer {
      AnswerAccounted(agent, s);
    } else if e == Record {
      RecordAccounted(agent, s);
    } else if e == Receive {
      assert s.sent == 0 && s.current[..0] == [] && (s.current + [s.queue[0]])[..0] == [];
    }
  }

  lemma AnswerAccounted(agent: Agent, s: State)
    requires s.sent < |s.current| && Accounted(agent, s)
    ensures Accounted(agent, AnswerNext(agent, s))
  {
    var part := s.current[..s.sent + 1];
    assert part[..|part| - 1] == s.current[..s.sent];
  }

  lemma RecordAccounted(agent: Agent, s: State)
    requires s.phase.Sending? && s.sent == |s.current| && s.current != [] && Accounted(agent, s)
    ensures Accounted(agent, Finish(s))
  {
    var s' := Finish(s);
    assert s'.finished[..|s'.finished| - 1] == s.finished;
    assert s.current[..s.sent] == s.current;
    OkCountBound(agent, s.current);
    SizesRecorded(s.finished, s.current, s.metrics, s.successes, s.failures);
  }

  lemma StepKeeps(c: Config, agent: Agent, s: State, e: Event)
    requires c.maxBatchSize >= 1 && Enabled(c, s, e) && Inv(c, agent, s)
    ensures Inv(c, agent, Step(c, agent, s, e))
  {
    FifoKept(c, agent, s, e);
    FreshIdsKept(c, agent, s, e);
    BatchedKept(c, agent, s, e);
    WellPhasedKept(c, agent, s, e);
    WillingKept(c, agent, s, e);
    RepliedKept(c, agent, s, e);
    AccountedKept(c, agent, s, e);
  }

  lemma {:induction false} RunKeeps(c: Config, agent: Agent, s: State, es: seq<Event>)
    requires c.maxBatchSize >= 1 && Inv(c, agent, s) && Legal(c, agent, s, es)
    ensures Inv(c, agent, Run(c, agent, s, es))
    decreases |es|
  {
    if es != [] {
      StepKeeps(c, agent, s, es[0]);
      RunKeeps(c, agent, Step(c, agent, s, es[0]), es[1..]);
    }
  }

  /** In every reachable state: order, batches, replies and metrics are right, and no drain without a shutdown. */
  lemma Reachable(c: Config, agent: Agent, es: seq<Event>)
    requires c.maxBatchSize >= 1 && Legal(c, agent, Start(), es)
    ensures Inv(c, agent, Run(c, agent, Start(), es))
  {
    RunKeeps(c, agent, Start(), es);
  }

  /** Exactly the requests accepted before the cutoff have been answered, each once and with its own reply. */
  ghost predicate CutOff(agent: Agent, s: State) {
    && s.cutoff.Some? && s.cutoff.value <= |s.accepted|
    && s.answered == s.accepted[..s.cutoff.value]
    && s.answered == Flatten(s.finished)
    && forall i :: 0 <= i < |s.accepted| ==>
      if i < s.cutoff.value then s.accepted[i].id in s.replies && s.replies[s.accepted[i].id] == [agent(s.accepted[i])]
      else s.accepted[i].id !in s.replies
  }

  lemma StoppedIsCutOff(c: Config, agent: Agent, s: State)
    requires Inv(c, agent, s) && s.phase == Stopped
    ensures CutOff(agent, s)
  {
  }

  /**
   Once the processor has stopped, the requests accepted before the drain last found the queue empty have been
   answered, in order, each exactly once and with its own reply; later ones have not been answered at all.
   */
  lemma Drained(c: Config, agent: Agent, es: seq<Event>)
    requires c.maxBatchSize >= 1 && Legal(c, agent, Start(), es)
    requires Run(c, agent, Start(), es).phase == Stopped
    ensures CutOff(agent, Run(c, agent, Start(), es))
  {
    Reachable(c, agent, es);
    StoppedIsCutOff(c, agent, Run(c, agent, Start(), es));
  }

  // ---------------------------------------------------------------------------------------------
  // The drain ends

  function Rank(p: Phase): nat {
    match p
    case Stopped => 0
    case Draining => 2
    case Top => 3
    case First => 4
    case Filling => 4
    case Sending(next) => if next == Top then 3 else 1
  }

  /** How much the processor still has to do; a request costs at most eight steps' worth. */
  function Work(s: State): int {
    8 * |s.queue| + 5 * |s.current| - s.sent + Rank(s.phase)
  }

  predicate ByProcessor(e: Event) {
    !e.Enqueue? && !e.Shutdown?
  }

  /** After the shutdown every step of the processor leaves it with less to do. */
  lemma WorkShrinks(c: Config, agent: Agent, s: State, e: Event)
    requires c.maxBatchSize >= 1 && Enabled(c, s, e) && WellPhased(c, s) && s.shutdown && ByProcessor(e)
    ensures 0 <= Work(Step(c, agent, s, e)) < Work(s)
  {}

  /** And until it has stopped it always has a step to take. */
  lemma NeverBlocked(c: Config, s: State) returns (e: Event)
    requires c.maxBatchSize >= 1 && WellPhased(c, s) && s.shutdown && s.phase != Stopped && s.sent <= |s.current|
    ensures ByProcessor(e) && Enabled(c, s, e)
  {
    match s.phase
    case Top => e := Look;
    case First => e := Cut;
    case Filling => e := if |s.current| < c.maxBatchSize then Cut else Full;
    case Draining => e := if |s.current| >= c.maxBatchSize then Full else if s.queue == [] then Empty else Receive;
    case Sending(_) => e := if s.sent < |s.current| then Answer else Record;
  }

  /** How many of the events are sends that a producer still wins. */
  function Sends(es: seq<Event>): nat {
    if es == [] then 0 else (if es[0].Enqueue? then 1 else 0) + Sends(es[1..])
  }

  /** A late send brings at most eight steps' worth of work with it. */
  lemma SendAddsWork(c: Config, agent: Agent, s: State, r: Request)
    requires Enabled(c, s, Enqueue(r))
    ensures Work(Step(c, agent, s, Enqueue(r))) == Work(s) + 8
  {}

  /**
   So no run after the shutdown is longer than the work that was left, plus nine steps for every request that still
   came in, and a run that the processor cannot continue has stopped.
   */
  lemma {:induction false} ShutdownEnds(c: Config, agent: Agent, s: State, es: seq<Event>)
    requires c.maxBatchSize >= 1 && Inv(c, agent, s) && s.shutdown && Legal(c, agent, s, es)
    ensures |es| <= Work(s) + 9 * Sends(es)
    ensures
      (forall e :: ByProcessor(e) ==> !Enabled(c, Run(c, agent, s, es), e)) ==> Run(c, agent, s, es).phase == Stopped
    decreases |es|
  {
    if es == [] {
      if s.phase != Stopped {
        var e := NeverBlocked(c, s);
      }
    } else {
      StepKeeps(c, agent, s, es[0]);
      if es[0].Enqueue? {
        SendAddsWork(c, agent, s, es[0].request);
      } else {
        WorkShrinks(c, agent, s, es[0]);
      }
      ShutdownEnds(c, agent, Step(c, agent, s, es[0]), es[1..]);
    }
  }

  // ---------------------------------------------------------------------------------------------
  // Every accepted request is answered, with or without a shutdown

  /** The i-th request to be accepted is still to be answered, and the last drain has not passed it by. */
  ghost predicate Awaiting(s: State, i: nat) {
    |s.answered| <= i < |s.accepted| && (s.cutoff.Some? ==> i < s.cutoff.value)
  }

  /** While a request awaits its reply the processor has a step to take. */
  lemma Busy(c: Config, s: State, i: nat) returns (e: Event)
    requires c.maxBatchSize >= 1 && WellPhased(c, s) && Fifo(s) && Awaiting(s, i)
    ensures ByProcessor(e) && Enabled(c, s, e)
  {
    match s.phase
    case Top => e := Look;
    case First => e := Receive;
    case Filling => e := if |s.current| < c.maxBatchSize then Cut else Full;
    case Draining => e := if |s.current| >= c.maxBatchSize then Full else if s.queue == [] then Empty else Receive;
    case Sending(_) => e := if s.sent < |s.current| then Answer else Record;
  }

  /** The most steps the processor can take before it answers the next request, of which there is one. */
  function Delay(c: Config, s: State): int {
    match s.phase
    case Sending(_) => if s.sent < |s.current| then 1 else c.maxBatchSize + 6
    case Top => if s.shutdown then c.maxBatchSize + 3 else c.maxBatchSize + 5
    case First => c.maxBatchSize + 4
    case _ => c.maxBatchSize - |s.current| + 2
  }

  lemma DelayBounds(c: Config, s: State)
    requires c.maxBatchSize >= 1 && WellPhased(c, s)
    ensures 1 <= Delay(c, s) <= c.maxBatchSize + 6
  {
  }

  /** A step of the processor answers the next request or brings it nearer; no other step puts it off. */
  lemma DelayShrinks(c: Config, agent: Agent, s: State, e: Event, i: nat)
    requires c.maxBatchSize >= 1 && WellPhased(c, s) && Fifo(s) && Awaiting(s, i) && Enabled(c, s, e)
    ensures
      var s' := Step(c, agent, s, e);
      if e == Answer then |s'.answered| == |s.answered| + 1
      else s'.answered == s.answered && Awaiting(s', i) && Delay(c, s') <= Delay(c, s) - (if ByProcessor(e) then 1 else 0)
  {
  }

  /** How many of the events are steps of the processor. */
  function Moves(es: seq<Event>): nat {
    if es == [] then 0 else (if ByProcessor(es[0]) then 1 else 0) + Moves(es[1..])
  }

  /** MaxBatchSize + 6 steps for each of `n` requests. */
  function Allowance(c: Config, n: nat): nat {
    if n == 0 then 0 else Allowance(c, n - 1) + c.maxBatchSize + 6
  }

  lemma {:induction false} AllowanceIsProduct(c: Config, n: nat)
    ensures Allowance(c, n) == n * (c.maxBatchSize + 6)
  {
    if n > 0 {
      AllowanceIsProduct(c, n - 1);
      OneMore(n - 1, c.maxBatchSize + 6);
    }
  }

  /** The most steps the processor can take before the i-th accepted request is answered. */
  function Patience(c: Config, s: State, i: nat): int
    requires |s.answered| <= i
  {
    Allowance(c, i - |s.answered|) + Delay(c, s)
  }

  lemma PatienceShrinks(c: Config, agent: Agent, s: State, e: Event, i: nat)
    requires c.maxBatchSize >= 1 && WellPhased(c, s) && Fifo(s) && Awaiting(s, i) && Enabled(c, s, e)
    ensures
      var s' := Step(c, agent, s, e);
      || |s'.answered| > i
      || (Awaiting(s', i) && Patience(c, s', i) <= Patience(c, s, i) - (if ByProcessor(e) then 1 else 0))
  {
    DelayShrinks(c, agent, s, e, i);
    if e == Answer {
      WellPhasedKept(c, agent, s, e);
      DelayBounds(c, Step(c, agent, s, e));
    }
  }

  /** What has been answered stays answered. */
  lemma AnsweredGrows(c: Config, agent: Agent, s: State, es: seq<Event>)
    requires Legal(c, agent, s, es)
    ensures |s.answered| <= |Run(c, agent, s, es).answered|
    decreases |es|
  {
    if es != [] {
      AnsweredGrows(c, agent, Step(c, agent, s, es[0]), es[1..]);
    }
  }

  lemma {:induction false} AnsweredInTime(c: Config, agent: Agent, s: State, es: seq<Event>, i: nat)
    requires c.maxBatchSize >= 1 && Inv(c, agent, s) && Awaiting(s, i) && Legal(c, agent, s, es)
    requires Moves(es) >= Patience(c, s, i)
    ensures i < |Run(c, agent, s, es).answered|
    decreases |es|
  {
    DelayBounds(c, s);
    var s' := Step(c, agent, s, es[0]);
    PatienceShrinks(c, agent, s, es[0], i);
    StepKeeps(c, agent, s, es[0]);
    if |s'.answered| > i {
      AnsweredGrows(c, agent, s', es[1..]);
    } else {
      AnsweredInTime(c, agent, s', es[1..], i);
    }
  }

  /** The request that was the i-th to be accepted has been sent its own reply, once. */
  ghost predicate RepliedAt(agent: Agent, s: State, i: nat) {
    i < |s.accepted| && s.accepted[i].id in s.replies && s.replies[s.accepted[i].id] == [agent(s.accepted[i])]
  }

  /**
   In any run of a fresh decorator, whoever else sends and whether or not it is shut down on the way: a request
   accepted before the last drain found the queue empty is answered after at most MaxBatchSize + 6 steps of the
   processor for itself and for each request in front of it, and until then the processor is never stuck.
   */
  lemma EveryRequestAnswered(c: Config, agent: Agent, before: seq<Event>, after: seq<Event>, i: nat)
    requires c.maxBatchSize >= 1 && Legal(c, agent, Start(), before)
    requires Legal(c, agent, Run(c, agent, Start(), before), after)
    requires Awaiting(Run(c, agent, Start(), before), i)
    requires Moves(after) >= Allowance(c, i + 1 - |Run(c, agent, Start(), before).answered|)
    ensures RepliedAt(agent, Run(c, agent, Run(c, agent, Start(), before), after), i)
    ensures exists e :: ByProcessor(e) && Enabled(c, Run(c, agent, Start(), before), e)
  {
    var s := Run(c, agent, Start(), before);
    var s' := Run(c, agent, s, after);
    Reachable(c, agent, before);
    DelayBounds(c, s);
    AnsweredInTime(c, agent, s, after, i);
    RunKeeps(c, agent, s, after);
    assert s'.accepted[i] == s'.answered[i];
    var e := Busy(c, s, i);
  }

  // ---------------------------------------------------------------------------------------------
  // The decorator as an object

  /**
   The goroutines of one batch finish in any order; each writes the reply of its own request into its own slot,
   so the order does not matter.
   */
  method CallAgents(agent: Agent, batch: seq<Request>, order: seq<nat>) returns (results: array<Reply>)
    requires |order| == |batch| && (forall k :: 0 <= k < |order| ==> order[k] < |batch|)
    requires forall i :: 0 <= i < |batch| ==> i in order
    ensures fresh(results) && results.Length == |batch|
    ensures forall i :: 0 <= i < |batch| ==> results[i] == agent(batch[i])
  {
    results := new Reply[|batch|](_ => Err(""));
    for k := 0 to |order|
      invariant forall m :: 0 <= m < k ==> results[order[m]] == agent(batch[order[m]])
    {
      results[order[k]] := agent(batch[order[k]]);
    }
    forall i | 0 <= i < |batch| ensures results[i] == agent(batch[i]) {
      assert i in order;
      var m :| 0 <= m < |order| && order[m] == i;
    }
  }

  /** The fields that the source updates in place, with the history kept as ghost state. */
  class Decorator {
    const config: Config
    var queue: seq<Request>
    var phase: Phase
    var stopping: bool
    var current: seq<Request>
    var results: seq<Reply>
    var sent: nat
    var successes: nat
    var failures: nat
    var metrics: Metrics
    ghost var accepted: seq<Request>
    ghost var answered: seq<Request>
    ghost var finished: seq<seq<Request>>
    ghost var replies: map<nat, seq<Reply>>
    ghost var cutoff: Option<nat>

    ghost function Snapshot(): State
      reads this
    {
      State(queue, phase, stopping, current, sent, successes, failures, metrics,
                  accepted, answered, finished, replies, cutoff)
    }

    /** While a batch is being answered, its results are the agent's replies, slot by slot. */
    ghost predicate Computed(agent: Agent)
      reads this
    {
      phase.Sending? ==> |results| == |current| && forall i :: 0 <= i < |current| ==> results[i] == agent(current[i])
    }

    constructor (c: Config)
      ensures config == c && Snapshot() == Start()
    {
      config := c;
      queue, phase, stopping, current, results, sent, successes, failures := [], Top, false, [], [], 0, 0, 0;
      metrics := Metrics(0, 0, 0, 0, 0, None, None);
      accepted, answered, finished, replies, cutoff := [], [], [], map[], None;
    }

    method Enqueue(r: Request)
      requires Enabled(config, Snapshot(), Event.Enqueue(r))
      modifies `queue, `accepted
      ensures Snapshot() == Accept(old(Snapshot()), r)
    {
      queue := queue + [r];
      accepted := accepted + [r];
    }

    method Shutdown()
      modifies `stopping
      ensures Snapshot() == old(Snapshot()).(shutdown := true)
    {
      stopping := true;
    }

    method LookAtTop()
      requires Enabled(config, Snapshot(), Look)
      modifies `phase
      ensures forall agent :: Snapshot() == Step(config, agent, old(Snapshot()), Look)
      ensures if stopping then phase == Draining else phase == First
    {
      phase := if stopping then Draining else First;
    }

    method ReceiveRequest()
      requires queue != []
      modifies `queue, `current, `phase
      ensures Snapshot() == Take(old(Snapshot()))
    {
      var r := queue[0];
      queue := queue[1..];
      current := current + [r];
      if phase == First {
        phase := Filling;
      }
    }

    /** The shutdown is seen while waiting for the first request of a batch. */
    method StopWaiting()
      requires phase == First && stopping && current == []
      modifies `phase
      ensures forall agent :: Snapshot() == Step(config, agent, old(Snapshot()), Cut)
    {
      phase := Top;
    }

    /** The agents are called, in whatever order they finish, and the replies are about to go out. */
    method CallAll(agent: Agent, order: seq<nat>, next: Phase)
      requires |order| == |current| && (forall k :: 0 <= k < |order| ==> order[k] < |current|)
      requires forall i :: 0 <= i < |current| ==> i in order
      modifies `results, `phase
      ensures Computed(agent) && Snapshot() == old(Snapshot()).(phase := Sending(next))
    {
      var a := CallAgents(agent, current, order);
      results := a[..];
      phase := Sending(next);
    }

    /** The batch is full, or the deadline or the shutdown cuts its collection short. */
    method Dispatch(agent: Agent, order: seq<nat>)
      requires current != [] && (phase == Filling || (phase == Draining && |current| >= config.maxBatchSize))
      requires |order| == |current| && (forall k :: 0 <= k < |order| ==> order[k] < |current|)
      requires forall i :: 0 <= i < |current| ==> i in order
      modifies `results, `phase
      ensures
        var e := if |current| >= config.maxBatchSize then Full else Cut;
        Computed(agent) && Enabled(config, old(Snapshot()), e) && Snapshot() == Step(config, agent, old(Snapshot()), e)
    {
      CallAll(agent, order, if phase == Draining then Draining else Top);
    }

    method SendReply(agent: Agent)
      requires phase.Sending? && sent < |current| && Computed(agent)
      modifies `sent, `successes, `failures, `answered, `replies
      ensures Computed(agent) && Snapshot() == AnswerNext(agent, old(Snapshot()))
    {
      var r := current[sent];
      ghost var before := if r.id in replies then replies[r.id] else [];
      replies := replies[r.id := before + [results[sent]]];
      answered := answered + [r];
      if results[sent].Ok? {
        successes := successes + 1;
      } else {
        failures := failures + 1;
      }
      sent := sent + 1;
    }

    method FinishBatch()
      requires phase.Sending? && sent == |current|
      modifies `phase, `current, `sent, `successes, `failures, `metrics, `finished
      ensures Snapshot() == Finish(old(Snapshot()))
    {
      finished := finished + [current];
      metrics := RecordBatch(metrics, |current|, successes, failures);
      phase, current, sent, successes, failures := phase.next, [], 0, 0, 0;
    }

    /** The drain finds the queue empty: what it holds is the last batch. */
    method FoundEmpty(agent: Agent, order: seq<nat>)
      requires Enabled(config, Snapshot(), Empty)
      requires |order| == |current| && (forall k :: 0 <= k < |order| ==> order[k] < |current|)
      requires forall i :: 0 <= i < |current| ==> i in order
      modifies `results, `phase, `cutoff
      ensures Computed(agent) && Snapshot() == Step(config, agent, old(Snapshot()), Empty)
    {
      cutoff := Some(|accepted|);
      if current == [] {
        phase := Stopped;
      } else {
        CallAll(agent, order, Stopped);
      }
    }
  }
}
