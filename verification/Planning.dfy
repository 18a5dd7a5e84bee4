/** The plan executor of patterns/planning.go: a dependency-driven scheduler with optional replanning. */
module Planning {

  datatype Status = Pending | InProgress | Completed | Failed | Skipped

  datatype PlanStep = PlanStep(number: int, dependencies: seq<int>, status: Status)

  // ---------------------------------------------------------------------------------------------
  // The queries on a plan

  ghost predicate Met(dependencies: seq<int>, completed: set<int>) {
    forall k :: 0 <= k < |dependencies| ==> dependencies[k] in completed
  }

  ghost function CompletedSteps(plan: seq<PlanStep>): set<int> {
    set i | 0 <= i < |plan| && plan[i].status == Completed
  }

  ghost predicate Ready(plan: seq<PlanStep>, i: int) {
    0 <= i < |plan| && plan[i].status == Pending && Met(plan[i].dependencies, CompletedSteps(plan))
  }

  /** The ready steps among the first `k`, in plan order. */
  ghost function ReadyUpTo(plan: seq<PlanStep>, k: nat): seq<PlanStep>
    requires k <= |plan|
  {
    if k == 0 then [] else ReadyUpTo(plan, k - 1) + if Ready(plan, k - 1) then [plan[k - 1]] else []
  }

  ghost function ReadySteps(plan: seq<PlanStep>): seq<PlanStep> {
    ReadyUpTo(plan, |plan|)
  }

  lemma {:induction false} ReadyAreQueued(plan: seq<PlanStep>, k: nat) returns (at: seq<int>)
    requires k <= |plan|
    ensures Queued(plan, ReadyUpTo(plan, k), at)
    ensures forall j :: 0 <= j < |at| ==> at[j] < k
    ensures forall i :: 0 <= i < k && Ready(plan, i) ==> i in at
  {
    if k == 0 {
      return [];
    }
    at := ReadyAreQueued(plan, k - 1);
    if Ready(plan, k - 1) {
      QueuedOneMore(plan, ReadyUpTo(plan, k - 1), at, k - 1);
      at := at + [k - 1];
    }
  }

  lemma QueuedOneMore(plan: seq<PlanStep>, next: seq<PlanStep>, at: seq<int>, i: int)
    requires Queued(plan, next, at) && Ready(plan, i) && forall j :: 0 <= j < |at| ==> at[j] < i
    ensures Queued(plan, next + [plan[i]], at + [i])
  {
  }

  method CanExecuteStep(step: PlanStep, completed: seq<int>) returns (r: bool)
    ensures r <==> Met(step.dependencies, set x | x in completed)
  {
    for k := 0 to |step.dependencies|
      invariant forall m :: 0 <= m < k ==> step.dependencies[m] in completed
    {
      var found := false;
      for m := 0 to |completed|
        invariant !found && step.dependencies[k] !in completed[..m]
      {
        if step.dependencies[k] == completed[m] {
          found := true;
          break;
        }
      }
      if !found {
        assert completed[..|completed|] == completed;
        return false;
      }
    }
    return true;
  }

  /** The steps that can run now, in plan order. */
  method GetNextSteps(plan: seq<PlanStep>) returns (next: seq<PlanStep>)
    ensures next == ReadySteps(plan)
  {
    var completed: seq<int> := [];
    for i := 0 to |plan|
      invariant forall x :: x in completed <==> 0 <= x < i && plan[x].status == Completed
    {
      if plan[i].status == Completed {
        completed := completed + [i];
      }
    }
    assert (set x | x in completed) == CompletedSteps(plan);
    next := [];
    for i := 0 to |plan|
      invariant next == ReadyUpTo(plan, i)
    {
      if plan[i].status == Pending {
        var can := CanExecuteStep(plan[i], completed);
        if can {
          next := next + [plan[i]];
        }
      }
    }
  }

  method IsPlanComplete(plan: seq<PlanStep>) returns (r: bool)
    ensures r <==> Finished(plan)
  {
    for i := 0 to |plan|
      invariant forall m :: 0 <= m < i ==> plan[m].status in {Completed, Skipped}
    {
      if plan[i].status != Completed && plan[i].status != Skipped {
        return false;
      }
    }
    return true;
  }

  method HasPlanFailures(plan: seq<PlanStep>) returns (r: bool)
    ensures r <==> SomeFailed(plan)
  {
    for i := 0 to |plan|
      invariant forall m :: 0 <= m < i ==> plan[m].status != Failed
    {
      if plan[i].status == Failed {
        return true;
      }
    }
    return false;
  }

  // ---------------------------------------------------------------------------------------------
  // What an execution keeps; `plan0` is the plan it started from

  /** One call of the executor: the position of the step it ran and whether it succeeded. */
  datatype Execution = Execution(step: int, ok: bool)

  ghost predicate Ran(trace: seq<Execution>, e: Execution) {
    exists k :: 0 <= k < |trace| && trace[k] == e
  }

  ghost predicate InitiallyDone(plan0: seq<PlanStep>, i: int) {
    0 <= i < |plan0| && plan0[i].status == Completed
  }

  /** Only pending steps run, each at most once, and only after all their dependencies have been completed. */
  ghost predicate Orderly(plan0: seq<PlanStep>, trace: seq<Execution>) {
    && (forall k :: 0 <= k < |trace| ==> 0 <= trace[k].step < |plan0| && plan0[trace[k].step].status == Pending)
    && (forall j, k :: 0 <= j < k < |trace| ==> trace[j].step != trace[k].step)
    && (forall k, m :: 0 <= k < |trace| && 0 <= m < |plan0[trace[k].step].dependencies| ==>
         DoneBefore(plan0, trace, k, plan0[trace[k].step].dependencies[m]))
  }

  ghost predicate DoneBefore(plan0: seq<PlanStep>, trace: seq<Execution>, k: nat, d: int)
    requires k <= |trace|
  {
    InitiallyDone(plan0, d) || Ran(trace[..k], Execution(d, true))
  }

  /** The status of a step says where it started and what happened to it. */
  ghost predicate StepReflects(before: PlanStep, now: PlanStep, succeeded: bool, failed: bool) {
    && now.number == before.number && now.dependencies == before.dependencies
    && (now.status == Completed <==> before.status == Completed || succeeded)
    && (now.status in {Failed, Skipped} <==> before.status in {Failed, Skipped} || failed)
    && (now.status == InProgress <==> before.status == InProgress)
  }

  ghost predicate Reflects(plan0: seq<PlanStep>, plan: seq<PlanStep>, trace: seq<Execution>) {
    && |plan| == |plan0|
    && forall i :: 0 <= i < |plan| ==>
      StepReflects(plan0[i], plan[i], Ran(trace, Execution(i, true)), Ran(trace, Execution(i, false)))
  }

  ghost predicate Consistent(plan0: seq<PlanStep>, plan: seq<PlanStep>, trace: seq<Execution>) {
    Orderly(plan0, trace) && Reflects(plan0, plan, trace)
  }

  lemma RanSnoc(trace: seq<Execution>, e: Execution, x: Execution)
    ensures Ran(trace + [e], x) <==> Ran(trace, x) || x == e
  {
    if Ran(trace, x) {
      var k :| 0 <= k < |trace| && trace[k] == x;
      assert (trace + [e])[k] == x;
    }
    assert (trace + [e])[|trace|] == e;
  }

  lemma RunsReadyStep(plan0: seq<PlanStep>, plan: seq<PlanStep>, trace: seq<Execution>, i: int, ok: bool)
    requires Consistent(plan0, plan, trace) && Ready(plan, i)
    ensures Orderly(plan0, trace + [Execution(i, ok)])
  {
    var e := Execution(i, ok);
    var trace' := trace + [e];
    forall j | 0 <= j < |trace| ensures trace[j].step != i {
      assert Ran(trace, trace[j]);
      assert trace[j] == Execution(i, true) || trace[j] == Execution(i, false) || trace[j].step != i;
    }
    forall k, m | 0 <= k < |trace'| && 0 <= m < |plan0[trace'[k].step].dependencies|
      ensures DoneBefore(plan0, trace', k, plan0[trace'[k].step].dependencies[m])
    {
      if k < |trace| {
        assert trace'[..k] == trace[..k];
        assert DoneBefore(plan0, trace, k, plan0[trace[k].step].dependencies[m]);
      } else {
        assert trace'[..k] == trace;
        assert plan[i].dependencies[m] in CompletedSteps(plan);
      }
    }
  }

  lemma RunReflected(plan0: seq<PlanStep>, plan: seq<PlanStep>, trace: seq<Execution>, i: int, ok: bool)
    requires Reflects(plan0, plan, trace) && 0 <= i < |plan| && plan[i].status == Pending
    ensures
      Reflects(plan0, plan[i := plan[i].(status := if ok then Completed else Failed)], trace + [Execution(i, ok)])
  {
    var e := Execution(i, ok);
    forall m | 0 <= m < |plan|
      ensures Ran(trace + [e], Execution(m, true)) <==> Ran(trace, Execution(m, true)) || (m == i && ok)
      ensures Ran(trace + [e], Execution(m, false)) <==> Ran(trace, Execution(m, false)) || (m == i && !ok)
    {
      RanSnoc(trace, e, Execution(m, true));
      RanSnoc(trace, e, Execution(m, false));
    }
  }

  // ---------------------------------------------------------------------------------------------
  // The completed steps as a least fixpoint

  ghost function FailedSteps(plan0: seq<PlanStep>, trace: seq<Execution>): set<int> {
    set i | 0 <= i < |plan0| && Ran(trace, Execution(i, false))
  }

  /** What was completed from the start, and the pending steps with all dependencies in `done` that did not fail. */
  ghost function Enabled(plan0: seq<PlanStep>, failed: set<int>, done: set<int>): set<int> {
    set i | 0 <= i < |plan0| &&
      (plan0[i].status == Completed || (plan0[i].status == Pending && Met(plan0[i].dependencies, done) && i !in failed))
  }

  ghost predicate IsLeastFixpoint(plan0: seq<PlanStep>, failed: set<int>, done: set<int>) {
    && Enabled(plan0, failed, done) == done
    && forall other :: Enabled(plan0, failed, other) <= other ==> done <= other
  }

  lemma {:induction false} BelowEveryFixpoint(plan0: seq<PlanStep>, trace: seq<Execution>, k: nat, failed: set<int>, other: set<int>)
    requires Orderly(plan0, trace) && k <= |trace| && Enabled(plan0, failed, other) <= other
    requires forall j :: 0 <= j < |trace| && trace[j].ok ==> trace[j].step !in failed
    ensures forall j :: 0 <= j < k && trace[j].ok ==> trace[j].step in other
    decreases k
  {
    if k > 0 {
      BelowEveryFixpoint(plan0, trace, k - 1, failed, other);
      var i := trace[k - 1].step;
      if trace[k - 1].ok {
        forall m | 0 <= m < |plan0[i].dependencies| ensures plan0[i].dependencies[m] in other {
          var d := plan0[i].dependencies[m];
          assert DoneBefore(plan0, trace, k - 1, d);
          if InitiallyDone(plan0, d) {
            assert d in Enabled(plan0, failed, other);
          } else {
            var j :| 0 <= j < |trace[..k - 1]| && trace[..k - 1][j] == Execution(d, true);
            assert trace[j].ok;
          }
        }
        assert i in Enabled(plan0, failed, other);
      }
    }
  }

  /** A step does not both succeed and fail. */
  lemma OneOutcome(plan0: seq<PlanStep>, trace: seq<Execution>, j: nat)
    requires Orderly(plan0, trace) && j < |trace| && trace[j].ok
    ensures trace[j].step !in FailedSteps(plan0, trace)
  {
  }

  lemma DependencyCompleted(plan0: seq<PlanStep>, plan: seq<PlanStep>, trace: seq<Execution>, k: nat, d: int)
    requires Consistent(plan0, plan, trace) && k <= |trace| && DoneBefore(plan0, trace, k, d)
    requires forall j :: 0 <= j < |trace| ==> 0 <= trace[j].step < |plan|
    ensures d in CompletedSteps(plan)
  {
    if !InitiallyDone(plan0, d) {
      var j :| 0 <= j < |trace[..k]| && trace[..k][j] == Execution(d, true);
      assert trace[j] == Execution(d, true);
      assert Ran(trace, Execution(d, true));
    }
  }

  lemma CompletedIsEnabled(plan0: seq<PlanStep>, plan: seq<PlanStep>, trace: seq<Execution>, i: int)
    requires Consistent(plan0, plan, trace) && i in CompletedSteps(plan)
    ensures i in Enabled(plan0, FailedSteps(plan0, trace), CompletedSteps(plan))
  {
    if !InitiallyDone(plan0, i) {
      var k :| 0 <= k < |trace| && trace[k] == Execution(i, true);
      OneOutcome(plan0, trace, k);
      forall m | 0 <= m < |plan0[i].dependencies| ensures plan0[i].dependencies[m] in CompletedSteps(plan) {
        DependencyCompleted(plan0, plan, trace, k, plan0[i].dependencies[m]);
      }
    }
  }

  lemma EnabledIsCompleted(plan0: seq<PlanStep>, plan: seq<PlanStep>, trace: seq<Execution>, i: int)
    requires Consistent(plan0, plan, trace) && !Ready(plan, i)
    requires i in Enabled(plan0, FailedSteps(plan0, trace), CompletedSteps(plan))
    ensures i in CompletedSteps(plan)
  {
    assert StepReflects(plan0[i], plan[i], Ran(trace, Execution(i, true)), Ran(trace, Execution(i, false)));
  }

  /** When nothing is ready any more, the completed steps are the least fixpoint. */
  lemma CompletedIsLeast(plan0: seq<PlanStep>, plan: seq<PlanStep>, trace: seq<Execution>)
    requires Consistent(plan0, plan, trace) && forall i :: !Ready(plan, i)
    ensures IsLeastFixpoint(plan0, FailedSteps(plan0, trace), CompletedSteps(plan))
  {
    var failed, done := FailedSteps(plan0, trace), CompletedSteps(plan);
    forall i | i in done ensures i in Enabled(plan0, failed, done) {
      CompletedIsEnabled(plan0, plan, trace, i);
    }
    forall i | i in Enabled(plan0, failed, done) ensures i in done {
      EnabledIsCompleted(plan0, plan, trace, i);
    }
    forall other | Enabled(plan0, failed, other) <= other ensures done <= other {
      CompletedBelow(plan0, plan, trace, other);
    }
  }

  lemma CompletedBelow(plan0: seq<PlanStep>, plan: seq<PlanStep>, trace: seq<Execution>, other: set<int>)
    requires Consistent(plan0, plan, trace) && Enabled(plan0, FailedSteps(plan0, trace), other) <= other
    ensures CompletedSteps(plan) <= other
  {
    var failed := FailedSteps(plan0, trace);
    forall j | 0 <= j < |trace| && trace[j].ok ensures trace[j].step !in failed {
      OneOutcome(plan0, trace, j);
    }
    BelowEveryFixpoint(plan0, trace, |trace|, failed, other);
    forall i | i in CompletedSteps(plan) ensures i in other {
      if InitiallyDone(plan0, i) {
        assert i in Enabled(plan0, failed, other);
      } else {
        var k :| 0 <= k < |trace| && trace[k] == Execution(i, true);
      }
    }
  }

  /** A plan whose steps only depend on earlier ones completes as a whole unless the executor fails a step. */
  lemma {:induction false} LayeredPlanCompletes(plan0: seq<PlanStep>, done: set<int>, i: nat)
    requires IsLeastFixpoint(plan0, {}, done) && i <= |plan0|
    requires forall k :: 0 <= k < |plan0| ==> plan0[k].status in {Pending, Completed}
    requires forall k, m :: 0 <= k < |plan0| && 0 <= m < |plan0[k].dependencies| ==> 0 <= plan0[k].dependencies[m] < k
    ensures forall k :: 0 <= k < i ==> k in done
  {
    if i > 0 {
      LayeredPlanCompletes(plan0, done, i - 1);
      assert i - 1 in Enabled(plan0, {}, done);
    }
  }

  /** Steps that wait for one another, or for a step that does not exist, are never completed. */
  lemma DeadlockedStepsNeverComplete(plan0: seq<PlanStep>, failed: set<int>, done: set<int>, stuck: set<int>)
    requires IsLeastFixpoint(plan0, failed, done)
    requires forall i :: i in stuck && 0 <= i < |plan0| ==>
      && plan0[i].status != Completed
      && (exists d :: d in plan0[i].dependencies && (d in stuck || !(0 <= d < |plan0|)))
    ensures done !! stuck
  {
    var others := set i | 0 <= i < |plan0| && i !in stuck;
    assert Enabled(plan0, failed, others) <= others;
  }

  // ---------------------------------------------------------------------------------------------
  // The executor loop

  ghost function Count(plan: seq<PlanStep>, status: Status): nat {
    if plan == [] then 0
    else Count(plan[..|plan| - 1], status) + if plan[|plan| - 1].status == status then 1 else 0
  }

  lemma {:induction false} CountUpdate(plan: seq<PlanStep>, i: nat, to: Status, status: Status)
    requires i < |plan|
    ensures
      Count(plan[i := plan[i].(status := to)], status)
        == Count(plan, status) - (if plan[i].status == status then 1 else 0) + (if to == status then 1 else 0)
  {
    var front := plan[..|plan| - 1];
    var plan' := plan[i := plan[i].(status := to)];
    if i < |front| {
      CountUpdate(front, i, to, status);
      assert plan'[..|plan| - 1] == front[i := front[i].(status := to)];
    } else {
      assert plan'[..|plan| - 1] == front;
    }
  }

  /** Where the search for a step number stops: its first place, or the length. */
  ghost function Place(plan: seq<PlanStep>, number: int): nat {
    if plan == [] || plan[0].number == number then 0 else 1 + Place(plan[1..], number)
  }

  lemma {:induction false} PlaceIs(plan: seq<PlanStep>, number: int)
    ensures Place(plan, number) <= |plan|
    ensures Place(plan, number) < |plan| ==> plan[Place(plan, number)].number == number
    ensures forall j :: 0 <= j < Place(plan, number) ==> plan[j].number != number
  {
    if plan != [] {
      PlaceIs(plan[1..], number);
      assert forall j :: 1 <= j < |plan| ==> plan[j] == plan[1..][j - 1];
    }
  }

  /** The plan after one call of the executor for the step with this number. */
  ghost function Executed(plan: seq<PlanStep>, number: int, ok: bool): seq<PlanStep> {
    var p := Place(plan, number);
    if p < |plan| then plan[p := plan[p].(status := if ok then Completed else Failed)] else plan
  }

  /** Runs one step: finds it by its number and records the outcome. */
  method ExecuteStep(steps: array<PlanStep>, step: PlanStep, ok: bool)
    modifies steps
    ensures steps[..] == Executed(old(steps[..]), step.number, ok)
  {
    ghost var plan := steps[..];
    PlaceIs(plan, step.number);
    for m := 0 to steps.Length
      invariant steps[..] == plan && forall j :: 0 <= j < m ==> plan[j].number != step.number
    {
      if steps[m].number == step.number {
        steps[m] := steps[m].(status := InProgress);
        steps[m] := steps[m].(status := if ok then Completed else Failed);
        assert steps[..] == plan[m := plan[m].(status := if ok then Completed else Failed)];
        return;
      }
    }
  }

  /** The answer of the executor to its n-th call, for the step with the given number. */
  type Executor = (nat, int) -> bool

  /** The plan after the executor was called for each of `next` in turn. */
  ghost function RunAll(plan: seq<PlanStep>, next: seq<PlanStep>, executor: Executor, calls: nat): seq<PlanStep>
    decreases |next|
  {
    if next == [] then plan
    else RunAll(Executed(plan, next[0].number, executor(calls, next[0].number)), next[1..], executor, calls + 1)
  }

  /** Runs, one after the other, the steps that were ready when the round began. */
  method ExecuteRound(steps: array<PlanStep>, next: seq<PlanStep>, executor: Executor, calls: nat) returns (calls': nat)
    modifies steps
    ensures steps[..] == RunAll(old(steps[..]), next, executor, calls) && calls' == calls + |next|
  {
    calls' := calls;
    for i := 0 to |next|
      invariant calls' == calls + i
      invariant RunAll(old(steps[..]), next, executor, calls) == RunAll(steps[..], next[i..], executor, calls')
    {
      var ok := executor(calls', next[i].number);
      assert next[i..][1..] == next[i + 1..];
      ExecuteStep(steps, next[i], ok);
      calls' := calls' + 1;
    }
  }

  /** The plan after replanning: failed steps are merely marked as skipped. */
  ghost function SkipAll(plan: seq<PlanStep>): seq<PlanStep> {
    seq(|plan|, i requires 0 <= i < |plan| => if plan[i].status == Failed then plan[i].(status := Skipped) else plan[i])
  }

  /** Asks for alternatives if something failed; nothing comes of the answer but that failed steps are skipped. */
  method Replan(steps: array<PlanStep>, llmAnswers: bool) returns (ok: bool)
    modifies steps
    ensures ok <==> !SomeFailed(old(steps[..])) || llmAnswers
    ensures steps[..] == if ok then SkipAll(old(steps[..])) else old(steps[..])
  {
    ghost var plan := steps[..];
    var failures := HasPlanFailures(steps[..]);
    if !failures {
      return true;
    }
    if !llmAnswers {
      return false;
    }
    for i := 0 to steps.Length
      invariant forall m :: 0 <= m < i ==> steps[m] == SkipAll(plan)[m]
      invariant forall m :: i <= m < steps.Length ==> steps[m] == plan[m]
    {
      if steps[i].status == Failed {
        steps[i] := steps[i].(status := Skipped);
      }
    }
    return true;
  }

  datatype Stop = Running | Done | Blocked | Aborted

  /** The loop of the executor between two turns. */
  datatype Loop = Loop(plan: seq<PlanStep>, calls: nat, turns: nat, stop: Stop)

  ghost predicate Finished(plan: seq<PlanStep>) {
    forall i :: 0 <= i < |plan| ==> plan[i].status in {Completed, Skipped}
  }

  ghost predicate SomeFailed(plan: seq<PlanStep>) {
    exists i :: 0 <= i < |plan| && plan[i].status == Failed
  }

  /** What a turn depends on besides the plan. */
  datatype World = World(executor: Executor, allowReplanning: bool, llm: nat -> bool)

  /** One turn: a round of ready steps, or else replanning, or else the end. */
  ghost function TurnOf(w: World, l: Loop): Loop {
    var next := ReadySteps(l.plan);
    if l.stop != Running then l
    else if Finished(l.plan) then l.(stop := Done)
    else if next != [] then Loop(RunAll(l.plan, next, w.executor, l.calls), l.calls + |next|, l.turns + 1, Running)
    else if !(SomeFailed(l.plan) && w.allowReplanning) then l.(stop := Blocked)
    else if w.llm(l.turns) then Loop(SkipAll(l.plan), l.calls, l.turns + 1, Running)
    else l.(stop := Aborted)
  }

  ghost function TurnsOf(w: World, l: Loop, k: nat): Loop {
    if k == 0 then l else TurnOf(w, TurnsOf(w, l, k - 1))
  }

  method TakeTurn(steps: array<PlanStep>, w: World, calls: nat, turns: nat) returns (calls': nat, turns': nat, stop: Stop)
    modifies steps
    ensures Loop(steps[..], calls', turns', stop) == TurnOf(w, Loop(old(steps[..]), calls, turns, Running))
  {
    calls', turns' := calls, turns;
    var complete := IsPlanComplete(steps[..]);
    if complete {
      return calls', turns', Done;
    }
    var next := GetNextSteps(steps[..]);
    if next != [] {
      calls' := ExecuteRound(steps, next, w.executor, calls);
      return calls', turns + 1, Running;
    }
    var failures := HasPlanFailures(steps[..]);
    if !(failures && w.allowReplanning) {
      return calls', turns', Blocked;
    }
    var ok := Replan(steps, w.llm(turns));
    if !ok {
      return calls', turns', Aborted;
    }
    return calls', turns + 1, Running;
  }

  // ---------------------------------------------------------------------------------------------
  // Exactly when the loop ends

  ghost predicate IsPosition(plan: seq<PlanStep>, i: int) {
    0 <= i < |plan|
  }

  ghost function Positions(plan: seq<PlanStep>): set<int> {
    set i | 0 <= i < |plan| && IsPosition(plan, i)
  }

  /** No earlier step has the same number. */
  ghost predicate IsFirst(plan: seq<PlanStep>, i: int) {
    0 <= i < |plan| && forall j :: 0 <= j < i ==> plan[j].number != plan[i].number
  }

  /** The position is completed from the start, or may be once all of `reach` is. */
  ghost predicate Within(plan0: seq<PlanStep>, reach: set<int>, i: int) {
    0 <= i < |plan0| &&
      (plan0[i].status == Completed || (plan0[i].status == Pending && Met(plan0[i].dependencies, reach)))
  }

  ghost predicate Closed(plan0: seq<PlanStep>, reach: set<int>) {
    forall i :: Within(plan0, reach, i) ==> i in reach
  }

  /** A pending step whose dependencies can be completed, but whose number finds another step. */
  ghost predicate Trap(plan0: seq<PlanStep>, reach: set<int>, j: int) {
    0 <= j < |plan0| && plan0[j].status == Pending && Met(plan0[j].dependencies, reach) && !IsFirst(plan0, j)
  }

  ghost predicate Untrapped(plan0: seq<PlanStep>, reach: set<int>) {
    Closed(plan0, reach) && forall j :: !Trap(plan0, reach, j)
  }

  /** No step that can ever become ready shares its number with an earlier one. */
  ghost predicate NoTrap(plan0: seq<PlanStep>) {
    exists reach :: Untrapped(plan0, reach)
  }

  /** A plan that runs for ever: a pending step that can run at once, with the number of an earlier step. */
  lemma RepeatedNumberTraps(plan: seq<PlanStep>, i: nat, j: nat)
    requires i < j < |plan| && plan[i].number == plan[j].number && plan[j].status == Pending
    requires forall m :: 0 <= m < |plan[j].dependencies| ==> InitiallyDone(plan, plan[j].dependencies[m])
    ensures !NoTrap(plan)
  {
    forall reach ensures !Untrapped(plan, reach) {
      if Closed(plan, reach) {
        forall m | 0 <= m < |plan[j].dependencies| ensures plan[j].dependencies[m] in reach {
          assert Within(plan, reach, plan[j].dependencies[m]);
        }
        assert Trap(plan, reach, j);
      }
    }
  }

  /** There is no such step when all numbers are different. */
  lemma DifferentNumbersNoTrap(plan: seq<PlanStep>)
    requires forall i, j :: 0 <= i < j < |plan| ==> plan[i].number != plan[j].number
    ensures NoTrap(plan)
  {
    assert Untrapped(plan, Positions(plan));
  }

  /** The trace is what the executor answered. */
  ghost predicate Answered(plan0: seq<PlanStep>, executor: Executor, trace: seq<Execution>) {
    forall k :: 0 <= k < |trace| && 0 <= trace[k].step < |plan0| ==>
      trace[k].ok == executor(k, plan0[trace[k].step].number)
  }

  lemma AnsweredOn(plan0: seq<PlanStep>, plan: seq<PlanStep>, executor: Executor, trace: seq<Execution>, i: int)
    requires Reflects(plan0, plan, trace) && Answered(plan0, executor, trace) && 0 <= i < |plan|
    ensures Answered(plan0, executor, trace + [Execution(i, executor(|trace|, plan[i].number))])
  {
    assert StepReflects(plan0[i], plan[i], Ran(trace, Execution(i, true)), Ran(trace, Execution(i, false)));
  }

  /** The steps `next` stand at the positions `at` of the plan and are ready to run. */
  ghost predicate Queued(plan: seq<PlanStep>, next: seq<PlanStep>, at: seq<int>) {
    && |next| == |at|
    && (forall j :: 0 <= j < |at| ==> Ready(plan, at[j]) && next[j] == plan[at[j]])
    && (forall j, k :: 0 <= j < k < |at| ==> at[j] < at[k])
  }

  lemma RestQueued(plan: seq<PlanStep>, next: seq<PlanStep>, at: seq<int>, to: Status)
    requires Queued(plan, next, at) && next != []
    ensures Queued(plan[at[0] := next[0].(status := to)], next[1..], at[1..])
  {
  }

  /** The executor has been called `calls` times, as the trace tells, and the plan says what came of it. */
  ghost predicate Underway(plan0: seq<PlanStep>, plan: seq<PlanStep>, executor: Executor, calls: nat, trace: seq<Execution>) {
    Consistent(plan0, plan, trace) && NoTrap(plan0) && calls == |trace| && Answered(plan0, executor, trace)
  }

  /** Without traps the search by number finds the step that was ready. */
  lemma ReadyIsFound(plan0: seq<PlanStep>, plan: seq<PlanStep>, trace: seq<Execution>, i: int)
    requires Consistent(plan0, plan, trace) && NoTrap(plan0) && Ready(plan, i)
    ensures Place(plan, plan[i].number) == i
  {
    var reach :| Untrapped(plan0, reach);
    assert Enabled(plan0, FailedSteps(plan0, trace), reach) <= reach by {
      forall m | m in Enabled(plan0, FailedSteps(plan0, trace), reach) ensures m in reach {
        assert Within(plan0, reach, m);
      }
    }
    CompletedBelow(plan0, plan, trace, reach);
    assert StepReflects(plan0[i], plan[i], Ran(trace, Execution(i, true)), Ran(trace, Execution(i, false)));
    assert !Trap(plan0, reach, i);
    assert forall j :: 0 <= j < |plan| ==>
      StepReflects(plan0[j], plan[j], Ran(trace, Execution(j, true)), Ran(trace, Execution(j, false)));
    PlaceIs(plan, plan[i].number);
  }

  lemma FirstKeeps(plan0: seq<PlanStep>, plan: seq<PlanStep>, executor: Executor, calls: nat, trace: seq<Execution>, i: int)
    requires Underway(plan0, plan, executor, calls, trace) && Ready(plan, i)
    ensures
      var ok := executor(calls, plan[i].number);
      var plan' := plan[i := plan[i].(status := if ok then Completed else Failed)];
      && Executed(plan, plan[i].number, ok) == plan'
      && Underway(plan0, plan', executor, calls + 1, trace + [Execution(i, ok)])
      && Count(plan', Pending) == Count(plan, Pending) - 1
  {
    var ok := executor(calls, plan[i].number);
    ReadyIsFound(plan0, plan, trace, i);
    AnsweredOn(plan0, plan, executor, trace, i);
    RunsReadyStep(plan0, plan, trace, i, ok);
    RunReflected(plan0, plan, trace, i, ok);
    CountUpdate(plan, i, if ok then Completed else Failed, Pending);
  }

  /** A round runs every queued step, each still ready when its turn comes. */
  lemma {:induction false} RoundKeeps(
    plan0: seq<PlanStep>, plan: seq<PlanStep>, next: seq<PlanStep>, at: seq<int>, executor: Executor, calls: nat, trace: seq<Execution>)
    returns (trace': seq<Execution>)
    requires Underway(plan0, plan, executor, calls, trace) && Queued(plan, next, at)
    ensures Underway(plan0, RunAll(plan, next, executor, calls), executor, calls + |next|, trace')
    ensures Count(RunAll(plan, next, executor, calls), Pending) == Count(plan, Pending) - |next|
    decreases |next|
  {
    if next == [] {
      return trace;
    }
    var ok := executor(calls, next[0].number);
    var plan' := plan[at[0] := next[0].(status := if ok then Completed else Failed)];
    FirstKeeps(plan0, plan, executor, calls, trace, at[0]);
    RestQueued(plan, next, at, if ok then Completed else Failed);
    trace' := RoundKeeps(plan0, plan', next[1..], at[1..], executor, calls + 1, trace + [Execution(at[0], ok)]);
  }

  lemma {:induction false} SkipCounts(plan: seq<PlanStep>)
    ensures Count(SkipAll(plan), Pending) == Count(plan, Pending) && Count(SkipAll(plan), Failed) == 0
    ensures SomeFailed(plan) ==> Count(plan, Failed) > 0
  {
    if plan != [] {
      var front := plan[..|plan| - 1];
      SkipCounts(front);
      assert SkipAll(plan)[..|plan| - 1] == SkipAll(front);
      if i :| 0 <= i < |plan| && plan[i].status == Failed {
        assert i < |front| ==> front[i].status == Failed;
      }
    }
  }

  lemma SkipReflected(plan0: seq<PlanStep>, plan: seq<PlanStep>, trace: seq<Execution>)
    requires Reflects(plan0, plan, trace)
    ensures Reflects(plan0, SkipAll(plan), trace)
  {
    forall i | 0 <= i < |plan|
      ensures StepReflects(plan0[i], SkipAll(plan)[i], Ran(trace, Execution(i, true)), Ran(trace, Execution(i, false)))
    {
      assert StepReflects(plan0[i], plan[i], Ran(trace, Execution(i, true)), Ran(trace, Execution(i, false)));
    }
  }

  /** What gets smaller with every turn, the first number before the second. */
  datatype Measure = Measure(pending: nat, failed: nat)

  ghost function MeasureOf(plan: seq<PlanStep>): Measure {
    Measure(Count(plan, Pending), Count(plan, Failed))
  }

  ghost predicate Below(m': Measure, m: Measure) {
    m'.pending < m.pending || (m'.pending == m.pending && m'.failed < m.failed)
  }

  /** The loop stops for a reason, and then nothing is ready. */
  ghost predicate StopMeans(w: World, l: Loop) {
    && (l.stop != Running ==> forall i :: !Ready(l.plan, i))
    && (l.stop == Done <==> l.stop != Running && Finished(l.plan))
    && (l.stop == Blocked ==> !(w.allowReplanning && SomeFailed(l.plan)))
    && (l.stop == Aborted ==> w.allowReplanning && SomeFailed(l.plan))
  }

  /** The list holds exactly the ready steps, in order of their positions `at`. */
  lemma ReadyStepsMean(plan: seq<PlanStep>) returns (at: seq<int>)
    ensures Queued(plan, ReadySteps(plan), at)
    ensures forall i :: Ready(plan, i) ==> i in at
    ensures ReadySteps(plan) == [] ==> forall i :: !Ready(plan, i)
  {
    at := ReadyAreQueued(plan, |plan|);
  }

  lemma StoppedMeans(w: World, l: Loop)
    requires l.stop == Running && TurnOf(w, l).stop != Running
    ensures TurnOf(w, l) == l.(stop := TurnOf(w, l).stop) && StopMeans(w, TurnOf(w, l))
  {
    var at := ReadyStepsMean(l.plan);
  }

  lemma SkipTurnKeeps(plan0: seq<PlanStep>, plan: seq<PlanStep>, executor: Executor, calls: nat, trace: seq<Execution>)
    requires Underway(plan0, plan, executor, calls, trace)
    ensures Underway(plan0, SkipAll(plan), executor, calls, trace)
  {
    SkipReflected(plan0, plan, trace);
  }

  /** Every turn makes the pair (pending, failed) smaller or stops. */
  lemma TurnKeeps(plan0: seq<PlanStep>, w: World, l: Loop, trace: seq<Execution>) returns (trace': seq<Execution>)
    requires Underway(plan0, l.plan, w.executor, l.calls, trace) && l.stop == Running
    ensures Underway(plan0, TurnOf(w, l).plan, w.executor, TurnOf(w, l).calls, trace')
    ensures TurnOf(w, l).stop == Running ==> Below(MeasureOf(TurnOf(w, l).plan), MeasureOf(l.plan))
    ensures StopMeans(w, TurnOf(w, l))
  {
    trace' := trace;
    if TurnOf(w, l).stop != Running {
      StoppedMeans(w, l);
    } else if ReadySteps(l.plan) != [] {
      var at := ReadyStepsMean(l.plan);
      trace' := RoundKeeps(plan0, l.plan, ReadySteps(l.plan), at, w.executor, l.calls, trace);
    } else {
      SkipTurnKeeps(plan0, l.plan, w.executor, l.calls, trace);
      SkipCounts(l.plan);
    }
  }

  // ---------------------------------------------------------------------------------------------
  // What the replanning calls decide

  /** The turn asks for alternatives: steps are left, none is ready, and one has failed. */
  ghost predicate Asks(w: World, l: Loop) {
    l.stop == Running && !Finished(l.plan) && ReadySteps(l.plan) == [] && SomeFailed(l.plan) && w.allowReplanning
  }

  ghost predicate Increasing(ts: seq<nat>) {
    forall i, j :: 0 <= i < j < |ts| ==> ts[i] < ts[j]
  }

  /** All calls made in the turns `asked` were answered. */
  ghost predicate AllAnswered(w: World, asked: seq<nat>) {
    forall j :: 0 <= j < |asked| ==> w.llm(asked[j])
  }

  ghost predicate SkippedSince(plan0: seq<PlanStep>, plan: seq<PlanStep>) {
    exists i :: 0 <= i < |plan0| && i < |plan| && plan0[i].status != Skipped && plan[i].status == Skipped
  }

  /**
   The replanning calls so far were made in the turns `asked`: none if they are not allowed, each answered but for the
   one that ended the loop, and steps were skipped only after such an answer.
   */
  ghost predicate Replanned(w: World, plan0: seq<PlanStep>, l: Loop, asked: seq<nat>) {
    && |l.plan| == |plan0|
    && (!w.allowReplanning ==> asked == [])
    && Increasing(asked) && (forall j :: 0 <= j < |asked| ==> asked[j] < l.turns + if l.stop == Running then 0 else 1)
    && (if l.stop == Aborted then asked != [] && AllAnswered(w, asked[..|asked| - 1]) && !w.llm(asked[|asked| - 1])
        else AllAnswered(w, asked))
    && (SkippedSince(plan0, l.plan) ==> asked != [] && w.llm(asked[0]))
  }

  /** A round skips nothing. */
  lemma {:induction false} RoundSkipsNothing(plan: seq<PlanStep>, next: seq<PlanStep>, executor: Executor, calls: nat)
    ensures
      var plan' := RunAll(plan, next, executor, calls);
      |plan'| == |plan| && forall i :: 0 <= i < |plan| && plan'[i].status == Skipped ==> plan[i].status == Skipped
    decreases |next|
  {
    if next != [] {
      RoundSkipsNothing(Executed(plan, next[0].number, executor(calls, next[0].number)), next[1..], executor, calls + 1);
    }
  }

  lemma ReplannedRound(w: World, plan0: seq<PlanStep>, l: Loop, asked: seq<nat>)
    requires Replanned(w, plan0, l, asked) && l.stop == Running
    ensures
      var next := ReadySteps(l.plan);
      Replanned(w, plan0, Loop(RunAll(l.plan, next, w.executor, l.calls), l.calls + |next|, l.turns + 1, Running), asked)
  {
    RoundSkipsNothing(l.plan, ReadySteps(l.plan), w.executor, l.calls);
  }

  lemma ReplannedCall(w: World, plan0: seq<PlanStep>, l: Loop, asked: seq<nat>)
    requires Replanned(w, plan0, l, asked) && l.stop == Running && w.allowReplanning
    ensures w.llm(l.turns) ==>
      Replanned(w, plan0, Loop(SkipAll(l.plan), l.calls, l.turns + 1, Running), asked + [l.turns])
    ensures !w.llm(l.turns) ==> Replanned(w, plan0, l.(stop := Aborted), asked + [l.turns])
  {
    assert (asked + [l.turns])[..|asked|] == asked;
  }

  lemma ReplannedOn(w: World, plan0: seq<PlanStep>, l: Loop, asked: seq<nat>)
    requires Replanned(w, plan0, l, asked) && l.stop == Running
    ensures Replanned(w, plan0, TurnOf(w, l), if Asks(w, l) then asked + [l.turns] else asked)
  {
    if Asks(w, l) {
      ReplannedCall(w, plan0, l, asked);
    } else {
      ReplannedRound(w, plan0, l, asked);
    }
  }

  lemma NextTurn(plan0: seq<PlanStep>, w: World, l: Loop, trace: seq<Execution>, m: Measure)
    returns (next: Loop, trace': seq<Execution>, m': Measure)
    requires Underway(plan0, l.plan, w.executor, l.calls, trace) && l.stop == Running && m == MeasureOf(l.plan)
    ensures next == TurnOf(w, l) && Underway(plan0, next.plan, w.executor, next.calls, trace') && m' == MeasureOf(next.plan)
    ensures next.stop == Running ==> Below(m', m)
    ensures StopMeans(w, next)
  {
    next, m' := TurnOf(w, l), MeasureOf(TurnOf(w, l).plan);
    trace' := TurnKeeps(plan0, w, l, trace);
  }

  lemma StartUnderway(plan: seq<PlanStep>, executor: Executor)
    requires NoTrap(plan)
    ensures Underway(plan, plan, executor, 0, [])
  {
  }

  /** One turn, with the history of the execution carried along. */
  method TrackedTurn(
    ghost plan0: seq<PlanStep>, steps: array<PlanStep>, w: World, calls: nat, turns: nat,
    ghost trace: seq<Execution>, ghost asked: seq<nat>, ghost m: Measure)
    returns (calls': nat, turns': nat, stop: Stop, ghost trace': seq<Execution>, ghost asked': seq<nat>, ghost m': Measure)
    requires Underway(plan0, steps[..], w.executor, calls, trace) && m == MeasureOf(steps[..])
    requires Replanned(w, plan0, Loop(steps[..], calls, turns, Running), asked)
    modifies steps
    ensures Loop(steps[..], calls', turns', stop) == TurnOf(w, Loop(old(steps[..]), calls, turns, Running))
    ensures Underway(plan0, steps[..], w.executor, calls', trace') && m' == MeasureOf(steps[..])
    ensures Replanned(w, plan0, Loop(steps[..], calls', turns', stop), asked')
    ensures StopMeans(w, Loop(steps[..], calls', turns', stop))
    ensures stop == Running ==> Below(m', m)
  {
    ghost var l := Loop(steps[..], calls, turns, Running);
    ghost var next;
    next, trace', m' := NextTurn(plan0, w, l, trace, m);
    ReplannedOn(w, plan0, l, asked);
    asked' := if Asks(w, l) then asked + [turns] else asked;
    calls', turns', stop := TakeTurn(steps, w, calls, turns);
  }

  /**
   Executes a plan, for any dependencies (cycles and dangling ones included), any statuses to start from, any behaviour
   of the executor and any behaviour of the replanning calls.  It ends; every pending step runs at most once and only
   after its dependencies; and the completed steps are the least fixpoint.  `asked` are the turns in which a replanning
   call was made: the first call that is not answered ends the execution, and as long as they are answered no step stays
   failed.  Without replanning every failed step stays failed.  The guard is exactly the one under which the loop ends.
   */
  method ExecutePlan(steps: array<PlanStep>, w: World)
    returns (summary: Summary, ghost trace: seq<Execution>, ghost k: nat, ghost asked: seq<nat>)
    requires NoTrap(steps[..])
    modifies steps
    ensures Consistent(old(steps[..]), steps[..], trace) && Answered(old(steps[..]), w.executor, trace)
    ensures IsLeastFixpoint(old(steps[..]), FailedSteps(old(steps[..]), trace), CompletedSteps(steps[..]))
    ensures
      var l := TurnsOf(w, Loop(old(steps[..]), 0, 0, Running), k);
      steps[..] == l.plan && |trace| == l.calls && summary == SummaryOf(l)
    ensures summary == PlanCompleted <==> Finished(steps[..])
    ensures summary == PlanFailed ==> SomeFailed(steps[..]) && !w.allowReplanning
    ensures summary == PlanPartial ==> !SomeFailed(steps[..])
    ensures summary == ReplanningFailed ==> SomeFailed(steps[..]) && w.allowReplanning
    ensures summary == ReplanningFailed <==> asked != [] && !w.llm(asked[|asked| - 1])
    ensures Increasing(asked) && forall j :: 0 <= j < |asked| - 1 ==> w.llm(asked[j])
    ensures (forall n :: w.llm(n)) ==> summary != ReplanningFailed
    ensures w.allowReplanning && summary != ReplanningFailed ==> !SomeFailed(steps[..])
    ensures SkippedSince(old(steps[..]), steps[..]) ==> w.allowReplanning && asked != [] && w.llm(asked[0])
  {
    ghost var plan0 := steps[..];
    StartUnderway(plan0, w.executor);
    var calls, turns, stop := 0, 0, Running;
    trace, k, asked := [], 0, [];
    ghost var m := MeasureOf(plan0);
    while stop == Running
      invariant Loop(steps[..], calls, turns, stop) == TurnsOf(w, Loop(plan0, 0, 0, Running), k)
      invariant Underway(plan0, steps[..], w.executor, calls, trace)
      invariant StopMeans(w, Loop(steps[..], calls, turns, stop))
      invariant Replanned(w, plan0, Loop(steps[..], calls, turns, stop), asked)
      invariant m == MeasureOf(steps[..])
      decreases stop == Running, m.pending, m.failed
    {
      calls, turns, stop, trace, asked, m := TrackedTurn(plan0, steps, w, calls, turns, trace, asked, m);
      k := k + 1;
    }
    CompletedIsLeast(plan0, steps[..], trace);
    if stop == Aborted {
      return ReplanningFailed, trace, k, asked;
    }
    var complete := IsPlanComplete(steps[..]);
    if complete {
      return PlanCompleted, trace, k, asked;
    }
    var failures := HasPlanFailures(steps[..]);
    summary := if failures then PlanFailed else PlanPartial;
  }

  /** At most `limit` turns of the loop, for any plan. */
  method ExecuteFor(steps: array<PlanStep>, w: World, limit: nat) returns (stop: Stop, calls: nat, turns: nat, ghost k: nat)
    modifies steps
    ensures Loop(steps[..], calls, turns, stop) == TurnsOf(w, Loop(old(steps[..]), 0, 0, Running), k)
    ensures k <= limit && (stop == Running ==> k == limit)
  {
    ghost var l0 := Loop(steps[..], 0, 0, Running);
    calls, turns, stop, k := 0, 0, Running, 0;
    for i := 0 to limit
      invariant k == i && stop == Running && Loop(steps[..], calls, turns, stop) == TurnsOf(w, l0, k)
    {
      calls, turns, stop := TakeTurn(steps, w, calls, turns);
      k := k + 1;
      if stop != Running {
        return;
      }
    }
  }

  datatype Summary = PlanCompleted | PlanFailed | PlanPartial | ReplanningFailed

  ghost function SummaryOf(l: Loop): Summary {
    if l.stop == Aborted then ReplanningFailed
    else if Finished(l.plan) then PlanCompleted
    else if SomeFailed(l.plan) then PlanFailed
    else PlanPartial
  }

  ghost predicate Ends(w: World, l: Loop) {
    exists k: nat :: StopsAfter(w, l, k)
  }

  lemma {:induction false} TurnsShift(w: World, l: Loop, k: nat)
    ensures TurnsOf(w, TurnOf(w, l), k) == TurnsOf(w, l, k + 1)
  {
    if k > 0 {
      TurnsShift(w, l, k - 1);
    }
  }

  ghost predicate StopsAfter(w: World, l: Loop, k: nat) {
    TurnsOf(w, l, k).stop != Running
  }

  lemma StopsOneLater(w: World, l: Loop, next: Loop, k: nat)
    requires next == TurnOf(w, l) && StopsAfter(w, next, k)
    ensures StopsAfter(w, l, k + 1)
  {
    TurnsShift(w, l, k);
  }

  lemma UntrappedTurn(plan0: seq<PlanStep>, w: World, l: Loop, trace: seq<Execution>, m: Measure)
    returns (next: Loop, trace': seq<Execution>, m': Measure)
    requires Underway(plan0, l.plan, w.executor, l.calls, trace) && l.stop == Running && m == MeasureOf(l.plan)
    ensures Underway(plan0, next.plan, w.executor, next.calls, trace') && m' == MeasureOf(next.plan)
    ensures next.stop == Running ==> Below(m', m)
    ensures next.stop != Running ==> StopsAfter(w, l, 1)
    ensures forall k: nat :: StopsAfter(w, next, k) ==> StopsAfter(w, l, k + 1)
  {
    next, trace', m' := NextTurn(plan0, w, l, trace, m);
    assert TurnsOf(w, l, 0) == l;
    forall k: nat | StopsAfter(w, next, k) ensures StopsAfter(w, l, k + 1) {
      StopsOneLater(w, l, next, k);
    }
  }

  lemma {:induction false} UntrappedStops(plan0: seq<PlanStep>, w: World, l: Loop, trace: seq<Execution>, m: Measure) returns (k: nat)
    requires Underway(plan0, l.plan, w.executor, l.calls, trace) && m == MeasureOf(l.plan)
    ensures StopsAfter(w, l, k)
    decreases m.pending, m.failed
  {
    if l.stop != Running {
      return 0;
    }
    var next, trace', m' := UntrappedTurn(plan0, w, l, trace, m);
    if next.stop != Running {
      return 1;
    }
    k := UntrappedStops(plan0, w, next, trace', m');
    k := k + 1;
  }

  // An executor that never fails runs into a trap for ever

  /** Only first steps of their number have changed, and those to completed. */
  ghost predicate Advanced(plan0: seq<PlanStep>, plan: seq<PlanStep>) {
    && |plan| == |plan0|
    && forall i :: 0 <= i < |plan| ==>
      && plan[i].number == plan0[i].number && plan[i].dependencies == plan0[i].dependencies
      && (plan[i].status == plan0[i].status || (plan[i].status == Completed && IsFirst(plan0, i)))
  }

  lemma ExecutedAdvanced(plan0: seq<PlanStep>, plan: seq<PlanStep>, number: int)
    requires Advanced(plan0, plan)
    ensures Advanced(plan0, Executed(plan, number, true))
  {
    PlaceIs(plan, number);
  }

  lemma {:induction false} RoundAdvanced(plan0: seq<PlanStep>, plan: seq<PlanStep>, next: seq<PlanStep>, executor: Executor, calls: nat)
    requires Advanced(plan0, plan) && forall n, i :: executor(n, i)
    ensures Advanced(plan0, RunAll(plan, next, executor, calls))
    decreases |next|
  {
    if next != [] {
      ExecutedAdvanced(plan0, plan, next[0].number);
      RoundAdvanced(plan0, Executed(plan, next[0].number, true), next[1..], executor, calls + 1);
    }
  }

  /** As long as there are traps, something is ready. */
  lemma SomeReady(plan0: seq<PlanStep>, plan: seq<PlanStep>) returns (i: int)
    requires Advanced(plan0, plan) && !NoTrap(plan0)
    ensures Ready(plan, i)
  {
    var reach := CompletedSteps(plan);
    assert !Untrapped(plan0, reach);
    if Closed(plan0, reach) {
      i :| Trap(plan0, reach, i);
    } else {
      i :| Within(plan0, reach, i) && i !in reach;
    }
  }

  lemma NeverFinished(plan0: seq<PlanStep>, plan: seq<PlanStep>)
    requires Advanced(plan0, plan) && !NoTrap(plan0)
    ensures !Finished(plan)
  {
    assert !Untrapped(plan0, Positions(plan0)) && Closed(plan0, Positions(plan0));
    var j :| Trap(plan0, Positions(plan0), j);
    assert plan[j].status == Pending;
  }

  lemma TrappedTurn(plan0: seq<PlanStep>, w: World, l: Loop)
    requires !NoTrap(plan0) && (forall n, i :: w.executor(n, i)) && l.stop == Running && Advanced(plan0, l.plan)
    ensures TurnOf(w, l).stop == Running && Advanced(plan0, TurnOf(w, l).plan)
  {
    var i := SomeReady(plan0, l.plan);
    var at := ReadyStepsMean(l.plan);
    NeverFinished(plan0, l.plan);
    RoundAdvanced(plan0, l.plan, ReadySteps(l.plan), w.executor, l.calls);
  }

  lemma {:induction false} TrappedForever(plan0: seq<PlanStep>, w: World, k: nat)
    requires !NoTrap(plan0) && forall n, i :: w.executor(n, i)
    ensures
      var l := TurnsOf(w, Loop(plan0, 0, 0, Running), k);
      l.stop == Running && Advanced(plan0, l.plan)
  {
    if k > 0 {
      TrappedForever(plan0, w, k - 1);
      var l := TurnsOf(w, Loop(plan0, 0, 0, Running), k - 1);
      TrappedTurn(plan0, w, l);
    }
  }

  /**
   The executor loop ends for every behaviour of executor and replanning if and only if no step that can become ready
   shares its number with an earlier step.
   */
  lemma EndsIff(plan: seq<PlanStep>)
    ensures (forall w: World :: Ends(w, Loop(plan, 0, 0, Running))) <==> NoTrap(plan)
  {
    if NoTrap(plan) {
      forall w: World ensures Ends(w, Loop(plan, 0, 0, Running)) {
        StartUnderway(plan, w.executor);
        var k := UntrappedStops(plan, w, Loop(plan, 0, 0, Running), [], MeasureOf(plan));
      }
    } else {
      var w := World((n, i) => true, false, n => false);
      forall k: nat ensures TurnsOf(w, Loop(plan, 0, 0, Running), k).stop == Running {
        TrappedForever(plan, w, k);
      }
      assert !Ends(w, Loop(plan, 0, 0, Running));
    }
  }
}
