/** The checkpoint manager of checkpointing/manager.go: parent links, replay and pruning over the in-memory store. */
module CheckpointManager {
  import opened Common
  import opened CheckpointStore

  /** `ttl` is the retention window of migration checkpoints; without a positive one they are kept for ever. */
  datatype PrunePolicy = PrunePolicy(retainMigrations: bool, ttl: real)

  /** What the proof remembers of a checkpoint that was ever created, stored or not. */
  datatype Birth = Birth(order: nat, session: Session, step: int)

  /** A parent is an older checkpoint of the same session. */
  ghost predicate ParentBefore(births: map<Id, Birth>, id: Id, parent: Id) {
    && id in births && parent in births
    && births[parent].session == births[id].session
    && births[parent].order < births[id].order
  }

  ghost predicate Linked(cps: map<Id, Checkpoint>, births: map<Id, Birth>) {
    forall id :: id in cps ==>
      && cps[id].id == id
      && id in births && births[id].session == cps[id].session && births[id].step == cps[id].step
      && (cps[id].parent.Some? ==> ParentBefore(births, id, cps[id].parent.value))
  }

  ghost predicate Numbered(births: map<Id, Birth>, count: nat) {
    forall id :: id in births ==> births[id].order < count
  }

  /** The manager's two maps describe the last checkpoint it created for each session. */
  ghost predicate Tracked(births: map<Id, Birth>, steps: map<Session, int>, last: map<Session, Id>) {
    && steps.Keys == last.Keys
    && forall s :: s in last ==> last[s] in births && births[last[s]].session == s && births[last[s]].step == steps[s]
  }

  /** No checkpoint was created with a smaller step number than its parent. */
  ghost predicate StepsRise(cps: map<Id, Checkpoint>, births: map<Id, Birth>) {
    forall id :: id in cps && cps[id].parent.Some? ==>
      cps[id].parent.value in births && births[cps[id].parent.value].step <= cps[id].step
  }

  predicate Due(interval: int, steps: map<Session, int>, session: Session, step: int) {
    interval != 0 && step - (if session in steps then steps[session] else 0) >= interval
  }

  /** An explicit parent stays; without one it is the last checkpoint made for the session, if there is one. */
  function DefaultParent(last: map<Session, Id>, session: Session, parent: Option<Id>): (r: Option<Id>)
    ensures parent.Some? ==> r == parent
    ensures parent.None? ==> (r.Some? <==> session in last) && (r.Some? ==> r.value == last[session])
  {
    if parent.None? && session in last then Some(last[session]) else parent
  }

  /** An explicit parent, when there is one, is a checkpoint of the same session. */
  ghost predicate OwnParent(births: map<Id, Birth>, session: Session, parent: Option<Id>) {
    parent.Some? ==> parent.value in births && births[parent.value].session == session
  }

  class Manager {
    const storage: MemoryStorage
    const interval: int
    const policy: Option<PrunePolicy>
    var sessionSteps: map<Session, int>
    var sessionLast: map<Session, Id>
    ghost var births: map<Id, Birth>
    ghost var count: nat

    ghost predicate Valid()
      reads this, storage
    {
      && storage.Valid()
      && Linked(storage.checkpoints, births)
      && Numbered(births, count)
      && Tracked(births, sessionSteps, sessionLast)
    }

    /** A manager may start on a store that earlier managers filled; `births` is then their history. */
    constructor (storage: MemoryStorage, interval: int, policy: Option<PrunePolicy>, ghost births: map<Id, Birth>, ghost count: nat)
      requires storage.Valid() && Linked(storage.checkpoints, births) && Numbered(births, count)
      ensures Valid()
      ensures this.storage == storage && this.interval == interval && this.policy == policy
      ensures this.births == births && sessionSteps == map[] && sessionLast == map[]
    {
      this.storage, this.interval, this.policy := storage, interval, policy;
      sessionSteps, sessionLast := map[], map[];
      this.births, this.count := births, count;
    }

    method CreateCheckpoint(
      session: Session, step: int, messages: seq<Message>, migration: bool, parent: Option<Id>, id: Id, now: real)
      requires Valid() && id !in births
      modifies this, storage
      ensures Saved(old(storage.State()), storage.State(),
                Checkpoint(id, session, now, step, messages, migration, DefaultParent(old(sessionLast), session, parent)))
      ensures sessionLast == old(sessionLast)[session := id] && sessionSteps == old(sessionSteps)[session := step]
      ensures births == old(births)[id := Birth(old(count), session, step)]
      ensures storage.Valid()
      ensures OwnParent(old(births), session, parent) ==> Valid()
    {
      var link := parent;
      if link.None? && session in sessionLast {
        link := Some(sessionLast[session]);
      }
      ghost var cps := storage.checkpoints;
      var cp := Checkpoint(id, session, now, step, messages, migration, link);
      storage.Save(cp);
      CreatedLinked(cps, births, count, cp);
      CreatedTracked(births, sessionSteps, sessionLast, id, Birth(count, session, step));
      sessionLast := sessionLast[session := id];
      sessionSteps := sessionSteps[session := step];
      births := births[id := Birth(count, session, step)];
      count := count + 1;
    }

    method ShouldCheckpoint(session: Session, step: int) returns (due: bool)
      ensures due <==> Due(interval, sessionSteps, session, step)
      ensures session !in sessionSteps ==> (due <==> interval != 0 && interval <= step)
      ensures session in sessionSteps ==> (due <==> interval != 0 && sessionSteps[session] + interval <= step)
    {
      if interval == 0 {
        return false;
      }
      var last := 0;
      if session in sessionSteps {
        last := sessionSteps[session];
      }
      due := step - last >= interval;
    }

    /**
     * Calls `replay` on the chain of `id`, oldest first, up to the first checkpoint beyond `upTo`.
     * The outcome of a call may depend on how many calls came before it.
     */
    method ReplayFromCheckpoint<R, E>(id: Id, replay: (nat, Checkpoint) -> Result<R, E>, upTo: Option<int>)
      returns (r: Result<seq<R>, (int, E)>)
      ensures ReplayOutcome(TakeUpTo(Reversed(History(storage.checkpoints, id, MAX_REPLAY)), upTo), replay, r)
    {
      var chain := storage.GetCheckpointHistory(id, MAX_REPLAY);
      var history := new Checkpoint[|chain|](i requires 0 <= i < |chain| => chain[i]);
      assert history[..] == chain;
      ReverseInPlace(history);
      var oldestFirst := history[..];
      r := Replay(oldestFirst, replay, upTo);
    }

    /** One turn of the pruning loop: retained checkpoints stay, others leave the store. */
    method PruneOne(cp: Checkpoint, session: Session, now: real) returns (deleted: bool)
      requires Valid() && cp.id in storage.checkpoints && storage.checkpoints[cp.id].session == session
      modifies storage
      ensures Valid()
      ensures session in old(storage.index)
      ensures storage.State() == PruneTurn(old(storage.State()), session, cp, policy, now)
      ensures deleted <==> !Retained(cp, policy, now)
    {
      if policy.Some? && policy.value.retainMigrations {
        if cp.migration {
          if policy.value.ttl > 0.0 {
            if now - cp.time < policy.value.ttl {
              return false;
            }
          } else {
            return false;
          }
        }
      }
      deleted := storage.Delete(cp.id);
    }

    method PruneAll(toDelete: seq<Checkpoint>, session: Session, clock: nat -> real, ghost keepLast: nat) returns (deleted: nat)
      requires Valid() && keepLast <= |IdsOf(storage.State(), session)|
      requires toDelete == Load(storage.checkpoints, IdsOf(storage.State(), session)[keepLast..])
      requires session in storage.index
      modifies storage
      ensures Valid()
      ensures var ids := old(storage.index[session]);
        && Progress(old(storage.State()), storage.State(), session, ids, keepLast, |toDelete|, policy, clock)
        && deleted == |ids| - |storage.index[session]|
    {
      ghost var s0, ids := storage.State(), storage.index[session];
      deleted := 0;
      assert ids[..keepLast] + ids[keepLast..] == ids;
      for i := 0 to |toDelete|
        invariant Valid()
        invariant Progress(s0, storage.State(), session, ids, keepLast, i, policy, clock)
        invariant deleted == |ids| - |storage.index[session]|
      {
        ghost var s := storage.State();
        assert toDelete[i] == s0.checkpoints[ids[keepLast + i]];
        ProgressHas(s0, s, session, ids, keepLast, i, policy, clock);
        var gone := PruneOne(toDelete[i], session, clock(i));
        ProgressStep(s0, s, session, ids, keepLast, i, policy, clock);
        if gone {
          deleted := deleted + 1;
        }
      }
    }

    /**
     * Leaves the newest `keepLast` checkpoints and the retained ones of the session, and everything of others.
     * The clock is read once for each checkpoint that may go.
     */
    method PruneOldCheckpoints(session: Session, keepLast: nat, clock: nat -> real) returns (deleted: nat)
      requires Valid()
      modifies storage
      ensures Valid()
      ensures PruneResult(old(storage.State()), storage.State(), session, keepLast, policy, clock)
      ensures deleted == |IdsOf(old(storage.State()), session)| - |IdsOf(storage.State(), session)|
    {
      var cps := storage.ListCheckpoints(session, None);
      ghost var s0, ids := storage.State(), IdsOf(storage.State(), session);
      if |cps| <= keepLast {
        NothingPruned(s0, session, keepLast, policy, clock);
        return 0;
      }
      LoadSuffix(s0.checkpoints, ids, keepLast);
      deleted := PruneAll(cps[keepLast..], session, clock, keepLast);
      ProgressDone(s0, storage.State(), session, ids, keepLast, policy, clock);
    }

    method DeleteCheckpoint(id: Id) returns (ok: bool)
      requires Valid()
      modifies storage
      ensures Valid()
      ensures ok <==> id in old(storage.checkpoints)
      ensures storage.checkpoints == old(storage.checkpoints) - {id}
    {
      ok := storage.Delete(id);
    }

    method DeleteSession(session: Session) returns (deleted: nat)
      requires Valid()
      modifies this, storage
      ensures Valid()
      ensures deleted == |IdsOf(old(storage.State()), session)|
      ensures forall id :: id in storage.checkpoints <==>
        id in old(storage.checkpoints) && old(storage.checkpoints)[id].session != session
      ensures forall id :: id in storage.checkpoints ==> storage.checkpoints[id] == old(storage.checkpoints)[id]
      ensures sessionSteps == old(sessionSteps) - {session} && sessionLast == old(sessionLast) - {session}
      ensures births == old(births)
    {
      ghost var before := storage.checkpoints;
      deleted := storage.DeleteSession(session);
      FewerLinked(before, storage.checkpoints, births);
      ForgottenTracked(births, sessionSteps, sessionLast, session);
      sessionSteps := sessionSteps - {session};
      sessionLast := sessionLast - {session};
    }
  }

  const MAX_REPLAY := 100

  lemma CreatedLinked(cps: map<Id, Checkpoint>, births: map<Id, Birth>, count: nat, cp: Checkpoint)
    requires Linked(cps, births) && Numbered(births, count) && cp.id !in births
    ensures OwnParent(births, cp.session, cp.parent) ==>
      Linked(cps[cp.id := cp], births[cp.id := Birth(count, cp.session, cp.step)])
    ensures Numbered(births[cp.id := Birth(count, cp.session, cp.step)], count + 1)
  {
  }

  lemma FewerLinked(cps: map<Id, Checkpoint>, cps': map<Id, Checkpoint>, births: map<Id, Birth>)
    requires Linked(cps, births) && forall id :: id in cps' ==> id in cps && cps'[id] == cps[id]
    ensures Linked(cps', births)
  {
  }

  lemma ForgottenTracked(births: map<Id, Birth>, steps: map<Session, int>, last: map<Session, Id>, session: Session)
    requires Tracked(births, steps, last)
    ensures Tracked(births, steps - {session}, last - {session})
  {
  }

  lemma CreatedTracked(births: map<Id, Birth>, steps: map<Session, int>, last: map<Session, Id>, id: Id, b: Birth)
    requires Tracked(births, steps, last) && id !in births
    ensures Tracked(births[id := b], steps[b.session := b.step], last[b.session := id])
  {
  }

  // ---- The chain of parents ----

  /** The chain goes back in creation order without leaving the session, so no checkpoint is its own ancestor. */
  lemma {:induction false} HistoryDescends(cps: map<Id, Checkpoint>, births: map<Id, Birth>, id: Id, depth: int)
    requires Linked(cps, births)
    ensures
      var h := History(cps, id, depth);
      && (forall i :: 0 <= i < |h| ==> h[i].id in cps && cps[h[i].id] == h[i])
      && (forall i :: 0 <= i < |h| ==> h[i].session == cps[id].session && births[h[i].id].order <= births[id].order)
      && (forall i, j :: 0 <= i < j < |h| ==> births[h[j].id].order < births[h[i].id].order)
      && (id in cps ==> |h| <= births[id].order + 1)
    decreases depth
  {
    if depth > 0 && id in cps && cps[id].parent.Some? {
      HistoryDescends(cps, births, cps[id].parent.value, depth - 1);
    }
  }

  /** A new checkpoint does not disturb the chains of the others. */
  lemma {:induction false} HistoryUndisturbed(cps: map<Id, Checkpoint>, births: map<Id, Birth>, cp: Checkpoint, id: Id, depth: int)
    requires Linked(cps, births) && cp.id !in births && id != cp.id
    ensures History(cps[cp.id := cp], id, depth) == History(cps, id, depth)
    decreases depth
  {
    if depth > 0 && id in cps && cps[id].parent.Some? {
      HistoryUndisturbed(cps, births, cp, cps[id].parent.value, depth - 1);
    }
  }

  /** A checkpoint made without an explicit parent continues the chain of the last one made for its session. */
  lemma ChainExtended(
    cps: map<Id, Checkpoint>, births: map<Id, Birth>, steps: map<Session, int>, last: map<Session, Id>, cp: Checkpoint, depth: int)
    requires Linked(cps, births) && Tracked(births, steps, last) && cp.id !in births
    requires cp.parent == DefaultParent(last, cp.session, None) && depth > 0
    ensures History(cps[cp.id := cp], cp.id, depth) ==
      [cp] + if cp.session in last then History(cps, last[cp.session], depth - 1) else []
  {
    if cp.session in last {
      HistoryUndisturbed(cps, births, cp, last[cp.session], depth - 1);
    }
  }

  /** Beyond some depth the chain does not grow: following parents always comes to an end. */
  lemma {:induction false} HistoryEnds(cps: map<Id, Checkpoint>, births: map<Id, Birth>, id: Id, depth: int)
    requires Linked(cps, births) && id in cps && depth >= births[id].order + 1
    ensures History(cps, id, depth) == History(cps, id, births[id].order + 1)
    decreases depth
  {
    if cps[id].parent.Some? {
      var p := cps[id].parent.value;
      if p in cps {
        HistoryEnds(cps, births, p, depth - 1);
        HistoryEnds(cps, births, p, births[id].order);
      }
    }
  }

  lemma {:induction false} StepAtMost(cps: map<Id, Checkpoint>, births: map<Id, Birth>, id: Id, depth: int, i: nat)
    requires Linked(cps, births) && StepsRise(cps, births) && i < |History(cps, id, depth)|
    ensures id in cps && History(cps, id, depth)[i].step <= cps[id].step
    decreases i
  {
    if i > 0 {
      var p := cps[id].parent.value;
      assert History(cps, id, depth) == [cps[id]] + History(cps, p, depth - 1);
      StepAtMost(cps, births, p, depth - 1, i - 1);
      assert births[p].step <= cps[id].step && births[p].step == cps[p].step;
    }
  }

  lemma {:induction false} StepsDescend(cps: map<Id, Checkpoint>, births: map<Id, Birth>, id: Id, depth: int, i: nat, j: nat)
    requires Linked(cps, births) && StepsRise(cps, births) && i < j < |History(cps, id, depth)|
    ensures History(cps, id, depth)[j].step <= History(cps, id, depth)[i].step
    decreases i
  {
    if i == 0 {
      StepAtMost(cps, births, id, depth, j);
      assert History(cps, id, depth)[0] == cps[id];
    } else {
      var p := cps[id].parent.value;
      assert History(cps, id, depth) == [cps[id]] + History(cps, p, depth - 1);
      StepsDescend(cps, births, p, depth - 1, i - 1, j - 1);
    }
  }

  /** With rising steps the chain does not rise going back. */
  lemma HistoryRises(cps: map<Id, Checkpoint>, births: map<Id, Birth>, id: Id, depth: int)
    requires Linked(cps, births) && StepsRise(cps, births)
    ensures
      var h := History(cps, id, depth);
      forall i, j :: 0 <= i < j < |h| ==> h[j].step <= h[i].step
  {
    var h := History(cps, id, depth);
    forall i, j | 0 <= i < j < |h| ensures h[j].step <= h[i].step {
      StepsDescend(cps, births, id, depth, i, j);
    }
  }

  // ---- Replay ----

  function Reversed<T>(s: seq<T>): seq<T> {
    seq(|s|, i requires 0 <= i < |s| => s[|s| - 1 - i])
  }

  method ReverseInPlace<T>(a: array<T>)
    modifies a
    ensures a[..] == Reversed(old(a[..]))
  {
    var i, j := 0, a.Length - 1;
    while i < j
      invariant 0 <= i && i + j == a.Length - 1 && i <= j + 1
      invariant forall k :: 0 <= k < i ==> a[k] == old(a[a.Length - 1 - k]) && a[a.Length - 1 - k] == old(a[k])
      invariant forall k :: i <= k <= j ==> a[k] == old(a[k])
    {
      a[i], a[j] := a[j], a[i];
      i, j := i + 1, j - 1;
    }
  }

  predicate Beyond(cp: Checkpoint, upTo: Option<int>) {
    upTo.Some? && cp.step > upTo.value
  }

  function TakeUpTo(h: seq<Checkpoint>, upTo: Option<int>): seq<Checkpoint> {
    if h == [] || Beyond(h[0], upTo) then [] else [h[0]] + TakeUpTo(h[1..], upTo)
  }

  function FilterUpTo(h: seq<Checkpoint>, upTo: Option<int>): seq<Checkpoint> {
    if h == [] then []
    else if Beyond(h[0], upTo) then FilterUpTo(h[1..], upTo)
    else [h[0]] + FilterUpTo(h[1..], upTo)
  }

  /** All calls succeed and give the results in order, or the first failing call gives the error and its step. */
  ghost predicate ReplayOutcome<R, E>(
    taken: seq<Checkpoint>, replay: (nat, Checkpoint) -> Result<R, E>, r: Result<seq<R>, (int, E)>)
  {
    && (r.Ok? ==> |r.value| == |taken| && forall i :: 0 <= i < |taken| ==> replay(i, taken[i]) == Ok(r.value[i]))
    && (r.Err? ==> exists i :: 0 <= i < |taken| && FailsFirstAt(taken, replay, i, r.error))
  }

  ghost predicate FailsFirstAt<R, E>(
    taken: seq<Checkpoint>, replay: (nat, Checkpoint) -> Result<R, E>, i: nat, error: (int, E))
    requires i < |taken|
  {
    && (forall k :: 0 <= k < i ==> replay(k, taken[k]).Ok?)
    && replay(i, taken[i]).Err? && error == (taken[i].step, replay(i, taken[i]).error)
  }

  method Replay<R, E>(history: seq<Checkpoint>, replay: (nat, Checkpoint) -> Result<R, E>, upTo: Option<int>)
    returns (r: Result<seq<R>, (int, E)>)
    ensures ReplayOutcome(TakeUpTo(history, upTo), replay, r)
  {
    var results := [];
    var i := 0;
    while i < |history| && !Beyond(history[i], upTo)
      invariant 0 <= i <= |history| && |results| == i
      invariant forall k :: 0 <= k < i ==> !Beyond(history[k], upTo) && replay(k, history[k]) == Ok(results[k])
    {
      var result := replay(i, history[i]);
      if result.Err? {
        TakePrefix(history, upTo, i + 1);
        assert FailsFirstAt(TakeUpTo(history, upTo), replay, i, (history[i].step, result.error));
        return Err((history[i].step, result.error));
      }
      results := results + [result.value];
      i := i + 1;
    }
    TakePrefix(history, upTo, i);
    r := Ok(results);
  }

  lemma {:induction false} TakePrefix(h: seq<Checkpoint>, upTo: Option<int>, i: nat)
    requires i <= |h| && forall k :: 0 <= k < i ==> !Beyond(h[k], upTo)
    ensures TakeUpTo(h, upTo) == h[..i] + TakeUpTo(h[i..], upTo)
  {
    if i == 0 {
      assert h[0..] == h;
    } else {
      TakePrefix(h[1..], upTo, i - 1);
      assert h[1..][i - 1..] == h[i..];
      assert h[..i] == [h[0]] + h[1..][..i - 1];
    }
  }

  ghost predicate AllBeyond(h: seq<Checkpoint>, upTo: Option<int>) {
    forall i :: 0 <= i < |h| ==> Beyond(h[i], upTo)
  }

  /** Once a checkpoint is beyond the target, so are all that follow. */
  ghost predicate StaysBeyond(h: seq<Checkpoint>, upTo: Option<int>) {
    forall i, j :: 0 <= i < j < |h| && Beyond(h[i], upTo) ==> Beyond(h[j], upTo)
  }

  lemma StaysBeyondTail(h: seq<Checkpoint>, upTo: Option<int>)
    requires h != []
    ensures StaysBeyond(h, upTo) <==> if Beyond(h[0], upTo) then AllBeyond(h[1..], upTo) else StaysBeyond(h[1..], upTo)
  {
  }

  /** Stopping at the first checkpoint beyond `upTo` loses nothing exactly when none after it is within. */
  lemma {:induction false} EarlyBreakExactIff(h: seq<Checkpoint>, upTo: Option<int>)
    ensures TakeUpTo(h, upTo) == FilterUpTo(h, upTo) <==> StaysBeyond(h, upTo)
  {
    if h != [] {
      var t := h[1..];
      StaysBeyondTail(h, upTo);
      if Beyond(h[0], upTo) {
        FilterEmptyIff(t, upTo);
      } else {
        EarlyBreakExactIff(t, upTo);
        assert ([h[0]] + TakeUpTo(t, upTo))[1..] == TakeUpTo(t, upTo);
        assert ([h[0]] + FilterUpTo(t, upTo))[1..] == FilterUpTo(t, upTo);
      }
    }
  }

  lemma {:induction false} FilterEmptyIff(h: seq<Checkpoint>, upTo: Option<int>)
    ensures FilterUpTo(h, upTo) == [] <==> AllBeyond(h, upTo)
  {
    if h != [] {
      FilterEmptyIff(h[1..], upTo);
      assert h == [h[0]] + h[1..];
    }
  }

  ghost predicate NonDecreasing(h: seq<Checkpoint>) {
    forall i, j :: 0 <= i < j < |h| ==> h[i].step <= h[j].step
  }

  /** For every target step at once: the early break is harmless exactly on chains whose steps do not decrease. */
  lemma AlwaysExactIff(h: seq<Checkpoint>)
    ensures (forall upTo :: TakeUpTo(h, upTo) == FilterUpTo(h, upTo)) <==> NonDecreasing(h)
  {
    forall upTo ensures NonDecreasing(h) ==> TakeUpTo(h, upTo) == FilterUpTo(h, upTo) {
      EarlyBreakExactIff(h, upTo);
    }
    if !NonDecreasing(h) {
      var i, j :| 0 <= i < j < |h| && h[i].step > h[j].step;
      EarlyBreakExactIff(h, Some(h[j].step));
      assert Beyond(h[i], Some(h[j].step)) && !Beyond(h[j], Some(h[j].step));
    }
  }

  /** With rising steps a replay covers exactly the checkpoints within the target among the newest of the chain. */
  lemma ReplayIsExact(cps: map<Id, Checkpoint>, births: map<Id, Birth>, id: Id, upTo: Option<int>)
    requires Linked(cps, births) && StepsRise(cps, births)
    ensures TakeUpTo(Reversed(History(cps, id, MAX_REPLAY)), upTo) == FilterUpTo(Reversed(History(cps, id, MAX_REPLAY)), upTo)
  {
    HistoryRises(cps, births, id, MAX_REPLAY);
    AlwaysExactIff(Reversed(History(cps, id, MAX_REPLAY)));
  }

  /**
   Nothing keeps a caller from checkpointing a smaller step after a larger one.  Then a replay up to the smaller step
   gives nothing, although the newest checkpoint is within it.
   */
  method SmallerStepLater(m: Manager, session: Session, larger: int, smaller: int, first: Id, second: Id, now: real, later: real)
    requires m.Valid() && session !in m.sessionLast && larger > smaller
    requires first !in m.births && second !in m.births && first != second
    modifies m, m.storage
    ensures m.Valid() && second in m.storage.checkpoints && m.storage.checkpoints[second].step == smaller
    ensures
      var chain := Reversed(History(m.storage.checkpoints, second, MAX_REPLAY));
      TakeUpTo(chain, Some(smaller)) == [] && FilterUpTo(chain, Some(smaller)) == [m.storage.checkpoints[second]]
  {
    m.CreateCheckpoint(session, larger, [], false, None, first, now);
    m.CreateCheckpoint(session, smaller, [], false, None, second, later);
    OutOfOrder(m.storage.checkpoints, first, second);
  }

  lemma OutOfOrder(cps: map<Id, Checkpoint>, first: Id, second: Id)
    requires first in cps && second in cps && cps[first].parent == None && cps[second].parent == Some(first)
    requires cps[first].step > cps[second].step
    ensures
      var chain := Reversed(History(cps, second, MAX_REPLAY));
      TakeUpTo(chain, Some(cps[second].step)) == [] && FilterUpTo(chain, Some(cps[second].step)) == [cps[second]]
  {
    var a, b := cps[first], cps[second];
    assert History(cps, first, MAX_REPLAY - 1) == [a];
    assert History(cps, second, MAX_REPLAY) == [b, a];
    assert Reversed([b, a]) == [a, b];
    assert [a, b][1..] == [b] && [b][1..] == [];
    assert FilterUpTo([b], Some(b.step)) == [b];
  }

  // ---- Pruning ----

  predicate Retained(cp: Checkpoint, policy: Option<PrunePolicy>, now: real) {
    && policy.Some? && policy.value.retainMigrations
    && cp.migration
    && (policy.value.ttl > 0.0 ==> now - cp.time < policy.value.ttl)
  }

  ghost function Kept(cps: map<Id, Checkpoint>, ids: seq<Id>, policy: Option<PrunePolicy>, clock: nat -> real): seq<Id> {
    if ids == [] then []
    else
      var rest := Kept(cps, ids[..|ids| - 1], policy, clock);
      var x := ids[|ids| - 1];
      if x in cps && Retained(cps[x], policy, clock(|ids| - 1)) then rest + [x] else rest
  }

  /** The i-th id is retained at the moment it is looked at. */
  ghost predicate KeptAt(cps: map<Id, Checkpoint>, ids: seq<Id>, policy: Option<PrunePolicy>, clock: nat -> real, i: int) {
    0 <= i < |ids| && ids[i] in cps && Retained(cps[ids[i]], policy, clock(i))
  }

  lemma {:induction false} KeptIsRetained(cps: map<Id, Checkpoint>, ids: seq<Id>, policy: Option<PrunePolicy>, clock: nat -> real)
    ensures forall x :: x in Kept(cps, ids, policy, clock) <==> exists i :: KeptAt(cps, ids, policy, clock, i) && ids[i] == x
  {
    if ids != [] {
      var front, n := ids[..|ids| - 1], |ids| - 1;
      KeptIsRetained(cps, front, policy, clock);
      forall x ensures x in Kept(cps, ids, policy, clock) <==> exists i :: KeptAt(cps, ids, policy, clock, i) && ids[i] == x {
        if x in Kept(cps, front, policy, clock) {
          var i :| KeptAt(cps, front, policy, clock, i) && front[i] == x;
          assert KeptAt(cps, ids, policy, clock, i) && ids[i] == x;
        } else if x in Kept(cps, ids, policy, clock) {
          assert KeptAt(cps, ids, policy, clock, n) && ids[n] == x;
        }
        if i :| KeptAt(cps, ids, policy, clock, i) && ids[i] == x {
          assert i < n ==> KeptAt(cps, front, policy, clock, i) && front[i] == x;
        }
      }
    }
  }

  /** The session's index after pruning. */
  ghost function Pruned(s: Store, session: Session, keepLast: nat, policy: Option<PrunePolicy>, clock: nat -> real): seq<Id> {
    var ids := IdsOf(s, session);
    if |ids| <= keepLast then ids else ids[..keepLast] + Kept(s.checkpoints, ids[keepLast..], policy, clock)
  }

  /** What one turn of the loop does to the store. */
  ghost function PruneTurn(s: Store, session: Session, cp: Checkpoint, policy: Option<PrunePolicy>, now: real): Store
    requires session in s.index
  {
    if Retained(cp, policy, now) then s
    else Store(s.checkpoints - {cp.id}, s.index[session := Without(s.index[session], cp.id)])
  }

  ghost predicate SameElsewhere(s0: Store, s: Store, session: Session) {
    && (forall id :: id in s.checkpoints ==> id in s0.checkpoints && s.checkpoints[id] == s0.checkpoints[id])
    && (forall id :: id in s0.checkpoints && s0.checkpoints[id].session != session ==> id in s.checkpoints)
    && (forall o :: o != session ==> IdsOf(s, o) == IdsOf(s0, o))
  }

  ghost predicate PruneResult(
    s0: Store, s: Store, session: Session, keepLast: nat, policy: Option<PrunePolicy>, clock: nat -> real)
  {
    && IdsOf(s, session) == Pruned(s0, session, keepLast, policy, clock)
    && SameElsewhere(s0, s, session)
    && (forall id :: id in s0.checkpoints && s0.checkpoints[id].session == session ==>
         (id in s.checkpoints <==> id in IdsOf(s, session)))
  }

  ghost predicate Progress(
    s0: Store, s: Store, session: Session, ids: seq<Id>, keepLast: nat, i: nat, policy: Option<PrunePolicy>, clock: nat -> real)
  {
    && Distinct(ids) && keepLast + i <= |ids|
    && session in s.index
    && s.index[session] ==
         ids[..keepLast] + Kept(s0.checkpoints, ids[keepLast..keepLast + i], policy, clock) + ids[keepLast + i..]
    && SameElsewhere(s0, s, session)
  }

  lemma LoadSuffix(cps: map<Id, Checkpoint>, ids: seq<Id>, k: nat)
    requires k <= |ids| && forall i :: 0 <= i < |ids| ==> ids[i] in cps
    ensures Load(cps, ids)[k..] == Load(cps, ids[k..])
  {
  }

  lemma NothingPruned(s: Store, session: Session, keepLast: nat, policy: Option<PrunePolicy>, clock: nat -> real)
    requires Consistent(s) && |IdsOf(s, session)| <= keepLast
    ensures PruneResult(s, s, session, keepLast, policy, clock)
  {
  }

  lemma ProgressHas(
    s0: Store, s: Store, session: Session, ids: seq<Id>, keepLast: nat, i: nat, policy: Option<PrunePolicy>, clock: nat -> real)
    requires Progress(s0, s, session, ids, keepLast, i, policy, clock) && Consistent(s) && keepLast + i < |ids|
    ensures ids[keepLast + i] in s.checkpoints && s.checkpoints[ids[keepLast + i]].session == session
  {
    var a := ids[..keepLast] + Kept(s0.checkpoints, ids[keepLast..keepLast + i], policy, clock);
    assert s.index[session][|a|] == ids[keepLast + i];
  }

  lemma ProgressStep(
    s0: Store, s: Store, session: Session, ids: seq<Id>, keepLast: nat, i: nat, policy: Option<PrunePolicy>, clock: nat -> real)
    requires Progress(s0, s, session, ids, keepLast, i, policy, clock) && keepLast + i < |ids|
    requires ids[keepLast + i] in s0.checkpoints
    requires s0.checkpoints[ids[keepLast + i]].id == ids[keepLast + i]
    requires s0.checkpoints[ids[keepLast + i]].session == session
    ensures
      var cp := s0.checkpoints[ids[keepLast + i]];
      var s' := PruneTurn(s, session, cp, policy, clock(i));
      && Progress(s0, s', session, ids, keepLast, i + 1, policy, clock)
      && |s.index[session]| - |s'.index[session]| == if Retained(cp, policy, clock(i)) then 0 else 1
  {
    IndexStep(s0.checkpoints, ids, keepLast, i, policy, clock);
    assert ids[keepLast..keepLast + i + 1][..i] == ids[keepLast..keepLast + i];
  }

  lemma IndexStep(cps: map<Id, Checkpoint>, ids: seq<Id>, keepLast: nat, i: nat, policy: Option<PrunePolicy>, clock: nat -> real)
    requires Distinct(ids) && keepLast + i < |ids|
    ensures
      var x, kept := ids[keepLast + i], Kept(cps, ids[keepLast..keepLast + i], policy, clock);
      && ids[..keepLast] + kept + ids[keepLast + i..] == ids[..keepLast] + (kept + [x]) + ids[keepLast + i + 1..]
      && Without(ids[..keepLast] + kept + ids[keepLast + i..], x) == ids[..keepLast] + kept + ids[keepLast + i + 1..]
  {
    var x, done := ids[keepLast + i], ids[keepLast..keepLast + i];
    var kept, b := Kept(cps, done, policy, clock), ids[keepLast + i + 1..];
    assert ids[keepLast + i..] == [x] + b;
    KeptIsRetained(cps, done, policy, clock);
    assert x !in ids[..keepLast] && x !in done && x !in b;
    WithoutMiddle(ids[..keepLast] + kept, x, b);
    assert ids[..keepLast] + kept + ids[keepLast + i..] == ids[..keepLast] + kept + [x] + b;
  }

  lemma ProgressDone(
    s0: Store, s: Store, session: Session, ids: seq<Id>, keepLast: nat, policy: Option<PrunePolicy>, clock: nat -> real)
    requires keepLast < |ids| && ids == IdsOf(s0, session) && Consistent(s) && Consistent(s0)
    requires Progress(s0, s, session, ids, keepLast, |ids| - keepLast, policy, clock)
    ensures PruneResult(s0, s, session, keepLast, policy, clock)
  {
    assert ids[keepLast..keepLast + (|ids| - keepLast)] == ids[keepLast..];
    assert ids[|ids|..] == [];
  }

  /**
   A checkpoint of the session, the m-th newest before pruning, is still stored if and only if it is one of the newest
   `keepLast`, or a migration checkpoint under a policy that retains those: for ever, or while it is younger than the
   window at the moment it is looked at.
   */
  lemma PruneMeans(s0: Store, s: Store, session: Session, keepLast: nat, policy: Option<PrunePolicy>, clock: nat -> real, m: nat)
    requires Consistent(s0) && PruneResult(s0, s, session, keepLast, policy, clock) && m < |IdsOf(s0, session)|
    ensures
      var id := IdsOf(s0, session)[m];
      && id in s0.checkpoints
      && (id in s.checkpoints <==>
          || m < keepLast
          || (&& policy.Some? && policy.value.retainMigrations && s0.checkpoints[id].migration
              && (policy.value.ttl <= 0.0 || clock(m - keepLast) - s0.checkpoints[id].time < policy.value.ttl)))
  {
    var ids := IdsOf(s0, session);
    assert GoodIndex(s0.checkpoints, session, ids);
    if m < keepLast {
      assert |ids| <= keepLast || Pruned(s0, session, keepLast, policy, clock)[m] == ids[m];
    } else {
      OlderKeptIff(s0.checkpoints, ids, keepLast, policy, clock, m);
    }
  }

  lemma OlderKeptIff(cps: map<Id, Checkpoint>, ids: seq<Id>, keepLast: nat, policy: Option<PrunePolicy>, clock: nat -> real, m: nat)
    requires Distinct(ids) && keepLast <= m < |ids| && ids[m] in cps
    ensures ids[m] in ids[..keepLast] + Kept(cps, ids[keepLast..], policy, clock) <==>
      Retained(cps[ids[m]], policy, clock(m - keepLast))
  {
    var older, x := ids[keepLast..], ids[m];
    KeptIsRetained(cps, older, policy, clock);
    assert x !in ids[..keepLast] && older[m - keepLast] == x;
    if x in Kept(cps, older, policy, clock) {
      var i :| KeptAt(cps, older, policy, clock, i) && older[i] == x;
      assert ids[keepLast + i] == x;
    } else {
      assert !KeptAt(cps, older, policy, clock, m - keepLast);
    }
  }
}
