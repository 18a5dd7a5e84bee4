/**
 * The durable agent of checkpointing/durable.go: it counts steps, keeps the conversation, checkpoints every
 * N steps and falls back to the newest checkpoint when the wrapped agent fails.
 */
module Durable {
  import opened Common
  import opened CheckpointStore
  import opened CheckpointManager

  /** One message the agent answered. */
  datatype Exchange = Exchange(request: Message, response: Message)

  /**
   * A session as the proof sees it. `since` holds the exchanges made since the newest checkpoint, or since the
   * agent started or resumed; `anchored` says that they come on top of what the newest checkpoint holds.
   */
  datatype View = View(step: int, messages: seq<Message>, since: seq<Exchange>, anchored: bool)

  function Flat(xs: seq<Exchange>): seq<Message> {
    if xs == [] then []
    else Flat(xs[..|xs| - 1]) + [xs[|xs| - 1].request, xs[|xs| - 1].response]
  }

  lemma FlatOneMore(before: seq<Message>, xs: seq<Exchange>, request: Message, response: Message)
    ensures before + Flat(xs) + [request] + [response] == before + Flat(xs + [Exchange(request, response)])
  {
    assert (xs + [Exchange(request, response)])[..|xs|] == xs;
  }

  function Restored(v: View, latest: Option<Checkpoint>): View {
    if latest.Some? then View(latest.value.step, latest.value.messages, [], true) else v
  }

  /** The newest checkpoint has the step and the messages of `cp`. */
  predicate AsNewest(cp: Checkpoint, latest: Option<Checkpoint>) {
    latest.Some? && latest.value.step == cp.step && latest.value.messages == cp.messages
  }

  /** The session after `target`, newest or not, was loaded into it. */
  function Resumed(v: View, target: Option<Checkpoint>, latest: Option<Checkpoint>): View {
    if target.Some? then View(target.value.step, target.value.messages, [], AsNewest(target.value, latest)) else v
  }

  function Asked(v: View, request: Message): View {
    v.(step := v.step + 1, messages := v.messages + [request])
  }

  function Answered(v: View, request: Message, response: Message): View {
    v.(messages := v.messages + [response], since := v.since + [Exchange(request, response)])
  }

  function Saving(v: View): View {
    v.(since := [], anchored := true)
  }

  /** Every step adds its request and at most one response. */
  ghost predicate Balanced(step: int, messages: seq<Message>) {
    step <= |messages| <= 2 * step
  }

  ghost predicate AllBalanced(cps: map<Id, Checkpoint>) {
    forall id :: id in cps ==> Balanced(cps[id].step, cps[id].messages)
  }

  /**
   * What holds of a session between calls. `last` is the step of the checkpoint the manager made last:
   * that checkpoint is the newest, and fewer than `n` exchanges were made since.
   */
  ghost predicate SessionOk(n: int, v: View, latest: Option<Checkpoint>, last: Option<int>) {
    && Balanced(v.step, v.messages)
    && (latest.Some? ==> Balanced(latest.value.step, latest.value.messages))
    && (last.Some? ==> v.anchored && latest.Some? && latest.value.step == last.value)
    && (v.anchored ==>
         && latest.Some?
         && v.step == latest.value.step + |v.since|
         && v.messages == latest.value.messages + Flat(v.since))
    && |v.since| <= n - 1
    && |v.since| <= v.step - (if last.Some? then last.value else 0)
  }

  function Get<T>(m: map<Session, T>, s: Session): Option<T> {
    if s in m then Some(m[s]) else None
  }

  /** The per-session maps of the agent; a missing key reads as the zero value. */
  datatype Sessions = Sessions(
    steps: map<Session, int>, messages: map<Session, seq<Message>>, since: map<Session, seq<Exchange>>, anchored: set<Session>)

  function ViewIn(ss: Sessions, s: Session): View {
    View(
      if s in ss.steps then ss.steps[s] else 0,
      if s in ss.messages then ss.messages[s] else [],
      if s in ss.since then ss.since[s] else [],
      s in ss.anchored)
  }

  function SetView(ss: Sessions, s: Session, v: View): Sessions {
    Sessions(
      ss.steps[s := v.step], ss.messages[s := v.messages], ss.since[s := v.since],
      Anchor(ss.anchored, s, v.anchored))
  }

  function Anchor(sessions: set<Session>, s: Session, anchored: bool): set<Session> {
    if anchored then sessions + {s} else sessions - {s}
  }

  ghost predicate AllOk(n: int, ss: Sessions, store: Store, last: map<Session, int>) {
    forall s: Session :: SessionOk(n, ViewIn(ss, s), Latest(store, s), Get(last, s))
  }

  // ---- One session ----

  lemma RestoredOk(n: int, v: View, latest: Option<Checkpoint>, last: Option<int>)
    requires n >= 1 && SessionOk(n, v, latest, last)
    ensures SessionOk(n, Restored(v, latest), latest, last)
  {
  }

  /** After a failure the newest checkpoint is back; without one the failed step and its message stay. */
  lemma FailedOk(n: int, v: View, latest: Option<Checkpoint>, last: Option<int>, request: Message)
    requires n >= 1 && SessionOk(n, v, latest, last)
    ensures SessionOk(n, Restored(Asked(v, request), latest), latest, last)
  {
  }

  /**
   * Loading a checkpoint keeps the invariant of the session exactly when there is none to load, the manager has
   * not saved the session yet, or the checkpoint holds what the newest one holds.
   */
  lemma ResumedOkIff(n: int, v: View, target: Option<Checkpoint>, latest: Option<Checkpoint>, last: Option<int>)
    requires n >= 1 && SessionOk(n, v, latest, last)
    requires target.Some? ==> Balanced(target.value.step, target.value.messages)
    ensures SessionOk(n, Resumed(v, target, latest), latest, last) <==>
            target.None? || last.None? || AsNewest(target.value, latest)
  {
  }

  lemma AnsweredOk(n: int, v: View, latest: Option<Checkpoint>, last: Option<int>, request: Message, response: Message)
    requires n >= 1 && SessionOk(n, v, latest, last)
    ensures
      var w := Answered(Asked(v, request), request, response);
      && Balanced(w.step, w.messages)
      && (last.Some? ==> last.value <= w.step)
      && (w.step - (if last.Some? then last.value else 0) < n ==> SessionOk(n, w, latest, last))
  {
    if v.anchored {
      FlatOneMore(latest.value.messages, v.since, request, response);
    }
  }

  lemma SavedOk(n: int, v: View, cp: Checkpoint)
    requires n >= 1 && Balanced(v.step, v.messages) && cp.step == v.step && cp.messages == v.messages
    ensures SessionOk(n, Saving(v), Some(cp), Some(v.step))
  {
  }

  /** The session after it answered `xs` in turn and none of them was saved. */
  function Talked(v: View, xs: seq<Exchange>): (w: View)
    ensures w.step == v.step + |xs| && w.since == v.since + xs && w.messages == v.messages + Flat(xs)
  {
    if xs == [] then v
    else
      var x := xs[|xs| - 1];
      Answered(Asked(Talked(v, xs[..|xs| - 1]), x.request), x.request, x.response)
  }

  /** None of the `m` answers that follow `step` makes a checkpoint due. */
  ghost predicate NoneDue(n: int, last: map<Session, int>, session: Session, step: int, m: nat) {
    forall t | step < t <= step + m :: !Due(n, last, session, t)
  }

  lemma NoneDueIff(n: int, last: map<Session, int>, session: Session, step: int, m: nat)
    requires n >= 1
    ensures NoneDue(n, last, session, step, m) <==>
            m == 0 || m < n + (if session in last then last[session] else 0) - step
  {
    if m > 0 && NoneDue(n, last, session, step, m) {
      assert !Due(n, last, session, step + m);
    }
  }

  /** Whatever the session answers without a checkpoint coming due, a failure takes back fewer than `n` answers. */
  ghost predicate LosesFewer(n: int, last: map<Session, int>, session: Session, v: View) {
    forall xs | NoneDue(n, last, session, v.step, |xs|) :: |Talked(v, xs).since| < n
  }

  /**
   * After a checkpoint was loaded, the bound on what a failure takes back holds exactly when the checkpoint is not
   * behind the last one that the manager made for the session.
   */
  lemma LosesFewerIff(n: int, last: map<Session, int>, session: Session, v: View, cp: Checkpoint, latest: Option<Checkpoint>)
    requires n >= 1 && Balanced(cp.step, cp.messages)
    ensures LosesFewer(n, last, session, Resumed(v, Some(cp), latest)) <==>
            session in last ==> last[session] <= cp.step
  {
    var w := Resumed(v, Some(cp), latest);
    if session in last && cp.step < last[session] {
      var xs := seq(n, _ => Exchange("", ""));
      NoneDueIff(n, last, session, w.step, |xs|);
      assert |Talked(w, xs).since| == n;
    } else {
      forall xs | NoneDue(n, last, session, w.step, |xs|) ensures |Talked(w, xs).since| < n {
        NoneDueIff(n, last, session, w.step, |xs|);
      }
    }
  }

  // ---- All sessions ----

  lemma ViewAfterSet(ss: Sessions, s: Session, v: View, o: Session)
    ensures ViewIn(SetView(ss, s, v), o) == if o == s then v else ViewIn(ss, o)
  {
  }

  lemma UpdateTwice<T>(m: map<Session, T>, s: Session, a: T, b: T)
    ensures m[s := a][s := b] == m[s := b]
  {
  }

  lemma AnchorTwice(sessions: set<Session>, s: Session, a: bool, b: bool)
    ensures Anchor(Anchor(sessions, s, a), s, b) == Anchor(sessions, s, b)
  {
  }

  lemma SetTwice(ss: Sessions, s: Session, v: View, w: View)
    ensures SetView(SetView(ss, s, v), s, w) == SetView(ss, s, w)
  {
    UpdateTwice(ss.steps, s, v.step, w.step);
    UpdateTwice(ss.messages, s, v.messages, w.messages);
    UpdateTwice(ss.since, s, v.since, w.since);
    AnchorTwice(ss.anchored, s, v.anchored, w.anchored);
  }

  lemma SetViewOk(n: int, ss: Sessions, store: Store, last: map<Session, int>, s: Session, v: View)
    requires AllOk(n, ss, store, last) && SessionOk(n, v, Latest(store, s), Get(last, s))
    ensures AllOk(n, SetView(ss, s, v), store, last)
  {
    forall o ensures SessionOk(n, ViewIn(SetView(ss, s, v), o), Latest(store, o), Get(last, o)) {
      ViewAfterSet(ss, s, v, o);
      if o != s {
        assert SessionOk(n, ViewIn(ss, o), Latest(store, o), Get(last, o));
      }
    }
  }

  lemma SetViewOkIff(n: int, ss: Sessions, store: Store, last: map<Session, int>, s: Session, v: View)
    requires AllOk(n, ss, store, last)
    ensures AllOk(n, SetView(ss, s, v), store, last) <==> SessionOk(n, v, Latest(store, s), Get(last, s))
  {
    ViewAfterSet(ss, s, v, s);
    if SessionOk(n, v, Latest(store, s), Get(last, s)) {
      SetViewOk(n, ss, store, last, s, v);
    }
  }

  lemma SavingOk(n: int, ss: Sessions, store: Store, store': Store, last: map<Session, int>, cp: Checkpoint, v: View)
    requires n >= 1 && AllOk(n, ss, store, last)
    requires Balanced(v.step, v.messages) && cp.step == v.step && cp.messages == v.messages
    requires Latest(store', cp.session) == Some(cp)
    requires forall o :: o != cp.session ==> Latest(store', o) == Latest(store, o)
    ensures AllOk(n, SetView(ss, cp.session, Saving(v)), store', last[cp.session := v.step])
  {
    var ss', last' := SetView(ss, cp.session, Saving(v)), last[cp.session := v.step];
    SavedOk(n, v, cp);
    forall o ensures SessionOk(n, ViewIn(ss', o), Latest(store', o), Get(last', o)) {
      ViewAfterSet(ss, cp.session, Saving(v), o);
      if o != cp.session {
        assert SessionOk(n, ViewIn(ss, o), Latest(store, o), Get(last, o));
      }
    }
  }

  /** The store gains at most the checkpoint `id`, loses none, and other sessions keep their newest. */
  ghost predicate AddsOnly(s: Store, s': Store, session: Session, id: Id) {
    && (forall c :: c in s.checkpoints ==> c in s'.checkpoints && s'.checkpoints[c] == s.checkpoints[c])
    && (forall c :: c in s'.checkpoints ==> c in s.checkpoints || c == id)
    && (forall o :: o != session ==> Latest(s', o) == Latest(s, o))
  }

  lemma LatestAfterSave(s: Store, s': Store, cp: Checkpoint)
    requires Consistent(s) && cp.id !in s.checkpoints && Saved(s, s', cp) && Newest(s, cp)
    ensures Latest(s', cp.session) == Some(cp)
    ensures AddsOnly(s, s', cp.session, cp.id)
  {
    SavedFresh(s, s', cp);
    forall o | o != cp.session ensures Latest(s', o) == Latest(s, o) {
      var ids := IdsOf(s, o);
      assert IdsOf(s', o) == ids;
      assert ids != [] ==> ids[0] in s.checkpoints;
    }
  }

  lemma StoredAfterSave(
    cps: map<Id, Checkpoint>, births: map<Id, Birth>, b: Birth, cp: Checkpoint,
    steps: map<Session, int>, last: map<Session, Id>)
    requires AllBalanced(cps) && StepsRise(cps, births) && Tracked(births, steps, last)
    requires cp.id !in births && Balanced(cp.step, cp.messages)
    requires cp.parent == DefaultParent(last, cp.session, None)
    requires cp.session in steps ==> steps[cp.session] <= cp.step
    ensures AllBalanced(cps[cp.id := cp]) && StepsRise(cps[cp.id := cp], births[cp.id := b])
  {
  }

  class DurableAgent {
    const manager: Manager
    const autoResume: bool
    var sessionSteps: map<Session, int>
    var sessionMessages: map<Session, seq<Message>>
    var sessionResumed: set<Session>
    ghost var since: map<Session, seq<Exchange>>
    ghost var anchored: set<Session>

    ghost function Snapshot(): Sessions
      reads this
    {
      Sessions(sessionSteps, sessionMessages, since, anchored)
    }

    ghost function StoreNow(): Store
      reads this, manager, manager.storage
    {
      manager.storage.State()
    }

    ghost predicate Stored()
      reads this, manager, manager.storage
    {
      && manager.Valid() && manager.interval >= 1
      && AllBalanced(manager.storage.checkpoints)
      && StepsRise(manager.storage.checkpoints, manager.births)
    }

    ghost predicate Valid()
      reads this, manager, manager.storage
    {
      && Stored()
      && sessionSteps.Keys == sessionMessages.Keys
      && AllOk(manager.interval, Snapshot(), StoreNow(), manager.sessionSteps)
    }

    /** A new agent may find checkpoints that an earlier one left in the store. */
    constructor (manager: Manager, autoResume: bool)
      requires manager.Valid() && manager.interval >= 1 && manager.sessionSteps == map[]
      requires AllBalanced(manager.storage.checkpoints) && StepsRise(manager.storage.checkpoints, manager.births)
      ensures Valid()
      ensures this.manager == manager && this.autoResume == autoResume
      ensures Snapshot() == Sessions(map[], map[], map[], {}) && sessionResumed == {}
    {
      this.manager, this.autoResume := manager, autoResume;
      sessionSteps, sessionMessages, sessionResumed := map[], map[], {};
      since, anchored := map[], {};
    }

    method Put(session: Session, step: int, messages: seq<Message>, ghost exchanges: seq<Exchange>, ghost anchor: bool)
      modifies this
      ensures Snapshot() == SetView(old(Snapshot()), session, View(step, messages, exchanges, anchor))
      ensures sessionResumed == old(sessionResumed)
    {
      sessionSteps := sessionSteps[session := step];
      sessionMessages := sessionMessages[session := messages];
      since := since[session := exchanges];
      anchored := Anchor(anchored, session, anchor);
    }

    /** Loads the checkpoint with the given id, or the newest one when the id is empty, into the session. */
    method Resume(session: Session, id: Id) returns (found: bool)
      requires manager.Valid()
      modifies this
      ensures sessionResumed == old(sessionResumed)
      ensures
        var target := if id == "" then Latest(StoreNow(), session) else Get(manager.storage.checkpoints, id);
        && (found <==> target.Some?)
        && (!found ==> Snapshot() == old(Snapshot()))
        && (found ==> Snapshot() == SetView(old(Snapshot()), session,
              Resumed(ViewIn(old(Snapshot()), session), target, Latest(StoreNow(), session))))
    {
      var checkpoint: Option<CheckpointStore.Checkpoint>;
      if id != "" {
        checkpoint := manager.storage.LoadCheckpoint(id);
      } else {
        checkpoint := manager.storage.GetLatest(session);
      }
      if checkpoint.None? {
        return false;
      }
      Put(session, checkpoint.value.step, checkpoint.value.messages, [],
          AsNewest(checkpoint.value, Latest(StoreNow(), session)));
      return true;
    }

    /** A checkpoint loaded by hand between two calls, and exactly when that keeps the invariant. */
    method ResumeNow(session: Session, id: Id) returns (found: bool)
      requires Valid()
      modifies this
      ensures sessionResumed == old(sessionResumed)
      ensures
        var target := if id == "" then Latest(StoreNow(), session) else Get(manager.storage.checkpoints, id);
        var v, latest := ViewIn(old(Snapshot()), session), Latest(StoreNow(), session);
        && (found <==> target.Some?)
        && (!found ==> Snapshot() == old(Snapshot()))
        && (found ==> Snapshot() == SetView(old(Snapshot()), session, Resumed(v, target, latest)))
        && (Valid() <==> !found || session !in manager.sessionSteps || AsNewest(target.value, latest))
    {
      ghost var n, ss, v := manager.interval, Snapshot(), ViewIn(Snapshot(), session);
      ghost var store, last := StoreNow(), manager.sessionSteps;
      ghost var target := if id == "" then Latest(store, session) else Get(manager.storage.checkpoints, id);
      assert SessionOk(n, v, Latest(store, session), Get(last, session));
      found := Resume(session, id);
      if found {
        ResumedOkIff(n, v, target, Latest(store, session), Get(last, session));
        SetViewOkIff(n, ss, store, last, session, Resumed(v, target, Latest(store, session)));
      }
    }

    /** Saves the session as it stands; the new checkpoint becomes the newest and other sessions keep theirs. */
    method Checkpoint(session: Session, migration: bool, id: Id, now: real)
      requires Stored() && id !in manager.births
      requires Later(manager.storage.checkpoints, session, now)
      requires
        var v := ViewIn(Snapshot(), session);
        && Balanced(v.step, v.messages)
        && (session in manager.sessionSteps ==> manager.sessionSteps[session] <= v.step)
      modifies this, manager, manager.storage
      ensures Stored() && sessionResumed == old(sessionResumed)
      ensures
        var v := ViewIn(old(Snapshot()), session);
        var parent := DefaultParent(old(manager.sessionLast), session, None);
        && Snapshot() == SetView(old(Snapshot()), session, Saving(v))
        && manager.sessionSteps == old(manager.sessionSteps)[session := v.step]
        && Latest(StoreNow(), session) == Some(CheckpointStore.Checkpoint(id, session, now, v.step, v.messages, migration, parent))
      ensures AddsOnly(old(StoreNow()), StoreNow(), session, id)
    {
      var step := if session in sessionSteps then sessionSteps[session] else 0;
      var messages := if session in sessionMessages then sessionMessages[session] else [];
      ghost var before, births := StoreNow(), manager.births;
      ghost var cp := CheckpointStore.Checkpoint(
        id, session, now, step, messages, migration, DefaultParent(manager.sessionLast, session, None));
      ghost var b := Birth(manager.count, session, step);
      StoredAfterSave(before.checkpoints, births, b, cp, manager.sessionSteps, manager.sessionLast);
      manager.CreateCheckpoint(session, step, messages, migration, None, id, now);
      LatestAfterSave(before, StoreNow(), cp);
      Put(session, step, messages, [], true);
    }

    /** A checkpoint taken by hand between two calls. */
    method CheckpointNow(session: Session, migration: bool, id: Id, now: real)
      requires Valid() && id !in manager.births && Later(manager.storage.checkpoints, session, now)
      modifies this, manager, manager.storage
      ensures Valid() && sessionResumed == old(sessionResumed)
      ensures Snapshot() == SetView(old(Snapshot()), session, Saving(ViewIn(old(Snapshot()), session)))
      ensures
        var v := ViewIn(old(Snapshot()), session);
        SavedLast(StoreNow(), session, id, v.step, v.messages)
      ensures AddsOnly(old(StoreNow()), StoreNow(), session, id)
    {
      ghost var n, ss, v := manager.interval, Snapshot(), ViewIn(Snapshot(), session);
      ghost var store, last := StoreNow(), manager.sessionSteps;
      assert SessionOk(n, v, Latest(store, session), Get(last, session));
      Checkpoint(session, migration, id, now);
      SavingOk(n, ss, store, StoreNow(), last, Latest(StoreNow(), session).value, v);
    }

    /** Checkpoints of a durable agent replay exactly, for every target step. */
    lemma ReplayCovers(id: Id, upTo: Option<int>)
      requires Stored()
      ensures
        var chain := Reversed(History(manager.storage.checkpoints, id, MAX_REPLAY));
        TakeUpTo(chain, upTo) == FilterUpTo(chain, upTo)
    {
      ReplayIsExact(manager.storage.checkpoints, manager.births, id, upTo);
    }

    method AutoResume(session: Session)
      requires manager.Valid()
      modifies this
      ensures sessionResumed == if autoResume then old(sessionResumed) + {session} else old(sessionResumed)
      ensures
        var latest := Latest(StoreNow(), session);
        if autoResume && session !in old(sessionResumed) && latest.Some?
        then Snapshot() == SetView(old(Snapshot()), session, Restored(ViewIn(old(Snapshot()), session), latest))
        else Snapshot() == old(Snapshot())
    {
      if autoResume && session !in sessionResumed {
        var _ := Resume(session, "");
        sessionResumed := sessionResumed + {session};
      }
    }

    method Initialise(session: Session)
      requires sessionSteps.Keys == sessionMessages.Keys
      modifies this
      ensures Snapshot() == SetView(old(Snapshot()), session, ViewIn(old(Snapshot()), session))
      ensures sessionResumed == old(sessionResumed)
    {
      ghost var v := ViewIn(Snapshot(), session);
      if session !in sessionSteps {
        sessionSteps := sessionSteps[session := 0];
        sessionMessages := sessionMessages[session := []];
      }
      since := since[session := v.since];
      anchored := Anchor(anchored, session, v.anchored);
    }

    /** The first call for a session loads its newest checkpoint if the agent is set to, and opens the session. */
    method Open(session: Session)
      requires manager.Valid() && sessionSteps.Keys == sessionMessages.Keys
      modifies this
      ensures Snapshot() == SetView(old(Snapshot()), session,
                Opened(ViewIn(old(Snapshot()), session), autoResume && session !in old(sessionResumed), Latest(StoreNow(), session)))
      ensures sessionResumed == if autoResume then old(sessionResumed) + {session} else old(sessionResumed)
    {
      ghost var ss := Snapshot();
      AutoResume(session);
      ghost var v := ViewIn(Snapshot(), session);
      Initialise(session);
      ViewAfterSet(ss, session, v, session);
      SetTwice(ss, session, v, v);
    }

    /** Counts the step and records the request. */
    method Ask(session: Session, request: Message)
      modifies this
      ensures Snapshot() == SetView(old(Snapshot()), session, Asked(ViewIn(old(Snapshot()), session), request))
      ensures sessionResumed == old(sessionResumed)
    {
      var step := if session in sessionSteps then sessionSteps[session] else 0;
      var messages := if session in sessionMessages then sessionMessages[session] else [];
      ghost var v := ViewIn(Snapshot(), session);
      Put(session, step + 1, messages + [request], v.since, v.anchored);
    }

    method Answer(session: Session, ghost request: Message, response: Message)
      modifies this
      ensures Snapshot() == SetView(old(Snapshot()), session, Answered(ViewIn(old(Snapshot()), session), request, response))
      ensures sessionResumed == old(sessionResumed)
    {
      var step := if session in sessionSteps then sessionSteps[session] else 0;
      var messages := if session in sessionMessages then sessionMessages[session] else [];
      ghost var v := ViewIn(Snapshot(), session);
      Put(session, step, messages + [response], v.since + [Exchange(request, response)], v.anchored);
    }

    /** The failure path: back to the newest checkpoint, if there is one. */
    method RollBack(session: Session)
      requires manager.Valid()
      modifies this
      ensures sessionResumed == old(sessionResumed)
      ensures
        var latest := Latest(StoreNow(), session);
        && (latest.None? ==> Snapshot() == old(Snapshot()))
        && (latest.Some? ==> Snapshot() == SetView(old(Snapshot()), session, Restored(ViewIn(old(Snapshot()), session), latest)))
    {
      var latest := manager.storage.GetLatest(session);
      if latest.Some? {
        var _ := Resume(session, latest.value.id);
      }
    }

    method Begin(session: Session)
      requires Valid()
      modifies this
      ensures Valid()
      ensures ViewIn(Snapshot(), session) ==
        Opened(ViewIn(old(Snapshot()), session), autoResume && session !in old(sessionResumed), Latest(StoreNow(), session))
      ensures Snapshot() == SetView(old(Snapshot()), session, ViewIn(Snapshot(), session))
      ensures sessionResumed == if autoResume then old(sessionResumed) + {session} else old(sessionResumed)
    {
      ghost var ss, v, latest := Snapshot(), ViewIn(Snapshot(), session), Latest(StoreNow(), session);
      ghost var first := autoResume && session !in sessionResumed;
      Open(session);
      RestoredOk(manager.interval, v, latest, Get(manager.sessionSteps, session));
      SetViewOk(manager.interval, ss, StoreNow(), manager.sessionSteps, session, Opened(v, first, latest));
      ViewAfterSet(ss, session, Opened(v, first, latest), session);
    }

    /** The agent failed on `request`. */
    method Fail(session: Session, request: Message)
      requires Valid()
      modifies this
      ensures Valid() && sessionResumed == old(sessionResumed)
      ensures Snapshot() == SetView(old(Snapshot()), session,
                Restored(Asked(ViewIn(old(Snapshot()), session), request), Latest(StoreNow(), session)))
    {
      ghost var ss, v, latest := Snapshot(), ViewIn(Snapshot(), session), Latest(StoreNow(), session);
      Ask(session, request);
      ViewAfterSet(ss, session, Asked(v, request), session);
      RollBack(session);
      SetTwice(ss, session, Asked(v, request), Restored(Asked(v, request), latest));
      FailedOk(manager.interval, v, latest, Get(manager.sessionSteps, session), request);
      SetViewOk(manager.interval, ss, StoreNow(), manager.sessionSteps, session, Restored(Asked(v, request), latest));
    }

    /** The agent answered; the session is saved when a checkpoint is due. */
    method Succeed(session: Session, request: Message, response: Message, id: Id, now: real)
      requires Valid() && id !in manager.births && Later(manager.storage.checkpoints, session, now)
      modifies this, manager, manager.storage
      ensures Valid() && sessionResumed == old(sessionResumed)
      ensures
        var w := Answered(Asked(ViewIn(old(Snapshot()), session), request), request, response);
        if Due(manager.interval, old(manager.sessionSteps), session, w.step)
        then
          && Snapshot() == SetView(old(Snapshot()), session, Saving(w))
          && SavedLast(StoreNow(), session, id, w.step, w.messages)
        else
          && Snapshot() == SetView(old(Snapshot()), session, w)
          && StoreNow() == old(StoreNow())
      ensures AddsOnly(old(StoreNow()), StoreNow(), session, id)
    {
      ghost var n, ss, v := manager.interval, Snapshot(), ViewIn(Snapshot(), session);
      ghost var store, last := StoreNow(), manager.sessionSteps;
      ghost var w := Answered(Asked(v, request), request, response);
      AskAndAnswer(session, request, response);
      AnsweredOk(n, v, Latest(store, session), Get(last, session), request, response);
      ViewAfterSet(ss, session, w, session);
      var currentStep := if session in sessionSteps then sessionSteps[session] else 0;
      var due := manager.ShouldCheckpoint(session, currentStep);
      if due {
        Checkpoint(session, false, id, now);
        SetTwice(ss, session, w, Saving(w));
        SavingOk(n, ss, store, StoreNow(), last, Latest(StoreNow(), session).value, w);
      } else {
        SetViewOk(n, ss, store, last, session, w);
      }
    }

    method AskAndAnswer(session: Session, request: Message, response: Message)
      modifies this
      ensures Snapshot() == SetView(old(Snapshot()), session,
                Answered(Asked(ViewIn(old(Snapshot()), session), request), request, response))
      ensures sessionResumed == old(sessionResumed)
    {
      ghost var ss, v := Snapshot(), ViewIn(Snapshot(), session);
      Ask(session, request);
      ViewAfterSet(ss, session, Asked(v, request), session);
      Answer(session, request, response);
      SetTwice(ss, session, Asked(v, request), Answered(Asked(v, request), request, response));
    }

    /** The second part of a call, once the agent has answered or failed. */
    method Conclude<E>(request: Message, session: Session, outcome: Result<Message, E>, id: Id, now: real)
      requires Valid() && id !in manager.births && Later(manager.storage.checkpoints, session, now)
      modifies this, manager, manager.storage
      ensures Valid() && sessionResumed == old(sessionResumed)
      ensures Concluded(
                manager.interval, ViewIn(old(Snapshot()), session), ViewIn(Snapshot(), session),
                old(StoreNow()), StoreNow(), old(manager.sessionSteps), request, session, outcome, id)
      ensures Snapshot() == SetView(old(Snapshot()), session, ViewIn(Snapshot(), session))
      ensures AddsOnly(old(StoreNow()), StoreNow(), session, id)
    {
      ghost var n, ss, v := manager.interval, Snapshot(), ViewIn(Snapshot(), session);
      ghost var store, last := StoreNow(), manager.sessionSteps;
      if outcome.Err? {
        Fail(session, request);
        ViewAfterSet(ss, session, Restored(Asked(v, request), Latest(store, session)), session);
        FailureConcluded(n, v, store, last, request, session, outcome, id);
      } else {
        Succeed(session, request, outcome.value, id, now);
        ghost var w := Answered(Asked(v, request), request, outcome.value);
        ViewAfterSet(ss, session, if Due(n, last, session, w.step) then Saving(w) else w, session);
        SuccessConcluded(n, v, store, StoreNow(), last, request, session, outcome, id);
      }
    }

    /** Opens the session, asks the agent and concludes. */
    method Handle<E>(request: Message, session: Session, outcome: Result<Message, E>, id: Id, now: real)
      requires Valid() && id !in manager.births && Later(manager.storage.checkpoints, session, now)
      modifies this, manager, manager.storage
      ensures Valid()
      ensures
        var start := Opened(ViewIn(old(Snapshot()), session), old(FirstCall(session)), Latest(old(StoreNow()), session));
        Concluded(
          manager.interval, start, ViewIn(Snapshot(), session),
          old(StoreNow()), StoreNow(), old(manager.sessionSteps), request, session, outcome, id)
      ensures sessionResumed == if autoResume then old(sessionResumed) + {session} else old(sessionResumed)
      ensures Snapshot() == SetView(old(Snapshot()), session, ViewIn(Snapshot(), session))
      ensures AddsOnly(old(StoreNow()), StoreNow(), session, id)
    {
      ghost var ss := Snapshot();
      Begin(session);
      ghost var start := ViewIn(Snapshot(), session);
      Conclude(request, session, outcome, id, now);
      SetTwice(ss, session, start, ViewIn(Snapshot(), session));
    }

    ghost predicate FirstCall(session: Session)
      reads this
    {
      autoResume && session !in sessionResumed
    }

    /**
     * One message. `outcome` is what the wrapped agent returns, `id` and `now` what a checkpoint would be given.
     * `lost` holds the answered exchanges that a failure takes back.
     */
    method Process<E>(request: Message, session: Session, outcome: Result<Message, E>, id: Id, now: real)
      returns (r: Result<Message, E>, ghost lost: seq<Exchange>)
      requires Valid() && id !in manager.births && Later(manager.storage.checkpoints, session, now)
      modifies this, manager, manager.storage
      ensures Valid() && r == outcome
      ensures Processed(
                manager.interval, ViewIn(old(Snapshot()), session), ViewIn(Snapshot(), session),
                autoResume && session !in old(sessionResumed), old(StoreNow()), StoreNow(),
                old(manager.sessionSteps), request, session, outcome, id, lost)
      ensures sessionResumed == if autoResume then old(sessionResumed) + {session} else old(sessionResumed)
      ensures Snapshot() == SetView(old(Snapshot()), session, ViewIn(Snapshot(), session))
      ensures AddsOnly(old(StoreNow()), StoreNow(), session, id)
    {
      ghost var n, v, resume := manager.interval, ViewIn(Snapshot(), session), FirstCall(session);
      ghost var store, last := StoreNow(), manager.sessionSteps;
      lost := LostByFailure(n, v, resume, Latest(store, session), Get(last, session), outcome.Err?);
      r := outcome;
      Handle(request, session, outcome, id, now);
      ConcludedIsProcessed(n, v, ViewIn(Snapshot(), session), resume, store, StoreNow(), last, request, session, outcome, id, lost);
    }
  }

  function Opened(v: View, resume: bool, latest: Option<Checkpoint>): (r: View)
    ensures resume && latest.Some? ==> r.step == latest.value.step && r.messages == latest.value.messages && r.since == []
    ensures !resume || latest.None? ==> r == v
  {
    if resume then Restored(v, latest) else v
  }

  ghost predicate Later(cps: map<Id, Checkpoint>, session: Session, now: real) {
    forall c :: c in cps && cps[c].session == session ==> cps[c].time < now
  }

  /** The newest checkpoint of the session is the one with this content. */
  ghost predicate SavedLast(s: Store, session: Session, id: Id, step: int, messages: seq<Message>) {
    var latest := Latest(s, session);
    latest.Some? && latest.value.id == id && latest.value.step == step && latest.value.messages == messages
  }

  /** What the outcome of the agent does to a session that has been opened, from `v` to `v'`. */
  ghost predicate Concluded<E>(
    n: int, v: View, v': View, store: Store, store': Store, last: map<Session, int>,
    request: Message, session: Session, outcome: Result<Message, E>, id: Id)
  {
    var latest := Latest(store, session);
    if outcome.Ok? then
      && v'.step == v.step + 1 && v'.messages == v.messages + [request, outcome.value]
      && if v.step + 1 - (if session in last then last[session] else 0) >= n
         then SavedLast(store', session, id, v'.step, v'.messages) else store' == store
    else
      && store' == store
      && (latest.None? ==> v'.step == v.step + 1 && v'.messages == v.messages + [request])
      && (latest.Some? ==> v'.step == latest.value.step && v'.messages == latest.value.messages)
  }

  /**
   * What one call of Process does to its session, from `v` to `v'`. The first call of a session that has a checkpoint
   * starts from it if `resume` is set, every other call from where the session stands. A success adds one step, the
   * request and the response, and saves the session if `n` steps have passed since the last checkpoint. A failure goes
   * back to the newest checkpoint and takes back what was answered since; without one the request stays.
   */
  ghost predicate Processed<E>(
    n: int, v: View, v': View, resume: bool, store: Store, store': Store, last: map<Session, int>,
    request: Message, session: Session, outcome: Result<Message, E>, id: Id, lost: seq<Exchange>)
  {
    var latest := Latest(store, session);
    var resumed := resume && latest.Some?;
    var step := if resumed then latest.value.step else v.step;
    var messages := if resumed then latest.value.messages else v.messages;
    if outcome.Ok? then
      && v'.step == step + 1 && v'.messages == messages + [request, outcome.value]
      && if step + 1 - (if session in last then last[session] else 0) >= n
         then SavedLast(store', session, id, v'.step, v'.messages) else store' == store
    else
      && store' == store
      && (latest.None? ==> v'.step == step + 1 && v'.messages == messages + [request] && lost == [])
      && (latest.Some? ==>
           && v'.step == latest.value.step && v'.messages == latest.value.messages
           && |lost| <= n - 1 && lost == (if resumed then [] else v.since)
           && (resumed || v.anchored ==> messages == latest.value.messages + Flat(lost)))
  }

  lemma FailureConcluded<E>(
    n: int, v: View, store: Store, last: map<Session, int>, request: Message, session: Session, outcome: Result<Message, E>, id: Id)
    requires outcome.Err?
    ensures Concluded(
      n, v, Restored(Asked(v, request), Latest(store, session)), store, store, last, request, session, outcome, id)
  {
  }

  lemma SuccessConcluded<E>(
    n: int, v: View, store: Store, store': Store, last: map<Session, int>,
    request: Message, session: Session, outcome: Result<Message, E>, id: Id)
    requires n >= 1 && outcome.Ok?
    requires
      var w := Answered(Asked(v, request), request, outcome.value);
      if Due(n, last, session, w.step) then SavedLast(store', session, id, w.step, w.messages) else store' == store
    ensures
      var w := Answered(Asked(v, request), request, outcome.value);
      Concluded(
        n, v, if Due(n, last, session, w.step) then Saving(w) else w, store, store', last, request, session, outcome, id)
  {
    assert v.messages + [request] + [outcome.value] == v.messages + [request, outcome.value];
  }

  /** What a failure takes back: the exchanges since the newest checkpoint, fewer than `n`. */
  lemma LostByFailure(n: int, v: View, resume: bool, latest: Option<Checkpoint>, last: Option<int>, failed: bool)
    returns (lost: seq<Exchange>)
    requires n >= 1 && SessionOk(n, v, latest, last)
    ensures lost == if failed && latest.Some? then Opened(v, resume, latest).since else []
    ensures LostOk(n, v, resume, latest, failed, lost)
  {
    lost := if failed && latest.Some? then Opened(v, resume, latest).since else [];
  }

  ghost predicate LostOk(n: int, v: View, resume: bool, latest: Option<Checkpoint>, failed: bool, lost: seq<Exchange>) {
    if failed && latest.Some? then
      var start := if resume then latest.value.messages else v.messages;
      && |lost| <= n - 1 && lost == (if resume then [] else v.since)
      && (resume || v.anchored ==> start == latest.value.messages + Flat(lost))
    else lost == []
  }

  lemma ConcludedIsProcessed<E>(
    n: int, v: View, v': View, resume: bool, store: Store, store': Store, last: map<Session, int>,
    request: Message, session: Session, outcome: Result<Message, E>, id: Id, lost: seq<Exchange>)
    requires Concluded(n, Opened(v, resume, Latest(store, session)), v', store, store', last, request, session, outcome, id)
    requires LostOk(n, v, resume, Latest(store, session), outcome.Err?, lost)
    ensures Processed(n, v, v', resume, store, store', last, request, session, outcome, id, lost)
  {
  }
}
