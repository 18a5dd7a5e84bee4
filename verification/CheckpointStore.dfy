/** The in-memory checkpoint store of checkpointing/storage.go: a map of checkpoints and an index per session. */
module CheckpointStore {
  import opened Common
  import Sorting

  type Id = string
  type Session = string
  type Message = string

  /** `migration` says whether the metadata carries a migration context. */
  datatype Checkpoint = Checkpoint(
    id: Id, session: Session, time: real, step: int, messages: seq<Message>, migration: bool, parent: Option<Id>)

  /** The two fields of the store. */
  datatype Store = Store(checkpoints: map<Id, Checkpoint>, index: map<Session, seq<Id>>)

  function IdsOf(s: Store, session: Session): seq<Id> {
    if session in s.index then s.index[session] else []
  }

  /** A session's index: no duplicates, only stored checkpoints of that session, newest first. */
  ghost predicate GoodIndex(cps: map<Id, Checkpoint>, session: Session, ids: seq<Id>) {
    && Distinct(ids)
    && (forall i :: 0 <= i < |ids| ==> ids[i] in cps && cps[ids[i]].session == session)
    && (forall i, j :: 0 <= i < j < |ids| ==> cps[ids[i]].time >= cps[ids[j]].time)
  }

  ghost predicate IndexesGood(cps: map<Id, Checkpoint>, index: map<Session, seq<Id>>) {
    forall session :: session in index ==> GoodIndex(cps, session, index[session])
  }

  ghost predicate AllIndexed(cps: map<Id, Checkpoint>, index: map<Session, seq<Id>>) {
    forall id :: id in cps ==> cps[id].id == id && cps[id].session in index && id in index[cps[id].session]
  }

  /** Every index is good and holds all stored checkpoints of its session. */
  ghost predicate Consistent(s: Store) {
    IndexesGood(s.checkpoints, s.index) && AllIndexed(s.checkpoints, s.index)
  }

  /** An index stays good as long as the checkpoints it names do not change. */
  lemma GoodIndexFrame(cps: map<Id, Checkpoint>, cps': map<Id, Checkpoint>, session: Session, ids: seq<Id>)
    requires GoodIndex(cps, session, ids)
    requires forall id :: id in cps && cps[id].session == session ==> id in cps' && cps'[id] == cps[id]
    ensures GoodIndex(cps', session, ids)
  {
  }

  /** The checkpoints with the given ids. */
  ghost function Load(cps: map<Id, Checkpoint>, ids: seq<Id>): seq<Checkpoint>
    requires forall i :: 0 <= i < |ids| ==> ids[i] in cps
  {
    seq(|ids|, i requires 0 <= i < |ids| => cps[ids[i]])
  }

  /** Where the search for `id` stops: its first place, or the length when it is not there. */
  method Find(ids: seq<Id>, id: Id) returns (place: nat)
    ensures place <= |ids| && id !in ids[..place]
    ensures place < |ids| ==> ids[place] == id
    ensures place == |ids| <==> id !in ids
  {
    place := 0;
    while place < |ids| && ids[place] != id
      invariant place <= |ids| && id !in ids[..place]
    {
      place := place + 1;
    }
    assert ids == ids[..place] + ids[place..];
  }

  function TimeOf(cps: map<Id, Checkpoint>, id: Id): real {
    if id in cps then cps[id].time else 0.0
  }

  ghost predicate NewestFirst(cps: map<Id, Checkpoint>, ids: seq<Id>) {
    forall i, j :: 0 <= i < j < |ids| ==> TimeOf(cps, ids[i]) >= TimeOf(cps, ids[j])
  }

  method SortNewestFirst(cps: map<Id, Checkpoint>, ids: seq<Id>) returns (r: seq<Id>)
    ensures multiset(r) == multiset(ids) && NewestFirst(cps, r)
  {
    r := Sorting.Sort(ids, id => -TimeOf(cps, id));
  }

  /** What saving does to the store: `cp` is stored, and a new id enters its session's index, which is sorted again. */
  ghost predicate Saved(s: Store, s': Store, cp: Checkpoint) {
    && s'.checkpoints == s.checkpoints[cp.id := cp]
    && cp.session in s'.index
    && s'.index == s.index[cp.session := s'.index[cp.session]]
    && (cp.id in IdsOf(s, cp.session) ==> s'.index == s.index)
    && (cp.id !in IdsOf(s, cp.session) ==>
         && multiset(s'.index[cp.session]) == multiset(IdsOf(s, cp.session) + [cp.id])
         && NewestFirst(s'.checkpoints, s'.index[cp.session]))
  }

  class MemoryStorage {
    var checkpoints: map<Id, Checkpoint>
    var index: map<Session, seq<Id>>

    ghost function State(): Store
      reads this
    {
      Store(checkpoints, index)
    }

    ghost predicate Valid()
      reads this
    {
      Consistent(State())
    }

    constructor ()
      ensures State() == Store(map[], map[])
    {
      checkpoints, index := map[], map[];
    }

    /** Re-saving an id keeps its place in the index; a fresh id keeps every index good. */
    method Save(cp: Checkpoint)
      modifies this
      ensures Saved(old(State()), State(), cp)
      ensures old(Valid()) && cp.id !in old(checkpoints) ==> Valid()
    {
      ghost var before := State();
      checkpoints := checkpoints[cp.id := cp];
      var ids := if cp.session in index then index[cp.session] else [];
      var place := Find(ids, cp.id);
      if place == |ids| {
        ids := SortNewestFirst(checkpoints, ids + [cp.id]);
        index := index[cp.session := ids];
      }
      if Consistent(before) && cp.id !in before.checkpoints {
        SavedFresh(before, State(), cp);
      }
    }

    method LoadCheckpoint(id: Id) returns (r: Option<Checkpoint>)
      ensures r == if id in checkpoints then Some(checkpoints[id]) else None
    {
      if id in checkpoints {
        r := Some(checkpoints[id]);
      } else {
        r := None;
      }
    }

    /** The newest `limit` checkpoints of the session (all without a limit), newest first. */
    method ListCheckpoints(session: Session, limit: Option<nat>) returns (cps: seq<Checkpoint>)
      requires Valid()
      ensures cps == Load(checkpoints, Limited(IdsOf(State(), session), limit))
      ensures IsListing(checkpoints, session, limit, cps)
    {
      ListingIs(State(), session, limit);
      cps := [];
      if session !in index {
        return;
      }
      var ids := index[session];
      if limit.Some? && |ids| > limit.value {
        ids := ids[..limit.value];
      }
      for i := 0 to |ids|
        invariant cps == Load(checkpoints, ids[..i])
      {
        if ids[i] in checkpoints {
          cps := cps + [checkpoints[ids[i]]];
        }
      }
      assert ids[..|ids|] == ids;
    }

    /** Nothing when the session holds nothing, otherwise a stored checkpoint that none of the session is newer than. */
    method GetLatest(session: Session) returns (r: Option<Checkpoint>)
      requires Valid()
      ensures IsLatest(checkpoints, session, r)
      ensures r == Latest(State(), session)
    {
      var cps := ListCheckpoints(session, Some(1));
      LatestIsNewest(State(), session);
      if |cps| == 0 {
        r := None;
      } else {
        r := Some(cps[0]);
      }
    }

    method Delete(id: Id) returns (ok: bool)
      requires Valid()
      modifies this
      ensures Valid()
      ensures ok <==> id in old(checkpoints)
      ensures checkpoints == old(checkpoints) - {id}
      ensures !ok ==> index == old(index)
      ensures ok ==>
        var session := old(checkpoints)[id].session;
        && session in old(index)
        && index == old(index)[session := Without(old(index)[session], id)]
    {
      if id !in checkpoints {
        return false;
      }
      ghost var before := State();
      var session := checkpoints[id].session;
      checkpoints := checkpoints - {id};
      var ids := if session in index then index[session] else [];
      DeletedConsistent(before, id);
      var place := Find(ids, id);
      if place < |ids| {
        var kept := ids[..place] + ids[place + 1..];
        WithoutFound(ids, place);
        index := index[session := kept];
      }
      return true;
    }

    method RemoveAll(ids: seq<Id>)
      modifies this`checkpoints
      ensures checkpoints == map id | id in old(checkpoints) && id !in ids :: old(checkpoints)[id]
    {
      ghost var before := checkpoints;
      for i := 0 to |ids|
        invariant checkpoints == map id | id in before && id !in ids[..i] :: before[id]
      {
        checkpoints := checkpoints - {ids[i]};
        assert forall id :: id in ids[..i + 1] <==> id in ids[..i] || id == ids[i];
      }
      assert ids[..|ids|] == ids;
    }

    /** Removes exactly the session's checkpoints and says how many there were. */
    method DeleteSession(session: Session) returns (count: nat)
      requires Valid()
      modifies this
      ensures Valid()
      ensures count == |IdsOf(old(State()), session)|
      ensures index == old(index) - {session}
      ensures checkpoints == map id | id in old(checkpoints) && old(checkpoints)[id].session != session :: old(checkpoints)[id]
    {
      if session !in index {
        return 0;
      }
      ghost var before := State();
      var ids := index[session];
      RemoveAll(ids);
      index := index - {session};
      count := |ids|;
      OtherSessions(before, session);
    }

    method GetCheckpointHistory(id: Id, maxDepth: int) returns (history: seq<Checkpoint>)
      ensures history == History(checkpoints, id, maxDepth)
    {
      history := [];
      var current := id;
      var i := 0;
      while i < maxDepth
        invariant 0 <= i && (i <= maxDepth || maxDepth < 0)
        invariant History(checkpoints, id, maxDepth) == history + History(checkpoints, current, maxDepth - i)
      {
        if current !in checkpoints {
          break;
        }
        var cp := checkpoints[current];
        HistoryGoesOn(history, checkpoints, current, maxDepth - i);
        history := history + [cp];
        if cp.parent.None? {
          break;
        }
        current := cp.parent.value;
        i := i + 1;
      }
    }
  }

  function Limited(ids: seq<Id>, limit: Option<nat>): (r: seq<Id>)
    ensures r <= ids
  {
    if limit.Some? && |ids| > limit.value then ids[..limit.value] else ids
  }

  /** The ids of the stored checkpoints of a session. */
  ghost function StoredIds(cps: map<Id, Checkpoint>, session: Session): set<Id> {
    set id | id in cps && cps[id].session == session
  }

  /**
   The listed checkpoints are stored ones of the session, each once, newest first; there are as many as the limit and
   the store allow, and none that is left out is newer than one that is listed.
   */
  ghost predicate IsListing(cps: map<Id, Checkpoint>, session: Session, limit: Option<nat>, r: seq<Checkpoint>) {
    var stored := StoredIds(cps, session);
    && |r| == (if limit.Some? && limit.value < |stored| then limit.value else |stored|)
    && (forall i :: 0 <= i < |r| ==> r[i].id in stored && cps[r[i].id] == r[i])
    && (forall i, j :: 0 <= i < j < |r| ==> r[i].id != r[j].id && r[i].time >= r[j].time)
    && (forall id, i :: id in stored && 0 <= i < |r| ==> cps[id].time <= r[i].time || exists j :: 0 <= j < i && r[j].id == id)
  }

  lemma {:induction false} DistinctSize(ids: seq<Id>, members: set<Id>)
    requires Distinct(ids) && forall id :: id in ids <==> id in members
    ensures |ids| == |members|
  {
    if ids == [] {
      assert members == {};
    } else {
      var front, last := ids[..|ids| - 1], ids[|ids| - 1];
      assert ids == front + [last];
      DistinctSize(front, members - {last});
    }
  }

  lemma IndexIsStored(s: Store, session: Session)
    requires Consistent(s)
    ensures GoodIndex(s.checkpoints, session, IdsOf(s, session))
    ensures forall id :: id in IdsOf(s, session) <==> id in StoredIds(s.checkpoints, session)
    ensures |IdsOf(s, session)| == |StoredIds(s.checkpoints, session)|
  {
    DistinctSize(IdsOf(s, session), StoredIds(s.checkpoints, session));
  }

  lemma NoneNewerLeftOut(s: Store, session: Session, limit: Option<nat>, id: Id, i: nat)
    requires Consistent(s) && id in StoredIds(s.checkpoints, session) && i < |Limited(IdsOf(s, session), limit)|
    ensures
      var ids := Limited(IdsOf(s, session), limit);
      && (forall k :: 0 <= k < |ids| ==> ids[k] in s.checkpoints)
      && (s.checkpoints[id].time <= s.checkpoints[ids[i]].time || exists j :: 0 <= j < i && ids[j] == id)
  {
    IndexIsStored(s, session);
    var all, ids := IdsOf(s, session), Limited(IdsOf(s, session), limit);
    var m :| 0 <= m < |all| && all[m] == id;
    if m < i {
      assert ids[m] == id;
    }
  }

  lemma ListingIs(s: Store, session: Session, limit: Option<nat>)
    requires Consistent(s)
    ensures forall k :: 0 <= k < |Limited(IdsOf(s, session), limit)| ==> Limited(IdsOf(s, session), limit)[k] in s.checkpoints
    ensures IsListing(s.checkpoints, session, limit, Load(s.checkpoints, Limited(IdsOf(s, session), limit)))
  {
    IndexIsStored(s, session);
    var ids := Limited(IdsOf(s, session), limit);
    var r, stored := Load(s.checkpoints, ids), StoredIds(s.checkpoints, session);
    forall i | 0 <= i < |r| ensures r[i].id == ids[i] {
      assert s.checkpoints[ids[i]].id == ids[i];
    }
    forall id, i | id in stored && 0 <= i < |r|
      ensures s.checkpoints[id].time <= r[i].time || exists j :: 0 <= j < i && r[j].id == id
    {
      NoneNewerLeftOut(s, session, limit, id, i);
      if j :| 0 <= j < i && ids[j] == id {
        assert r[j].id == id;
      }
    }
  }

  function Latest(s: Store, session: Session): Option<Checkpoint> {
    var ids := IdsOf(s, session);
    if ids == [] || ids[0] !in s.checkpoints then None else Some(s.checkpoints[ids[0]])
  }

  ghost predicate IsLatest(cps: map<Id, Checkpoint>, session: Session, r: Option<Checkpoint>) {
    && (r.None? ==> forall id :: id in cps ==> cps[id].session != session)
    && (r.Some? ==>
         && r.value.id in cps && cps[r.value.id] == r.value && r.value.session == session
         && forall id :: id in cps && cps[id].session == session ==> cps[id].time <= r.value.time)
  }

  lemma LatestIsNewest(s: Store, session: Session)
    requires Consistent(s)
    ensures IsLatest(s.checkpoints, session, Latest(s, session))
  {
  }

  /** The chain of parents from `id`, newest first, at most `depth` of it. */
  function History(cps: map<Id, Checkpoint>, id: Id, depth: int): seq<Checkpoint>
    decreases depth
  {
    if depth <= 0 || id !in cps then []
    else if cps[id].parent.None? then [cps[id]]
    else [cps[id]] + History(cps, cps[id].parent.value, depth - 1)
  }

  /** Each checkpoint is followed by its parent, and the chain ends at a root, at a missing parent or at the depth. */
  ghost predicate IsChain(cps: map<Id, Checkpoint>, id: Id, depth: int, h: seq<Checkpoint>) {
    && (h == [] <==> depth <= 0 || id !in cps)
    && (h != [] ==> id in cps && h[0] == cps[id] && |h| <= depth)
    && (forall i :: 0 <= i < |h| - 1 ==>
         h[i].parent.Some? && h[i].parent.value in cps && h[i + 1] == cps[h[i].parent.value])
    && (h != [] && |h| < depth ==> h[|h| - 1].parent.None? || h[|h| - 1].parent.value !in cps)
  }

  lemma {:induction false} HistoryIs(cps: map<Id, Checkpoint>, id: Id, depth: int)
    ensures IsChain(cps, id, depth, History(cps, id, depth))
    decreases depth
  {
    if depth > 0 && id in cps && cps[id].parent.Some? {
      HistoryIs(cps, cps[id].parent.value, depth - 1);
    }
  }

  lemma HistoryGoesOn(before: seq<Checkpoint>, cps: map<Id, Checkpoint>, id: Id, depth: int)
    requires depth > 0 && id in cps
    ensures before + History(cps, id, depth) ==
            before + [cps[id]] + if cps[id].parent.None? then [] else History(cps, cps[id].parent.value, depth - 1)
  {
  }

  function Without(ids: seq<Id>, x: Id): seq<Id> {
    if ids == [] then []
    else if ids[0] == x then Without(ids[1..], x)
    else [ids[0]] + Without(ids[1..], x)
  }

  lemma {:induction false} WithoutSame(ids: seq<Id>, x: Id)
    requires x !in ids
    ensures Without(ids, x) == ids
  {
    if ids != [] {
      WithoutSame(ids[1..], x);
    }
  }

  lemma {:induction false} WithoutMiddle(a: seq<Id>, x: Id, b: seq<Id>)
    requires x !in a && x !in b
    ensures Without(a + [x] + b, x) == a + b
  {
    var s := a + [x] + b;
    if a == [] {
      assert s[1..] == b;
      WithoutSame(b, x);
    } else {
      assert s[1..] == a[1..] + [x] + b;
      WithoutMiddle(a[1..], x, b);
    }
  }

  lemma WithoutFound(ids: seq<Id>, place: nat)
    requires Distinct(ids) && place < |ids|
    ensures ids[..place] + ids[place + 1..] == Without(ids, ids[place])
  {
    assert ids == ids[..place] + [ids[place]] + ids[place + 1..];
    WithoutMiddle(ids[..place], ids[place], ids[place + 1..]);
  }

  lemma DeletedConsistent(s: Store, id: Id)
    requires Consistent(s) && id in s.checkpoints
    ensures s.checkpoints[id].session in s.index
    ensures
      var session := s.checkpoints[id].session;
      && id in s.index[session]
      && Consistent(Store(s.checkpoints - {id}, s.index[session := Without(s.index[session], id)]))
  {
    var session := s.checkpoints[id].session;
    var ids := s.index[session];
    var i :| 0 <= i < |ids| && ids[i] == id;
    var a, b := ids[..i], ids[i + 1..];
    assert ids == a + [id] + b;
    var s' := Store(s.checkpoints - {id}, s.index[session := a + b]);
    RemovedGood(s.checkpoints, session, a, id, b);
    WithoutMiddle(a, id, b);
    DeletedOthers(s, id, a + b);
    assert forall other :: other in a + [id] + b && other != id ==> other in a + b;
  }

  lemma DeletedOthers(s: Store, id: Id, ids: seq<Id>)
    requires IndexesGood(s.checkpoints, s.index) && id in s.checkpoints
    requires GoodIndex(s.checkpoints - {id}, s.checkpoints[id].session, ids)
    ensures IndexesGood(s.checkpoints - {id}, s.index[s.checkpoints[id].session := ids])
  {
  }

  lemma RemovedGood(cps: map<Id, Checkpoint>, session: Session, a: seq<Id>, id: Id, b: seq<Id>)
    requires GoodIndex(cps, session, a + [id] + b)
    ensures id !in a && id !in b && GoodIndex(cps - {id}, session, a + b)
  {
    var before, after := a + [id] + b, a + b;
    assert before[|a|] == id;
    forall x | x in a ensures x != id {
      var k :| 0 <= k < |a| && a[k] == x;
      assert before[k] == x;
    }
    forall x | x in b ensures x != id {
      var k :| 0 <= k < |b| && b[k] == x;
      assert before[|a| + 1 + k] == x;
    }
    forall k | 0 <= k < |after|
      ensures after[k] == before[if k < |a| then k else k + 1]
    {
    }
  }

  lemma OtherSessions(s: Store, session: Session)
    requires Consistent(s) && session in s.index
    ensures forall id :: id in s.checkpoints ==> (id in s.index[session] <==> s.checkpoints[id].session == session)
    ensures Consistent(Store(map id | id in s.checkpoints && s.checkpoints[id].session != session :: s.checkpoints[id],
                             s.index - {session}))
  {
  }

  /** `cp` is newer than everything its session holds. */
  ghost predicate Newest(s: Store, cp: Checkpoint) {
    forall id :: id in s.checkpoints && s.checkpoints[id].session == cp.session ==> s.checkpoints[id].time < cp.time
  }

  lemma PermutationDistinct<T>(a: seq<T>, b: seq<T>)
    requires multiset(a) == multiset(b) && Distinct(a)
    ensures Distinct(b)
  {
    forall i, j | 0 <= i < j < |b| ensures b[i] != b[j] {
      Multiplicity(a, b[i]);
      TwoPlaces(b, i, j);
    }
  }

  lemma TwoPlaces<T>(b: seq<T>, i: nat, j: nat)
    requires i < j < |b|
    ensures multiset(b)[b[i]] >= 1 + (if b[i] == b[j] then 1 else 0)
  {
    assert b == b[..i] + [b[i]] + b[i + 1..j] + [b[j]] + b[j + 1..];
  }

  /** A fresh checkpoint keeps the store consistent and, when it is the newest of its session, heads the index. */
  lemma SavedFresh(s: Store, s': Store, cp: Checkpoint)
    requires Consistent(s) && cp.id !in s.checkpoints && Saved(s, s', cp)
    ensures Consistent(s')
    ensures Newest(s, cp) ==> Latest(s', cp.session) == Some(cp)
  {
    SavedIndex(s, s', cp);
    forall o | o in s'.index ensures GoodIndex(s'.checkpoints, o, s'.index[o]) {
      if o != cp.session {
        GoodIndexFrame(s.checkpoints, s'.checkpoints, o, s.index[o]);
      }
    }
    SavedAllIndexed(s, s', cp);
  }

  lemma SavedAllIndexed(s: Store, s': Store, cp: Checkpoint)
    requires AllIndexed(s.checkpoints, s.index) && cp.id !in IdsOf(s, cp.session) && Saved(s, s', cp)
    ensures AllIndexed(s'.checkpoints, s'.index)
  {
    var ids, sorted := IdsOf(s, cp.session), s'.index[cp.session];
    forall id | id in ids + [cp.id] ensures id in sorted {
      assert id in multiset(ids + [cp.id]);
      assert id in multiset(sorted);
    }
  }

  lemma SavedIndex(s: Store, s': Store, cp: Checkpoint)
    requires IndexesGood(s.checkpoints, s.index) && cp.id !in s.checkpoints && Saved(s, s', cp)
    ensures GoodIndex(s'.checkpoints, cp.session, s'.index[cp.session])
    ensures Newest(s, cp) ==> IdsOf(s', cp.session) != [] && IdsOf(s', cp.session)[0] == cp.id
  {
    var ids := IdsOf(s, cp.session);
    assert cp.id !in ids;
    SortedGood(s.checkpoints, ids, cp, s'.index[cp.session]);
  }

  lemma SortedGood(cps: map<Id, Checkpoint>, ids: seq<Id>, cp: Checkpoint, sorted: seq<Id>)
    requires GoodIndex(cps, cp.session, ids) && cp.id !in cps
    requires multiset(sorted) == multiset(ids + [cp.id]) && NewestFirst(cps[cp.id := cp], sorted)
    ensures GoodIndex(cps[cp.id := cp], cp.session, sorted)
    ensures (forall id :: id in ids ==> cps[id].time < cp.time) ==> sorted != [] && sorted[0] == cp.id
  {
    var cps' := cps[cp.id := cp];
    assert Distinct(ids + [cp.id]);
    PermutationDistinct(ids + [cp.id], sorted);
    forall i | 0 <= i < |sorted| ensures sorted[i] in ids + [cp.id] {
      assert sorted[i] in multiset(sorted);
    }
    assert cp.id in multiset(sorted);
    HeadIsNewest(cps', sorted, cp.id);
    assert sorted[0] in ids + [cp.id];
  }

  lemma HeadIsNewest(cps: map<Id, Checkpoint>, ids: seq<Id>, x: Id)
    requires NewestFirst(cps, ids) && x in ids
    ensures TimeOf(cps, ids[0]) >= TimeOf(cps, x)
  {
  }
}
