/**
 The in-memory cache of middleware/caching.go (a map and a linked list that change together, with a capacity,
 a time to live and a periodic clean-up) and the decorator that uses it.  Times are in seconds.
 */
module Caching {
  import opened Common

  type Key = string
  type Response = string

  datatype Entry = Entry(key: Key, response: Response, expiresAt: real)

  // ---------------------------------------------------------------------------------------------
  // The specification: an association list, newest write first

  predicate Expired(e: Entry, now: real) {
    now > e.expiresAt
  }

  function Filter(l: seq<Entry>, keep: Entry -> bool): seq<Entry> {
    if l == [] then []
    else Filter(l[..|l| - 1], keep) + if keep(l[|l| - 1]) then [l[|l| - 1]] else []
  }

  function Without(l: seq<Entry>, k: Key): seq<Entry> {
    Filter(l, (e: Entry) => e.key != k)
  }

  function Unexpired(l: seq<Entry>, now: real): seq<Entry> {
    Filter(l, (e: Entry) => !Expired(e, now))
  }

  /** At capacity the last entry, the least recently written one, has to go. */
  function Evict(l: seq<Entry>, maxSize: int): seq<Entry> {
    if |l| >= maxSize && l != [] then l[..|l| - 1] else l
  }

  /** What a write leaves of the other entries; every hundredth one also drops what has expired. */
  function Survivors(l: seq<Entry>, writes: nat, k: Key, now: real): seq<Entry> {
    if (writes + 1) % 100 == 0 then Unexpired(Without(l, k), now) else Without(l, k)
  }

  function Room(l: seq<Entry>, writes: nat, maxSize: int, k: Key, now: real): seq<Entry> {
    Evict(Survivors(l, writes, k, now), maxSize)
  }

  function Written(l: seq<Entry>, writes: nat, maxSize: int, k: Key, v: Response, ttl: real, now: real): seq<Entry> {
    [Entry(k, v, now + ttl)] + Room(l, writes, maxSize, k, now)
  }

  function Find(l: seq<Entry>, k: Key): Option<Entry> {
    if l == [] then None else if l[|l| - 1].key == k then Some(l[|l| - 1]) else Find(l[..|l| - 1], k)
  }

  function Lookup(l: seq<Entry>, k: Key, now: real): Option<Response> {
    match Find(l, k)
    case None => None
    case Some(e) => if Expired(e, now) then None else Some(e.response)
  }

  ghost predicate DistinctKeys(l: seq<Entry>) {
    forall i, j :: 0 <= i < j < |l| ==> l[i].key != l[j].key
  }

  lemma {:induction false} FindMeans(l: seq<Entry>, k: Key)
    requires DistinctKeys(l)
    ensures Find(l, k).None? <==> forall i :: 0 <= i < |l| ==> l[i].key != k
    ensures forall i :: 0 <= i < |l| && l[i].key == k ==> Find(l, k) == Some(l[i])
    ensures Find(l, k).Some? ==> Find(l, k).value in l && Find(l, k).value.key == k
  {
    if l != [] {
      FindMeans(l[..|l| - 1], k);
    }
  }

  // ---------------------------------------------------------------------------------------------
  // The store as an object

  /** A node of the linked list. */
  class Element {
    const key: Key
    const response: Response
    const expiresAt: real

    constructor (key: Key, response: Response, expiresAt: real)
      ensures this.key == key && this.response == response && this.expiresAt == expiresAt
    {
      this.key, this.response, this.expiresAt := key, response, expiresAt;
    }

    function Value(): Entry {
      Entry(key, response, expiresAt)
    }
  }

  ghost function Values(s: seq<Element>): seq<Entry> {
    seq(|s|, i requires 0 <= i < |s| => s[i].Value())
  }

  class MemoryCacheStore {
    var cache: map<Key, Element>
    var lru: seq<Element>
    const maxSize: int
    var writes: nat
    var evictions: nat

    /** The map and the list hold the same elements, under distinct keys. */
    ghost predicate Valid()
      reads this
    {
      Indexes(lru, cache)
    }

    ghost function Contents(): seq<Entry>
      reads this
    {
      Values(lru)
    }

    constructor (maxSize: int)
      ensures Valid() && Contents() == [] && this.maxSize == maxSize && writes == 0 && evictions == 0
    {
      cache, lru, this.maxSize, writes, evictions := map[], [], maxSize, 0, 0;
    }

    method Get(k: Key, now: real) returns (r: Option<Response>)
      requires Valid()
      ensures r == Lookup(Contents(), k, now)
    {
      FindMeans(Contents(), k);
      if k !in cache {
        assert forall i :: 0 <= i < |lru| ==> Contents()[i].key == lru[i].key;
        return None;
      }
      var e := cache[k];
      ghost var i :| 0 <= i < |lru| && lru[i] == e;
      assert Contents()[i] == e.Value();
      if now > e.expiresAt {
        return None;
      }
      return Some(e.response);
    }

    method Size() returns (n: nat)
      requires Valid()
      ensures n == |Contents()|
    {
      SameSize(lru, cache);
      n := |cache|;
    }

    /** Takes the element of a key, if there is one, out of the list and the map. */
    method Remove(k: Key)
      requires Valid()
      modifies `cache, `lru
      ensures Valid() && Contents() == Without(old(Contents()), k)
    {
      if k in cache {
        var e := cache[k];
        var i := 0;
        while lru[i] != e
          invariant 0 <= i < |lru| && e in lru[i..]
          decreases |lru| - i
        {
          i := i + 1;
        }
        WithoutAt(Contents(), i);
        RemovalKeepsValid(lru, cache, i);
        lru := lru[..i] + lru[i + 1..];
        cache := cache - {k};
      } else {
        WithoutAbsent(Contents(), k);
      }
    }

    /** The keys of the expired elements, in whatever order the map yields them. */
    method ExpiredKeys(now: real) returns (expired: seq<Key>)
      requires Valid()
      ensures forall k :: k in expired <==> k in cache && now > cache[k].expiresAt
    {
      expired := [];
      var rest := cache.Keys;
      while rest != {}
        invariant rest <= cache.Keys
        invariant forall k :: k in expired <==> k in cache && k !in rest && now > cache[k].expiresAt
        decreases rest
      {
        var k :| k in rest;
        if now > cache[k].expiresAt {
          expired := expired + [k];
        }
        rest := rest - {k};
      }
    }

    /** Removes one more key; `l` is the list before the first of them was removed. */
    method RemoveNext(k: Key, ghost l: seq<Entry>, ghost done: seq<Key>)
      requires Valid() && Contents() == Filter(l, NoneOf(done))
      modifies `cache, `lru
      ensures Valid() && Contents() == Filter(l, NoneOf(done + [k]))
    {
      Remove(k);
      WithoutOneMore(l, done, k);
    }

    method RemoveAll(keys: seq<Key>)
      requires Valid()
      modifies `cache, `lru
      ensures Valid() && Contents() == Filter(old(Contents()), NoneOf(keys))
    {
      ghost var l := Contents();
      FilterAll(l, NoneOf([]));
      for m := 0 to |keys|
        invariant Valid() && Contents() == Filter(l, NoneOf(keys[..m]))
      {
        RemoveNext(keys[m], l, keys[..m]);
        assert keys[..m + 1] == keys[..m] + [keys[m]];
      }
      assert keys[..|keys|] == keys;
    }

    method CleanupExpired(now: real)
      requires Valid()
      modifies `cache, `lru
      ensures Valid() && Contents() == Unexpired(old(Contents()), now)
    {
      var expired := ExpiredKeys(now);
      ghost var l := Contents();
      forall i | 0 <= i < |l| ensures l[i].key in expired <==> Expired(l[i], now) {
        assert cache[lru[i].key] == lru[i];
      }
      FilterAgrees(l, NoneOf(expired), (e: Entry) => !Expired(e, now));
      RemoveAll(expired);
    }

    /** Drops the last element of the list when the cache is full. */
    method EvictOldest()
      requires Valid()
      modifies `cache, `lru, `evictions
      ensures Valid() && Contents() == Evict(old(Contents()), maxSize)
      ensures evictions == old(evictions) + |old(Contents())| - |Contents()|
    {
      if |lru| >= maxSize && lru != [] {
        var last := |lru| - 1;
        var oldest := lru[last];
        RemovalKeepsValid(lru, cache, last);
        assert lru[..last] + lru[last + 1..] == lru[..last];
        lru := lru[..last];
        cache := cache - {oldest.key};
        evictions := evictions + 1;
      }
    }

    /** Removes the stale entry, counts the write and cleans up now and then. */
    method Prepare(k: Key, now: real)
      requires Valid()
      modifies `cache, `lru, `writes
      ensures Valid() && writes == old(writes) + 1
      ensures Contents() == Survivors(old(Contents()), old(writes), k, now)
    {
      Remove(k);
      writes := writes + 1;
      if writes % 100 == 0 {
        CleanupExpired(now);
      }
    }

    /** Makes the preparations and evicts if the cache is still full. */
    method MakeRoom(k: Key, now: real)
      requires Valid()
      modifies this
      ensures Valid() && writes == old(writes) + 1
      ensures Contents() == Room(old(Contents()), old(writes), maxSize, k, now)
      ensures evictions == old(evictions) + |Survivors(old(Contents()), old(writes), k, now)| - |Contents()|
    {
      Prepare(k, now);
      EvictOldest();
    }

    method Set(k: Key, v: Response, ttl: real, now: real)
      requires Valid()
      modifies this
      ensures Valid() && writes == old(writes) + 1
      ensures Contents() == Written(old(Contents()), old(writes), maxSize, k, v, ttl, now)
      ensures evictions == old(evictions) + |Survivors(old(Contents()), old(writes), k, now)| + 1 - |Contents()|
    {
      ghost var l, n := Contents(), writes;
      MakeRoom(k, now);
      RoomSelects(l, n, maxSize, k, now);
      AbsentFromMap(lru, cache, k);
      PushFront(k, v, now + ttl);
    }

    /** A new element at the front of the list. */
    method PushFront(k: Key, v: Response, expiresAt: real)
      requires Valid() && k !in cache
      modifies `cache, `lru
      ensures Valid() && Contents() == [Entry(k, v, expiresAt)] + old(Contents())
    {
      var e := new Element(k, v, expiresAt);
      PushKeepsValid(lru, cache, e);
      lru := [e] + lru;
      cache := cache[k := e];
    }

    method Delete(k: Key)
      requires Valid()
      modifies `cache, `lru
      ensures Valid() && Contents() == Without(old(Contents()), k)
    {
      Remove(k);
    }

    method Flush()
      modifies `cache, `lru
      ensures Valid() && Contents() == []
    {
      cache, lru := map[], [];
    }
  }

  // Facts about the list and the map

  /** The map indexes the list: same elements, distinct keys. */
  ghost predicate Indexes(lru: seq<Element>, cache: map<Key, Element>) {
    && DistinctKeys(Values(lru))
    && (forall i :: 0 <= i < |lru| ==> lru[i].key in cache && cache[lru[i].key] == lru[i])
    && (forall k :: k in cache ==> cache[k].key == k && cache[k] in lru)
  }

  lemma RemovalKeepsValid(lru: seq<Element>, cache: map<Key, Element>, i: nat)
    requires Indexes(lru, cache) && i < |lru|
    ensures Indexes(lru[..i] + lru[i + 1..], cache - {lru[i].key})
    ensures Values(lru[..i] + lru[i + 1..]) == Values(lru)[..i] + Values(lru)[i + 1..]
  {
    var l, rest := Values(lru), lru[..i] + lru[i + 1..];
    var cache' := cache - {lru[i].key};
    assert forall j :: 0 <= j < |rest| ==> rest[j] == lru[if j < i then j else j + 1];
    forall j, m | 0 <= j < m < |rest| ensures Values(rest)[j].key != Values(rest)[m].key {
      assert l[if j < i then j else j + 1].key != l[if m < i then m else m + 1].key;
    }
    forall j | 0 <= j < |rest| ensures rest[j].key in cache' && cache'[rest[j].key] == rest[j] {
      var m := if j < i then j else j + 1;
      assert l[m].key != l[i].key;
    }
    forall k | k in cache' ensures cache'[k].key == k && cache'[k] in rest {
      var m :| 0 <= m < |lru| && lru[m] == cache[k];
      assert m != i;
      assert rest[if m < i then m else m - 1] == lru[m];
    }
  }

  lemma AbsentFromMap(lru: seq<Element>, cache: map<Key, Element>, k: Key)
    requires Indexes(lru, cache) && forall i :: 0 <= i < |lru| ==> Values(lru)[i].key != k
    ensures k !in cache
  {
    assert forall i :: 0 <= i < |lru| ==> Values(lru)[i].key == lru[i].key;
  }

  lemma PushValues(lru: seq<Element>, e: Element)
    ensures Values([e] + lru) == [e.Value()] + Values(lru)
  {
  }

  lemma PushDistinct(lru: seq<Element>, cache: map<Key, Element>, e: Element)
    requires Indexes(lru, cache) && e.key !in cache
    ensures DistinctKeys(Values([e] + lru))
  {
    PushValues(lru, e);
    forall j | 0 <= j < |lru| ensures Values(lru)[j].key != e.key {
      assert lru[j].key in cache;
    }
  }

  lemma PushKeepsValid(lru: seq<Element>, cache: map<Key, Element>, e: Element)
    requires Indexes(lru, cache) && e.key !in cache
    ensures Indexes([e] + lru, cache[e.key := e])
    ensures Values([e] + lru) == [e.Value()] + Values(lru)
  {
    var lru', cache' := [e] + lru, cache[e.key := e];
    PushValues(lru, e);
    PushDistinct(lru, cache, e);
    forall j | 0 <= j < |lru'| ensures lru'[j].key in cache' && cache'[lru'[j].key] == lru'[j] {
      assert j > 0 ==> lru'[j] == lru[j - 1];
    }
    forall k | k in cache' ensures cache'[k].key == k && cache'[k] in lru' {
      assert k != e.key ==> cache[k] in lru;
    }
  }

  lemma {:induction false} SameSize(lru: seq<Element>, cache: map<Key, Element>)
    requires Indexes(lru, cache)
    ensures |lru| == |cache|
    decreases |lru|
  {
    if lru == [] {
      assert forall k :: k in cache ==> cache[k] in lru;
      assert cache.Keys == {};
    } else {
      var last := |lru| - 1;
      RemovalKeepsValid(lru, cache, last);
      assert lru[..last] + lru[last + 1..] == lru[..last];
      SameSize(lru[..last], cache - {lru[last].key});
      assert (cache - {lru[last].key}).Keys == cache.Keys - {lru[last].key};
    }
  }

  // Facts about filtering

  lemma {:induction false} FilterMembers(l: seq<Entry>, keep: Entry -> bool)
    ensures forall e :: e in Filter(l, keep) <==> e in l && keep(e)
    ensures |Filter(l, keep)| <= |l|
  {
    if l != [] {
      FilterMembers(l[..|l| - 1], keep);
      assert l == l[..|l| - 1] + [l[|l| - 1]];
    }
  }

  lemma {:induction false} FilterDistinct(l: seq<Entry>, keep: Entry -> bool)
    requires DistinctKeys(l)
    ensures DistinctKeys(Filter(l, keep))
  {
    if l != [] {
      var front, last := l[..|l| - 1], l[|l| - 1];
      FilterDistinct(front, keep);
      FilterMembers(front, keep);
      forall i | 0 <= i < |Filter(front, keep)| ensures Filter(front, keep)[i].key != last.key {
        assert Filter(front, keep)[i] in front;
      }
    }
  }

  lemma {:induction false} FilterAgrees(l: seq<Entry>, p: Entry -> bool, q: Entry -> bool)
    requires forall i :: 0 <= i < |l| ==> p(l[i]) == q(l[i])
    ensures Filter(l, p) == Filter(l, q)
  {
    if l != [] {
      FilterAgrees(l[..|l| - 1], p, q);
    }
  }

  lemma {:induction false} FilterAll(l: seq<Entry>, keep: Entry -> bool)
    requires forall i :: 0 <= i < |l| ==> keep(l[i])
    ensures Filter(l, keep) == l
  {
    if l != [] {
      FilterAll(l[..|l| - 1], keep);
    }
  }

  lemma {:induction false} FilterTwice(l: seq<Entry>, p: Entry -> bool, q: Entry -> bool, both: Entry -> bool)
    requires forall e :: both(e) == (p(e) && q(e))
    ensures Filter(Filter(l, p), q) == Filter(l, both)
  {
    if l != [] {
      var front, last := l[..|l| - 1], l[|l| - 1];
      FilterTwice(front, p, q, both);
      var f := Filter(front, p);
      assert (f + [last])[..|f + [last]| - 1] == f;
      if p(last) {
        assert Filter(l, p) == f + [last];
        assert Filter(f + [last], q) == Filter(f, q) + if q(last) then [last] else [];
      } else {
        assert Filter(l, p) == f;
      }
    }
  }

  /** An entry that is kept has in front of it only what was in front of it before. */
  lemma {:induction false} FilterPosition(l: seq<Entry>, keep: Entry -> bool, p: nat) returns (q: nat)
    requires p < |l| && keep(l[p])
    ensures q < |Filter(l, keep)| && Filter(l, keep)[q] == l[p]
    ensures forall j :: 0 <= j < q ==> Filter(l, keep)[j] in l[..p] && keep(Filter(l, keep)[j])
  {
    var front := l[..|l| - 1];
    if p < |front| {
      q := FilterPosition(front, keep, p);
      assert front[..p] == l[..p];
    } else {
      q := |Filter(front, keep)|;
      FilterMembers(front, keep);
      forall j | 0 <= j < q ensures Filter(l, keep)[j] in front && keep(Filter(l, keep)[j]) {
        assert Filter(l, keep)[j] == Filter(front, keep)[j];
        assert Filter(front, keep)[j] in Filter(front, keep);
      }
    }
  }

  lemma WithoutAbsent(l: seq<Entry>, k: Key)
    requires forall i :: 0 <= i < |l| ==> l[i].key != k
    ensures Without(l, k) == l
  {
    FilterAll(l, (e: Entry) => e.key != k);
  }

  lemma {:induction false} WithoutAt(l: seq<Entry>, i: nat)
    requires DistinctKeys(l) && i < |l|
    ensures Without(l, l[i].key) == l[..i] + l[i + 1..]
  {
    var front := l[..|l| - 1];
    if i < |front| {
      WithoutAt(front, i);
      assert front[..i] + front[i + 1..] + [l[|l| - 1]] == l[..i] + l[i + 1..];
    } else {
      WithoutAbsent(front, l[i].key);
      assert l[..i] + l[i + 1..] == front;
    }
  }

  ghost function NoneOf(ks: seq<Key>): Entry -> bool {
    (e: Entry) => e.key !in ks
  }

  lemma WithoutOneMore(l: seq<Entry>, ks: seq<Key>, k: Key)
    ensures Without(Filter(l, NoneOf(ks)), k) == Filter(l, NoneOf(ks + [k]))
  {
    FilterTwice(l, NoneOf(ks), (e: Entry) => e.key != k, NoneOf(ks + [k]));
  }

  // ---------------------------------------------------------------------------------------------
  // What a cache holds after any sequence of operations

  datatype Op = Put(key: Key, response: Response, ttl: real, now: real) | Drop(key: Key) | Clear

  function Writes(ops: seq<Op>): nat {
    if ops == [] then 0 else Writes(ops[..|ops| - 1]) + if ops[|ops| - 1].Put? then 1 else 0
  }

  function Apply(maxSize: int, l: seq<Entry>, writes: nat, op: Op): seq<Entry> {
    match op
    case Put(k, v, ttl, now) => Written(l, writes, maxSize, k, v, ttl, now)
    case Drop(k) => Without(l, k)
    case Clear => []
  }

  /** The association list after `ops`, from an empty cache. */
  function After(maxSize: int, ops: seq<Op>): seq<Entry> {
    if ops == [] then []
    else
      var before := ops[..|ops| - 1];
      Apply(maxSize, After(maxSize, before), Writes(before), ops[|ops| - 1])
  }

  /** The operation writes, deletes or flushes the key. */
  predicate Touches(op: Op, k: Key) {
    op == Clear || op.key == k
  }

  /** `e` was written by the i-th operation, and nothing has touched its key since. */
  ghost predicate LatestWrite(ops: seq<Op>, i: int, e: Entry) {
    && 0 <= i < |ops| && ops[i].Put?
    && e == Entry(ops[i].key, ops[i].response, ops[i].now + ops[i].ttl)
    && forall j :: i < j < |ops| ==> !Touches(ops[j], e.key)
  }

  /** The entries of `r` are entries of `l` under other keys than `k`. */
  ghost predicate Keeps(l: seq<Entry>, k: Key, r: seq<Entry>) {
    DistinctKeys(r) && |r| <= |l| && forall i :: 0 <= i < |r| ==> r[i] in l && r[i].key != k
  }

  lemma WithoutSelects(l: seq<Entry>, k: Key)
    requires DistinctKeys(l)
    ensures Keeps(l, k, Without(l, k))
  {
    var other := (e: Entry) => e.key != k;
    FilterMembers(l, other);
    FilterDistinct(l, other);
    assert forall i :: 0 <= i < |Without(l, k)| ==> Without(l, k)[i] in Filter(l, other);
  }

  lemma UnexpiredSelects(l: seq<Entry>, k: Key, r: seq<Entry>, now: real)
    requires Keeps(l, k, r)
    ensures Keeps(l, k, Unexpired(r, now))
  {
    var live := (e: Entry) => !Expired(e, now);
    FilterMembers(r, live);
    FilterDistinct(r, live);
    forall i | 0 <= i < |Unexpired(r, now)| ensures Unexpired(r, now)[i] in l && Unexpired(r, now)[i].key != k {
      assert Unexpired(r, now)[i] in r;
    }
  }

  lemma RoomSelects(l: seq<Entry>, writes: nat, maxSize: int, k: Key, now: real)
    requires DistinctKeys(l)
    ensures Keeps(l, k, Room(l, writes, maxSize, k, now))
    ensures |l| <= Limit(maxSize) ==> |Room(l, writes, maxSize, k, now)| < Limit(maxSize)
  {
    WithoutSelects(l, k);
    UnexpiredSelects(l, k, Without(l, k), now);
  }

  /** A capacity below one still holds the entry just written. */
  function Limit(maxSize: int): nat {
    if maxSize < 1 then 1 else maxSize
  }

  lemma PutSelects(maxSize: int, l: seq<Entry>, writes: nat, k: Key, v: Response, ttl: real, now: real)
    requires DistinctKeys(l) && |l| <= Limit(maxSize)
    ensures
      var r := Written(l, writes, maxSize, k, v, ttl, now);
      && DistinctKeys(r) && |r| <= Limit(maxSize)
      && forall e :: e in r ==> (e in l && e.key != k) || e == Entry(k, v, now + ttl)
  {
    var room := Room(l, writes, maxSize, k, now);
    RoomSelects(l, writes, maxSize, k, now);
    assert forall e :: e in room ==> exists i :: 0 <= i < |room| && room[i] == e;
  }

  lemma DropSelects(l: seq<Entry>, k: Key)
    requires DistinctKeys(l)
    ensures DistinctKeys(Without(l, k)) && |Without(l, k)| <= |l| && forall e :: e in Without(l, k) ==> e in l && e.key != k
  {
    WithoutSelects(l, k);
  }

  /** An operation keeps the entries it does not touch, or some of them, and adds at most its own. */
  lemma ApplySelects(maxSize: int, l: seq<Entry>, writes: nat, op: Op)
    requires DistinctKeys(l) && |l| <= Limit(maxSize)
    ensures DistinctKeys(Apply(maxSize, l, writes, op)) && |Apply(maxSize, l, writes, op)| <= Limit(maxSize)
    ensures forall e :: e in Apply(maxSize, l, writes, op) ==>
      || (e in l && !Touches(op, e.key))
      || (op.Put? && e == Entry(op.key, op.response, op.now + op.ttl))
  {
    match op
    case Put(k, v, ttl, now) => PutSelects(maxSize, l, writes, k, v, ttl, now);
    case Drop(k) => DropSelects(l, k);
    case Clear =>
  }

  ghost predicate HasLatestWrite(ops: seq<Op>, e: Entry) {
    exists i :: LatestWrite(ops, i, e)
  }

  lemma LatestWriteKept(ops: seq<Op>, op: Op, e: Entry)
    requires HasLatestWrite(ops, e) && !Touches(op, e.key)
    ensures HasLatestWrite(ops + [op], e)
  {
    var i :| LatestWrite(ops, i, e);
    assert LatestWrite(ops + [op], i, e);
  }

  /** Distinct keys, bounded size, and every entry is the latest write of its key. */
  lemma {:induction false} HoldsLatestWrites(maxSize: int, ops: seq<Op>)
    ensures DistinctKeys(After(maxSize, ops)) && |After(maxSize, ops)| <= Limit(maxSize)
    ensures forall e :: e in After(maxSize, ops) ==> HasLatestWrite(ops, e)
  {
    if ops != [] {
      var before, op := ops[..|ops| - 1], ops[|ops| - 1];
      assert ops == before + [op];
      HoldsLatestWrites(maxSize, before);
      ApplySelects(maxSize, After(maxSize, before), Writes(before), op);
      forall e | e in After(maxSize, ops) ensures HasLatestWrite(ops, e) {
        if e in After(maxSize, before) && !Touches(op, e.key) {
          LatestWriteKept(before, op, e);
        } else {
          assert LatestWrite(ops, |ops| - 1, e);
        }
      }
    }
  }

  /** A hit returns the response last written under the key: unexpired, and neither deleted nor flushed since. */
  lemma HitIsLatestWrite(maxSize: int, ops: seq<Op>, k: Key, now: real) returns (i: int, e: Entry)
    requires Lookup(After(maxSize, ops), k, now).Some?
    ensures LatestWrite(ops, i, e) && e.key == k && now <= e.expiresAt
    ensures Lookup(After(maxSize, ops), k, now) == Some(e.response)
  {
    HoldsLatestWrites(maxSize, ops);
    FindMeans(After(maxSize, ops), k);
    e := Find(After(maxSize, ops), k).value;
    assert HasLatestWrite(ops, e);
    i :| LatestWrite(ops, i, e);
  }

  /** Every hundredth write leaves nothing behind that has expired. */
  lemma CleanUpDropsExpired(maxSize: int, ops: seq<Op>, i: nat)
    requires ops != [] && ops[|ops| - 1].Put? && Writes(ops) % 100 == 0
    requires 0 < i < |After(maxSize, ops)|
    ensures ops[|ops| - 1].now <= After(maxSize, ops)[i].expiresAt
  {
    var before, op := ops[..|ops| - 1], ops[|ops| - 1];
    var l, r := After(maxSize, before), After(maxSize, ops);
    var live := (e: Entry) => !Expired(e, op.now);
    FilterMembers(Without(l, op.key), live);
    var survivors := Survivors(l, Writes(before), op.key, op.now);
    assert survivors == Filter(Without(l, op.key), live);
    assert r == [r[0]] + Evict(survivors, maxSize);
    assert r[i] in survivors;
  }

  /** Any other write keeps every entry of another key, expired or not, but for the last one of a full cache. */
  lemma WriteKeepsOthers(maxSize: int, ops: seq<Op>, p: nat)
    requires ops != [] && ops[|ops| - 1].Put? && Writes(ops) % 100 != 0
    requires
      var l := After(maxSize, ops[..|ops| - 1]);
      p < |l| && l[p].key != ops[|ops| - 1].key && (p < |l| - 1 || |l| < maxSize)
    ensures After(maxSize, ops[..|ops| - 1])[p] in After(maxSize, ops)
  {
    var before, op := ops[..|ops| - 1], ops[|ops| - 1];
    var l, r := After(maxSize, before), After(maxSize, ops);
    var other := (e: Entry) => e.key != op.key;
    var rest := Without(l, op.key);
    HoldsLatestWrites(maxSize, before);
    var q := FilterPosition(l, other, p);
    assert r == [r[0]] + Evict(rest, maxSize);
    if p < |l| - 1 {
      StaysBeforeLast(l, other, p, maxSize);
    } else {
      FilterMembers(l, other);
    }
  }

  /** What is kept and is not the last entry is not evicted: something behind it goes, or there is room. */
  lemma StaysBeforeLast(l: seq<Entry>, keep: Entry -> bool, p: nat, maxSize: int)
    requires DistinctKeys(l) && p < |l| - 1 && keep(l[p]) && |l| <= Limit(maxSize)
    ensures l[p] in Evict(Filter(l, keep), maxSize)
  {
    var front, r := l[..|l| - 1], Filter(l, keep);
    FilterMembers(front, keep);
    assert front[p] == l[p] && l[p] in Filter(front, keep);
    if !keep(l[|l| - 1]) {
      assert r == Filter(front, keep) && |r| < |l|;
    }
  }

  // The other way round: a write that nothing touched stays until enough other keys are written to push it out.

  /** The keys written after the i-th operation. */
  function KeysSince(ops: seq<Op>, i: int): set<Key> {
    set j | 0 <= j < |ops| && i < j && ops[j].Put? :: ops[j].key
  }

  lemma KeysSinceStep(ops: seq<Op>, i: int)
    requires ops != [] && i < |ops| - 1
    ensures KeysSince(ops, i) ==
      KeysSince(ops[..|ops| - 1], i) + (if ops[|ops| - 1].Put? then {ops[|ops| - 1].key} else {})
  {
    var before := ops[..|ops| - 1];
    assert forall j :: 0 <= j < |before| ==> before[j] == ops[j];
  }

  /** All entries in front of position `p` have keys in `ks`. */
  ghost predicate InFront(l: seq<Entry>, p: nat, ks: set<Key>) {
    p <= |l| && forall j :: 0 <= j < p ==> l[j].key in ks
  }

  lemma {:induction false} FrontCount(l: seq<Entry>, p: nat, ks: set<Key>)
    requires DistinctKeys(l) && InFront(l, p, ks)
    ensures p <= |ks|
    decreases p
  {
    if p > 0 {
      FrontCount(l, p - 1, ks - {l[p - 1].key});
    }
  }

  lemma KeptPosition(l: seq<Entry>, keep: Entry -> bool, p: nat, ks: set<Key>) returns (q: nat)
    requires p < |l| && keep(l[p]) && InFront(l, p, ks)
    ensures q < |Filter(l, keep)| && Filter(l, keep)[q] == l[p] && InFront(Filter(l, keep), q, ks)
    ensures forall j :: 0 <= j < q ==> keep(Filter(l, keep)[j])
  {
    q := FilterPosition(l, keep, p);
  }

  /** The last entry is evicted, so one with few enough keys in front of it stays. */
  lemma EvictPosition(l: seq<Entry>, maxSize: int, p: nat, ks: set<Key>)
    requires DistinctKeys(l) && p < |l| && InFront(l, p, ks) && |ks| + 1 < maxSize
    ensures p < |Evict(l, maxSize)| && Evict(l, maxSize)[p] == l[p] && InFront(Evict(l, maxSize), p, ks)
  {
    FrontCount(l, p, ks);
  }

  lemma RoomPosition(l: seq<Entry>, writes: nat, maxSize: int, k: Key, now: real, p: nat, ks: set<Key>) returns (q: nat)
    requires DistinctKeys(l) && p < |l| && l[p].key != k && !Expired(l[p], now) && InFront(l, p, ks)
    requires |ks + {k}| < maxSize
    ensures q < |Room(l, writes, maxSize, k, now)| && Room(l, writes, maxSize, k, now)[q] == l[p]
    ensures InFront(Room(l, writes, maxSize, k, now), q, ks)
  {
    var other, live := (e: Entry) => e.key != k, (e: Entry) => !Expired(e, now);
    q := KeptPosition(l, other, p, ks);
    var kept := Without(l, k);
    FilterDistinct(l, other);
    assert InFront(kept, q, ks - {k});
    if (writes + 1) % 100 == 0 {
      q := KeptPosition(kept, live, q, ks - {k});
      FilterDistinct(kept, live);
      kept := Unexpired(kept, now);
    }
    assert (ks - {k}) + {k} == ks + {k};
    EvictPosition(kept, maxSize, q, ks - {k});
  }

  /** The keys in front after an operation. */
  function Fronted(ks: set<Key>, op: Op): set<Key> {
    if op.Put? then ks + {op.key} else ks
  }

  lemma StaysAfter(maxSize: int, l: seq<Entry>, writes: nat, op: Op, p: nat, ks: set<Key>) returns (q: nat)
    requires DistinctKeys(l) && p < |l| && InFront(l, p, ks) && !Touches(op, l[p].key)
    requires op.Put? ==> !Expired(l[p], op.now) && |Fronted(ks, op)| < maxSize
    ensures q < |Apply(maxSize, l, writes, op)| && Apply(maxSize, l, writes, op)[q] == l[p]
    ensures InFront(Apply(maxSize, l, writes, op), q, Fronted(ks, op))
  {
    match op
    case Put(k, v, ttl, now) =>
      q := RoomPosition(l, writes, maxSize, k, now, p, ks);
      q := q + 1;
    case Drop(k) => q := KeptPosition(l, (e: Entry) => e.key != k, p, ks);
  }

  lemma {:induction false} StaysInFront(maxSize: int, ops: seq<Op>, i: nat, e: Entry) returns (p: nat)
    requires LatestWrite(ops, i, e)
    requires |KeysSince(ops, i)| < maxSize
    requires forall j :: i < j < |ops| && ops[j].Put? ==> !Expired(e, ops[j].now)
    ensures p < |After(maxSize, ops)| && After(maxSize, ops)[p] == e
    ensures InFront(After(maxSize, ops), p, KeysSince(ops, i))
  {
    if i == |ops| - 1 {
      p := 0;
    } else {
      var before, op := ops[..|ops| - 1], ops[|ops| - 1];
      var ks := KeysSince(before, i);
      KeysSinceStep(ops, i);
      assert KeysSince(ops, i) == Fronted(ks, op);
      SubsetSize(ks, KeysSince(ops, i));
      assert LatestWrite(before, i, e);
      p := StaysInFront(maxSize, before, i, e);
      HoldsLatestWrites(maxSize, before);
      p := StaysAfter(maxSize, After(maxSize, before), Writes(before), op, p, ks);
    }
  }

  /**
   A key that was written, neither overwritten, deleted nor flushed since, is a hit until it expires, provided
   fewer than maxSize other keys were written after it, however often.
   */
  lemma LatestWriteIsHit(maxSize: int, ops: seq<Op>, i: nat, e: Entry, now: real)
    requires LatestWrite(ops, i, e) && |KeysSince(ops, i)| < maxSize
    requires now <= e.expiresAt && forall j :: i < j < |ops| && ops[j].Put? ==> ops[j].now <= now
    ensures Lookup(After(maxSize, ops), e.key, now) == Some(e.response)
  {
    var p := StaysInFront(maxSize, ops, i, e);
    HoldsLatestWrites(maxSize, ops);
    FindMeans(After(maxSize, ops), e.key);
  }

  // ---------------------------------------------------------------------------------------------
  // The decorator

  type Message = string

  class CachingDecorator {
    const keyOf: Message -> Key
    const ttl: real
    const store: MemoryCacheStore
    var requests: nat
    var hits: nat
    var misses: nat
    var invalidations: nat
    ghost var ops: seq<Op>

    /** The store is what the operations of this decorator have made of it. */
    ghost predicate Valid()
      reads this, store
    {
      && store.Valid() && store.maxSize >= 1
      && store.Contents() == After(store.maxSize, ops) && store.writes == Writes(ops)
      && requests == hits + misses
    }

    constructor (keyOf: Message -> Key, maxSize: int, ttl: real)
      ensures Valid() && fresh(store) && ops == [] && requests == invalidations == 0
      ensures this.keyOf == keyOf && store.maxSize == (if maxSize <= 0 then 1000 else maxSize)
      ensures this.ttl == (if ttl <= 0.0 then 300.0 else ttl)
    {
      this.keyOf, this.ttl := keyOf, if ttl <= 0.0 then 300.0 else ttl;
      store := new MemoryCacheStore(if maxSize <= 0 then 1000 else maxSize);
      requests, hits, misses, invalidations, ops := 0, 0, 0, 0, [];
    }

    /** The first half of a request; on a hit it is also the last, and the agent is not called. */
    method Begin(m: Message, now: real) returns (r: Option<Response>, ghost i: int, ghost e: Entry)
      requires Valid()
      modifies `requests, `hits, `misses
      ensures Valid() && requests == old(requests) + 1 && hits == old(hits) + (if r.Some? then 1 else 0)
      ensures r == Lookup(After(store.maxSize, ops), keyOf(m), now)
      ensures r.Some? ==> LatestWrite(ops, i, e) && e.key == keyOf(m) && now <= e.expiresAt && r.value == e.response
    {
      i, e := 0, Entry(keyOf(m), "", now);
      r := store.Get(keyOf(m), now);
      requests := requests + 1;
      if r.Some? {
        hits := hits + 1;
        i, e := HitIsLatestWrite(store.maxSize, ops, keyOf(m), now);
      } else {
        misses := misses + 1;
      }
    }

    /** The second half of a missed request, once the agent has answered; a failed call stores nothing. */
    method Finish(m: Message, answer: Option<Response>, now: real)
      requires Valid()
      modifies `ops, store
      ensures Valid()
      ensures ops == if answer.Some? then old(ops) + [Put(keyOf(m), answer.value, ttl, now)] else old(ops)
    {
      if answer.Some? {
        store.Set(keyOf(m), answer.value, ttl, now);
        Appended(store.maxSize, ops, Put(keyOf(m), answer.value, ttl, now));
        ops := ops + [Put(keyOf(m), answer.value, ttl, now)];
      }
    }

    method Forget(k: Key)
      requires Valid()
      modifies `ops, `invalidations, store
      ensures Valid() && ops == old(ops) + [Drop(k)] && invalidations == old(invalidations) + 1
    {
      DropAppended(store.maxSize, ops, k);
      store.Delete(k);
      ops := ops + [Drop(k)];
      invalidations := invalidations + 1;
    }

    /** The counter goes up once for each entry there was. */
    method ForgetAll()
      requires Valid()
      modifies `ops, `invalidations, store
      ensures Valid() && ops == old(ops) + [Clear] && invalidations == old(invalidations) + |old(store.Contents())|
    {
      var count := store.Size();
      store.Flush();
      Appended(store.maxSize, ops, Clear);
      ops := ops + [Clear];
      for i := 0 to count
        invariant invalidations == old(invalidations) + i
        modifies `invalidations
      {
        invalidations := invalidations + 1;
      }
    }

    /** Forgets one message, or everything. */
    method Invalidate(m: Option<Message>)
      requires Valid()
      modifies `ops, `invalidations, store
      ensures Valid()
      ensures m.Some? ==> ops == old(ops) + [Drop(keyOf(m.value))] && invalidations == old(invalidations) + 1
      ensures m.None? ==> ops == old(ops) + [Clear] && invalidations == old(invalidations) + |old(store.Contents())|
    {
      if m.Some? {
        Forget(keyOf(m.value));
      } else {
        ForgetAll();
      }
    }
  }

  lemma DropAppended(maxSize: int, ops: seq<Op>, k: Key)
    ensures Writes(ops + [Drop(k)]) == Writes(ops)
    ensures After(maxSize, ops + [Drop(k)]) == Without(After(maxSize, ops), k)
  {
    Appended(maxSize, ops, Drop(k));
  }

  lemma Appended(maxSize: int, ops: seq<Op>, op: Op)
    ensures Writes(ops + [op]) == Writes(ops) + if op.Put? then 1 else 0
    ensures After(maxSize, ops + [op]) == Apply(maxSize, After(maxSize, ops), Writes(ops), op)
  {
  }
}
