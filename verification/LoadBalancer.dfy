/**
 The load balancer of infrastructure/load_balancer.go: the two rotating strategies, and the failover loop
 of a request under round robin.  Backends are identified by their position.
 */
module LoadBalancer {
  import opened Common

  // ---------------------------------------------------------------------------------------------
  // Walking around a list

  function Advance(i: nat, m: nat): (r: nat)
    requires i < m
    ensures r == (i + 1) % m
  {
    if i + 1 == m then 0 else i + 1
  }

  /** The `k` elements met from position `p` on, going around. */
  function Walk<T>(s: seq<T>, p: nat, k: nat): seq<T>
    requires p < |s|
    decreases k
  {
    if k == 0 then [] else [s[p]] + Walk(s, Advance(p, |s|), k - 1)
  }

  lemma {:induction false} WalkAt<T>(s: seq<T>, p: nat, k: nat, j: nat)
    requires p < |s| && j < k <= |s|
    ensures |Walk(s, p, k)| == k
    ensures Walk(s, p, k)[j] == s[if p + j < |s| then p + j else p + j - |s|]
    decreases k
  {
    if k > 1 {
      WalkAt(s, Advance(p, |s|), k - 1, if j == 0 then 0 else j - 1);
    }
  }

  /** Once around meets every element as often as it occurs, from any starting position. */
  lemma OnceAround<T>(s: seq<T>, p: nat)
    requires p < |s|
    ensures multiset(Walk(s, p, |s|)) == multiset(s)
  {
    var turned := s[p..] + s[..p];
    WalkAt(s, p, |s|, 0);
    forall j | 0 <= j < |s| ensures Walk(s, p, |s|)[j] == turned[j] {
      WalkAt(s, p, |s|, j);
    }
    assert Walk(s, p, |s|) == turned;
    assert s == s[..p] + s[p..];
    assert multiset(s[..p] + s[p..]) == multiset(s[..p]) + multiset(s[p..]);
  }

  // ---------------------------------------------------------------------------------------------
  // Round robin

  /** The positions of the healthy backends, in order. */
  function Healthy(h: seq<bool>): (r: seq<nat>)
    ensures forall k :: 0 <= k < |r| ==> r[k] < |h| && h[r[k]]
    ensures Distinct(r)
  {
    if h == [] then []
    else
      var front := h[..|h| - 1];
      var r := Healthy(front);
      assert forall k :: 0 <= k < |r| ==> front[r[k]] == h[r[k]];
      if h[|h| - 1] then r + [|h| - 1] else r
  }

  lemma {:induction false} NoneHealthy(h: seq<bool>)
    requires forall i :: 0 <= i < |h| ==> !h[i]
    ensures Healthy(h) == []
  {
    if h != [] {
      NoneHealthy(h[..|h| - 1]);
    }
  }

  /** How many backends before position `i` are healthy. */
  function Rank(h: seq<bool>, i: nat): nat
    requires i <= |h|
  {
    |Healthy(h[..i])|
  }

  lemma {:induction false} RankFinds(h: seq<bool>, i: nat)
    requires i < |h| && h[i]
    ensures Rank(h, i) < |Healthy(h)| && Healthy(h)[Rank(h, i)] == i
    ensures Rank(h, i + 1) == Rank(h, i) + 1
  {
    assert h[..i + 1][..i] == h[..i];
    var front := h[..|h| - 1];
    if i < |front| {
      RankFinds(front, i);
      assert front[..i] == h[..i] && front[..i + 1] == h[..i + 1];
    } else {
      assert h[..i + 1] == h;
    }
  }

  lemma {:induction false} RankSkips(h: seq<bool>, a: nat, b: nat)
    requires a <= b <= |h| && forall i :: a <= i < b ==> !h[i]
    ensures Rank(h, b) == Rank(h, a)
    decreases b - a
  {
    if a < b {
      RankSkips(h, a, b - 1);
      assert h[..b][..b - 1] == h[..b - 1];
    }
  }

  /** `r` is the first healthy backend after `cur`, going around. */
  ghost predicate FirstAfter(h: seq<bool>, cur: nat, r: nat) {
    && cur < |h| && r < |h| && h[r]
    && if cur < r then forall i :: cur < i < r ==> !h[i]
       else (forall i :: cur < i < |h| ==> !h[i]) && (forall i :: 0 <= i < r ==> !h[i])
  }

  /** Where the rotation goes from `cur`. */
  function Pick(h: seq<bool>, cur: nat): (r: nat)
    requires cur < |h| && Healthy(h) != []
    ensures r < |h| && h[r]
  {
    var rank := Rank(h, cur + 1);
    RankAtMost(h, cur + 1);
    if rank == |Healthy(h)| then Healthy(h)[0] else Healthy(h)[rank]
  }

  lemma {:induction false} RankAtMost(h: seq<bool>, i: nat)
    requires i <= |h|
    ensures Rank(h, i) <= |Healthy(h)|
  {
    if i == |h| {
      assert h[..i] == h;
    } else {
      var front := h[..|h| - 1];
      RankAtMost(front, i);
      assert front[..i] == h[..i];
    }
  }

  lemma {:induction false} PickAhead(h: seq<bool>, cur: nat, r: nat)
    requires cur < r < |h| && h[r] && forall i :: cur < i < r ==> !h[i]
    ensures Healthy(h) != [] && Pick(h, cur) == r
  {
    RankFinds(h, r);
    RankSkips(h, cur + 1, r);
    assert Rank(h, cur + 1) == Rank(h, r);
  }

  lemma {:induction false} PickAround(h: seq<bool>, cur: nat, r: nat)
    requires r <= cur < |h| && h[r]
    requires (forall i :: cur < i < |h| ==> !h[i]) && (forall i :: 0 <= i < r ==> !h[i])
    ensures Healthy(h) != [] && Pick(h, cur) == r
  {
    RankFinds(h, r);
    RankSkips(h, cur + 1, |h|);
    RankSkips(h, 0, r);
    assert h[..|h|] == h && h[..0] == [];
    assert Rank(h, r) == 0;
  }

  lemma {:induction false} PickIsFirstAfter(h: seq<bool>, cur: nat, r: nat)
    requires FirstAfter(h, cur, r)
    ensures Healthy(h) != [] && Pick(h, cur) == r
  {
    if cur < r {
      PickAhead(h, cur, r);
    } else {
      PickAround(h, cur, r);
    }
  }

  /** The next `k` selections while nobody's health changes. */
  function Picks(h: seq<bool>, cur: nat, k: nat): seq<nat>
    requires cur < |h| && Healthy(h) != []
    decreases k
  {
    if k == 0 then [] else [Pick(h, cur)] + Picks(h, Pick(h, cur), k - 1)
  }

  lemma {:induction false} PicksWalk(h: seq<bool>, cur: nat, p: nat, k: nat)
    requires cur < |h| && p < |Healthy(h)| && Pick(h, cur) == Healthy(h)[p]
    ensures Picks(h, cur, k) == Walk(Healthy(h), p, k)
    decreases k
  {
    if k > 0 {
      var r := Healthy(h)[p];
      RankFinds(h, r);
      assert Rank(h, r) == p;
      PicksWalk(h, r, Advance(p, |Healthy(h)|), k - 1);
    }
  }

  /** As many selections in a row as there are healthy backends pick each of them exactly once. */
  lemma RoundRobinFair(h: seq<bool>, cur: nat, i: nat)
    requires cur < |h| && Healthy(h) != [] && i < |h|
    ensures multiset(Picks(h, cur, |Healthy(h)|))[i] == if h[i] then 1 else 0
  {
    var hs := Healthy(h);
    var r := Pick(h, cur);
    RankFinds(h, r);
    PicksWalk(h, cur, Rank(h, r), |hs|);
    OnceAround(hs, Rank(h, r));
    Multiplicity(hs, i);
    if h[i] {
      RankFinds(h, i);
    }
    assert i in hs <==> h[i];
  }

  // ---------------------------------------------------------------------------------------------
  // Weighted round robin

  function Copies(b: nat, weight: int): seq<nat> {
    if weight <= 0 then [] else seq(weight, _ => b)
  }

  ghost predicate InBounds(bs: seq<nat>, n: nat) {
    forall k :: 0 <= k < |bs| ==> bs[k] < n
  }

  /** Every backend of the list, as often as its weight says; a weight of zero or less leaves it out. */
  ghost function Weighted(bs: seq<nat>, weights: seq<int>): seq<nat>
    requires InBounds(bs, |weights|)
  {
    if bs == [] then [] else Weighted(bs[..|bs| - 1], weights) + Copies(bs[|bs| - 1], weights[bs[|bs| - 1]])
  }

  /** The next `k` weighted selections from an arbitrary index. */
  function WeightedPicks(list: seq<nat>, cur: nat, k: nat): seq<nat>
    requires list != []
    decreases k
  {
    if k == 0 then [] else [list[(cur + 1) % |list|]] + WeightedPicks(list, (cur + 1) % |list|, k - 1)
  }

  lemma {:induction false} WeightedPicksWalk(list: seq<nat>, cur: nat, k: nat)
    requires list != []
    ensures WeightedPicks(list, cur, k) == Walk(list, (cur + 1) % |list|, k)
    decreases k
  {
    var p := (cur + 1) % |list|;
    if k > 0 {
      WeightedPicksWalk(list, p, k - 1);
      assert Walk(list, p, k) == [list[p]] + Walk(list, Advance(p, |list|), k - 1);
      assert WeightedPicks(list, cur, k) == [list[p]] + WeightedPicks(list, p, k - 1);
    }
  }

  lemma {:induction false} CopiesMultiplicity(b: nat, weight: int, i: nat)
    ensures multiset(Copies(b, weight))[i] == if i == b && weight > 0 then weight else 0
    decreases weight
  {
    if weight > 0 {
      CopiesMultiplicity(b, weight - 1, i);
      assert Copies(b, weight) == Copies(b, weight - 1) + [b];
    }
  }

  lemma {:induction false} WeightedMultiplicity(bs: seq<nat>, weights: seq<int>, i: nat)
    requires InBounds(bs, |weights|) && Distinct(bs)
    ensures multiset(Weighted(bs, weights))[i] == if i in bs && weights[i] > 0 then weights[i] else 0
  {
    if bs != [] {
      var front, b := bs[..|bs| - 1], bs[|bs| - 1];
      WeightedMultiplicity(front, weights, i);
      CopiesMultiplicity(b, weights[b], i);
      assert bs == front + [b];
    }
  }

  /** The positive weights of the listed backends, added up. */
  function WeightSum(bs: seq<nat>, weights: seq<int>): nat
    requires forall k :: 0 <= k < |bs| ==> bs[k] < |weights|
  {
    if bs == [] then 0
    else WeightSum(bs[..|bs| - 1], weights) + (if weights[bs[|bs| - 1]] > 0 then weights[bs[|bs| - 1]] else 0)
  }

  lemma {:induction false} WeightedLength(bs: seq<nat>, weights: seq<int>)
    requires InBounds(bs, |weights|)
    ensures |Weighted(bs, weights)| == WeightSum(bs, weights)
  {
    if bs != [] {
      WeightedLength(bs[..|bs| - 1], weights);
    }
  }

  /** The copies of a backend stand together, after those of the backends in front of it. */
  lemma {:induction false} WeightedAt(bs: seq<nat>, weights: seq<int>, j: nat, t: nat)
    requires InBounds(bs, |weights|) && j < |bs| && t < weights[bs[j]]
    ensures WeightSum(bs[..j], weights) + t < |Weighted(bs, weights)|
    ensures Weighted(bs, weights)[WeightSum(bs[..j], weights) + t] == bs[j]
  {
    var front, b := bs[..|bs| - 1], bs[|bs| - 1];
    WeightedLength(front, weights);
    if j < |front| {
      WeightedAt(front, weights, j, t);
      assert front[..j] == bs[..j];
    } else {
      assert bs[..j] == front && Copies(b, weights[b])[t] == b;
    }
  }

  /** As many selections in a row as the positive weights add up to pick each backend Weight times. */
  lemma {:induction false} WeightedFair(bs: seq<nat>, weights: seq<int>, cur: nat, i: nat)
    requires InBounds(bs, |weights|) && Distinct(bs) && WeightSum(bs, weights) > 0
    ensures Weighted(bs, weights) != []
    ensures
      multiset(WeightedPicks(Weighted(bs, weights), cur, WeightSum(bs, weights)))[i]
        == if i in bs && weights[i] > 0 then weights[i] else 0
  {
    var list := Weighted(bs, weights);
    WeightedLength(bs, weights);
    WeightedPicksWalk(list, cur, |list|);
    OnceAround(list, (cur + 1) % |list|);
    WeightedMultiplicity(bs, weights, i);
  }

  // ---------------------------------------------------------------------------------------------
  // The failover loop

  datatype Config = Config(failureThreshold: int, enableFailover: bool)

  datatype Verdict = Served(backend: nat) | Failed(backend: nat) | AllUnhealthy | AllAttempted

  /** The balancer and one request on its way through the loop; `calls` are the agents called so far. */
  datatype Request = Request(
    healthy: seq<bool>,
    failures: seq<nat>,
    cur: nat,
    attempted: set<string>,
    calls: seq<nat>,
    verdict: Option<Verdict>)

  ghost predicate Fits(names: seq<string>, q: Request) {
    |names| == |q.healthy| == |q.failures| && q.cur < |names|
  }

  /** The call of backend `i`, which succeeds or fails as `ok` says. */
  function Call(c: Config, names: seq<string>, ok: bool, q: Request, i: nat): (r: Request)
    requires |names| == |q.healthy| == |q.failures| && i < |names|
    ensures Fits(names, r)
  {
    var q := q.(cur := i, attempted := q.attempted + {names[i]}, calls := q.calls + [i]);
    if ok then q.(verdict := Some(Served(i)))
    else
      var f := q.failures[i] + 1;
      var q := q.(failures := q.failures[i := f], healthy := if f >= c.failureThreshold then q.healthy[i := false] else q.healthy);
      if c.enableFailover && |q.attempted| < |names| then q else q.(verdict := Some(Failed(i)))
  }

  /** One turn of the loop; `ok` says how each agent answers this request. */
  function Turn(c: Config, names: seq<string>, ok: seq<bool>, q: Request): (r: Request)
    requires |names| == |q.healthy| == |q.failures| == |ok| && q.cur < |names|
    ensures Fits(names, r)
  {
    if q.verdict.Some? then q
    else if Healthy(q.healthy) == [] then q.(verdict := Some(AllUnhealthy))
    else
      var i := Pick(q.healthy, q.cur);
      if names[i] in q.attempted then
        if !c.enableFailover || |q.attempted| >= |names| then q.(cur := i, verdict := Some(AllAttempted)) else q.(cur := i)
      else Call(c, names, ok[i], q, i)
  }

  function Turns(c: Config, names: seq<string>, ok: seq<bool>, q: Request, k: nat): (r: Request)
    requires |names| == |q.healthy| == |q.failures| == |ok| && q.cur < |names|
    ensures Fits(names, r)
    decreases k
  {
    if k == 0 then q else Turn(c, names, ok, Turns(c, names, ok, q, k - 1))
  }

  function Arriving(healthy: seq<bool>, failures: seq<nat>, cur: nat): Request {
    Request(healthy, failures, cur, {}, [], None)
  }

  // What a request does, from any state and with or without failover

  /** The calls made: of backends that were healthy on entry, no two of one name, each remembered as attempted. */
  ghost predicate CallsOk(names: seq<string>, h: seq<bool>, q: Request) {
    && |h| == |names| && |q.attempted| == |q.calls|
    && (forall k :: 0 <= k < |q.calls| ==> q.calls[k] < |names| && h[q.calls[k]] && names[q.calls[k]] in q.attempted)
    && (forall j, k :: 0 <= j < k < |q.calls| ==> names[q.calls[j]] != names[q.calls[k]])
  }

  /** Every failed call, and nothing else, raised the failure count by one; at the threshold it took the backend out. */
  ghost predicate EffectsOk(c: Config, names: seq<string>, ok: seq<bool>, h: seq<bool>, f: seq<nat>, q: Request) {
    && Fits(names, q) && |names| == |ok| == |h| == |f|
    && (forall i :: 0 <= i < |names| ==> q.failures[i] == f[i] + if i in q.calls && !ok[i] then 1 else 0)
    && (forall i :: 0 <= i < |names| ==>
         (q.healthy[i] <==> h[i] && !(i in q.calls && !ok[i] && f[i] + 1 >= c.failureThreshold)))
  }

  /** The verdict is that of the last call, and a request goes on after a failure exactly if failover still allows it. */
  ghost predicate VerdictOk(c: Config, names: seq<string>, ok: seq<bool>, q: Request) {
    && |names| == |ok| && |q.healthy| == |names| && (forall k :: 0 <= k < |q.calls| ==> q.calls[k] < |ok|)
    && match q.verdict
       case Some(Served(i)) => LastCall(q, i) && ok[i] && AllFailed(ok, q.calls[..|q.calls| - 1])
       case Some(Failed(i)) => LastCall(q, i) && AllFailed(ok, q.calls) && (!c.enableFailover || |q.calls| >= |names|)
       case Some(AllUnhealthy) => AllFailed(ok, q.calls) && forall i :: 0 <= i < |names| ==> !q.healthy[i]
       case Some(AllAttempted) => false
       case None => AllFailed(ok, q.calls) && (q.calls == [] || (c.enableFailover && |q.calls| < |names|))
  }

  ghost predicate LastCall(q: Request, i: nat) {
    q.calls != [] && q.calls[|q.calls| - 1] == i
  }

  ghost predicate AllFailed(ok: seq<bool>, calls: seq<nat>) {
    forall k :: 0 <= k < |calls| ==> calls[k] < |ok| && !ok[calls[k]]
  }

  lemma CallsOn(c: Config, names: seq<string>, answer: bool, h: seq<bool>, q: Request, i: nat)
    requires Fits(names, q) && CallsOk(names, h, q) && i < |names| && h[i] && names[i] !in q.attempted
    ensures CallsOk(names, h, Call(c, names, answer, q, i)) && i !in q.calls
  {
  }

  lemma EffectsOn(c: Config, names: seq<string>, ok: seq<bool>, h: seq<bool>, f: seq<nat>, q: Request, i: nat)
    requires EffectsOk(c, names, ok, h, f, q) && i < |names| && i !in q.calls
    ensures EffectsOk(c, names, ok, h, f, Call(c, names, ok[i], q, i))
  {
    var q' := Call(c, names, ok[i], q, i);
    assert forall j :: j in q'.calls <==> j in q.calls || j == i;
  }

  lemma OneMoreFailed(ok: seq<bool>, calls: seq<nat>, i: nat)
    requires AllFailed(ok, calls) && i < |ok| && !ok[i]
    ensures AllFailed(ok, calls + [i])
  {
  }

  /** How a call ends the request, or lets it go on. */
  lemma CallVerdict(c: Config, names: seq<string>, answer: bool, q: Request, i: nat)
    requires Fits(names, q) && i < |names| && names[i] !in q.attempted && |q.attempted| == |q.calls| && q.verdict == None
    ensures
      var q' := Call(c, names, answer, q, i);
      && q'.calls == q.calls + [i] && LastCall(q', i) && q'.calls[..|q'.calls| - 1] == q.calls
      && q'.verdict ==
           if answer then Some(Served(i))
           else if c.enableFailover && |q'.calls| < |names| then None else Some(Failed(i))
  {
    assert |q.attempted + {names[i]}| == |q.attempted| + 1;
  }

  lemma VerdictOn(c: Config, names: seq<string>, ok: seq<bool>, q: Request, i: nat)
    requires Fits(names, q) && |q.attempted| == |q.calls| && VerdictOk(c, names, ok, q)
    requires q.verdict == None && i < |names| && names[i] !in q.attempted
    ensures VerdictOk(c, names, ok, Call(c, names, ok[i], q, i))
  {
    CallVerdict(c, names, ok[i], q, i);
    if !ok[i] {
      OneMoreFailed(ok, q.calls, i);
    }
  }

  ghost predicate RequestOk(c: Config, names: seq<string>, ok: seq<bool>, h: seq<bool>, f: seq<nat>, q: Request) {
    CallsOk(names, h, q) && EffectsOk(c, names, ok, h, f, q) && VerdictOk(c, names, ok, q)
  }

  lemma TurnOk(c: Config, names: seq<string>, ok: seq<bool>, h: seq<bool>, f: seq<nat>, q: Request)
    requires RequestOk(c, names, ok, h, f, q)
    ensures RequestOk(c, names, ok, h, f, Turn(c, names, ok, q))
  {
    if q.verdict == None {
      if Healthy(q.healthy) == [] {
        forall i | 0 <= i < |names| ensures !q.healthy[i] {
          if q.healthy[i] {
            RankFinds(q.healthy, i);
          }
        }
      } else {
        var i := Pick(q.healthy, q.cur);
        if names[i] !in q.attempted {
          CallsOn(c, names, ok[i], h, q, i);
          EffectsOn(c, names, ok, h, f, q, i);
          VerdictOn(c, names, ok, q, i);
        }
      }
    }
  }

  /**
   After any number of turns, from any state: a request is served only by the answer of its last call, and it fails
   only after a failed call with no failover left, or with no healthy backend; the counts and the health of the
   backends changed by its failed calls alone.
   */
  lemma {:induction false} RequestMeans(c: Config, names: seq<string>, ok: seq<bool>, h: seq<bool>, f: seq<nat>, cur: nat, k: nat)
    requires |names| == |ok| == |h| == |f| && cur < |names|
    ensures RequestOk(c, names, ok, h, f, Turns(c, names, ok, Arriving(h, f, cur), k))
    decreases k
  {
    if k > 0 {
      RequestMeans(c, names, ok, h, f, cur, k - 1);
      TurnOk(c, names, ok, h, f, Turns(c, names, ok, Arriving(h, f, cur), k - 1));
    }
  }

  // All backends healthy on entry

  /** The `j`-th backend after `cur`, going around. */
  function Around(n: nat, cur: nat, j: nat): (r: nat)
    requires cur < n
    ensures r < n
    decreases j
  {
    if j == 0 then cur else Advance(Around(n, cur, j - 1), n)
  }

  lemma {:induction false} AroundIs(n: nat, cur: nat, j: nat)
    requires cur < n && j <= n
    ensures Around(n, cur, j) == if cur + j < n then cur + j else cur + j - n
    decreases j
  {
    if j > 0 {
      AroundIs(n, cur, j - 1);
    }
  }

  /** The first `k` backends after `cur`, in rotation order. */
  function Tour(n: nat, cur: nat, k: nat): seq<nat>
    requires cur < n
    decreases k
  {
    if k == 0 then [] else Tour(n, cur, k - 1) + [Around(n, cur, k)]
  }

  lemma {:induction false} TourIsNew(n: nat, cur: nat, k: nat, j: nat)
    requires cur < n && k < j <= n
    ensures Around(n, cur, j) !in Tour(n, cur, k)
    decreases k
  {
    if k > 0 {
      TourIsNew(n, cur, k - 1, j);
      AroundIs(n, cur, j);
      AroundIs(n, cur, k);
    }
  }

  /** After `k` failed attempts: exactly the first `k` backends of the tour were called, the rest are healthy. */
  ghost predicate Trail(names: seq<string>, cur0: nat, k: nat, q: Request) {
    && Fits(names, q) && cur0 < |names| && k <= |names|
    && q.cur == Around(|names|, cur0, k)
    && q.calls == Tour(|names|, cur0, k)
    && |q.attempted| == k
    && (forall i :: 0 <= i < |names| ==> (names[i] in q.attempted <==> i in q.calls))
    && (forall i :: 0 <= i < |names| && i !in q.calls ==> q.healthy[i])
  }

  lemma PickNext(h: seq<bool>, cur: nat)
    requires cur < |h| && h[Advance(cur, |h|)]
    ensures Healthy(h) != [] && Pick(h, cur) == Advance(cur, |h|)
  {
    PickIsFirstAfter(h, cur, Advance(cur, |h|));
  }

  lemma TrailTurn(c: Config, names: seq<string>, ok: seq<bool>, cur0: nat, k: nat, q: Request)
    requires Trail(names, cur0, k, q) && q.verdict == None && k < |names| == |ok|
    ensures
      var i := Around(|names|, cur0, k + 1);
      i !in q.calls && names[i] !in q.attempted && Turn(c, names, ok, q) == Call(c, names, ok[i], q, i)
  {
    TourIsNew(|names|, cur0, k, k + 1);
    PickNext(q.healthy, q.cur);
  }

  lemma TrailCall(c: Config, names: seq<string>, cur0: nat, k: nat, q: Request)
    requires c.enableFailover && Distinct(names) && Trail(names, cur0, k, q) && q.verdict == None && k < |names|
    requires Around(|names|, cur0, k + 1) !in q.calls && names[Around(|names|, cur0, k + 1)] !in q.attempted
    ensures
      var i := Around(|names|, cur0, k + 1);
      var q' := Call(c, names, false, q, i);
      Trail(names, cur0, k + 1, q') && q'.verdict == if k + 1 < |names| then None else Some(Failed(i))
  {
  }

  /** The first `k` backends after `cur` all fail this request. */
  ghost predicate FailUpTo(ok: seq<bool>, cur: nat, k: nat) {
    cur < |ok| && forall j :: 1 <= j <= k ==> !ok[Around(|ok|, cur, j)]
  }

  ghost predicate AllTrue(h: seq<bool>) {
    forall i :: 0 <= i < |h| ==> h[i]
  }

  lemma TrailStart(names: seq<string>, h: seq<bool>, f: seq<nat>, cur: nat)
    requires |names| == |h| == |f| && cur < |names| && AllTrue(h)
    ensures Trail(names, cur, 0, Arriving(h, f, cur))
  {}

  /** While the backends keep failing, each turn calls the next one; the n-th failure ends the request. */
  lemma {:induction false} RotationFails(c: Config, names: seq<string>, ok: seq<bool>, h: seq<bool>, f: seq<nat>, cur: nat, k: nat)
    requires c.enableFailover && Distinct(names) && |names| == |ok| == |h| == |f| && cur < |names| && AllTrue(h)
    requires k <= |names| && FailUpTo(ok, cur, k)
    ensures
      var q := Turns(c, names, ok, Arriving(h, f, cur), k);
      Trail(names, cur, k, q) && q.verdict == if k < |names| then None else Some(Failed(Around(|names|, cur, k)))
    decreases k
  {
    if k > 0 {
      RotationFails(c, names, ok, h, f, cur, k - 1);
      TrailNext(c, names, ok, cur, k - 1, Turns(c, names, ok, Arriving(h, f, cur), k - 1));
    } else {
      TrailStart(names, h, f, cur);
    }
  }

  /**
   With every backend healthy on entry, whatever the thresholds do to them on the way, the request ends
   after at most n calls of different backends in rotation order: it is served by the first one that
   answers, and fails only if all n fail.
   */
  lemma RotationEnds(c: Config, names: seq<string>, ok: seq<bool>, h: seq<bool>, f: seq<nat>, cur: nat, k: nat)
    requires c.enableFailover && Distinct(names) && |names| == |ok| == |h| == |f| && cur < |names| && AllTrue(h)
    requires k < |names| && FailUpTo(ok, cur, k)
    ensures
      var q := Turns(c, names, ok, Arriving(h, f, cur), k + 1);
      var i := Around(|names|, cur, k + 1);
      && q.calls == Tour(|names|, cur, k + 1)
      && q.verdict == (if ok[i] then Some(Served(i)) else if k + 1 < |names| then None else Some(Failed(i)))
  {
    RotationFails(c, names, ok, h, f, cur, k);
    TrailNext(c, names, ok, cur, k, Turns(c, names, ok, Arriving(h, f, cur), k));
  }

  lemma TrailNext(c: Config, names: seq<string>, ok: seq<bool>, cur: nat, k: nat, q: Request)
    requires c.enableFailover && Distinct(names) && Trail(names, cur, k, q) && q.verdict == None && k < |names| == |ok|
    ensures
      var q' := Turn(c, names, ok, q);
      var i := Around(|names|, cur, k + 1);
      && q'.calls == Tour(|names|, cur, k + 1)
      && q'.verdict == (if ok[i] then Some(Served(i)) else if k + 1 < |names| then None else Some(Failed(i)))
      && (!ok[i] ==> Trail(names, cur, k + 1, q'))
  {
    TrailTurn(c, names, ok, cur, k, q);
    if !ok[Around(|names|, cur, k + 1)] {
      TrailCall(c, names, cur, k, q);
    }
  }

  // Exactly when the loop ends

  /** The request ends, however the agents answer it. */
  ghost predicate AlwaysEnds(c: Config, names: seq<string>, h: seq<bool>, f: seq<nat>, cur: nat)
    requires |names| == |h| == |f| && cur < |names|
  {
    forall ok: seq<bool> | |ok| == |names| :: Ends(c, names, ok, Arriving(h, f, cur))
  }

  ghost predicate Ends(c: Config, names: seq<string>, ok: seq<bool>, q: Request)
    requires |names| == |q.healthy| == |q.failures| == |ok| && q.cur < |names|
  {
    exists k: nat :: Turns(c, names, ok, q, k).verdict.Some?
  }

  /** One more failure takes every healthy backend out of the rotation. */
  ghost predicate OnTheBrink(c: Config, h: seq<bool>, f: seq<nat>)
    requires |h| == |f|
  {
    forall i :: 0 <= i < |h| && h[i] ==> f[i] + 1 >= c.failureThreshold
  }

  /** No two healthy backends share a name. */
  ghost predicate HealthyNamesDiffer(names: seq<string>, h: seq<bool>)
    requires |names| == |h|
  {
    forall i, j :: 0 <= i < j < |h| && h[i] && h[j] ==> names[i] != names[j]
  }

  /** What a caller can check beforehand. */
  ghost predicate Safe(c: Config, names: seq<string>, h: seq<bool>, f: seq<nat>)
    requires |names| == |h| == |f|
  {
    || !c.enableFailover
    || (AllTrue(h) && Distinct(names))
    || (OnTheBrink(c, h, f) && HealthyNamesDiffer(names, h))
  }

  /** Healthy backends have not been called yet, under their own or another's name, and a failure would retire them. */
  ghost predicate Retiring(c: Config, names: seq<string>, q: Request) {
    && Fits(names, q) && OnTheBrink(c, q.healthy, q.failures) && HealthyNamesDiffer(names, q.healthy)
    && forall i :: 0 <= i < |names| && q.healthy[i] ==> names[i] !in q.attempted
  }

  lemma RetiringTurn(c: Config, names: seq<string>, ok: seq<bool>, q: Request)
    requires |ok| == |names| && Retiring(c, names, q) && q.verdict == None
    ensures
      var q' := Turn(c, names, ok, q);
      q'.verdict.Some? || (Retiring(c, names, q') && |Healthy(q'.healthy)| < |Healthy(q.healthy)|)
  {
    var q' := Turn(c, names, ok, q);
    if q'.verdict == None {
      var i := Pick(q.healthy, q.cur);
      FewerHealthy(q.healthy, i);
      forall m | 0 <= m < |names| && q'.healthy[m] ensures names[m] !in q'.attempted {
        assert m != i && q.healthy[m];
        assert names[m] != names[i];
      }
    }
  }

  lemma {:induction false} FewerHealthy(h: seq<bool>, i: nat)
    requires i < |h| && h[i]
    ensures |Healthy(h[i := false])| == |Healthy(h)| - 1
  {
    var front := h[..|h| - 1];
    if i < |front| {
      FewerHealthy(front, i);
      assert h[i := false][..|h| - 1] == front[i := false];
    } else {
      assert h[i := false][..|h| - 1] == front;
    }
  }

  lemma {:induction false} RetiringEnds(c: Config, names: seq<string>, ok: seq<bool>, q0: Request, k: nat)
    requires |names| == |q0.healthy| == |q0.failures| == |ok| && q0.cur < |names|
    requires Retiring(c, names, Turns(c, names, ok, q0, k)) && Turns(c, names, ok, q0, k).verdict == None
    ensures Ends(c, names, ok, q0)
    decreases |Healthy(Turns(c, names, ok, q0, k).healthy)|
  {
    var q := Turns(c, names, ok, q0, k);
    RetiringTurn(c, names, ok, q);
    if Turns(c, names, ok, q0, k + 1).verdict == None {
      RetiringEnds(c, names, ok, q0, k + 1);
    }
  }

  lemma SafeEnds(c: Config, names: seq<string>, ok: seq<bool>, h: seq<bool>, f: seq<nat>, cur: nat)
    requires |names| == |ok| == |h| == |f| && cur < |names| && Safe(c, names, h, f)
    ensures Ends(c, names, ok, Arriving(h, f, cur))
  {
    var q := Arriving(h, f, cur);
    assert Turns(c, names, ok, q, 0) == q;
    if !c.enableFailover {
      assert Turns(c, names, ok, q, 1) == Turn(c, names, ok, q);
      assert Turns(c, names, ok, q, 1).verdict.Some?;
    } else if OnTheBrink(c, h, f) && HealthyNamesDiffer(names, h) {
      RetiringEnds(c, names, ok, q, 0);
    } else {
      AllHealthyEnds(c, names, ok, h, f, cur, 0);
    }
  }

  lemma FailOneMore(ok: seq<bool>, cur: nat, k: nat)
    requires FailUpTo(ok, cur, k) && !ok[Around(|ok|, cur, k + 1)]
    ensures FailUpTo(ok, cur, k + 1)
  {
    forall j | 1 <= j <= k + 1 ensures !ok[Around(|ok|, cur, j)] {
      assert j <= k || j == k + 1;
    }
  }

  lemma {:induction false} AllHealthyEnds(c: Config, names: seq<string>, ok: seq<bool>, h: seq<bool>, f: seq<nat>, cur: nat, k: nat)
    requires c.enableFailover && Distinct(names) && |names| == |ok| == |h| == |f| && cur < |names| && AllTrue(h)
    requires k < |names| && FailUpTo(ok, cur, k)
    ensures Ends(c, names, ok, Arriving(h, f, cur))
    decreases |names| - k
  {
    var q := Turns(c, names, ok, Arriving(h, f, cur), k + 1);
    RotationEnds(c, names, ok, h, f, cur, k);
    if q.verdict == None {
      FailOneMore(ok, cur, k);
      AllHealthyEnds(c, names, ok, h, f, cur, k + 1);
    }
  }

  // Failures that keep the loop going: as long as fewer names have been attempted than there are backends and
  // some backend stays healthy, the request neither fails nor ends.

  lemma {:induction false} NameCount(names: seq<string>)
    ensures |set x | x in names| <= |names|
  {
    if names != [] {
      var front := names[..|names| - 1];
      NameCount(front);
      assert (set x | x in names) == (set x | x in front) + {names[|names| - 1]};
    }
  }

  /** With a name in use twice there are fewer names than backends. */
  lemma {:induction false} SharedNameCount(names: seq<string>, u: nat, v: nat)
    requires u < v < |names| && names[u] == names[v]
    ensures |set x | x in names| < |names|
  {
    var front, last := names[..|names| - 1], names[|names| - 1];
    assert names == front + [last];
    if v < |front| {
      SharedNameCount(front, u, v);
      assert (set x | x in names) == (set x | x in front) + {last};
    } else {
      NameCount(front);
      assert front[u] == last;
      assert (set x | x in names) == (set x | x in front);
    }
  }

  lemma RoomLeft(names: seq<string>, attempted: set<string>, u: string)
    requires u in names && u !in attempted && forall x :: x in attempted ==> x in names
    ensures |attempted| < |names|
  {
    NameCount(names);
    var all := set x | x in names;
    assert attempted + {u} <= all;
    SubsetSize(attempted + {u}, all);
  }

  /** Fewer names can be attempted than there are backends: two share one, or backend `u` is never called. */
  ghost predicate Roomy(names: seq<string>, u: nat, attempted: set<string>) {
    && u < |names|
    && (forall x :: x in attempted ==> x in names)
    && (Distinct(names) ==> names[u] !in attempted)
  }

  lemma RoomyHasRoom(names: seq<string>, u: nat, attempted: set<string>)
    requires Roomy(names, u, attempted)
    ensures |attempted| < |names|
  {
    if Distinct(names) {
      RoomLeft(names, attempted, names[u]);
    } else {
      var i, j :| 0 <= i < j < |names| && names[i] == names[j];
      SharedNameCount(names, i, j);
      SubsetSize(attempted, set x | x in names);
    }
  }

  /** Backend `u` is out, so it is never called; backend `v` is in and stays in, since it is called at most once. */
  ghost predicate Stuck(c: Config, names: seq<string>, u: nat, v: nat, fv: nat, q: Request) {
    && Fits(names, q) && Roomy(names, u, q.attempted) && v < |names|
    && q.verdict == None
    && !q.healthy[u]
    && q.healthy[v] && fv + 1 < c.failureThreshold
    && (q.failures[v] == fv || (q.failures[v] == fv + 1 && names[v] in q.attempted))
  }

  /** Of two backends of one name the second is never called once the first has been, so one of them stays in. */
  ghost predicate Twinned(names: seq<string>, u: nat, v: nat, q: Request) {
    && Fits(names, q) && u < v < |names| && names[u] == names[v]
    && Roomy(names, u, q.attempted)
    && q.verdict == None
    && (q.healthy[u] || q.healthy[v])
    && (names[u] !in q.attempted ==> q.healthy[u] && q.healthy[v])
  }

  /** Either reason to go on. */
  ghost predicate Spinning(c: Config, names: seq<string>, u: nat, v: nat, fv: nat, q: Request) {
    Stuck(c, names, u, v, fv, q) || Twinned(names, u, v, q)
  }

  lemma StuckCall(c: Config, names: seq<string>, u: nat, v: nat, fv: nat, q: Request, i: nat)
    requires c.enableFailover && Stuck(c, names, u, v, fv, q)
    requires i < |names| && q.healthy[i] && names[i] !in q.attempted
    ensures Stuck(c, names, u, v, fv, Call(c, names, false, q, i))
  {
    assert Distinct(names) ==> names[i] != names[u];
    RoomyHasRoom(names, u, q.attempted + {names[i]});
  }

  lemma TwinnedCall(c: Config, names: seq<string>, u: nat, v: nat, q: Request, i: nat)
    requires c.enableFailover && Twinned(names, u, v, q)
    requires i < |names| && q.healthy[i] && names[i] !in q.attempted
    ensures Twinned(names, u, v, Call(c, names, false, q, i))
  {
    assert !Distinct(names);
    RoomyHasRoom(names, u, q.attempted + {names[i]});
  }

  lemma SpinningTurn(c: Config, names: seq<string>, ok: seq<bool>, u: nat, v: nat, fv: nat, q: Request)
    requires c.enableFailover && |ok| == |names| && (forall i :: 0 <= i < |ok| ==> !ok[i])
    requires Spinning(c, names, u, v, fv, q)
    ensures Spinning(c, names, u, v, fv, Turn(c, names, ok, q))
  {
    RankFinds(q.healthy, if q.healthy[v] then v else u);
    var i := Pick(q.healthy, q.cur);
    if names[i] in q.attempted {
      RoomyHasRoom(names, u, q.attempted);
      assert Turn(c, names, ok, q) == q.(cur := i);
    } else {
      if Stuck(c, names, u, v, fv, q) {
        StuckCall(c, names, u, v, fv, q, i);
      } else {
        TwinnedCall(c, names, u, v, q, i);
      }
      assert Turn(c, names, ok, q) == Call(c, names, false, q, i);
    }
  }

  lemma {:induction false} SpinsForever(c: Config, names: seq<string>, ok: seq<bool>, u: nat, v: nat, fv: nat, q: Request, k: nat)
    requires c.enableFailover && |ok| == |names| && (forall i :: 0 <= i < |ok| ==> !ok[i])
    requires Spinning(c, names, u, v, fv, q)
    ensures Spinning(c, names, u, v, fv, Turns(c, names, ok, q, k))
    decreases k
  {
    if k > 0 {
      SpinsForever(c, names, ok, u, v, fv, q, k - 1);
      SpinningTurn(c, names, ok, u, v, fv, Turns(c, names, ok, q, k - 1));
    }
  }

  lemma SpinningDiverges(c: Config, names: seq<string>, u: nat, v: nat, fv: nat, q: Request)
    requires c.enableFailover && Spinning(c, names, u, v, fv, q)
    ensures !Ends(c, names, seq(|names|, _ => false), q)
  {
    var ok := seq(|names|, _ => false);
    forall k: nat ensures !Turns(c, names, ok, q, k).verdict.Some? {
      SpinsForever(c, names, ok, u, v, fv, q, k);
    }
  }

  /** Two healthy backends of one name, two replicas say, are enough to keep a failing request going for ever. */
  lemma TwinsDiverge(c: Config, names: seq<string>, h: seq<bool>, f: seq<nat>, cur: nat, u: nat, v: nat)
    requires c.enableFailover && |names| == |h| == |f| && cur < |names|
    requires u < v < |names| && names[u] == names[v] && h[u] && h[v]
    ensures !Ends(c, names, seq(|names|, _ => false), Arriving(h, f, cur))
  {
    assert Twinned(names, u, v, Arriving(h, f, cur));
    SpinningDiverges(c, names, u, v, 0, Arriving(h, f, cur));
  }

  lemma UnsafeDiverges(c: Config, names: seq<string>, h: seq<bool>, f: seq<nat>, cur: nat)
    requires |names| == |h| == |f| && cur < |names| && !Safe(c, names, h, f)
    ensures !Ends(c, names, seq(|names|, _ => false), Arriving(h, f, cur))
  {
    if HealthyNamesDiffer(names, h) {
      var u :| 0 <= u < |h| && !h[u];
      var v :| 0 <= v < |h| && h[v] && f[v] + 1 < c.failureThreshold;
      assert Stuck(c, names, u, v, f[v], Arriving(h, f, cur));
      SpinningDiverges(c, names, u, v, f[v], Arriving(h, f, cur));
    } else {
      var u, v :| 0 <= u < v < |h| && h[u] && h[v] && names[u] == names[v];
      TwinsDiverge(c, names, h, f, cur, u, v);
    }
  }

  /**
   The retry loop ends for every behaviour of the agents if and only if failover is off, or all backends are
   healthy on entry under different names, or one more failure would retire every healthy backend and these have
   different names.  Otherwise it may spin for ever.
   */
  lemma EndsIff(c: Config, names: seq<string>, h: seq<bool>, f: seq<nat>, cur: nat)
    requires |names| == |h| == |f| && cur < |names|
    ensures AlwaysEnds(c, names, h, f, cur) <==> Safe(c, names, h, f)
  {
    if Safe(c, names, h, f) {
      forall ok: seq<bool> | |ok| == |names| ensures Ends(c, names, ok, Arriving(h, f, cur)) {
        SafeEnds(c, names, ok, h, f, cur);
      }
    } else {
      UnsafeDiverges(c, names, h, f, cur);
      var ok: seq<bool> := seq(|names|, _ => false);
      assert |ok| == |names|;
    }
  }

  // ---------------------------------------------------------------------------------------------
  // The balancer as an object

  class Balancer {
    const config: Config
    const names: seq<string>
    const weights: seq<int>
    var healthy: seq<bool>
    var active: seq<int>
    var requests: seq<nat>
    var failures: seq<nat>
    var currentIndex: nat

    ghost predicate Valid()
      reads this
    {
      && |names| == |weights| == |healthy| == |active| == |requests| == |failures|
      && currentIndex < |names|
    }

    constructor (c: Config, names: seq<string>, weights: seq<int>)
      requires names != [] && |weights| == |names|
      ensures Valid() && config == c && this.names == names && this.weights == weights
      ensures AllTrue(healthy) && currentIndex == 0
    {
      config, this.names, this.weights := c, names, weights;
      healthy := seq(|names|, _ => true);
      active, requests, failures := seq(|names|, _ => 0), seq(|names|, _ => 0), seq(|names|, _ => 0);
      currentIndex := 0;
    }

    /** `candidates` are the backends that looked healthy when the selection began. */
    method SelectRoundRobin(candidates: seq<nat>) returns (r: nat)
      requires Valid() && candidates != []
      modifies `currentIndex
      ensures Valid()
      ensures Healthy(healthy) != [] ==> FirstAfter(healthy, old(currentIndex), r) && currentIndex == r
      ensures Healthy(healthy) == [] ==> r == candidates[0]
    {
      var n := |names|;
      ghost var cur0 := currentIndex;
      for i := 0 to n
        invariant Valid() && unchanged(`healthy)
        invariant currentIndex == if cur0 + i < n then cur0 + i else cur0 + i - n
        invariant if cur0 + i < n then forall j :: cur0 < j <= cur0 + i ==> !healthy[j]
                  else (forall j :: cur0 < j < n ==> !healthy[j]) && (forall j :: 0 <= j <= cur0 + i - n ==> !healthy[j])
      {
        currentIndex := Advance(currentIndex, n);
        if healthy[currentIndex] {
          RankFinds(healthy, currentIndex);
          return currentIndex;
        }
      }
      NoneHealthy(healthy);
      return candidates[0];
    }

    method SelectWeighted(candidates: seq<nat>) returns (r: nat)
      requires candidates != [] && InBounds(candidates, |weights|)
      modifies `currentIndex
      ensures
        var list := Weighted(candidates, weights);
        if list == [] then r == candidates[0] && currentIndex == old(currentIndex)
        else currentIndex == (old(currentIndex) + 1) % |list| && r == list[currentIndex]
    {
      var list: seq<nat> := [];
      for b := 0 to |candidates|
        invariant list == Weighted(candidates[..b], weights)
      {
        var i, weight := 0, weights[candidates[b]];
        ghost var before := list;
        while i < weight
          invariant if weight > 0 then 0 <= i <= weight else i == 0
          invariant list == before + Copies(candidates[b], i)
        {
          assert Copies(candidates[b], i + 1) == Copies(candidates[b], i) + [candidates[b]];
          list := list + [candidates[b]];
          i := i + 1;
        }
        assert Copies(candidates[b], i) == Copies(candidates[b], weight);
        assert candidates[..b + 1][..b] == candidates[..b];
      }
      assert candidates[..|candidates|] == candidates;
      if list == [] {
        return candidates[0];
      }
      currentIndex := (currentIndex + 1) % |list|;
      return list[currentIndex];
    }

    /** The call of one agent and its consequences; the verdict is `None` when the loop goes on. */
    method Attempt(b: nat, ok: bool, attempted: set<string>, ghost q: Request, ghost next: Request)
      returns (r: Option<Verdict>)
      requires Valid() && b < |names|
      requires (q.healthy, q.failures, q.attempted, q.verdict) == (healthy, failures, attempted, None)
      requires next == Call(config, names, ok, q, b)
      modifies `healthy, `active, `requests, `failures
      ensures Valid()
      ensures (healthy, failures, r) == (next.healthy, next.failures, next.verdict)
      ensures next.cur == b && next.attempted == attempted + {names[b]}
      ensures active == old(active)
      ensures Counted(old(requests), [b], requests)
      ensures forall before :: Counted(before, q.calls, old(requests)) ==> Counted(before, next.calls, requests)
    {
      var attempted' := attempted + {names[b]};
      active := active[b := active[b] + 1];
      requests := requests[b := requests[b] + 1];
      active := active[b := active[b] - 1];
      if ok {
        return Some(Served(b));
      }
      failures := failures[b := failures[b] + 1];
      if failures[b] >= config.failureThreshold {
        healthy := healthy[b := false];
      }
      if config.enableFailover && |attempted'| < |names| {
        return None;
      }
      return Some(Failed(b));
    }

    /** One turn of the loop, whatever it selects. */
    method TakeTurn(answers: seq<bool>, attempted: set<string>, ghost q: Request)
      returns (attempted': set<string>, r: Option<Verdict>, ghost next: Request)
      requires Valid() && |answers| == |names|
      requires Matches(q) && q.verdict == None && q.attempted == attempted
      modifies this
      ensures Matches(next) && next == Turn(config, names, answers, q) && r == next.verdict && attempted' == next.attempted
      ensures active == old(active)
      ensures forall before :: Counted(before, q.calls, old(requests)) ==> Counted(before, next.calls, requests)
    {
      next := Turn(config, names, answers, q);
      attempted' := attempted;
      var candidates := Healthy(healthy);
      if candidates == [] {
        return attempted', Some(AllUnhealthy), next;
      }
      var b := SelectRoundRobin(candidates);
      PickIsFirstAfter(q.healthy, q.cur, b);
      if names[b] in attempted {
        r := if !config.enableFailover || |attempted| >= |names| then Some(AllAttempted) else None;
        return attempted', r, next;
      }
      attempted' := attempted + {names[b]};
      r := Attempt(b, answers[b], attempted, q, next);
    }

    ghost predicate Matches(q: Request)
      reads this
    {
      Valid() && (healthy, failures, currentIndex) == (q.healthy, q.failures, q.cur)
    }

    /** At most `limit` turns of one request, alone, under round robin; `answers` is how each agent answers it. */
    method ProcessFor(answers: seq<bool>, limit: nat) returns (r: Option<Verdict>, ghost turns: nat, ghost q: Request)
      requires Valid() && |answers| == |names|
      modifies this
      ensures q == Turns(config, names, answers, old(Arriving(healthy, failures, currentIndex)), turns)
      ensures Matches(q) && q.verdict == r && turns <= limit && (r.None? ==> turns == limit)
      ensures Counted(old(requests), q.calls, requests)
      ensures active == old(active)
    {
      ghost var q0 := Arriving(healthy, failures, currentIndex);
      var attempted: set<string> := {};
      r := None;
      turns, q := 0, q0;
      for i := 0 to limit
        invariant Matches(q) && active == old(active) && turns == i
        invariant q == Turns(config, names, answers, q0, turns) && q.verdict == r == None && attempted == q.attempted
        invariant Counted(old(requests), q.calls, requests)
      {
        attempted, r, q := TakeTurn(answers, attempted, q);
        turns := turns + 1;
        if r.Some? {
          return;
        }
      }
    }

    /** One whole request.  The guard is exactly the one under which the loop ends. */
    method Process(answers: seq<bool>) returns (r: Verdict, ghost turns: nat, ghost q: Request)
      requires Valid() && |answers| == |names|
      requires Safe(config, names, healthy, failures)
      modifies this
      ensures q == Turns(config, names, answers, old(Arriving(healthy, failures, currentIndex)), turns)
      ensures Matches(q) && q.verdict == Some(r)
      ensures RequestOk(config, names, answers, old(healthy), old(failures), q)
      ensures Counted(old(requests), q.calls, requests)
      ensures active == old(active)
    {
      ghost var q0 := Arriving(healthy, failures, currentIndex);
      ProgressingStart(config, names, healthy, failures, currentIndex);
      var attempted: set<string> := {};
      var verdict: Option<Verdict> := None;
      turns, q := 0, q0;
      while verdict.None?
        invariant Matches(q) && active == old(active)
        invariant q == Turns(config, names, answers, q0, turns) && q.verdict == verdict && attempted == q.attempted
        invariant Counted(old(requests), q.calls, requests)
        invariant verdict.None? ==> Progressing(config, names, q0.cur, q)
        decreases verdict.None?, |names| - |attempted|
      {
        ProgressingTurn(config, names, answers, q0.cur, q);
        attempted, verdict, q := TakeTurn(answers, attempted, q);
        turns := turns + 1;
      }
      RequestMeans(config, names, answers, q0.healthy, q0.failures, q0.cur, turns);
      r := verdict.value;
    }
  }

  /** The request counters went up by one for each call. */
  ghost predicate Counted(before: seq<nat>, calls: seq<nat>, after: seq<nat>) {
    |after| == |before| && forall i :: 0 <= i < |after| ==> after[i] == before[i] + multiset(calls)[i]
  }

  /** What the loop keeps under the guard. */
  ghost predicate Progressing(c: Config, names: seq<string>, cur0: nat, q: Request) {
    && Fits(names, q)
    && (forall x :: x in q.attempted ==> x in names)
    && (Retiring(c, names, q)
        || (c.enableFailover && Distinct(names) && |q.attempted| < |names| && Trail(names, cur0, |q.attempted|, q))
        || (!c.enableFailover && q.attempted == {}))
  }

  lemma ProgressingStart(c: Config, names: seq<string>, h: seq<bool>, f: seq<nat>, cur: nat)
    requires |names| == |h| == |f| && cur < |names| && Safe(c, names, h, f)
    ensures Progressing(c, names, cur, Arriving(h, f, cur))
  {
  }

  lemma RetiringProgress(c: Config, names: seq<string>, ok: seq<bool>, cur0: nat, q: Request)
    requires |ok| == |names| && Retiring(c, names, q) && q.verdict == None && (forall x :: x in q.attempted ==> x in names)
    ensures
      var next := Turn(c, names, ok, q);
      next.verdict == None ==>
        Progressing(c, names, cur0, next) && |q.attempted| < |names| && |next.attempted| == |q.attempted| + 1
  {
    if Turn(c, names, ok, q).verdict == None {
      var i := Pick(q.healthy, q.cur);
      RetiringTurn(c, names, ok, q);
      RoomLeft(names, q.attempted, names[i]);
    }
  }

  lemma TrailProgress(c: Config, names: seq<string>, ok: seq<bool>, cur0: nat, q: Request)
    requires |ok| == |names| && c.enableFailover && Distinct(names) && q.verdict == None
    requires |q.attempted| < |names| && Trail(names, cur0, |q.attempted|, q) && (forall x :: x in q.attempted ==> x in names)
    ensures
      var next := Turn(c, names, ok, q);
      next.verdict == None ==> Progressing(c, names, cur0, next) && |next.attempted| == |q.attempted| + 1
  {
    var k := |q.attempted|;
    TrailTurn(c, names, ok, cur0, k, q);
    TrailNext(c, names, ok, cur0, k, q);
  }

  /** A turn that does not end the request calls a backend whose name has not been attempted. */
  lemma ProgressingTurn(c: Config, names: seq<string>, ok: seq<bool>, cur0: nat, q: Request)
    requires |ok| == |names| && Progressing(c, names, cur0, q) && q.verdict == None
    ensures
      var next := Turn(c, names, ok, q);
      next.verdict == None ==>
        Progressing(c, names, cur0, next) && |q.attempted| < |names| && |next.attempted| == |q.attempted| + 1
  {
    if Retiring(c, names, q) {
      RetiringProgress(c, names, ok, cur0, q);
    } else if c.enableFailover {
      TrailProgress(c, names, ok, cur0, q);
    }
  }
}
