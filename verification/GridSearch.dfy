/** Grid search over prompt variations in evaluation/prompt_optimizer.go. */
module GridSearch {
  import opened Common

  type Config = map<string, string>

  type Scores = map<string, real>

  // ---- All combinations ----

  /** Every way to extend `prefix` by one value per key, earlier keys varying slowest. */
  function Expand(keys: seq<string>, lists: seq<seq<string>>, prefix: Config): seq<Config>
    requires |keys| == |lists|
    decreases |keys|, 1, 0
  {
    if keys == [] then [prefix] else ExpandEach(keys, lists, lists[0], prefix)
  }

  /** The same with the first key ranging over `values` only. */
  function ExpandEach(keys: seq<string>, lists: seq<seq<string>>, values: seq<string>, prefix: Config): seq<Config>
    requires |keys| == |lists| > 0
    decreases |keys|, 0, |values|
  {
    if values == [] then []
    else
      ExpandEach(keys, lists, values[..|values| - 1], prefix)
      + Expand(keys[1..], lists[1..], prefix[keys[0] := values[|values| - 1]])
  }

  /** The map that all levels of the recursion write to. */
  class Shared {
    var current: Config

    constructor ()
      ensures current == map[]
    {
      current := map[];
    }
  }

  /** `p` and `q` differ at most on `keys`. */
  ghost predicate SameOutside(p: Config, q: Config, keys: seq<string>) {
    forall k :: k !in keys ==> (k in p <==> k in q) && (k in p ==> p[k] == q[k])
  }

  /** Values left over from earlier combinations do not show: every key still to come is written before the copy. */
  lemma {:induction false} StaleValuesVanish(keys: seq<string>, lists: seq<seq<string>>, p: Config, q: Config)
    requires |keys| == |lists| && SameOutside(p, q, keys)
    ensures Expand(keys, lists, p) == Expand(keys, lists, q)
    decreases |keys|, 1, 0
  {
    if keys == [] {
      assert p == q;
    } else {
      StaleValuesVanishEach(keys, lists, lists[0], p, q);
    }
  }

  lemma {:induction false} StaleValuesVanishEach(
    keys: seq<string>, lists: seq<seq<string>>, values: seq<string>, p: Config, q: Config)
    requires |keys| == |lists| > 0 && SameOutside(p, q, keys)
    ensures ExpandEach(keys, lists, values, p) == ExpandEach(keys, lists, values, q)
    decreases |keys|, 0, |values|
  {
    if values != [] {
      var v := values[|values| - 1];
      StaleValuesVanishEach(keys, lists, values[..|values| - 1], p, q);
      assert keys == [keys[0]] + keys[1..];
      assert SameOutside(p[keys[0] := v], q[keys[0] := v], keys[1..]);
      StaleValuesVanish(keys[1..], lists[1..], p[keys[0] := v], q[keys[0] := v]);
    }
  }

  /** One level of the recursion; it leaves the shared map changed on the keys from `index` on only. */
  method CartesianProduct(keys: seq<string>, lists: seq<seq<string>>, index: nat, shared: Shared)
    returns (results: seq<Config>)
    requires |keys| == |lists| && index <= |keys|
    modifies shared
    ensures results == Expand(keys[index..], lists[index..], old(shared.current))
    ensures SameOutside(shared.current, old(shared.current), keys[index..])
    decreases |keys| - index
  {
    if index == |keys| {
      results := [shared.current];
      return;
    }
    ghost var start := shared.current;
    results := [];
    var values := lists[index];
    for i := 0 to |values|
      invariant results == ExpandEach(keys[index..], lists[index..], values[..i], start)
      invariant SameOutside(shared.current, start, keys[index..])
    {
      ghost var before := shared.current;
      shared.current := shared.current[keys[index] := values[i]];
      var configs := CartesianProduct(keys, lists, index + 1, shared);
      TurnStep(keys, lists, index, i, start, before);
      StillOutside(keys, index, start, before, values[i], shared.current);
      results := results + configs;
    }
    assert values[..|values|] == values;
  }

  lemma TurnStep(keys: seq<string>, lists: seq<seq<string>>, index: nat, i: nat, start: Config, before: Config)
    requires |keys| == |lists| && index < |keys| && i < |lists[index]| && SameOutside(before, start, keys[index..])
    ensures
      var values := lists[index];
      ExpandEach(keys[index..], lists[index..], values[..i + 1], start) ==
      ExpandEach(keys[index..], lists[index..], values[..i], start)
      + Expand(keys[index + 1..], lists[index + 1..], before[keys[index] := values[i]])
  {
    var ks, ls, values := keys[index..], lists[index..], lists[index];
    assert ks[1..] == keys[index + 1..] && ls[1..] == lists[index + 1..] && ks == [keys[index]] + ks[1..];
    assert values[..i + 1][..i] == values[..i];
    StaleValuesVanish(ks[1..], ls[1..], start[ks[0] := values[i]], before[ks[0] := values[i]]);
  }

  lemma StillOutside(keys: seq<string>, index: nat, start: Config, before: Config, value: string, after: Config)
    requires index < |keys| && SameOutside(before, start, keys[index..])
    requires SameOutside(after, before[keys[index] := value], keys[index + 1..])
    ensures SameOutside(after, start, keys[index..])
  {
  }

  /** Lists the variations in some order and combines them. */
  method GenerateAllConfigs(variations: map<string, seq<string>>) returns (configs: seq<Config>, ghost keys: seq<string>)
    ensures Enumerates(keys, variations)
    ensures configs == Expand(keys, ListsOf(keys, variations), map[])
    ensures forall c :: c in configs <==> IsAssignment(c, variations)
    ensures (forall k :: k in variations ==> Distinct(variations[k])) ==> Distinct(configs)
  {
    var ks, lists := [], [];
    var left := variations.Keys;
    while left != {}
      invariant |ks| == |lists| && left <= variations.Keys
      invariant forall i :: 0 <= i < |ks| ==> ks[i] in variations && ks[i] !in left && lists[i] == variations[ks[i]]
      invariant forall k :: k in variations && k !in left ==> k in ks
      invariant Distinct(ks)
      decreases |left|
    {
      var key :| key in left;
      ks := ks + [key];
      lists := lists + [variations[key]];
      left := left - {key};
    }
    keys := ks;
    var shared := new Shared();
    configs := CartesianProduct(ks, lists, 0, shared);
    assert ks[0..] == ks && lists[0..] == lists && lists == ListsOf(ks, variations);
    forall c ensures c in configs <==> IsAssignment(c, variations) {
      GridIsComplete(ks, variations, c);
    }
    if forall k :: k in variations ==> Distinct(variations[k]) {
      NoDuplicates(ks, lists, map[]);
    }
  }

  /** `keys` lists the variables of the variations, each once. */
  ghost predicate Enumerates(keys: seq<string>, variations: map<string, seq<string>>) {
    Distinct(keys) && forall k :: k in keys <==> k in variations
  }

  function ListsOf(keys: seq<string>, variations: map<string, seq<string>>): seq<seq<string>>
    requires forall k :: k in keys ==> k in variations
  {
    seq(|keys|, i requires 0 <= i < |keys| => variations[keys[i]])
  }

  function Product(lists: seq<seq<string>>): nat {
    if lists == [] then 1 else |lists[0]| * Product(lists[1..])
  }

  /** There are as many combinations as the product of the list lengths. */
  lemma {:induction false} CountIsProduct(keys: seq<string>, lists: seq<seq<string>>, p: Config)
    requires |keys| == |lists|
    ensures |Expand(keys, lists, p)| == Product(lists)
    decreases |keys|, 1, 0
  {
    if keys != [] {
      CountEach(keys, lists, lists[0], p);
    }
  }

  lemma {:induction false} CountEach(keys: seq<string>, lists: seq<seq<string>>, values: seq<string>, p: Config)
    requires |keys| == |lists| > 0
    ensures |ExpandEach(keys, lists, values, p)| == |values| * Product(lists[1..])
    decreases |keys|, 0, |values|
  {
    if values != [] {
      CountEach(keys, lists, values[..|values| - 1], p);
      CountIsProduct(keys[1..], lists[1..], p[keys[0] := values[|values| - 1]]);
      OneMore(|values| - 1, Product(lists[1..]));
    }
  }

  lemma {:induction false} SplitPosition(a: nat, n: nat, size: nat, b: nat)
    requires a < n && b < size
    ensures a * size + b < n * size
    decreases n
  {
    OneMore(n - 1, size);
    if a < n - 1 {
      SplitPosition(a, n - 1, size, b);
    }
  }

  /** The combinations with the a-th value of the first key stand together, in the order of those values. */
  lemma {:induction false} PositionIs(keys: seq<string>, lists: seq<seq<string>>, values: seq<string>, p: Config, a: nat, b: nat)
    requires |keys| == |lists| > 0 && a < |values| && b < Product(lists[1..])
    ensures
      var at := a * Product(lists[1..]) + b;
      var rest := Expand(keys[1..], lists[1..], p[keys[0] := values[a]]);
      at < |ExpandEach(keys, lists, values, p)| && b < |rest| && ExpandEach(keys, lists, values, p)[at] == rest[b]
    decreases |values|
  {
    var init, size := values[..|values| - 1], Product(lists[1..]);
    SplitPosition(a, |values|, size, b);
    CountEach(keys, lists, values, p);
    CountEach(keys, lists, init, p);
    CountIsProduct(keys[1..], lists[1..], p[keys[0] := values[a]]);
    if a < |init| {
      PositionIs(keys, lists, init, p, a, b);
      SplitPosition(a, |init|, size, b);
    }
  }

  /** `c` gives every key a value of its list and is `p` elsewhere. */
  ghost predicate Completes(c: Config, keys: seq<string>, lists: seq<seq<string>>, p: Config)
    requires |keys| == |lists|
  {
    && SameOutside(c, p, keys)
    && forall i :: 0 <= i < |keys| ==> keys[i] in c && c[keys[i]] in lists[i]
  }

  lemma CompletesFirst(c: Config, keys: seq<string>, lists: seq<seq<string>>, p: Config, v: string)
    requires |keys| == |lists| > 0 && Distinct(keys)
    ensures Completes(c, keys[1..], lists[1..], p[keys[0] := v]) <==>
      keys[0] in c && c[keys[0]] == v && Completes(c, keys, lists[0 := [v]], p)
  {
  }

  /** The combinations are exactly the full assignments. */
  lemma {:induction false} MemberIff(keys: seq<string>, lists: seq<seq<string>>, p: Config, c: Config)
    requires |keys| == |lists| && Distinct(keys)
    ensures c in Expand(keys, lists, p) <==> Completes(c, keys, lists, p)
    decreases |keys|, 1, 0
  {
    if keys == [] {
      assert SameOutside(c, p, keys) <==> c == p;
    } else {
      MemberEachIff(keys, lists, lists[0], p, c);
      assert lists[0 := lists[0]] == lists;
    }
  }

  lemma {:induction false} MemberEachIff(keys: seq<string>, lists: seq<seq<string>>, values: seq<string>, p: Config, c: Config)
    requires |keys| == |lists| > 0 && Distinct(keys)
    ensures c in ExpandEach(keys, lists, values, p) <==> Completes(c, keys, lists[0 := values], p)
    decreases |keys|, 0, |values|
  {
    if values == [] {
      assert keys[0] in keys;
      assert lists[0 := values][0] == [];
    } else {
      var v, init := values[|values| - 1], values[..|values| - 1];
      MemberEachIff(keys, lists, init, p, c);
      MemberIff(keys[1..], lists[1..], p[keys[0] := v], c);
      CompletesFirst(c, keys, lists, p, v);
      assert values == init + [v];
      CompletesEither(c, keys, lists, init, v, p);
    }
  }

  lemma CompletesEither(c: Config, keys: seq<string>, lists: seq<seq<string>>, init: seq<string>, v: string, p: Config)
    requires |keys| == |lists| > 0
    ensures Completes(c, keys, lists[0 := init + [v]], p) <==>
      Completes(c, keys, lists[0 := init], p) || Completes(c, keys, lists[0 := [v]], p)
  {
  }

  ghost predicate IsAssignment(c: Config, variations: map<string, seq<string>>) {
    c.Keys == variations.Keys && forall k :: k in c ==> c[k] in variations[k]
  }

  /** Whatever order the variables are listed in, the grid holds exactly the full assignments. */
  lemma GridIsComplete(keys: seq<string>, variations: map<string, seq<string>>, c: Config)
    requires Enumerates(keys, variations)
    ensures c in Expand(keys, ListsOf(keys, variations), map[]) <==> IsAssignment(c, variations)
  {
    var lists := ListsOf(keys, variations);
    MemberIff(keys, lists, map[], c);
    if Completes(c, keys, lists, map[]) {
      assert forall k :: k in c <==> k in keys;
      forall k | k in c ensures c[k] in variations[k] {
        var i :| 0 <= i < |keys| && keys[i] == k;
        assert c[keys[i]] in lists[i];
      }
    }
    if IsAssignment(c, variations) {
      assert forall i :: 0 <= i < |keys| ==> keys[i] in c && c[keys[i]] in lists[i];
    }
  }

  lemma DistinctConcat<T>(a: seq<T>, b: seq<T>)
    requires Distinct(a) && Distinct(b) && forall x :: x in a ==> x !in b
    ensures Distinct(a + b)
  {
    var s := a + b;
    forall i, j | 0 <= i < j < |s| ensures s[i] != s[j] {
      assert i < |a| ==> s[i] in a;
      assert j >= |a| ==> s[j] in b;
    }
  }

  /** No combination is listed twice when no list repeats a value. */
  lemma {:induction false} NoDuplicates(keys: seq<string>, lists: seq<seq<string>>, p: Config)
    requires |keys| == |lists| && Distinct(keys) && forall i :: 0 <= i < |lists| ==> Distinct(lists[i])
    ensures Distinct(Expand(keys, lists, p))
    decreases |keys|, 1, 0
  {
    if keys != [] {
      NoDuplicatesEach(keys, lists, lists[0], p);
    }
  }

  lemma {:induction false} NoDuplicatesEach(keys: seq<string>, lists: seq<seq<string>>, values: seq<string>, p: Config)
    requires |keys| == |lists| > 0 && Distinct(keys) && Distinct(values)
    requires forall i :: 0 <= i < |lists| ==> Distinct(lists[i])
    ensures Distinct(ExpandEach(keys, lists, values, p))
    decreases |keys|, 0, |values|
  {
    if values != [] {
      var v, init := values[|values| - 1], values[..|values| - 1];
      var a := ExpandEach(keys, lists, init, p);
      var b := Expand(keys[1..], lists[1..], p[keys[0] := v]);
      NoDuplicatesEach(keys, lists, init, p);
      NoDuplicates(keys[1..], lists[1..], p[keys[0] := v]);
      assert v !in init;
      forall c | c in a ensures c !in b {
        MemberEachIff(keys, lists, init, p, c);
        assert c[keys[0]] in lists[0 := init][0];
        MemberIff(keys[1..], lists[1..], p[keys[0] := v], c);
        CompletesFirst(c, keys, lists, p, v);
      }
      DistinctConcat(a, b);
    }
  }

  // ---- The evaluation of a prompt ----

  const ACCURACY := "accuracy"
  const LATENCY := "latency_ms"

  /** A test case as far as the evaluation reads it: its input, if that is a string. */
  type TestCase = Option<string>

  /** One call of the agent: whether it succeeded, and the milliseconds it took. */
  datatype Call = Call(ok: bool, milliseconds: nat)

  /** The surroundings of a search: how prompts are filled, how agents answer, when it is cancelled. */
  datatype Trial = Trial(
    testCases: seq<TestCase>,
    fill: Config -> string,
    call: (nat, string, nat) -> Call,
    cancelled: nat -> bool)

  function Successes(t: Trial, i: nat, prompt: string, n: nat): (r: nat)
    requires n <= |t.testCases|
    ensures r <= n
  {
    if n == 0 then 0
    else Successes(t, i, prompt, n - 1) + if t.testCases[n - 1].Some? && t.call(i, prompt, n - 1).ok then 1 else 0
  }

  function Milliseconds(t: Trial, i: nat, prompt: string, n: nat): nat
    requires n <= |t.testCases|
  {
    if n == 0 then 0
    else Milliseconds(t, i, prompt, n - 1) + if t.testCases[n - 1].Some? then t.call(i, prompt, n - 1).milliseconds else 0
  }

  /** The scores of the i-th evaluation: both metrics, or none without test cases. */
  function ScoresOf(t: Trial, i: nat, prompt: string): Scores {
    var n := |t.testCases|;
    if n == 0 then map[]
    else map[
      ACCURACY := Successes(t, i, prompt, n) as real / n as real,
      LATENCY := Milliseconds(t, i, prompt, n) as real / n as real]
  }

  method EvaluatePrompt(t: Trial, i: nat, prompt: string) returns (scores: Scores)
    ensures scores == ScoresOf(t, i, prompt)
  {
    scores := map[];
    var totalLatency, successCount := 0, 0;
    for n := 0 to |t.testCases|
      invariant successCount == Successes(t, i, prompt, n) && totalLatency == Milliseconds(t, i, prompt, n)
    {
      if t.testCases[n].None? {
        continue;
      }
      var answer := t.call(i, prompt, n);
      totalLatency := totalLatency + answer.milliseconds;
      if answer.ok {
        successCount := successCount + 1;
      }
    }
    if |t.testCases| > 0 {
      scores := scores[ACCURACY := successCount as real / |t.testCases| as real];
      scores := scores[LATENCY := totalLatency as real / |t.testCases| as real];
    }
  }

  /** The test case has an input, and the agent succeeds on it. */
  ghost predicate Solves(t: Trial, i: nat, prompt: string, m: int) {
    0 <= m < |t.testCases| && t.testCases[m].Some? && t.call(i, prompt, m).ok
  }

  ghost function Solved(t: Trial, i: nat, prompt: string, n: nat): set<int> {
    set m | 0 <= m < n && Solves(t, i, prompt, m)
  }

  /** What a test case took; one without an input takes no time. */
  ghost function TimeFor(t: Trial, i: nat, prompt: string, m: nat): nat
    requires m < |t.testCases|
  {
    if t.testCases[m].Some? then t.call(i, prompt, m).milliseconds else 0
  }

  ghost function Times(t: Trial, i: nat, prompt: string): seq<nat> {
    seq<nat>(|t.testCases|, m requires 0 <= m < |t.testCases| => TimeFor(t, i, prompt, m))
  }

  ghost function Sum(xs: seq<nat>): nat {
    if xs == [] then 0 else xs[0] + Sum(xs[1..])
  }

  lemma {:induction false} SumLast(xs: seq<nat>, x: nat)
    ensures Sum(xs + [x]) == Sum(xs) + x
  {
    if xs == [] {
      assert [x][1..] == [];
    } else {
      SumLast(xs[1..], x);
      assert (xs + [x])[1..] == xs[1..] + [x];
    }
  }

  lemma OneMoreElement(a: set<int>, b: set<int>, x: int, added: bool)
    requires x !in a && a <= b <= a + {x} && (x in b <==> added)
    ensures |b| == |a| + if added then 1 else 0
  {
    if added {
      assert b == a + {x};
    } else {
      assert b == a;
    }
  }

  lemma OneMoreSolved(t: Trial, i: nat, prompt: string, n: nat)
    requires 0 < n <= |t.testCases|
    ensures |Solved(t, i, prompt, n)| == |Solved(t, i, prompt, n - 1)| + if Solves(t, i, prompt, n - 1) then 1 else 0
  {
    OneMoreElement(Solved(t, i, prompt, n - 1), Solved(t, i, prompt, n), n - 1, Solves(t, i, prompt, n - 1));
  }

  lemma {:induction false} SuccessesAreSolved(t: Trial, i: nat, prompt: string, n: nat)
    requires n <= |t.testCases|
    ensures Successes(t, i, prompt, n) == |Solved(t, i, prompt, n)|
  {
    if n > 0 {
      SuccessesAreSolved(t, i, prompt, n - 1);
      OneMoreSolved(t, i, prompt, n);
    }
  }

  lemma {:induction false} MillisecondsAddUp(t: Trial, i: nat, prompt: string, n: nat)
    requires n <= |t.testCases|
    ensures Milliseconds(t, i, prompt, n) == Sum(Times(t, i, prompt)[..n])
  {
    if n > 0 {
      MillisecondsAddUp(t, i, prompt, n - 1);
      var ts := Times(t, i, prompt);
      assert ts[..n] == ts[..n - 1] + [ts[n - 1]];
      SumLast(ts[..n - 1], ts[n - 1]);
    }
  }

  /** Accuracy is the share of the test cases that were solved, latency the mean time over all of them. */
  lemma ScoresMean(t: Trial, i: nat, prompt: string)
    requires t.testCases != []
    ensures ScoresOf(t, i, prompt).Keys == {ACCURACY, LATENCY}
    ensures ScoresOf(t, i, prompt)[ACCURACY] == |Solved(t, i, prompt, |t.testCases|)| as real / |t.testCases| as real
    ensures ScoresOf(t, i, prompt)[LATENCY] == Sum(Times(t, i, prompt)) as real / |t.testCases| as real
  {
    var n := |t.testCases|;
    SuccessesAreSolved(t, i, prompt, n);
    MillisecondsAddUp(t, i, prompt, n);
    assert Times(t, i, prompt)[..n] == Times(t, i, prompt);
    assert ACCURACY[0] != LATENCY[0];
  }

  /** The search asks for a metric that its evaluations report. */
  predicate Reported(t: Trial, metric: string) {
    t.testCases != [] && (metric == ACCURACY || metric == LATENCY)
  }

  lemma RatioBounds(a: nat, n: nat)
    requires n > 0
    ensures 0.0 <= a as real / n as real
    ensures a <= n ==> a as real / n as real <= 1.0
  {
    var q := a as real / n as real;
    assert q * n as real == a as real;
    assert (q - 1.0) * n as real == a as real - n as real;
  }

  /** Within one search either all evaluations report the metric or none does. */
  lemma ReportedByAll(t: Trial, i: nat, prompt: string, metric: string)
    ensures metric in ScoresOf(t, i, prompt) <==> Reported(t, metric)
    ensures Reported(t, metric) ==> ScoresOf(t, i, prompt)[metric] >= 0.0
    ensures Reported(t, metric) && metric == ACCURACY ==> ScoresOf(t, i, prompt)[metric] <= 1.0
  {
    var n := |t.testCases|;
    if n > 0 {
      RatioBounds(Successes(t, i, prompt, n), n);
      RatioBounds(Milliseconds(t, i, prompt, n), n);
      assert ACCURACY[0] != LATENCY[0];
    }
  }

  // ---- The search ----

  datatype Evaluation = Evaluation(prompt: string, config: Config, scores: Scores)

  datatype Outcome = Outcome(best: Evaluation, history: seq<Evaluation>, evaluated: nat)

  datatype SearchError = Cancelled

  /** What the search starts from; it is returned when no objective is larger. */
  const FLOOR := -1000000000.0

  const NOTHING := Evaluation("", map[], map[])

  /** A missing metric counts as zero, whichever way the search goes. */
  function Objective(scores: Scores, metric: string, maximize: bool): real {
    if metric !in scores then 0.0 else if maximize then scores[metric] else -scores[metric]
  }

  function Evaluated(t: Trial, configs: seq<Config>, i: nat): Evaluation
    requires i < |configs|
  {
    Evaluation(t.fill(configs[i]), configs[i], ScoresOf(t, i, t.fill(configs[i])))
  }

  /** `history` records the first evaluations in order, none of them cancelled. */
  ghost predicate Records(t: Trial, configs: seq<Config>, history: seq<Evaluation>) {
    && |history| <= |configs|
    && forall i :: 0 <= i < |history| ==> !t.cancelled(i) && history[i] == Evaluated(t, configs, i)
  }

  /** `best` is the first evaluation with the largest objective, or nothing when none is above the floor. */
  ghost predicate IsBest(history: seq<Evaluation>, best: Evaluation, metric: string, maximize: bool) {
    if SomeAboveFloor(history, metric, maximize)
    then exists b :: 0 <= b < |history| && FirstMaximum(history, b, metric, maximize) && best == history[b]
    else best == NOTHING
  }

  ghost predicate SomeAboveFloor(history: seq<Evaluation>, metric: string, maximize: bool) {
    exists i :: 0 <= i < |history| && Objective(history[i].scores, metric, maximize) > FLOOR
  }

  ghost predicate FirstMaximum(history: seq<Evaluation>, b: nat, metric: string, maximize: bool)
    requires b < |history|
  {
    && (forall j :: 0 <= j < |history| ==> Objective(history[j].scores, metric, maximize) <= Objective(history[b].scores, metric, maximize))
    && (forall j :: 0 <= j < b ==> Objective(history[j].scores, metric, maximize) < Objective(history[b].scores, metric, maximize))
  }

  class Optimizer {
    const variations: map<string, seq<string>>
    const metric: string
    var maximize: bool
    var history: seq<Evaluation>

    constructor (variations: map<string, seq<string>>, metric: string)
      ensures this.variations == variations && this.metric == metric && maximize && history == []
    {
      this.variations, this.metric := variations, metric;
      maximize, history := true, [];
    }

    /** The loop over the combinations. */
    method Search(configs: seq<Config>, t: Trial) returns (r: Result<Outcome, SearchError>)
      modifies this`history
      ensures Searched(t, configs, history, r, metric, maximize)
    {
      history := [];
      var best, bestObjective := NOTHING, FLOOR;
      for i := 0 to |configs|
        invariant |history| == i && Records(t, configs, history)
        invariant Leads(history, best, bestObjective, metric, maximize)
      {
        if t.cancelled(i) {
          return Err(Cancelled);
        }
        var prompt := t.fill(configs[i]);
        var scores := EvaluatePrompt(t, i, prompt);
        var objective := Objective(scores, metric, maximize);
        var entry := Evaluation(prompt, configs[i], scores);
        LeadsOn(history, best, bestObjective, metric, maximize, entry);
        history := history + [entry];
        if objective > bestObjective {
          best, bestObjective := entry, objective;
        }
      }
      LeaderIsBest(history, best, bestObjective, metric, maximize);
      r := Ok(Outcome(best, history, |configs|));
    }

    /** Evaluates every combination in turn and gives up when it finds itself cancelled. */
    method OptimizeGrid(t: Trial) returns (r: Result<Outcome, SearchError>, ghost keys: seq<string>)
      modifies this`history
      ensures Enumerates(keys, variations)
      ensures Searched(t, Expand(keys, ListsOf(keys, variations), map[]), history, r, metric, maximize)
    {
      var configs: seq<Config>;
      configs, keys := GenerateAllConfigs(variations);
      r := Search(configs, t);
    }
  }

  /** All combinations were evaluated and the best is returned, or the search stopped where it was cancelled. */
  ghost predicate Searched(
    t: Trial, configs: seq<Config>, history: seq<Evaluation>, r: Result<Outcome, SearchError>, metric: string, maximize: bool)
  {
    && Records(t, configs, history)
    && (r.Ok? ==>
         && |history| == |configs| && r.value.history == history && r.value.evaluated == |configs|
         && IsBest(history, r.value.best, metric, maximize))
    && (r.Err? ==> |history| < |configs| && t.cancelled(|history|))
  }

  /** `best` is the b-th evaluation and the first to reach `bestObjective`. */
  ghost predicate LeaderAt(
    history: seq<Evaluation>, b: nat, best: Evaluation, bestObjective: real, metric: string, maximize: bool)
  {
    && b < |history| && best == history[b]
    && Objective(history[b].scores, metric, maximize) == bestObjective
    && forall j :: 0 <= j < b ==> Objective(history[j].scores, metric, maximize) < bestObjective
  }

  ghost predicate Leads(history: seq<Evaluation>, best: Evaluation, bestObjective: real, metric: string, maximize: bool) {
    && bestObjective >= FLOOR
    && (forall j :: 0 <= j < |history| ==> Objective(history[j].scores, metric, maximize) <= bestObjective)
    && (bestObjective == FLOOR ==> best == NOTHING)
    && (bestObjective > FLOOR ==> exists b :: LeaderAt(history, b, best, bestObjective, metric, maximize))
  }

  lemma LeadsOn(
    history: seq<Evaluation>, best: Evaluation, bestObjective: real, metric: string, maximize: bool, entry: Evaluation)
    requires Leads(history, best, bestObjective, metric, maximize)
    ensures
      var objective := Objective(entry.scores, metric, maximize);
      if objective > bestObjective then Leads(history + [entry], entry, objective, metric, maximize)
      else Leads(history + [entry], best, bestObjective, metric, maximize)
  {
    var objective, h := Objective(entry.scores, metric, maximize), history + [entry];
    if objective > bestObjective {
      assert LeaderAt(h, |history|, entry, objective, metric, maximize);
    } else if bestObjective > FLOOR {
      var b :| LeaderAt(history, b, best, bestObjective, metric, maximize);
      assert LeaderAt(h, b, best, bestObjective, metric, maximize);
    }
  }

  lemma LeaderIsBest(history: seq<Evaluation>, best: Evaluation, bestObjective: real, metric: string, maximize: bool)
    requires Leads(history, best, bestObjective, metric, maximize)
    ensures IsBest(history, best, metric, maximize)
  {
  }

  /** A search that goes through names an assignment that no assignment of the variations beats. */
  lemma BestOfAllAssignments(
    keys: seq<string>, variations: map<string, seq<string>>, t: Trial, history: seq<Evaluation>,
    r: Result<Outcome, SearchError>, metric: string, maximize: bool, c: Config)
    requires Enumerates(keys, variations) && r.Ok?
    requires Searched(t, Expand(keys, ListsOf(keys, variations), map[]), history, r, metric, maximize)
    requires SomeAboveFloor(history, metric, maximize) && IsAssignment(c, variations)
    ensures IsAssignment(r.value.best.config, variations) && r.value.best in history
    ensures exists i ::
      && 0 <= i < |history| && history[i].config == c
      && Objective(history[i].scores, metric, maximize) <= Objective(r.value.best.scores, metric, maximize)
  {
    var configs := Expand(keys, ListsOf(keys, variations), map[]);
    var b :| 0 <= b < |history| && FirstMaximum(history, b, metric, maximize) && r.value.best == history[b];
    assert history[b].config == configs[b];
    GridIsComplete(keys, variations, configs[b]);
    GridIsComplete(keys, variations, c);
    var i :| 0 <= i < |configs| && configs[i] == c;
    assert history[i].config == c;
  }

  // ---- What a finished search says about the metric ----

  /** The metric is at least as good there: larger when maximising, smaller when minimising. */
  predicate AsGood(a: real, b: real, maximize: bool) {
    if maximize then a >= b else a <= b
  }

  /** The search names an evaluation that reports the metric, as do all, and none has a better one. */
  ghost predicate FindsBestMetric(history: seq<Evaluation>, best: Evaluation, metric: string, maximize: bool) {
    && best in history && metric in best.scores
    && forall i :: 0 <= i < |history| ==>
         metric in history[i].scores && AsGood(best.scores[metric], history[i].scores[metric], maximize)
  }

  /** On the prompt of some combination the agent takes less than 1e9 milliseconds a test case on average. */
  ghost predicate SomeFast(t: Trial, configs: seq<Config>) {
    exists i :: 0 <= i < |configs| && Fast(t, i, t.fill(configs[i]))
  }

  predicate Fast(t: Trial, i: nat, prompt: string) {
    Milliseconds(t, i, prompt, |t.testCases|) < 1000000000 * |t.testCases|
  }

  lemma RatioBelow(a: nat, n: nat, bound: nat)
    requires n > 0
    ensures a as real / n as real < bound as real <==> a < bound * n
  {
    var q := a as real / n as real;
    assert (q - bound as real) * n as real == (a - bound * n) as real;
  }

  lemma FastIff(t: Trial, configs: seq<Config>, history: seq<Evaluation>, i: nat)
    requires Records(t, configs, history) && i < |history| && t.testCases != []
    ensures Objective(history[i].scores, LATENCY, false) > FLOOR <==> Fast(t, i, t.fill(configs[i]))
  {
    var n := |t.testCases|;
    RatioBelow(Milliseconds(t, i, t.fill(configs[i]), n), n, 1000000000);
  }

  lemma ObjectivesReported(t: Trial, configs: seq<Config>, history: seq<Evaluation>, metric: string, maximize: bool, i: nat)
    requires Records(t, configs, history) && i < |history|
    ensures metric in history[i].scores <==> Reported(t, metric)
    ensures !Reported(t, metric) ==> Objective(history[i].scores, metric, maximize) == 0.0
    ensures Reported(t, metric) && (maximize || metric == ACCURACY) ==> Objective(history[i].scores, metric, maximize) > FLOOR
  {
    ReportedByAll(t, i, history[i].prompt, metric);
  }

  /** With no metric to go by, all objectives are zero and the first combination is returned. */
  lemma UnreportedFirst(
    t: Trial, configs: seq<Config>, history: seq<Evaluation>, r: Result<Outcome, SearchError>, metric: string, maximize: bool)
    requires Searched(t, configs, history, r, metric, maximize) && r.Ok? && configs != [] && !Reported(t, metric)
    ensures r.value.best == history[0] && history[0].config == configs[0]
    ensures forall i :: 0 <= i < |history| ==> Objective(history[i].scores, metric, maximize) == 0.0
  {
    forall i | 0 <= i < |history| ensures Objective(history[i].scores, metric, maximize) == 0.0 {
      ObjectivesReported(t, configs, history, metric, maximize, i);
    }
    assert SomeAboveFloor(history, metric, maximize) by {
      assert Objective(history[0].scores, metric, maximize) > FLOOR;
    }
    var b :| 0 <= b < |history| && FirstMaximum(history, b, metric, maximize) && r.value.best == history[b];
  }

  lemma ReportedBest(
    t: Trial, configs: seq<Config>, history: seq<Evaluation>, r: Result<Outcome, SearchError>, metric: string, maximize: bool)
    requires Searched(t, configs, history, r, metric, maximize) && r.Ok? && Reported(t, metric)
    requires SomeAboveFloor(history, metric, maximize)
    ensures FindsBestMetric(history, r.value.best, metric, maximize)
  {
    var b :| 0 <= b < |history| && FirstMaximum(history, b, metric, maximize) && r.value.best == history[b];
    forall i | 0 <= i < |history|
      ensures metric in history[i].scores && AsGood(history[b].scores[metric], history[i].scores[metric], maximize)
    {
      ObjectivesReported(t, configs, history, metric, maximize, i);
      ObjectivesReported(t, configs, history, metric, maximize, b);
      assert Objective(history[i].scores, metric, maximize) <= Objective(history[b].scores, metric, maximize);
    }
  }

  /** The objective gets off the floor unless latency is minimised and everything took too long. */
  lemma AboveFloorIff(t: Trial, configs: seq<Config>, history: seq<Evaluation>, metric: string, maximize: bool)
    requires Records(t, configs, history) && |history| == |configs| > 0 && Reported(t, metric)
    ensures SomeAboveFloor(history, metric, maximize) <==> maximize || metric == ACCURACY || SomeFast(t, configs)
  {
    if maximize || metric == ACCURACY {
      ObjectivesReported(t, configs, history, metric, maximize, 0);
    } else {
      forall i | 0 <= i < |history|
        ensures Objective(history[i].scores, metric, maximize) > FLOOR <==> Fast(t, i, t.fill(configs[i]))
      {
        FastIff(t, configs, history, i);
      }
    }
  }

  /**
   A finished search over a grid that is not empty finds the best value of its metric exactly when there are test
   cases, the metric is one of the two that are reported and, for smallest latency, some combination is fast enough.
   */
  lemma FindsBestMetricIff(
    t: Trial, configs: seq<Config>, history: seq<Evaluation>, r: Result<Outcome, SearchError>, metric: string, maximize: bool)
    requires Searched(t, configs, history, r, metric, maximize) && r.Ok? && configs != []
    ensures FindsBestMetric(history, r.value.best, metric, maximize) <==>
      Reported(t, metric) && (maximize || metric == ACCURACY || SomeFast(t, configs))
  {
    ObjectivesReported(t, configs, history, metric, maximize, 0);
    if Reported(t, metric) {
      AboveFloorIff(t, configs, history, metric, maximize);
      if SomeAboveFloor(history, metric, maximize) {
        ReportedBest(t, configs, history, r, metric, maximize);
      }
    }
  }
}
