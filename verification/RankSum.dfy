/** The U statistic of the Mann-Whitney test in evaluation/ab_testing.go. */
module RankSum {
  import opened Common
  import opened Sorting

  /** A sample value and the group, 1 or 2, that it comes from. */
  datatype Ranked = Ranked(value: real, group: int)

  ghost predicate Grouped(s: seq<Ranked>) {
    forall i :: 0 <= i < |s| ==> s[i].group in {1, 2}
  }

  function Tagged(sample: seq<real>, group: int): seq<Ranked> {
    seq(|sample|, i requires 0 <= i < |sample| => Ranked(sample[i], group))
  }

  function Combined(sample1: seq<real>, sample2: seq<real>): seq<Ranked> {
    Tagged(sample1, 1) + Tagged(sample2, 2)
  }

  ghost predicate IsSortedCombination(s: seq<Ranked>, sample1: seq<real>, sample2: seq<real>) {
    SortedBy(s, (r: Ranked) => r.value) && multiset(s) == multiset(Combined(sample1, sample2))
  }

  /** The one-based ranks of group 1, added up. */
  function RankTotal(s: seq<Ranked>): nat {
    if s == [] then 0
    else RankTotal(s[..|s| - 1]) + if s[|s| - 1].group == 1 then |s| else 0
  }

  /** How many elements of `s` satisfy a condition, and a general sum over `s`. */
  function Sum(s: seq<Ranked>, f: Ranked -> nat): nat {
    if s == [] then 0 else Sum(s[..|s| - 1], f) + f(s[|s| - 1])
  }

  function InGroup(g: int): Ranked -> nat {
    (r: Ranked) => if r.group == g then 1 else 0
  }

  /** The pairs of positions where a group-2 element stands before a group-1 element. */
  function Inversions(s: seq<Ranked>): nat {
    if s == [] then 0
    else Inversions(s[..|s| - 1]) + if s[|s| - 1].group == 1 then Sum(s[..|s| - 1], InGroup(2)) else 0
  }

  method MannWhitney(sample1: seq<real>, sample2: seq<real>) returns (u: Option<real>, ghost s: seq<Ranked>)
    ensures u.None? <==> sample1 == [] || sample2 == []
    ensures u.Some? ==> IsSortedCombination(s, sample1, sample2) && u.value == Inversions(s) as real
  {
    s := [];
    var n1, n2 := |sample1|, |sample2|;
    if n1 == 0 || n2 == 0 {
      return None, [];
    }
    var combined: seq<Ranked> := [];
    for i := 0 to n1
      invariant combined == Tagged(sample1, 1)[..i]
    {
      combined := combined + [Ranked(sample1[i], 1)];
    }
    for i := 0 to n2
      invariant combined == Tagged(sample1, 1) + Tagged(sample2, 2)[..i]
    {
      combined := combined + [Ranked(sample2[i], 2)];
    }
    assert combined == Combined(sample1, sample2);
    combined := Sort(combined, (r: Ranked) => r.value);
    var r1 := 0.0;
    for i := 0 to |combined|
      invariant r1 == RankTotal(combined[..i]) as real
    {
      assert combined[..i + 1][..i] == combined[..i];
      if combined[i].group == 1 {
        r1 := r1 + (i + 1) as real;
      }
    }
    assert combined[..|combined|] == combined;
    s := combined;
    GroupSizes(sample1, sample2, combined);
    RankSumIdentity(combined);
    u := Some(r1 - (n1 * (n1 + 1)) as real / 2.0);
  }

  // ---------------------------------------------------------------------------------------------
  // The rank-sum identity

  lemma {:induction false} GroupsSplit(s: seq<Ranked>)
    requires Grouped(s)
    ensures Sum(s, InGroup(1)) + Sum(s, InGroup(2)) == |s|
  {
    if s != [] {
      GroupsSplit(s[..|s| - 1]);
    }
  }

  lemma NextTriangle(n: nat)
    ensures (n + 1) * (n + 2) == n * (n + 1) + 2 * (n + 1)
  {}

  /** Twice the rank sum is n1 (n1 + 1) plus twice the inversions, for any sequence, sorted or not. */
  lemma {:induction false} RankSumIdentity(s: seq<Ranked>)
    requires Grouped(s)
    ensures
      var n1 := Sum(s, InGroup(1));
      2 * RankTotal(s) == n1 * (n1 + 1) + 2 * Inversions(s)
  {
    if s != [] {
      var front := s[..|s| - 1];
      var n := Sum(front, InGroup(1));
      RankSumIdentity(front);
      GroupsSplit(front);
      NextTriangle(n);
      if s[|s| - 1].group == 1 {
        assert Sum(s, InGroup(1)) == n + 1;
        assert Inversions(s) == Inversions(front) + (|front| - n);
      } else {
        assert Sum(s, InGroup(1)) == n;
      }
    }
  }

  /** Swapping the roles of the groups gives the complementary statistic. */
  function Mirrored(s: seq<Ranked>): seq<Ranked> {
    seq(|s|, i requires 0 <= i < |s| => s[i].(group := 3 - s[i].group))
  }

  lemma {:induction false} MirrorCounts(s: seq<Ranked>)
    ensures Sum(Mirrored(s), InGroup(1)) == Sum(s, InGroup(2))
    ensures Sum(Mirrored(s), InGroup(2)) == Sum(s, InGroup(1))
  {
    if s != [] {
      MirrorCounts(s[..|s| - 1]);
      assert Mirrored(s)[..|s| - 1] == Mirrored(s[..|s| - 1]);
    }
  }

  /** U1 + U2 = n1 n2; in particular U1 lies between 0 and n1 n2. */
  lemma {:induction false} Complement(s: seq<Ranked>)
    requires Grouped(s)
    ensures Inversions(s) + Inversions(Mirrored(s)) == Sum(s, InGroup(1)) * Sum(s, InGroup(2))
  {
    if s != [] {
      var front := s[..|s| - 1];
      Complement(front);
      MirrorCounts(front);
      assert Mirrored(s)[..|s| - 1] == Mirrored(front);
      var n1, n2, x := Sum(front, InGroup(1)), Sum(front, InGroup(2)), s[|s| - 1];
      if x.group == 1 {
        assert Inversions(s) == Inversions(front) + n2 && Inversions(Mirrored(s)) == Inversions(Mirrored(front));
        OneMore(n1, n2);
      } else {
        assert Inversions(s) == Inversions(front) && Inversions(Mirrored(s)) == Inversions(Mirrored(front)) + n1;
        OneMore(n2, n1);
      }
    }
  }

  // ---------------------------------------------------------------------------------------------
  // Sums do not depend on the order

  lemma {:induction false} SumSplit(s: seq<Ranked>, t: seq<Ranked>, f: Ranked -> nat)
    ensures Sum(s + t, f) == Sum(s, f) + Sum(t, f)
  {
    if t == [] {
      assert s + t == s;
    } else {
      assert (s + t)[..|s + t| - 1] == s + t[..|t| - 1];
      SumSplit(s, t[..|t| - 1], f);
    }
  }

  /** Taking one element out of the middle. */
  lemma {:induction false} SumMiddle(a: seq<Ranked>, x: Ranked, b: seq<Ranked>, f: Ranked -> nat)
    ensures Sum(a + [x] + b, f) == Sum(a + b, f) + f(x)
  {
    SumOne(x, f);
    SumSplit(a, [x], f);
    SumSplit(a + [x], b, f);
    SumSplit(a, b, f);
  }

  lemma {:induction false} SumOne(x: Ranked, f: Ranked -> nat)
    ensures Sum([x], f) == f(x)
  {
    assert [x][..0] == [];
  }

  lemma Cancel(a: multiset<Ranked>, b: multiset<Ranked>, x: Ranked)
    requires a + multiset{x} == b + multiset{x}
    ensures a == b
  {
    assert a == (a + multiset{x}) - multiset{x};
    assert b == (b + multiset{x}) - multiset{x};
  }

  lemma Middle(t: seq<Ranked>, k: nat)
    requires k < |t|
    ensures t == t[..k] + [t[k]] + t[k + 1..]
    ensures multiset(t) == multiset(t[..k] + t[k + 1..]) + multiset{t[k]}
  {
    assert t == t[..k] + [t[k]] + t[k + 1..];
  }

  lemma {:induction false} SumPermutation(s: seq<Ranked>, t: seq<Ranked>, f: Ranked -> nat)
    requires multiset(s) == multiset(t)
    ensures Sum(s, f) == Sum(t, f)
    decreases |s|
  {
    if s == [] {
      assert |t| == |multiset(t)| == 0;
    } else {
      var x, front := s[|s| - 1], s[..|s| - 1];
      assert s == front + [x];
      assert x in multiset(t);
      var k :| 0 <= k < |t| && t[k] == x;
      var rest := t[..k] + t[k + 1..];
      Middle(t, k);
      SumMiddle(t[..k], x, t[k + 1..], f);
      Cancel(multiset(front), multiset(rest), x);
      SumPermutation(front, rest, f);
    }
  }

  lemma {:induction false} SumMonotone(s: seq<Ranked>, f: Ranked -> nat, g: Ranked -> nat)
    requires forall i :: 0 <= i < |s| ==> f(s[i]) <= g(s[i])
    ensures Sum(s, f) <= Sum(s, g)
  {
    if s != [] {
      SumMonotone(s[..|s| - 1], f, g);
    }
  }

  lemma {:induction false} TaggedCounts(sample: seq<real>, group: int, g: int)
    ensures Sum(Tagged(sample, group), InGroup(g)) == if g == group then |sample| else 0
  {
    if sample != [] {
      var front := sample[..|sample| - 1];
      TaggedCounts(front, group, g);
      assert Tagged(sample, group)[..|sample| - 1] == Tagged(front, group);
    }
  }

  lemma GroupSizes(sample1: seq<real>, sample2: seq<real>, s: seq<Ranked>)
    requires multiset(s) == multiset(Combined(sample1, sample2))
    ensures Sum(s, InGroup(1)) == |sample1| && Sum(s, InGroup(2)) == |sample2|
    ensures Grouped(s)
  {
    var c := Combined(sample1, sample2);
    forall g | g in {1, 2}
      ensures Sum(s, InGroup(g)) == if g == 1 then |sample1| else |sample2|
    {
      SumPermutation(s, c, InGroup(g));
      SumSplit(Tagged(sample1, 1), Tagged(sample2, 2), InGroup(g));
      TaggedCounts(sample1, 1, g);
      TaggedCounts(sample2, 2, g);
    }
    forall i | 0 <= i < |s| ensures s[i].group in {1, 2} {
      assert s[i] in multiset(s);
      assert s[i] in c;
    }
  }

  // ---------------------------------------------------------------------------------------------
  // What the statistic counts

  /** How many pairs, one value from each sample, are related. */
  function Pairs(sample1: seq<real>, sample2: seq<real>, rel: (real, real) -> bool): nat {
    if sample1 == [] then 0
    else Pairs(sample1[..|sample1| - 1], sample2, rel) + Related(sample2, sample1[|sample1| - 1], rel)
  }

  function Related(sample: seq<real>, v: real, rel: (real, real) -> bool): nat {
    if sample == [] then 0
    else Related(sample[..|sample| - 1], v, rel) + if rel(sample[|sample| - 1], v) then 1 else 0
  }

  const BELOW: (real, real) -> bool := (y: real, x: real) => y < x
  const NOT_ABOVE: (real, real) -> bool := (y: real, x: real) => y <= x

  function RelatedTo(v: real, rel: (real, real) -> bool): Ranked -> nat {
    (y: Ranked) => if y.group == 2 && rel(y.value, v) then 1 else 0
  }

  function Opponents(s: seq<Ranked>, rel: (real, real) -> bool): Ranked -> nat {
    (x: Ranked) => if x.group == 1 then Sum(s, RelatedTo(x.value, rel)) else 0
  }

  /** The related pairs of a tagged sequence, wherever the two elements stand. */
  function CrossPairs(s: seq<Ranked>, rel: (real, real) -> bool): nat {
    Sum(s, Opponents(s, rel))
  }

  lemma CrossPairsPermutation(s: seq<Ranked>, t: seq<Ranked>, rel: (real, real) -> bool)
    requires multiset(s) == multiset(t)
    ensures CrossPairs(s, rel) == CrossPairs(t, rel)
  {
    forall x: Ranked ensures Opponents(s, rel)(x) == Opponents(t, rel)(x) {
      SumPermutation(s, t, RelatedTo(x.value, rel));
    }
    SumMonotone(s, Opponents(s, rel), Opponents(t, rel));
    SumMonotone(s, Opponents(t, rel), Opponents(s, rel));
    SumPermutation(s, t, Opponents(t, rel));
  }

  lemma {:induction false} TaggedRelated(sample: seq<real>, group: int, v: real, rel: (real, real) -> bool)
    ensures Sum(Tagged(sample, group), RelatedTo(v, rel)) == if group == 2 then Related(sample, v, rel) else 0
  {
    if sample != [] {
      var front := sample[..|sample| - 1];
      TaggedRelated(front, group, v, rel);
      assert Tagged(sample, group)[..|sample| - 1] == Tagged(front, group);
    }
  }

  lemma CombinedRelated(sample1: seq<real>, sample2: seq<real>, v: real, rel: (real, real) -> bool)
    ensures Sum(Combined(sample1, sample2), RelatedTo(v, rel)) == Related(sample2, v, rel)
  {
    SumSplit(Tagged(sample1, 1), Tagged(sample2, 2), RelatedTo(v, rel));
    TaggedRelated(sample1, 1, v, rel);
    TaggedRelated(sample2, 2, v, rel);
  }

  lemma {:induction false} TaggedOpponents(part: seq<real>, group: int, sample1: seq<real>, sample2: seq<real>, rel: (real, real) -> bool)
    ensures
      Sum(Tagged(part, group), Opponents(Combined(sample1, sample2), rel))
        == if group == 1 then Pairs(part, sample2, rel) else 0
  {
    if part != [] {
      var front := part[..|part| - 1];
      TaggedOpponents(front, group, sample1, sample2, rel);
      assert Tagged(part, group)[..|part| - 1] == Tagged(front, group);
      CombinedRelated(sample1, sample2, part[|part| - 1], rel);
    }
  }

  lemma CombinedPairs(sample1: seq<real>, sample2: seq<real>, rel: (real, real) -> bool)
    ensures CrossPairs(Combined(sample1, sample2), rel) == Pairs(sample1, sample2, rel)
  {
    SumSplit(Tagged(sample1, 1), Tagged(sample2, 2), Opponents(Combined(sample1, sample2), rel));
    TaggedOpponents(sample1, 1, sample1, sample2, rel);
    TaggedOpponents(sample2, 2, sample1, sample2, rel);
  }

  /** One element more at the end of a sorted sequence. */
  lemma LastElement(s: seq<Ranked>)
    requires s != [] && SortedBy(s, (r: Ranked) => r.value)
    ensures
      var front, x := s[..|s| - 1], s[|s| - 1];
      && SortedBy(front, (r: Ranked) => r.value)
      && CrossPairs(s, BELOW) <= CrossPairs(front, BELOW) + (if x.group == 1 then Sum(front, InGroup(2)) else 0)
      && CrossPairs(s, NOT_ABOVE) >= CrossPairs(front, NOT_ABOVE) + (if x.group == 1 then Sum(front, InGroup(2)) else 0)
  {
    var front, x := s[..|s| - 1], s[|s| - 1];
    var key := (r: Ranked) => r.value;
    assert forall i :: 0 <= i < |front| ==> front[i] == s[i] && key(s[i]) <= key(x);
    SumMonotone(front, Opponents(s, BELOW), Opponents(front, BELOW));
    SumMonotone(front, Opponents(front, NOT_ABOVE), Opponents(s, NOT_ABOVE));
    if x.group == 1 {
      SumMonotone(front, RelatedTo(x.value, BELOW), InGroup(2));
      SumMonotone(front, InGroup(2), RelatedTo(x.value, NOT_ABOVE));
    }
  }

  lemma {:induction false} InversionsBetween(s: seq<Ranked>)
    requires SortedBy(s, (r: Ranked) => r.value)
    ensures CrossPairs(s, BELOW) <= Inversions(s) <= CrossPairs(s, NOT_ABOVE)
  {
    if s != [] {
      LastElement(s);
      InversionsBetween(s[..|s| - 1]);
    }
  }

  lemma {:induction false} RelatedTies(sample: seq<real>, v: real)
    requires v !in sample
    ensures Related(sample, v, BELOW) == Related(sample, v, NOT_ABOVE)
  {
    if sample != [] {
      RelatedTies(sample[..|sample| - 1], v);
    }
  }

  lemma {:induction false} PairsWithoutTies(sample1: seq<real>, sample2: seq<real>)
    requires forall x :: x in sample1 ==> x !in sample2
    ensures Pairs(sample1, sample2, BELOW) == Pairs(sample1, sample2, NOT_ABOVE)
  {
    if sample1 != [] {
      PairsWithoutTies(sample1[..|sample1| - 1], sample2);
      RelatedTies(sample2, sample1[|sample1| - 1]);
    }
  }

  /**
   Whatever order the sort leaves ties in, U counts every pair where the sample-1 value is larger and no
   pair where it is smaller; it lies between 0 and n1 n2; and without ties it is exactly the number of
   pairs where the sample-1 value is larger.
   */
  lemma UStatistic(s: seq<Ranked>, sample1: seq<real>, sample2: seq<real>)
    requires IsSortedCombination(s, sample1, sample2)
    ensures Pairs(sample1, sample2, BELOW) <= Inversions(s) <= Pairs(sample1, sample2, NOT_ABOVE)
    ensures Inversions(s) <= |sample1| * |sample2|
    ensures (forall x :: x in sample1 ==> x !in sample2) ==> Inversions(s) == Pairs(sample1, sample2, BELOW)
  {
    InversionsBetween(s);
    CrossPairsPermutation(s, Combined(sample1, sample2), BELOW);
    CrossPairsPermutation(s, Combined(sample1, sample2), NOT_ABOVE);
    CombinedPairs(sample1, sample2, BELOW);
    CombinedPairs(sample1, sample2, NOT_ABOVE);
    GroupSizes(sample1, sample2, s);
    Complement(s);
    if forall x :: x in sample1 ==> x !in sample2 {
      PairsWithoutTies(sample1, sample2);
    }
  }

  // ---------------------------------------------------------------------------------------------
  // Ties

  lemma {:induction false} SortedExists(c: seq<Ranked>) returns (s: seq<Ranked>)
    ensures SortedBy(s, (r: Ranked) => r.value) && multiset(s) == multiset(c)
  {
    var key := (r: Ranked) => r.value;
    if c == [] {
      return [];
    }
    var x := c[|c| - 1];
    var rest := SortedExists(c[..|c| - 1]);
    assert c == c[..|c| - 1] + [x];
    var i := Place(rest, x);
    InsertedSorted(rest, i, x, key);
    assert rest == rest[..i] + rest[i..];
    s := rest[..i] + [x] + rest[i..];
  }

  lemma {:induction false} Place(s: seq<Ranked>, x: Ranked) returns (i: nat)
    requires SortedBy(s, (r: Ranked) => r.value)
    ensures i <= |s| && (forall j :: 0 <= j < i ==> s[j].value <= x.value) && (i < |s| ==> x.value <= s[i].value)
  {
    var key := (r: Ranked) => r.value;
    if s == [] || key(s[|s| - 1]) <= key(x) {
      assert forall j :: 0 <= j < |s| ==> key(s[j]) <= key(s[|s| - 1]);
      return |s|;
    }
    i := Place(s[..|s| - 1], x);
  }

  /** Two equal values of different groups have, somewhere between them, two such neighbours. */
  lemma {:induction false} TiedNeighbours(s: seq<Ranked>, p: nat, q: nat) returns (i: nat)
    requires SortedBy(s, (r: Ranked) => r.value)
    requires p < q < |s| && s[p].value == s[q].value && s[p].group != s[q].group
    ensures i + 1 < |s| && s[i].value == s[i + 1].value && s[i].group != s[i + 1].group
    decreases q - p
  {
    var key := (r: Ranked) => r.value;
    assert p + 1 == q || key(s[p + 1]) <= key(s[q]);
    assert key(s[p]) <= key(s[p + 1]);
    if s[p].group != s[p + 1].group {
      return p;
    }
    i := TiedNeighbours(s, p + 1, q);
  }

  /** What follows adds as many inversions to one start as to another with as many elements of group 2. */
  lemma {:induction false} SameSuffix(u: seq<Ranked>, v: seq<Ranked>, w: seq<Ranked>)
    requires Sum(u, InGroup(2)) == Sum(v, InGroup(2))
    ensures Inversions(u + w) - Inversions(u) == Inversions(v + w) - Inversions(v)
  {
    if w == [] {
      assert u + w == u && v + w == v;
    } else {
      var front := w[..|w| - 1];
      SameSuffix(u, v, front);
      SumSplit(u, front, InGroup(2));
      SumSplit(v, front, InGroup(2));
      assert (u + w)[..|u + w| - 1] == u + front && (v + w)[..|v + w| - 1] == v + front;
    }
  }

  lemma PairInversions(u: seq<Ranked>, x: Ranked, y: Ranked)
    ensures
      Inversions(u + [x, y]) == Inversions(u) + (if x.group == 1 then Sum(u, InGroup(2)) else 0)
        + (if y.group == 1 then Sum(u, InGroup(2)) + InGroup(2)(x) else 0)
    ensures Sum(u + [x, y], InGroup(2)) == Sum(u, InGroup(2)) + InGroup(2)(x) + InGroup(2)(y)
  {
    assert (u + [x, y])[..|u| + 1] == u + [x];
    assert (u + [x])[..|u|] == u;
  }

  /** Swapping neighbours of different groups moves the statistic by exactly one. */
  lemma SwapMoves(u: seq<Ranked>, x: Ranked, y: Ranked, w: seq<Ranked>)
    requires x.group in {1, 2} && y.group in {1, 2} && x.group != y.group
    ensures Inversions(u + [x, y] + w) != Inversions(u + [y, x] + w)
  {
    PairInversions(u, x, y);
    PairInversions(u, y, x);
    SameSuffix(u + [x, y], u + [y, x], w);
  }

  /** The same values and groups in another sorted order. */
  lemma SwappedCombination(u: seq<Ranked>, x: Ranked, y: Ranked, w: seq<Ranked>, sample1: seq<real>, sample2: seq<real>)
    requires IsSortedCombination(u + [x, y] + w, sample1, sample2) && x.value == y.value
    ensures IsSortedCombination(u + [y, x] + w, sample1, sample2)
  {
    var s, t, key := u + [x, y] + w, u + [y, x] + w, (r: Ranked) => r.value;
    forall i | 0 <= i < |s| ensures key(t[i]) == key(s[i]) {}
    forall i, j | 0 <= i < j < |t| ensures key(t[i]) <= key(t[j]) {
      assert key(s[i]) <= key(s[j]);
    }
    assert multiset([x, y]) == multiset([y, x]);
  }

  lemma TiedPlaces(s: seq<Ranked>, sample1: seq<real>, sample2: seq<real>, v: real) returns (p: nat, q: nat)
    requires IsSortedCombination(s, sample1, sample2) && v in sample1 && v in sample2
    ensures p < |s| && q < |s| && s[p] == Ranked(v, 1) && s[q] == Ranked(v, 2)
  {
    var i :| 0 <= i < |sample1| && sample1[i] == v;
    var j :| 0 <= j < |sample2| && sample2[j] == v;
    var c := Combined(sample1, sample2);
    assert c[i] == Ranked(v, 1) && c[|sample1| + j] == Ranked(v, 2);
    assert Ranked(v, 1) in multiset(c) && Ranked(v, 2) in multiset(c);
    assert Ranked(v, 1) in multiset(s) && Ranked(v, 2) in multiset(s);
    p :| 0 <= p < |s| && s[p] == Ranked(v, 1);
    q :| 0 <= q < |s| && s[q] == Ranked(v, 2);
  }

  /** Whenever the samples share a value, two sorted orders give different statistics. */
  lemma TiesAreAmbiguous(sample1: seq<real>, sample2: seq<real>, v: real) returns (s: seq<Ranked>, t: seq<Ranked>)
    requires v in sample1 && v in sample2
    ensures IsSortedCombination(s, sample1, sample2) && IsSortedCombination(t, sample1, sample2)
    ensures Inversions(s) != Inversions(t)
  {
    s := SortedExists(Combined(sample1, sample2));
    var p, q := TiedPlaces(s, sample1, sample2, v);
    var i := TiedNeighbours(s, if p < q then p else q, if p < q then q else p);
    var u, x, y, w := s[..i], s[i], s[i + 1], s[i + 2..];
    assert s == u + [x, y] + w;
    GroupSizes(sample1, sample2, s);
    SwappedCombination(u, x, y, w, sample1, sample2);
    SwapMoves(u, x, y, w);
    t := u + [y, x] + w;
  }

  ghost predicate Determined(sample1: seq<real>, sample2: seq<real>) {
    forall s, t :: IsSortedCombination(s, sample1, sample2) && IsSortedCombination(t, sample1, sample2) ==>
      Inversions(s) == Inversions(t)
  }

  /** The samples determine the statistic, whatever the sort does with equal values, exactly when they share none. */
  lemma DeterminedIff(sample1: seq<real>, sample2: seq<real>)
    ensures Determined(sample1, sample2) <==> forall x :: x in sample1 ==> x !in sample2
  {
    if forall x :: x in sample1 ==> x !in sample2 {
      forall s, t | IsSortedCombination(s, sample1, sample2) && IsSortedCombination(t, sample1, sample2)
        ensures Inversions(s) == Inversions(t)
      {
        UStatistic(s, sample1, sample2);
        UStatistic(t, sample1, sample2);
      }
    } else {
      var v :| v in sample1 && v in sample2;
      var s, t := TiesAreAmbiguous(sample1, sample2, v);
    }
  }
}
