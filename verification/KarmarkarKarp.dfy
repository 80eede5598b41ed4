/** k-way set differencing (src/prime_rl/trainer/utils.py:163-222). */
module KarmarkarKarp {
  import opened Arithmetic
  import opened Sequences

  // ---- Partitions of item indices and their loads ----

  function Indices(n: nat): seq<int> { seq(n, i => i) }

  predicate InRange(items: seq<int>, n: nat) {
    forall j :: 0 <= j < |items| ==> 0 <= items[j] < n
  }

  predicate AllInRange(parts: seq<seq<int>>, n: nat) {
    forall i :: 0 <= i < |parts| ==> InRange(parts[i], n)
  }

  /** Total weight of the listed items. */
  function Load(weights: seq<int>, items: seq<int>): int
    requires InRange(items, |weights|)
  {
    if items == [] then 0 else weights[items[0]] + Load(weights, items[1..])
  }

  function Loads(weights: seq<int>, parts: seq<seq<int>>): (loads: seq<int>)
    requires AllInRange(parts, |weights|)
  {
    seq(|parts|, i requires 0 <= i < |parts| => Load(weights, parts[i]))
  }

  /** Every index occurs in exactly one part, exactly once. */
  ghost predicate Covers(parts: seq<seq<int>>, n: nat) {
    Contents(parts) == multiset(Indices(n))
  }

  lemma CoversInRange(parts: seq<seq<int>>, n: nat)
    requires Covers(parts, n)
    ensures AllInRange(parts, n)
  {
    forall i, j | 0 <= i < |parts| && 0 <= j < |parts[i]|
      ensures 0 <= parts[i][j] < n
    {
      PartIsHeld(parts, i, j);
      assert parts[i][j] in Indices(n);
    }
  }

  lemma {:induction false} LoadConcat(weights: seq<int>, a: seq<int>, b: seq<int>)
    requires InRange(a, |weights|) && InRange(b, |weights|)
    ensures InRange(a + b, |weights|)
    ensures Load(weights, a + b) == Load(weights, a) + Load(weights, b)
  {
    if a == [] {
      assert a + b == b;
    } else {
      assert (a + b)[1..] == a[1..] + b;
      LoadConcat(weights, a[1..], b);
    }
  }

  /** The load of a part depends on its contents only. */
  lemma {:induction false} LoadOfContents(weights: seq<int>, a: seq<int>, b: seq<int>)
    requires InRange(a, |weights|) && InRange(b, |weights|)
    requires multiset(a) == multiset(b)
    ensures Load(weights, a) == Load(weights, b)
  {
    if a == [] {
      assert |multiset(b)| == 0;
    } else {
      var i := Counterpart(a, b);
      assert b == b[..i] + ([b[i]] + b[i + 1..]);
      LoadConcat(weights, b[..i], [b[i]] + b[i + 1..]);
      LoadConcat(weights, [b[i]], b[i + 1..]);
      LoadConcat(weights, b[..i], b[i + 1..]);
      LoadOfContents(weights, a[1..], Without(b, i));
    }
  }

  // ---- Weighted sets and their order ----

  /** Python's order on lists of ints. */
  predicate ListLe(a: seq<int>, b: seq<int>) {
    a == [] || (b != [] && (a[0] < b[0] || (a[0] == b[0] && ListLe(a[1..], b[1..]))))
  }

  lemma {:induction false} ListLeTotal(a: seq<int>, b: seq<int>)
    ensures ListLe(a, b) || ListLe(b, a)
  {
    if a != [] && b != [] { ListLeTotal(a[1..], b[1..]); }
  }

  lemma {:induction false} ListLeTransitive(a: seq<int>, b: seq<int>, c: seq<int>)
    requires ListLe(a, b) && ListLe(b, c)
    ensures ListLe(a, c)
  {
    if a != [] && a[0] == b[0] == c[0] { ListLeTransitive(a[1..], b[1..], c[1..]); }
  }

  datatype WeightedSet = WeightedSet(total: int, items: seq<int>) {
    function Add(idx: int, weight: int): WeightedSet {
      WeightedSet(total + weight, items + [idx])
    }

    function Merge(other: WeightedSet): WeightedSet {
      WeightedSet(total + other.total, items + other.items)
    }

    /** `other <= this`: the order a reverse sort leaves the sets in. */
    predicate AtLeast(other: WeightedSet) {
      if total != other.total then other.total < total else ListLe(other.items, items)
    }
  }

  function Heaviest(): (WeightedSet, WeightedSet) -> bool {
    (a: WeightedSet, b: WeightedSet) => a.AtLeast(b)
  }

  lemma HeaviestIsOrder()
    ensures TotalOrder(Heaviest())
  {
    forall a: WeightedSet, b: WeightedSet
      ensures a.AtLeast(b) || b.AtLeast(a)
    {
      ListLeTotal(a.items, b.items);
    }
    forall a: WeightedSet, b: WeightedSet, c: WeightedSet | a.AtLeast(b) && b.AtLeast(c)
      ensures a.AtLeast(c)
    {
      if a.total == b.total == c.total { ListLeTransitive(c.items, b.items, a.items); }
    }
  }

  function ItemLists(sets: seq<WeightedSet>): seq<seq<int>> {
    seq(|sets|, i requires 0 <= i < |sets| => sets[i].items)
  }

  // ---- States ----

  /** A state of `k` sets of equally many items, heaviest first, whose totals are the
      weights of their items and differ by at most `bound`. */
  ghost predicate GoodState(weights: seq<int>, k: nat, bound: int, sets: seq<WeightedSet>) {
    && |sets| == k > 0
    && (forall i :: 0 <= i < k ==> |sets[i].items| == |sets[0].items|)
    && (forall i :: 0 <= i < k ==> InRange(sets[i].items, |weights|) && sets[i].total == Load(weights, sets[i].items))
    && (forall i, j :: 0 <= i < j < k ==> sets[j].total <= sets[i].total)
    && sets[0].total - sets[k - 1].total <= bound
  }

  /** Heaviest set of `a` with the lightest of `b`, and so on. */
  function PairUp(a: seq<WeightedSet>, b: seq<WeightedSet>): seq<WeightedSet>
    requires |a| == |b|
  {
    seq(|a|, i requires 0 <= i < |a| => a[i].Merge(b[|a| - 1 - i]))
  }

  function MergeSets(a: seq<WeightedSet>, b: seq<WeightedSet>): seq<WeightedSet>
    requires |a| == |b|
  {
    Sorted(Heaviest(), PairUp(a, b))
  }

  /** Merging sorted states in opposite orders never spreads the totals beyond the larger spread. */
  lemma PairUpSpread(a: seq<WeightedSet>, b: seq<WeightedSet>, da: int, db: int, i: nat, j: nat)
    requires |a| == |b| && i < |a| && j < |a|
    requires forall x, y :: 0 <= x < y < |a| ==> 0 <= a[x].total - a[y].total <= da
    requires forall x, y :: 0 <= x < y < |a| ==> 0 <= b[x].total - b[y].total <= db
    requires 0 <= da && 0 <= db
    ensures PairUp(a, b)[i].total - PairUp(a, b)[j].total <= if da >= db then da else db
  {
    var k := |a|;
    assert i < j ==> k - 1 - j < k - 1 - i;
    assert j < i ==> k - 1 - i < k - 1 - j;
  }

  lemma {:induction false} ItemsPermuted(s: seq<WeightedSet>, t: seq<WeightedSet>)
    requires multiset(s) == multiset(t)
    ensures Contents(ItemLists(s)) == Contents(ItemLists(t))
  {
    if s == [] {
      assert |multiset(t)| == 0;
    } else {
      var i := Counterpart(s, t);
      var rest := Without(t, i);
      ItemsPermuted(s[1..], rest);
      ContentsSplit(ItemLists(t), i);
      assert ItemLists(rest) == Without(ItemLists(t), i);
      assert ItemLists(s)[1..] == ItemLists(s[1..]);
    }
  }

  lemma {:induction false} PairedItems(a: seq<seq<int>>, b: seq<seq<int>>, c: seq<seq<int>>)
    requires |a| == |b| == |c|
    requires forall i :: 0 <= i < |a| ==> c[i] == a[i] + b[|a| - 1 - i]
    ensures Contents(c) == Contents(a) + Contents(b)
  {
    if a != [] {
      var last := |a| - 1;
      PairedItems(a[1..], b[..last], c[1..]);
      ContentsSplit(b, last);
      assert Without(b, last) == b[..last];
    }
  }

  /** The result of sorting `s` by weight keeps what matters about each set. */
  lemma SortedState(weights: seq<int>, k: nat, bound: int, s: seq<WeightedSet>, c: nat)
    requires |s| == k > 0
    requires forall i :: 0 <= i < k ==> |s[i].items| == c
    requires forall i :: 0 <= i < k ==> InRange(s[i].items, |weights|) && s[i].total == Load(weights, s[i].items)
    requires forall i, j :: 0 <= i < k && 0 <= j < k ==> s[i].total - s[j].total <= bound
    ensures GoodState(weights, k, bound, Sorted(Heaviest(), s))
    ensures ItemsOf(Sorted(Heaviest(), s)) == ItemsOf(s)
  {
    var t := Sorted(Heaviest(), s);
    SortedKeeps(Heaviest(), s);
    HeaviestIsOrder();
    SortedSorts(Heaviest(), s);
    ItemsPermuted(t, s);
    forall i | 0 <= i < k
      ensures t[i] in s
    {
      assert t[i] in multiset(t);
    }
    assert forall i, j :: 0 <= i < j < k ==> Heaviest()(t[i], t[j]);
  }

  lemma MergedSet(weights: seq<int>, a: WeightedSet, b: WeightedSet)
    requires InRange(a.items, |weights|) && a.total == Load(weights, a.items)
    requires InRange(b.items, |weights|) && b.total == Load(weights, b.items)
    ensures var p := a.Merge(b); InRange(p.items, |weights|) && p.total == Load(weights, p.items)
  {
    LoadConcat(weights, a.items, b.items);
  }

  lemma PairedItemsOf(a: seq<WeightedSet>, b: seq<WeightedSet>)
    requires |a| == |b|
    ensures ItemsOf(PairUp(a, b)) == ItemsOf(a) + ItemsOf(b)
  {
    PairedItems(ItemLists(a), ItemLists(b), ItemLists(PairUp(a, b)));
  }

  lemma MergeKeeps(weights: seq<int>, k: nat, bound: int, a: seq<WeightedSet>, b: seq<WeightedSet>)
    requires GoodState(weights, k, bound, a) && GoodState(weights, k, bound, b)
    ensures GoodState(weights, k, bound, MergeSets(a, b))
    ensures ItemsOf(MergeSets(a, b)) == ItemsOf(a) + ItemsOf(b)
  {
    var s := PairUp(a, b);
    forall i | 0 <= i < k
      ensures |s[i].items| == |a[0].items| + |b[0].items|
      ensures InRange(s[i].items, |weights|) && s[i].total == Load(weights, s[i].items)
    {
      MergedSet(weights, a[i], b[k - 1 - i]);
    }
    forall i, j | 0 <= i < k && 0 <= j < k
      ensures s[i].total - s[j].total <= bound
    {
      PairUpSpread(a, b, bound, bound, i, j);
    }
    PairedItemsOf(a, b);
    SortedState(weights, k, bound, s, |a[0].items| + |b[0].items|);
  }

  // ---- The weights in sorted chunks ----

  type Weighted = (int, int)

  function LighterFirst(): (Weighted, Weighted) -> bool {
    (a: Weighted, b: Weighted) => a.0 < b.0 || (a.0 == b.0 && a.1 <= b.1)
  }

  /** `sorted((weight, idx) for idx, weight in enumerate(weights))` */
  function WeightedIndices(weights: seq<int>): (r: seq<Weighted>)
    ensures |r| == |weights|
  {
    SortedKeeps(LighterFirst(), seq(|weights|, i requires 0 <= i < |weights| => (weights[i], i)));
    Sorted(LighterFirst(), seq(|weights|, i requires 0 <= i < |weights| => (weights[i], i)))
  }

  /** The largest weight difference inside one run of `k` consecutive sorted weights. */
  function ChunkSpread(sorted: seq<Weighted>, k: nat): (d: int)
    requires k > 0 && |sorted| % k == 0
    decreases |sorted|
  {
    if |sorted| == 0 then 0
    else
      assert |sorted| >= k;
      DropChunk(|sorted|, k);
      var rest := ChunkSpread(sorted[k..], k);
      var here := sorted[k - 1].0 - sorted[0].0;
      if here >= rest then here else rest
  }

  lemma DropChunk(n: nat, k: nat)
    requires k > 0 && n >= k && n % k == 0
    ensures (n - k) % k == 0
    ensures (n - k) / k == n / k - 1
  {
    assert n == k * (n / k);
    var q := n / k - 1;
    assert n - k == k * q;
    QuotientIs(n - k, k, q);
  }

  lemma QuotientIs(n: nat, k: nat, q: int)
    requires k > 0 && n == k * q
    ensures q == n / k && n % k == 0
  {
    var d := n / k - q;
    assert n == k * (n / k) + n % k;
    assert k * d == k * (n / k) - k * q;
    assert 0 - k < k * d <= 0;
    MulSteps(k, d);
  }

  lemma WeightedIndicesAre(weights: seq<int>)
    ensures forall i :: 0 <= i < |weights| ==>
      var p := WeightedIndices(weights)[i]; 0 <= p.1 < |weights| && p.0 == weights[p.1]
    ensures SortedBy(LighterFirst(), WeightedIndices(weights))
  {
    var raw := seq(|weights|, i requires 0 <= i < |weights| => (weights[i], i));
    SortedKeeps(LighterFirst(), raw);
    SortedSorts(LighterFirst(), raw);
    forall i | 0 <= i < |weights|
      ensures var p := WeightedIndices(weights)[i]; 0 <= p.1 < |weights| && p.0 == weights[p.1]
    {
      assert WeightedIndices(weights)[i] in multiset(raw);
    }
  }

  /** No chunk spread exceeds the spread of all the weights. */
  lemma {:induction false} ChunkSpreadAtMost(sorted: seq<Weighted>, k: nat, lo: int, hi: int)
    requires k > 0 && |sorted| % k == 0
    requires lo <= hi && forall i :: 0 <= i < |sorted| ==> lo <= sorted[i].0 <= hi
    ensures ChunkSpread(sorted, k) <= hi - lo
    decreases |sorted|
  {
    if |sorted| > 0 {
      DropChunk(|sorted|, k);
      ChunkSpreadAtMost(sorted[k..], k, lo, hi);
    }
  }

  function SecondOf(items: seq<Weighted>): seq<int> {
    seq(|items|, i requires 0 <= i < |items| => items[i].1)
  }

  lemma {:induction false} SecondOfPermuted(s: seq<Weighted>, t: seq<Weighted>)
    requires multiset(s) == multiset(t)
    ensures multiset(SecondOf(s)) == multiset(SecondOf(t))
  {
    if s == [] {
      assert |multiset(t)| == 0;
    } else {
      var i := Counterpart(s, t);
      var rest := Without(t, i);
      SecondOfPermuted(s[1..], rest);
      assert SecondOf(s) == [s[0].1] + SecondOf(s[1..]);
      assert SecondOf(rest) == Without(SecondOf(t), i);
      WithoutContents(SecondOf(t), i);
    }
  }

  lemma WeightedIndicesCover(weights: seq<int>)
    ensures multiset(SecondOf(WeightedIndices(weights))) == multiset(Indices(|weights|))
  {
    var raw := seq(|weights|, i requires 0 <= i < |weights| => (weights[i], i));
    SortedKeeps(LighterFirst(), raw);
    SecondOfPermuted(WeightedIndices(weights), raw);
    assert SecondOf(raw) == Indices(|weights|);
  }

  // ---- The state object and the heap loop ----

  class KKState {
    var sets: seq<WeightedSet>

    constructor (items: seq<Weighted>, k: nat)
      requires |items| <= k
      ensures sets == StateOf(items, k)
    {
      var filled := seq(k, i => WeightedSet(0, []));
      var i := 0;
      while i < |items|
        invariant 0 <= i <= |items| && |filled| == k
        invariant forall j :: 0 <= j < i ==> filled[j] == WeightedSet(0, []).Add(items[j].1, items[j].0)
        invariant forall j :: i <= j < k ==> filled[j] == WeightedSet(0, [])
      {
        filled := filled[i := filled[i].Add(items[i].1, items[i].0)];
        i := i + 1;
      }
      assert filled == InitialSets(items, k);
      sets := Sorted(Heaviest(), filled);
    }

    method Merge(other: KKState)
      requires other != this && |sets| == |other.sets|
      modifies this
      ensures sets == MergeSets(old(sets), old(other.sets))
    {
      var k := |sets|;
      var i := 0;
      while i < k
        invariant 0 <= i <= k && |sets| == k
        invariant forall j :: 0 <= j < i ==> sets[j] == old(sets)[j].Merge(other.sets[k - 1 - j])
        invariant forall j :: i <= j < k ==> sets[j] == old(sets)[j]
        invariant other.sets == old(other.sets)
      {
        sets := sets[i := sets[i].Merge(other.sets[k - 1 - i])];
        i := i + 1;
      }
      assert sets == PairUp(old(sets), old(other.sets));
      sets := Sorted(Heaviest(), sets);
    }

    method Partitions() returns (parts: seq<seq<int>>)
      ensures |parts| == |sets|
      ensures forall i :: 0 <= i < |sets| ==> multiset(parts[i]) == multiset(sets[i].items)
      ensures forall i :: 0 <= i < |sets| ==> SortedBy(Ascending(), parts[i])
    {
      parts := [];
      while |parts| < |sets|
        invariant |parts| <= |sets|
        invariant forall i :: 0 <= i < |parts| ==> multiset(parts[i]) == multiset(sets[i].items)
        invariant forall i :: 0 <= i < |parts| ==> SortedBy(Ascending(), parts[i])
      {
        var items := sets[|parts|].items;
        SortedKeeps(Ascending(), items);
        SortedSorts(Ascending(), items);
        parts := parts + [Sorted(Ascending(), items)];
      }
    }
  }

  function Ascending(): (int, int) -> bool { (a: int, b: int) => a <= b }

  function InitialSets(items: seq<Weighted>, k: nat): seq<WeightedSet> {
    seq(k, i => if 0 <= i < |items| then WeightedSet(0, []).Add(items[i].1, items[i].0) else WeightedSet(0, []))
  }

  lemma InitialState(weights: seq<int>, k: nat, bound: int, items: seq<Weighted>)
    requires |items| == k > 0
    requires forall i :: 0 <= i < k ==> 0 <= items[i].1 < |weights| && items[i].0 == weights[items[i].1]
    requires SortedBy(LighterFirst(), items)
    requires items[k - 1].0 - items[0].0 <= bound
    ensures GoodState(weights, k, bound, StateOf(items, k))
    ensures ItemsOf(StateOf(items, k)) == multiset(SecondOf(items))
  {
    var s := InitialSets(items, k);
    assert forall i, j :: 0 <= i < j < k ==> LighterFirst()(items[i], items[j]);
    forall i | 0 <= i < k
      ensures |s[i].items| == 1 && InRange(s[i].items, |weights|) && s[i].total == Load(weights, s[i].items)
    {
      assert s[i].items == [items[i].1];
    }
    SortedState(weights, k, bound, s, 1);
    SingletonContents(SecondOf(items), ItemLists(s));
  }

  lemma {:induction false} SingletonContents(items: seq<int>, parts: seq<seq<int>>)
    requires |parts| == |items| && forall i :: 0 <= i < |items| ==> parts[i] == [items[i]]
    ensures Contents(parts) == multiset(items)
  {
    if items != [] {
      SingletonContents(items[1..], parts[1..]);
      assert items == [items[0]] + items[1..];
    }
  }

  function ItemsOf(sets: seq<WeightedSet>): multiset<int> {
    Contents(ItemLists(sets))
  }

  /** What all the states on the heap hold together. */
  function HeapItems(heap: seq<seq<WeightedSet>>): multiset<int> {
    Union(seq(|heap|, i requires 0 <= i < |heap| => ItemsOf(heap[i])))
  }

  lemma HeapItemsConcat(a: seq<seq<WeightedSet>>, b: seq<WeightedSet>)
    ensures HeapItems(a + [b]) == HeapItems(a) + ItemsOf(b)
  {
    var h := a + [b];
    var held := seq(|h|, i requires 0 <= i < |h| => ItemsOf(h[i]));
    var before := seq(|a|, i requires 0 <= i < |a| => ItemsOf(a[i]));
    assert held == before + [ItemsOf(b)];
    UnionConcat(before, [ItemsOf(b)]);
    assert Union([ItemsOf(b)]) == ItemsOf(b);
  }

  lemma HeapItemsSplit(heap: seq<seq<WeightedSet>>, i: nat)
    requires i < |heap|
    ensures HeapItems(heap) == ItemsOf(heap[i]) + HeapItems(Without(heap, i))
  {
    var rest := Without(heap, i);
    var held := seq(|heap|, j requires 0 <= j < |heap| => ItemsOf(heap[j]));
    UnionSplit(held, i);
    assert Without(held, i) == seq(|rest|, j requires 0 <= j < |rest| => ItemsOf(rest[j]));
  }

  ghost predicate Distinct(states: seq<KKState>) {
    forall i, j :: 0 <= i < j < |states| ==> states[i] != states[j]
  }

  /** The states on the heap are separate objects with the given sets. */
  ghost predicate Holds(states: seq<KKState>, heap: seq<seq<WeightedSet>>)
    reads states
  {
    && |states| == |heap|
    && Distinct(states)
    && forall i :: 0 <= i < |states| ==> states[i].sets == heap[i]
  }

  ghost predicate SameWidth(heap: seq<seq<WeightedSet>>, k: nat) {
    forall i :: 0 <= i < |heap| ==> |heap[i]| == k
  }

  ghost predicate GoodHeap(weights: seq<int>, k: nat, bound: int, heap: seq<seq<WeightedSet>>) {
    SameWidth(heap, k) && forall i {:trigger GoodState(weights, k, bound, heap[i])} ::
      0 <= i < |heap| ==> GoodState(weights, k, bound, heap[i])
  }

  ghost predicate ValidPairs(weights: seq<int>, sorted: seq<Weighted>) {
    && SortedBy(LighterFirst(), sorted)
    && forall i :: 0 <= i < |sorted| ==> 0 <= sorted[i].1 < |weights| && sorted[i].0 == weights[sorted[i].1]
  }

  function StateOf(items: seq<Weighted>, k: nat): seq<WeightedSet> {
    Sorted(Heaviest(), InitialSets(items, k))
  }

  /** One state per chunk of `k` sorted weights. */
  function ChunkStates(sorted: seq<Weighted>, k: nat): seq<seq<WeightedSet>>
    requires k > 0 && |sorted| % k == 0
    decreases |sorted|
  {
    if |sorted| == 0 then []
    else
      DropChunk(|sorted|, k);
      [StateOf(sorted[..k], k)] + ChunkStates(sorted[k..], k)
  }

  lemma {:induction false} ChunkStatesGood(weights: seq<int>, k: nat, bound: int, sorted: seq<Weighted>)
    requires k > 0 && |sorted| % k == 0
    requires ValidPairs(weights, sorted) && ChunkSpread(sorted, k) <= bound
    ensures GoodHeap(weights, k, bound, ChunkStates(sorted, k))
    ensures HeapItems(ChunkStates(sorted, k)) == multiset(SecondOf(sorted))
    decreases |sorted|
  {
    if |sorted| > 0 {
      DropChunk(|sorted|, k);
      InitialState(weights, k, bound, sorted[..k]);
      ChunkStatesGood(weights, k, bound, sorted[k..]);
      OneMoreState(weights, k, bound, StateOf(sorted[..k], k), ChunkStates(sorted[k..], k));
      SecondOfConcat(sorted[..k], sorted[k..]);
      assert sorted == sorted[..k] + sorted[k..];
    }
  }

  lemma SecondOfConcat(a: seq<Weighted>, b: seq<Weighted>)
    ensures multiset(SecondOf(a + b)) == multiset(SecondOf(a)) + multiset(SecondOf(b))
  {
    assert SecondOf(a + b) == SecondOf(a) + SecondOf(b);
  }

  lemma OneMoreState(weights: seq<int>, k: nat, bound: int, first: seq<WeightedSet>, rest: seq<seq<WeightedSet>>)
    requires GoodState(weights, k, bound, first) && GoodHeap(weights, k, bound, rest)
    ensures GoodHeap(weights, k, bound, [first] + rest)
    ensures HeapItems([first] + rest) == ItemsOf(first) + HeapItems(rest)
  {
    var heap := [first] + rest;
    forall i | 0 <= i < |heap|
      ensures |heap[i]| == k && GoodState(weights, k, bound, heap[i])
    {
      if i > 0 { assert heap[i] == rest[i - 1] && GoodState(weights, k, bound, rest[i - 1]); }
    }
    HeapItemsSplit(heap, 0);
    assert Without(heap, 0) == rest;
  }

  /** Builds one state per chunk of `k` sorted weights. */
  method InitialHeap(weights: seq<int>, k: nat) returns (states: seq<KKState>, ghost heap: seq<seq<WeightedSet>>)
    requires 0 < k <= |weights| && |weights| % k == 0
    ensures fresh(states) && states != [] && Holds(states, heap)
    ensures GoodHeap(weights, k, ChunkSpread(WeightedIndices(weights), k), heap)
    ensures HeapItems(heap) == multiset(Indices(|weights|))
  {
    var sorted := WeightedIndices(weights);
    WeightedIndicesAre(weights);
    WeightedIndicesCover(weights);
    ChunkStatesGood(weights, k, ChunkSpread(sorted, k), sorted);
    states, heap := Chunks(sorted, k);
  }

  method Chunks(sorted: seq<Weighted>, k: nat) returns (states: seq<KKState>, ghost heap: seq<seq<WeightedSet>>)
    requires 0 < k <= |sorted| && |sorted| % k == 0
    ensures fresh(states) && Holds(states, heap)
    ensures heap == ChunkStates(sorted, k) && states != []
  {
    var rest := sorted;
    states, heap := [], [];
    while |rest| > 0
      invariant |rest| % k == 0
      invariant heap + ChunkStates(rest, k) == ChunkStates(sorted, k)
      invariant fresh(states) && Holds(states, heap)
      decreases |rest|
    {
      ChunkStatesStep(rest, k, heap);
      states, heap := PushState(states, heap, rest[..k], k);
      rest := rest[k..];
    }
    assert ChunkStates(rest, k) == [];
  }

  method PushState(states: seq<KKState>, ghost heap: seq<seq<WeightedSet>>, items: seq<Weighted>, k: nat)
    returns (pushed: seq<KKState>, ghost after: seq<seq<WeightedSet>>)
    requires Holds(states, heap) && |items| <= k
    ensures |pushed| == |states| + 1 && pushed[..|states|] == states && fresh(pushed[|states|])
    ensures Holds(pushed, after) && after == heap + [StateOf(items, k)]
  {
    var state := new KKState(items, k);
    pushed, after := states + [state], heap + [state.sets];
  }

  lemma ChunkStatesStep(rest: seq<Weighted>, k: nat, heap: seq<seq<WeightedSet>>)
    requires 0 < k && 0 < |rest| && |rest| % k == 0
    ensures k <= |rest| && (|rest| - k) % k == 0
    ensures heap + ChunkStates(rest, k) == (heap + [StateOf(rest[..k], k)]) + ChunkStates(rest[k..], k)
  {
    DropChunk(|rest|, k);
  }

  /** States `i` and then `j` of the remaining ones are popped, merged, and pushed back. */
  function MergeAt(heap: seq<seq<WeightedSet>>, i: nat, j: nat): seq<seq<WeightedSet>>
    requires i < |heap| && j < |heap| - 1 && |heap[i]| == |Without(heap, i)[j]|
  {
    Without(Without(heap, i), j) + [MergeSets(heap[i], Without(heap, i)[j])]
  }

  lemma MergedHeap(weights: seq<int>, k: nat, bound: int, heap: seq<seq<WeightedSet>>, i: nat, j: nat)
    requires GoodHeap(weights, k, bound, heap) && i < |heap| && j < |heap| - 1
    requires |heap[i]| == |Without(heap, i)[j]|
    ensures GoodHeap(weights, k, bound, MergeAt(heap, i, j))
    ensures HeapItems(MergeAt(heap, i, j)) == HeapItems(heap)
  {
    HeapItemsSplit(heap, i);
    HeapItemsSplit(Without(heap, i), j);
    LeftOver(heap, i, j);
    assert GoodState(weights, k, bound, heap[i]) && GoodState(weights, k, bound, heap[if j < i then j else j + 1]);
    var merged := MergeAt(heap, i, j);
    forall x | 0 <= x < |heap| - 2
      ensures GoodState(weights, k, bound, merged[x])
    {
      assert GoodState(weights, k, bound, heap[Origin(i, j, x)]);
    }
    MergeKeeps(weights, k, bound, heap[i], Without(heap, i)[j]);
    HeapItemsConcat(Without(Without(heap, i), j), MergeSets(heap[i], Without(heap, i)[j]));
  }

  method PopMergePush(states: seq<KKState>, ghost heap: seq<seq<WeightedSet>>, k: nat)
    returns (merged: seq<KKState>, ghost i: nat, ghost j: nat)
    requires Holds(states, heap) && |states| > 1 && SameWidth(heap, k)
    modifies states
    ensures i < |heap| && j < |heap| - 1
    ensures Holds(merged, MergeAt(heap, i, j))
    ensures forall x :: 0 <= x < |merged| ==> merged[x] in states
  {
    var p :| 0 <= p < |states|;
    var state := states[p];
    var q :| 0 <= q < |Without(states, p)|;
    var other := Without(states, p)[q];
    var left := Without(Without(states, p), q);
    LeftOver(states, p, q);
    LeftOver(heap, p, q);
    state.Merge(other);
    merged, i, j := left + [state], p, q;
  }

  /** Where the element at `x` comes from once `p`, then `q` of the rest, have been taken out. */
  function Origin(p: nat, q: nat, x: nat): nat {
    var y := if x < q then x else x + 1;
    if y < p then y else y + 1
  }

  lemma LeftOver<T>(s: seq<T>, p: nat, q: nat)
    requires p < |s| && q < |s| - 1
    ensures Without(s, p)[q] == s[if q < p then q else q + 1]
    ensures forall x :: 0 <= x < |s| - 2 ==> Without(Without(s, p), q)[x] == s[Origin(p, q, x)]
  {
  }

  /** The heap hands out states in the order of their spread; every pop order is covered here. */
  method Run(weights: seq<int>, k: nat) returns (parts: seq<seq<int>>)
    requires 0 < k <= |weights| && |weights| % k == 0
    ensures |parts| == k && Covers(parts, |weights|) && AllInRange(parts, |weights|)
    ensures forall i :: 0 <= i < k ==> |parts[i]| == |weights| / k
    ensures Spread(Loads(weights, parts)) <= ChunkSpread(WeightedIndices(weights), k)
  {
    var states, heap := InitialHeap(weights, k);
    ghost var bound := ChunkSpread(WeightedIndices(weights), k);
    while |states| > 1
      invariant fresh(states) && states != [] && Holds(states, heap)
      invariant GoodHeap(weights, k, bound, heap)
      invariant HeapItems(heap) == multiset(Indices(|weights|))
      decreases |states|
    {
      ghost var i, j;
      states, i, j := PopMergePush(states, heap, k);
      MergedHeap(weights, k, bound, heap, i, j);
      heap := MergeAt(heap, i, j);
    }
    HeapItemsConcat([], heap[0]);
    assert [] + [heap[0]] == heap;
    parts := states[0].Partitions();
    FinalParts(weights, k, bound, heap[0], parts);
  }

  lemma {:induction false} SameContents(a: seq<seq<int>>, b: seq<seq<int>>)
    requires |a| == |b| && forall i :: 0 <= i < |a| ==> multiset(a[i]) == multiset(b[i])
    ensures Contents(a) == Contents(b)
  {
    if a != [] { SameContents(a[1..], b[1..]); }
  }

  lemma {:induction false} UniformSize(parts: seq<seq<int>>, c: nat)
    requires forall i :: 0 <= i < |parts| ==> |parts[i]| == c
    ensures |Contents(parts)| == |parts| * c
  {
    if parts != [] {
      UniformSize(parts[1..], c);
      Distribute(|parts| - 1, c);
    }
  }

  lemma SpreadOfTotals(loads: seq<int>, sets: seq<WeightedSet>, bound: int)
    requires |loads| == |sets| > 0 && forall i :: 0 <= i < |loads| ==> loads[i] == sets[i].total
    requires forall i, j :: 0 <= i < j < |sets| ==> sets[j].total <= sets[i].total
    requires sets[0].total - sets[|sets| - 1].total <= bound
    ensures Spread(loads) <= bound
  {
    var hi :| 0 <= hi < |loads| && loads[hi] == Max(loads);
    var lo :| 0 <= lo < |loads| && loads[lo] == Min(loads);
    assert sets[hi].total <= sets[0].total && sets[|sets| - 1].total <= sets[lo].total;
  }

  lemma PartSize(parts: seq<seq<int>>, n: nat, c: nat)
    requires parts != [] && Covers(parts, n) && forall i :: 0 <= i < |parts| ==> |parts[i]| == c
    ensures c == n / |parts|
  {
    UniformSize(parts, c);
    assert |multiset(Indices(n))| == n;
    QuotientIs(n, |parts|, c);
  }

  lemma FinalParts(weights: seq<int>, k: nat, bound: int, sets: seq<WeightedSet>, parts: seq<seq<int>>)
    requires GoodState(weights, k, bound, sets)
    requires |parts| == k && forall i :: 0 <= i < k ==> multiset(parts[i]) == multiset(sets[i].items)
    requires ItemsOf(sets) == multiset(Indices(|weights|))
    ensures Covers(parts, |weights|) && AllInRange(parts, |weights|)
    ensures forall i :: 0 <= i < k ==> |parts[i]| == |weights| / k
    ensures Spread(Loads(weights, parts)) <= bound
  {
    SameContents(parts, ItemLists(sets));
    CoversInRange(parts, |weights|);
    forall i | 0 <= i < k
      ensures |parts[i]| == |sets[0].items| && Load(weights, parts[i]) == sets[i].total
    {
      assert |multiset(parts[i])| == |multiset(sets[i].items)|;
      LoadOfContents(weights, parts[i], sets[i].items);
    }
    PartSize(parts, |weights|, |sets[0].items|);
    SpreadOfTotals(Loads(weights, parts), sets, bound);
  }
}
