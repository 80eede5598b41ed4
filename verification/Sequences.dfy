/** Sums, extrema, contents and sorting of sequences, shared by the other modules. */
module Sequences {

  function Sum(s: seq<int>): int {
    if s == [] then 0 else s[0] + Sum(s[1..])
  }

  lemma {:induction false} SumConcat(s: seq<int>, t: seq<int>)
    ensures Sum(s + t) == Sum(s) + Sum(t)
  {
    if s == [] {
      assert s + t == t;
    } else {
      assert (s + t)[1..] == s[1..] + t;
      SumConcat(s[1..], t);
    }
  }

  lemma {:induction false} SumUpdate(s: seq<int>, i: nat, x: int)
    requires i < |s|
    ensures Sum(s[i := x]) == Sum(s) - s[i] + x
  {
    if i == 0 {
      assert s[i := x][1..] == s[1..];
    } else {
      assert s[i := x][1..] == s[1..][i - 1 := x];
      SumUpdate(s[1..], i - 1, x);
    }
  }

  lemma {:induction false} SumSplit(s: seq<int>, i: nat)
    requires i < |s|
    ensures Sum(s) == s[i] + Sum(Without(s, i))
  {
    if i == 0 {
      assert Without(s, 0) == s[1..];
    } else {
      SumSplit(s[1..], i - 1);
      assert Without(s, i)[1..] == Without(s[1..], i - 1);
    }
  }

  lemma {:induction false} ExtremaExist(s: seq<int>)
    requires s != []
    ensures exists m :: m in s && forall x :: x in s ==> x <= m
    ensures exists m :: m in s && forall x :: x in s ==> m <= x
  {
    if |s| == 1 {
      assert s[0] in s;
    } else {
      ExtremaExist(s[1..]);
      var hi :| hi in s[1..] && forall x :: x in s[1..] ==> x <= hi;
      var lo :| lo in s[1..] && forall x :: x in s[1..] ==> lo <= x;
      var hi', lo' := if s[0] >= hi then s[0] else hi, if s[0] <= lo then s[0] else lo;
      assert s == [s[0]] + s[1..];
      assert hi' in s && forall x :: x in s ==> x <= hi';
      assert lo' in s && forall x :: x in s ==> lo' <= x;
    }
  }

  function Max(s: seq<int>): (m: int)
    requires s != []
    ensures m in s
    ensures forall i :: 0 <= i < |s| ==> s[i] <= m
  {
    ExtremaExist(s);
    assert forall i :: 0 <= i < |s| ==> s[i] in s;
    var m :| m in s && forall x :: x in s ==> x <= m;
    m
  }

  function Min(s: seq<int>): (m: int)
    requires s != []
    ensures m in s
    ensures forall i :: 0 <= i < |s| ==> m <= s[i]
  {
    ExtremaExist(s);
    assert forall i :: 0 <= i < |s| ==> s[i] in s;
    var m :| m in s && forall x :: x in s ==> m <= x;
    m
  }

  function Spread(s: seq<int>): (d: nat)
    requires s != []
  {
    assert Min(s) <= s[0] <= Max(s);
    Max(s) - Min(s)
  }

  /** Everything held by a sequence of parts, with multiplicity. */
  function Contents<T>(parts: seq<seq<T>>): multiset<T> {
    if parts == [] then multiset{} else multiset(parts[0]) + Contents(parts[1..])
  }

  lemma {:induction false} ContentsConcat<T>(p: seq<seq<T>>, q: seq<seq<T>>)
    ensures Contents(p + q) == Contents(p) + Contents(q)
  {
    if p == [] {
      assert p + q == q;
    } else {
      assert (p + q)[1..] == p[1..] + q;
      ContentsConcat(p[1..], q);
    }
  }

  /** Part `i` can be set apart from the rest. */
  lemma {:induction false} ContentsSplit<T>(parts: seq<seq<T>>, i: nat)
    requires i < |parts|
    ensures Contents(parts) == multiset(parts[i]) + Contents(Without(parts, i))
  {
    if i == 0 {
      assert Without(parts, 0) == parts[1..];
    } else {
      ContentsSplit(parts[1..], i - 1);
      assert Without(parts, i)[1..] == Without(parts[1..], i - 1);
    }
  }

  lemma {:induction false} ContentsUpdate<T>(parts: seq<seq<T>>, i: nat, p: seq<T>)
    requires i < |parts|
    ensures Contents(parts[i := p]) + multiset(parts[i]) == Contents(parts) + multiset(p)
  {
    var updated := parts[i := p];
    ContentsSplit(parts, i);
    ContentsSplit(updated, i);
    assert Without(updated, i) == Without(parts, i);
  }

  function Flat<T>(parts: seq<seq<T>>): seq<T> {
    if parts == [] then [] else parts[0] + Flat(parts[1..])
  }

  lemma {:induction false} FlatConcat<T>(p: seq<seq<T>>, q: seq<seq<T>>)
    ensures Flat(p + q) == Flat(p) + Flat(q)
  {
    if p == [] {
      assert p + q == q;
    } else {
      assert (p + q)[1..] == p[1..] + q;
      FlatConcat(p[1..], q);
    }
  }

  /** Cuts `s` into consecutive pieces of the given lengths. */
  function Cut<T>(lengths: seq<int>, s: seq<T>): (r: seq<seq<T>>)
    requires forall i :: 0 <= i < |lengths| ==> lengths[i] >= 0
    requires Sum(lengths) == |s|
    ensures |r| == |lengths|
  {
    if lengths == [] then []
    else
      SumNonNegative(lengths[1..]);
      [s[..lengths[0]]] + Cut(lengths[1..], s[lengths[0]..])
  }

  lemma {:induction false} SumNonNegative(s: seq<int>)
    requires forall i :: 0 <= i < |s| ==> s[i] >= 0
    ensures Sum(s) >= 0
  {
    if s != [] {
      SumNonNegative(s[1..]);
    }
  }

  /** Cutting undoes joining. */
  lemma {:induction false} CutFlat<T>(lengths: seq<int>, parts: seq<seq<T>>)
    requires |lengths| == |parts| && forall i :: 0 <= i < |parts| ==> lengths[i] == |parts[i]|
    ensures Sum(lengths) == |Flat(parts)| && Cut(lengths, Flat(parts)) == parts
  {
    if parts != [] {
      CutFlat(lengths[1..], parts[1..]);
      SplitsBack(parts[0], Flat(parts[1..]));
    }
  }

  lemma SplitsBack<T>(a: seq<T>, b: seq<T>)
    ensures (a + b)[..|a|] == a && (a + b)[|a|..] == b
  {
  }

  lemma {:induction false} PartIsHeld<T>(parts: seq<seq<T>>, i: nat, j: nat)
    requires i < |parts| && j < |parts[i]|
    ensures parts[i][j] in Contents(parts)
  {
    ContentsSplit(parts, i);
    assert parts[i][j] in multiset(parts[i]);
  }

  /** `s` without the element at `i`. */
  function Without<T>(s: seq<T>, i: nat): (r: seq<T>)
    requires i < |s|
    ensures |r| == |s| - 1
  {
    s[..i] + s[i + 1..]
  }

  /** The counterpart of `s[0]` in a permutation `t` of `s`. */
  lemma Counterpart<T>(s: seq<T>, t: seq<T>) returns (i: nat)
    requires s != [] && multiset(s) == multiset(t)
    ensures i < |t| && t[i] == s[0]
    ensures multiset(s[1..]) == multiset(Without(t, i))
  {
    assert s[0] in multiset(t);
    i :| 0 <= i < |t| && t[i] == s[0];
    assert s == [s[0]] + s[1..];
    WithoutContents(t, i);
    assert multiset(s[1..]) == multiset(s) - multiset{s[0]};
    assert multiset(Without(t, i)) == multiset(t) - multiset{t[i]};
  }

  lemma WithoutContents<T>(s: seq<T>, i: nat)
    requires i < |s|
    ensures multiset(s) == multiset(Without(s, i)) + multiset{s[i]}
  {
    assert s == s[..i] + ([s[i]] + s[i + 1..]);
  }

  /** The sum of several multisets. */
  function Union<T>(parts: seq<multiset<T>>): multiset<T> {
    if parts == [] then multiset{} else parts[0] + Union(parts[1..])
  }

  lemma {:induction false} UnionConcat<T>(p: seq<multiset<T>>, q: seq<multiset<T>>)
    ensures Union(p + q) == Union(p) + Union(q)
  {
    if p == [] {
      assert p + q == q;
    } else {
      assert (p + q)[1..] == p[1..] + q;
      UnionConcat(p[1..], q);
    }
  }

  lemma {:induction false} UnionSplit<T>(parts: seq<multiset<T>>, i: nat)
    requires i < |parts|
    ensures Union(parts) == parts[i] + Union(Without(parts, i))
  {
    if i == 0 {
      assert Without(parts, 0) == parts[1..];
    } else {
      UnionSplit(parts[1..], i - 1);
      assert Without(parts, i)[1..] == Without(parts[1..], i - 1);
    }
  }

  // ---- Sorting (Python's `sorted`/`list.sort`, which is stable) ----

  ghost predicate TotalOrder<T(!new)>(le: (T, T) -> bool) {
    && (forall x, y :: le(x, y) || le(y, x))
    && (forall x, y, z :: le(x, y) && le(y, z) ==> le(x, z))
  }

  ghost predicate SortedBy<T>(le: (T, T) -> bool, s: seq<T>) {
    forall i, j :: 0 <= i < j < |s| ==> le(s[i], s[j])
  }

  function Insert<T>(le: (T, T) -> bool, x: T, s: seq<T>): seq<T> {
    if s == [] || le(x, s[0]) then [x] + s else [s[0]] + Insert(le, x, s[1..])
  }

  function Sorted<T>(le: (T, T) -> bool, s: seq<T>): seq<T> {
    if s == [] then [] else Insert(le, s[0], Sorted(le, s[1..]))
  }

  lemma {:induction false} InsertKeeps<T>(le: (T, T) -> bool, x: T, s: seq<T>)
    ensures multiset(Insert(le, x, s)) == multiset{x} + multiset(s)
  {
    if s == [] || le(x, s[0]) {
    } else {
      assert s == [s[0]] + s[1..];
      InsertKeeps(le, x, s[1..]);
    }
  }

  lemma {:induction false} SortedKeeps<T>(le: (T, T) -> bool, s: seq<T>)
    ensures multiset(Sorted(le, s)) == multiset(s)
    ensures |Sorted(le, s)| == |s|
  {
    if s == [] {
    } else {
      assert s == [s[0]] + s[1..];
      SortedKeeps(le, s[1..]);
      InsertKeeps(le, s[0], Sorted(le, s[1..]));
    }
    assert |multiset(Sorted(le, s))| == |multiset(s)|;
  }

  lemma {:induction false} InsertSorts<T(!new)>(le: (T, T) -> bool, x: T, s: seq<T>)
    requires TotalOrder(le) && SortedBy(le, s)
    ensures SortedBy(le, Insert(le, x, s))
  {
    if s == [] || le(x, s[0]) {
    } else {
      InsertSorts(le, x, s[1..]);
      InsertKeeps(le, x, s[1..]);
      var rest := Insert(le, x, s[1..]);
      forall j | 0 <= j < |rest|
        ensures le(s[0], rest[j])
      {
        assert rest[j] in multiset(rest);
        assert rest[j] == x || rest[j] in s[1..];
      }
    }
  }

  lemma {:induction false} SortedSorts<T(!new)>(le: (T, T) -> bool, s: seq<T>)
    requires TotalOrder(le)
    ensures SortedBy(le, Sorted(le, s))
  {
    if s == [] {
    } else {
      SortedSorts(le, s[1..]);
      InsertSorts(le, s[0], Sorted(le, s[1..]));
    }
  }

  /** The elements of `s` that are alike to `x` under `le`. */
  function Alike<T>(le: (T, T) -> bool, x: T, s: seq<T>): seq<T> {
    if s == [] then [] else if le(x, s[0]) && le(s[0], x) then [s[0]] + Alike(le, x, s[1..]) else Alike(le, x, s[1..])
  }

  lemma {:induction false} InsertIsStable<T(!new)>(le: (T, T) -> bool, x: T, s: seq<T>, z: T)
    requires TotalOrder(le) && SortedBy(le, s)
    ensures Alike(le, z, Insert(le, x, s)) == Alike(le, z, [x] + s)
  {
    assert ([x] + s)[1..] == s;
    if s != [] && !le(x, s[0]) {
      InsertIsStable(le, x, s[1..], z);
      assert ([x] + s[1..])[1..] == s[1..];
      assert ([s[0]] + Insert(le, x, s[1..]))[1..] == Insert(le, x, s[1..]);
      assert !(le(z, s[0]) && le(s[0], z) && le(z, x) && le(x, z));
    }
  }

  /** Sorting is stable: elements that are alike keep their order. */
  lemma {:induction false} SortedIsStable<T(!new)>(le: (T, T) -> bool, s: seq<T>, z: T)
    requires TotalOrder(le)
    ensures Alike(le, z, Sorted(le, s)) == Alike(le, z, s)
  {
    if s != [] {
      SortedSorts(le, s[1..]);
      SortedIsStable(le, s[1..], z);
      InsertIsStable(le, s[0], Sorted(le, s[1..]), z);
      var rest := Sorted(le, s[1..]);
      assert ([s[0]] + rest)[1..] == rest;
    }
  }
}
