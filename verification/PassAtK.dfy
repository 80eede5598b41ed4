/** The pass@k estimator, in exact arithmetic (src/prime_rl/orchestrator/eval_utils.py:4-18). */
module PassAtK {

  // ---- Choosing k of n ----

  function Choose(n: nat, k: nat): nat {
    if k == 0 then 1 else if n == 0 then 0 else Choose(n - 1, k - 1) + Choose(n - 1, k)
  }

  ghost function SubsetsOf(a: set<int>, k: nat): set<set<int>> {
    set b: set<int> | b <= a && |b| == k
  }

  ghost function WithElement(family: set<set<int>>, x: int): set<set<int>> {
    set b | b in family :: b + {x}
  }

  lemma {:induction false} WithElementSize(family: set<set<int>>, x: int)
    requires forall b :: b in family ==> x !in b
    ensures |WithElement(family, x)| == |family|
  {
    if family == {} {
      assert WithElement(family, x) == {};
    } else {
      var b := Element(family);
      WithElementSize(family - {b}, x);
      OneMoreMember(family, x, b);
    }
  }

  lemma OneMoreMember(family: set<set<int>>, x: int, b: set<int>)
    requires b in family && forall d :: d in family ==> x !in d
    ensures WithElement(family, x) == WithElement(family - {b}, x) + {b + {x}}
    ensures b + {x} !in WithElement(family - {b}, x)
  {
    forall d | d in family - {b} ensures d + {x} != b + {x} {
      assert d == (d + {x}) - {x} && b == (b + {x}) - {x};
    }
  }

  lemma SubsetSize(b: set<int>, a: set<int>)
    requires b <= a
    ensures |b| <= |a| && (|b| == |a| ==> b == a)
  {
    assert a == b + (a - b);
    assert |a| == |b| + |a - b|;
  }

  /** The subsets of size `k` without `x`, and those with it. */
  lemma SubsetsSplit(a: set<int>, k: nat, x: int)
    requires x in a && k > 0
    ensures SubsetsOf(a, k) == SubsetsOf(a - {x}, k) + WithElement(SubsetsOf(a - {x}, k - 1), x)
    ensures SubsetsOf(a - {x}, k) !! WithElement(SubsetsOf(a - {x}, k - 1), x)
  {
    forall b | b in SubsetsOf(a, k) && x in b ensures b in WithElement(SubsetsOf(a - {x}, k - 1), x) {
      assert b - {x} in SubsetsOf(a - {x}, k - 1);
      assert b == (b - {x}) + {x};
    }
  }

  /** There are C(n, k) ways to choose k of n things. */
  lemma {:induction false} SubsetCount(a: set<int>, k: nat)
    ensures |SubsetsOf(a, k)| == Choose(|a|, k)
  {
    if k == 0 {
      assert SubsetsOf(a, 0) == {{}};
    } else if a == {} {
      assert SubsetsOf(a, k) == {};
    } else {
      var x := Element(a);
      assert |a - {x}| == |a| - 1;
      SubsetCount(a - {x}, k);
      SubsetCount(a - {x}, k - 1);
      CountSplit(a, k, x);
    }
  }

  lemma Element<T>(a: set<T>) returns (x: T)
    requires a != {}
    ensures x in a
  {
    x :| x in a;
  }

  lemma CountSplit(a: set<int>, k: nat, x: int)
    requires x in a && k > 0
    ensures |SubsetsOf(a, k)| == |SubsetsOf(a - {x}, k)| + |SubsetsOf(a - {x}, k - 1)|
  {
    SubsetsSplit(a, k, x);
    WithElementSize(SubsetsOf(a - {x}, k - 1), x);
  }

  lemma {:induction false} ChooseBounds(n: nat, k: nat)
    ensures Choose(n, k) > 0 <==> k <= n
  {
    if k > 0 && n > 0 {
      ChooseBounds(n - 1, k - 1);
      ChooseBounds(n - 1, k);
    }
  }

  /** (n - k) C(n, k) = n C(n - 1, k). */
  lemma {:induction false} Absorption(n: nat, k: nat)
    requires n > 0
    ensures (n - k) * Choose(n, k) == n * Choose(n - 1, k)
    ensures k > 0 ==> k * Choose(n, k) == n * Choose(n - 1, k - 1)
  {
    if k > 0 {
      if n == 1 {
        ChooseOfOne(k);
      } else {
        Absorption(n - 1, k);
        Absorption(n - 1, k - 1);
        AbsorbStep(n, k, Choose(n - 1, k), Choose(n - 1, k - 1), Choose(n - 2, k - 1), if k > 1 then Choose(n - 2, k - 2) else 0,
                   Choose(n - 2, k));
      }
    }
  }

  lemma ChooseOfOne(k: nat)
    requires k > 0
    ensures Choose(0, k) == 0 && Choose(0, k - 1) == (if k == 1 then 1 else 0)
    ensures Choose(1, k) == if k == 1 then 1 else 0
  {
  }

  lemma AbsorbStep(n: int, k: int, a: int, b: int, p: int, q: int, s: int)
    requires (n - 1 - k) * a == (n - 1) * s && k * a == (n - 1) * p
    requires (n - 1 - (k - 1)) * b == (n - 1) * p && (k > 1 ==> (k - 1) * b == (n - 1) * q)
    requires a == p + s && (k > 1 ==> b == q + p) && (k == 1 ==> b == 1 && p == 1)
    ensures (n - k) * (b + a) == n * a && k * (b + a) == n * b
  {
    // (n - k) b = k a, by both ways of counting.
    assert (n - k) * b == k * a;
    assert (n - k) * (b + a) == (n - k) * b + (n - k) * a;
    assert k * a + (n - k) * a == n * a;
    assert k * (b + a) == k * b + k * a;
    assert k * b + (n - k) * b == n * b;
  }

  // ---- The product form ----

  lemma FactorStep(n: nat, k: nat, whole: nat, less: nat)
    requires n > 0 && (n - k) * whole == n * less
    ensures (1.0 - k as real / n as real) * whole as real == less as real
  {
    var ratio := k as real / n as real;
    assert ratio * n as real == k as real;
    assert ((n - k) * whole) as real == (n as real - k as real) * whole as real;
    assert (n * less) as real == n as real * less as real;
    assert n as real * ((1.0 - ratio) * whole as real) == n as real * less as real;
  }

  lemma Absorbed(n: nat, k: nat)
    requires n > 0
    ensures (n - k) * Choose(n, k) == n * Choose(n - 1, k)
  {
    Absorption(n, k);
  }

  lemma FactorOf(n: nat, k: nat, whole: nat, less: nat)
    requires n > 0 && whole == Choose(n, k) && less == Choose(n - 1, k)
    ensures (1.0 - k as real / n as real) * whole as real == less as real
  {
    Absorbed(n, k);
    FactorStep(n, k, whole, less);
  }

  lemma Chain(product: real, factor: real, whole: real, less: real, part: real)
    requires factor * whole == less && product * less == part
    ensures (product * factor) * whole == part
  {
    assert (product * factor) * whole == product * (factor * whole);
  }

  /** The next factor of the product, 1 - k/n, takes C(n - 1, k) to C(n, k). */
  method Multiply(product: real, n: nat, k: nat, ghost less: nat, ghost whole: nat, ghost part: real) returns (next: real)
    requires n > 0 && less == Choose(n - 1, k) && whole == Choose(n, k) && product * less as real == part
    ensures next * whole as real == part
  {
    FactorOf(n, k, whole, less);
    var factor := 1.0 - k as real / n as real;
    Chain(product, factor, whole as real, less as real, part);
    next := product * factor;
  }

  /** The chance that k attempts drawn from `all` without repetition include one of `good`. */
  ghost function HitRate(all: set<int>, good: set<int>, k: nat): real
    requires k <= |all|
  {
    ChooseBounds(|all|, k);
    SubsetCount(all, k);
    |Hitting(all, good, k)| as real / |SubsetsOf(all, k)| as real
  }

  ghost function Hitting(all: set<int>, good: set<int>, k: nat): set<set<int>> {
    set b | b in SubsetsOf(all, k) && b * good != {}
  }

  lemma HittingCount(all: set<int>, good: set<int>, k: nat)
    requires good <= all
    ensures |all - good| == |all| - |good|
    ensures |Hitting(all, good, k)| == Choose(|all|, k) - Choose(|all - good|, k)
  {
    SubsetSize(good, all);
    assert SubsetsOf(all, k) == Hitting(all, good, k) + SubsetsOf(all - good, k) by {
      forall b | b in SubsetsOf(all, k) && b * good == {} ensures b <= all - good {
        assert forall x :: x in b ==> x !in b * good;
      }
    }
    assert Hitting(all, good, k) !! SubsetsOf(all - good, k) by {
      forall b | b in SubsetsOf(all - good, k) ensures b * good == {} {}
    }
    SubsetCount(all, k);
    SubsetCount(all - good, k);
  }

  /** `_pass_at_k`: 1 minus the product of 1 - k/i over the last c of the n attempts. The product telescopes,
      so the estimate is exactly 1 - C(n - c, k) / C(n, k). */
  method Estimate(n: nat, c: nat, k: nat) returns (r: real, ghost whole: nat, ghost part: nat)
    requires c <= n
    ensures whole == Choose(n, k) && part == Choose(n - c, k)
    ensures k > n ==> r == 1.0
    ensures k <= n ==> whole > 0 && r == 1.0 - part as real / whole as real
  {
    ChooseBounds(n, k);
    ChooseBounds(n - c, k);
    if n - c < k {
      whole, part := Choose(n, k), Choose(n - c, k);
      if k <= n {
        Quotient(0.0, whole as real, 0.0);
      }
      return 1.0, whole, part;
    }
    var product := 1.0;
    var i := n - c;
    whole, part := Choose(i, k), Choose(n - c, k);
    while i < n
      invariant n - c <= i <= n && whole == Choose(i, k) && part == Choose(n - c, k)
      invariant product * whole as real == part as real
    {
      i := i + 1;
      ghost var less := whole;
      whole := Choose(i, k);
      product := Multiply(product, i, k, less, whole, part as real);
    }
    Quotient(product, whole as real, part as real);
    r := 1.0 - product;
  }

  /** 1 - C(n - c, k) / C(n, k) is the fraction of the k-subsets of the attempts that contain a success. */
  lemma RatioIsHitRate(all: set<int>, good: set<int>, k: nat, whole: nat, part: nat)
    requires good <= all && |good| <= |all| && k <= |all|
    requires whole == Choose(|all|, k) && part == Choose(|all| - |good|, k)
    ensures whole > 0 && 1.0 - part as real / whole as real == HitRate(all, good, k)
  {
    ChooseBounds(|all|, k);
    HittingCount(all, good, k);
    SubsetCount(all, k);
    Complement(part, whole, |Hitting(all, good, k)|);
  }

  lemma Quotient(p: real, whole: real, part: real)
    requires whole > 0.0 && p * whole == part
    ensures p == part / whole
  {
  }

  lemma Complement(part: nat, whole: nat, rest: nat)
    requires whole > 0 && rest == whole - part
    ensures 1.0 - part as real / whole as real == rest as real / whole as real
  {
    var ratio := part as real / whole as real;
    assert ratio * whole as real == part as real;
    assert (1.0 - ratio) * whole as real == rest as real;
    Quotient(1.0 - ratio, whole as real, rest as real);
  }

  // ---- Which k are reported ----

  function BitLength(n: nat): nat { if n == 0 then 0 else 1 + BitLength(n / 2) }

  function Power(i: nat): nat { if i == 0 then 1 else 2 * Power(i - 1) }

  /** The powers of two that are reported are exactly those up to n. */
  lemma {:induction false} PowersUpTo(n: nat, i: nat)
    ensures Power(i) <= n <==> i < BitLength(n)
    ensures Power(i) >= 1
  {
    if i > 0 {
      if n > 0 {
        PowersUpTo(n / 2, i - 1);
      } else {
        PowersUpTo(0, i - 1);
      }
    }
  }

  function Successes(rewards: seq<real>): set<int> {
    set i | 0 <= i < |rewards| && rewards[i] == 1.0
  }

  function Attempts(n: nat): (all: set<int>)
    ensures |all| == n && forall i :: i in all <==> 0 <= i < n
  {
    if n == 0 then {} else Attempts(n - 1) + {n - 1}
  }

  lemma SuccessCount(rewards: seq<real>, n: nat)
    requires n < |rewards|
    ensures Successes(rewards[..n + 1]) == Successes(rewards[..n]) + if rewards[n] == 1.0 then {n as int} else {}
    ensures n !in Successes(rewards[..n])
  {
  }

  /** `compute_pass_at_k`: for every power of two up to the number of attempts, and no other k, the exact
      chance that k of the attempts include a success. */
  method Compute(rewards: seq<real>) returns (scores: map<nat, real>)
    ensures forall k :: k in scores <==> exists i: nat :: Power(i) == k && k <= |rewards|
    ensures forall k :: k in scores ==> 1 <= k <= |rewards| && scores[k] == HitRate(Attempts(|rewards|), Successes(rewards), k)
  {
    var n := |rewards|;
    var c := CountSuccesses(rewards);
    scores := map[];
    var i := 0;
    while i < BitLength(n)
      invariant 0 <= i <= BitLength(n)
      invariant forall k :: k in scores <==> exists j: nat :: j < i && Power(j) == k
      invariant forall k :: k in scores ==> 1 <= k <= n && scores[k] == HitRate(Attempts(n), Successes(rewards), k)
    {
      PowersUpTo(n, i);
      var score, whole, part := Estimate(n, c, Power(i));
      RatioIsHitRate(Attempts(n), Successes(rewards), Power(i), whole, part);
      scores := scores[Power(i) := score];
      i := i + 1;
    }
    forall j: nat ensures Power(j) <= n <==> j < i {
      PowersUpTo(n, j);
    }
  }

  method CountSuccesses(rewards: seq<real>) returns (c: nat)
    ensures c == |Successes(rewards)|
    ensures Successes(rewards) <= Attempts(|rewards|) && c <= |rewards|
  {
    c := 0;
    var i := 0;
    while i < |rewards|
      invariant 0 <= i <= |rewards| && c == |Successes(rewards[..i])|
    {
      SuccessCount(rewards, i);
      if rewards[i] == 1.0 {
        c := c + 1;
      }
      i := i + 1;
    }
    assert rewards[..i] == rewards;
    SubsetSize(Successes(rewards), Attempts(|rewards|));
  }
}
