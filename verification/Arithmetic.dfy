module Arithmetic {
  lemma MulSteps(k: nat, d: int)
    requires k > 0
    ensures d >= 1 ==> k * d >= k
    ensures d <= -1 ==> k * d <= 0 - k
  {
    if d >= 1 {
      assert k * d == k * (d - 1) + k;
    } else if d <= -1 {
      assert k * d == k * (d + 1) - k;
    }
  }

  lemma Distribute(n: int, c: int)
    ensures (n + 1) * c == n * c + c
  {
  }

  lemma MulMonotone(a: int, b: int, c: nat)
    ensures a <= b ==> a * c <= b * c
  {
    if a <= b {
      assert (b - a) * c >= 0;
    }
  }

  lemma Distributes(k: int, a: int, b: int)
    ensures k * (a + b) == k * a + k * b
  {
  }

  lemma PadsToMultiple(length: nat, m: nat)
    requires m > 0
    ensures (length + (m - length % m) % m) % m == 0
  {
    var q, r := length / m, length % m;
    assert length == q * m + r;
    if r == 0 {
      Small(0, m);
      MultipleOf(1, m);
    } else {
      Small(m - r, m);
      Distribute(q, m);
      MultipleOf(q + 1, m);
      assert length + (m - r) == (q + 1) * m;
    }
  }

  lemma Small(r: nat, m: nat)
    requires r < m
    ensures r % m == r
  {
  }

  lemma MultipleOf(q: nat, m: nat)
    requires m > 0
    ensures (q * m) % m == 0
  {
    var p := q * m;
    var d, r := p / m, p % m;
    assert p == d * m + r;
    Remainder(q, d, m, r);
  }

  lemma Remainder(q: int, d: int, m: nat, r: nat)
    requires q * m == d * m + r && r < m
    ensures r == 0
  {
    assert m * (q - d) == r;
    MulSteps(m, q - d);
  }
}
