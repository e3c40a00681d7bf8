/** Facts about natural-number multiplication, division and remainder used by the index proofs. */
module NatArith {

  /** (k + 1) mod n is (k mod n) + 1, wrapped at n. */
  lemma ModSucc(k: nat, n: nat)
    requires n > 0
    ensures (k + 1) % n == ((k % n) + 1) % n
  {
    var q, r := k / n, k % n;
    assert k == q * n + r;
    if r + 1 < n {
      DivModUnique(k + 1, n, q, r + 1);
      DivModUnique(r + 1, n, 0, r + 1);
    } else {
      DivModUnique(k + 1, n, q + 1, 0);
      DivModUnique(r + 1, n, 1, 0);
    }
  }

  /** Euclidean division is unique: x = q n + r with 0 <= r < n fixes x mod n. */
  lemma DivModUnique(x: nat, n: nat, q: nat, r: nat)
    requires n > 0 && r < n && x == q * n + r
    ensures x / n == q && x % n == r
  {
    var q' := x / n;
    var r' := x % n;
    if q' < q {
      MulMonotone(q' + 1, q, n);
    } else if q' > q {
      MulMonotone(q + 1, q', n);
    }
  }

  /** Multiplying by a natural number keeps order. */
  lemma {:induction false} MulMonotone(a: nat, b: nat, n: nat)
    requires a <= b
    ensures a * n <= b * n
  {
    if a < b {
      MulMonotone(a, b - 1, n);
      assert b * n == (b - 1) * n + n;
    }
  }
}
