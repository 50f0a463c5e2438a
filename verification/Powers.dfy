/** Powers of two, and division with remainder by multiplication facts only. */
module Powers {

  function Pow2(n: nat): (p: nat)
    ensures p > 0
  {
    if n == 0 then 1 else 2 * Pow2(n - 1)
  }

  function Quot(x: nat, d: nat): nat
    requires d > 0
  {
    x / d
  }

  function Rem(x: nat, d: nat): nat
    requires d > 0
  {
    x % d
  }

  lemma {:induction false} PowAdd(a: nat, b: nat)
    ensures Pow2(a + b) == Pow2(a) * Pow2(b)
    decreases a
  {
    if a > 0 { PowAdd(a - 1, b); }
  }

  lemma MulMono(a: nat, b: nat, k: nat)
    requires a <= b
    ensures a * k <= b * k
  {
  }

  lemma SameQuot(d: nat, q: nat, r: nat, p: nat, s: nat)
    requires r < d && s < d && q * d + r == p * d + s
    ensures q == p && r == s
  {
    if q < p { MulMono(q + 1, p, d); }
    if p < q { MulMono(p + 1, q, d); }
  }

  lemma DivMod(x: nat, d: nat)
    requires d > 0
    ensures x == Quot(x, d) * d + Rem(x, d) && Rem(x, d) < d
  {
  }

  lemma DivUnique(x: nat, d: nat, q: nat, r: nat)
    requires r < d && x == q * d + r
    ensures Quot(x, d) == q && Rem(x, d) == r
  {
    DivMod(x, d);
    SameQuot(d, Quot(x, d), Rem(x, d), q, r);
  }

  lemma Assoc(a: nat, b: nat, c: nat)
    ensures a * b * c == a * (b * c) == b * (a * c) == c * (a * b)
  {
  }

  lemma Distrib(a: nat, b: nat, c: nat)
    ensures (a + b) * c == a * c + b * c
  {
  }

  /** Scaling dividend and divisor scales the remainder and keeps the quotient. */
  lemma ScaleDivMod(x: nat, d: nat, k: nat)
    requires d > 0 && k > 0 && d * k > 0
    ensures Rem(x * k, d * k) == Rem(x, d) * k && Quot(x * k, d * k) == Quot(x, d)
  {
    var q, r := Quot(x, d), Rem(x, d);
    DivMod(x, d);
    Distrib(q * d, r, k);
    Assoc(q, d, k);
    MulMono(r + 1, d, k);
    Distrib(r, 1, k);
    DivUnique(x * k, d * k, q, r * k);
  }

  /** Dividing what is left modulo `p * q` by `p` leaves the quotient modulo `q`. */
  lemma DivModSwap(x: nat, p: nat, q: nat)
    requires p > 0 && q > 0 && p * q > 0
    ensures Quot(Rem(x, p * q), p) == Rem(Quot(x, p), q)
  {
    var a, b := Quot(x, p), Rem(x, p);
    var c, d := Quot(a, q), Rem(a, q);
    DivMod(x, p);
    DivMod(a, q);
    Distrib(c * q, d, p);
    Assoc(c, q, p);
    MulMono(d + 1, q, p);
    Distrib(d, 1, p);
    DivUnique(x, p * q, c, d * p + b);
    DivUnique(d * p + b, p, d, b);
  }

  lemma PowSmall()
    ensures Pow2(4) == 16 && Pow2(8) == 256
  {
    assert Pow2(2) == 4;
    PowAdd(4, 4);
  }
}
