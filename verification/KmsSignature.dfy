/** apps/api/src/wallet/kms.service.ts: low-S normalisation, the search for the parity bit, and the hex form of the
  * numbers. A point of the curve is the multiple of the base point that it is, a number below the group order. */
module KmsSignature {
  import opened Domain

  const N: nat := 0xFFFFFFFFFFFFFFFFFFFFFFFFFFFFFFFEBAAEDCE6AF48A03BBFD25E8CD0364141   // SECP256K1_N
  const HALF_N: nat := N / 2

  // ---------- congruence modulo N ----------

  predicate Congruent(a: int, b: int) { (a - b) % N == 0 }

  lemma Quotient(a: int, b: int) returns (q: int)
    requires Congruent(a, b)
    ensures a - b == N * q
  {
    q := (a - b) / N;
  }

  lemma FromQuotient(a: int, b: int, q: int)
    requires a - b == N * q
    ensures Congruent(a, b)
  {
  }

  lemma Chain(a: int, b: int, c: int)
    requires Congruent(a, b) && Congruent(b, c)
    ensures Congruent(a, c)
  {
    var q := Quotient(a, b);
    var u := Quotient(b, c);
    assert a - c == N * (q + u);
    FromQuotient(a, c, q + u);
  }

  lemma Reflexive(a: int)
    ensures Congruent(a, a)
  {
  }

  lemma Symmetric(a: int, b: int)
    requires Congruent(a, b)
    ensures Congruent(b, a)
  {
    var q := Quotient(a, b);
    FromQuotient(b, a, -q);
  }

  lemma Times(a: int, b: int, c: int)
    requires Congruent(a, b)
    ensures Congruent(c * a, c * b)
  {
    var q := Quotient(a, b);
    assert c * a - c * b == c * (a - b) == c * (N * q) == N * (c * q);
    FromQuotient(c * a, c * b, c * q);
  }

  lemma Plus(a: int, b: int, c: int, d: int)
    requires Congruent(a, b) && Congruent(c, d)
    ensures Congruent(a + c, b + d) && Congruent(a - c, b - d)
  {
    var q := Quotient(a, b);
    var u := Quotient(c, d);
    assert (a + c) - (b + d) == N * (q + u);
    FromQuotient(a + c, b + d, q + u);
    assert (a - c) - (b - d) == N * (q - u);
    FromQuotient(a - c, b - d, q - u);
  }

  lemma Residue(a: int)
    ensures 0 <= a % N < N && Congruent(a % N, a) && Congruent(a, a % N)
  {
    var q := a / N;
    assert a % N - a == N * (-q);
    FromQuotient(a % N, a, -q);
    assert a - a % N == N * q;
    FromQuotient(a, a % N, q);
  }

  lemma Same(a: int, b: int)
    requires Congruent(a, b) && 0 <= a < N && 0 <= b < N
    ensures a == b
  {
    var q := Quotient(a, b);
  }

  // ---------- products ----------

  /** The product by repeated addition. The statements about signatures use it, so that they hold no non-linear term. */
  function Mul(a: int, b: nat): int {
    if b == 0 then 0 else Mul(a, b - 1) + a
  }

  lemma {:induction false} MulIsProduct(a: int, b: nat)
    ensures Mul(a, b) == a * b
  {
    if b > 0 { MulIsProduct(a, b - 1); }
  }

  // ---------- ECDSA ----------

  /** The curve seen through scalars: the x coordinate and the y parity of k times the base point, the scalar of the
    * point with a given x and parity, and inverses modulo N. */
  datatype Curve = Curve(x: nat -> nat, parity: nat -> nat, lift: (nat, nat) -> nat, inverse: nat -> nat)

  /** A point and its negative share x and differ in parity; x and parity determine the point. */
  ghost predicate Lawful(c: Curve) {
    forall k: nat {:trigger c.x(k)} :: 0 < k < N ==>
      && c.x(N - k) == c.x(k) && c.parity(k) < 2 && c.parity(N - k) == 1 - c.parity(k)
      && c.lift(c.x(k), c.parity(k)) == k
  }

  /** A signature (r, s) on digest z by key d with nonce k. */
  datatype Signing = Signing(z: nat, d: nat, k: nat, ki: nat, r: nat, s: nat)

  /** As SEC 1, section 4.1.3 makes it, with the x coordinate of the nonce's point below the group order. */
  ghost predicate Genuine(c: Curve, g: Signing) {
    && 0 < g.d < N && 0 < g.k < N && 0 < g.s < N && 0 < g.r < N
    && Congruent(Mul(g.k, g.ki), 1)
    && g.r == c.x(g.k) && Congruent(Mul(g.r, c.inverse(g.r)), 1)
    && Congruent(Mul(g.s, g.k), g.z + Mul(g.r, g.d))
  }

  /** Public key recovery, SEC 1 section 4.1.6, as a scalar; 0 is the point at infinity. */
  function Recover(c: Curve, z: nat, r: nat, s: nat, parity: nat): nat {
    Mul(Mul(s, c.lift(r, parity)) - z, c.inverse(r)) % N
  }

  /** Multiplying with an inverse of r undoes multiplying with r. */
  lemma Cancel(r: int, ri: nat, x: int, y: nat)
    requires Congruent(Mul(r, ri), 1)
    ensures Congruent(x, Mul(r, y)) <==> Congruent(Mul(x, ri), y)
  {
    hide Congruent, Mul;
    MulIsProduct(r, ri);
    MulIsProduct(r, y);
    MulIsProduct(x, ri);
    Times(r * ri, 1, y);
    Times(r * ri, 1, x);
    assert ri * (r * y) == y * (r * ri) && r * (ri * x) == x * (r * ri) && ri * x == x * ri;
    if Congruent(x, r * y) {
      Times(x, r * y, ri);
      Chain(ri * x, ri * (r * y), y * 1);
    }
    if Congruent(ri * x, y) {
      Times(ri * x, y, r);
      Chain(r * (ri * x), r * y, r * y) by { Reflexive(r * y); }
      Chain(x * 1, x * (r * ri), r * y) by { Symmetric(x * (r * ri), x * 1); }
    }
  }

  /** If t, a multiple of the nonce's point, fits the equation, then dividing by r gives d; otherwise not. */
  lemma Divide(c: Curve, g: Signing, t: int)
    requires Genuine(c, g)
    ensures Congruent(t - g.z, Mul(g.r, g.d)) <==> Mul(t - g.z, c.inverse(g.r)) % N == g.d
  {
    hide Congruent, Mul;
    var y := Mul(t - g.z, c.inverse(g.r));
    Cancel(g.r, c.inverse(g.r), t - g.z, g.d);
    Residue(y);
    if Congruent(y, g.d) {
      Chain(y % N, y, g.d);
      Same(y % N, g.d);
    }
  }

  lemma Halve(s: nat)
    requires 0 < s < N
    ensures !Congruent(2 * s, 0)
  {
    assert 2 * s == N * ((2 * s) / N) + (2 * s) % N;
  }

  /** The other point with the same x does not fit. */
  lemma OtherPointMisses(g: Signing, c: Curve)
    requires Genuine(c, g)
    ensures !Congruent(Mul(g.s, N - g.k) - g.z, Mul(g.r, g.d))
  {
    if Congruent(Mul(g.s, N - g.k) - g.z, Mul(g.r, g.d)) {
      TwiceVanishes(g, c);
      NonceCancels(g);
      Halve(g.s);
    }
  }

  /** If the other point recovered the key as well, 2sk would vanish modulo N. */
  lemma TwiceVanishes(g: Signing, c: Curve)
    requires Genuine(c, g) && Congruent(Mul(g.s, N - g.k) - g.z, Mul(g.r, g.d))
    ensures Congruent(2 * Mul(g.s, g.k), 0)
  {
    MulIsProduct(g.s, g.k);
    MulIsProduct(g.s, N - g.k);
    var sk, other, rd := Mul(g.s, g.k), Mul(g.s, N - g.k) - g.z, Mul(g.r, g.d);
    hide Mul, Congruent;
    assert other == N * g.s - sk - g.z;
    Plus(sk, g.z + rd, other, rd);
    FromQuotient(N * g.s, 0, g.s);
    Plus(sk - other, g.z, N * g.s, 0);
    Reflexive(g.z);
    Plus(2 * sk + g.z, g.z, g.z, g.z);
  }

  lemma NonceCancels(g: Signing)
    requires Congruent(Mul(g.k, g.ki), 1) && Congruent(2 * Mul(g.s, g.k), 0)
    ensures Congruent(2 * g.s, 0)
  {
    MulIsProduct(g.s, g.k);
    MulIsProduct(g.k, g.ki);
    var sk := Mul(g.s, g.k);
    hide Mul, Congruent;
    Times(2 * sk, 0, g.ki);
    assert g.ki * (2 * sk) == 2 * g.s * (g.k * g.ki);
    Times(g.k * g.ki, 1, 2 * g.s);
    Symmetric(2 * g.s * (g.k * g.ki), 2 * g.s);
    Chain(2 * g.s, 2 * g.s * (g.k * g.ki), 0);
  }

  /** Of the two parities, exactly the one of the nonce's point recovers the key. */
  lemma ExactlyOneParity(c: Curve, g: Signing, parity: nat)
    requires Lawful(c) && Genuine(c, g) && parity < 2
    ensures Recover(c, g.z, g.r, g.s, parity) == g.d <==> parity == c.parity(g.k)
  {
    hide Mul;
    if parity == c.parity(g.k) {
      Plus(Mul(g.s, g.k), g.z + Mul(g.r, g.d), g.z, g.z);
      Divide(c, g, Mul(g.s, g.k));
    } else {
      assert c.lift(c.x(N - g.k), c.parity(N - g.k)) == N - g.k;
      OtherPointMisses(g, c);
      Divide(c, g, Mul(g.s, N - g.k));
    }
  }

  function NormalizeLowS(s: int): (low: int)
    ensures 0 < s < N ==> 0 < low <= HALF_N
    ensures low == s || low + s == N
  {
    if s > HALF_N then N - s else s
  }

  /** The nonce's negative signs the same digest with the negated s. */
  function Negated(g: Signing): Signing
    requires g.k <= N && g.s <= N
  {
    g.(k := N - g.k, ki := (N - 1) * g.ki, s := N - g.s)
  }

  lemma NegationSigns(c: Curve, g: Signing)
    requires Lawful(c) && Genuine(c, g)
    ensures Genuine(c, Negated(g))
  {
    var h := Negated(g);
    NegatedProducts(g);
    FromQuotient(Mul(h.k, h.ki), Mul(g.k, g.ki), (N - 1 - g.k) * g.ki);
    Chain(Mul(h.k, h.ki), Mul(g.k, g.ki), 1);
    FromQuotient(Mul(h.s, h.k), Mul(g.s, g.k), N - g.s - g.k);
    Chain(Mul(h.s, h.k), Mul(g.s, g.k), g.z + Mul(g.r, g.d));
  }

  lemma NegatedProducts(g: Signing)
    requires g.k <= N && g.s <= N
    ensures
      var h := Negated(g);
      && Mul(h.k, h.ki) - Mul(g.k, g.ki) == N * ((N - 1 - g.k) * g.ki)
      && Mul(h.s, h.k) - Mul(g.s, g.k) == N * (N - g.s - g.k)
  {
    var h := Negated(g);
    MulIsProduct(h.k, h.ki);
    MulIsProduct(g.k, g.ki);
    MulIsProduct(h.s, h.k);
    MulIsProduct(g.s, g.k);
  }

  /** The parity that recovers the key after normalisation. */
  function LowParity(c: Curve, g: Signing): int {
    if g.s > HALF_N then 1 - c.parity(g.k) else c.parity(g.k)
  }

  /** After low-S normalisation exactly one parity recovers the key: the nonce point's own if s was low already, and
    * the other one if s was negated. */
  lemma ExactlyOneLowParity(c: Curve, g: Signing, parity: nat)
    requires Lawful(c) && Genuine(c, g) && parity < 2
    ensures Recover(c, g.z, g.r, NormalizeLowS(g.s), parity) == g.d <==> parity == LowParity(c, g)
    ensures 0 <= LowParity(c, g) < 2
  {
    if g.s > HALF_N {
      NegationSigns(c, g);
      assert c.parity(N - g.k) == 1 - c.parity(g.k) by { assert c.x(N - g.k) == c.x(g.k); }
      ExactlyOneParity(c, Negated(g), parity);
    } else {
      ExactlyOneParity(c, g, parity);
    }
  }

  /** The candidate of the wrong parity is the point at infinity, which has no address, exactly when twice the digest
    * and r times the key cancel. */
  lemma WrongCandidate(c: Curve, g: Signing, parity: nat)
    requires Lawful(c) && Genuine(c, g) && parity < 2 && parity != c.parity(g.k)
    ensures Recover(c, g.z, g.r, g.s, parity) == 0 <==> Congruent(2 * g.z + Mul(g.r, g.d), 0)
  {
    hide Congruent;
    var sk, t := Mul(g.s, g.k), Mul(g.s, N - g.k) - g.z;
    assert c.lift(c.x(N - g.k), c.parity(N - g.k)) == N - g.k;
    assert Mul(g.r, 0) == 0;
    Cancel(g.r, c.inverse(g.r), t, 0);
    MulIsProduct(g.s, g.k);
    MulIsProduct(g.s, N - g.k);
    assert t == N * g.s - sk - g.z;
    hide Mul;
    MinusSum(t, g.z, sk, Mul(g.r, g.d), g.s);
    ZeroResidue(Mul(t, c.inverse(g.r)));
  }

  lemma ZeroResidue(a: int)
    ensures a % N == 0 <==> Congruent(a, 0)
  {
  }

  lemma MinusSum(t: int, z: int, sk: int, rd: int, q: int)
    requires t == N * q - sk - z && Congruent(sk, z + rd)
    ensures Congruent(t, 0) <==> Congruent(2 * z + rd, 0)
  {
    Reflexive(z);
    Plus(sk, z + rd, z, z);
    FromQuotient(N * q, 0, q);
    Plus(N * q, 0, sk + z, 2 * z + rd);       // t is congruent to -(2 z + rd)
    assert Congruent(t, -(2 * z + rd));
    Symmetric(t, -(2 * z + rd));
    if Congruent(t, 0) {
      Chain(-(2 * z + rd), t, 0);
      Times(-(2 * z + rd), 0, -1);
    }
    if Congruent(2 * z + rd, 0) {
      Times(2 * z + rd, 0, -1);
      Chain(t, -(2 * z + rd), 0);
    }
  }

  /** The addresses that recoverAddress gives for the two parities, tried in turn; a point at infinity makes it throw. */
  function SearchParity(c: Curve, address: nat -> nat, z: nat, r: nat, s: nat, expected: nat): Option<nat> {
    var q0, q1 := Recover(c, z, r, s, 0), Recover(c, z, r, s, 1);
    if q0 == 0 then None
    else if address(q0) == expected then Some(0)
    else if q1 == 0 then None
    else if address(q1) == expected then Some(1)
    else None
  }

  method FindMatchingYParity(c: Curve, address: nat -> nat, z: nat, r: nat, s: nat, expected: nat) returns (found: Option<nat>)
    ensures found == SearchParity(c, address, z, r, s, expected)
    ensures found.Some? ==> found.value < 2 && Recover(c, z, r, s, found.value) != 0 && address(Recover(c, z, r, s, found.value)) == expected
    ensures found == Some(1) ==> Recover(c, z, r, s, 0) != 0 && address(Recover(c, z, r, s, 0)) != expected
    ensures found.None? ==>
              || Recover(c, z, r, s, 0) == 0
              || (address(Recover(c, z, r, s, 0)) != expected
                  && (Recover(c, z, r, s, 1) == 0 || address(Recover(c, z, r, s, 1)) != expected))
  {
    found := None;
    var parity := 0;
    while parity < 2
      invariant 0 <= parity <= 2
      invariant forall v :: 0 <= v < parity ==> Recover(c, z, r, s, v) != 0 && address(Recover(c, z, r, s, v)) != expected
    {
      var recovered := Recover(c, z, r, s, parity);
      if recovered == 0 { return None; }
      if address(recovered) == expected { return Some(parity); }
      parity := parity + 1;
    }
  }

  /** Different keys have different addresses. */
  ghost predicate Injective(address: nat -> nat) {
    forall d, e {:trigger address(d), address(e)} :: d != e ==> address(d) != address(e)
  }

  /** The digest and the key for which the first candidate may have no address. */
  predicate Degenerate(g: Signing) { Congruent(2 * g.z + Mul(g.r, g.d), 0) }

  /** The search finds the parity that recovers the key, for every genuine signature but one kind: the parity is 1
    * and the candidate of parity 0, which is tried first, is the point at infinity. */
  lemma SearchFinds(c: Curve, address: nat -> nat, g: Signing)
    requires Lawful(c) && Genuine(c, g) && Injective(address)
    ensures SearchParity(c, address, g.z, g.r, NormalizeLowS(g.s), address(g.d))
            == if LowParity(c, g) == 1 && Degenerate(g) then None else Some(LowParity(c, g))
  {
    var low := NormalizeLowS(g.s);
    ExactlyOneLowParity(c, g, 0);
    ExactlyOneLowParity(c, g, 1);
    if LowParity(c, g) == 1 { LowCandidate(c, g); }
  }

  lemma LowCandidate(c: Curve, g: Signing)
    requires Lawful(c) && Genuine(c, g) && LowParity(c, g) == 1
    ensures Recover(c, g.z, g.r, NormalizeLowS(g.s), 0) == 0 <==> Degenerate(g)
  {
    if g.s > HALF_N {
      NegationSigns(c, g);
      assert c.parity(N - g.k) == 1 - c.parity(g.k) by { assert c.x(N - g.k) == c.x(g.k); }
      WrongCandidate(c, Negated(g), 0);
    } else {
      WrongCandidate(c, g, 0);
    }
  }

  datatype Signature = Signature(r: nat, s: nat, yParity: nat)

  /** From the KMS signature to the one on the transaction. For every genuine signature it ends with a low s and the
    * parity that recovers the signing key, except in the degenerate case. */
  method CompleteSignature(c: Curve, address: nat -> nat, z: nat, r: nat, s: nat, from: nat) returns (signature: Option<Signature>)
    requires Lawful(c) && Injective(address)
    ensures signature.Some? ==>
              && signature.value.r == r && (signature.value.s == s || signature.value.s == N - s) && signature.value.s <= HALF_N
              && address(Recover(c, z, r, signature.value.s, signature.value.yParity)) == from
    ensures forall g :: Genuine(c, g) && g.z == z && g.r == r && g.s == s && address(g.d) == from ==>
              && (signature.None? <==> LowParity(c, g) == 1 && Degenerate(g))
              && (signature.Some? ==>
                    && signature.value.r == r && 0 < signature.value.s <= HALF_N
                    && Recover(c, z, signature.value.r, signature.value.s, signature.value.yParity) == g.d)
  {
    var low := NormalizeLowS(s);
    if low < 0 { return None; }   // its hex form is no number, and recoverAddress throws
    var yParity := FindMatchingYParity(c, address, z, r, low, from);
    signature := if yParity.None? then None else Some(Signature(r, low, yParity.value));
    forall g | Genuine(c, g) && g.z == z && g.r == r && g.s == s && address(g.d) == from
      ensures signature.None? <==> LowParity(c, g) == 1 && Degenerate(g)
      ensures signature.Some? ==> Recover(c, z, r, low, signature.value.yParity) == g.d
    {
      SearchFinds(c, address, g);
      ExactlyOneLowParity(c, g, LowParity(c, g));
    }
  }

  /** A lawful curve, small enough to compute with. */
  const SAMPLE: Curve := Curve(
    k => if k <= HALF_N then k else if k <= N then N - k else 0,
    k => if k <= HALF_N then 0 else 1,
    (x, parity) => if parity == 0 then x else if x <= N then N - x else 0,
    a => a)

  lemma SampleAt(k: nat)
    requires 0 < k < N
    ensures SAMPLE.x(N - k) == SAMPLE.x(k) && SAMPLE.parity(k) < 2 && SAMPLE.parity(N - k) == 1 - SAMPLE.parity(k)
    ensures SAMPLE.lift(SAMPLE.x(k), SAMPLE.parity(k)) == k
  {
    assert HALF_N + HALF_N + 1 == N;
    if k <= HALF_N { assert N - k > HALF_N; } else { assert N - k <= HALF_N; }
  }

  lemma SampleIsLawful()
    ensures Lawful(SAMPLE)
  {
    forall k: nat | 0 < k < N
      ensures SAMPLE.x(N - k) == SAMPLE.x(k) && SAMPLE.parity(k) < 2 && SAMPLE.parity(N - k) == 1 - SAMPLE.parity(k)
      ensures SAMPLE.lift(SAMPLE.x(k), SAMPLE.parity(k)) == k
    {
      SampleAt(k);
    }
  }

  /** The degenerate case occurs: here the search fails on a genuine signature. */
  lemma SearchCanFail()
    ensures Lawful(SAMPLE) && Injective((d: nat) => d)
    ensures
      var g := Signing(1, N - 2, N - 1, N - 1, 1, 1);
      Genuine(SAMPLE, g) && SearchParity(SAMPLE, d => d, g.z, g.r, NormalizeLowS(g.s), g.d) == None
  {
    hide Lawful;
    SampleIsLawful();
    MulIsProduct(N - 1, N - 1);
    FromQuotient((N - 1) * (N - 1), 1, N - 2);
    MulIsProduct(1, N - 1);
    MulIsProduct(1, N - 2);
    MulIsProduct(1, 1);
    MulIsProduct(0, 1);
  }

  // ---------- every key has degenerate digests ----------

  const HALF: nat := (N + 1) / 2   // the inverse of 2

  lemma Doubled(h: int, x: int)
    requires h == x * HALF
    ensures Congruent(2 * h, x)
  {
    assert 2 * h - x == N * x;
    FromQuotient(2 * h, x, x);
  }

  /** A product with an invertible number vanishes only with the other factor. */
  lemma NoZero(a: int, b: int, bi: int)
    requires Congruent(b * bi, 1) && Congruent(a * b, 0)
    ensures Congruent(a, 0)
  {
    hide Congruent;
    Times(b * bi, 1, a);
    Times(a * b, 0, bi);
    assert bi * (a * b) == a * (b * bi);
    Symmetric(a * (b * bi), a * 1);
    Chain(a * 1, a * (b * bi), bi * 0);
  }

  /** For every curve, key and nonce there is a digest whose signature is degenerate. */
  lemma DegenerateDigest(c: Curve, d: nat, k: nat, ki: nat) returns (g: Signing)
    requires 0 < d < N && 0 < k < N && Congruent(Mul(k, ki), 1)
    requires 0 < c.x(k) < N && Congruent(Mul(c.x(k), c.inverse(c.x(k))), 1)
    ensures Genuine(c, g) && Degenerate(g) && g.d == d && g.k == k && g.ki == ki
  {
    var r := c.x(k);
    MulIsProduct(k, ki);
    MulIsProduct(r, c.inverse(r));
    MulIsProduct(r, d);
    var rd := r * d;
    var h := rd * HALF;
    var z, s := (-h) % N, (h * ki) % N;
    g := Signing(z, d, k, ki, r, s);
    Residue(-h);
    Residue(h * ki);
    Doubled(h, rd);
    DegenerateSum(z, h, rd);
    DegenerateSignature(s, k, ki, z, h, rd);
    MulIsProduct(s, k);
    if s == 0 {
      DegenerateVanishes(r, c.inverse(r), d, h, k, ki);
      Same(d, 0);
    }
  }

  lemma DegenerateSum(z: int, h: int, rd: int)
    requires Congruent(z, -h) && Congruent(2 * h, rd)
    ensures Congruent(2 * z + rd, 0) && Congruent(z + rd, h)
  {
    hide Congruent;
    Times(z, -h, 2);
    Symmetric(2 * h, rd);
    Plus(2 * z, 2 * (-h), rd, 2 * h);
    Plus(z, -h, rd, 2 * h);
  }

  lemma DegenerateSignature(s: int, k: int, ki: int, z: int, h: int, rd: int)
    requires Congruent(s, h * ki) && Congruent(k * ki, 1) && Congruent(z + rd, h)
    ensures Congruent(s * k, z + rd)
  {
    hide Congruent;
    Times(s, h * ki, k);
    Times(k * ki, 1, h);
    assert k * (h * ki) == h * (k * ki) && k * s == s * k;
    Chain(s * k, h * (k * ki), h * 1);
    Symmetric(z + rd, h);
    Chain(s * k, h, z + rd);
  }

  lemma DegenerateVanishes(r: int, ri: int, d: int, h: int, k: int, ki: int)
    requires Congruent(r * ri, 1) && Congruent(k * ki, 1) && Congruent(2 * h, r * d) && Congruent(0, h * ki)
    ensures Congruent(d, 0)
  {
    hide Congruent;
    Symmetric(0, h * ki);
    assert ki * k == k * ki && d * r == r * d;
    NoZero(h, ki, k);
    Times(h, 0, 2);
    Symmetric(2 * h, r * d);
    Chain(r * d, 2 * h, 2 * 0);
    NoZero(d, r, ri);
  }

  // ---------- hex ----------

  function HexDigit(d: nat): (c: char)
    requires d < 16
    ensures c == "0123456789abcdef"[d]
  {
    if d < 10 then '0' + d as char else 'a' + (d - 10) as char
  }

  function DigitValue(c: char): nat {
    if '0' <= c <= '9' then c as int - '0' as int
    else if 'a' <= c <= 'f' then c as int - 'a' as int + 10
    else 0
  }

  /** value.toString(16) */
  function HexOf(v: nat): (s: string)
    ensures |s| > 0
  {
    if v < 16 then [HexDigit(v)] else HexOf(v / 16) + [HexDigit(v % 16)]
  }

  function PadStart(s: string, width: nat): (t: string)
    decreases width - |s|
  {
    if |s| >= width then s else PadStart(['0'] + s, width)
  }

  function To32ByteHex(v: nat): string {
    "0x" + PadStart(HexOf(v), 64)
  }

  function ValueOf(s: string): nat {
    if |s| == 0 then 0 else 16 * ValueOf(s[..|s| - 1]) + DigitValue(s[|s| - 1])
  }

  function Pow16(n: nat): (p: nat)
    ensures p > 0
  {
    if n == 0 then 1 else 16 * Pow16(n - 1)
  }

  lemma {:induction false} HexValue(v: nat)
    ensures ValueOf(HexOf(v)) == v
  {
    if v < 16 {
      assert HexOf(v)[..0] == "";
    } else {
      HexValue(v / 16);
      assert HexOf(v)[..|HexOf(v)| - 1] == HexOf(v / 16);
    }
  }

  lemma {:induction false} HexLength(v: nat, n: nat)
    requires v < Pow16(n) && n > 0
    ensures |HexOf(v)| <= n
  {
    if v >= 16 {
      assert n > 1 by { assert Pow16(1) == 16; }
      assert Pow16(n) == 16 * Pow16(n - 1);
      HexLength(v / 16, n - 1);
    }
  }

  lemma {:induction false} LeadingZero(s: string)
    ensures ValueOf(['0'] + s) == ValueOf(s)
  {
    var t := ['0'] + s;
    if |s| == 0 {
      assert t[..0] == "";
    } else {
      LeadingZero(s[..|s| - 1]);
      assert t[..|t| - 1] == ['0'] + s[..|s| - 1];
    }
  }

  lemma {:induction false} PadKeeps(s: string, width: nat)
    ensures ValueOf(PadStart(s, width)) == ValueOf(s)
    ensures |PadStart(s, width)| == if |s| <= width then width else |s|
    decreases width - |s|
  {
    if |s| < width {
      PadKeeps(['0'] + s, width);
      LeadingZero(s);
    }
  }

  lemma {:induction false} PowPlus(m: nat, n: nat)
    ensures Pow16(m + n) == Pow16(m) * Pow16(n)
  {
    if m > 0 { PowPlus(m - 1, n); }
  }

  lemma OrderFits()
    ensures N < Pow16(64)
  {
    assert Pow16(4) == 0x1_0000;
    PowPlus(4, 4);
    PowPlus(8, 8);
    PowPlus(16, 16);
    PowPlus(32, 32);
  }

  /** Every number of at most 32 bytes, hence every r and s, has a hex form of 0x and exactly 64 digits, which reads
    * back as the number. */
  lemma HexRoundTrip(v: nat)
    requires v < Pow16(64)
    ensures |To32ByteHex(v)| == 66 && To32ByteHex(v)[..2] == "0x" && ValueOf(To32ByteHex(v)[2..]) == v
    ensures N < Pow16(64)
  {
    OrderFits();
    HexLength(v, 64);
    HexValue(v);
    PadKeeps(HexOf(v), 64);
    assert To32ByteHex(v)[2..] == PadStart(HexOf(v), 64);
  }
}
