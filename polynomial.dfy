/**
 * Polynomial arithmetic on coefficient sequences (src/polynomial.ts). Index k holds the
 * coefficient of M^k for a symbolic "very large" M; `makePoly` encodes the infinities as
 * the polynomials -M and +M, and `comp` orders polynomials by their behaviour as M grows.
 * Coefficients are exact reals.
 */
module Polynomials {
  type Polynomial = seq<real>

  /** An input of `makePoly`: a finite number or one of the two infinities. */
  datatype Extended = NegInfinity | Finite(v: real) | PosInfinity

  /** The usual order on the extended reals, as -1, 0 or 1. */
  function CompareExtended(x: Extended, y: Extended): int {
    match (x, y)
    case (NegInfinity, NegInfinity) => 0
    case (NegInfinity, _) => -1
    case (PosInfinity, PosInfinity) => 0
    case (PosInfinity, _) => 1
    case (Finite(_), NegInfinity) => 1
    case (Finite(_), PosInfinity) => -1
    case (Finite(u), Finite(w)) => if u > w then 1 else if u < w then -1 else 0
  }

  /** `makePoly`: -infinity is [0, -1], +infinity is [0, 1], a finite x is [x]. A finite
      number is a constant polynomial; an infinity is the polynomial M or -M, with no
      constant part and the sign of the infinity as its leading sign. */
  function MakePoly(x: Extended): (r: Polynomial)
    ensures |r| == if x.Finite? then 1 else 2
    ensures r[0] == if x.Finite? then x.v else 0.0
    ensures x.PosInfinity? ==> LeadingSign(r) == 1
    ensures x.NegInfinity? ==> LeadingSign(r) == -1
  {
    match x
    case NegInfinity => [0.0, -1.0]
    case PosInfinity => [0.0, 1.0]
    case Finite(v) => [v]
  }

  /** Coefficient k, reading zero beyond either end. */
  function Coef(p: Polynomial, k: int): real {
    if 0 <= k < |p| then p[k] else 0.0
  }

  function Max(m: int, n: int): int {
    if m < n then n else m
  }

  /** `replicate(n, v)`: n copies of v, none when n is not positive. */
  function Replicate(n: int, v: real): (r: seq<real>)
    ensures |r| == Max(n, 0)
    ensures forall k :: 0 <= k < |r| ==> r[k] == v
  {
    if n <= 0 then [] else Replicate(n - 1, v) + [v]
  }

  /** `zipWith`: combines the two sequences position by position, up to the shorter one. */
  function ZipWith(s: seq<real>, t: seq<real>, f: (real, real) -> real): (r: seq<real>)
    ensures |r| == if |s| < |t| then |s| else |t|
    ensures forall k :: 0 <= k < |r| ==> r[k] == f(s[k], t[k])
  {
    if |s| == 0 || |t| == 0 then [] else [f(s[0], t[0])] + ZipWith(s[1..], t[1..], f)
  }

  /** Pads p with zeros up to length n. */
  function Padded(p: Polynomial, n: int): Polynomial {
    p + Replicate(n - |p|, 0.0)
  }

  /** `add`: both operands are zero-padded to the longer length and added pointwise. */
  function Add(a: Polynomial, b: Polynomial): (r: Polynomial)
    ensures |r| == Max(|a|, |b|)
    ensures forall k :: Coef(r, k) == Coef(a, k) + Coef(b, k)
  {
    var n := Max(|a|, |b|);
    ZipWith(Padded(a, n), Padded(b, n), (p, q) => p + q)
  }

  /** `sub`: both operands are zero-padded to the longer length and subtracted pointwise. */
  function Sub(a: Polynomial, b: Polynomial): (r: Polynomial)
    ensures |r| == Max(|a|, |b|)
    ensures forall k :: Coef(r, k) == Coef(a, k) - Coef(b, k)
  {
    var n := Max(|a|, |b|);
    ZipWith(Padded(a, n), Padded(b, n), (p, q) => p - q)
  }

  /** Addition does not depend on the order of its operands. */
  lemma AddCommutative(a: Polynomial, b: Polynomial)
    ensures Add(a, b) == Add(b, a)
  {
    var r, s := Add(a, b), Add(b, a);
    forall k | 0 <= k < |r|
      ensures r[k] == s[k]
    {
      assert Coef(r, k) == Coef(s, k);
    }
  }

  /** Subtracting b and adding it back gives a's coefficients (padded to the longer length). */
  lemma SubThenAdd(a: Polynomial, b: Polynomial)
    ensures Add(Sub(a, b), b) == Padded(a, Max(|a|, |b|))
  {
    var r, p := Add(Sub(a, b), b), Padded(a, Max(|a|, |b|));
    forall k | 0 <= k < |r|
      ensures r[k] == p[k]
    {
      assert Coef(r, k) == Coef(Sub(a, b), k) + Coef(b, k);
    }
  }

  /** a - a has only zero coefficients. */
  lemma SubSelf(a: Polynomial)
    ensures Sub(a, a) == Replicate(|a|, 0.0)
  {
    var r := Sub(a, a);
    forall k | 0 <= k < |r|
      ensures r[k] == 0.0
    {
      assert Coef(r, k) == Coef(a, k) - Coef(a, k);
    }
  }

  /** The expectations of tst/polynomial.test.ts. */
  lemma AddSubExamples()
    ensures Add([], []) == [] && Add([], [0.0]) == [0.0] && Add([], [1.0]) == [1.0]
    ensures Add([1.0, 2.0, 4.0], [5.0, 0.0, 10.0, 6.0]) == [6.0, 2.0, 14.0, 6.0]
    ensures Sub([], []) == [] && Sub([], [0.0]) == [0.0] && Sub([], [1.0]) == [-1.0]
    ensures Sub([1.0, 2.0, 4.0], [5.0, 0.0, 10.0, 6.0]) == [-4.0, 2.0, -6.0, -6.0]
  {
    var a, b := [1.0, 2.0, 4.0], [5.0, 0.0, 10.0, 6.0];
    var s, d := Add(a, b), Sub(a, b);
    assert Coef(s, 0) == 6.0 && Coef(s, 1) == 2.0 && Coef(s, 2) == 14.0 && Coef(s, 3) == 6.0;
    assert Coef(d, 0) == -4.0 && Coef(d, 1) == 2.0 && Coef(d, 2) == -6.0 && Coef(d, 3) == -6.0;
    assert Coef(Add([], [0.0]), 0) == 0.0;
    assert Coef(Add([], [1.0]), 0) == 1.0;
    assert Coef(Sub([], [0.0]), 0) == 0.0;
    assert Coef(Sub([], [1.0]), 0) == -1.0;
  }

  /** The first n terms of the convolution at index k: the sum over i < n of a[i] * b[k - i]. */
  function PartialConv(a: Polynomial, b: Polynomial, k: int, n: nat): real
    requires n <= |a|
  {
    if n == 0 then 0.0 else PartialConv(a, b, k, n - 1) + a[n - 1] * Coef(b, k - (n - 1))
  }

  /** Coefficient k of the product: the sum of a[i] * b[j] over all i + j == k. */
  function Conv(a: Polynomial, b: Polynomial, k: int): real {
    PartialConv(a, b, k, |a|)
  }

  /** Past index |a| + |b| - 2 every term of the convolution vanishes, so the product's
      length loses no coefficient. */
  lemma {:induction false} PartialConvVanishes(a: Polynomial, b: Polynomial, k: int, n: nat)
    requires n <= |a|
    requires k >= n - 1 + |b|
    ensures PartialConv(a, b, k, n) == 0.0
  {
    if n > 0 {
      PartialConvVanishes(a, b, k, n - 1);
      assert Coef(b, k - (n - 1)) == 0.0;
    }
  }

  lemma ConvVanishesBeyondProduct(a: Polynomial, b: Polynomial, k: int)
    requires k >= |a| + |b| - 1
    ensures Conv(a, b, k) == 0.0
  {
    PartialConvVanishes(a, b, k, |a|);
  }

  /** Multiplying by the constant polynomial [c] scales every coefficient by c. */
  lemma ConvByConstant(c: real, b: Polynomial, k: int)
    ensures Conv([c], b, k) == c * Coef(b, k)
  {
    assert PartialConv([c], b, k, 1) == PartialConv([c], b, k, 0) + c * Coef(b, k);
  }

  /** The length `mult` allocates: |a| + |b| - 1 zeros, or none when both are empty. */
  function ProductLength(a: Polynomial, b: Polynomial): nat {
    if |a| + |b| == 0 then 0 else |a| + |b| - 1
  }

  /** `mult`: a zero-filled array of the product's length, to which every a[i] * b[j] is
      added at index i + j by two nested loops. */
  method Mult(a: Polynomial, b: Polynomial) returns (product: Polynomial)
    ensures |product| == ProductLength(a, b)
    ensures forall k :: 0 <= k < |product| ==> product[k] == Conv(a, b, k)
  {
    var n := ProductLength(a, b);
    var p := new real[n](_ => 0.0);
    for i := 0 to |a|
      invariant forall k :: 0 <= k < n ==> p[k] == PartialConv(a, b, k, i)
    {
      for j := 0 to |b|
        invariant forall k :: 0 <= k < n ==>
          p[k] == PartialConv(a, b, k, i) + (if i <= k < i + j then a[i] * b[k - i] else 0.0)
      {
        p[i + j] := p[i + j] + a[i] * b[j];
      }
    }
    product := p[..];
  }

  /** Each coefficient of the example product sums three terms, one per coefficient of a. */
  lemma ExampleConv(k: int)
    ensures Conv([1.0, 2.0, 4.0], [5.0, 0.0, 10.0, 6.0], k)
      == 1.0 * Coef([5.0, 0.0, 10.0, 6.0], k) + 2.0 * Coef([5.0, 0.0, 10.0, 6.0], k - 1)
         + 4.0 * Coef([5.0, 0.0, 10.0, 6.0], k - 2)
  {
    var a, b := [1.0, 2.0, 4.0], [5.0, 0.0, 10.0, 6.0];
    assert PartialConv(a, b, k, 2) == PartialConv(a, b, k, 1) + a[1] * Coef(b, k - 1);
  }

  /** The product of tst/polynomial.test.ts. */
  method MultExample() returns (product: Polynomial)
    ensures product == [5.0, 10.0, 30.0, 26.0, 52.0, 24.0]
  {
    var a, b := [1.0, 2.0, 4.0], [5.0, 0.0, 10.0, 6.0];
    product := Mult(a, b);
    assert Coef(b, -2) == 0.0 && Coef(b, -1) == 0.0 && Coef(b, 0) == 5.0 && Coef(b, 1) == 0.0;
    assert Coef(b, 2) == 10.0 && Coef(b, 3) == 6.0 && Coef(b, 4) == 0.0 && Coef(b, 5) == 0.0;
    ExampleConv(0);
    ExampleConv(1);
    ExampleConv(2);
    ExampleConv(3);
    ExampleConv(4);
    ExampleConv(5);
  }

  /** The highest index holding a nonzero coefficient, or -1 when every coefficient is zero. */
  function HighestNonzero(p: Polynomial): (h: int)
    ensures -1 <= h < |p|
    ensures h >= 0 ==> p[h] != 0.0
    ensures forall k :: h < k < |p| ==> p[k] == 0.0
  {
    if |p| == 0 then -1
    else if p[|p| - 1] != 0.0 then |p| - 1
    else HighestNonzero(p[..|p| - 1])
  }

  /** The three properties above pin down the index: any h with them is HighestNonzero(p). */
  lemma HighestNonzeroUnique(p: Polynomial, h: int)
    requires -1 <= h < |p|
    requires h >= 0 ==> p[h] != 0.0
    requires forall k :: h < k < |p| ==> p[k] == 0.0
    ensures HighestNonzero(p) == h
  {
  }

  /** The sign of the highest-index nonzero coefficient, or 0 when every coefficient is zero. */
  function LeadingSign(p: Polynomial): int {
    var h := HighestNonzero(p);
    if h < 0 then 0 else if p[h] > 0.0 then 1 else -1
  }

  /** `comp`: scans a - b from the highest index down and answers with the sign of the first
      nonzero coefficient, 0 if there is none. */
  method Comp(a: Polynomial, b: Polynomial) returns (r: int)
    ensures r == LeadingSign(Sub(a, b))
  {
    var res := Sub(a, b);
    var i := |res| - 1;
    while i >= 0
      invariant -1 <= i < |res|
      invariant forall k :: i < k < |res| ==> res[k] == 0.0
    {
      if res[i] > 0.0 {
        return 1;
      } else if res[i] < 0.0 {
        return -1;
      }
      i := i - 1;
    }
    return 0;
  }

  /** A polynomial compares equal to itself. */
  lemma CompSelf(a: Polynomial)
    ensures LeadingSign(Sub(a, a)) == 0
  {
    var r := Sub(a, a);
    forall k | 0 <= k < |r|
      ensures r[k] == 0.0
    {
      assert Coef(r, k) == Coef(a, k) - Coef(a, k);
    }
  }

  /** Exchanging the operands of `comp` negates its answer. */
  lemma CompAntisymmetric(a: Polynomial, b: Polynomial)
    ensures LeadingSign(Sub(a, b)) == -LeadingSign(Sub(b, a))
  {
    var r, s := Sub(a, b), Sub(b, a);
    forall k | 0 <= k < |r|
      ensures s[k] == -r[k]
    {
      assert Coef(r, k) == Coef(a, k) - Coef(b, k);
      assert Coef(s, k) == Coef(b, k) - Coef(a, k);
    }
    HighestNonzeroUnique(s, HighestNonzero(r));
  }

  /** On the encodings of `makePoly`, `comp` is the order of the extended reals: in
      particular +infinity exceeds every finite number and -infinity is below it. */
  lemma CompMakePoly(x: Extended, y: Extended)
    ensures LeadingSign(Sub(MakePoly(x), MakePoly(y))) == CompareExtended(x, y)
  {
    var r := Sub(MakePoly(x), MakePoly(y));
    assert forall k :: 0 <= k < |r| ==> r[k] == Coef(r, k);
    if x.Finite? && y.Finite? {
      assert |r| == 1 && r[0] == x.v - y.v;
    } else {
      assert |r| == 2;
      assert r[1] == Coef(MakePoly(x), 1) - Coef(MakePoly(y), 1);
      if x == y {
        assert r[0] == 0.0 && r[1] == 0.0;
      } else if (x.Finite? && y == PosInfinity) || x == NegInfinity {
        assert r[1] < 0.0;
      } else {
        assert r[1] > 0.0;
      }
    }
  }
}
