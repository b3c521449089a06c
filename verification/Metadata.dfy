/**
  The free-form metadata of a model version: JSON values, compared the way Python
  compares them.  A boolean equals the number it stands for, and a whole number
  equals the same number written as a fraction, if a double can hold it.
*/
module Metadata {
  import opened Redis

  const MANTISSA := 0x20_0000_0000_0000

  /** Halved at most so often, the number fits into the 53 bits of a double's mantissa. */
  predicate Fits(n: nat, halvings: nat)
    decreases halvings
  {
    n < MANTISSA || (halvings > 0 && n % 2 == 0 && Fits(n / 2, halvings - 1))
  }

  /** The whole numbers that are doubles; the exponent goes up to 971. */
  predicate IsDouble(n: int) { Fits(if n < 0 then -n else n, 971) }

  /** What a number written with a fraction is read as: if whole, then one that a double can hold. */
  type Double = r: real | r.Floor as real != r || IsDouble(r.Floor) witness 0.0

  /** m times two to the k. */
  function Scaled(m: nat, k: nat): nat { if k == 0 then m else 2 * Scaled(m, k - 1) }

  lemma {:induction false} ScaledFits(m: nat, k: nat, halvings: nat)
    requires m < MANTISSA && k <= halvings
    ensures Fits(Scaled(m, k), halvings)
    decreases k
  {
    if k > 0 {
      ScaledFits(m, k - 1, halvings - 1);
      assert Scaled(m, k) / 2 == Scaled(m, k - 1);
    }
  }

  lemma {:induction false} FitsScaled(n: nat, halvings: nat) returns (m: nat, k: nat)
    requires Fits(n, halvings)
    ensures n == Scaled(m, k) && m < MANTISSA && k <= halvings
    decreases halvings
  {
    if n < MANTISSA {
      m, k := n, 0;
    } else {
      m, k := FitsScaled(n / 2, halvings - 1);
      k := k + 1;
    }
  }

  /** Such a number is a mantissa of 53 bits times a power of two. */
  lemma FitsExactly(n: nat, halvings: nat)
    ensures Fits(n, halvings) <==> exists m: nat, k: nat :: n == Scaled(m, k) && m < MANTISSA && k <= halvings
  {
    if Fits(n, halvings) {
      var m, k := FitsScaled(n, halvings);
    }
    forall m: nat, k: nat | n == Scaled(m, k) && m < MANTISSA && k <= halvings ensures Fits(n, halvings) {
      ScaledFits(m, k, halvings);
    }
  }

  datatype Json =
    | Null
    | Truth(holds: bool)
    | Whole(count: int)
    | Fraction(amount: Double)
    | Text(text: string)
    | Items(items: seq<Json>)
    | Object(fields: map<string, Json>)

  /** The number a value counts as. */
  function Number(j: Json): Option<real> {
    match j
    case Truth(holds) => Some(if holds then 1.0 else 0.0)
    case Whole(count) => Some(count as real)
    case Fraction(amount) => Some(amount)
    case _ => None
  }

  /** Python's `==` on parsed JSON. */
  predicate Equal(a: Json, b: Json)
    decreases a
  {
    match a
    case Null => b.Null?
    case Text(_) => a == b
    case Items(xs) => b.Items? && |xs| == |b.items| && forall i :: 0 <= i < |xs| ==> Equal(xs[i], b.items[i])
    case Object(f) => b.Object? && f.Keys == b.fields.Keys && forall k :: k in f ==> Equal(f[k], b.fields[k])
    case _ => Number(a) == Number(b)
  }

  /** Every number spelled the same way: without a fraction where it has none. */
  function Plain(j: Json): Json
    decreases j
  {
    match j
    case Items(xs) => Items(seq(|xs|, i requires 0 <= i < |xs| => Plain(xs[i])))
    case Object(f) => Object(map k | k in f :: Plain(f[k]))
    case Truth(holds) => Whole(if holds then 1 else 0)
    case Fraction(amount) => if amount.Floor as real == amount then Whole(amount.Floor) else j
    case _ => j
  }

  /** No value in it has another spelling. */
  predicate Unambiguous(j: Json)
    decreases j
  {
    match j
    case Truth(_) => false
    case Whole(count) => !IsDouble(count)
    case Fraction(amount) => amount.Floor as real != amount
    case Items(xs) => forall i :: 0 <= i < |xs| ==> Unambiguous(xs[i])
    case Object(f) => forall k :: k in f ==> Unambiguous(f[k])
    case _ => true
  }

  /** Equality is sameness of the plain form, so it is an equivalence. */
  lemma {:induction false} EqualExactly(a: Json, b: Json)
    ensures Equal(a, b) <==> Plain(a) == Plain(b)
    decreases a
  {
    if a.Items? && b.Items? {
      EqualItems(a, b);
    } else if a.Object? && b.Object? {
      EqualObjects(a, b);
    }
  }

  lemma {:induction false} EqualItems(a: Json, b: Json)
    requires a.Items? && b.Items?
    ensures Equal(a, b) <==> Plain(a) == Plain(b)
    decreases a, 0
  {
    forall i | 0 <= i < |a.items| && i < |b.items|
      ensures Equal(a.items[i], b.items[i]) <==> Plain(a.items[i]) == Plain(b.items[i])
    {
      EqualExactly(a.items[i], b.items[i]);
    }
    var xs, ys := Plain(a).items, Plain(b).items;
    assert |xs| == |a.items| && |ys| == |b.items|;
    assert forall i :: 0 <= i < |xs| ==> xs[i] == Plain(a.items[i]);
    assert forall i :: 0 <= i < |ys| ==> ys[i] == Plain(b.items[i]);
    if Equal(a, b) { assert xs == ys; }
    if Plain(a) == Plain(b) {
      assert xs == ys;
      forall i | 0 <= i < |xs| ensures Equal(a.items[i], b.items[i]) { assert xs[i] == ys[i]; }
    }
  }

  lemma {:induction false} EqualObjects(a: Json, b: Json)
    requires a.Object? && b.Object?
    ensures Equal(a, b) <==> Plain(a) == Plain(b)
    decreases a, 0
  {
    forall k | k in a.fields && k in b.fields
      ensures Equal(a.fields[k], b.fields[k]) <==> Plain(a.fields[k]) == Plain(b.fields[k])
    {
      EqualExactly(a.fields[k], b.fields[k]);
    }
    var f, g := Plain(a).fields, Plain(b).fields;
    assert f.Keys == a.fields.Keys && g.Keys == b.fields.Keys;
    if Equal(a, b) { assert f == g; }
    if Plain(a) == Plain(b) {
      forall k | k in a.fields ensures k in b.fields && Equal(a.fields[k], b.fields[k]) {
        assert k in f && k in g && f[k] == g[k];
      }
    }
  }

  /** What is unambiguous equals nothing but itself. */
  lemma {:induction false} UnambiguousIsItself(a: Json, b: Json)
    requires Unambiguous(a) && Equal(a, b)
    ensures a == b
    decreases a
  {
    match a {
      case Items(xs) =>
        forall i | 0 <= i < |xs| ensures xs[i] == b.items[i] { UnambiguousIsItself(xs[i], b.items[i]); }
        assert xs == b.items;
      case Object(f) =>
        forall k | k in f ensures f[k] == b.fields[k] { UnambiguousIsItself(f[k], b.fields[k]); }
        assert f == b.fields;
      case _ =>
    }
  }

  lemma EqualSelf(a: Json)
    ensures Equal(a, a)
  {
    EqualExactly(a, a);
  }

  /** Anything else equals some other value. */
  lemma {:induction false} Respelled(a: Json) returns (b: Json)
    requires !Unambiguous(a)
    ensures a != b && Equal(a, b)
    decreases a
  {
    match a {
      case Truth(holds) => b := Whole(if holds then 1 else 0);
      case Whole(count) => b := Fraction(count as real);
      case Fraction(amount) => b := Whole(amount.Floor);
      case Items(xs) =>
        var i :| 0 <= i < |xs| && !Unambiguous(xs[i]);
        var other := Respelled(xs[i]);
        b := Items(xs[i := other]);
        assert b.items[i] != xs[i];
        forall j | 0 <= j < |xs| ensures Equal(xs[j], b.items[j]) { EqualSelf(xs[j]); }
      case Object(f) =>
        var k :| k in f && !Unambiguous(f[k]);
        var other := Respelled(f[k]);
        b := Object(f[k := other]);
        assert b.fields[k] != f[k];
        forall j | j in f ensures Equal(f[j], b.fields[j]) { EqualSelf(f[j]); }
    }
  }

  /** 2^53 + 1 is no double, so it equals nothing but itself. */
  lemma LargeWholeIsItself(b: Json)
    requires Equal(Whole(9007199254740993), b)
    ensures b == Whole(9007199254740993)
  {
    assert !Fits(9007199254740993, 971);
    UnambiguousIsItself(Whole(9007199254740993), b);
  }
}
