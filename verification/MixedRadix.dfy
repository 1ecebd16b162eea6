/**
  Mixed-radix digits, least significant first: dividing an index through a list
  of radices and putting it back together are inverse below their product.
 */
module MixedRadix {
  import opened NumberTheory

  predicate Positive(radices: seq<nat>) {
    forall i :: 0 <= i < |radices| ==> radices[i] > 0
  }

  function Product(radices: seq<nat>): nat {
    if radices == [] then 1 else radices[0] * Product(radices[1..])
  }

  function Digits(index: nat, radices: seq<nat>): (d: seq<nat>)
    requires Positive(radices)
    ensures |d| == |radices| && forall i :: 0 <= i < |d| ==> d[i] < radices[i]
    decreases |radices|
  {
    if radices == [] then [] else [index % radices[0]] + Digits(index / radices[0], radices[1..])
  }

  function Number(digits: seq<nat>, radices: seq<nat>): nat
    requires |digits| == |radices|
    decreases |radices|
  {
    if radices == [] then 0 else digits[0] + radices[0] * Number(digits[1..], radices[1..])
  }

  lemma {:induction false} ProductIsPositive(radices: seq<nat>)
    requires Positive(radices)
    ensures Product(radices) > 0
    decreases |radices|
  {
    if radices != [] {
      ProductIsPositive(radices[1..]);
      MultipleIsNoSmaller(radices[0], Product(radices[1..]));
    }
  }

  lemma QuotientIsSmaller(index: nat, r: nat, rest: nat)
    requires r > 0 && index < r * rest
    ensures index / r < rest
  {
    var q := index / r;
    assert index == r * q + index % r;
    if q >= rest {
      Distributes(r, q, rest);
      assert false;
    }
  }

  /** An index below the product is recovered from its digits. */
  lemma {:induction false} DigitsThenNumber(index: nat, radices: seq<nat>)
    requires Positive(radices) && index < Product(radices)
    ensures Number(Digits(index, radices), radices) == index
    decreases |radices|
  {
    if radices != [] {
      var r := radices[0];
      QuotientIsSmaller(index, r, Product(radices[1..]));
      DigitsThenNumber(index / r, radices[1..]);
      assert Digits(index, radices)[1..] == Digits(index / r, radices[1..]);
    }
  }

  /** Digits within their radices are recovered from their number, which stays
      below the product. */
  lemma {:induction false} NumberThenDigits(digits: seq<nat>, radices: seq<nat>)
    requires Positive(radices) && |digits| == |radices| && forall i :: 0 <= i < |digits| ==> digits[i] < radices[i]
    ensures Digits(Number(digits, radices), radices) == digits
    ensures Number(digits, radices) < Product(radices)
    decreases |radices|
  {
    if radices != [] {
      var r, rest := radices[0], Number(digits[1..], radices[1..]);
      NumberThenDigits(digits[1..], radices[1..]);
      UniqueRemainder(digits[0] + r * rest, r, rest, digits[0]);
      assert [digits[0]] + digits[1..] == digits;
      Distributes(r, Product(radices[1..]), rest);
      MultipleIsNoSmaller(r, Product(radices[1..]) - rest);
    }
  }

  /** Below the product, equal digits mean equal indices. */
  lemma DigitsAreFaithful(a: nat, b: nat, radices: seq<nat>)
    requires Positive(radices) && a < Product(radices) && b < Product(radices)
    ensures Digits(a, radices) == Digits(b, radices) <==> a == b
  {
    DigitsThenNumber(a, radices);
    DigitsThenNumber(b, radices);
  }
}
