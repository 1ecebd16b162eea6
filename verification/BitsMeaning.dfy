/**
  What the word operations mean.  Exclusive or works bit by bit, the rotation
  moves the high bits below the low ones, the encoding of a character can be read
  back, and a hash that is folded value by value tells apart two lists that
  differ in one place.
 */
module BitsMeaning {
  import opened Bits
  import opened NumberTheory

  // --------------------------------------------------------------------- bits

  /** The bit of a number at a place, the lowest at place zero. */
  predicate BitAt(n: nat, k: nat) {
    if k == 0 then n % 2 == 1 else BitAt(n / 2, k - 1)
  }

  lemma {:induction false} NoBitsInZero(k: nat)
    ensures !BitAt(0, k)
  {
    if k > 0 {
      NoBitsInZero(k - 1);
    }
  }

  /** A bit of the exclusive or is set where exactly one of the two numbers has it. */
  lemma {:induction false} XorMeans(a: nat, b: nat, k: nat)
    ensures BitAt(Xor(a, b), k) <==> BitAt(a, k) != BitAt(b, k)
  {
    NoBitsInZero(k);
    if a != 0 && b != 0 {
      var halves, odd := Xor(a / 2, b / 2), if a % 2 == b % 2 then 0 else 1;
      assert Xor(a, b) == 2 * halves + odd;
      if k > 0 {
        XorMeans(a / 2, b / 2, k - 1);
        assert (2 * halves + odd) / 2 == halves;
      }
    }
  }

  /** Doing it twice undoes it, */
  lemma {:induction false} XorUndoes(a: nat, b: nat)
    ensures Xor(a, Xor(a, b)) == b && Xor(Xor(a, b), b) == a
    decreases a + b
  {
    if a != 0 && b != 0 {
      var halves, odd := Xor(a / 2, b / 2), if a % 2 == b % 2 then 0 else 1;
      XorUndoes(a / 2, b / 2);
      var x := Xor(a, b);
      assert x == 2 * halves + odd && x / 2 == halves && x % 2 == odd;
      if x == 0 {
        assert halves == 0;
        assert Xor(a / 2, 0) == a / 2;
      }
    } else {
      XorWithItself(a);
      XorWithItself(b);
    }
  }

  lemma {:induction false} XorWithItself(a: nat)
    ensures Xor(a, a) == 0
  {
    if a != 0 {
      XorWithItself(a / 2);
    }
  }

  /** And it keeps to its width. */
  lemma {:induction false} XorStaysBelow(a: nat, b: nat, bits: nat)
    requires a < Power(bits) && b < Power(bits)
    ensures Xor(a, b) < Power(bits)
  {
    if a != 0 && b != 0 {
      XorStaysBelow(a / 2, b / 2, bits - 1);
    }
  }

  function Power(k: nat): nat {
    if k == 0 then 1 else 2 * Power(k - 1)
  }

  lemma WordHas64Bits()
    ensures Power(64) == WORD
  {
    assert Power(8) == 0x100;
    assert Power(16) == 0x1_0000;
    assert Power(24) == 0x100_0000;
    assert Power(32) == 0x1_0000_0000;
    assert Power(40) == 0x100_0000_0000;
    assert Power(48) == 0x1_0000_0000_0000;
    assert Power(56) == 0x100_0000_0000_0000;
  }

  /** Rotating a word puts its 23 highest bits below its 41 lowest. */
  lemma RotationMeans(high: nat, low: nat)
    requires high < 0x80_0000 && low < 0x200_0000_0000
    ensures RotateLeft23(high * 0x200_0000_0000 + low) == low * 0x80_0000 + high
  {
    var n := high * 0x200_0000_0000 + low;
    assert n * 0x80_0000 == WORD * high + low * 0x80_0000;
    UniqueRemainder(n * 0x80_0000, WORD, high, low * 0x80_0000);
    UniqueRemainder(n, 0x200_0000_0000, high, low);
  }

  // --------------------------------------------------------------- characters

  /** Reads one encoded character back: its number, from its bytes. */
  function Decoded(b: seq<int>): int
    requires 1 <= |b| <= 4
  {
    match |b|
    case 1 => b[0]
    case 2 => (b[0] - 0xC0) * 0x40 + (b[1] - 0x80)
    case 3 => ((b[0] - 0xE0) * 0x40 + (b[1] - 0x80)) * 0x40 + (b[2] - 0x80)
    case 4 => (((b[0] - 0xF0) * 0x40 + (b[1] - 0x80)) * 0x40 + (b[2] - 0x80)) * 0x40 + (b[3] - 0x80)
  }

  lemma SixBitDigits(n: nat)
    ensures n == n / 0x40 * 0x40 + n % 0x40 && n % 0x40 < 0x40
    ensures n / 0x1000 == n / 0x40 / 0x40 && n / 0x4_0000 == n / 0x1000 / 0x40
  {}

  /** The first byte tells how many there are, and the others are marked as such. */
  predicate WellEncoded(b: seq<nat>) {
    && 1 <= |b| <= 4 && (forall i :: 1 <= i < |b| ==> 0x80 <= b[i] < 0xC0)
    && match |b|
       case 1 => b[0] < 0x80
       case 2 => 0xC0 <= b[0] < 0xE0
       case 3 => 0xE0 <= b[0] < 0xF0
       case 4 => 0xF0 <= b[0] < 0xF8
  }

  /** A character's bytes are well formed and can be read back. */
  lemma EncodingReadsBack(c: char)
    ensures WellEncoded(Utf8(c)) && Decoded(Utf8(c)) == c as nat
  {
    var n := c as nat;
    SixBitDigits(n);
    SixBitDigits(n / 0x40);
    SixBitDigits(n / 0x1000);
  }

  // --------------------------------------------------------------------- hashes

  const PRIME: nat := 1099511628211

  const INVERSE: nat := 0xce965057aff6957b

  /** The prime has an inverse among the words, so it shares no factor with them. */
  lemma PrimeIsCoprime()
    ensures Gcd(PRIME, WORD) == 1
  {
    GcdIsGreatest(PRIME, WORD);
    var g := Gcd(PRIME, WORD);
    hide Gcd;
    assert PRIME * INVERSE - WORD * 887285111055 == 1;
    ProductDivides(g, PRIME, INVERSE);
    ProductDivides(g, WORD, 887285111055);
    SumDivides(g, PRIME * INVERSE, WORD * 887285111055);
    OnlyOneDividesOne(g);
  }

  lemma OnlyOneDividesOne(g: nat)
    requires g > 0 && Divides(g, 1)
    ensures g == 1
  {
    if g > 1 {
      UniqueRemainder(1, g, 0, 1);
    }
  }

  /** One round of the hash: exclusive or, then the prime. */
  function Round(hash: nat, value: nat): nat {
    Xor(hash, value) * PRIME % WORD
  }

  /** A round loses nothing that its exclusive or holds. */
  lemma RoundTellsApart(h: nat, a: nat, g: nat, b: nat)
    requires h < WORD && a < WORD && g < WORD && b < WORD
    ensures Round(h, a) == Round(g, b) <==> Xor(h, a) == Xor(g, b)
  {
    var x, y := Xor(h, a), Xor(g, b);
    WordHas64Bits();
    XorStaysBelow(h, a, 64);
    XorStaysBelow(g, b, 64);
    PrimeIsCoprime();
    AffineIsInjective(x, y, PRIME, 0, WORD);
    UniqueRemainder(x, WORD, 0, x);
    UniqueRemainder(y, WORD, 0, y);
    hide Xor, Power, Gcd;
  }

  /** The values hashed one after the other. */
  function Fold(values: seq<nat>, hash: nat): nat {
    if values == [] then hash else Fold(values[1..], Round(hash, values[0]))
  }

  predicate Words(values: seq<nat>) {
    forall i :: 0 <= i < |values| ==> values[i] < WORD
  }

  /** Two hashes that differ still differ after the same values. */
  lemma {:induction false} FoldingKeepsApart(values: seq<nat>, h: nat, g: nat)
    requires Words(values) && h < WORD && g < WORD && h != g
    ensures Fold(values, h) != Fold(values, g)
  {
    hide Round;
    if values != [] {
      var v := values[0];
      RoundIsAWord(h, v);
      RoundIsAWord(g, v);
      RoundTellsApart(h, v, g, v);
      XorUndoes(h, v);
      XorUndoes(g, v);
      hide Xor;
      FoldingKeepsApart(values[1..], Round(h, v), Round(g, v));
    }
  }

  lemma RoundIsAWord(h: nat, v: nat)
    ensures Round(h, v) < WORD
  {}

  /** Main result: two lists of words that differ in exactly one place have
      different hashes. */
  lemma {:induction false} FoldTellsApart(xs: seq<nat>, ys: seq<nat>, i: nat, h: nat)
    requires Words(xs) && Words(ys) && h < WORD && |xs| == |ys| && i < |xs| && xs[i] != ys[i]
    requires forall j :: 0 <= j < |xs| && j != i ==> xs[j] == ys[j]
    ensures Fold(xs, h) != Fold(ys, h)
  {
    hide Round, Xor;
    RoundIsAWord(h, xs[0]);
    RoundIsAWord(h, ys[0]);
    if i == 0 {
      RoundTellsApart(h, xs[0], h, ys[0]);
      XorUndoes(h, xs[0]);
      XorUndoes(h, ys[0]);
      assert xs[1..] == ys[1..];
      FoldingKeepsApart(xs[1..], Round(h, xs[0]), Round(h, ys[0]));
    } else {
      FoldTellsApart(xs[1..], ys[1..], i - 1, Round(h, xs[0]));
    }
  }

  lemma {:induction false} FoldingOn(xs: seq<nat>, ys: seq<nat>, h: nat)
    ensures Fold(xs + ys, h) == Fold(ys, Fold(xs, h))
  {
    hide Round;
    if xs == [] {
      assert xs + ys == ys;
    } else {
      assert (xs + ys)[1..] == xs[1..] + ys;
      FoldingOn(xs[1..], ys, Round(h, xs[0]));
    }
  }

  /** The hash of bytes is this hash, and texts are hashed one after the other. */
  lemma {:induction false} BytesAreFolded(bytes: seq<nat>, h: nat)
    ensures FoldBytes(bytes, h) == Fold(bytes, h)
    decreases |bytes|
  {
    hide Xor;
    if bytes != [] {
      BytesAreFolded(bytes[1..], Round(h, bytes[0]));
    }
  }

  lemma {:induction false} BytesOfBoth(s: string, t: string)
    ensures Bytes(s + t) == Bytes(s) + Bytes(t)
  {
    hide Utf8;
    if s == [] {
      assert s + t == t;
    } else {
      assert (s + t)[1..] == s[1..] + t;
      BytesOfBoth(s[1..], t);
    }
  }
}
