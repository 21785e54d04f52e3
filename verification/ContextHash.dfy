/** The 32-bit content hash of a request, and the draw made from it. */
module ContextHash {
  import opened Hex
  import opened CanonicalJson

  const TWO_32 := 0x1_0000_0000

  const OFFSET_BASIS := 0x811c9dc5

  const PRIME := 0x01000193

  /** Reduction to an unsigned and to a signed 32-bit integer. */
  function ToUint32(n: int): (r: nat)
    ensures r < TWO_32
  {
    n % TWO_32
  }

  function ToInt32(n: int): (r: int)
    ensures -0x8000_0000 <= r < 0x8000_0000
  {
    var m := n % TWO_32;
    if m >= 0x8000_0000 then m - TWO_32 else m
  }

  /** Bitwise exclusive or. */
  function Xor(a: nat, b: nat): nat
    decreases a + b
  {
    if a == 0 && b == 0 then 0 else 2 * Xor(a / 2, b / 2) + (a % 2 + b % 2) % 2
  }

  /** The bit of a number at a place. */
  function Bit(n: nat, place: nat): nat
  {
    if place == 0 then n % 2 else Bit(n / 2, place - 1)
  }

  /** Every bit is set exactly when it is set in one of the two. */
  lemma {:induction false} XorBit(a: nat, b: nat, place: nat)
    ensures Bit(Xor(a, b), place) == 1 <==> Bit(a, place) != Bit(b, place)
    ensures Bit(Xor(a, b), place) <= 1
  {
    XorHalves(a, b);
    if place > 0 {
      XorBit(a / 2, b / 2, place - 1);
    }
  }

  lemma XorHalves(a: nat, b: nat)
    ensures Xor(a, b) / 2 == Xor(a / 2, b / 2) && Xor(a, b) % 2 == (a % 2 + b % 2) % 2
  {
  }

  lemma Parity(p: nat, q: nat)
    requires p <= 1 && q <= 1
    ensures ((p + q) % 2 + q) % 2 == p
  {
  }

  lemma HalvesUndone(a: nat, b: nat, x: nat, y: nat)
    requires x % 2 == (a % 2 + b % 2) % 2 && y % 2 == (x % 2 + b % 2) % 2 && y / 2 == a / 2
    ensures y == a
  {
    Parity(a % 2, b % 2);
  }

  /** What is mixed in can be taken out again. */
  lemma {:induction false} XorUndone(a: nat, b: nat)
    ensures Xor(Xor(a, b), b) == a
    decreases a + b
  {
    if a != 0 || b != 0 {
      XorUndone(a / 2, b / 2);
      XorHalves(a, b);
      XorHalves(Xor(a, b), b);
      HalvesUndone(a, b, Xor(a, b), Xor(Xor(a, b), b));
    }
  }

  lemma {:induction false} XorSwaps(a: nat, b: nat)
    ensures Xor(a, b) == Xor(b, a)
    decreases a + b
  {
    if a != 0 || b != 0 {
      XorSwaps(a / 2, b / 2);
    }
  }

  /** Below a power of two, given as a number of halvings. */
  function TwoTo(k: nat): nat { if k == 0 then 1 else 2 * TwoTo(k - 1) }

  lemma {:induction false} XorBelow(a: nat, b: nat, k: nat)
    requires a < TwoTo(k) && b < TwoTo(k)
    ensures Xor(a, b) < TwoTo(k)
  {
    if k > 0 {
      XorBelow(a / 2, b / 2, k - 1);
      XorHalves(a, b);
    }
  }

  /** A 32-bit number with a code unit mixed in. */
  function Mixed(h: int, c: CodeUnit): (r: nat)
    requires 0 <= h < TWO_32
    ensures r < TWO_32
  {
    MixedBelow(h, c);
    Xor(h, c)
  }

  lemma MixedBelow(h: nat, c: CodeUnit)
    requires h < TWO_32
    ensures Xor(h, c) < TWO_32
  {
    assert TwoTo(8) == 0x100;
    assert TwoTo(16) == 0x1_0000;
    assert TwoTo(24) == 0x100_0000;
    assert TwoTo(32) == TWO_32;
    XorBelow(h, c, 32);
  }

  /** Mix a code unit in, multiply by the prime, keep 32 bits. */
  function NextHash(h: nat, c: CodeUnit): (r: nat)
    requires h < TWO_32
    ensures r < TWO_32
  {
    (Mixed(h, c) * PRIME) % TWO_32
  }

  /** Unsigned FNV-1a over code units. */
  function Fnv1a(t: Text): (h: nat)
    ensures h < TWO_32
  {
    if |t| == 0 then OFFSET_BASIS else NextHash(Fnv1a(t[..|t| - 1]), t[|t| - 1])
  }

  /** The low 32 bits of a product, signed. */
  function Imul(a: int, b: int): int
  {
    ToInt32(ToUint32(a) * ToUint32(b))
  }

  lemma SignForgets(n: int)
    ensures ToUint32(ToInt32(n)) == ToUint32(n)
    ensures ToInt32(ToUint32(n)) == ToInt32(n)
  {
  }

  lemma ImulForgets(x: nat)
    requires x < TWO_32
    ensures ToUint32(Imul(ToInt32(x), PRIME)) == (x * PRIME) % TWO_32
  {
    SignForgets(x);
    assert ToUint32(ToInt32(x)) == x;
    SignForgets(x * PRIME);
  }

  /** A signed step computes the unsigned one. */
  lemma SignedStep(h: int, c: CodeUnit)
    ensures ToUint32(Imul(ToInt32(Mixed(ToUint32(h), c)), PRIME)) == (Mixed(ToUint32(h), c) * PRIME) % TWO_32
  {
    ImulForgets(Mixed(ToUint32(h), c));
  }

  /** The loop in signed arithmetic, printed as eight hexadecimal digits. */
  method HashText(t: Text) returns (hex: Text)
    ensures hex == Hash(t)
  {
    var h := OFFSET_BASIS;
    for i := 0 to |t|
      invariant ToUint32(h) == Fnv1a(t[..i])
    {
      assert t[..i + 1][..i] == t[..i];
      SignedStep(h, t[i]);
      h := ToInt32(Mixed(ToUint32(h), t[i]));
      h := Imul(h, PRIME);
    }
    assert t[..|t|] == t;
    hex := Padded(Print(ToUint32(h)), 8);
  }

  function Hash(t: Text): Text
  {
    Padded(Print(Fnv1a(t)), 8)
  }

  predicate IsHash(hash: Text)
  {
    |hash| == 8 && forall i :: 0 <= i < 8 ==> IsDigit(hash[i])
  }

  /** Eight digits, which read back as the number that was hashed to. */
  lemma HashReadsBack(t: Text)
    ensures IsHash(Hash(t)) && Parse(Hash(t)) == Fnv1a(t)
  {
    assert Power(4) == 0x1_0000;
    assert Power(8) == TWO_32;
    PaddedRoundTrip(Fnv1a(t), 8);
  }

  /** A value in [0, 1) drawn from a hash. */
  function Draw(hash: Text): real
    requires IsHash(hash)
  {
    Parse(hash) as real / TWO_32 as real
  }

  lemma DrawInUnitInterval(t: Text)
    ensures IsHash(Hash(t)) && 0.0 <= Draw(Hash(t)) < 1.0
    ensures Draw(Hash(t)) * TWO_32 as real == Fnv1a(t) as real
  {
    HashReadsBack(t);
  }

  // ---- Nothing is lost ------------------------------------------------------------------------------

  /** The inverse of the prime modulo 2^32: there is one, since the prime is odd. */
  const INVERSE := 0x359c449b

  lemma InverseIs()
    ensures PRIME * INVERSE == 3513497 * TWO_32 + 1
  {
  }

  /** Multiplying by the prime modulo 2^32 loses nothing. */
  lemma PrimeKeeps(a: nat, b: nat)
    requires a < TWO_32 && b < TWO_32 && (a * PRIME) % TWO_32 == (b * PRIME) % TWO_32
    ensures a == b
  {
    Recover(a);
    Recover(b);
  }

  /** A number from its product with the prime. */
  lemma Recover(a: nat)
    requires a < TWO_32
    ensures (((a * PRIME) % TWO_32) * INVERSE) % TWO_32 == a
  {
    var q, r := (a * PRIME) / TWO_32, (a * PRIME) % TWO_32;
    InverseIs();
    assert a * PRIME * INVERSE == a * (PRIME * INVERSE);
    assert r * INVERSE == a + TWO_32 * (a * 3513497 - q * INVERSE);
    Remainder(r * INVERSE, a * 3513497 - q * INVERSE, a);
  }

  lemma Remainder(n: int, k: int, a: nat)
    requires a < TWO_32 && n == a + TWO_32 * k
    ensures n % TWO_32 == a
  {
  }

  /** Mixing in tells hashes apart, and tells code units apart. */
  lemma MixedKeeps(g: nat, h: nat, c: CodeUnit, d: CodeUnit)
    requires g < TWO_32 && h < TWO_32 && Mixed(g, c) == Mixed(h, d)
    ensures g == h <==> c == d
  {
    XorUndone(g, c);
    XorUndone(h, d);
    XorSwaps(g, c);
    XorSwaps(h, d);
    XorUndone(c, g);
    XorUndone(d, h);
  }

  /** Texts of equal length that differ in one code unit never hash alike. */
  lemma {:induction false} OneUnitTells(t: Text, u: Text, i: nat)
    requires |t| == |u| && i < |t| && t[i] != u[i] && forall k :: 0 <= k < |t| && k != i ==> t[k] == u[k]
    ensures Fnv1a(t) != Fnv1a(u)
  {
    var n := |t| - 1;
    var g, h := Fnv1a(t[..n]), Fnv1a(u[..n]);
    if i == n {
      assert t[..n] == u[..n];
    } else {
      OneUnitTells(t[..n], u[..n], i);
    }
    if Fnv1a(t) == Fnv1a(u) {
      PrimeKeeps(Mixed(g, t[n]), Mixed(h, u[n]));
      MixedKeeps(g, h, t[n], u[n]);
      assert false;
    }
  }

  lemma {:induction false} XorZero(a: nat, zero: nat)
    requires zero == 0
    ensures Xor(a, zero) == a
  {
    if a > 0 {
      XorZero(a / 2, zero / 2);
    }
  }

  function Unlike(d: nat, e: nat): nat { if d != e then 1 else 0 }

  lemma HalfOf(a: nat, d: nat, n: nat)
    requires d <= 1 && n == 2 * a + d
    ensures n / 2 == a && n % 2 == d
  {
  }

  lemma XorFromHalves(a: nat, b: nat, x: nat)
    requires x == Xor(a / 2, b / 2)
    ensures Xor(a, b) == 2 * x + (a % 2 + b % 2) % 2
  {
  }

  /** One binary digit more. */
  lemma XorDigit(a: nat, b: nat, x: nat, d: nat, e: nat, m: nat, n: nat)
    requires Xor(a, b) == x && d <= 1 && e <= 1 && m == 2 * a + d && n == 2 * b + e
    ensures Xor(m, n) == 2 * x + Unlike(d, e)
  {
    HalfOf(a, d, m);
    HalfOf(b, e, n);
    XorFromHalves(m, n, x);
  }

  /** Four binary digits more. */
  lemma XorDigits(a: nat, b: nat, x: nat, d3: nat, d2: nat, d1: nat, d0: nat, e3: nat, e2: nat, e1: nat, e0: nat, m: nat, n: nat)
    requires Xor(a, b) == x && d3 <= 1 && d2 <= 1 && d1 <= 1 && d0 <= 1 && e3 <= 1 && e2 <= 1 && e1 <= 1 && e0 <= 1
    requires m == 16 * a + 8 * d3 + 4 * d2 + 2 * d1 + d0 && n == 16 * b + 8 * e3 + 4 * e2 + 2 * e1 + e0
    ensures Xor(m, n) == 16 * x + 8 * Unlike(d3, e3) + 4 * Unlike(d2, e2) + 2 * Unlike(d1, e1) + Unlike(d0, e0)
  {
    var a1, b1, x1 := 2 * a + d3, 2 * b + e3, 2 * x + Unlike(d3, e3);
    XorDigit(a, b, x, d3, e3, a1, b1);
    var a2, b2, x2 := 2 * a1 + d2, 2 * b1 + e2, 2 * x1 + Unlike(d2, e2);
    XorDigit(a1, b1, x1, d2, e2, a2, b2);
    var a3, b3, x3 := 2 * a2 + d1, 2 * b2 + e1, 2 * x2 + Unlike(d1, e1);
    XorDigit(a2, b2, x2, d1, e1, a3, b3);
    XorDigit(a3, b3, x3, d0, e0, m, n);
  }

  /** Eight digits, mixed into a number that goes on above them. */
  lemma XorByte(
      high: nat,
      d7: nat, d6: nat, d5: nat, d4: nat, d3: nat, d2: nat, d1: nat, d0: nat,
      e7: nat, e6: nat, e5: nat, e4: nat, e3: nat, e2: nat, e1: nat, e0: nat, m: nat, n: nat, mixed: nat)
    requires d7 <= 1 && d6 <= 1 && d5 <= 1 && d4 <= 1 && d3 <= 1 && d2 <= 1 && d1 <= 1 && d0 <= 1
    requires e7 <= 1 && e6 <= 1 && e5 <= 1 && e4 <= 1 && e3 <= 1 && e2 <= 1 && e1 <= 1 && e0 <= 1
    requires m == 256 * high + 128 * d7 + 64 * d6 + 32 * d5 + 16 * d4 + 8 * d3 + 4 * d2 + 2 * d1 + d0
    requires n == 128 * e7 + 64 * e6 + 32 * e5 + 16 * e4 + 8 * e3 + 4 * e2 + 2 * e1 + e0
    requires mixed == 256 * high + (if d7 != e7 then 128 else 0) + (if d6 != e6 then 64 else 0)
      + (if d5 != e5 then 32 else 0) + (if d4 != e4 then 16 else 0) + (if d3 != e3 then 8 else 0)
      + (if d2 != e2 then 4 else 0) + (if d1 != e1 then 2 else 0) + (if d0 != e0 then 1 else 0)
    ensures Xor(m, n) == mixed
  {
    var zero, a, b := n - n, 16 * high + 8 * d7 + 4 * d6 + 2 * d5 + d4, 8 * e7 + 4 * e6 + 2 * e5 + e4;
    XorZero(high, zero);
    XorDigits(high, zero, high, d7, d6, d5, d4, e7, e6, e5, e4, a, b);
    var x := 16 * high + 8 * Unlike(d7, e7) + 4 * Unlike(d6, e6) + 2 * Unlike(d5, e5) + Unlike(d4, e4);
    XorDigits(a, b, x, d3, d2, d1, d0, e3, e2, e1, e0, m, n);
  }

  lemma Multiplied(h: nat, c: CodeUnit, mixed: nat, next: nat)
    requires h < TWO_32 && Xor(h, c) == mixed && (mixed * 0x01000193) % 0x1_0000_0000 == next
    ensures NextHash(h, c) == next
  {
  }

  /** One step of the hash, in binary digits. */
  lemma StepIs(
      high: nat,
      d7: nat, d6: nat, d5: nat, d4: nat, d3: nat, d2: nat, d1: nat, d0: nat,
      e7: nat, e6: nat, e5: nat, e4: nat, e3: nat, e2: nat, e1: nat, e0: nat, h: nat, c: CodeUnit, mixed: nat, next: nat)
    requires d7 <= 1 && d6 <= 1 && d5 <= 1 && d4 <= 1 && d3 <= 1 && d2 <= 1 && d1 <= 1 && d0 <= 1
    requires e7 <= 1 && e6 <= 1 && e5 <= 1 && e4 <= 1 && e3 <= 1 && e2 <= 1 && e1 <= 1 && e0 <= 1
    requires h == 256 * high + 128 * d7 + 64 * d6 + 32 * d5 + 16 * d4 + 8 * d3 + 4 * d2 + 2 * d1 + d0
    requires c == 128 * e7 + 64 * e6 + 32 * e5 + 16 * e4 + 8 * e3 + 4 * e2 + 2 * e1 + e0
    requires mixed == 256 * high + (if d7 != e7 then 128 else 0) + (if d6 != e6 then 64 else 0)
      + (if d5 != e5 then 32 else 0) + (if d4 != e4 then 16 else 0) + (if d3 != e3 then 8 else 0)
      + (if d2 != e2 then 4 else 0) + (if d1 != e1 then 2 else 0) + (if d0 != e0 then 1 else 0)
    requires h < TWO_32 && (mixed * 0x01000193) % 0x1_0000_0000 == next
    ensures NextHash(h, c) == next
  {
    XorByte(high, d7, d6, d5, d4, d3, d2, d1, d0, e7, e6, e5, e4, e3, e2, e1, e0, h, c, mixed);
    Multiplied(h, c, mixed, next);
  }

  lemma StepA(h: nat, c: CodeUnit, next: nat)
    requires h == 0x811c9dc5 && c == 97 && next == 0xe40c292c
    ensures NextHash(h, c) == next
  {
    StepIs(0x811c9d, 1, 1, 0, 0, 0, 1, 0, 1, 0, 1, 1, 0, 0, 0, 0, 1, h, c, 0x811c9da4, next);
  }

  lemma StepF(h: nat, c: CodeUnit, next: nat)
    requires h == 0x811c9dc5 && c == 102 && next == 0xe30c2799
    ensures NextHash(h, c) == next
  {
    StepIs(0x811c9d, 1, 1, 0, 0, 0, 1, 0, 1, 0, 1, 1, 0, 0, 1, 1, 0, h, c, 0x811c9da3, next);
  }

  lemma StepFo(h: nat, c: CodeUnit, next: nat)
    requires h == 0xe30c2799 && c == 111 && next == 0x6222e842
    ensures NextHash(h, c) == next
  {
    StepIs(0xe30c27, 1, 0, 0, 1, 1, 0, 0, 1, 0, 1, 1, 0, 1, 1, 1, 1, h, c, 0xe30c27f6, next);
  }

  lemma StepFoo(h: nat, c: CodeUnit, next: nat)
    requires h == 0x6222e842 && c == 111 && next == 0xa9f37ed7
    ensures NextHash(h, c) == next
  {
    StepIs(0x6222e8, 0, 1, 0, 0, 0, 0, 1, 0, 0, 1, 1, 0, 1, 1, 1, 1, h, c, 0x6222e82d, next);
  }

  lemma StepFoob(h: nat, c: CodeUnit, next: nat)
    requires h == 0xa9f37ed7 && c == 98 && next == 0x3f5076ef
    ensures NextHash(h, c) == next
  {
    StepIs(0xa9f37e, 1, 1, 0, 1, 0, 1, 1, 1, 0, 1, 1, 0, 0, 0, 1, 0, h, c, 0xa9f37eb5, next);
  }

  lemma StepFooba(h: nat, c: CodeUnit, next: nat)
    requires h == 0x3f5076ef && c == 97 && next == 0x39aaa18a
    ensures NextHash(h, c) == next
  {
    StepIs(0x3f5076, 1, 1, 1, 0, 1, 1, 1, 1, 0, 1, 1, 0, 0, 0, 0, 1, h, c, 0x3f50768e, next);
  }

  lemma StepFoobar(h: nat, c: CodeUnit, next: nat)
    requires h == 0x39aaa18a && c == 114 && next == 0xbf9cf968
    ensures NextHash(h, c) == next
  {
    StepIs(0x39aaa1, 1, 0, 0, 0, 1, 0, 1, 0, 0, 1, 1, 1, 0, 0, 1, 0, h, c, 0x39aaa1f8, next);
  }

  /** The hash that follows another over a text, from the front. */
  function HashFrom(h: nat, t: Text): (r: nat)
    requires h < TWO_32
    decreases |t|
  {
    if |t| == 0 then h else HashFrom(NextHash(h, t[0]), t[1..])
  }

  lemma {:induction false} HashFromOn(h: nat, t: Text, c: CodeUnit)
    requires h < TWO_32
    ensures HashFrom(h, t) < TWO_32 && HashFrom(h, t + [c]) == NextHash(HashFrom(h, t), c)
    decreases |t|
  {
    if |t| == 0 {
      assert t + [c] == [c] && [c][1..] == [];
    } else {
      assert (t + [c])[1..] == t[1..] + [c];
      HashFromOn(NextHash(h, t[0]), t[1..], c);
    }
  }

  /** Read from the front or from the back, it is the same hash. */
  lemma {:induction false} HashFromFront(t: Text)
    ensures Fnv1a(t) == HashFrom(OFFSET_BASIS, t)
  {
    if |t| > 0 {
      HashFromFront(t[..|t| - 1]);
      HashFromOn(OFFSET_BASIS, t[..|t| - 1], t[|t| - 1]);
      assert t == t[..|t| - 1] + [t[|t| - 1]];
    }
  }

  lemma SixSteps(t: Text, h0: nat, h1: nat, h2: nat, h3: nat, h4: nat, h5: nat, h6: nat)
    requires |t| == 6 && h0 < TWO_32 && h1 < TWO_32 && h2 < TWO_32 && h3 < TWO_32 && h4 < TWO_32 && h5 < TWO_32
    requires NextHash(h0, t[0]) == h1 && NextHash(h1, t[1]) == h2 && NextHash(h2, t[2]) == h3
    requires NextHash(h3, t[3]) == h4 && NextHash(h4, t[4]) == h5 && NextHash(h5, t[5]) == h6
    ensures HashFrom(h0, t) == h6
  {
    assert HashFrom(h0, t) == HashFrom(h1, t[1..]);
    assert t[1..][1..] == t[2..];
    assert HashFrom(h1, t[1..]) == HashFrom(h2, t[2..]);
    assert t[2..][1..] == t[3..];
    assert HashFrom(h2, t[2..]) == HashFrom(h3, t[3..]);
    assert t[3..][1..] == t[4..];
    assert HashFrom(h3, t[3..]) == HashFrom(h4, t[4..]);
    assert t[4..][1..] == t[5..];
    assert HashFrom(h4, t[4..]) == HashFrom(h5, t[5..]);
    assert HashFrom(h5, t[5..]) == HashFrom(h6, t[5..][1..]);
  }

  /** The published hash of "foobar". */
  lemma HashOfFoobar(t: Text)
    requires t == [102, 111, 111, 98, 97, 114]
    ensures Fnv1a(t) == 0xbf9cf968
  {
    StepF(0x811c9dc5, t[0], 0xe30c2799);
    StepFo(0xe30c2799, t[1], 0x6222e842);
    StepFoo(0x6222e842, t[2], 0xa9f37ed7);
    StepFoob(0xa9f37ed7, t[3], 0x3f5076ef);
    StepFooba(0x3f5076ef, t[4], 0x39aaa18a);
    StepFoobar(0x39aaa18a, t[5], 0xbf9cf968);
    SixSteps(t, 0x811c9dc5, 0xe30c2799, 0x6222e842, 0xa9f37ed7, 0x3f5076ef, 0x39aaa18a, 0xbf9cf968);
    HashFromFront(t);
  }

  /** The published hashes of the empty text and of "a". */
  lemma HashOfA(e: Text, a: Text)
    requires e == [] && a == [97]
    ensures Fnv1a(e) == 0x811c9dc5 && Fnv1a(a) == 0xe40c292c
  {
    StepA(OFFSET_BASIS, a[0], 0xe40c292c);
    assert a[..0] == e;
  }

  // ---- As it is printed --------------------------------------------------------------------------------

  lemma {:induction false} PrintedLower(n: nat)
    ensures forall i :: 0 <= i < |Print(n)| ==>
      '0' as int <= Print(n)[i] <= '9' as int || 'a' as int <= Print(n)[i] <= 'f' as int
  {
    if n >= 16 {
      PrintedLower(n / 16);
    }
  }

  lemma {:induction false} ZerosAre(k: nat)
    ensures |Zeros(k)| == k && forall i :: 0 <= i < k ==> Zeros(k)[i] == '0' as int
  {
    if k > 0 {
      ZerosAre(k - 1);
    }
  }

  /** A hash is printed in lower case. */
  lemma HashLower(t: Text)
    ensures |Hash(t)| == 8
    ensures forall i :: 0 <= i < 8 ==> '0' as int <= Hash(t)[i] <= '9' as int || 'a' as int <= Hash(t)[i] <= 'f' as int
  {
    HashReadsBack(t);
    PrintedLower(Fnv1a(t));
    var digits := Print(Fnv1a(t));
    if |digits| < 8 {
      ZerosAre(8 - |digits|);
    }
  }
}
