/** Numbers in JSON: section 6 of RFC 8259. */
module JsonNumber {
  import opened Hex

  predicate IsDecimal(c: CodeUnit) { '0' as int <= c <= '9' as int }

  predicate IsSign(c: CodeUnit) { c == '+' as int || c == '-' as int }

  predicate IsExponent(c: CodeUnit) { c == 'e' as int || c == 'E' as int }

  predicate IsNumberChar(c: CodeUnit)
  {
    IsDecimal(c) || IsSign(c) || IsExponent(c) || c == '.' as int
  }

  /** How many decimal digits a text starts with. */
  function Digits(t: Text): (n: nat)
    ensures n <= |t|
  {
    if |t| == 0 || !IsDecimal(t[0]) then 0 else 1 + Digits(t[1..])
  }

  /** The integer part: a zero, or digits that do not start with one. */
  function IntSpan(t: Text): (n: nat)
    ensures n <= |t|
  {
    if |t| > 0 && t[0] == '0' as int then 1 else Digits(t)
  }

  /** A point with digits after it, or nothing. */
  function FracSpan(t: Text): (n: nat)
    ensures n <= |t|
  {
    if |t| > 0 && t[0] == '.' as int && Digits(t[1..]) > 0 then 1 + Digits(t[1..]) else 0
  }

  /** An exponent with digits, signed or not, or nothing. */
  function ExpSpan(t: Text): (n: nat)
    ensures n <= |t|
  {
    if |t| == 0 || !IsExponent(t[0]) then 0 else
    var sign := if |t| > 1 && IsSign(t[1]) then 1 else 0;
    if Digits(t[1 + sign..]) == 0 then 0 else 1 + sign + Digits(t[1 + sign..])
  }

  /** A fraction, if any, and an exponent, if any. */
  function TailSpan(t: Text): (n: nat)
    ensures n <= |t|
  {
    FracSpan(t) + ExpSpan(t[FracSpan(t)..])
  }

  function UnsignedSpan(t: Text): (n: nat)
    ensures n <= |t|
  {
    if IntSpan(t) == 0 then 0 else IntSpan(t) + TailSpan(t[IntSpan(t)..])
  }

  /** The number a text starts with, as long as it goes; zero if there is none. */
  function NumberSpan(t: Text): (n: nat)
    ensures n <= |t|
  {
    if |t| == 0 || t[0] != '-' as int then UnsignedSpan(t)
    else if UnsignedSpan(t[1..]) == 0 then 0 else 1 + UnsignedSpan(t[1..])
  }

  predicate NumberText(t: Text)
  {
    |t| > 0 && NumberSpan(t) == |t|
  }

  /** What may follow a number without prolonging it. */
  predicate Delimited(r: Text)
  {
    |r| > 0 ==> !IsNumberChar(r[0])
  }

  predicate NoDigitFirst(r: Text)
  {
    |r| > 0 ==> !IsDecimal(r[0])
  }

  lemma {:induction false} DigitsOn(t: Text, r: Text)
    requires NoDigitFirst(r)
    ensures Digits(t + r) == Digits(t)
  {
    if |t| == 0 {
      assert t + r == r;
    } else {
      assert (t + r)[1..] == t[1..] + r;
      DigitsOn(t[1..], r);
    }
  }

  lemma SliceOn(t: Text, r: Text, k: nat)
    requires k <= |t|
    ensures (t + r)[k..] == t[k..] + r
  {
  }

  lemma IntOn(t: Text, r: Text)
    requires Delimited(r)
    ensures IntSpan(t + r) == IntSpan(t)
  {
    DigitsOn(t, r);
    if |t| == 0 {
      assert t + r == r;
    }
  }

  lemma FracOn(t: Text, r: Text)
    requires Delimited(r)
    ensures FracSpan(t + r) == FracSpan(t)
  {
    if |t| == 0 {
      assert t + r == r;
    } else {
      SliceOn(t, r, 1);
      DigitsOn(t[1..], r);
    }
  }

  lemma ExpOn(t: Text, r: Text)
    requires Delimited(r)
    ensures ExpSpan(t + r) == ExpSpan(t)
  {
    if |t| == 0 {
      assert t + r == r;
    } else {
      var sign := if |t| > 1 && IsSign(t[1]) then 1 else 0;
      assert |t| == 1 && |r| > 0 ==> (t + r)[1] == r[0];
      SliceOn(t, r, 1 + sign);
      DigitsOn(t[1 + sign..], r);
    }
  }

  lemma TailOn(t: Text, r: Text)
    requires Delimited(r)
    ensures TailSpan(t + r) == TailSpan(t)
  {
    FracOn(t, r);
    SliceOn(t, r, FracSpan(t));
    ExpOn(t[FracSpan(t)..], r);
  }

  lemma UnsignedOn(t: Text, r: Text)
    requires Delimited(r)
    ensures UnsignedSpan(t + r) == UnsignedSpan(t)
  {
    IntOn(t, r);
    SliceOn(t, r, IntSpan(t));
    TailOn(t[IntSpan(t)..], r);
  }

  /** Followed by a delimiter, a number is read to its end and no further. */
  lemma SpanOfNumber(t: Text, r: Text)
    requires |t| > 0 && Delimited(r)
    ensures NumberSpan(t + r) == NumberSpan(t)
  {
    UnsignedOn(t, r);
    SliceOn(t, r, 1);
    UnsignedOn(t[1..], r);
  }

  /** A number starts with a minus or a digit. */
  lemma NumberStarts(t: Text)
    requires NumberText(t)
    ensures t[0] == '-' as int || IsDecimal(t[0])
  {
    if t[0] != '-' as int {
      assert t[0..] == t;
    }
  }

  /** Two signs are no number, nor is a zero before another digit, a bare point or a bare exponent. */
  lemma NoNumbers()
    ensures !NumberText(['-' as int, '-' as int])
    ensures !NumberText(['0' as int, '1' as int])
    ensures !NumberText(['1' as int, '.' as int])
    ensures !NumberText(['1' as int, 'e' as int])
  {
    var a: Text := ['-' as int, '-' as int];
    assert a[1..] == ['-' as int];
    var b: Text := ['0' as int, '1' as int];
    assert b[0..] == b && b[1..] == ['1' as int];
    OneDigit('.' as int);
    OneDigit('e' as int);
  }

  lemma OneDigit(c: CodeUnit)
    requires !IsDecimal(c)
    ensures !NumberText(['1' as int, c])
  {
    var t: Text := ['1' as int, c];
    assert t[0..] == t && t[1..] == [c] && [c][1..] == [];
    assert Digits([c]) == 0 && Digits(t) == 1 && Digits([]) == 0;
    assert t[0 + 1..] == [c] && t[0 + 1 + 0..] == [c];
  }

  // ---- The grammar --------------------------------------------------------------------------------

  predicate AllDigits(t: Text)
  {
    |t| > 0 && forall k :: 0 <= k < |t| ==> IsDecimal(t[k])
  }

  predicate IsMinus(t: Text) { t == [] || t == ['-' as int] }

  predicate IsInt(t: Text) { t == ['0' as int] || (AllDigits(t) && t[0] != '0' as int) }

  predicate IsFrac(t: Text) { t == [] || (t[0] == '.' as int && AllDigits(t[1..])) }

  predicate IsExp(t: Text)
  {
    t == [] || (IsExponent(t[0]) && (AllDigits(t[1..]) || (|t| > 1 && IsSign(t[1]) && AllDigits(t[2..]))))
  }

  /** The rule `number` of RFC 8259: an optional minus, an integer, an optional fraction, an optional exponent. */
  ghost predicate InGrammar(t: Text)
  {
    exists m: Text, i: Text, f: Text, e: Text ::
      IsMinus(m) && IsInt(i) && IsFrac(f) && IsExp(e) && t == m + (i + (f + e))
  }

  lemma {:induction false} DigitsOfDigits(t: Text)
    requires AllDigits(t)
    ensures Digits(t) == |t|
  {
    if |t| > 1 {
      DigitsOfDigits(t[1..]);
    }
  }

  lemma {:induction false} DigitsAreDigits(t: Text)
    ensures forall k :: 0 <= k < Digits(t) ==> IsDecimal(t[k])
  {
    if |t| > 0 && IsDecimal(t[0]) {
      DigitsAreDigits(t[1..]);
      assert forall k :: 1 <= k < Digits(t) ==> t[k] == t[1..][k - 1];
    }
  }

  lemma IntRead(i: Text, r: Text)
    requires IsInt(i) && NoDigitFirst(r)
    ensures IntSpan(i + r) == |i|
  {
    if i != ['0' as int] {
      DigitsOfDigits(i);
      DigitsOn(i, r);
    }
  }

  lemma FracRead(f: Text, e: Text)
    requires IsFrac(f) && IsExp(e)
    ensures FracSpan(f + e) == |f| && NoDigitFirst(f + e)
  {
    if f == [] {
      assert f + e == e;
    } else {
      SliceOn(f, e, 1);
      DigitsOfDigits(f[1..]);
      DigitsOn(f[1..], e);
    }
  }

  lemma ExpRead(e: Text)
    requires IsExp(e)
    ensures ExpSpan(e) == |e|
  {
    if e != [] {
      if AllDigits(e[1..]) {
        assert e[1] == e[1..][0];
        DigitsOfDigits(e[1..]);
      } else {
        DigitsOfDigits(e[2..]);
      }
    }
  }

  lemma TailRead(f: Text, e: Text)
    requires IsFrac(f) && IsExp(e)
    ensures TailSpan(f + e) == |f + e|
  {
    FracRead(f, e);
    assert (f + e)[|f|..] == e;
    ExpRead(e);
  }

  lemma UnsignedRead(i: Text, f: Text, e: Text)
    requires IsInt(i) && IsFrac(f) && IsExp(e)
    ensures UnsignedSpan(i + (f + e)) == |i + (f + e)|
  {
    FracRead(f, e);
    IntRead(i, f + e);
    assert (i + (f + e))[|i|..] == f + e;
    TailRead(f, e);
  }

  lemma GrammarRead(m: Text, u: Text)
    requires IsMinus(m) && |u| > 0 && u[0] != '-' as int && UnsignedSpan(u) == |u|
    ensures NumberText(m + u)
  {
    if m == [] {
      assert m + u == u;
    } else {
      assert (m + u)[1..] == u;
    }
  }

  lemma IntIs(t: Text)
    requires IntSpan(t) > 0
    ensures IsInt(t[..IntSpan(t)])
  {
    DigitsAreDigits(t);
  }

  lemma FracIs(t: Text)
    ensures IsFrac(t[..FracSpan(t)])
  {
    if FracSpan(t) > 0 {
      var n := Digits(t[1..]);
      DigitsAreDigits(t[1..]);
      assert t[..1 + n][1..] == t[1..][..n];
    }
  }

  lemma ExpIs(t: Text)
    ensures IsExp(t[..ExpSpan(t)])
  {
    if ExpSpan(t) > 0 {
      var sign := if |t| > 1 && IsSign(t[1]) then 1 else 0;
      var n := Digits(t[1 + sign..]);
      DigitsAreDigits(t[1 + sign..]);
      assert t[..1 + sign + n][1 + sign..] == t[1 + sign..][..n];
      assert sign == 1 ==> t[..1 + sign + n][1] == t[1];
    }
  }

  lemma TailSplits(t: Text)
    requires TailSpan(t) == |t|
    ensures exists f: Text, e: Text :: IsFrac(f) && IsExp(e) && t == f + e
  {
    var f, e := t[..FracSpan(t)], t[FracSpan(t)..];
    FracIs(t);
    ExpIs(e);
    assert e[..|e|] == e && t == f + e;
  }

  lemma UnsignedSplits(t: Text)
    requires |t| > 0 && UnsignedSpan(t) == |t|
    ensures exists i: Text, f: Text, e: Text :: IsInt(i) && IsFrac(f) && IsExp(e) && t == i + (f + e)
  {
    var i, tail := t[..IntSpan(t)], t[IntSpan(t)..];
    IntIs(t);
    TailSplits(tail);
    var f: Text, e: Text :| IsFrac(f) && IsExp(e) && tail == f + e;
    assert t == i + (f + e);
  }

  lemma NumberSplits(t: Text)
    requires NumberText(t)
    ensures InGrammar(t)
  {
    var m: Text := if t[0] == '-' as int then ['-' as int] else [];
    var u := t[|m|..];
    UnsignedSplits(u);
    var i: Text, f: Text, e: Text :| IsInt(i) && IsFrac(f) && IsExp(e) && u == i + (f + e);
    assert t == m + (i + (f + e));
  }

  /** A text is read as a number, to its end, exactly when it is in the grammar. */
  lemma NumberTextExactly(t: Text)
    ensures NumberText(t) <==> InGrammar(t)
  {
    if NumberText(t) {
      NumberSplits(t);
    }
    if InGrammar(t) {
      var m: Text, i: Text, f: Text, e: Text :|
        IsMinus(m) && IsInt(i) && IsFrac(f) && IsExp(e) && t == m + (i + (f + e));
      UnsignedRead(i, f, e);
      GrammarRead(m, i + (f + e));
    }
  }
}
