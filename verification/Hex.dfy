/** Code units and hexadecimal digits: read in either case, written in lower case. */
module Hex {

  type CodeUnit = n: int | 0 <= n < 0x1_0000

  /** A string of UTF-16 code units. */
  type Text = seq<CodeUnit>

  type Nibble = n: int | 0 <= n < 16

  function Digit(n: Nibble): CodeUnit
  {
    if n < 10 then '0' as int + n else 'a' as int + (n - 10)
  }

  predicate IsDigit(c: CodeUnit)
  {
    '0' as int <= c <= '9' as int || 'a' as int <= c <= 'f' as int || 'A' as int <= c <= 'F' as int
  }

  function Value(c: CodeUnit): Nibble
    requires IsDigit(c)
  {
    if c <= '9' as int then c - '0' as int else if c <= 'F' as int then c - 'A' as int + 10 else c - 'a' as int + 10
  }

  lemma DigitValue(n: Nibble)
    ensures IsDigit(Digit(n)) && Value(Digit(n)) == n
  {
  }

  /** The number a string of digits denotes. */
  function Parse(t: Text): nat
    requires forall i :: 0 <= i < |t| ==> IsDigit(t[i])
  {
    if |t| == 0 then 0 else Parse(t[..|t| - 1]) * 16 + Value(t[|t| - 1])
  }

  /** The digits of a number, without leading zeros. */
  function Print(n: nat): Text
  {
    if n < 16 then [Digit(n)] else Print(n / 16) + [Digit(n % 16)]
  }

  function Zeros(k: nat): Text
  {
    if k == 0 then [] else Zeros(k - 1) + ['0' as int]
  }

  /** Pad with zeros on the left. */
  function Padded(t: Text, width: nat): Text
  {
    if |t| >= width then t else Zeros(width - |t|) + t
  }

  lemma {:induction false} PrintParses(n: nat)
    ensures |Print(n)| >= 1 && (forall i :: 0 <= i < |Print(n)| ==> IsDigit(Print(n)[i])) && Parse(Print(n)) == n
  {
    if n >= 16 {
      PrintParses(n / 16);
      DigitValue(n % 16);
      var t := Print(n / 16);
      assert (t + [Digit(n % 16)])[..|t|] == t;
    } else {
      DigitValue(n);
    }
  }

  function Power(k: nat): nat
  {
    if k == 0 then 1 else 16 * Power(k - 1)
  }

  lemma {:induction false} PrintWidth(n: nat, k: nat)
    requires k > 0 && n < Power(k)
    ensures |Print(n)| <= k
    decreases k
  {
    if n >= 16 {
      assert k > 1;
      PrintWidth(n / 16, k - 1);
    }
  }

  lemma {:induction false} ZerosParse(k: nat, t: Text)
    requires forall i :: 0 <= i < |t| ==> IsDigit(t[i])
    ensures forall i :: 0 <= i < |Zeros(k) + t| ==> IsDigit((Zeros(k) + t)[i])
    ensures |Zeros(k)| == k && Parse(Zeros(k) + t) == Parse(t)
    decreases k, |t|
  {
    if |t| > 0 {
      ZerosParse(k, t[..|t| - 1]);
      assert (Zeros(k) + t)[..|Zeros(k) + t| - 1] == Zeros(k) + t[..|t| - 1];
    } else if k > 0 {
      ZerosParse(k - 1, []);
      assert Zeros(k) + t == Zeros(k);
      assert Zeros(k - 1) + [] == Zeros(k - 1);
      assert Zeros(k)[..k - 1] == Zeros(k - 1);
    }
  }

  /** A padded print has exactly its width and parses back to its number. */
  lemma PaddedRoundTrip(n: nat, width: nat)
    requires width > 0 && n < Power(width)
    ensures |Padded(Print(n), width)| == width
    ensures forall i :: 0 <= i < width ==> IsDigit(Padded(Print(n), width)[i])
    ensures Parse(Padded(Print(n), width)) == n
  {
    PrintParses(n);
    PrintWidth(n, width);
    PaddedParses(Print(n), width);
  }

  lemma PaddedParses(t: Text, width: nat)
    requires |t| <= width && forall i :: 0 <= i < |t| ==> IsDigit(t[i])
    ensures |Padded(t, width)| == width
    ensures forall i :: 0 <= i < width ==> IsDigit(Padded(t, width)[i])
    ensures Parse(Padded(t, width)) == Parse(t)
  {
    ZerosParse(width - |t|, t);
  }
}
