/** The few JavaScript string built-ins the console relies on, over `string` =
    `seq<char>`: `Number.prototype.toString` for non-negative integers,
    `String.prototype.padStart`, and `String.prototype.replace` with a
    one-character pattern (which replaces the first occurrence only). */
module Text {

  predicate IsDigit(c: char) {
    '0' <= c <= '9'
  }

  predicate AllDigits(s: string) {
    forall i :: 0 <= i < |s| ==> IsDigit(s[i])
  }

  function DigitChar(d: nat): (c: char)
    requires d < 10
    ensures IsDigit(c)
  {
    (('0' as int) + d) as char
  }

  function DigitValue(c: char): (d: nat)
    requires IsDigit(c)
    ensures d < 10
  {
    (c as int) - ('0' as int)
  }

  /** `n.toString()` for a non-negative integer: its decimal digits, with no
      leading zero. */
  function Decimal(n: nat): (s: string)
    ensures 1 <= |s| && AllDigits(s)
    ensures |s| > 1 ==> s[0] != '0'
    ensures n < 10 <==> |s| == 1
    decreases n
  {
    if n < 10 then [DigitChar(n)] else Decimal(n / 10) + [DigitChar(n % 10)]
  }

  /** The number a string of decimal digits denotes (leading zeros allowed). */
  function DigitsValue(s: string): nat
    requires AllDigits(s)
    decreases |s|
  {
    if s == [] then 0 else 10 * DigitsValue(s[..|s| - 1]) + DigitValue(s[|s| - 1])
  }

  /** Reading back what `Decimal` wrote gives the number again. */
  lemma {:induction false} DecimalRoundTrip(n: nat)
    ensures DigitsValue(Decimal(n)) == n
  {
    var s := Decimal(n);
    if n >= 10 {
      DecimalRoundTrip(n / 10);
      assert s[..|s| - 1] == Decimal(n / 10);
      assert DigitValue(DigitChar(n % 10)) == n % 10;
    } else {
      assert DigitValue(DigitChar(n)) == n;
    }
  }

  function Repeat(c: char, k: nat): (r: string)
    ensures |r| == k
    ensures forall i :: 0 <= i < k ==> r[i] == c
  {
    seq(k, _ => c)
  }

  /** Zeros written in front of a digit string do not change its value. */
  lemma {:induction false} LeadingZerosIgnored(k: nat, s: string)
    requires AllDigits(s)
    ensures AllDigits(Repeat('0', k) + s)
    ensures DigitsValue(Repeat('0', k) + s) == DigitsValue(s)
    decreases |s| + k
  {
    var z := Repeat('0', k);
    var t := z + s;
    if s == [] {
      assert t == z;
      if k > 0 {
        assert t[..|t| - 1] == Repeat('0', k - 1);
        LeadingZerosIgnored(k - 1, []);
        assert Repeat('0', k - 1) + [] == Repeat('0', k - 1);
      }
    } else {
      assert t[..|t| - 1] == z + s[..|s| - 1];
      LeadingZerosIgnored(k, s[..|s| - 1]);
    }
  }

  /** `s.padStart(width, fill)`: fill characters in front of `s` until it is
      at least `width` long; a string already that long is kept as it is. */
  function PadStart(s: string, width: nat, fill: char): (r: string)
    ensures |r| == if |s| >= width then |s| else width
    ensures r[|r| - |s|..] == s
    ensures forall i :: 0 <= i < |r| - |s| ==> r[i] == fill
  {
    if |s| >= width then s else Repeat(fill, width - |s|) + s
  }

  /** Index `i` holds the first occurrence of `c` in `s`. */
  predicate FirstOccurrence(s: string, i: int, c: char) {
    0 <= i < |s| && s[i] == c && c !in s[..i]
  }

  /** The index of the first `c` in `s`, or `|s|` when there is none. */
  function IndexOf(s: string, c: char): (k: nat)
    ensures k <= |s|
    ensures k < |s| <==> c in s
    ensures k < |s| ==> FirstOccurrence(s, k, c)
    decreases |s|
  {
    if s == [] then 0
    else if s[0] == c then 0
    else
      var k := 1 + IndexOf(s[1..], c);
      assert s[1..][..k - 1] == s[1..k];
      assert s[..k] == [s[0]] + s[1..k];
      k
  }

  /** `s.replace(from, to)` for a one-character pattern: only the first
      occurrence of `from` becomes `to`; every other character is kept. */
  function ReplaceFirst(s: string, from: char, to: char): (r: string)
    ensures |r| == |s|
    ensures from !in s ==> r == s
    ensures forall i :: 0 <= i < |s| ==> r[i] == (if FirstOccurrence(s, i, from) then to else s[i])
  {
    var k := IndexOf(s, from);
    if k == |s| then s
    else
      s[k := to]
  }

  /** Before the first occurrence of `c` there is no `c`. */
  lemma NoneBeforeFirst(s: string, j: nat, c: char)
    requires FirstOccurrence(s, j, c)
    ensures forall i :: 0 <= i < j ==> s[i] != c
  {
    forall i | 0 <= i < j
      ensures s[i] != c
    {
      assert s[..j][i] == s[i];
    }
  }

  /** With its first `from` at `k`, the replacement changes exactly index
      `k`. */
  lemma ReplaceFirstAt(s: string, k: nat, from: char, to: char)
    requires FirstOccurrence(s, k, from)
    ensures ReplaceFirst(s, from, to) == s[..k] + [to] + s[k + 1..]
  {
    assert s[k] in s;
    var m := IndexOf(s, from);
    NoneBeforeFirst(s, k, from);
    NoneBeforeFirst(s, m, from);
    assert m == k;
    assert ReplaceFirst(s, from, to) == s[k := to];
  }

  /** Every occurrence of `from` replaced by `to`. */
  function ReplaceAll(s: string, from: char, to: char): (r: string)
    ensures |r| == |s|
    ensures forall i :: 0 <= i < |s| ==> r[i] == (if s[i] == from then to else s[i])
  {
    seq(|s|, i requires 0 <= i < |s| => if s[i] == from then to else s[i])
  }
}
