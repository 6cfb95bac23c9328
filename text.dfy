/**
 * The string operations the proxy core relies on: ASCII `downcase`,
 * substring containment (`include?`) and decimal rendering of integers
 * (string interpolation of an Integer).
 */
module Text {

  /** Lower-cases one ASCII letter; every other character is kept. */
  function LowerChar(ch: char): char
  {
    if 'A' <= ch <= 'Z' then (ch as int - 'A' as int + 'a' as int) as char else ch
  }

  /** No upper-case ASCII letter occurs in `s`. */
  predicate IsLower(s: string)
  {
    forall i :: 0 <= i < |s| ==> !('A' <= s[i] <= 'Z')
  }

  /** `String#downcase`, restricted to ASCII letters. */
  function Downcase(s: string): (r: string)
    ensures |r| == |s|
    ensures forall i :: 0 <= i < |s| ==> r[i] == LowerChar(s[i])
    ensures IsLower(r)
  {
    if s == [] then [] else [LowerChar(s[0])] + Downcase(s[1..])
  }

  /** A string that is already lower-case is left as it is. */
  lemma DowncaseKeepsLower(s: string)
    requires IsLower(s)
    ensures Downcase(s) == s
  {
    var r := Downcase(s);
    assert forall i :: 0 <= i < |s| ==> r[i] == s[i];
  }

  /** Lower-casing twice is lower-casing once. */
  lemma DowncaseIdempotent(s: string)
    ensures Downcase(Downcase(s)) == Downcase(s)
  {
    DowncaseKeepsLower(Downcase(s));
  }

  /** `s.include?(sub)`: a left-to-right scan for `sub` at every offset of `s`. */
  function Contains(s: string, sub: string): (r: bool)
    ensures sub <= s ==> r
    ensures r ==> |sub| <= |s|
    decreases |s|
  {
    sub <= s || (|s| > 0 && Contains(s[1..], sub))
  }

  /** The scan finds `sub` exactly when `sub` starts at some offset of `s`. */
  lemma {:induction false} ContainsIff(s: string, sub: string)
    ensures Contains(s, sub) <==> exists i :: 0 <= i <= |s| && sub <= s[i..]
    decreases |s|
  {
    if sub <= s {
      assert s[0..] == s;
    } else if |s| == 0 {
      forall i | 0 <= i <= |s| ensures !(sub <= s[i..]) {
        assert s[i..] == s;
      }
    } else {
      ContainsIff(s[1..], sub);
      if Contains(s[1..], sub) {
        var i :| 0 <= i <= |s[1..]| && sub <= s[1..][i..];
        assert s[1..][i..] == s[i + 1..];
      } else {
        forall i | 0 <= i <= |s| ensures !(sub <= s[i..]) {
          if i > 0 {
            assert s[1..][i - 1..] == s[i..];
          }
        }
      }
    }
  }

  /** A string contains every one of its infixes. */
  lemma ContainsInfix(a: string, sub: string, b: string)
    ensures Contains(a + sub + b, sub)
  {
    var s := a + sub + b;
    assert sub <= s[|a|..];
    ContainsIff(s, sub);
  }

  /** A string contains its own suffix. */
  lemma ContainsSuffix(a: string, sub: string)
    ensures Contains(a + sub, sub)
  {
    ContainsInfix(a, sub, "");
    assert a + sub + "" == a + sub;
  }

  /** Containment survives extending the string on either side. */
  lemma ContainsExtend(a: string, b: string, sub: string)
    ensures Contains(a, sub) ==> Contains(a + b, sub)
    ensures Contains(b, sub) ==> Contains(a + b, sub)
  {
    ContainsIff(a, sub);
    ContainsIff(b, sub);
    ContainsIff(a + b, sub);
    if Contains(a, sub) {
      var i :| 0 <= i <= |a| && sub <= a[i..];
      assert (a + b)[i..] == a[i..] + b;
    }
    if Contains(b, sub) {
      var i :| 0 <= i <= |b| && sub <= b[i..];
      assert (a + b)[|a| + i..] == b[i..];
    }
  }

  function DigitChar(d: nat): char
    requires d < 10
  {
    ('0' as int + d) as char
  }

  predicate IsDigits(s: string)
  {
    forall i :: 0 <= i < |s| ==> '0' <= s[i] <= '9'
  }

  /** The number a string of decimal digits spells, most significant digit first. */
  function DecimalValue(s: string): nat
    requires IsDigits(s)
  {
    if s == [] then 0 else DecimalValue(s[..|s| - 1]) * 10 + (s[|s| - 1] as int - '0' as int)
  }

  /** Decimal digits of `n`, as `Integer#to_s` renders them: they spell `n`, without a leading zero. */
  function NatToString(n: nat): (r: string)
    ensures |r| >= 1 && IsDigits(r)
    ensures DecimalValue(r) == n
    ensures |r| > 1 ==> r[0] != '0'
    decreases n
  {
    if n < 10 then [DigitChar(n)]
    else
      var front := NatToString(n / 10);
      var r := front + [DigitChar(n % 10)];
      assert r[..|r| - 1] == front;
      r
  }

  /** `Integer#to_s` for any sign. */
  function IntToString(i: int): string
  {
    if i < 0 then "-" + NatToString(-i) else NatToString(i)
  }
}
