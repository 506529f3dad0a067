/** JavaScript numbers as the model needs them: exact reals that may be NaN, `parseFloat` on the
    decimal notation the application writes, `Math.round`, `Math.ceil` and `Math.max`. */
module Numbers {
  import opened Strings

  /** A JavaScript number: a finite value or NaN (what `parseFloat` yields for text without digits). */
  datatype Num = Finite(value: real) | NaN {

    /** `a + b`: NaN is absorbing. */
    function Plus(other: Num): Num {
      if Finite? && other.Finite? then Finite(value + other.value) else NaN
    }

    /** `a * k` for a finite factor `k`. */
    function Times(k: real): Num {
      if Finite? then Finite(value * k) else NaN
    }

    function Negate(): Num {
      if Finite? then Finite(-value) else NaN
    }
  }

  /** Addition of numbers may be regrouped and reordered, NaN or not. */
  lemma PlusRegroups(a: Num, b: Num, c: Num)
    ensures a.Plus(b).Plus(c) == a.Plus(b.Plus(c))
    ensures a.Plus(b) == b.Plus(a)
  {
  }

  /** `Math.round`: the nearest integer, halves rounded towards +infinity. */
  function Round(x: real): (r: int)
    ensures x - 1.0 / 2.0 < r as real <= x + 1.0 / 2.0
  {
    (x + 1.0 / 2.0).Floor
  }

  /** `Math.ceil`. */
  function Ceil(x: real): (r: int)
    ensures x <= r as real < x + 1.0
  {
    -((-x).Floor)
  }

  function Max(a: real, b: real): (r: real)
    ensures r >= a && r >= b && (r == a || r == b)
  {
    if a >= b then a else b
  }

  function Min(a: real, b: real): (r: real)
    ensures r <= a && r <= b && (r == a || r == b)
  {
    if a <= b then a else b
  }

  /** Number of leading decimal digits of `s`. */
  function DigitRun(s: string): (k: nat)
    ensures k <= |s|
    ensures forall i :: 0 <= i < k ==> IsDigit(s[i])
    ensures k < |s| ==> !IsDigit(s[k])
  {
    if s == [] || !IsDigit(s[0]) then 0 else 1 + DigitRun(s[1..])
  }

  /** The value of a string of decimal digits. */
  function DigitsValue(d: string): nat
    requires forall i :: 0 <= i < |d| ==> IsDigit(d[i])
  {
    if d == [] then 0
    else
      assert IsDigit(d[|d| - 1]);
      DigitsValue(d[..|d| - 1]) * 10 + (d[|d| - 1] as int - '0' as int)
  }

  function Pow10(k: nat): (r: nat)
    ensures r >= 1
  {
    if k == 0 then 1 else 10 * Pow10(k - 1)
  }

  /** The longest prefix of `s` of the form `digits [ "." digits ]` with at least one digit. */
  function ParseUnsigned(s: string): Num {
    var a := DigitRun(s);
    var rest := s[a..];
    var fraction := if |rest| > 0 && rest[0] == '.' then rest[1..][..DigitRun(rest[1..])] else "";
    if a == 0 && |fraction| == 0 then NaN
    else Finite(DigitsValue(s[..a]) as real + DigitsValue(fraction) as real / Pow10(|fraction|) as real)
  }

  /** `parseFloat(s)` for an optional sign followed by decimal digits with an optional fraction. */
  function ParseFloat(s: string): Num {
    if |s| > 0 && s[0] == '-' then ParseUnsigned(s[1..]).Negate()
    else if |s| > 0 && s[0] == '+' then ParseUnsigned(s[1..])
    else ParseUnsigned(s)
  }

  lemma {:induction false} DigitRunOfDigits(s: string)
    requires forall i :: 0 <= i < |s| ==> IsDigit(s[i])
    ensures DigitRun(s) == |s|
  {
    if s != [] {
      DigitRunOfDigits(s[1..]);
    }
  }

  lemma {:induction false} DigitsValueOfNat(n: nat)
    ensures DigitsValue(NatToString(n)) == n
  {
    if n >= 10 {
      var s := NatToString(n);
      assert s[..|s| - 1] == NatToString(n / 10);
      DigitsValueOfNat(n / 10);
    }
  }

  /** `parseFloat(String(n)) == n`: decimal rendering and parsing are inverse on naturals. */
  lemma ParseFloatOfNatToString(n: nat)
    ensures ParseFloat(NatToString(n)) == Finite(n as real)
  {
    var s := NatToString(n);
    DigitRunOfDigits(s);
    DigitsValueOfNat(n);
    assert s[..|s|] == s;
    assert s[|s|..] == "";
  }
}
