/** String helpers with the meaning the JavaScript built-ins have in the
    server: `toLowerCase`, `startsWith`, `includes`, `join`, `+=` on strings,
    the `||` fallback on strings and `parseInt`. */
module Text {
  import opened Wrappers

  /** `a || b` on strings: the empty string is the only falsy string. */
  function Or(a: string, b: string): (r: string)
    ensures a != "" ==> r == a
    ensures a == "" ==> r == b
  {
    if a != "" then a else b
  }

  /** Lower-casing of the ASCII letters (see README for the Unicode gap). */
  function LowerChar(c: char): (r: char)
    ensures 'A' <= c <= 'Z' ==> 'a' <= r <= 'z'
    ensures !('A' <= c <= 'Z') ==> r == c
  {
    if 'A' <= c <= 'Z' then (c as int + 32) as char else c
  }

  function ToLower(s: string): (r: string)
    ensures |r| == |s|
  {
    seq(|s|, i requires 0 <= i < |s| => LowerChar(s[i]))
  }

  predicate StartsWith(s: string, prefix: string) {
    |prefix| <= |s| && s[..|prefix|] == prefix
  }

  /** `s.includes(t)`: some position of `s` starts an occurrence of `t`. */
  predicate Contains(s: string, t: string) {
    exists i | 0 <= i <= |s| - |t| :: OccursAt(s, t, i)
  }

  predicate OccursAt(s: string, t: string, i: int) {
    0 <= i <= |s| - |t| && s[i..i + |t|] == t
  }

  /** A string lacking one of the characters of `t` does not contain `t`. */
  lemma AbsentChar(s: string, t: string, k: nat)
    requires k < |t| && t[k] !in s
    ensures !Contains(s, t)
  {
    forall i | 0 <= i <= |s| - |t|
      ensures !OccursAt(s, t, i)
    {
      assert s[i + k] in s;
      assert s[i..i + |t|][k] == s[i + k];
    }
  }

  lemma NoUpperCase(s: string)
    requires forall c | c in s :: !('A' <= c <= 'Z')
    ensures ToLower(s) == s
  {
    assert forall i | 0 <= i < |s| :: s[i] in s;
  }

  /** `xs.join(sep)`. */
  function Join(xs: seq<string>, sep: string): (r: string)
    ensures xs == [] ==> r == ""
    ensures xs != [] ==> StartsWith(r, xs[0])
  {
    if xs == [] then ""
    else if |xs| == 1 then xs[0]
    else xs[0] + sep + Join(xs[1..], sep)
  }

  /** Joining one more element at the end adds the separator and the element. */
  lemma {:induction false} JoinAppend(xs: seq<string>, x: string, sep: string)
    requires xs != []
    ensures Join(xs + [x], sep) == Join(xs, sep) + sep + x
  {
    if |xs| == 1 {
      assert (xs + [x])[1..] == [x];
    } else {
      assert (xs + [x])[1..] == xs[1..] + [x];
      JoinAppend(xs[1..], x, sep);
    }
  }

  /** The string built by `out += chunk` for each chunk in order. */
  function Concat(chunks: seq<string>): string
  {
    if chunks == [] then "" else Concat(chunks[..|chunks| - 1]) + chunks[|chunks| - 1]
  }

  lemma {:induction false} ConcatAppend(a: seq<string>, b: seq<string>)
    ensures Concat(a + b) == Concat(a) + Concat(b)
    decreases |b|
  {
    if b == [] {
      assert a + b == a;
    } else {
      var last := |b| - 1;
      assert (a + b)[..|a + b| - 1] == a + b[..last];
      ConcatAppend(a, b[..last]);
    }
  }

  lemma {:induction false} ConcatLength(chunks: seq<string>)
    ensures |Concat(chunks)| == TotalLength(chunks)
  {
    if chunks != [] {
      ConcatLength(chunks[..|chunks| - 1]);
    }
  }

  function TotalLength(chunks: seq<string>): nat {
    if chunks == [] then 0 else TotalLength(chunks[..|chunks| - 1]) + |chunks[|chunks| - 1]|
  }

  // ---------------------------------------------------------------------
  // parseInt (no radix argument)

  /** The white-space and line-terminator characters `parseInt` skips. */
  predicate IsSpace(c: char) {
    var n := c as int;
    n == 9 || n == 10 || n == 11 || n == 12 || n == 13 || n == 32 ||
    n == 0xA0 || n == 0x1680 || (0x2000 <= n <= 0x200A) ||
    n == 0x2028 || n == 0x2029 || n == 0x202F || n == 0x205F || n == 0x3000 || n == 0xFEFF
  }

  function TrimStart(s: string): (r: string)
    ensures |r| <= |s| && r == s[|s| - |r|..]
    ensures r != [] ==> !IsSpace(r[0])
  {
    if s != [] && IsSpace(s[0]) then TrimStart(s[1..]) else s
  }

  /** The value of `c` as a digit in base `radix` (10 or 16), if it is one. */
  function DigitValue(c: char, radix: nat): (r: Option<nat>)
    ensures r.Some? ==> r.value < radix
  {
    var d :=
      if '0' <= c <= '9' then Some(c as nat - '0' as nat)
      else if 'a' <= c <= 'z' then Some(c as nat - 'a' as nat + 10)
      else if 'A' <= c <= 'Z' then Some(c as nat - 'A' as nat + 10)
      else None;
    if d.Some? && d.value < radix then d else None
  }

  /** The longest prefix of `s` made of base-`radix` digits. */
  function LeadingDigits(s: string, radix: nat): (r: string)
    ensures StartsWith(s, r)
    ensures forall i | 0 <= i < |r| :: DigitValue(r[i], radix).Some?
    ensures |r| < |s| ==> DigitValue(s[|r|], radix).None?
  {
    if s != [] && DigitValue(s[0], radix).Some? then [s[0]] + LeadingDigits(s[1..], radix) else ""
  }

  /** The number a string of digits spells, most significant digit first. */
  function DigitsValue(ds: string, radix: nat): nat
  {
    if ds == [] then 0
    else DigitsValue(ds[..|ds| - 1], radix) * radix + DigitValue(ds[|ds| - 1], radix).GetOr(0)
  }

  /** `parseInt(s)`; `None` stands for `NaN`. */
  function ParseIntText(s: string): Option<int>
  {
    var t := TrimStart(s);
    if t != [] && t[0] == '-' then
      match ParseMagnitude(t[1..])
      case Some(m) => Some(-m)
      case None => None
    else if t != [] && t[0] == '+' then ParseMagnitude(t[1..])
    else ParseMagnitude(t)
  }

  /** The unsigned part: `0x`/`0X` selects base 16, otherwise base 10. */
  function ParseMagnitude(u: string): Option<int>
  {
    if |u| >= 2 && u[0] == '0' && (u[1] == 'x' || u[1] == 'X') then DigitsPrefixValue(u[2..], 16)
    else DigitsPrefixValue(u, 10)
  }

  function DigitsPrefixValue(v: string, radix: nat): Option<int>
  {
    var ds := LeadingDigits(v, radix);
    if ds == [] then None else Some(DigitsValue(ds, radix))
  }

  /** The decimal rendering of a natural number, as `String(n)` gives it. */
  function NatToString(n: nat): (r: string)
    ensures r != [] && '0' <= r[0] <= '9'
    ensures forall i | 0 <= i < |r| :: '0' <= r[i] <= '9'
    ensures r[0] == '0' ==> n == 0 && r == "0"
  {
    if n < 10 then [('0' as int + n) as char]
    else NatToString(n / 10) + [('0' as int + n % 10) as char]
  }

  function Pow10(k: nat): (r: nat)
    ensures r > 0
  {
    if k == 0 then 1 else 10 * Pow10(k - 1)
  }

  /** From this magnitude on, `String` writes a number in exponent form. */
  const ExponentFrom: nat := Pow10(21)

  /** The first decimal digit of `n`. */
  function LeadingDigit(n: nat): (d: nat)
    ensures d < 10
    ensures n > 0 ==> d > 0
  {
    if n < 10 then n else LeadingDigit(n / 10)
  }

  /** `n`'s decimal digits without the zeros it ends with. */
  function Significand(n: nat): (r: string)
    ensures r != [] && r[0] == NatToString(n)[0]
  {
    if n >= 10 && n % 10 == 0 then
      assert NatToString(n / 10)[0] == NatToString(n)[0];
      Significand(n / 10)
    else NatToString(n)
  }

  lemma {:induction false} PowerLeadsWithOne(k: nat)
    ensures LeadingDigit(Pow10(k)) == 1
  {
    if k > 0 {
      PowerLeadsWithOne(k - 1);
      assert Pow10(k) / 10 == Pow10(k - 1);
    }
  }

  lemma {:induction false} FirstDigit(n: nat)
    ensures NatToString(n)[0] as int == '0' as int + LeadingDigit(n)
  {
    if n >= 10 {
      FirstDigit(n / 10);
    }
  }

  /** `String(n)` for a non-negative integer-valued number: plain digits
      below 10^21, otherwise `d.ddde+x` (`de+x` with one significant digit). */
  function MagnitudeToString(n: nat): string {
    if n < ExponentFrom then NatToString(n)
    else
      var d := Significand(n);
      [d[0]] + (if |d| > 1 then "." + d[1..] else "") + "e+" + NatToString(|NatToString(n)| - 1)
  }

  /** `String(n)` for an integer-valued number. */
  function NumberToString(n: int): string {
    if n < 0 then "-" + MagnitudeToString(-n) else MagnitudeToString(n)
  }

  /** What `parseInt(String(n))` gives, stated on numbers: `n` itself below
      10^21 in magnitude, otherwise the signed first digit that the exponent
      form starts with. */
  function ParseIntOfNumber(n: int): (r: int)
    ensures r == 0 <==> n == 0
    ensures -(ExponentFrom as int) < n < ExponentFrom ==> r == n
    ensures n >= ExponentFrom ==> r == LeadingDigit(n)
    ensures n <= -(ExponentFrom as int) ==> r == -(LeadingDigit(-n) as int)
  {
    if n < 0 then -(ParseIntOfMagnitude(-n) as int) else ParseIntOfMagnitude(n)
  }

  function ParseIntOfMagnitude(m: nat): (r: nat)
    ensures r == 0 <==> m == 0
  {
    if m < ExponentFrom then m else LeadingDigit(m)
  }

  lemma MagnitudeParse(n: nat)
    ensures var s := MagnitudeToString(n);
            s != [] && '0' <= s[0] <= '9' && ParseMagnitude(s) == Some(ParseIntOfMagnitude(n))
  {
    var s := MagnitudeToString(n);
    if n < ExponentFrom {
      DecimalDigitsValue(n);
      LeadingDigitsOfDigits(s, 10);
      assert DigitsPrefixValue(s, 10) == Some(n);
      assert s[0] == '0' ==> s == "0";
    } else {
      FirstDigit(n);
      var d := Significand(n);
      assert s[0] == d[0] && DigitValue(s[1], 10).None?;
      assert LeadingDigits(s[1..], 10) == "";
      assert LeadingDigits(s, 10) == [s[0]];
      assert DigitsValue([s[0]], 10) == LeadingDigit(n);
    }
  }

  /** `parseInt(String(n))` for every integer-valued number. */
  lemma NumberParse(n: int)
    ensures ParseIntText(NumberToString(n)) == Some(ParseIntOfNumber(n))
  {
    if n < 0 {
      NegativeParse(n);
    } else {
      MagnitudeParse(n);
      UnsignedParse(MagnitudeToString(n));
    }
  }

  lemma NegativeParse(n: int)
    requires n < 0
    ensures ParseIntText(NumberToString(n)) == Some(ParseIntOfNumber(n))
  {
    var m: nat := -n;
    MagnitudeParse(m);
    var t := MagnitudeToString(m);
    var s := NumberToString(n);
    assert s == "-" + t;
    SignedParse(t);
    assert ParseIntText(s) == Some(-(ParseIntOfMagnitude(m) as int));
  }

  lemma UnsignedParse(t: string)
    requires t != [] && '0' <= t[0] <= '9'
    ensures ParseIntText(t) == ParseMagnitude(t)
  {
    assert !IsSpace(t[0]);
    assert TrimStart(t) == t;
  }

  lemma SignedParse(t: string)
    requires t != [] && '0' <= t[0] <= '9'
    requires ParseMagnitude(t).Some?
    ensures ParseIntText("-" + t) == Some(-ParseMagnitude(t).value)
  {
    var s := "-" + t;
    assert !IsSpace(s[0]);
    assert TrimStart(s) == s && s[0] == '-' && s[1..] == t;
  }

  lemma {:induction false} DecimalDigitsValue(n: nat)
    ensures forall i | 0 <= i < |NatToString(n)| :: DigitValue(NatToString(n)[i], 10).Some?
    ensures DigitsValue(NatToString(n), 10) == n
  {
    var s := NatToString(n);
    if n >= 10 {
      DecimalDigitsValue(n / 10);
      assert s[..|s| - 1] == NatToString(n / 10);
    }
  }

  lemma {:induction false} LeadingDigitsOfDigits(s: string, radix: nat)
    requires forall i | 0 <= i < |s| :: DigitValue(s[i], radix).Some?
    ensures LeadingDigits(s, radix) == s
  {
    if s != [] {
      LeadingDigitsOfDigits(s[1..], radix);
    }
  }

  /** `parseInt(String(n)) == n`: a port given as a decimal string is read back
      as the number it spells. */
  lemma ParseIntDecimal(n: nat)
    ensures ParseIntText(NatToString(n)) == Some(n)
  {
    var s := NatToString(n);
    DecimalDigitsValue(n);
    LeadingDigitsOfDigits(s, 10);
    assert DigitsPrefixValue(s, 10) == Some(n);
    DigitLedIsDecimal(s);
  }

  lemma DigitLedIsDecimal(s: string)
    requires s != [] && '0' <= s[0] <= '9'
    requires s[0] == '0' ==> s == "0"
    ensures ParseIntText(s) == DigitsPrefixValue(s, 10)
  {
    assert !IsSpace(s[0]);
    assert TrimStart(s) == s;
    assert ParseMagnitude(s) == DigitsPrefixValue(s, 10);
  }
}
