/** The JavaScript string operations the service and its routes rely on,
    over `seq<char>`. */
module Text {
  import opened Wrappers

  /** JavaScript truthiness of a value that is a string or absent
      (`null`/`undefined`): only a non-empty string is truthy. */
  predicate Truthy(v: Option<string>) {
    v.Some? && v.value != ""
  }

  /** `s.startsWith(p)` */
  predicate StartsWith(s: string, p: string) {
    p <= s
  }

  /** `s.includes(p)`: `p` occurs somewhere in `s`, not necessarily at its end. */
  predicate Contains(s: string, p: string)
    decreases |s|
  {
    p <= s || (s != [] && Contains(s[1..], p))
  }

  /** Conversely, a string that contains `p` is `p` with something before and
      after it: `Contains` is exactly substring containment. */
  lemma {:induction false} ContainsEmbedded(s: string, p: string)
    requires Contains(s, p)
    ensures exists a, b :: s == a + p + b
    decreases |s|
  {
    if p <= s {
      assert s == [] + p + s[|p|..];
    } else {
      ContainsEmbedded(s[1..], p);
      var a, b :| s[1..] == a + p + b;
      assert s == [s[0]] + a + p + b;
    }
  }

  /** `s.endsWith(p)`, only used to contrast with `Contains`. */
  predicate EndsWith(s: string, p: string) {
    |p| <= |s| && s[|s| - |p|..] == p
  }

  /** Whatever surrounds it, a string that embeds `p` contains `p`. */
  lemma {:induction false} ContainsInfix(a: string, p: string, b: string)
    ensures Contains(a + p + b, p)
    decreases |a|
  {
    if a == [] {
      assert a + p + b == p + b;
    } else {
      assert (a + p + b)[1..] == a[1..] + p + b;
      ContainsInfix(a[1..], p, b);
    }
  }

  function DigitChar(d: nat): (c: char)
    requires d < 10
    ensures '0' <= c <= '9' && c as int - '0' as int == d
  {
    "0123456789"[d]
  }

  /** Every character is a decimal digit. */
  predicate Digits(r: string) {
    forall i :: 0 <= i < |r| ==> '0' <= r[i] <= '9'
  }

  /** The number a string of decimal digits denotes, most significant first. */
  function DecimalValue(r: string): nat
    requires Digits(r)
    decreases |r|
  {
    if r == [] then 0
    else DecimalValue(r[..|r| - 1]) * 10 + (r[|r| - 1] as int - '0' as int)
  }

  /** The number a rendered integer denotes: a leading minus sign negates the
      digits that follow it. */
  function SignedValue(r: string): int
    requires if r != [] && r[0] == '-' then Digits(r[1..]) else Digits(r)
  {
    if r != [] && r[0] == '-' then -(DecimalValue(r[1..]) as int) else DecimalValue(r)
  }

  /** Decimal rendering of a natural number, as JavaScript prints an integer
      below 10^21: non-empty digits, no leading zero, denoting `n`. */
  function NaturalToString(n: nat): (r: string)
    ensures r != []
    ensures Digits(r)
    ensures |r| > 1 ==> r[0] != '0'
    ensures DecimalValue(r) == n
    decreases n
  {
    if n < 10 then [DigitChar(n)]
    else
      var r := NaturalToString(n / 10) + [DigitChar(n % 10)];
      assert r[..|r| - 1] == NaturalToString(n / 10);
      r
  }

  /** Decimal rendering of an integer whose magnitude is below 10^21: a
      leading minus sign exactly for negatives, then decimal digits with no
      leading zero, denoting `n`. */
  function NumberToString(n: int): (r: string)
    ensures r != []
    ensures r[0] == '-' <==> n < 0
    ensures forall i :: (if n < 0 then 1 else 0) <= i < |r| ==> '0' <= r[i] <= '9'
    ensures n < 0 ==> |r| > 1 && r[1] != '0'
    ensures n >= 0 && |r| > 1 ==> r[0] != '0'
    ensures SignedValue(r) == n
  {
    if n < 0 then
      var r := "-" + NaturalToString(-n);
      assert r[1..] == NaturalToString(-n);
      r
    else NaturalToString(n)
  }
}
