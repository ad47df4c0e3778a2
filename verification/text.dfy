/** Small string utilities: decimal rendering of numbers (as JavaScript's
    string concatenation does for a non-negative integer below 10^21) and the splitting
    steps the wire decoder is built from. */
module Text {
  import opened Wrappers

  predicate IsDigit(c: char) {
    '0' <= c <= '9'
  }

  predicate AllDigits(s: string) {
    forall i :: 0 <= i < |s| ==> IsDigit(s[i])
  }

  function DigitChar(d: nat): char
    requires d < 10
  {
    ('0' as int + d) as char
  }

  function DigitValue(c: char): nat
    requires IsDigit(c)
  {
    c as int - '0' as int
  }

  /** The text JavaScript produces for a non-negative integer below 10^21
      (larger ones it writes in exponent notation): at least one digit, only
      digits, and a leading zero only for zero itself. */
  function Decimal(n: nat): (r: string)
    ensures |r| >= 1 && AllDigits(r)
    ensures r[0] == '0' <==> n == 0
    decreases n
  {
    if n < 10 then [DigitChar(n)] else Decimal(n / 10) + [DigitChar(n % 10)]
  }

  /** Reads a string of digits as a number, most significant digit first. */
  function ParseDecimal(s: string): nat
    requires AllDigits(s)
    decreases |s|
  {
    if s == [] then 0 else ParseDecimal(s[..|s| - 1]) * 10 + DigitValue(s[|s| - 1])
  }

  /** The strings `Decimal` can produce: non-empty, all digits, no leading zero. */
  predicate IsCanonical(s: string) {
    |s| >= 1 && AllDigits(s) && (s[0] == '0' ==> |s| == 1)
  }

  lemma {:induction false} DecimalRoundTrip(n: nat)
    ensures ParseDecimal(Decimal(n)) == n
    decreases n
  {
    var r := Decimal(n);
    if n >= 10 {
      DecimalRoundTrip(n / 10);
      assert r[..|r| - 1] == Decimal(n / 10);
    }
  }

  lemma {:induction false} ParseDecimalCanonical(s: string)
    requires IsCanonical(s)
    ensures Decimal(ParseDecimal(s)) == s
    decreases |s|
  {
    if |s| > 1 {
      var p := s[..|s| - 1];
      assert p[0] == s[0];
      ParseDecimalCanonical(p);
      var n := ParseDecimal(s);
      assert ParseDecimal(p) != 0;
      assert n / 10 == ParseDecimal(p) && n % 10 == DigitValue(s[|s| - 1]);
      assert s == p + [s[|s| - 1]];
    }
  }

  /** Decodes a number rendered by `Decimal`; any other text is refused. */
  function ParseId(s: string): (r: Option<nat>)
    ensures r.Some? <==> IsCanonical(s)
    ensures r.Some? ==> Decimal(r.value) == s
  {
    if IsCanonical(s) then
      ParseDecimalCanonical(s);
      Some(ParseDecimal(s))
    else None
  }

  lemma ParseIdOfDecimal(n: nat)
    ensures ParseId(Decimal(n)) == Some(n)
  {
    DecimalRoundTrip(n);
  }

  /** Splits `s` before the first occurrence of `stop`; the second part is
      empty when `stop` does not occur. */
  function SplitAt(s: string, stop: char): (r: (string, string))
    ensures r.0 + r.1 == s
    ensures stop !in r.0
    ensures r.1 == [] || r.1[0] == stop
  {
    if s == [] then ([], [])
    else if s[0] == stop then ([], s)
    else
      var rest := SplitAt(s[1..], stop);
      assert s == [s[0]] + (rest.0 + rest.1);
      ([s[0]] + rest.0, rest.1)
  }

  lemma {:induction false} SplitAtOf(v: string, t: string, stop: char)
    requires stop !in v
    requires |t| > 0 && t[0] == stop
    ensures SplitAt(v + t, stop) == (v, t)
  {
    if v != [] {
      assert (v + t)[1..] == v[1..] + t;
      SplitAtOf(v[1..], t, stop);
      assert [v[0]] + v[1..] == v;
    } else {
      assert v + t == t;
    }
  }

  /** What remains of `s` after the literal `p`, if `s` starts with it. */
  function StripPrefix(s: string, p: string): (r: Option<string>)
    ensures r.Some? <==> p <= s
    ensures r.Some? ==> s == p + r.value
  {
    if p <= s then Some(s[|p|..]) else None
  }

  lemma StripPrefixOf(p: string, t: string)
    ensures StripPrefix(p + t, p) == Some(t)
  {
    assert (p + t)[|p|..] == t;
  }

  /** A field of the wire text: everything up to `stop`, which must begin the
      literal `next`; returns the field and what follows `next`. */
  function Field(s: string, stop: char, next: string): (r: Option<(string, string)>)
    ensures r.Some? ==> s == r.value.0 + next + r.value.1 && stop !in r.value.0
  {
    var parts := SplitAt(s, stop);
    var after :- StripPrefix(parts.1, next);
    Some((parts.0, after))
  }

  lemma FieldOf(v: string, next: string, t: string, stop: char)
    requires stop !in v
    requires |next| > 0 && next[0] == stop
    ensures Field(v + (next + t), stop, next) == Some((v, t))
  {
    SplitAtOf(v, next + t, stop);
    StripPrefixOf(next, t);
  }

  lemma FieldAtEnd(v: string, next: string, stop: char)
    requires stop !in v
    requires |next| > 0 && next[0] == stop
    ensures Field(v + next, stop, next) == Some((v, []))
  {
    FieldOf(v, next, [], stop);
    assert next + [] == next;
  }
}
