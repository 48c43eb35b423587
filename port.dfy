/** Choosing the listen port from the PORT environment value: the value as
    Go's strconv.Atoi reads it when that gives a positive integer, the
    default 8080 otherwise. */
module PortSelection {
  import opened Options

  const DefaultPort := 8080

  /** Bounds of Go's `int` on a 64-bit platform. */
  const MinInt := -0x8000_0000_0000_0000
  const MaxInt := 0x7fff_ffff_ffff_ffff

  predicate IsDigit(c: char) {
    '0' <= c <= '9'
  }

  predicate AllDigits(s: string) {
    forall i :: 0 <= i < |s| ==> IsDigit(s[i])
  }

  /** The value of a string of decimal digits, most significant first. */
  function DigitsValue(s: string): nat
    requires AllDigits(s)
  {
    if s == [] then 0
    else DigitsValue(s[..|s| - 1]) * 10 + (s[|s| - 1] as int - '0' as int)
  }

  /** `s` without its leading '+' or '-', if it has one. */
  function Unsigned(s: string): (d: string)
    ensures |d| < |s| <==> |s| > 0 && s[0] in {'+', '-'}
    ensures s == (if |d| < |s| then [s[0]] else []) + d
  {
    if |s| > 0 && (s[0] == '+' || s[0] == '-') then s[1..] else s
  }

  /** strconv.Atoi in base 10: an optional '+' or '-', then one or more
      decimal digits (leading zeros allowed, no underscores), and the value
      must fit Go's 64-bit `int`; anything else is an error (None). */
  function Atoi(s: string): (r: Option<int>)
    ensures r.Some? ==> MinInt <= r.value <= MaxInt
    ensures r.Some? ==> Unsigned(s) != [] && AllDigits(Unsigned(s))
    ensures r.Some? ==>
      (if s[0] == '-' then -r.value else r.value) == DigitsValue(Unsigned(s))
    ensures (Unsigned(s) != [] && AllDigits(Unsigned(s))
             && var m: int := DigitsValue(Unsigned(s));
                MinInt <= (if s[0] == '-' then -m else m) <= MaxInt) ==> r.Some?
  {
    var digits := Unsigned(s);
    if digits == [] || !AllDigits(digits) then None
    else
      var magnitude: int := DigitsValue(digits);
      var v: int := if s[0] == '-' then -magnitude else magnitude;
      if MinInt <= v <= MaxInt then Some(v) else None
  }

  /** The port the service listens on, given the PORT value ("" when it
      is unset). The result is always positive; it is the parsed value
      exactly when that parses and is positive, the default otherwise. No
      upper bound is applied: a value above 65535 is chosen as it is. */
  function SelectPort(env: string): (port: int)
    ensures port > 0
    ensures port != DefaultPort ==> Atoi(env) == Some(port)
    ensures Atoi(env).Some? && Atoi(env).value > 0 ==> port == Atoi(env).value
    ensures Atoi(env).None? || Atoi(env).value <= 0 ==> port == DefaultPort
  {
    match Atoi(env)
    case Some(n) => if n <= 0 then DefaultPort else n
    case None => DefaultPort
  }

  /** The shortest decimal spelling of `n`. */
  function Decimal(n: nat): (s: string)
    ensures |s| > 0
  {
    if n < 10 then [DigitChar(n)] else Decimal(n / 10) + [DigitChar(n % 10)]
  }

  function DigitChar(d: nat): (c: char)
    requires d < 10
    ensures IsDigit(c) && c as int - '0' as int == d
  {
    ('0' as int + d) as char
  }

  /** Decimal spells `n` in digits whose value is `n`. */
  lemma {:induction false} DecimalValue(n: nat)
    ensures AllDigits(Decimal(n)) && DigitsValue(Decimal(n)) == n
  {
    if n >= 10 {
      DecimalValue(n / 10);
      var s := Decimal(n);
      assert s[..|s| - 1] == Decimal(n / 10);
      assert s[|s| - 1] == DigitChar(n % 10);
    }
  }

  /** Setting PORT to the decimal spelling of any positive `int` selects
      exactly that port. */
  lemma PortRoundTrip(n: int)
    requires 0 < n <= MaxInt
    ensures SelectPort(Decimal(n)) == n
  {
    DecimalValue(n);
  }

  /** A leading '+' is accepted and a '-' gives a non-positive value, so
      "+N" selects N and "-N" falls back to the default. */
  lemma {:induction false} SignedSpellings(n: int)
    requires 0 < n <= MaxInt
    ensures SelectPort("+" + Decimal(n)) == n
    ensures SelectPort("-" + Decimal(n)) == DefaultPort
  {
    DecimalValue(n);
    assert ("+" + Decimal(n))[1..] == Decimal(n);
    assert ("-" + Decimal(n))[1..] == Decimal(n);
  }

  /** A decimal spelling beyond Go's `int` is a range error, so the
      default port is used. */
  lemma OutOfRangeFallsBack(n: int)
    requires n > MaxInt
    ensures SelectPort(Decimal(n)) == DefaultPort
  {
    DecimalValue(n);
  }

  /** Any character that is neither a digit nor a leading sign makes the
      value a syntax error, so the default port is used ("80a", " 80",
      "8_0" all give 8080). */
  lemma NonDigitFallsBack(s: string, i: nat)
    requires i < |s| && !IsDigit(s[i]) && !(i == 0 && s[0] in {'+', '-'})
    ensures SelectPort(s) == DefaultPort
  {
    if s[0] in {'+', '-'} {
      assert Unsigned(s)[i - 1] == s[i];
    } else {
      assert Unsigned(s)[i] == s[i];
    }
  }

  /** The empty PORT value (unset) selects the default port. */
  lemma UnsetFallsBack()
    ensures SelectPort("") == DefaultPort
  {
  }

  /** Leading zeros do not change the value of a digit string. */
  lemma {:induction false} LeadingZeroValue(d: string)
    requires AllDigits(d)
    ensures AllDigits("0" + d) && DigitsValue("0" + d) == DigitsValue(d)
    decreases |d|
  {
    if d != [] {
      var init := d[..|d| - 1];
      LeadingZeroValue(init);
      assert ("0" + d)[..|"0" + d| - 1] == "0" + init;
      assert ("0" + d)[|"0" + d| - 1] == d[|d| - 1];
    }
  }

  /** A leading zero is accepted: "08080" selects 8080, like "8080". */
  lemma LeadingZeroPort(n: int)
    requires 0 < n <= MaxInt
    ensures SelectPort("0" + Decimal(n)) == n
  {
    DecimalValue(n);
    LeadingZeroValue(Decimal(n));
  }
}
