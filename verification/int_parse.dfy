/** Swift's `Int(String)` initializer, as used to read a menu selection.

    On the 64-bit platforms the package targets, `Int` is a signed 64-bit
    integer. The initializer accepts an optional leading `+` or `-` followed
    by one or more ASCII decimal digits, and nothing else: no whitespace, no
    other digit scripts, no empty digit run. A value outside the 64-bit range
    yields `nil`. The parser below accumulates digits left to right and gives
    up as soon as the magnitude exceeds its limit, as the standard library's
    overflow-checked loop does; `ParseInt`'s contract ties it to the
    declarative reading `IsIntLiteral` / `LiteralValue`. */
module IntParse {
  import opened Wrappers

  const Int64Min: int := -0x8000_0000_0000_0000
  const Int64Max: int := 0x7FFF_FFFF_FFFF_FFFF

  predicate InInt64(v: int) {
    Int64Min <= v <= Int64Max
  }

  predicate IsDigit(c: char) {
    '0' <= c <= '9'
  }

  predicate AllDigits(s: string) {
    forall i :: 0 <= i < |s| ==> IsDigit(s[i])
  }

  function DigitValue(c: char): (d: nat)
    requires IsDigit(c)
    ensures d < 10
  {
    (c as int) - ('0' as int)
  }

  function DigitChar(d: nat): (c: char)
    requires d < 10
    ensures IsDigit(c) && DigitValue(c) == d
  {
    (('0' as int) + d) as char
  }

  /** Base-10 value of a digit string, most significant digit first. */
  function DigitsValue(s: string): nat
    requires AllDigits(s)
    decreases |s|
  {
    if |s| == 0 then 0 else 10 * DigitsValue(s[..|s| - 1]) + DigitValue(s[|s| - 1])
  }

  /** The accepted shape: an optional sign, then at least one ASCII digit. */
  predicate IsIntLiteral(s: string) {
    if |s| > 0 && (s[0] == '+' || s[0] == '-') then |s| > 1 && AllDigits(s[1..])
    else |s| > 0 && AllDigits(s)
  }

  /** The mathematical value a well-formed literal denotes (unbounded). */
  function LiteralValue(s: string): int
    requires IsIntLiteral(s)
  {
    if s[0] == '-' then -(DigitsValue(s[1..]) as int)
    else if s[0] == '+' then DigitsValue(s[1..])
    else DigitsValue(s)
  }

  /** Extending a digit string never lowers its value. */
  lemma {:induction false} PrefixValueBounded(s: string, k: nat)
    requires k <= |s| && AllDigits(s)
    ensures AllDigits(s[..k]) && DigitsValue(s[..k]) <= DigitsValue(s)
    decreases |s| - k
  {
    if k < |s| {
      PrefixValueBounded(s, k + 1);
      assert s[..k + 1][..k] == s[..k];
    } else {
      assert s[..k] == s;
    }
  }

  /** A digit prefix never exceeds the whole, when the whole is all digits. */
  lemma PrefixValueBoundedIfDigits(s: string, k: nat)
    requires k <= |s| && AllDigits(s[..k])
    ensures AllDigits(s) ==> DigitsValue(s[..k]) <= DigitsValue(s)
  {
    if AllDigits(s) {
      PrefixValueBounded(s, k);
    }
  }

  /** Adds the digits `s[i..]` onto `acc`, the value of `s[..i]`, failing on a
      non-digit or as soon as the running value exceeds `limit`. */
  function Accumulate(s: string, i: nat, acc: nat, limit: nat): (r: Option<nat>)
    requires i <= |s| && AllDigits(s[..i]) && acc == DigitsValue(s[..i]) && acc <= limit
    ensures r.Some? <==> AllDigits(s) && DigitsValue(s) <= limit
    ensures r.Some? ==> r.value == DigitsValue(s)
    decreases |s| - i
  {
    if i == |s| then
      assert s[..i] == s;
      Some(acc)
    else if !IsDigit(s[i]) then
      None
    else
      var next := 10 * acc + DigitValue(s[i]);
      assert s[..i + 1][..i] == s[..i];
      assert AllDigits(s[..i + 1]) && DigitsValue(s[..i + 1]) == next;
      PrefixValueBoundedIfDigits(s, i + 1);
      if next > limit then None else Accumulate(s, i + 1, next, limit)
  }

  /** `Int(s)`: the result, when there is one, is a 64-bit value. What it
      is, and when there is one, is `ParseIntMeaning`. */
  function ParseInt(s: string): (r: Option<int>)
    ensures r.Some? ==> InInt64(r.value)
  {
    if |s| == 0 then None
    else if s[0] == '+' || s[0] == '-' then
      if |s| == 1 then None
      else
        var limit: nat := if s[0] == '-' then -Int64Min else Int64Max;
        match Accumulate(s[1..], 0, 0, limit)
        case None => None
        case Some(magnitude) => Some(if s[0] == '-' then -(magnitude as int) else magnitude)
    else
      Accumulate(s, 0, 0, Int64Max)
  }

  /** `Int(s)` is `Some(v)` exactly when `s` is a decimal literal whose
      value fits in 64 bits, and then `v` is that value. */
  lemma ParseIntMeaning(s: string)
    ensures ParseInt(s).Some? <==> IsIntLiteral(s) && InInt64(LiteralValue(s))
    ensures ParseInt(s).Some? ==> ParseInt(s).value == LiteralValue(s)
  {
    if |s| > 0 && (s[0] == '+' || s[0] == '-') && |s| > 1 {
      assert s[1..][..0] == [];
    } else if |s| > 0 {
      assert s[..0] == [];
    }
  }

  /** Decimal rendering of a non-negative `Int`, as string interpolation
      writes it: at least one digit and no leading zero. */
  function ShowNat(n: nat): (s: string)
    ensures |s| > 0 && AllDigits(s) && DigitsValue(s) == n
    ensures |s| == 1 || s[0] != '0'
    decreases n
  {
    if n < 10 then [DigitChar(n)]
    else
      var prefix := ShowNat(n / 10);
      var s := prefix + [DigitChar(n % 10)];
      assert s[..|s| - 1] == prefix;
      s
  }

  /** Reading back a rendered number yields that number when it fits in
      64 bits, and nothing when it does not. */
  lemma ParseShowRoundTrip(n: nat)
    ensures n <= Int64Max ==> ParseInt(ShowNat(n)) == Some(n)
    ensures n > Int64Max ==> ParseInt(ShowNat(n)) == None
  {
    var s := ShowNat(n);
    assert IsDigit(s[0]);
    ParseIntMeaning(s);
  }

  /** The same with an explicit sign: `+` keeps the 64-bit maximum as the
      bound, `-` reaches one further, down to the 64-bit minimum. */
  lemma SignedShowRoundTrip(n: nat)
    ensures ParseInt("+" + ShowNat(n)) == (if n <= Int64Max then Some(n) else None)
    ensures ParseInt("-" + ShowNat(n)) == (if n <= -Int64Min then Some(-(n as int)) else None)
  {
    var s := ShowNat(n);
    assert ("+" + s)[1..] == s;
    assert ("-" + s)[1..] == s;
    ParseIntMeaning("+" + s);
    ParseIntMeaning("-" + s);
  }
}
