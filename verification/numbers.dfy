/** Python's `int(text)` on the decimal literals the query arguments carry, and
    `str(n)` as its inverse. */
module Numbers {
  import opened Results

  predicate IsDigit(c: char) {
    '0' <= c <= '9'
  }

  predicate AllDigits(s: string) {
    forall i | 0 <= i < |s| :: IsDigit(s[i])
  }

  /** The literals accepted: an optional `+` or `-`, then one or more
      decimal digits (leading zeros allowed). */
  predicate IsIntLiteral(s: string) {
    && |s| > 0
    && var digits := if s[0] == '-' || s[0] == '+' then s[1..] else s;
       |digits| > 0 && AllDigits(digits)
  }

  /** The value of a (possibly empty) digit string, read most significant
      digit first; a non-digit anywhere is an `ArgumentError`. */
  function DigitsValue(ds: string): (r: Result<nat>)
    ensures r.Ok? <==> AllDigits(ds)
    ensures r.Err? ==> r.error == ArgumentError
    decreases |ds|
  {
    if |ds| == 0 then Ok(0)
    else
      var high :- DigitsValue(ds[..|ds| - 1]);
      var c := ds[|ds| - 1];
      if IsDigit(c) then Ok(10 * high + (c as int - '0' as int)) else Err(ArgumentError)
  }

  /** Python's `int(s)` restricted to an optional sign and decimal digits. */
  function ParseInt(s: string): (r: Result<int>)
    ensures r.Ok? <==> IsIntLiteral(s)
    ensures r.Err? ==> r.error == ArgumentError
  {
    if |s| == 0 then Err(ArgumentError)
    else if s[0] == '-' || s[0] == '+' then
      if |s| == 1 then Err(ArgumentError)
      else
        var magnitude :- DigitsValue(s[1..]);
        var value: int := if s[0] == '-' then -(magnitude as int) else magnitude;
        Ok(value)
    else
      var magnitude :- DigitsValue(s);
      var value: int := magnitude;
      Ok(value)
  }

  function DigitChar(d: nat): (c: char)
    requires d < 10
    ensures IsDigit(c)
  {
    ('0' as int + d) as char
  }

  /** Python's `str(n)` for a natural number. */
  function NatToString(n: nat): (s: string)
    ensures |s| > 0 && AllDigits(s)
    decreases n
  {
    if n < 10 then [DigitChar(n)] else NatToString(n / 10) + [DigitChar(n % 10)]
  }

  /** Python's `str(n)`. */
  function IntToString(n: int): (s: string)
    ensures IsIntLiteral(s)
  {
    if n < 0 then "-" + NatToString(-n) else NatToString(n)
  }

  lemma {:induction false} DigitsValueOfNatToString(n: nat)
    ensures DigitsValue(NatToString(n)) == Ok(n)
    decreases n
  {
    var s := NatToString(n);
    if n >= 10 {
      DigitsValueOfNatToString(n / 10);
      assert s[..|s| - 1] == NatToString(n / 10);
    }
  }

  /** `int(str(n)) == n` for every integer. */
  lemma ParseIntToString(n: int)
    ensures ParseInt(IntToString(n)) == Ok(n)
  {
    var s := IntToString(n);
    if n < 0 {
      DigitsValueOfNatToString(-n);
      assert s[1..] == NatToString(-n);
    } else {
      DigitsValueOfNatToString(n);
    }
  }

  /** A leading zero does not change the value, so several texts parse to the
      same number. */
  lemma {:induction false} LeadingZero(ds: string)
    requires AllDigits(ds)
    ensures DigitsValue("0" + ds) == DigitsValue(ds)
    decreases |ds|
  {
    if |ds| > 0 {
      var init := ds[..|ds| - 1];
      LeadingZero(init);
      assert ("0" + ds)[..|ds|] == "0" + init;
      assert ("0" + ds)[|ds|] == ds[|ds| - 1];
    }
  }
}
