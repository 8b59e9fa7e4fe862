/** The text form of a checkoff as the log table stores it,
    `YYYY-MM-DD HH:MM:SS`, and its parsing with the format `"%Y-%m-%d %X"`
    (`%X` being `%H:%M:%S` in the C locale). */
module Timestamp {
  import opened Wrappers
  import opened Calendar

  predicate IsDigit(c: char) {
    '0' <= c <= '9'
  }

  predicate AllDigits(s: string) {
    forall i :: 0 <= i < |s| ==> IsDigit(s[i])
  }

  function Pow10(k: nat): (p: nat)
    ensures p >= 1
  {
    if k == 0 then 1 else 10 * Pow10(k - 1)
  }

  /** The number a string of decimal digits denotes. */
  function DecimalValue(s: string): (n: nat)
    requires AllDigits(s)
    ensures n < Pow10(|s|)
  {
    if s == [] then 0
    else DecimalValue(s[..|s| - 1]) * 10 + (s[|s| - 1] as int - '0' as int)
  }

  /** `n` written with exactly `width` decimal digits, zero-padded on the left. */
  function Digits(n: nat, width: nat): (s: string)
    ensures |s| == width && AllDigits(s)
  {
    if width == 0 then []
    else Digits(n / 10, width - 1) + [('0' as int + n % 10) as char]
  }

  lemma {:induction false} DigitsValue(n: nat, width: nat)
    requires n < Pow10(width)
    ensures DecimalValue(Digits(n, width)) == n
  {
    if width > 0 {
      var s := Digits(n, width);
      assert s[..width - 1] == Digits(n / 10, width - 1);
      DigitsValue(n / 10, width - 1);
    }
  }

  lemma {:induction false} ValueDigits(s: string)
    requires AllDigits(s)
    ensures Digits(DecimalValue(s), |s|) == s
  {
    if s != [] {
      var init := s[..|s| - 1];
      ValueDigits(init);
      assert s == init + [s[|s| - 1]];
    }
  }

  /** The date-time a checkoff string denotes, or None when `strptime`
      rejects it: a different shape, or fields out of range for a date. */
  function Parse(s: string): (r: Option<ValidDateTime>)
    ensures r.Some? ==> |s| == 19 && s[4] == '-' && s[7] == '-' && s[10] == ' ' && s[13] == ':' && s[16] == ':'
  {
    if && |s| == 19
       && s[4] == '-' && s[7] == '-' && s[10] == ' ' && s[13] == ':' && s[16] == ':'
       && AllDigits(s[0..4]) && AllDigits(s[5..7]) && AllDigits(s[8..10])
       && AllDigits(s[11..13]) && AllDigits(s[14..16]) && AllDigits(s[17..19])
    then
      var d := DateTime(DecimalValue(s[0..4]), DecimalValue(s[5..7]), DecimalValue(s[8..10]),
                        DecimalValue(s[11..13]), DecimalValue(s[14..16]), DecimalValue(s[17..19]));
      if d.Valid() then Some(d) else None
    else None
  }

  /** The stored text of a checkoff at `d`. */
  function Format(d: ValidDateTime): (s: string)
    ensures |s| == 19
  {
    Digits(d.year, 4) + "-" + Digits(d.month, 2) + "-" + Digits(d.day, 2) + " "
    + Digits(d.hour, 2) + ":" + Digits(d.minute, 2) + ":" + Digits(d.second, 2)
  }

  /** Parsing recovers every valid date-time from its stored text. */
  lemma ParseFormat(d: ValidDateTime)
    ensures Parse(Format(d)) == Some(d)
  {
    var s := Format(d);
    assert s[0..4] == Digits(d.year, 4);
    assert s[5..7] == Digits(d.month, 2);
    assert s[8..10] == Digits(d.day, 2);
    assert s[11..13] == Digits(d.hour, 2);
    assert s[14..16] == Digits(d.minute, 2);
    assert s[17..19] == Digits(d.second, 2);
    DigitsValue(d.year, 4);
    DigitsValue(d.month, 2);
    DigitsValue(d.day, 2);
    DigitsValue(d.hour, 2);
    DigitsValue(d.minute, 2);
    DigitsValue(d.second, 2);
  }

  /** Every string that parses is the stored text of what it parses to. */
  lemma FormatParse(s: string)
    requires Parse(s).Some?
    ensures Format(Parse(s).value) == s
  {
    var d := Parse(s).value;
    ValueDigits(s[0..4]);
    ValueDigits(s[5..7]);
    ValueDigits(s[8..10]);
    ValueDigits(s[11..13]);
    ValueDigits(s[14..16]);
    ValueDigits(s[17..19]);
    assert s == s[0..4] + "-" + s[5..7] + "-" + s[8..10] + " " + s[11..13] + ":" + s[14..16] + ":" + s[17..19];
  }
}
