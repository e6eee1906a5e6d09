/**
 * formatDuration of play.js (play.js:193-203): a count of seconds printed as
 * `H:MM:SS` when there is at least one whole hour and as `M:SS` otherwise.
 *
 * Number.prototype.toString() of a non-negative integer is modelled by
 * Decimal, String.prototype.padStart(2, '0') by PadStart2. ParseDuration reads
 * the printed fields back; it is the partner against which the printer is proved.
 */
module Duration {
  import opened Wrappers

  const SecondsPerHour := 3600
  const SecondsPerMinute := 60

  predicate IsDigit(c: char) {
    '0' <= c <= '9'
  }

  predicate IsDigits(s: string) {
    forall i :: 0 <= i < |s| ==> IsDigit(s[i])
  }

  /** A printed numeric field: at least one character, all of them decimal digits. */
  predicate IsField(s: string) {
    s != [] && IsDigits(s)
  }

  function DigitChar(d: nat): (c: char)
    requires d < 10
    ensures IsDigit(c)
  {
    ('0' as int + d) as char
  }

  function DigitValue(c: char): (d: nat)
    requires IsDigit(c)
    ensures d < 10
  {
    c as int - '0' as int
  }

  /** The shortest decimal spelling of n, as JavaScript prints a non-negative integer below 10^21. */
  function Decimal(n: nat): (r: string)
    ensures IsField(r)
    decreases n
  {
    if n < 10 then [DigitChar(n)] else Decimal(n / 10) + [DigitChar(n % 10)]
  }

  /** The value of a string of decimal digits, most significant first. */
  function DigitsValue(s: string): nat
    requires IsDigits(s)
    decreases |s|
  {
    if s == [] then 0 else DigitsValue(s[..|s| - 1]) * 10 + DigitValue(s[|s| - 1])
  }

  /** `s.padStart(2, '0')`: zeros are prepended until the string is two characters long. */
  function PadStart2(s: string): string {
    if |s| >= 2 then s else seq(2 - |s|, _ => '0') + s
  }

  function FormatDuration(seconds: nat): string {
    var hours := seconds / SecondsPerHour;
    var minutes := (seconds % SecondsPerHour) / SecondsPerMinute;
    var secs := seconds % SecondsPerMinute;
    if hours > 0 then
      Decimal(hours) + ":" + PadStart2(Decimal(minutes)) + ":" + PadStart2(Decimal(secs))
    else
      Decimal(minutes) + ":" + PadStart2(Decimal(secs))
  }

  /** The colon-separated fields of a string (`s.split(':')`). */
  function Fields(s: string): (r: seq<string>)
    ensures |r| >= 1
    decreases |s|
  {
    if s == [] then [""]
    else
      var rest := Fields(s[1..]);
      if s[0] == ':' then [""] + rest else [[s[0]] + rest[0]] + rest[1..]
  }

  /** Reads `H:MM:SS` or `M:SS` back into a count of seconds. */
  function ParseDuration(text: string): Option<nat> {
    var f := Fields(text);
    if |f| == 3 && IsField(f[0]) && IsField(f[1]) && IsField(f[2]) then
      Some(DigitsValue(f[0]) * SecondsPerHour + DigitsValue(f[1]) * SecondsPerMinute + DigitsValue(f[2]))
    else if |f| == 2 && IsField(f[0]) && IsField(f[1]) then
      Some(DigitsValue(f[0]) * SecondsPerMinute + DigitsValue(f[1]))
    else
      None
  }

  lemma {:induction false} DecimalRoundTrip(n: nat)
    ensures DigitsValue(Decimal(n)) == n
    decreases n
  {
    if n >= 10 {
      DecimalRoundTrip(n / 10);
      var r := Decimal(n);
      assert r[..|r| - 1] == Decimal(n / 10);
    }
  }

  /** Only zero itself is printed with a leading zero, and one digit is printed exactly for values below ten. */
  lemma {:induction false} DecimalShape(n: nat)
    ensures Decimal(n)[0] == '0' <==> n == 0
    ensures |Decimal(n)| == 1 <==> n < 10
    ensures 10 <= n < 100 ==> |Decimal(n)| == 2
    decreases n
  {
    if n >= 10 {
      DecimalShape(n / 10);
    }
  }

  /** A value below one hundred pads to exactly two digits that read back as the value. */
  lemma TwoDigitField(n: nat)
    requires n < 100
    ensures |PadStart2(Decimal(n))| == 2
    ensures IsField(PadStart2(Decimal(n)))
    ensures DigitsValue(PadStart2(Decimal(n))) == n
  {
    DecimalShape(n);
    DecimalRoundTrip(n);
    var p := PadStart2(Decimal(n));
    if n < 10 {
      assert p == ['0', DigitChar(n)];
      assert p[..1] == ['0'];
      assert p[..1][..0] == [];
    }
  }

  lemma {:induction false} FieldsOfField(a: string)
    requires IsDigits(a)
    ensures Fields(a) == [a]
    decreases |a|
  {
    if a != [] {
      FieldsOfField(a[1..]);
      assert [a[0]] + a[1..] == a;
    }
  }

  /** Splitting at a colon that follows a run of digits peels off that run as the first field. */
  lemma {:induction false} FieldsAfterField(a: string, b: string)
    requires IsDigits(a)
    ensures Fields(a + ":" + b) == [a] + Fields(b)
    decreases |a|
  {
    if a == [] {
      assert (a + ":" + b)[1..] == b;
    } else {
      FieldsAfterField(a[1..], b);
      assert (a + ":" + b)[1..] == a[1..] + ":" + b;
      assert [a[0]] + a[1..] == a;
    }
  }

  /** The three quantities formatDuration prints recompose the input. */
  lemma DivModSplit(seconds: nat)
    ensures (seconds % SecondsPerHour) / SecondsPerMinute < SecondsPerMinute && seconds % SecondsPerMinute < SecondsPerMinute
    ensures (seconds / SecondsPerHour) * SecondsPerHour + ((seconds % SecondsPerHour) / SecondsPerMinute) * SecondsPerMinute + seconds % SecondsPerMinute == seconds
  {
    var h, r := seconds / SecondsPerHour, seconds % SecondsPerHour;
    var m, t := r / SecondsPerMinute, r % SecondsPerMinute;
    assert r == m * SecondsPerMinute + t && 0 <= t < SecondsPerMinute && m < SecondsPerMinute;
    var q := h * SecondsPerMinute + m;
    assert seconds == q * SecondsPerMinute + t;
    ModUnique(seconds, q, t);
  }

  /** Division by sixty is determined by any quotient and remainder that recompose the dividend. */
  lemma {:induction false} ModUnique(x: nat, q: nat, t: int)
    requires 0 <= t < SecondsPerMinute && x == q * SecondsPerMinute + t
    ensures x % SecondsPerMinute == t
  {
    if q > 0 {
      ModUnique(x - SecondsPerMinute, q - 1, t);
    }
  }

  /** With a whole hour, the output splits into the hours and the two padded fields. */
  lemma LongFormFields(seconds: nat)
    requires seconds / SecondsPerHour > 0
    ensures Fields(FormatDuration(seconds))
         == [Decimal(seconds / SecondsPerHour), PadStart2(Decimal((seconds % SecondsPerHour) / SecondsPerMinute)), PadStart2(Decimal(seconds % SecondsPerMinute))]
  {
    var h, pm, ps := Decimal(seconds / SecondsPerHour), PadStart2(Decimal((seconds % SecondsPerHour) / SecondsPerMinute)), PadStart2(Decimal(seconds % SecondsPerMinute));
    TwoDigitField((seconds % SecondsPerHour) / SecondsPerMinute);
    TwoDigitField(seconds % SecondsPerMinute);
    FieldsOfField(ps);
    FieldsAfterField(pm, ps);
    FieldsAfterField(h, pm + ":" + ps);
    assert FormatDuration(seconds) == h + ":" + (pm + ":" + ps);
  }

  /** Without a whole hour, the output splits into the unpadded minutes and the padded seconds. */
  lemma ShortFormFields(seconds: nat)
    requires seconds / SecondsPerHour == 0
    ensures Fields(FormatDuration(seconds)) == [Decimal((seconds % SecondsPerHour) / SecondsPerMinute), PadStart2(Decimal(seconds % SecondsPerMinute))]
  {
    var ps := PadStart2(Decimal(seconds % SecondsPerMinute));
    TwoDigitField(seconds % SecondsPerMinute);
    FieldsOfField(ps);
    FieldsAfterField(Decimal((seconds % SecondsPerHour) / SecondsPerMinute), ps);
  }

  /**
   * The shape of formatDuration's output: three fields exactly when there is a
   * whole hour, two otherwise; minutes and seconds below sixty; the padded
   * fields exactly two digits; the leading field unpadded.
   */
  lemma FormatDurationFields(seconds: nat)
    ensures var f := Fields(FormatDuration(seconds));
      && (|f| == 3 <==> seconds / SecondsPerHour > 0)
      && (|f| == 2 <==> seconds / SecondsPerHour == 0)
      && (forall i :: 0 <= i < |f| ==> IsField(f[i]))
      && |f[|f| - 1]| == 2 && DigitsValue(f[|f| - 1]) == seconds % SecondsPerMinute < SecondsPerMinute
      && (|f| == 3 ==>
            && DigitsValue(f[0]) == seconds / SecondsPerHour && f[0][0] != '0'
            && |f[1]| == 2 && DigitsValue(f[1]) == (seconds % SecondsPerHour) / SecondsPerMinute < SecondsPerMinute)
      && (|f| == 2 ==>
            && DigitsValue(f[0]) == (seconds % SecondsPerHour) / SecondsPerMinute < SecondsPerMinute
            && (DigitsValue(f[0]) < 10 <==> |f[0]| == 1)
            && (f[0][0] != '0' || (seconds % SecondsPerHour) / SecondsPerMinute == 0))
  {
    var hours := seconds / SecondsPerHour;
    var minutes := (seconds % SecondsPerHour) / SecondsPerMinute;
    DivModSplit(seconds);
    TwoDigitField(minutes);
    TwoDigitField(seconds % SecondsPerMinute);
    if hours > 0 {
      LongFormFields(seconds);
      DecimalRoundTrip(hours);
      DecimalShape(hours);
    } else {
      ShortFormFields(seconds);
      DecimalRoundTrip(minutes);
      DecimalShape(minutes);
    }
  }

  /** Parsing the printed fields recovers the number of seconds. */
  lemma FormatDurationRoundTrip(seconds: nat)
    ensures ParseDuration(FormatDuration(seconds)) == Some(seconds)
  {
    FormatDurationFields(seconds);
    DivModSplit(seconds);
  }

  /** Different durations are never printed alike. */
  lemma FormatDurationInjective(a: nat, b: nat)
    requires FormatDuration(a) == FormatDuration(b)
    ensures a == b
  {
    FormatDurationRoundTrip(a);
    FormatDurationRoundTrip(b);
  }
}
