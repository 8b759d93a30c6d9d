/**
 * The countdown text a Timer shows: the remaining milliseconds split into hours, minutes
 * and seconds with floor and `%`, each part zero-padded, joined as "HH:MM:SS".
 */
module ClockText {
  import opened JsNumbers

  const MS_PER_HOUR: real := 3600000.0
  const MS_PER_MINUTE: real := 60000.0
  const MS_PER_SECOND: real := 1000.0

  /** The three numbers the display shows. */
  datatype Parts = Parts(hours: int, minutes: int, seconds: int)

  /** The whole milliseconds the parts stand for. */
  function PartsMillis(p: Parts): real {
    (p.hours * 3600000 + p.minutes * 60000 + p.seconds * 1000) as real
  }

  /**
   * The split at the top of `display`:
   * hours `floor(r / 3600000)`, minutes `floor((r % 3600000) / 60000)`,
   * seconds `floor((r % 60000) / 1000)`. For a non-negative time the minutes and
   * seconds are clock digits and the parts describe `r` to the second, rounded down.
   */
  function Split(r: real): (p: Parts)
    ensures r >= 0.0 ==> 0 <= p.hours && 0 <= p.minutes < 60 && 0 <= p.seconds < 60
    ensures r >= 0.0 ==> PartsMillis(p) <= r < PartsMillis(p) + MS_PER_SECOND
  {
    var p := Parts(Floor(r / MS_PER_HOUR),
                   Floor(Remainder(r, MS_PER_HOUR) / MS_PER_MINUTE),
                   Floor(Remainder(r, MS_PER_MINUTE) / MS_PER_SECOND));
    SplitBounds(r);
    p
  }

  lemma SplitBounds(r: real)
    ensures var h, a := Floor(r / MS_PER_HOUR), Remainder(r, MS_PER_HOUR);
            var m, b := Floor(a / MS_PER_MINUTE), Remainder(r, MS_PER_MINUTE);
            var s := Floor(b / MS_PER_SECOND);
            r >= 0.0 ==>
              0 <= h && 0 <= m < 60 && 0 <= s < 60 &&
              (h * 3600000 + m * 60000 + s * 1000) as real <= r <
              (h * 3600000 + m * 60000 + s * 1000) as real + MS_PER_SECOND
  {
    if r >= 0.0 {
      var h := Floor(r / MS_PER_HOUR);
      var a := Remainder(r, MS_PER_HOUR);
      assert a == r - h as real * 3600000.0;
      assert 0.0 <= a < 3600000.0;
      var m := Floor(a / MS_PER_MINUTE);
      assert 0 <= m < 60;
      var k := Floor(r / MS_PER_MINUTE);
      FloorShift(a / MS_PER_MINUTE, 60 * h);
      assert r / MS_PER_MINUTE == a / MS_PER_MINUTE + (60 * h) as real;
      assert k == m + 60 * h;
      var b := Remainder(r, MS_PER_MINUTE);
      assert b == r - k as real * 60000.0;
      assert b == a - m as real * 60000.0;
      assert 0.0 <= b < 60000.0;
    }
  }

  /** Shifting by a whole number shifts the floor by the same amount. */
  lemma FloorShift(x: real, n: int)
    ensures Floor(x + n as real) == Floor(x) + n
  {
    var f := Floor(x);
    assert (f + n) as real <= x + n as real < (f + n) as real + 1.0;
  }

  /** The decimal digit character for `d`. */
  function DigitChar(d: int): (c: char)
    requires 0 <= d < 10
    ensures '0' <= c <= '9'
  {
    "0123456789"[d]
  }

  predicate IsDigit(c: char) { '0' <= c <= '9' }

  predicate AllDigits(s: string) { forall i :: 0 <= i < |s| ==> IsDigit(s[i]) }

  function DigitValue(c: char): (d: nat)
    requires IsDigit(c)
    ensures d < 10
  {
    (c as int - '0' as int)
  }

  /**
   * How JavaScript writes a non-negative whole number below 10^21 as text: its decimal
   * digits, most significant first, with no leading zero. (From 10^21 on JavaScript uses
   * exponent notation; the display never reaches such counts.)
   */
  function NatToString(n: nat): (s: string)
    ensures 1 <= |s| && AllDigits(s)
    ensures |s| > 1 ==> s[0] != '0'
    ensures n < 10 <==> |s| == 1
    ensures 10 <= n < 100 ==> |s| == 2
  {
    if n < 10 then [DigitChar(n)] else NatToString(n / 10) + [DigitChar(n % 10)]
  }

  /** How JavaScript writes a whole number of magnitude below 10^21: a minus sign before a negative one. */
  function NumberToString(n: int): (s: string)
    ensures 1 <= |s|
    ensures n >= 0 <==> AllDigits(s)
    ensures n < 0 ==> s[0] == '-' && s[1..] == NatToString(-n)
  {
    if n < 0 then
      var s := "-" + NatToString(-n);
      assert !IsDigit(s[0]);
      s
    else NatToString(n)
  }

  /** The value of a string of decimal digits (the reading direction of `NatToString`). */
  function ParseDigits(s: string): nat
    requires AllDigits(s)
  {
    if s == [] then 0 else ParseDigits(s[..|s| - 1]) * 10 + DigitValue(s[|s| - 1])
  }

  lemma {:induction false} ParseNatToString(n: nat)
    ensures ParseDigits(NatToString(n)) == n
  {
    var s := NatToString(n);
    if n < 10 {
      assert s[..|s| - 1] == [];
    } else {
      assert s[..|s| - 1] == NatToString(n / 10);
      ParseNatToString(n / 10);
    }
  }

  lemma ParseTwoDigits(s: string)
    requires |s| == 2 && AllDigits(s)
    ensures ParseDigits(s) == DigitValue(s[0]) * 10 + DigitValue(s[1]) < 100
  {
    var init := s[..|s| - 1];
    assert init == [s[0]] && init[..|init| - 1] == [];
    assert ParseDigits(init) == DigitValue(s[0]);
  }

  lemma {:induction false} ParseLeadingZero(s: string)
    requires AllDigits(s)
    ensures AllDigits("0" + s) && ParseDigits("0" + s) == ParseDigits(s)
  {
    if s != [] {
      var t := "0" + s;
      assert t[..|t| - 1] == "0" + s[..|s| - 1];
      ParseLeadingZero(s[..|s| - 1]);
    }
  }

  /**
   * `padNumber`: a number below 10 gets a "0" in front (the string concatenation writes
   * the number as text); any other number is shown as it is.
   */
  function PadNumber(n: int): (s: string)
    ensures 0 <= n < 10 ==> s == ['0', DigitChar(n)]
    ensures 0 <= n < 100 ==> |s| == 2
    ensures 10 <= n ==> s == NatToString(n)
    ensures 0 <= n ==> AllDigits(s) && ParseDigits(s) == n
  {
    var k: nat := if n >= 0 then n else 0;
    ParseNatToString(k);
    ParseLeadingZero(NatToString(k));
    if n < 10 then "0" + NumberToString(n) else NumberToString(n)
  }

  /** The text the timer shows for `r` milliseconds: `HH:MM:SS`. */
  function Clock(r: real): (s: string)
    ensures 0.0 <= r < 100.0 * MS_PER_HOUR ==> |s| == 8 && s[2] == ':' && s[5] == ':'
  {
    var p := Split(r);
    var h, m, sec := PadNumber(p.hours), PadNumber(p.minutes), PadNumber(p.seconds);
    JoinedFields(h, m, sec);
    h + ":" + m + ":" + sec
  }

  /** Where the three fields of a joined `HH:MM:SS` text sit. */
  lemma JoinedFields(h: string, m: string, sec: string)
    ensures var s := h + ":" + m + ":" + sec;
            |h| == 2 && |m| == 2 && |sec| == 2 ==>
            |s| == 8 && s[2] == ':' && s[5] == ':' && s[0..2] == h && s[3..5] == m && s[6..8] == sec
  {
  }

  /** Reads a `HH:MM:SS` text back into its three parts. */
  function ParseClock(s: string): (p: Parts)
    requires |s| == 8 && AllDigits(s[0..2]) && AllDigits(s[3..5]) && AllDigits(s[6..8])
    ensures 0 <= p.hours < 100 && 0 <= p.minutes < 100 && 0 <= p.seconds < 100
  {
    ParseTwoDigits(s[0..2]);
    ParseTwoDigits(s[3..5]);
    ParseTwoDigits(s[6..8]);
    Parts(ParseDigits(s[0..2]), ParseDigits(s[3..5]), ParseDigits(s[6..8]))
  }

  /** The clock text loses nothing: below 100 hours it reads back as the split it shows. */
  lemma ClockRoundTrip(r: real)
    requires 0.0 <= r < 100.0 * MS_PER_HOUR
    ensures var s := Clock(r);
            AllDigits(s[0..2]) && AllDigits(s[3..5]) && AllDigits(s[6..8]) &&
            ParseClock(s) == Split(r)
  {
    var p := Split(r);
    var h, m, sec := PadNumber(p.hours), PadNumber(p.minutes), PadNumber(p.seconds);
    JoinedFields(h, m, sec);
    assert Clock(r) == h + ":" + m + ":" + sec;
  }
}
