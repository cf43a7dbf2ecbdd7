/**
 * The text a video card derives from a video row: the duration badge,
 * the abbreviated view and like counters, and the first tags.
 */
module VideoCard {
  import opened Seqs
  import opened Strings

  /** The remainder of JavaScript's `%`: it takes the sign of the dividend. */
  function JsRemainder(a: int, b: nat): (r: int)
    requires b > 0
    ensures a >= 0 ==> 0 <= r < b && r == a % b
    ensures a < 0 ==> r + b > 0 && r <= 0 && r == -((-a) % b)
  {
    if a >= 0 then a % b else -((-a) % b)
  }

  /** `${Math.floor(s / 60)}:${(s % 60).toString().padStart(2, '0')}`, for whole seconds. */
  function FormatDuration(seconds: int): (r: string)
  {
    IntToString(seconds / 60) + ":" + PadStart(IntToString(JsRemainder(seconds, 60)), 2, '0')
  }

  /** The seconds part as shown: the remainder's digits, left-padded with `'0'` to two. */
  function SecondsPart(rem: nat): (s: string)
    requires rem < 60
    ensures |s| == 2 && IsDigits(s) && DecimalValue(s) == rem
  {
    NatToStringRoundTrip(rem);
    var digits := NatToString(rem);
    assert |digits| == if rem < 10 then 1 else 2;
    var s := PadStart(digits, 2, '0');
    assert rem < 10 ==> s == "0" + digits;
    assert rem < 10 ==> s[..1] == "0" && s[1..] == digits;
    s
  }

  /**
   * A non-negative duration shows its whole minutes, a colon and the
   * remaining seconds as exactly two digits; minutes are not folded
   * into hours.
   */
  lemma DurationParts(seconds: int)
    requires seconds >= 0
    ensures var minutes, rem := seconds / 60, seconds % 60;
      && minutes * 60 + rem == seconds && 0 <= rem < 60
      && FormatDuration(seconds) == NatToString(minutes) + ":" + SecondsPart(rem)
  {
  }

  /** Reads a shown duration back: minutes and seconds around the single colon. */
  function ReadDuration(text: string): (seconds: int)
  {
    var parts := Split(text, ':');
    if |parts| == 2 then DecimalValue(parts[0]) * 60 + DecimalValue(parts[1]) else -1
  }

  /** Reading a formatted non-negative duration gives back the seconds. */
  lemma DurationRoundTrip(seconds: int)
    requires seconds >= 0
    ensures ReadDuration(FormatDuration(seconds)) == seconds
  {
    var minutes, rem := seconds / 60, seconds % 60;
    DurationParts(seconds);
    var m, s := NatToString(minutes), SecondsPart(rem);
    assert ':' !in m && ':' !in s by {
      assert forall i :: 0 <= i < |m| ==> '0' <= m[i] <= '9';
      assert forall i :: 0 <= i < |s| ==> '0' <= s[i] <= '9';
    }
    SplitAroundOne(m, s, ':');
    assert m + ":" + s == m + [':'] + s;
    NatToStringRoundTrip(minutes);
  }

  /** An hour shows as sixty minutes. */
  lemma AnHourShowsAsSixtyMinutes()
    ensures FormatDuration(3600) == "60:00"
  {
    assert NatToString(60) == "60" by {
      assert NatToString(6) == "6";
    }
    assert NatToString(0) == "0";
  }

  /** How `formatNumber` renders a counter: scaled with a suffix, or as plain digits. */
  datatype NumberLabel =
    | Scaled(num: int, divisor: nat, suffix: string)  // `(num / divisor).toFixed(1) + suffix`
    | Plain(text: string)

  /** `formatNumber`: the branch taken, with the plain text written out. */
  function FormatNumber(num: int): (l: NumberLabel)
    ensures l.Scaled? ==> l.num == num
    ensures l.Scaled? && l.suffix == "M" <==> num >= 1000000
    ensures l.Scaled? && l.suffix == "M" ==> l.divisor == 1000000
    ensures l.Scaled? && l.suffix == "K" <==> 1000 <= num < 1000000
    ensures l.Scaled? && l.suffix == "K" ==> l.divisor == 1000
    ensures l.Plain? <==> num < 1000
    ensures l.Plain? ==> l.text == IntToString(num)
  {
    if num >= 1000000 then Scaled(num, 1000000, "M")
    else if num >= 1000 then Scaled(num, 1000, "K")
    else Plain(IntToString(num))
  }

  /** A number below 1,000 has at most three digits. */
  lemma {:induction false} ShortNumberDigits(n: nat)
    requires n < 1000
    ensures |NatToString(n)| <= 3
  {
    if n >= 10 {
      ShortNumberDigits(n / 10);
      if n / 10 >= 10 {
        assert |NatToString(n / 10)| <= 2 by {
          assert NatToString(n / 10) == NatToString(n / 100) + [DigitChar(n / 10 % 10)];
        }
      }
    }
  }

  /**
   * Below 1,000 a non-negative counter is shown as at most three digits
   * that read back as the counter; in the `K` branch the integer
   * quotient `num / 1000` is from 1 to 999.
   */
  lemma NumberLabelsReadBack(num: int)
    ensures 0 <= num < 1000 ==> (FormatNumber(num).Plain? && |FormatNumber(num).text| <= 3 &&
      DecimalValue(FormatNumber(num).text) == num)
    ensures 1000 <= num < 1000000 ==> 1 <= num / FormatNumber(num).divisor < 1000
    ensures num >= 1000000 ==> num / FormatNumber(num).divisor >= 1
  {
    if 0 <= num < 1000 {
      NatToStringRoundTrip(num);
      ShortNumberDigits(num);
    }
  }

  /** `video.tags.slice(0, 2)`: the first two tags, in order. */
  function ShownTags(tags: seq<string>): (r: seq<string>)
    ensures |r| == if |tags| < 2 then |tags| else 2
    ensures r == tags[..|r|]
  {
    Take(tags, 2)
  }
}
