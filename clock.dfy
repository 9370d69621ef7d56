/** The status-bar clock of js/indicadores.js: the "HH:MM" text written
    each minute, and the wait until the next minute starts. The clock
    reading (`new Date()`) is passed in as numbers. */
module Clock {
  import opened JsText

  /** `n.toString().padStart(2, '0')`. */
  function TwoDigits(n: nat): string
  {
    PadStart(NatToString(n), 2, '0')
  }

  /** Below 100 the field is exactly two digits and reads back as `n`. */
  lemma TwoDigitsReadsBack(n: nat)
    requires n < 100
    ensures |TwoDigits(n)| == 2 && AllDigits(TwoDigits(n))
    ensures DigitsValue(TwoDigits(n)) == n
    ensures n < 10 <==> TwoDigits(n)[0] == '0'
  {
    NatToStringLength(n);
    NatToStringRoundTrip(n);
    var s := NatToString(n);
    var r := TwoDigits(n);
    if n < 10 {
      assert r == ['0'] + s;
      assert r[..1] == ['0'];
      assert DigitsValue(r[..1]) == 0 by {
        assert r[..1][..0] == [];
      }
      assert s[..0] == [];
    } else {
      assert r == s;
    }
  }

  /** `updateTime`'s text: hours and minutes, two digits each. */
  function TimeString(hours: nat, minutes: nat): string
  {
    TwoDigits(hours) + ":" + TwoDigits(minutes)
  }

  /** For any wall-clock reading the text is "HH:MM": five characters,
      a colon in the middle, and both fields read back as the reading. */
  lemma TimeStringFormat(hours: nat, minutes: nat)
    requires hours < 24 && minutes < 60
    ensures var t := TimeString(hours, minutes);
      |t| == 5 && t[2] == ':' && AllDigits(t[..2]) && AllDigits(t[3..])
      && DigitsValue(t[..2]) == hours && DigitsValue(t[3..]) == minutes
  {
    TwoDigitsReadsBack(hours);
    TwoDigitsReadsBack(minutes);
    var t := TimeString(hours, minutes);
    assert t[..2] == TwoDigits(hours);
    assert t[3..] == TwoDigits(minutes);
  }

  /** Two readings give the same text only when they are the same. */
  lemma TimeStringInjective(h1: nat, m1: nat, h2: nat, m2: nat)
    requires h1 < 24 && m1 < 60 && h2 < 24 && m2 < 60
    requires TimeString(h1, m1) == TimeString(h2, m2)
    ensures h1 == h2 && m1 == m2
  {
    TimeStringFormat(h1, m1);
    TimeStringFormat(h2, m2);
  }

  /** `msUntilNextMinute` for a reading of `seconds` and `millis`. */
  function MsUntilNextMinute(seconds: int, millis: int): int
  {
    60000 - (seconds * 1000 + millis)
  }

  /** Whether `wait` milliseconds after a reading of `seconds` and
      `millis` into a minute fall on a minute boundary. */
  predicate EndsOnMinute(seconds: int, millis: int, wait: int)
  {
    (seconds * 1000 + millis + wait) % 60000 == 0
  }

  /** For a reading within the minute the wait lies in [1, 60000] and is
      the shortest positive wait that ends exactly on the next minute. */
  lemma WaitReachesNextMinute(seconds: int, millis: int)
    requires 0 <= seconds <= 59 && 0 <= millis <= 999
    ensures 1 <= MsUntilNextMinute(seconds, millis) <= 60000
    ensures EndsOnMinute(seconds, millis, MsUntilNextMinute(seconds, millis))
    ensures forall wait :: 0 < wait < MsUntilNextMinute(seconds, millis) ==>
      !EndsOnMinute(seconds, millis, wait)
  {
    forall wait | 0 < wait < MsUntilNextMinute(seconds, millis)
      ensures !EndsOnMinute(seconds, millis, wait)
    {
      assert 0 < seconds * 1000 + millis + wait < 60000;
    }
  }
}
