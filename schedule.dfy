// The departure instant of a trip. The handlers rebuild it from the UTC
// calendar date of `dateDepart` and the "HH:MM" string `heureDepart`, as
// new Date(`${date.toISOString().split('T')[0]}T${heureDepart}:00`).

module Schedule {
  import opened Common
  import opened Calendar

  /** The minutes after midnight written by an "HH:MM" string that the Date
      parser accepts, or None for any other string (an Invalid Date).
      "24:00" stands for the end of the day. */
  function ParseClock(s: string): (r: Option<int>)
    ensures r.Some? ==> 0 <= r.value <= 24 * 60
    ensures r.Some? ==> |s| == 5 && s[2] == ':'
  {
    if |s| == 5 && IsDigit(s[0]) && IsDigit(s[1]) && s[2] == ':' && IsDigit(s[3]) && IsDigit(s[4]) then
      var h := DigitsValue(s[..2]);
      var m := DigitsValue(s[3..]);
      if h < 24 && m < 60 then Some(h * 60 + m)
      else if h == 24 && m == 0 then Some(24 * 60)
      else None
    else None
  }

  /** The "HH:MM" text of a time of day given in minutes. */
  function ClockText(minutes: nat): (s: string)
    requires minutes < 24 * 60
    ensures |s| == 5
  {
    var h := minutes / 60;
    var m := minutes % 60;
    [DigitChar(h / 10), DigitChar(h % 10), ':', DigitChar(m / 10), DigitChar(m % 10)]
  }

  /** Every time of day written as "HH:MM" parses back to itself. */
  lemma ClockRoundTrip(minutes: nat)
    requires minutes < 24 * 60
    ensures ParseClock(ClockText(minutes)) == Some(minutes)
  {
    var s := ClockText(minutes);
    var h := minutes / 60;
    var m := minutes % 60;
    assert DigitsValue(s[..2]) == h by {
      assert s[..2][..1] == [DigitChar(h / 10)];
      assert DigitsValue(s[..2][..1]) == h / 10;
    }
    assert DigitsValue(s[3..]) == m by {
      assert s[3..][..1] == [DigitChar(m / 10)];
      assert DigitsValue(s[3..][..1]) == m / 10;
    }
  }

  /** The departure instant: midnight (UTC) of the date of dateDepart plus
      the time of heureDepart; None when heureDepart does not parse. */
  function Departure(dateDepart: Instant, heureDepart: string): (r: Option<Instant>)
    requires ValidInstant(dateDepart)
    ensures r.Some? <==> ParseClock(heureDepart).Some?
    ensures r.Some? ==> ValidInstant(r.value)
  {
    match ParseClock(heureDepart)
    case None => None
    case Some(minutes) =>
      if minutes < 24 * 60 then Some(At(dateDepart.date, minutes * MsPerMinute))
      else Some(Midnight(NextDay(dateDepart.date)))
  }

  /** `departureDateTime >= now`: false for an Invalid Date. */
  predicate DepartsAtOrAfter(dateDepart: Instant, heureDepart: string, now: Instant)
    requires ValidInstant(dateDepart)
  {
    var d := Departure(dateDepart, heureDepart);
    d.Some? && TimeValue(d.value) >= TimeValue(now)
  }

  /** The time of day stored in dateDepart plays no part: only its calendar date does. */
  lemma DepartureIgnoresTimeOfDay(a: Instant, b: Instant, heureDepart: string)
    requires ValidInstant(a) && ValidInstant(b) && a.date == b.date
    ensures Departure(a, heureDepart) == Departure(b, heureDepart)
  {
  }

  /** A departure lies from midnight of the trip's day up to midnight of the next day. */
  lemma DepartureWithinDay(dateDepart: Instant, heureDepart: string)
    requires ValidInstant(dateDepart)
    requires Departure(dateDepart, heureDepart).Some?
    ensures TimeValue(Midnight(dateDepart.date)) <= TimeValue(Departure(dateDepart, heureDepart).value)
    ensures TimeValue(Departure(dateDepart, heureDepart).value) <= TimeValue(Midnight(NextDay(dateDepart.date)))
  {
    var d := Departure(dateDepart, heureDepart).value;
    if d.date == dateDepart.date {
      WithinDay(d);
    } else {
      TimeValueOrder(Midnight(dateDepart.date), d);
    }
  }
}
