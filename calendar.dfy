// Calendar dates and instants. A JavaScript Date is modelled as a calendar
// day plus the milliseconds elapsed since its midnight; the server's local
// time zone is taken to be UTC, so local and UTC calendar fields coincide.

module Calendar {

  const MsPerMinute: int := 60_000
  const MsPerDay: int := 86_400_000

  datatype Civil = Civil(year: int, month: int, day: int)

  predicate IsLeap(y: int) {
    (y % 4 == 0 && y % 100 != 0) || y % 400 == 0
  }

  function DaysInMonth(y: int, m: int): (n: int)
    requires 1 <= m <= 12
    ensures 28 <= n <= 31
  {
    if m == 2 then (if IsLeap(y) then 29 else 28)
    else if m == 4 || m == 6 || m == 9 || m == 11 then 30
    else 31
  }

  predicate ValidCivil(c: Civil) {
    1 <= c.month <= 12 && 1 <= c.day <= DaysInMonth(c.year, c.month)
  }

  /** A number that grows with the calendar day: year, then month, then day. */
  function DayKey(c: Civil): int {
    (c.year * 13 + c.month) * 32 + c.day
  }

  /** The chronological order of calendar days. */
  predicate CivilBefore(a: Civil, b: Civil) {
    a.year < b.year
    || (a.year == b.year && a.month < b.month)
    || (a.year == b.year && a.month == b.month && a.day < b.day)
  }

  /** On valid days the key orders days chronologically. */
  lemma DayKeyOrder(a: Civil, b: Civil)
    requires ValidCivil(a) && ValidCivil(b)
    ensures CivilBefore(a, b) <==> DayKey(a) < DayKey(b)
    ensures DayKey(a) == DayKey(b) <==> a == b
  {
  }

  /** The day after c. */
  function NextDay(c: Civil): (r: Civil)
    requires ValidCivil(c)
    ensures ValidCivil(r) && CivilBefore(c, r)
  {
    if c.day < DaysInMonth(c.year, c.month) then Civil(c.year, c.month, c.day + 1)
    else if c.month < 12 then Civil(c.year, c.month + 1, 1)
    else Civil(c.year + 1, 1, 1)
  }

  /** The day before c. */
  function PrevDay(c: Civil): (r: Civil)
    requires ValidCivil(c)
    ensures ValidCivil(r) && CivilBefore(r, c)
  {
    if c.day > 1 then Civil(c.year, c.month, c.day - 1)
    else if c.month > 1 then Civil(c.year, c.month - 1, DaysInMonth(c.year, c.month - 1))
    else Civil(c.year - 1, 12, 31)
  }

  /** Stepping forward one day and back again returns to the same day. */
  lemma PrevNext(c: Civil)
    requires ValidCivil(c)
    ensures PrevDay(NextDay(c)) == c
    ensures NextDay(PrevDay(c)) == c
  {
  }

  /** c plus n days (Date.prototype.setDate / setUTCDate with day roll-over). */
  function AddDays(c: Civil, n: nat): (r: Civil)
    requires ValidCivil(c)
    ensures ValidCivil(r)
    ensures n == 0 ==> r == c
    ensures n > 0 ==> CivilBefore(c, r)
    decreases n
  {
    if n == 0 then c else AddDays(NextDay(c), n - 1)
  }

  /** c minus n days. */
  function SubDays(c: Civil, n: nat): (r: Civil)
    requires ValidCivil(c)
    ensures ValidCivil(r)
    ensures n == 0 ==> r == c
    ensures n > 0 ==> CivilBefore(r, c)
    decreases n
  {
    if n == 0 then c else SubDays(PrevDay(c), n - 1)
  }

  /** Going back n days and forward n days again returns to the same day. */
  lemma {:induction false} SubAddDays(c: Civil, n: nat)
    requires ValidCivil(c)
    ensures AddDays(SubDays(c, n), n) == c
    decreases n
  {
    if n > 0 {
      SubAddDays(PrevDay(c), n - 1);
      AddDaysLast(SubDays(PrevDay(c), n - 1), n - 1);
      PrevNext(c);
    }
  }

  /** Adding n + 1 days is adding n days and then one more. */
  lemma {:induction false} AddDaysLast(c: Civil, n: nat)
    requires ValidCivil(c)
    ensures AddDays(c, n + 1) == NextDay(AddDays(c, n))
    decreases n
  {
    if n > 0 {
      AddDaysLast(NextDay(c), n - 1);
    }
  }

  // ---------------------------------------------------------------------
  // Instants
  // ---------------------------------------------------------------------

  /** A Date value: a calendar day and the milliseconds since its midnight. */
  datatype Instant = At(date: Civil, ms: int)

  predicate ValidInstant(t: Instant) {
    ValidCivil(t.date) && 0 <= t.ms < MsPerDay
  }

  /** Stands for the time value of t: comparing Dates compares these numbers. */
  function TimeValue(t: Instant): int {
    DayKey(t.date) * MsPerDay + t.ms
  }

  /** The Date set to midnight of its day (setHours(0, 0, 0, 0)). */
  function Midnight(c: Civil): (t: Instant)
    requires ValidCivil(c)
    ensures ValidInstant(t) && t.date == c
  {
    At(c, 0)
  }

  /** Comparing valid instants by time value orders them first by day, then by time of day. */
  lemma TimeValueOrder(a: Instant, b: Instant)
    requires ValidInstant(a) && ValidInstant(b)
    ensures TimeValue(a) < TimeValue(b) <==>
              CivilBefore(a.date, b.date) || (a.date == b.date && a.ms < b.ms)
  {
    DayKeyOrder(a.date, b.date);
    if DayKey(a.date) < DayKey(b.date) {
      assert TimeValue(a) < (DayKey(a.date) + 1) * MsPerDay;
      assert (DayKey(a.date) + 1) * MsPerDay <= DayKey(b.date) * MsPerDay;
    } else if DayKey(b.date) < DayKey(a.date) {
      assert TimeValue(b) < (DayKey(b.date) + 1) * MsPerDay;
      assert (DayKey(b.date) + 1) * MsPerDay <= DayKey(a.date) * MsPerDay;
    }
  }

  /** A valid instant falls on or after its day's midnight and before the next one. */
  lemma WithinDay(t: Instant)
    requires ValidInstant(t)
    ensures TimeValue(Midnight(t.date)) <= TimeValue(t) < TimeValue(Midnight(NextDay(t.date)))
  {
    TimeValueOrder(t, Midnight(NextDay(t.date)));
  }
}
