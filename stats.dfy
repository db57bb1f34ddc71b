// controllers/stats.controller.js: the admin revenue statistics. The
// confirmed reservations of the period, joined with their trips, become
// transactions worth price times seats; their sum and count are the summary,
// and a reduce groups them by day ("DD/MM", weekly) or by month ("MM/YYYY",
// monthly) for the chart, which is then sorted by the date its label reads as.

module Stats {
  import opened Common
  import opened Calendar
  import opened Collection
  import T = TrajetModel
  import R = ReservationModel
  import opened Store

  datatype Periode = Weekly | Monthly

  /** Only the exact query value "monthly" selects the monthly view; anything
      else, a missing value included, is weekly. */
  function PeriodeOf(query: Option<string>): (p: Periode)
    ensures p == Monthly <==> query == Some("monthly")
  {
    if query == Some("monthly") then Monthly else Weekly
  }

  /** `setMonth(getMonth() - 12)`: the same month and day one year earlier; a
      day past the end of that month rolls over into the next one. */
  function YearEarlier(c: Civil): (r: Civil)
    requires ValidCivil(c)
    ensures ValidCivil(r)
  {
    var last := DaysInMonth(c.year - 1, c.month);
    if c.day <= last then Civil(c.year - 1, c.month, c.day)
    else AddDays(Civil(c.year - 1, c.month, last), c.day - last)
  }

  /** The first instant counted: midnight seven days back (weekly), or
      midnight of the first of the month reached by going back a year
      (monthly). */
  function PeriodStart(p: Periode, now: Instant): (t: Instant)
    requires ValidInstant(now)
    ensures ValidInstant(t) && t.ms == 0
  {
    match p
    case Weekly => Midnight(SubDays(now.date, 7))
    case Monthly =>
      var y := YearEarlier(now.date);
      Midnight(Civil(y.year, y.month, 1))
  }

  /** The weekly window opens at the midnight of the day seven days before
      today's date. */
  lemma WeeklyStart(now: Instant)
    requires ValidInstant(now)
    ensures PeriodStart(Weekly, now).ms == 0
    ensures AddDays(PeriodStart(Weekly, now).date, 7) == now.date
    ensures CivilBefore(PeriodStart(Weekly, now).date, now.date)
  {
    SubAddDays(now.date, 7);
  }

  /** The monthly window opens on the first of the same month a year ago,
      except on a 29 February: that day a year earlier rolls over to 1 March,
      so the window opens on 1 March. */
  lemma MonthlyStart(now: Instant)
    requires ValidInstant(now)
    ensures var c := now.date;
            var s := PeriodStart(Monthly, now);
            s.ms == 0
            && (c.month == 2 && c.day == 29 ==> s.date == Civil(c.year - 1, 3, 1))
            && (!(c.month == 2 && c.day == 29) ==> s.date == Civil(c.year - 1, c.month, 1))
  {
    var c := now.date;
    if c.month == 2 && c.day == 29 {
      assert IsLeap(c.year);
      assert !IsLeap(c.year - 1);
      assert AddDays(Civil(c.year - 1, 2, 28), 1) == AddDays(NextDay(Civil(c.year - 1, 2, 28)), 0);
    } else if c.month == 2 {
      assert c.day <= 28;
    }
  }

  // ---------------------------------------------------------------------
  // Transactions
  // ---------------------------------------------------------------------

  /** `{ statut: 'confirmée', dateReservation: { $gte: start } }`. */
  predicate Counted(start: Instant, r: R.Reservation) {
    r.statut == R.Confirmee && TimeValue(r.dateReservation) >= TimeValue(start)
  }

  /** A counted reservation survives `$lookup` and `$unwind` when its trip is stored. */
  function Joined(start: Instant, trajets: seq<T.Trajet>): R.Reservation -> bool {
    (r: R.Reservation) => Counted(start, r) && Lookup(trajets, TrajetKey, Some(r.trajet)).Some?
  }

  datatype Transaction = Transaction(dateReservation: Instant, revenue: int)

  function Revenue(t: Transaction): int {
    t.revenue
  }

  /** `$multiply: ["$trajetInfo.prix", "$placesReservees"]`. */
  function TransactionOf(r: R.Reservation, trajets: seq<T.Trajet>): Transaction
    requires Lookup(trajets, TrajetKey, Some(r.trajet)).Some?
  {
    Transaction(r.dateReservation, Lookup(trajets, TrajetKey, Some(r.trajet)).value.prix * r.placesReservees)
  }

  /** The aggregation's result, in the collection's order: one transaction per
      confirmed reservation dated from the start on whose trip is stored, worth
      that trip's price times the reserved seats. */
  function Transactions(rs: seq<R.Reservation>, trajets: seq<T.Trajet>, start: Instant): (txs: seq<Transaction>)
    ensures |txs| == |Filter(rs, Joined(start, trajets))|
    ensures forall i :: 0 <= i < |txs| ==>
              var r := Filter(rs, Joined(start, trajets))[i];
              r in rs && r.statut == R.Confirmee && TimeValue(r.dateReservation) >= TimeValue(start)
              && txs[i].dateReservation == r.dateReservation
              && Lookup(trajets, TrajetKey, Some(r.trajet)).Some?
              && txs[i].revenue == Lookup(trajets, TrajetKey, Some(r.trajet)).value.prix * r.placesReservees
  {
    var m := Filter(rs, Joined(start, trajets));
    seq(|m|, i requires 0 <= i < |m| => TransactionOf(m[i], trajets))
  }

  /** Transactions are dated like the reservations they come from. */
  lemma TransactionsDated(rs: seq<R.Reservation>, trajets: seq<T.Trajet>, start: Instant)
    requires forall i :: 0 <= i < |rs| ==> ValidInstant(rs[i].dateReservation)
    ensures CalendarDated(Transactions(rs, trajets, start))
  {
    var txs := Transactions(rs, trajets, start);
    var m := Filter(rs, Joined(start, trajets));
    forall k | 0 <= k < |txs| ensures ValidCivil(txs[k].dateReservation.date) {
      var i :| 0 <= i < |rs| && rs[i] == m[k];
    }
  }

  /** Without a confirmed reservation in the period there is no transaction. */
  lemma NoConfirmedNoTransaction(rs: seq<R.Reservation>, trajets: seq<T.Trajet>, start: Instant)
    requires forall i :: 0 <= i < |rs| ==> !Counted(start, rs[i])
    ensures Transactions(rs, trajets, start) == []
  {
    FilterNone(rs, Joined(start, trajets));
  }

  // ---------------------------------------------------------------------
  // Chart labels
  // ---------------------------------------------------------------------

  /** "DD/MM" for the weekly chart, "MM/YYYY" for the monthly one, day and
      month zero-padded to two digits. */
  function Label(p: Periode, d: Civil): string {
    match p
    case Weekly => PadStart2(IntToString(d.day)) + "/" + PadStart2(IntToString(d.month))
    case Monthly => PadStart2(IntToString(d.month)) + "/" + IntToString(d.year)
  }

  /** A number below 100, zero-padded, is two digits reading back as the number. */
  lemma Padded(n: nat)
    requires n < 100
    ensures |PadStart2(IntToString(n))| == 2 && AllDigits(PadStart2(IntToString(n)))
    ensures DigitsValue(PadStart2(IntToString(n))) == n
  {
    var s := PadStart2(IntToString(n));
    if n < 10 {
      assert s == ['0', DigitChar(n)];
      assert s[..1] == ['0'];
      assert ['0'][..0] == [];
    } else {
      assert Digits(n) == Digits(n / 10) + [DigitChar(n % 10)];
      assert |Digits(n / 10)| == 1;
      DigitsRoundTrip(n);
    }
  }

  /** Labels are equal exactly when the dates share day and month (weekly), or
      month and year (monthly). */
  lemma LabelInjective(p: Periode, a: Civil, b: Civil)
    requires ValidCivil(a) && ValidCivil(b)
    ensures Label(p, a) == Label(p, b) <==>
              match p
              case Weekly => a.day == b.day && a.month == b.month
              case Monthly => a.month == b.month && a.year == b.year
  {
    if Label(p, a) == Label(p, b) {
      var la, lb := Label(p, a), Label(p, b);
      match p
      case Weekly =>
        Padded(a.day); Padded(b.day); Padded(a.month); Padded(b.month);
        assert la[..2] == PadStart2(IntToString(a.day)) && lb[..2] == PadStart2(IntToString(b.day));
        assert la[3..] == PadStart2(IntToString(a.month)) && lb[3..] == PadStart2(IntToString(b.month));
      case Monthly =>
        Padded(a.month); Padded(b.month);
        assert la[..2] == PadStart2(IntToString(a.month)) && lb[..2] == PadStart2(IntToString(b.month));
        assert la[3..] == IntToString(a.year) && lb[3..] == IntToString(b.year);
        IntToStringInjective(a.year, b.year);
    }
  }

  // ---------------------------------------------------------------------
  // Grouping
  // ---------------------------------------------------------------------

  /** One bar of the chart. */
  datatype Group = Group(key: string, total: int)

  function GroupLabel(g: Group): string {
    g.key
  }

  function GroupTotal(g: Group): int {
    g.total
  }

  function HasLabel(name: string): Group -> bool {
    (g: Group) => g.key == name
  }

  /** The transactions with their chart labels, each as a one-transaction group. */
  function Tagged(txs: seq<Transaction>, p: Periode): (r: seq<Group>)
    ensures |r| == |txs|
    ensures forall i :: 0 <= i < |txs| ==>
              r[i].key == Label(p, txs[i].dateReservation.date) && r[i].total == txs[i].revenue
  {
    seq(|txs|, i requires 0 <= i < |txs| => Group(Label(p, txs[i].dateReservation.date), txs[i].revenue))
  }

  /** One step of the grouping reduce: the amount is added to its label's
      group, which is created at the end when it is new. */
  function AddTo(gs: seq<Group>, e: Group): seq<Group> {
    match FirstIndex(gs, HasLabel(e.key))
    case None => gs + [e]
    case Some(j) => gs[j := Group(e.key, gs[j].total + e.total)]
  }

  /** `Object.values` of the reduce's accumulator: the groups in the order
      their labels first appear. */
  function Grouped(es: seq<Group>): seq<Group>
    decreases |es|
  {
    if es == [] then [] else AddTo(Grouped(es[..|es| - 1]), es[|es| - 1])
  }

  /** The body of the grouping reduce: a new label's group starts at 0 at
      the end, then the amount is added to the label's group. */
  method Accumulate(acc: seq<Group>, key: string, revenue: int) returns (r: seq<Group>)
    ensures r == AddTo(acc, Group(key, revenue))
  {
    r := acc;
    var j := FirstIndex(r, HasLabel(key));
    if j.None? {
      r := r + [Group(key, 0)];
      j := Some(|r| - 1);
    }
    r := r[j.value := r[j.value].(total := r[j.value].total + revenue)];
    if FirstIndex(acc, HasLabel(key)).None? {
      assert r == acc + [Group(key, revenue)];
    }
  }

  /** The grouping reduce, one transaction at a time. */
  method GroupForChart(txs: seq<Transaction>, p: Periode) returns (groups: seq<Group>)
    ensures groups == Grouped(Tagged(txs, p))
  {
    groups := [];
    var i := 0;
    while i < |txs|
      invariant 0 <= i <= |txs|
      invariant groups == Grouped(Tagged(txs[..i], p))
    {
      var key := Label(p, txs[i].dateReservation.date);
      TaggedStep(txs, p, i);
      GroupedStep(Tagged(txs[..i], p), Group(key, txs[i].revenue));
      groups := Accumulate(groups, key, txs[i].revenue);
      i := i + 1;
    }
    assert txs[..i] == txs;
  }

  /** Tagging one more transaction appends its tagged amount. */
  lemma TaggedStep(txs: seq<Transaction>, p: Periode, i: nat)
    requires i < |txs|
    ensures Tagged(txs[..i + 1], p) == Tagged(txs[..i], p) + [Group(Label(p, txs[i].dateReservation.date), txs[i].revenue)]
  {
    var t := Tagged(txs[..i + 1], p);
    var u := Tagged(txs[..i], p) + [Group(Label(p, txs[i].dateReservation.date), txs[i].revenue)];
    forall j | 0 <= j < i + 1 ensures t[j] == u[j] {
      if j < i {
        assert txs[..i + 1][j] == txs[..i][j];
      } else {
        assert txs[..i + 1][j] == txs[i];
      }
    }
  }

  /** Tagging a prefix is the prefix of the tagging. */
  lemma TaggedPrefix(txs: seq<Transaction>, p: Periode, n: nat)
    requires n <= |txs|
    ensures Tagged(txs, p)[..n] == Tagged(txs[..n], p)
  {
    var a, b := Tagged(txs, p)[..n], Tagged(txs[..n], p);
    forall i | 0 <= i < n ensures a[i] == b[i] {
      assert txs[..n][i] == txs[i];
    }
  }

  /** Grouping one more amount is one more reduce step. */
  lemma GroupedStep(es: seq<Group>, e: Group)
    ensures Grouped(es + [e]) == AddTo(Grouped(es), e)
  {
    assert (es + [e])[..|es|] == es;
  }

  /** Some group has the label. */
  predicate HasGroup(gs: seq<Group>, name: string) {
    exists i :: 0 <= i < |gs| && gs[i].key == name
  }

  lemma HasGroupAppend(gs: seq<Group>, e: Group, name: string)
    ensures HasGroup(gs + [e], name) <==> HasGroup(gs, name) || e.key == name
  {
    if HasGroup(gs, name) {
      var i :| 0 <= i < |gs| && gs[i].key == name;
      assert (gs + [e])[i] == gs[i];
    }
    if e.key == name {
      assert (gs + [e])[|gs|] == e;
    }
  }

  /** One reduce step, index by index: the groups keep their places and
      labels, a new label opens a group at the end, and only the group of
      the step's label grows, by the step's amount. */
  lemma AddToShape(gs: seq<Group>, e: Group)
    requires DistinctBy(gs, GroupLabel)
    ensures var r := AddTo(gs, e);
            (HasGroup(gs, e.key) ==> |r| == |gs|)
            && (!HasGroup(gs, e.key) ==> |r| == |gs| + 1 && r[|gs|] == e)
            && forall i :: 0 <= i < |gs| ==>
                 r[i].key == gs[i].key
                 && r[i].total == gs[i].total + (if gs[i].key == e.key then e.total else 0)
  {
    match FirstIndex(gs, HasLabel(e.key))
    case None =>
    case Some(j) =>
      assert forall i :: 0 <= i < |gs| && i != j ==> gs[i].key != gs[j].key;
  }

  /** No two groups share a label. */
  lemma {:induction false} GroupedDistinct(es: seq<Group>)
    ensures DistinctBy(Grouped(es), GroupLabel)
    decreases |es|
  {
    if es != [] {
      var gs := Grouped(es[..|es| - 1]);
      var e := es[|es| - 1];
      GroupedDistinct(es[..|es| - 1]);
      AddToShape(gs, e);
      var r := AddTo(gs, e);
      if !HasGroup(gs, e.key) {
        assert forall i :: 0 <= i < |gs| ==> r[i].key != e.key;
      }
    }
  }

  /** A label has a group exactly when some amount carries it. */
  lemma {:induction false} GroupedLabels(es: seq<Group>, name: string)
    ensures HasGroup(Grouped(es), name) <==> HasGroup(es, name)
    decreases |es|
  {
    if es != [] {
      var n := |es| - 1;
      var gs := Grouped(es[..n]);
      var e := es[n];
      var r := AddTo(gs, e);
      GroupedLabels(es[..n], name);
      GroupedDistinct(es[..n]);
      AddToShape(gs, e);
      assert es == es[..n] + [e];
      HasGroupAppend(es[..n], e, name);
      if HasGroup(r, name) && name != e.key {
        var i :| 0 <= i < |r| && r[i].key == name;
        assert i < |gs| && gs[i].key == name;
      }
      if HasGroup(gs, name) {
        var i :| 0 <= i < |gs| && gs[i].key == name;
        assert r[i].key == name;
      }
      if e.key == name && HasGroup(gs, name) {
      } else if e.key == name {
        assert r[|gs|].key == name;
      }
    }
  }

  /** Some amount carries label a and no amount up to it carries label b:
      a first appears before b. */
  predicate AppearsBefore(es: seq<Group>, a: string, b: string) {
    exists k :: 0 <= k < |es| && es[k].key == a && forall m :: 0 <= m <= k ==> es[m].key != b
  }

  /** The groups come in the order their labels first appear among the amounts. */
  lemma {:induction false} GroupedFirstAppearance(es: seq<Group>)
    ensures forall i, j :: 0 <= i < j < |Grouped(es)| ==> AppearsBefore(es, Grouped(es)[i].key, Grouped(es)[j].key)
    decreases |es|
  {
    if es != [] {
      var n := |es| - 1;
      var pre := es[..n];
      var e := es[n];
      var gs := Grouped(pre);
      assert Grouped(es) == AddTo(gs, e);
      assert es == pre + [e];
      GroupedFirstAppearance(pre);
      GroupedDistinct(pre);
      forall i | 0 <= i < |gs| ensures HasGroup(pre, gs[i].key) {
        GroupedLabels(pre, gs[i].key);
      }
      GroupedLabels(pre, e.key);
      AddToFirstAppearance(pre, e, gs);
    }
  }

  /** The step of GroupedFirstAppearance: one more amount keeps the groups'
      order of first appearance, a new label's group coming last. */
  lemma AddToFirstAppearance(pre: seq<Group>, e: Group, gs: seq<Group>)
    requires DistinctBy(gs, GroupLabel)
    requires forall i :: 0 <= i < |gs| ==> HasGroup(pre, gs[i].key)
    requires !HasGroup(gs, e.key) ==> !HasGroup(pre, e.key)
    requires forall i, j :: 0 <= i < j < |gs| ==> AppearsBefore(pre, gs[i].key, gs[j].key)
    ensures var r := AddTo(gs, e);
            forall i, j :: 0 <= i < j < |r| ==> AppearsBefore(pre + [e], r[i].key, r[j].key)
  {
    var r := AddTo(gs, e);
    AddToShape(gs, e);
    forall i, j | 0 <= i < j < |r| ensures AppearsBefore(pre + [e], r[i].key, r[j].key) {
      if j < |gs| {
        AppearsBeforeSnoc(pre, e, gs[i].key, gs[j].key);
      } else {
        assert gs[i].key != e.key;
        AppearsBeforeNew(pre, e, gs[i].key);
      }
    }
  }

  /** An earlier first appearance stays earlier when an amount is added. */
  lemma AppearsBeforeSnoc(pre: seq<Group>, e: Group, a: string, b: string)
    requires AppearsBefore(pre, a, b)
    ensures AppearsBefore(pre + [e], a, b)
  {
    var k :| 0 <= k < |pre| && pre[k].key == a && forall m :: 0 <= m <= k ==> pre[m].key != b;
    var es := pre + [e];
    assert forall m :: 0 <= m <= k ==> es[m] == pre[m];
    assert es[k].key == a;
  }

  /** A label the earlier amounts carry appears before one they do not. */
  lemma AppearsBeforeNew(pre: seq<Group>, e: Group, a: string)
    requires HasGroup(pre, a) && !HasGroup(pre, e.key)
    ensures AppearsBefore(pre + [e], a, e.key)
  {
    var k :| 0 <= k < |pre| && pre[k].key == a;
    var es := pre + [e];
    assert forall m :: 0 <= m <= k ==> es[m] == pre[m];
    assert es[k].key == a;
  }

  /** The sum of the amounts carrying a label. */
  function LabelSum(es: seq<Group>, name: string): int
    decreases |es|
  {
    if es == [] then 0
    else LabelSum(es[..|es| - 1], name) + (if es[|es| - 1].key == name then es[|es| - 1].total else 0)
  }

  /** Amounts of a label nobody carries sum to nothing. */
  lemma {:induction false} LabelSumAbsent(es: seq<Group>, name: string)
    requires !HasGroup(es, name)
    ensures LabelSum(es, name) == 0
    decreases |es|
  {
    if es != [] {
      var n := |es| - 1;
      assert es[n].key != name;
      assert !HasGroup(es[..n], name) by {
        assert forall k :: 0 <= k < n ==> es[..n][k] == es[k];
      }
      LabelSumAbsent(es[..n], name);
    }
  }

  /** Every group's total is the sum of the amounts carrying its label. */
  lemma {:induction false} GroupedTotals(es: seq<Group>)
    ensures forall i :: 0 <= i < |Grouped(es)| ==>
              Grouped(es)[i].total == LabelSum(es, Grouped(es)[i].key)
    decreases |es|
  {
    if es != [] {
      var n := |es| - 1;
      var s := es[..n];
      var e := es[n];
      var gs := Grouped(s);
      var r := AddTo(gs, e);
      assert Grouped(es) == r;
      GroupedTotals(s);
      GroupedDistinct(s);
      AddToShape(gs, e);
      forall i | 0 <= i < |r| ensures r[i].total == LabelSum(es, r[i].key) {
        if i == |gs| {
          GroupedLabels(s, e.key);
          LabelSumAbsent(s, e.key);
        }
      }
    }
  }

  /** One reduce step adds its amount to the sum of the totals. */
  lemma AddToSum(gs: seq<Group>, e: Group)
    ensures SumOf(AddTo(gs, e), GroupTotal) == SumOf(gs, GroupTotal) + e.total
  {
    match FirstIndex(gs, HasLabel(e.key))
    case None =>
      SumOfAppend(gs, e, GroupTotal);
    case Some(j) =>
      SumOfUpdate(gs, j, Group(e.key, gs[j].total + e.total), GroupTotal);
  }

  /** The group totals add up to the sum of all amounts. */
  lemma {:induction false} GroupedSum(es: seq<Group>)
    ensures SumOf(Grouped(es), GroupTotal) == SumOf(es, GroupTotal)
    decreases |es|
  {
    if es != [] {
      var n := |es| - 1;
      var gs := Grouped(es[..n]);
      var e := es[n];
      assert Grouped(es) == AddTo(gs, e);
      GroupedSum(es[..n]);
      AddToSum(gs, e);
    }
  }

  /** Tagging keeps the amounts: the tagged sum is the total revenue. */
  lemma TaggedSum(txs: seq<Transaction>, p: Periode)
    ensures SumOf(Tagged(txs, p), GroupTotal) == SumOf(txs, Revenue)
  {
    SumOfPointwise(Tagged(txs, p), GroupTotal, txs, Revenue);
  }

  /** The revenue of the transactions with a label. */
  function LabelRevenue(txs: seq<Transaction>, p: Periode, name: string): int
    decreases |txs|
  {
    if txs == [] then 0
    else
      var last := txs[|txs| - 1];
      LabelRevenue(txs[..|txs| - 1], p, name) + (if Label(p, last.dateReservation.date) == name then last.revenue else 0)
  }

  /** The amounts tagged with a label are the revenue of the transactions whose
      label it is. */
  lemma {:induction false} TaggedLabelSum(txs: seq<Transaction>, p: Periode, name: string)
    ensures LabelSum(Tagged(txs, p), name) == LabelRevenue(txs, p, name)
    decreases |txs|
  {
    if txs != [] {
      var n := |txs| - 1;
      TaggedPrefix(txs, p, n);
      TaggedLabelSum(txs[..n], p, name);
    }
  }

  // ---------------------------------------------------------------------
  // Chart order
  // ---------------------------------------------------------------------

  function Reversed(s: seq<string>): (r: seq<string>)
    ensures |r| == |s|
    ensures forall i :: 0 <= i < |s| ==> r[i] == s[|s| - 1 - i]
  {
    if s == [] then [] else Reversed(s[1..]) + [s[0]]
  }

  /** `new Date(text)` for the ECMAScript month form "YYYY-MM": the first
      day of that month, as its day key; None for any other text. */
  function IsoMonth(text: string): Option<int> {
    if |text| == 7 && AllDigits(text[..4]) && text[4] == '-' && AllDigits(text[5..])
       && 1 <= DigitsValue(text[5..]) <= 12
    then Some(DayKey(Civil(DigitsValue(text[..4]), DigitsValue(text[5..]), 1)))
    else None
  }

  /** The day V8 gives a month and a day number when the text names no
      year: a day of 2001, a day past the month's end running on into the
      next month (29 February is 1 March). */
  function In2001(month: int, day: int): (c: Civil)
    requires 1 <= month <= 12 && 1 <= day <= 31
    ensures ValidCivil(c) && c.year == 2001
    ensures day <= DaysInMonth(2001, month) ==> c == Civil(2001, month, day)
  {
    if day <= DaysInMonth(2001, month) then Civil(2001, month, day)
    else Civil(2001, month + 1, day - DaysInMonth(2001, month))
  }

  /** `new Date(text)` for "MM-DD", which is outside the ECMAScript format:
      V8's fallback parser reads two numbers joined by '-' as a month and a
      day, in local time, of the year 2001. The day key of that day; None
      for any other text. */
  function LegacyMonthDay(text: string): Option<int> {
    if |text| == 5 && AllDigits(text[..2]) && text[2] == '-' && AllDigits(text[3..])
       && 1 <= DigitsValue(text[..2]) <= 12 && 1 <= DigitsValue(text[3..]) <= 31
    then Some(DayKey(In2001(DigitsValue(text[..2]), DigitsValue(text[3..]))))
    else None
  }

  /** `new Date(g.key.split('/').reverse().join('-'))`, as the day key of the
      day the text names. */
  function LabelDate(name: string): Option<int> {
    var text := Join(Reversed(Fields(name, '/')), '-');
    if IsoMonth(text).Some? then IsoMonth(text) else LegacyMonthDay(text)
  }

  /** The comparator's key; a label that reads as no date compares equal to
      every other. */
  function ChartKey(g: Group): int {
    match LabelDate(g.key)
    case None => 0
    case Some(v) => v
  }

  /** A year from 1000 to 9999 is written with four digits. */
  lemma FourDigits(y: int)
    requires 1000 <= y <= 9999
    ensures |IntToString(y)| == 4 && AllDigits(IntToString(y)) && DigitsValue(IntToString(y)) == y
  {
    assert |Digits(y / 10)| == 3 by {
      assert |Digits(y / 100)| == 2 by {
        assert |Digits(y / 1000)| == 1;
        assert y / 100 / 10 == y / 1000;
      }
      assert y / 10 / 10 == y / 100;
    }
    DigitsRoundTrip(y);
  }

  /** Splitting "a/b" on '/' and joining the reversed fields with '-' gives "b-a". */
  lemma SwapFields(a: string, b: string)
    requires NoSep(a, '/') && NoSep(b, '/')
    ensures Join(Reversed(Fields(a + "/" + b, '/')), '-') == b + "-" + a
  {
    assert Join([a, b], '/') == a + "/" + b by {
      assert [a, b][1..] == [b];
    }
    JoinFields([a, b], '/');
    assert Reversed([a, b]) == [b, a];
    assert [b, a][1..] == [a];
    assert Join([a], '-') == a;
  }

  /** A monthly label of a year written with four digits reads back as the
      first day of its month. */
  lemma MonthlyLabelDate(d: Civil)
    requires ValidCivil(d) && 1000 <= d.year <= 9999
    ensures LabelDate(Label(Monthly, d)) == Some(DayKey(Civil(d.year, d.month, 1)))
  {
    var m := PadStart2(IntToString(d.month));
    var y := IntToString(d.year);
    Padded(d.month);
    FourDigits(d.year);
    MonthLabelDate(m, y);
  }

  /** "MM/YYYY" in digits, MM naming a month 1 to 12, reads as that month's first day. */
  lemma MonthLabelDate(m: string, y: string)
    requires |y| == 4 && AllDigits(y) && |m| == 2 && AllDigits(m) && 1 <= DigitsValue(m) <= 12
    ensures LabelDate(m + "/" + y) == Some(DayKey(Civil(DigitsValue(y), DigitsValue(m), 1)))
  {
    DigitsHaveNoSlash(m);
    DigitsHaveNoSlash(y);
    SwapFields(m, y);
    IsoMonthOf(y, m);
  }

  lemma DigitsHaveNoSlash(s: string)
    requires AllDigits(s)
    ensures NoSep(s, '/')
  {
    forall i | 0 <= i < |s| ensures s[i] != '/' {
      assert IsDigit(s[i]);
    }
  }

  /** Four digits, a dash and two digits naming a month 1 to 12 parse as that month's first day. */
  lemma IsoMonthOf(y: string, m: string)
    requires |y| == 4 && AllDigits(y) && |m| == 2 && AllDigits(m) && 1 <= DigitsValue(m) <= 12
    ensures IsoMonth(y + "-" + m) == Some(DayKey(Civil(DigitsValue(y), DigitsValue(m), 1)))
  {
    var text := y + "-" + m;
    assert text[..4] == y && text[4] == '-' && text[5..] == m;
  }

  /** A weekly label "DD/MM" turns into "MM-DD", which reads as the same
      month and day of 2001, whatever the year of the date labelled. */
  lemma WeeklyLabelDate(d: Civil)
    requires ValidCivil(d)
    ensures LabelDate(Label(Weekly, d)) == Some(DayKey(In2001(d.month, d.day)))
  {
    var dd := PadStart2(IntToString(d.day));
    var mm := PadStart2(IntToString(d.month));
    Padded(d.day);
    Padded(d.month);
    DigitsHaveNoSlash(dd);
    DigitsHaveNoSlash(mm);
    SwapFields(dd, mm);
    LegacyMonthDayOf(mm, dd);
  }

  /** Two digits naming a month, a dash and two digits naming a day 1 to
      31 parse as that month and day of 2001. */
  lemma LegacyMonthDayOf(mm: string, dd: string)
    requires |mm| == 2 && AllDigits(mm) && 1 <= DigitsValue(mm) <= 12
    requires |dd| == 2 && AllDigits(dd) && 1 <= DigitsValue(dd) <= 31
    ensures LegacyMonthDay(mm + "-" + dd) == Some(DayKey(In2001(DigitsValue(mm), DigitsValue(dd))))
  {
    var text := mm + "-" + dd;
    assert text[..2] == mm && text[2] == '-' && text[3..] == dd;
  }

  /** The month and day of a, read in 2001, come before those of b. */
  predicate MonthDayBefore(a: Civil, b: Civil)
    requires ValidCivil(a) && ValidCivil(b)
  {
    DayKey(In2001(a.month, a.day)) < DayKey(In2001(b.month, b.day))
  }

  /** Read in 2001, days compare by month and then by day; only 29 February
      falls together with 1 March. */
  lemma MonthDayOrder(a: Civil, b: Civil)
    requires ValidCivil(a) && ValidCivil(b)
    requires !(a.month == 2 && a.day == 29) && !(b.month == 2 && b.day == 29)
    ensures MonthDayBefore(a, b) <==> a.month < b.month || (a.month == b.month && a.day < b.day)
  {
    assert In2001(a.month, a.day) == Civil(2001, a.month, a.day);
    assert In2001(b.month, b.day) == Civil(2001, b.month, b.day);
  }

  /** The year is lost: 31 December and the next day, 1 January, get weekly
      labels whose dates come in the opposite order. */
  lemma YearEndLabelsReversed(d: Civil)
    requires d.month == 12 && d.day == 31
    ensures NextDay(d) == Civil(d.year + 1, 1, 1) && CivilBefore(d, NextDay(d))
    ensures LabelDate(Label(Weekly, NextDay(d))).Some? && LabelDate(Label(Weekly, d)).Some?
    ensures LabelDate(Label(Weekly, NextDay(d))).value < LabelDate(Label(Weekly, d)).value
  {
    WeeklyLabelDate(NextDay(d));
    WeeklyLabelDate(d);
  }

  /** The chart: the groups sorted by the date their labels read as. */
  function ChartData(gs: seq<Group>): (r: seq<Group>)
    ensures multiset(r) == multiset(gs)
  {
    SortBy(gs, ChartKey)
  }

  // ---------------------------------------------------------------------
  // The handler
  // ---------------------------------------------------------------------

  /** The chart of a list of transactions: their groups, sorted. */
  function Chart(txs: seq<Transaction>, p: Periode): seq<Group> {
    ChartData(Grouped(Tagged(txs, p)))
  }

  /** The chart's labels are distinct. */
  lemma ChartDistinct(txs: seq<Transaction>, p: Periode)
    ensures DistinctBy(Chart(txs, p), GroupLabel)
  {
    GroupedDistinct(Tagged(txs, p));
    DistinctByPermutation(Grouped(Tagged(txs, p)), Chart(txs, p), GroupLabel);
  }

  /** The chart's totals add up to the total revenue. */
  lemma ChartSum(txs: seq<Transaction>, p: Periode)
    ensures SumOf(Chart(txs, p), GroupTotal) == SumOf(txs, Revenue)
  {
    GroupedSum(Tagged(txs, p));
    TaggedSum(txs, p);
    SumOfPermutation(Grouped(Tagged(txs, p)), Chart(txs, p), GroupTotal);
  }

  /** Each bar's total is the revenue of the transactions with its label. */
  lemma ChartTotals(txs: seq<Transaction>, p: Periode)
    ensures forall i :: 0 <= i < |Chart(txs, p)| ==>
              Chart(txs, p)[i].total == LabelRevenue(txs, p, Chart(txs, p)[i].key)
  {
    var gs := Grouped(Tagged(txs, p));
    var chart := Chart(txs, p);
    GroupedTotals(Tagged(txs, p));
    forall i | 0 <= i < |chart| ensures chart[i].total == LabelRevenue(txs, p, chart[i].key) {
      assert chart[i] in multiset(gs);
      TaggedLabelSum(txs, p, chart[i].key);
    }
  }

  /** Some transaction carries the label. */
  predicate Carries(txs: seq<Transaction>, p: Periode, name: string) {
    exists k :: 0 <= k < |txs| && Label(p, txs[k].dateReservation.date) == name
  }

  /** A label has a bar exactly when some transaction carries it. */
  lemma ChartLabels(txs: seq<Transaction>, p: Periode, name: string)
    ensures HasGroup(Chart(txs, p), name) <==> Carries(txs, p, name)
  {
    var es := Tagged(txs, p);
    var gs := Grouped(es);
    var chart := Chart(txs, p);
    GroupedLabels(es, name);
    if HasGroup(gs, name) {
      var i :| 0 <= i < |gs| && gs[i].key == name;
      assert gs[i] in multiset(chart);
    }
    if HasGroup(chart, name) {
      var i :| 0 <= i < |chart| && chart[i].key == name;
      assert chart[i] in multiset(gs);
    }
    if Carries(txs, p, name) {
      var k :| 0 <= k < |txs| && Label(p, txs[k].dateReservation.date) == name;
      assert es[k].key == name;
    }
  }

  /** The chart is ordered by the dates its labels read as. */
  lemma ChartSorted(txs: seq<Transaction>, p: Periode)
    ensures SortedBy(Chart(txs, p), ChartKey)
  {
    SortBySorted(Grouped(Tagged(txs, p)), ChartKey);
  }

  /** Every transaction is dated on a real calendar day. */
  predicate CalendarDated(txs: seq<Transaction>) {
    forall k :: 0 <= k < |txs| ==> ValidCivil(txs[k].dateReservation.date)
  }

  /** Of two weekly bars, the later one's label names a day no month and
      day of which any transaction with the earlier one's label comes after,
      years ignored. */
  lemma {:induction false} WeeklyChartByMonthDay(txs: seq<Transaction>, i: nat, j: nat, k: nat, l: nat)
    requires CalendarDated(txs)
    requires i < j < |Chart(txs, Weekly)| && k < |txs| && l < |txs|
    requires Label(Weekly, txs[k].dateReservation.date) == Chart(txs, Weekly)[i].key
    requires Label(Weekly, txs[l].dateReservation.date) == Chart(txs, Weekly)[j].key
    ensures !MonthDayBefore(txs[l].dateReservation.date, txs[k].dateReservation.date)
  {
    var chart := Chart(txs, Weekly);
    SortBySorted(Grouped(Tagged(txs, Weekly)), ChartKey);
    assert ChartKey(chart[i]) <= ChartKey(chart[j]);
    WeeklyLabelDate(txs[k].dateReservation.date);
    WeeklyLabelDate(txs[l].dateReservation.date);
  }

  /** The bars of a chart come in the month and day order of the days their
      labels stand for: a transaction under a later bar is never dated, years
      ignored, before one under an earlier bar. */
  predicate InMonthDayOrder(txs: seq<Transaction>, chart: seq<Group>)
    requires CalendarDated(txs)
  {
    forall i, j, k, l :: 0 <= i < j < |chart| && 0 <= k < |txs| && 0 <= l < |txs|
      && Label(Weekly, txs[k].dateReservation.date) == chart[i].key
      && Label(Weekly, txs[l].dateReservation.date) == chart[j].key
      ==> !MonthDayBefore(txs[l].dateReservation.date, txs[k].dateReservation.date)
  }

  /** The weekly chart is in month and day order. */
  lemma WeeklyChartInOrder(txs: seq<Transaction>)
    requires CalendarDated(txs)
    ensures InMonthDayOrder(txs, Chart(txs, Weekly))
  {
    var chart := Chart(txs, Weekly);
    forall i, j, k, l | 0 <= i < j < |chart| && 0 <= k < |txs| && 0 <= l < |txs|
              && Label(Weekly, txs[k].dateReservation.date) == chart[i].key
              && Label(Weekly, txs[l].dateReservation.date) == chart[j].key
      ensures !MonthDayBefore(txs[l].dateReservation.date, txs[k].dateReservation.date)
    {
      WeeklyChartByMonthDay(txs, i, j, k, l);
    }
  }

  /** The weekly chart of stored reservations is in month and day order. */
  lemma WeeklyPeriodChart(rs: seq<R.Reservation>, trajets: seq<T.Trajet>, start: Instant)
    requires forall i :: 0 <= i < |rs| ==> ValidInstant(rs[i].dateReservation)
    ensures CalendarDated(Transactions(rs, trajets, start))
    ensures InMonthDayOrder(Transactions(rs, trajets, start), Chart(Transactions(rs, trajets, start), Weekly))
  {
    TransactionsDated(rs, trajets, start);
    WeeklyChartInOrder(Transactions(rs, trajets, start));
  }

  /** The weekly chart of the period the query selects is in month and day
      order when the stored reservations are calendar-dated. */
  lemma WeeklyRevenusChart(rs: seq<R.Reservation>, trajets: seq<T.Trajet>, query: Option<string>, now: Instant)
    requires ValidInstant(now)
    ensures PeriodeOf(query) == Weekly && (forall i :: 0 <= i < |rs| ==> ValidInstant(rs[i].dateReservation)) ==>
              CalendarDated(PeriodTransactions(rs, trajets, query, now))
              && InMonthDayOrder(PeriodTransactions(rs, trajets, query, now), Chart(PeriodTransactions(rs, trajets, query, now), PeriodeOf(query)))
  {
    if PeriodeOf(query) == Weekly && forall i :: 0 <= i < |rs| ==> ValidInstant(rs[i].dateReservation) {
      WeeklyPeriodChart(rs, trajets, PeriodStart(Weekly, now));
    }
  }

  /** What the chart lemmas say of one chart, gathered. */
  lemma ChartFacts(txs: seq<Transaction>, p: Periode)
    ensures DistinctBy(Chart(txs, p), GroupLabel)
    ensures SumOf(Chart(txs, p), GroupTotal) == SumOf(txs, Revenue)
    ensures SortedBy(Chart(txs, p), ChartKey)
    ensures forall i :: 0 <= i < |Chart(txs, p)| ==> Chart(txs, p)[i].total == LabelRevenue(txs, p, Chart(txs, p)[i].key)
    ensures forall name :: HasGroup(Chart(txs, p), name) <==> Carries(txs, p, name)
  {
    ChartDistinct(txs, p);
    ChartSum(txs, p);
    ChartSorted(txs, p);
    ChartTotals(txs, p);
    forall name ensures HasGroup(Chart(txs, p), name) <==> Carries(txs, p, name) {
      ChartLabels(txs, p, name);
    }
  }

  datatype RevenueReply = RevenueReply(totalRevenue: int, totalTransactions: int, chartData: seq<Group>)

  /** The transactions of the period the query selects. */
  function PeriodTransactions(rs: seq<R.Reservation>, trajets: seq<T.Trajet>, query: Option<string>, now: Instant): seq<Transaction>
    requires ValidInstant(now)
  {
    Transactions(rs, trajets, PeriodStart(PeriodeOf(query), now))
  }

  /** getRevenus: the summary and the chart of the period the query selects.
      The total is the revenue of the period's transactions and the count is
      their number; the chart has one bar per label carried by a transaction,
      with distinct labels, totals that add up to the total revenue and are
      each the revenue of the transactions with that label, in the order of
      the dates the labels read as. A weekly label "DD/MM" reads as that day
      of 2001, so the weekly bars come in month and day order, years
      ignored. Without a confirmed reservation in the period everything is
      zero and the chart is empty. */
  method GetRevenus(trajets: seq<T.Trajet>, reservations: seq<R.Reservation>, query: Option<string>, now: Instant)
    returns (reply: RevenueReply)
    requires ValidInstant(now)
    ensures reply.totalRevenue == SumOf(PeriodTransactions(reservations, trajets, query, now), Revenue)
    ensures reply.totalTransactions == |PeriodTransactions(reservations, trajets, query, now)|
    ensures reply.chartData == Chart(PeriodTransactions(reservations, trajets, query, now), PeriodeOf(query))
    ensures DistinctBy(reply.chartData, GroupLabel)
    ensures SumOf(reply.chartData, GroupTotal) == reply.totalRevenue
    ensures SortedBy(reply.chartData, ChartKey)
    ensures forall i :: 0 <= i < |reply.chartData| ==>
              reply.chartData[i].total
              == LabelRevenue(PeriodTransactions(reservations, trajets, query, now), PeriodeOf(query), reply.chartData[i].key)
    ensures forall name :: HasGroup(reply.chartData, name) <==>
              Carries(PeriodTransactions(reservations, trajets, query, now), PeriodeOf(query), name)
    ensures (forall i :: 0 <= i < |reservations| ==> !Counted(PeriodStart(PeriodeOf(query), now), reservations[i])) ==>
              reply == RevenueReply(0, 0, [])
    ensures PeriodeOf(query) == Weekly && (forall i :: 0 <= i < |reservations| ==> ValidInstant(reservations[i].dateReservation)) ==>
              CalendarDated(PeriodTransactions(reservations, trajets, query, now))
              && InMonthDayOrder(PeriodTransactions(reservations, trajets, query, now), reply.chartData)
  {
    var p := PeriodeOf(query);
    var start := PeriodStart(p, now);
    var txs := Transactions(reservations, trajets, start);
    var groups := GroupForChart(txs, p);
    reply := RevenueReply(SumOf(txs, Revenue), |txs|, ChartData(groups));
    ChartFacts(txs, p);
    if forall i :: 0 <= i < |reservations| ==> !Counted(start, reservations[i]) {
      NoConfirmedNoTransaction(reservations, trajets, start);
    }
    WeeklyRevenusChart(reservations, trajets, query, now);
  }
}
