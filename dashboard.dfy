// controllers/dashboard.controller.js: the client's dashboard. Confirmed
// reservations are split by a loop into future and past trips, the future
// ones are sorted by the trip date, the first is paired with its live record,
// and the five most recent parcels the client sent are listed.

module Dashboard {
  import opened Common
  import opened Calendar
  import opened Collection
  import T = TrajetModel
  import R = ReservationModel
  import L = LiveTripModel
  import Co = ColisModel
  import opened Store
  import opened Tracking

  const MaxColis: nat := 5

  predicate HasTrajet(b: Booking) {
    b.trajet.Some?
  }

  function HasTrajetAt(): Booking -> bool {
    (b: Booking) => HasTrajet(b)
  }

  /** A past trip: the trip is there and does not depart at or after now
      (an unparseable departure counts as past). */
  function PastAt(now: Instant): Booking -> bool {
    (b: Booking) => HasTrajet(b) && !Upcoming(now, b)
  }

  /** The key of the future-trip sort: the trip date alone, without `heureDepart`. */
  function DateKey(b: Booking): int {
    if b.trajet.Some? then TimeValue(b.trajet.value.dateDepart) else 0
  }

  /** `{ expediteur_email: req.user.email }`. */
  function SentBy(email: string): Co.Colis -> bool {
    (c: Co.Colis) => c.expediteur_email == Some(email)
  }

  /** The key of `sort({ date_enregistrement: -1 })`: newest first. */
  function NewestFirst(c: Co.Colis): int {
    -TimeValue(c.date_enregistrement)
  }

  datatype NextTripData = NextTripData(reservation: Booking, liveTrip: Option<L.LiveTrip>)

  datatype DashboardReply = DashboardReply(nextTrip: Option<NextTripData>, pastTrips: seq<Booking>, colis: seq<Co.Colis>)

  /** The `for (const r of allReservations)` loop: each booking with a trip is
      pushed onto the future or the past list, one without a trip onto neither. */
  method Partition(bookings: seq<Booking>, now: Instant) returns (future: seq<Booking>, past: seq<Booking>)
    ensures future == Filter(bookings, UpcomingAt(now))
    ensures past == Filter(bookings, PastAt(now))
  {
    future, past := [], [];
    var i := 0;
    while i < |bookings|
      invariant 0 <= i <= |bookings|
      invariant future == Filter(bookings[..i], UpcomingAt(now))
      invariant past == Filter(bookings[..i], PastAt(now))
    {
      var b := bookings[i];
      assert bookings[..i + 1] == bookings[..i] + [b];
      FilterSnoc(bookings[..i], b, UpcomingAt(now));
      FilterSnoc(bookings[..i], b, PastAt(now));
      if b.trajet.Some? {
        if Upcoming(now, b) {
          assert UpcomingAt(now)(b) && !PastAt(now)(b);
          future := future + [b];
        } else {
          assert !UpcomingAt(now)(b) && PastAt(now)(b);
          past := past + [b];
        }
      } else {
        assert !UpcomingAt(now)(b) && !PastAt(now)(b);
      }
      i := i + 1;
    }
    assert bookings[..i] == bookings;
  }

  /** getClientDashboardData. The initial sort on 'trajet.dateDepart' names a
      path the reservations do not hold, so the bookings keep their natural order. */
  method ClientDashboard(db: Database, user: Id, email: string, now: Instant) returns (reply: DashboardReply)
    ensures var bookings := ConfirmedBookings(db.reservations, db.trajets, user);
            var future := SortBy(Filter(bookings, UpcomingAt(now)), DateKey);
            reply.pastTrips == Filter(bookings, PastAt(now))
            && (reply.nextTrip.None? <==> future == [])
            && (reply.nextTrip.Some? ==>
                  future[0].trajet.Some?
                  && reply.nextTrip.value == NextTripData(future[0], LiveTripFor(db.liveTrips, future[0].trajet.value.id)))
    ensures reply.colis == Take(SortBy(Filter(db.colis, SentBy(email)), NewestFirst), MaxColis)
  {
    var bookings := ConfirmedBookings(db.reservations, db.trajets, user);
    var future, past := Partition(bookings, now);
    future := SortBy(future, DateKey);
    var nextTrip: Option<NextTripData> := None;
    if |future| > 0 {
      SortByFirstIsMin(Filter(bookings, UpcomingAt(now)), DateKey);
      var next := future[0];
      nextTrip := Some(NextTripData(next, LiveTripFor(db.liveTrips, next.trajet.value.id)));
    }
    var colis := Take(SortBy(Filter(db.colis, SentBy(email)), NewestFirst), MaxColis);
    reply := DashboardReply(nextTrip, past, colis);
  }

  /** Every booking with a trip lands in exactly one of the two lists, a
      booking without one in neither; the future list holds exactly the
      trips departing at or after now. */
  lemma PartitionIsExact(bookings: seq<Booking>, now: Instant)
    ensures multiset(Filter(bookings, UpcomingAt(now))) + multiset(Filter(bookings, PastAt(now)))
            == multiset(Filter(bookings, HasTrajetAt()))
    ensures forall b :: b in Filter(bookings, UpcomingAt(now)) ==> HasTrajet(b) && Upcoming(now, b)
    ensures forall b :: b in Filter(bookings, PastAt(now)) ==> HasTrajet(b) && !Upcoming(now, b)
    ensures forall b :: b in bookings && !HasTrajet(b) ==>
              b !in Filter(bookings, UpcomingAt(now)) && b !in Filter(bookings, PastAt(now))
  {
    FilterPartition(bookings, UpcomingAt(now), PastAt(now), HasTrajetAt());
  }

  /** The future list is ordered by trip date, the next trip has the earliest
      date among them and is the first of that date in natural order, and the
      order ignores the departure time. */
  lemma FutureOrderedByDate(bookings: seq<Booking>, now: Instant)
    requires Filter(bookings, UpcomingAt(now)) != []
    ensures SortedBy(SortBy(Filter(bookings, UpcomingAt(now)), DateKey), DateKey)
    ensures var f := Filter(bookings, UpcomingAt(now));
            var first := SortBy(f, DateKey)[0];
            first in f && forall b :: b in f ==> TimeValue(first.trajet.value.dateDepart) <= TimeValue(b.trajet.value.dateDepart)
    ensures var f := Filter(bookings, UpcomingAt(now));
            var first := SortBy(f, DateKey)[0];
            exists i :: 0 <= i < |f| && f[i] == first && forall j :: 0 <= j < i ==> DateKey(first) < DateKey(f[j])
  {
    var f := Filter(bookings, UpcomingAt(now));
    SortBySorted(f, DateKey);
    SortByFirstIsMin(f, DateKey);
    var i := SortByHeadIsFirstLeast(f, DateKey);
  }

  /** The parcel list: at most five, each sent from the user's e-mail, newest
      first, and all of the user's parcels when there are at most five. */
  lemma ColisListCut(colis: seq<Co.Colis>, email: string)
    ensures var r := Take(SortBy(Filter(colis, SentBy(email)), NewestFirst), MaxColis);
            |r| <= MaxColis
            && (forall i :: 0 <= i < |r| ==> r[i] in colis && r[i].expediteur_email == Some(email))
            && (forall i, j :: 0 <= i < j < |r| ==> TimeValue(r[j].date_enregistrement) <= TimeValue(r[i].date_enregistrement))
            && (|Filter(colis, SentBy(email))| <= MaxColis ==>
                  multiset(r) == multiset(Filter(colis, SentBy(email))))
  {
    var f := Filter(colis, SentBy(email));
    var sorted := SortBy(f, NewestFirst);
    SortBySorted(f, NewestFirst);
    var r := Take(sorted, MaxColis);
    forall i | 0 <= i < |r| ensures r[i] in colis && r[i].expediteur_email == Some(email) {
      assert r[i] == sorted[i];
      assert sorted[i] in multiset(sorted);
      assert sorted[i] in f;
    }
  }
}
