// controllers/tracking.controller.js: the rider's next confirmed trip, the
// start of a trip (creating or updating its live record) and the bus
// position update.

module Tracking {
  import opened Common
  import opened Calendar
  import opened Schedule
  import opened Collection
  import T = TrajetModel
  import R = ReservationModel
  import L = LiveTripModel
  import opened Store

  /** The departure the handler rebuilds from the date of `dateDepart` and
      `heureDepart`; None for an Invalid Date, which never compares as later
      than now. Stored trips always have a valid `dateDepart`. */
  function DepartureOf(t: T.Trajet): (d: Option<Instant>)
    ensures d.Some? <==> ValidInstant(t.dateDepart) && ParseClock(t.heureDepart).Some?
    ensures d.Some? ==> ValidInstant(d.value) && d == Departure(t.dateDepart, t.heureDepart)
  {
    if ValidInstant(t.dateDepart) then Departure(t.dateDepart, t.heureDepart) else None
  }

  /** The query filter `{ client, statut: 'confirmée' }`. */
  predicate ConfirmedFor(client: Id, r: R.Reservation) {
    r.client == client && r.statut == R.Confirmee
  }

  /** The filter step: the trip is still there and departs at or after now. */
  predicate Upcoming(now: Instant, b: Booking) {
    b.trajet.Some? && DepartureOf(b.trajet.value).Some?
    && TimeValue(DepartureOf(b.trajet.value).value) >= TimeValue(now)
  }

  function UpcomingAt(now: Instant): Booking -> bool {
    (b: Booking) => Upcoming(now, b)
  }

  /** The sort key: the departure's time value (every sorted booking has one). */
  function DepartureKey(b: Booking): int {
    if b.trajet.Some? && DepartureOf(b.trajet.value).Some? then TimeValue(DepartureOf(b.trajet.value).value) else 0
  }

  /** `LiveTrip.findOne({ trajetId })`: the index of the trip's live record. */
  function LiveTripIndex(ls: seq<L.LiveTrip>, trajetId: Id): (r: Option<nat>)
    ensures r.Some? ==> r.value < |ls| && ls[r.value].trajetId == trajetId
    ensures r.None? <==> forall j :: 0 <= j < |ls| ==> ls[j].trajetId != trajetId
  {
    FirstIndex(ls, (l: L.LiveTrip) => l.trajetId == trajetId)
  }

  function LiveTripFor(ls: seq<L.LiveTrip>, trajetId: Id): (r: Option<L.LiveTrip>)
    ensures r.Some? ==> r.value in ls && r.value.trajetId == trajetId
    ensures r.None? <==> forall j :: 0 <= j < |ls| ==> ls[j].trajetId != trajetId
  {
    match LiveTripIndex(ls, trajetId)
    case None => None
    case Some(i) => Some(ls[i])
  }

  // ---------------------------------------------------------------------
  // getMyNextTrip
  // ---------------------------------------------------------------------

  /** The three replies: "Vous n'avez aucune réservation confirmée.",
      "Vous n'avez aucun voyage à venir.", or the reservation with its live
      record (null when there is none). */
  datatype NextTripReply = NoConfirmed | NoUpcoming | NextTrip(booking: Booking, liveTrip: Option<L.LiveTrip>)

  /** `Reservation.find({ client, statut: 'confirmée' }).populate('trajet')`. */
  function ConfirmedBookings(rs: seq<R.Reservation>, trajets: seq<T.Trajet>, client: Id): seq<Booking> {
    PopulateAll(Filter(rs, (r: R.Reservation) => ConfirmedFor(client, r)), trajets)
  }

  function FutureBookings(rs: seq<R.Reservation>, trajets: seq<T.Trajet>, client: Id, now: Instant): seq<Booking> {
    Filter(ConfirmedBookings(rs, trajets, client), UpcomingAt(now))
  }

  /** getMyNextTrip: keep the confirmed reservations of the client whose trip
      departs at or after now, sort them by departure and take the first. */
  function MyNextTrip(rs: seq<R.Reservation>, trajets: seq<T.Trajet>, ls: seq<L.LiveTrip>,
                      client: Id, now: Instant): (r: NextTripReply)
    ensures r.NextTrip? ==> r.booking in FutureBookings(rs, trajets, client, now)
  {
    var confirmed := ConfirmedBookings(rs, trajets, client);
    if confirmed == [] then NoConfirmed
    else
      var future := FutureBookings(rs, trajets, client, now);
      if future == [] then NoUpcoming
      else
        SortByFirstIsMin(future, DepartureKey);
        var next := SortBy(future, DepartureKey)[0];
        NextTrip(next, LiveTripFor(ls, next.trajet.value.id))
  }

  /** A booking is confirmed-and-populated iff it comes from a confirmed
      reservation of the client. */
  lemma ConfirmedBookingsMembers(rs: seq<R.Reservation>, trajets: seq<T.Trajet>, client: Id)
    ensures forall b :: b in ConfirmedBookings(rs, trajets, client) ==>
              b.reservation in rs && ConfirmedFor(client, b.reservation) && b == Populate(b.reservation, trajets)
    ensures forall i :: 0 <= i < |rs| && ConfirmedFor(client, rs[i]) ==>
              Populate(rs[i], trajets) in ConfirmedBookings(rs, trajets, client)
  {
    var f := Filter(rs, (r: R.Reservation) => ConfirmedFor(client, r));
    var c := ConfirmedBookings(rs, trajets, client);
    forall b | b in c
      ensures b.reservation in rs && ConfirmedFor(client, b.reservation) && b == Populate(b.reservation, trajets)
    {
      var i :| 0 <= i < |c| && c[i] == b;
      assert b == Populate(f[i], trajets);
    }
    forall i | 0 <= i < |rs| && ConfirmedFor(client, rs[i])
      ensures Populate(rs[i], trajets) in c
    {
      assert rs[i] in f;
      var j :| 0 <= j < |f| && f[j] == rs[i];
      assert c[j] == Populate(rs[i], trajets);
    }
  }

  /** The "aucune réservation confirmée" reply comes exactly when the client
      has no confirmed reservation. */
  lemma NoConfirmedIff(rs: seq<R.Reservation>, trajets: seq<T.Trajet>, ls: seq<L.LiveTrip>, client: Id, now: Instant)
    ensures MyNextTrip(rs, trajets, ls, client, now).NoConfirmed?
            <==> forall i :: 0 <= i < |rs| ==> !ConfirmedFor(client, rs[i])
  {
    ConfirmedBookingsMembers(rs, trajets, client);
    var c := ConfirmedBookings(rs, trajets, client);
    if c != [] {
      assert c[0] in c;
    }
  }

  /** The "aucun voyage à venir" reply comes exactly when the client has
      confirmed reservations but none of them is on a trip that is still
      there and departs at or after now. */
  lemma NoUpcomingIff(rs: seq<R.Reservation>, trajets: seq<T.Trajet>, ls: seq<L.LiveTrip>, client: Id, now: Instant)
    ensures MyNextTrip(rs, trajets, ls, client, now).NoUpcoming?
            <==> (exists i :: 0 <= i < |rs| && ConfirmedFor(client, rs[i]))
                 && forall i :: 0 <= i < |rs| && ConfirmedFor(client, rs[i]) ==> !Upcoming(now, Populate(rs[i], trajets))
  {
    NoConfirmedIff(rs, trajets, ls, client, now);
    ConfirmedBookingsMembers(rs, trajets, client);
    var future := FutureBookings(rs, trajets, client, now);
    if future != [] {
      assert future[0] in future;
    }
  }

  /** The reservation chosen is a confirmed one of the client, its trip is
      there and departs at or after now, no such reservation departs earlier,
      none before it in natural order departs as early, and the live record is
      the trip's own. */
  lemma NextTripIsEarliest(rs: seq<R.Reservation>, trajets: seq<T.Trajet>, ls: seq<L.LiveTrip>, client: Id, now: Instant)
    requires MyNextTrip(rs, trajets, ls, client, now).NextTrip?
    ensures var r := MyNextTrip(rs, trajets, ls, client, now);
            r.booking.reservation in rs && ConfirmedFor(client, r.booking.reservation)
            && r.booking == Populate(r.booking.reservation, trajets)
            && Upcoming(now, r.booking)
            && r.liveTrip == LiveTripFor(ls, r.booking.trajet.value.id)
            && forall i :: 0 <= i < |rs| && ConfirmedFor(client, rs[i]) && Upcoming(now, Populate(rs[i], trajets))
                 ==> DepartureKey(r.booking) <= DepartureKey(Populate(rs[i], trajets))
    ensures var r := MyNextTrip(rs, trajets, ls, client, now);
            var future := FutureBookings(rs, trajets, client, now);
            exists k :: 0 <= k < |future| && future[k] == r.booking
              && forall j :: 0 <= j < k ==> DepartureKey(r.booking) < DepartureKey(future[j])
  {
    ConfirmedBookingsMembers(rs, trajets, client);
    var future := FutureBookings(rs, trajets, client, now);
    SortByFirstIsMin(future, DepartureKey);
    var k := SortByHeadIsFirstLeast(future, DepartureKey);
    var r := MyNextTrip(rs, trajets, ls, client, now);
    assert r.booking == SortBy(future, DepartureKey)[0];
    forall i | 0 <= i < |rs| && ConfirmedFor(client, rs[i]) && Upcoming(now, Populate(rs[i], trajets))
      ensures DepartureKey(r.booking) <= DepartureKey(Populate(rs[i], trajets))
    {
      assert Populate(rs[i], trajets) in future;
    }
  }

  // ---------------------------------------------------------------------
  // startTrip and updateBusPosition
  // ---------------------------------------------------------------------

  /** startTrip: 404 for an unknown trip, 400 when `populate('bus')` finds no
      bus, otherwise the trip's live record gets status 'En cours' (an existing
      one keeps its other fields, a new one copies the trip's bus, cities and
      date). Saving revalidates an existing record, so one holding a position
      without both coordinates fails with 500. */
  method StartTrip(db: Database, trajetId: Option<Id>, newId: Id) returns (status: int, live: Option<L.LiveTrip>)
    requires TrajetTable(db.trajets) && LiveTripTable(db.liveTrips)
    requires Fresh(db.liveTrips, LiveTripKey, newId)
    modifies db`liveTrips
    ensures LiveTripTable(db.liveTrips)
    ensures status in {200, 400, 404, 500}
    ensures status == 404 <==> Lookup(db.trajets, TrajetKey, trajetId).None?
    ensures status == 400 <==> Lookup(db.trajets, TrajetKey, trajetId).Some?
                               && Lookup(db.buses, BusKey, Lookup(db.trajets, TrajetKey, trajetId).value.bus).None?
    ensures status != 200 ==> db.liveTrips == old(db.liveTrips) && live.None?
    ensures status == 200 ==> trajetId.Some? && live.Some? && live.value.status == L.EnCours
                              && live.value.trajetId == trajetId.value
    ensures status in {200, 500} ==> (
              trajetId.Some? &&
              var t := Lookup(db.trajets, TrajetKey, trajetId).value;
              var e := LiveTripIndex(old(db.liveTrips), trajetId.value);
              (e.Some? ==> var u := old(db.liveTrips)[e.value].(status := L.EnCours);
                             (status == 500 <==> !L.Valid(u))
                             && (status == 200 ==> db.liveTrips == old(db.liveTrips)[e.value := u] && live == Some(u)))
              && (e.None? ==> status == 200 && t.bus.Some?
                              && live == Some(L.LiveTrip(newId, t.id, t.bus.value, t.villeDepart, t.villeArrivee,
                                                         t.dateDepart, L.EnCours, None, None))
                              && db.liveTrips == old(db.liveTrips) + [live.value]))
  {
    var trajet := Lookup(db.trajets, TrajetKey, trajetId);
    if trajet.None? {
      return 404, None;
    }
    var t := trajet.value;
    if Lookup(db.buses, BusKey, t.bus).None? {
      return 400, None;
    }
    var e := LiveTripIndex(db.liveTrips, trajetId.value);
    if e.Some? {
      var u := db.liveTrips[e.value].(status := L.EnCours);
      if !L.Valid(u) {
        return 500, None;
      }
      ReplaceKeepsLiveTripTable(db.liveTrips, e.value, u);
      db.liveTrips := db.liveTrips[e.value := u];
      return 200, Some(u);
    }
    var n := L.New(newId, t.id, t.bus.value, t.villeDepart, t.villeArrivee, t.dateDepart, Some(L.EnCours));
    AppendKeepsLiveTripTable(db.liveTrips, n.value);
    db.liveTrips := db.liveTrips + [n.value];
    return 200, n;
  }

  /** Replacing a live trip by a stored one with the same id and trip keeps
      the collection well formed. */
  lemma ReplaceKeepsLiveTripTable(s: seq<L.LiveTrip>, k: nat, x: L.LiveTrip)
    requires LiveTripTable(s) && k < |s| && x.id == s[k].id && x.trajetId == s[k].trajetId && L.Stored(x)
    ensures LiveTripTable(s[k := x])
  {
    DistinctAfterReplace(s, LiveTripKey, k, x);
    var t := s[k := x];
    forall i, j | 0 <= i < j < |t| ensures t[i].trajetId != t[j].trajetId {
      assert t[i].trajetId == s[i].trajetId && t[j].trajetId == s[j].trajetId;
    }
  }

  /** Appending a stored live trip whose id and trip are both new keeps the
      collection well formed. */
  lemma AppendKeepsLiveTripTable(s: seq<L.LiveTrip>, x: L.LiveTrip)
    requires LiveTripTable(s) && Fresh(s, LiveTripKey, x.id) && L.Stored(x)
    requires forall j :: 0 <= j < |s| ==> s[j].trajetId != x.trajetId
    ensures LiveTripTable(s + [x])
  {
    DistinctAfterAppend(s, LiveTripKey, x);
    var t := s + [x];
    forall i, j | 0 <= i < j < |t| ensures t[i].trajetId != t[j].trajetId {
      if j == |s| { assert t[i] == s[i] && t[j] == x; } else { assert t[i] == s[i] && t[j] == s[j]; }
    }
    forall i | 0 <= i < |t| ensures L.Stored(t[i]) {
      if i == |s| { assert t[i] == x; } else { assert t[i] == s[i]; }
    }
  }

  /** updateBusPosition: findByIdAndUpdate without validators sets the
      position (either coordinate may be missing) and the update time; 404 for
      an unknown id. Nothing else changes. */
  method UpdateBusPosition(db: Database, liveTripId: Option<Id>, lat: Option<real>, lng: Option<real>, now: Instant)
    returns (status: int, live: Option<L.LiveTrip>)
    requires LiveTripTable(db.liveTrips)
    modifies db`liveTrips
    ensures LiveTripTable(db.liveTrips)
    ensures var k := IndexOf(old(db.liveTrips), LiveTripKey, liveTripId);
            (k.None? ==> status == 404 && live.None? && db.liveTrips == old(db.liveTrips))
            && (k.Some? ==> (status == 200
                  && db.liveTrips == old(db.liveTrips)[k.value := old(db.liveTrips)[k.value].(
                       currentPosition := Some(PointInput(lat, lng)), lastUpdated := Some(now))]
                  && live == Some(db.liveTrips[k.value])))
  {
    var k := IndexOf(db.liveTrips, LiveTripKey, liveTripId);
    if k.None? {
      return 404, None;
    }
    var u := db.liveTrips[k.value].(currentPosition := Some(PointInput(lat, lng)), lastUpdated := Some(now));
    ReplaceKeepsLiveTripTable(db.liveTrips, k.value, u);
    db.liveTrips := db.liveTrips[k.value := u];
    return 200, Some(u);
  }
}
