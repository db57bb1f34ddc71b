// controllers/bus.controller.js: the fleet overview, which gives each bus its
// next departure and the seats booked on its coming trips, and the bus table's
// create, read, update and delete handlers.

module BusController {
  import opened Common
  import opened Calendar
  import opened Collection
  import T = TrajetModel
  import R = ReservationModel
  import B = BusModel
  import opened Store

  /** `{ bus: bus._id, dateDepart: { $gte: now } }`. */
  function IsFutureOf(busId: Id, now: Instant): T.Trajet -> bool {
    (t: T.Trajet) => t.bus == Some(busId) && TimeValue(t.dateDepart) >= TimeValue(now)
  }

  function DepartDateKey(t: T.Trajet): int {
    TimeValue(t.dateDepart)
  }

  /** The trips of a bus from now on, by date (`sort({ dateDepart: 1 })`). */
  function FutureTripsOf(trajets: seq<T.Trajet>, busId: Id, now: Instant): (r: seq<T.Trajet>)
    ensures multiset(r) == multiset(Filter(trajets, IsFutureOf(busId, now)))
    ensures SortedBy(r, DepartDateKey)
  {
    SortBySorted(Filter(trajets, IsFutureOf(busId, now)), DepartDateKey);
    SortBy(Filter(trajets, IsFutureOf(busId, now)), DepartDateKey)
  }

  /** `{ trajet: { $in: trips }, statut: 'confirmée' }`. */
  function ConfirmedOn(trips: seq<T.Trajet>): R.Reservation -> bool {
    (r: R.Reservation) => r.statut == R.Confirmee && exists i :: 0 <= i < |trips| && trips[i].id == r.trajet
  }

  function Seats(r: R.Reservation): int {
    r.placesReservees
  }

  /** The seats of the confirmed reservations on the given trips. */
  function BookedSeats(rs: seq<R.Reservation>, trips: seq<T.Trajet>): int {
    SumOf(Filter(rs, ConfirmedOn(trips)), Seats)
  }

  const Arrow: string := " → "

  /** `prochainTrajet`: where the next trip goes and when. */
  datatype NextTrip = NextTrip(destination: string, date: Instant)

  /** A bus of the overview: its own fields with the two computed ones. */
  datatype BusOverview = BusOverview(bus: B.Bus, placesReservees: int, prochainTrajet: Option<NextTrip>)

  /** The overview entry of one bus. Without a coming trip the reservations
      are not even read: 0 seats and no next trip. */
  function OverviewOf(b: B.Bus, trajets: seq<T.Trajet>, rs: seq<R.Reservation>, now: Instant): (o: BusOverview)
    ensures o.bus == b
  {
    var future := FutureTripsOf(trajets, b.id, now);
    if |future| == 0 then BusOverview(b, 0, None)
    else BusOverview(b, BookedSeats(rs, future),
                     Some(NextTrip(future[0].villeDepart + Arrow + future[0].villeArrivee, future[0].dateDepart)))
  }

  /** getBuses: one entry per stored bus, in stored order. */
  function GetBuses(buses: seq<B.Bus>, trajets: seq<T.Trajet>, rs: seq<R.Reservation>, now: Instant): (r: seq<BusOverview>)
    ensures |r| == |buses|
    ensures forall i :: 0 <= i < |buses| ==> r[i].bus == buses[i] && r[i] == OverviewOf(buses[i], trajets, rs, now)
  {
    seq(|buses|, i requires 0 <= i < |buses| => OverviewOf(buses[i], trajets, rs, now))
  }

  /** The same trips in any order select the same reservations. */
  lemma ConfirmedOnSameTrips(a: seq<T.Trajet>, b: seq<T.Trajet>, r: R.Reservation)
    requires multiset(a) == multiset(b)
    ensures ConfirmedOn(a)(r) == ConfirmedOn(b)(r)
  {
    if exists i :: 0 <= i < |a| && a[i].id == r.trajet {
      var i :| 0 <= i < |a| && a[i].id == r.trajet;
      assert a[i] in multiset(b);
      var j :| 0 <= j < |b| && b[j] == a[i];
    }
    if exists j :: 0 <= j < |b| && b[j].id == r.trajet {
      var j :| 0 <= j < |b| && b[j].id == r.trajet;
      assert b[j] in multiset(a);
      var i :| 0 <= i < |a| && a[i] == b[j];
    }
  }

  /** The seat count of an entry is the seats of the confirmed reservations on
      the bus's trips from now on, also when there are none. */
  lemma OverviewSeats(b: B.Bus, trajets: seq<T.Trajet>, rs: seq<R.Reservation>, now: Instant)
    ensures OverviewOf(b, trajets, rs, now).placesReservees == BookedSeats(rs, Filter(trajets, IsFutureOf(b.id, now)))
  {
    var future := FutureTripsOf(trajets, b.id, now);
    var plain := Filter(trajets, IsFutureOf(b.id, now));
    forall i | 0 <= i < |rs| ensures ConfirmedOn(future)(rs[i]) == ConfirmedOn(plain)(rs[i]) {
      ConfirmedOnSameTrips(future, plain, rs[i]);
    }
    FilterSamePredicate(rs, ConfirmedOn(future), ConfirmedOn(plain));
    if |future| == 0 {
      FilterNone(rs, ConfirmedOn(future));
    }
  }

  /** A bus has no next trip iff none of its trips departs from now on;
      otherwise the next trip is one of its trips from now on, none of which
      is earlier, labelled "villeDepart → villeArrivee". */
  lemma OverviewNextTrip(b: B.Bus, trajets: seq<T.Trajet>, rs: seq<R.Reservation>, now: Instant)
    ensures OverviewOf(b, trajets, rs, now).prochainTrajet.None? <==>
              forall i :: 0 <= i < |trajets| ==> !IsFutureOf(b.id, now)(trajets[i])
    ensures var n := OverviewOf(b, trajets, rs, now).prochainTrajet;
            n.Some? ==> exists t :: t in trajets && t.bus == Some(b.id) && TimeValue(t.dateDepart) >= TimeValue(now)
                                    && n.value == NextTrip(t.villeDepart + Arrow + t.villeArrivee, t.dateDepart)
                                    && forall u :: u in trajets && IsFutureOf(b.id, now)(u) ==>
                                         TimeValue(t.dateDepart) <= TimeValue(u.dateDepart)
  {
    var future := FutureTripsOf(trajets, b.id, now);
    var plain := Filter(trajets, IsFutureOf(b.id, now));
    if |future| == 0 {
      assert |plain| == |multiset(future)| == 0;
    } else {
      SortByFirstIsMin(plain, DepartDateKey);
      var t := future[0];
      assert t in plain;
      forall u | u in trajets && IsFutureOf(b.id, now)(u)
        ensures TimeValue(t.dateDepart) <= TimeValue(u.dateDepart)
      {
        assert u in plain;
      }
      assert t in trajets;
    }
  }

  /** Seats booked are never negative when every reservation holds at least one seat. */
  lemma {:induction false} SumOfSeatsNonNegative(rs: seq<R.Reservation>)
    requires forall i :: 0 <= i < |rs| ==> R.Valid(rs[i])
    ensures SumOf(rs, Seats) >= 0
    decreases |rs|
  {
    if rs != [] {
      SumOfSeatsNonNegative(rs[..|rs| - 1]);
      assert R.Valid(rs[|rs| - 1]);
    }
  }

  lemma OverviewSeatsNonNegative(b: B.Bus, trajets: seq<T.Trajet>, rs: seq<R.Reservation>, now: Instant)
    requires ReservationTable(rs)
    ensures OverviewOf(b, trajets, rs, now).placesReservees >= 0
  {
    var future := FutureTripsOf(trajets, b.id, now);
    var f := Filter(rs, ConfirmedOn(future));
    forall i | 0 <= i < |f| ensures R.Valid(f[i]) {
      assert f[i] in rs;
    }
    SumOfSeatsNonNegative(f);
  }

  // ---------------------------------------------------------------------
  // The table
  // ---------------------------------------------------------------------

  /** Another bus than the k-th (or any bus, for k = |s|) has the number. */
  predicate NumeroTaken(s: seq<B.Bus>, numero: string, k: nat) {
    exists i :: 0 <= i < |s| && i != k && s[i].numero == numero
  }

  /** createBus: 400 when validation rejects the body or the number is
      taken; otherwise the bus is added (201). */
  method CreateBus(db: Database, body: B.BusInput, newId: Id) returns (status: int, created: Option<B.Bus>)
    requires BusTable(db.buses) && Fresh(db.buses, BusKey, newId)
    modifies db`buses
    ensures BusTable(db.buses)
    ensures status in {201, 400}
    ensures status == 400 <==> B.Create(newId, body).None? || NumeroTaken(old(db.buses), body.numero.value, |old(db.buses)|)
    ensures status == 400 ==> db.buses == old(db.buses) && created.None?
    ensures status == 201 ==> created == B.Create(newId, body) && db.buses == old(db.buses) + [created.value]
  {
    created := B.Create(newId, body);
    if created.None? {
      return 400, None;
    }
    if exists i :: 0 <= i < |db.buses| && i != |db.buses| && db.buses[i].numero == body.numero.value {
      return 400, None;
    }
    DistinctAfterAppend(db.buses, BusKey, created.value);
    db.buses := db.buses + [created.value];
    status := 201;
  }

  datatype BusReply = BusReply(status: int, bus: Option<B.Bus>)

  /** getBusById: the bus, or 404. */
  function GetBusById(s: seq<B.Bus>, id: Id): (r: BusReply)
    ensures r.status in {200, 404}
    ensures r.status == 404 <==> Fresh(s, BusKey, id)
    ensures r.status == 200 ==> r.bus.Some? && r.bus.value in s && r.bus.value.id == id
    ensures r.status == 404 ==> r.bus.None?
  {
    match Lookup(s, BusKey, Some(id))
    case None => BusReply(404, None)
    case Some(b) => BusReply(200, Some(b))
  }

  /** updateBus: the validators run before the lookup (400); then 404 for an
      unknown bus; a number that another bus has gives 400; otherwise the
      given fields are replaced (200). */
  method UpdateBus(db: Database, id: Id, body: B.BusInput) returns (status: int, updated: Option<B.Bus>)
    requires BusTable(db.buses)
    modifies db`buses
    ensures BusTable(db.buses)
    ensures status in {200, 400, 404}
    ensures status != 200 ==> db.buses == old(db.buses) && updated.None?
    ensures !B.UpdateAccepted(body) ==> status == 400
    ensures var k := IndexOf(old(db.buses), BusKey, Some(id));
            (B.UpdateAccepted(body) && k.None? ==> status == 404)
            && (B.UpdateAccepted(body) && k.Some? ==> (
                  var u := B.Update(old(db.buses)[k.value], body).value;
                  (status == 400 <==> NumeroTaken(old(db.buses), u.numero, k.value))
                  && (status == 200 ==> updated == Some(u) && db.buses == old(db.buses)[k.value := u])))
  {
    if !B.UpdateAccepted(body) {
      return 400, None;
    }
    var k := IndexOf(db.buses, BusKey, Some(id));
    if k.None? {
      return 404, None;
    }
    var u := B.Update(db.buses[k.value], body).value;
    if exists i :: 0 <= i < |db.buses| && i != k.value && db.buses[i].numero == u.numero {
      return 400, None;
    }
    DistinctAfterReplace(db.buses, BusKey, k.value, u);
    db.buses := db.buses[k.value := u];
    return 200, Some(u);
  }

  /** deleteBus: 404 for an unknown bus; otherwise it is removed. */
  method DeleteBus(db: Database, id: Id) returns (status: int)
    requires BusTable(db.buses)
    modifies db`buses
    ensures BusTable(db.buses)
    ensures var k := IndexOf(old(db.buses), BusKey, Some(id));
            (k.None? ==> status == 404 && db.buses == old(db.buses))
            && (k.Some? ==> status == 200 && db.buses == RemoveAt(old(db.buses), k.value))
  {
    var k := IndexOf(db.buses, BusKey, Some(id));
    if k.None? {
      return 404;
    }
    DistinctAfterRemove(db.buses, BusKey, k.value);
    db.buses := RemoveAt(db.buses, k.value);
    return 200;
  }
}
