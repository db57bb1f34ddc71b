// controllers/trajet.controller.js: the public trip search, which pages
// through every trip by departure date with an empty filter, the public and
// admin reads with the bus populated, and the admin create, update and
// delete handlers.

module TrajetController {
  import opened Common
  import opened Calendar
  import opened Collection
  import opened Pagination
  import T = TrajetModel
  import B = BusModel
  import opened Store

  /** A trip with its `bus` populated: None when the trip has no bus or the
      bus is gone. The public search selects `numero capacite etat`, which
      with `_id` are all the fields the bus type carries. */
  datatype TripView = TripView(trajet: T.Trajet, bus: Option<B.Bus>)

  function PopulateTrip(t: T.Trajet, buses: seq<B.Bus>): (v: TripView)
    ensures v.trajet == t
    ensures v.bus.Some? ==> t.bus.Some? && v.bus.value in buses && v.bus.value.id == t.bus.value
    ensures v.bus.None? <==> t.bus.None? || forall j :: 0 <= j < |buses| ==> buses[j].id != t.bus.value
  {
    TripView(t, Lookup(buses, BusKey, t.bus))
  }

  function PopulateTrips(ts: seq<T.Trajet>, buses: seq<B.Bus>): (r: seq<TripView>)
    ensures |r| == |ts|
    ensures forall i :: 0 <= i < |ts| ==> r[i] == PopulateTrip(ts[i], buses)
  {
    seq(|ts|, i requires 0 <= i < |ts| => PopulateTrip(ts[i], buses))
  }

  /** The trips of populated views, in order. */
  function TripsOf(vs: seq<TripView>): (r: seq<T.Trajet>)
    ensures |r| == |vs|
    ensures forall i :: 0 <= i < |vs| ==> r[i] == vs[i].trajet
  {
    seq(|vs|, i requires 0 <= i < |vs| => vs[i].trajet)
  }

  lemma TripsOfPopulate(ts: seq<T.Trajet>, buses: seq<B.Bus>)
    ensures TripsOf(PopulateTrips(ts, buses)) == ts
  {
  }

  /** `sort({ dateDepart: 1 })`. */
  function DepartKey(t: T.Trajet): int {
    TimeValue(t.dateDepart)
  }

  /** `sort({ dateDepart: -1 })`. */
  function LatestFirstKey(t: T.Trajet): int {
    -TimeValue(t.dateDepart)
  }

  const SearchErrorMessage: string := "Erreur serveur lors de la recherche des trajets."
  const NotFoundMessage: string := "Trajet non trouvé"
  const DeletedMessage: string := "Trajet supprimé avec succès"

  datatype SearchReply = SearchOk(reply: PageReply<TripView>) | SearchFailed(status: int, message: string)

  /** The trips by departure, populated, as the search pages through them. */
  function SearchOrder(trajets: seq<T.Trajet>, buses: seq<B.Bus>): seq<TripView> {
    PopulateTrips(SortBy(trajets, DepartKey), buses)
  }

  /** searchTrajets: the filter is empty, so every trip is counted and
      listed; `page` and `limit` go through parseInt with defaults 1 and 15.
      A query the server rejects (NaN, or a negative skip) ends in the
      catch with 500. */
  function SearchTrajets(trajets: seq<T.Trajet>, buses: seq<B.Bus>,
                         pageParam: Option<string>, limitParam: Option<string>): (r: SearchReply)
    ensures var page := ParseIntParam(pageParam, DefaultPage);
            var limit := ParseIntParam(limitParam, DefaultLimit);
            (r.SearchFailed? <==> page.NaN? || limit.NaN? || SkipOf(page, limit).value < 0)
            && (r.SearchFailed? ==> r.status == 500 && r.message == SearchErrorMessage)
            && (r.SearchOk? ==> r.reply.total == |trajets| && r.reply.page == page.value
                                && r.reply.pages == PageCount(|trajets|, limit.value)
                                && r.reply.docs == Window(SearchOrder(trajets, buses), SkipOf(page, limit), limit).value)
  {
    var page := ParseIntParam(pageParam, DefaultPage);
    var limit := ParseIntParam(limitParam, DefaultLimit);
    match Paginate(SearchOrder(trajets, buses), page, limit)
    case None => SearchFailed(500, SearchErrorMessage)
    case Some(reply) => SearchOk(reply)
  }

  /** Every returned page is in departure order, holds stored trips only, and
      with a positive limit holds at most `limit` of them. */
  lemma SearchPageSorted(trajets: seq<T.Trajet>, buses: seq<B.Bus>,
                         pageParam: Option<string>, limitParam: Option<string>)
    ensures var r := SearchTrajets(trajets, buses, pageParam, limitParam);
            r.SearchOk? ==> SortedBy(TripsOf(r.reply.docs), DepartKey)
                            && (forall i :: 0 <= i < |r.reply.docs| ==> r.reply.docs[i].trajet in trajets)
                            && (ParseIntParam(limitParam, DefaultLimit).value > 0 ==>
                                  |r.reply.docs| <= ParseIntParam(limitParam, DefaultLimit).value)
  {
    var r := SearchTrajets(trajets, buses, pageParam, limitParam);
    if r.SearchOk? {
      var page := ParseIntParam(pageParam, DefaultPage);
      var limit := ParseIntParam(limitParam, DefaultLimit);
      SearchWindowSorted(trajets, buses, SkipOf(page, limit), limit);
    }
  }

  /** Any window of the search order: sorted, stored trips only, at most
      `limit` of them with a positive limit. */
  lemma SearchWindowSorted(trajets: seq<T.Trajet>, buses: seq<B.Bus>, skip: Num, limit: Num)
    requires Window(SearchOrder(trajets, buses), skip, limit).Some?
    ensures var w := Window(SearchOrder(trajets, buses), skip, limit).value;
            SortedBy(TripsOf(w), DepartKey)
            && (forall i :: 0 <= i < |w| ==> w[i].trajet in trajets)
            && (limit.value > 0 ==> |w| <= limit.value)
  {
    var sorted := SortBy(trajets, DepartKey);
    SortBySorted(trajets, DepartKey);
    TripsOfWindow(SearchOrder(trajets, buses), skip, limit);
    TripsOfPopulate(sorted, buses);
    WindowOfSorted(sorted, skip, limit, DepartKey);
    var docs := TripsOf(Window(SearchOrder(trajets, buses), skip, limit).value);
    assert docs == Window(sorted, skip, limit).value;
    forall i | 0 <= i < |docs| ensures docs[i] in trajets {
      assert docs[i] in multiset(sorted);
    }
  }

  /** Taking the trips of a window of views is the same window of their trips. */
  lemma TripsOfWindow(vs: seq<TripView>, skip: Num, limit: Num)
    requires Window(vs, skip, limit).Some?
    ensures TripsOf(Window(vs, skip, limit).value) == Window(TripsOf(vs), skip, limit).value
  {
    var a := TripsOf(Window(vs, skip, limit).value);
    var b := Window(TripsOf(vs), skip, limit).value;
    assert |a| == |b|;
    forall i | 0 <= i < |a| ensures a[i] == b[i] {
    }
  }

  /** With no query at all: page 1 of at most 15 trips, the earliest ones,
      and `pages` is ceil(total / 15). */
  lemma SearchDefaults(trajets: seq<T.Trajet>, buses: seq<B.Bus>)
    ensures var r := SearchTrajets(trajets, buses, None, None);
            r.SearchOk? && r.reply.page == 1 && r.reply.total == |trajets|
            && r.reply.docs == Take(SearchOrder(trajets, buses), 15)
            && r.reply.pages == PageCount(|trajets|, 15)
  {
    var r := SearchTrajets(trajets, buses, None, None);
    var all := SearchOrder(trajets, buses);
    assert Drop(all, 0) == all;
  }

  /** With a positive limit, pages 1 to `pages` together list every stored
      trip exactly once, in departure order. */
  lemma SearchCoversAll(trajets: seq<T.Trajet>, buses: seq<B.Bus>, limit: int)
    requires limit > 0
    ensures var all := SearchOrder(trajets, buses);
            var pages := PageCount(|trajets|, limit).value;
            PagesUpTo(all, limit, pages) == all
            && multiset(TripsOf(all)) == multiset(trajets)
            && SortedBy(TripsOf(all), DepartKey)
  {
    var all := SearchOrder(trajets, buses);
    PagesCoverAll(all, limit);
    TripsOfPopulate(SortBy(trajets, DepartKey), buses);
    SortBySorted(trajets, DepartKey);
  }

  datatype TripReply = TripReply(status: int, trip: Option<TripView>, message: Option<string>)

  /** getTrajetByIdPublic: the trip with its bus, or 404. */
  function GetTrajetByIdPublic(trajets: seq<T.Trajet>, buses: seq<B.Bus>, id: Id): (r: TripReply)
    ensures r.status in {200, 404}
    ensures r.status == 404 <==> Fresh(trajets, TrajetKey, id)
    ensures r.status == 404 ==> r.trip.None? && r.message == Some(NotFoundMessage)
    ensures r.status == 200 ==> r.trip.Some? && r.trip.value.trajet in trajets && r.trip.value.trajet.id == id
                                && r.trip.value == PopulateTrip(r.trip.value.trajet, buses)
  {
    match Lookup(trajets, TrajetKey, Some(id))
    case None => TripReply(404, None, Some(NotFoundMessage))
    case Some(t) => TripReply(200, Some(PopulateTrip(t, buses)), None)
  }

  /** getAllTrajetsAdmin: every trip, latest departure first, with its bus. */
  function GetAllTrajetsAdmin(trajets: seq<T.Trajet>, buses: seq<B.Bus>): (r: seq<TripView>)
    ensures |r| == |trajets|
    ensures multiset(TripsOf(r)) == multiset(trajets)
  {
    var sorted := SortBy(trajets, LatestFirstKey);
    TripsOfPopulate(sorted, buses);
    PopulateTrips(sorted, buses)
  }

  /** The admin list runs from the latest departure to the earliest. */
  lemma AdminLatestFirst(trajets: seq<T.Trajet>, buses: seq<B.Bus>)
    ensures var r := GetAllTrajetsAdmin(trajets, buses);
            forall i, j :: 0 <= i < j < |r| ==> DepartKey(r[j].trajet) <= DepartKey(r[i].trajet)
  {
    var sorted := SortBy(trajets, LatestFirstKey);
    SortBySorted(trajets, LatestFirstKey);
    TripsOfPopulate(sorted, buses);
  }

  /** createTrajet: 201 with the stored trip, or 400 when validation rejects
      the body; nothing is stored then. */
  method CreateTrajet(db: Database, body: T.TrajetInput, newId: Id) returns (status: int, created: Option<T.Trajet>)
    requires TrajetTable(db.trajets) && Fresh(db.trajets, TrajetKey, newId)
    modifies db`trajets
    ensures TrajetTable(db.trajets)
    ensures status in {201, 400}
    ensures status == 400 <==> !T.CreateAccepted(body)
    ensures status == 400 ==> db.trajets == old(db.trajets) && created.None?
    ensures status == 201 ==> created == T.Create(newId, body) && created.Some?
                              && db.trajets == old(db.trajets) + [created.value]
  {
    created := T.Create(newId, body);
    if created.None? {
      return 400, None;
    }
    DistinctAfterAppend(db.trajets, TrajetKey, created.value);
    db.trajets := db.trajets + [created.value];
    status := 201;
  }

  /** updateTrajet: the update validators run first (400); then 404 for an
      unknown trip; otherwise the paths the body sets are replaced and the
      others kept (200). */
  method UpdateTrajet(db: Database, id: Id, body: T.TrajetInput) returns (status: int, updated: Option<T.Trajet>)
    requires TrajetTable(db.trajets)
    modifies db`trajets
    ensures TrajetTable(db.trajets)
    ensures status in {200, 400, 404}
    ensures status == 400 <==> !T.UpdateAccepted(body)
    ensures status != 200 ==> db.trajets == old(db.trajets) && updated.None?
    ensures var k := IndexOf(old(db.trajets), TrajetKey, Some(id));
            (T.UpdateAccepted(body) && k.None? ==> status == 404)
            && (T.UpdateAccepted(body) && k.Some? ==>
                  status == 200 && updated == T.Update(old(db.trajets)[k.value], body)
                  && T.TakesSetPaths(updated.value, body)
                  && T.KeepsUnsetPaths(updated.value, old(db.trajets)[k.value], body)
                  && db.trajets == old(db.trajets)[k.value := updated.value])
  {
    if !T.UpdateAccepted(body) {
      return 400, None;
    }
    var k := IndexOf(db.trajets, TrajetKey, Some(id));
    if k.None? {
      return 404, None;
    }
    T.UpdateSetsAndKeeps(db.trajets[k.value], body);
    updated := T.Update(db.trajets[k.value], body);
    DistinctAfterReplace(db.trajets, TrajetKey, k.value, updated.value);
    db.trajets := db.trajets[k.value := updated.value];
    status := 200;
  }

  /** deleteTrajet: 404 for an unknown trip; otherwise it is removed and no
      trip with that id is left. Reservations that point at it stay. */
  method DeleteTrajet(db: Database, id: Id) returns (status: int, message: string)
    requires TrajetTable(db.trajets)
    modifies db`trajets
    ensures TrajetTable(db.trajets)
    ensures var k := IndexOf(old(db.trajets), TrajetKey, Some(id));
            (k.None? ==> status == 404 && message == NotFoundMessage && db.trajets == old(db.trajets))
            && (k.Some? ==> status == 200 && message == DeletedMessage
                            && db.trajets == RemoveAt(old(db.trajets), k.value))
    ensures Fresh(db.trajets, TrajetKey, id)
  {
    var k := IndexOf(db.trajets, TrajetKey, Some(id));
    if k.None? {
      return 404, NotFoundMessage;
    }
    ghost var s := db.trajets;
    DistinctAfterRemove(db.trajets, TrajetKey, k.value);
    db.trajets := RemoveAt(db.trajets, k.value);
    GoneAfterRemove(s, k.value);
    return 200, DeletedMessage;
  }

  /** With distinct ids, removing the trip with an id leaves none with it. */
  lemma GoneAfterRemove(s: seq<T.Trajet>, k: nat)
    requires DistinctBy(s, TrajetKey) && k < |s|
    ensures Fresh(RemoveAt(s, k), TrajetKey, s[k].id)
  {
    var t := RemoveAt(s, k);
    forall i | 0 <= i < |t| ensures t[i].id != s[k].id {
      if i < k {
        assert t[i] == s[i];
      } else {
        assert t[i] == s[i + 1];
      }
    }
  }
}
