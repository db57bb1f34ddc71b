// add-data.js: adds three buses when their numbers are not stored yet, then
// fifteen random trips between the known cities on the buses in service,
// keeping what is already stored. Math.random is given as the draws each
// trip consumes and the clock as `now`; the script's lists are constants
// below, and the steps are stated over any lists of the same form.

module AddData {
  import opened Common
  import opened Calendar
  import opened Collection
  import T = TrajetModel
  import B = BusModel
  import opened Store

  datatype BusData = BusData(numero: string, etat: string, capacite: int)

  const NouveauxBus: seq<BusData> := [BusData("N-505", "en service", 52),
                                      BusData("N-606", "en service", 50),
                                      BusData("S-707", "en service", 60)]

  const NouvellesCompagnies: seq<string> := ["Sogatra", "Dounia-Tia", "Gana-Transport"]
  const HeuresDepart: seq<string> := ["07:30", "09:00", "16:00"]
  const TripCount: nat := 15
  const TripSeats: int := 50

  datatype City = City(nom: string, coords: Point)

  const VillesExistantes: seq<City> := [
    City("Bamako", Point(12.6392, -8.0029)), City("Sikasso", Point(11.3176, -5.6665)),
    City("Kayes", Point(14.4469, -11.4443)), City("Mopti", Point(14.4944, -4.1970)),
    City("Ségou", Point(13.4317, -6.2658))]

  const NouvellesVilles: seq<City> := [
    City("Tombouctou", Point(16.7735, -3.0074)), City("Gao", Point(16.2666, -0.0400)),
    City("Kidal", Point(18.4411, 1.4078)), City("Taoudénit", Point(22.6736, -3.9781)),
    City("Ménaka", Point(15.9182, 2.4014)), City("Dioïla", Point(12.4939, -6.7461)),
    City("Niono", Point(14.2526, -5.9930)), City("Kita", Point(13.0444, -9.4895)),
    City("Douentza", Point(15.0019, -2.9497)), City("Bandiagara", Point(14.3499, -3.6101)),
    City("San", Point(13.3045, -4.8955)), City("Koutiala", Point(12.3917, -5.4642)),
    City("Goundam", Point(16.4144, -3.6708)), City("Nara", Point(15.1681, -7.2863)),
    City("Bougouni", Point(11.4194, -7.4817))]

  // ---------------------------------------------------------------------
  // Buses: insert when the number is not stored yet
  // ---------------------------------------------------------------------

  function InputOf(b: BusData): B.BusInput {
    B.BusInput(Some(b.numero), Some(b.etat), Some(b.capacite))
  }

  /** Bus data the schema accepts, with distinct numbers. */
  predicate BusBatch(c: seq<BusData>) {
    (forall k :: 0 <= k < |c| ==> B.CreateAccepted(InputOf(c[k])))
    && forall k, m :: 0 <= k < m < |c| ==> c[k].numero != c[m].numero
  }

  lemma ScriptBusesAccepted()
    ensures BusBatch(NouveauxBus)
  {
    assert B.ParseEtat("en service") == Some(B.EnService);
  }

  predicate NumeroStored(s: seq<B.Bus>, numero: string) {
    exists i :: 0 <= i < |s| && s[i].numero == numero
  }

  /** The buses the step adds: one per candidate whose number was not
      stored before the script, in candidate order; the k-th new bus taking
      ids[k]. */
  function NewBuses(s: seq<B.Bus>, c: seq<BusData>, ids: seq<Id>, k: nat): seq<B.Bus>
    requires BusBatch(c) && k <= |c| == |ids|
  {
    if k == 0 then []
    else NewBuses(s, c, ids, k - 1)
         + (if NumeroStored(s, c[k - 1].numero) then [] else [B.Create(ids[k - 1], InputOf(c[k - 1])).value])
  }

  /** How many of the first k candidates have a number not stored before. */
  function NewNumbers(s: seq<B.Bus>, c: seq<BusData>, k: nat): nat
    requires k <= |c|
  {
    if k == 0 then 0 else NewNumbers(s, c, k - 1) + (if NumeroStored(s, c[k - 1].numero) then 0 else 1)
  }

  /** Each added bus is the saved document of one of the first k candidates
      whose number was new. */
  lemma {:induction false} NewBusesFrom(s: seq<B.Bus>, c: seq<BusData>, ids: seq<Id>, k: nat)
    requires BusBatch(c) && k <= |c| == |ids|
    ensures |NewBuses(s, c, ids, k)| == NewNumbers(s, c, k)
    ensures forall i :: 0 <= i < |NewBuses(s, c, ids, k)| ==>
              exists m :: 0 <= m < k && !NumeroStored(s, c[m].numero)
                          && NewBuses(s, c, ids, k)[i] == B.Create(ids[m], InputOf(c[m])).value
    decreases k
  {
    if k > 0 {
      NewBusesFrom(s, c, ids, k - 1);
      var before := NewBuses(s, c, ids, k - 1);
      var now := NewBuses(s, c, ids, k);
      forall i | 0 <= i < |now|
        ensures exists m :: 0 <= m < k && !NumeroStored(s, c[m].numero)
                            && now[i] == B.Create(ids[m], InputOf(c[m])).value
      {
        if i < |before| {
          assert now[i] == before[i];
        } else {
          assert now[i] == B.Create(ids[k - 1], InputOf(c[k - 1])).value;
        }
      }
    }
  }

  /** Ids free in the table and distinct among themselves. */
  predicate FreshIds<X>(s: seq<X>, key: X -> Id, ids: seq<Id>) {
    (forall k :: 0 <= k < |ids| ==> Fresh(s, key, ids[k]))
    && forall k, m :: 0 <= k < m < |ids| ==> ids[k] != ids[m]
  }

  /** Adding the new buses keeps ids and numbers unique. */
  lemma {:induction false} NewBusesTable(s: seq<B.Bus>, c: seq<BusData>, ids: seq<Id>, k: nat)
    requires BusBatch(c) && k <= |c| == |ids| && BusTable(s) && FreshIds(s, BusKey, ids)
    ensures BusTable(s + NewBuses(s, c, ids, k))
    decreases k
  {
    if k > 0 {
      NewBusesTable(s, c, ids, k - 1);
      var before := s + NewBuses(s, c, ids, k - 1);
      if !NumeroStored(s, c[k - 1].numero) {
        var b := B.Create(ids[k - 1], InputOf(c[k - 1])).value;
        NewBusesFrom(s, c, ids, k - 1);
        assert s + NewBuses(s, c, ids, k) == before + [b];
        forall i | 0 <= i < |before| ensures before[i].id != b.id && before[i].numero != b.numero {
          if i >= |s| {
            var m :| 0 <= m < k - 1 && !NumeroStored(s, c[m].numero)
                     && NewBuses(s, c, ids, k - 1)[i - |s|] == B.Create(ids[m], InputOf(c[m])).value;
            assert before[i] == NewBuses(s, c, ids, k - 1)[i - |s|];
          }
        }
        DistinctAfterAppend(before, BusKey, b);
      } else {
        assert s + NewBuses(s, c, ids, k) == before;
      }
    }
  }

  /** The buses added for the first k candidates carry other numbers than
      candidate k. */
  lemma NewBusesOtherNumbers(s: seq<B.Bus>, c: seq<BusData>, ids: seq<Id>, k: nat)
    requires BusBatch(c) && k < |c| == |ids|
    ensures forall i :: 0 <= i < |NewBuses(s, c, ids, k)| ==> NewBuses(s, c, ids, k)[i].numero != c[k].numero
  {
    NewBusesFrom(s, c, ids, k);
    forall i | 0 <= i < |NewBuses(s, c, ids, k)| ensures NewBuses(s, c, ids, k)[i].numero != c[k].numero {
      var m :| 0 <= m < k && !NumeroStored(s, c[m].numero)
               && NewBuses(s, c, ids, k)[i] == B.Create(ids[m], InputOf(c[m])).value;
    }
  }

  /** Round k's lookup finds a bus exactly when the number was stored before
      the loop, and the round extends the added buses accordingly. */
  lemma LookupSeesOnlyOldNumbers(s: seq<B.Bus>, c: seq<BusData>, ids: seq<Id>, k: nat)
    requires BusBatch(c) && k < |c| == |ids|
    ensures FirstIndex(s + NewBuses(s, c, ids, k), SameNumero(c[k].numero)).None? <==> !NumeroStored(s, c[k].numero)
    ensures !NumeroStored(s, c[k].numero) ==>
              NewBuses(s, c, ids, k + 1) == NewBuses(s, c, ids, k) + [B.Create(ids[k], InputOf(c[k])).value]
    ensures NumeroStored(s, c[k].numero) ==> NewBuses(s, c, ids, k + 1) == NewBuses(s, c, ids, k)
    ensures NewNumbers(s, c, k + 1) == NewNumbers(s, c, k) + (if NumeroStored(s, c[k].numero) then 0 else 1)
  {
    NewBusesOtherNumbers(s, c, ids, k);
    var all := s + NewBuses(s, c, ids, k);
    var p := SameNumero(c[k].numero);
    if NumeroStored(s, c[k].numero) {
      var i :| 0 <= i < |s| && s[i].numero == c[k].numero;
      assert p(all[i]);
    } else {
      forall j | 0 <= j < |all| ensures !p(all[j]) {
        if j >= |s| {
          assert all[j] == NewBuses(s, c, ids, k)[j - |s|];
        }
      }
    }
  }

  function SameNumero(numero: string): B.Bus -> bool {
    (b: B.Bus) => b.numero == numero
  }

  /** The loop of step 2: `findOne({ numero })`, and `new Bus(data).save()`
      when nothing was found. Although each lookup sees the buses saved by
      the earlier rounds, the buses added are those whose number was new
      before the loop, and `busAjoutes` counts them. */
  method AddBuses(db: Database, c: seq<BusData>, ids: seq<Id>) returns (busAjoutes: nat)
    requires BusBatch(c) && |ids| == |c| && BusTable(db.buses) && FreshIds(db.buses, BusKey, ids)
    modifies db`buses
    ensures db.buses == old(db.buses) + NewBuses(old(db.buses), c, ids, |c|)
    ensures busAjoutes == NewNumbers(old(db.buses), c, |c|)
    ensures BusTable(db.buses)
  {
    var buses;
    buses, busAjoutes := SaveRounds(db.buses, c, ids);
    NewBusesTable(db.buses, c, ids, |c|);
    db.buses := buses;
  }

  /** The rounds themselves, on the collection as it grows. */
  method SaveRounds(s: seq<B.Bus>, c: seq<BusData>, ids: seq<Id>) returns (buses: seq<B.Bus>, busAjoutes: nat)
    requires BusBatch(c) && |ids| == |c|
    ensures buses == s + NewBuses(s, c, ids, |c|)
    ensures busAjoutes == NewNumbers(s, c, |c|)
  {
    buses := s;
    busAjoutes := 0;
    var k := 0;
    while k < |c|
      invariant 0 <= k <= |c|
      invariant buses == s + NewBuses(s, c, ids, k)
      invariant busAjoutes == NewNumbers(s, c, k)
    {
      var added;
      buses, added := SaveRound(s, c, ids, k, buses);
      busAjoutes := busAjoutes + added;
      k := k + 1;
    }
  }

  /** Round k: `findOne({ numero })` on the collection as it stands, and
      `new Bus(data).save()` when nothing is found; the collection becomes
      that of the first k + 1 rounds, and one bus is counted exactly when
      the number was new before the loop. */
  method SaveRound(s: seq<B.Bus>, c: seq<BusData>, ids: seq<Id>, k: nat, buses: seq<B.Bus>)
    returns (after: seq<B.Bus>, added: nat)
    requires BusBatch(c) && k < |c| == |ids| && buses == s + NewBuses(s, c, ids, k)
    ensures after == s + NewBuses(s, c, ids, k + 1)
    ensures added == (if NumeroStored(s, c[k].numero) then 0 else 1)
  {
    LookupSeesOnlyOldNumbers(s, c, ids, k);
    var existing := FirstIndex(buses, SameNumero(c[k].numero));
    if existing.None? {
      var b := B.Create(ids[k], InputOf(c[k])).value;
      Reassociate(s, NewBuses(s, c, ids, k + 1), NewBuses(s, c, ids, k), [b]);
      return buses + [b], 1;
    }
    return buses, 0;
  }

  /** After the step every candidate's number is stored. */
  lemma EveryNumberStored(s: seq<B.Bus>, c: seq<BusData>, ids: seq<Id>)
    requires BusBatch(c) && |ids| == |c|
    ensures forall m :: 0 <= m < |c| ==> NumeroStored(s + NewBuses(s, c, ids, |c|), c[m].numero)
  {
    forall m | 0 <= m < |c| ensures NumeroStored(s + NewBuses(s, c, ids, |c|), c[m].numero) {
      NewBusAppears(s, c, ids, |c|, m);
    }
  }

  lemma {:induction false} NewBusAppears(s: seq<B.Bus>, c: seq<BusData>, ids: seq<Id>, k: nat, m: nat)
    requires BusBatch(c) && k <= |c| == |ids| && m < k
    ensures NumeroStored(s + NewBuses(s, c, ids, k), c[m].numero)
    decreases k
  {
    var all := s + NewBuses(s, c, ids, k);
    if m == k - 1 {
      if NumeroStored(s, c[m].numero) {
        var i :| 0 <= i < |s| && s[i].numero == c[m].numero;
        assert all[i] == s[i];
      } else {
        assert all[|all| - 1] == B.Create(ids[m], InputOf(c[m])).value;
      }
    } else {
      NewBusAppears(s, c, ids, k - 1, m);
      var before := s + NewBuses(s, c, ids, k - 1);
      var i :| 0 <= i < |before| && before[i].numero == c[m].numero;
      assert all[i] == before[i];
    }
  }

  // ---------------------------------------------------------------------
  // Cities: the two lists with repeated names dropped
  // ---------------------------------------------------------------------

  function SameNom(nom: string): City -> bool {
    (t: City) => t.nom == nom
  }

  /** No city before position i has the name of the one at i. */
  predicate FirstOfNom(a: seq<City>, i: nat)
    requires i < |a|
  {
    forall k :: 0 <= k < i ==> a[k].nom != a[i].nom
  }

  /** That is `a.findIndex(t => t.nom === v.nom) === i` for v at position i. */
  lemma FirstOfNomIsFindIndex(a: seq<City>, i: nat)
    requires i < |a|
    ensures FirstOfNom(a, i) <==> FirstIndex(a, SameNom(a[i].nom)) == Some(i)
  {
    assert SameNom(a[i].nom)(a[i]);
  }

  /** The filter over positions i and after. */
  function DedupFrom(a: seq<City>, i: nat): seq<City>
    requires i <= |a|
    decreases |a| - i
  {
    if i == |a| then []
    else (if FirstOfNom(a, i) then [a[i]] else []) + DedupFrom(a, i + 1)
  }

  /** `[...villesExistantes, ...nouvellesVilles].filter(...)`: a city is
      kept when it is the first of its name. */
  function DedupByNom(a: seq<City>): seq<City> {
    DedupFrom(a, 0)
  }

  /** Each city the filter keeps from position i on is a city of the input
      whose name no city before position i has. */
  lemma {:induction false} DedupFromSource(a: seq<City>, i: nat)
    requires i <= |a|
    ensures forall k :: 0 <= k < |DedupFrom(a, i)| ==> DedupFrom(a, i)[k] in a
    ensures forall k, p :: 0 <= k < |DedupFrom(a, i)| && 0 <= p < i ==> a[p].nom != DedupFrom(a, i)[k].nom
    decreases |a| - i
  {
    if i < |a| {
      DedupFromSource(a, i + 1);
      var tail := DedupFrom(a, i + 1);
      var r := DedupFrom(a, i);
      var head := if FirstOfNom(a, i) then [a[i]] else [];
      assert r == head + tail;
      forall k | 0 <= k < |r| ensures r[k] in a && forall p :: 0 <= p < i ==> a[p].nom != r[k].nom {
        if k < |head| {
          assert r[k] == a[i];
        } else {
          assert r[k] == tail[k - |head|];
        }
      }
    }
  }

  /** Each city from position i on that is the first of its name is kept. */
  lemma {:induction false} DedupFromKeeps(a: seq<City>, i: nat)
    requires i <= |a|
    ensures forall j :: i <= j < |a| && FirstOfNom(a, j) ==> a[j] in DedupFrom(a, i)
    decreases |a| - i
  {
    if i < |a| {
      DedupFromKeeps(a, i + 1);
      var head := if FirstOfNom(a, i) then [a[i]] else [];
      assert DedupFrom(a, i) == head + DedupFrom(a, i + 1);
    }
  }

  /** No name is kept twice. */
  lemma {:induction false} DedupFromDistinct(a: seq<City>, i: nat)
    requires i <= |a|
    ensures forall k, m :: 0 <= k < m < |DedupFrom(a, i)| ==> DedupFrom(a, i)[k].nom != DedupFrom(a, i)[m].nom
    decreases |a| - i
  {
    if i < |a| {
      DedupFromDistinct(a, i + 1);
      var tail := DedupFrom(a, i + 1);
      if FirstOfNom(a, i) {
        DedupFromSource(a, i + 1);
        assert forall m :: 0 <= m < |tail| ==> a[i].nom != tail[m].nom;
        var r := DedupFrom(a, i);
        assert r == [a[i]] + tail;
        forall k, m | 0 <= k < m < |r| ensures r[k].nom != r[m].nom {
          assert r[m] == tail[m - 1];
          if k > 0 {
            assert r[k] == tail[k - 1];
            assert tail[k - 1].nom != tail[m - 1].nom;
          } else {
            assert r[k] == a[i];
            assert a[i].nom != tail[m - 1].nom;
          }
        }
      } else {
        assert DedupFrom(a, i) == tail;
      }
    }
  }

  /** The deduplicated list has each name once, only cities of the input,
      and for every name of the input the first city of that name. */
  lemma DedupByNomFacts(a: seq<City>)
    ensures var r := DedupByNom(a);
            (forall k, m :: 0 <= k < m < |r| ==> r[k].nom != r[m].nom)
            && (forall k :: 0 <= k < |r| ==> r[k] in a)
            && (forall j :: 0 <= j < |a| ==> a[FirstIndex(a, SameNom(a[j].nom)).value] in r)
  {
    assert DedupByNom(a) == DedupFrom(a, 0);
    DedupFromDistinct(a, 0);
    DedupFromSource(a, 0);
    DedupFromKeeps(a, 0);
    forall j | 0 <= j < |a| ensures a[FirstIndex(a, SameNom(a[j].nom)).value] in DedupByNom(a) {
      assert SameNom(a[j].nom)(a[j]);
      var f := FirstIndex(a, SameNom(a[j].nom)).value;
      assert FirstOfNom(a, f);
    }
  }

  // ---------------------------------------------------------------------
  // Trips: fifteen random ones
  // ---------------------------------------------------------------------

  /** The draws one trip consumes: the departure city, the arrival city and
      its redraws, the day offset, the company, the hour, the price step and
      the bus. */
  datatype TripDraws = TripDraws(depart: real, arrivals: seq<real>, day: real, compagnie: real,
                                 heure: real, prix: real, bus: real)

  predicate DrawsOk(d: TripDraws) {
    IsDraw(d.depart) && |d.arrivals| > 0 && (forall k :: 0 <= k < |d.arrivals| ==> IsDraw(d.arrivals[k]))
    && IsDraw(d.day) && IsDraw(d.compagnie) && IsDraw(d.heure) && IsDraw(d.prix) && IsDraw(d.bus)
  }

  /** A draw that picks a city of another name than the departure. */
  function OtherCity(cities: seq<City>, dep: City): real -> bool {
    (r: real) => IsDraw(r) && |cities| > 0 && cities[Pick(|cities|, r)].nom != dep.nom
  }

  /** The arrival city: the first draw that picks another name; None when the
      given draws all pick the departure's name (the script would go on
      drawing). */
  function ArrivalFor(cities: seq<City>, dep: City, arrivals: seq<real>): (r: Option<City>)
    requires |cities| > 0 && forall k :: 0 <= k < |arrivals| ==> IsDraw(arrivals[k])
    ensures r.Some? ==> r.value in cities && r.value.nom != dep.nom
    ensures r.None? <==> forall k :: 0 <= k < |arrivals| ==> cities[Pick(|cities|, arrivals[k])].nom == dep.nom
  {
    match FirstIndex(arrivals, OtherCity(cities, dep))
    case None => None
    case Some(k) => Some(cities[Pick(|cities|, arrivals[k])])
  }

  /** The redraw loop: `while (villeArriveeData.nom === villeDepartData.nom)`. */
  method DrawArrival(cities: seq<City>, dep: City, arrivals: seq<real>) returns (arr: Option<City>)
    requires |cities| > 0 && |arrivals| > 0 && forall k :: 0 <= k < |arrivals| ==> IsDraw(arrivals[k])
    ensures arr == ArrivalFor(cities, dep, arrivals)
  {
    var k := 0;
    var candidate := cities[Pick(|cities|, arrivals[0])];
    while candidate.nom == dep.nom
      invariant 0 <= k < |arrivals| && candidate == cities[Pick(|cities|, arrivals[k])]
      invariant forall j :: 0 <= j < k ==> !OtherCity(cities, dep)(arrivals[j])
      decreases |arrivals| - k
    {
      if k + 1 == |arrivals| {
        return None;
      }
      k := k + 1;
      candidate := cities[Pick(|cities|, arrivals[k])];
    }
    assert OtherCity(cities, dep)(arrivals[k]);
    return Some(candidate);
  }

  /** The trip document built from its draws: `setUTCDate(+1..14)` keeps the
      time of day, the price is a whole thousand from 5000 to 19000. */
  function TripFor(dep: City, arr: City, buses: seq<B.Bus>, now: Instant, d: TripDraws, id: Id): T.Trajet
    requires |buses| > 0 && DrawsOk(d) && ValidInstant(now)
  {
    T.Trajet(id, dep.nom, arr.nom, dep.coords, arr.coords,
             NouvellesCompagnies[Pick(|NouvellesCompagnies|, d.compagnie)],
             At(AddDays(now.date, Pick(14, d.day) + 1), now.ms),
             HeuresDepart[Pick(3, d.heure)],
             (Pick(15, d.prix) + 5) * 1000, TripSeats,
             Some(buses[Pick(|buses|, d.bus)].id), true)
  }

  /** Trip i, or None when its arrival draws run out. */
  function TripAt(cities: seq<City>, buses: seq<B.Bus>, now: Instant, d: TripDraws, id: Id): (t: Option<T.Trajet>)
    requires |cities| > 0 && |buses| > 0 && DrawsOk(d) && ValidInstant(now)
  {
    var dep := cities[Pick(|cities|, d.depart)];
    match ArrivalFor(cities, dep, d.arrivals)
    case None => None
    case Some(arr) => Some(TripFor(dep, arr, buses, now, d, id))
  }

  predicate TripDrawsOk(draws: seq<TripDraws>) {
    |draws| == TripCount && forall i :: 0 <= i < |draws| ==> DrawsOk(draws[i])
  }

  /** All fifteen trips, or None when some trip's arrival draws run out. */
  function PlannedTrips(cities: seq<City>, buses: seq<B.Bus>, now: Instant, draws: seq<TripDraws>, ids: seq<Id>)
    : (r: Option<seq<T.Trajet>>)
    requires |cities| > 0 && |buses| > 0 && ValidInstant(now) && TripDrawsOk(draws) && |ids| == TripCount
    ensures r.Some? ==> |r.value| == TripCount
  {
    if forall i :: 0 <= i < TripCount ==> TripAt(cities, buses, now, draws[i], ids[i]).Some? then
      Some(seq(TripCount, i requires 0 <= i < TripCount => TripAt(cities, buses, now, draws[i], ids[i]).value))
    else None
  }

  /** Step 5: the loop of fifteen rounds building `trajetsACreer`. */
  method GenerateTrips(cities: seq<City>, buses: seq<B.Bus>, now: Instant, draws: seq<TripDraws>, ids: seq<Id>)
    returns (trips: Option<seq<T.Trajet>>)
    requires |cities| > 0 && |buses| > 0 && ValidInstant(now) && TripDrawsOk(draws) && |ids| == TripCount
    ensures trips == PlannedTrips(cities, buses, now, draws, ids)
  {
    var trajetsACreer: seq<T.Trajet> := [];
    var i := 0;
    while i < TripCount
      invariant 0 <= i <= TripCount && |trajetsACreer| == i
      invariant forall j :: 0 <= j < i ==> TripAt(cities, buses, now, draws[j], ids[j]).Some?
                                           && trajetsACreer[j] == TripAt(cities, buses, now, draws[j], ids[j]).value
    {
      var dep := cities[Pick(|cities|, draws[i].depart)];
      var arr := DrawArrival(cities, dep, draws[i].arrivals);
      if arr.None? {
        assert TripAt(cities, buses, now, draws[i], ids[i]).None?;
        return None;
      }
      trajetsACreer := trajetsACreer + [TripFor(dep, arr.value, buses, now, draws[i], ids[i])];
      i := i + 1;
    }
    assert trajetsACreer == PlannedTrips(cities, buses, now, draws, ids).value;
    return Some(trajetsACreer);
  }

  /** Every generated trip links cities of different names from the list,
      leaves 1 to 14 UTC days after now at the same time of day, costs a
      whole thousand from 5000 to 19000, has one of the three hours and
      companies, 50 seats, is active and runs on one of the given buses. */
  lemma TripBounds(cities: seq<City>, buses: seq<B.Bus>, now: Instant, d: TripDraws, id: Id)
    requires |cities| > 0 && |buses| > 0 && DrawsOk(d) && ValidInstant(now)
    requires TripAt(cities, buses, now, d, id).Some?
    ensures var t := TripAt(cities, buses, now, d, id).value;
            t.id == id && t.villeDepart != t.villeArrivee
            && (exists i :: 0 <= i < |cities| && cities[i].nom == t.villeDepart && cities[i].coords == t.coordsDepart)
            && (exists i :: 0 <= i < |cities| && cities[i].nom == t.villeArrivee && cities[i].coords == t.coordsArrivee)
            && (exists k :: 1 <= k <= 14 && t.dateDepart == At(AddDays(now.date, k), now.ms))
            && 5000 <= t.prix <= 19000 && t.prix % 1000 == 0
            && t.heureDepart in HeuresDepart && t.compagnie in NouvellesCompagnies
            && t.placesDisponibles == TripSeats && t.isActive
            && t.bus.Some? && exists b :: 0 <= b < |buses| && buses[b].id == t.bus.value
  {
    var dep := cities[Pick(|cities|, d.depart)];
    var arr := ArrivalFor(cities, dep, d.arrivals).value;
    var t := TripAt(cities, buses, now, d, id).value;
    assert t == TripFor(dep, arr, buses, now, d, id);
    assert t.dateDepart == At(AddDays(now.date, Pick(14, d.day) + 1), now.ms);
    var b := Pick(|buses|, d.bus);
    assert t.bus == Some(buses[b].id);
    var i :| 0 <= i < |cities| && cities[i] == arr;
  }

  /** Each planned trip is TripAt of its draws. */
  lemma PlannedTripAt(cities: seq<City>, buses: seq<B.Bus>, now: Instant, draws: seq<TripDraws>, ids: seq<Id>, i: nat)
    requires |cities| > 0 && |buses| > 0 && ValidInstant(now) && TripDrawsOk(draws) && |ids| == TripCount
    requires PlannedTrips(cities, buses, now, draws, ids).Some? && i < TripCount
    ensures TripAt(cities, buses, now, draws[i], ids[i]).Some?
    ensures PlannedTrips(cities, buses, now, draws, ids).value[i] == TripAt(cities, buses, now, draws[i], ids[i]).value
  {
  }

  // ---------------------------------------------------------------------
  // The whole script
  // ---------------------------------------------------------------------

  function InService(): B.Bus -> bool {
    (b: B.Bus) => b.etat == B.EnService
  }

  /** Every city of the script's lists has a name. */
  lemma ScriptCitiesNamed()
    ensures forall k :: 0 <= k < |VillesExistantes + NouvellesVilles| ==> (VillesExistantes + NouvellesVilles)[k].nom != ""
  {
  }

  /** A trip built from named cities passes the schema. */
  lemma PlannedTripsValid(cities: seq<City>, buses: seq<B.Bus>, now: Instant, draws: seq<TripDraws>, ids: seq<Id>)
    requires |cities| > 0 && |buses| > 0 && ValidInstant(now) && TripDrawsOk(draws) && |ids| == TripCount
    requires forall k :: 0 <= k < |cities| ==> cities[k].nom != ""
    requires PlannedTrips(cities, buses, now, draws, ids).Some?
    ensures var t := PlannedTrips(cities, buses, now, draws, ids).value;
            forall i :: 0 <= i < |t| ==> T.Valid(t[i]) && t[i].id == ids[i]
  {
    var t := PlannedTrips(cities, buses, now, draws, ids).value;
    forall i | 0 <= i < |t| ensures T.Valid(t[i]) && t[i].id == ids[i] {
      PlannedTripAt(cities, buses, now, draws, ids, i);
      var d := draws[i];
      var dep := cities[Pick(|cities|, d.depart)];
      var arr := ArrivalFor(cities, dep, d.arrivals).value;
      assert t[i] == TripFor(dep, arr, buses, now, d, ids[i]);
      assert NouvellesCompagnies[Pick(|NouvellesCompagnies|, d.compagnie)] != "";
      assert HeuresDepart[Pick(3, d.heure)] != "";
    }
  }

  /** insertMany of documents with fresh, distinct ids that pass the schema. */
  lemma InsertKeepsTable(s: seq<T.Trajet>, t: seq<T.Trajet>, ids: seq<Id>)
    requires TrajetTable(s) && FreshIds(s, TrajetKey, ids) && |t| == |ids|
    requires forall i :: 0 <= i < |t| ==> T.Valid(t[i]) && t[i].id == ids[i]
    ensures TrajetTable(s + t)
  {
    var r := s + t;
    forall i, j | 0 <= i < j < |r| ensures TrajetKey(r[i]) != TrajetKey(r[j]) {
      if i >= |s| {
        assert r[i] == t[i - |s|] && r[j] == t[j - |s|];
      } else if j >= |s| {
        assert r[j] == t[j - |s|];
        assert Fresh(s, TrajetKey, ids[j - |s|]);
      }
    }
    forall i | 0 <= i < |r| ensures T.Valid(r[i]) {
      if i >= |s| {
        assert r[i] == t[i - |s|];
      }
    }
  }

  /** How the script ends; the count of added buses is logged in every case. */
  datatype Outcome = Added(busAjoutes: nat, trajetsCrees: nat)
                   | NoBusInService(busAjoutes: nat)
                   | DrawsRanOut(busAjoutes: nat)

  /** The cities the trips are drawn from. */
  function ScriptCities(): (r: seq<City>)
    ensures |r| > 0 && forall k :: 0 <= k < |r| ==> r[k].nom != ""
  {
    var a := VillesExistantes + NouvellesVilles;
    DedupByNomFacts(a);
    ScriptCitiesNamed();
    assert a[FirstIndex(a, SameNom(a[0].nom)).value] in DedupByNom(a);
    DedupByNom(a)
  }

  /** addData: buses first; with no bus in service the error is thrown
      before any trip is made; otherwise the fifteen trips on the buses in
      service are inserted together. */
  method Run(db: Database, busIds: seq<Id>, tripIds: seq<Id>, now: Instant, draws: seq<TripDraws>)
    returns (o: Outcome)
    requires BusTable(db.buses) && TrajetTable(db.trajets)
    requires |busIds| == |NouveauxBus| && FreshIds(db.buses, BusKey, busIds)
    requires |tripIds| == TripCount && FreshIds(db.trajets, TrajetKey, tripIds)
    requires ValidInstant(now) && TripDrawsOk(draws)
    modifies db`buses, db`trajets
    ensures BusTable(db.buses) && TrajetTable(db.trajets)
    ensures db.buses == old(db.buses) + NewBuses(old(db.buses), NouveauxBus, busIds, |NouveauxBus|)
    ensures o.busAjoutes == NewNumbers(old(db.buses), NouveauxBus, |NouveauxBus|)
    ensures var service := Filter(db.buses, InService());
            (o.NoBusInService? <==> service == [])
            && (service != [] ==>
                  var planned := PlannedTrips(ScriptCities(), service, now, draws, tripIds);
                  (o.Added? <==> planned.Some?)
                  && (o.Added? ==> o.trajetsCrees == TripCount && db.trajets == old(db.trajets) + planned.value))
            && (!o.Added? ==> db.trajets == old(db.trajets))
  {
    ScriptBusesAccepted();
    var busAjoutes := AddBuses(db, NouveauxBus, busIds);
    var allBuses := Filter(db.buses, InService());
    if |allBuses| == 0 {
      return NoBusInService(busAjoutes);
    }
    var cities := ScriptCities();
    var trips := GenerateTrips(cities, allBuses, now, draws, tripIds);
    if trips.None? {
      return DrawsRanOut(busAjoutes);
    }
    PlannedTripsValid(cities, allBuses, now, draws, tripIds);
    InsertKeepsTable(db.trajets, trips.value, tripIds);
    db.trajets := db.trajets + trips.value;
    return Added(busAjoutes, |trips.value|);
  }

  /** Every trip the script adds runs on a bus in service: its bus is
      drawn from the buses the filter kept, all of them "en service". */
  lemma TripOnBusInService(cities: seq<City>, buses: seq<B.Bus>, now: Instant, d: TripDraws, id: Id)
    requires |buses| > 0 && |cities| > 0 && DrawsOk(d) && ValidInstant(now)
    requires forall k :: 0 <= k < |buses| ==> buses[k].etat == B.EnService
    requires TripAt(cities, buses, now, d, id).Some?
    ensures var t := TripAt(cities, buses, now, d, id).value;
            t.bus.Some? && exists b :: 0 <= b < |buses| && buses[b].id == t.bus.value && buses[b].etat == B.EnService
  {
    var dep := cities[Pick(|cities|, d.depart)];
    var arr := ArrivalFor(cities, dep, d.arrivals).value;
    assert TripAt(cities, buses, now, d, id).value == TripFor(dep, arr, buses, now, d, id);
  }
}
