// The database as the handlers see it: one sequence per collection in
// natural (insertion) order, so that find() returns documents in that order
// and findOne() the first match. Each collection has an invariant made of its
// schema's validators, the uniqueness of `_id` and its unique indexes.

module Store {
  import opened Common
  import opened Collection
  import T = TrajetModel
  import R = ReservationModel
  import L = LiveTripModel
  import B = BusModel
  import Ch = ChauffeurModel
  import Cl = ClientModel
  import Co = ColisModel
  import LT = LegacyTrajetModel
  import LR = LegacyReservationModel

  // ---------------------------------------------------------------------
  // Keys and lookups
  // ---------------------------------------------------------------------

  function TrajetKey(t: T.Trajet): Id { t.id }
  function ReservationKey(r: R.Reservation): Id { r.id }
  function LiveTripKey(l: L.LiveTrip): Id { l.id }
  function BusKey(b: B.Bus): Id { b.id }
  function ChauffeurKey(c: Ch.Chauffeur): Id { c.id }
  function ClientKey(c: Cl.Client): Id { c.id }
  function ColisKey(c: Co.Colis): Id { c.id }
  function LegacyTrajetKey(t: LT.Trajet): Id { t.id }
  function LegacyReservationKey(r: LR.Reservation): Id { r.id }

  /** findById: the index of the document with that id. An absent id (an
      undefined request field) finds nothing. */
  function IndexOf<X>(s: seq<X>, key: X -> Id, id: Option<Id>): (r: Option<nat>)
    ensures r.Some? ==> id.Some? && r.value < |s| && key(s[r.value]) == id.value
    ensures r.None? <==> id.None? || forall j :: 0 <= j < |s| ==> key(s[j]) != id.value
    ensures r.Some? ==> forall j :: 0 <= j < r.value ==> key(s[j]) != id.value
  {
    if id.None? then None else FirstIndex(s, (x: X) => key(x) == id.value)
  }

  /** findById as the document itself. */
  function Lookup<X>(s: seq<X>, key: X -> Id, id: Option<Id>): (r: Option<X>)
    ensures r.Some? ==> id.Some? && r.value in s && key(r.value) == id.value
    ensures r.None? <==> id.None? || forall j :: 0 <= j < |s| ==> key(s[j]) != id.value
  {
    match IndexOf(s, key, id)
    case None => None
    case Some(i) => Some(s[i])
  }

  /** A hexadecimal digit of either case. */
  predicate HexDigit(c: char) {
    '0' <= c <= '9' || 'a' <= c <= 'f' || 'A' <= c <= 'F'
  }

  /** The string form of an ObjectId, as `_id.toString()` gives it: 24
      hexadecimal digits in lower case. */
  predicate ObjectIdString(s: string) {
    |s| == 24 && forall i :: 0 <= i < |s| ==> '0' <= s[i] <= '9' || 'a' <= s[i] <= 'f'
  }

  /** Mongoose's cast of a string to an ObjectId: 24 hexadecimal digits of
      either case name the ObjectId written with the same digits in lower
      case; anything else is a CastError (None). */
  function CastObjectId(s: string): (r: Option<Id>)
    ensures r.Some? <==> |s| == 24 && forall i :: 0 <= i < |s| ==> HexDigit(s[i])
    ensures r.Some? ==> ObjectIdString(r.value) && |r.value| == |s|
    ensures r.Some? ==> forall i :: 0 <= i < |s| ==> LowerChar(r.value[i]) == LowerChar(s[i])
  {
    if |s| == 24 && forall i :: 0 <= i < |s| ==> HexDigit(s[i]) then Some(Lower(s)) else None
  }

  /** The cast reads an ObjectId's string form, and that form upper-cased,
      as that same ObjectId. */
  lemma CastObjectIdIgnoresCase(id: Id)
    requires ObjectIdString(id)
    ensures CastObjectId(id) == Some(id)
    ensures CastObjectId(Upper(id)) == Some(id)
  {
    assert Lower(id) == id;
    assert Lower(Upper(id)) == id by {
      forall i | 0 <= i < |id|
        ensures Lower(Upper(id))[i] == id[i]
      {
        assert '0' <= id[i] <= '9' || 'a' <= id[i] <= 'f';
      }
    }
  }

  /** An id no document of the collection carries: what a new ObjectId is. */
  predicate Fresh<X>(s: seq<X>, key: X -> Id, id: Id) {
    forall j :: 0 <= j < |s| ==> key(s[j]) != id
  }

  /** With distinct ids, the document found is the only one with that id. */
  lemma IndexOfUnique<X>(s: seq<X>, key: X -> Id, id: Id, k: nat)
    requires DistinctBy(s, key) && k < |s| && key(s[k]) == id
    ensures IndexOf(s, key, Some(id)) == Some(k)
  {
    var r := IndexOf(s, key, Some(id));
    assert r.Some? && r.value <= k;
    assert key(s[r.value]) == key(s[k]);
  }

  /** Replacing a document by one with the same id keeps the ids distinct. */
  lemma DistinctAfterReplace<X>(s: seq<X>, key: X -> Id, k: nat, x: X)
    requires DistinctBy(s, key) && k < |s| && key(x) == key(s[k])
    ensures DistinctBy(s[k := x], key)
  {
  }

  /** Appending a document with a fresh id keeps the ids distinct. */
  lemma DistinctAfterAppend<X>(s: seq<X>, key: X -> Id, x: X)
    requires DistinctBy(s, key) && Fresh(s, key, key(x))
    ensures DistinctBy(s + [x], key)
  {
  }

  /** Deleting a document keeps the ids distinct. */
  lemma DistinctAfterRemove<X>(s: seq<X>, key: X -> Id, k: nat)
    requires DistinctBy(s, key) && k < |s|
    ensures DistinctBy(RemoveAt(s, k), key)
  {
  }

  // ---------------------------------------------------------------------
  // Collection invariants
  // ---------------------------------------------------------------------

  predicate TrajetTable(s: seq<T.Trajet>) {
    DistinctBy(s, TrajetKey) && forall i :: 0 <= i < |s| ==> T.Valid(s[i])
  }

  predicate ReservationTable(s: seq<R.Reservation>) {
    DistinctBy(s, ReservationKey) && forall i :: 0 <= i < |s| ==> R.Valid(s[i])
  }

  predicate LiveTripTable(s: seq<L.LiveTrip>) {
    DistinctBy(s, LiveTripKey) && L.OnePerTrajet(s) && forall i :: 0 <= i < |s| ==> L.Stored(s[i])
  }

  predicate BusTable(s: seq<B.Bus>) {
    DistinctBy(s, BusKey) && B.NumerosUnique(s) && forall i :: 0 <= i < |s| ==> B.Valid(s[i])
  }

  /** The driver collection, including the rule that the driver handlers
      keep: no bus is held by two drivers. */
  predicate ChauffeurTable(s: seq<Ch.Chauffeur>) {
    DistinctBy(s, ChauffeurKey) && Ch.BusesHeldOnce(s) && forall i :: 0 <= i < |s| ==> Ch.Valid(s[i])
  }

  predicate ClientTable(s: seq<Cl.Client>) {
    DistinctBy(s, ClientKey) && Cl.EmailsUnique(s) && forall i :: 0 <= i < |s| ==> Cl.Valid(s[i])
  }

  predicate ColisTable(s: seq<Co.Colis>) {
    DistinctBy(s, ColisKey) && Co.CodesUnique(s) && forall i :: 0 <= i < |s| ==> Co.Valid(s[i])
  }

  predicate LegacyTrajetTable(s: seq<LT.Trajet>) {
    DistinctBy(s, LegacyTrajetKey) && forall i :: 0 <= i < |s| ==> LT.Valid(s[i])
  }

  predicate LegacyReservationTable(s: seq<LR.Reservation>) {
    DistinctBy(s, LegacyReservationKey) && forall i :: 0 <= i < |s| ==> LR.Valid(s[i])
  }

  /** The collections of the mounted application. */
  class Database {
    var trajets: seq<T.Trajet>
    var reservations: seq<R.Reservation>
    var liveTrips: seq<L.LiveTrip>
    var buses: seq<B.Bus>
    var chauffeurs: seq<Ch.Chauffeur>
    var clients: seq<Cl.Client>
    var colis: seq<Co.Colis>

    /** An empty database. */
    constructor ()
      ensures trajets == [] && reservations == [] && liveTrips == [] && buses == []
      ensures chauffeurs == [] && clients == [] && colis == []
      ensures Valid()
    {
      trajets, reservations, liveTrips, buses := [], [], [], [];
      chauffeurs, clients, colis := [], [], [];
    }

    predicate Valid()
      reads this
    {
      TrajetTable(trajets) && ReservationTable(reservations) && LiveTripTable(liveTrips)
      && BusTable(buses) && ChauffeurTable(chauffeurs) && ClientTable(clients) && ColisTable(colis)
    }
  }

  /** The collections of the older models (models/Trajet.js and
      models/Reservation.js), used by the unmounted reservation and
      payment handlers. */
  class LegacyDatabase {
    var trajets: seq<LT.Trajet>
    var reservations: seq<LR.Reservation>

    constructor ()
      ensures trajets == [] && reservations == [] && Valid()
    {
      trajets, reservations := [], [];
    }

    predicate Valid()
      reads this
    {
      LegacyTrajetTable(trajets) && LegacyReservationTable(reservations)
    }
  }

  // ---------------------------------------------------------------------
  // Populated reservations and the seat ledger
  // ---------------------------------------------------------------------

  /** A reservation with its `trajet` populated: None once the trip is gone. */
  datatype Booking = Booking(reservation: R.Reservation, trajet: Option<T.Trajet>)

  function Populate(r: R.Reservation, trajets: seq<T.Trajet>): (b: Booking)
    ensures b.reservation == r
    ensures b.trajet.Some? ==> b.trajet.value in trajets && b.trajet.value.id == r.trajet
    ensures b.trajet.None? <==> forall j :: 0 <= j < |trajets| ==> trajets[j].id != r.trajet
  {
    Booking(r, Lookup(trajets, TrajetKey, Some(r.trajet)))
  }

  /** `.populate('trajet')` on a query result. */
  function PopulateAll(rs: seq<R.Reservation>, trajets: seq<T.Trajet>): (bs: seq<Booking>)
    ensures |bs| == |rs|
    ensures forall i :: 0 <= i < |rs| ==> bs[i] == Populate(rs[i], trajets)
  {
    seq(|rs|, i requires 0 <= i < |rs| => Populate(rs[i], trajets))
  }

  /** The seats a reservation holds on a trip: its count while it is not cancelled. */
  function Holds(trajet: Id): R.Reservation -> int {
    (r: R.Reservation) => if r.trajet == trajet && r.statut != R.Annulee then r.placesReservees else 0
  }

  /** The seats of a trip that reservations hold. */
  function Held(rs: seq<R.Reservation>, trajet: Id): int {
    SumOf(rs, Holds(trajet))
  }

  /** The seat ledger of a trip: free seats plus seats held. Creating a
      reservation and a first payment callback leave it as it was. */
  function Ledger(t: T.Trajet, rs: seq<R.Reservation>): int {
    t.placesDisponibles + Held(rs, t.id)
  }
}
