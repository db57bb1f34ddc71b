// The older trip schema of models/Trajet.js, used by controllers/trajets.js,
// controllers/reservations.js and seed.js: no GPS points, no `isActive`, and
// the bus embedded as a { numero, capacite } record.

module LegacyTrajetModel {
  import opened Common
  import opened Calendar

  datatype EmbeddedBus = EmbeddedBus(numero: string, capacite: int)

  datatype Trajet = Trajet(
    id: Id,
    villeDepart: string,
    villeArrivee: string,
    compagnie: string,
    dateDepart: Instant,
    heureDepart: string,      // a plain string, no format constraint
    prix: int,
    placesDisponibles: int,   // no minimum
    bus: EmbeddedBus)

  /** A stored trip as the schema's validators accept it. */
  predicate Valid(t: Trajet) {
    t.villeDepart != "" && t.villeArrivee != "" && t.compagnie != ""
    && t.heureDepart != "" && ValidInstant(t.dateDepart) && t.bus.numero != ""
  }

  /** Taking seats off a trip (`trajet.placesDisponibles -= n; trajet.save()`):
      only the seat count changes, and the schema still accepts the trip. */
  function TakeSeats(t: Trajet, n: int): (r: Trajet)
    ensures r.placesDisponibles == t.placesDisponibles - n
    ensures r == t.(placesDisponibles := r.placesDisponibles)
    ensures Valid(t) ==> Valid(r)
  {
    t.(placesDisponibles := t.placesDisponibles - n)
  }
}
