// The trip schema of models/trajet.model.js: required city names, GPS
// points, company, date, time string, price and seat count; an optional bus
// reference and an `isActive` flag that defaults to true.

module TrajetModel {
  import opened Common
  import opened Calendar

  datatype Trajet = Trajet(
    id: Id,
    villeDepart: string,
    villeArrivee: string,
    coordsDepart: Point,
    coordsArrivee: Point,
    compagnie: string,
    dateDepart: Instant,
    heureDepart: string,
    prix: int,
    placesDisponibles: int,   // no lower bound in the schema
    bus: Option<Id>,
    isActive: bool)

  /** A stored trip as the schema's validators accept it: required strings are
      not "", and the date is a calendar date. */
  predicate Valid(t: Trajet) {
    t.villeDepart != "" && t.villeArrivee != "" && t.compagnie != ""
    && t.heureDepart != "" && ValidInstant(t.dateDepart)
  }

  /** The fields of a request body that the schema knows; others are dropped. */
  datatype TrajetInput = TrajetInput(
    villeDepart: Option<string>,
    villeArrivee: Option<string>,
    coordsDepart: Option<PointInput>,
    coordsArrivee: Option<PointInput>,
    compagnie: Option<string>,
    dateDepart: Option<Instant>,
    heureDepart: Option<string>,
    prix: Option<int>,
    placesDisponibles: Option<int>,
    bus: Option<Id>,
    isActive: Option<bool>)

  const EmptyInput: TrajetInput :=
    TrajetInput(None, None, None, None, None, None, None, None, None, None, None)

  predicate SetPointOk(p: Option<PointInput>) {
    p.Some? ==> IsComplete(p.value)
  }

  /** What `new Trajet(body).save()` accepts: every required path present and valid. */
  predicate CreateAccepted(b: TrajetInput) {
    Filled(b.villeDepart) && Filled(b.villeArrivee)
    && b.coordsDepart.Some? && IsComplete(b.coordsDepart.value)
    && b.coordsArrivee.Some? && IsComplete(b.coordsArrivee.value)
    && Filled(b.compagnie) && b.dateDepart.Some? && ValidInstant(b.dateDepart.value)
    && Filled(b.heureDepart) && b.prix.Some? && b.placesDisponibles.Some?
  }

  /** What an update with runValidators accepts: each path the body sets must pass. */
  predicate UpdateAccepted(b: TrajetInput) {
    SetStringOk(b.villeDepart) && SetStringOk(b.villeArrivee)
    && SetPointOk(b.coordsDepart) && SetPointOk(b.coordsArrivee)
    && SetStringOk(b.compagnie)
    && (b.dateDepart.Some? ==> ValidInstant(b.dateDepart.value))
    && SetStringOk(b.heureDepart)
  }

  /** Every path the body sets holds the body's value in r. */
  predicate TakesSetPaths(r: Trajet, b: TrajetInput) {
    (b.villeDepart.Some? ==> r.villeDepart == b.villeDepart.value)
    && (b.villeArrivee.Some? ==> r.villeArrivee == b.villeArrivee.value)
    && (b.coordsDepart.Some? && IsComplete(b.coordsDepart.value) ==> r.coordsDepart == PointOf(b.coordsDepart.value))
    && (b.coordsArrivee.Some? && IsComplete(b.coordsArrivee.value) ==> r.coordsArrivee == PointOf(b.coordsArrivee.value))
    && (b.compagnie.Some? ==> r.compagnie == b.compagnie.value)
    && (b.dateDepart.Some? ==> r.dateDepart == b.dateDepart.value)
    && (b.heureDepart.Some? ==> r.heureDepart == b.heureDepart.value)
    && (b.prix.Some? ==> r.prix == b.prix.value)
    && (b.placesDisponibles.Some? ==> r.placesDisponibles == b.placesDisponibles.value)
    && (b.bus.Some? ==> r.bus == b.bus)
    && (b.isActive.Some? ==> r.isActive == b.isActive.value)
  }

  /** Every path the body leaves out holds t's value in r. */
  predicate KeepsUnsetPaths(r: Trajet, t: Trajet, b: TrajetInput) {
    r.id == t.id
    && (b.villeDepart.None? ==> r.villeDepart == t.villeDepart)
    && (b.villeArrivee.None? ==> r.villeArrivee == t.villeArrivee)
    && (b.coordsDepart.None? ==> r.coordsDepart == t.coordsDepart)
    && (b.coordsArrivee.None? ==> r.coordsArrivee == t.coordsArrivee)
    && (b.compagnie.None? ==> r.compagnie == t.compagnie)
    && (b.dateDepart.None? ==> r.dateDepart == t.dateDepart)
    && (b.heureDepart.None? ==> r.heureDepart == t.heureDepart)
    && (b.prix.None? ==> r.prix == t.prix)
    && (b.placesDisponibles.None? ==> r.placesDisponibles == t.placesDisponibles)
    && (b.bus.None? ==> r.bus == t.bus)
    && (b.isActive.None? ==> r.isActive == t.isActive)
  }

  /** The document `new Trajet(body)` builds, with `isActive` defaulting to
      true; None when validation rejects the body. */
  function Create(id: Id, b: TrajetInput): (r: Option<Trajet>)
    ensures r.Some? <==> CreateAccepted(b)
    ensures r.Some? ==> Valid(r.value) && r.value.id == id && TakesSetPaths(r.value, b)
    ensures r.Some? && b.isActive.None? ==> r.value.isActive
    ensures r.Some? && b.bus.None? ==> r.value.bus.None?
  {
    if CreateAccepted(b) then
      Some(Trajet(id, b.villeDepart.value, b.villeArrivee.value,
                  PointOf(b.coordsDepart.value), PointOf(b.coordsArrivee.value),
                  b.compagnie.value, b.dateDepart.value, b.heureDepart.value,
                  b.prix.value, b.placesDisponibles.value, b.bus, Or(b.isActive, true)))
    else None
  }

  /** findByIdAndUpdate(id, body, { runValidators: true }) on the found trip:
      the paths the body sets are replaced, the others kept; None when a
      validator rejects the body. */
  function Update(t: Trajet, b: TrajetInput): (r: Option<Trajet>)
    ensures r.Some? <==> UpdateAccepted(b)
    ensures r.Some? ==> r.value.id == t.id
  {
    if UpdateAccepted(b) then
      Some(t.(villeDepart := Or(b.villeDepart, t.villeDepart),
              villeArrivee := Or(b.villeArrivee, t.villeArrivee),
              coordsDepart := if b.coordsDepart.Some? then PointOf(b.coordsDepart.value) else t.coordsDepart,
              coordsArrivee := if b.coordsArrivee.Some? then PointOf(b.coordsArrivee.value) else t.coordsArrivee,
              compagnie := Or(b.compagnie, t.compagnie),
              dateDepart := Or(b.dateDepart, t.dateDepart),
              heureDepart := Or(b.heureDepart, t.heureDepart),
              prix := Or(b.prix, t.prix),
              placesDisponibles := Or(b.placesDisponibles, t.placesDisponibles),
              bus := if b.bus.Some? then b.bus else t.bus,
              isActive := Or(b.isActive, t.isActive)))
    else None
  }

  /** An accepted update takes every path the body sets and keeps every other
      one, and a trip the schema accepted stays acceptable. */
  lemma UpdateSetsAndKeeps(t: Trajet, b: TrajetInput)
    requires UpdateAccepted(b)
    ensures TakesSetPaths(Update(t, b).value, b)
    ensures KeepsUnsetPaths(Update(t, b).value, t, b)
    ensures Valid(t) ==> Valid(Update(t, b).value)
  {
  }

  /** An update with an empty body leaves the trip as it is. */
  lemma UpdateWithNothing(t: Trajet)
    ensures Update(t, EmptyInput) == Some(t)
  {
  }

  /** Applying the same update twice is the same as applying it once. */
  lemma UpdateIdempotent(t: Trajet, b: TrajetInput)
    requires UpdateAccepted(b)
    ensures Update(Update(t, b).value, b) == Update(t, b)
  {
  }

  /** A body that creates a trip also passes the update validators. */
  lemma CreateBodyIsUpdateBody(b: TrajetInput)
    requires CreateAccepted(b)
    ensures UpdateAccepted(b)
  {
  }
}
