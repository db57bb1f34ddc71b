// The older reservation schema of models/Reservation.js, used by
// controllers/reservations.js: the client is an embedded contact record
// rather than a reference, and there are no passengers.

module LegacyReservationModel {
  import opened Common
  import opened Calendar
  import R = ReservationModel

  datatype ClientInput = ClientInput(nom: Option<string>, prenom: Option<string>,
                                     email: Option<string>, telephone: Option<string>)

  datatype Contact = Contact(nom: string, prenom: string, email: string, telephone: string)

  datatype Reservation = Reservation(
    id: Id,
    trajet: Id,
    client: Contact,
    placesReservees: int,
    dateReservation: Instant,
    statut: R.Statut)

  /** A stored reservation as the schema's validators accept it. */
  predicate Valid(r: Reservation) {
    r.client.nom != "" && r.client.prenom != "" && r.client.email != "" && r.client.telephone != ""
    && r.placesReservees >= R.MinPlaces && ValidInstant(r.dateReservation)
  }

  predicate ClientAccepted(c: ClientInput) {
    Filled(c.nom) && Filled(c.prenom) && Filled(c.email) && Filled(c.telephone)
  }

  /** `new Reservation({ trajet, client, placesReservees, statut }).save()`,
      the date defaulting to now; None when validation rejects it. */
  function New(id: Id, trajet: Id, client: ClientInput, placesReservees: int,
               statut: R.Statut, now: Instant): (r: Option<Reservation>)
    requires ValidInstant(now)
    ensures r.Some? <==> ClientAccepted(client) && placesReservees >= R.MinPlaces
    ensures r.Some? ==> Valid(r.value) && r.value.id == id && r.value.trajet == trajet
                        && r.value.placesReservees == placesReservees && r.value.statut == statut
                        && r.value.dateReservation == now
                        && r.value.client.email == client.email.value
  {
    if ClientAccepted(client) && placesReservees >= R.MinPlaces then
      Some(Reservation(id, trajet,
                       Contact(client.nom.value, client.prenom.value, client.email.value, client.telephone.value),
                       placesReservees, now, statut))
    else None
  }
}
