// The reservation schema of models/reservation.model.js: required trip and
// client references, a list of passengers, at least one seat, a reservation
// date defaulting to now and a status that starts as 'en_attente'.

module ReservationModel {
  import opened Common
  import opened Calendar

  datatype Statut = EnAttente | Confirmee | Annulee

  function StatutName(s: Statut): string {
    match s
    case EnAttente => "en_attente"
    case Confirmee => "confirmée"
    case Annulee => "annulée"
  }

  /** The enum validator: only the three names are accepted. */
  function ParseStatut(s: string): (r: Option<Statut>)
    ensures r.Some? ==> StatutName(r.value) == s
  {
    if s == "en_attente" then Some(EnAttente)
    else if s == "confirmée" then Some(Confirmee)
    else if s == "annulée" then Some(Annulee)
    else None
  }

  /** Every status name is accepted by the enum validator and means that status. */
  lemma StatutRoundTrip(st: Statut)
    ensures ParseStatut(StatutName(st)) == Some(st)
  {
  }

  const DefaultStatut: Statut := EnAttente
  const MinPlaces: int := 1

  datatype Passager = Passager(nom: string, prenom: string)

  /** A passenger as it arrives in a request body. */
  datatype PassagerInput = PassagerInput(nom: Option<string>, prenom: Option<string>)

  predicate PassagerAccepted(p: PassagerInput) {
    Filled(p.nom) && Filled(p.prenom)
  }

  predicate PassagersAccepted(ps: seq<PassagerInput>) {
    forall i :: 0 <= i < |ps| ==> PassagerAccepted(ps[i])
  }

  function Passagers(ps: seq<PassagerInput>): (r: seq<Passager>)
    requires PassagersAccepted(ps)
    ensures |r| == |ps|
    ensures forall i :: 0 <= i < |ps| ==> r[i].nom == ps[i].nom.value && r[i].prenom == ps[i].prenom.value
  {
    seq(|ps|, i requires 0 <= i < |ps| => Passager(ps[i].nom.value, ps[i].prenom.value))
  }

  datatype Reservation = Reservation(
    id: Id,
    trajet: Id,
    client: Id,
    passagers: seq<Passager>,
    placesReservees: int,
    dateReservation: Instant,
    statut: Statut,
    paymentId: Option<string>)

  /** A stored reservation as the schema's validators accept it. */
  predicate Valid(r: Reservation) {
    r.placesReservees >= MinPlaces
    && (forall i :: 0 <= i < |r.passagers| ==> r.passagers[i].nom != "" && r.passagers[i].prenom != "")
    && ValidInstant(r.dateReservation)
  }

  /** `new Reservation({...}).save()` with the given status; the date
      defaults to now. None when validation rejects the document. */
  function New(id: Id, trajet: Id, client: Id, passagers: seq<PassagerInput>,
               placesReservees: int, statut: Statut, now: Instant): (r: Option<Reservation>)
    requires ValidInstant(now)
    ensures r.Some? <==> placesReservees >= MinPlaces && PassagersAccepted(passagers)
    ensures r.Some? ==> Valid(r.value)
    ensures r.Some? ==> r.value.id == id && r.value.trajet == trajet && r.value.client == client
                        && r.value.placesReservees == placesReservees && r.value.statut == statut
                        && r.value.dateReservation == now && r.value.paymentId.None?
                        && |r.value.passagers| == |passagers|
  {
    if placesReservees >= MinPlaces && PassagersAccepted(passagers) then
      Some(Reservation(id, trajet, client, Passagers(passagers), placesReservees, now, statut, None))
    else None
  }

  /** The fields an admin update may carry. */
  datatype ReservationInput = ReservationInput(
    trajet: Option<Id>,
    client: Option<Id>,
    passagers: Option<seq<PassagerInput>>,
    placesReservees: Option<int>,
    statut: Option<string>,
    paymentId: Option<string>)

  /** What an update with runValidators accepts. */
  predicate UpdateAccepted(b: ReservationInput) {
    (b.passagers.Some? ==> PassagersAccepted(b.passagers.value))
    && (b.placesReservees.Some? ==> b.placesReservees.value >= MinPlaces)
    && (b.statut.Some? ==> ParseStatut(b.statut.value).Some?)
  }

  /** findByIdAndUpdate(id, body, { runValidators: true }) on the found
      reservation: set paths replaced, others kept, the seat count of the
      trip untouched; None when a validator rejects the body. */
  function Update(r: Reservation, b: ReservationInput): (u: Option<Reservation>)
    ensures u.Some? <==> UpdateAccepted(b)
    ensures u.Some? ==> u.value.id == r.id
    ensures u.Some? && Valid(r) ==> Valid(u.value)
    ensures u.Some? && b.statut.Some? ==> StatutName(u.value.statut) == b.statut.value
    ensures u.Some? && b.statut.None? ==> u.value.statut == r.statut
    ensures u.Some? && b.placesReservees.None? ==> u.value.placesReservees == r.placesReservees
    ensures u.Some? && b.trajet.None? ==> u.value.trajet == r.trajet
    ensures u.Some? && b.trajet.Some? ==> u.value.trajet == b.trajet.value
    ensures u.Some? && b.placesReservees.Some? ==> u.value.placesReservees == b.placesReservees.value
    ensures u.Some? ==> u.value.client == (if b.client.Some? then b.client.value else r.client)
    ensures u.Some? ==> u.value.passagers == (if b.passagers.Some? then Passagers(b.passagers.value) else r.passagers)
    ensures u.Some? ==> u.value.paymentId == (if b.paymentId.Some? then b.paymentId else r.paymentId)
    ensures u.Some? ==> u.value.dateReservation == r.dateReservation
  {
    if UpdateAccepted(b) then
      Some(r.(trajet := Or(b.trajet, r.trajet),
              client := Or(b.client, r.client),
              passagers := if b.passagers.Some? then Passagers(b.passagers.value) else r.passagers,
              placesReservees := Or(b.placesReservees, r.placesReservees),
              statut := if b.statut.Some? then ParseStatut(b.statut.value).value else r.statut,
              paymentId := if b.paymentId.Some? then b.paymentId else r.paymentId))
    else None
  }
}
